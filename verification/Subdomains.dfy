/** Subdomain uniqueness under atomic handlers. */
module Subdomains {
  import opened Types
  import opened Strings
  import opened DedicatedPorts
  import opened World

  /** Stored subdomains are trimmed, not empty, and pairwise distinct up to ASCII case. */
  ghost predicate SubdomainsOk(tunnels: map<Id, Tunnel>) {
    && (forall t :: t in tunnels && tunnels[t].subdomain.Some? ==>
          tunnels[t].subdomain.value != "" && Trimmed(tunnels[t].subdomain.value))
    && (forall t, u :: t in tunnels && u in tunnels && t != u
                       && tunnels[t].subdomain.Some? && tunnels[u].subdomain.Some? ==>
          Lower(tunnels[t].subdomain.value) != Lower(tunnels[u].subdomain.value))
  }

  /** A checked subdomain may be stored in a new row, or in the row the check left out. */
  lemma CheckedStored(tunnels: map<Id, Tunnel>, t: Id, row: Tunnel, except: Option<Id>)
    requires SubdomainsOk(tunnels)
    requires except == Some(t) || (except == None && t !in tunnels)
    requires row.subdomain.Some? ==>
               row.subdomain.value != "" && Trimmed(row.subdomain.value)
               && !SubdomainTaken(tunnels, row.subdomain.value, except)
    ensures SubdomainsOk(tunnels[t := row])
  {
    hide Trimmed, Lower;
    if row.subdomain.Some? {
      forall u | u in tunnels && u != t && tunnels[u].subdomain.Some?
        ensures Lower(tunnels[u].subdomain.value) != Lower(row.subdomain.value)
      {
      }
    }
  }

  lemma RowsRemoved(tunnels: map<Id, Tunnel>, ids: set<Id>)
    requires SubdomainsOk(tunnels)
    ensures SubdomainsOk(tunnels - ids)
  {
    hide Trimmed, Lower;
  }

  lemma RowToggled(tunnels: map<Id, Tunnel>, t: Id, enabled: bool)
    requires SubdomainsOk(tunnels) && t in tunnels
    ensures SubdomainsOk(tunnels[t := tunnels[t].(enabled := enabled)])
  {
    hide Trimmed, Lower;
  }

  lemma CreateSubdomains(w: World, e: TunnelEvent)
    requires e.ECreate? && SubdomainsOk(w.db.tunnels) && w.next !in w.db.tunnels
    ensures SubdomainsOk(TunnelStep(w, e).db.tunnels)
  {
    var clean := Clean(e.subdomain);
    assert clean.Some? ==> clean.value != "" && Trimmed(clean.value);
    hide Lower, Trimmed, Clean, SubdomainTaken, SubdomainsOk, StartListener, UpdateTunnel, ToggleTunnel;
    if e.uid in w.db.users && (clean.None? || !SubdomainTaken(w.db.tunnels, clean.value, None)) {
      var row := Tunnel(e.agent, e.uid, e.name, e.localPort, e.protocol, w.db.users[e.uid].dedicatedPort, clean,
                        true, e.now);
      CheckedStored(w.db.tunnels, w.next, row, None);
    }
  }

  lemma UpdateSubdomains(w: World, e: TunnelEvent)
    requires e.EUpdate? && SubdomainsOk(w.db.tunnels) && TunnelPossible(w, e)
    ensures SubdomainsOk(TunnelStep(w, e).db.tunnels)
  {
    var clean := Clean(e.subdomain);
    assert clean.Some? ==> clean.value != "" && Trimmed(clean.value);
    hide Lower, Trimmed, Clean, SubdomainTaken, SubdomainsOk, SyncRows, Configs, CreateTunnel, ToggleTunnel;
    if e.tid in w.db.tunnels && (clean.None? || !SubdomainTaken(w.db.tunnels, clean.value, Some(e.tid))) {
      var row := w.db.tunnels[e.tid].(name := e.name, localPort := e.localPort, protocol := e.protocol,
                                      subdomain := clean);
      CheckedStored(w.db.tunnels, e.tid, row, Some(e.tid));
    }
  }

  lemma TunnelSubdomains(w: World, e: TunnelEvent)
    requires SubdomainsOk(w.db.tunnels) && TunnelPossible(w, e) && w.next !in w.db.tunnels
    ensures SubdomainsOk(TunnelStep(w, e).db.tunnels)
  {
    match e
    case ECreate(_, _, _, _, _, _, _, _) => CreateSubdomains(w, e);
    case EUpdate(_, _, _, _, _, _, _) => UpdateSubdomains(w, e);
    case EToggle(tid, luck) =>
      hide SubdomainsOk, StartListener, Release, CreateTunnel, UpdateTunnel;
      if tid in w.db.tunnels {
        RowToggled(w.db.tunnels, tid, !w.db.tunnels[tid].enabled);
      }
    case EDelete(tid) =>
      hide SubdomainsOk, Release, CreateTunnel, UpdateTunnel;
      RowsRemoved(w.db.tunnels, {tid});
  }

  lemma AccountSubdomains(w: World, e: AccountEvent)
    requires SubdomainsOk(w.db.tunnels) && AccountPossible(w, e)
    ensures SubdomainsOk(AccountStep(w, e).db.tunnels)
  {
    hide SubdomainsOk, SyncRows, Configs, Release, IsListing, Candidates, FirstFree, TakenPorts, NameTaken;
    if e.EDeleteAgent? {
      RowsRemoved(w.db.tunnels, RowsOf(w.db.tunnels, e.a));
    }
  }

  lemma SubdomainsKept(w: World, e: Event)
    requires SubdomainsOk(w.db.tunnels) && Possible(w, e) && w.next !in w.db.tunnels
    ensures SubdomainsOk(Step(w, e).db.tunnels)
  {
    hide SubdomainsOk, SyncRows, Configs, Release, IsListing, TunnelStep, AccountStep;
    match e
    case OnTunnel(tunnel) => TunnelSubdomains(w, tunnel);
    case OnAccount(account) => AccountSubdomains(w, account);
    case _ =>
  }
}
