/** Port accounting: under which condition a registered listener's port is a reserved one. */
module Accounting {
  import opened Types
  import opened Strings
  import opened DedicatedPorts
  import opened World
  import opened Lifecycle
  import opened Registry

  ghost predicate RowsApart(tunnels: map<Id, Tunnel>) {
    forall t, u :: t in tunnels && u in tunnels && t != u ==> tunnels[t].publicPort != tunnels[u].publicPort
  }

  /** The port of every registered listener is reserved. */
  ghost predicate Accounted(n: Net) { forall t :: t in n.tasks ==> n.tasks[t].port in n.reserved }

  /** A listener whose row is gone shares its port with no row. */
  ghost predicate OrphansApart(tunnels: map<Id, Tunnel>, n: Net) {
    forall t, u :: t in n.tasks && t !in tunnels && u in tunnels ==> n.tasks[t].port != tunnels[u].publicPort
  }

  ghost predicate Balanced(tunnels: map<Id, Tunnel>, n: Net) { Accounted(n) && OrphansApart(tunnels, n) }

  /** Stopping some tunnels and giving their ports back is harmless exactly when no listener that stays is on one
      of these ports. */
  lemma ReleaseExact(n: Net, tunnels: map<Id, Tunnel>, ids: set<Id>)
    requires Accounted(n) && ids <= tunnels.Keys
    ensures Accounted(Release(n, tunnels, ids)) <==>
            forall u, t :: u in n.tasks && u !in ids && t in ids ==> n.tasks[u].port != tunnels[t].publicPort
  {
    var m := Release(n, tunnels, ids);
    var freed := set t | t in ids :: tunnels[t].publicPort;
    forall u, t | u in n.tasks && u !in ids && t in ids && n.tasks[u].port == tunnels[t].publicPort
      ensures u in m.tasks && m.tasks[u].port !in m.reserved
    {
      assert tunnels[t].publicPort in freed;
    }
  }

  /** Rows with ports of their own may be released together: no remaining listener is on one of them. */
  lemma ReleaseBalanced(n: Net, tunnels: map<Id, Tunnel>, ids: set<Id>)
    requires Balanced(tunnels, n) && RowsApart(tunnels) && ids <= tunnels.Keys
    requires forall t :: t in tunnels && t in n.tasks ==> n.tasks[t].port == tunnels[t].publicPort
    ensures Balanced(tunnels, Release(n, tunnels, ids))
    ensures forall t :: t in ids ==> t !in Release(n, tunnels, ids).tasks
  {
    var m := Release(n, tunnels, ids);
    forall t | t in m.tasks ensures m.tasks[t].port in m.reserved {
      forall u | u in ids ensures tunnels[u].publicPort != n.tasks[t].port {
        assert t in n.tasks && t !in ids;
      }
    }
  }

  lemma StartBalanced(n: Net, tunnels: map<Id, Tunnel>, c: Config, chan: Id, luck: set<Id>)
    requires Balanced(tunnels, n) && c.publicPort in n.reserved && c.id in tunnels
    ensures Balanced(tunnels, StartListener(n, c, chan, luck))
    ensures n.reserved == StartListener(n, c, chan, luck).reserved
  {
  }

  lemma {:induction false} SyncBalanced(n: Net, tunnels: map<Id, Tunnel>, cs: seq<Config>, chan: Id, luck: set<Id>)
    requires Balanced(tunnels, n) && forall i :: 0 <= i < |cs| ==> cs[i].id in tunnels
    ensures Balanced(tunnels, SyncRows(n, cs, chan, luck))
  {
    if cs != [] {
      var k := |cs| - 1;
      SyncBalanced(n, tunnels, cs[..k], chan, luck);
      var m := SyncRows(n, cs[..k], chan, luck);
      if cs[k].enabled {
        StartBalanced(m.(reserved := m.reserved + {cs[k].publicPort}), tunnels, cs[k], chan, luck);
      }
    }
  }

  ghost predicate BalancedWorld(w: World) { Balanced(w.db.tunnels, w.net) }

  lemma SocketBalanced(w: World, e: SocketEvent)
    requires BalancedWorld(w) && WiredWorld(w) && SocketPossible(w, e)
    requires RowsApart(w.db.tunnels)
    ensures BalancedWorld(SocketStep(w, e))
  {
    EnabledIfRegistered(w.db.tunnels, w.senders, w.net);
    hide SyncRows, Release, Balanced, RowsApart, Wired;
    match e
    case EAuth(s, token, hostname, rows, luck) =>
      if AuthListing(w, token, rows) && AgentByToken(w.db.agents, token).Some?
         && w.db.agents[AgentByToken(w.db.agents, token).value].claimCode.None? {
        SyncBalanced(w.net, w.db.tunnels, Configs(w.db.tunnels, rows), s, luck);
      }
    case EDisconnect(s) =>
      var a := w.sessions[s].agent;
      if a.Some? {
        ReleaseBalanced(w.net, w.db.tunnels, RowsOf(w.db.tunnels, a.value));
      }
    case _ =>
  }

  lemma AgentRowsGone(w: World, a: Id)
    requires BalancedWorld(w) && WiredWorld(w) && RowsApart(w.db.tunnels)
    ensures BalancedWorld(DeleteAgent(w, a))
  {
    EnabledIfRegistered(w.db.tunnels, w.senders, w.net);
  }

  lemma AccountBalanced(w: World, e: AccountEvent)
    requires BalancedWorld(w) && WiredWorld(w) && AccountPossible(w, e)
    requires RowsApart(w.db.tunnels)
    ensures BalancedWorld(AccountStep(w, e))
  {
    EnabledIfRegistered(w.db.tunnels, w.senders, w.net);
    hide SyncRows, Release, Balanced, RowsApart, Wired, Candidates, FirstFree, TakenPorts, NameTaken;
    match e
    case EClaim(uid, code, pick, rows, luck) =>
      if pick.Some? && code in w.pending {
        SyncBalanced(w.net, w.db.tunnels, Configs(w.db.tunnels, rows), w.pending[code], luck);
      }
    case EDeleteAgent(a) => AgentRowsGone(w, a);
    case EBan(uid) => ReleaseBalanced(w.net, w.db.tunnels, RowsOfUser(w.db.tunnels, uid));
    case _ =>
  }

  /** A row on a port that was not reserved joins no orphan, since orphans keep their ports reserved. */
  lemma RowAddedBalanced(n: Net, tunnels: map<Id, Tunnel>, t: Id, row: Tunnel, c: Config, chan: Id, luck: set<Id>)
    requires Balanced(tunnels, n) && row.publicPort !in n.reserved && t !in tunnels && t !in n.tasks
    requires c.id == t && c.publicPort == row.publicPort
    ensures var m := n.(reserved := n.reserved + {row.publicPort});
      Balanced(tunnels[t := row], m) && Balanced(tunnels[t := row], StartListener(m, c, chan, luck))
  {
    StartBalanced(n.(reserved := n.reserved + {row.publicPort}), tunnels[t := row], c, chan, luck);
  }

  lemma RowEditedBalanced(n: Net, tunnels: map<Id, Tunnel>, t: Id, row: Tunnel)
    requires Balanced(tunnels, n) && t in tunnels && row.publicPort == tunnels[t].publicPort
    ensures Balanced(tunnels[t := row], n)
    ensures Balanced(tunnels[t := row], n.(reserved := n.reserved + {row.publicPort}))
  {
  }

  lemma RowDeletedBalanced(n: Net, tunnels: map<Id, Tunnel>, t: Id)
    requires Balanced(tunnels, n) && t in tunnels && t !in n.tasks
    ensures Balanced(tunnels - {t}, n)
  {
  }

  lemma CreateBalanced(w: World, uid: Id, agent: Id, name: string, localPort: Port, protocol: string,
                       subdomain: Option<string>, now: int, luck: set<Id>)
    requires Tables(w) && BalancedWorld(w) && WiredWorld(w)
    ensures BalancedWorld(CreateTunnel(w, uid, agent, name, localPort, protocol, subdomain, now, luck).0)
  {
    if uid in w.db.users {
      var port := w.db.users[uid].dedicatedPort;
      var row := Tunnel(agent, uid, name, localPort, protocol, port, Clean(subdomain), true, now);
      var chan := if agent in w.senders then w.senders[agent] else 0;
      assert w.next !in w.net.tasks && w.next !in w.db.tunnels;
      assert BalancedWorld(w.(net := w.net.(reserved := w.net.reserved + {port})));
      if port !in w.net.reserved {
        RowAddedBalanced(w.net, w.db.tunnels, w.next, row, ConfigOf(w.next, row), chan, luck);
      }
    }
    hide StartListener, Balanced, Wired, TablesOk, Clean, SubdomainTaken;
  }

  lemma UpdateBalanced(w: World, tid: Id, name: string, localPort: Port, protocol: string,
                       subdomain: Option<string>, rows: seq<Id>, luck: set<Id>)
    requires BalancedWorld(w) && UpdateListing(w, tid, rows)
    ensures BalancedWorld(UpdateTunnel(w, tid, name, localPort, protocol, subdomain, rows, luck).0)
  {
    hide SyncRows, Balanced, Clean, SubdomainTaken;
    if tid in w.db.tunnels {
      var row := w.db.tunnels[tid].(name := name, localPort := localPort, protocol := protocol,
                                    subdomain := Clean(subdomain));
      RowEditedBalanced(w.net, w.db.tunnels, tid, row);
      if row.agent in w.senders {
        var tunnels := w.db.tunnels[tid := row];
        SyncBalanced(w.net, tunnels, Configs(tunnels, rows), w.senders[row.agent], luck);
      }
    }
  }

  lemma ToggleBalanced(w: World, tid: Id, luck: set<Id>)
    requires BalancedWorld(w) && WiredWorld(w) && RowsApart(w.db.tunnels)
    ensures BalancedWorld(ToggleTunnel(w, tid, luck).0)
  {
    if tid in w.db.tunnels {
      EnabledIfRegistered(w.db.tunnels, w.senders, w.net);
      hide Release, StartListener, Balanced, Wired, RowsApart;
      var row := w.db.tunnels[tid].(enabled := !w.db.tunnels[tid].enabled);
      var n := w.net.(reserved := w.net.reserved + {row.publicPort});
      if row.enabled {
        RowEditedBalanced(w.net, w.db.tunnels, tid, row);
        if row.agent in w.senders {
          StartBalanced(n, w.db.tunnels[tid := row], ConfigOf(tid, row), w.senders[row.agent], luck);
        }
      } else {
        ReleaseBalanced(w.net, w.db.tunnels, {tid});
        RowEditedBalanced(Release(w.net, w.db.tunnels, {tid}), w.db.tunnels, tid, row);
      }
    }
  }

  lemma DeleteBalanced(w: World, tid: Id)
    requires BalancedWorld(w) && WiredWorld(w) && RowsApart(w.db.tunnels)
    ensures BalancedWorld(DeleteTunnel(w, tid))
  {
    if tid in w.db.tunnels {
      EnabledIfRegistered(w.db.tunnels, w.senders, w.net);
      hide Release, Balanced, Wired, RowsApart;
      ReleaseBalanced(w.net, w.db.tunnels, {tid});
      RowDeletedBalanced(Release(w.net, w.db.tunnels, {tid}), w.db.tunnels, tid);
    }
  }

  /** While no two rows share a port, every step keeps the accounts balanced. */
  lemma BalancedKept(w: World, e: Event)
    requires Tables(w) && BalancedWorld(w) && WiredWorld(w) && Possible(w, e) && RowsApart(w.db.tunnels)
    ensures BalancedWorld(Step(w, e))
  {
    hide SocketStep, AccountStep, CreateTunnel, UpdateTunnel, ToggleTunnel, DeleteTunnel, TablesOk, Wired;
    match e
    case OnSocket(socket) => SocketBalanced(w, socket);
    case OnAccount(account) => AccountBalanced(w, account);
    case OnTunnel(ECreate(uid, agent, name, localPort, protocol, subdomain, now, luck)) =>
      CreateBalanced(w, uid, agent, name, localPort, protocol, subdomain, now, luck);
    case OnTunnel(EUpdate(tid, name, localPort, protocol, subdomain, rows, luck)) =>
      UpdateBalanced(w, tid, name, localPort, protocol, subdomain, rows, luck);
    case OnTunnel(EToggle(tid, luck)) => ToggleBalanced(w, tid, luck);
    case OnTunnel(EDelete(tid)) => DeleteBalanced(w, tid);
    case _ =>
  }

  // ---------- orphans ----------

  /** A registered listener whose row is gone. */
  ghost predicate Orphan(w: World, t: Id) { t in w.net.tasks && t !in w.db.tunnels && t < w.next }

  lemma {:induction false} SyncLeaves(n: Net, cs: seq<Config>, chan: Id, luck: set<Id>, t: Id)
    requires t in n.tasks && forall i :: 0 <= i < |cs| ==> cs[i].id != t
    ensures var m := SyncRows(n, cs, chan, luck); t in m.tasks && m.tasks[t] == n.tasks[t]
  {
    if cs != [] {
      SyncLeaves(n, cs[..|cs| - 1], chan, luck, t);
    }
  }

  ghost predicate SameHandle(w: World, v: World, t: Id) {
    Orphan(w, t) && Orphan(v, t) && v.net.tasks[t] == w.net.tasks[t]
  }

  lemma SocketOrphan(w: World, e: SocketEvent, t: Id)
    requires Orphan(w, t) && SocketPossible(w, e)
    ensures SameHandle(w, SocketStep(w, e), t)
  {
    hide SyncRows;
    if e.EAuth? && AgentByToken(w.db.agents, e.token).Some?
       && w.db.agents[AgentByToken(w.db.agents, e.token).value].claimCode.None? {
      SyncLeaves(w.net, Configs(w.db.tunnels, e.rows), e.s, e.luck, t);
    }
  }

  lemma AccountOrphan(w: World, e: AccountEvent, t: Id)
    requires Orphan(w, t) && AccountPossible(w, e)
    ensures SameHandle(w, AccountStep(w, e), t)
  {
    hide SyncRows, Candidates, FirstFree, TakenPorts, NameTaken;
    if e.EClaim? && e.pick.Some? && e.code in w.pending {
      SyncLeaves(w.net, Configs(w.db.tunnels, e.rows), w.pending[e.code], e.luck, t);
    }
  }

  lemma UpdateOrphan(w: World, e: TunnelEvent, t: Id)
    requires Orphan(w, t) && e.EUpdate? && TunnelPossible(w, e)
    ensures SameHandle(w, TunnelStep(w, e), t)
  {
    hide SyncRows, Clean, SubdomainTaken, CreateTunnel, ToggleTunnel, DeleteTunnel;
    if e.tid in w.db.tunnels && w.db.tunnels[e.tid].agent in w.senders {
      var row := w.db.tunnels[e.tid].(name := e.name, localPort := e.localPort, protocol := e.protocol,
                                      subdomain := Clean(e.subdomain));
      var tunnels := w.db.tunnels[e.tid := row];
      SyncLeaves(w.net, Configs(tunnels, e.rows), w.senders[row.agent], e.luck, t);
    }
  }

  lemma CreateOrphan(w: World, e: TunnelEvent, t: Id)
    requires Orphan(w, t) && e.ECreate?
    ensures SameHandle(w, TunnelStep(w, e), t)
  {
    hide Clean, SubdomainTaken, Busy, UpdateTunnel, ToggleTunnel, DeleteTunnel;
  }

  lemma TunnelOrphan(w: World, e: TunnelEvent, t: Id)
    requires Orphan(w, t) && TunnelPossible(w, e)
    ensures SameHandle(w, TunnelStep(w, e), t)
  {
    hide CreateTunnel, UpdateTunnel, Busy;
    if e.EUpdate? {
      UpdateOrphan(w, e, t);
    } else if e.ECreate? {
      CreateOrphan(w, e, t);
    }
  }

  /** Only a restart removes an orphan from the registry. */
  lemma OrphanKept(w: World, e: Event, t: Id)
    requires Orphan(w, t) && Possible(w, e) && !e.ERestart?
    ensures SameHandle(w, Step(w, e), t)
  {
    hide SocketStep, AccountStep, TunnelStep;
    match e
    case OnSocket(socket) => SocketOrphan(w, socket, t);
    case OnAccount(account) => AccountOrphan(w, account, t);
    case OnTunnel(tunnel) => TunnelOrphan(w, tunnel, t);
    case _ =>
  }
}
