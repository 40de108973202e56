/** The main theorems about the lifecycle: what holds in every state of every run from an empty database. */
module Runs {
  import opened Types
  import opened Strings
  import opened World
  import opened Lifecycle
  import opened Listeners
  import opened Registry
  import opened Claims
  import opened Subdomains
  import opened Accounting
  import opened Reservations
  import opened Effects

  ghost predicate Inv(w: World) {
    Tables(w) && WiredWorld(w) && OwnedOrClaimable(w.db.agents) && SubdomainsOk(w.db.tunnels)
  }

  lemma InvAtStart(lo: Port, hi: Port)
    ensures Inv(Start(lo, hi)) && BalancedWorld(Start(lo, hi))
    ensures Waits(Start(lo, hi)) && Heard(Start(lo, hi)) && Fed(Start(lo, hi)) && CodesDistinct(Start(lo, hi).db.agents)
  {
    var w := Start(lo, hi);
    assert forall t :: RowAgrees(w.db.tunnels, w.senders, w.net, t);
  }

  lemma InvKept(w: World, e: Event)
    requires Inv(w) && Possible(w, e)
    ensures Inv(Step(w, e)) && StepGrows(w, Step(w, e)) && OwnersFinal(w.db.agents, Step(w, e).db.agents, w.next)
  {
    assert w.next !in w.db.tunnels;
    hide TablesOk, Wired, OwnedOrClaimable, SubdomainsOk, Step;
    TablesKept(w, e);
    WiredKept(w, e);
    OwnershipKept(w, e);
    SubdomainsKept(w, e);
  }

  lemma {:induction false} RunInv(ws: seq<World>, es: seq<Event>, i: nat)
    requires IsRun(ws, es) && i < |ws|
    ensures Inv(ws[i])
  {
    hide Inv, Step;
    if i == 0 {
      InvAtStart(ws[0].lo, ws[0].hi);
    } else {
      RunInv(ws, es, i - 1);
      InvKept(ws[i - 1], es[i - 1]);
    }
  }

  /** Registry agreement. In every state, a row with an entry in tunnel_tasks is enabled, its agent has a
      sender, and the entry was started for its present port and protocol with exactly that sender; and
      every listener that still runs has an entry, and an address of its own. */
  lemma RegistryAgreement(ws: seq<World>, es: seq<Event>, i: nat)
    requires IsRun(ws, es) && i < |ws|
    ensures forall t :: t in ws[i].db.tunnels && t in ws[i].net.tasks ==>
      var row, l := ws[i].db.tunnels[t], ws[i].net.tasks[t];
      && row.enabled && row.agent in ws[i].senders && l.chan == ws[i].senders[row.agent]
      && l.tunnel == t && l.port == row.publicPort
      && (l.kind == Tcp <==> Lower(row.protocol) == "tcp")
    ensures forall l :: l in ws[i].net.live ==> l.tunnel in ws[i].net.tasks && ws[i].net.tasks[l.tunnel] == l
    ensures forall l, m :: l in ws[i].net.live && m in ws[i].net.live && l.kind == m.kind && l.port == m.port ==> l == m
  {
    RunInv(ws, es, i);
    var w := ws[i];
    forall t | t in w.db.tunnels && t in w.net.tasks
      ensures w.db.tunnels[t].enabled && w.db.tunnels[t].agent in w.senders
      ensures w.net.tasks[t] == ListenerOf(ConfigOf(t, w.db.tunnels[t]), w.senders[w.db.tunnels[t].agent])
    {
      assert RowAgrees(w.db.tunnels, w.senders, w.net, t);
    }
    hide Tables, Step, Agree, AtHome, OwnedOrClaimable, SubdomainsOk, Lower;
  }

  lemma {:induction false} RunGrows(ws: seq<World>, es: seq<Event>, i: nat, j: nat)
    requires IsRun(ws, es) && i <= j < |ws|
    ensures ws[i].next <= ws[j].next
    ensures forall u :: u in ws[i].db.users ==>
      u in ws[j].db.users && ws[j].db.users[u].dedicatedPort == ws[i].db.users[u].dedicatedPort
    ensures forall t :: t in ws[i].creator ==> t in ws[j].creator && ws[j].creator[t] == ws[i].creator[t]
    decreases j - i
  {
    if i < j {
      RunInv(ws, es, i);
      InvKept(ws[i], es[i]);
      RunGrows(ws, es, i + 1, j);
    }
  }

  /** Port isolation. Two tunnels that at any two moments of a run have registered listeners on one public
      port were created by the same user, even if the rows are gone or the relay restarted in between. */
  lemma PortIsolation(ws: seq<World>, es: seq<Event>, i: nat, t: Id, j: nat, u: Id)
    requires IsRun(ws, es) && i <= j < |ws|
    requires t in ws[i].net.tasks && u in ws[j].net.tasks
    requires ws[i].net.tasks[t].port == ws[j].net.tasks[u].port
    ensures t in ws[i].creator && u in ws[j].creator && ws[i].creator[t] == ws[j].creator[u]
    ensures t in ws[i].db.tunnels ==> ws[i].db.tunnels[t].user == ws[i].creator[t]
    ensures u in ws[j].db.tunnels ==> ws[j].db.tunnels[u].user == ws[j].creator[u]
  {
    RunInv(ws, es, i);
    RunInv(ws, es, j);
    RunGrows(ws, es, i, j);
    hide IsRun, Registered, Agree, OwnedOrClaimable, SubdomainsOk, AgentsOk;
  }

  /** Ownership is written once: the owner of an agent is the same in every later state that has the agent. */
  lemma {:induction false} OwnerWrittenOnce(ws: seq<World>, es: seq<Event>, i: nat, j: nat, a: Id)
    requires IsRun(ws, es) && i <= j < |ws|
    requires a in ws[i].db.agents && ws[i].db.agents[a].owner.Some?
    ensures a in ws[j].db.agents ==> ws[j].db.agents[a].owner == ws[i].db.agents[a].owner
    ensures a < ws[j].next
    ensures ws[i].db.agents[a].claimCode.None?
  {
    hide Step, Possible, WiredWorld, SubdomainsOk, TunnelsOk;
    RunInv(ws, es, j);
    if i < j {
      OwnerWrittenOnce(ws, es, i, j - 1, a);
      RunInv(ws, es, j - 1);
      InvKept(ws[j - 1], es[j - 1]);
    }
  }

  /** In every state an agent has an owner exactly when it has no claim code. */
  lemma OwnedExactlyWhenClaimed(ws: seq<World>, es: seq<Event>, i: nat)
    requires IsRun(ws, es) && i < |ws|
    ensures forall a :: a in ws[i].db.agents ==>
      (ws[i].db.agents[a].owner.Some? <==> ws[i].db.agents[a].claimCode.None?)
    ensures forall a :: a in ws[i].db.agents && ws[i].db.agents[a].owner.Some? ==>
      ws[i].db.agents[a].owner.value in ws[i].db.users
  {
    RunInv(ws, es, i);
  }

  /** Subdomain uniqueness in every state. */
  lemma SubdomainsUnique(ws: seq<World>, es: seq<Event>, i: nat)
    requires IsRun(ws, es) && i < |ws|
    ensures SubdomainsOk(ws[i].db.tunnels)
  {
    RunInv(ws, es, i);
  }

  // ---------- who hears about an authentication ----------

  /** Every step is safe, which is decided by the codes in use before it. */
  ghost predicate CodesSafe(ws: seq<World>, es: seq<Event>) {
    |ws| == |es| + 1 && forall k :: 0 <= k < |es| ==> CodeSafe(ws[k], es[k])
  }

  ghost predicate CodesNew(ws: seq<World>, es: seq<Event>) {
    |ws| == |es| + 1 && forall k :: 0 <= k < |es| ==> CodeIsNew(ws[k], es[k])
  }

  lemma {:induction false} RunClaims(ws: seq<World>, es: seq<Event>, i: nat)
    requires IsRun(ws, es) && CodesSafe(ws, es) && i < |ws|
    ensures Waits(ws[i]) && Heard(ws[i]) && Fed(ws[i])
  {
    if i == 0 {
      InvAtStart(ws[0].lo, ws[0].hi);
    } else {
      hide Waits, Heard, Fed, Step, CodeSafe, Possible;
      RunClaims(ws, es, i - 1);
      RunInv(ws, es, i - 1);
      WaitsExact(ws[i - 1], es[i - 1]);
      HeardKept(ws[i - 1], es[i - 1]);
      FedKept(ws[i - 1], es[i - 1]);
    }
  }

  lemma {:induction false} RunDistinct(ws: seq<World>, es: seq<Event>, i: nat)
    requires IsRun(ws, es) && CodesNew(ws, es) && i < |ws|
    ensures CodesDistinct(ws[i].db.agents)
    ensures i < |es| ==> CodeSafe(ws[i], es[i])
  {
    hide CodesDistinct, Step, CodeSafe, Possible, CodeIsNew;
    if i == 0 {
      InvAtStart(ws[0].lo, ws[0].hi);
    } else {
      RunDistinct(ws, es, i - 1);
      DistinctKept(ws[i - 1], es[i - 1]);
    }
    if i < |es| {
      DistinctKept(ws[i], es[i]);
    }
  }

  /** If no new claim code repeats one that can still be claimed, every step is safe. */
  lemma NewCodesSafe(ws: seq<World>, es: seq<Event>)
    requires IsRun(ws, es) && CodesNew(ws, es)
    ensures CodesSafe(ws, es)
  {
    forall k | 0 <= k < |es| ensures CodeSafe(ws[k], es[k]) {
      RunDistinct(ws, es, k);
    }
  }

  /** In step k, socket s asks for a claim that creates agent a, or presents the token of agent a. */
  ghost predicate Shows(w: World, e: Event, s: Id, a: Id) {
    e.OnSocket? &&
    match e.socket
    case ERequestClaim(t, _, _) => t == s && a == w.next
    case EAuth(t, token, _, _, _) => t == s && a in w.db.agents && w.db.agents[a].token == token
    case _ => false
  }

  lemma ShownStep(w: World, e: Event, s: Id, a: Id)
    requires Possible(w, e) && (s, a) in Step(w, e).shown && (s, a) !in w.shown
    ensures Shows(w, e, s, a)
  {
    hide SyncRows, Configs, Release, IsListing, AccountStep, TunnelStep;
    match e
    case OnAccount(account) => AccountShows(w, account);
    case OnTunnel(tunnel) => TunnelShows(w, tunnel);
    case _ =>
  }

  lemma AccountShows(w: World, e: AccountEvent)
    requires AccountPossible(w, e)
    ensures AccountStep(w, e).shown == w.shown
  {
    hide SyncRows, Configs, Release, IsListing;
  }

  lemma TunnelShows(w: World, e: TunnelEvent)
    requires TunnelPossible(w, e)
    ensures TunnelStep(w, e).shown == w.shown
  {
    hide TunnelStep, TunnelPossible;
    TunnelKeeps(w, e);
  }

  lemma {:induction false} ShownEarlier(ws: seq<World>, es: seq<Event>, i: nat, s: Id, a: Id) returns (k: nat)
    requires IsRun(ws, es) && i < |ws| && (s, a) in ws[i].shown
    ensures k < i && Shows(ws[k], es[k], s, a)
  {
    if (s, a) in ws[i - 1].shown {
      k := ShownEarlier(ws, es, i - 1, s, a);
    } else {
      ShownStep(ws[i - 1], es[i - 1], s, a);
      k := i - 1;
    }
  }

  /** When every step is safe, AuthSuccess for an agent goes only to a socket that asked for that agent's claim
      or presented its token in an earlier or the same step. */
  lemma AuthOnlyToShown(ws: seq<World>, es: seq<Event>, i: nat, m: nat) returns (k: nat)
    requires IsRun(ws, es) && CodesSafe(ws, es) && i < |ws|
    requires m < |ws[i].out| && ws[i].out[m].msg.AuthSuccess?
    ensures k < i && Shows(ws[k], es[k], ws[i].out[m].to, ws[i].out[m].msg.agent)
  {
    RunClaims(ws, es, i);
    k := ShownEarlier(ws, es, i, ws[i].out[m].to, ws[i].out[m].msg.agent);
  }

  /** Agent isolation: when every step is safe, each registered listener of a tunnel row feeds only a socket that
      asked for the claim of the row's agent, or presented its token, in an earlier step. */
  lemma TrafficOnlyToShown(ws: seq<World>, es: seq<Event>, i: nat, t: Id) returns (k: nat)
    requires IsRun(ws, es) && CodesSafe(ws, es) && i < |ws|
    requires t in ws[i].db.tunnels && t in ws[i].net.tasks
    ensures k < i && Shows(ws[k], es[k], ws[i].net.tasks[t].chan, ws[i].db.tunnels[t].agent)
  {
    hide Shows, Step, Possible, CodeSafe, Waits, Heard, Lower;
    RunClaims(ws, es, i);
    RegistryAgreement(ws, es, i);
    k := ShownEarlier(ws, es, i, ws[i].net.tasks[t].chan, ws[i].db.tunnels[t].agent);
  }

  lemma {:induction false} SyncSame(n: Net, cs: seq<Config>, chan: Id, luck: set<Id>, t: Id)
    requires forall i :: 0 <= i < |cs| ==> cs[i].id != t
    ensures var m := SyncRows(n, cs, chan, luck);
      (t in m.tasks <==> t in n.tasks) && (t in n.tasks ==> m.tasks[t] == n.tasks[t])
  {
    if cs != [] {
      SyncSame(n, cs[..|cs| - 1], chan, luck, t);
    }
  }

  /** Listener t has an entry but no row after the step. */
  ghost predicate RowlessAfter(w: World, e: Event, t: Id)
    requires Possible(w, e)
  {
    t in Step(w, e).net.tasks && t !in Step(w, e).db.tunnels
  }

  ghost predicate HadEntry(w: World, v: World, t: Id) {
    t in w.net.tasks && (t in v.net.tasks ==> w.net.tasks[t] == v.net.tasks[t])
  }

  lemma SocketEntry(w: World, e: SocketEvent, t: Id)
    requires SocketPossible(w, e) && RowlessAfter(w, OnSocket(e), t)
    ensures HadEntry(w, SocketStep(w, e), t)
  {
    hide SyncRows;
    if e.EAuth? && AgentByToken(w.db.agents, e.token).Some?
       && w.db.agents[AgentByToken(w.db.agents, e.token).value].claimCode.None? {
      SyncSame(w.net, Configs(w.db.tunnels, e.rows), e.s, e.luck, t);
    }
  }

  lemma AccountEntry(w: World, e: AccountEvent, t: Id)
    requires AccountPossible(w, e) && RowlessAfter(w, OnAccount(e), t)
    ensures HadEntry(w, AccountStep(w, e), t)
  {
    hide SyncRows, Register;
    if e.ERegister? {
      RegisterNet(w, e);
    } else if e.EClaim? && e.pick.Some? && e.code in w.pending {
      SyncSame(w.net, Configs(w.db.tunnels, e.rows), w.pending[e.code], e.luck, t);
    }
  }

  lemma UpdateEntry(w: World, e: TunnelEvent, t: Id)
    requires e.EUpdate? && TunnelPossible(w, e) && RowlessAfter(w, OnTunnel(e), t)
    ensures HadEntry(w, TunnelStep(w, e), t)
  {
    hide SyncRows, Clean, SubdomainTaken, CreateTunnel, ToggleTunnel, DeleteTunnel;
    if e.tid in w.db.tunnels && w.db.tunnels[e.tid].agent in w.senders {
      var row := w.db.tunnels[e.tid].(name := e.name, localPort := e.localPort, protocol := e.protocol,
                                      subdomain := Clean(e.subdomain));
      SyncSame(w.net, Configs(w.db.tunnels[e.tid := row], e.rows), w.senders[row.agent], e.luck, t);
    }
  }

  lemma CreateEntry(w: World, e: TunnelEvent, t: Id)
    requires e.ECreate? && RowlessAfter(w, OnTunnel(e), t)
    ensures HadEntry(w, TunnelStep(w, e), t)
  {
    hide Clean, SubdomainTaken, Busy, UpdateTunnel, ToggleTunnel, DeleteTunnel;
  }

  lemma TunnelEntry(w: World, e: TunnelEvent, t: Id)
    requires TunnelPossible(w, e) && RowlessAfter(w, OnTunnel(e), t)
    ensures HadEntry(w, TunnelStep(w, e), t)
  {
    hide CreateTunnel, UpdateTunnel, Busy;
    if e.EUpdate? {
      UpdateEntry(w, e, t);
    } else if e.ECreate? {
      CreateEntry(w, e, t);
    }
  }

  /** No step files an entry for a tunnel without a row. */
  lemma EntryBefore(w: World, e: Event, t: Id)
    requires Possible(w, e) && RowlessAfter(w, e, t)
    ensures HadEntry(w, Step(w, e), t)
  {
    hide SocketStep, AccountStep, TunnelStep;
    match e
    case OnSocket(socket) => SocketEntry(w, socket, t);
    case OnAccount(account) => AccountEntry(w, account, t);
    case OnTunnel(tunnel) => TunnelEntry(w, tunnel, t);
    case _ =>
  }

  /** A registered listener was registered, as it is, in a state in which its tunnel had a row. */
  lemma {:induction false} RowEarlier(ws: seq<World>, es: seq<Event>, i: nat, t: Id) returns (j: nat)
    requires IsRun(ws, es) && i < |ws| && t in ws[i].net.tasks
    ensures j <= i && t in ws[j].db.tunnels && t in ws[j].net.tasks && ws[j].net.tasks[t] == ws[i].net.tasks[t]
  {
    hide Step, Possible;
    if t in ws[i].db.tunnels {
      j := i;
    } else {
      EntryBefore(ws[i - 1], es[i - 1], t);
      j := RowEarlier(ws, es, i - 1, t);
    }
  }

  /** The same for every registered listener, with or without a row: the agent is that of the row the tunnel had. */
  lemma AllTrafficToShown(ws: seq<World>, es: seq<Event>, i: nat, t: Id) returns (j: nat, k: nat)
    requires IsRun(ws, es) && CodesSafe(ws, es) && i < |ws| && t in ws[i].net.tasks
    ensures j <= i && t in ws[j].db.tunnels && t in ws[j].net.tasks && ws[j].net.tasks[t] == ws[i].net.tasks[t]
    ensures k < i && Shows(ws[k], es[k], ws[i].net.tasks[t].chan, ws[j].db.tunnels[t].agent)
  {
    hide Shows, Step, Possible, CodeSafe;
    j := RowEarlier(ws, es, i, t);
    k := TrafficOnlyToShown(ws, es, j, t);
  }

  /** An authentication is announced only when the agent has an owner, whatever the codes. */
  lemma AnnouncedWhenOwned(ws: seq<World>, es: seq<Event>, i: nat, m: nat)
    requires IsRun(ws, es) && i < |es|
    requires |ws[i].out| <= m < |ws[i + 1].out| && ws[i + 1].out[m].msg.AuthSuccess?
    ensures var a := ws[i + 1].out[m].msg.agent;
      a in ws[i + 1].db.agents && ws[i + 1].db.agents[a].owner.Some?
  {
    RunInv(ws, es, i);
    hide Step, Possible;
    Announces(ws[i], es[i]);
  }

  // ---------- what a claim and a deletion leave for good ----------

  /** After a claim that is answered Done, the agent belongs to the user who claimed it, and cannot be claimed again,
      in every later state that has the agent, whether or not a socket waited on the code. */
  lemma ClaimLasts(ws: seq<World>, es: seq<Event>, i: nat, j: nat, uid: Id, code: Code, a: Id, rows: seq<Id>,
                   luck: set<Id>)
    requires IsRun(ws, es) && i < j < |ws|
    requires es[i] == OnAccount(EClaim(uid, code, Some(a), rows, luck))
    requires ClaimAnswer(ws[i], code, Some(a), rows) && Claim(ws[i], uid, code, Some(a), rows, luck).1 == Done
    ensures a in ws[j].db.agents ==>
      ws[j].db.agents[a].owner == Some(uid) && ws[j].db.agents[a].claimCode.None?
  {
    ClaimExact(ws[i], uid, code, Some(a), rows, luck);
    hide Claim, Synchronised;
    assert a in ws[i + 1].db.agents && ws[i + 1].db.agents[a].owner == Some(uid);
    hide ClaimDone, ClaimAnswer;
    OwnerWrittenOnce(ws, es, i + 1, j, a);
    OwnedExactlyWhenClaimed(ws, es, j);
  }

  /** The agent and everything that was its own are gone. */
  ghost predicate Gone(w: World, a: Id, token: Id) {
    && a < w.next && token < w.next && a !in w.db.agents && a !in w.senders
    && forall b :: b in w.db.agents ==> w.db.agents[b].token != token
  }

  lemma {:induction false} GoneStays(ws: seq<World>, es: seq<Event>, i: nat, j: nat, a: Id, token: Id)
    requires IsRun(ws, es) && i <= j < |ws| && Gone(ws[i], a, token)
    ensures Gone(ws[j], a, token)
  {
    hide Step, Possible;
    if i < j {
      GoneStays(ws, es, i, j - 1, a, token);
      TokensNew(ws[j - 1], es[j - 1]);
      RunGrows(ws, es, j - 1, j);
    }
  }

  lemma DeletionGoes(ws: seq<World>, es: seq<Event>, i: nat, a: Id)
    requires IsRun(ws, es) && i < |es| && es[i] == OnAccount(EDeleteAgent(a)) && a in ws[i].db.agents
    ensures Gone(ws[i + 1], a, ws[i].db.agents[a].token)
  {
    RunInv(ws, es, i);
    DeleteAgentExact(ws[i], a);
    hide WiredWorld, SubdomainsOk, OwnedOrClaimable, TunnelsOk;
  }

  ghost predicate Presents(e: Event, token: Id) { e.OnSocket? && e.socket.EAuth? && e.socket.token == token }

  /** A deleted agent never comes back: in every later state it is in no table, has no sender and no row, and its
      token is answered with an error that changes nothing. */
  lemma DeletedForGood(ws: seq<World>, es: seq<Event>, i: nat, j: nat, a: Id)
    requires IsRun(ws, es) && i < j < |ws| && es[i] == OnAccount(EDeleteAgent(a)) && a in ws[i].db.agents
    ensures a !in ws[j].db.agents && a !in ws[j].senders
    ensures forall t :: t in ws[j].db.tunnels ==> ws[j].db.tunnels[t].agent != a
    ensures j < |es| && Presents(es[j], ws[i].db.agents[a].token) ==>
      ws[j + 1] == ws[j].(out := ws[j].out + [Sent(es[j].socket.s, Error)])
  {
    hide SyncRows, IsListing;
    DeletionGoes(ws, es, i, a);
    GoneStays(ws, es, i + 1, j, a, ws[i].db.agents[a].token);
    RunInv(ws, es, j);
    if j < |es| && Presents(es[j], ws[i].db.agents[a].token) {
      var e := es[j].socket;
      AuthUnknown(ws[j], e.s, e.token, e.hostname, e.rows, e.luck);
    }
  }

  // ---------- port accounting ----------

  /** Every registered listener's port is reserved as long as no step gives back a port under another listener. */
  lemma {:induction false} PortsReserved(ws: seq<World>, es: seq<Event>, i: nat)
    requires IsRun(ws, es) && i < |ws| && forall k :: 0 <= k < i ==> ReleaseSafe(ws[k], es[k])
    ensures Accounted(ws[i].net)
  {
    if i > 0 {
      hide Accounted, Step, ReleaseSafe;
      PortsReserved(ws, es, i - 1);
      AccountedExact(ws[i - 1], es[i - 1]);
    }
  }

  /** Every reserved port has a row as long as every step keeps the rows of reserved ports. */
  lemma {:induction false} PortsBacked(ws: seq<World>, es: seq<Event>, i: nat)
    requires IsRun(ws, es) && i < |ws| && forall k :: 0 <= k < i ==> KeepsRows(ws[k], es[k])
    ensures Backed(ws[i])
  {
    if i > 0 {
      hide Backed, Step, KeepsRows, Possible;
      PortsBacked(ws, es, i - 1);
      RunInv(ws, es, i - 1);
      BackedExact(ws[i - 1], es[i - 1]);
    }
  }

  ghost predicate AlwaysApart(ws: seq<World>) { forall k :: 0 <= k < |ws| ==> RowsApart(ws[k].db.tunnels) }

  /** On runs in which no two rows ever share a public port, every registered listener's port is reserved. */
  lemma {:induction false} PortsAccounted(ws: seq<World>, es: seq<Event>, i: nat)
    requires IsRun(ws, es) && AlwaysApart(ws) && i < |ws|
    ensures BalancedWorld(ws[i])
    ensures forall t :: t in ws[i].net.tasks ==> ws[i].net.tasks[t].port in ws[i].net.reserved
  {
    if i == 0 {
      InvAtStart(ws[0].lo, ws[0].hi);
    } else {
      PortsAccounted(ws, es, i - 1);
      RunInv(ws, es, i - 1);
      BalancedKept(ws[i - 1], es[i - 1]);
    }
  }

  lemma {:induction false} OrphanStays(ws: seq<World>, es: seq<Event>, i: nat, j: nat, t: Id)
    requires IsRun(ws, es) && i <= j < |ws| && forall k :: i <= k < j ==> !es[k].ERestart?
    requires t in ws[i].net.tasks && t !in ws[i].db.tunnels
    ensures Orphan(ws[j], t) && ws[j].net.tasks[t] == ws[i].net.tasks[t]
  {
    hide Step, Possible;
    if i == j {
      RunInv(ws, es, i);
      assert t in ws[i].creator;
    } else {
      OrphanStays(ws, es, i, j - 1, t);
      OrphanKept(ws[j - 1], es[j - 1], t);
    }
  }

  lemma ReservedRefused(w: World, port: Port)
    requires port in w.net.reserved
    ensures forall uid, agent, name, localPort, protocol, subdomain, now, luck ::
      uid in w.db.users && w.db.users[uid].dedicatedPort == port ==>
      CreateTunnel(w, uid, agent, name, localPort, protocol, subdomain, now, luck) == (w, Conflict)
  {
    hide Clean, SubdomainTaken, StartListener;
  }

  /** On such runs, a listener that lost its row keeps its handle and its reserved port until the next restart;
      no row has that port, and no tunnel can be created on it. */
  lemma OrphanKeepsPort(ws: seq<World>, es: seq<Event>, i: nat, j: nat, t: Id)
    requires IsRun(ws, es) && AlwaysApart(ws) && i <= j < |ws|
    requires forall k :: i <= k < j ==> !es[k].ERestart?
    requires t in ws[i].net.tasks && t !in ws[i].db.tunnels
    ensures Orphan(ws[j], t) && ws[j].net.tasks[t] == ws[i].net.tasks[t]
    ensures var port := ws[i].net.tasks[t].port;
      && port in ws[j].net.reserved
      && (forall u :: u in ws[j].db.tunnels ==> ws[j].db.tunnels[u].publicPort != port)
      && (forall uid, agent, name, localPort, protocol, subdomain, now, luck ::
            uid in ws[j].db.users && ws[j].db.users[uid].dedicatedPort == port ==>
            CreateTunnel(ws[j], uid, agent, name, localPort, protocol, subdomain, now, luck) == (ws[j], Conflict))
  {
    hide IsRun, AlwaysApart, CreateTunnel;
    PortsAccounted(ws, es, j);
    OrphanStays(ws, es, i, j, t);
    ReservedRefused(ws[j], ws[i].net.tasks[t].port);
  }
}
