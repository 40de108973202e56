/**
 The lock operations of every handler and task of the relay, read off the source. A handler is a list of
 stages; it holds nothing between two stages, and an early return skips the stages that remain.
 */
module LockScripts {
  import opened Locks

  function Section(l: Lock, mode: Mode): seq<Op> { [Acquire(l, mode), Release(l)] }

  function Around(l: Lock, mode: Mode, body: seq<Op>): seq<Op> { [Acquire(l, mode)] + body + [Release(l)] }

  function Concat(stages: seq<seq<Op>>): seq<Op> {
    if stages == [] then [] else stages[0] + Concat(stages[1..])
  }

  const Db := Section(Database, Exclusive)
  const Ports := Section(AllocatedPorts, Exclusive)
  const Tasks := Section(TunnelTasks, Exclusive)

  /** `start_tunnel_listener`: stop, bind without a lock, insert if the bind succeeded. */
  function StartScript(bound: bool): seq<Op> { Tasks + if bound then Tasks else [] }

  /** One row of `sync_agent_tunnels`. */
  datatype Row = Disabled | Enabled(bound: bool)

  function RowScript(r: Row): seq<Op> {
    match r
    case Disabled => []
    case Enabled(bound) => Ports + StartScript(bound)
  }

  function RowsScript(rows: seq<Row>): seq<Op> {
    if rows == [] then [] else RowScript(rows[0]) + RowsScript(rows[1..])
  }

  function SyncScript(rows: seq<Row>): seq<Op> { Db + RowsScript(rows) }

  /** Stopping n listeners and freeing their ports. */
  function StopScript(n: nat): seq<Op> { if n == 0 then [] else Tasks + Ports + StopScript(n - 1) }

  datatype SocketMsg =
    | RequestClaim(stored: bool)
    | AuthRejected
    | AuthPending
    | AuthAccepted(rows: seq<Row>)
    | Data(decoded: bool)
    | CloseConnection
    | Ping

  function SocketStages(m: SocketMsg): seq<seq<Op>> {
    match m
    case RequestClaim(stored) =>
      [Around(Database, Exclusive, if stored then Section(PendingClaims, Exclusive) else [])]
    case AuthRejected => [Db]
    case AuthPending => [Db, Section(PendingClaims, Exclusive)]
    case AuthAccepted(rows) => [Db, Db, Section(AgentSenders, Exclusive), SyncScript(rows)]
    case Data(decoded) => if decoded then [Section(TcpConnSenders, Shared)] else []
    case CloseConnection => [Section(TcpConnSenders, Exclusive)]
    case Ping => []
  }

  function MessagesStages(ms: seq<SocketMsg>): seq<seq<Op>> {
    if ms == [] then [] else SocketStages(ms[0]) + MessagesStages(ms[1..])
  }

  datatype Handler =
    | Socket(messages: seq<SocketMsg>, hadCode: bool, hadAgent: bool, rows: nat)
    | RegisterOrLogin
    | GetMe
    | Logout
    | AdminLogin
    | AdminListUsers
    | BanUser(rows: nat)
    | UnbanUser
    | ClaimAgent(syncRows: seq<Row>)
    | ListAgentsOrTunnels
    | GenerateToken
    | DeleteAgent(valid: bool)
    | CreateTunnel(checksSubdomain: bool, connected: bool, bound: bool)
    | UpdateTunnel(checksSubdomain: bool, connected: bool, syncRows: seq<Row>)
    | EnableTunnel(connected: bool, bound: bool)
    | DisableTunnel
    | DeleteTunnel
    | LiveStats
    | Launcher
    | TcpAcceptLoop(accepted: nat)
    | TcpConnection(records: nat)
    | UdpLoop(records: nat)
    | UdpForwarder

  const User := Section(UserSessions, Shared)
  const Admin := Section(AdminSessions, Shared)

  function Repeat(stage: seq<Op>, n: nat): seq<seq<Op>> { seq(n, _ => stage) }

  function Stages(h: Handler): seq<seq<Op>> {
    match h
    case Socket(messages, hadCode, hadAgent, rows) =>
      MessagesStages(messages)
      + (if hadCode then [Section(PendingClaims, Exclusive)] else [])
      + (if hadAgent then [Section(AgentSenders, Exclusive), Db, Db, StopScript(rows)] else [])
    case RegisterOrLogin => [Db, Section(UserSessions, Exclusive)]
    case GetMe => [User, Db]
    case Logout => [Section(UserSessions, Exclusive)]
    case AdminLogin => [Section(AdminSessions, Exclusive)]
    case AdminListUsers => [Admin, Db]
    case BanUser(rows) => [Admin, Around(Database, Exclusive, StopScript(rows))]
    case UnbanUser => [Admin, Db]
    case ClaimAgent(rows) =>
      [User, Db, Section(PendingClaims, Exclusive), Db, Section(AgentSenders, Exclusive), SyncScript(rows)]
    case ListAgentsOrTunnels => [Admin, User, Db]
    case GenerateToken => [User, Db]
    case DeleteAgent(valid) => (if valid then [Section(AgentSenders, Exclusive)] else []) + [Db]
    case CreateTunnel(checks, connected, bound) =>
      [User] + (if checks then [Db] else [])
      + [Db, Ports, Db, Around(AgentSenders, Shared, if connected then StartScript(bound) else [])]
    case UpdateTunnel(checks, connected, rows) =>
      [Db] + (if checks then [Db] else [])
      + [Db, Around(AgentSenders, Shared, if connected then SyncScript(rows) else [])]
    case EnableTunnel(connected, bound) =>
      [Db, Db, Around(AgentSenders, Shared,
                      Around(AllocatedPorts, Exclusive, if connected then StartScript(bound) else []))]
    case DisableTunnel => [Db, Db, Around(AgentSenders, Shared, Tasks + Ports)]
    case DeleteTunnel => [Db, Tasks, Ports, Section(AgentSenders, Shared), Db]
    case LiveStats => [Section(LiveTraffic, Shared)]
    case Launcher => [User, Db]
    case TcpAcceptLoop(accepted) => Repeat(Section(TcpConnSenders, Exclusive), accepted)
    case TcpConnection(records) =>
      Repeat(Section(LiveTraffic, Exclusive), records) + [Section(TcpConnSenders, Exclusive)]
    case UdpLoop(records) => Repeat(Section(LiveTraffic, Exclusive), records)
    case UdpForwarder => [Section(TcpConnSenders, Exclusive)]
  }

  /** What a handler does when it returns after k of its stages. */
  function Script(h: Handler, k: nat): seq<Op>
    requires k <= |Stages(h)|
  {
    Concat(Stages(h)[..k])
  }

  // ---------- every script climbs ----------

  /** Scripts compose. */
  lemma {:induction false} Compose(a: seq<Op>, b: seq<Op>, h: set<Lock>, m: set<Lock>, e: set<Lock>)
    requires Climbs(a, h, m) && Climbs(b, m, e)
    ensures Climbs(a + b, h, e)
  {
    if a == [] {
      assert a + b == b;
    } else {
      assert (a + b)[1..] == a[1..] + b;
      match a[0]
      case Acquire(l, _) => Compose(a[1..], b, h + {l}, m, e);
      case Release(l) => Compose(a[1..], b, h - {l}, m, e);
    }
  }

  ghost predicate Below(h: set<Lock>, l: Lock) { forall k :: k in h ==> Rank(k) < Rank(l) }

  lemma AroundClimbs(l: Lock, mode: Mode, body: seq<Op>, h: set<Lock>)
    requires Below(h, l) && Climbs(body, h + {l}, h + {l})
    ensures Climbs(Around(l, mode, body), h, h)
  {
    var close := [Release(l)];
    assert h + {l} - {l} == h;
    assert close[1..] == [];
    assert Climbs(close[1..], h, h);
    assert Climbs(close, h + {l}, h);
    Compose(body, close, h + {l}, h + {l}, h);
    var s := Around(l, mode, body);
    assert s[1..] == body + close && s[0] == Acquire(l, mode);
  }

  lemma NothingClimbs(h: set<Lock>)
    ensures Climbs([], h, h)
  {
  }

  lemma SectionClimbs(l: Lock, mode: Mode, h: set<Lock>)
    requires Below(h, l)
    ensures Climbs(Section(l, mode), h, h)
  {
    AroundClimbs(l, mode, [], h);
    assert Section(l, mode) == Around(l, mode, []);
  }

  lemma StartClimbs(bound: bool, h: set<Lock>)
    requires Below(h, TunnelTasks)
    ensures Climbs(StartScript(bound), h, h)
  {
    SectionClimbs(TunnelTasks, Exclusive, h);
    if bound {
      Compose(Tasks, Tasks, h, h, h);
    } else {
      assert StartScript(bound) == Tasks;
    }
  }

  lemma {:induction false} RowsClimb(rows: seq<Row>, h: set<Lock>)
    requires Below(h, AllocatedPorts) && Below(h, TunnelTasks)
    ensures Climbs(RowsScript(rows), h, h)
  {
    if rows == [] {
      NothingClimbs(h);
    } else {
      RowsClimb(rows[1..], h);
      match rows[0]
      case Disabled => NothingClimbs(h); Compose([], RowsScript(rows[1..]), h, h, h);
      case Enabled(bound) =>
        SectionClimbs(AllocatedPorts, Exclusive, h);
        StartClimbs(bound, h);
        Compose(Ports, StartScript(bound), h, h, h);
        Compose(Ports + StartScript(bound), RowsScript(rows[1..]), h, h, h);
    }
  }

  lemma SyncClimbs(rows: seq<Row>, h: set<Lock>)
    requires Below(h, Database) && Below(h, AllocatedPorts) && Below(h, TunnelTasks)
    ensures Climbs(SyncScript(rows), h, h)
  {
    SectionClimbs(Database, Exclusive, h);
    RowsClimb(rows, h);
    Compose(Db, RowsScript(rows), h, h, h);
  }

  lemma {:induction false} StopClimbs(n: nat, h: set<Lock>)
    requires Below(h, AllocatedPorts) && Below(h, TunnelTasks)
    ensures Climbs(StopScript(n), h, h)
  {
    if n == 0 {
      NothingClimbs(h);
    } else {
      SectionClimbs(TunnelTasks, Exclusive, h);
      SectionClimbs(AllocatedPorts, Exclusive, h);
      StopClimbs(n - 1, h);
      Compose(Tasks, Ports, h, h, h);
      Compose(Tasks + Ports, StopScript(n - 1), h, h, h);
    }
  }

  ghost predicate AllClimb(stages: seq<seq<Op>>) {
    forall i :: 0 <= i < |stages| ==> Climbs(stages[i], {}, {})
  }

  lemma {:induction false} ConcatClimbs(stages: seq<seq<Op>>)
    requires AllClimb(stages)
    ensures Climbs(Concat(stages), {}, {})
  {
    if stages == [] {
      NothingClimbs({});
    } else {
      ConcatClimbs(stages[1..]);
      Compose(stages[0], Concat(stages[1..]), {}, {}, {});
    }
  }

  lemma SectionsClimb()
    ensures forall l: Lock, mode: Mode :: Climbs(Section(l, mode), {}, {})
  {
    forall l: Lock, mode: Mode ensures Climbs(Section(l, mode), {}, {}) {
      SectionClimbs(l, mode, {});
    }
  }

  lemma SocketClimbs(m: SocketMsg)
    ensures AllClimb(SocketStages(m))
  {
    hide Climbs;
    SectionsClimb();
    match m
    case RequestClaim(stored) =>
      if stored {
        SectionClimbs(PendingClaims, Exclusive, {} + {Database});
      } else {
        NothingClimbs({} + {Database});
      }
      AroundClimbs(Database, Exclusive, if stored then Section(PendingClaims, Exclusive) else [], {});
    case AuthAccepted(rows) => SyncClimbs(rows, {});
    case _ =>
  }

  lemma {:induction false} MessagesClimb(ms: seq<SocketMsg>)
    ensures AllClimb(MessagesStages(ms))
  {
    if ms != [] {
      SocketClimbs(ms[0]);
      MessagesClimb(ms[1..]);
    }
  }

  lemma SessionClimbs(messages: seq<SocketMsg>, hadCode: bool, hadAgent: bool, rows: nat)
    ensures AllClimb(Stages(Socket(messages, hadCode, hadAgent, rows)))
  {
    hide Climbs, MessagesStages;
    SectionsClimb();
    MessagesClimb(messages);
    StopClimbs(rows, {});
  }

  lemma BanClimbs(rows: nat)
    ensures AllClimb(Stages(BanUser(rows)))
  {
    hide Climbs, StopScript;
    SectionsClimb();
    StopClimbs(rows, {} + {Database});
    AroundClimbs(Database, Exclusive, StopScript(rows), {});
  }

  lemma CreateClimbs(checks: bool, connected: bool, bound: bool)
    ensures AllClimb(Stages(CreateTunnel(checks, connected, bound)))
  {
    hide Climbs, StartScript;
    SectionsClimb();
    NothingClimbs({} + {AgentSenders});
    StartClimbs(bound, {} + {AgentSenders});
    AroundClimbs(AgentSenders, Shared, if connected then StartScript(bound) else [], {});
  }

  lemma UpdateClimbs(checks: bool, connected: bool, rows: seq<Row>)
    ensures AllClimb(Stages(UpdateTunnel(checks, connected, rows)))
  {
    hide Climbs, SyncScript;
    SectionsClimb();
    NothingClimbs({} + {AgentSenders});
    SyncClimbs(rows, {} + {AgentSenders});
    AroundClimbs(AgentSenders, Shared, if connected then SyncScript(rows) else [], {});
  }

  lemma EnableClimbs(connected: bool, bound: bool)
    ensures AllClimb(Stages(EnableTunnel(connected, bound)))
  {
    hide Climbs, StartScript;
    SectionsClimb();
    var inner := {} + {AgentSenders} + {AllocatedPorts};
    NothingClimbs(inner);
    StartClimbs(bound, inner);
    var body := if connected then StartScript(bound) else [];
    AroundClimbs(AllocatedPorts, Exclusive, body, {} + {AgentSenders});
    AroundClimbs(AgentSenders, Shared, Around(AllocatedPorts, Exclusive, body), {});
  }

  lemma DisableClimbs()
    ensures AllClimb(Stages(DisableTunnel))
  {
    hide Climbs;
    SectionsClimb();
    var inner := {} + {AgentSenders};
    SectionClimbs(TunnelTasks, Exclusive, inner);
    SectionClimbs(AllocatedPorts, Exclusive, inner);
    Compose(Tasks, Ports, inner, inner, inner);
    AroundClimbs(AgentSenders, Shared, Tasks + Ports, {});
  }

  /** Every stage of every handler climbs the rank, whatever its branches and however many rows it meets. */
  lemma StagesClimb(h: Handler)
    ensures AllClimb(Stages(h))
  {
    hide Climbs;
    SectionsClimb();
    match h
    case Socket(messages, hadCode, hadAgent, rows) => SessionClimbs(messages, hadCode, hadAgent, rows);
    case BanUser(rows) => BanClimbs(rows);
    case ClaimAgent(rows) => SyncClimbs(rows, {});
    case CreateTunnel(checks, connected, bound) => CreateClimbs(checks, connected, bound);
    case UpdateTunnel(checks, connected, rows) => UpdateClimbs(checks, connected, rows);
    case EnableTunnel(connected, bound) => EnableClimbs(connected, bound);
    case DisableTunnel => DisableClimbs();
    case _ =>
  }

  lemma ScriptClimbs(h: Handler, k: nat)
    requires k <= |Stages(h)|
    ensures Climbs(Script(h, k), {}, {})
  {
    StagesClimb(h);
    ConcatClimbs(Stages(h)[..k]);
  }

  // ---------- the relay ----------

  ghost predicate IsHandler(script: seq<Op>) {
    exists h: Handler, k: nat :: k <= |Stages(h)| && script == Script(h, k)
  }

  /** A run of the relay: any number of handlers and tasks, started at any time, in any interleaving, any of them
      cancelled or aborted at any time. */
  ghost predicate RelayRun(ss: seq<Sys>, acts: seq<Action>) {
    && IsRun(ss, acts) && ss[0] == Idle
    && forall i :: 0 <= i < |acts| && acts[i].Spawn? ==> IsHandler(acts[i].script)
  }

  lemma RelayDisciplined(ss: seq<Sys>, acts: seq<Action>)
    requires RelayRun(ss, acts)
    ensures forall i :: 0 <= i < |acts| ==> Disciplined(acts[i])
  {
    forall i | 0 <= i < |acts| && acts[i].Spawn? ensures Disciplined(acts[i]) {
      var h: Handler, k: nat :| k <= |Stages(h)| && acts[i].script == Script(h, k);
      ScriptClimbs(h, k);
    }
  }

  /** The relay never deadlocks: in every reachable state some unfinished handler can move, and one that waits for
      a lock or holds one if there is any. */
  lemma RelayDeadlockFree(ss: seq<Sys>, acts: seq<Action>, i: nat) returns (a: Action)
    requires RelayRun(ss, acts) && i < |ss| && !Finished(ss[i])
    ensures Proceeds(a) && Locks.Enabled(ss[i], a)
    ensures (exists p: nat :: Engaged(ss[i], p)) ==> Engaged(ss[i], Actor(ss[i], a))
  {
    RelayDisciplined(ss, acts);
    a := DeadlockFree(ss, acts, i);
  }

  /** No handler or task of the relay is overtaken in a queue, whatever others keep arriving: one that waits at place k
      sees the lock granted to at most k others before it. */
  lemma RelayNoOvertaking(ss: seq<Sys>, acts: seq<Action>, i: nat, j: nat, l: Lock, k: nat, p: nat)
    requires RelayRun(ss, acts) && i <= j < |ss| && k < |ss[i].queues[l]| && ss[i].queues[l][k] == p
    requires forall m :: i <= m <= j ==> Waiting(ss[m], p)
    ensures GrantsOf(acts, i, j, l) <= k && PlaceWithin(ss[j], l, p, k - GrantsOf(acts, i, j, l))
  {
    RelayDisciplined(ss, acts);
    IdleSound();
    hide Sound, Disciplined, RelayRun, Waiting;
    NoOvertaking(ss, acts, i, j, l, k, p);
  }

  /** From every reachable state, once no new handler arrives, any scheduler finishes all handlers within a
      bounded number of steps and leaves every lock free. */
  lemma RelayDrains(ss: seq<Sys>, acts: seq<Action>, tail: seq<Sys>, more: seq<Action>)
    requires RelayRun(ss, acts)
    requires IsRun(tail, more) && tail[0] == ss[|acts|] && forall i :: 0 <= i < |more| ==> !more[i].Spawn?
    ensures Orderly(tail[0].procs) && |more| <= TotalWork(tail[0].procs)
    ensures (forall a: Action :: Proceeds(a) ==> !Locks.Enabled(tail[|more|], a)) ==>
      forall p :: 0 <= p < |tail[|more|].procs| ==>
        tail[|more|].procs[p].rest == [] && tail[|more|].procs[p].held == map[]
  {
    RelayDisciplined(ss, acts);
    IdleSound();
    RunSound(ss, acts, |acts|);
    Drains(tail, more);
  }
}
