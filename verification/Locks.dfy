/**
 The locks of AppState under fair queueing. A handler is reduced to the sequence of its lock operations; a
 system is any number of such handlers. Tokio's Mutex and RwLock serve their waiters strictly in order: a
 request joins the queue, and the head of the queue is granted once it is compatible with the holders.
 */
module Locks {

  datatype Lock =
    | AgentSenders | Database | PendingClaims | AllocatedPorts | TunnelTasks
    | TcpConnSenders | LiveTraffic | UserSessions | AdminSessions

  datatype Mode = Shared | Exclusive

  datatype Op = Acquire(lock: Lock, mode: Mode) | Release(lock: Lock)

  const TOP := 4

  function Rank(l: Lock): (r: nat)
    ensures r <= TOP
  {
    match l
    case AgentSenders => 0
    case Database => 1
    case PendingClaims => 2
    case AllocatedPorts => 2
    case TunnelTasks => 3
    case _ => 4
  }

  // ---------- scripts ----------

  /** The script acquires only locks that rank above all it holds, releases only what it holds, and takes
      the held locks from `held` to `after`. */
  ghost predicate Climbs(script: seq<Op>, held: set<Lock>, after: set<Lock>)
    decreases |script|
  {
    if script == [] then held == after
    else
      match script[0]
      case Acquire(l, _) => (forall h :: h in held ==> Rank(h) < Rank(l)) && Climbs(script[1..], held + {l}, after)
      case Release(l) => l in held && Climbs(script[1..], held - {l}, after)
  }

  // ---------- the system ----------

  /** What a handler still has to do, what it holds, and whether its next operation is queued. */
  datatype Proc = Proc(rest: seq<Op>, held: map<Lock, Mode>, waiting: bool)

  /** One queue of waiting handlers for each lock. */
  type Queues = q: map<Lock, seq<nat>> | forall l: Lock :: l in q witness NoQueues()

  function NoQueues(): (q: map<Lock, seq<nat>>)
    ensures forall l: Lock :: l in q && q[l] == []
  {
    map l: Lock | Rank(l) <= TOP :: []
  }

  datatype Sys = Sys(procs: seq<Proc>, queues: Queues)

  datatype Action = Spawn(script: seq<Op>) | Request(p: nat) | Grant(lock: Lock) | Free(p: nat) | Cancel(p: nat)

  /** A queue that a handler has left. */
  function Without(q: seq<nat>, p: nat): seq<nat> {
    if q == [] then [] else (if q[0] == p then [] else [q[0]]) + Without(q[1..], p)
  }

  /** Nobody who holds the lock stands in the way of a request in this mode. */
  ghost predicate Compatible(s: Sys, l: Lock, mode: Mode) {
    forall p :: 0 <= p < |s.procs| && l in s.procs[p].held ==> mode == Shared && s.procs[p].held[l] == Shared
  }

  ghost predicate Enabled(s: Sys, a: Action) {
    match a
    case Spawn(_) => true
    case Request(p) =>
      p < |s.procs| && !s.procs[p].waiting && s.procs[p].rest != [] && s.procs[p].rest[0].Acquire?
    case Grant(l) =>
      && s.queues[l] != []
      && s.queues[l][0] < |s.procs|
      && s.procs[s.queues[l][0]].rest != []
      && s.procs[s.queues[l][0]].rest[0].Acquire?
      && Compatible(s, l, s.procs[s.queues[l][0]].rest[0].mode)
    case Free(p) => p < |s.procs| && s.procs[p].rest != [] && s.procs[p].rest[0].Release?
    case Cancel(p) => p < |s.procs| && s.procs[p].rest != []
  }

  /** A cancelled handler or aborted task leaves the queue it waits in and drops the guards it holds. */
  ghost function Next(s: Sys, a: Action): Sys
    requires Enabled(s, a)
  {
    match a
    case Spawn(script) => s.(procs := s.procs + [Proc(script, map[], false)])
    case Request(p) =>
      var l := s.procs[p].rest[0].lock;
      Sys(s.procs[p := s.procs[p].(waiting := true)], s.queues[l := s.queues[l] + [p]])
    case Grant(l) =>
      var p := s.queues[l][0];
      var proc := s.procs[p];
      Sys(s.procs[p := Proc(proc.rest[1..], proc.held[l := proc.rest[0].mode], false)],
          s.queues[l := s.queues[l][1..]])
    case Free(p) =>
      var proc := s.procs[p];
      s.(procs := s.procs[p := proc.(rest := proc.rest[1..], held := proc.held - {proc.rest[0].lock})])
    case Cancel(p) =>
      var l := s.procs[p].rest[0].lock;
      Sys(s.procs[p := Proc([], map[], false)],
          if s.procs[p].waiting then s.queues[l := Without(s.queues[l], p)] else s.queues)
  }

  const Idle: Sys := Sys([], NoQueues())

  // ---------- the invariant ----------

  /** The handler keeps to the rank, and waits only on an acquisition. */
  ghost predicate ProcOk(p: Proc) {
    Climbs(p.rest, p.held.Keys, {}) && (p.waiting ==> p.rest != [] && p.rest[0].Acquire?)
  }

  /** Exactly the handlers waiting on a lock are in its queue, each once. */
  ghost predicate QueueOk(s: Sys, l: Lock) {
    && (forall i, j :: 0 <= i < j < |s.queues[l]| ==> s.queues[l][i] != s.queues[l][j])
    && (forall p: nat :: p in s.queues[l] <==>
          p < |s.procs| && s.procs[p].waiting && s.procs[p].rest != [] && s.procs[p].rest[0].lock == l)
  }

  /** A lock held exclusively has one holder. */
  ghost predicate Excluded(s: Sys, l: Lock) {
    forall p, q :: 0 <= p < |s.procs| && 0 <= q < |s.procs| && p != q
                   && l in s.procs[p].held && l in s.procs[q].held ==>
      s.procs[p].held[l] == Shared
  }

  ghost predicate Sound(s: Sys) {
    && (forall p :: 0 <= p < |s.procs| ==> ProcOk(s.procs[p]))
    && (forall l: Lock :: QueueOk(s, l) && Excluded(s, l))
  }

  /** A new handler keeps to the rank and ends with nothing held. */
  ghost predicate Disciplined(a: Action) { a.Spawn? ==> Climbs(a.script, {}, {}) }

  lemma ProcsOkKept(s: Sys, a: Action)
    requires Sound(s) && Enabled(s, a) && Disciplined(a)
    ensures forall p :: 0 <= p < |Next(s, a).procs| ==> ProcOk(Next(s, a).procs[p])
  {
    match a
    case Grant(l) =>
      var p := s.queues[l][0];
      assert QueueOk(s, l) && p in s.queues[l] && ProcOk(s.procs[p]);
      assert s.procs[p].held[l := s.procs[p].rest[0].mode].Keys == s.procs[p].held.Keys + {l};
    case Free(p) =>
      var proc := s.procs[p];
      assert ProcOk(proc) && (proc.held - {proc.rest[0].lock}).Keys == proc.held.Keys - {proc.rest[0].lock};
    case Request(p) => assert ProcOk(s.procs[p]);
    case _ =>
      var empty: map<Lock, Mode> := map[];
      assert empty.Keys == {};
  }

  lemma RequestQueued(s: Sys, p: nat, l: Lock)
    requires QueueOk(s, l) && Enabled(s, Request(p))
    ensures QueueOk(Next(s, Request(p)), l)
  {
    assert p !in s.queues[l];
  }

  lemma TailMembers(q: seq<nat>)
    requires q != [] && forall i, j :: 0 <= i < j < |q| ==> q[i] != q[j]
    ensures forall i, j :: 0 <= i < j < |q[1..]| ==> q[1..][i] != q[1..][j]
    ensures forall p :: p in q[1..] <==> p in q && p != q[0]
  {
    assert q == [q[0]] + q[1..];
  }

  lemma GrantDequeued(s: Sys, k: Lock, l: Lock)
    requires QueueOk(s, k) && QueueOk(s, l) && Enabled(s, Grant(k))
    ensures QueueOk(Next(s, Grant(k)), l)
  {
    var first := s.queues[k][0];
    assert first in s.queues[k];
    TailMembers(s.queues[k]);
    var t := Next(s, Grant(k));
    assert t.queues[l] == if k == l then s.queues[l][1..] else s.queues[l];
    forall p: nat
      ensures p in t.queues[l] <==>
        p < |t.procs| && t.procs[p].waiting && t.procs[p].rest != [] && t.procs[p].rest[0].lock == l
    {
      assert p != first && p < |s.procs| ==> t.procs[p] == s.procs[p];
      assert p in t.queues[l] <==> p in s.queues[l] && p != first;
    }
  }

  lemma FreeKeepsQueue(s: Sys, p: nat, l: Lock)
    requires QueueOk(s, l) && Enabled(s, Free(p)) && ProcOk(s.procs[p])
    ensures QueueOk(Next(s, Free(p)), l)
  {
    assert p !in s.queues[l];
  }

  lemma {:induction false} WithoutMembers(q: seq<nat>, p: nat)
    ensures forall x :: x in Without(q, p) <==> x in q && x != p
    ensures (forall i, j :: 0 <= i < j < |q| ==> q[i] != q[j]) ==>
      forall i, j :: 0 <= i < j < |Without(q, p)| ==> Without(q, p)[i] != Without(q, p)[j]
  {
    if q != [] {
      WithoutMembers(q[1..], p);
      assert q == [q[0]] + q[1..];
      if forall i, j :: 0 <= i < j < |q| ==> q[i] != q[j] {
        assert q[0] !in q[1..];
      }
    }
  }

  lemma CancelDequeued(s: Sys, p: nat, l: Lock)
    requires QueueOk(s, l) && Enabled(s, Cancel(p))
    ensures QueueOk(Next(s, Cancel(p)), l)
  {
    WithoutMembers(s.queues[l], p);
    hide Without;
    var t, k := Next(s, Cancel(p)), s.procs[p].rest[0].lock;
    if s.procs[p].waiting && k == l {
      assert t.queues[l] == Without(s.queues[l], p);
    } else {
      assert t.queues[l] == s.queues[l] && p !in s.queues[l];
    }
    forall q: nat
      ensures q in t.queues[l] <==>
        q < |t.procs| && t.procs[q].waiting && t.procs[q].rest != [] && t.procs[q].rest[0].lock == l
    {
      assert q in t.queues[l] <==> q in s.queues[l] && q != p;
    }
  }

  lemma QueueOkKept(s: Sys, a: Action, l: Lock)
    requires Sound(s) && Enabled(s, a)
    ensures QueueOk(Next(s, a), l)
  {
    assert QueueOk(s, l);
    match a
    case Grant(k) =>
      assert QueueOk(s, k);
      GrantDequeued(s, k, l);
    case Free(p) =>
      assert ProcOk(s.procs[p]);
      FreeKeepsQueue(s, p, l);
    case Request(p) => RequestQueued(s, p, l);
    case Cancel(p) => CancelDequeued(s, p, l);
    case Spawn(_) =>
  }

  lemma ExcludedKept(s: Sys, a: Action, l: Lock)
    requires Sound(s) && Enabled(s, a)
    ensures Excluded(Next(s, a), l)
  {
    hide Climbs, QueueOk;
    assert Excluded(s, l);
  }

  lemma SoundKept(s: Sys, a: Action)
    requires Sound(s) && Enabled(s, a) && Disciplined(a)
    ensures Sound(Next(s, a))
  {
    ProcsOkKept(s, a);
    forall l: Lock ensures QueueOk(Next(s, a), l) && Excluded(Next(s, a), l) {
      QueueOkKept(s, a, l);
      ExcludedKept(s, a, l);
    }
  }

  // ---------- progress ----------

  /** The step is one of a handler's own: neither an arrival nor a cancellation. */
  predicate Proceeds(a: Action) { !a.Spawn? && !a.Cancel? }

  /** The handler that takes the step. */
  function Actor(s: Sys, a: Action): nat
    requires Proceeds(a) && (a.Grant? ==> s.queues[a.lock] != [])
  {
    match a
    case Request(p) => p
    case Grant(l) => s.queues[l][0]
    case Free(p) => p
  }

  /** The handler waits for a lock or holds one. */
  ghost predicate Engaged(s: Sys, p: nat) {
    p < |s.procs| && (s.procs[p].waiting || s.procs[p].held != map[])
  }

  /** From a waiting handler, climb from the lock it waits for to a holder in its way, to the lock that
      holder waits for, and so on. Ranks only rise, so the climb ends at a handler that can move. */
  lemma {:induction false} Unblock(s: Sys, p: nat) returns (a: Action)
    requires Sound(s) && p < |s.procs| && s.procs[p].waiting
    ensures Proceeds(a) && Enabled(s, a) && Engaged(s, Actor(s, a))
    decreases if s.procs[p].rest != [] && s.procs[p].rest[0].Acquire? then TOP - Rank(s.procs[p].rest[0].lock) else 0, 1
  {
    assert ProcOk(s.procs[p]);
    var l := s.procs[p].rest[0].lock;
    assert QueueOk(s, l) && p in s.queues[l];
    var first := s.queues[l][0];
    assert first in s.queues[l];
    if Compatible(s, l, s.procs[first].rest[0].mode) {
      a := Grant(l);
    } else {
      var h :| 0 <= h < |s.procs| && l in s.procs[h].held;
      a := Advance(s, h, l);
    }
  }

  lemma {:induction false} Advance(s: Sys, h: nat, l: Lock) returns (a: Action)
    requires Sound(s) && h < |s.procs| && l in s.procs[h].held
    ensures Proceeds(a) && Enabled(s, a) && Engaged(s, Actor(s, a))
    decreases TOP - Rank(l), 0
  {
    var holder := s.procs[h];
    assert ProcOk(holder);
    assert l in holder.held.Keys;
    assert holder.rest != [];
    if holder.rest[0].Release? {
      a := Free(h);
    } else if !holder.waiting {
      a := Request(h);
    } else {
      a := Unblock(s, h);
    }
  }

  ghost predicate Finished(s: Sys) { forall p :: 0 <= p < |s.procs| ==> s.procs[p].rest == [] }

  /** If any handler waits or holds a lock, one that waits or holds a lock can move. */
  lemma Moves(s: Sys) returns (a: Action)
    requires Sound(s) && !Finished(s)
    ensures Proceeds(a) && Enabled(s, a)
    ensures (exists p: nat :: Engaged(s, p)) ==> Engaged(s, Actor(s, a))
  {
    if p: nat :| Engaged(s, p) {
      if s.procs[p].waiting {
        a := Unblock(s, p);
      } else {
        var l :| l in s.procs[p].held;
        a := Advance(s, p, l);
      }
    } else {
      var p :| 0 <= p < |s.procs| && s.procs[p].rest != [];
      assert ProcOk(s.procs[p]) && !Engaged(s, p);
      a := Request(p);
    }
  }

  // ---------- runs ----------

  ghost predicate IsRun(ss: seq<Sys>, acts: seq<Action>) {
    && |ss| == |acts| + 1
    && forall i :: 0 <= i < |acts| ==> Enabled(ss[i], acts[i]) && ss[i + 1] == Next(ss[i], acts[i])
  }

  lemma {:induction false} RunSound(ss: seq<Sys>, acts: seq<Action>, i: nat)
    requires IsRun(ss, acts) && Sound(ss[0]) && i < |ss| && forall k :: 0 <= k < |acts| ==> Disciplined(acts[k])
    ensures Sound(ss[i])
  {
    if i > 0 {
      RunSound(ss, acts, i - 1);
      SoundKept(ss[i - 1], acts[i - 1]);
    }
  }

  lemma IdleSound()
    ensures Sound(Idle)
  {
  }

  /** Deadlock freedom: in every reachable state some handler can move, unless all are done; and if any handler
      waits for a lock or holds one, it is such a handler that can move, not only one that arrives. */
  lemma DeadlockFree(ss: seq<Sys>, acts: seq<Action>, i: nat) returns (a: Action)
    requires IsRun(ss, acts) && ss[0] == Idle && forall k :: 0 <= k < |acts| ==> Disciplined(acts[k])
    requires i < |ss| && !Finished(ss[i])
    ensures Proceeds(a) && Enabled(ss[i], a)
    ensures (exists p: nat :: Engaged(ss[i], p)) ==> Engaged(ss[i], Actor(ss[i], a))
  {
    IdleSound();
    RunSound(ss, acts, i);
    a := Moves(ss[i]);
  }

  // ---------- no overtaking ----------

  /** Handler p is in the queue of lock l, with at most k others before it. */
  ghost predicate PlaceWithin(s: Sys, l: Lock, p: nat, k: int) {
    exists m: nat :: m <= k && m < |s.queues[l]| && s.queues[l][m] == p
  }

  lemma {:induction false} WithoutPlace(q: seq<nat>, x: nat, k: nat) returns (m: nat)
    requires k < |q| && q[k] != x
    ensures m <= k && m < |Without(q, x)| && Without(q, x)[m] == q[k]
  {
    if k == 0 {
      m := 0;
    } else {
      m := WithoutPlace(q[1..], x, k - 1);
      m := if q[0] == x then m else m + 1;
    }
  }

  lemma CancelPlace(s: Sys, c: nat, l: Lock, k: nat)
    requires Sound(s) && Enabled(s, Cancel(c)) && k < |s.queues[l]|
    ensures var t, p := Next(s, Cancel(c)), s.queues[l][k];
      p < |t.procs| && (t.procs[p].waiting ==> PlaceWithin(t, l, p, k))
  {
    var t, p := Next(s, Cancel(c)), s.queues[l][k];
    assert QueueOk(s, l) && p in s.queues[l];
    hide Sound, QueueOk, Without;
    if c != p {
      if s.procs[c].waiting && s.procs[c].rest[0].lock == l {
        var m := WithoutPlace(s.queues[l], c, k);
        assert t.queues[l][m] == p;
      } else {
        assert t.queues[l][k] == p;
      }
    }
  }

  /** A step serves a waiting handler, cancels it, or leaves it at its place or further ahead; and further ahead if the
      step grants the lock. */
  lemma StepPlace(s: Sys, a: Action, l: Lock, k: nat)
    requires Sound(s) && Enabled(s, a) && k < |s.queues[l]|
    ensures var t, p := Next(s, a), s.queues[l][k];
      && p < |t.procs|
      && (t.procs[p].waiting ==> PlaceWithin(t, l, p, if a == Grant(l) then k - 1 else k))
  {
    hide Climbs, Without, Excluded, ProcOk;
    var t, p := Next(s, a), s.queues[l][k];
    assert QueueOk(s, l) && p in s.queues[l];
    if a == Grant(l) {
      if k > 0 {
        assert t.queues[l][k - 1] == p;
      }
    } else if a.Cancel? {
      CancelPlace(s, a.p, l, k);
    } else {
      assert t.queues[l][k] == p;
    }
  }

  /** How often the lock is granted in the steps from i up to j. */
  function GrantsOf(acts: seq<Action>, i: nat, j: nat, l: Lock): nat
    requires i <= j <= |acts|
  {
    if i == j then 0 else GrantsOf(acts, i, j - 1, l) + if acts[j - 1] == Grant(l) then 1 else 0
  }

  predicate Waiting(s: Sys, p: nat) { p < |s.procs| && s.procs[p].waiting }

  /** No overtaking, whatever handlers keep arriving: while handler p, once at place k of a queue, goes on waiting,
      every grant of the lock brings it at least one place ahead; so at most k others get the lock before it. */
  lemma {:induction false} NoOvertaking(ss: seq<Sys>, acts: seq<Action>, i: nat, j: nat, l: Lock, k: nat, p: nat)
    requires IsRun(ss, acts) && Sound(ss[0]) && forall m :: 0 <= m < |acts| ==> Disciplined(acts[m])
    requires i <= j < |ss| && k < |ss[i].queues[l]| && ss[i].queues[l][k] == p
    requires forall m :: i <= m <= j ==> Waiting(ss[m], p)
    ensures GrantsOf(acts, i, j, l) <= k && PlaceWithin(ss[j], l, p, k - GrantsOf(acts, i, j, l))
  {
    hide Sound, Enabled, Next, Waiting, Disciplined, PlaceWithin, IsRun;
    if i == j {
      AtPlace(ss[i], l, k);
    } else {
      NoOvertaking(ss, acts, i, j - 1, l, k, p);
      RunSound(ss, acts, j - 1);
      LastStep(ss, acts, j);
      AheadByGrants(ss[j - 1], acts[j - 1], l, p, k - GrantsOf(acts, i, j - 1, l));
    }
  }

  lemma LastStep(ss: seq<Sys>, acts: seq<Action>, j: nat)
    requires IsRun(ss, acts) && 0 < j < |ss|
    ensures |ss| == |acts| + 1 && Enabled(ss[j - 1], acts[j - 1]) && ss[j] == Next(ss[j - 1], acts[j - 1])
  {
    hide Enabled, Next;
  }

  lemma AtPlace(s: Sys, l: Lock, k: nat)
    requires k < |s.queues[l]|
    ensures PlaceWithin(s, l, s.queues[l][k], k)
  {
  }

  lemma AheadByGrants(s: Sys, a: Action, l: Lock, p: nat, k: int)
    requires Sound(s) && Enabled(s, a) && PlaceWithin(s, l, p, k) && Waiting(Next(s, a), p)
    ensures PlaceWithin(Next(s, a), l, p, if a == Grant(l) then k - 1 else k)
    ensures a == Grant(l) ==> k > 0
  {
    hide Sound, Enabled, Next;
    var m: nat :| m <= k && m < |s.queues[l]| && s.queues[l][m] == p;
    StepPlace(s, a, l, m);
  }

  // ---------- every run without new handlers drains ----------

  function Work(p: Proc): nat
    requires p.waiting ==> p.rest != []
  {
    2 * |p.rest| - if p.waiting then 1 else 0
  }

  ghost predicate Orderly(procs: seq<Proc>) {
    forall i :: 0 <= i < |procs| && procs[i].waiting ==> procs[i].rest != []
  }

  ghost function TotalWork(procs: seq<Proc>): nat
    requires Orderly(procs)
  {
    if procs == [] then 0 else TotalWork(procs[..|procs| - 1]) + Work(procs[|procs| - 1])
  }

  lemma {:induction false} WorkDrops(procs: seq<Proc>, p: nat, proc: Proc)
    requires Orderly(procs) && p < |procs| && (proc.waiting ==> proc.rest != [])
    ensures TotalWork(procs[p := proc]) == TotalWork(procs) - Work(procs[p]) + Work(proc)
  {
    var k := |procs| - 1;
    if p < k {
      WorkDrops(procs[..k], p, proc);
      assert procs[p := proc][..k] == procs[..k][p := proc];
    } else {
      assert procs[p := proc][..k] == procs[..k];
    }
  }

  lemma SoundOrderly(s: Sys)
    requires Sound(s)
    ensures Orderly(s.procs)
  {
    assert forall p :: 0 <= p < |s.procs| ==> ProcOk(s.procs[p]);
  }

  lemma StepWorks(s: Sys, a: Action)
    requires Sound(s) && Enabled(s, a) && !a.Spawn?
    ensures Sound(Next(s, a)) && Orderly(s.procs) && Orderly(Next(s, a).procs)
    ensures TotalWork(Next(s, a).procs) < TotalWork(s.procs)
  {
    SoundKept(s, a);
    SoundOrderly(s);
    SoundOrderly(Next(s, a));
    var p := if a.Grant? then s.queues[a.lock][0] else a.p;
    if a.Grant? {
      assert QueueOk(s, a.lock) && p in s.queues[a.lock];
    }
    assert ProcOk(s.procs[p]);
    WorkDrops(s.procs, p, Next(s, a).procs[p]);
  }

  /** However the scheduler chooses, and whichever handlers are cancelled, a run without new handlers makes at most
      TotalWork steps, and where no handler can proceed, every handler is done and every lock is free. */
  lemma {:induction false} Drains(ss: seq<Sys>, acts: seq<Action>)
    requires IsRun(ss, acts) && Sound(ss[0]) && forall i :: 0 <= i < |acts| ==> !acts[i].Spawn?
    ensures Orderly(ss[0].procs) && |acts| <= TotalWork(ss[0].procs)
    ensures (forall a: Action :: Proceeds(a) ==> !Enabled(ss[|acts|], a)) ==>
      forall p :: 0 <= p < |ss[|acts|].procs| ==>
        ss[|acts|].procs[p].rest == [] && ss[|acts|].procs[p].held == map[]
    decreases |acts|
  {
    SoundOrderly(ss[0]);
    if acts == [] {
      if !Finished(ss[0]) {
        var a := Moves(ss[0]);
      } else {
        forall p | 0 <= p < |ss[0].procs| ensures ss[0].procs[p].held == map[] {
          assert ProcOk(ss[0].procs[p]);
        }
      }
    } else {
      StepWorks(ss[0], acts[0]);
      Drains(ss[1..], acts[1..]);
    }
  }
}
