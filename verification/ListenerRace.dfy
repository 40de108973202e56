/**
 `start_tunnel_listener` and `stop_tunnel_listener` in small steps, any number of calls interleaved. Stopping,
 binding together with spawning, and inserting are each atomic, with other calls' steps in between; an
 aborted task goes on running, and holding its socket, until the runtime gets round to it.

 A start call binds the address of the row it was called with, which an edit of the protocol may have changed since
 another call read it. The agents' channels stay open until CloseChannels.
 */
module ListenerRace {
  import opened Types

  datatype Addr = Addr(tcp: bool, port: Port)

  datatype Phase =
    | Stopping            // about to remove and abort the registered listener
    | Binding             // start only: about to bind and spawn
    | Inserting(l: nat)   // start only: holds the handle of listener l, about to file it
    | Returned

  datatype Call = Call(tunnel: Id, start: bool, phase: Phase)

  datatype Task = Task(tunnel: Id, addr: Addr, running: bool, aborted: bool)

  datatype Race = Race(calls: seq<Call>, tasks: seq<Task>, registry: map<Id, nat>, closed: bool)

  datatype Action =
    | Begin(tunnel: Id, start: bool)
    | Stop(c: nat)
    | Bind(c: nat, addr: Addr, granted: bool)
    | Insert(c: nat)
    | Die(l: nat)           // an aborted task reaches its next wait
    | CloseChannels
    | Exit(l: nat)          // a task notices that its channel is closed

  const Empty := Race([], [], map[], false)

  ghost predicate AddrBusy(r: Race, a: Addr) {
    exists l :: 0 <= l < |r.tasks| && r.tasks[l].running && r.tasks[l].addr == a
  }

  ghost predicate Enabled(r: Race, a: Action) {
    match a
    case Begin(_, _) => true
    case Stop(c) => c < |r.calls| && r.calls[c].phase == Stopping
    case Bind(c, addr, granted) => c < |r.calls| && r.calls[c].phase == Binding && (granted ==> !AddrBusy(r, addr))
    case Insert(c) => c < |r.calls| && r.calls[c].phase.Inserting?
    case Die(l) => l < |r.tasks| && r.tasks[l].running && r.tasks[l].aborted
    case CloseChannels => true
    case Exit(l) => l < |r.tasks| && r.tasks[l].running && r.closed
  }

  function SetPhase(calls: seq<Call>, c: nat, p: Phase): seq<Call>
    requires c < |calls|
  {
    calls[c := calls[c].(phase := p)]
  }

  ghost function Next(r: Race, a: Action): Race
    requires Enabled(r, a)
  {
    match a
    case Begin(t, start) => r.(calls := r.calls + [Call(t, start, Stopping)])
    case Stop(c) =>
      var t := r.calls[c].tunnel;
      var calls := SetPhase(r.calls, c, if r.calls[c].start then Binding else Returned);
      if t in r.registry && r.registry[t] < |r.tasks| then
        var l := r.registry[t];
        r.(calls := calls, registry := r.registry - {t}, tasks := r.tasks[l := r.tasks[l].(aborted := true)])
      else r.(calls := calls)
    case Bind(c, addr, granted) =>
      var t := r.calls[c].tunnel;
      if granted then
        r.(calls := SetPhase(r.calls, c, Inserting(|r.tasks|)), tasks := r.tasks + [Task(t, addr, true, false)])
      else r.(calls := SetPhase(r.calls, c, Returned))
    case Insert(c) =>
      r.(calls := SetPhase(r.calls, c, Returned), registry := r.registry[r.calls[c].tunnel := r.calls[c].phase.l])
    case Die(l) => r.(tasks := r.tasks[l := r.tasks[l].(running := false)])
    case CloseChannels => r.(closed := true)
    case Exit(l) => r.(tasks := r.tasks[l := r.tasks[l].(running := false)])
  }

  /** Running and not aborted: it serves clients, and nobody has told it to stop. */
  ghost predicate Serving(r: Race, l: nat) { l < |r.tasks| && r.tasks[l].running && !r.tasks[l].aborted }

  /** Some start call holds the handle of l and has yet to file it. */
  ghost predicate InHand(r: Race, l: nat) { exists c: nat :: Holds(r, c, l) }

  ghost predicate Holds(r: Race, c: nat, l: nat) { c < |r.calls| && r.calls[c].phase == Inserting(l) }

  // ---------- the invariant, while the channels are open and every tunnel keeps its address ----------

  /** A bind is for the one address of its tunnel. */
  predicate Steady(addr: Id -> Addr, r: Race, a: Action) {
    a.Bind? && a.c < |r.calls| ==> a.addr == addr(r.calls[a.c].tunnel)
  }

  ghost predicate Filed(r: Race) {
    forall t :: t in r.registry ==> Serving(r, r.registry[t]) && r.tasks[r.registry[t]].tunnel == t
  }

  ghost predicate Held(r: Race) {
    && (forall c: nat, l: nat :: Holds(r, c, l) ==>
          && Serving(r, l) && r.tasks[l].tunnel == r.calls[c].tunnel
          && !(r.tasks[l].tunnel in r.registry && r.registry[r.tasks[l].tunnel] == l))
    && (forall c: nat, d: nat, l: nat :: Holds(r, c, l) && Holds(r, d, l) ==> c == d)
  }

  ghost predicate OneHolderEach(addr: Id -> Addr, r: Race) {
    && (forall l :: 0 <= l < |r.tasks| ==> r.tasks[l].addr == addr(r.tasks[l].tunnel))
    && (forall l, m :: 0 <= l < |r.tasks| && 0 <= m < |r.tasks| && l != m
                       && r.tasks[l].running && r.tasks[m].running ==>
          r.tasks[l].addr != r.tasks[m].addr)
  }

  /** No listener is lost: each one that serves is registered or in the hand of a start call. */
  ghost predicate NoneLost(r: Race) {
    forall l: nat :: Serving(r, l) ==>
      (r.tasks[l].tunnel in r.registry && r.registry[r.tasks[l].tunnel] == l) || InHand(r, l)
  }

  ghost predicate Inv(addr: Id -> Addr, r: Race) {
    !r.closed && Filed(r) && Held(r) && OneHolderEach(addr, r) && NoneLost(r)
  }

  /** While channels are open, inserting a handle never overwrites another one: the tunnel has no entry. */
  lemma InsertOverwritesNothing(addr: Id -> Addr, r: Race, c: nat)
    requires Inv(addr, r) && Enabled(r, Insert(c))
    ensures r.calls[c].tunnel !in r.registry
  {
    var l := r.calls[c].phase.l;
    assert Holds(r, c, l);
    assert Serving(r, l) && r.tasks[l].addr == addr(r.calls[c].tunnel);
  }

  lemma BeginKeeps(addr: Id -> Addr, r: Race, t: Id, start: bool)
    requires Inv(addr, r)
    ensures Inv(addr, Next(r, Begin(t, start)))
  {
    var s := Next(r, Begin(t, start));
    assert forall c: nat, l: nat :: Holds(s, c, l) <==> Holds(r, c, l);
  }

  lemma StopKeeps(addr: Id -> Addr, r: Race, c: nat)
    requires Inv(addr, r) && Enabled(r, Stop(c))
    ensures Inv(addr, Next(r, Stop(c)))
  {
    var s := Next(r, Stop(c));
    assert forall d: nat, l: nat :: Holds(s, d, l) <==> Holds(r, d, l);
    forall l: nat | Serving(s, l)
      ensures (s.tasks[l].tunnel in s.registry && s.registry[s.tasks[l].tunnel] == l) || InHand(s, l)
    {
      assert Serving(r, l);
      if InHand(r, l) {
        var d: nat :| Holds(r, d, l);
        assert Holds(s, d, l);
      }
    }
  }

  lemma BindKeeps(addr: Id -> Addr, r: Race, c: nat, a: Addr, granted: bool)
    requires Inv(addr, r) && Enabled(r, Bind(c, a, granted)) && a == addr(r.calls[c].tunnel)
    ensures Inv(addr, Next(r, Bind(c, a, granted)))
  {
    var s := Next(r, Bind(c, a, granted));
    var spawned := |r.tasks|;
    assert forall d: nat, l: nat :: Holds(s, d, l) <==> Holds(r, d, l) || (granted && d == c && l == spawned);
    forall l: nat | Serving(s, l)
      ensures (s.tasks[l].tunnel in s.registry && s.registry[s.tasks[l].tunnel] == l) || InHand(s, l)
    {
      if l == spawned {
        assert Holds(s, c, l);
      } else {
        assert Serving(r, l);
        if InHand(r, l) {
          var d: nat :| Holds(r, d, l);
          assert Holds(s, d, l);
        }
      }
    }
  }

  lemma InsertKeeps(addr: Id -> Addr, r: Race, c: nat)
    requires Inv(addr, r) && Enabled(r, Insert(c))
    ensures Inv(addr, Next(r, Insert(c)))
  {
    InsertOverwritesNothing(addr, r, c);
    var s := Next(r, Insert(c));
    var k := r.calls[c].phase.l;
    assert Holds(r, c, k);
    assert forall d: nat, l: nat :: Holds(s, d, l) <==> Holds(r, d, l) && d != c;
    forall l: nat | Serving(s, l)
      ensures (s.tasks[l].tunnel in s.registry && s.registry[s.tasks[l].tunnel] == l) || InHand(s, l)
    {
      assert Serving(r, l);
      if l != k && InHand(r, l) {
        var d: nat :| Holds(r, d, l);
        assert Holds(s, d, l);
      }
    }
  }

  lemma DieKeeps(addr: Id -> Addr, r: Race, l: nat)
    requires Inv(addr, r) && Enabled(r, Die(l))
    ensures Inv(addr, Next(r, Die(l)))
  {
    var s := Next(r, Die(l));
    assert forall d: nat, m: nat :: Holds(s, d, m) <==> Holds(r, d, m);
    forall m: nat | Serving(s, m)
      ensures (s.tasks[m].tunnel in s.registry && s.registry[s.tasks[m].tunnel] == m) || InHand(s, m)
    {
      assert Serving(r, m);
      if InHand(r, m) {
        var d: nat :| Holds(r, d, m);
        assert Holds(s, d, m);
      }
    }
  }

  lemma InvKept(addr: Id -> Addr, r: Race, a: Action)
    requires Inv(addr, r) && Enabled(r, a) && Steady(addr, r, a) && !a.CloseChannels?
    ensures Inv(addr, Next(r, a))
  {
    match a
    case Begin(t, start) => BeginKeeps(addr, r, t, start);
    case Stop(c) => StopKeeps(addr, r, c);
    case Bind(c, address, granted) => BindKeeps(addr, r, c, address, granted);
    case Insert(c) => InsertKeeps(addr, r, c);
    case Die(l) => DieKeeps(addr, r, l);
    case Exit(l) =>
  }

  // ---------- runs ----------

  ghost predicate IsRun(rs: seq<Race>, acts: seq<Action>) {
    && |rs| == |acts| + 1 && rs[0] == Empty
    && forall i :: 0 <= i < |acts| ==> Enabled(rs[i], acts[i]) && rs[i + 1] == Next(rs[i], acts[i])
  }

  ghost predicate AlwaysSteady(addr: Id -> Addr, rs: seq<Race>, acts: seq<Action>) {
    |rs| == |acts| + 1 && forall i :: 0 <= i < |acts| ==> Steady(addr, rs[i], acts[i])
  }

  lemma {:induction false} RunInv(addr: Id -> Addr, rs: seq<Race>, acts: seq<Action>, i: nat)
    requires IsRun(rs, acts) && AlwaysSteady(addr, rs, acts) && i < |rs| && !rs[i].closed
    ensures Inv(addr, rs[i])
  {
    if i > 0 {
      RunInv(addr, rs, acts, i - 1);
      InvKept(addr, rs[i - 1], acts[i - 1]);
    }
  }

  /** No lost listener. On every run on which tunnels keep their addresses, as long as the channels are open, each
      listener that serves is in tunnel_tasks or held by a start call, and no insertion overwrites an entry. */
  lemma NoListenerLost(addr: Id -> Addr, rs: seq<Race>, acts: seq<Action>, i: nat)
    requires IsRun(rs, acts) && AlwaysSteady(addr, rs, acts) && i < |rs| && !rs[i].closed
    ensures forall l: nat :: Serving(rs[i], l) ==>
      (rs[i].tasks[l].tunnel in rs[i].registry && rs[i].registry[rs[i].tasks[l].tunnel] == l) || InHand(rs[i], l)
    ensures i < |acts| && acts[i].Insert? ==> rs[i].calls[acts[i].c].tunnel !in rs[i].registry
  {
    RunInv(addr, rs, acts, i);
    if i < |acts| && acts[i].Insert? {
      InsertOverwritesNothing(addr, rs[i], acts[i].c);
    }
  }

  ghost predicate StartInFlight(r: Race, t: Id) {
    exists c :: 0 <= c < |r.calls| && r.calls[c].tunnel == t && r.calls[c].phase.Inserting?
  }

  lemma StopClears(addr: Id -> Addr, r: Race, c: nat, l: nat)
    requires Inv(addr, r) && Enabled(r, Stop(c)) && !StartInFlight(r, r.calls[c].tunnel)
    requires Serving(Next(r, Stop(c)), l)
    ensures Next(r, Stop(c)).tasks[l].tunnel != r.calls[c].tunnel
  {
    assert Serving(r, l);
    forall d: nat | Holds(r, d, l) ensures r.calls[d].tunnel == r.tasks[l].tunnel && r.calls[d].phase.Inserting? {
    }
  }

  /** A stop leaves no listener of its tunnel serving, unless a start call holds one in its hand. */
  lemma StopLeavesNone(addr: Id -> Addr, rs: seq<Race>, acts: seq<Action>, i: nat, l: nat)
    requires IsRun(rs, acts) && AlwaysSteady(addr, rs, acts) && i < |acts| && !rs[i].closed && acts[i].Stop?
    requires !StartInFlight(rs[i], rs[i].calls[acts[i].c].tunnel)
    ensures Serving(rs[i + 1], l) ==> rs[i + 1].tasks[l].tunnel != rs[i].calls[acts[i].c].tunnel
  {
    RunInv(addr, rs, acts, i);
    if Serving(rs[i + 1], l) {
      StopClears(addr, rs[i], acts[i].c, l);
    }
  }

  // ---------- once channels close ----------

  /** Entries and handles are of the tunnels they are filed or held for. */
  ghost predicate Shaped(r: Race) {
    && (forall t :: t in r.registry ==> r.registry[t] < |r.tasks| && r.tasks[r.registry[t]].tunnel == t)
    && (forall c: nat, l: nat :: Holds(r, c, l) ==> l < |r.tasks| && r.tasks[l].tunnel == r.calls[c].tunnel)
  }

  lemma ShapedKept(r: Race, a: Action)
    requires Shaped(r) && Enabled(r, a)
    ensures Shaped(Next(r, a))
  {
    var s := Next(r, a);
    if a.Insert? {
      assert Holds(r, a.c, r.calls[a.c].phase.l);
    }
    forall c: nat, l: nat | Holds(s, c, l) ensures l < |s.tasks| && s.tasks[l].tunnel == s.calls[c].tunnel {
      assert Holds(r, c, l) || (a.Bind? && a.c == c && l == |r.tasks|);
    }
  }

  /** The step files a handle over a serving listener that no other call holds. */
  ghost predicate Overwrites(r: Race, a: Action) {
    && a.Insert? && a.c < |r.calls| && r.calls[a.c].phase.Inserting?
    && var t := r.calls[a.c].tunnel;
       && t in r.registry && Serving(r, r.registry[t]) && r.registry[t] != r.calls[a.c].phase.l
       && forall d: nat :: Holds(r, d, r.registry[t]) ==> d == a.c
  }

  ghost predicate Reachable(r: Race, l: nat) {
    (l < |r.tasks| && r.tasks[l].tunnel in r.registry && r.registry[r.tasks[l].tunnel] == l) || InHand(r, l)
  }

  lemma InsertExact(r: Race, c: nat)
    requires NoneLost(r) && Shaped(r) && Enabled(r, Insert(c))
    ensures NoneLost(Next(r, Insert(c))) <==> !Overwrites(r, Insert(c))
  {
    var s := Next(r, Insert(c));
    var t, k := r.calls[c].tunnel, r.calls[c].phase.l;
    assert Holds(r, c, k);
    assert forall d: nat, l: nat :: Holds(s, d, l) <==> Holds(r, d, l) && d != c;
    if t in r.registry && Serving(r, r.registry[t]) && r.registry[t] != k {
      var m := r.registry[t];
      assert Serving(s, m) && s.tasks[m].tunnel == t && s.registry[t] == k;
      if d: nat :| Holds(r, d, m) && d != c {
        assert Holds(s, d, m) && InHand(s, m);
      } else {
        assert !InHand(s, m);
      }
    }
    forall l: nat | Serving(s, l) && !(t in r.registry && r.registry[t] == l) ensures Reachable(s, l) {
      assert Serving(r, l);
      if l != k && InHand(r, l) {
        var d: nat :| Holds(r, d, l);
        assert Holds(s, d, l);
      }
    }
  }

  lemma OthersKeep(r: Race, a: Action)
    requires NoneLost(r) && Shaped(r) && Enabled(r, a) && !a.Insert?
    ensures NoneLost(Next(r, a))
  {
    var s := Next(r, a);
    forall d: nat, l: nat | Holds(r, d, l) ensures Holds(s, d, l) {
    }
    forall l: nat | Serving(s, l) ensures Reachable(s, l) {
      if l < |r.tasks| {
        assert Serving(r, l);
        if InHand(r, l) {
          var d: nat :| Holds(r, d, l);
          assert Holds(s, d, l);
        }
      } else {
        assert Holds(s, a.c, l);
      }
    }
  }

  lemma {:induction false} RunShaped(rs: seq<Race>, acts: seq<Action>, i: nat)
    requires IsRun(rs, acts) && i < |rs|
    ensures Shaped(rs[i])
  {
    if i > 0 {
      hide Shaped, Next;
      RunShaped(rs, acts, i - 1);
      ShapedKept(rs[i - 1], acts[i - 1]);
    } else {
      assert forall c: nat, l: nat :: !Holds(Empty, c, l);
    }
  }

  /** In every state of every run, open channels or not: from a state in which no listener is lost, a step loses one
      if and only if it files a handle over a serving listener that no other call holds. */
  lemma LosesExactly(rs: seq<Race>, acts: seq<Action>, i: nat)
    requires IsRun(rs, acts) && i < |acts| && NoneLost(rs[i])
    ensures NoneLost(rs[i + 1]) <==> !Overwrites(rs[i], acts[i])
  {
    hide NoneLost, Shaped, Next;
    RunShaped(rs, acts, i);
    if acts[i].Insert? {
      InsertExact(rs[i], acts[i].c);
    } else {
      OthersKeep(rs[i], acts[i]);
    }
  }

  /** So a run without such a step never loses a listener. */
  lemma {:induction false} NoneOverwritten(rs: seq<Race>, acts: seq<Action>, i: nat)
    requires IsRun(rs, acts) && i < |rs| && forall k :: 0 <= k < i ==> !Overwrites(rs[k], acts[k])
    ensures NoneLost(rs[i])
  {
    if i > 0 {
      hide NoneLost, Next, Overwrites;
      NoneOverwritten(rs, acts, i - 1);
      LosesExactly(rs, acts, i - 1);
    }
  }

  lemma RunMore(rs: seq<Race>, acts: seq<Action>, a: Action)
    requires IsRun(rs, acts) && Enabled(rs[|acts|], a)
    ensures IsRun(rs + [Next(rs[|acts|], a)], acts + [a])
  {
    hide Enabled, Next;
    var more, after := rs + [Next(rs[|acts|], a)], acts + [a];
    forall i | 0 <= i < |after|
      ensures Enabled(more[i], after[i]) && more[i + 1] == Next(more[i], after[i])
    {
      assert i < |acts| ==> more[i] == rs[i] && more[i + 1] == rs[i + 1] && after[i] == acts[i];
    }
  }

  function Mine(phase: Phase): Call { Call(0, true, phase) }

  const HOME := Addr(true, 2000)

  /** One start call for tunnel 0 is about to file a task that has already ended. */
  function Stale(): Race {
    Race([Mine(Inserting(0))], [Task(0, HOME, false, false)], map[], true)
  }

  lemma GoesStale() returns (rs: seq<Race>, acts: seq<Action>)
    ensures IsRun(rs, acts) && rs[|acts|] == Stale()
  {
    rs := [Empty, Race([Mine(Stopping)], [], map[], false)];
    RunMore([Empty], [], Begin(0, true));
    acts := [Begin(0, true)];
    RunMore(rs, acts, Stop(0));
    rs, acts := rs + [Race([Mine(Binding)], [], map[], false)], acts + [Stop(0)];
    RunMore(rs, acts, Bind(0, HOME, true));
    var live := Task(0, HOME, true, false);
    rs, acts := rs + [Race([Mine(Inserting(0))], [live], map[], false)], acts + [Bind(0, HOME, true)];
    RunMore(rs, acts, CloseChannels);
    rs, acts := rs + [Race([Mine(Inserting(0))], [live], map[], true)], acts + [CloseChannels];
    RunMore(rs, acts, Exit(0));
    rs, acts := rs + [Stale()], acts + [Exit(0)];
  }

  /** A second start call has bound and filed its task. */
  function Restarted(): Race {
    Race([Mine(Inserting(0)), Mine(Returned)], [Task(0, HOME, false, false), Task(0, HOME, true, false)],
         map[0 := 1], true)
  }

  lemma StartsAgain() returns (rs: seq<Race>, acts: seq<Action>)
    ensures IsRun(rs, acts) && rs[|acts|] == Restarted()
  {
    rs, acts := GoesStale();
    var dead := Task(0, HOME, false, false);
    RunMore(rs, acts, Begin(0, true));
    rs, acts := rs + [Race([Mine(Inserting(0)), Mine(Stopping)], [dead], map[], true)], acts + [Begin(0, true)];
    RunMore(rs, acts, Stop(1));
    rs, acts := rs + [Race([Mine(Inserting(0)), Mine(Binding)], [dead], map[], true)], acts + [Stop(1)];
    RunMore(rs, acts, Bind(1, HOME, true));
    var tasks := [dead, Task(0, HOME, true, false)];
    rs, acts := rs + [Race([Mine(Inserting(0)), Mine(Inserting(1))], tasks, map[], true)], acts + [Bind(1, HOME, true)];
    RunMore(rs, acts, Insert(1));
    rs, acts := rs + [Restarted()], acts + [Insert(1)];
  }

  /** With closing channels the claim fails: the first start binds, its task exits when the channel closes,
      a second start binds and registers, and then the first start files its dead handle over the live one. */
  lemma ClosingLosesOne() returns (rs: seq<Race>, acts: seq<Action>)
    ensures IsRun(rs, acts)
    ensures var r := rs[|acts|];
      Serving(r, 1) && r.tasks[1].tunnel == 0 && 0 in r.registry && r.registry[0] == 0 && !InHand(r, 1)
  {
    rs, acts := StartsAgain();
    RunMore(rs, acts, Insert(0));
    rs, acts := rs + [Next(Restarted(), Insert(0))], acts + [Insert(0)];
  }

  // ---------- restarting a listener ----------

  /** Task l ends in one of the steps from i up to j. */
  ghost predicate Ends(acts: seq<Action>, i: nat, j: nat, l: nat)
    requires i <= j <= |acts|
  {
    exists k :: i <= k < j && (acts[k] == Die(l) || acts[k] == Exit(l))
  }

  lemma {:induction false} TaskKept(rs: seq<Race>, acts: seq<Action>, i: nat, j: nat, l: nat)
    requires IsRun(rs, acts) && i <= j < |rs| && l < |rs[i].tasks|
    ensures l < |rs[j].tasks|
    ensures rs[j].tasks[l].addr == rs[i].tasks[l].addr && rs[j].tasks[l].tunnel == rs[i].tasks[l].tunnel
    ensures rs[j].tasks[l].running <==> rs[i].tasks[l].running && !Ends(acts, i, j, l)
  {
    if i < j {
      TaskKept(rs, acts, i, j - 1, l);
      TaskStep(rs[j - 1], acts[j - 1], l);
      assert rs[j] == Next(rs[j - 1], acts[j - 1]);
      hide Next, Enabled;
      if acts[j - 1] == Die(l) || acts[j - 1] == Exit(l) {
        assert Ends(acts, i, j, l);
      } else {
        assert Ends(acts, i, j, l) <==> Ends(acts, i, j - 1, l);
      }
    }
  }

  lemma TaskStep(r: Race, a: Action, l: nat)
    requires Enabled(r, a) && l < |r.tasks|
    ensures var s := Next(r, a);
      && l < |s.tasks| && s.tasks[l].addr == r.tasks[l].addr && s.tasks[l].tunnel == r.tasks[l].tunnel
      && (s.tasks[l].running <==> r.tasks[l].running && a != Die(l) && a != Exit(l))
  {
  }

  /** A start call that stops a running listener can bind the same address again if and only if the old task has ended
      since, and no other running task holds the address. */
  lemma RestartExact(rs: seq<Race>, acts: seq<Action>, i: nat, j: nat)
    requires IsRun(rs, acts) && i < j < |rs| && acts[i].Stop?
    requires acts[i].c < |rs[j].calls| && rs[j].calls[acts[i].c].phase == Binding
    requires rs[i].calls[acts[i].c].tunnel in rs[i].registry
    ensures var l := rs[i].registry[rs[i].calls[acts[i].c].tunnel];
      && l < |rs[i].tasks|
      && (rs[i].tasks[l].running ==>
            (Enabled(rs[j], Bind(acts[i].c, rs[i].tasks[l].addr, true)) <==>
             Ends(acts, i, j, l)
             && forall m :: 0 <= m < |rs[j].tasks| && m != l && rs[j].tasks[m].running ==>
                  rs[j].tasks[m].addr != rs[i].tasks[l].addr))
  {
    RunShaped(rs, acts, i);
    var l := rs[i].registry[rs[i].calls[acts[i].c].tunnel];
    TaskKept(rs, acts, i, j, l);
  }

  function Restarting(phase: Phase): seq<Call> { [Mine(Returned), Mine(phase)] }

  function Filing(aborted: bool): Task { Task(0, HOME, true, aborted) }

  lemma FirstListens() returns (rs: seq<Race>, acts: seq<Action>)
    ensures IsRun(rs, acts) && rs[|acts|] == Race([Mine(Returned)], [Filing(false)], map[0 := 0], false)
  {
    rs, acts := [Empty], [];
    RunMore(rs, acts, Begin(0, true));
    rs, acts := rs + [Race([Mine(Stopping)], [], map[], false)], acts + [Begin(0, true)];
    RunMore(rs, acts, Stop(0));
    rs, acts := rs + [Race([Mine(Binding)], [], map[], false)], acts + [Stop(0)];
    RunMore(rs, acts, Bind(0, HOME, true));
    rs := rs + [Race([Mine(Inserting(0))], [Filing(false)], map[], false)];
    acts := acts + [Bind(0, HOME, true)];
    RunMore(rs, acts, Insert(0));
    rs, acts := rs + [Race([Mine(Returned)], [Filing(false)], map[0 := 0], false)], acts + [Insert(0)];
  }

  /** A start call on a listening tunnel leaves it without a listener: its bind comes before the task that it has
      aborted lets go of the address, and cannot be granted. No other call is in flight. */
  lemma RestartStopsListening() returns (rs: seq<Race>, acts: seq<Action>, k: nat)
    ensures IsRun(rs, acts) && k + 3 == |acts| && Serving(rs[k], 0) && rs[k].registry == map[0 := 0]
    ensures acts[k..] == [Begin(0, true), Stop(1), Bind(1, HOME, false)]
    ensures 1 < |rs[k + 2].calls| && !Enabled(rs[k + 2], Bind(1, HOME, true))
    ensures var r := rs[|acts|]; r.registry == map[] && forall l: nat :: !Serving(r, l)
  {
    rs, acts := FirstListens();
    k := |acts|;
    RunMore(rs, acts, Begin(0, true));
    rs := rs + [Race(Restarting(Stopping), [Filing(false)], map[0 := 0], false)];
    acts := acts + [Begin(0, true)];
    RunMore(rs, acts, Stop(1));
    var stopped := Race(Restarting(Binding), [Filing(true)], map[], false);
    rs, acts := rs + [stopped], acts + [Stop(1)];
    assert stopped.tasks[0].running && stopped.tasks[0].addr == HOME;
    RunMore(rs, acts, Bind(1, HOME, false));
    rs := rs + [Race(Restarting(Returned), [Filing(true)], map[], false)];
    acts := acts + [Bind(1, HOME, false)];
  }

  // ---------- once a protocol is edited ----------

  const EDITED := Addr(false, 2000)

  function Serves(addr: Addr): Task { Task(0, addr, true, false) }

  lemma BothStopped() returns (rs: seq<Race>, acts: seq<Action>)
    ensures IsRun(rs, acts) && rs[|acts|] == Race([Mine(Binding), Mine(Binding)], [], map[], false)
    ensures CloseChannels !in acts
  {
    rs, acts := [Empty], [];
    RunMore(rs, acts, Begin(0, true));
    rs, acts := rs + [Race([Mine(Stopping)], [], map[], false)], acts + [Begin(0, true)];
    RunMore(rs, acts, Begin(0, true));
    rs, acts := rs + [Race([Mine(Stopping), Mine(Stopping)], [], map[], false)], acts + [Begin(0, true)];
    RunMore(rs, acts, Stop(0));
    rs, acts := rs + [Race([Mine(Binding), Mine(Stopping)], [], map[], false)], acts + [Stop(0)];
    RunMore(rs, acts, Stop(1));
    rs, acts := rs + [Race([Mine(Binding), Mine(Binding)], [], map[], false)], acts + [Stop(1)];
  }

  /** Two start calls of one tunnel, the second one after an edit of its protocol, bind different addresses. The
      first to insert is overwritten by the other: its listener serves and nobody can stop it, though no channel
      has closed. */
  lemma EditLosesOne() returns (rs: seq<Race>, acts: seq<Action>)
    ensures IsRun(rs, acts) && CloseChannels !in acts && !rs[|acts|].closed
    ensures var r := rs[|acts|];
      Serving(r, 1) && r.tasks[1].tunnel == 0 && 0 in r.registry && r.registry[0] == 0 && !InHand(r, 1)
  {
    rs, acts := BothStopped();
    RunMore(rs, acts, Bind(0, HOME, true));
    rs := rs + [Race([Mine(Inserting(0)), Mine(Binding)], [Serves(HOME)], map[], false)];
    acts := acts + [Bind(0, HOME, true)];
    RunMore(rs, acts, Bind(1, EDITED, true));
    var both := [Serves(HOME), Serves(EDITED)];
    rs := rs + [Race([Mine(Inserting(0)), Mine(Inserting(1))], both, map[], false)];
    acts := acts + [Bind(1, EDITED, true)];
    RunMore(rs, acts, Insert(1));
    rs, acts := rs + [Race([Mine(Inserting(0)), Mine(Returned)], both, map[0 := 1], false)], acts + [Insert(1)];
    RunMore(rs, acts, Insert(0));
    rs, acts := rs + [Race([Mine(Returned), Mine(Returned)], both, map[0 := 0], false)], acts + [Insert(0)];
  }
}
