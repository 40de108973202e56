/**
 The UDP data path: one loop per listener with its two address maps, one forwarder task per session, and the
 agents' messages, interleaved at the points where the tasks wait. A session's connection id is its index.
 */
module UdpPlane {
  import opened Types
  import opened Messages
  import Base64

  type Addr = nat

  datatype Phase =
    | Idle
    | Forward(conn: Id, data: Bytes)             // received, not yet recorded and sent
    | Reply(conn: Id, addr: Addr, data: Bytes)   // looked up, not yet recorded and sent back
    | Stopped(cutIn: nat, cutOut: nat)           // with the bytes of a step that the abort cut short

  /** `taken` counts the bytes the loop has taken from its inbox so far. */
  datatype Loop = Loop(
    tunnel: Id, chan: Id, phase: Phase,
    addrToConn: map<Addr, Id>, connToAddr: map<Id, Addr>, inbox: seq<(Id, Bytes)>, taken: nat)

  /** `addr` is the source that opened the session, `got` are the datagrams received from it so far. */
  datatype Session = Session(
    loop: Id, tunnel: Id, addr: Addr, started: bool, queue: seq<Bytes>, got: seq<Bytes>)

  /** A datagram sent back, with the session it was for and the address it went to. */
  datatype Sending = Sending(loop: Id, tunnel: Id, conn: Id, addr: Addr, data: Bytes)

  /** `missed` counts replies whose address lookup found nothing. */
  datatype Plane = Plane(
    loops: seq<Loop>, sessions: seq<Session>, routes: set<Id>, log: seq<Sent>, closed: set<Id>,
    handled: seq<Handled>, replies: seq<Sending>, missed: nat)

  datatype Event =
    | Open(tunnel: Id, chan: Id)
    | CloseChannel(chan: Id)
    | Stop(loop: Id)                                   // aborted, or its channel is closed
    | Datagram(loop: Id, addr: Addr, data: Bytes)
    | Record(loop: Id)
    | Register(conn: Id)                               // a forwarder task files its route
    | AgentData(conn: Id, payload: string)
    | AgentClose(conn: Id)
    | Pass(conn: Id)                                   // a forwarder moves one datagram to its loop
    | TakeReply(loop: Id)
    | RecordReply(loop: Id)

  predicate Possible(p: Plane, e: Event) {
    match e
    case Stop(u) => u < |p.loops| && !p.loops[u].phase.Stopped?
    case Datagram(u, _, _) => u < |p.loops| && p.loops[u].phase.Idle?
    case Record(u) => u < |p.loops| && p.loops[u].phase.Forward?
    case Register(i) => i < |p.sessions| && !p.sessions[i].started
    case Pass(i) => i < |p.sessions| && p.sessions[i].queue != [] && p.sessions[i].loop < |p.loops|
    case TakeReply(u) => u < |p.loops| && p.loops[u].phase.Idle? && p.loops[u].inbox != []
    case RecordReply(u) => u < |p.loops| && p.loops[u].phase.Reply?
    case _ => true
  }

  function SetLoop(p: Plane, u: Id, l: Loop): Plane
    requires u < |p.loops|
  {
    p.(loops := p.loops[u := l])
  }

  function SetSession(p: Plane, i: Id, s: Session): Plane
    requires i < |p.sessions|
  {
    p.(sessions := p.sessions[i := s])
  }

  /** Sends unless the channel is closed. */
  function Log(p: Plane, chan: Id, m: Msg): Plane {
    if chan in p.closed then p else p.(log := p.log + [Sent(chan, m)])
  }

  function Step(p: Plane, e: Event): Plane
    requires Possible(p, e)
  {
    match e
    case Open(tunnel, chan) => p.(loops := p.loops + [Loop(tunnel, chan, Idle, map[], map[], [], 0)])
    case CloseChannel(chan) => p.(closed := p.closed + {chan})
    case Stop(u) =>
      var l := p.loops[u];
      SetLoop(p, u, l.(phase := Stopped(if l.phase.Forward? then |l.phase.data| else 0,
                                        if l.phase.Reply? then |l.phase.data| else 0)))
    case Datagram(u, addr, data) =>
      var l := p.loops[u];
      if addr in l.addrToConn then
        var i := l.addrToConn[addr];
        var q := SetLoop(p, u, l.(phase := Forward(i, data)));
        if i < |p.sessions| then SetSession(q, i, p.sessions[i].(got := p.sessions[i].got + [data])) else q
      else
        var i := |p.sessions|;
        var q := SetLoop(p, u, l.(phase := Forward(i, data), addrToConn := l.addrToConn[addr := i],
                                  connToAddr := l.connToAddr[i := addr]));
        Log(q.(sessions := q.sessions + [Session(u, l.tunnel, addr, false, [], [data])]), l.chan,
            NewConnection(l.tunnel, i))
    case Record(u) =>
      var l := p.loops[u];
      Log(SetLoop(p, u, l.(phase := Idle)), l.chan, Data(l.phase.conn, Base64.Encode(l.phase.data)))
    case Register(i) => SetSession(p, i, p.sessions[i].(started := true)).(routes := p.routes + {i})
    case AgentData(i, payload) =>
      var data := Base64.Decode(payload);
      if data.None? then p
      else
        var routed := i in p.routes && i < |p.sessions|;
        var q := p.(handled := p.handled + [Handled(i, data.value, routed)]);
        if routed then SetSession(q, i, p.sessions[i].(queue := p.sessions[i].queue + [data.value])) else q
    case AgentClose(i) => p.(routes := p.routes - {i})
    case Pass(i) =>
      var s := p.sessions[i];
      var l := p.loops[s.loop];
      var q := SetSession(p, i, s.(queue := s.queue[1..]));
      if l.phase.Stopped? then q else SetLoop(q, s.loop, l.(inbox := l.inbox + [(i, s.queue[0])]))
    case TakeReply(u) =>
      var l := p.loops[u];
      var (i, data) := l.inbox[0];
      if i in l.connToAddr then
        SetLoop(p, u, l.(phase := Reply(i, l.connToAddr[i], data), inbox := l.inbox[1..], taken := l.taken + |data|))
      else SetLoop(p, u, l.(inbox := l.inbox[1..], taken := l.taken + |data|)).(missed := p.missed + 1)
    case RecordReply(u) =>
      var l := p.loops[u];
      SetLoop(p, u, l.(phase := Idle)).(
        replies := p.replies + [Sending(u, l.tunnel, l.phase.conn, l.phase.addr, l.phase.data)])
  }

  const Empty := Plane([], [], {}, [], {}, [], [], 0)

  // ---------- views ----------

  function RepliesTo(replies: seq<Sending>, i: Id): seq<Bytes> {
    if replies == [] then []
    else
      var k := |replies| - 1;
      RepliesTo(replies[..k], i) + if replies[k].conn == i then [replies[k].data] else []
  }

  lemma RepliesMore(replies: seq<Sending>, r: Sending, i: Id)
    ensures RepliesTo(replies + [r], i) == RepliesTo(replies, i) + if r.conn == i then [r.data] else []
  {
    assert (replies + [r])[..|replies|] == replies;
  }

  function InboxOf(inbox: seq<(Id, Bytes)>, i: Id): seq<Bytes> {
    if inbox == [] then []
    else (if inbox[0].0 == i then [inbox[0].1] else []) + InboxOf(inbox[1..], i)
  }

  lemma {:induction false} InboxMore(inbox: seq<(Id, Bytes)>, e: (Id, Bytes), i: Id)
    ensures InboxOf(inbox + [e], i) == InboxOf(inbox, i) + if e.0 == i then [e.1] else []
  {
    if inbox == [] {
      assert inbox + [e] == [e] && [e][1..] == [];
    } else {
      InboxMore(inbox[1..], e, i);
      assert (inbox + [e])[1..] == inbox[1..] + [e];
    }
  }

  function Pending(l: Loop, i: Id): seq<Bytes> {
    if l.phase.Forward? && l.phase.conn == i then [l.phase.data] else []
  }

  function InFlight(l: Loop, i: Id): seq<Bytes> {
    if l.phase.Reply? && l.phase.conn == i then [l.phase.data] else []
  }

  // ---------- the invariant ----------

  /** The two maps are inverse to one another. */
  predicate Inverse(l: Loop) {
    && (forall a :: a in l.addrToConn ==> l.addrToConn[a] in l.connToAddr && l.connToAddr[l.addrToConn[a]] == a)
    && (forall i :: i in l.connToAddr ==> l.connToAddr[i] in l.addrToConn && l.addrToConn[l.connToAddr[i]] == i)
  }

  /** The maps of loop u list exactly its sessions under their own addresses, and everything the loop is
      about to handle belongs to one of them. */
  ghost predicate LoopFits(l: Loop, u: Id, sessions: seq<Session>) {
    && Inverse(l)
    && (forall i: Id :: i in l.connToAddr <==> i < |sessions| && sessions[i].loop == u)
    && (forall i: Id :: i in l.connToAddr ==> l.connToAddr[i] == sessions[i].addr)
    && (forall k :: 0 <= k < |l.inbox| ==> l.inbox[k].0 in l.connToAddr)
    && (l.phase.Forward? ==> l.phase.conn in l.connToAddr)
    && (l.phase.Reply? ==> l.phase.conn in l.connToAddr && l.phase.addr == l.connToAddr[l.phase.conn])
  }

  ghost predicate LoopOk(p: Plane, u: Id)
    requires u < |p.loops|
  {
    LoopFits(p.loops[u], u, p.sessions)
  }

  /** ms are the messages about session i, routed and replied what was routed to it and sent back for it. */
  predicate SessionOk(i: Id, s: Session, l: Loop, closed: bool, isRoute: bool,
                      ms: seq<Msg>, routed: seq<Bytes>, replied: seq<Bytes>)
  {
    && (isRoute ==> s.started) && s.tunnel == l.tunnel
    && (if ms == [] then closed else OpenGrammar(ms) && ms[0] == NewConnection(l.tunnel, i))
    && Payloads(ms) <= s.got
    && (!closed && !l.phase.Stopped? ==> Payloads(ms) + Pending(l, i) == s.got)
    && replied <= routed
    && (!l.phase.Stopped? ==> replied + InFlight(l, i) + InboxOf(l.inbox, i) + s.queue == routed)
  }

  ghost predicate RowOk(p: Plane, i: Id)
    requires i < |p.sessions|
  {
    && p.sessions[i].loop < |p.loops|
    && var l := p.loops[p.sessions[i].loop];
       SessionOk(i, p.sessions[i], l, l.chan in p.closed, i in p.routes, Project(p.log, i),
                 RoutedList(p.handled, i), RepliesTo(p.replies, i))
  }

  ghost predicate HistoryOk(p: Plane) {
    && p.missed == 0
    && (forall i :: i in p.routes ==> i < |p.sessions|)
    && (forall i: Id :: |p.sessions| <= i ==>
          Project(p.log, i) == [] && RoutedList(p.handled, i) == [] && RepliesTo(p.replies, i) == [])
    && (forall k :: 0 <= k < |p.replies| ==>
          var r := p.replies[k];
          r.conn < |p.sessions| && r.addr == p.sessions[r.conn].addr && r.loop == p.sessions[r.conn].loop)
  }

  ghost predicate PlaneOk(p: Plane) {
    && HistoryOk(p)
    && (forall u :: 0 <= u < |p.loops| ==> LoopOk(p, u))
    && (forall i :: 0 <= i < |p.sessions| ==> RowOk(p, i))
  }

  // ---------- what each step keeps ----------

  predicate SameOwners(ss: seq<Session>, ts: seq<Session>) {
    |ss| == |ts| && forall i :: 0 <= i < |ss| ==> ts[i].loop == ss[i].loop && ts[i].addr == ss[i].addr
  }

  /** Sessions may change in all but their loop and address, and the loops keep fitting. */
  lemma LoopsKept(p: Plane, q: Plane)
    requires forall u :: 0 <= u < |p.loops| ==> LoopOk(p, u)
    requires q.loops == p.loops && SameOwners(p.sessions, q.sessions)
    ensures forall u :: 0 <= u < |q.loops| ==> LoopOk(q, u)
  {
    forall u: Id | u < |q.loops| ensures LoopOk(q, u) {
      assert LoopOk(p, u);
    }
  }

  /** One loop changes. */
  lemma LoopSet(p: Plane, q: Plane, u: Id, l: Loop)
    requires forall v :: 0 <= v < |p.loops| ==> LoopOk(p, v)
    requires u < |p.loops| && q.loops == p.loops[u := l] && SameOwners(p.sessions, q.sessions)
    requires LoopFits(l, u, p.sessions)
    ensures forall v :: 0 <= v < |q.loops| ==> LoopOk(q, v)
  {
    forall v: Id | v < |q.loops| ensures LoopOk(q, v) {
      assert LoopOk(p, v);
    }
  }

  lemma OpenKeeps(p: Plane, tunnel: Id, chan: Id)
    requires PlaneOk(p)
    ensures PlaneOk(Step(p, Open(tunnel, chan)))
  {
    hide SessionOk, Project, RoutedList, RepliesTo;
    var q := Step(p, Open(tunnel, chan));
    forall i: Id | i < |q.sessions| ensures RowOk(q, i) {
      assert RowOk(p, i);
    }
    forall u: Id | u < |q.loops| ensures LoopOk(q, u) {
      if u < |p.loops| {
        assert LoopOk(p, u);
      } else {
        forall i: Id | i < |p.sessions| ensures p.sessions[i].loop != u {
          assert RowOk(p, i);
        }
      }
    }
  }

  lemma ClosedOk(i: Id, s: Session, l: Loop, closed: bool, closed': bool, isRoute: bool, isRoute': bool,
                 ms: seq<Msg>, routed: seq<Bytes>, replied: seq<Bytes>)
    requires SessionOk(i, s, l, closed, isRoute, ms, routed, replied)
    requires (closed ==> closed') && (isRoute' ==> s.started)
    ensures SessionOk(i, s, l, closed', isRoute', ms, routed, replied)
    ensures forall m, n :: SessionOk(i, s, l.(phase := Stopped(m, n)), closed', isRoute', ms, routed, replied)
  {
    hide OpenGrammar, Payloads;
  }

  /** Closing a channel, removing a route, stopping a loop. */
  lemma EndingKeeps(p: Plane, e: Event)
    requires PlaneOk(p) && Possible(p, e) && (e.CloseChannel? || e.AgentClose? || e.Stop?)
    ensures PlaneOk(Step(p, e))
  {
    var q := Step(p, e);
    forall u: Id | u < |q.loops| ensures LoopOk(q, u) {
      assert LoopOk(p, u);
    }
    forall i: Id | i < |q.sessions| ensures RowOk(q, i) {
      assert RowOk(p, i);
      var s := p.sessions[i];
      var l := p.loops[s.loop];
      assert i in p.routes ==> s.started;
      ClosedOk(i, s, l, l.chan in p.closed, l.chan in q.closed, i in p.routes, i in q.routes,
               Project(p.log, i), RoutedList(p.handled, i), RepliesTo(p.replies, i));
      hide SessionOk;
    }
  }

  lemma RegisterKeeps(p: Plane, i: Id)
    requires PlaneOk(p) && Possible(p, Register(i))
    ensures PlaneOk(Step(p, Register(i)))
  {
    hide Project, RoutedList, RepliesTo, OpenGrammar, Payloads, InboxOf;
    var q := Step(p, Register(i));
    LoopsKept(p, q);
    forall j: Id | j < |q.sessions| ensures RowOk(q, j) {
      assert RowOk(p, j);
    }
  }

  /** An event of session i or its loop that leaves another session's data alone. */
  lemma OtherOk(j: Id, s: Session, l: Loop, l': Loop, closed: bool, isRoute: bool,
                ms: seq<Msg>, routed: seq<Bytes>, replied: seq<Bytes>)
    requires SessionOk(j, s, l, closed, isRoute, ms, routed, replied)
    requires l'.tunnel == l.tunnel && (l'.phase.Stopped? <==> l.phase.Stopped?)
    requires Pending(l', j) == Pending(l, j) && InFlight(l', j) == InFlight(l, j)
    requires InboxOf(l'.inbox, j) == InboxOf(l.inbox, j)
    ensures SessionOk(j, s, l', closed, isRoute, ms, routed, replied)
  {
  }

  lemma OldDatagramKeeps(p: Plane, u: Id, addr: Addr, data: Bytes)
    requires PlaneOk(p) && Possible(p, Datagram(u, addr, data)) && addr in p.loops[u].addrToConn
    ensures PlaneOk(Step(p, Datagram(u, addr, data)))
  {
    var q := Step(p, Datagram(u, addr, data));
    assert LoopOk(p, u);
    var l := p.loops[u];
    var i := l.addrToConn[addr];
    assert i in l.connToAddr;
    LoopSet(p, q, u, l.(phase := Forward(i, data)));
    forall j: Id | j < |q.sessions| ensures RowOk(q, j) {
      assert RowOk(p, j);
      if j != i {
        OtherOk(j, p.sessions[j], p.loops[p.sessions[j].loop], q.loops[q.sessions[j].loop],
                p.loops[p.sessions[j].loop].chan in p.closed, j in p.routes, Project(p.log, j),
                RoutedList(p.handled, j), RepliesTo(p.replies, j));
      } else {
        MoreReceived(i, p.sessions[i], l, data, l.chan in p.closed, i in p.routes, Project(p.log, i),
                     RoutedList(p.handled, i), RepliesTo(p.replies, i));
      }
      hide SessionOk;
    }
  }

  lemma MoreReceived(i: Id, s: Session, l: Loop, data: Bytes, closed: bool, isRoute: bool,
                     ms: seq<Msg>, routed: seq<Bytes>, replied: seq<Bytes>)
    requires SessionOk(i, s, l, closed, isRoute, ms, routed, replied) && l.phase.Idle?
    ensures SessionOk(i, s.(got := s.got + [data]), l.(phase := Forward(i, data)), closed, isRoute, ms, routed, replied)
  {
    assert Payloads(ms) + [] == Payloads(ms);
    assert Payloads(ms) <= s.got ==> Payloads(ms) <= s.got + [data];
    hide Payloads, OpenGrammar, InboxOf;
  }

  lemma {:induction false} InboxEmptyFor(inbox: seq<(Id, Bytes)>, i: Id)
    requires forall k :: 0 <= k < |inbox| ==> inbox[k].0 != i
    ensures InboxOf(inbox, i) == []
  {
    if inbox != [] {
      InboxEmptyFor(inbox[1..], i);
    }
  }

  lemma FreshOk(i: Id, s: Session, l: Loop, closed: bool)
    requires s.tunnel == l.tunnel && s.queue == [] && l.phase.Forward? && l.phase.conn == i && s.got == [l.phase.data]
    requires InboxOf(l.inbox, i) == []
    ensures SessionOk(i, s, l, closed, false, if closed then [] else [NewConnection(l.tunnel, i)], [], [])
  {
    var m := NewConnection(l.tunnel, i);
    PayloadsMore([], m);
    assert [] + [m] == [m];
    hide InboxOf;
    assert [] + s.got == s.got;
  }

  lemma NoneWaiting(p: Plane, u: Id)
    requires PlaneOk(p) && u < |p.loops|
    ensures InboxOf(p.loops[u].inbox, |p.sessions|) == []
  {
    assert LoopOk(p, u);
    InboxEmptyFor(p.loops[u].inbox, |p.sessions|);
  }

  lemma NewSessionOk(p: Plane, u: Id, addr: Addr, data: Bytes)
    requires PlaneOk(p) && Possible(p, Datagram(u, addr, data)) && addr !in p.loops[u].addrToConn
    ensures RowOk(Step(p, Datagram(u, addr, data)), |p.sessions|)
  {
    hide InboxOf, Project, RoutedList, RepliesTo, SessionOk, LoopOk, RowOk;
    var q, l, i := Step(p, Datagram(u, addr, data)), p.loops[u], |p.sessions|;
    NoneWaiting(p, u);
    var m := NewConnection(l.tunnel, i);
    ProjectMore(p.log, Sent(l.chan, m), i);
    assert [] + [m] == [m];
    FreshOk(i, q.sessions[i], q.loops[u], l.chan in p.closed);
    NewSessionRow(q, i, u, if l.chan in p.closed then [] else [m]);
  }

  lemma NewSessionRow(q: Plane, i: Id, u: Id, ms: seq<Msg>)
    requires i < |q.sessions| && q.sessions[i].loop == u < |q.loops| && i !in q.routes && Project(q.log, i) == ms
    requires RoutedList(q.handled, i) == [] && RepliesTo(q.replies, i) == []
    requires SessionOk(i, q.sessions[i], q.loops[u], q.loops[u].chan in q.closed, false, ms, [], [])
    ensures RowOk(q, i)
  {
    hide SessionOk, Project, RoutedList, RepliesTo;
  }

  lemma NewDatagramRow(p: Plane, u: Id, addr: Addr, data: Bytes, j: Id)
    requires Possible(p, Datagram(u, addr, data)) && addr !in p.loops[u].addrToConn
    requires j < |p.sessions| && RowOk(p, j)
    ensures RowOk(Step(p, Datagram(u, addr, data)), j)
  {
    hide SessionOk, RoutedList, RepliesTo, Project, InboxOf, OpenGrammar, Payloads;
    var q, l, i := Step(p, Datagram(u, addr, data)), p.loops[u], |p.sessions|;
    ProjectMore(p.log, Sent(l.chan, NewConnection(l.tunnel, i)), j);
    assert Project(p.log, j) + [] == Project(p.log, j);
    var l0, l1 := p.loops[p.sessions[j].loop], q.loops[q.sessions[j].loop];
    OtherOk(j, p.sessions[j], l0, l1, l0.chan in p.closed, j in p.routes, Project(p.log, j),
            RoutedList(p.handled, j), RepliesTo(p.replies, j));
  }

  lemma NewDatagramHistory(p: Plane, u: Id, addr: Addr, data: Bytes)
    requires HistoryOk(p) && Possible(p, Datagram(u, addr, data)) && addr !in p.loops[u].addrToConn
    ensures HistoryOk(Step(p, Datagram(u, addr, data)))
  {
    hide RoutedList, RepliesTo, Project;
    var q, l, i := Step(p, Datagram(u, addr, data)), p.loops[u], |p.sessions|;
    forall j: Id | j > i ensures Project(q.log, j) == [] {
      ProjectMore(p.log, Sent(l.chan, NewConnection(l.tunnel, i)), j);
    }
  }

  lemma NewDatagramKeeps(p: Plane, u: Id, addr: Addr, data: Bytes)
    requires PlaneOk(p) && Possible(p, Datagram(u, addr, data)) && addr !in p.loops[u].addrToConn
    ensures PlaneOk(Step(p, Datagram(u, addr, data)))
  {
    hide RowOk, LoopOk, HistoryOk;
    NewSessionOk(p, u, addr, data);
    NewMapsOk(p, u, addr, data);
    NewDatagramHistory(p, u, addr, data);
    forall j: Id | j < |p.sessions| ensures RowOk(Step(p, Datagram(u, addr, data)), j) {
      NewDatagramRow(p, u, addr, data, j);
    }
  }

  lemma NewSessionFits(l: Loop, v: Id, sessions: seq<Session>, u: Id, tunnel: Id, addr: Addr, data: Bytes)
    requires LoopFits(l, v, sessions)
    requires v == u ==> addr !in l.addrToConn
    ensures var i, s := |sessions|, Session(u, tunnel, addr, false, [], [data]);
      if v == u then
        LoopFits(l.(phase := Forward(i, data), addrToConn := l.addrToConn[addr := i],
                    connToAddr := l.connToAddr[i := addr]), v, sessions + [s])
      else LoopFits(l, v, sessions + [s])
  {
  }

  lemma NewMapsOk(p: Plane, u: Id, addr: Addr, data: Bytes)
    requires PlaneOk(p) && Possible(p, Datagram(u, addr, data)) && addr !in p.loops[u].addrToConn
    ensures forall v :: 0 <= v < |p.loops| ==> LoopOk(Step(p, Datagram(u, addr, data)), v)
  {
    hide RowOk, HistoryOk, LoopFits;
    var q := Step(p, Datagram(u, addr, data));
    forall v: Id | v < |q.loops| ensures LoopOk(q, v) {
      assert LoopOk(p, v);
      NewSessionFits(p.loops[v], v, p.sessions, u, p.loops[u].tunnel, addr, data);
    }
  }

  lemma RecordedOk(i: Id, s: Session, l: Loop, closed: bool, isRoute: bool,
                   ms: seq<Msg>, routed: seq<Bytes>, replied: seq<Bytes>)
    requires SessionOk(i, s, l, closed, isRoute, ms, routed, replied) && l.phase.Forward? && l.phase.conn == i
    ensures SessionOk(i, s, l.(phase := Idle), closed, isRoute,
                      if closed then ms else ms + [Data(i, Base64.Encode(l.phase.data))], routed, replied)
  {
    if !closed {
      var m := Data(i, Base64.Encode(l.phase.data));
      Base64.RoundTrip(l.phase.data);
      PayloadsMore(ms, m);
      OpenExtends(ms, m);
      hide Payloads, OpenGrammar, InboxOf, Base64.Encode, Base64.Decode;
      assert Payloads(ms + [m]) + [] == Payloads(ms) + [l.phase.data];
    }
  }

  lemma RecordRow(p: Plane, u: Id, j: Id)
    requires Possible(p, Record(u)) && j < |p.sessions| && RowOk(p, j)
    requires p.loops[u].phase.conn == j ==> p.sessions[j].loop == u
    ensures RowOk(Step(p, Record(u)), j)
  {
    hide SessionOk, RoutedList, RepliesTo, Project, InboxOf, OpenGrammar, Payloads, Base64.Encode;
    var q, l := Step(p, Record(u)), p.loops[u];
    ProjectMore(p.log, Sent(l.chan, Data(l.phase.conn, Base64.Encode(l.phase.data))), j);
    assert Project(p.log, j) + [] == Project(p.log, j);
    var l0, l1 := p.loops[p.sessions[j].loop], q.loops[q.sessions[j].loop];
    if j == l.phase.conn {
      RecordedOk(j, p.sessions[j], l, l.chan in p.closed, j in p.routes, Project(p.log, j),
                 RoutedList(p.handled, j), RepliesTo(p.replies, j));
    } else {
      OtherOk(j, p.sessions[j], l0, l1, l0.chan in p.closed, j in p.routes, Project(p.log, j),
              RoutedList(p.handled, j), RepliesTo(p.replies, j));
    }
  }

  lemma RecordKeeps(p: Plane, u: Id)
    requires PlaneOk(p) && Possible(p, Record(u))
    ensures PlaneOk(Step(p, Record(u)))
  {
    var q, l := Step(p, Record(u)), p.loops[u];
    assert LoopOk(p, u);
    var i := l.phase.conn;
    assert i < |p.sessions| && p.sessions[i].loop == u;
    LoopSet(p, q, u, l.(phase := Idle));
    hide RowOk, LoopOk, RoutedList, RepliesTo, Project, Base64.Encode;
    forall j: Id | j >= |p.sessions| ensures Project(q.log, j) == Project(p.log, j) {
      ProjectMore(p.log, Sent(l.chan, Data(i, Base64.Encode(l.phase.data))), j);
    }
    forall j: Id | j < |q.sessions| ensures RowOk(q, j) {
      RecordRow(p, u, j);
    }
  }

  lemma QueuedOk(i: Id, s: Session, l: Loop, closed: bool, isRoute: bool, ms: seq<Msg>, routed: seq<Bytes>,
                 replied: seq<Bytes>, data: Bytes)
    requires SessionOk(i, s, l, closed, isRoute, ms, routed, replied)
    ensures SessionOk(i, s.(queue := s.queue + [data]), l, closed, isRoute, ms, routed + [data], replied)
  {
    hide Payloads, OpenGrammar, InboxOf;
    assert replied <= routed ==> replied <= routed + [data];
    var ahead := replied + InFlight(l, i) + InboxOf(l.inbox, i);
    assert ahead + s.queue + [data] == ahead + (s.queue + [data]);
  }

  lemma AgentDataKeeps(p: Plane, i: Id, payload: string)
    requires PlaneOk(p)
    ensures PlaneOk(Step(p, AgentData(i, payload)))
  {
    hide SessionOk, RoutedList, RepliesTo, Project, InboxOf, OpenGrammar, Payloads, Base64.Decode, LoopFits;
    var data := Base64.Decode(payload);
    if data.Some? {
      var q := Step(p, AgentData(i, payload));
      var h := Handled(i, data.value, i in p.routes && i < |p.sessions|);
      forall j: Id
        ensures RoutedList(q.handled, j) == RoutedList(p.handled, j) + if j == i && h.routed then [data.value] else []
      {
        RoutedListMore(p.handled, h, j);
      }
      LoopsKept(p, q);
      forall j: Id | j < |q.sessions| ensures RowOk(q, j) {
        assert RowOk(p, j);
        var l := p.loops[p.sessions[j].loop];
        if j == i && h.routed {
          QueuedOk(i, p.sessions[i], l, l.chan in p.closed, true, Project(p.log, i), RoutedList(p.handled, i),
                   RepliesTo(p.replies, i), data.value);
        } else {
          assert RoutedList(q.handled, j) == RoutedList(p.handled, j);
        }
      }
    }
  }

  lemma PassedOk(i: Id, s: Session, l: Loop, closed: bool, isRoute: bool, ms: seq<Msg>, routed: seq<Bytes>,
                 replied: seq<Bytes>)
    requires SessionOk(i, s, l, closed, isRoute, ms, routed, replied) && s.queue != []
    ensures var l' := if l.phase.Stopped? then l else l.(inbox := l.inbox + [(i, s.queue[0])]);
      SessionOk(i, s.(queue := s.queue[1..]), l', closed, isRoute, ms, routed, replied)
  {
    InboxMore(l.inbox, (i, s.queue[0]), i);
    hide Payloads, OpenGrammar, InboxOf;
    var ahead := replied + InFlight(l, i);
    assert ahead + InboxOf(l.inbox, i) + s.queue == ahead + (InboxOf(l.inbox, i) + [s.queue[0]]) + s.queue[1..];
  }

  lemma PassRow(p: Plane, i: Id, j: Id)
    requires Possible(p, Pass(i)) && j < |p.sessions| && RowOk(p, j)
    ensures RowOk(Step(p, Pass(i)), j)
  {
    hide SessionOk, RoutedList, RepliesTo, Project, InboxOf, OpenGrammar, Payloads;
    var q := Step(p, Pass(i));
    var l0, l1 := p.loops[p.sessions[j].loop], q.loops[q.sessions[j].loop];
    if j == i {
      PassedOk(i, p.sessions[i], l0, l0.chan in p.closed, i in p.routes, Project(p.log, i),
               RoutedList(p.handled, i), RepliesTo(p.replies, i));
    } else {
      InboxMore(l0.inbox, (i, p.sessions[i].queue[0]), j);
      assert InboxOf(l0.inbox, j) + [] == InboxOf(l0.inbox, j);
      OtherOk(j, p.sessions[j], l0, l1, l0.chan in p.closed, j in p.routes, Project(p.log, j),
              RoutedList(p.handled, j), RepliesTo(p.replies, j));
    }
  }

  lemma PassKeeps(p: Plane, i: Id)
    requires PlaneOk(p) && Possible(p, Pass(i))
    ensures PlaneOk(Step(p, Pass(i)))
  {
    var q, u := Step(p, Pass(i)), p.sessions[i].loop;
    assert LoopOk(p, u);
    if q.loops == p.loops {
      LoopsKept(p, q);
    } else {
      LoopSet(p, q, u, q.loops[u]);
    }
    hide RowOk, LoopOk;
    forall j: Id | j < |q.sessions| ensures RowOk(q, j) {
      PassRow(p, i, j);
    }
  }

  lemma LookedUpOk(i: Id, s: Session, l: Loop, closed: bool, isRoute: bool, ms: seq<Msg>, routed: seq<Bytes>,
                   replied: seq<Bytes>, addr: Addr)
    requires SessionOk(i, s, l, closed, isRoute, ms, routed, replied) && l.phase.Idle? && l.inbox != []
    ensures var (j, data) := l.inbox[0];
      SessionOk(i, s, l.(phase := Reply(j, addr, data), inbox := l.inbox[1..]), closed, isRoute, ms, routed, replied)
  {
    var (j, data) := l.inbox[0];
    assert InboxOf(l.inbox, i) == (if j == i then [data] else []) + InboxOf(l.inbox[1..], i);
    hide Payloads, OpenGrammar, InboxOf;
    assert replied + [] + InboxOf(l.inbox, i) == replied + (if j == i then [data] else []) + InboxOf(l.inbox[1..], i);
  }

  lemma TakeReplyKeeps(p: Plane, u: Id)
    requires PlaneOk(p) && Possible(p, TakeReply(u))
    ensures PlaneOk(Step(p, TakeReply(u)))
  {
    var q, l := Step(p, TakeReply(u)), p.loops[u];
    assert LoopOk(p, u);
    var (i, data) := l.inbox[0];
    assert i in l.connToAddr;
    hide SessionOk, RoutedList, RepliesTo, Project, InboxOf, OpenGrammar, Payloads;
    LoopSet(p, q, u, q.loops[u]);
    forall j: Id | j < |q.sessions| ensures RowOk(q, j) {
      assert RowOk(p, j);
      if p.sessions[j].loop == u {
        LookedUpOk(j, p.sessions[j], l, l.chan in p.closed, j in p.routes, Project(p.log, j),
                   RoutedList(p.handled, j), RepliesTo(p.replies, j), l.connToAddr[i]);
      }
    }
  }

  lemma RepliedOk(i: Id, s: Session, l: Loop, closed: bool, isRoute: bool, ms: seq<Msg>, routed: seq<Bytes>,
                  replied: seq<Bytes>)
    requires SessionOk(i, s, l, closed, isRoute, ms, routed, replied) && l.phase.Reply?
    ensures SessionOk(i, s, l.(phase := Idle), closed, isRoute, ms, routed,
                      replied + if l.phase.conn == i then [l.phase.data] else [])
  {
    hide Payloads, OpenGrammar, InboxOf;
    var more := if l.phase.conn == i then [l.phase.data] else [];
    assert replied + InFlight(l, i) + InboxOf(l.inbox, i) + s.queue
        == replied + more + [] + InboxOf(l.inbox, i) + s.queue;
  }

  lemma RecordReplyKeeps(p: Plane, u: Id)
    requires PlaneOk(p) && Possible(p, RecordReply(u))
    ensures PlaneOk(Step(p, RecordReply(u)))
  {
    var q, l := Step(p, RecordReply(u)), p.loops[u];
    assert LoopOk(p, u);
    var r := Sending(u, l.tunnel, l.phase.conn, l.phase.addr, l.phase.data);
    hide SessionOk, RoutedList, RepliesTo, Project, InboxOf, OpenGrammar, Payloads;
    forall j: Id
      ensures RepliesTo(q.replies, j) == RepliesTo(p.replies, j) + if l.phase.conn == j then [l.phase.data] else []
    {
      RepliesMore(p.replies, r, j);
    }
    LoopSet(p, q, u, l.(phase := Idle));
    forall j: Id | j < |q.sessions| ensures RowOk(q, j) {
      assert RowOk(p, j);
      if p.sessions[j].loop == u {
        RepliedOk(j, p.sessions[j], l, l.chan in p.closed, j in p.routes, Project(p.log, j),
                  RoutedList(p.handled, j), RepliesTo(p.replies, j));
      } else {
        assert l.phase.conn != j;
        assert RepliesTo(q.replies, j) == RepliesTo(p.replies, j);
      }
    }
  }

  lemma StepKeeps(p: Plane, e: Event)
    requires PlaneOk(p) && Possible(p, e)
    ensures PlaneOk(Step(p, e))
  {
    match e
    case Open(tunnel, chan) => OpenKeeps(p, tunnel, chan);
    case Datagram(u, addr, data) =>
      if addr in p.loops[u].addrToConn {
        OldDatagramKeeps(p, u, addr, data);
      } else {
        NewDatagramKeeps(p, u, addr, data);
      }
    case Record(u) => RecordKeeps(p, u);
    case Register(i) => RegisterKeeps(p, i);
    case AgentData(i, payload) => AgentDataKeeps(p, i, payload);
    case Pass(i) => PassKeeps(p, i);
    case TakeReply(u) => TakeReplyKeeps(p, u);
    case RecordReply(u) => RecordReplyKeeps(p, u);
    case _ => EndingKeeps(p, e);
  }

  // ---------- runs ----------

  ghost predicate IsRun(ps: seq<Plane>, es: seq<Event>) {
    && |ps| == |es| + 1 && ps[0] == Empty
    && forall k :: 0 <= k < |es| ==> Possible(ps[k], es[k]) && ps[k + 1] == Step(ps[k], es[k])
  }

  lemma {:induction false} RunOk(ps: seq<Plane>, es: seq<Event>, k: nat)
    requires IsRun(ps, es) && k < |ps|
    ensures PlaneOk(ps[k])
  {
    if k > 0 {
      RunOk(ps, es, k - 1);
      StepKeeps(ps[k - 1], es[k - 1]);
    }
  }

  /** The address maps stay mutual inverses, a source address opens one session per loop, the lookup of a
      reply never misses, and every reply goes to the address that opened its session. */
  lemma SessionsAgree(ps: seq<Plane>, es: seq<Event>, k: nat)
    requires IsRun(ps, es) && k < |ps|
    ensures forall u :: 0 <= u < |ps[k].loops| ==> Inverse(ps[k].loops[u])
    ensures forall i, j :: 0 <= i < |ps[k].sessions| && 0 <= j < |ps[k].sessions|
              && ps[k].sessions[i].loop == ps[k].sessions[j].loop && ps[k].sessions[i].addr == ps[k].sessions[j].addr
              ==> i == j
    ensures ps[k].missed == 0
    ensures forall n :: 0 <= n < |ps[k].replies| ==>
      var r := ps[k].replies[n]; r.conn < |ps[k].sessions| && r.addr == ps[k].sessions[r.conn].addr
  {
    RunOk(ps, es, k);
    hide SessionOk, IsRun;
    var p := ps[k];
    forall u | 0 <= u < |p.loops| ensures Inverse(p.loops[u]) {
      assert LoopOk(p, u);
    }
    forall i, j | 0 <= i < |p.sessions| && 0 <= j < |p.sessions|
                  && p.sessions[i].loop == p.sessions[j].loop && p.sessions[i].addr == p.sessions[j].addr
      ensures i == j
    {
      assert RowOk(p, i) && RowOk(p, j);
      assert LoopOk(p, p.sessions[i].loop);
    }
  }

  /** A session is announced at most once and before its data, and is never closed by the relay; what the
      agent decodes is a prefix of the datagrams received from the session's address, one by one, and all
      of them but the one being forwarded while the loop runs on an open channel. */
  lemma SessionInbound(ps: seq<Plane>, es: seq<Event>, k: nat, i: Id)
    requires IsRun(ps, es) && k < |ps| && i < |ps[k].sessions| && ps[k].sessions[i].loop < |ps[k].loops|
    ensures var ms, s := Project(ps[k].log, i), ps[k].sessions[i];
      var l := ps[k].loops[s.loop];
      && (ms == [] || (ms[0] == NewConnection(l.tunnel, i) && OpenGrammar(ms)))
      && Payloads(ms) <= s.got
      && (l.chan !in ps[k].closed && !l.phase.Stopped? ==> ms != [] && Payloads(ms) + Pending(l, i) == s.got)
  {
    RunOk(ps, es, k);
    assert RowOk(ps[k], i);
    hide Project, Payloads, OpenGrammar;
  }

  /** What went back to the session's address is a prefix of the datagrams the agent had routed to it; while
      the loop runs, nothing is missing but what is on its way. */
  lemma SessionOutbound(ps: seq<Plane>, es: seq<Event>, k: nat, i: Id)
    requires IsRun(ps, es) && k < |ps| && i < |ps[k].sessions| && ps[k].sessions[i].loop < |ps[k].loops|
    ensures var routed, replied, s := RoutedList(ps[k].handled, i), RepliesTo(ps[k].replies, i), ps[k].sessions[i];
      var l := ps[k].loops[s.loop];
      && replied <= routed
      && (!l.phase.Stopped? ==> replied + InFlight(l, i) + InboxOf(l.inbox, i) + s.queue == routed)
  {
    RunOk(ps, es, k);
    assert RowOk(ps[k], i);
    hide Project, Payloads, OpenGrammar;
  }

  // ---------- how long a route lives ----------

  /** The route was filed before step k, and the agent has not closed it since. */
  ghost predicate FiledOpen(es: seq<Event>, k: nat, i: Id)
    requires k <= |es|
  {
    exists j :: 0 <= j < k && es[j] == Register(i) && forall m :: j < m < k ==> es[m] != AgentClose(i)
  }

  /** A UDP route exists exactly from its registration until the agent closes it: the end of its loop leaves it. */
  lemma {:induction false} RouteExact(ps: seq<Plane>, es: seq<Event>, k: nat, i: Id)
    requires IsRun(ps, es) && k < |ps|
    ensures i in ps[k].routes <==> FiledOpen(es, k, i)
  {
    if k > 0 {
      RouteExact(ps, es, k - 1, i);
      var e := es[k - 1];
      RouteStep(ps[k - 1], e, i);
      hide Step, Possible;
      if e == Register(i) {
        assert FiledOpen(es, k, i);
      } else if e != AgentClose(i) && FiledOpen(es, k - 1, i) {
        var j :| 0 <= j < k - 1 && es[j] == Register(i) && forall m :: j < m < k - 1 ==> es[m] != AgentClose(i);
        assert FiledOpen(es, k, i);
      }
    }
  }

  lemma RouteStep(p: Plane, e: Event, i: Id)
    requires Possible(p, e)
    ensures i in Step(p, e).routes <==> e == Register(i) || (i in p.routes && e != AgentClose(i))
  {
  }

  /** Every route belongs to a session whose loop still runs. */
  ghost predicate RoutesLive(p: Plane) {
    forall i :: i in p.routes ==>
      i < |p.sessions| && p.sessions[i].loop < |p.loops| && !p.loops[p.sessions[i].loop].phase.Stopped?
  }

  /** The step stops a loop that a route leads to, or files a route to a loop that has stopped. */
  ghost predicate Strands(p: Plane, e: Event) {
    match e
    case Stop(u) => exists i :: i in p.routes && i < |p.sessions| && p.sessions[i].loop == u
    case Register(i) =>
      i < |p.sessions| && p.sessions[i].loop < |p.loops| && p.loops[p.sessions[i].loop].phase.Stopped?
    case _ => false
  }

  lemma StopStrands(p: Plane, u: Id)
    requires RoutesLive(p) && Possible(p, Stop(u))
    ensures RoutesLive(Step(p, Stop(u))) <==> !Strands(p, Stop(u))
  {
    var q := Step(p, Stop(u));
    if i :| i in p.routes && i < |p.sessions| && p.sessions[i].loop == u {
      assert i in q.routes && q.loops[q.sessions[i].loop].phase.Stopped?;
    }
  }

  lemma RegisterStrands(p: Plane, i: Id)
    requires RoutesLive(p) && Possible(p, Register(i)) && p.sessions[i].loop < |p.loops|
    ensures RoutesLive(Step(p, Register(i))) <==> !Strands(p, Register(i))
  {
    assert i in Step(p, Register(i)).routes;
  }

  /** Sessions and loops only grow, keep to one another, and only a stop stops a loop. */
  lemma OthersStrandNone(p: Plane, e: Event)
    requires RoutesLive(p) && Possible(p, e) && !e.Stop? && !e.Register?
    ensures RoutesLive(Step(p, e))
  {
    hide Base64.Encode, Base64.Decode;
  }

  /** A step keeps all routes leading to running loops if and only if it does not strand one. */
  lemma StrandsExact(p: Plane, e: Event)
    requires PlaneOk(p) && RoutesLive(p) && Possible(p, e)
    ensures RoutesLive(Step(p, e)) <==> !Strands(p, e)
  {
    hide SessionOk, LoopOk, HistoryOk, RoutesLive, Step;
    match e
    case Stop(u) => StopStrands(p, u);
    case Register(i) => assert RowOk(p, i); RegisterStrands(p, i);
    case _ => OthersStrandNone(p, e);
  }

  /** A loop is aborted after its session's route was filed: the route stays, and nobody reads what it leads to. */
  lemma RouteOutlivesLoop() returns (ps: seq<Plane>, es: seq<Event>)
    ensures es == [Open(7, 0), Datagram(0, 9, [1]), Register(0), Stop(0)] && IsRun(ps, es)
    ensures 0 in ps[4].routes && |ps[4].sessions| == 1 && ps[4].sessions[0].loop == 0
    ensures |ps[4].loops| == 1 && ps[4].loops[0].phase.Stopped? && !RoutesLive(ps[4])
  {
    var p1 := Step(Empty, Open(7, 0));
    var p2 := Step(p1, Datagram(0, 9, [1]));
    var p3 := Step(p2, Register(0));
    ps, es := [Empty, p1, p2, p3, Step(p3, Stop(0))], [Open(7, 0), Datagram(0, 9, [1]), Register(0), Stop(0)];
  }
}
