/**
 Live traffic counters over both data paths. The counters are 64 bits wide and wrap; `record_traffic` runs in
 the steps that record a chunk, a datagram or a reply.
 */
module Telemetry {
  import opened Types
  import opened Messages
  import T = TcpPlane
  import U = UdpPlane

  const WORD := 0x1_0000_0000_0000_0000

  datatype Counters = Counters(bytesIn: nat, bytesOut: nat)

  type Traffic = map<Id, Counters>

  function Of(traffic: Traffic, t: Id): Counters { if t in traffic then traffic[t] else Counters(0, 0) }

  function Wrap(x: int): nat { x % WORD }

  /** `record_traffic` */
  function Recorded(traffic: Traffic, t: Id, bytesIn: nat, bytesOut: nat): Traffic {
    var c := Of(traffic, t);
    traffic[t := Counters(Wrap(c.bytesIn + bytesIn), Wrap(c.bytesOut + bytesOut))]
  }

  datatype System = System(tcp: T.Plane, udp: U.Plane, traffic: Traffic)

  datatype Event = OnTcp(tcp: T.Event) | OnUdp(udp: U.Event)

  predicate Possible(s: System, e: Event) {
    match e
    case OnTcp(x) => T.Possible(s.tcp, x)
    case OnUdp(x) => U.Possible(s.udp, x)
  }

  function Step(s: System, e: Event): System
    requires Possible(s, e)
  {
    match e
    case OnTcp(x) =>
      System(T.Step(s.tcp, x), s.udp,
             match x
             case Do(i, Record) => Recorded(s.traffic, s.tcp.conns[i].tunnel, |s.tcp.conns[i].phase.chunk|, 0)
             case Do(i, RecordTaken) => Recorded(s.traffic, s.tcp.conns[i].tunnel, 0, |s.tcp.conns[i].phase.data|)
             case _ => s.traffic)
    case OnUdp(x) =>
      System(s.tcp, U.Step(s.udp, x),
             match x
             case Record(u) => Recorded(s.traffic, s.udp.loops[u].tunnel, |s.udp.loops[u].phase.data|, 0)
             case RecordReply(u) => Recorded(s.traffic, s.udp.loops[u].tunnel, 0, |s.udp.loops[u].phase.data|)
             case _ => s.traffic)
  }

  const Empty := System(T.Empty, U.Empty, map[])

  // ---------- sums ----------

  function Sum<X>(xs: seq<X>, f: X -> int): int {
    if xs == [] then 0 else Sum(xs[..|xs| - 1], f) + f(xs[|xs| - 1])
  }

  lemma SumAppend<X>(xs: seq<X>, x: X, f: X -> int)
    ensures Sum(xs + [x], f) == Sum(xs, f) + f(x)
  {
    assert (xs + [x])[..|xs|] == xs;
  }

  lemma {:induction false} SumUpdate<X>(xs: seq<X>, i: nat, x: X, f: X -> int)
    requires i < |xs|
    ensures Sum(xs[i := x], f) == Sum(xs, f) - f(xs[i]) + f(x)
  {
    var k := |xs| - 1;
    if i < k {
      SumUpdate(xs[..k], i, x, f);
      assert xs[i := x][..k] == xs[..k][i := x];
    } else {
      assert xs[i := x][..k] == xs[..k];
    }
  }

  function Size(ds: seq<Bytes>): nat {
    if ds == [] then 0 else Size(ds[..|ds| - 1]) + |ds[|ds| - 1]|
  }

  lemma SizeMore(ds: seq<Bytes>, d: Bytes)
    ensures Size(ds + [d]) == Size(ds) + |d|
  {
    assert (ds + [d])[..|ds|] == ds;
  }

  // ---------- what should have been counted ----------

  function ReadBy(t: Id): T.Conn -> int { (c: T.Conn) => if c.tunnel == t then |c.read| else 0 }
  function TakenBy(t: Id): T.Conn -> int { (c: T.Conn) => if c.tunnel == t then c.taken else 0 }
  function PendingBy(t: Id): T.Conn -> int { (c: T.Conn) => if c.tunnel == t then |T.Pending(c)| else 0 }
  function HeldBy(t: Id): T.Conn -> int { (c: T.Conn) => if c.tunnel == t && c.phase.Taken? then |c.phase.data| else 0 }

  function GotBy(t: Id): U.Session -> int { (s: U.Session) => if s.tunnel == t then Size(s.got) else 0 }
  function LoopTakenBy(t: Id): U.Loop -> int { (l: U.Loop) => if l.tunnel == t then l.taken else 0 }
  /** Looked up by a loop that has not recorded it, or was aborted before it could. */
  function LoopHeldBy(t: Id): U.Loop -> int {
    (l: U.Loop) => if l.tunnel != t then 0
         else if l.phase.Reply? then |l.phase.data|
         else if l.phase.Stopped? then l.phase.cutOut
         else 0
  }
  /** Received by a loop that has not recorded it, or was aborted before it could. */
  function UnrecordedBy(t: Id): U.Loop -> int {
    (l: U.Loop) => if l.tunnel != t then 0
         else if l.phase.Forward? then |l.phase.data|
         else if l.phase.Stopped? then l.phase.cutIn
         else 0
  }

  /** Received from the clients of tunnel t, but for what is still to be recorded or was cut short. */
  function TcpIn(p: T.Plane, t: Id): int { Sum(p.conns, ReadBy(t)) - Sum(p.conns, PendingBy(t)) }
  function UdpIn(p: U.Plane, t: Id): int { Sum(p.sessions, GotBy(t)) - Sum(p.loops, UnrecordedBy(t)) }

  /** Taken from the queues towards the clients of tunnel t, but for what is still to be recorded. */
  function TcpOut(p: T.Plane, t: Id): int { Sum(p.conns, TakenBy(t)) - Sum(p.conns, HeldBy(t)) }
  function UdpOut(p: U.Plane, t: Id): int { Sum(p.loops, LoopTakenBy(t)) - Sum(p.loops, LoopHeldBy(t)) }

  ghost predicate Counted(s: System, t: Id) {
    && Of(s.traffic, t).bytesIn == Wrap(TcpIn(s.tcp, t) + UdpIn(s.udp, t))
    && Of(s.traffic, t).bytesOut == Wrap(TcpOut(s.tcp, t) + UdpOut(s.udp, t))
  }

  // ---------- what one step adds ----------

  function AddsIn(s: System, e: Event, t: Id): nat
    requires Possible(s, e)
  {
    match e
    case OnTcp(Do(i, Record)) => if s.tcp.conns[i].tunnel == t then |s.tcp.conns[i].phase.chunk| else 0
    case OnUdp(Record(u)) => if s.udp.loops[u].tunnel == t then |s.udp.loops[u].phase.data| else 0
    case _ => 0
  }

  function AddsOut(s: System, e: Event, t: Id): nat
    requires Possible(s, e)
  {
    match e
    case OnTcp(Do(i, RecordTaken)) => if s.tcp.conns[i].tunnel == t then |s.tcp.conns[i].phase.data| else 0
    case OnUdp(RecordReply(u)) => if s.udp.loops[u].tunnel == t then |s.udp.loops[u].phase.data| else 0
    case _ => 0
  }

  lemma DoConns(p: T.Plane, i: Id, a: T.Act)
    requires T.Possible(p, T.Do(i, a))
    ensures T.Step(p, T.Do(i, a)).conns == p.conns[i := T.Local(i, p.conns[i], a, p.conns[i].chan !in p.closed).0]
  {
    hide T.Local;
  }

  lemma LocalAdds(i: Id, c: T.Conn, a: T.Act, open: bool, t: Id)
    requires T.Can(c, a)
    ensures var d := T.Local(i, c, a, open).0;
      && ReadBy(t)(d) - PendingBy(t)(d) ==
           ReadBy(t)(c) - PendingBy(t)(c) + (if a.Record? && c.tunnel == t then |c.phase.chunk| else 0)
      && TakenBy(t)(d) - HeldBy(t)(d) ==
           TakenBy(t)(c) - HeldBy(t)(c) + (if a.RecordTaken? && c.tunnel == t then |c.phase.data| else 0)
  {
  }

  lemma DoAdds(s: System, i: Id, a: T.Act, t: Id)
    requires Possible(s, OnTcp(T.Do(i, a)))
    ensures var e := OnTcp(T.Do(i, a)); var q := T.Step(s.tcp, T.Do(i, a));
      TcpIn(q, t) == TcpIn(s.tcp, t) + AddsIn(s, e, t) && TcpOut(q, t) == TcpOut(s.tcp, t) + AddsOut(s, e, t)
  {
    hide Sum, T.Step, Step, T.Local, ReadBy, PendingBy, TakenBy, HeldBy;
    var c := s.tcp.conns[i];
    var d := T.Local(i, c, a, c.chan !in s.tcp.closed).0;
    DoConns(s.tcp, i, a);
    LocalAdds(i, c, a, c.chan !in s.tcp.closed, t);
    SumUpdate(s.tcp.conns, i, d, ReadBy(t));
    SumUpdate(s.tcp.conns, i, d, PendingBy(t));
    SumUpdate(s.tcp.conns, i, d, TakenBy(t));
    SumUpdate(s.tcp.conns, i, d, HeldBy(t));
  }

  lemma SameSums(xs: seq<T.Conn>, i: Id, c: T.Conn, t: Id)
    requires i < |xs| && c.tunnel == xs[i].tunnel && c.phase == xs[i].phase
    requires c.read == xs[i].read && c.taken == xs[i].taken
    ensures Sum(xs[i := c], ReadBy(t)) == Sum(xs, ReadBy(t)) && Sum(xs[i := c], PendingBy(t)) == Sum(xs, PendingBy(t))
    ensures Sum(xs[i := c], TakenBy(t)) == Sum(xs, TakenBy(t)) && Sum(xs[i := c], HeldBy(t)) == Sum(xs, HeldBy(t))
  {
    SumUpdate(xs, i, c, ReadBy(t));
    SumUpdate(xs, i, c, PendingBy(t));
    SumUpdate(xs, i, c, TakenBy(t));
    SumUpdate(xs, i, c, HeldBy(t));
    hide Sum;
  }

  lemma TcpAdds(s: System, x: T.Event, t: Id)
    requires Possible(s, OnTcp(x))
    ensures var e := OnTcp(x); var q := T.Step(s.tcp, x);
      TcpIn(q, t) == TcpIn(s.tcp, t) + AddsIn(s, e, t) && TcpOut(q, t) == TcpOut(s.tcp, t) + AddsOut(s, e, t)
  {
    match x
    case Do(i, a) => DoAdds(s, i, a, t);
    case Accept(tunnel, chan) =>
      var c := T.Conn(tunnel, chan, T.Announced, [], [], 0, [], []);
      SumAppend(s.tcp.conns, c, ReadBy(t));
      SumAppend(s.tcp.conns, c, PendingBy(t));
      SumAppend(s.tcp.conns, c, TakenBy(t));
      SumAppend(s.tcp.conns, c, HeldBy(t));
      hide Sum;
    case AgentData(i, payload) =>
      hide Sum;
      var q := T.Step(s.tcp, x);
      if q.conns != s.tcp.conns {
        SameSums(s.tcp.conns, i, q.conns[i], t);
      }
    case _ =>
  }

  lemma OldDatagramAdds(p: U.Plane, u: Id, addr: U.Addr, data: Bytes, t: Id)
    requires U.Possible(p, U.Datagram(u, addr, data)) && U.PlaneOk(p) && addr in p.loops[u].addrToConn
    ensures UdpIn(U.Step(p, U.Datagram(u, addr, data)), t) == UdpIn(p, t)
  {
    var l, q := p.loops[u], U.Step(p, U.Datagram(u, addr, data));
    var i := l.addrToConn[addr];
    assert i in l.connToAddr by {
      assert U.LoopOk(p, u);
    }
    OldSession(p, u, i);
    hide Sum, Size, U.PlaneOk;
    SizeMore(p.sessions[i].got, data);
    SumUpdate(p.sessions, i, q.sessions[i], GotBy(t));
    SumUpdate(p.loops, u, q.loops[u], UnrecordedBy(t));
  }

  lemma NewDatagramAdds(p: U.Plane, u: Id, addr: U.Addr, data: Bytes, t: Id)
    requires U.Possible(p, U.Datagram(u, addr, data)) && addr !in p.loops[u].addrToConn
    ensures UdpIn(U.Step(p, U.Datagram(u, addr, data)), t) == UdpIn(p, t)
  {
    var q := U.Step(p, U.Datagram(u, addr, data));
    assert Size([data]) == |data| by {
      assert [] + [data] == [data];
      SizeMore([], data);
    }
    hide Sum, Size;
    SumUpdate(p.loops, u, q.loops[u], UnrecordedBy(t));
    SumAppend(p.sessions, q.sessions[|p.sessions|], GotBy(t));
  }

  /** A session that loop u knows is of the loop's tunnel. */
  lemma OldSession(p: U.Plane, u: Id, i: Id)
    requires U.PlaneOk(p) && u < |p.loops| && i in p.loops[u].connToAddr
    ensures i < |p.sessions| && p.sessions[i].loop == u && p.sessions[i].tunnel == p.loops[u].tunnel
  {
    assert U.LoopOk(p, u);
    assert U.RowOk(p, i);
  }

  lemma LoopAdds(p: U.Plane, q: U.Plane, u: Id, t: Id)
    requires u < |p.loops| == |q.loops| && q.loops == p.loops[u := q.loops[u]] && q.sessions == p.sessions
    ensures UdpIn(q, t) == UdpIn(p, t) + UnrecordedBy(t)(p.loops[u]) - UnrecordedBy(t)(q.loops[u])
  {
    SumUpdate(p.loops, u, q.loops[u], UnrecordedBy(t));
    hide Sum;
  }

  lemma SessionAdds(p: U.Plane, q: U.Plane, i: Id, t: Id)
    requires i < |p.sessions| == |q.sessions| && q.sessions == p.sessions[i := q.sessions[i]] && q.loops == p.loops
    requires q.sessions[i].got == p.sessions[i].got && q.sessions[i].tunnel == p.sessions[i].tunnel
    ensures UdpIn(q, t) == UdpIn(p, t)
  {
    SumUpdate(p.sessions, i, q.sessions[i], GotBy(t));
    hide Sum;
  }

  lemma PassAdds(p: U.Plane, i: Id, t: Id)
    requires U.Possible(p, U.Pass(i))
    ensures UdpIn(U.Step(p, U.Pass(i)), t) == UdpIn(p, t)
  {
    var q, u := U.Step(p, U.Pass(i)), p.sessions[i].loop;
    var mid := U.SetSession(p, i, q.sessions[i]);
    SessionAdds(p, mid, i, t);
    if q.loops != p.loops {
      LoopAdds(mid, q, u, t);
    }
    hide Sum;
  }

  lemma UdpInAdds(s: System, x: U.Event, t: Id)
    requires Possible(s, OnUdp(x)) && U.PlaneOk(s.udp)
    ensures UdpIn(U.Step(s.udp, x), t) == UdpIn(s.udp, t) + AddsIn(s, OnUdp(x), t)
  {
    hide Sum, Size, U.PlaneOk;
    var p, q := s.udp, U.Step(s.udp, x);
    match x
    case Open(tunnel, chan) => SumAppend(p.loops, U.Loop(tunnel, chan, U.Idle, map[], map[], [], 0), UnrecordedBy(t));
    case Datagram(u, addr, data) =>
      if addr in p.loops[u].addrToConn {
        OldDatagramAdds(p, u, addr, data, t);
      } else {
        NewDatagramAdds(p, u, addr, data, t);
      }
    case Stop(u) => LoopAdds(p, q, u, t);
    case Record(u) => LoopAdds(p, q, u, t);
    case TakeReply(u) => LoopAdds(p, q, u, t);
    case RecordReply(u) => LoopAdds(p, q, u, t);
    case Register(i) => SessionAdds(p, q, i, t);
    case AgentData(i, _) =>
      if q.sessions != p.sessions {
        SessionAdds(p, q, i, t);
      }
    case Pass(i) => PassAdds(p, i, t);
    case _ =>
  }

  lemma LoopOutAdds(p: U.Plane, q: U.Plane, u: Id, t: Id)
    requires u < |p.loops| == |q.loops| && q.loops == p.loops[u := q.loops[u]]
    ensures UdpOut(q, t) == UdpOut(p, t) + LoopTakenBy(t)(q.loops[u]) - LoopTakenBy(t)(p.loops[u])
                            - LoopHeldBy(t)(q.loops[u]) + LoopHeldBy(t)(p.loops[u])
  {
    SumUpdate(p.loops, u, q.loops[u], LoopTakenBy(t));
    SumUpdate(p.loops, u, q.loops[u], LoopHeldBy(t));
    hide Sum;
  }

  lemma ReplyKnown(p: U.Plane, u: Id)
    requires U.PlaneOk(p) && u < |p.loops| && p.loops[u].inbox != []
    ensures p.loops[u].inbox[0].0 in p.loops[u].connToAddr
  {
    assert U.LoopOk(p, u);
  }

  lemma UdpOutAdds(s: System, x: U.Event, t: Id)
    requires Possible(s, OnUdp(x)) && U.PlaneOk(s.udp)
    ensures UdpOut(U.Step(s.udp, x), t) == UdpOut(s.udp, t) + AddsOut(s, OnUdp(x), t)
  {
    hide Sum, U.PlaneOk;
    var p, q := s.udp, U.Step(s.udp, x);
    match x
    case Open(tunnel, chan) =>
      var l := U.Loop(tunnel, chan, U.Idle, map[], map[], [], 0);
      SumAppend(p.loops, l, LoopTakenBy(t));
      SumAppend(p.loops, l, LoopHeldBy(t));
    case Stop(u) => LoopOutAdds(p, q, u, t);
    case Datagram(u, _, _) => LoopOutAdds(p, q, u, t);
    case Record(u) => LoopOutAdds(p, q, u, t);
    case TakeReply(u) => ReplyKnown(p, u); LoopOutAdds(p, q, u, t);
    case RecordReply(u) => LoopOutAdds(p, q, u, t);
    case Pass(i) =>
      if q.loops != p.loops {
        LoopOutAdds(p, q, p.sessions[i].loop, t);
      }
    case _ =>
  }

  // ---------- every step keeps the count ----------

  lemma TrafficAdds(s: System, e: Event, t: Id)
    requires Possible(s, e) && Of(s.traffic, t).bytesIn < WORD && Of(s.traffic, t).bytesOut < WORD
    ensures Of(Step(s, e).traffic, t) == Counters(Wrap(Of(s.traffic, t).bytesIn + AddsIn(s, e, t)),
                                                  Wrap(Of(s.traffic, t).bytesOut + AddsOut(s, e, t)))
  {
    hide T.Step, U.Step;
  }

  lemma WrapAdd(x: int, n: int)
    ensures Wrap(Wrap(x) + n) == Wrap(x + n) && Wrap(x) < WORD
  {
  }

  lemma StepCounts(s: System, e: Event, t: Id)
    requires Possible(s, e) && Counted(s, t) && U.PlaneOk(s.udp)
    ensures Counted(Step(s, e), t)
  {
    hide TcpIn, TcpOut, UdpIn, UdpOut, AddsIn, AddsOut, Recorded, Wrap;
    hide T.Step, U.Step, U.PlaneOk, T.Possible, U.Possible;
    var bytesIn, bytesOut := TcpIn(s.tcp, t) + UdpIn(s.udp, t), TcpOut(s.tcp, t) + UdpOut(s.udp, t);
    WrapAdd(bytesIn, AddsIn(s, e, t));
    WrapAdd(bytesOut, AddsOut(s, e, t));
    TrafficAdds(s, e, t);
    var q := Step(s, e);
    if e.OnTcp? {
      TcpAdds(s, e.tcp, t);
    } else {
      UdpInAdds(s, e.udp, t);
      UdpOutAdds(s, e.udp, t);
    }
    assert TcpIn(q.tcp, t) + UdpIn(q.udp, t) == bytesIn + AddsIn(s, e, t);
    assert TcpOut(q.tcp, t) + UdpOut(q.udp, t) == bytesOut + AddsOut(s, e, t);
  }

  // ---------- runs ----------

  ghost predicate IsRun(ss: seq<System>, es: seq<Event>) {
    && |ss| == |es| + 1 && ss[0] == Empty
    && forall k :: 0 <= k < |es| ==> Possible(ss[k], es[k]) && ss[k + 1] == Step(ss[k], es[k])
  }

  lemma {:induction false} RunOk(ss: seq<System>, es: seq<Event>, k: nat, t: Id)
    requires IsRun(ss, es) && k < |ss|
    ensures T.PlaneOk(ss[k].tcp) && U.PlaneOk(ss[k].udp) && Counted(ss[k], t)
  {
    if k > 0 {
      RunOk(ss, es, k - 1, t);
      var s, e := ss[k - 1], es[k - 1];
      hide T.PlaneOk, U.PlaneOk, Counted, T.Step, U.Step, T.Possible, U.Possible;
      StepCounts(s, e, t);
      match e {
        case OnTcp(x) => T.StepKeeps(s.tcp, x);
        case OnUdp(x) => U.StepKeeps(s.udp, x);
      }
    }
  }

  /** All bytes received from the clients of tunnel t, over all its listeners. */
  function Received(s: System, t: Id): int { Sum(s.tcp.conns, ReadBy(t)) + Sum(s.udp.sessions, GotBy(t)) }

  /** All bytes taken from the queues towards the clients of tunnel t, over all its listeners. */
  function Taken(s: System, t: Id): int { Sum(s.tcp.conns, TakenBy(t)) + Sum(s.udp.loops, LoopTakenBy(t)) }

  /** Bytes of tunnel t received but not recorded: a step is in progress, or an abort cut it short. */
  function Unrecorded(s: System, t: Id): int {
    Sum(s.tcp.conns, PendingBy(t)) + Sum(s.udp.loops, UnrecordedBy(t))
  }

  /** Nothing of tunnel t is between its receipt and its recording, or was when its loop was aborted. */
  predicate AllRecorded(s: System, t: Id) {
    && (forall i :: 0 <= i < |s.tcp.conns| && s.tcp.conns[i].tunnel == t ==> T.Pending(s.tcp.conns[i]) == [])
    && (forall u :: 0 <= u < |s.udp.loops| && s.udp.loops[u].tunnel == t ==>
          && (s.udp.loops[u].phase.Forward? ==> s.udp.loops[u].phase.data == [])
          && (s.udp.loops[u].phase.Stopped? ==> s.udp.loops[u].phase.cutIn == 0))
  }

  /** Bytes of tunnel t taken from a queue but not recorded. */
  function Held(s: System, t: Id): int { Sum(s.tcp.conns, HeldBy(t)) + Sum(s.udp.loops, LoopHeldBy(t)) }

  /** Nothing of tunnel t is between its queue and its recording, or was when its loop was aborted. */
  predicate NoneHeld(s: System, t: Id) {
    && (forall i :: 0 <= i < |s.tcp.conns| && s.tcp.conns[i].tunnel == t ==>
          (s.tcp.conns[i].phase.Taken? ==> s.tcp.conns[i].phase.data == []))
    && (forall u :: 0 <= u < |s.udp.loops| && s.udp.loops[u].tunnel == t ==>
          && (s.udp.loops[u].phase.Reply? ==> s.udp.loops[u].phase.data == [])
          && (s.udp.loops[u].phase.Stopped? ==> s.udp.loops[u].phase.cutOut == 0))
  }

  lemma {:induction false} SumBounds<X>(xs: seq<X>, f: X -> int)
    requires forall i :: 0 <= i < |xs| ==> f(xs[i]) >= 0
    ensures Sum(xs, f) >= 0
    ensures Sum(xs, f) == 0 <==> forall i :: 0 <= i < |xs| ==> f(xs[i]) == 0
  {
    if xs != [] {
      var k := |xs| - 1;
      SumBounds(xs[..k], f);
      assert forall i :: 0 <= i < k ==> xs[..k][i] == xs[i];
    }
  }

  lemma UnrecordedExact(s: System, t: Id)
    ensures Unrecorded(s, t) >= 0 && (Unrecorded(s, t) == 0 <==> AllRecorded(s, t))
  {
    SumBounds(s.tcp.conns, PendingBy(t));
    SumBounds(s.udp.loops, UnrecordedBy(t));
    hide Sum;
    assert (forall i :: 0 <= i < |s.tcp.conns| ==> PendingBy(t)(s.tcp.conns[i]) == 0) <==>
      (forall i :: 0 <= i < |s.tcp.conns| && s.tcp.conns[i].tunnel == t ==> T.Pending(s.tcp.conns[i]) == []);
  }

  lemma HeldExact(s: System, t: Id)
    ensures Held(s, t) >= 0 && (Held(s, t) == 0 <==> NoneHeld(s, t))
  {
    SumBounds(s.tcp.conns, HeldBy(t));
    SumBounds(s.udp.loops, LoopHeldBy(t));
    hide Sum;
    assert (forall u :: 0 <= u < |s.udp.loops| ==> LoopHeldBy(t)(s.udp.loops[u]) == 0) <==>
      (forall u :: 0 <= u < |s.udp.loops| && s.udp.loops[u].tunnel == t ==>
         && (s.udp.loops[u].phase.Reply? ==> s.udp.loops[u].phase.data == [])
         && (s.udp.loops[u].phase.Stopped? ==> s.udp.loops[u].phase.cutOut == 0));
  }

  lemma WrapDiff(x: int, y: int)
    requires 0 <= y < WORD
    ensures Wrap(x - y) == Wrap(x) <==> y == 0
  {
  }

  /** Traffic conservation: a tunnel's counters are all the bytes received from its clients and all the bytes
      taken from its outbound queues, over all connections, datagrams and listeners, modulo 2^64 -- exactly when
      none is unrecorded, as long as fewer than 2^64 bytes are. */
  lemma Conserved(ss: seq<System>, es: seq<Event>, k: nat, t: Id)
    requires IsRun(ss, es) && k < |ss|
    ensures var s, c := ss[k], Of(ss[k].traffic, t);
      && c.bytesIn == Wrap(Received(s, t) - Unrecorded(s, t))
      && c.bytesOut == Wrap(Taken(s, t) - Held(s, t))
      && (Unrecorded(s, t) < WORD ==> (c.bytesIn == Wrap(Received(s, t)) <==> AllRecorded(s, t)))
      && (Held(s, t) < WORD ==> (c.bytesOut == Wrap(Taken(s, t)) <==> NoneHeld(s, t)))
  {
    hide Sum, Wrap, AllRecorded, NoneHeld, T.PlaneOk, U.PlaneOk, IsRun;
    RunOk(ss, es, k, t);
    var s := ss[k];
    UnrecordedExact(s, t);
    HeldExact(s, t);
    if Unrecorded(s, t) < WORD {
      WrapDiff(Received(s, t), Unrecorded(s, t));
    }
    if Held(s, t) < WORD {
      WrapDiff(Taken(s, t), Held(s, t));
    }
  }

  // ---------- what aborts lose, told by the events ----------

  /** The bytes of tunnel t whose recording a step cuts short: those of a datagram, or of a reply, that an aborted loop
      was waiting to record. */
  function CutsIn(s: System, e: Event, t: Id): nat
    requires Possible(s, e)
  {
    match e
    case OnUdp(Stop(u)) =>
      if s.udp.loops[u].tunnel == t && s.udp.loops[u].phase.Forward? then |s.udp.loops[u].phase.data| else 0
    case _ => 0
  }

  function CutsOut(s: System, e: Event, t: Id): nat
    requires Possible(s, e)
  {
    match e
    case OnUdp(Stop(u)) =>
      if s.udp.loops[u].tunnel == t && s.udp.loops[u].phase.Reply? then |s.udp.loops[u].phase.data| else 0
    case _ => 0
  }

  ghost function LostIn(ss: seq<System>, es: seq<Event>, k: nat, t: Id): nat
    requires IsRun(ss, es) && k < |ss|
  {
    if k == 0 then 0 else LostIn(ss, es, k - 1, t) + CutsIn(ss[k - 1], es[k - 1], t)
  }

  ghost function LostOut(ss: seq<System>, es: seq<Event>, k: nat, t: Id): nat
    requires IsRun(ss, es) && k < |ss|
  {
    if k == 0 then 0 else LostOut(ss, es, k - 1, t) + CutsOut(ss[k - 1], es[k - 1], t)
  }

  function CutInBy(t: Id): U.Loop -> int {
    (l: U.Loop) => if l.tunnel == t && l.phase.Stopped? then l.phase.cutIn else 0
  }
  function CutOutBy(t: Id): U.Loop -> int {
    (l: U.Loop) => if l.tunnel == t && l.phase.Stopped? then l.phase.cutOut else 0
  }

  lemma LoopCuts(p: U.Plane, q: U.Plane, u: Id, t: Id)
    requires u < |p.loops| == |q.loops| && q.loops == p.loops[u := q.loops[u]]
    ensures Sum(q.loops, CutInBy(t)) == Sum(p.loops, CutInBy(t)) + CutInBy(t)(q.loops[u]) - CutInBy(t)(p.loops[u])
    ensures Sum(q.loops, CutOutBy(t)) == Sum(p.loops, CutOutBy(t)) + CutOutBy(t)(q.loops[u]) - CutOutBy(t)(p.loops[u])
  {
    SumUpdate(p.loops, u, q.loops[u], CutInBy(t));
    SumUpdate(p.loops, u, q.loops[u], CutOutBy(t));
    hide Sum;
  }

  lemma UdpCuts(s: System, x: U.Event, t: Id)
    requires Possible(s, OnUdp(x))
    ensures var q := U.Step(s.udp, x);
      && Sum(q.loops, CutInBy(t)) == Sum(s.udp.loops, CutInBy(t)) + CutsIn(s, OnUdp(x), t)
      && Sum(q.loops, CutOutBy(t)) == Sum(s.udp.loops, CutOutBy(t)) + CutsOut(s, OnUdp(x), t)
  {
    hide Sum;
    var p, q := s.udp, U.Step(s.udp, x);
    match x
    case Open(tunnel, chan) =>
      var l := U.Loop(tunnel, chan, U.Idle, map[], map[], [], 0);
      SumAppend(p.loops, l, CutInBy(t));
      SumAppend(p.loops, l, CutOutBy(t));
    case Stop(u) => LoopCuts(p, q, u, t);
    case Datagram(u, _, _) => LoopCuts(p, q, u, t);
    case Record(u) => LoopCuts(p, q, u, t);
    case TakeReply(u) => LoopCuts(p, q, u, t);
    case RecordReply(u) => LoopCuts(p, q, u, t);
    case Pass(i) =>
      if q.loops != p.loops {
        LoopCuts(p, q, p.sessions[i].loop, t);
      }
    case _ =>
  }

  lemma {:induction false} RunCuts(ss: seq<System>, es: seq<Event>, k: nat, t: Id)
    requires IsRun(ss, es) && k < |ss|
    ensures Sum(ss[k].udp.loops, CutInBy(t)) == LostIn(ss, es, k, t)
    ensures Sum(ss[k].udp.loops, CutOutBy(t)) == LostOut(ss, es, k, t)
  {
    if k > 0 {
      RunCuts(ss, es, k - 1, t);
      hide Sum, T.Step, U.Step, T.Possible, U.Possible;
      if es[k - 1].OnUdp? {
        UdpCuts(ss[k - 1], es[k - 1].udp, t);
      }
    }
  }

  /** Nothing of tunnel t is waiting to be recorded. */
  predicate AtRest(s: System, t: Id) {
    && (forall i :: 0 <= i < |s.tcp.conns| && s.tcp.conns[i].tunnel == t ==>
          T.Pending(s.tcp.conns[i]) == [] && (s.tcp.conns[i].phase.Taken? ==> s.tcp.conns[i].phase.data == []))
    && (forall u :: 0 <= u < |s.udp.loops| && s.udp.loops[u].tunnel == t ==>
          && (s.udp.loops[u].phase.Forward? ==> s.udp.loops[u].phase.data == [])
          && (s.udp.loops[u].phase.Reply? ==> s.udp.loops[u].phase.data == []))
  }

  lemma {:induction false} SumSame<X>(xs: seq<X>, f: X -> int, g: X -> int)
    requires forall i :: 0 <= i < |xs| ==> f(xs[i]) == g(xs[i])
    ensures Sum(xs, f) == Sum(xs, g)
  {
    if xs != [] {
      SumSame(xs[..|xs| - 1], f, g);
    }
  }

  lemma RestingLoss(s: System, t: Id)
    requires AtRest(s, t)
    ensures Unrecorded(s, t) == Sum(s.udp.loops, CutInBy(t)) && Held(s, t) == Sum(s.udp.loops, CutOutBy(t))
  {
    SumBounds(s.tcp.conns, PendingBy(t));
    SumBounds(s.tcp.conns, HeldBy(t));
    SumSame(s.udp.loops, UnrecordedBy(t), CutInBy(t));
    SumSame(s.udp.loops, LoopHeldBy(t), CutOutBy(t));
    hide Sum;
  }

  lemma {:induction false} NothingLost(ss: seq<System>, es: seq<Event>, k: nat, t: Id)
    requires IsRun(ss, es) && k < |ss|
    ensures LostIn(ss, es, k, t) == 0 <==> forall j :: 0 <= j < k ==> CutsIn(ss[j], es[j], t) == 0
    ensures LostOut(ss, es, k, t) == 0 <==> forall j :: 0 <= j < k ==> CutsOut(ss[j], es[j], t) == 0
  {
    if k > 0 {
      NothingLost(ss, es, k - 1, t);
      hide CutsIn, CutsOut, Possible, Step;
    }
  }

  /** At rest, a counter lacks exactly the bytes whose recording aborts have cut short. So it is exact if and only if
      no loop of the tunnel was ever aborted while it waited to record a datagram, or a reply, that was not empty. */
  lemma AbortsExact(ss: seq<System>, es: seq<Event>, k: nat, t: Id)
    requires IsRun(ss, es) && k < |ss| && AtRest(ss[k], t)
    ensures var s, c := ss[k], Of(ss[k].traffic, t);
      && c.bytesIn == Wrap(Received(s, t) - LostIn(ss, es, k, t))
      && c.bytesOut == Wrap(Taken(s, t) - LostOut(ss, es, k, t))
      && (LostIn(ss, es, k, t) < WORD ==>
            (c.bytesIn == Wrap(Received(s, t)) <==> forall j :: 0 <= j < k ==> CutsIn(ss[j], es[j], t) == 0))
      && (LostOut(ss, es, k, t) < WORD ==>
            (c.bytesOut == Wrap(Taken(s, t)) <==> forall j :: 0 <= j < k ==> CutsOut(ss[j], es[j], t) == 0))
  {
    hide Sum, Wrap, AtRest, AllRecorded, NoneHeld, Received, Taken, Unrecorded, Held, CutsIn, CutsOut, Step;
    Conserved(ss, es, k, t);
    RestingLoss(ss[k], t);
    RunCuts(ss, es, k, t);
    NothingLost(ss, es, k, t);
    if LostIn(ss, es, k, t) < WORD {
      WrapDiff(Received(ss[k], t), LostIn(ss, es, k, t));
    }
    if LostOut(ss, es, k, t) < WORD {
      WrapDiff(Taken(ss[k], t), LostOut(ss, es, k, t));
    }
  }

  /** A loop aborted while it waits to record a datagram: one byte was received, and none is ever counted. */
  lemma AbortLosesCount() returns (ss: seq<System>, es: seq<Event>)
    ensures IsRun(ss, es)
    ensures var s := ss[|es|];
      && Received(s, 7) == 1 && Of(s.traffic, 7).bytesIn == 0
      && |s.udp.loops| == 1 && s.udp.loops[0].phase.Stopped?
  {
    var open, datagram, stop := OnUdp(U.Open(7, 0)), OnUdp(U.Datagram(0, 9, [1])), OnUdp(U.Stop(0));
    var s1 := Step(Empty, open);
    var s2 := Step(s1, datagram);
    var s3 := Step(s2, stop);
    ss, es := [Empty, s1, s2, s3], [open, datagram, stop];
    var session := U.Session(0, 7, 9, false, [], [[1]]);
    assert s3.udp.sessions == [session];
    SumAppend([], session, GotBy(7));
    SizeMore([], [1]);
    assert [] + [session] == [session] && [] + [[1]] == [[1]];
  }

  // ---------- what the agent did not get ----------

  /** Bytes of TCP clients of tunnel t that agents got, over the first n connections. */
  function Forwarded(p: T.Plane, t: Id, n: nat): nat
    requires n <= |p.conns|
  {
    if n == 0 then 0
    else Forwarded(p, t, n - 1) + if p.conns[n - 1].tunnel == t then |Decoded(Project(p.log, n - 1))| else 0
  }

  /** Connections of tunnel t among the first n that a failed send ended. */
  function Failed(p: T.Plane, t: Id, n: nat): nat
    requires n <= |p.conns|
  {
    if n == 0 then 0
    else Failed(p, t, n - 1) + if p.conns[n - 1].tunnel == t && p.conns[n - 1].lost != [] then 1 else 0
  }

  lemma {:induction false} ForwardedWithin(p: T.Plane, t: Id, n: nat)
    requires T.PlaneOk(p) && n <= |p.conns|
    ensures var counted := Sum(p.conns[..n], ReadBy(t)) - Sum(p.conns[..n], PendingBy(t));
      Forwarded(p, t, n) <= counted <= Forwarded(p, t, n) + T.BUFFER * Failed(p, t, n)
  {
    if n > 0 {
      ForwardedWithin(p, t, n - 1);
      assert p.conns[..n] == p.conns[..n - 1] + [p.conns[n - 1]];
      SumAppend(p.conns[..n - 1], p.conns[n - 1], ReadBy(t));
      SumAppend(p.conns[..n - 1], p.conns[n - 1], PendingBy(t));
      assert T.RowOk(p, n - 1);
      hide Sum, T.PlaneOk, Project, Decoded, Grammar, OpenGrammar, Routed;
    }
  }

  /** What TCP adds to a tunnel's counter exceeds what agents got by at most 8192 bytes for each connection
      that a failed send ended. */
  lemma LossBounded(ss: seq<System>, es: seq<Event>, k: nat, t: Id)
    requires IsRun(ss, es) && k < |ss|
    ensures var p := ss[k].tcp;
      Forwarded(p, t, |p.conns|) <= TcpIn(p, t) <= Forwarded(p, t, |p.conns|) + 8192 * Failed(p, t, |p.conns|)
  {
    RunOk(ss, es, k, t);
    var p := ss[k].tcp;
    ForwardedWithin(p, t, |p.conns|);
    assert p.conns[..|p.conns|] == p.conns;
  }
}
