/**
 The data paths from end to end, in terms of what happened: the chunks and datagrams that clients sent and the
 messages that agents sent, event by event, instead of what the planes remember of them.
 */
module EndToEnd {
  import opened Types
  import opened Messages
  import Base64
  import T = TcpPlane
  import U = UdpPlane

  // ---------- TCP ----------

  /** What was read from connection i, and the bytes of one event. */
  function ChunkOf(e: T.Event, i: Id): Bytes { if e.Do? && e.conn == i && e.act.Read? then e.act.chunk else [] }

  function ChunksOf(es: seq<T.Event>, i: Id): Bytes {
    if es == [] then [] else ChunksOf(es[..|es| - 1], i) + ChunkOf(es[|es| - 1], i)
  }

  /** The bytes the agent's message carries for connection i, if it decodes. */
  function DataFor(e: T.Event, i: Id): Bytes {
    if e.AgentData? && e.conn == i && Base64.Decode(e.payload).Some? then Base64.Decode(e.payload).value else []
  }

  /** The connection was registered, and since then neither did the agent close it nor its task clean up. */
  predicate TcpFiled(es: seq<T.Event>, i: Id) {
    if es == [] then false
    else
      match es[|es| - 1]
      case AgentClose(c) => c != i && TcpFiled(es[..|es| - 1], i)
      case Do(c, Register) => c == i || TcpFiled(es[..|es| - 1], i)
      case Do(c, Remove) => c != i && TcpFiled(es[..|es| - 1], i)
      case _ => TcpFiled(es[..|es| - 1], i)
  }

  /** The decoded data the agent sent to connection i while it was filed. */
  function SentTo(es: seq<T.Event>, i: Id): Bytes {
    if es == [] then []
    else
      var k := |es| - 1;
      SentTo(es[..k], i) + if TcpFiled(es[..k], i) then DataFor(es[k], i) else []
  }

  ghost predicate TcpMatches(p: T.Plane, es: seq<T.Event>, i: Id) {
    && (if i < |p.conns| then p.conns[i].read == ChunksOf(es, i) else ChunksOf(es, i) == [])
    && (i in p.routes <==> TcpFiled(es, i))
    && Routed(p.handled, i) == SentTo(es, i)
  }

  lemma TcpReadStep(p: T.Plane, e: T.Event, i: Id)
    requires T.Possible(p, e)
    ensures var q := T.Step(p, e);
      && |p.conns| <= |q.conns|
      && (i < |p.conns| ==> q.conns[i].read == p.conns[i].read + ChunkOf(e, i))
      && (|p.conns| <= i ==> ChunkOf(e, i) == [] && (i < |q.conns| ==> q.conns[i].read == []))
  {
    hide Base64.Encode, Base64.Decode, T.Tag;
  }

  lemma TcpRoutesStep(p: T.Plane, e: T.Event, i: Id)
    requires T.Possible(p, e)
    ensures i in T.Step(p, e).routes <==>
      e == T.Do(i, T.Register) || (i in p.routes && e != T.AgentClose(i) && e != T.Do(i, T.Remove))
  {
    hide Base64.Encode, Base64.Decode, T.Tag;
  }

  lemma TcpRoutedStep(p: T.Plane, e: T.Event, i: Id)
    requires T.Possible(p, e) && (i in p.routes ==> i < |p.conns|)
    ensures Routed(T.Step(p, e).handled, i) == Routed(p.handled, i) + if i in p.routes then DataFor(e, i) else []
  {
    hide Base64.Encode, Base64.Decode, T.Tag, T.Local, T.Can;
    if e.AgentData? && Base64.Decode(e.payload).Some? {
      var routed := e.conn in p.routes && e.conn < |p.conns|;
      RoutedMore(p.handled, Handled(e.conn, Base64.Decode(e.payload).value, routed), i);
    }
  }

  /** What a connection remembers is what happened to it. */
  lemma {:induction false} TcpRemembers(ps: seq<T.Plane>, es: seq<T.Event>, k: nat, i: Id)
    requires T.IsRun(ps, es) && k < |ps|
    ensures TcpMatches(ps[k], es[..k], i)
  {
    hide Base64.Encode, Base64.Decode, T.Step, T.Possible, ChunkOf, DataFor;
    if k > 0 {
      var p, e := ps[k - 1], es[k - 1];
      TcpRemembers(ps, es, k - 1, i);
      TcpReadStep(p, e, i);
      TcpRoutesStep(p, e, i);
      TcpRoutesKnown(ps, es, k - 1, i);
      TcpRoutedStep(p, e, i);
      assert es[..k][..k - 1] == es[..k - 1] && es[..k][k - 1] == e;
    }
  }

  lemma TcpRoutesKnown(ps: seq<T.Plane>, es: seq<T.Event>, k: nat, i: Id)
    requires T.IsRun(ps, es) && k < |ps|
    ensures i in ps[k].routes ==> i < |ps[k].conns|
  {
    T.RunOk(ps, es, k);
    hide T.RowOk, T.Step;
  }

  /** Over any run, what an agent decodes about a connection is a prefix of what the client sent on it, short by at
      most one buffer, and what is written to the client is a prefix of what the agent encoded for it while its route
      was filed, with nothing missing but what is in flight or queued while the task is in its loop. */
  lemma TcpEndToEnd(ps: seq<T.Plane>, es: seq<T.Event>, k: nat, i: Id)
    requires T.IsRun(ps, es) && k < |ps| && i < |ps[k].conns|
    ensures var c, got, sent := ps[k].conns[i], Decoded(Project(ps[k].log, i)), ChunksOf(es[..k], i);
      && got <= sent && |sent| - |got| <= T.BUFFER
      && (T.InLoop(c) && !c.phase.Forward? ==> got == sent)
    ensures var c, sent := ps[k].conns[i], SentTo(es[..k], i);
      && c.written <= sent
      && (T.InLoop(c) ==> c.written + T.InFlight(c) + Flat(c.queue) == sent)
    ensures i in ps[k].routes <==> TcpFiled(es[..k], i)
  {
    hide Base64.Encode, Base64.Decode, T.Step, T.Possible, Decoded, Project, Routed, Flat;
    TcpRemembers(ps, es, k, i);
    T.InboundIntegrity(ps, es, k, i);
    T.OutboundIntegrity(ps, es, k, i);
  }

  // ---------- UDP ----------

  /** The datagrams that loop u received from an address. */
  function DatagramOf(e: U.Event, u: Id, a: U.Addr): seq<Bytes> {
    if e.Datagram? && e.loop == u && e.addr == a then [e.data] else []
  }

  function DatagramsOf(es: seq<U.Event>, u: Id, a: U.Addr): seq<Bytes> {
    if es == [] then [] else DatagramsOf(es[..|es| - 1], u, a) + DatagramOf(es[|es| - 1], u, a)
  }

  function DatagramFor(e: U.Event, i: Id): seq<Bytes> {
    if e.AgentData? && e.conn == i && Base64.Decode(e.payload).Some? then [Base64.Decode(e.payload).value] else []
  }

  /** The decoded data the agent sent to session i while it was filed, one by one. */
  ghost function RepliesFor(es: seq<U.Event>, i: Id): seq<Bytes> {
    if es == [] then []
    else
      var k := |es| - 1;
      RepliesFor(es[..k], i) + if U.FiledOpen(es, k, i) then DatagramFor(es[k], i) else []
  }

  /** The session of the address at the loop remembers its datagrams; without one there were none. */
  ghost predicate AddressMatches(p: U.Plane, ds: seq<Bytes>, u: Id, a: U.Addr) {
    && (forall i :: 0 <= i < |p.sessions| && p.sessions[i].loop == u && p.sessions[i].addr == a ==>
          p.sessions[i].got == ds)
    && ((forall i :: 0 <= i < |p.sessions| ==> p.sessions[i].loop != u || p.sessions[i].addr != a) ==> ds == [])
  }

  lemma UdpGotStep(p: U.Plane, e: U.Event, u: Id, a: U.Addr, ds: seq<Bytes>)
    requires U.PlaneOk(p) && U.Possible(p, e) && AddressMatches(p, ds, u, a)
    ensures AddressMatches(U.Step(p, e), ds + DatagramOf(e, u, a), u, a)
  {
    hide Base64.Encode, Base64.Decode, U.SessionOk, U.HistoryOk, U.RowOk;
    var q := U.Step(p, e);
    if e.Datagram? {
      UdpDatagramStep(p, e.loop, e.addr, e.data, u, a, ds);
    } else {
      assert ds + [] == ds;
      assert |q.sessions| == |p.sessions|;
      assert forall i :: 0 <= i < |p.sessions| ==>
        q.sessions[i].loop == p.sessions[i].loop && q.sessions[i].addr == p.sessions[i].addr
        && q.sessions[i].got == p.sessions[i].got;
      assert forall i :: 0 <= i < |q.sessions| ==> p.sessions[i].loop == p.sessions[i].loop;
    }
  }

  lemma UdpDatagramStep(p: U.Plane, v: Id, b: U.Addr, data: Bytes, u: Id, a: U.Addr, ds: seq<Bytes>)
    requires U.PlaneOk(p) && U.Possible(p, U.Datagram(v, b, data)) && AddressMatches(p, ds, u, a)
    ensures var e := U.Datagram(v, b, data);
      AddressMatches(U.Step(p, e), ds + DatagramOf(e, u, a), u, a)
  {
    hide Base64.Encode, Base64.Decode, U.SessionOk, U.HistoryOk, U.RowOk;
    var q := U.Step(p, U.Datagram(v, b, data));
    var l := p.loops[v];
    assert U.LoopOk(p, v);
    assert ds + [] == ds;
    if b in l.addrToConn {
      var i := l.addrToConn[b];
      assert i in l.connToAddr && p.sessions[i].loop == v && p.sessions[i].addr == b;
      assert q.sessions[i].got == p.sessions[i].got + [data];
      forall j | 0 <= j < |p.sessions| && p.sessions[j].loop == v && p.sessions[j].addr == b ensures j == i {
        assert j in l.connToAddr && l.addrToConn[l.connToAddr[j]] == j;
      }
      assert q.sessions[i].loop == v && q.sessions[i].addr == b;
      assert forall j :: 0 <= j < |p.sessions| && j != i ==> q.sessions[j] == p.sessions[j];
    } else {
      var i := |p.sessions|;
      assert q.sessions[i].loop == v && q.sessions[i].addr == b && q.sessions[i].got == [data];
      forall j | 0 <= j < i && p.sessions[j].loop == v ensures p.sessions[j].addr != b {
        assert j in l.connToAddr && l.connToAddr[j] == p.sessions[j].addr;
      }
      assert forall j :: 0 <= j < i ==> q.sessions[j] == p.sessions[j];
      if u == v && a == b {
        assert ds == [];
      }
    }
  }

  lemma {:induction false} UdpGot(ps: seq<U.Plane>, es: seq<U.Event>, k: nat, u: Id, a: U.Addr)
    requires U.IsRun(ps, es) && k < |ps|
    ensures AddressMatches(ps[k], DatagramsOf(es[..k], u, a), u, a)
  {
    hide U.Step, U.PlaneOk, U.Possible;
    if k > 0 {
      UdpGot(ps, es, k - 1, u, a);
      U.RunOk(ps, es, k - 1);
      UdpGotStep(ps[k - 1], es[k - 1], u, a, DatagramsOf(es[..k - 1], u, a));
      assert es[..k][..k - 1] == es[..k - 1] && es[..k][k - 1] == es[k - 1];
    }
  }

  lemma UdpRoutedStep(p: U.Plane, e: U.Event, i: Id)
    requires U.Possible(p, e) && (i in p.routes ==> i < |p.sessions|)
    ensures RoutedList(U.Step(p, e).handled, i) ==
      RoutedList(p.handled, i) + if i in p.routes then DatagramFor(e, i) else []
  {
    hide Base64.Encode, Base64.Decode;
    if e.AgentData? && Base64.Decode(e.payload).Some? {
      var routed := e.conn in p.routes && e.conn < |p.sessions|;
      RoutedListMore(p.handled, Handled(e.conn, Base64.Decode(e.payload).value, routed), i);
    }
  }

  lemma FiledEarlier(es: seq<U.Event>, k: nat, i: Id)
    requires 0 < k <= |es|
    ensures U.FiledOpen(es[..k], k - 1, i) <==> U.FiledOpen(es, k - 1, i)
  {
    if j :| 0 <= j < k - 1 && es[j] == U.Register(i) && forall m :: j < m < k - 1 ==> es[m] != U.AgentClose(i) {
      assert es[..k][j] == es[j];
    }
  }

  lemma {:induction false} UdpRouted(ps: seq<U.Plane>, es: seq<U.Event>, k: nat, i: Id)
    requires U.IsRun(ps, es) && k < |ps|
    ensures RoutedList(ps[k].handled, i) == RepliesFor(es[..k], i)
  {
    hide Base64.Encode, Base64.Decode, U.Step, U.LoopOk, U.RowOk, U.FiledOpen;
    if k > 0 {
      var p, e := ps[k - 1], es[k - 1];
      UdpRouted(ps, es, k - 1, i);
      U.RunOk(ps, es, k - 1);
      U.RouteExact(ps, es, k - 1, i);
      FiledEarlier(es, k, i);
      UdpRoutedStep(p, e, i);
      assert es[..k][..k - 1] == es[..k - 1] && es[..k][k - 1] == e;
    }
  }

  /** Over any run, what an agent decodes about a session is a prefix of the datagrams its loop received from its
      address, one by one, and all but the one being forwarded while the loop runs on an open channel; and what goes
      back to that address is a prefix of what the agent encoded for the session while its route was filed. */
  lemma UdpEndToEnd(ps: seq<U.Plane>, es: seq<U.Event>, k: nat, i: Id)
    requires U.IsRun(ps, es) && k < |ps| && i < |ps[k].sessions| && ps[k].sessions[i].loop < |ps[k].loops|
    ensures var s := ps[k].sessions[i];
      var l, got, sent := ps[k].loops[s.loop], Payloads(Project(ps[k].log, i)), DatagramsOf(es[..k], s.loop, s.addr);
      && got <= sent
      && (l.chan !in ps[k].closed && !l.phase.Stopped? ==> got + U.Pending(l, i) == sent)
    ensures var s := ps[k].sessions[i];
      var l, replied, sent := ps[k].loops[s.loop], U.RepliesTo(ps[k].replies, i), RepliesFor(es[..k], i);
      && replied <= sent
      && (!l.phase.Stopped? ==> replied + U.InFlight(l, i) + U.InboxOf(l.inbox, i) + s.queue == sent)
    ensures forall n :: 0 <= n < |ps[k].replies| && ps[k].replies[n].conn == i ==>
      ps[k].replies[n].addr == ps[k].sessions[i].addr
  {
    hide Base64.Encode, Base64.Decode, U.IsRun, Project, Payloads, RoutedList, U.RepliesTo;
    var s := ps[k].sessions[i];
    UdpGot(ps, es, k, s.loop, s.addr);
    UdpRouted(ps, es, k, i);
    U.SessionInbound(ps, es, k, i);
    U.SessionOutbound(ps, es, k, i);
    U.SessionsAgree(ps, es, k);
  }
}
