/** What the proxy tasks share: the channels to the agents, the routes to connections, the traffic counters. */
module Relay {
  import opened Types
  import opened Messages
  import opened Telemetry

  class Shared {
    /** Everything sent on the agents' channels, and the channels whose receiver is gone. */
    var log: seq<Sent>
    var closed: set<Id>
    /** The keys of tcp_conn_senders. */
    var routes: set<Id>
    var liveTraffic: Traffic

    constructor ()
      ensures log == [] && closed == {} && routes == {} && liveTraffic == map[]
    {
      log, closed, routes, liveTraffic := [], {}, {}, map[];
    }

    method Send(chan: Id, m: Msg) returns (ok: bool)
      modifies this`log
      ensures ok <==> chan !in closed
      ensures log == old(log) + if ok then [Sent(chan, m)] else []
    {
      ok := chan !in closed;
      if ok {
        log := log + [Sent(chan, m)];
      }
    }

    method RecordTraffic(tunnel: Id, bytesIn: nat, bytesOut: nat)
      modifies this`liveTraffic
      ensures liveTraffic == Recorded(old(liveTraffic), tunnel, bytesIn, bytesOut)
    {
      if tunnel !in liveTraffic {
        liveTraffic := liveTraffic[tunnel := Counters(0, 0)];
      }
      var entry := liveTraffic[tunnel];
      entry := entry.(bytesIn := (entry.bytesIn + bytesIn) % WORD);
      entry := entry.(bytesOut := (entry.bytesOut + bytesOut) % WORD);
      liveTraffic := liveTraffic[tunnel := entry];
      assert liveTraffic == Recorded(old(liveTraffic), tunnel, bytesIn, bytesOut);
    }
  }
}

/** The relay task of one TCP connection, with the read buffer it reuses. Each method is the code between two
    waits, and does what the step of the same name in module TcpPlane says. */
module TcpProxy {
  import opened Types
  import opened Messages
  import opened Telemetry
  import opened Relay
  import Base64
  import T = TcpPlane

  /** Where a relay task waits. */
  datatype At = InSelect | ReadDone | QueueDone(data: Bytes) | InWrite(rest: Bytes) | AfterLoop | Ended

  lemma Tagged(log: seq<Sent>, chan: Id, m: Msg)
    ensures T.Tag(chan, [m]) == [Sent(chan, m)] && log + T.Tag(chan, []) == log
  {
  }

  class Connection {
    const id: Id
    const tunnel: Id
    const chan: Id
    const buf: array<Byte>
    var n: nat
    var rx: seq<Bytes>
    var at: At
    ghost var read: Bytes
    ghost var taken: nat
    ghost var written: Bytes
    ghost var lost: Bytes

    ghost predicate Valid()
      reads this
    {
      buf.Length == T.BUFFER && n <= buf.Length
    }

    ghost function PhaseOf(): T.Phase
      requires Valid()
      reads this, buf
    {
      match at
      case InSelect => T.Select
      case ReadDone => T.Forward(buf[..n])
      case QueueDone(data) => T.Taken(data)
      case InWrite(rest) => T.Writing(rest)
      case AfterLoop => T.Removing
      case Ended => T.Finished
    }

    ghost function View(): T.Conn
      requires Valid()
      reads this, buf
    {
      T.Conn(tunnel, chan, PhaseOf(), rx, read, taken, written, lost)
    }

    /** This step was taken from that state, and logged what it sends. */
    ghost predicate Did(a: T.Act, c: T.Conn, log: seq<Sent>, shared: Shared)
      requires Valid() && T.Can(c, a)
      reads this, buf, shared
    {
      var (d, ms) := T.Local(id, c, a, chan !in shared.closed);
      View() == d && shared.log == log + T.Tag(chan, ms)
    }

    /** The accept loop has announced the connection, registers its route and spawns its task. */
    constructor (shared: Shared, id: Id, tunnel: Id, chan: Id)
      modifies shared`routes
      ensures Valid() && fresh(buf)
      ensures View() == T.Local(id, T.Conn(tunnel, chan, T.Announced, [], [], 0, [], []), T.Register, true).0
      ensures this.id == id && shared.routes == old(shared.routes) + {id}
    {
      this.id, this.tunnel, this.chan := id, tunnel, chan;
      buf := new Byte[8192](_ => 0);
      n, rx, at := 0, [], InSelect;
      read, taken, written, lost := [], 0, [], [];
      new;
      shared.routes := shared.routes + {id};
    }

    /** `read` fills a prefix of the buffer; what an earlier read left behind it stays there. */
    method Read(chunk: Bytes)
      requires Valid() && at.InSelect? && 1 <= |chunk| <= T.BUFFER
      modifies this`n, this`at, this`read, buf
      ensures Valid() && View() == T.Local(id, old(View()), T.Read(chunk), true).0
    {
      forall i | 0 <= i < |chunk| {
        buf[i] := chunk[i];
      }
      n, at, read := |chunk|, ReadDone, read + chunk;
      assert buf[..n] == chunk;
    }

    method Record(shared: Shared)
      requires Valid() && at.ReadDone?
      modifies this`at, this`lost, shared`log, shared`liveTraffic
      ensures Valid() && Did(T.Record, old(View()), old(shared.log), shared)
      ensures shared.liveTraffic == old(Recorded(shared.liveTraffic, tunnel, |PhaseOf().chunk|, 0))
    {
      shared.RecordTraffic(tunnel, n, 0);
      var payload := Base64.Encode(buf[..n]);
      var ok := shared.Send(chan, Data(id, payload));
      Tagged(old(shared.log), chan, Data(id, payload));
      if ok {
        at := InSelect;
      } else {
        lost := buf[..n];
        at := AfterLoop;
      }
    }

    /** The end of the stream, an error while reading, or an error while writing: the loop is left, and the
        agent is told. */
    method Leave(shared: Shared, onWrite: bool)
      requires Valid() && if onWrite then at.InWrite? else at.InSelect?
      modifies this`at, shared`log
      ensures Valid() && Did(if onWrite then T.WriteError else T.EndOfInput, old(View()), old(shared.log), shared)
    {
      var _ := shared.Send(chan, CloseConnection(id));
      Tagged(old(shared.log), chan, CloseConnection(id));
      at := AfterLoop;
    }

    method Take()
      requires Valid() && at.InSelect? && rx != []
      modifies this`at, this`rx, this`taken
      ensures Valid() && View() == T.Local(id, old(View()), T.Take, true).0
    {
      var data := rx[0];
      at, rx, taken := QueueDone(data), rx[1..], taken + |data|;
    }

    method RecordTaken(shared: Shared)
      requires Valid() && at.QueueDone?
      modifies this`at, shared`liveTraffic
      ensures Valid() && View() == T.Local(id, old(View()), T.RecordTaken, true).0
      ensures shared.liveTraffic == old(Recorded(shared.liveTraffic, tunnel, 0, |at.data|))
    {
      shared.RecordTraffic(tunnel, 0, |at.data|);
      at := InWrite(at.data);
    }

    /** The socket accepts k bytes of what `write_all` has left. */
    method Write(k: nat)
      requires Valid() && at.InWrite? && k <= |at.rest|
      modifies this`at, this`written
      ensures Valid() && View() == T.Local(id, old(View()), T.Write(k), true).0
    {
      var rest := at.rest;
      written := written + rest[..k];
      at := if k == |rest| then InSelect else InWrite(rest[k..]);
    }

    method Remove(shared: Shared)
      requires Valid() && at.AfterLoop?
      modifies this`at, shared`routes
      ensures Valid() && View() == T.Local(id, old(View()), T.Remove, true).0
      ensures shared.routes == old(shared.routes) - {id}
    {
      shared.routes := shared.routes - {id};
      at := Ended;
    }
  }

  /** `handle_socket` on a Data message: a payload that decodes joins the queue of the connection whose route it
      finds; nothing else changes. */
  method OnAgentData(shared: Shared, senders: map<Id, Connection>, id: Id, payload: string)
    requires senders.Keys == shared.routes && forall i :: i in senders ==> senders[i].id == i && senders[i].Valid()
    modifies (set i | i in senders :: senders[i])`rx
    ensures forall i :: i in senders ==>
      senders[i].Valid() && senders[i].View() ==
        var data, c := Base64.Decode(payload), old(senders[i].View());
        if data.Some? && i == id then c.(queue := c.queue + [data.value]) else c
  {
    var data := Base64.Decode(payload);
    if data.Some? && id in senders {
      var sender := senders[id];
      sender.rx := sender.rx + [data.value];
    }
  }

  /** `handle_socket` on a CloseConnection message. */
  method OnAgentClose(shared: Shared, id: Id)
    modifies shared`routes
    ensures shared.routes == old(shared.routes) - {id}
  {
    shared.routes := shared.routes - {id};
  }
}

/** The loop of one UDP listener with its two address maps. Each method is the code between two waits, and does
    to the loop and to the channel what the step of the same name in module UdpPlane does to a plane. */
module UdpProxy {
  import opened Types
  import opened Messages
  import opened Telemetry
  import opened Relay
  import Base64
  import U = UdpPlane

  /** Where the loop waits. */
  datatype At = InSelect | RecordIn(conn: Id) | RecordOut(conn: Id, addr: U.Addr, data: Bytes)

  class SocketLoop {
    const tunnel: Id
    const chan: Id
    const buf: array<Byte>
    var len: nat
    var addrToConn: map<U.Addr, Id>
    var connToAddr: map<Id, U.Addr>
    var rx: seq<(Id, Bytes)>
    var at: At
    ghost var taken: nat

    ghost predicate Valid()
      reads this
    {
      buf.Length == 65536 && len <= buf.Length
    }

    ghost function View(): U.Loop
      requires Valid()
      reads this, buf
    {
      U.Loop(tunnel, chan,
             match at
             case InSelect => U.Idle
             case RecordIn(conn) => U.Forward(conn, buf[..len])
             case RecordOut(conn, addr, data) => U.Reply(conn, addr, data),
             addrToConn, connToAddr, rx, taken)
    }

    /** The loop is loop u of plane p, whose channels are the shared ones. */
    ghost predicate Is(p: U.Plane, u: Id, shared: Shared)
      requires Valid()
      reads this, buf, shared
    {
      u < |p.loops| && p.loops[u] == View() && p.log == shared.log && p.closed == shared.closed
    }

    constructor (tunnel: Id, chan: Id)
      ensures Valid() && fresh(buf) && View() == U.Loop(tunnel, chan, U.Idle, map[], map[], [], 0)
    {
      this.tunnel, this.chan := tunnel, chan;
      buf := new Byte[65536](_ => 0);
      len, addrToConn, connToAddr, rx, at, taken := 0, map[], map[], [], InSelect, 0;
    }

    /** `newId` is the id a new session would get. */
    method Datagram(shared: Shared, addr: U.Addr, data: Bytes, newId: Id, ghost p: U.Plane, ghost u: Id)
      requires Valid() && at.InSelect? && |data| <= buf.Length && Is(p, u, shared) && newId == |p.sessions|
      modifies this`len, this`addrToConn, this`connToAddr, this`at, buf, shared`log
      ensures Valid() && Is(U.Step(p, U.Datagram(u, addr, data)), u, shared)
    {
      forall i | 0 <= i < |data| {
        buf[i] := data[i];
      }
      len := |data|;
      assert buf[..len] == data;
      var connId;
      if addr in addrToConn {
        connId := addrToConn[addr];
      } else {
        connId := newId;
        connToAddr := connToAddr[connId := addr];
        var _ := shared.Send(chan, NewConnection(tunnel, connId));
        addrToConn := addrToConn[addr := connId];
      }
      at := RecordIn(connId);
      assert old(shared.log) + [] == old(shared.log);
    }

    method Record(shared: Shared, ghost p: U.Plane, ghost u: Id)
      requires Valid() && at.RecordIn? && Is(p, u, shared)
      modifies this`at, shared`log, shared`liveTraffic
      ensures Valid() && Is(U.Step(p, U.Record(u)), u, shared)
      ensures shared.liveTraffic == old(Recorded(shared.liveTraffic, tunnel, |View().phase.data|, 0))
    {
      shared.RecordTraffic(tunnel, len, 0);
      var _ := shared.Send(chan, Data(at.conn, Base64.Encode(buf[..len])));
      at := InSelect;
      assert old(shared.log) + [] == old(shared.log);
    }

    /** Nothing is sent, and the datagram is dropped, when the lookup finds no address. */
    method TakeReply(shared: Shared, ghost p: U.Plane, ghost u: Id)
      requires Valid() && at.InSelect? && rx != [] && Is(p, u, shared)
      modifies this`at, this`rx, this`taken
      ensures Valid() && Is(U.Step(p, U.TakeReply(u)), u, shared)
    {
      var (connId, data) := rx[0];
      rx, taken := rx[1..], taken + |data|;
      if connId in connToAddr {
        at := RecordOut(connId, connToAddr[connId], data);
      }
    }

    /** What comes out is what `send_to` is called with. */
    method RecordReply(shared: Shared, ghost p: U.Plane, ghost u: Id) returns (addr: U.Addr, data: Bytes)
      requires Valid() && at.RecordOut? && Is(p, u, shared)
      modifies this`at, shared`liveTraffic
      ensures Valid() && Is(U.Step(p, U.RecordReply(u)), u, shared)
      ensures U.Step(p, U.RecordReply(u)).replies == p.replies + [U.Sending(u, tunnel, old(at).conn, addr, data)]
      ensures shared.liveTraffic == old(Recorded(shared.liveTraffic, tunnel, 0, |View().phase.data|))
    {
      addr, data := at.addr, at.data;
      shared.RecordTraffic(tunnel, 0, |data|);
      at := InSelect;
    }
  }
}
