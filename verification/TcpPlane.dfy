/**
 The TCP data path: accept loops, one relay task per connection, and the agents' messages, interleaved at the
 points where the tasks wait. A connection's id is its index; ids never repeat.
 */
module TcpPlane {
  import opened Types
  import opened Messages
  import Base64

  const BUFFER := 8192

  /** Where a connection is: announced to the agent but not yet registered; dropped with its accept loop;
      in its select loop or at one of the waits inside it; cleaning up; finished. */
  datatype Phase =
    | Announced
    | Dropped
    | Select
    | Forward(chunk: Bytes)   // read, not yet recorded and sent
    | Taken(data: Bytes)      // taken from the queue, not yet recorded
    | Writing(rest: Bytes)    // being written to the client
    | Removing                // loop left, route still to be removed
    | Finished

  /** `read`, `taken`, `written` and `lost` (a chunk the closed channel refused) are what has happened so far. */
  datatype Conn = Conn(
    tunnel: Id, chan: Id, phase: Phase, queue: seq<Bytes>,
    read: Bytes, taken: nat, written: Bytes, lost: Bytes)

  datatype Act =
    | Register
    | Drop
    | Read(chunk: Bytes)
    | EndOfInput      // end of stream or read error
    | Record          // record a read chunk and send it
    | Take
    | RecordTaken
    | Write(n: nat)
    | WriteError
    | Remove

  predicate Can(c: Conn, a: Act) {
    match a
    case Register => c.phase.Announced?
    case Drop => c.phase.Announced?
    case Read(chunk) => c.phase.Select? && 1 <= |chunk| <= BUFFER
    case EndOfInput => c.phase.Select?
    case Record => c.phase.Forward?
    case Take => c.phase.Select? && c.queue != []
    case RecordTaken => c.phase.Taken?
    case Write(n) => c.phase.Writing? && n <= |c.phase.rest|
    case WriteError => c.phase.Writing?
    case Remove => c.phase.Removing?
  }

  /** Leaving the select loop; nothing is sent on a closed channel. */
  function Leave(i: Id, c: Conn, open: bool): (Conn, seq<Msg>) {
    (c.(phase := Removing), if open then [CloseConnection(i)] else [])
  }

  /** One step of the code of connection i, and what it sends. */
  function Local(i: Id, c: Conn, a: Act, open: bool): (Conn, seq<Msg>)
    requires Can(c, a)
  {
    match a
    case Register => (c.(phase := Select), [])
    case Drop => (c.(phase := Dropped), [])
    case Read(chunk) => (c.(phase := Forward(chunk), read := c.read + chunk), [])
    case EndOfInput => Leave(i, c, open)
    case Record =>
      var chunk := c.phase.chunk;
      if open then (c.(phase := Select), [Data(i, Base64.Encode(chunk))])
      else Leave(i, c.(lost := chunk), open)
    case Take => (c.(phase := Taken(c.queue[0]), queue := c.queue[1..], taken := c.taken + |c.queue[0]|), [])
    case RecordTaken => (c.(phase := Writing(c.phase.data)), [])
    case Write(n) =>
      var rest := c.phase.rest;
      (c.(phase := if n == |rest| then Select else Writing(rest[n..]), written := c.written + rest[..n]), [])
    case WriteError => Leave(i, c, open)
    case Remove => (c.(phase := Finished), [])
  }

  /** `routes` are the keys of tcp_conn_senders; `closed` are the channels whose receiver is gone. */
  datatype Plane = Plane(
    conns: seq<Conn>, routes: set<Id>, log: seq<Sent>, closed: set<Id>, handled: seq<Handled>)

  datatype Event =
    | Accept(tunnel: Id, chan: Id)
    | CloseChannel(chan: Id)
    | AgentData(conn: Id, payload: string)
    | AgentClose(conn: Id)
    | Do(conn: Id, act: Act)

  /** An accept loop whose channel is closed ends instead of announcing a connection. */
  predicate Possible(p: Plane, e: Event) {
    match e
    case Accept(_, chan) => chan !in p.closed
    case Do(i, a) => i < |p.conns| && Can(p.conns[i], a)
    case _ => true
  }

  function Tag(chan: Id, ms: seq<Msg>): seq<Sent> { seq(|ms|, k requires 0 <= k < |ms| => Sent(chan, ms[k])) }

  function Step(p: Plane, e: Event): Plane
    requires Possible(p, e)
  {
    match e
    case Accept(tunnel, chan) =>
      p.(conns := p.conns + [Conn(tunnel, chan, Announced, [], [], 0, [], [])],
         log := p.log + [Sent(chan, NewConnection(tunnel, |p.conns|))])
    case CloseChannel(chan) => p.(closed := p.closed + {chan})
    case AgentData(i, payload) =>
      var data := Base64.Decode(payload);
      if data.None? then p
      else
        var routed := i in p.routes && i < |p.conns|;
        p.(handled := p.handled + [Handled(i, data.value, routed)],
           conns := if routed then p.conns[i := p.conns[i].(queue := p.conns[i].queue + [data.value])] else p.conns)
    case AgentClose(i) => p.(routes := p.routes - {i})
    case Do(i, a) =>
      var (c, ms) := Local(i, p.conns[i], a, p.conns[i].chan !in p.closed);
      p.(conns := p.conns[i := c],
         log := p.log + Tag(c.chan, ms),
         routes := if a.Register? then p.routes + {i} else if a.Remove? then p.routes - {i} else p.routes)
  }

  const Empty := Plane([], {}, [], {}, [])

  // ---------- the invariant of one connection ----------

  /** Read from the client but not yet sent to the agent. */
  function Pending(c: Conn): Bytes { if c.phase.Forward? then c.phase.chunk else [] }

  /** Taken from the queue but not yet written to the client. */
  function InFlight(c: Conn): Bytes {
    if c.phase.Taken? then c.phase.data else if c.phase.Writing? then c.phase.rest else []
  }

  /** The connection's task has been spawned and has not finished its cleanup. */
  predicate HasTask(c: Conn) { !c.phase.Announced? && !c.phase.Dropped? && !c.phase.Finished? }

  predicate InLoop(c: Conn) { HasTask(c) && !c.phase.Removing? }

  /** ms are the messages sent about the connection, routed the bytes routed to it. */
  predicate ConnOk(i: Id, c: Conn, ms: seq<Msg>, routed: Bytes, isRoute: bool, closed: bool) {
    && Grammar(ms) && ms != [] && ms[0] == NewConnection(c.tunnel, i)
    && (isRoute ==> HasTask(c))
    && Decoded(ms) + Pending(c) + c.lost == c.read
    && (c.lost != [] ==> closed && |c.lost| <= BUFFER && !InLoop(c))
    && (c.phase.Forward? ==> 1 <= |c.phase.chunk| <= BUFFER)
    && c.written <= routed
    && (InLoop(c) ==> OpenGrammar(ms) && c.written + InFlight(c) + Flat(c.queue) == routed)
    && (c.phase.Announced? ==> OpenGrammar(ms) && c.read == [] && c.queue == [] && c.written == [] && routed == [])
  }

  lemma RecordOk(i: Id, c: Conn, ms: seq<Msg>, routed: Bytes, isRoute: bool, open: bool)
    requires ConnOk(i, c, ms, routed, isRoute, !open) && Can(c, Record)
    ensures var (d, more) := Local(i, c, Record, open); ConnOk(i, d, ms + more, routed, isRoute, !open)
  {
    hide Base64.Encode, Base64.Decode, Decoded, Flat;
    var chunk := c.phase.chunk;
    var m := Data(i, Base64.Encode(chunk));
    if open {
      DecodedData(ms, i, chunk);
      OpenExtends(ms, m);
      assert Decoded(ms) + chunk + [] + [] == Decoded(ms) + chunk + [];
    } else {
      assert ms + [] == ms;
      assert Decoded(ms) + [] + chunk == Decoded(ms) + chunk + [];
    }
  }

  lemma LeaveOk(i: Id, c: Conn, a: Act, ms: seq<Msg>, routed: Bytes, isRoute: bool, open: bool)
    requires ConnOk(i, c, ms, routed, isRoute, !open) && Can(c, a) && (a.EndOfInput? || a.WriteError?)
    ensures var (d, more) := Local(i, c, a, open); ConnOk(i, d, ms + more, routed, isRoute, !open)
  {
    DecodedMore(ms, CloseConnection(i));
    hide Base64.Encode, Base64.Decode, Decoded, Flat;
    OpenExtends(ms, CloseConnection(i));
    assert ms + [] == ms;
    assert Decoded(ms) + [] == Decoded(ms);
  }

  lemma ReadOk(i: Id, c: Conn, a: Act, ms: seq<Msg>, routed: Bytes, isRoute: bool, open: bool)
    requires ConnOk(i, c, ms, routed, isRoute, !open) && Can(c, a) && a.Read?
    ensures var (d, more) := Local(i, c, a, open); more == [] && ConnOk(i, d, ms, routed, isRoute, !open)
  {
    hide Decoded, Flat;
    assert Decoded(ms) + [] + [] == c.read;
    assert Decoded(ms) + a.chunk + [] == c.read + a.chunk;
  }

  lemma Regroup(written: Bytes, rest: Bytes, queued: Bytes, n: nat)
    requires n <= |rest|
    ensures written + rest + queued == (written + rest[..n]) + rest[n..] + queued
    ensures written + rest[..n] <= written + rest + queued
  {
    assert rest == rest[..n] + rest[n..];
  }

  lemma TakeOk(i: Id, c: Conn, ms: seq<Msg>, routed: Bytes, isRoute: bool, open: bool)
    requires ConnOk(i, c, ms, routed, isRoute, !open) && Can(c, Take)
    ensures var (d, more) := Local(i, c, Take, open); more == [] && ConnOk(i, d, ms, routed, isRoute, !open)
  {
    hide Decoded, Grammar, OpenGrammar, Base64.Encode, Base64.Decode;
    assert c.written + [] + (c.queue[0] + Flat(c.queue[1..])) == c.written + c.queue[0] + Flat(c.queue[1..]);
  }

  lemma WriteOk(i: Id, c: Conn, a: Act, ms: seq<Msg>, routed: Bytes, isRoute: bool, open: bool)
    requires ConnOk(i, c, ms, routed, isRoute, !open) && Can(c, a) && (a.RecordTaken? || a.Write?)
    ensures var (d, more) := Local(i, c, a, open); more == [] && ConnOk(i, d, ms, routed, isRoute, !open)
  {
    hide Decoded, Grammar, OpenGrammar, Base64.Encode, Base64.Decode, Flat;
    if a.Write? {
      Regroup(c.written, c.phase.rest, Flat(c.queue), a.n);
    }
  }

  lemma LifeOk(i: Id, c: Conn, a: Act, ms: seq<Msg>, routed: Bytes, isRoute: bool, open: bool)
    requires ConnOk(i, c, ms, routed, isRoute, !open) && Can(c, a)
    requires a.Register? || a.Drop? || a.Remove?
    ensures var (d, more) := Local(i, c, a, open);
      more == [] && ConnOk(i, d, ms, routed, a.Register? || (isRoute && !a.Remove?), !open)
  {
    hide Decoded, Grammar;
  }

  /** The agent's data for a registered connection joins its queue. */
  lemma QueueOk(i: Id, c: Conn, ms: seq<Msg>, routed: Bytes, closed: bool, data: Bytes)
    requires ConnOk(i, c, ms, routed, true, closed)
    ensures ConnOk(i, c.(queue := c.queue + [data]), ms, routed + data, true, closed)
  {
    hide Decoded, Grammar, OpenGrammar;
    FlatMore(c.queue, data);
    assert c.written + InFlight(c) + Flat(c.queue) + data == c.written + InFlight(c) + (Flat(c.queue) + data);
    assert c.written <= routed ==> c.written <= routed + data;
  }

  // ---------- the invariant of the plane ----------

  predicate RowOk(p: Plane, i: Id)
    requires i < |p.conns|
  {
    ConnOk(i, p.conns[i], Project(p.log, i), Routed(p.handled, i), i in p.routes, p.conns[i].chan in p.closed)
  }

  ghost predicate PlaneOk(p: Plane) {
    && (forall i :: 0 <= i < |p.conns| ==> RowOk(p, i))
    && (forall i :: i in p.routes ==> i < |p.conns|)
    && (forall i: Id :: |p.conns| <= i ==> Project(p.log, i) == [] && Routed(p.handled, i) == [])
    && (forall k :: 0 <= k < |p.log| ==>
          p.log[k].msg.conn < |p.conns| && p.log[k].chan == p.conns[p.log[k].msg.conn].chan)
  }

  /** Logging what connection i sends changes the view of connection i alone. */
  lemma TagProject(log: seq<Sent>, chan: Id, i: Id, ms: seq<Msg>, c: Id)
    requires |ms| <= 1 && forall k :: 0 <= k < |ms| ==> ms[k].conn == i
    ensures Project(log + Tag(chan, ms), c) == Project(log, c) + if c == i then ms else []
  {
    if ms == [] {
      assert log + Tag(chan, ms) == log;
    } else {
      assert log + Tag(chan, ms) == log + [Sent(chan, ms[0])];
      ProjectMore(log, Sent(chan, ms[0]), c);
      assert ms == [ms[0]];
    }
  }

  lemma LocalShape(i: Id, c: Conn, a: Act, open: bool)
    requires Can(c, a)
    ensures var (d, ms) := Local(i, c, a, open);
      d.chan == c.chan && d.tunnel == c.tunnel && |ms| <= 1 && forall k :: 0 <= k < |ms| ==> ms[k].conn == i
  {
  }

  lemma LocalOk(i: Id, c: Conn, a: Act, ms: seq<Msg>, routed: Bytes, isRoute: bool, open: bool)
    requires ConnOk(i, c, ms, routed, isRoute, !open) && Can(c, a)
    ensures var (d, more) := Local(i, c, a, open);
      ConnOk(i, d, ms + more, routed, a.Register? || (isRoute && !a.Remove?), !open)
  {
    hide ConnOk;
    if a.Record? {
      RecordOk(i, c, ms, routed, isRoute, open);
    } else if a.EndOfInput? || a.WriteError? {
      LeaveOk(i, c, a, ms, routed, isRoute, open);
    } else if a.Read? {
      ReadOk(i, c, a, ms, routed, isRoute, open);
      assert ms + [] == ms;
    } else if a.Take? {
      TakeOk(i, c, ms, routed, isRoute, open);
      assert ms + [] == ms;
    } else if a.RecordTaken? || a.Write? {
      WriteOk(i, c, a, ms, routed, isRoute, open);
      assert ms + [] == ms;
    } else {
      LifeOk(i, c, a, ms, routed, isRoute, open);
      assert ms + [] == ms;
    }
  }

  lemma DoShape(p: Plane, i: Id, a: Act)
    requires Possible(p, Do(i, a))
    ensures var q, c := Step(p, Do(i, a)), p.conns[i];
      var (d, ms) := Local(i, c, a, c.chan !in p.closed);
      && q.conns == p.conns[i := d] && q.log == p.log + Tag(c.chan, ms)
      && q.closed == p.closed && q.handled == p.handled
      && q.routes == if a.Register? then p.routes + {i} else if a.Remove? then p.routes - {i} else p.routes
  {
    LocalShape(i, p.conns[i], a, p.conns[i].chan !in p.closed);
    hide Local, Tag, Can;
  }

  lemma DoRow(p: Plane, i: Id, a: Act, j: Id)
    requires Possible(p, Do(i, a)) && j < |p.conns| && RowOk(p, j)
    ensures j < |Step(p, Do(i, a)).conns| && RowOk(Step(p, Do(i, a)), j)
  {
    hide Can, Step, Local, ConnOk, Project, Routed, Tag;
    DoShape(p, i, a);
    var c, open := p.conns[i], p.conns[i].chan !in p.closed;
    var (d, ms) := Local(i, c, a, open);
    LocalShape(i, c, a, open);
    TagProject(p.log, c.chan, i, ms, j);
    if j == i {
      LocalOk(i, c, a, Project(p.log, i), Routed(p.handled, i), i in p.routes, open);
    } else {
      assert Project(p.log, j) + [] == Project(p.log, j);
    }
  }

  lemma DoKeeps(p: Plane, i: Id, a: Act)
    requires PlaneOk(p) && Possible(p, Do(i, a))
    ensures PlaneOk(Step(p, Do(i, a)))
  {
    hide Can, Step, Local, RowOk, Project, Routed;
    DoShape(p, i, a);
    var q := Step(p, Do(i, a));
    var c, open := p.conns[i], p.conns[i].chan !in p.closed;
    var (_, ms) := Local(i, c, a, open);
    LocalShape(i, c, a, open);
    forall j: Id | |q.conns| <= j ensures Project(q.log, j) == [] {
      TagProject(p.log, c.chan, i, ms, j);
    }
    forall j: Id | j < |q.conns| ensures RowOk(q, j) {
      DoRow(p, i, a, j);
    }
  }

  lemma NewRow(p: Plane, tunnel: Id, chan: Id)
    requires PlaneOk(p) && chan !in p.closed
    ensures var q := Step(p, Accept(tunnel, chan)); |p.conns| < |q.conns| && RowOk(q, |p.conns|)
  {
    hide ConnOk, Routed, Project;
    var m := NewConnection(tunnel, |p.conns|);
    ProjectMore(p.log, Sent(chan, m), |p.conns|);
    assert [] + [m] == [m];
    NewConn(tunnel, chan, |p.conns|);
    assert Step(p, Accept(tunnel, chan)).conns[|p.conns|] == Conn(tunnel, chan, Announced, [], [], 0, [], []);
  }

  lemma NewConn(tunnel: Id, chan: Id, n: Id)
    ensures ConnOk(n, Conn(tunnel, chan, Announced, [], [], 0, [], []), [NewConnection(tunnel, n)], [], false, false)
  {
    var m := NewConnection(tunnel, n);
    DecodedMore([], m);
    assert [] + [m] == [m];
  }

  lemma AcceptKeeps(p: Plane, tunnel: Id, chan: Id)
    requires PlaneOk(p) && chan !in p.closed
    ensures PlaneOk(Step(p, Accept(tunnel, chan)))
  {
    hide ConnOk, Project, Routed;
    var q, n := Step(p, Accept(tunnel, chan)), |p.conns|;
    var m := NewConnection(tunnel, n);
    forall j: Id | j != n ensures Project(q.log, j) == Project(p.log, j) {
      ProjectMore(p.log, Sent(chan, m), j);
    }
    forall j: Id | j < |q.conns| ensures RowOk(q, j) {
      if j < n {
        assert RowOk(p, j);
      } else {
        NewRow(p, tunnel, chan);
      }
    }
  }

  lemma AgentDataKeeps(p: Plane, i: Id, payload: string)
    requires PlaneOk(p)
    ensures PlaneOk(Step(p, AgentData(i, payload)))
  {
    var data := Base64.Decode(payload);
    if data.Some? {
      var q := Step(p, AgentData(i, payload));
      var h := Handled(i, data.value, i in p.routes && i < |p.conns|);
      hide ConnOk, Routed, Project, Base64.Decode;
      forall j: Id
        ensures Routed(q.handled, j) == Routed(p.handled, j) + if j == i && h.routed then data.value else []
      {
        RoutedMore(p.handled, h, j);
      }
      forall j: Id | j < |q.conns| ensures RowOk(q, j) {
        assert RowOk(p, j);
        if j == i && h.routed {
          QueueOk(i, p.conns[i], Project(p.log, i), Routed(p.handled, i), p.conns[i].chan in p.closed, data.value);
        } else {
          assert Routed(q.handled, j) == Routed(p.handled, j);
        }
      }
    }
  }

  lemma WeakerOk(i: Id, c: Conn, ms: seq<Msg>, routed: Bytes, isRoute: bool, closed: bool, closed': bool)
    requires ConnOk(i, c, ms, routed, isRoute, closed) && (closed ==> closed')
    ensures ConnOk(i, c, ms, routed, false, closed') && ConnOk(i, c, ms, routed, isRoute, closed')
  {
    hide Decoded, Grammar, OpenGrammar, Flat;
  }

  lemma StepKeeps(p: Plane, e: Event)
    requires PlaneOk(p) && Possible(p, e)
    ensures PlaneOk(Step(p, e))
  {
    match e
    case Accept(tunnel, chan) => AcceptKeeps(p, tunnel, chan);
    case AgentData(i, payload) => AgentDataKeeps(p, i, payload);
    case Do(i, a) => DoKeeps(p, i, a);
    case _ =>
      hide ConnOk, Project, Routed;
      var q := Step(p, e);
      forall j: Id | j < |q.conns| ensures RowOk(q, j) {
        assert RowOk(p, j);
        var c := p.conns[j];
        WeakerOk(j, c, Project(p.log, j), Routed(p.handled, j), j in p.routes, c.chan in p.closed, c.chan in q.closed);
      }
  }

  // ---------- runs ----------

  ghost predicate Continues(ps: seq<Plane>, es: seq<Event>) {
    && |ps| == |es| + 1
    && forall k :: 0 <= k < |es| ==> Possible(ps[k], es[k]) && ps[k + 1] == Step(ps[k], es[k])
  }

  ghost predicate IsRun(ps: seq<Plane>, es: seq<Event>) { Continues(ps, es) && ps[0] == Empty }

  lemma {:induction false} RunOk(ps: seq<Plane>, es: seq<Event>, k: nat)
    requires IsRun(ps, es) && k < |ps|
    ensures PlaneOk(ps[k])
  {
    if k > 0 {
      RunOk(ps, es, k - 1);
      StepKeeps(ps[k - 1], es[k - 1]);
    }
  }

  /** Channel grammar: what the agent is told about a connection is a prefix of NewConnection, Data*,
      CloseConnection, all on the one channel the connection was announced on. */
  lemma ChannelGrammar(ps: seq<Plane>, es: seq<Event>, k: nat, i: Id)
    requires IsRun(ps, es) && k < |ps|
    ensures Grammar(Project(ps[k].log, i))
    ensures forall m :: 0 <= m < |ps[k].log| && ps[k].log[m].msg.conn == i ==>
      i < |ps[k].conns| && ps[k].log[m].chan == ps[k].conns[i].chan
  {
    RunOk(ps, es, k);
    if i < |ps[k].conns| {
      assert RowOk(ps[k], i);
    }
  }

  lemma InboundOk(i: Id, c: Conn, ms: seq<Msg>, routed: Bytes, isRoute: bool, closed: bool)
    requires ConnOk(i, c, ms, routed, isRoute, closed)
    ensures Decoded(ms) <= c.read && |c.read| - |Decoded(ms)| <= BUFFER
    ensures !c.phase.Forward? && Decoded(ms) != c.read ==> closed && !InLoop(c)
  {
    hide Grammar, OpenGrammar, Decoded, Flat;
    assert c.read == Decoded(ms) + (Pending(c) + c.lost);
  }

  /** Inbound integrity: the agent's decoded bytes are a prefix of the bytes read from the client. They
      differ by the one chunk being forwarded, or by one chunk of at most 8192 bytes that a closed
      channel refused. */
  lemma InboundIntegrity(ps: seq<Plane>, es: seq<Event>, k: nat, i: Id)
    requires IsRun(ps, es) && k < |ps| && i < |ps[k].conns|
    ensures var c, got := ps[k].conns[i], Decoded(Project(ps[k].log, i));
      && got <= c.read
      && |c.read| - |got| <= BUFFER
      && (!c.phase.Forward? && got != c.read ==> c.chan in ps[k].closed && !InLoop(c))
  {
    RunOk(ps, es, k);
    hide ConnOk, Decoded, Project;
    assert RowOk(ps[k], i);
    var p := ps[k];
    InboundOk(i, p.conns[i], Project(p.log, i), Routed(p.handled, i), i in p.routes, p.conns[i].chan in p.closed);
  }

  lemma OutboundOk(i: Id, c: Conn, ms: seq<Msg>, routed: Bytes, isRoute: bool, closed: bool)
    requires ConnOk(i, c, ms, routed, isRoute, closed)
    ensures c.written <= routed
    ensures InLoop(c) ==> c.written + InFlight(c) + Flat(c.queue) == routed
    ensures c.phase.Select? && c.queue == [] ==> c.written == routed
  {
    hide Grammar, OpenGrammar, Decoded;
    assert c.written + [] + [] == c.written;
  }

  /** Outbound integrity and isolation: what the client received is a prefix of the bytes addressed to it
      while its route existed. While its task is in the loop nothing is missing but what is in flight or
      queued; so when it is idle with an empty queue, all of it has been written, route or no route. */
  lemma OutboundIntegrity(ps: seq<Plane>, es: seq<Event>, k: nat, i: Id)
    requires IsRun(ps, es) && k < |ps| && i < |ps[k].conns|
    ensures var c, routed := ps[k].conns[i], Routed(ps[k].handled, i);
      && c.written <= routed
      && (InLoop(c) ==> c.written + InFlight(c) + Flat(c.queue) == routed)
      && (c.phase.Select? && c.queue == [] ==> c.written == routed)
  {
    RunOk(ps, es, k);
    hide ConnOk, Flat, Project, Routed;
    assert RowOk(ps[k], i);
    var p := ps[k];
    OutboundOk(i, p.conns[i], Project(p.log, i), Routed(p.handled, i), i in p.routes, p.conns[i].chan in p.closed);
  }

  /** A connection that has been registered and has no route. */
  predicate CutOff(p: Plane, i: Id) { i < |p.conns| && !p.conns[i].phase.Announced? && i !in p.routes }

  lemma NeverAnnouncedAgain(i: Id, c: Conn, a: Act, open: bool)
    requires Can(c, a)
    ensures !Local(i, c, a, open).0.phase.Announced? && (a.Register? ==> c.phase.Announced?)
  {
  }

  lemma StaysCutOff(p: Plane, e: Event, i: Id)
    requires Possible(p, e) && CutOff(p, i)
    ensures CutOff(Step(p, e), i) && Routed(Step(p, e).handled, i) == Routed(p.handled, i)
  {
    hide Base64.Decode, Routed, Local, Can;
    match e
    case AgentData(j, payload) =>
      var data := Base64.Decode(payload);
      if data.Some? {
        RoutedMore(p.handled, Handled(j, data.value, j in p.routes && j < |p.conns|), i);
        assert Routed(p.handled, i) + [] == Routed(p.handled, i);
      }
    case Do(j, a) => NeverAnnouncedAgain(j, p.conns[j], a, p.conns[j].chan !in p.closed);
    case _ =>
  }

  lemma {:induction false} NoRouteBack(ps: seq<Plane>, es: seq<Event>, j: nat, k: nat, i: Id)
    requires Continues(ps, es) && j <= k < |ps| && CutOff(ps[j], i)
    ensures CutOff(ps[k], i) && Routed(ps[k].handled, i) == Routed(ps[j].handled, i)
  {
    if j < k {
      NoRouteBack(ps, es, j, k - 1, i);
      hide CutOff, Routed, Step;
      StaysCutOff(ps[k - 1], es[k - 1], i);
    }
  }

  /** Some continuation from p routes data to connection i. */
  ghost predicate CanReach(p: Plane, i: Id) {
    exists ps, es :: Reaches(p, ps, es, i)
  }

  ghost predicate Reaches(p: Plane, ps: seq<Plane>, es: seq<Event>, i: Id) {
    Continues(ps, es) && ps[0] == p && Routed(ps[|es|].handled, i) != Routed(p.handled, i)
  }

  const Probe := Base64.Encode([65])

  /** An announced connection is registered, whatever was closed before, and then data reaches it. */
  lemma RegisteredReached(p: Plane, i: Id)
    requires i < |p.conns| && p.conns[i].phase.Announced?
    ensures Possible(p, Do(i, Register))
    ensures var q := Step(p, Do(i, Register)); i in q.routes && i < |q.conns| && q.handled == p.handled
    ensures var r := Step(Step(p, Do(i, Register)), AgentData(i, Probe));
      Routed(r.handled, i) == Routed(p.handled, i) + [65]
  {
    Base64.RoundTrip([65]);
    hide Base64.Encode, Base64.Decode;
    RoutedMore(p.handled, Handled(i, [65], true), i);
  }

  /** A channel that is open. */
  lemma {:induction false} OpenChannel(closed: set<Id>) returns (chan: Id)
    ensures chan !in closed && forall c :: c in closed ==> c < chan
  {
    if closed == {} {
      chan := 0;
    } else {
      var c :| c in closed;
      var rest := closed - {c};
      var above := OpenChannel(rest);
      chan := if c < above then above else c + 1;
      assert forall d :: d in closed ==> d == c || d in rest;
    }
  }

  /** Enough accepts announce connection i. */
  lemma {:induction false} Announces(p: Plane, i: Id, chan: Id) returns (ps: seq<Plane>, es: seq<Event>)
    requires |p.conns| <= i && chan !in p.closed
    ensures Continues(ps, es) && ps[0] == p && ps[|es|].handled == p.handled
    ensures i < |ps[|es|].conns| && ps[|es|].conns[i].phase.Announced?
    decreases i - |p.conns|
  {
    var q := Step(p, Accept(0, chan));
    if |p.conns| == i {
      ps, es := [p, q], [Accept(0, chan)];
    } else {
      ps, es := Announces(q, i, chan);
      Prepended(p, Accept(0, chan), ps, es);
      ps, es := [p] + ps, [Accept(0, chan)] + es;
    }
  }

  lemma Prepended(p: Plane, e: Event, ps: seq<Plane>, es: seq<Event>)
    requires Possible(p, e) && Continues(ps, es) && ps[0] == Step(p, e)
    ensures Continues([p] + ps, [e] + es)
  {
    hide Possible, Step;
    var more, events := [p] + ps, [e] + es;
    forall k | 0 <= k < |events| ensures Possible(more[k], events[k]) && more[k + 1] == Step(more[k], events[k]) {
      if k > 0 {
        assert more[k] == ps[k - 1] && events[k] == es[k - 1] && more[k + 1] == ps[k];
      }
    }
  }

  lemma Appended(ps: seq<Plane>, es: seq<Event>, e: Event)
    requires Continues(ps, es) && Possible(ps[|es|], e)
    ensures |ps| == |es| + 1 && Continues(ps + [Step(ps[|es|], e)], es + [e])
  {
    hide Possible, Step;
    var more, events := ps + [Step(ps[|es|], e)], es + [e];
    forall k | 0 <= k < |events| ensures Possible(more[k], events[k]) && more[k + 1] == Step(more[k], events[k]) {
      assert k < |es| ==> more[k] == ps[k] && more[k + 1] == ps[k + 1] && events[k] == es[k];
    }
  }

  lemma ReachedAfter(p: Plane, ps: seq<Plane>, es: seq<Event>, i: Id)
    requires Continues(ps, es) && ps[0] == p && ps[|es|].handled == p.handled
    requires i < |ps[|es|].conns| && ps[|es|].conns[i].phase.Announced?
    ensures CanReach(p, i)
  {
    hide Routed, Step, Possible;
    var q := ps[|es|];
    RegisteredReached(q, i);
    var r := Step(q, Do(i, Register));
    Appended(ps, es, Do(i, Register));
    AlwaysPossible(r, i);
    Appended(ps + [r], es + [Do(i, Register)], AgentData(i, Probe));
    var more, events := ps + [r] + [Step(r, AgentData(i, Probe))], es + [Do(i, Register)] + [AgentData(i, Probe)];
    assert more[0] == p && more[|events|] == Step(r, AgentData(i, Probe));
    assert Reaches(p, more, events, i);
  }

  lemma ReachedLater(p: Plane, i: Id)
    requires i < |p.conns| ==> p.conns[i].phase.Announced?
    ensures CanReach(p, i)
  {
    hide Routed, Step, Possible;
    if i < |p.conns| {
      ReachedAfter(p, [p], [], i);
    } else {
      var chan := OpenChannel(p.closed);
      var ps, es := Announces(p, i, chan);
      ReachedAfter(p, ps, es, i);
    }
  }

  lemma AlwaysPossible(p: Plane, i: Id)
    ensures Possible(p, AgentData(i, Probe))
  {
  }

  /** The agent's CloseConnection changes nothing about the connection's task or the channel. It keeps all later
      data from the connection if and only if the connection's route has been filed, or never will be. */
  lemma CloseExact(p: Plane, i: Id)
    ensures var q := Step(p, AgentClose(i));
      && q.conns == p.conns && q.log == p.log && q.handled == p.handled
      && (!CanReach(q, i) <==> i < |p.conns| && !p.conns[i].phase.Announced?)
  {
    var q := Step(p, AgentClose(i));
    if i < |p.conns| && !p.conns[i].phase.Announced? {
      assert CutOff(q, i);
      forall ps, es | Continues(ps, es) && ps[0] == q ensures !Reaches(q, ps, es, i) {
        NoRouteBack(ps, es, 0, |es|, i);
      }
    } else {
      ReachedLater(q, i);
    }
  }

  /** On a run: once the connection is registered, nothing that the agent sends after its CloseConnection is routed
      to it. */
  lemma CloseCutsTheRoute(ps: seq<Plane>, es: seq<Event>, j: nat, k: nat, i: Id)
    requires IsRun(ps, es) && j < k < |ps| && es[j] == AgentClose(i)
    ensures ps[j + 1].conns == ps[j].conns && ps[j + 1].log == ps[j].log
    ensures i < |ps[j].conns| && !ps[j].conns[i].phase.Announced? ==>
      Routed(ps[k].handled, i) == Routed(ps[j].handled, i)
  {
    if i < |ps[j].conns| && !ps[j].conns[i].phase.Announced? {
      NoRouteBack(ps, es, j + 1, k, i);
    }
  }

  /** A CloseConnection that comes between the announcement and the registration is lost: the route is filed after
      it, and the agent's next data reaches the connection. */
  lemma EarlyCloseLost() returns (ps: seq<Plane>, es: seq<Event>)
    ensures es == [Accept(7, 0), AgentClose(0), Do(0, Register), AgentData(0, Probe)] && IsRun(ps, es)
    ensures 0 in ps[4].routes && Routed(ps[4].handled, 0) == [65]
  {
    hide Routed, Base64.Encode, Base64.Decode;
    var p1 := Step(Empty, Accept(7, 0));
    var p2 := Step(p1, AgentClose(0));
    RegisteredReached(p2, 0);
    var p3 := Step(p2, Do(0, Register));
    var p4 := Step(p3, AgentData(0, Probe));
    ps, es := [Empty, p1, p2, p3, p4], [Accept(7, 0), AgentClose(0), Do(0, Register), AgentData(0, Probe)];
    assert p4.routes == p3.routes;
    NothingRouted(0);
    assert [] + [65] == [65];
  }

  lemma NothingRouted(i: Id)
    ensures Routed([], i) == []
  {
  }

  /** No leaked route: every key of tcp_conn_senders belongs to a connection whose task will still clean up. */
  lemma NoLeakedRoute(ps: seq<Plane>, es: seq<Event>, k: nat)
    requires IsRun(ps, es) && k < |ps|
    ensures forall i :: i in ps[k].routes ==> i < |ps[k].conns| && HasTask(ps[k].conns[i])
  {
    RunOk(ps, es, k);
    forall i | i in ps[k].routes ensures i < |ps[k].conns| && HasTask(ps[k].conns[i]) {
      assert RowOk(ps[k], i);
    }
  }

  // ---------- draining ----------

  function QueueSteps(queue: seq<Bytes>): nat { if queue == [] then 0 else |queue[0]| + 3 + QueueSteps(queue[1..]) }

  /** A bound on the steps of its own that the task needs until all that is queued or in flight has been written. */
  function ToWrite(c: Conn): nat {
    QueueSteps(c.queue)
    + if c.phase.Taken? then |c.phase.data| + 2 else if c.phase.Writing? then |c.phase.rest| + 1 else 0
  }

  /** A step of the task towards its client; a partial write is of at least one byte. */
  predicate Outward(c: Conn, a: Act) {
    a.Take? || a.RecordTaken? || (a.Write? && (a.n > 0 || (c.phase.Writing? && c.phase.rest == [])))
  }

  /** Every such step brings the task nearer to having written everything, and loses nothing, route or no route. */
  lemma OutwardShrinks(i: Id, c: Conn, a: Act, open: bool)
    requires Can(c, a) && Outward(c, a)
    ensures var d := Local(i, c, a, open).0;
      && ToWrite(d) < ToWrite(c) && InLoop(d) && !d.phase.Forward?
      && d.written + InFlight(d) + Flat(d.queue) == c.written + InFlight(c) + Flat(c.queue)
  {
    if a.Take? {
      assert c.written + [] + (c.queue[0] + Flat(c.queue[1..])) == c.written + c.queue[0] + Flat(c.queue[1..]);
    } else if a.Write? {
      hide Flat;
      Regroup(c.written, c.phase.rest, Flat(c.queue), a.n);
    }
  }

  /** From here on the task can take its own steps until nothing is queued or in flight. */
  lemma {:induction false} Drain(p: Plane, i: Id) returns (ps: seq<Plane>, es: seq<Event>)
    requires i < |p.conns| && InLoop(p.conns[i]) && !p.conns[i].phase.Forward?
    ensures Continues(ps, es) && ps[0] == p && forall k :: 0 <= k < |es| ==> es[k].Do? && es[k].conn == i
    ensures var c, d := p.conns[i], ps[|es|].conns;
      i < |d| && d[i].written == c.written + InFlight(c) + Flat(c.queue)
    decreases ToWrite(p.conns[i])
  {
    var c := p.conns[i];
    if c.phase.Select? && c.queue == [] {
      ps, es := [p], [];
      assert c.written + [] + [] == c.written;
    } else {
      var a := if c.phase.Select? then Take else if c.phase.Taken? then RecordTaken else Write(|c.phase.rest|);
      OutwardShrinks(i, c, a, c.chan !in p.closed);
      DoShape(p, i, a);
      hide Local, Step, Flat, QueueSteps;
      var q := Step(p, Do(i, a));
      ps, es := Drain(q, i);
      Prepended(p, Do(i, a), ps, es);
      ps, es := [p] + ps, [Do(i, a)] + es;
    }
  }

  /** A read chunk can be forwarded, and the task is back in its select loop. */
  lemma Forwards(p: Plane, i: Id)
    requires i < |p.conns| && p.conns[i].phase.Forward? && p.conns[i].chan !in p.closed
    ensures Possible(p, Do(i, Record))
    ensures Step(p, Do(i, Record)).conns == p.conns[i := p.conns[i].(phase := Select)]
  {
    DoShape(p, i, Record);
  }

  /** The task is about to leave its loop, or has left it: it will write nothing more. */
  predicate Leaving(p: Plane, i: Id) {
    && i < |p.conns|
    && var c := p.conns[i];
       c.phase.Removing? || c.phase.Finished? || (c.phase.Forward? && c.chan in p.closed)
  }

  lemma LeavingStays(p: Plane, e: Event, i: Id)
    requires Possible(p, e) && Leaving(p, i)
    ensures Leaving(Step(p, e), i) && Step(p, e).conns[i].written == p.conns[i].written
  {
    hide Base64.Encode, Base64.Decode, Tag;
    if e.Do? {
      DoShape(p, e.conn, e.act);
      LocalShape(e.conn, p.conns[e.conn], e.act, p.conns[e.conn].chan !in p.closed);
      hide Step;
    }
  }

  lemma {:induction false} NothingWritten(ps: seq<Plane>, es: seq<Event>, k: nat, i: Id)
    requires Continues(ps, es) && k < |ps| && Leaving(ps[0], i)
    ensures Leaving(ps[k], i) && ps[k].conns[i].written == ps[0].conns[i].written
  {
    if k > 0 {
      NothingWritten(ps, es, k - 1, i);
      hide Step, Possible, Leaving;
      assert ps[k] == Step(ps[k - 1], es[k - 1]);
      LeavingStays(ps[k - 1], es[k - 1], i);
    }
  }

  /** In some continuation, everything that is queued or in flight for connection i is written. */
  ghost predicate CanDrain(p: Plane, i: Id)
    requires i < |p.conns|
  {
    exists ps, es :: Drained(p, ps, es, i)
  }

  ghost predicate Drained(p: Plane, ps: seq<Plane>, es: seq<Event>, i: Id)
    requires i < |p.conns|
  {
    && Continues(ps, es) && ps[0] == p && i < |ps[|es|].conns|
    && var c := p.conns[i];
       c.written + InFlight(c) + Flat(c.queue) <= ps[|es|].conns[i].written
  }

  lemma DrainsAfter(p: Plane, i: Id)
    requires i < |p.conns| && InLoop(p.conns[i]) && !Leaving(p, i)
    ensures CanDrain(p, i)
  {
    hide Local, Step, Flat, Possible;
    if p.conns[i].phase.Forward? {
      Forwards(p, i);
      var q := Step(p, Do(i, Record));
      var ps, es := Drain(q, i);
      Prepended(p, Do(i, Record), ps, es);
      assert Drained(p, [p] + ps, [Do(i, Record)] + es, i);
    } else {
      var ps, es := Drain(p, i);
      assert Drained(p, ps, es, i);
    }
  }

  /** Draining: while a task is in its loop, everything queued or in flight for its client can still be written, with
      or without a route, if and only if the task is not about to leave the loop on a refused send, or nothing is
      queued. */
  lemma DrainExact(p: Plane, i: Id)
    requires i < |p.conns| && InLoop(p.conns[i])
    ensures var c := p.conns[i];
      CanDrain(p, i) <==> !(c.phase.Forward? && c.chan in p.closed) || Flat(c.queue) == []
  {
    var c := p.conns[i];
    if !Leaving(p, i) {
      DrainsAfter(p, i);
    } else {
      hide Flat, Step, Possible;
      if Flat(c.queue) == [] {
        assert c.written + [] + [] == c.written;
        assert Drained(p, [p], [], i);
      }
      forall ps, es | Drained(p, ps, es, i) ensures Flat(c.queue) == [] {
        NothingWritten(ps, es, |es|, i);
        assert |c.written + [] + Flat(c.queue)| <= |c.written|;
      }
    }
  }
}
