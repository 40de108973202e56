/** The messages about client connections on the agents' channels, and views of a channel's history. */
module Messages {
  import opened Types
  import Base64

  datatype Msg =
    | NewConnection(tunnel: Id, conn: Id)
    | Data(conn: Id, payload: string)
    | CloseConnection(conn: Id)

  datatype Sent = Sent(chan: Id, msg: Msg)

  /** A Data message of the agent that decoded, and whether a route to the connection existed then. */
  datatype Handled = Handled(conn: Id, data: Bytes, routed: bool)

  /** The messages about one connection, in the order in which they were sent. */
  function Project(log: seq<Sent>, c: Id): seq<Msg> {
    if log == [] then []
    else
      var k := |log| - 1;
      Project(log[..k], c) + if log[k].msg.conn == c then [log[k].msg] else []
  }

  lemma ProjectMore(log: seq<Sent>, m: Sent, c: Id)
    ensures Project(log + [m], c) == Project(log, c) + if m.msg.conn == c then [m.msg] else []
  {
    assert (log + [m])[..|log|] == log;
  }

  function PayloadOf(m: Msg): Bytes {
    if m.Data? && Base64.Decode(m.payload).Some? then Base64.Decode(m.payload).value else []
  }

  /** The bytes an agent gets out of a sequence of messages. */
  function Decoded(ms: seq<Msg>): Bytes {
    if ms == [] then [] else Decoded(ms[..|ms| - 1]) + PayloadOf(ms[|ms| - 1])
  }

  lemma DecodedMore(ms: seq<Msg>, m: Msg)
    ensures Decoded(ms + [m]) == Decoded(ms) + PayloadOf(m)
  {
    assert (ms + [m])[..|ms|] == ms;
  }

  lemma DecodedData(ms: seq<Msg>, c: Id, chunk: Bytes)
    ensures Decoded(ms + [Data(c, Base64.Encode(chunk))]) == Decoded(ms) + chunk
  {
    Base64.RoundTrip(chunk);
    DecodedMore(ms, Data(c, Base64.Encode(chunk)));
  }

  /** A prefix of NewConnection, Data*, CloseConnection. */
  predicate Grammar(ms: seq<Msg>) {
    forall i :: 0 <= i < |ms| ==> (ms[i].NewConnection? <==> i == 0) && (ms[i].CloseConnection? ==> i == |ms| - 1)
  }

  /** The same, with the end still to come. */
  predicate OpenGrammar(ms: seq<Msg>) {
    ms != [] && forall i :: 0 <= i < |ms| ==> (ms[i].NewConnection? <==> i == 0) && !ms[i].CloseConnection?
  }

  lemma OpenExtends(ms: seq<Msg>, m: Msg)
    requires OpenGrammar(ms) && !m.NewConnection?
    ensures Grammar(ms + [m]) && (m.Data? ==> OpenGrammar(ms + [m]))
  {
  }

  /** The bytes the agent had routed to a connection, in the order in which they were handled. */
  function Routed(handled: seq<Handled>, c: Id): Bytes {
    if handled == [] then []
    else
      var k := |handled| - 1;
      Routed(handled[..k], c) + if handled[k].conn == c && handled[k].routed then handled[k].data else []
  }

  lemma RoutedMore(handled: seq<Handled>, h: Handled, c: Id)
    ensures Routed(handled + [h], c) == Routed(handled, c) + if h.conn == c && h.routed then h.data else []
  {
    assert (handled + [h])[..|handled|] == handled;
  }

  function Flat(queue: seq<Bytes>): Bytes {
    if queue == [] then [] else queue[0] + Flat(queue[1..])
  }

  lemma {:induction false} FlatMore(queue: seq<Bytes>, data: Bytes)
    ensures Flat(queue + [data]) == Flat(queue) + data
  {
    if queue == [] {
      assert queue + [data] == [data] && [data][1..] == [];
      assert data + [] == data;
    } else {
      FlatMore(queue[1..], data);
      assert (queue + [data])[1..] == queue[1..] + [data];
      assert queue[0] + (Flat(queue[1..]) + data) == queue[0] + Flat(queue[1..]) + data;
    }
  }

  // ---------- the same views, datagram by datagram ----------

  function Payloads(ms: seq<Msg>): seq<Bytes> {
    if ms == [] then []
    else Payloads(ms[..|ms| - 1]) + if ms[|ms| - 1].Data? then [PayloadOf(ms[|ms| - 1])] else []
  }

  lemma PayloadsMore(ms: seq<Msg>, m: Msg)
    ensures Payloads(ms + [m]) == Payloads(ms) + if m.Data? then [PayloadOf(m)] else []
  {
    assert (ms + [m])[..|ms|] == ms;
  }

  function RoutedList(handled: seq<Handled>, c: Id): seq<Bytes> {
    if handled == [] then []
    else
      var k := |handled| - 1;
      RoutedList(handled[..k], c) + if handled[k].conn == c && handled[k].routed then [handled[k].data] else []
  }

  lemma RoutedListMore(handled: seq<Handled>, h: Handled, c: Id)
    ensures RoutedList(handled + [h], c) == RoutedList(handled, c) + if h.conn == c && h.routed then [h.data] else []
  {
    assert (handled + [h])[..|handled|] == handled;
  }
}
