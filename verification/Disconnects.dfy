/** What a socket takes down when it disconnects. */
module Disconnects {
  import opened Types
  import opened World
  import opened Listeners
  import opened Registry

  /** Exactly the senders, the listeners and the waiting entries on channel s are gone. */
  ghost predicate TakesDown(w: World, v: World, s: Id) {
    && (forall a :: a in w.senders ==> (a in v.senders <==> w.senders[a] != s))
    && (forall t :: t in w.net.tasks ==> (t in v.net.tasks <==> w.net.tasks[t].chan != s))
    && (forall l :: l in w.net.live ==> (l in v.net.live <==> l.chan != s))
    && (forall c :: c in w.pending ==> (c in v.pending <==> w.pending[c] != s))
  }

  /** The socket is the sender of the agent it authenticated as, and of no other; it waits on its current claim code,
      and on no other; and no listener without a row is on its channel. */
  ghost predicate Settled(w: World, s: Id)
    requires s in w.sessions
  {
    && (forall a :: a in w.senders ==> (w.senders[a] == s <==> w.sessions[s].agent == Some(a)))
    && (forall c :: c in w.pending ==> (w.pending[c] == s <==> w.sessions[s].code == Some(c)))
    && (forall t :: t in w.net.tasks && t !in w.db.tunnels ==> w.net.tasks[t].chan != s)
  }

  /** The rows whose listeners the disconnect stops. */
  ghost function StoppedRows(w: World, s: Id): set<Id>
    requires s in w.sessions
  {
    if w.sessions[s].agent.Some? then RowsOf(w.db.tunnels, w.sessions[s].agent.value) else {}
  }

  lemma DisconnectStops(w: World, s: Id)
    requires WiredWorld(w) && s in w.sessions
    ensures var v := Disconnect(w, s); var ids := StoppedRows(w, s);
      && (forall a :: a in v.senders <==> a in w.senders && w.sessions[s].agent != Some(a))
      && (forall t :: t in v.net.tasks <==> t in w.net.tasks && t !in ids)
      && (forall l :: l in v.net.live <==> l in w.net.live && l.tunnel !in ids)
      && (forall c :: c in v.pending <==> c in w.pending && w.sessions[s].code != Some(c))
  {
    var v, ids := Disconnect(w, s), StoppedRows(w, s);
    forall l | l in w.net.live ensures l in v.net.live <==> l.tunnel !in ids {
      var gone := set t | t in ids && t in w.net.tasks :: w.net.tasks[t];
      assert l in gone <==> l.tunnel in ids;
    }
  }

  /** Disconnecting takes down the senders, listeners and waiting entries on the socket's channel, and no others, if
      and only if the socket is settled. */
  lemma DisconnectExact(w: World, s: Id)
    requires WiredWorld(w) && s in w.sessions
    ensures TakesDown(w, Disconnect(w, s), s) <==> Settled(w, s)
  {
    hide Disconnect, Wired;
    DisconnectStops(w, s);
    var v := Disconnect(w, s);
    RowsOnChannels(w);
    if Settled(w, s) {
      forall t | t in w.net.tasks ensures t in StoppedRows(w, s) <==> w.net.tasks[t].chan == s {
      }
    }
  }

  /** A registered listener of a row is on the channel of its agent, and a running listener is registered. */
  lemma RowsOnChannels(w: World)
    requires WiredWorld(w)
    ensures forall t :: t in w.db.tunnels && t in w.net.tasks ==>
      w.db.tunnels[t].agent in w.senders && w.net.tasks[t].chan == w.senders[w.db.tunnels[t].agent]
    ensures forall l :: l in w.net.live ==> l.tunnel in w.net.tasks && w.net.tasks[l.tunnel] == l
  {
    forall t | t in w.db.tunnels && t in w.net.tasks
      ensures w.db.tunnels[t].agent in w.senders && w.net.tasks[t].chan == w.senders[w.db.tunnels[t].agent]
    {
      assert RowAgrees(w.db.tunnels, w.senders, w.net, t);
    }
  }
}
