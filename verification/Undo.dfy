/** Handlers that take one another back. */
module Undo {
  import opened Types
  import opened Strings
  import opened World
  import opened Lifecycle
  import opened Listeners
  import opened Registry

  lemma NewListenerRemoved(n: Net, l: Listener)
    requires Registered(n) && l.tunnel !in n.tasks
    ensures Abort(n.(tasks := n.tasks[l.tunnel := l], live := n.live + {l}), {l.tunnel}) == n
  {
    var m := n.(tasks := n.tasks[l.tunnel := l], live := n.live + {l});
    assert l.tunnel in m.tasks && m.tasks[l.tunnel] == l;
    assert (set t | t in {l.tunnel} && t in m.tasks :: m.tasks[t]) == {l};
    assert m.tasks - {l.tunnel} == n.tasks;
    assert m.live - {l} == n.live;
  }

  lemma StartedThenReleased(n: Net, tunnels: map<Id, Tunnel>, c: Config, chan: Id, luck: set<Id>)
    requires Registered(n) && c.id !in n.tasks && c.publicPort !in n.reserved
    requires c.id in tunnels && tunnels[c.id].publicPort == c.publicPort
    ensures var m := n.(reserved := n.reserved + {c.publicPort});
      Release(m, tunnels, {c.id}) == n && Release(StartListener(m, c, chan, luck), tunnels, {c.id}) == n
  {
    var m := n.(reserved := n.reserved + {c.publicPort});
    assert (set t | t in {c.id} :: tunnels[t].publicPort) == {c.publicPort};
    assert m.reserved - {c.publicPort} == n.reserved;
    NothingToAbort(m, c.id);
    NewListenerRemoved(m, ListenerOf(c, chan));
  }

  /** Deleting the tunnel that was just created restores the tables and the listeners, reservation included;
      what remains is what was sent, and that the id is used up. */
  lemma CreateThenDelete(w: World, uid: Id, agent: Id, name: string, localPort: Port, protocol: string,
                         subdomain: Option<string>, now: int, luck: set<Id>)
    requires Tables(w) && WiredWorld(w)
    ensures var (v, reply) := CreateTunnel(w, uid, agent, name, localPort, protocol, subdomain, now, luck);
      reply.Created? ==>
        var u := DeleteTunnel(v, reply.id);
        u == w.(out := u.out, next := w.next + 1, creator := w.creator[w.next := uid])
        && (agent in w.senders ==>
              |u.out| == |w.out| + 2 && u.out[|w.out|].msg.StartTunnel?
              && u.out[|w.out|..] == [u.out[|w.out|], Sent(w.senders[agent], StopTunnel(reply.id))])
        && (agent !in w.senders ==> u.out == w.out)
  {
    hide Clean, SubdomainTaken, StartListener, Release, TablesOk;
    var (v, reply) := CreateTunnel(w, uid, agent, name, localPort, protocol, subdomain, now, luck);
    if reply.Created? {
      FreshRow(w);
      var row := v.db.tunnels[w.next];
      var chan := if agent in w.senders then w.senders[agent] else 0;
      StartedThenReleased(w.net, v.db.tunnels, ConfigOf(w.next, row), chan, luck);
      assert v.db.tunnels - {w.next} == w.db.tunnels;
    }
  }

  lemma FreshRow(w: World)
    requires Tables(w) && WiredWorld(w)
    ensures w.next !in w.db.tunnels && w.next !in w.net.tasks && Registered(w.net)
  {
  }

  lemma ReleasedThenStarted(n: Net, tunnels: map<Id, Tunnel>, c: Config, chan: Id, luck: set<Id>)
    requires Registered(n) && c.id in n.tasks && n.tasks[c.id] == ListenerOf(c, chan) && n.tasks[c.id] in n.live
    requires c.id in tunnels && tunnels[c.id].publicPort == c.publicPort && c.publicPort in n.reserved && c.id in luck
    ensures var m := Release(n, tunnels, {c.id});
      StartListener(m.(reserved := m.reserved + {c.publicPort}), c, chan, luck) == n
  {
    var l, m := n.tasks[c.id], Release(n, tunnels, {c.id});
    assert (set t | t in {c.id} :: tunnels[t].publicPort) == {c.publicPort};
    assert (set t | t in {c.id} && t in n.tasks :: n.tasks[t]) == {l};
    var r := m.(reserved := m.reserved + {c.publicPort});
    assert r.reserved == n.reserved && r.tasks == n.tasks - {c.id} && r.live == n.live - {l};
    NothingToAbort(r, c.id);
    assert !Busy(r, l.kind, l.port);
    assert r.tasks[c.id := l] == n.tasks && r.live + {l} == n.live;
  }

  /** Switching a listening tunnel off and on again restores rows, listeners and reservations, if the bind is
      granted. */
  lemma ToggleTwice(w: World, tid: Id, luck: set<Id>)
    requires WiredWorld(w) && tid in w.db.tunnels && tid in w.net.tasks && tid in luck
    requires w.net.tasks[tid] in w.net.live && w.db.tunnels[tid].publicPort in w.net.reserved
    ensures var u := ToggleTunnel(ToggleTunnel(w, tid, luck).0, tid, luck).0;
      u == w.(out := u.out)
  {
    hide StartListener, Release;
    var v := ToggleTunnel(w, tid, luck).0;
    var u := ToggleTunnel(v, tid, luck).0;
    assert RowAgrees(w.db.tunnels, w.senders, w.net, tid);
    var row := w.db.tunnels[tid];
    ReleasedThenStarted(w.net, w.db.tunnels, ConfigOf(tid, row), w.senders[row.agent], luck);
    assert v.db.tunnels[tid := row] == w.db.tunnels;
  }
}
