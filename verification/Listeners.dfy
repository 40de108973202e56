/** The listener registry: what starting, stopping and resynchronising listeners keep and achieve. */
module Listeners {
  import opened Types
  import opened World

  /** Handles are filed under their tunnel, every running listener is filed, and no two running listeners
      hold the same address. */
  ghost predicate Registered(n: Net) {
    && (forall t :: t in n.tasks ==> n.tasks[t].tunnel == t)
    && (forall l :: l in n.live ==> l.tunnel in n.tasks && n.tasks[l.tunnel] == l)
    && (forall l, m :: l in n.live && m in n.live && l.kind == m.kind && l.port == m.port ==> l == m)
  }

  /** Every handle was opened on the dedicated port of the user who created its tunnel. */
  ghost predicate AtHome(n: Net, users: map<Id, User>, creator: map<Id, Id>) {
    forall t :: t in n.tasks ==>
      t in creator && creator[t] in users && n.tasks[t].port == users[creator[t]].dedicatedPort
  }

  ghost predicate NetOk(n: Net, users: map<Id, User>, creator: map<Id, Id>) {
    Registered(n) && AtHome(n, users, creator)
  }

  lemma AbortOk(n: Net, users: map<Id, User>, creator: map<Id, Id>, ids: set<Id>, reserved: set<Port>)
    requires NetOk(n, users, creator)
    ensures NetOk(Abort(n, ids).(reserved := reserved), users, creator)
  {
    var m := Abort(n, ids);
    forall l | l in n.live && l.tunnel in ids ensures l !in m.live {
      assert l in set t | t in ids && t in n.tasks :: n.tasks[t];
    }
  }

  ghost predicate ConfigHome(c: Config, users: map<Id, User>, creator: map<Id, Id>) {
    c.id in creator && creator[c.id] in users && c.publicPort == users[creator[c.id]].dedicatedPort
  }

  lemma StartOk(n: Net, users: map<Id, User>, creator: map<Id, Id>, c: Config, chan: Id, luck: set<Id>)
    requires NetOk(n, users, creator) && ConfigHome(c, users, creator)
    ensures NetOk(StartListener(n, c, chan, luck), users, creator)
  {
    AbortOk(n, users, creator, {c.id}, n.reserved);
  }

  lemma {:induction false} SyncOk(n: Net, users: map<Id, User>, creator: map<Id, Id>, cs: seq<Config>, chan: Id,
                                  luck: set<Id>)
    requires NetOk(n, users, creator)
    requires forall i :: 0 <= i < |cs| ==> ConfigHome(cs[i], users, creator)
    ensures NetOk(SyncRows(n, cs, chan, luck), users, creator)
  {
    if cs != [] {
      var k := |cs| - 1;
      SyncOk(n, users, creator, cs[..k], chan, luck);
      var m := SyncRows(n, cs[..k], chan, luck);
      StartOk(m.(reserved := m.reserved + {cs[k].publicPort}), users, creator, cs[k], chan, luck);
    }
  }

  // ---------- agreement between registry and rows ----------

  /** If the row has a registered listener, it is enabled, its agent has a sender, and the listener was started
      with the row's present port and protocol and with that sender. */
  ghost predicate RowAgrees(tunnels: map<Id, Tunnel>, senders: map<Id, Id>, n: Net, t: Id) {
    t in tunnels && t in n.tasks ==>
      && tunnels[t].enabled
      && tunnels[t].agent in senders
      && n.tasks[t] == ListenerOf(ConfigOf(t, tunnels[t]), senders[tunnels[t].agent])
  }

  ghost predicate Agree(tunnels: map<Id, Tunnel>, senders: map<Id, Id>, n: Net) {
    forall t :: RowAgrees(tunnels, senders, n, t)
  }

  ghost predicate DistinctIds(cs: seq<Config>) {
    forall i, j :: 0 <= i < j < |cs| ==> cs[i].id != cs[j].id
  }

  /** Resynchronising leaves the handle of a tunnel alone unless its row is listed and enabled, and then
      any handle is one the listed row describes. */
  lemma {:induction false} SyncEffect(n: Net, cs: seq<Config>, chan: Id, luck: set<Id>, t: Id)
    requires DistinctIds(cs)
    ensures var m := SyncRows(n, cs, chan, luck);
      && ((forall i :: 0 <= i < |cs| && cs[i].id == t ==> !cs[i].enabled) ==>
            (t in m.tasks <==> t in n.tasks) && (t in n.tasks ==> m.tasks[t] == n.tasks[t]))
      && (forall i :: 0 <= i < |cs| && cs[i].id == t && cs[i].enabled && t in m.tasks ==>
            m.tasks[t] == ListenerOf(cs[i], chan))
  {
    if cs != [] {
      SyncEffect(n, cs[..|cs| - 1], chan, luck, t);
    }
  }

  lemma SyncAgrees(tunnels: map<Id, Tunnel>, senders: map<Id, Id>, n: Net, a: Id, rows: seq<Id>, luck: set<Id>)
    requires IsListing(tunnels, a, rows) && a in senders
    requires forall t :: t in tunnels && tunnels[t].agent != a ==> RowAgrees(tunnels, senders, n, t)
    requires forall t :: t in tunnels && tunnels[t].agent == a && t in n.tasks ==> tunnels[t].enabled
    ensures Agree(tunnels, senders, SyncRows(n, Configs(tunnels, rows), senders[a], luck))
  {
    var cs := Configs(tunnels, rows);
    forall t ensures RowAgrees(tunnels, senders, SyncRows(n, cs, senders[a], luck), t) {
      SyncEffect(n, cs, senders[a], luck, t);
      if t in tunnels && tunnels[t].agent == a {
        assert t in rows;
        var i :| 0 <= i < |rows| && rows[i] == t;
        assert cs[i].id == t;
        if !cs[i].enabled {
          assert forall j :: 0 <= j < |cs| && cs[j].id == t ==> j == i;
        }
      }
    }
  }

  // ---------- the exact result of a resynchronisation ----------

  ghost predicate SameAddress(c: Config, d: Config) {
    KindOf(c.protocol) == KindOf(d.protocol) && c.publicPort == d.publicPort
  }

  ghost predicate Held(n: Net, c: Config) { Busy(n, KindOf(c.protocol), c.publicPort) }

  /** The i-th row is the first enabled one for an address that no listener held beforehand. */
  ghost predicate Wins(n: Net, cs: seq<Config>, i: nat)
    requires i < |cs|
  {
    && cs[i].enabled && !Held(n, cs[i])
    && forall j :: 0 <= j < i && cs[j].enabled ==> !SameAddress(cs[j], cs[i])
  }

  ghost function Winners(n: Net, cs: seq<Config>): set<nat> { set i: nat | i < |cs| && Wins(n, cs, i) }

  ghost function WonListeners(n: Net, cs: seq<Config>, chan: Id): set<Listener> {
    set i | i in Winners(n, cs) :: ListenerOf(cs[i], chan)
  }

  ghost function WonIds(n: Net, cs: seq<Config>): set<Id> { set i | i in Winners(n, cs) :: cs[i].id }

  ghost function EnabledPorts(cs: seq<Config>): set<Port> {
    set i | 0 <= i < |cs| && cs[i].enabled :: cs[i].publicPort
  }

  /** Net m is net n with some more listeners running, registered for some more tunnels. */
  ghost predicate Extended(n: Net, listeners: set<Listener>, ports: set<Port>, ids: set<Id>, m: Net) {
    && m.live == n.live + listeners
    && m.reserved == n.reserved + ports
    && m.tasks.Keys == n.tasks.Keys + ids
    && (forall t :: t in n.tasks ==> m.tasks[t] == n.tasks[t])
    && (forall t :: t in ids && t in m.tasks ==> m.tasks[t].tunnel == t && m.tasks[t] in listeners)
  }

  /** Net m is net n after listening for exactly the winners and reserving every enabled row's port. */
  ghost predicate Synced(n: Net, cs: seq<Config>, chan: Id, m: Net) {
    Extended(n, WonListeners(n, cs, chan), EnabledPorts(cs), WonIds(n, cs), m)
  }

  /** An address is held after a prefix of the rows exactly when it was held before or is in the prefix. */
  lemma HeldAfter(n: Net, cs: seq<Config>, chan: Id, m: Net, c: Config)
    requires m.live == n.live + WonListeners(n, cs, chan)
    ensures Held(m, c) <==> Held(n, c) || exists j :: 0 <= j < |cs| && cs[j].enabled && SameAddress(cs[j], c)
  {
    if Held(n, c) {
      var l :| l in n.live && l.kind == KindOf(c.protocol) && l.port == c.publicPort;
      assert l in m.live;
    }
    if j :| 0 <= j < |cs| && cs[j].enabled && SameAddress(cs[j], c) && !Held(n, c) {
      var i := FirstAt(cs, j);
      assert i in Winners(n, cs);
      assert ListenerOf(cs[i], chan) in m.live;
    }
    if Held(m, c) {
      var l :| l in m.live && l.kind == KindOf(c.protocol) && l.port == c.publicPort;
      if l !in n.live {
        var i :| i in Winners(n, cs) && l == ListenerOf(cs[i], chan);
        assert SameAddress(cs[i], c);
      }
    }
  }

  lemma {:induction false} FirstAt(cs: seq<Config>, j: nat) returns (i: nat)
    requires j < |cs| && cs[j].enabled
    ensures i <= j && cs[i].enabled && SameAddress(cs[i], cs[j])
    ensures forall k :: 0 <= k < i && cs[k].enabled ==> !SameAddress(cs[k], cs[i])
  {
    if k :| 0 <= k < j && cs[k].enabled && SameAddress(cs[k], cs[j]) {
      i := FirstAt(cs, k);
    } else {
      i := j;
    }
  }

  lemma WinnersGrow(n: Net, cs: seq<Config>)
    requires cs != []
    ensures var k := |cs| - 1;
      Winners(n, cs) == Winners(n, cs[..k]) + if Wins(n, cs, k) then {k} else {}
  {
    var k := |cs| - 1;
    forall i: nat | i < k ensures Wins(n, cs, i) <==> Wins(n, cs[..k], i) {
      assert forall j :: 0 <= j <= i ==> cs[..k][j] == cs[j];
    }
  }

  lemma PortsGrow(cs: seq<Config>)
    requires cs != []
    ensures var k := |cs| - 1;
      EnabledPorts(cs) == EnabledPorts(cs[..k]) + if cs[k].enabled then {cs[k].publicPort} else {}
  {
    var k := |cs| - 1;
    forall p | p in EnabledPorts(cs)
      ensures p in EnabledPorts(cs[..k]) + if cs[k].enabled then {cs[k].publicPort} else {}
    {
      var i :| 0 <= i < |cs| && cs[i].enabled && cs[i].publicPort == p;
      assert i < k ==> cs[..k][i] == cs[i];
    }
    forall p | p in EnabledPorts(cs[..k]) ensures p in EnabledPorts(cs) {
      var i :| 0 <= i < k && cs[..k][i].enabled && cs[..k][i].publicPort == p;
      assert cs[i].enabled;
    }
  }

  lemma ListenersGrow(n: Net, cs: seq<Config>, chan: Id)
    requires cs != []
    ensures var k := |cs| - 1;
      WonListeners(n, cs, chan) ==
        WonListeners(n, cs[..k], chan) + if Wins(n, cs, k) then {ListenerOf(cs[k], chan)} else {}
  {
    WinnersGrow(n, cs);
    hide Wins, ListenerOf;
    var k := |cs| - 1;
    forall l | l in WonListeners(n, cs[..k], chan) ensures l in WonListeners(n, cs, chan) {
      var i :| i in Winners(n, cs[..k]) && l == ListenerOf(cs[..k][i], chan);
      assert i in Winners(n, cs) && l == ListenerOf(cs[i], chan);
    }
    forall l | l in WonListeners(n, cs, chan)
      ensures l in WonListeners(n, cs[..k], chan) + if Wins(n, cs, k) then {ListenerOf(cs[k], chan)} else {}
    {
      var i :| i in Winners(n, cs) && l == ListenerOf(cs[i], chan);
      assert i < k ==> i in Winners(n, cs[..k]) && cs[..k][i] == cs[i];
    }
  }

  lemma IdsGrow(n: Net, cs: seq<Config>)
    requires cs != []
    ensures var k := |cs| - 1;
      WonIds(n, cs) == WonIds(n, cs[..k]) + if Wins(n, cs, k) then {cs[k].id} else {}
  {
    WinnersGrow(n, cs);
    hide Wins;
    var k := |cs| - 1;
    forall t | t in WonIds(n, cs[..k]) ensures t in WonIds(n, cs) {
      var i :| i in Winners(n, cs[..k]) && t == cs[..k][i].id;
      assert i in Winners(n, cs) && t == cs[i].id;
    }
    forall t | t in WonIds(n, cs)
      ensures t in WonIds(n, cs[..k]) + if Wins(n, cs, k) then {cs[k].id} else {}
    {
      var i :| i in Winners(n, cs) && t == cs[i].id;
      assert i < k ==> i in Winners(n, cs[..k]) && cs[..k][i] == cs[i];
    }
  }

  /** With none of the listed tunnels listening before, and binds that fail only on a held address, exactly
      the winners end up running and registered, and the ports of all enabled rows are reserved. */
  lemma {:induction false} SyncResult(n: Net, cs: seq<Config>, chan: Id, luck: set<Id>)
    requires DistinctIds(cs)
    requires forall i :: 0 <= i < |cs| ==> cs[i].id !in n.tasks && cs[i].id in luck
    ensures Synced(n, cs, chan, SyncRows(n, cs, chan, luck))
  {
    if cs == [] {
      assert Winners(n, cs) == {} && EnabledPorts(cs) == {};
    } else {
      var k := |cs| - 1;
      assert forall j :: 0 <= j < k ==> cs[..k][j] == cs[j];
      SyncResult(n, cs[..k], chan, luck);
      var m := SyncRows(n, cs[..k], chan, luck);
      SyncLast(n, cs, chan, luck, m);
      SyncedGrow(n, cs, chan, m, SyncOne(m, cs[k], chan, luck));
    }
  }

  /** What the last row of a listing does. */
  ghost predicate LastDone(n: Net, cs: seq<Config>, chan: Id, m: Net, m': Net)
    requires cs != []
  {
    var c := cs[|cs| - 1];
    && m'.reserved == m.reserved + (if c.enabled then {c.publicPort} else {})
    && m'.live == m.live + (if Wins(n, cs, |cs| - 1) then {ListenerOf(c, chan)} else {})
    && m'.tasks == if Wins(n, cs, |cs| - 1) then m.tasks[c.id := ListenerOf(c, chan)] else m.tasks
  }

  lemma ExtendedMore(n: Net, ls: set<Listener>, ps: set<Port>, ids: set<Id>, m: Net, l: Listener, more: set<Port>)
    requires Extended(n, ls, ps, ids, m) && l.tunnel !in n.tasks && l.tunnel !in ids
    ensures Extended(n, ls + {l}, ps + more, ids + {l.tunnel},
                     Net(m.reserved + more, m.tasks[l.tunnel := l], m.live + {l}))
    ensures Extended(n, ls, ps + more, ids, m.(reserved := m.reserved + more))
  {
  }

  lemma SyncedGrow(n: Net, cs: seq<Config>, chan: Id, m: Net, m': Net)
    requires cs != [] && cs[|cs| - 1].id !in n.tasks && cs[|cs| - 1].id !in WonIds(n, cs[..|cs| - 1])
    requires Synced(n, cs[..|cs| - 1], chan, m) && LastDone(n, cs, chan, m, m')
    ensures Synced(n, cs, chan, m')
  {
    hide Wins, Winners, WonListeners, WonIds, EnabledPorts, Extended;
    PortsGrow(cs);
    ListenersGrow(n, cs, chan);
    IdsGrow(n, cs);
    var c, before := cs[|cs| - 1], cs[..|cs| - 1];
    ExtendedMore(n, WonListeners(n, before, chan), EnabledPorts(before), WonIds(n, before), m, ListenerOf(c, chan),
                 if c.enabled then {c.publicPort} else {});
    if Wins(n, cs, |cs| - 1) {
      assert m' == Net(m'.reserved, m.tasks[c.id := ListenerOf(c, chan)], m.live + {ListenerOf(c, chan)});
    } else {
      assert m' == m.(reserved := m'.reserved);
      assert WonListeners(n, cs, chan) == WonListeners(n, before, chan) && WonIds(n, cs) == WonIds(n, before);
    }
  }

  lemma SyncLast(n: Net, cs: seq<Config>, chan: Id, luck: set<Id>, m: Net)
    requires DistinctIds(cs) && cs != []
    requires forall i :: 0 <= i < |cs| ==> cs[i].id !in n.tasks && cs[i].id in luck
    requires Synced(n, cs[..|cs| - 1], chan, m)
    ensures LastDone(n, cs, chan, m, SyncOne(m, cs[|cs| - 1], chan, luck))
  {
    hide Wins, WonListeners, EnabledPorts, WonIds;
    var k := |cs| - 1;
    var c := cs[k];
    LastWins(n, cs, chan, m);
    var r := m.(reserved := m.reserved + {c.publicPort});
    NothingToAbort(r, c.id);
    assert Held(r, c) == Held(m, c);
  }

  lemma LastWins(n: Net, cs: seq<Config>, chan: Id, m: Net)
    requires DistinctIds(cs) && cs != [] && forall i :: 0 <= i < |cs| ==> cs[i].id !in n.tasks
    requires Synced(n, cs[..|cs| - 1], chan, m)
    ensures cs[|cs| - 1].id !in m.tasks
    ensures Wins(n, cs, |cs| - 1) <==> cs[|cs| - 1].enabled && !Held(m, cs[|cs| - 1])
  {
    hide WonListeners, EnabledPorts, Held;
    var k := |cs| - 1;
    assert forall j :: 0 <= j < k ==> cs[..k][j] == cs[j];
    assert cs[k].id !in WonIds(n, cs[..k]);
    HeldAfter(n, cs[..k], chan, m, cs[k]);
  }

  // ---------- what an agent is told ----------

  /** The configuration an agent gets is the row, field by field. */
  ghost predicate Describes(c: Config, t: Id, row: Tunnel) {
    && c.id == t && c.agent == row.agent && c.name == row.name && c.localPort == row.localPort
    && c.protocol == row.protocol && c.publicPort == row.publicPort && c.subdomain == row.subdomain
    && c.enabled == row.enabled
  }

  /** A list for one agent: every row of the agent once, oldest first, each as it is stored. */
  ghost predicate Lists(tunnels: map<Id, Tunnel>, agent: Id, cs: seq<Config>) {
    && (forall i :: 0 <= i < |cs| ==>
          cs[i].id in tunnels && tunnels[cs[i].id].agent == agent && Describes(cs[i], cs[i].id, tunnels[cs[i].id]))
    && (forall t :: t in tunnels && tunnels[t].agent == agent ==> exists i :: 0 <= i < |cs| && cs[i].id == t)
    && DistinctIds(cs)
    && (forall i, j :: 0 <= i < j < |cs| && cs[i].id in tunnels && cs[j].id in tunnels ==>
          tunnels[cs[i].id].createdAt <= tunnels[cs[j].id].createdAt)
  }

  lemma ListsExact(tunnels: map<Id, Tunnel>, agent: Id, rows: seq<Id>)
    requires IsListing(tunnels, agent, rows)
    ensures var cs := Configs(tunnels, rows);
      Lists(tunnels, agent, cs) && |cs| == |rows| && forall i :: 0 <= i < |cs| ==> cs[i].id == rows[i]
  {
    var cs := Configs(tunnels, rows);
    forall t | t in tunnels && tunnels[t].agent == agent ensures exists i :: 0 <= i < |cs| && cs[i].id == t {
      assert t in rows;
      var i :| 0 <= i < |rows| && rows[i] == t;
      assert cs[i].id == t;
    }
  }

  /** `sync_agent_tunnels` for an agent none of whose tunnels is listening: the winners among all its rows,
      oldest first, end up listening, and one SyncTunnels lists every row of the agent once, in that order. */
  lemma SyncExact(w: World, agent: Id, chan: Id, rows: seq<Id>, luck: set<Id>)
    requires IsListing(w.db.tunnels, agent, rows)
    requires forall t :: t in w.db.tunnels && w.db.tunnels[t].agent == agent ==> t !in w.net.tasks && t in luck
    ensures var v, cs := Sync(w, chan, rows, luck), Configs(w.db.tunnels, rows);
      && Synced(w.net, cs, chan, v.net)
      && v.out == w.out + [Sent(chan, SyncTunnels(cs))]
      && Lists(w.db.tunnels, agent, cs) && |cs| == |rows| && forall i :: 0 <= i < |cs| ==> cs[i].id == rows[i]
  {
    var cs := Configs(w.db.tunnels, rows);
    ListsExact(w.db.tunnels, agent, rows);
    hide SyncRows, Synced, Lists;
    SyncResult(w.net, cs, chan, luck);
  }

  // ---------- resynchronising whatever listens ----------

  /** The tunnels of the enabled rows. */
  ghost function EnabledIds(cs: seq<Config>): set<Id> { set i | 0 <= i < |cs| && cs[i].enabled :: cs[i].id }

  /** A listener that no enabled row up to the i-th one replaces holds the i-th row's address. */
  ghost predicate HeldByOther(n: Net, cs: seq<Config>, i: nat)
    requires i < |cs|
  {
    exists l :: l in n.live && l.tunnel !in EnabledIds(cs[..i + 1])
                && l.kind == KindOf(cs[i].protocol) && l.port == cs[i].publicPort
  }

  /** The i-th row gets its address: it is enabled, the system would grant its bind, and neither a listener that is
      still there nor an earlier row that got the address is in its way. */
  ghost predicate Gets(n: Net, luck: set<Id>, cs: seq<Config>, i: nat)
    requires i < |cs|
    decreases i
  {
    && cs[i].enabled && cs[i].id in luck && !HeldByOther(n, cs, i)
    && forall j :: 0 <= j < i && SameAddress(cs[j], cs[i]) ==> !Gets(n, luck, cs, j)
  }

  /** The listeners of the first k rows that got their addresses, and the old ones that no row in ids replaces. */
  ghost predicate ListenersAre(n: Net, luck: set<Id>, cs: seq<Config>, k: nat, ids: set<Id>, chan: Id,
                               live: set<Listener>)
    requires k <= |cs|
  {
    forall l :: l in live <==>
      (l in n.live && l.tunnel !in ids)
      || exists i :: 0 <= i < k && Gets(n, luck, cs, i) && l == ListenerOf(cs[i], chan)
  }

  /** The row has an entry exactly if it got its address, and then the entry is its new listener. */
  ghost predicate EntryIs(c: Config, got: bool, chan: Id, tasks: map<Id, Listener>) {
    (c.id in tasks <==> got) && (got ==> tasks[c.id] == ListenerOf(c, chan))
  }

  /** The entries of the enabled rows are those of the rows that got their addresses; no other entry changes. */
  ghost predicate EntriesAre(n: Net, luck: set<Id>, cs: seq<Config>, chan: Id, tasks: map<Id, Listener>) {
    && (forall t :: t !in EnabledIds(cs) ==>
          (t in tasks <==> t in n.tasks) && (t in n.tasks ==> tasks[t] == n.tasks[t]))
    && (forall i :: 0 <= i < |cs| && cs[i].enabled ==> EntryIs(cs[i], Gets(n, luck, cs, i), chan, tasks))
  }

  /** Net m is net n with the enabled rows' listeners replaced by those of the rows that got their addresses. */
  ghost predicate Resynced(n: Net, luck: set<Id>, cs: seq<Config>, chan: Id, m: Net) {
    && m.reserved == n.reserved + EnabledPorts(cs)
    && ListenersAre(n, luck, cs, |cs|, EnabledIds(cs), chan, m.live)
    && EntriesAre(n, luck, cs, chan, m.tasks)
  }

  lemma {:induction false} GetsPrefix(n: Net, luck: set<Id>, cs: seq<Config>, k: nat, i: nat)
    requires i < k <= |cs|
    ensures Gets(n, luck, cs[..k], i) <==> Gets(n, luck, cs, i)
    decreases i
  {
    assert cs[..k][..i + 1] == cs[..i + 1] && cs[..k][i] == cs[i];
    forall j | 0 <= j < i ensures cs[..k][j] == cs[j] && (Gets(n, luck, cs[..k], j) <==> Gets(n, luck, cs, j)) {
      GetsPrefix(n, luck, cs, k, j);
    }
  }

  lemma IdsMore(cs: seq<Config>)
    requires cs != []
    ensures var k := |cs| - 1;
      EnabledIds(cs) == EnabledIds(cs[..k]) + if cs[k].enabled then {cs[k].id} else {}
  {
    var k := |cs| - 1;
    forall t | t in EnabledIds(cs) ensures t in EnabledIds(cs[..k]) + if cs[k].enabled then {cs[k].id} else {} {
      var i :| 0 <= i < |cs| && cs[i].enabled && cs[i].id == t;
      assert i < k ==> cs[..k][i] == cs[i];
    }
    forall t | t in EnabledIds(cs[..k]) ensures t in EnabledIds(cs) {
      var i :| 0 <= i < k && cs[..k][i].enabled && cs[..k][i].id == t;
      assert cs[i].enabled && cs[i].id == t;
    }
  }

  /** The listeners of a prefix of the rows, told with all rows in view. */
  lemma ListenersPrefix(n: Net, luck: set<Id>, cs: seq<Config>, k: nat, ids: set<Id>, chan: Id, live: set<Listener>)
    requires k <= |cs| && ListenersAre(n, luck, cs[..k], k, ids, chan, live)
    ensures ListenersAre(n, luck, cs, k, ids, chan, live)
  {
    forall i | 0 <= i < k ensures cs[..k][i] == cs[i] && (Gets(n, luck, cs[..k], i) <==> Gets(n, luck, cs, i)) {
      GetsPrefix(n, luck, cs, k, i);
    }
    hide Gets;
    forall l | l in live
      ensures (l in n.live && l.tunnel !in ids)
              || exists i :: 0 <= i < k && Gets(n, luck, cs, i) && l == ListenerOf(cs[i], chan)
    {
      if i :| 0 <= i < k && Gets(n, luck, cs[..k], i) && l == ListenerOf(cs[..k][i], chan) {
        assert Gets(n, luck, cs, i) && l == ListenerOf(cs[i], chan);
      }
    }
    forall i | 0 <= i < k && Gets(n, luck, cs, i) ensures ListenerOf(cs[i], chan) in live {
      assert Gets(n, luck, cs[..k], i) && ListenerOf(cs[..k][i], chan) == ListenerOf(cs[i], chan);
    }
  }

  /** What is left once the last row's own listener is aborted. */
  lemma LastAborted(n: Net, luck: set<Id>, cs: seq<Config>, chan: Id, m: Net)
    requires Registered(n) && DistinctIds(cs) && cs != [] && cs[|cs| - 1].enabled
    requires Resynced(n, luck, cs[..|cs| - 1], chan, m)
    ensures ListenersAre(n, luck, cs, |cs| - 1, EnabledIds(cs), chan, Abort(m, {cs[|cs| - 1].id}).live)
  {
    hide Gets;
    var k := |cs| - 1;
    var before, c, a := cs[..k], cs[k], Abort(m, {cs[k].id});
    IdsMore(cs);
    ListenersPrefix(n, luck, cs, k, EnabledIds(before), chan, m.live);
    assert c.id !in EnabledIds(before);
    var gone := set t | t in {c.id} && t in m.tasks :: m.tasks[t];
    assert forall l :: l in gone <==> c.id in n.tasks && l == n.tasks[c.id];
    assert forall i :: 0 <= i < k ==> ListenerOf(cs[i], chan).tunnel != c.id;
  }

  lemma LastGets(n: Net, luck: set<Id>, cs: seq<Config>, chan: Id, a: Net)
    requires cs != [] && cs[|cs| - 1].enabled && ListenersAre(n, luck, cs, |cs| - 1, EnabledIds(cs), chan, a.live)
    ensures Gets(n, luck, cs, |cs| - 1) <==> cs[|cs| - 1].id in luck && !Held(a, cs[|cs| - 1])
  {
    var k := |cs| - 1;
    assert cs[..k + 1] == cs;
    if HeldByOther(n, cs, k) {
      var l :| l in n.live && l.tunnel !in EnabledIds(cs[..k + 1])
               && l.kind == KindOf(cs[k].protocol) && l.port == cs[k].publicPort;
      assert l in a.live;
    }
    if j :| 0 <= j < k && SameAddress(cs[j], cs[k]) && Gets(n, luck, cs, j) {
      assert ListenerOf(cs[j], chan) in a.live;
    }
    if Held(a, cs[k]) {
      var l :| l in a.live && l.kind == KindOf(cs[k].protocol) && l.port == cs[k].publicPort;
      if i :| 0 <= i < k && Gets(n, luck, cs, i) && l == ListenerOf(cs[i], chan) {
        assert SameAddress(cs[i], cs[k]);
      }
    }
  }

  /** With the last row's listener added if it got its address, the listeners are those of all rows. */
  lemma LastListeners(n: Net, luck: set<Id>, cs: seq<Config>, chan: Id, before: set<Listener>, after: set<Listener>)
    requires cs != [] && ListenersAre(n, luck, cs, |cs| - 1, EnabledIds(cs), chan, before)
    requires after == before + if Gets(n, luck, cs, |cs| - 1) then {ListenerOf(cs[|cs| - 1], chan)} else {}
    ensures ListenersAre(n, luck, cs, |cs|, EnabledIds(cs), chan, after)
  {
    hide Gets, EnabledIds, ListenerOf;
    var k := |cs| - 1;
    forall l | l in after
      ensures (l in n.live && l.tunnel !in EnabledIds(cs))
              || exists i :: 0 <= i < |cs| && Gets(n, luck, cs, i) && l == ListenerOf(cs[i], chan)
    {
      if l !in before {
        assert Gets(n, luck, cs, k) && l == ListenerOf(cs[k], chan);
      }
    }
    forall i | 0 <= i < |cs| && Gets(n, luck, cs, i) ensures ListenerOf(cs[i], chan) in after {
      assert i < k ==> ListenerOf(cs[i], chan) in before;
    }
  }

  lemma OtherEntries(n: Net, luck: set<Id>, cs: seq<Config>, chan: Id, before: map<Id, Listener>, t: Id)
    requires cs != [] && EntriesAre(n, luck, cs[..|cs| - 1], chan, before) && t !in EnabledIds(cs)
    ensures (t in before <==> t in n.tasks) && (t in n.tasks ==> before[t] == n.tasks[t])
  {
    IdsMore(cs);
    hide Gets, EnabledIds;
  }

  lemma EarlierEntry(n: Net, luck: set<Id>, cs: seq<Config>, chan: Id, before: map<Id, Listener>, i: nat)
    requires cs != [] && EntriesAre(n, luck, cs[..|cs| - 1], chan, before) && i < |cs| - 1 && cs[i].enabled
    ensures EntryIs(cs[i], Gets(n, luck, cs, i), chan, before)
  {
    GetsPrefix(n, luck, cs, |cs| - 1, i);
    hide Gets, EnabledIds, EntryIs;
    assert cs[..|cs| - 1][i] == cs[i];
  }

  lemma LastEntries(n: Net, luck: set<Id>, cs: seq<Config>, chan: Id, before: map<Id, Listener>,
                    after: map<Id, Listener>)
    requires DistinctIds(cs) && cs != [] && EntriesAre(n, luck, cs[..|cs| - 1], chan, before)
    requires var c := cs[|cs| - 1];
      after == if !c.enabled then before
               else if Gets(n, luck, cs, |cs| - 1) then (before - {c.id})[c.id := ListenerOf(c, chan)]
               else before - {c.id}
    ensures EntriesAre(n, luck, cs, chan, after)
  {
    var k := |cs| - 1;
    LastEnabled(cs);
    hide Gets, EnabledIds, ListenerOf;
    forall t | t !in EnabledIds(cs)
      ensures (t in after <==> t in n.tasks) && (t in n.tasks ==> after[t] == n.tasks[t])
    {
      OtherEntries(n, luck, cs, chan, before, t);
    }
    forall i | 0 <= i < |cs| && cs[i].enabled
      ensures EntryIs(cs[i], Gets(n, luck, cs, i), chan, after)
    {
      if i < k {
        EarlierEntry(n, luck, cs, chan, before, i);
        assert cs[i].id != cs[k].id;
      }
    }
  }

  lemma LastEnabled(cs: seq<Config>)
    requires cs != []
    ensures cs[|cs| - 1].enabled ==> cs[|cs| - 1].id in EnabledIds(cs)
  {
  }

  lemma LastResynced(n: Net, luck: set<Id>, cs: seq<Config>, chan: Id, m: Net)
    requires Registered(n) && DistinctIds(cs) && cs != []
    requires Resynced(n, luck, cs[..|cs| - 1], chan, m)
    ensures Resynced(n, luck, cs, chan, SyncOne(m, cs[|cs| - 1], chan, luck))
  {
    hide ListenersAre, EntriesAre, EnabledIds, EnabledPorts, Registered;
    var k := |cs| - 1;
    var c, v := cs[k], SyncOne(m, cs[k], chan, luck);
    PortsGrow(cs);
    if c.enabled {
      var a := Abort(m, {c.id});
      LastAborted(n, luck, cs, chan, m);
      LastGets(n, luck, cs, chan, a);
      StartedLast(m, c, chan, luck);
      LastListeners(n, luck, cs, chan, a.live, v.live);
    } else {
      IdsMore(cs);
      assert EnabledIds(cs[..k]) == EnabledIds(cs);
      ListenersPrefix(n, luck, cs, k, EnabledIds(cs), chan, m.live);
      LastListeners(n, luck, cs, chan, m.live, v.live);
    }
    LastEntries(n, luck, cs, chan, m.tasks, v.tasks);
  }

  lemma StartedLast(m: Net, c: Config, chan: Id, luck: set<Id>)
    requires c.enabled
    ensures var v, a := SyncOne(m, c, chan, luck), Abort(m, {c.id});
      var bound := c.id in luck && !Held(a, c);
      && v.reserved == m.reserved + {c.publicPort}
      && v.live == a.live + (if bound then {ListenerOf(c, chan)} else {})
      && v.tasks == if bound then a.tasks[c.id := ListenerOf(c, chan)] else a.tasks
  {
    var r := m.(reserved := m.reserved + {c.publicPort});
    assert Held(Abort(r, {c.id}), c) == Held(Abort(m, {c.id}), c);
  }

  /** From any registry and whatever binds the system grants -- a row's own aborted listener may still be in the way:
      exactly the enabled rows that get their addresses end up listening, the enabled rows' old listeners are gone, no
      other listener or entry changes, and the ports of all enabled rows are reserved. */
  lemma {:induction false} ResyncResult(n: Net, cs: seq<Config>, chan: Id, luck: set<Id>)
    requires Registered(n) && DistinctIds(cs)
    ensures Resynced(n, luck, cs, chan, SyncRows(n, cs, chan, luck))
  {
    if cs == [] {
      assert EnabledIds(cs) == {} && EnabledPorts(cs) == {};
    } else {
      var k := |cs| - 1;
      hide Resynced, SyncOne;
      assert DistinctIds(cs[..k]);
      ResyncResult(n, cs[..k], chan, luck);
      LastResynced(n, luck, cs, chan, SyncRows(n, cs[..k], chan, luck));
    }
  }

  /** `sync_agent_tunnels` in any state, as `update_tunnel` and a second authentication call it: the result is that
      of ResyncResult for all rows of the agent, oldest first, and one SyncTunnels lists them. */
  lemma ResyncExact(w: World, agent: Id, chan: Id, rows: seq<Id>, luck: set<Id>)
    requires Registered(w.net) && IsListing(w.db.tunnels, agent, rows)
    ensures var v, cs := Sync(w, chan, rows, luck), Configs(w.db.tunnels, rows);
      && Resynced(w.net, luck, cs, chan, v.net)
      && v == w.(net := v.net, out := w.out + [Sent(chan, SyncTunnels(cs))])
      && Lists(w.db.tunnels, agent, cs) && |cs| == |rows| && forall i :: 0 <= i < |cs| ==> cs[i].id == rows[i]
  {
    var cs := Configs(w.db.tunnels, rows);
    ListsExact(w.db.tunnels, agent, rows);
    hide Resynced, SyncRows, Registered, Lists;
    ResyncResult(w.net, cs, chan, luck);
  }

  lemma NothingToAbort(n: Net, t: Id)
    requires t !in n.tasks
    ensures Abort(n, {t}) == n
  {
    assert n.tasks - {t} == n.tasks;
    assert (set u | u in {t} && u in n.tasks :: n.tasks[u]) == {};
  }
}
