/**
 What each handler does, field by field: its answer, the rows it writes, the entries it makes and drops, the
 messages it sends, and that nothing else changes.
 */
module Effects {
  import opened Types
  import opened Strings
  import opened World
  import opened Listeners

  // ---------- what changes and what stays ----------

  /** Outside some keys the two maps are the same. */
  ghost predicate SameBut<K(!new), V>(m: map<K, V>, m': map<K, V>, keys: set<K>) {
    forall k :: k !in keys ==> (k in m' <==> k in m) && (k in m ==> m'[k] == m[k])
  }

  /** Some listeners are gone, with their handles; all others are as before. */
  ghost predicate Stopped(n: Net, m: Net, ids: set<Id>) {
    && (forall t :: t in ids ==> t !in m.tasks)
    && SameBut(n.tasks, m.tasks, ids)
    && (forall l :: l in m.live <==> l in n.live && forall t :: t in ids && t in n.tasks ==> n.tasks[t] != l)
  }

  /** Another listener than the tunnel's own holds the address. */
  ghost predicate InUse(n: Net, t: Id, kind: Kind, port: Port) {
    exists l :: l in n.live && l.kind == kind && l.port == port && (t in n.tasks ==> n.tasks[t] != l)
  }

  /** TCP for the three letters in any case, and UDP for every other protocol. */
  lemma KindExact(protocol: string)
    ensures KindOf(protocol) == Tcp <==>
      |protocol| == 3 && protocol[0] in "tT" && protocol[1] in "cC" && protocol[2] in "pP"
  {
    hide Lower;
    LowerIsTcp(protocol);
  }

  /** The tunnel's listener was replaced: if the bind is granted and nobody else holds the address, by one for this
      protocol, port and channel, and else by none. */
  ghost predicate Restarted(n: Net, m: Net, t: Id, protocol: string, port: Port, chan: Id, granted: bool) {
    var kind := if Lower(protocol) == "tcp" then Tcp else Udp;
    && SameBut(n.tasks, m.tasks, {t})
    && (t in m.tasks <==> granted && !InUse(n, t, kind, port))
    && (t in m.tasks ==> m.tasks[t] == Listener(t, kind, port, chan))
    && (forall l :: l in m.live <==>
          (l in n.live && (t in n.tasks ==> n.tasks[t] != l)) || (t in m.tasks && l == m.tasks[t]))
  }

  lemma RestartedExact(n: Net, c: Config, chan: Id, luck: set<Id>)
    ensures var m := StartListener(n, c, chan, luck);
      Restarted(n, m, c.id, c.protocol, c.publicPort, chan, c.id in luck) && m.reserved == n.reserved
  {
    var a := Abort(n, {c.id});
    forall l ensures l in a.live <==> l in n.live && (c.id in n.tasks ==> n.tasks[c.id] != l) {
      assert l in (set t | t in {c.id} && t in n.tasks :: n.tasks[t]) <==> c.id in n.tasks && n.tasks[c.id] == l;
    }
    var kind := KindOf(c.protocol);
    if Busy(a, kind, c.publicPort) {
      var l :| l in a.live && l.kind == kind && l.port == c.publicPort;
      assert InUse(n, c.id, kind, c.publicPort);
    }
    if InUse(n, c.id, kind, c.publicPort) {
      var l :| l in n.live && l.kind == kind && l.port == c.publicPort && (c.id in n.tasks ==> n.tasks[c.id] != l);
      assert l in a.live;
    }
  }

  lemma StoppedExact(n: Net, ids: set<Id>, reserved: set<Port>)
    ensures Stopped(n, Abort(n, ids).(reserved := reserved), ids)
  {
    var gone := set t | t in ids && t in n.tasks :: n.tasks[t];
    forall l ensures l in gone <==> !forall t :: t in ids && t in n.tasks ==> n.tasks[t] != l {
    }
  }

  /** Stopping the listeners of some rows also gives back exactly their public ports. */
  ghost predicate Released(n: Net, m: Net, tunnels: map<Id, Tunnel>, ids: set<Id>) {
    && Stopped(n, m, ids)
    && (forall p :: p in m.reserved <==>
          p in n.reserved && forall t :: t in ids && t in tunnels ==> tunnels[t].publicPort != p)
  }

  lemma ReleasedExact(n: Net, tunnels: map<Id, Tunnel>, ids: set<Id>)
    requires ids <= tunnels.Keys
    ensures Released(n, Release(n, tunnels, ids), tunnels, ids)
  {
    var freed := set t | t in ids :: tunnels[t].publicPort;
    StoppedExact(n, ids, n.reserved - freed);
    hide Stopped;
    forall p ensures p in freed <==> !forall t :: t in ids && t in tunnels ==> tunnels[t].publicPort != p {
      if p in freed {
        var t :| t in ids && tunnels[t].publicPort == p;
        assert t in tunnels;
      }
    }
  }

  // ---------- what an agent is told about its tunnels ----------

  /** The agent got, last, one list of its rows, and its listeners were brought in line with that list. */
  ghost predicate Synchronised(n: Net, v: World, agent: Id, chan: Id, luck: set<Id>) {
    && |v.out| > 0
    && v.out[|v.out| - 1].to == chan
    && v.out[|v.out| - 1].msg.SyncTunnels?
    && var cs := v.out[|v.out| - 1].msg.tunnels;
    && Lists(v.db.tunnels, agent, cs)
    && (Registered(n) ==> Resynced(n, luck, cs, chan, v.net))
  }

  /** The list an agent gets has, for every row, its id, name, local port, protocol, public port, subdomain and flag. */
  lemma SyncMessageExact(w: World, agent: Id, chan: Id, rows: seq<Id>, luck: set<Id>)
    requires IsListing(w.db.tunnels, agent, rows)
    ensures var v := Sync(w, chan, rows, luck);
      && Synchronised(w.net, v, agent, chan, luck)
      && |v.out| == |w.out| + 1 && v.out[..|w.out|] == w.out
      && v == w.(net := v.net, out := v.out)
  {
    ListsExact(w.db.tunnels, agent, rows);
    hide Resynced, Registered, SyncRows, IsListing, Lists;
    if Registered(w.net) {
      ResyncListed(w, agent, chan, rows, luck);
    }
  }

  lemma ResyncListed(w: World, agent: Id, chan: Id, rows: seq<Id>, luck: set<Id>)
    requires Registered(w.net) && IsListing(w.db.tunnels, agent, rows)
    ensures Resynced(w.net, luck, Configs(w.db.tunnels, rows), chan, Sync(w, chan, rows, luck).net)
  {
    hide Resynced, Registered, SyncRows;
    ResyncExact(w, agent, chan, rows, luck);
  }

  // ---------- claiming ----------

  /** The agent belongs to the user and cannot be claimed again; it is online if it was or if a socket waited. */
  ghost predicate Claimed(before: Agent, after: Agent, uid: Id, waiting: bool) {
    && after.owner == Some(uid) && after.claimCode.None?
    && after.token == before.token && after.name == before.name
    && (after.online <==> before.online || waiting)
  }

  /** A socket that waits on the code becomes the agent's sender, is told so and gets the list of its tunnels; its
      entry is used up. */
  ghost predicate Welcomed(w: World, v: World, a: Id, code: Code, luck: set<Id>)
    requires a in w.db.agents && code in w.pending
  {
    var s := w.pending[code];
    && a in v.senders && v.senders[a] == s && SameBut(w.senders, v.senders, {a})
    && code !in v.pending && SameBut(w.pending, v.pending, {code})
    && |v.out| == |w.out| + 2 && v.out[..|w.out|] == w.out
    && v.out[|w.out|] == Sent(s, AuthSuccess(a, w.db.agents[a].name, w.db.agents[a].token))
    && Synchronised(w.net, v, a, s, luck)
  }

  ghost predicate ClaimDone(w: World, v: World, uid: Id, a: Id, code: Code, luck: set<Id>)
    requires a in w.db.agents
  {
    && a in v.db.agents && Claimed(w.db.agents[a], v.db.agents[a], uid, code in w.pending)
    && SameBut(w.db.agents, v.db.agents, {a})
    && v == w.(db := w.db.(agents := v.db.agents), net := v.net, senders := v.senders, pending := v.pending,
               out := v.out)
    && if code in w.pending then Welcomed(w, v, a, code, luck)
       else v.net == w.net && v.senders == w.senders && v.pending == w.pending && v.out == w.out
  }

  /** A claim succeeds exactly if an agent has the code and the user exists. Then that agent, and no other, gets the
      user as its owner and loses its code, whether or not a socket waits; any other answer changes nothing. */
  lemma ClaimExact(w: World, uid: Id, code: Code, pick: Option<Id>, rows: seq<Id>, luck: set<Id>)
    requires ClaimAnswer(w, code, pick, rows)
    ensures var (v, r) := Claim(w, uid, code, pick, rows, luck);
      && (r == NotFound <==> forall a :: a in w.db.agents ==> w.db.agents[a].claimCode != Some(code))
      && (r == Done <==> r != NotFound && uid in w.db.users)
      && (r == Failed <==> r != NotFound && uid !in w.db.users)
      && (r != Done ==> v == w)
      && (r == Done ==> pick.Some? && ClaimDone(w, v, uid, pick.value, code, luck))
  {
    hide Sync, Synchronised, IsListing;
    if pick.Some? && uid in w.db.users && code in w.pending {
      ClaimWelcomes(w, uid, code, pick.value, rows, luck);
    }
  }

  lemma ClaimWelcomes(w: World, uid: Id, code: Code, a: Id, rows: seq<Id>, luck: set<Id>)
    requires ClaimAnswer(w, code, Some(a), rows) && uid in w.db.users && code in w.pending
    ensures ClaimDone(w, Claim(w, uid, code, Some(a), rows, luck).0, uid, a, code, luck)
  {
    var agent := w.db.agents[a].(claimCode := None, owner := Some(uid), online := true);
    var s := w.pending[code];
    var u := w.(db := PutAgent(w.db, a, agent), pending := w.pending - {code}, senders := w.senders[a := s],
                out := w.out + [Sent(s, AuthSuccess(a, agent.name, agent.token))]);
    hide IsListing, Resynced, Registered, Synchronised, Sync;
    SyncMessageExact(u, a, s, rows, luck);
  }

  // ---------- deleting an agent ----------

  /** Afterwards the agent is in no table and has no sender; every other agent, row and sender is as before. */
  lemma DeleteAgentExact(w: World, a: Id)
    ensures var v := DeleteAgent(w, a);
      && a !in v.db.agents && SameBut(w.db.agents, v.db.agents, {a})
      && a !in v.senders && SameBut(w.senders, v.senders, {a})
      && (forall t :: t in v.db.tunnels <==> t in w.db.tunnels && w.db.tunnels[t].agent != a)
      && (forall t :: t in v.db.tunnels ==> v.db.tunnels[t] == w.db.tunnels[t])
      && v.out == w.out + (if a in w.senders then [Sent(w.senders[a], Error)] else [])
      && v == w.(db := w.db.(agents := v.db.agents, tunnels := v.db.tunnels), senders := v.senders, out := v.out)
  {
  }

  // ---------- tunnels ----------

  /** Some row, other than the excepted ones, has the subdomain up to the case of its letters. */
  ghost predicate Clashes(tunnels: map<Id, Tunnel>, sub: Option<string>, except: set<Id>) {
    sub.Some? && exists t :: t in tunnels && t !in except && tunnels[t].subdomain.Some?
                             && Lower(tunnels[t].subdomain.value) == Lower(sub.value)
  }

  /** The fields a user chooses: the name, the local port, the protocol and the cleaned subdomain. */
  ghost predicate Chosen(row: Tunnel, name: string, localPort: Port, protocol: string, sub: Option<string>) {
    row.name == name && row.localPort == localPort && row.protocol == protocol && row.subdomain == Clean(sub)
  }

  ghost predicate Kept(before: Tunnel, after: Tunnel) {
    && after.agent == before.agent && after.user == before.user && after.publicPort == before.publicPort
    && after.createdAt == before.createdAt
  }

  /** Of the whole state only the one row differs, and what goes with its listener and messages. */
  ghost predicate RowOnly(w: World, v: World, t: Id) {
    && t in v.db.tunnels && SameBut(w.db.tunnels, v.db.tunnels, {t})
    && v == w.(db := w.db.(tunnels := v.db.tunnels), net := v.net, out := v.out)
  }

  /** If the tunnel has a listener, it is of the kind of the row's protocol, on the row's port and on the channel. */
  ghost predicate ServedAs(m: Net, t: Id, row: Tunnel, chan: Id) {
    t in m.tasks ==>
      && m.tasks[t].chan == chan && m.tasks[t].port == row.publicPort
      && (m.tasks[t].kind == Tcp <==> Lower(row.protocol) == "tcp")
  }

  ghost predicate UpdateDone(w: World, v: World, t: Id, luck: set<Id>)
    requires t in w.db.tunnels
  {
    var before := w.db.tunnels[t];
    && RowOnly(w, v, t)
    && Kept(before, v.db.tunnels[t]) && v.db.tunnels[t].enabled == before.enabled
    && if before.agent in w.senders then
         var chan := w.senders[before.agent];
         && Synchronised(w.net, v, before.agent, chan, luck)
         && |v.out| == |w.out| + 1 && v.out[..|w.out|] == w.out
         && (before.enabled ==> ServedAs(v.net, t, v.db.tunnels[t], chan))
       else v.net == w.net && v.out == w.out
  }

  /** An update succeeds exactly if the row exists and no other row has the cleaned subdomain. Then the row has
      exactly the chosen fields and keeps all others, every other row stays, and the agent's one new message lists the
      rows as they now are; any other answer changes nothing. */
  lemma UpdateExact(w: World, tid: Id, name: string, localPort: Port, protocol: string, subdomain: Option<string>,
                    rows: seq<Id>, luck: set<Id>)
    requires UpdateListing(w, tid, rows)
    ensures var (v, r) := UpdateTunnel(w, tid, name, localPort, protocol, subdomain, rows, luck);
      && (r == NotFound <==> tid !in w.db.tunnels)
      && (r == Done <==> tid in w.db.tunnels && !Clashes(w.db.tunnels, Clean(subdomain), {tid}))
      && (r == Conflict <==> tid in w.db.tunnels && Clashes(w.db.tunnels, Clean(subdomain), {tid}))
      && (r != Done ==> v == w)
      && (r == Done ==> UpdateDone(w, v, tid, luck) && Chosen(v.db.tunnels[tid], name, localPort, protocol, subdomain))
  {
    hide Clean, Lower, Sync, IsListing, Synchronised, ServedAs;
    if tid in w.db.tunnels && w.db.tunnels[tid].agent in w.senders {
      var row := w.db.tunnels[tid].(name := name, localPort := localPort, protocol := protocol,
                                    subdomain := Clean(subdomain));
      UpdateSynchronises(w, tid, row, rows, luck);
    }
  }

  lemma UpdateSynchronises(w: World, tid: Id, row: Tunnel, rows: seq<Id>, luck: set<Id>)
    requires tid in w.db.tunnels && Kept(w.db.tunnels[tid], row) && row.agent in w.senders
    requires IsListing(w.db.tunnels, row.agent, rows)
    ensures IsListing(PutTunnel(w.db, tid, row).tunnels, row.agent, rows)
    ensures var u := w.(db := PutTunnel(w.db, tid, row));
      var chan := w.senders[row.agent];
      var v := Sync(u, chan, rows, luck);
      && Synchronised(w.net, v, row.agent, chan, luck)
      && v == u.(net := v.net, out := v.out) && |v.out| == |w.out| + 1 && v.out[..|w.out|] == w.out
      && (row.enabled ==> ServedAs(v.net, tid, row, chan))
  {
    var u := w.(db := PutTunnel(w.db, tid, row));
    var chan := w.senders[row.agent];
    assert IsListing(u.db.tunnels, row.agent, rows);
    hide Synchronised;
    SyncMessageExact(u, row.agent, chan, rows, luck);
    if row.enabled {
      ServedAfterSync(w.net, u.db.tunnels, row.agent, rows, chan, luck, tid);
    }
  }

  lemma ServedAfterSync(n: Net, tunnels: map<Id, Tunnel>, agent: Id, rows: seq<Id>, chan: Id, luck: set<Id>, t: Id)
    requires IsListing(tunnels, agent, rows) && t in tunnels && tunnels[t].agent == agent && tunnels[t].enabled
    ensures ServedAs(SyncRows(n, Configs(tunnels, rows), chan, luck), t, tunnels[t], chan)
  {
    var cs := Configs(tunnels, rows);
    ListsExact(tunnels, agent, rows);
    SyncEffect(n, cs, chan, luck, t);
    var i :| 0 <= i < |cs| && cs[i].id == t;
    hide SyncRows;
  }

  /** The agent, if it is connected, got one message more, to start the tunnel as its row now is. */
  ghost predicate ToldToStart(w: World, v: World, t: Id)
    requires t in v.db.tunnels
  {
    var row := v.db.tunnels[t];
    if row.agent in w.senders then
      && |v.out| == |w.out| + 1 && v.out[..|w.out|] == w.out
      && v.out[|w.out|].to == w.senders[row.agent] && v.out[|w.out|].msg.StartTunnel?
      && Describes(v.out[|w.out|].msg.tunnel, t, row)
    else v.out == w.out
  }

  /** The row's port is reserved; if the agent is connected, the tunnel's listener was restarted for the row. */
  ghost predicate Opened(w: World, v: World, t: Id, luck: set<Id>)
    requires t in v.db.tunnels
  {
    var row := v.db.tunnels[t];
    && v.net.reserved == w.net.reserved + {row.publicPort}
    && (row.agent in w.senders ==>
          Restarted(w.net, v.net, t, row.protocol, row.publicPort, w.senders[row.agent], t in luck))
    && (row.agent !in w.senders ==> v.net.tasks == w.net.tasks && v.net.live == w.net.live)
  }

  lemma OpenedExact(w: World, v: World, t: Id, row: Tunnel, luck: set<Id>)
    requires t in v.db.tunnels && v.db.tunnels[t] == row
    requires var n := w.net.(reserved := w.net.reserved + {row.publicPort});
      v.net == if row.agent in w.senders then StartListener(n, ConfigOf(t, row), w.senders[row.agent], luck) else n
    ensures Opened(w, v, t, luck)
  {
    if row.agent in w.senders {
      var n := w.net.(reserved := w.net.reserved + {row.publicPort});
      RestartedExact(n, ConfigOf(t, row), w.senders[row.agent], luck);
      var kind := if Lower(row.protocol) == "tcp" then Tcp else Udp;
      hide StartListener, Lower;
      assert InUse(n, t, kind, row.publicPort) <==> InUse(w.net, t, kind, row.publicPort);
    }
  }

  ghost predicate PortFree(w: World, uid: Id)
    requires uid in w.db.users
  {
    var port := w.db.users[uid].dedicatedPort;
    port >= 1024 && port !in w.net.reserved
  }

  /** The new row is the user's, enabled, on the user's dedicated port. */
  ghost predicate CreateDone(w: World, v: World, uid: Id, agent: Id, now: int, luck: set<Id>)
    requires uid in w.db.users
  {
    var t := w.next;
    && t in v.db.tunnels && SameBut(w.db.tunnels, v.db.tunnels, {t})
    && v.db.tunnels[t].agent == agent && v.db.tunnels[t].user == uid && v.db.tunnels[t].enabled
    && v.db.tunnels[t].publicPort == w.db.users[uid].dedicatedPort && v.db.tunnels[t].createdAt == now
    && v.next == t + 1 && v.creator == w.creator[t := uid]
    && v == w.(db := w.db.(tunnels := v.db.tunnels), net := v.net, out := v.out, next := v.next, creator := v.creator)
    && ToldToStart(w, v, t) && Opened(w, v, t, luck)
  }

  /** The answers of a creation in the order of its checks, and what each leaves behind. On success the stored row has
      exactly the chosen fields, and the agent is told to start that row. */
  lemma CreateExact(w: World, uid: Id, agent: Id, name: string, localPort: Port, protocol: string,
                    subdomain: Option<string>, now: int, luck: set<Id>)
    ensures var (v, r) := CreateTunnel(w, uid, agent, name, localPort, protocol, subdomain, now, luck);
      var clash := Clashes(w.db.tunnels, Clean(subdomain), {});
      && (r == Conflict <==> clash || (uid in w.db.users && !PortFree(w, uid)))
      && (r == Unauthorized <==> !clash && uid !in w.db.users)
      && (r == Failed <==> !clash && uid in w.db.users && PortFree(w, uid) && agent !in w.db.agents)
      && (r == Created(w.next) <==> !clash && uid in w.db.users && PortFree(w, uid) && agent in w.db.agents)
      && (r == Conflict || r == Unauthorized ==> v == w)
      && (r == Failed ==>
            v == w.(net := w.net.(reserved := w.net.reserved + {w.db.users[uid].dedicatedPort})))
      && (r == Created(w.next) ==>
            CreateDone(w, v, uid, agent, now, luck)
            && Chosen(v.db.tunnels[w.next], name, localPort, protocol, subdomain))
  {
    hide Clean, Lower, StartListener, Opened;
    var (v, r) := CreateTunnel(w, uid, agent, name, localPort, protocol, subdomain, now, luck);
    if r.Created? {
      OpenedExact(w, v, w.next, v.db.tunnels[w.next], luck);
    }
  }

  ghost predicate ToldToStop(w: World, v: World, agent: Id, t: Id) {
    v.out == w.out + (if agent in w.senders then [Sent(w.senders[agent], StopTunnel(t))] else [])
  }

  ghost predicate Toggled(w: World, v: World, tid: Id, luck: set<Id>)
    requires tid in w.db.tunnels && tid in v.db.tunnels
  {
    var before, after := w.db.tunnels[tid], v.db.tunnels[tid];
    && Kept(before, after) && after.name == before.name && after.localPort == before.localPort
    && after.protocol == before.protocol && after.subdomain == before.subdomain
    && (after.enabled <==> !before.enabled)
    && if after.enabled then ToldToStart(w, v, tid) && Opened(w, v, tid, luck)
       else ToldToStop(w, v, before.agent, tid) && Released(w.net, v.net, w.db.tunnels, {tid})
  }

  /** A toggle fails exactly if the row is missing, and then changes nothing. Otherwise it flips the flag of the row
      and no other field. Switching on reserves the port, restarts the listener and sends the row to a connected
      agent; switching off stops the listener, gives the port back and tells a connected agent to stop. */
  lemma ToggleExact(w: World, tid: Id, luck: set<Id>)
    ensures var (v, r) := ToggleTunnel(w, tid, luck);
      && (r == NotFound <==> tid !in w.db.tunnels) && (r == Done <==> tid in w.db.tunnels)
      && (r == NotFound ==> v == w)
      && (r == Done ==> RowOnly(w, v, tid) && Toggled(w, v, tid, luck))
  {
    hide StartListener, Release, ConfigOf, Toggled;
    if tid in w.db.tunnels {
      if w.db.tunnels[tid].enabled {
        SwitchedOff(w, tid, luck);
      } else {
        SwitchedOn(w, tid, luck);
      }
    }
  }

  lemma SwitchedOff(w: World, tid: Id, luck: set<Id>)
    requires tid in w.db.tunnels && w.db.tunnels[tid].enabled
    ensures var v := ToggleTunnel(w, tid, luck).0;
      tid in v.db.tunnels && Toggled(w, v, tid, luck)
  {
    hide StartListener, Release, ConfigOf, Released, ToldToStart, Opened;
    ReleasedExact(w.net, w.db.tunnels, {tid});
  }

  lemma SwitchedOn(w: World, tid: Id, luck: set<Id>)
    requires tid in w.db.tunnels && !w.db.tunnels[tid].enabled
    ensures var v := ToggleTunnel(w, tid, luck).0;
      tid in v.db.tunnels && Toggled(w, v, tid, luck)
  {
    hide StartListener, Release, Released, ToldToStop, Opened;
    var v := ToggleTunnel(w, tid, luck).0;
    OpenedExact(w, v, tid, v.db.tunnels[tid], luck);
  }

  /** Deleting a tunnel removes its row and no other, stops its listener, gives back its port, and tells its agent. */
  lemma DeleteTunnelExact(w: World, tid: Id)
    ensures var v := DeleteTunnel(w, tid);
      && (tid !in w.db.tunnels ==> v == w)
      && (tid in w.db.tunnels ==>
            && tid !in v.db.tunnels && SameBut(w.db.tunnels, v.db.tunnels, {tid})
            && Released(w.net, v.net, w.db.tunnels, {tid})
            && ToldToStop(w, v, w.db.tunnels[tid].agent, tid)
            && v == w.(db := w.db.(tunnels := v.db.tunnels), net := v.net, out := v.out))
  {
    hide Release, Released;
    if tid in w.db.tunnels {
      ReleasedExact(w.net, w.db.tunnels, {tid});
    }
  }

  // ---------- sockets ----------

  /** Connecting adds a socket that neither is an agent nor waits for a claim. */
  lemma ConnectExact(w: World)
    ensures var v := Connect(w);
      && w.next in v.sessions && v.sessions[w.next].agent.None? && v.sessions[w.next].code.None?
      && SameBut(w.sessions, v.sessions, {w.next})
      && v == w.(sessions := v.sessions, next := w.next + 1)
  {
  }

  /** The socket waits on the code, and on no other, and was sent it with the token. */
  ghost predicate SetToWait(w: World, v: World, s: Id, code: Code, token: Id)
    requires s in w.sessions
  {
    && code in v.pending && v.pending[code] == s && SameBut(w.pending, v.pending, {code})
    && s in v.sessions && v.sessions[s].code == Some(code) && v.sessions[s].agent == w.sessions[s].agent
    && SameBut(w.sessions, v.sessions, {s})
    && v.out == w.out + [Sent(s, ClaimReady(code, token))]
  }

  /** A request for a claim adds one agent, without an owner, with the code and a new token, under the host's name. */
  lemma RequestClaimExact(w: World, s: Id, hostname: string, code: Code)
    requires s in w.sessions
    ensures var v := RequestClaim(w, s, hostname, code);
      var a := w.next;
      && a in v.db.agents && SameBut(w.db.agents, v.db.agents, {a})
      && v.db.agents[a].owner.None? && v.db.agents[a].claimCode == Some(code) && v.db.agents[a].name == hostname
      && !v.db.agents[a].online && v.db.agents[a].token == w.next + 1
      && SetToWait(w, v, s, code, v.db.agents[a].token) && v.shown == w.shown + {(s, a)}
      && v == w.(db := w.db.(agents := v.db.agents), pending := v.pending, sessions := v.sessions, out := v.out,
                 next := w.next + 2, shown := v.shown)
  {
  }

  ghost predicate TokensUnique(agents: map<Id, Agent>) {
    forall a, b :: a in agents && b in agents && agents[a].token == agents[b].token ==> a == b
  }

  /** The agent with the token, under the schema's UNIQUE constraint. */
  lemma ByToken(agents: map<Id, Agent>, a: Id)
    requires TokensUnique(agents) && a in agents
    ensures AgentByToken(agents, agents[a].token) == Some(a)
  {
  }

  /** A token that no agent has is answered with an error, and nothing changes. */
  lemma AuthUnknown(w: World, s: Id, token: Id, hostname: string, rows: seq<Id>, luck: set<Id>)
    requires s in w.sessions && AuthListing(w, token, rows)
    requires forall a :: a in w.db.agents ==> w.db.agents[a].token != token
    ensures Auth(w, s, token, hostname, rows, luck) == w.(out := w.out + [Sent(s, Error)])
  {
    hide Sync, IsListing;
  }

  /** The token of an agent with a claim code makes the socket wait for the claim; the tables stay. */
  lemma AuthPending(w: World, s: Id, a: Id, hostname: string, rows: seq<Id>, luck: set<Id>)
    requires s in w.sessions && TokensUnique(w.db.agents) && a in w.db.agents && w.db.agents[a].claimCode.Some?
    requires AuthListing(w, w.db.agents[a].token, rows)
    ensures var token := w.db.agents[a].token;
      var v := Auth(w, s, token, hostname, rows, luck);
      && SetToWait(w, v, s, w.db.agents[a].claimCode.value, token) && v.shown == w.shown + {(s, a)}
      && v == w.(pending := v.pending, sessions := v.sessions, out := v.out, shown := v.shown)
  {
    hide Sync, IsListing;
    ByToken(w.db.agents, a);
  }

  ghost predicate Authenticated(w: World, v: World, s: Id, a: Id, hostname: string, luck: set<Id>)
    requires s in w.sessions && a in w.db.agents
  {
    var before := w.db.agents[a];
    && a in v.db.agents && SameBut(w.db.agents, v.db.agents, {a})
    && v.db.agents[a].online && v.db.agents[a].name == hostname
    && v.db.agents[a].owner == before.owner && v.db.agents[a].claimCode == before.claimCode
    && v.db.agents[a].token == before.token
    && a in v.senders && v.senders[a] == s && SameBut(w.senders, v.senders, {a})
    && s in v.sessions && v.sessions[s].agent == Some(a) && v.sessions[s].code == w.sessions[s].code
    && SameBut(w.sessions, v.sessions, {s})
    && |v.out| == |w.out| + 2 && v.out[..|w.out|] == w.out
    && v.out[|w.out|] == Sent(s, AuthSuccess(a, before.name, before.token))
    && Synchronised(w.net, v, a, s, luck)
    && v.shown == w.shown + {(s, a)}
    && v == w.(db := w.db.(agents := v.db.agents), net := v.net, senders := v.senders, sessions := v.sessions,
               out := v.out, shown := v.shown)
  }

  /** The token of an agent without a claim code makes the socket its sender and puts the agent online under the
      host's name; the socket is sent the name stored before, the token and the list of the agent's rows. */
  lemma AuthExact(w: World, s: Id, a: Id, hostname: string, rows: seq<Id>, luck: set<Id>)
    requires s in w.sessions && TokensUnique(w.db.agents) && a in w.db.agents && w.db.agents[a].claimCode.None?
    requires AuthListing(w, w.db.agents[a].token, rows)
    ensures Authenticated(w, Auth(w, s, w.db.agents[a].token, hostname, rows, luck), s, a, hostname, luck)
  {
    ByToken(w.db.agents, a);
    var agent := w.db.agents[a];
    var u := w.(db := PutAgent(w.db, a, agent.(online := true, name := hostname)), senders := w.senders[a := s],
                sessions := w.sessions[s := w.sessions[s].(agent := Some(a))],
                out := w.out + [Sent(s, AuthSuccess(a, agent.name, agent.token))], shown := w.shown + {(s, a)});
    hide IsListing, Resynced, Registered, Synchronised, Sync, TokensUnique;
    SyncMessageExact(u, a, s, rows, luck);
  }

  ghost predicate CleanedUp(w: World, v: World, a: Id) {
    && a !in v.senders && SameBut(w.senders, v.senders, {a})
    && SameBut(w.db.agents, v.db.agents, {a}) && (a in v.db.agents <==> a in w.db.agents)
    && (a in w.db.agents && a in v.db.agents ==> v.db.agents[a] == w.db.agents[a].(online := false))
    && Released(w.net, v.net, w.db.tunnels, set t | t in w.db.tunnels && w.db.tunnels[t].agent == a)
  }

  /** A socket that goes takes its current claim code with it; if it had authenticated, the agent is offline and
      without a sender, and its rows' listeners are stopped and their ports given back. */
  lemma DisconnectEffect(w: World, s: Id)
    requires s in w.sessions
    ensures var v := Disconnect(w, s);
      && s !in v.sessions && SameBut(w.sessions, v.sessions, {s})
      && (forall c :: c in v.pending <==> c in w.pending && w.sessions[s].code != Some(c))
      && (forall c :: c in v.pending ==> v.pending[c] == w.pending[c])
      && v == w.(db := w.db.(agents := v.db.agents), net := v.net, senders := v.senders, pending := v.pending,
                 sessions := v.sessions)
      && match w.sessions[s].agent
         case Some(a) => CleanedUp(w, v, a)
         case None => v.db == w.db && v.net == w.net && v.senders == w.senders
  {
    hide Release, Released;
    if w.sessions[s].agent.Some? {
      var a := w.sessions[s].agent.value;
      ReleasedExact(w.net, w.db.tunnels, RowsOf(w.db.tunnels, a));
      assert RowsOf(w.db.tunnels, a) == set t | t in w.db.tunnels && w.db.tunnels[t].agent == a;
    }
  }

  // ---------- accounts ----------

  /** A registration adds at most one user, with the trimmed name, not banned, on a port of the range that no user
      has; the answer says why, if it adds none. */
  lemma RegisterEffect(w: World, username: string, password: string, draws: seq<nat>)
    requires w.lo < w.hi
    ensures var (v, r) := Register(w, username, password, draws);
      && (r == BadRequest <==> ByteLength(Trim(username)) < 3 || ByteLength(password) < 6)
      && (r == Created(w.next) || r == BadRequest || r == Conflict)
      && (r != Created(w.next) ==> v == w)
      && (r == Created(w.next) ==>
            && w.next in v.db.users && SameBut(w.db.users, v.db.users, {w.next})
            && v.db.users[w.next].username == Trim(username) && !v.db.users[w.next].banned
            && w.lo <= v.db.users[w.next].dedicatedPort <= w.hi
            && (forall u :: u in w.db.users ==>
                  w.db.users[u].username != Trim(username)
                  && w.db.users[u].dedicatedPort != v.db.users[w.next].dedicatedPort)
            && v == w.(db := w.db.(users := v.db.users), next := w.next + 1))
  {
    hide Trim, ByteLength;
    var r := Register(w, username, password, draws).1;
    if r.Created? {
      forall u | u in w.db.users ensures w.db.users[u].dedicatedPort in TakenPorts(w.db.users) {
      }
    }
  }

  /** A user gets a first agent, owned by it from the start, if it has none; otherwise nothing changes. */
  lemma GenerateTokenExact(w: World, uid: Id)
    ensures var (v, r) := GenerateToken(w, uid);
      var owns := exists a :: a in w.db.agents && w.db.agents[a].owner == Some(uid);
      && (r == Done <==> owns)
      && (r == Failed <==> !owns && uid !in w.db.users)
      && (r == Created(w.next) <==> !owns && uid in w.db.users)
      && (r != Created(w.next) ==> v == w)
      && (r == Created(w.next) ==>
            && w.next in v.db.agents && SameBut(w.db.agents, v.db.agents, {w.next})
            && v.db.agents[w.next].owner == Some(uid) && v.db.agents[w.next].claimCode.None?
            && v.db.agents[w.next].token == w.next + 1 && !v.db.agents[w.next].online
            && v.db.agents[w.next].name == "My Computer"
            && v == w.(db := w.db.(agents := v.db.agents), next := w.next + 2))
  {
  }

  /** Only the flag of the one user is written. */
  ghost predicate BanSetTo(w: World, v: World, uid: Id, banned: bool) {
    && v.db.users.Keys == w.db.users.Keys && SameBut(w.db.users, v.db.users, {uid})
    && (uid in w.db.users && uid in v.db.users ==>
          && (v.db.users[uid].banned <==> banned) && v.db.users[uid].username == w.db.users[uid].username
          && v.db.users[uid].dedicatedPort == w.db.users[uid].dedicatedPort)
    && v == w.(db := w.db.(users := v.db.users), net := v.net)
  }

  /** A ban sets the flag and releases the user's rows. */
  lemma BanExact(w: World, uid: Id)
    ensures BanSetTo(w, Ban(w, uid), uid, true)
    ensures Released(w.net, Ban(w, uid).net, w.db.tunnels, set t | t in w.db.tunnels && w.db.tunnels[t].user == uid)
  {
    hide Release, Released, BanSetTo;
    var ids := RowsOfUser(w.db.tunnels, uid);
    assert ids == set t | t in w.db.tunnels && w.db.tunnels[t].user == uid;
    ReleasedExact(w.net, w.db.tunnels, ids);
    FlagExact(w, uid, true, Release(w.net, w.db.tunnels, ids));
  }

  /** Lifting a ban clears the flag and starts nothing. */
  lemma UnbanExact(w: World, uid: Id)
    ensures BanSetTo(w, Unban(w, uid), uid, false) && Unban(w, uid).net == w.net
  {
    hide BanSetTo;
    FlagExact(w, uid, false, w.net);
  }

  lemma FlagExact(w: World, uid: Id, banned: bool, n: Net)
    ensures BanSetTo(w, w.(db := SetBanned(w.db, uid, banned), net := n), uid, banned)
  {
  }

  /** A restart keeps the tables and loses all else: no socket, sender, claim, listener or reservation is left. */
  lemma RestartExact(w: World)
    ensures var v := Restart(w);
      && v.net.reserved == {} && v.net.tasks.Keys == {} && v.net.live == {}
      && v.senders.Keys == {} && v.pending.Keys == {} && v.sessions.Keys == {}
      && v == w.(net := v.net, senders := v.senders, pending := v.pending, sessions := v.sessions)
  {
  }
}
