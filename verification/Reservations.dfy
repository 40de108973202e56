/** Which steps keep listening ports reserved, and which keep reserved ports with a row: the exact conditions. */
module Reservations {
  import opened Types
  import opened Strings
  import opened World
  import opened Lifecycle
  import opened Listeners
  import opened Accounting

  // ---------- every listening port is reserved ----------

  /** The rows whose ports the step gives back. */
  ghost function ReleasedRows(w: World, e: Event): (ids: set<Id>)
    requires Possible(w, e)
    ensures ids <= w.db.tunnels.Keys
  {
    match e
    case OnSocket(EDisconnect(s)) =>
      var a := w.sessions[s].agent;
      if a.Some? then RowsOf(w.db.tunnels, a.value) else {}
    case OnAccount(EBan(uid)) => RowsOfUser(w.db.tunnels, uid)
    case OnTunnel(EToggle(t, _)) => if t in w.db.tunnels && w.db.tunnels[t].enabled then {t} else {}
    case OnTunnel(EDelete(t)) => if t in w.db.tunnels then {t} else {}
    case _ => {}
  }

  /** No listener that stays is registered on a port that the step gives back. */
  ghost predicate ReleaseSafe(w: World, e: Event)
    requires Possible(w, e)
  {
    forall u, t :: u in w.net.tasks && u !in ReleasedRows(w, e) && t in ReleasedRows(w, e) ==>
      w.net.tasks[u].port != w.db.tunnels[t].publicPort
  }

  lemma StartAccounted(n: Net, c: Config, chan: Id, luck: set<Id>)
    requires Accounted(n) && c.publicPort in n.reserved
    ensures Accounted(StartListener(n, c, chan, luck))
  {
  }

  lemma {:induction false} SyncAccounted(n: Net, cs: seq<Config>, chan: Id, luck: set<Id>)
    requires Accounted(n)
    ensures Accounted(SyncRows(n, cs, chan, luck))
  {
    if cs != [] {
      var k := |cs| - 1;
      SyncAccounted(n, cs[..k], chan, luck);
      var m := SyncRows(n, cs[..k], chan, luck);
      StartAccounted(m.(reserved := m.reserved + {cs[k].publicPort}), cs[k], chan, luck);
    }
  }

  lemma SocketAccounted(w: World, e: SocketEvent)
    requires Accounted(w.net) && SocketPossible(w, e)
    ensures Accounted(SocketStep(w, e).net) <==> ReleaseSafe(w, OnSocket(e))
  {
    hide SyncRows, Release, Accounted;
    match e
    case EAuth(s, token, hostname, rows, luck) =>
      var a := AgentByToken(w.db.agents, token);
      if a.Some? && w.db.agents[a.value].claimCode.None? {
        SyncAccounted(w.net, Configs(w.db.tunnels, rows), s, luck);
      }
    case EDisconnect(s) =>
      var a := w.sessions[s].agent;
      if a.Some? {
        ReleaseExact(w.net, w.db.tunnels, RowsOf(w.db.tunnels, a.value));
      }
    case _ =>
  }

  lemma AccountAccounted(w: World, e: AccountEvent)
    requires Accounted(w.net) && AccountPossible(w, e)
    ensures Accounted(AccountStep(w, e).net) <==> ReleaseSafe(w, OnAccount(e))
  {
    hide SyncRows, Release, Accounted, Register;
    match e
    case ERegister(_, _, _) => RegisterNet(w, e);
    case EClaim(uid, code, pick, rows, luck) =>
      if pick.Some? && code in w.pending {
        SyncAccounted(w.net, Configs(w.db.tunnels, rows), w.pending[code], luck);
      }
    case EBan(uid) => ReleaseExact(w.net, w.db.tunnels, RowsOfUser(w.db.tunnels, uid));
    case _ =>
  }

  lemma RegisterNet(w: World, e: AccountEvent)
    requires e.ERegister? && AccountPossible(w, e)
    ensures AccountStep(w, e).net == w.net && AccountStep(w, e).db.tunnels == w.db.tunnels
  {
  }

  lemma CreateAccounted(w: World, e: TunnelEvent)
    requires e.ECreate? && Accounted(w.net)
    ensures Accounted(TunnelStep(w, e).net)
  {
    hide Clean, SubdomainTaken, StartListener, UpdateTunnel, ToggleTunnel, DeleteTunnel;
    if e.uid in w.db.users && e.agent in w.senders {
      var port := w.db.users[e.uid].dedicatedPort;
      var row := Tunnel(e.agent, e.uid, e.name, e.localPort, e.protocol, port, Clean(e.subdomain), true, e.now);
      StartAccounted(w.net.(reserved := w.net.reserved + {port}), ConfigOf(w.next, row), w.senders[e.agent], e.luck);
    }
  }

  lemma UpdateAccounted(w: World, e: TunnelEvent)
    requires e.EUpdate? && TunnelPossible(w, e) && Accounted(w.net)
    ensures Accounted(TunnelStep(w, e).net)
  {
    hide Clean, SubdomainTaken, SyncRows, Accounted, CreateTunnel, ToggleTunnel, DeleteTunnel;
    if e.tid in w.db.tunnels && w.db.tunnels[e.tid].agent in w.senders {
      var row := w.db.tunnels[e.tid].(name := e.name, localPort := e.localPort, protocol := e.protocol,
                                      subdomain := Clean(e.subdomain));
      SyncAccounted(w.net, Configs(w.db.tunnels[e.tid := row], e.rows), w.senders[row.agent], e.luck);
    }
  }

  lemma ToggleAccounted(w: World, e: TunnelEvent)
    requires e.EToggle? && Accounted(w.net)
    ensures Accounted(TunnelStep(w, e).net) <==> ReleaseSafe(w, OnTunnel(e))
  {
    hide Release, StartListener, CreateTunnel, UpdateTunnel, DeleteTunnel;
    if e.tid in w.db.tunnels {
      var row := w.db.tunnels[e.tid].(enabled := true);
      if w.db.tunnels[e.tid].enabled {
        ReleaseExact(w.net, w.db.tunnels, {e.tid});
      } else if row.agent in w.senders {
        StartAccounted(w.net.(reserved := w.net.reserved + {row.publicPort}), ConfigOf(e.tid, row),
                       w.senders[row.agent], e.luck);
      }
    }
  }

  lemma DeleteAccounted(w: World, e: TunnelEvent)
    requires e.EDelete? && Accounted(w.net)
    ensures Accounted(TunnelStep(w, e).net) <==> ReleaseSafe(w, OnTunnel(e))
  {
    hide Release, CreateTunnel, UpdateTunnel, ToggleTunnel;
    if e.tid in w.db.tunnels {
      ReleaseExact(w.net, w.db.tunnels, {e.tid});
    }
  }

  /** A step keeps every registered listener's port reserved if and only if no listener that stays is on a port
      that the step gives back. */
  lemma AccountedExact(w: World, e: Event)
    requires Accounted(w.net) && Possible(w, e)
    ensures Accounted(Step(w, e).net) <==> ReleaseSafe(w, e)
  {
    hide SocketStep, AccountStep, TunnelStep;
    match e
    case OnSocket(socket) => SocketAccounted(w, socket);
    case OnAccount(account) => AccountAccounted(w, account);
    case OnTunnel(ECreate(_, _, _, _, _, _, _, _)) => CreateAccounted(w, e.tunnel);
    case OnTunnel(EUpdate(_, _, _, _, _, _, _)) => UpdateAccounted(w, e.tunnel);
    case OnTunnel(EToggle(_, _)) => ToggleAccounted(w, e.tunnel);
    case OnTunnel(EDelete(_)) => DeleteAccounted(w, e.tunnel);
    case _ =>
  }

  // ---------- every reserved port has a row ----------

  ghost predicate RowOn(tunnels: map<Id, Tunnel>, port: Port) {
    exists t :: t in tunnels && tunnels[t].publicPort == port
  }

  ghost predicate AllBacked(tunnels: map<Id, Tunnel>, reserved: set<Port>) {
    forall p :: p in reserved ==> RowOn(tunnels, p)
  }

  ghost predicate Backed(w: World) { AllBacked(w.db.tunnels, w.net.reserved) }

  /** The request passes every check, and then the insert fails for want of the agent. */
  ghost predicate InsertFails(w: World, uid: Id, agent: Id, subdomain: Option<string>) {
    && uid in w.db.users && agent !in w.db.agents
    && !(Clean(subdomain).Some? && SubdomainTaken(w.db.tunnels, Clean(subdomain).value, None))
    && w.db.users[uid].dedicatedPort >= 1024 && w.db.users[uid].dedicatedPort !in w.net.reserved
  }

  /** A creation does not fail at the insert, unless there is already a row on its port; the reserved ports of a
      deleted agent's rows have rows of other agents. */
  ghost predicate KeepsRows(w: World, e: Event) {
    match e
    case OnTunnel(ECreate(uid, agent, _, _, _, subdomain, _, _)) =>
      InsertFails(w, uid, agent, subdomain) ==> RowOn(w.db.tunnels, w.db.users[uid].dedicatedPort)
    case OnAccount(EDeleteAgent(a)) =>
      forall t :: t in RowsOf(w.db.tunnels, a) && w.db.tunnels[t].publicPort in w.net.reserved ==>
        exists u :: u in w.db.tunnels && w.db.tunnels[u].agent != a
                    && w.db.tunnels[u].publicPort == w.db.tunnels[t].publicPort
    case _ => true
  }

  /** A creation reserves a port without adding a row exactly when its insert fails, and then does nothing else. */
  lemma FailedInsertExact(w: World, uid: Id, agent: Id, name: string, localPort: Port, protocol: string,
                          subdomain: Option<string>, now: int, luck: set<Id>)
    requires w.next !in w.db.tunnels
    ensures var (v, reply) := CreateTunnel(w, uid, agent, name, localPort, protocol, subdomain, now, luck);
      && (v.net.reserved != w.net.reserved && v.db.tunnels == w.db.tunnels <==> InsertFails(w, uid, agent, subdomain))
      && (reply == Failed <==> InsertFails(w, uid, agent, subdomain))
      && (InsertFails(w, uid, agent, subdomain) ==>
            v == w.(net := w.net.(reserved := w.net.reserved + {w.db.users[uid].dedicatedPort})))
  {
    hide Clean, SubdomainTaken, StartListener, ConfigOf;
    var (v, reply) := CreateTunnel(w, uid, agent, name, localPort, protocol, subdomain, now, luck);
    if reply.Created? {
      assert w.next in v.db.tunnels;
    }
  }

  lemma CreateBacked(w: World, e: TunnelEvent)
    requires e.ECreate? && Backed(w) && w.next !in w.db.tunnels
    ensures Backed(TunnelStep(w, e)) <==> KeepsRows(w, OnTunnel(e))
  {
    hide Clean, SubdomainTaken, StartListener, ConfigOf, CreateTunnel, UpdateTunnel, ToggleTunnel, DeleteTunnel, RowOn;
    CreateReserves(w, e);
    var v := TunnelStep(w, e);
    if v.db.tunnels != w.db.tunnels {
      RowPut(w.db.tunnels, w.next, v.db.tunnels[w.next], w.net.reserved, v.net.reserved);
    } else if InsertFails(w, e.uid, e.agent, e.subdomain) {
      assert w.db.users[e.uid].dedicatedPort in v.net.reserved;
    }
  }

  lemma CreateReserves(w: World, e: TunnelEvent)
    requires e.ECreate? && w.next !in w.db.tunnels
    ensures var v := TunnelStep(w, e); var fails := InsertFails(w, e.uid, e.agent, e.subdomain);
      && (fails ==>
            v.db.tunnels == w.db.tunnels && v.net.reserved == w.net.reserved + {w.db.users[e.uid].dedicatedPort})
      && (v.db.tunnels == w.db.tunnels && !fails ==> v.net.reserved == w.net.reserved)
      && (v.db.tunnels != w.db.tunnels ==>
            w.next in v.db.tunnels && v.db.tunnels == w.db.tunnels[w.next := v.db.tunnels[w.next]] && !fails
            && v.net.reserved == w.net.reserved + {v.db.tunnels[w.next].publicPort})
  {
    hide Clean, SubdomainTaken, ListenerOf, Busy, UpdateTunnel, ToggleTunnel, DeleteTunnel;
  }

  /** A row that is added, or edited on its port, backs its port and leaves the others backed. */
  lemma RowPut(tunnels: map<Id, Tunnel>, t: Id, row: Tunnel, before: set<Port>, after: set<Port>)
    requires AllBacked(tunnels, before) && (t in tunnels ==> row.publicPort == tunnels[t].publicPort)
    requires forall p :: p in after ==> p in before || p == row.publicPort
    ensures AllBacked(tunnels[t := row], after)
  {
    forall p | p in after ensures RowOn(tunnels[t := row], p) {
      if p == row.publicPort {
        assert t in tunnels[t := row] && tunnels[t := row][t].publicPort == p;
      } else {
        assert RowOn(tunnels, p);
        var u :| u in tunnels && tunnels[u].publicPort == p;
        assert u in tunnels[t := row] && tunnels[t := row][u].publicPort == p;
      }
    }
  }

  lemma {:induction false} SyncReserves(n: Net, cs: seq<Config>, chan: Id, luck: set<Id>)
    ensures SyncRows(n, cs, chan, luck).reserved == n.reserved + EnabledPorts(cs)
  {
    if cs == [] {
      assert EnabledPorts(cs) == {};
    } else {
      SyncReserves(n, cs[..|cs| - 1], chan, luck);
      PortsGrow(cs);
    }
  }

  /** Resynchronising on listed rows reserves only ports of rows. */
  lemma SyncBacked(n: Net, tunnels: map<Id, Tunnel>, rows: seq<Id>, chan: Id, luck: set<Id>)
    requires AllBacked(tunnels, n.reserved) && forall t :: t in rows ==> t in tunnels
    ensures AllBacked(tunnels, SyncRows(n, Configs(tunnels, rows), chan, luck).reserved)
  {
    hide SyncRows;
    var cs := Configs(tunnels, rows);
    SyncReserves(n, cs, chan, luck);
    forall p | p in EnabledPorts(cs) ensures RowOn(tunnels, p) {
      var i :| 0 <= i < |cs| && cs[i].enabled && cs[i].publicPort == p;
      assert rows[i] in tunnels && tunnels[rows[i]].publicPort == p;
    }
  }

  lemma SocketBacked(w: World, e: SocketEvent)
    requires Backed(w) && SocketPossible(w, e)
    ensures Backed(SocketStep(w, e))
  {
    hide SyncRows, Configs, RowOn;
    if e.EAuth? {
      var a := AgentByToken(w.db.agents, e.token);
      if a.Some? && w.db.agents[a.value].claimCode.None? {
        SyncBacked(w.net, w.db.tunnels, e.rows, e.s, e.luck);
      }
    }
  }

  lemma DeleteAgentBacked(w: World, a: Id)
    requires Backed(w)
    ensures Backed(DeleteAgent(w, a)) <==> KeepsRows(w, OnAccount(EDeleteAgent(a)))
  {
    var v := DeleteAgent(w, a);
    if KeepsRows(w, OnAccount(EDeleteAgent(a))) {
      forall p | p in v.net.reserved ensures RowOn(v.db.tunnels, p) {
        var t :| t in w.db.tunnels && w.db.tunnels[t].publicPort == p;
        if t in RowsOf(w.db.tunnels, a) {
          var u :| u in w.db.tunnels && w.db.tunnels[u].agent != a && w.db.tunnels[u].publicPort == p;
          assert u in v.db.tunnels && v.db.tunnels[u].publicPort == p;
        } else {
          assert t in v.db.tunnels && v.db.tunnels[t].publicPort == p;
        }
      }
    }
    if Backed(v) {
      forall t | t in RowsOf(w.db.tunnels, a) && w.db.tunnels[t].publicPort in w.net.reserved
        ensures exists u :: u in w.db.tunnels && w.db.tunnels[u].agent != a
                            && w.db.tunnels[u].publicPort == w.db.tunnels[t].publicPort
      {
        assert RowOn(v.db.tunnels, w.db.tunnels[t].publicPort);
        var u :| u in v.db.tunnels && v.db.tunnels[u].publicPort == w.db.tunnels[t].publicPort;
        assert u in w.db.tunnels && w.db.tunnels[u].agent != a;
      }
    }
  }

  lemma AccountBacked(w: World, e: AccountEvent)
    requires Backed(w) && AccountPossible(w, e)
    ensures Backed(AccountStep(w, e)) <==> KeepsRows(w, OnAccount(e))
  {
    hide SyncRows, Configs, RowOn, Register, DeleteAgent;
    match e
    case ERegister(_, _, _) => RegisterNet(w, e);
    case EDeleteAgent(a) => DeleteAgentBacked(w, a);
    case EClaim(uid, code, pick, rows, luck) =>
      if pick.Some? && code in w.pending {
        SyncBacked(w.net, w.db.tunnels, rows, w.pending[code], luck);
      }
    case _ =>
  }

  lemma UpdateBacked(w: World, e: TunnelEvent)
    requires e.EUpdate? && TunnelPossible(w, e) && Backed(w)
    ensures Backed(TunnelStep(w, e))
  {
    hide Clean, SubdomainTaken, SyncRows, Configs, RowOn, CreateTunnel, ToggleTunnel, DeleteTunnel;
    if e.tid in w.db.tunnels {
      var row := w.db.tunnels[e.tid].(name := e.name, localPort := e.localPort, protocol := e.protocol,
                                      subdomain := Clean(e.subdomain));
      RowPut(w.db.tunnels, e.tid, row, w.net.reserved, w.net.reserved);
      if row.agent in w.senders {
        SyncBacked(w.net, w.db.tunnels[e.tid := row], e.rows, w.senders[row.agent], e.luck);
      }
    }
  }

  lemma ToggleBacked(w: World, e: TunnelEvent)
    requires e.EToggle? && Backed(w)
    ensures Backed(TunnelStep(w, e))
  {
    hide RowOn, AllBacked, Busy, ListenerOf, CreateTunnel, UpdateTunnel, DeleteTunnel;
    if e.tid in w.db.tunnels {
      var row := w.db.tunnels[e.tid].(enabled := !w.db.tunnels[e.tid].enabled);
      var v := TunnelStep(w, e);
      RowPut(w.db.tunnels, e.tid, row, w.net.reserved, v.net.reserved);
    }
  }

  lemma DeleteBacked(w: World, e: TunnelEvent)
    requires e.EDelete? && Backed(w)
    ensures Backed(TunnelStep(w, e))
  {
    hide CreateTunnel, UpdateTunnel, ToggleTunnel;
    var v := TunnelStep(w, e);
    if e.tid in w.db.tunnels {
      assert w.db.tunnels[e.tid].publicPort !in v.net.reserved by {
        assert w.db.tunnels[e.tid].publicPort in set t | t in {e.tid} :: w.db.tunnels[t].publicPort;
      }
      forall p | p in v.net.reserved ensures RowOn(v.db.tunnels, p) {
        var t :| t in w.db.tunnels && w.db.tunnels[t].publicPort == p;
        assert t in v.db.tunnels && v.db.tunnels[t].publicPort == p;
      }
    }
  }

  /** A step keeps a row for every reserved port if and only if it is no creation whose insert fails on a port
      without a row, and no deletion of an agent that takes the last row of a reserved port. */
  lemma BackedExact(w: World, e: Event)
    requires Tables(w) && Backed(w) && Possible(w, e)
    ensures Backed(Step(w, e)) <==> KeepsRows(w, e)
  {
    hide SocketStep, AccountStep, TunnelStep, InsertFails, RowOn;
    match e
    case OnSocket(socket) => SocketBacked(w, socket);
    case OnAccount(account) => AccountBacked(w, account);
    case OnTunnel(ECreate(_, _, _, _, _, _, _, _)) => CreateBacked(w, e.tunnel);
    case OnTunnel(EUpdate(_, _, _, _, _, _, _)) => UpdateBacked(w, e.tunnel);
    case OnTunnel(EToggle(_, _)) => ToggleBacked(w, e.tunnel);
    case OnTunnel(EDelete(_)) => DeleteBacked(w, e.tunnel);
    case _ =>
  }
}
