/** Registry agreement: the handlers keep tunnel_tasks in step with the rows and with agent_senders. */
module Registry {
  import opened Types
  import opened Strings
  import opened World
  import opened Lifecycle
  import opened Listeners

  lemma AbortAgrees(tunnels: map<Id, Tunnel>, senders: map<Id, Id>, n: Net, ids: set<Id>, reserved: set<Port>)
    requires forall t :: t !in ids ==> RowAgrees(tunnels, senders, n, t)
    ensures Agree(tunnels, senders, Abort(n, ids).(reserved := reserved))
  {
    var m := Abort(n, ids).(reserved := reserved);
    forall t ensures RowAgrees(tunnels, senders, m, t) {
      assert t !in ids ==> RowAgrees(tunnels, senders, n, t);
    }
  }

  lemma StartAgrees(tunnels: map<Id, Tunnel>, senders: map<Id, Id>, n: Net, t: Id, luck: set<Id>)
    requires t in tunnels && tunnels[t].enabled && tunnels[t].agent in senders
    requires forall u :: u != t ==> RowAgrees(tunnels, senders, n, u)
    ensures Agree(tunnels, senders, StartListener(n, ConfigOf(t, tunnels[t]), senders[tunnels[t].agent], luck))
  {
    var m := StartListener(n, ConfigOf(t, tunnels[t]), senders[tunnels[t].agent], luck);
    forall u ensures RowAgrees(tunnels, senders, m, u) {
      assert u != t ==> RowAgrees(tunnels, senders, n, u);
    }
  }

  /** Growing tables do not disturb the listeners. */
  lemma StaysHome(n: Net, db: Db, creator: map<Id, Id>, next: Id, db': Db, creator': map<Id, Id>, next': Id)
    requires NetOk(n, db.users, creator) && Grows(db, next, db', next')
    requires forall t :: t in creator ==> t in creator' && creator'[t] == creator[t]
    ensures NetOk(n, db'.users, creator')
  {
  }

  lemma RowHome(db: Db, creator: map<Id, Id>, next: Id, t: Id)
    requires TablesOk(db, creator, next) && t in db.tunnels
    ensures ConfigHome(ConfigOf(t, db.tunnels[t]), db.users, creator)
  {
  }

  lemma RowsHome(db: Db, creator: map<Id, Id>, next: Id, rows: seq<Id>)
    requires TablesOk(db, creator, next) && forall t :: t in rows ==> t in db.tunnels
    ensures var cs := Configs(db.tunnels, rows);
      forall i :: 0 <= i < |cs| ==> ConfigHome(cs[i], db.users, creator)
  {
    forall i | 0 <= i < |rows| ensures ConfigHome(Configs(db.tunnels, rows)[i], db.users, creator) {
      RowHome(db, creator, next, rows[i]);
    }
  }

  ghost predicate Wired(n: Net, db: Db, creator: map<Id, Id>, senders: map<Id, Id>) {
    NetOk(n, db.users, creator) && Agree(db.tunnels, senders, n)
  }

  /** Making a channel the sender of an agent and resynchronising its tunnels, whatever was registered for it. */
  lemma ConnectedWired(n: Net, db: Db, creator: map<Id, Id>, next: Id, senders: map<Id, Id>, a: Id, s: Id,
                       rows: seq<Id>, luck: set<Id>)
    requires TablesOk(db, creator, next) && NetOk(n, db.users, creator)
    requires forall t :: t in db.tunnels && db.tunnels[t].agent != a ==> RowAgrees(db.tunnels, senders, n, t)
    requires forall t :: t in db.tunnels && db.tunnels[t].agent == a && t in n.tasks ==> db.tunnels[t].enabled
    requires IsListing(db.tunnels, a, rows)
    ensures Wired(SyncRows(n, Configs(db.tunnels, rows), s, luck), db, creator, senders[a := s])
  {
    RowsHome(db, creator, next, rows);
    SyncOk(n, db.users, creator, Configs(db.tunnels, rows), s, luck);
    forall t | t in db.tunnels && db.tunnels[t].agent != a ensures RowAgrees(db.tunnels, senders[a := s], n, t) {
      assert RowAgrees(db.tunnels, senders, n, t);
    }
    SyncAgrees(db.tunnels, senders[a := s], n, a, rows, luck);
  }

  lemma ReleasedWired(n: Net, db: Db, creator: map<Id, Id>, senders: map<Id, Id>, ids: set<Id>)
    requires NetOk(n, db.users, creator) && ids <= db.tunnels.Keys
    requires forall t :: t !in ids ==> RowAgrees(db.tunnels, senders, n, t)
    ensures Wired(Release(n, db.tunnels, ids), db, creator, senders)
  {
    var reserved := Release(n, db.tunnels, ids).reserved;
    AbortOk(n, db.users, creator, ids, reserved);
    AbortAgrees(db.tunnels, senders, n, ids, reserved);
  }

  ghost predicate WiredWorld(w: World) { Wired(w.net, w.db, w.creator, w.senders) }

  lemma EnabledIfRegistered(tunnels: map<Id, Tunnel>, senders: map<Id, Id>, n: Net)
    requires Agree(tunnels, senders, n)
    ensures forall t :: t in tunnels && t in n.tasks ==>
      tunnels[t].enabled && tunnels[t].agent in senders && n.tasks[t].port == tunnels[t].publicPort
  {
    forall t | t in tunnels && t in n.tasks
      ensures tunnels[t].enabled && tunnels[t].agent in senders && n.tasks[t].port == tunnels[t].publicPort
    {
      assert RowAgrees(tunnels, senders, n, t);
    }
  }

  lemma AuthWired(w: World, s: Id, token: Id, hostname: string, rows: seq<Id>, luck: set<Id>)
    requires Tables(w) && WiredWorld(w) && s in w.sessions && AuthListing(w, token, rows)
    ensures WiredWorld(Auth(w, s, token, hostname, rows, luck))
  {
    var a := AgentByToken(w.db.agents, token);
    if a.Some? && w.db.agents[a.value].claimCode.None? {
      var db := PutAgent(w.db, a.value, w.db.agents[a.value].(online := true, name := hostname));
      EnabledIfRegistered(w.db.tunnels, w.senders, w.net);
      SocketTables(w, EAuth(s, token, hostname, rows, luck));
      ConnectedWired(w.net, db, w.creator, w.next, w.senders, a.value, s, rows, luck);
    }
  }

  lemma DisconnectWired(w: World, s: Id)
    requires WiredWorld(w) && s in w.sessions
    ensures WiredWorld(Disconnect(w, s))
  {
    var a := w.sessions[s].agent;
    if a.Some? {
      var db, rows := SetOnline(w.db, a.value, false), RowsOf(w.db.tunnels, a.value);
      forall t | t !in rows ensures RowAgrees(db.tunnels, w.senders - {a.value}, w.net, t) {
        assert RowAgrees(w.db.tunnels, w.senders, w.net, t);
      }
      ReleasedWired(w.net, db, w.creator, w.senders - {a.value}, rows);
    }
  }

  lemma ClaimWired(w: World, uid: Id, code: Code, pick: Option<Id>, rows: seq<Id>, luck: set<Id>)
    requires Tables(w) && WiredWorld(w) && ClaimAnswer(w, code, pick, rows)
    ensures WiredWorld(Claim(w, uid, code, pick, rows, luck).0)
  {
    if pick.Some? && uid in w.db.users && code in w.pending {
      var a := pick.value;
      var db := PutAgent(w.db, a, w.db.agents[a].(claimCode := None, owner := Some(uid), online := true));
      EnabledIfRegistered(w.db.tunnels, w.senders, w.net);
      AccountTables(w, EClaim(uid, code, pick, rows, luck));
      ConnectedWired(w.net, db, w.creator, w.next, w.senders, a, w.pending[code], rows, luck);
    }
  }

  lemma DeleteAgentWired(w: World, a: Id)
    requires WiredWorld(w)
    ensures WiredWorld(DeleteAgent(w, a))
  {
    var db := RemoveAgent(w.db, a);
    forall t ensures RowAgrees(db.tunnels, w.senders - {a}, w.net, t) {
      assert RowAgrees(w.db.tunnels, w.senders, w.net, t);
    }
  }

  lemma BanWired(w: World, uid: Id)
    requires Tables(w) && WiredWorld(w)
    ensures WiredWorld(Ban(w, uid))
  {
    BanSet(w.db, w.creator, w.next, uid, true);
    StaysHome(w.net, w.db, w.creator, w.next, SetBanned(w.db, uid, true), w.creator, w.next);
    ReleasedWired(w.net, SetBanned(w.db, uid, true), w.creator, w.senders, RowsOfUser(w.db.tunnels, uid));
  }

  /** Starting the listener of an enabled row, or leaving it without one while its agent is away. */
  lemma RowStartedWired(n: Net, db: Db, creator: map<Id, Id>, next: Id, senders: map<Id, Id>, t: Id, luck: set<Id>)
    requires TablesOk(db, creator, next) && NetOk(n, db.users, creator)
    requires t in db.tunnels && db.tunnels[t].enabled
    requires forall u :: u != t ==> RowAgrees(db.tunnels, senders, n, u)
    ensures var row := db.tunnels[t];
      if row.agent in senders then
        Wired(StartListener(n, ConfigOf(t, row), senders[row.agent], luck), db, creator, senders)
      else t !in n.tasks ==> Wired(n, db, creator, senders)
  {
    var row := db.tunnels[t];
    if row.agent in senders {
      RowHome(db, creator, next, t);
      StartOk(n, db.users, creator, ConfigOf(t, row), senders[row.agent], luck);
      StartAgrees(db.tunnels, senders, n, t, luck);
    } else if t !in n.tasks {
      assert RowAgrees(db.tunnels, senders, n, t);
    }
  }

  /** Changing one row, and what is reserved, leaves the agreement of the others as it was. */
  lemma OtherRowsAgree(db: Db, senders: map<Id, Id>, n: Net, t: Id, row: Tunnel, tunnels: map<Id, Tunnel>, n': Net)
    requires Agree(db.tunnels, senders, n) && tunnels == PutTunnel(db, t, row).tunnels
    requires n'.tasks == n.tasks
    ensures forall u :: u != t ==> RowAgrees(tunnels, senders, n', u)
  {
    forall u | u != t ensures RowAgrees(tunnels, senders, n', u) {
      assert RowAgrees(db.tunnels, senders, n, u);
    }
  }

  lemma ListingKept(db: Db, t: Id, row: Tunnel, a: Id, rows: seq<Id>)
    requires IsListing(db.tunnels, a, rows) && t in db.tunnels
    requires row.agent == db.tunnels[t].agent && row.createdAt == db.tunnels[t].createdAt
    ensures IsListing(PutTunnel(db, t, row).tunnels, a, rows)
  {
  }

  lemma RowAddedWired(n: Net, db: Db, creator: map<Id, Id>, next: Id, senders: map<Id, Id>, row: Tunnel,
                      luck: set<Id>, reserved: set<Port>)
    requires TablesOk(db, creator, next) && Wired(n, db, creator, senders)
    requires row.user in db.users && row.agent in db.agents && row.enabled
    requires row.publicPort == db.users[row.user].dedicatedPort
    ensures var db', n' := PutTunnel(db, next, row), n.(reserved := reserved);
      Wired(if row.agent in senders then StartListener(n', ConfigOf(next, row), senders[row.agent], luck) else n',
            db', creator[next := row.user], senders)
  {
    TunnelAdded(db, creator, next, row);
    assert next !in n.tasks;
    var n', db' := n.(reserved := reserved), PutTunnel(db, next, row);
    StaysHome(n', db, creator, next, db', creator[next := row.user], next + 1);
    OtherRowsAgree(db, senders, n, next, row, db'.tunnels, n');
    hide TablesOk, NetOk, RowAgrees, StartListener, Grows;
    RowStartedWired(n', db', creator[next := row.user], next + 1, senders, next, luck);
  }

  lemma CreateWired(w: World, uid: Id, agent: Id, name: string, localPort: Port, protocol: string,
                    subdomain: Option<string>, now: int, luck: set<Id>)
    requires Tables(w) && WiredWorld(w)
    ensures WiredWorld(CreateTunnel(w, uid, agent, name, localPort, protocol, subdomain, now, luck).0)
  {
    if uid in w.db.users {
      var port := w.db.users[uid].dedicatedPort;
      SameButReserved(w.net, w.db, w.creator, w.senders, w.net.reserved + {port});
      hide Clean, SubdomainTaken, StartListener, Wired, TablesOk, ConfigOf;
      if agent in w.db.agents {
        var row := Tunnel(agent, uid, name, localPort, protocol, port, Clean(subdomain), true, now);
        RowAddedWired(w.net, w.db, w.creator, w.next, w.senders, row, luck, w.net.reserved + {port});
      }
    }
  }

  lemma SameButReserved(n: Net, db: Db, creator: map<Id, Id>, senders: map<Id, Id>, reserved: set<Port>)
    requires Wired(n, db, creator, senders)
    ensures Wired(n.(reserved := reserved), db, creator, senders)
  {
    assert forall t :: RowAgrees(db.tunnels, senders, n, t) ==>
      RowAgrees(db.tunnels, senders, n.(reserved := reserved), t);
  }

  lemma RowEditedWired(n: Net, db: Db, creator: map<Id, Id>, next: Id, senders: map<Id, Id>, t: Id, row: Tunnel,
                       rows: seq<Id>, luck: set<Id>)
    requires TablesOk(db, creator, next) && Wired(n, db, creator, senders)
    requires t in db.tunnels && row.user == db.tunnels[t].user && row.agent == db.tunnels[t].agent
    requires row.publicPort == db.tunnels[t].publicPort && row.enabled == db.tunnels[t].enabled
    requires row.createdAt == db.tunnels[t].createdAt && IsListing(db.tunnels, row.agent, rows)
    ensures var db' := PutTunnel(db, t, row);
      Wired(if row.agent in senders then SyncRows(n, Configs(db'.tunnels, rows), senders[row.agent], luck) else n,
            db', creator, senders)
  {
    hide TablesOk, NetOk, RowAgrees, SyncRows, Grows, Agree;
    var db' := PutTunnel(db, t, row);
    TunnelChanged(db, creator, next, t, row);
    EnabledIfRegistered(db.tunnels, senders, n);
    OtherRowsAgree(db, senders, n, t, row, db'.tunnels, n);
    ListingKept(db, t, row, row.agent, rows);
    if row.agent in senders {
      ConnectedWired(n, db', creator, next, senders, row.agent, senders[row.agent], rows, luck);
      assert senders[row.agent := senders[row.agent]] == senders;
    } else {
      RowOff(db'.tunnels, senders, n, t);
    }
  }

  lemma RowOff(tunnels: map<Id, Tunnel>, senders: map<Id, Id>, n: Net, t: Id)
    requires t !in n.tasks && forall u :: u != t ==> RowAgrees(tunnels, senders, n, u)
    ensures Agree(tunnels, senders, n)
  {
  }

  lemma UpdateWired(w: World, tid: Id, name: string, localPort: Port, protocol: string,
                    subdomain: Option<string>, rows: seq<Id>, luck: set<Id>)
    requires Tables(w) && WiredWorld(w) && UpdateListing(w, tid, rows)
    ensures WiredWorld(UpdateTunnel(w, tid, name, localPort, protocol, subdomain, rows, luck).0)
  {
    if tid in w.db.tunnels {
      hide Clean, SubdomainTaken, SyncRows, Configs, Wired, TablesOk;
      var row := w.db.tunnels[tid].(name := name, localPort := localPort, protocol := protocol,
                                    subdomain := Clean(subdomain));
      RowEditedWired(w.net, w.db, w.creator, w.next, w.senders, tid, row, rows, luck);
    }
  }

  lemma RowEnabledWired(n: Net, db: Db, creator: map<Id, Id>, next: Id, senders: map<Id, Id>, t: Id, luck: set<Id>)
    requires TablesOk(db, creator, next) && Wired(n, db, creator, senders)
    requires t in db.tunnels && !db.tunnels[t].enabled
    ensures var row := db.tunnels[t].(enabled := true);
      var db', n' := PutTunnel(db, t, row), n.(reserved := n.reserved + {row.publicPort});
      Wired(if row.agent in senders then StartListener(n', ConfigOf(t, row), senders[row.agent], luck) else n',
            db', creator, senders)
  {
    hide TablesOk, RowAgrees, StartListener, Grows, NetOk;
    var row := db.tunnels[t].(enabled := true);
    var db', n' := PutTunnel(db, t, row), n.(reserved := n.reserved + {row.publicPort});
    TunnelChanged(db, creator, next, t, row);
    EnabledIfRegistered(db.tunnels, senders, n);
    OtherRowsAgree(db, senders, n, t, row, db'.tunnels, n');
    SameButReserved(n, db, creator, senders, n'.reserved);
    RowStartedWired(n', db', creator, next, senders, t, luck);
  }

  lemma RowDisabledWired(n: Net, db: Db, creator: map<Id, Id>, senders: map<Id, Id>, t: Id)
    requires Wired(n, db, creator, senders) && t in db.tunnels
    ensures Wired(Release(n, db.tunnels, {t}), PutTunnel(db, t, db.tunnels[t].(enabled := false)), creator, senders)
  {
    hide RowAgrees, NetOk;
    var row := db.tunnels[t].(enabled := false);
    var db' := PutTunnel(db, t, row);
    OtherRowsAgree(db, senders, n, t, row, db'.tunnels, n);
    ReleasedWired(n, db', creator, senders, {t});
    SamePortsReleased(n, db.tunnels, db'.tunnels, {t});
  }

  lemma SamePortsReleased(n: Net, tunnels: map<Id, Tunnel>, tunnels': map<Id, Tunnel>, ids: set<Id>)
    requires ids <= tunnels.Keys && ids <= tunnels'.Keys
    requires forall t :: t in ids ==> tunnels[t].publicPort == tunnels'[t].publicPort
    ensures Release(n, tunnels, ids) == Release(n, tunnels', ids)
  {
    assert Release(n, tunnels, ids).reserved == Release(n, tunnels', ids).reserved;
  }

  lemma ToggleWired(w: World, tid: Id, luck: set<Id>)
    requires Tables(w) && WiredWorld(w)
    ensures WiredWorld(ToggleTunnel(w, tid, luck).0)
  {
    if tid in w.db.tunnels {
      hide StartListener, Release, Wired, TablesOk, ConfigOf;
      if w.db.tunnels[tid].enabled {
        RowDisabledWired(w.net, w.db, w.creator, w.senders, tid);
      } else {
        RowEnabledWired(w.net, w.db, w.creator, w.next, w.senders, tid, luck);
      }
    }
  }

  lemma DeleteWired(w: World, tid: Id)
    requires WiredWorld(w)
    ensures WiredWorld(DeleteTunnel(w, tid))
  {
    if tid in w.db.tunnels {
      ReleasedWired(w.net, w.db, w.creator, w.senders, {tid});
      var n := Release(w.net, w.db.tunnels, {tid});
      forall t ensures RowAgrees(RemoveTunnel(w.db, tid).tunnels, w.senders, n, t) {
        assert RowAgrees(w.db.tunnels, w.senders, n, t);
      }
    }
  }

  lemma RequestClaimWired(w: World, s: Id, hostname: string, code: Code)
    requires WiredWorld(w) && s in w.sessions
    ensures WiredWorld(RequestClaim(w, s, hostname, code))
  {
  }

  lemma AccountWired(w: World, e: AccountEvent)
    requires Tables(w) && WiredWorld(w) && AccountPossible(w, e)
    requires e.ERegister? || e.EGenerateToken? || e.EUnban?
    ensures WiredWorld(AccountStep(w, e))
  {
    AccountTables(w, e);
    var v := AccountStep(w, e);
    StaysHome(w.net, w.db, w.creator, w.next, v.db, v.creator, v.next);
  }

  lemma RestartWired(w: World)
    ensures WiredWorld(Restart(w))
  {
    assert forall t :: RowAgrees(w.db.tunnels, map[], Net({}, map[], {}), t);
  }

  lemma ExitWired(w: World, l: Listener)
    requires WiredWorld(w) && CanExit(w, l)
    ensures WiredWorld(Exit(w, l))
  {
    assert forall t :: RowAgrees(w.db.tunnels, w.senders, w.net, t) ==>
      RowAgrees(w.db.tunnels, w.senders, Exit(w, l).net, t);
  }

  lemma WiredKept(w: World, e: Event)
    requires Tables(w) && WiredWorld(w) && Possible(w, e)
    ensures WiredWorld(Step(w, e))
  {
    hide Wired, TablesOk, CreateTunnel, UpdateTunnel, ToggleTunnel, DeleteTunnel, Ban, DeleteAgent, Claim, Auth,
      Disconnect;
    match e
    case OnSocket(EAuth(s, token, hostname, rows, luck)) => AuthWired(w, s, token, hostname, rows, luck);
    case OnSocket(EDisconnect(s)) => DisconnectWired(w, s);
    case OnSocket(EConnect) =>
    case OnSocket(ERequestClaim(s, hostname, code)) => RequestClaimWired(w, s, hostname, code);
    case OnAccount(EClaim(uid, code, pick, rows, luck)) => ClaimWired(w, uid, code, pick, rows, luck);
    case OnAccount(EDeleteAgent(a)) => DeleteAgentWired(w, a);
    case OnAccount(EBan(uid)) => BanWired(w, uid);
    case OnAccount(account) => AccountWired(w, account);
    case OnTunnel(ECreate(uid, agent, name, localPort, protocol, subdomain, now, luck)) =>
      CreateWired(w, uid, agent, name, localPort, protocol, subdomain, now, luck);
    case OnTunnel(EUpdate(tid, name, localPort, protocol, subdomain, rows, luck)) =>
      UpdateWired(w, tid, name, localPort, protocol, subdomain, rows, luck);
    case OnTunnel(EToggle(tid, luck)) => ToggleWired(w, tid, luck);
    case OnTunnel(EDelete(tid)) => DeleteWired(w, tid);
    case ERestart => RestartWired(w);
    case EExit(l) => ExitWired(w, l);
  }
}
