/** The relay's shared state as an object, and the handlers as methods that update it in place. Every method
    is proved to do what the function of the same name in module World says. */
module State {
  import opened Types
  import opened DedicatedPorts
  import opened World

  lemma LeastFree(lo: Port, hi: Port, taken: set<Port>, p: Port)
    requires lo <= p <= hi && p !in taken && forall q: Port :: lo <= q < p ==> q in taken
    ensures FirstFree(Range(lo, hi), taken) == Some(p)
  {
    assert Range(lo, hi)[p - lo] == p;
    FirstFreeAt(Range(lo, hi), taken, p - lo);
  }

  class AppState {
    const lo: Port
    const hi: Port
    /** The contents of the database. */
    var db: Db
    var allocatedPorts: set<Port>
    var agentSenders: map<Id, Id>
    var pendingClaims: map<Code, Id>
    var tunnelTasks: map<Id, Listener>
    /** The proxy tasks that the runtime is still running. */
    var running: set<Listener>
    /** The locals of each running `handle_socket`. */
    var sessions: map<Id, Session>
    /** Everything sent on the agents' channels. */
    var out: seq<Sent>
    /** The next fresh Uuid. */
    var next: Id
    ghost var creator: map<Id, Id>
    ghost var shown: set<(Id, Id)>

    ghost function NetView(): Net
      reads this
    {
      Net(allocatedPorts, tunnelTasks, running)
    }

    ghost function View(): World
      reads this
    {
      World(lo, hi, db, NetView(), agentSenders, pendingClaims, sessions, out, next, creator, shown)
    }

    constructor (lo: Port, hi: Port)
      ensures View() == Start(lo, hi)
    {
      this.lo, this.hi := lo, hi;
      db := Db(map[], map[], map[]);
      allocatedPorts, tunnelTasks, running := {}, map[], {};
      agentSenders, pendingClaims, sessions := map[], map[], map[];
      out, next, creator, shown := [], 0, map[], {};
    }

    /** A preferred port is granted unless it is privileged or taken; without a preference the least free
        port of the range is granted, and None means that there is none. */
    method AllocatePort(preferred: Option<Port>) returns (r: Option<Port>)
      modifies this`allocatedPorts
      ensures r.Some? ==> r.value !in old(allocatedPorts) && allocatedPorts == old(allocatedPorts) + {r.value}
      ensures r.None? ==> allocatedPorts == old(allocatedPorts)
      ensures preferred.Some? ==>
        r == if preferred.value >= 1024 && preferred.value !in old(allocatedPorts) then preferred else None
      ensures preferred.None? ==> r == FirstFree(Range(lo, hi), old(allocatedPorts))
      ensures preferred.None? && r.Some? ==>
        lo <= r.value <= hi && forall p: Port :: lo <= p < r.value ==> p in old(allocatedPorts)
      ensures preferred.None? && r.None? ==> forall p: Port :: lo <= p <= hi ==> p in old(allocatedPorts)
    {
      if preferred.Some? {
        if preferred.value >= 1024 && preferred.value !in allocatedPorts {
          allocatedPorts := allocatedPorts + {preferred.value};
          return preferred;
        } else {
          return None;
        }
      }
      var p: int := lo;
      while p <= hi
        invariant lo <= p && (lo <= hi ==> p <= hi + 1)
        invariant allocatedPorts == old(allocatedPorts)
        invariant forall q: Port :: lo <= q < p && q <= hi ==> q in allocatedPorts
      {
        if p !in allocatedPorts {
          LeastFree(lo, hi, allocatedPorts, p);
          allocatedPorts := allocatedPorts + {p};
          return Some(p);
        }
        p := p + 1;
      }
      return None;
    }

    method FreePort(port: Port)
      modifies this`allocatedPorts
      ensures allocatedPorts == old(allocatedPorts) - {port}
    {
      allocatedPorts := allocatedPorts - {port};
    }

    method Send(to: Id, msg: Msg)
      modifies this`out
      ensures out == old(out) + [Sent(to, msg)]
    {
      out := out + [Sent(to, msg)];
    }
  }
}

module TunnelManager {
  import opened Types
  import opened World
  import opened State

  method StopTunnelListener(state: AppState, id: Id)
    modifies state`tunnelTasks, state`running
    ensures state.NetView() == Abort(old(state.NetView()), {id})
  {
    if id in state.tunnelTasks {
      var handle := state.tunnelTasks[id];
      state.tunnelTasks := state.tunnelTasks - {id};
      state.running := state.running - {handle};
      assert (set t | t in {id} && t in old(state.tunnelTasks) :: old(state.tunnelTasks)[t]) == {handle};
    } else {
      assert state.tunnelTasks - {id} == state.tunnelTasks;
      assert (set t | t in {id} && t in old(state.tunnelTasks) :: old(state.tunnelTasks)[t]) == {};
    }
  }

  /** `luck` holds the tunnels whose bind the system would grant; a bind on a held address always fails. */
  method StartTunnelListener(state: AppState, tunnel: Config, agentSender: Id, luck: set<Id>) returns (ok: bool)
    modifies state`tunnelTasks, state`running
    ensures state.NetView() == StartListener(old(state.NetView()), tunnel, agentSender, luck)
    ensures ok <==> tunnel.id in state.tunnelTasks
    ensures ok ==> ListenerOf(tunnel, agentSender) in state.running
  {
    StopTunnelListener(state, tunnel.id);
    var kind := KindOf(tunnel.protocol);
    var bound := tunnel.id in luck
                 && !(exists l :: l in state.running && l.kind == kind && l.port == tunnel.publicPort);
    if bound {
      var handle := Listener(tunnel.id, kind, tunnel.publicPort, agentSender);
      state.running := state.running + {handle};
      state.tunnelTasks := state.tunnelTasks[tunnel.id := handle];
    }
    ok := bound;
  }

  function Elements(rows: seq<Id>): (s: set<Id>)
    ensures forall t :: t in s <==> t in rows
  {
    set t | t in rows
  }

  lemma ReleaseMore(n: Net, tunnels: map<Id, Tunnel>, ids: set<Id>, t: Id)
    requires ids <= tunnels.Keys && t in tunnels && t !in ids
    ensures var m := Abort(Release(n, tunnels, ids), {t});
      m.(reserved := m.reserved - {tunnels[t].publicPort}) == Release(n, tunnels, ids + {t})
  {
    var m, all := Abort(Release(n, tunnels, ids), {t}), Release(n, tunnels, ids + {t});
    assert m.tasks == all.tasks;
    AbortTwice(n, ids, t);
    var ports := set u | u in ids :: tunnels[u].publicPort;
    assert (set u | u in ids + {t} :: tunnels[u].publicPort) == ports + {tunnels[t].publicPort};
  }

  lemma ReleaseNothing(n: Net, tunnels: map<Id, Tunnel>, ids: set<Id>)
    requires ids == {}
    ensures Release(n, tunnels, ids) == n
  {
    var m := Release(n, tunnels, ids);
    assert m.tasks == n.tasks && m.live == n.live && m.reserved == n.reserved;
  }

  lemma AbortTwice(n: Net, ids: set<Id>, t: Id)
    requires t !in ids
    ensures Abort(Abort(n, ids), {t}).live == Abort(n, ids + {t}).live
  {
    var m := Abort(n, ids);
    var first := set u | u in ids && u in n.tasks :: n.tasks[u];
    var both := set u | u in ids + {t} && u in n.tasks :: n.tasks[u];
    var second := set u | u in {t} && u in m.tasks :: m.tasks[u];
    forall l ensures l in both <==> l in first || l in second {
      if l in second {
        assert t in n.tasks && n.tasks[t] == l;
      }
      if l in both {
        var u :| u in ids + {t} && u in n.tasks && n.tasks[u] == l;
        assert u == t ==> t in m.tasks && m.tasks[t] == l;
      }
    }
  }

  /** The loop of `cleanup_agent` and `admin_ban_user`: stop each listener, free each port. */
  method StopRows(state: AppState, rows: seq<Id>)
    requires forall t :: t in rows ==> t in state.db.tunnels
    requires forall i, j :: 0 <= i < j < |rows| ==> rows[i] != rows[j]
    modifies state`tunnelTasks, state`running, state`allocatedPorts
    ensures state.NetView() == Release(old(state.NetView()), state.db.tunnels, Elements(rows))
  {
    ghost var n := state.NetView();
    ReleaseNothing(n, state.db.tunnels, Elements(rows[..0]));
    for i := 0 to |rows|
      invariant state.NetView() == Release(n, state.db.tunnels, Elements(rows[..i]))
    {
      assert Elements(rows[..i + 1]) == Elements(rows[..i]) + {rows[i]};
      ReleaseMore(n, state.db.tunnels, Elements(rows[..i]), rows[i]);
      StopTunnelListener(state, rows[i]);
      state.FreePort(state.db.tunnels[rows[i]].publicPort);
    }
    assert rows[..|rows|] == rows;
  }
}

module WsHandler {
  import opened Types
  import opened World
  import opened State
  import opened TunnelManager

  /** `sync_agent_tunnels` on the rows its query returned. */
  method SyncAgentTunnels(state: AppState, agent: Id, rows: seq<Id>, agentSender: Id, luck: set<Id>)
    requires IsListing(state.db.tunnels, agent, rows)
    modifies state`tunnelTasks, state`running, state`allocatedPorts, state`out
    ensures state.View() == Sync(old(state.View()), agentSender, rows, luck)
  {
    ghost var n, all := state.NetView(), Configs(state.db.tunnels, rows);
    var tunnelConfigs := [];
    for i := 0 to |rows|
      invariant tunnelConfigs == all[..i]
      invariant state.NetView() == SyncRows(n, all[..i], agentSender, luck)
      invariant state.out == old(state.out)
    {
      var t := state.db.tunnels[rows[i]];
      var config := Config(rows[i], agent, t.name, t.localPort, t.protocol, t.publicPort, t.subdomain, t.enabled);
      assert config == all[i];
      assert all[..i + 1][..i] == all[..i];
      if config.enabled {
        state.allocatedPorts := state.allocatedPorts + {config.publicPort};
        var _ := StartTunnelListener(state, config, agentSender, luck);
      }
      tunnelConfigs := tunnelConfigs + [config];
    }
    assert all[..|rows|] == all;
    state.Send(agentSender, SyncTunnels(tunnelConfigs));
  }

  method OnConnect(state: AppState) returns (s: Id)
    modifies state`sessions, state`next
    ensures s == old(state.next) && state.View() == Connect(old(state.View()))
  {
    s := state.next;
    state.next := state.next + 1;
    state.sessions := state.sessions[s := Session(None, None)];
  }

  method OnRequestClaim(state: AppState, s: Id, hostname: string, code: Code)
    requires s in state.sessions
    modifies state
    ensures state.View() == RequestClaim(old(state.View()), s, hostname, code)
  {
    var id, token := state.next, state.next + 1;
    state.next := state.next + 2;
    state.db := PutAgent(state.db, id, Agent(None, token, Some(code), hostname, false));
    state.sessions := state.sessions[s := state.sessions[s].(code := Some(code))];
    state.pendingClaims := state.pendingClaims[code := s];
    state.Send(s, ClaimReady(code, token));
    state.shown := state.shown + {(s, id)};
  }

  /** The UNIQUE constraint on tokens. */
  ghost predicate TokensUnique(db: Db) {
    forall a, b :: a in db.agents && b in db.agents && db.agents[a].token == db.agents[b].token ==> a == b
  }

  method GetAgentByToken(state: AppState, token: Id) returns (r: Option<Id>)
    requires TokensUnique(state.db)
    ensures r == AgentByToken(state.db.agents, token)
  {
    if exists a :: a in state.db.agents && state.db.agents[a].token == token {
      var a :| a in state.db.agents && state.db.agents[a].token == token;
      return Some(a);
    }
    return None;
  }

  method OnAuth(state: AppState, s: Id, token: Id, hostname: string, rows: seq<Id>, luck: set<Id>)
    requires s in state.sessions && TokensUnique(state.db) && AuthListing(state.View(), token, rows)
    modifies state
    ensures state.View() == Auth(old(state.View()), s, token, hostname, rows, luck)
  {
    hide IsListing, SyncRows, Configs, TokensUnique, AgentByToken;
    var found := GetAgentByToken(state, token);
    if found.Some? {
      var a := found.value;
      var agent := state.db.agents[a];
      state.shown := state.shown + {(s, a)};
      if agent.claimCode.Some? {
        var code := agent.claimCode.value;
        state.sessions := state.sessions[s := state.sessions[s].(code := Some(code))];
        state.pendingClaims := state.pendingClaims[code := s];
        state.Send(s, ClaimReady(code, token));
      } else {
        state.sessions := state.sessions[s := state.sessions[s].(agent := Some(a))];
        state.db := PutAgent(state.db, a, agent.(online := true, name := hostname));
        state.agentSenders := state.agentSenders[a := s];
        state.Send(s, AuthSuccess(a, agent.name, agent.token));
        SyncAgentTunnels(state, a, rows, s, luck);
      }
    } else {
      state.Send(s, Error);
    }
  }

  method CleanupAgent(state: AppState, agent: Id, rows: seq<Id>)
    requires IsListing(state.db.tunnels, agent, rows)
    modifies state`agentSenders, state`db, state`tunnelTasks, state`running, state`allocatedPorts
    ensures state.View() == Cleanup(old(state.View()), agent)
  {
    state.agentSenders := state.agentSenders - {agent};
    state.db := SetOnline(state.db, agent, false);
    assert Elements(rows) == RowsOf(state.db.tunnels, agent);
    StopRows(state, rows);
  }

  method OnDisconnect(state: AppState, s: Id, rows: seq<Id>)
    requires s in state.sessions
    requires state.sessions[s].agent.Some? ==> IsListing(state.db.tunnels, state.sessions[s].agent.value, rows)
    modifies state
    ensures state.View() == Disconnect(old(state.View()), s)
  {
    var session := state.sessions[s];
    state.sessions := state.sessions - {s};
    if session.code.Some? {
      state.pendingClaims := state.pendingClaims - {session.code.value};
    }
    if session.agent.Some? {
      CleanupAgent(state, session.agent.value, rows);
    }
  }
}

module Admin {
  import opened Types
  import opened Strings
  import opened DedicatedPorts
  import opened World
  import opened State
  import opened TunnelManager
  import opened WsHandler

  method HandleRegister(state: AppState, username: string, password: string, draws: seq<nat>)
    returns (reply: Reply)
    requires state.lo < state.hi
    modifies state`db, state`next
    ensures (state.View(), reply) == Register(old(state.View()), username, password, draws)
  {
    if ByteLength(Trim(username)) < 3 {
      return BadRequest;
    }
    if ByteLength(password) < 6 {
      return BadRequest;
    }
    var port := GenerateUniqueDedicatedPort(TakenPorts(state.db.users), state.lo, state.hi, draws);
    if port.None? || NameTaken(state.db.users, Trim(username)) {
      return Conflict;
    }
    var id := state.next;
    state.next := state.next + 1;
    state.db := PutUser(state.db, id, User(Trim(username), port.value, false));
    return Created(id);
  }

  method HandleClaim(state: AppState, uid: Id, code: Code, pick: Option<Id>, rows: seq<Id>, luck: set<Id>)
    returns (reply: Reply)
    requires ClaimAnswer(state.View(), code, pick, rows)
    modifies state
    ensures (state.View(), reply) == Claim(old(state.View()), uid, code, pick, rows, luck)
  {
    hide IsListing, SyncRows, Configs;
    if pick.None? {
      return NotFound;
    }
    if uid !in state.db.users {
      return Failed;
    }
    var id := pick.value;
    var agent := state.db.agents[id].(claimCode := None, owner := Some(uid));
    state.db := PutAgent(state.db, id, agent);
    if code in state.pendingClaims {
      var sender := state.pendingClaims[code];
      state.pendingClaims := state.pendingClaims - {code};
      ghost var before := state.db;
      state.db := SetOnline(state.db, id, true);
      assert state.db == PutAgent(old(state.db), id, agent.(online := true)) by {
        assert state.db.agents == old(state.db).agents[id := agent.(online := true)];
      }
      state.agentSenders := state.agentSenders[id := sender];
      state.Send(sender, AuthSuccess(id, agent.name, agent.token));
      SyncAgentTunnels(state, id, rows, sender, luck);
    }
    return Done;
  }

  method HandleGenerateToken(state: AppState, uid: Id) returns (reply: Reply)
    modifies state`db, state`next
    ensures (state.View(), reply) == GenerateToken(old(state.View()), uid)
  {
    if exists a :: a in state.db.agents && state.db.agents[a].owner == Some(uid) {
      return Done;
    }
    if uid !in state.db.users {
      return Failed;
    }
    var id := state.next;
    state.db := PutAgent(state.db, id, Agent(Some(uid), id + 1, None, "My Computer", false));
    state.next := state.next + 2;
    return Created(id);
  }

  method InsertTunnel(state: AppState, row: Tunnel) returns (id: Id)
    modifies state`db, state`next, state`creator
    ensures id == old(state.next) && state.next == id + 1
    ensures state.db == PutTunnel(old(state.db), id, row) && state.creator == old(state.creator)[id := row.user]
  {
    id := state.next;
    state.next := state.next + 1;
    state.db := PutTunnel(state.db, id, row);
    state.creator := state.creator[id := row.user];
  }

  method StartWithSender(state: AppState, config: Config, luck: set<Id>)
    modifies state`tunnelTasks, state`running, state`out
    ensures config.agent in state.agentSenders ==>
      && state.NetView() == old(StartListener(state.NetView(), config, state.agentSenders[config.agent], luck))
      && state.out == old(state.out) + [Sent(state.agentSenders[config.agent], StartTunnel(config))]
    ensures config.agent !in state.agentSenders ==>
      state.NetView() == old(state.NetView()) && state.out == old(state.out)
  {
    hide StartListener;
    if config.agent in state.agentSenders {
      var _ := StartTunnelListener(state, config, state.agentSenders[config.agent], luck);
      state.Send(state.agentSenders[config.agent], StartTunnel(config));
    }
  }

  method HandleCreateTunnel(state: AppState, uid: Id, agent: Id, name: string, localPort: Port, protocol: string,
                            subdomain: Option<string>, now: int, luck: set<Id>) returns (reply: Reply)
    modifies state
    ensures (state.View(), reply) ==
      CreateTunnel(old(state.View()), uid, agent, name, localPort, protocol, subdomain, now, luck)
  {
    hide Clean, SubdomainTaken, FirstFree, Range, StartListener, ListenerOf;
    var clean := Clean(subdomain);
    if clean.Some? && SubdomainTaken(state.db.tunnels, clean.value, None) {
      return Conflict;
    }
    if uid !in state.db.users {
      return Unauthorized;
    }
    var dedicatedPort := state.db.users[uid].dedicatedPort;
    var granted := state.AllocatePort(Some(dedicatedPort));
    if granted.None? {
      return Conflict;
    }
    if agent !in state.db.agents {
      return Failed;
    }
    var row := Tunnel(agent, uid, name, localPort, protocol, dedicatedPort, clean, true, now);
    var id := InsertTunnel(state, row);
    var config := Config(id, agent, name, localPort, protocol, dedicatedPort, clean, true);
    StartWithSender(state, config, luck);
    return Created(id);
  }

  method HandleUpdateTunnel(state: AppState, id: Id, name: string, localPort: Port, protocol: string,
                            subdomain: Option<string>, rows: seq<Id>, luck: set<Id>) returns (reply: Reply)
    requires UpdateListing(state.View(), id, rows)
    modifies state
    ensures (state.View(), reply) ==
      UpdateTunnel(old(state.View()), id, name, localPort, protocol, subdomain, rows, luck)
  {
    if id !in state.db.tunnels {
      return NotFound;
    }
    var tunnel := state.db.tunnels[id];
    var clean := Clean(subdomain);
    if clean.Some? && SubdomainTaken(state.db.tunnels, clean.value, Some(id)) {
      return Conflict;
    }
    state.db := PutTunnel(state.db, id, tunnel.(name := name, localPort := localPort, protocol := protocol,
                                                subdomain := clean));
    if tunnel.agent in state.agentSenders {
      SyncAgentTunnels(state, tunnel.agent, rows, state.agentSenders[tunnel.agent], luck);
    }
    return Done;
  }

  method HandleToggleTunnel(state: AppState, id: Id, luck: set<Id>) returns (reply: Reply)
    modifies state
    ensures (state.View(), reply) == ToggleTunnel(old(state.View()), id, luck)
  {
    if id !in state.db.tunnels {
      return NotFound;
    }
    var tunnel := state.db.tunnels[id];
    var newEnabled := !tunnel.enabled;
    state.db := PutTunnel(state.db, id, tunnel.(enabled := newEnabled));
    if newEnabled {
      state.allocatedPorts := state.allocatedPorts + {tunnel.publicPort};
      var config := Config(id, tunnel.agent, tunnel.name, tunnel.localPort, tunnel.protocol, tunnel.publicPort,
                           tunnel.subdomain, true);
      StartWithSender(state, config, luck);
    } else {
      ReleaseOne(state.NetView(), old(state.db).tunnels, id);
      StopTunnelListener(state, id);
      state.FreePort(tunnel.publicPort);
      if tunnel.agent in state.agentSenders {
        state.Send(state.agentSenders[tunnel.agent], StopTunnel(id));
      }
    }
    return Done;
  }

  lemma ReleaseOne(n: Net, tunnels: map<Id, Tunnel>, t: Id)
    requires t in tunnels
    ensures var m := Abort(n, {t});
      m.(reserved := m.reserved - {tunnels[t].publicPort}) == Release(n, tunnels, {t})
  {
    assert (set u | u in {t} :: tunnels[u].publicPort) == {tunnels[t].publicPort};
  }

  method HandleDeleteTunnel(state: AppState, id: Id)
    modifies state
    ensures state.View() == DeleteTunnel(old(state.View()), id)
  {
    if id in state.db.tunnels {
      var t := state.db.tunnels[id];
      ReleaseOne(state.NetView(), state.db.tunnels, id);
      StopTunnelListener(state, id);
      state.FreePort(t.publicPort);
      if t.agent in state.agentSenders {
        state.Send(state.agentSenders[t.agent], StopTunnel(id));
      }
      state.db := RemoveTunnel(state.db, id);
    }
  }

  /** `rows` are the rows the DELETE on the agent's tunnels finds. */
  method HandleDeleteAgent(state: AppState, agent: Id, rows: seq<Id>)
    requires IsListing(state.db.tunnels, agent, rows)
    modifies state
    ensures state.View() == DeleteAgent(old(state.View()), agent)
  {
    if agent in state.agentSenders {
      var sender := state.agentSenders[agent];
      state.agentSenders := state.agentSenders - {agent};
      state.Send(sender, Error);
    } else {
      assert state.agentSenders - {agent} == state.agentSenders;
    }
    assert Elements(rows) == RowsOf(state.db.tunnels, agent);
    state.db := state.db.(tunnels := state.db.tunnels - Elements(rows));
    state.db := state.db.(agents := state.db.agents - {agent});
  }

  /** `rows` are the tunnels `list_tunnels_for_user` returns. */
  method HandleBanUser(state: AppState, uid: Id, rows: seq<Id>)
    requires forall t :: t in rows <==> t in state.db.tunnels && state.db.tunnels[t].user == uid
    requires forall i, j :: 0 <= i < j < |rows| ==> rows[i] != rows[j]
    modifies state
    ensures state.View() == Ban(old(state.View()), uid)
  {
    state.db := SetBanned(state.db, uid, true);
    assert Elements(rows) == RowsOfUser(state.db.tunnels, uid);
    StopRows(state, rows);
  }

  method HandleUnbanUser(state: AppState, uid: Id)
    modifies state`db
    ensures state.View() == Unban(old(state.View()), uid)
  {
    state.db := SetBanned(state.db, uid, false);
  }
}
