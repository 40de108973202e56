/** What every handler keeps, and what therefore holds in every state of every run. */
module Lifecycle {
  import opened Types
  import opened Strings
  import opened DedicatedPorts
  import opened World

  // ---------- tables ----------

  ghost predicate UsersOk(users: map<Id, User>, next: Id) {
    && (forall u :: u in users ==> u < next)
    && (forall u, v :: u in users && v in users && u != v ==>
          users[u].username != users[v].username && users[u].dedicatedPort != users[v].dedicatedPort)
  }

  ghost predicate AgentsOk(users: map<Id, User>, agents: map<Id, Agent>, next: Id) {
    && (forall a :: a in agents ==> a < next && agents[a].token < next)
    && (forall a, b :: a in agents && b in agents && a != b ==> agents[a].token != agents[b].token)
    && (forall a :: a in agents && agents[a].owner.Some? ==> agents[a].owner.value in users)
  }

  /** Every tunnel ever created belongs to a user, and every row has the dedicated port of its user. */
  ghost predicate TunnelsOk(db: Db, creator: map<Id, Id>, next: Id) {
    && (forall t :: t in creator ==> t < next && creator[t] in db.users)
    && (forall t :: t in db.tunnels ==>
          && t in creator && creator[t] == db.tunnels[t].user
          && db.tunnels[t].agent in db.agents
          && db.tunnels[t].publicPort == db.users[creator[t]].dedicatedPort)
  }

  ghost predicate TablesOk(db: Db, creator: map<Id, Id>, next: Id) {
    UsersOk(db.users, next) && AgentsOk(db.users, db.agents, next) && TunnelsOk(db, creator, next)
  }

  /** Users are only added, and keep their name and port; a row that appears has a fresh id. */
  ghost predicate Grows(db: Db, next: Id, db': Db, next': Id) {
    && next <= next'
    && (forall u :: u in db.users ==>
          u in db'.users && db'.users[u].username == db.users[u].username
          && db'.users[u].dedicatedPort == db.users[u].dedicatedPort)
    && (forall t :: t in db'.tunnels ==> t in db.tunnels || next <= t < next')
  }

  lemma GrowsSelf(db: Db, next: Id, next': Id)
    requires next <= next'
    ensures Grows(db, next, db, next')
  {
  }

  lemma MoreIds(db: Db, creator: map<Id, Id>, next: Id, next': Id)
    requires TablesOk(db, creator, next) && next <= next'
    ensures TablesOk(db, creator, next')
  {
  }

  lemma UserAdded(db: Db, creator: map<Id, Id>, next: Id, user: User)
    requires TablesOk(db, creator, next)
    requires !NameTaken(db.users, user.username) && user.dedicatedPort !in TakenPorts(db.users)
    ensures TablesOk(PutUser(db, next, user), creator, next + 1)
    ensures Grows(db, next, PutUser(db, next, user), next + 1)
  {
    forall u | u in db.users
      ensures db.users[u].username != user.username && db.users[u].dedicatedPort != user.dedicatedPort
    {
      assert db.users[u].dedicatedPort in TakenPorts(db.users);
    }
  }

  lemma BanSet(db: Db, creator: map<Id, Id>, next: Id, u: Id, banned: bool)
    requires TablesOk(db, creator, next)
    ensures TablesOk(SetBanned(db, u, banned), creator, next)
    ensures Grows(db, next, SetBanned(db, u, banned), next)
  {
  }

  lemma AgentAdded(db: Db, creator: map<Id, Id>, next: Id, agent: Agent)
    requires TablesOk(db, creator, next)
    requires agent.token == next + 1 && (agent.owner.Some? ==> agent.owner.value in db.users)
    ensures TablesOk(PutAgent(db, next, agent), creator, next + 2)
    ensures Grows(db, next, PutAgent(db, next, agent), next + 2)
  {
  }

  lemma AgentChanged(db: Db, creator: map<Id, Id>, next: Id, a: Id, agent: Agent)
    requires TablesOk(db, creator, next)
    requires a in db.agents && agent.token == db.agents[a].token
    requires agent.owner == db.agents[a].owner || (agent.owner.Some? && agent.owner.value in db.users)
    ensures TablesOk(PutAgent(db, a, agent), creator, next)
    ensures Grows(db, next, PutAgent(db, a, agent), next)
  {
  }

  lemma AgentRemoved(db: Db, creator: map<Id, Id>, next: Id, a: Id)
    requires TablesOk(db, creator, next)
    ensures TablesOk(RemoveAgent(db, a), creator, next)
    ensures Grows(db, next, RemoveAgent(db, a), next)
  {
  }

  lemma TunnelAdded(db: Db, creator: map<Id, Id>, next: Id, row: Tunnel)
    requires TablesOk(db, creator, next)
    requires row.user in db.users && row.agent in db.agents && row.publicPort == db.users[row.user].dedicatedPort
    ensures TablesOk(PutTunnel(db, next, row), creator[next := row.user], next + 1)
    ensures Grows(db, next, PutTunnel(db, next, row), next + 1)
    ensures next !in creator
  {
  }

  lemma TunnelChanged(db: Db, creator: map<Id, Id>, next: Id, t: Id, row: Tunnel)
    requires TablesOk(db, creator, next) && t in db.tunnels
    requires row.user == db.tunnels[t].user && row.agent == db.tunnels[t].agent
    requires row.publicPort == db.tunnels[t].publicPort
    ensures TablesOk(PutTunnel(db, t, row), creator, next)
    ensures Grows(db, next, PutTunnel(db, t, row), next)
  {
  }

  lemma TunnelRemoved(db: Db, creator: map<Id, Id>, next: Id, t: Id)
    requires TablesOk(db, creator, next)
    ensures TablesOk(RemoveTunnel(db, t), creator, next)
    ensures Grows(db, next, RemoveTunnel(db, t), next)
  {
  }

  ghost predicate Tables(w: World) {
    TablesOk(w.db, w.creator, w.next) && forall s :: s in w.sessions ==> s < w.next
  }

  ghost predicate StepGrows(w: World, v: World) {
    && Grows(w.db, w.next, v.db, v.next)
    && forall t :: t in w.creator ==> t in v.creator && v.creator[t] == w.creator[t]
  }

  lemma SocketTables(w: World, e: SocketEvent)
    requires Tables(w) && SocketPossible(w, e)
    ensures Tables(SocketStep(w, e)) && StepGrows(w, SocketStep(w, e))
  {
    hide TablesOk, Grows, Clean, SyncRows, SubdomainTaken, IsListing;
    GrowsSelf(w.db, w.next, w.next);
    GrowsSelf(w.db, w.next, w.next + 1);
    match e
    case EConnect => MoreIds(w.db, w.creator, w.next, w.next + 1);
    case ERequestClaim(s, hostname, code) =>
      AgentAdded(w.db, w.creator, w.next, Agent(None, w.next + 1, Some(code), hostname, false));
    case EAuth(s, token, hostname, rows, luck) =>
      var a := AgentByToken(w.db.agents, token);
      if a.Some? {
        AgentChanged(w.db, w.creator, w.next, a.value, w.db.agents[a.value].(online := true, name := hostname));
      }
    case EDisconnect(s) =>
      var a := w.sessions[s].agent;
      if a.Some? && a.value in w.db.agents {
        AgentChanged(w.db, w.creator, w.next, a.value, w.db.agents[a.value].(online := false));
      }
  }

  lemma AccountTables(w: World, e: AccountEvent)
    requires Tables(w) && AccountPossible(w, e)
    ensures Tables(AccountStep(w, e)) && StepGrows(w, AccountStep(w, e))
  {
    hide TablesOk, Grows, Clean, SyncRows, SubdomainTaken, IsListing;
    GrowsSelf(w.db, w.next, w.next);
    GrowsSelf(w.db, w.next, w.next + 1);
    match e
    case ERegister(username, _, draws) =>
      var port := FirstFree(Candidates(draws, w.lo, w.hi), TakenPorts(w.db.users));
      if port.Some? && !NameTaken(w.db.users, Trim(username)) {
        UserAdded(w.db, w.creator, w.next, User(Trim(username), port.value, false));
      }
    case EGenerateToken(uid) =>
      if uid in w.db.users {
        AgentAdded(w.db, w.creator, w.next, Agent(Some(uid), w.next + 1, None, "My Computer", false));
      }
    case EClaim(uid, code, pick, rows, luck) =>
      if pick.Some? && uid in w.db.users {
        var agent := w.db.agents[pick.value].(claimCode := None, owner := Some(uid));
        AgentChanged(w.db, w.creator, w.next, pick.value, agent);
        AgentChanged(w.db, w.creator, w.next, pick.value, agent.(online := true));
      }
    case EDeleteAgent(a) => AgentRemoved(w.db, w.creator, w.next, a);
    case EBan(uid) => BanSet(w.db, w.creator, w.next, uid, true);
    case EUnban(uid) => BanSet(w.db, w.creator, w.next, uid, false);
  }

  // ---------- what tunnel handlers leave alone ----------

  /** Only rows, listeners, ids and messages other than AuthSuccess come out of a handler for tunnels. */
  ghost predicate TunnelsOnly(w: World, v: World) {
    && v.lo == w.lo && v.hi == w.hi && v.db.users == w.db.users && v.db.agents == w.db.agents
    && v.senders == w.senders && v.pending == w.pending && v.sessions == w.sessions && v.shown == w.shown
    && Quiet(w.out, v.out)
  }

  /** What was sent in between authenticates nobody. */
  ghost predicate Quiet(out: seq<Sent>, out': seq<Sent>) {
    out <= out' && forall i :: |out| <= i < |out'| ==> !out'[i].msg.AuthSuccess?
  }

  lemma QuietMore(out: seq<Sent>, s: Sent)
    ensures Quiet(out, out) && (!s.msg.AuthSuccess? ==> Quiet(out, out + [s]))
  {
  }

  lemma CreateOnly(w: World, e: TunnelEvent)
    requires e.ECreate?
    ensures TunnelsOnly(w, TunnelStep(w, e))
  {
    hide StartListener, SubdomainTaken, Clean, ConfigOf, UpdateTunnel, ToggleTunnel, DeleteTunnel, UpdateListing, Quiet;
    var v := CreateTunnel(w, e.uid, e.agent, e.name, e.localPort, e.protocol, e.subdomain, e.now, e.luck).0;
    QuietMore(w.out, if |v.out| > |w.out| then v.out[|w.out|] else Sent(0, Error));
    assert v.out == w.out || v.out == w.out + [v.out[|w.out|]];
  }

  lemma UpdateOnly(w: World, e: TunnelEvent)
    requires e.EUpdate? && TunnelPossible(w, e)
    ensures TunnelsOnly(w, TunnelStep(w, e))
  {
    hide SyncRows, Configs, IsListing, SubdomainTaken, Clean, CreateTunnel, ToggleTunnel, DeleteTunnel, Quiet;
    var v := UpdateTunnel(w, e.tid, e.name, e.localPort, e.protocol, e.subdomain, e.rows, e.luck).0;
    QuietMore(w.out, if |v.out| > |w.out| then v.out[|w.out|] else Sent(0, Error));
    assert v.out == w.out || v.out == w.out + [v.out[|w.out|]];
  }

  lemma ToggleOnly(w: World, e: TunnelEvent)
    requires e.EToggle?
    ensures TunnelsOnly(w, TunnelStep(w, e))
  {
    hide CreateTunnel, UpdateTunnel, DeleteTunnel, StartListener, Release, ConfigOf, UpdateListing, IsListing, Quiet;
    var v := ToggleTunnel(w, e.tid, e.luck).0;
    QuietMore(w.out, if |v.out| > |w.out| then v.out[|w.out|] else Sent(0, Error));
    assert v.out == w.out || v.out == w.out + [v.out[|w.out|]];
  }

  lemma DeleteOnly(w: World, e: TunnelEvent)
    requires e.EDelete?
    ensures TunnelsOnly(w, TunnelStep(w, e))
  {
    hide CreateTunnel, UpdateTunnel, ToggleTunnel, Release, Quiet;
    var v := DeleteTunnel(w, e.tid);
    QuietMore(w.out, if |v.out| > |w.out| then v.out[|w.out|] else Sent(0, Error));
    assert v.out == w.out || v.out == w.out + [v.out[|w.out|]];
  }

  lemma TunnelKeeps(w: World, e: TunnelEvent)
    requires TunnelPossible(w, e)
    ensures TunnelsOnly(w, TunnelStep(w, e))
  {
    hide TunnelStep;
    match e
    case ECreate(_, _, _, _, _, _, _, _) => CreateOnly(w, e);
    case EUpdate(_, _, _, _, _, _, _) => UpdateOnly(w, e);
    case EToggle(_, _) => ToggleOnly(w, e);
    case EDelete(_) => DeleteOnly(w, e);
  }

  lemma CreateTables(w: World, e: TunnelEvent)
    requires Tables(w) && e.ECreate?
    ensures Tables(TunnelStep(w, e)) && StepGrows(w, TunnelStep(w, e))
  {
    hide TablesOk, Grows, Clean, StartListener, SubdomainTaken, UpdateTunnel, ToggleTunnel, DeleteTunnel;
    GrowsSelf(w.db, w.next, w.next);
    if e.uid in w.db.users && e.agent in w.db.agents {
      var port := w.db.users[e.uid].dedicatedPort;
      TunnelAdded(w.db, w.creator, w.next,
                  Tunnel(e.agent, e.uid, e.name, e.localPort, e.protocol, port, Clean(e.subdomain), true, e.now));
    }
  }

  lemma UpdateTables(w: World, e: TunnelEvent)
    requires Tables(w) && e.EUpdate? && TunnelPossible(w, e)
    ensures Tables(TunnelStep(w, e)) && StepGrows(w, TunnelStep(w, e))
  {
    hide TablesOk, Grows, Clean, SyncRows, Configs, SubdomainTaken, IsListing, CreateTunnel, ToggleTunnel, DeleteTunnel;
    GrowsSelf(w.db, w.next, w.next);
    if e.tid in w.db.tunnels {
      TunnelChanged(w.db, w.creator, w.next, e.tid,
                    w.db.tunnels[e.tid].(name := e.name, localPort := e.localPort, protocol := e.protocol,
                                         subdomain := Clean(e.subdomain)));
    }
  }

  lemma ToggleTables(w: World, e: TunnelEvent)
    requires Tables(w) && e.EToggle?
    ensures Tables(TunnelStep(w, e)) && StepGrows(w, TunnelStep(w, e))
  {
    hide TablesOk, Grows, StartListener, Release, CreateTunnel, UpdateTunnel, DeleteTunnel;
    GrowsSelf(w.db, w.next, w.next);
    if e.tid in w.db.tunnels {
      TunnelChanged(w.db, w.creator, w.next, e.tid, w.db.tunnels[e.tid].(enabled := !w.db.tunnels[e.tid].enabled));
    }
  }

  lemma DeleteTables(w: World, e: TunnelEvent)
    requires Tables(w) && e.EDelete?
    ensures Tables(TunnelStep(w, e)) && StepGrows(w, TunnelStep(w, e))
  {
    hide TablesOk, Grows, Release, CreateTunnel, UpdateTunnel, ToggleTunnel;
    GrowsSelf(w.db, w.next, w.next);
    TunnelRemoved(w.db, w.creator, w.next, e.tid);
  }

  lemma TunnelTables(w: World, e: TunnelEvent)
    requires Tables(w) && TunnelPossible(w, e)
    ensures Tables(TunnelStep(w, e)) && StepGrows(w, TunnelStep(w, e))
  {
    hide TunnelStep, Tables, StepGrows;
    match e
    case ECreate(_, _, _, _, _, _, _, _) => CreateTables(w, e);
    case EUpdate(_, _, _, _, _, _, _) => UpdateTables(w, e);
    case EToggle(_, _) => ToggleTables(w, e);
    case EDelete(_) => DeleteTables(w, e);
  }

  lemma TablesKept(w: World, e: Event)
    requires Tables(w) && Possible(w, e)
    ensures Tables(Step(w, e)) && StepGrows(w, Step(w, e))
  {
    match e
    case OnSocket(socket) => SocketTables(w, socket);
    case OnAccount(account) => AccountTables(w, account);
    case OnTunnel(tunnel) => TunnelTables(w, tunnel);
    case _ =>
  }
}
