/** The relay as one object: every event is a method call, and what holds in every state of a run holds of it. */
module Server {
  import opened Types
  import opened World
  import opened State
  import opened WsHandler
  import opened Admin
  import opened Runs

  /** The rows that the queries of a disconnect, an agent's deletion and a ban return. */
  ghost predicate RowsAnswer(w: World, e: Event, rows: seq<Id>) {
    match e
    case OnSocket(EDisconnect(s)) =>
      s in w.sessions && w.sessions[s].agent.Some? ==> IsListing(w.db.tunnels, w.sessions[s].agent.value, rows)
    case OnAccount(EDeleteAgent(a)) => IsListing(w.db.tunnels, a, rows)
    case OnAccount(EBan(uid)) =>
      && (forall t :: t in rows <==> t in w.db.tunnels && w.db.tunnels[t].user == uid)
      && (forall i, j :: 0 <= i < j < |rows| ==> rows[i] != rows[j])
    case _ => true
  }

  method Restarted(state: AppState)
    modifies state
    ensures state.View() == Restart(old(state.View()))
  {
    state.allocatedPorts, state.tunnelTasks, state.running := {}, map[], {};
    state.agentSenders, state.pendingClaims, state.sessions := map[], map[], map[];
  }

  method OnSocketEvent(state: AppState, e: SocketEvent, rows: seq<Id>)
    requires SocketPossible(state.View(), e) && RowsAnswer(state.View(), OnSocket(e), rows) && TokensUnique(state.db)
    modifies state
    ensures state.View() == SocketStep(old(state.View()), e)
  {
    hide Connect, RequestClaim, Auth, Disconnect, IsListing;
    match e
    case EConnect => var _ := OnConnect(state);
    case ERequestClaim(s, hostname, code) => OnRequestClaim(state, s, hostname, code);
    case EAuth(s, token, hostname, answer, luck) => OnAuth(state, s, token, hostname, answer, luck);
    case EDisconnect(s) => OnDisconnect(state, s, rows);
  }

  method OnAccountEvent(state: AppState, e: AccountEvent, rows: seq<Id>)
    requires AccountPossible(state.View(), e) && RowsAnswer(state.View(), OnAccount(e), rows)
    modifies state
    ensures state.View() == AccountStep(old(state.View()), e)
  {
    hide Register, GenerateToken, Claim, DeleteAgent, Ban, Unban, IsListing;
    match e
    case ERegister(username, password, draws) => var _ := HandleRegister(state, username, password, draws);
    case EGenerateToken(uid) => var _ := HandleGenerateToken(state, uid);
    case EClaim(uid, code, pick, answer, luck) => var _ := HandleClaim(state, uid, code, pick, answer, luck);
    case EDeleteAgent(a) => HandleDeleteAgent(state, a, rows);
    case EBan(uid) => HandleBanUser(state, uid, rows);
    case EUnban(uid) => HandleUnbanUser(state, uid);
  }

  method OnTunnelEvent(state: AppState, e: TunnelEvent)
    requires TunnelPossible(state.View(), e)
    modifies state
    ensures state.View() == TunnelStep(old(state.View()), e)
  {
    hide CreateTunnel, UpdateTunnel, ToggleTunnel, DeleteTunnel, IsListing;
    match e
    case ECreate(uid, agent, name, localPort, protocol, subdomain, now, luck) =>
      var _ := HandleCreateTunnel(state, uid, agent, name, localPort, protocol, subdomain, now, luck);
    case EUpdate(tid, name, localPort, protocol, subdomain, answer, luck) =>
      var _ := HandleUpdateTunnel(state, tid, name, localPort, protocol, subdomain, answer, luck);
    case EToggle(tid, luck) => var _ := HandleToggleTunnel(state, tid, luck);
    case EDelete(tid) => HandleDeleteTunnel(state, tid);
  }

  /** One event. The object takes the step of the model and keeps the invariant of its runs. */
  method Handle(state: AppState, e: Event, rows: seq<Id>)
    requires Possible(state.View(), e) && RowsAnswer(state.View(), e, rows) && TokensUnique(state.db)
    modifies state
    ensures state.View() == Step(old(state.View()), e)
    ensures old(Inv(state.View())) ==> Inv(state.View())
  {
    ghost var w := state.View();
    hide SocketStep, AccountStep, TunnelStep, RowsAnswer, Inv, SocketPossible, AccountPossible, TunnelPossible;
    match e {
      case OnSocket(socket) => OnSocketEvent(state, socket, rows);
      case OnAccount(account) => OnAccountEvent(state, account, rows);
      case OnTunnel(tunnel) => OnTunnelEvent(state, tunnel);
      case ERestart => Restarted(state);
      case EExit(l) => state.running := state.running - {l};
    }
    if Inv(w) {
      InvKept(w, e);
    }
  }

  /** Any number of events, from the state that the constructor leaves: the object goes through the states of the
      run. */
  method Serve(state: AppState, es: seq<Event>, answers: seq<seq<Id>>, ghost ws: seq<World>)
    requires IsRun(ws, es) && state.View() == ws[0] && |answers| == |es|
    requires forall i :: 0 <= i < |es| ==> RowsAnswer(ws[i], es[i], answers[i])
    modifies state
    ensures state.View() == ws[|es|] && Inv(state.View())
  {
    hide Step, Possible, RowsAnswer, Inv;
    RunInv(ws, es, 0);
    for i := 0 to |es|
      invariant state.View() == ws[i] && Inv(ws[i])
    {
      UniqueTokens(ws[i]);
      Handle(state, es[i], answers[i]);
    }
  }

  lemma UniqueTokens(w: World)
    requires Inv(w)
    ensures TokensUnique(w.db)
  {
  }
}
