/** The claim protocol: who owns an agent, and who is told that it is authenticated. */
module Claims {
  import opened Types
  import opened DedicatedPorts
  import opened World
  import opened Lifecycle

  /** An agent has an owner exactly when it has no claim code. */
  ghost predicate OwnedOrClaimable(agents: map<Id, Agent>) {
    forall a :: a in agents ==> (agents[a].owner.Some? <==> agents[a].claimCode.None?)
  }

  /** Owners are final, and a code once gone does not come back. */
  ghost predicate OwnersFinal(agents: map<Id, Agent>, agents': map<Id, Agent>, next: Id) {
    && (forall a :: a in agents && a in agents' && agents[a].owner.Some? ==> agents'[a].owner == agents[a].owner)
    && (forall a :: a in agents && a in agents' && agents[a].claimCode.None? ==> agents'[a].claimCode.None?)
    && (forall a :: a in agents' && a !in agents ==> next <= a)
  }

  lemma AgentEdited(agents: map<Id, Agent>, a: Id, agent: Agent, next: Id)
    requires OwnedOrClaimable(agents)
    requires a in agents || next <= a
    requires agent.owner.Some? <==> agent.claimCode.None?
    requires a in agents && agents[a].owner.Some? ==> agent.owner == agents[a].owner
    ensures OwnedOrClaimable(agents[a := agent]) && OwnersFinal(agents, agents[a := agent], next)
  {
  }

  ghost predicate OwnersKept(w: World, v: World) {
    OwnedOrClaimable(v.db.agents) && OwnersFinal(w.db.agents, v.db.agents, w.next)
  }

  lemma SocketOwners(w: World, e: SocketEvent)
    requires AgentsOk(w.db.users, w.db.agents, w.next) && OwnedOrClaimable(w.db.agents) && SocketPossible(w, e)
    ensures OwnersKept(w, SocketStep(w, e))
  {
    hide SyncRows, Configs, Release, IsListing, OwnersFinal;
    NothingEdited(w.db.agents, w.next);
    var agents := w.db.agents;
    match e
    case EConnect =>
    case ERequestClaim(s, hostname, code) =>
      AgentEdited(agents, w.next, Agent(None, w.next + 1, Some(code), hostname, false), w.next);
    case EAuth(s, token, hostname, rows, luck) =>
      var a := AgentByToken(agents, token);
      if a.Some? && agents[a.value].claimCode.None? {
        AgentEdited(agents, a.value, agents[a.value].(online := true, name := hostname), w.next);
      }
    case EDisconnect(s) =>
      var a := w.sessions[s].agent;
      if a.Some? && a.value in agents {
        AgentEdited(agents, a.value, agents[a.value].(online := false), w.next);
      }
  }

  lemma UsersOnly(w: World, e: AccountEvent)
    requires AccountPossible(w, e) && (e.ERegister? || e.EBan? || e.EUnban?)
    ensures AccountStep(w, e).db.agents == w.db.agents
  {
    hide Release, Candidates, FirstFree, NameTaken, Claim;
  }

  lemma AccountOwners(w: World, e: AccountEvent)
    requires AgentsOk(w.db.users, w.db.agents, w.next) && OwnedOrClaimable(w.db.agents) && AccountPossible(w, e)
    ensures OwnersKept(w, AccountStep(w, e))
  {
    hide SyncRows, Configs, IsListing, OwnersFinal, Register, Ban, Unban;
    NothingEdited(w.db.agents, w.next);
    var agents := w.db.agents;
    match e
    case EGenerateToken(uid) =>
      AgentEdited(agents, w.next, Agent(Some(uid), w.next + 1, None, "My Computer", false), w.next);
    case EClaim(uid, code, pick, rows, luck) =>
      if pick.Some? && uid in w.db.users {
        var agent := agents[pick.value].(claimCode := None, owner := Some(uid));
        AgentEdited(agents, pick.value, agent, w.next);
        AgentEdited(agents, pick.value, agent.(online := true), w.next);
      }
    case EDeleteAgent(a) => AgentGone(agents, a, w.next);
    case _ => UsersOnly(w, e);
  }

  lemma TunnelOwners(w: World, e: TunnelEvent)
    requires OwnedOrClaimable(w.db.agents) && TunnelPossible(w, e)
    ensures OwnersKept(w, TunnelStep(w, e))
  {
    hide TunnelStep, TunnelPossible;
    TunnelKeeps(w, e);
  }

  lemma OwnershipKept(w: World, e: Event)
    requires Tables(w) && OwnedOrClaimable(w.db.agents) && Possible(w, e)
    ensures OwnersKept(w, Step(w, e))
  {
    hide SocketStep, AccountStep, TunnelStep;
    match e
    case OnSocket(socket) => SocketOwners(w, socket);
    case OnAccount(account) => AccountOwners(w, account);
    case OnTunnel(tunnel) => TunnelOwners(w, tunnel);
    case _ =>
  }

  lemma NothingEdited(agents: map<Id, Agent>, next: Id)
    ensures OwnersFinal(agents, agents, next)
  {
  }

  lemma AgentGone(agents: map<Id, Agent>, a: Id, next: Id)
    requires OwnedOrClaimable(agents)
    ensures OwnedOrClaimable(agents - {a}) && OwnersFinal(agents, agents - {a}, next)
  {
  }

  // ---------- agents that are gone ----------

  /** An agent after the step was there before, with its token, or is new, and so is its token. */
  ghost predicate TokensFinal(agents: map<Id, Agent>, agents': map<Id, Agent>, next: Id) {
    forall a :: a in agents' ==>
      (a in agents && agents'[a].token == agents[a].token) || (next <= a && next <= agents'[a].token)
  }

  /** A sender after the step belongs to an agent that had one before or is in the table. */
  ghost predicate SendersFrom(w: World, v: World) {
    forall a :: a in v.senders ==> a in w.senders || a in v.db.agents
  }

  ghost predicate TokensKept(w: World, v: World) {
    TokensFinal(w.db.agents, v.db.agents, w.next) && SendersFrom(w, v)
  }

  lemma SocketTokens(w: World, e: SocketEvent)
    requires SocketPossible(w, e)
    ensures TokensKept(w, SocketStep(w, e))
  {
    hide SyncRows, Configs, Release, IsListing;
  }

  lemma AccountTokens(w: World, e: AccountEvent)
    requires AccountPossible(w, e)
    ensures TokensKept(w, AccountStep(w, e))
  {
    hide SyncRows, Configs, Release, IsListing, Candidates, FirstFree, NameTaken;
  }

  lemma TunnelTokens(w: World, e: TunnelEvent)
    requires TunnelPossible(w, e)
    ensures TokensKept(w, TunnelStep(w, e))
  {
    hide TunnelStep, TunnelPossible;
    TunnelKeeps(w, e);
  }

  lemma TokensNew(w: World, e: Event)
    requires Possible(w, e)
    ensures TokensKept(w, Step(w, e))
  {
    hide SocketStep, AccountStep, TunnelStep, TokensKept;
    match e
    case OnSocket(socket) => SocketTokens(w, socket);
    case OnAccount(account) => AccountTokens(w, account);
    case OnTunnel(tunnel) => TunnelTokens(w, tunnel);
    case _ => NothingLost(w, Step(w, e));
  }

  lemma NothingLost(w: World, v: World)
    requires v.db == w.db && v.senders.Keys <= w.senders.Keys
    ensures TokensKept(w, v)
  {
  }

  // ---------- who hears about an authentication ----------

  /** A socket that waits on a code has asked for the claim, or presented the token, of every agent that
      can be claimed with it. */
  ghost predicate PendingOk(agents: map<Id, Agent>, pending: map<Code, Id>, shown: set<(Id, Id)>) {
    forall a :: a in agents && agents[a].claimCode.Some? && agents[a].claimCode.value in pending ==>
      (pending[agents[a].claimCode.value], a) in shown
  }

  ghost predicate Attributed(out: seq<Sent>, shown: set<(Id, Id)>) {
    forall i :: 0 <= i < |out| && out[i].msg.AuthSuccess? ==> (out[i].to, out[i].msg.agent) in shown
  }

  ghost predicate Waits(w: World) { PendingOk(w.db.agents, w.pending, w.shown) }

  ghost predicate Heard(w: World) { Attributed(w.out, w.shown) }

  /** Socket s has shown every agent, but for one, that the code can still claim. */
  ghost predicate HasShown(w: World, s: Id, code: Code, but: Option<Id>) {
    forall a :: a in w.db.agents && w.db.agents[a].claimCode == Some(code) && but != Some(a) ==> (s, a) in w.shown
  }

  /** The step does not make a socket wait on a code that can claim an agent the socket has not shown. */
  ghost predicate CodeSafe(w: World, e: Event) {
    if !e.OnSocket? then true
    else
      match e.socket
      case ERequestClaim(s, _, code) => HasShown(w, s, code, None)
      case EAuth(s, token, _, _, _) =>
        var a := AgentByToken(w.db.agents, token);
        a.Some? && w.db.agents[a.value].claimCode.Some? ==> HasShown(w, s, w.db.agents[a.value].claimCode.value, a)
      case _ => true
  }

  lemma RequestClaimWaits(w: World, s: Id, hostname: string, code: Code)
    requires Tables(w) && Waits(w) && s in w.sessions
    ensures Waits(RequestClaim(w, s, hostname, code)) <==> HasShown(w, s, code, None)
  {
    var v := RequestClaim(w, s, hostname, code);
    forall a | a in w.db.agents && w.db.agents[a].claimCode == Some(code)
      ensures v.pending[code] == s && a in v.db.agents && v.db.agents[a] == w.db.agents[a]
      ensures (s, a) in v.shown <==> (s, a) in w.shown
    {
    }
  }

  lemma AuthWaits(w: World, s: Id, token: Id, hostname: string, rows: seq<Id>, luck: set<Id>)
    requires Waits(w) && s in w.sessions && AuthListing(w, token, rows)
    ensures Waits(Auth(w, s, token, hostname, rows, luck)) <==>
      CodeSafe(w, OnSocket(EAuth(s, token, hostname, rows, luck)))
  {
    hide SyncRows, Configs, IsListing;
    var a, v := AgentByToken(w.db.agents, token), Auth(w, s, token, hostname, rows, luck);
    if a.Some? && w.db.agents[a.value].claimCode.Some? {
      var code := w.db.agents[a.value].claimCode.value;
      forall b | b in w.db.agents && w.db.agents[b].claimCode == Some(code) && b != a.value
        ensures v.pending[code] == s && b in v.db.agents && v.db.agents[b] == w.db.agents[b]
        ensures (s, b) in v.shown <==> (s, b) in w.shown
      {
      }
    }
  }

  lemma SocketWaits(w: World, e: SocketEvent)
    requires Tables(w) && Waits(w) && SocketPossible(w, e)
    ensures Waits(SocketStep(w, e)) <==> CodeSafe(w, OnSocket(e))
  {
    hide RequestClaim, Auth, Release;
    match e
    case ERequestClaim(s, hostname, code) => RequestClaimWaits(w, s, hostname, code);
    case EAuth(s, token, hostname, rows, luck) => AuthWaits(w, s, token, hostname, rows, luck);
    case _ =>
  }

  lemma AccountWaits(w: World, e: AccountEvent)
    requires Tables(w) && Waits(w) && AccountPossible(w, e)
    ensures Waits(AccountStep(w, e))
  {
    hide SyncRows, Configs, IsListing, Release, NameTaken, Candidates, FirstFree;
  }

  /** Every step keeps waiting sockets to agents they have shown if and only if it is safe. */
  lemma WaitsExact(w: World, e: Event)
    requires Tables(w) && Waits(w) && Possible(w, e)
    ensures Waits(Step(w, e)) <==> CodeSafe(w, e)
  {
    hide SocketStep, AccountStep, TunnelStep, HasShown, AgentByToken;
    match e
    case OnSocket(socket) => SocketWaits(w, socket);
    case OnAccount(account) => AccountWaits(w, account);
    case OnTunnel(tunnel) => TunnelKeeps(w, tunnel);
    case _ =>
  }

  lemma SocketHeard(w: World, e: SocketEvent)
    requires Heard(w) && SocketPossible(w, e)
    ensures Heard(SocketStep(w, e))
  {
    hide SyncRows, Configs, IsListing, Release;
  }

  lemma AccountHeard(w: World, e: AccountEvent)
    requires Heard(w) && Waits(w) && AccountPossible(w, e)
    ensures Heard(AccountStep(w, e))
  {
    hide SyncRows, Configs, IsListing, Release, NameTaken, Candidates, FirstFree;
  }

  /** While that holds, every authentication goes to a socket that has shown the agent. */
  lemma HeardKept(w: World, e: Event)
    requires Heard(w) && Waits(w) && Possible(w, e)
    ensures Heard(Step(w, e))
  {
    hide SocketStep, AccountStep, TunnelStep, PendingOk;
    match e
    case OnSocket(socket) => SocketHeard(w, socket);
    case OnAccount(account) => AccountHeard(w, account);
    case OnTunnel(tunnel) => TunnelKeeps(w, tunnel);
    case _ =>
  }

  /** The sender of every agent is a socket that has shown the agent. */
  ghost predicate Fed(w: World) { forall a :: a in w.senders ==> (w.senders[a], a) in w.shown }

  lemma SocketFed(w: World, e: SocketEvent)
    requires Fed(w) && SocketPossible(w, e)
    ensures Fed(SocketStep(w, e))
  {
    hide SyncRows, Configs, IsListing, Release;
  }

  lemma AccountFed(w: World, e: AccountEvent)
    requires Fed(w) && Waits(w) && AccountPossible(w, e)
    ensures Fed(AccountStep(w, e))
  {
    hide SyncRows, Configs, IsListing, Release, NameTaken, Candidates, FirstFree;
  }

  lemma FedKept(w: World, e: Event)
    requires Fed(w) && Waits(w) && Possible(w, e)
    ensures Fed(Step(w, e))
  {
    hide SocketStep, AccountStep, TunnelStep, PendingOk;
    match e
    case OnSocket(socket) => SocketFed(w, socket);
    case OnAccount(account) => AccountFed(w, account);
    case OnTunnel(tunnel) => TunnelKeeps(w, tunnel);
    case _ =>
  }

  /** Where it fails, claiming the agent in question misleads: AuthSuccess goes to a socket that never showed it. */
  lemma UnsafeMisleads(w: World, a: Id, uid: Id, rows: seq<Id>, luck: set<Id>)
    requires a in w.db.agents && w.db.agents[a].claimCode.Some? && w.db.agents[a].claimCode.value in w.pending
    requires (w.pending[w.db.agents[a].claimCode.value], a) !in w.shown
    requires uid in w.db.users && IsListing(w.db.tunnels, a, rows)
    ensures var e := OnAccount(EClaim(uid, w.db.agents[a].claimCode.value, Some(a), rows, luck));
      Possible(w, e) && !Heard(Step(w, e))
  {
    hide SyncRows, Configs;
    var e := OnAccount(EClaim(uid, w.db.agents[a].claimCode.value, Some(a), rows, luck));
    var v := Step(w, e);
    assert v.out[|w.out|] == Sent(w.pending[w.db.agents[a].claimCode.value],
                                  AuthSuccess(a, w.db.agents[a].name, w.db.agents[a].token));
  }

  // ---------- new codes are safe ----------

  ghost predicate CodesDistinct(agents: map<Id, Agent>) {
    forall a, b :: a in agents && b in agents && a != b && agents[a].claimCode.Some? ==>
      agents[a].claimCode != agents[b].claimCode
  }

  /** A new claim code is not one that some agent can still be claimed with. */
  ghost predicate CodeIsNew(w: World, e: Event) {
    e.OnSocket? && e.socket.ERequestClaim? ==>
      forall a :: a in w.db.agents ==> w.db.agents[a].claimCode != Some(e.socket.code)
  }

  lemma SocketDistinct(w: World, e: SocketEvent)
    requires CodesDistinct(w.db.agents) && SocketPossible(w, e) && CodeIsNew(w, OnSocket(e))
    ensures CodesDistinct(SocketStep(w, e).db.agents) && CodeSafe(w, OnSocket(e))
  {
    hide SyncRows, Configs, IsListing, Release;
  }

  lemma AccountDistinct(w: World, e: AccountEvent)
    requires CodesDistinct(w.db.agents) && AccountPossible(w, e)
    ensures CodesDistinct(AccountStep(w, e).db.agents)
  {
    hide SyncRows, Configs, IsListing, Release, NameTaken, Candidates, FirstFree;
  }

  lemma DistinctKept(w: World, e: Event)
    requires CodesDistinct(w.db.agents) && Possible(w, e) && CodeIsNew(w, e)
    ensures CodesDistinct(Step(w, e).db.agents) && CodeSafe(w, e)
  {
    hide SocketStep, AccountStep, TunnelStep;
    match e
    case OnSocket(socket) => SocketDistinct(w, socket);
    case OnAccount(account) => AccountDistinct(w, account);
    case OnTunnel(tunnel) => TunnelKeeps(w, tunnel);
    case _ =>
  }

  // ---------- what is announced is owned ----------

  /** Every authentication a step announces is of an agent that has an owner by then. */
  ghost predicate AnnouncedOwned(w: World, v: World) {
    && w.out <= v.out
    && forall i :: |w.out| <= i < |v.out| && v.out[i].msg.AuthSuccess? ==>
         v.out[i].msg.agent in v.db.agents && v.db.agents[v.out[i].msg.agent].owner.Some?
  }

  lemma SocketAnnounces(w: World, e: SocketEvent)
    requires OwnedOrClaimable(w.db.agents) && SocketPossible(w, e)
    ensures AnnouncedOwned(w, SocketStep(w, e))
  {
    hide SyncRows, Configs, IsListing, Release;
  }

  lemma AccountAnnounces(w: World, e: AccountEvent)
    requires AccountPossible(w, e)
    ensures AnnouncedOwned(w, AccountStep(w, e))
  {
    hide SyncRows, Configs, IsListing, Release, NameTaken, Candidates, FirstFree;
  }

  lemma Announces(w: World, e: Event)
    requires OwnedOrClaimable(w.db.agents) && Possible(w, e)
    ensures AnnouncedOwned(w, Step(w, e))
  {
    hide SocketStep, AccountStep, TunnelStep;
    match e
    case OnSocket(socket) => SocketAnnounces(w, socket);
    case OnAccount(account) => AccountAnnounces(w, account);
    case OnTunnel(tunnel) => TunnelKeeps(w, tunnel);
    case _ =>
  }
}
