/**
 The relay's tables and in-memory maps as one value, and each handler as a function on it. Handlers are
 atomic here. What the environment decides comes in as arguments: the rows a query returns and their order
 (`rows`, `pick`), the random draws, and which binds the operating system would grant (`luck`).
 */
module World {
  import opened Types
  import opened Strings
  import opened DedicatedPorts

  type Code = string

  // ---------- tables ----------

  datatype User = User(username: string, dedicatedPort: Port, banned: bool)

  datatype Agent = Agent(owner: Option<Id>, token: Id, claimCode: Option<Code>, name: string, online: bool)

  datatype Tunnel = Tunnel(
    agent: Id, user: Id, name: string, localPort: Port, protocol: string, publicPort: Port,
    subdomain: Option<string>, enabled: bool, createdAt: int)

  datatype Db = Db(users: map<Id, User>, agents: map<Id, Agent>, tunnels: map<Id, Tunnel>)

  function PutUser(db: Db, u: Id, user: User): Db { db.(users := db.users[u := user]) }

  function PutAgent(db: Db, a: Id, agent: Agent): Db { db.(agents := db.agents[a := agent]) }

  function PutTunnel(db: Db, t: Id, row: Tunnel): Db { db.(tunnels := db.tunnels[t := row]) }

  function RemoveTunnel(db: Db, t: Id): Db { db.(tunnels := db.tunnels - {t}) }

  ghost function RemoveAgent(db: Db, a: Id): Db {
    db.(tunnels := db.tunnels - RowsOf(db.tunnels, a), agents := db.agents - {a})
  }

  /** `toggle_user_ban` */
  function SetBanned(db: Db, u: Id, banned: bool): Db {
    if u in db.users then PutUser(db, u, db.users[u].(banned := banned)) else db
  }

  /** `set_agent_online`, without the name */
  function SetOnline(db: Db, a: Id, online: bool): Db {
    if a in db.agents then PutAgent(db, a, db.agents[a].(online := online)) else db
  }

  /** A constraint of the schema makes a statement fail, or a lookup finds nothing. */
  datatype Reply = Done | Created(id: Id) | BadRequest | Unauthorized | NotFound | Conflict | Failed

  // ---------- memory ----------

  datatype Kind = Tcp | Udp

  datatype Config = Config(
    id: Id, agent: Id, name: string, localPort: Port, protocol: string, publicPort: Port,
    subdomain: Option<string>, enabled: bool)

  /** A spawned proxy task: the tunnel it serves, the address it has bound and the channel it feeds. */
  datatype Listener = Listener(tunnel: Id, kind: Kind, port: Port, chan: Id)

  /** allocated_ports, tunnel_tasks, and the proxy tasks that are still running. */
  datatype Net = Net(reserved: set<Port>, tasks: map<Id, Listener>, live: set<Listener>)

  /** The locals of `handle_socket`. A socket's id also stands for the sending end of its channel. */
  datatype Session = Session(agent: Option<Id>, code: Option<Code>)

  datatype Msg =
    | ClaimReady(code: Code, token: Id)
    | AuthSuccess(agent: Id, name: string, token: Id)
    | SyncTunnels(tunnels: seq<Config>)
    | StartTunnel(tunnel: Config)
    | StopTunnel(id: Id)
    | Error

  datatype Sent = Sent(to: Id, msg: Msg)

  /** `creator` (the user of every tunnel ever created) and `shown` (the sockets that asked for an agent's
      claim or presented its token) are history: no handler reads them. */
  datatype World = World(
    lo: Port, hi: Port,
    db: Db,
    net: Net,
    senders: map<Id, Id>,
    pending: map<Code, Id>,
    sessions: map<Id, Session>,
    out: seq<Sent>,
    next: Id,
    creator: map<Id, Id>,
    shown: set<(Id, Id)>)

  function Start(lo: Port, hi: Port): World {
    World(lo, hi, Db(map[], map[], map[]), Net({}, map[], {}), map[], map[], map[], [], 0, map[], {})
  }

  // ---------- tunnel_manager ----------

  function KindOf(protocol: string): Kind { if Lower(protocol) == "tcp" then Tcp else Udp }

  function ConfigOf(id: Id, t: Tunnel): Config {
    Config(id, t.agent, t.name, t.localPort, t.protocol, t.publicPort, t.subdomain, t.enabled)
  }

  function ListenerOf(c: Config, chan: Id): Listener { Listener(c.id, KindOf(c.protocol), c.publicPort, chan) }

  /** Some running listener holds this address. */
  predicate Busy(n: Net, kind: Kind, port: Port) {
    exists l :: l in n.live && l.kind == kind && l.port == port
  }

  /** Removes and aborts the listeners of some tunnels. */
  function Abort(n: Net, ids: set<Id>): Net {
    n.(tasks := n.tasks - ids, live := n.live - set t | t in ids && t in n.tasks :: n.tasks[t])
  }

  function StartListener(n: Net, c: Config, chan: Id, luck: set<Id>): Net {
    var m := Abort(n, {c.id});
    var l := ListenerOf(c, chan);
    if c.id in luck && !Busy(m, l.kind, l.port) then m.(tasks := m.tasks[c.id := l], live := m.live + {l}) else m
  }

  /** Stops the listeners of some tunnel rows and gives their ports back. */
  function Release(n: Net, tunnels: map<Id, Tunnel>, ids: set<Id>): Net
    requires ids <= tunnels.Keys
  {
    var m := Abort(n, ids);
    m.(reserved := m.reserved - set t | t in ids :: tunnels[t].publicPort)
  }

  // ---------- ws_handler: the listeners of one agent ----------

  function Configs(tunnels: map<Id, Tunnel>, rows: seq<Id>): seq<Config>
    requires forall t :: t in rows ==> t in tunnels
  {
    seq(|rows|, i requires 0 <= i < |rows| => ConfigOf(rows[i], tunnels[rows[i]]))
  }

  function SyncOne(n: Net, c: Config, chan: Id, luck: set<Id>): Net {
    if c.enabled then StartListener(n.(reserved := n.reserved + {c.publicPort}), c, chan, luck) else n
  }

  function SyncRows(n: Net, cs: seq<Config>, chan: Id, luck: set<Id>): Net {
    if cs == [] then n
    else SyncOne(SyncRows(n, cs[..|cs| - 1], chan, luck), cs[|cs| - 1], chan, luck)
  }

  /** The rows are an answer of `list_tunnels_for_agent`: each row of the agent once, oldest first. */
  ghost predicate IsListing(tunnels: map<Id, Tunnel>, agent: Id, rows: seq<Id>) {
    && (forall t :: t in rows <==> t in tunnels && tunnels[t].agent == agent)
    && (forall i, j :: 0 <= i < j < |rows| ==> rows[i] != rows[j])
    && (forall i, j :: 0 <= i < j < |rows| && rows[i] in tunnels && rows[j] in tunnels ==>
          tunnels[rows[i]].createdAt <= tunnels[rows[j]].createdAt)
  }

  function Sync(w: World, chan: Id, rows: seq<Id>, luck: set<Id>): World
    requires forall t :: t in rows ==> t in w.db.tunnels
  {
    var cs := Configs(w.db.tunnels, rows);
    w.(net := SyncRows(w.net, cs, chan, luck), out := w.out + [Sent(chan, SyncTunnels(cs))])
  }

  ghost function RowsOf(tunnels: map<Id, Tunnel>, agent: Id): set<Id> {
    set t | t in tunnels && tunnels[t].agent == agent
  }

  ghost function RowsOfUser(tunnels: map<Id, Tunnel>, user: Id): set<Id> {
    set t | t in tunnels && tunnels[t].user == user
  }

  // ---------- ws_handler: sockets ----------

  function Connect(w: World): World {
    w.(sessions := w.sessions[w.next := Session(None, None)], next := w.next + 1)
  }

  function RequestClaim(w: World, s: Id, hostname: string, code: Code): World
    requires s in w.sessions
  {
    var a, token := w.next, w.next + 1;
    w.(db := PutAgent(w.db, a, Agent(None, token, Some(code), hostname, false)),
       pending := w.pending[code := s],
       sessions := w.sessions[s := w.sessions[s].(code := Some(code))],
       out := w.out + [Sent(s, ClaimReady(code, token))],
       next := w.next + 2,
       shown := w.shown + {(s, a)})
  }

  /** `get_agent_by_token`; tokens are unique. */
  ghost function AgentByToken(agents: map<Id, Agent>, token: Id): (r: Option<Id>)
    ensures r.Some? ==> r.value in agents && agents[r.value].token == token
    ensures r.None? ==> forall a :: a in agents ==> agents[a].token != token
  {
    if exists a :: a in agents && agents[a].token == token then
      var a :| a in agents && agents[a].token == token; Some(a)
    else None
  }

  ghost predicate AuthListing(w: World, token: Id, rows: seq<Id>) {
    var a := AgentByToken(w.db.agents, token);
    a.Some? && w.db.agents[a.value].claimCode.None? ==> IsListing(w.db.tunnels, a.value, rows)
  }

  ghost function Auth(w: World, s: Id, token: Id, hostname: string, rows: seq<Id>, luck: set<Id>): World
    requires s in w.sessions && AuthListing(w, token, rows)
  {
    match AgentByToken(w.db.agents, token)
    case None => w.(out := w.out + [Sent(s, Error)])
    case Some(a) =>
      var agent := w.db.agents[a];
      match agent.claimCode
      case Some(code) =>
        w.(pending := w.pending[code := s],
           sessions := w.sessions[s := w.sessions[s].(code := Some(code))],
           out := w.out + [Sent(s, ClaimReady(code, token))],
           shown := w.shown + {(s, a)})
      case None =>
        var v := w.(
          db := PutAgent(w.db, a, agent.(online := true, name := hostname)),
          senders := w.senders[a := s],
          sessions := w.sessions[s := w.sessions[s].(agent := Some(a))],
          out := w.out + [Sent(s, AuthSuccess(a, agent.name, agent.token))],
          shown := w.shown + {(s, a)});
        Sync(v, s, rows, luck)
  }

  ghost function Cleanup(w: World, a: Id): World {
    w.(db := SetOnline(w.db, a, false),
       senders := w.senders - {a},
       net := Release(w.net, w.db.tunnels, RowsOf(w.db.tunnels, a)))
  }

  ghost function Disconnect(w: World, s: Id): World
    requires s in w.sessions
  {
    var session := w.sessions[s];
    var v := w.(sessions := w.sessions - {s},
                pending := if session.code.Some? then w.pending - {session.code.value} else w.pending);
    if session.agent.Some? then Cleanup(v, session.agent.value) else v
  }

  // ---------- admin ----------

  function TakenPorts(users: map<Id, User>): set<Port> { set u | u in users :: users[u].dedicatedPort }

  predicate NameTaken(users: map<Id, User>, name: string) {
    exists u :: u in users && users[u].username == name
  }

  /** The name, once trimmed, and the password are long enough. */
  predicate Acceptable(username: string, password: string) {
    ByteLength(Trim(username)) >= 3 && ByteLength(password) >= 6
  }

  function Register(w: World, username: string, password: string, draws: seq<nat>): (World, Reply)
    requires w.lo < w.hi
  {
    if !Acceptable(username, password) then (w, BadRequest) else
    match FirstFree(Candidates(draws, w.lo, w.hi), TakenPorts(w.db.users))
    case None => (w, Conflict)
    case Some(port) =>
      if NameTaken(w.db.users, Trim(username)) then (w, Conflict)
      else
        (w.(db := PutUser(w.db, w.next, User(Trim(username), port, false)), next := w.next + 1),
         Created(w.next))
  }

  function GenerateToken(w: World, uid: Id): (World, Reply) {
    if exists a :: a in w.db.agents && w.db.agents[a].owner == Some(uid) then (w, Done)
    else if uid !in w.db.users then (w, Failed)
    else
      (w.(db := PutAgent(w.db, w.next, Agent(Some(uid), w.next + 1, None, "My Computer", false)),
          next := w.next + 2),
       Created(w.next))
  }

  /** `pick` is the row the query on the claim code returned, if any. */
  ghost predicate ClaimAnswer(w: World, code: Code, pick: Option<Id>, rows: seq<Id>) {
    && (pick.Some? ==> pick.value in w.db.agents && w.db.agents[pick.value].claimCode == Some(code))
    && (pick.None? ==> forall a :: a in w.db.agents ==> w.db.agents[a].claimCode != Some(code))
    && (pick.Some? ==> IsListing(w.db.tunnels, pick.value, rows))
  }

  function Claim(w: World, uid: Id, code: Code, pick: Option<Id>, rows: seq<Id>, luck: set<Id>): (World, Reply)
    requires ClaimAnswer(w, code, pick, rows)
  {
    if pick.None? then (w, NotFound)
    else if uid !in w.db.users then (w, Failed)
    else
      var a := pick.value;
      var agent := w.db.agents[a].(claimCode := None, owner := Some(uid));
      if code !in w.pending then (w.(db := PutAgent(w.db, a, agent)), Done)
      else
        var s := w.pending[code];
        var v := w.(
          db := PutAgent(w.db, a, agent.(online := true)),
          pending := w.pending - {code},
          senders := w.senders[a := s],
          out := w.out + [Sent(s, AuthSuccess(a, agent.name, agent.token))]);
        (Sync(v, s, rows, luck), Done)
  }

  predicate SubdomainTaken(tunnels: map<Id, Tunnel>, sub: string, except: Option<Id>) {
    exists t :: t in tunnels && tunnels[t].subdomain.Some? && Lower(tunnels[t].subdomain.value) == Lower(sub)
                && except != Some(t)
  }

  function CreateTunnel(w: World, uid: Id, agent: Id, name: string, localPort: Port, protocol: string,
                        subdomain: Option<string>, now: int, luck: set<Id>): (World, Reply)
  {
    var sub := Clean(subdomain);
    if sub.Some? && SubdomainTaken(w.db.tunnels, sub.value, None) then (w, Conflict)
    else if uid !in w.db.users then (w, Unauthorized)
    else
      var port := w.db.users[uid].dedicatedPort;
      if port < 1024 || port in w.net.reserved then (w, Conflict)
      else
        var n := w.net.(reserved := w.net.reserved + {port});
        if agent !in w.db.agents then (w.(net := n), Failed)
        else
          var row := Tunnel(agent, uid, name, localPort, protocol, port, sub, true, now);
          var c := ConfigOf(w.next, row);
          var v := w.(db := PutTunnel(w.db, w.next, row), net := n, next := w.next + 1,
                      creator := w.creator[w.next := uid]);
          (if agent in w.senders then
             v.(net := StartListener(n, c, w.senders[agent], luck),
                out := w.out + [Sent(w.senders[agent], StartTunnel(c))])
           else v,
           Created(w.next))
  }

  ghost predicate UpdateListing(w: World, tid: Id, rows: seq<Id>) {
    tid in w.db.tunnels ==> IsListing(w.db.tunnels, w.db.tunnels[tid].agent, rows)
  }

  function UpdateTunnel(w: World, tid: Id, name: string, localPort: Port, protocol: string,
                        subdomain: Option<string>, rows: seq<Id>, luck: set<Id>): (World, Reply)
    requires UpdateListing(w, tid, rows)
  {
    var sub := Clean(subdomain);
    if tid !in w.db.tunnels then (w, NotFound)
    else if sub.Some? && SubdomainTaken(w.db.tunnels, sub.value, Some(tid)) then (w, Conflict)
    else
      var row := w.db.tunnels[tid].(name := name, localPort := localPort, protocol := protocol, subdomain := sub);
      var v := w.(db := PutTunnel(w.db, tid, row));
      (if row.agent in w.senders then Sync(v, w.senders[row.agent], rows, luck) else v, Done)
  }

  function ToggleTunnel(w: World, tid: Id, luck: set<Id>): (World, Reply) {
    if tid !in w.db.tunnels then (w, NotFound)
    else
      var row := w.db.tunnels[tid].(enabled := !w.db.tunnels[tid].enabled);
      var c := ConfigOf(tid, row);
      var v := w.(db := PutTunnel(w.db, tid, row));
      var online := row.agent in w.senders;
      if row.enabled then
        var n := w.net.(reserved := w.net.reserved + {row.publicPort});
        (if online then
           v.(net := StartListener(n, c, w.senders[row.agent], luck),
              out := w.out + [Sent(w.senders[row.agent], StartTunnel(c))])
         else v.(net := n),
         Done)
      else
        (v.(net := Release(w.net, w.db.tunnels, {tid}),
            out := if online then w.out + [Sent(w.senders[row.agent], StopTunnel(tid))] else w.out),
         Done)
  }

  function DeleteTunnel(w: World, tid: Id): World {
    if tid !in w.db.tunnels then w
    else
      var agent := w.db.tunnels[tid].agent;
      w.(db := RemoveTunnel(w.db, tid),
         net := Release(w.net, w.db.tunnels, {tid}),
         out := if agent in w.senders then w.out + [Sent(w.senders[agent], StopTunnel(tid))] else w.out)
  }

  /** Neither listeners nor ports are touched. */
  ghost function DeleteAgent(w: World, a: Id): World {
    w.(db := RemoveAgent(w.db, a),
       senders := w.senders - {a},
       out := if a in w.senders then w.out + [Sent(w.senders[a], Error)] else w.out)
  }

  ghost function Ban(w: World, uid: Id): World {
    w.(db := SetBanned(w.db, uid, true),
       net := Release(w.net, w.db.tunnels, RowsOfUser(w.db.tunnels, uid)))
  }

  function Unban(w: World, uid: Id): World { w.(db := SetBanned(w.db, uid, false)) }

  // ---------- the process and its tasks ----------

  /** The tables survive a restart; memory and sockets do not. */
  function Restart(w: World): World {
    w.(net := Net({}, map[], {}), senders := map[], pending := map[], sessions := map[])
  }

  /** A proxy task ends by itself once its channel is closed, and a failed write on the agent's socket closes
      the channel at any time. Its handle stays registered. */
  predicate CanExit(w: World, l: Listener) { l in w.net.live }

  function Exit(w: World, l: Listener): World { w.(net := w.net.(live := w.net.live - {l})) }

  // ---------- runs ----------

  datatype SocketEvent =
    | EConnect
    | ERequestClaim(s: Id, hostname: string, code: Code)
    | EAuth(s: Id, token: Id, hostname: string, rows: seq<Id>, luck: set<Id>)
    | EDisconnect(s: Id)

  datatype AccountEvent =
    | ERegister(username: string, password: string, draws: seq<nat>)
    | EGenerateToken(uid: Id)
    | EClaim(uid: Id, code: Code, pick: Option<Id>, rows: seq<Id>, luck: set<Id>)
    | EDeleteAgent(a: Id)
    | EBan(uid: Id)
    | EUnban(uid: Id)

  datatype TunnelEvent =
    | ECreate(uid: Id, agent: Id, name: string, localPort: Port, protocol: string, subdomain: Option<string>,
              now: int, luck: set<Id>)
    | EUpdate(tid: Id, name: string, localPort: Port, protocol: string, subdomain: Option<string>, rows: seq<Id>,
              luck: set<Id>)
    | EToggle(tid: Id, luck: set<Id>)
    | EDelete(tid: Id)

  datatype Event =
    | OnSocket(socket: SocketEvent)
    | OnAccount(account: AccountEvent)
    | OnTunnel(tunnel: TunnelEvent)
    | ERestart
    | EExit(l: Listener)

  /** The event can happen in this state, with these answers from the database. */
  ghost predicate SocketPossible(w: World, e: SocketEvent) {
    match e
    case EConnect => true
    case ERequestClaim(s, _, _) => s in w.sessions
    case EAuth(s, token, _, rows, _) => s in w.sessions && AuthListing(w, token, rows)
    case EDisconnect(s) => s in w.sessions
  }

  ghost predicate AccountPossible(w: World, e: AccountEvent) {
    match e
    case ERegister(_, _, _) => w.lo < w.hi
    case EClaim(_, code, pick, rows, _) => ClaimAnswer(w, code, pick, rows)
    case _ => true
  }

  ghost predicate TunnelPossible(w: World, e: TunnelEvent) {
    e.EUpdate? ==> UpdateListing(w, e.tid, e.rows)
  }

  ghost predicate Possible(w: World, e: Event) {
    match e
    case OnSocket(socket) => SocketPossible(w, socket)
    case OnAccount(account) => AccountPossible(w, account)
    case OnTunnel(tunnel) => TunnelPossible(w, tunnel)
    case ERestart => true
    case EExit(l) => CanExit(w, l)
  }

  ghost function SocketStep(w: World, e: SocketEvent): World
    requires SocketPossible(w, e)
  {
    match e
    case EConnect => Connect(w)
    case ERequestClaim(s, hostname, code) => RequestClaim(w, s, hostname, code)
    case EAuth(s, token, hostname, rows, luck) => Auth(w, s, token, hostname, rows, luck)
    case EDisconnect(s) => Disconnect(w, s)
  }

  ghost function AccountStep(w: World, e: AccountEvent): World
    requires AccountPossible(w, e)
  {
    match e
    case ERegister(username, password, draws) => Register(w, username, password, draws).0
    case EGenerateToken(uid) => GenerateToken(w, uid).0
    case EClaim(uid, code, pick, rows, luck) => Claim(w, uid, code, pick, rows, luck).0
    case EDeleteAgent(a) => DeleteAgent(w, a)
    case EBan(uid) => Ban(w, uid)
    case EUnban(uid) => Unban(w, uid)
  }

  ghost function TunnelStep(w: World, e: TunnelEvent): World
    requires TunnelPossible(w, e)
  {
    match e
    case ECreate(uid, agent, name, localPort, protocol, subdomain, now, luck) =>
      CreateTunnel(w, uid, agent, name, localPort, protocol, subdomain, now, luck).0
    case EUpdate(tid, name, localPort, protocol, subdomain, rows, luck) =>
      UpdateTunnel(w, tid, name, localPort, protocol, subdomain, rows, luck).0
    case EToggle(tid, luck) => ToggleTunnel(w, tid, luck).0
    case EDelete(tid) => DeleteTunnel(w, tid)
  }

  ghost function Step(w: World, e: Event): World
    requires Possible(w, e)
  {
    match e
    case OnSocket(socket) => SocketStep(w, socket)
    case OnAccount(account) => AccountStep(w, account)
    case OnTunnel(tunnel) => TunnelStep(w, tunnel)
    case ERestart => Restart(w)
    case EExit(l) => Exit(w, l)
  }

  /** A run from an empty database: its states, and the event between each two. */
  ghost predicate IsRun(ws: seq<World>, es: seq<Event>) {
    && |ws| == |es| + 1
    && ws[0] == Start(ws[0].lo, ws[0].hi)
    && forall i :: 0 <= i < |es| ==> Possible(ws[i], es[i]) && ws[i + 1] == Step(ws[i], es[i])
  }
}
