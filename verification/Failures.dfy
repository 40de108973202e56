/** Runs on which claims fail that look true of the relay. The conditions under which they do hold are in
    Claims.WaitsExact, Reservations.AccountedExact, Reservations.BackedExact and Disconnects.DisconnectExact. */
module Failures {
  import opened Types
  import opened Strings
  import opened DedicatedPorts
  import opened World
  import opened Listeners
  import opened Reservations
  import opened Runs

  const Nobody: Net := Net({}, map[], {})
  const Ann := User("ann", 2000, false)
  const Fresh := Session(None, None)
  const CONNECT := OnSocket(EConnect)
  const REGISTER := OnAccount(ERegister("ann", "secret", [0]))

  lemma RunMore(ws: seq<World>, es: seq<Event>, e: Event)
    requires IsRun(ws, es) && Possible(ws[|es|], e)
    ensures IsRun(ws + [Step(ws[|es|], e)], es + [e])
  {
    hide Possible, Step;
    var more, events := ws + [Step(ws[|es|], e)], es + [e];
    forall i | 0 <= i < |events| ensures Possible(more[i], events[i]) && more[i + 1] == Step(more[i], events[i]) {
      assert i < |es| ==> more[i] == ws[i] && more[i + 1] == ws[i + 1] && events[i] == es[i];
    }
  }

  lemma AnnAccepted()
    ensures Trim("ann") == "ann" && Acceptable("ann", "secret")
  {
    assert ByteLength("ann") == 3 by {
      assert "ann"[1..] == "nn" && "nn"[1..] == "n" && "n"[1..] == "";
    }
    assert ByteLength("secret") == 6 by {
      assert "secret"[1..] == "ecret" && "ecret"[1..] == "cret" && "cret"[1..] == "ret";
      assert "ret"[1..] == "et" && "et"[1..] == "t" && "t"[1..] == "";
    }
  }

  lemma FirstPort()
    ensures FirstFree(Candidates([0], 2000, 3000), {}) == Some(2000)
  {
    assert Candidates([0], 2000, 3000)[0] == 2000;
    FirstFreeAt(Candidates([0], 2000, 3000), {}, 0);
  }

  lemma Registered(w: World)
    requires w.lo == 2000 && w.hi == 3000 && w.db.users == map[]
    ensures Possible(w, REGISTER)
    ensures Step(w, REGISTER) == w.(db := w.db.(users := map[w.next := Ann]), next := w.next + 1)
  {
    hide FirstFree, Candidates, Trim, Acceptable;
    AnnAccepted();
    FirstPort();
    assert TakenPorts(w.db.users) == {};
    assert !NameTaken(w.db.users, "ann");
  }

  // ---------- a claim code drawn twice ----------

  const CODE := "000007"
  const ASK0 := OnSocket(ERequestClaim(0, "pc", CODE))
  const ASK1 := OnSocket(ERequestClaim(1, "pc", CODE))
  const CLAIM := OnAccount(EClaim(2, CODE, Some(3), [], {}))

  const TwoSockets := World(2000, 3000, Db(map[2 := Ann], map[], map[]), Nobody, map[], map[],
                            map[0 := Fresh, 1 := Fresh], [], 3, map[], {})

  const TwoAgents := World(
    2000, 3000,
    Db(map[2 := Ann],
       map[3 := Agent(None, 4, Some(CODE), "pc", false), 5 := Agent(None, 6, Some(CODE), "pc", false)], map[]),
    Nobody, map[], map[CODE := 1],
    map[0 := Session(None, Some(CODE)), 1 := Session(None, Some(CODE))],
    [Sent(0, ClaimReady(CODE, 4)), Sent(1, ClaimReady(CODE, 6))], 7, map[], {(0, 3), (1, 5)})

  lemma BothConnect()
    ensures IsRun([Start(2000, 3000)], []) && Possible(Start(2000, 3000), CONNECT)
    ensures var w := Step(Start(2000, 3000), CONNECT); Possible(w, CONNECT)
    ensures Step(Step(Start(2000, 3000), CONNECT), CONNECT) == TwoSockets.(db := Db(map[], map[], map[]), next := 2)
  {
    assert Step(Step(Start(2000, 3000), CONNECT), CONNECT).sessions == map[0 := Fresh, 1 := Fresh];
  }

  lemma TwoSocketsRun() returns (ws: seq<World>)
    ensures IsRun(ws, [CONNECT, CONNECT, REGISTER]) && |ws| == 4 && ws[3] == TwoSockets
  {
    hide Step, IsRun, Possible, Start;
    BothConnect();
    var w0 := Start(2000, 3000);
    var w1 := Step(w0, CONNECT);
    var w2 := Step(w1, CONNECT);
    Registered(w2);
    var es: seq<Event>;
    ws, es := [w0], [];
    RunMore(ws, es, CONNECT);
    ws, es := ws + [w1], es + [CONNECT];
    RunMore(ws, es, CONNECT);
    ws, es := ws + [w2], es + [CONNECT];
    RunMore(ws, es, REGISTER);
    ws, es := ws + [Step(w2, REGISTER)], es + [REGISTER];
    assert es == [CONNECT, CONNECT, REGISTER];
  }

  lemma BothAsk()
    ensures Possible(TwoSockets, ASK0) && Possible(Step(TwoSockets, ASK0), ASK1)
    ensures Step(TwoSockets, ASK0).next == 5 && Step(Step(TwoSockets, ASK0), ASK1) == TwoAgents
  {
    var v := Step(TwoSockets, ASK0);
    assert v.out == [Sent(0, ClaimReady(CODE, 4))];
    var w := Step(v, ASK1);
    assert w.out == TwoAgents.out && w.db == TwoAgents.db && w.pending == TwoAgents.pending;
    assert w.sessions == TwoAgents.sessions && w.shown == TwoAgents.shown;
  }

  lemma FirstClaimed()
    ensures Possible(TwoAgents, CLAIM)
    ensures var w := Step(TwoAgents, CLAIM); |w.out| == 4 && w.out[2] == Sent(1, AuthSuccess(3, "pc", 4))
  {
  }

  /** Two sockets are given one claim code. Claiming the first agent authenticates the second socket as that
      agent, though it neither asked for that agent's claim nor ever presented its token. */
  lemma RepeatedCodeMisleads() returns (ws: seq<World>, es: seq<Event>, m: nat)
    ensures IsRun(ws, es) && m < |ws[|es|].out| && ws[|es|].out[m].msg.AuthSuccess?
    ensures forall k :: 0 <= k < |es| ==> !Shows(ws[k], es[k], ws[|es|].out[m].to, ws[|es|].out[m].msg.agent)
  {
    ws := TwoSocketsRun();
    BothAsk();
    FirstClaimed();
    hide Step, Possible, IsRun;
    es := [CONNECT, CONNECT, REGISTER];
    RunMore(ws, es, ASK0);
    var v := Step(TwoSockets, ASK0);
    ws, es := ws + [v], es + [ASK0];
    RunMore(ws, es, ASK1);
    ws, es := ws + [TwoAgents], es + [ASK1];
    RunMore(ws, es, CLAIM);
    ws, es, m := ws + [Step(TwoAgents, CLAIM)], es + [CLAIM], 2;
  }

  // ---------- two rows of one user on its port ----------

  const TOKEN := OnAccount(EGenerateToken(1))
  const AUTH := OnSocket(EAuth(0, 3, "pc", [], {}))
  const CREATE := OnTunnel(ECreate(1, 2, "a", 80, "tcp", None, 0, {4, 5}))
  const TOGGLE := OnTunnel(EToggle(4, {4, 5}))

  function Row(enabled: bool): Tunnel { Tunnel(2, 1, "a", 80, "tcp", 2000, None, enabled, 0) }

  function OnPort(t: Id): Listener { Listener(t, KindOf("tcp"), 2000, 0) }

  /** Ann's agent is connected on socket 0; these are her rows, and the state of the listeners. */
  function Ours(tunnels: map<Id, Tunnel>, net: Net, next: Id, creator: map<Id, Id>, out: seq<Sent>): World {
    World(2000, 3000, Db(map[1 := Ann], map[2 := Agent(Some(1), 3, None, "pc", true)], tunnels), net, map[2 := 0],
          map[], map[0 := Session(Some(2), None)], out, next, creator, {(0, 2)})
  }

  const Owned := World(2000, 3000, Db(map[1 := Ann], map[2 := Agent(Some(1), 3, None, "My Computer", false)], map[]),
                       Nobody, map[], map[], map[0 := Fresh], [], 4, map[], {})

  lemma Authenticated()
    ensures Possible(Owned, AUTH)
    ensures Step(Owned, AUTH) == Ours(map[], Nobody, 4, map[], Step(Owned, AUTH).out)
  {
    assert AgentByToken(Owned.db.agents, 3) == Some(2) by {
      assert Owned.db.agents[2].token == 3;
    }
    var w := Step(Owned, AUTH);
    assert Configs(map[], []) == [];
    assert w.sessions == map[0 := Session(Some(2), None)] && w.net == Nobody;
    assert w.db.agents == map[2 := Agent(Some(1), 3, None, "pc", true)];
  }

  lemma FirstSocket()
    ensures IsRun([Start(2000, 3000)], []) && Possible(Start(2000, 3000), CONNECT)
    ensures Step(Start(2000, 3000), CONNECT) ==
      World(2000, 3000, Db(map[], map[], map[]), Nobody, map[], map[], map[0 := Fresh], [], 1, map[], {})
  {
    assert Step(Start(2000, 3000), CONNECT).sessions == map[0 := Fresh];
  }

  lemma OwnedRun() returns (ws: seq<World>)
    ensures IsRun(ws, [CONNECT, REGISTER, TOKEN]) && ws[3] == Owned
  {
    hide Step, IsRun, Possible, Start;
    FirstSocket();
    var w0 := Start(2000, 3000);
    var w1 := Step(w0, CONNECT);
    Registered(w1);
    var w2 := Step(w1, REGISTER);
    TokenGiven(w2);
    var es: seq<Event>;
    ws, es := [w0], [];
    RunMore(ws, es, CONNECT);
    ws, es := ws + [w1], es + [CONNECT];
    RunMore(ws, es, REGISTER);
    ws, es := ws + [w2], es + [REGISTER];
    RunMore(ws, es, TOKEN);
    ws, es := ws + [Owned], es + [TOKEN];
    assert es == [CONNECT, REGISTER, TOKEN];
  }

  lemma TokenGiven(w: World)
    requires w == World(2000, 3000, Db(map[1 := Ann], map[], map[]), Nobody, map[], map[],
                        map[0 := Fresh], [], 2, map[], {})
    ensures Possible(w, TOKEN) && Step(w, TOKEN) == Owned
  {
    var v := Step(w, TOKEN);
    assert v.db.agents == map[2 := Agent(Some(1), 3, None, "My Computer", false)];
  }

  lemma Connected() returns (ws: seq<World>, out: seq<Sent>)
    ensures IsRun(ws, [CONNECT, REGISTER, TOKEN, AUTH]) && ws[4] == Ours(map[], Nobody, 4, map[], out)
  {
    ws := OwnedRun();
    Authenticated();
    hide Step, Possible;
    RunMore(ws, [CONNECT, REGISTER, TOKEN], AUTH);
    assert |ws| == 4;
    ws, out := ws + [Step(Owned, AUTH)], Step(Owned, AUTH).out;
  }

  lemma Created(w: World, id: Id) returns (out: seq<Sent>)
    requires id in {4, 5} && w == Ours(w.db.tunnels, Nobody, id, w.creator, w.out).(sessions := w.sessions)
    ensures Step(w, CREATE) ==
      Ours(w.db.tunnels[id := Row(true)], Net({2000}, map[id := OnPort(id)], {OnPort(id)}), id + 1,
           w.creator[id := 1], out).(sessions := w.sessions)
  {
    out := Step(w, CREATE).out;
    assert Clean(None) == None;
    NothingToAbort(Net({2000}, map[], {}), id);
  }

  lemma FirstOff(w: World) returns (out: seq<Sent>)
    requires w == Ours(map[4 := Row(true)], Net({2000}, map[4 := OnPort(4)], {OnPort(4)}), 5, map[4 := 1], w.out)
    ensures Step(w, TOGGLE) == Ours(map[4 := Row(false)], Nobody, 5, map[4 := 1], out)
  {
    out := Step(w, TOGGLE).out;
    assert (set t | t in {4} && t in w.net.tasks :: w.net.tasks[t]) == {OnPort(4)};
    assert (set t | t in {4} :: w.db.tunnels[t].publicPort) == {2000};
    assert Step(w, TOGGLE).net == Nobody;
  }

  const Second := Net({2000}, map[5 := OnPort(5)], {OnPort(5)})

  lemma FirstOnAgain(w: World) returns (out: seq<Sent>)
    requires w == Ours(map[4 := Row(false), 5 := Row(true)], Second, 6, map[4 := 1, 5 := 1], w.out)
    ensures Step(w, TOGGLE) == Ours(map[4 := Row(true), 5 := Row(true)], Second, 6, map[4 := 1, 5 := 1], out)
  {
    out := Step(w, TOGGLE).out;
    NothingToAbort(Second, 4);
    assert Second.reserved + {2000} == Second.reserved;
    assert Busy(Second, KindOf("tcp"), 2000) by {
      assert OnPort(5) in Second.live;
    }
    assert Step(w, TOGGLE).net == Second;
  }

  lemma FirstOffAgain(w: World)
    requires w == Ours(map[4 := Row(true), 5 := Row(true)], Second, 6, map[4 := 1, 5 := 1], w.out)
    ensures Step(w, TOGGLE).net == Second.(reserved := {})
  {
    NothingToAbort(Second, 4);
    var tunnels := w.db.tunnels;
    assert tunnels[4].publicPort == 2000;
    assert (set t | t in {4} :: tunnels[t].publicPort) == {2000};
  }

  /** A user creates a tunnel and turns it off, creates a second one, and turns the first on and off again: the
      second tunnel's listener is still running, but its port is no longer reserved. */
  lemma SharedPortUnreserved() returns (ws: seq<World>, es: seq<Event>)
    ensures IsRun(ws, es)
    ensures var n := ws[|es|].net; 5 in n.tasks && n.tasks[5] in n.live && n.tasks[5].port !in n.reserved
  {
    var out;
    ws, out := Connected();
    es := [CONNECT, REGISTER, TOKEN, AUTH];
    hide Step, Possible, IsRun;
    RunTunnel(ws, es, CREATE);
    out := Created(ws[4], 4);
    ws, es := ws + [Step(ws[4], CREATE)], es + [CREATE];
    RunTunnel(ws, es, TOGGLE);
    out := FirstOff(ws[5]);
    ws, es := ws + [Step(ws[5], TOGGLE)], es + [TOGGLE];
    RunTunnel(ws, es, CREATE);
    out := Created(ws[6], 5);
    ws, es := ws + [Step(ws[6], CREATE)], es + [CREATE];
    RunTunnel(ws, es, TOGGLE);
    out := FirstOnAgain(ws[7]);
    ws, es := ws + [Step(ws[7], TOGGLE)], es + [TOGGLE];
    RunTunnel(ws, es, TOGGLE);
    FirstOffAgain(ws[8]);
    ws, es := ws + [Step(ws[8], TOGGLE)], es + [TOGGLE];
  }

  lemma RunTunnel(ws: seq<World>, es: seq<Event>, e: Event)
    requires IsRun(ws, es) && (e == CREATE || e == TOGGLE)
    ensures |ws| == |es| + 1 && Possible(ws[|es|], e) && IsRun(ws + [Step(ws[|es|], e)], es + [e])
  {
    hide Step;
    RunMore(ws, es, e);
  }

  // ---------- reserved ports without rows ----------

  const LOST := OnTunnel(ECreate(0, 9, "a", 80, "tcp", None, 0, {}))

  /** A tunnel is requested for an agent that does not exist: the port of the user is reserved, and stays so. */
  lemma FailedInsertUnbacked() returns (ws: seq<World>, es: seq<Event>)
    ensures IsRun(ws, es) && 2000 in ws[|es|].net.reserved && ws[|es|].db.tunnels == map[] && !Backed(ws[|es|])
  {
    var w0 := Start(2000, 3000);
    Registered(w0);
    var w1 := Step(w0, REGISTER);
    LostReserves(w1);
    assert IsRun([w0], []);
    hide Step, Possible, IsRun;
    ws, es := [w0], [];
    RunMore(ws, es, REGISTER);
    ws, es := ws + [w1], es + [REGISTER];
    RunMore(ws, es, LOST);
    ws, es := ws + [Step(w1, LOST)], es + [LOST];
    assert !RowOn(map[], 2000);
  }

  lemma LostReserves(w: World)
    requires w.db == Db(map[0 := Ann], map[], map[]) && w.net == Nobody
    ensures Possible(w, LOST) && Step(w, LOST) == w.(net := Net({2000}, map[], {}))
  {
    assert Clean(None) == None;
  }

  const DELETE := OnAccount(EDeleteAgent(2))

  /** An agent is deleted while its tunnel listens: the row goes, the listener and the reserved port stay. */
  lemma DeletedAgentUnbacked() returns (ws: seq<World>, es: seq<Event>)
    ensures IsRun(ws, es) && ws[|es|].db.tunnels == map[] && !Backed(ws[|es|])
    ensures var n := ws[|es|].net; 4 in n.tasks && n.tasks[4] in n.live && n.tasks[4].port in n.reserved
  {
    var out;
    ws, out := Connected();
    es := [CONNECT, REGISTER, TOKEN, AUTH];
    out := Created(ws[4], 4);
    RunTunnel(ws, es, CREATE);
    var w := Step(ws[4], CREATE);
    AgentGone(w);
    hide Step, Possible, IsRun;
    ws, es := ws + [w], es + [CREATE];
    RunMore(ws, es, DELETE);
    ws, es := ws + [Step(w, DELETE)], es + [DELETE];
    assert !RowOn(map[], 2000);
  }

  lemma AgentGone(w: World)
    requires w.db.tunnels == map[4 := Row(true)]
    ensures Possible(w, DELETE) && Step(w, DELETE).db.tunnels == map[] && Step(w, DELETE).net == w.net
  {
    assert RowsOf(w.db.tunnels, 2) == {4};
  }

  // ---------- what a disconnect leaves, and what it takes too much ----------

  const ASK := OnSocket(ERequestClaim(0, "pc", CODE))
  const CLAIMED := OnAccount(EClaim(1, CODE, Some(2), [], {}))
  const LEAVE := OnSocket(EDisconnect(0))

  /** A socket whose agent was claimed on the web is its sender, but does not know the agent. When it disconnects,
      sender, listener and reserved port stay. */
  lemma ClaimedSocketStays() returns (ws: seq<World>, es: seq<Event>)
    ensures IsRun(ws, es)
    ensures var w := ws[|es|];
      && 0 !in w.sessions && 2 in w.senders && w.senders[2] == 0
      && 4 in w.net.tasks && w.net.tasks[4] in w.net.live && w.net.tasks[4].chan == 0 && 2000 in w.net.reserved
  {
    var out;
    ws, out := ClaimedRun();
    es := [CONNECT, REGISTER, ASK, CLAIMED];
    out := Created(ws[4], 4);
    RunTunnel(ws, es, CREATE);
    var w := Step(ws[4], CREATE);
    Stays(w);
    hide Step, Possible, IsRun;
    ws, es := ws + [w], es + [CREATE];
    RunMore(ws, es, LEAVE);
    ws, es := ws + [Step(w, LEAVE)], es + [LEAVE];
  }

  lemma Stays(w: World)
    requires 0 in w.sessions && w.sessions[0].agent == None
    ensures Possible(w, LEAVE) && Step(w, LEAVE).senders == w.senders && Step(w, LEAVE).net == w.net
    ensures 0 !in Step(w, LEAVE).sessions
  {
  }

  function Claimed(out: seq<Sent>): World {
    Ours(map[], Nobody, 4, map[], out).(sessions := map[0 := Session(None, Some(CODE))])
  }

  const Registering := World(2000, 3000, Db(map[1 := Ann], map[], map[]), Nobody, map[], map[], map[0 := Fresh], [], 2,
                             map[], {})

  lemma AskedAndClaimed() returns (out: seq<Sent>)
    ensures Possible(Registering, ASK) && Possible(Step(Registering, ASK), CLAIMED)
    ensures Step(Step(Registering, ASK), CLAIMED) == Claimed(out)
  {
    var v := Step(Registering, ASK);
    assert v.db.agents[2].claimCode == Some(CODE);
    var w := Step(v, CLAIMED);
    out := w.out;
    assert Configs(map[], []) == [];
    assert w.sessions == map[0 := Session(None, Some(CODE))] && w.net == Nobody && w.pending == map[];
    assert w.db.agents == map[2 := Agent(Some(1), 3, None, "pc", true)];
  }

  lemma ClaimedRun() returns (ws: seq<World>, out: seq<Sent>)
    ensures IsRun(ws, [CONNECT, REGISTER, ASK, CLAIMED]) && ws[4] == Claimed(out)
  {
    hide Step, IsRun, Possible, Start;
    FirstSocket();
    var w0 := Start(2000, 3000);
    var w1 := Step(w0, CONNECT);
    Registered(w1);
    var w2 := Step(w1, REGISTER);
    assert w2 == Registering;
    out := AskedAndClaimed();
    var w3 := Step(w2, ASK);
    var es: seq<Event>;
    ws, es := [w0], [];
    RunMore(ws, es, CONNECT);
    ws, es := ws + [w1], es + [CONNECT];
    RunMore(ws, es, REGISTER);
    ws, es := ws + [w2], es + [REGISTER];
    RunMore(ws, es, ASK);
    ws, es := ws + [w3], es + [ASK];
    RunMore(ws, es, CLAIMED);
    ws, es := ws + [Step(w3, CLAIMED)], es + [CLAIMED];
    assert es == [CONNECT, REGISTER, ASK, CLAIMED];
  }

  const AGAIN := OnSocket(EAuth(4, 3, "pc", [], {}))

  /** An agent authenticates on a second socket. When the first one disconnects, the second one loses its sender. */
  lemma OlderSocketTakesDown() returns (ws: seq<World>, es: seq<Event>)
    ensures IsRun(ws, es)
    ensures var w := ws[|es|];
      4 in w.sessions && w.sessions[4].agent == Some(2) && 2 in w.db.agents && w.senders == map[]
  {
    var out;
    ws, out := Connected();
    var w := ws[4];
    Rejoins(w);
    hide Step, Possible, IsRun;
    es := [CONNECT, REGISTER, TOKEN, AUTH];
    RunMore(ws, es, CONNECT);
    var v := Step(w, CONNECT);
    ws, es := ws + [v], es + [CONNECT];
    RunMore(ws, es, AGAIN);
    ws, es := ws + [Step(v, AGAIN)], es + [AGAIN];
    RunMore(ws, es, LEAVE);
    ws, es := ws + [Step(Step(v, AGAIN), LEAVE)], es + [LEAVE];
  }

  lemma Rejoins(w: World)
    requires w == Ours(map[], Nobody, 4, map[], w.out)
    ensures Possible(w, CONNECT) && Possible(Step(w, CONNECT), AGAIN)
    ensures Possible(Step(Step(w, CONNECT), AGAIN), LEAVE)
    ensures var u := Step(Step(Step(w, CONNECT), AGAIN), LEAVE);
      4 in u.sessions && u.sessions[4].agent == Some(2) && 2 in u.db.agents && u.senders == map[]
  {
    var v := Step(w, CONNECT);
    assert AgentByToken(v.db.agents, 3) == Some(2) by {
      assert v.db.agents[2].token == 3;
    }
    var u := Step(v, AGAIN);
    assert u.sessions[0] == Session(Some(2), None) && u.senders == map[2 := 4];
  }

  const WAIT := OnSocket(EAuth(1, 3, "pc", [], {}))

  /** A second socket presents the token of an unclaimed agent and takes over its claim code. When the first one
      disconnects, the second one no longer waits: the claim will never reach it. */
  lemma WaitingSocketForgotten() returns (ws: seq<World>, es: seq<Event>)
    ensures IsRun(ws, es) && |es| == 5 && es[4] == LEAVE
    ensures CODE in ws[4].pending && ws[4].pending[CODE] == 1
    ensures 1 in ws[5].sessions && ws[5].sessions[1].code == Some(CODE) && CODE !in ws[5].pending
  {
    BothConnect();
    var w0 := Start(2000, 3000);
    var w1 := Step(w0, CONNECT);
    var w2 := Step(w1, CONNECT);
    TakenOver(w2);
    var w3 := Step(w2, ASK);
    var w4 := Step(w3, WAIT);
    hide Step, IsRun, Possible, Start;
    ws, es := [w0], [];
    RunMore(ws, es, CONNECT);
    ws, es := ws + [w1], es + [CONNECT];
    RunMore(ws, es, CONNECT);
    ws, es := ws + [w2], es + [CONNECT];
    RunMore(ws, es, ASK);
    ws, es := ws + [w3], es + [ASK];
    RunMore(ws, es, WAIT);
    ws, es := ws + [w4], es + [WAIT];
    RunMore(ws, es, LEAVE);
    ws, es := ws + [Step(w4, LEAVE)], es + [LEAVE];
  }

  lemma TakenOver(w: World)
    requires w == TwoSockets.(db := Db(map[], map[], map[]), next := 2)
    ensures Possible(w, ASK) && Possible(Step(w, ASK), WAIT) && Possible(Step(Step(w, ASK), WAIT), LEAVE)
    ensures var v := Step(Step(w, ASK), WAIT); CODE in v.pending && v.pending[CODE] == 1
    ensures var u := Step(Step(Step(w, ASK), WAIT), LEAVE);
      1 in u.sessions && u.sessions[1].code == Some(CODE) && CODE !in u.pending
  {
    var v := Step(w, ASK);
    assert AgentByToken(v.db.agents, 3) == Some(2) by {
      assert v.db.agents[2].token == 3;
    }
    assert v.db.agents[2].claimCode == Some(CODE);
    var u := Step(v, WAIT);
    assert u.sessions[0] == Session(None, Some(CODE)) && u.sessions[1] == Session(None, Some(CODE));
  }

  const ANOTHER := OnSocket(ERequestClaim(0, "pc", "000008"))

  /** A socket that asks for two claims waits on both codes and forgets the first one. After it has disconnected,
      claiming that code makes its dead channel the sender of the agent. */
  lemma FirstCodeStays() returns (ws: seq<World>, es: seq<Event>)
    ensures IsRun(ws, es)
    ensures var w := ws[|es|]; 0 !in w.sessions && 2 in w.senders && w.senders[2] == 0
  {
    hide Step, IsRun, Possible, Start;
    FirstSocket();
    var w0 := Start(2000, 3000);
    var w1 := Step(w0, CONNECT);
    Registered(w1);
    var w2 := Step(w1, REGISTER);
    assert w2 == Registering;
    TwoCodes();
    var w3 := Step(w2, ASK);
    var w4 := Step(w3, ANOTHER);
    var w5 := Step(w4, LEAVE);
    ws, es := [w0], [];
    RunMore(ws, es, CONNECT);
    ws, es := ws + [w1], es + [CONNECT];
    RunMore(ws, es, REGISTER);
    ws, es := ws + [w2], es + [REGISTER];
    RunMore(ws, es, ASK);
    ws, es := ws + [w3], es + [ASK];
    RunMore(ws, es, ANOTHER);
    ws, es := ws + [w4], es + [ANOTHER];
    RunMore(ws, es, LEAVE);
    ws, es := ws + [w5], es + [LEAVE];
    RunMore(ws, es, CLAIMED);
    ws, es := ws + [Step(w5, CLAIMED)], es + [CLAIMED];
  }

  lemma TwoCodes()
    ensures Possible(Registering, ASK) && Possible(Step(Registering, ASK), ANOTHER)
    ensures var w := Step(Step(Registering, ASK), ANOTHER);
      && Possible(w, LEAVE) && Possible(Step(w, LEAVE), CLAIMED)
      && var u := Step(Step(w, LEAVE), CLAIMED); 0 !in u.sessions && 2 in u.senders && u.senders[2] == 0
  {
    var v := Step(Step(Registering, ASK), ANOTHER);
    assert v.sessions[0] == Session(None, Some("000008"));
    assert v.db.agents[2].claimCode == Some(CODE) && CODE != "000008";
    var w := Step(v, LEAVE);
    assert CODE in w.pending && w.pending[CODE] == 0;
  }
}
