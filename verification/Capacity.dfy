/** How many users a port range can register. */
module Capacity {
  import opened Types
  import opened Strings
  import opened DedicatedPorts
  import opened World
  import opened Lifecycle

  ghost predicate PortsInRange(users: map<Id, User>, lo: Port, hi: Port) {
    forall u :: u in users ==> lo <= users[u].dedicatedPort <= hi
  }

  lemma RegisterInRange(w: World, username: string, password: string, draws: seq<nat>)
    requires PortsInRange(w.db.users, w.lo, w.hi) && w.lo < w.hi
    ensures var v := Register(w, username, password, draws).0;
      v.lo == w.lo && v.hi == w.hi && PortsInRange(v.db.users, w.lo, w.hi)
  {
    hide Acceptable, NameTaken, TakenPorts, FirstFree;
  }

  lemma AccountInRange(w: World, e: AccountEvent)
    requires PortsInRange(w.db.users, w.lo, w.hi) && AccountPossible(w, e)
    ensures AccountStep(w, e).lo == w.lo && AccountStep(w, e).hi == w.hi
    ensures PortsInRange(AccountStep(w, e).db.users, w.lo, w.hi)
  {
    hide SyncRows, Configs, Release, IsListing, Register, FirstFree;
    if e.ERegister? {
      RegisterInRange(w, e.username, e.password, e.draws);
    }
  }

  ghost predicate SameUsers(w: World, v: World) { v.lo == w.lo && v.hi == w.hi && v.db.users == w.db.users }

  lemma SocketSameUsers(w: World, e: SocketEvent)
    requires SocketPossible(w, e)
    ensures SameUsers(w, SocketStep(w, e))
  {
    hide SyncRows, Configs, Release, IsListing;
  }

  lemma TunnelSameUsers(w: World, e: TunnelEvent)
    requires TunnelPossible(w, e)
    ensures SameUsers(w, TunnelStep(w, e))
  {
    hide TunnelStep, TunnelPossible;
    TunnelKeeps(w, e);
  }

  lemma InRangeKept(w: World, e: Event)
    requires PortsInRange(w.db.users, w.lo, w.hi) && Possible(w, e)
    ensures Step(w, e).lo == w.lo && Step(w, e).hi == w.hi
    ensures PortsInRange(Step(w, e).db.users, w.lo, w.hi)
  {
    hide SocketStep, AccountStep, TunnelStep, PortsInRange;
    match e
    case OnSocket(socket) => SocketSameUsers(w, socket);
    case OnAccount(account) => AccountInRange(w, account);
    case OnTunnel(tunnel) => TunnelSameUsers(w, tunnel);
    case _ =>
  }

  function FullRange(lo: Port, hi: Port): (r: set<Port>)
    ensures forall p :: p in r <==> lo <= p <= hi
    ensures |r| == if lo <= hi then hi - lo + 1 else 0
    decreases hi - lo
  {
    if lo > hi then {} else if lo == hi then {lo} else {lo} + FullRange(lo + 1, hi)
  }

  /** Distinct ports: as many ports are taken as there are users. */
  lemma {:induction false} OnePortEach(users: map<Id, User>)
    requires forall u, v :: u in users && v in users && u != v ==> users[u].dedicatedPort != users[v].dedicatedPort
    ensures |TakenPorts(users)| == |users|
    decreases |users|
  {
    if users == map[] {
      assert TakenPorts(users) == {};
    } else {
      var u :| u in users;
      var rest := users - {u};
      assert users.Keys == rest.Keys + {u};
      assert |rest| == |users| - 1;
      OnePortEach(rest);
      assert TakenPorts(users) == TakenPorts(rest) + {users[u].dedicatedPort};
      assert users[u].dedicatedPort !in TakenPorts(rest);
    }
  }

  lemma SubsetFull<T>(a: set<T>, b: set<T>)
    requires a <= b
    ensures |a| <= |b| && (|a| == |b| <==> a == b)
  {
    assert |b| == |a| + |b - a| by {
      assert b == a + (b - a) && a !! (b - a);
    }
    if |b - a| == 0 {
      assert b - a == {};
      assert a == b;
    }
  }

  /** Every port of the range is taken exactly when the range has as many ports as there are users. */
  lemma Exhausted(users: map<Id, User>, next: Id, lo: Port, hi: Port)
    requires UsersOk(users, next) && PortsInRange(users, lo, hi) && lo <= hi
    ensures |users| <= hi - lo + 1
    ensures |users| == hi - lo + 1 <==> TakenPorts(users) == FullRange(lo, hi)
  {
    OnePortEach(users);
    SubsetFull(TakenPorts(users), FullRange(lo, hi));
  }

  /** Whatever the draws, an acceptable new name is registered exactly while there are fewer users than ports, and gets
      a port of the range that no one has. Otherwise nothing changes. */
  lemma RegisterExact(w: World, username: string, password: string, draws: seq<nat>)
    requires Tables(w) && PortsInRange(w.db.users, w.lo, w.hi) && w.lo < w.hi
    ensures var (v, reply) := Register(w, username, password, draws);
      && (reply.Created? <==>
            Acceptable(username, password) && !NameTaken(w.db.users, Trim(username))
            && |w.db.users| < w.hi - w.lo + 1)
      && (reply.BadRequest? <==> !Acceptable(username, password))
      && (reply.Created? ==>
            && |v.db.users| == |w.db.users| + 1
            && w.lo <= v.db.users[reply.id].dedicatedPort <= w.hi
            && v.db.users[reply.id].dedicatedPort !in TakenPorts(w.db.users))
      && (!reply.Created? ==> v == w)
  {
    ExhaustionExact(w, draws);
    Exhausted(w.db.users, w.next, w.lo, w.hi);
    hide Trim, Candidates, FirstFree, FullRange;
    assert w.next !in w.db.users;
  }

  /** The port-exhaustion error means that every port of the range is taken. */
  lemma ExhaustionExact(w: World, draws: seq<nat>)
    requires PortsInRange(w.db.users, w.lo, w.hi) && w.lo < w.hi
    ensures FirstFree(Candidates(draws, w.lo, w.hi), TakenPorts(w.db.users)).None? <==>
            TakenPorts(w.db.users) == FullRange(w.lo, w.hi)
    ensures var port := FirstFree(Candidates(draws, w.lo, w.hi), TakenPorts(w.db.users));
      port.Some? ==> w.lo <= port.value <= w.hi
  {
    var taken := TakenPorts(w.db.users);
    var port := FirstFree(Candidates(draws, w.lo, w.hi), taken);
    if port.None? {
      AllTaken(draws, w.lo, w.hi, taken);
      assert taken == FullRange(w.lo, w.hi);
    } else {
      assert port.value in FullRange(w.lo, w.hi);
    }
  }

  lemma StartOk(lo: Port, hi: Port)
    ensures Tables(Start(lo, hi)) && PortsInRange(Start(lo, hi).db.users, lo, hi)
  {
  }

  /** A registration with an acceptable password and an acceptable name that is not taken. */
  ghost predicate Tries(w: World, e: Event) {
    e.OnAccount? && e.account.ERegister? && Acceptable(e.account.username, e.account.password)
    && !NameTaken(w.db.users, Trim(e.account.username))
  }

  ghost function TriesBefore(ws: seq<World>, es: seq<Event>, n: nat): nat
    requires n <= |es| && n <= |ws|
  {
    if n == 0 then 0 else TriesBefore(ws, es, n - 1) + if Tries(ws[n - 1], es[n - 1]) then 1 else 0
  }

  function Min(a: int, b: int): int { if a <= b then a else b }

  lemma AccountSameUsers(w: World, e: AccountEvent)
    requires AccountPossible(w, e) && !e.ERegister?
    ensures AccountStep(w, e).db.users.Keys == w.db.users.Keys && |AccountStep(w, e).db.users| == |w.db.users|
  {
    hide SyncRows, Configs, Release, IsListing, Register, FirstFree;
    SameSize(w.db.users, AccountStep(w, e).db.users);
  }

  lemma SameSize<K, V>(m: map<K, V>, n: map<K, V>)
    ensures m.Keys == n.Keys ==> |m| == |n|
  {
    assert |m| == |m.Keys| && |n| == |n.Keys|;
  }

  /** A step adds a user exactly when it tries to and a port is left. */
  lemma StepUsers(w: World, e: Event)
    requires Possible(w, e) && Tables(w) && PortsInRange(w.db.users, w.lo, w.hi)
    ensures |Step(w, e).db.users| == |w.db.users| + if Tries(w, e) && |w.db.users| < w.hi - w.lo + 1 then 1 else 0
  {
    hide SocketStep, AccountStep, TunnelStep, Tables, PortsInRange, NameTaken, Register, Trim;
    match e
    case OnSocket(socket) => SocketSameUsers(w, socket);
    case OnTunnel(tunnel) => TunnelSameUsers(w, tunnel);
    case OnAccount(account) =>
      if account.ERegister? {
        RegisterExact(w, account.username, account.password, account.draws);
        RegisterStep(w, account);
      } else {
        AccountSameUsers(w, account);
      }
    case _ =>
  }

  lemma RegisterStep(w: World, e: AccountEvent)
    requires e.ERegister? && AccountPossible(w, e)
    ensures AccountStep(w, e) == Register(w, e.username, e.password, e.draws).0
  {
    hide Register;
  }

  lemma {:induction false} RunUsers(ws: seq<World>, es: seq<Event>, n: nat)
    requires IsRun(ws, es) && n <= |es|
    ensures Tables(ws[n]) && PortsInRange(ws[n].db.users, ws[n].lo, ws[n].hi)
    ensures ws[n].lo == ws[0].lo && ws[n].hi == ws[0].hi
    ensures |ws[n].db.users| ==
      if TriesBefore(ws, es, n) == 0 then 0 else Min(TriesBefore(ws, es, n), ws[0].hi - ws[0].lo + 1)
    ensures TriesBefore(ws, es, n) > 0 ==> ws[0].lo < ws[0].hi
  {
    hide Tables, PortsInRange, Step, NameTaken, Trim;
    if n == 0 {
      StartOk(ws[0].lo, ws[0].hi);
    } else {
      RunUsers(ws, es, n - 1);
      var w, e := ws[n - 1], es[n - 1];
      TablesKept(w, e);
      InRangeKept(w, e);
      StepUsers(w, e);
    }
  }

  /** Registration capacity: on every run from an empty database, whatever else happens in between and whatever
      the draws, exactly the first hi - lo + 1 registrations with a new name succeed. */
  lemma FirstOnesSucceed(ws: seq<World>, es: seq<Event>, n: nat)
    requires IsRun(ws, es) && n < |es| && Tries(ws[n], es[n])
    ensures var (v, reply) := Register(ws[n], es[n].account.username, es[n].account.password, es[n].account.draws);
      && ws[n + 1] == v
      && (reply.Created? <==> TriesBefore(ws, es, n) < ws[0].hi - ws[0].lo + 1)
      && (reply.Created? ==> ws[0].lo <= v.db.users[reply.id].dedicatedPort <= ws[0].hi
                             && v.db.users[reply.id].dedicatedPort !in TakenPorts(ws[n].db.users))
  {
    RunUsers(ws, es, n);
    hide Tables, PortsInRange, AccountStep, NameTaken, Trim, Register;
    assert Possible(ws[n], es[n]);
    RegisterStep(ws[n], es[n].account);
    RegisterExact(ws[n], es[n].account.username, es[n].account.password, es[n].account.draws);
  }
}
