/**
 The subdomain check of `create_tunnel` and `update_tunnel` in small steps. The check and the write lock the
 database one after the other, and any number of calls, and deletions of rows, come in between.
 */
module SubdomainRace {
  import opened Types
  import opened Strings

  /** A row's subdomain, and the number of writes that came before the one that wrote it. */
  datatype Row = Row(sub: Option<string>, written: nat)

  datatype Phase =
    | Checking
    | Checked(at: nat)   // the number of writes at the time of the check
    | Returned

  /** `target` is the row an update is for; None is a creation. */
  datatype Call = Call(target: Option<Id>, sub: Option<string>, phase: Phase)

  datatype Race = Race(rows: map<Id, Row>, next: Id, writes: nat, calls: seq<Call>)

  datatype Action =
    | Begin(target: Option<Id>, subdomain: Option<string>)
    | Check(c: nat)
    | Write(c: nat)
    | GiveUp(c: nat)      // another check or statement of the call fails
    | Delete(t: Id)

  const Empty := Race(map[], 0, 0, [])

  /** `is_subdomain_taken` */
  predicate Taken(rows: map<Id, Row>, sub: string, except: Option<Id>) {
    exists t :: t in rows && rows[t].sub.Some? && Lower(rows[t].sub.value) == Lower(sub) && except != Some(t)
  }

  predicate Enabled(r: Race, a: Action) {
    match a
    case Begin(_, _) => true
    case Check(c) => c < |r.calls| && r.calls[c].phase == Checking
    case Write(c) => c < |r.calls| && r.calls[c].phase.Checked?
    case GiveUp(c) => c < |r.calls|
    case Delete(_) => true
  }

  function Went(r: Race, c: nat, phase: Phase): Race
    requires c < |r.calls|
  {
    r.(calls := r.calls[c := r.calls[c].(phase := phase)])
  }

  /** A write for a row that is gone touches nothing. */
  function Next(r: Race, a: Action): Race
    requires Enabled(r, a)
  {
    match a
    case Begin(target, subdomain) => r.(calls := r.calls + [Call(target, Clean(subdomain), Checking)])
    case Check(c) =>
      var call := r.calls[c];
      Went(r, c, if call.sub.Some? && Taken(r.rows, call.sub.value, call.target) then Returned else Checked(r.writes))
    case Write(c) =>
      var call := r.calls[c];
      var done := Went(r, c, Returned);
      if call.target.None? then
        done.(rows := r.rows[r.next := Row(call.sub, r.writes)], next := r.next + 1, writes := r.writes + 1)
      else if call.target.value in r.rows then
        done.(rows := r.rows[call.target.value := Row(call.sub, r.writes)], writes := r.writes + 1)
      else done
    case GiveUp(c) => Went(r, c, Returned)
    case Delete(t) => r.(rows := r.rows - {t})
  }

  predicate Same(row: Row, sub: string) { row.sub.Some? && Lower(row.sub.value) == Lower(sub) }

  /** No two rows have one subdomain, up to ASCII case. */
  ghost predicate Unique(r: Race) {
    forall t, u :: t in r.rows && u in r.rows && t != u && r.rows[t].sub.Some? && r.rows[u].sub.Some? ==>
      Lower(r.rows[t].sub.value) != Lower(r.rows[u].sub.value)
  }

  /** The write stores a subdomain that another row has got by a write made after the call's check. */
  ghost predicate Late(r: Race, a: Action) {
    && a.Write? && a.c < |r.calls| && r.calls[a.c].phase.Checked? && r.calls[a.c].sub.Some?
    && var call := r.calls[a.c];
       && (call.target.Some? ==> call.target.value in r.rows)
       && exists t :: t in r.rows && call.target != Some(t) && Same(r.rows[t], call.sub.value)
                      && r.rows[t].written >= call.phase.at
  }

  // ---------- the invariant ----------

  /** A row that conflicts with a checked call was written after its check. */
  ghost predicate CallOk(r: Race, c: nat)
    requires c < |r.calls|
  {
    var call := r.calls[c];
    call.phase.Checked? ==>
      && call.phase.at <= r.writes
      && (call.sub.Some? ==>
            forall t :: t in r.rows && call.target != Some(t) && Same(r.rows[t], call.sub.value) ==>
              r.rows[t].written >= call.phase.at)
  }

  ghost predicate Inv(r: Race) {
    && (forall t :: t in r.rows ==> t < r.next)
    && (forall c :: 0 <= c < |r.calls| ==> CallOk(r, c))
  }

  lemma InvKept(r: Race, a: Action)
    requires Inv(r) && Enabled(r, a)
    ensures Inv(Next(r, a))
  {
    hide Lower, Clean;
    var s := Next(r, a);
    forall c | 0 <= c < |s.calls| ensures CallOk(s, c) {
      if c < |r.calls| {
        assert CallOk(r, c);
      }
    }
  }

  /** A write from a state with unique subdomains keeps them unique if and only if it is not late. */
  lemma WriteExact(r: Race, c: nat)
    requires Inv(r) && Unique(r) && Enabled(r, Write(c))
    ensures Unique(Next(r, Write(c))) <==> !Late(r, Write(c))
  {
    hide Lower;
    var s, call := Next(r, Write(c)), r.calls[c];
    assert CallOk(r, c);
    var id := if call.target.Some? then call.target.value else r.next;
    if Late(r, Write(c)) {
      var t :| t in r.rows && call.target != Some(t) && Same(r.rows[t], call.sub.value)
               && r.rows[t].written >= call.phase.at;
      assert t in s.rows && id in s.rows && t != id && s.rows[t] == r.rows[t] && s.rows[id].sub == call.sub;
    }
  }

  // ---------- runs ----------

  ghost predicate IsRun(rs: seq<Race>, acts: seq<Action>) {
    && |rs| == |acts| + 1 && rs[0] == Empty
    && forall i :: 0 <= i < |acts| ==> Enabled(rs[i], acts[i]) && rs[i + 1] == Next(rs[i], acts[i])
  }

  lemma {:induction false} RunInv(rs: seq<Race>, acts: seq<Action>, i: nat)
    requires IsRun(rs, acts) && i < |rs|
    ensures Inv(rs[i])
  {
    if i > 0 {
      hide Inv, Next, Enabled;
      RunInv(rs, acts, i - 1);
      InvKept(rs[i - 1], acts[i - 1]);
    }
  }

  /** In every state of every run: from unique subdomains, a step keeps them unique if and only if it is not a write
      whose subdomain another row has got since this call's check. */
  lemma UniqueExact(rs: seq<Race>, acts: seq<Action>, i: nat)
    requires IsRun(rs, acts) && i < |acts| && Unique(rs[i])
    ensures Unique(rs[i + 1]) <==> !Late(rs[i], acts[i])
  {
    RunInv(rs, acts, i);
    if acts[i].Write? {
      hide Inv, Unique, Late, Next;
      WriteExact(rs[i], acts[i].c);
    }
  }

  /** No write comes between the check and the write of this call. */
  predicate Prompt(r: Race, a: Action) {
    a.Write? && a.c < |r.calls| && r.calls[a.c].phase.Checked? ==> r.calls[a.c].phase.at == r.writes
  }

  ghost predicate Stamped(r: Race) { forall t :: t in r.rows ==> r.rows[t].written < r.writes }

  lemma {:induction false} RunStamped(rs: seq<Race>, acts: seq<Action>, i: nat)
    requires IsRun(rs, acts) && i < |rs|
    ensures Stamped(rs[i])
  {
    if i > 0 {
      RunStamped(rs, acts, i - 1);
      hide Clean, Taken;
      assert rs[i] == Next(rs[i - 1], acts[i - 1]);
    }
  }

  /** When every call writes before any other call does, as if it held the lock throughout, subdomains stay unique. */
  lemma {:induction false} PromptUnique(rs: seq<Race>, acts: seq<Action>, i: nat)
    requires IsRun(rs, acts) && i < |rs| && forall k :: 0 <= k < i ==> Prompt(rs[k], acts[k])
    ensures Unique(rs[i])
  {
    if i > 0 {
      PromptUnique(rs, acts, i - 1);
      RunStamped(rs, acts, i - 1);
      UniqueExact(rs, acts, i - 1);
      hide Next, Unique, Enabled, Same;
    }
  }

  // ---------- two creations ----------

  const WANTED: Option<string> := Some("home")
  const BEGIN := Begin(None, WANTED)

  function Both(p: Phase, q: Phase): seq<Call> { [Call(None, WANTED, p), Call(None, WANTED, q)] }

  lemma HomeIsClean()
    ensures Clean(WANTED) == WANTED
  {
    assert Trim("home") == "home";
  }

  /** Two creations with one subdomain check before either writes: both rows are stored. */
  lemma TwoCreations() returns (rs: seq<Race>, acts: seq<Action>)
    ensures acts == [BEGIN, BEGIN, Check(0), Check(1), Write(0), Write(1)] && IsRun(rs, acts)
    ensures Unique(rs[5]) && !Unique(rs[6])
  {
    HomeIsClean();
    hide Clean, Lower;
    acts := [BEGIN, BEGIN, Check(0), Check(1), Write(0), Write(1)];
    var first, second := Row(WANTED, 0), Row(WANTED, 1);
    rs := [
      Empty,
      Race(map[], 0, 0, [Call(None, WANTED, Checking)]),
      Race(map[], 0, 0, Both(Checking, Checking)),
      Race(map[], 0, 0, Both(Checked(0), Checking)),
      Race(map[], 0, 0, Both(Checked(0), Checked(0))),
      Race(map[0 := first], 1, 1, Both(Returned, Checked(0))),
      Race(map[0 := first, 1 := second], 2, 2, Both(Returned, Returned))];
    assert 0 in rs[6].rows && 1 in rs[6].rows;
  }
}
