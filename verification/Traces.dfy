/** What one attempt does, as a sequence of its own calls in the transition system of module Attempts. */
module Traces {
  import opened Basics
  import opened Attempts

  /** The state after a call, if the call can be made. */
  function Step(s: Option<State>, a: nat, c: Call): Option<State> {
    if s.Some? && Enabled(s.value, a, c) then Some(Next(s.value, a, c)) else None
  }

  function After(s: State, a: nat, cs: seq<Call>): Option<State>
    decreases |cs|
  {
    if cs == [] then Some(s) else Step(After(s, a, cs[..|cs| - 1]), a, cs[|cs| - 1])
  }

  /** `cs` are calls of attempt `a` that lead from `s` to `t`. */
  predicate Trace(s: State, a: nat, cs: seq<Call>, t: State) {
    After(s, a, cs) == Some(t)
  }

  lemma AfterAppend(s: State, a: nat, cs: seq<Call>, c: Call)
    ensures After(s, a, cs + [c]) == Step(After(s, a, cs), a, c)
  {
    assert (cs + [c])[..|cs|] == cs;
  }

  lemma TraceAppend(s: State, a: nat, x: seq<Call>, t: State, c: Call)
    requires Trace(s, a, x, t) && Enabled(t, a, c)
    ensures Trace(s, a, x + [c], Next(t, a, c))
  {
    AfterAppend(s, a, x, c);
  }

  lemma {:induction false} TraceConcat(s: State, a: nat, x: seq<Call>, t: State, y: seq<Call>, u: State)
    requires Trace(s, a, x, t) && Trace(t, a, y, u)
    ensures Trace(s, a, x + y, u)
  {
    AfterConcat(s, a, x, t, y);
  }

  lemma SplitLast<T>(x: seq<T>, y: seq<T>) returns (init: seq<T>, c: T)
    requires y != []
    ensures y == init + [c] && x + y == x + init + [c] && |init| < |y|
  {
    init, c := y[..|y| - 1], y[|y| - 1];
  }

  lemma {:induction false} AfterConcat(s: State, a: nat, x: seq<Call>, t: State, y: seq<Call>)
    requires Trace(s, a, x, t)
    ensures After(s, a, x + y) == After(t, a, y)
    decreases |y|
  {
    if y == [] {
      assert x + y == x;
    } else {
      var init, c := SplitLast(x, y);
      AfterConcat(s, a, x, t, init);
      AfterAppend(s, a, x + init, c);
      AfterAppend(t, a, init, c);
    }
  }

  /** The last call of a trace. */
  lemma TraceEnds(s: State, a: nat, cs: seq<Call>, t: State)
    requires Trace(s, a, cs, t) && cs != []
    ensures var u := After(s, a, cs[..|cs| - 1]); var c := cs[|cs| - 1];
            u.Some? && Trace(s, a, cs[..|cs| - 1], u.value) && Enabled(u.value, a, c) && t == Next(u.value, a, c)
  {
  }

  /** A call changes no other attempt and adds none. */
  lemma CallKeepsOthers(s: State, a: nat, c: Call)
    requires Enabled(s, a, c)
    ensures var t := Next(s, a, c);
            && t.enabled == s.enabled && |t.attempts| == |s.attempts|
            && forall b | 0 <= b < |s.attempts| && b != a :: t.attempts[b] == s.attempts[b]
  {
    match c
    case Db(_) =>
    case Media(_) =>
  }

  /** Whatever a trace leads to still satisfies the invariant of interleaved attempts. */
  lemma {:induction false} TraceInv(s: State, a: nat, cs: seq<Call>, t: State)
    requires Inv(s) && Trace(s, a, cs, t)
    ensures Inv(t) && t.enabled == s.enabled && |t.attempts| == |s.attempts|
    decreases |cs|
  {
    if cs != [] {
      TraceEnds(s, a, cs, t);
      var u := After(s, a, cs[..|cs| - 1]).value;
      TraceInv(s, a, cs[..|cs| - 1], u);
      CallInv(u, a, cs[|cs| - 1]);
      CallKeepsOthers(u, a, cs[|cs| - 1]);
    }
  }

  predicate AtPhase(s: State, a: nat, p: Phase) {
    a < |s.attempts| && s.attempts[a].phase == p
  }

  /** `t` is reached from `s` by attempt `a`, which is now at `p`, without touching any row. */
  ghost predicate Reaches(s: State, a: nat, cs: seq<Call>, t: State, p: Phase) {
    && Trace(s, a, cs, t) && AtPhase(t, a, p)
    && a < |s.attempts| && t.attempts[a].job == s.attempts[a].job && t.attempts[a].video == s.attempts[a].video
    && t.rows == s.rows && t.history == s.history
  }

  lemma MediaStep(s: State, a: nat, cs: seq<Call>, t: State, p: Phase, c: MediaCall)
    requires Reaches(s, a, cs, t, p) && MediaEnabled(t, a, c)
    ensures Reaches(s, a, cs + [Media(c)], MediaNext(t, a, c), MediaGoes(t.attempts[a], c))
  {
    TraceAppend(s, a, cs, t, Media(c));
  }

  lemma ReachesConcat(s: State, a: nat, x: seq<Call>, t: State, p: Phase, y: seq<Call>, u: State, q: Phase)
    requires Reaches(s, a, x, t, p) && Reaches(t, a, y, u, q)
    ensures Reaches(s, a, x + y, u, q)
  {
    TraceConcat(s, a, x, t, y, u);
  }

  /** A trace of one attempt leaves the others where they are. */
  lemma {:induction false} TraceKeepsOthers(s: State, a: nat, cs: seq<Call>, t: State)
    requires Trace(s, a, cs, t)
    ensures |t.attempts| == |s.attempts| && forall b | 0 <= b < |s.attempts| && b != a :: t.attempts[b] == s.attempts[b]
    decreases |cs|
  {
    if cs != [] {
      TraceEnds(s, a, cs, t);
      var u := After(s, a, cs[..|cs| - 1]).value;
      TraceKeepsOthers(s, a, cs[..|cs| - 1], u);
      CallKeepsOthers(u, a, cs[|cs| - 1]);
    }
  }

  /** The rows of `before` are as they were, and are not the attempt's own. */
  predicate KeepsRows(s: State, a: nat, before: map<nat, Row>) {
    && (forall id | id in before :: id in s.rows && s.rows[id] == before[id])
    && (a < |s.attempts| && s.attempts[a].job.Some? ==> s.attempts[a].job.value !in before)
  }

  predicate IdsBelow(s: State, bound: nat) {
    (forall id | id in s.rows :: id < bound) && forall id | id in s.history :: id < bound
  }

  /** An attempt that has its row inserts no other. */
  lemma {:induction false} TraceKeepsIds(s: State, a: nat, cs: seq<Call>, t: State, bound: nat, id: nat)
    requires Inv(s) && Trace(s, a, cs, t) && a < |s.attempts| && s.attempts[a].job == Some(id)
    requires IdsBelow(s, bound)
    ensures IdsBelow(t, bound) && a < |t.attempts| && t.attempts[a].job == Some(id)
    decreases |cs|
  {
    if cs != [] {
      TraceEnds(s, a, cs, t);
      var u := After(s, a, cs[..|cs| - 1]).value;
      TraceInv(s, a, cs[..|cs| - 1], u);
      TraceKeepsIds(s, a, cs[..|cs| - 1], u, bound, id);
      CallKeepsIds(u, a, cs[|cs| - 1], bound, id);
    }
  }

  lemma CallKeepsIds(s: State, a: nat, c: Call, bound: nat, id: nat)
    requires RowsOk(s) && Enabled(s, a, c) && a < |s.attempts| && s.attempts[a].job == Some(id)
    requires IdsBelow(s, bound)
    ensures IdsBelow(Next(s, a, c), bound) && a < |Next(s, a, c).attempts| && Next(s, a, c).attempts[a].job == Some(id)
  {
    assert PhaseOk(s, a);
    match c
    case Db(d) => DbKeepsOwn(s, a, d);
    case Media(_) =>
  }

  /** An attempt that begins without a row never changes the rows of others. */
  lemma {:induction false} TraceKeepsOldRows(s: State, a: nat, cs: seq<Call>, t: State, before: map<nat, Row>)
    requires Inv(s) && Trace(s, a, cs, t) && KeepsRows(s, a, before)
    ensures KeepsRows(t, a, before)
    decreases |cs|
  {
    if cs != [] {
      TraceEnds(s, a, cs, t);
      var u := After(s, a, cs[..|cs| - 1]).value;
      TraceInv(s, a, cs[..|cs| - 1], u);
      TraceKeepsOldRows(s, a, cs[..|cs| - 1], u, before);
      CallKeepsOldRows(u, a, cs[|cs| - 1], before);
    }
  }

  lemma CallKeepsOldRows(s: State, a: nat, c: Call, before: map<nat, Row>)
    requires RowsOk(s) && Enabled(s, a, c) && KeepsRows(s, a, before)
    ensures KeepsRows(Next(s, a, c), a, before)
  {
    match c
    case Db(d) => DbKeepsOwn(s, a, d);
    case Media(_) =>
  }

  /** A new attempt leaves all that was there before it as it was. */
  lemma NewAttemptKeepsOthers(s: State, p: Payload, cs: seq<Call>, t: State)
    requires Inv(s) && (p.Malformed? ==> p.error != "")
    requires Trace(Begin(s, p), |s.attempts|, cs, t)
    ensures |t.attempts| == |s.attempts| + 1 && t.attempts[..|s.attempts|] == s.attempts
    ensures forall id | id in s.rows :: id in t.rows && t.rows[id] == s.rows[id]
  {
    BeginInv(s, p);
    TraceKeepsOthers(Begin(s, p), |s.attempts|, cs, t);
    TraceKeepsOldRows(Begin(s, p), |s.attempts|, cs, t, s.rows);
  }
}
