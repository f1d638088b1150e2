/** Runs of the delivery protocol as the consumer goroutine sees them: a sequence of its own steps, with
    what everybody else does in between. Any run of the service can be read that way. */
module ConsumerRuns {
  import opened Basics
  import D = Delivery
  import DI = DeliveryInvariant
  import System

  function Step(u: Option<D.State>, l: D.Label): Option<D.State> {
    if u.Some? && D.Enabled(u.value, l) then Some(D.Next(u.value, l)) else None
  }

  /** Where a run of the delivery protocol leads, if it is one. */
  function Run(s: D.State, ls: seq<D.Label>): Option<D.State>
    decreases |ls|
  {
    if ls == [] then Some(s) else Step(Run(s, ls[..|ls| - 1]), ls[|ls| - 1])
  }

  /** Steps of others, then one of the consumer: whether the shutdown has begun by then, and the
      delivery that the step is about, if it is about one. */
  datatype Move = Move(others: seq<D.Label>, step: D.FetchLabel, cancelled: bool, delivery: Option<D.Copy>)

  predicate Foreign(ls: seq<D.Label>) { forall l | l in ls :: !l.Fetch? }

  /** The delivery at the head of the stream, or in the consumer's hand. */
  function Concerned(u: D.State, f: D.FetchLabel): Option<D.Copy> {
    match f
    case Receive => if u.stream != [] then Some(u.stream[0]) else None
    case Handoff => if u.consumer.Handing? then Some(u.consumer.copy) else None
    case HandBack(_) => if u.consumer.Handing? then Some(u.consumer.copy) else None
    case _ => None
  }

  predicate Fits(u: D.State, m: Move) {
    D.Enabled(u, D.Fetch(m.step)) && m.cancelled == D.Cancelled(u) && m.delivery == Concerned(u, m.step)
  }

  function MoveStep(u: Option<D.State>, m: Move): Option<D.State> {
    if u.None? || !Foreign(m.others) then None
    else
      var v := Run(u.value, m.others);
      if v.Some? && Fits(v.value, m) then Some(D.FetchNext(v.value, m.step)) else None
  }

  /** Where the first `n` moves lead, if they can be made. */
  function Play(s: D.State, moves: seq<Move>, n: nat): Option<D.State>
    requires n <= |moves|
  {
    if n == 0 then Some(s) else MoveStep(Play(s, moves, n - 1), moves[n - 1])
  }

  /** All the moves can be made. */
  predicate Playable(s: D.State, moves: seq<Move>) { Play(s, moves, |moves|).Some? }

  lemma {:induction false} PlayPrefix(s: D.State, moves: seq<Move>, n: nat, m: nat)
    requires n <= m <= |moves| && Play(s, moves, m).Some?
    ensures Play(s, moves, n).Some?
    decreases m
  {
    if n < m { PlayPrefix(s, moves, n, m - 1); }
  }

  // ---------------------------------------------------------------- what others do to the consumer

  predicate SameConsumer(u: D.State, v: D.State) {
    v.consumer == u.consumer && v.handed == u.handed && (v.link.Some? ==> u.link.Some?)
  }

  lemma NetKeepsConsumer(u: D.State, l: D.NetLabel)
    requires D.NetEnabled(u, l)
    ensures SameConsumer(u, D.NetNext(u, l))
  {
  }

  lemma WorkKeepsConsumer(u: D.State, w: nat, l: D.WorkLabel)
    requires D.WorkEnabled(u, w, l)
    ensures SameConsumer(u, D.WorkNext(u, w, l))
  {
  }

  lemma ControlKeepsConsumer(u: D.State, l: D.ControlLabel)
    requires D.ControlEnabled(u, l)
    ensures SameConsumer(u, D.ControlNext(u, l))
  {
  }

  lemma ForeignStep(u: D.State, l: D.Label)
    requires D.Enabled(u, l) && !l.Fetch?
    ensures SameConsumer(u, D.Next(u, l))
  {
    match l
    case Net(n) => NetKeepsConsumer(u, n);
    case Work(w, k) => WorkKeepsConsumer(u, w, k);
    case Control(c) => ControlKeepsConsumer(u, c);
  }

  /** Nothing: only the consumer moves the consumer, and only it hands messages over. Others can only
      take its session away. */
  lemma {:induction false} ForeignRun(s: D.State, ls: seq<D.Label>)
    requires Foreign(ls) && Run(s, ls).Some?
    ensures SameConsumer(s, Run(s, ls).value)
    decreases |ls|
  {
    if ls != [] {
      var n := |ls| - 1;
      assert ls[n] in ls;
      ForeignRun(s, ls[..n]);
      ForeignStep(Run(s, ls[..n]).value, ls[n]);
    }
  }

  lemma {:induction false} RunInv(s: D.State, ls: seq<D.Label>)
    requires DI.Inv(s) && Run(s, ls).Some?
    ensures DI.Inv(Run(s, ls).value)
    decreases |ls|
  {
    if ls != [] {
      var n := |ls| - 1;
      RunInv(s, ls[..n]);
      DI.StepInv(Run(s, ls[..n]).value, ls[n]);
    }
  }

  lemma {:induction false} PlayInv(s: D.State, moves: seq<Move>, n: nat)
    requires DI.Inv(s) && n <= |moves| && Play(s, moves, n).Some?
    ensures DI.Inv(Play(s, moves, n).value)
    decreases n
  {
    if n > 0 {
      PlayInv(s, moves, n - 1);
      var u := Play(s, moves, n - 1).value;
      RunInv(u, moves[n - 1].others);
      DI.FetchInv(Run(u, moves[n - 1].others).value, moves[n - 1].step);
    }
  }

  /** The state in which the consumer makes its n-th move. */
  function Before(s: D.State, moves: seq<Move>, n: nat): D.State
    requires n < |moves| && Play(s, moves, n + 1).Some?
  {
    Run(Play(s, moves, n).value, moves[n].others).value
  }

  /** The input channel is open while the consumer is there. */
  lemma BeforeIsOpen(s: D.State, moves: seq<Move>, n: nat)
    requires DI.Inv(s) && n < |moves| && Play(s, moves, n).Some? && Play(s, moves, n + 1).Some?
    ensures !Before(s, moves, n).inputClosed
  {
    var u := Play(s, moves, n).value;
    PlayInv(s, moves, n);
    RunInv(u, moves[n].others);
    assert DI.PhasesOk(Before(s, moves, n)) && !Before(s, moves, n).consumer.Exited?;
  }

  /** Where the consumer is, and whether it has had a session since the last failed dial. */
  datatype Point = Point(at: D.Consumer, up: bool)

  /** The steps that belong to each program point. */
  predicate Belongs(p: Point, m: Move) {
    match p.at
    case Checking => m.step.Check?
    case Subscribing => m.step.Subscribe? && (m.step.ok ==> p.up)
    case Receiving => (m.step.SeeCancel? && m.cancelled) || (m.step.Receive? && m.delivery.Some?) || m.step.StreamEnds?
    case Handing(copy) => m.delivery == Some(copy) && (m.step.Handoff? || (m.step.HandBack? && m.cancelled))
    case Interrupted => m.step.Resume?
    case Waiting => (m.step.SeeCancel? && m.cancelled) || m.step.WaitOver?
    case Redialing => m.step.Redial?
    case Declaring => m.step.Redeclare?
    case Exited => false
  }

  /** The program point after the step. */
  function Goes(p: Point, m: Move): Point {
    match m.step
    case Check => p.(at := if m.cancelled then D.Exited else D.Subscribing)
    case Subscribe(ok, _) => p.(at := if ok then D.Receiving else D.Interrupted)
    case SeeCancel => p.(at := D.Exited)
    case Receive => if m.delivery.Some? then p.(at := D.Handing(m.delivery.value)) else p
    case StreamEnds => p.(at := D.Interrupted)
    case Handoff => p.(at := D.Receiving)
    case HandBack(_) => p.(at := D.Exited)
    case Resume => p.(at := if m.cancelled then D.Exited else D.Waiting)
    case WaitOver => p.(at := D.Redialing)
    case Redial(ok) => Point(if ok then D.Declaring else D.Checking, ok)
    case Redeclare(_) => p.(at := D.Checking)
  }

  /** What the step hands over. */
  function Hands(m: Move): seq<D.Copy> {
    if m.step.Handoff? && m.delivery.Some? then [m.delivery.value] else []
  }

  /** The program point after the first `n` moves. */
  function PointAfter(p: Point, moves: seq<Move>, n: nat): Point
    requires n <= |moves|
  {
    if n == 0 then p else Goes(PointAfter(p, moves, n - 1), moves[n - 1])
  }

  /** The move belongs to the program point where the moves before it led. */
  predicate InPlace(p: Point, moves: seq<Move>, n: nat)
    requires n < |moves|
  {
    Belongs(PointAfter(p, moves, n), moves[n])
  }

  predicate Path(p: Point, moves: seq<Move>) {
    forall n | 0 <= n < |moves| :: InPlace(p, moves, n)
  }

  /** Everything handed over in the first `n` moves, in order. */
  function HandedBy(moves: seq<Move>, n: nat): seq<D.Copy>
    requires n <= |moves|
  {
    if n == 0 then [] else HandedBy(moves, n - 1) + Hands(moves[n - 1])
  }

  /** The state is one that the consumer can be in at that program point. */
  predicate Shows(u: D.State, p: Point) { u.consumer == p.at && (u.link.Some? ==> p.up) }

  lemma StepBelongs(v: D.State, m: Move, p: Point)
    requires Fits(v, m) && !v.inputClosed && Shows(v, p)
    ensures Belongs(p, m)
  {
  }

  lemma StepGoes(v: D.State, m: Move, p: Point)
    requires Fits(v, m) && !v.inputClosed && Shows(v, p)
    ensures Shows(D.FetchNext(v, m.step), Goes(p, m))
    ensures D.FetchNext(v, m.step).handed == v.handed + Hands(m)
  {
    assert v.handed + [] == v.handed;
  }

  /** One move of a run. */
  lemma OneMove(s: D.State, moves: seq<Move>, n: nat, p: Point)
    requires DI.Inv(s) && n < |moves| && Play(s, moves, n).Some? && Play(s, moves, n + 1).Some?
    requires Shows(Play(s, moves, n).value, p)
    ensures Belongs(p, moves[n]) && Shows(Play(s, moves, n + 1).value, Goes(p, moves[n]))
    ensures Play(s, moves, n + 1).value.handed == Play(s, moves, n).value.handed + Hands(moves[n])
  {
    ForeignRun(Play(s, moves, n).value, moves[n].others);
    BeforeIsOpen(s, moves, n);
    StepBelongs(Before(s, moves, n), moves[n], p);
    StepGoes(Before(s, moves, n), moves[n], p);
  }

  /** The run has taken the consumer along its program points, and has handed over what the steps hand
      over. */
  predicate Along(s: D.State, moves: seq<Move>, p: Point, n: nat) {
    && n <= |moves| && Play(s, moves, n).Some?
    && Shows(Play(s, moves, n).value, PointAfter(p, moves, n))
    && Play(s, moves, n).value.handed == s.handed + HandedBy(moves, n)
  }

  lemma AlongOneMore(s: D.State, moves: seq<Move>, p: Point, n: nat)
    requires DI.Inv(s) && Along(s, moves, p, n) && n < |moves| && Play(s, moves, n + 1).Some?
    ensures InPlace(p, moves, n) && Along(s, moves, p, n + 1)
  {
    OneMove(s, moves, n, PointAfter(p, moves, n));
    assert HandedBy(moves, n + 1) == HandedBy(moves, n) + Hands(moves[n]);
  }

  lemma AlongStart(s: D.State, moves: seq<Move>, p: Point)
    requires Shows(s, p)
    ensures Along(s, moves, p, 0)
  {
    assert s.handed + [] == s.handed;
  }

  lemma {:induction false} RunFollowsPath(s: D.State, moves: seq<Move>, p: Point, n: nat)
    requires DI.Inv(s) && n <= |moves| && Playable(s, moves) && Shows(s, p)
    ensures Along(s, moves, p, n)
    decreases n
  {
    if n == 0 {
      AlongStart(s, moves, p);
    } else {
      RunFollowsPath(s, moves, p, n - 1);
      PlayPrefix(s, moves, n, |moves|);
      AlongOneMore(s, moves, p, n - 1);
    }
  }

  lemma RunKeepsToPath(s: D.State, moves: seq<Move>, p: Point, n: nat)
    requires DI.Inv(s) && n < |moves| && Playable(s, moves) && Shows(s, p)
    ensures InPlace(p, moves, n)
  {
    RunFollowsPath(s, moves, p, n);
    PlayPrefix(s, moves, n + 1, |moves|);
    AlongOneMore(s, moves, p, n);
  }

  /** So the moves of any run that starts at the top of the consumer's loop form a path, which leads
      where the run leads, and hands over what the run hands over. */
  lemma RunIsPath(s: D.State, moves: seq<Move>)
    requires DI.Inv(s) && s.consumer.Checking? && Playable(s, moves)
    ensures var p := Point(D.Checking, s.link.Some?); var t := Play(s, moves, |moves|).value;
            && Path(p, moves) && t.consumer == PointAfter(p, moves, |moves|).at
            && t.handed == s.handed + HandedBy(moves, |moves|)
  {
    var p := Point(D.Checking, s.link.Some?);
    RunFollowsPath(s, moves, p, |moves|);
    forall n | 0 <= n < |moves| ensures InPlace(p, moves, n) {
      RunKeepsToPath(s, moves, p, n);
    }
  }

  // ---------------------------------------------------------------- every run is one

  /** All steps of the first `n` moves, in order. */
  function Labels(moves: seq<Move>, n: nat): seq<D.Label>
    requires n <= |moves|
  {
    if n == 0 then [] else Labels(moves, n - 1) + moves[n - 1].others + [D.Fetch(moves[n - 1].step)]
  }

  lemma {:induction false} PlayAppend(s: D.State, moves: seq<Move>, m: Move, n: nat)
    requires n <= |moves|
    ensures Play(s, moves + [m], n) == Play(s, moves, n) && Labels(moves + [m], n) == Labels(moves, n)
    decreases n
  {
    if n > 0 { PlayAppend(s, moves, m, n - 1); }
  }

  /** Every run of the protocol is a sequence of moves, followed by steps of others. */
  lemma {:induction false} RunIsPlayed(s: D.State, ls: seq<D.Label>) returns (moves: seq<Move>, rest: seq<D.Label>)
    requires Run(s, ls).Some?
    ensures Foreign(rest) && ls == Labels(moves, |moves|) + rest
    ensures Playable(s, moves) && Run(Play(s, moves, |moves|).value, rest) == Run(s, ls)
    decreases |ls|
  {
    if ls == [] {
      moves, rest := [], [];
    } else {
      var init, l := ls[..|ls| - 1], ls[|ls| - 1];
      assert ls == init + [l];
      RunAppend(s, init, l);
      moves, rest := RunIsPlayed(s, init);
      if l.Fetch? {
        moves := OneMoveMore(s, moves, rest, l.f);
        rest := [];
      } else {
        RunAppend(Play(s, moves, |moves|).value, rest, l);
        rest := rest + [l];
      }
    }
  }

  lemma OneMoveMore(s: D.State, moves: seq<Move>, others: seq<D.Label>, f: D.FetchLabel) returns (more: seq<Move>)
    requires Playable(s, moves) && Foreign(others)
    requires Step(Run(Play(s, moves, |moves|).value, others), D.Fetch(f)).Some?
    ensures Labels(more, |more|) == Labels(moves, |moves|) + others + [D.Fetch(f)]
    ensures Play(s, more, |more|) == Step(Run(Play(s, moves, |moves|).value, others), D.Fetch(f))
  {
    var v := Run(Play(s, moves, |moves|).value, others).value;
    var m := Move(others, f, D.Cancelled(v), Concerned(v, f));
    more := moves + [m];
    PlayAppend(s, moves, m, |moves|);
    assert Play(s, more, |more|) == MoveStep(Play(s, moves, |moves|), m);
    assert D.Next(v, D.Fetch(f)) == D.FetchNext(v, f);
  }

  lemma RunAppend(s: D.State, ls: seq<D.Label>, l: D.Label)
    ensures Run(s, ls + [l]) == Step(Run(s, ls), l)
  {
    assert (ls + [l])[..|ls|] == ls;
  }

  lemma {:induction false} RunConcat(s: D.State, a: seq<D.Label>, b: seq<D.Label>)
    requires Run(s, a).Some?
    ensures Run(s, a + b) == Run(Run(s, a).value, b)
    decreases |b|
  {
    if b == [] {
      assert a + b == a;
    } else {
      var n := |b| - 1;
      RunConcat(s, a, b[..n]);
      assert a + b == a + b[..n] + [b[n]] && b == b[..n] + [b[n]];
      RunAppend(s, a + b[..n], b[n]);
      RunAppend(Run(s, a).value, b[..n], b[n]);
    }
  }

  /** Every run of the service contains a run of the protocol. */
  lemma {:induction false} ServiceRun(s: System.State, ls: seq<System.Label>, t: System.State) returns (ds: seq<D.Label>)
    requires System.Runs(s, ls, t)
    ensures Run(s.d, ds) == Some(t.d)
    decreases |ls|
  {
    if ls == [] {
      ds := [];
    } else {
      var rest := ServiceRun(System.Next(s, ls[0]), ls[1..], t);
      var l := System.Protocol(s, ls[0]);
      if l.None? {
        ds := rest;
      } else {
        assert [l.value][..0] == [];
        assert Run(s.d, [l.value]) == Some(System.Next(s, ls[0]).d);
        RunConcat(s.d, [l.value], rest);
        ds := [l.value] + rest;
      }
    }
  }
}
