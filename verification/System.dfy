/** The whole service: the delivery protocol, with what every worker does to the message
    it holds. A worker may acknowledge only once its attempt has ended, and its verdict is
    whether the attempt's error is empty. */
module System {
  import opened Basics
  import D = Delivery
  import DI = DeliveryInvariant
  import A = Attempts

  /** `payloads[m]` is what message `m` parses to. */
  datatype State = State(d: D.State, j: A.State, payloads: seq<A.Payload>)

  datatype Label =
    | Publish(payload: A.Payload)
    | Net(n: D.NetLabel)
    | Fetch(f: D.FetchLabel)
    | Take(w: nat)
    | Call(w: nat, c: A.Call)
    | Settle(w: nat, reached: bool)
    | SendResult(w: nat)
    | Quit(w: nat)
    | Control(k: D.ControlLabel)

  function Init(width: nat, enabled: bool, disk: A.Disk): State {
    State(D.Init(width), A.Init(enabled, disk), [])
  }

  predicate Attempting(s: State, w: nat) {
    w < |s.d.workers| && s.d.workers[w].Busy? && s.d.workers[w].attempt < |s.j.attempts|
  }

  /** The step of the delivery protocol that a label stands for; a Call is none. */
  function Protocol(s: State, l: Label): Option<D.Label> {
    match l
    case Publish(_) => Some(D.Net(D.Publish))
    case Net(n) => Some(D.Net(n))
    case Fetch(f) => Some(D.Fetch(f))
    case Take(w) => Some(D.Work(w, D.Take))
    case Call(_, _) => None
    case Settle(w, reached) =>
      if Attempting(s, w)
      then Some(D.Work(w, D.Settle(s.j.attempts[s.d.workers[w].attempt].phase == A.Ended(""), reached)))
      else None
    case SendResult(w) => Some(D.Work(w, D.SendResult))
    case Quit(w) => Some(D.Work(w, D.Quit))
    case Control(c) => Some(D.Control(c))
  }

  predicate Enabled(s: State, l: Label) {
    && !s.d.panicked
    && (Protocol(s, l).Some? ==> D.Enabled(s.d, Protocol(s, l).value))
    && (match l
        case Publish(p) => p.Malformed? ==> p.error != ""
        case Net(n) => !n.Publish?
        case Take(_) => s.d.channel[0].msg < |s.payloads|
        case Call(w, c) => Attempting(s, w) && A.Enabled(s.j, s.d.workers[w].attempt, c)
        case Settle(w, _) => Attempting(s, w) && s.j.attempts[s.d.workers[w].attempt].phase.Ended?
        case _ => true)
  }

  function Next(s: State, l: Label): State
    requires Enabled(s, l)
  {
    var d := if Protocol(s, l).Some? then D.Next(s.d, Protocol(s, l).value) else s.d;
    match l
    case Publish(p) => State(d, s.j, s.payloads + [p])
    case Take(_) => State(d, A.Begin(s.j, s.payloads[s.d.channel[0].msg]), s.payloads)
    case Call(w, c) => State(d, A.Next(s.j, s.d.workers[w].attempt, c), s.payloads)
    case _ => State(d, s.j, s.payloads)
  }

  /** `ls` is a run from `s` to `t`. */
  predicate Runs(s: State, ls: seq<Label>, t: State)
    decreases |ls|
  {
    if ls == [] then s == t
    else Enabled(s, ls[0]) && Runs(Next(s, ls[0]), ls[1..], t)
  }

  // ---------------------------------------------------------------- the link between the two

  /** The attempt works on what its message says. */
  predicate Faithful(s: State, a: nat)
    requires a < |s.j.attempts| && a < |s.d.log|
  {
    var m := s.d.log[a].copy.msg;
    m < |s.payloads| &&
    match s.payloads[m]
    case Malformed(e) => s.j.attempts[a].phase == A.Ended(e) && s.j.attempts[a].job.None?
    case Job(v, x) => s.j.attempts[a].video == v && s.j.attempts[a].prefix == x
  }

  predicate SettledFor(s: State, m: nat, a: nat, ok: bool) {
    && a < |s.d.log| && a < |s.j.attempts| && s.d.log[a].copy.msg == m && s.d.log[a].settles > 0
    && s.j.attempts[a].phase.Ended? && (s.j.attempts[a].phase.error == "" <==> ok)
  }

  predicate Linked(s: State) {
    && |s.j.attempts| == |s.d.log|
    && |s.payloads| == s.d.broker.published
    && (forall m | m in s.d.broker.acked :: SettledFor(s, m, s.d.broker.acked[m], true))
    && (forall m | m in s.d.broker.dead :: SettledFor(s, m, s.d.broker.dead[m], false))
    && (forall a | 0 <= a < |s.d.log| :: s.d.log[a].settles > 0 ==> s.j.attempts[a].phase.Ended?)
    && (forall a | 0 <= a < |s.d.log| :: Faithful(s, a))
    && (forall p | p in s.payloads :: p.Malformed? ==> p.error != "")
  }

  ghost predicate Inv(s: State) {
    DI.Inv(s.d) && A.Inv(s.j) && Linked(s)
  }

  /** What is settled stays settled, what has ended stays as it is, and nothing changes what an
      attempt works on. */
  predicate Extends(s: State, t: State) {
    && |s.d.log| <= |t.d.log| && |s.j.attempts| <= |t.j.attempts| && s.payloads <= t.payloads
    && (forall a | 0 <= a < |s.d.log| ::
          t.d.log[a].copy == s.d.log[a].copy && t.d.log[a].settles >= s.d.log[a].settles)
    && (forall a | 0 <= a < |s.j.attempts| :: Continues(s.j.attempts[a], t.j.attempts[a]))
  }

  predicate Continues(x: A.Attempt, y: A.Attempt) {
    y.video == x.video && y.prefix == x.prefix && (x.phase.Ended? ==> y == x)
  }

  lemma ExtensionKeepsVerdicts(s: State, t: State, m: nat, a: nat, ok: bool)
    requires Extends(s, t) && SettledFor(s, m, a, ok)
    ensures SettledFor(t, m, a, ok)
  {
  }

  lemma ExtensionKeepsFaith(s: State, t: State, a: nat)
    requires Extends(s, t) && a < |s.j.attempts| && a < |s.d.log| && Faithful(s, a)
    ensures Faithful(t, a)
  {
  }

  /** A call belongs to an attempt that has not ended, and changes no other attempt. */
  lemma CallKeepsOthers(j: A.State, a: nat, c: A.Call)
    requires A.Enabled(j, a, c)
    ensures !j.attempts[a].phase.Ended?
    ensures var k := A.Next(j, a, c);
            && |k.attempts| == |j.attempts| && k.enabled == j.enabled
            && (forall b | 0 <= b < |j.attempts| && b != a :: k.attempts[b] == j.attempts[b])
            && k.attempts[a].video == j.attempts[a].video && k.attempts[a].prefix == j.attempts[a].prefix
  {
    match c
    case Db(_) =>
    case Media(_) =>
  }

  /** The parts of the protocol state that the link speaks of are the same. */
  predicate SameLog(s: D.State, t: D.State) {
    && t.broker.acked == s.broker.acked && t.broker.dead == s.broker.dead
    && t.broker.published == s.broker.published && |t.log| == |s.log|
    && (forall a | 0 <= a < |s.log| :: t.log[a].copy == s.log[a].copy && t.log[a].settles == s.log[a].settles)
  }

  lemma NetKeepsLog(s: D.State, n: D.NetLabel)
    requires D.NetEnabled(s, n) && !n.Publish?
    ensures SameLog(s, D.NetNext(s, n))
  {
  }

  lemma FetchKeepsLog(s: D.State, f: D.FetchLabel)
    requires D.FetchEnabled(s, f)
    ensures SameLog(s, D.FetchNext(s, f))
  {
  }

  /** A step that settles nothing and starts no attempt. */
  predicate Quiet(l: Label) {
    l.Net? || l.Fetch? || l.SendResult? || l.Quit? || l.Control?
  }

  lemma QuietStepSameLog(s: State, l: Label)
    requires Enabled(s, l) && Quiet(l)
    ensures SameLog(s.d, Next(s, l).d)
  {
    match l
    case Net(n) => NetKeepsLog(s.d, n);
    case Fetch(f) => FetchKeepsLog(s.d, f);
    case SendResult(_) =>
    case Quit(_) =>
    case Control(_) =>
  }

  lemma StepExtends(s: State, l: Label)
    requires Enabled(s, l)
    ensures Extends(s, Next(s, l))
  {
    match l
    case Call(w, c) => CallKeepsOthers(s.j, s.d.workers[w].attempt, c);
    case Publish(_) =>
    case Take(_) =>
    case Settle(_, _) =>
    case _ => QuietStepSameLog(s, l);
  }

  /** The one message that a step can settle is the worker's own. */
  lemma StepSettlesOwn(s: State, l: Label, m: nat)
    requires Inv(s) && Enabled(s, l)
    ensures var b := s.d.broker; var n := Next(s, l).d.broker;
            && (m in n.acked ==> (m in b.acked && n.acked[m] == b.acked[m]) || SettledFor(Next(s, l), m, n.acked[m], true))
            && (m in n.dead ==> (m in b.dead && n.dead[m] == b.dead[m]) || SettledFor(Next(s, l), m, n.dead[m], false))
  {
    match l
    case Settle(w, reached) => SettleVerdict(s, w, reached, m);
    case Call(_, _) =>
    case Publish(_) =>
    case Take(_) =>
    case _ => QuietStepSameLog(s, l);
  }

  lemma SettleBroker(s: State, w: nat, reached: bool)
    requires Enabled(s, Settle(w, reached))
    ensures var x := s.d.workers[w];
            Next(s, Settle(w, reached)).d.broker
            == if reached
               then D.Settled(s.d.broker, x.copy.slot, x.attempt, s.j.attempts[x.attempt].phase == A.Ended(""))
               else s.d.broker
  {
  }

  lemma SettleVerdict(s: State, w: nat, reached: bool, m: nat)
    requires Inv(s) && Enabled(s, Settle(w, reached))
    ensures var b := s.d.broker; var n := Next(s, Settle(w, reached)).d.broker;
            && (m in n.acked && !(m in b.acked && n.acked[m] == b.acked[m]) ==>
                  SettledFor(Next(s, Settle(w, reached)), m, n.acked[m], true))
            && (m in n.dead && !(m in b.dead && n.dead[m] == b.dead[m]) ==>
                  SettledFor(Next(s, Settle(w, reached)), m, n.dead[m], false))
  {
    var c := s.d.workers[w].copy;
    assert DI.WorkerMatchesLog(s.d, w);
    assert DI.At(s.d, DI.InWorker(w)) == Some(c);
    assert DI.Genuine(s.d.broker, c);
  }

  lemma VerdictsLast(s: State, l: Label)
    requires Inv(s) && Enabled(s, l)
    ensures var t := Next(s, l);
            && (forall m | m in t.d.broker.acked :: SettledFor(t, m, t.d.broker.acked[m], true))
            && (forall m | m in t.d.broker.dead :: SettledFor(t, m, t.d.broker.dead[m], false))
  {
    var t := Next(s, l);
    StepExtends(s, l);
    forall m | m in t.d.broker.acked ensures SettledFor(t, m, t.d.broker.acked[m], true) {
      StepSettlesOwn(s, l, m);
      if m in s.d.broker.acked { ExtensionKeepsVerdicts(s, t, m, s.d.broker.acked[m], true); }
    }
    forall m | m in t.d.broker.dead ensures SettledFor(t, m, t.d.broker.dead[m], false) {
      StepSettlesOwn(s, l, m);
      if m in s.d.broker.dead { ExtensionKeepsVerdicts(s, t, m, s.d.broker.dead[m], false); }
    }
  }

  lemma FaithLasts(s: State, l: Label)
    requires Inv(s) && Enabled(s, l)
    ensures var t := Next(s, l); |t.j.attempts| == |t.d.log| && forall a | 0 <= a < |t.d.log| :: Faithful(t, a)
  {
    var t := Next(s, l);
    StepExtends(s, l);
    LogGrows(s, l);
    forall a | 0 <= a < |t.d.log| ensures Faithful(t, a) {
      if a < |s.d.log| { ExtensionKeepsFaith(s, t, a); }
    }
  }

  /** Only Take adds an entry, and with it an attempt on the message taken. */
  lemma LogGrows(s: State, l: Label)
    requires Enabled(s, l) && |s.j.attempts| == |s.d.log|
    ensures var t := Next(s, l);
            && |t.j.attempts| == |t.d.log| && |t.d.log| == |s.d.log| + (if l.Take? then 1 else 0)
            && (l.Take? ==> Faithful(t, |s.d.log|) && t.d.log[|s.d.log|].settles == 0)
  {
    match l
    case Call(w, c) => CallKeepsOthers(s.j, s.d.workers[w].attempt, c);
    case Publish(_) =>
    case Take(_) =>
    case Settle(_, _) =>
    case _ => QuietStepSameLog(s, l);
  }

  lemma SettledHaveEnded(s: State, l: Label)
    requires Inv(s) && Enabled(s, l)
    ensures var t := Next(s, l);
            |t.j.attempts| == |t.d.log|
            && forall a | 0 <= a < |t.d.log| :: t.d.log[a].settles > 0 ==> t.j.attempts[a].phase.Ended?
  {
    var t := Next(s, l);
    StepExtends(s, l);
    LogGrows(s, l);
    forall a | 0 <= a < |t.d.log| && t.d.log[a].settles > 0 ensures t.j.attempts[a].phase.Ended? {
      if a < |s.d.log| && s.d.log[a].settles == 0 { OnlySettleSettles(s, l, a); }
    }
  }

  lemma OnlySettleSettles(s: State, l: Label, a: nat)
    requires Enabled(s, l) && a < |s.d.log| && a < |Next(s, l).d.log|
    requires s.d.log[a].settles == 0 && Next(s, l).d.log[a].settles > 0
    ensures l.Settle? && l.w < |s.d.workers| && s.d.workers[l.w].Busy? && s.d.workers[l.w].attempt == a
  {
    if Quiet(l) { QuietStepSameLog(s, l); }
  }

  lemma PayloadsMatch(s: State, l: Label)
    requires Inv(s) && Enabled(s, l)
    ensures var t := Next(s, l);
            |t.payloads| == t.d.broker.published && forall p | p in t.payloads :: p.Malformed? ==> p.error != ""
  {
    if Quiet(l) { QuietStepSameLog(s, l); }
  }

  lemma StepKeepsLink(s: State, l: Label)
    requires Inv(s) && Enabled(s, l)
    ensures Linked(Next(s, l))
  {
    VerdictsLast(s, l);
    FaithLasts(s, l);
    SettledHaveEnded(s, l);
    PayloadsMatch(s, l);
  }

  lemma StepKeepsAttempts(s: State, l: Label)
    requires Inv(s) && Enabled(s, l)
    ensures A.Inv(Next(s, l).j)
  {
    match l
    case Take(w) =>
      assert s.payloads[s.d.channel[0].msg] in s.payloads;
      A.BeginInv(s.j, s.payloads[s.d.channel[0].msg]);
    case Call(w, c) => A.CallInv(s.j, s.d.workers[w].attempt, c);
    case _ =>
  }

  lemma StepInv(s: State, l: Label)
    requires Inv(s) && Enabled(s, l)
    ensures Inv(Next(s, l))
  {
    if Protocol(s, l).Some? {
      DI.StepInv(s.d, Protocol(s, l).value);
    }
    StepKeepsAttempts(s, l);
    StepKeepsLink(s, l);
  }

  /** The invariant holds in every state of every run. */
  lemma {:induction false} RunInv(s: State, ls: seq<Label>, t: State)
    requires Inv(s) && Runs(s, ls, t)
    ensures Inv(t) && t.j.enabled == s.j.enabled && t.d.width == s.d.width
    decreases |ls|
  {
    if ls != [] {
      StepInv(s, ls[0]);
      StepKeepsSettings(s, ls[0]);
      RunInv(Next(s, ls[0]), ls[1..], t);
    }
  }

  lemma StepKeepsSettings(s: State, l: Label)
    requires Enabled(s, l)
    ensures Next(s, l).j.enabled == s.j.enabled && Next(s, l).d.width == s.d.width
  {
    match l
    case Call(w, c) => CallKeepsOthers(s.j, s.d.workers[w].attempt, c);
    case Fetch(f) => FetchKeepsWidth(s.d, f);
    case Take(_) =>
    case Settle(_, _) =>
    case SendResult(_) =>
    case _ =>
  }

  lemma FetchKeepsWidth(s: D.State, f: D.FetchLabel)
    requires D.FetchEnabled(s, f)
    ensures D.FetchNext(s, f).width == s.width
  {
  }

  lemma InitInv(width: nat, enabled: bool, disk: A.Disk)
    ensures Inv(Init(width, enabled, disk))
  {
    DI.InitInv(width);
    A.InitInv(enabled, disk);
  }
}
