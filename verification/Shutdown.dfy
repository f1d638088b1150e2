/** The shutdown sequence of main: it is safe, it leaves nothing behind, and it always ends. */
module Shutdown {
  import opened Basics
  import D = Delivery
  import DI = DeliveryInvariant
  import A = Attempts
  import opened System
  import opened Guarantees

  // ---------------------------------------------------------------- safety

  /** Nobody ever sends on a closed channel or closes one twice. When stop has returned,
      MessageChannel is empty, all workers are gone, and every message ever handed to them has had
      exactly one settle attempt and one result consumed. */
  lemma StopIsSafeAndComplete(width: nat, enabled: bool, disk: A.Disk, ls: seq<Label>, t: State)
    requires Reached(width, enabled, disk, ls, t)
    ensures !t.d.panicked
    ensures t.d.main.Stopped? || t.d.main.Closed? ==>
              && t.d.consumer.Exited? && t.d.channel == [] && D.AllGone(t.d) && t.d.loggerDone
              && |t.d.handed| == |t.d.log|
              && forall a | 0 <= a < |t.d.log| ::
                   t.d.log[a].copy == t.d.handed[a] && t.d.log[a].settles == 1 && t.d.log[a].results == 1
  {
    ReachedInv(width, enabled, disk, ls, t);
    if t.d.main.Stopped? || t.d.main.Closed? {
      LastHandedWasTaken(t.d);
      forall a | 0 <= a < |t.d.log| ensures t.d.log[a].settles == 1 && t.d.log[a].results == 1 {
        assert DI.EntryMatchesWorker(t.d, a);
      }
    }
  }

  /** Once all workers are gone, nothing that was handed over is still in MessageChannel. */
  lemma LastHandedWasTaken(s: D.State)
    requires DI.Inv(s) && D.AllGone(s)
    ensures s.channel == []
  {
    if s.width > 0 {
      assert s.workers[0].Gone?;
    }
  }

  /** Main takes the consumer's connection away only after that: until then the only ways to lose it
      are the network and a redial, so no settle call of a worker fails because of the shutdown. */
  lemma ConnectionClosedLast(width: nat, enabled: bool, disk: A.Disk, ls: seq<Label>, t: State, l: Label)
    requires Reached(width, enabled, disk, ls, t) && Enabled(t, l)
    requires t.d.link.Some? && Next(t, l).d.link != t.d.link
    ensures l == Net(D.Sever) || (l.Fetch? && l.f.Redial?) || l == Control(D.CloseConnection)
    ensures l == Control(D.CloseConnection) ==>
              && t.d.consumer.Exited? && t.d.channel == [] && D.AllGone(t.d)
              && forall a | 0 <= a < |t.d.log| :: t.d.log[a].settles == 1 && t.d.log[a].results == 1
  {
    StopIsSafeAndComplete(width, enabled, disk, ls, t);
    LinkChangers(t, l);
  }

  lemma LinkChangers(s: State, l: Label)
    requires Enabled(s, l) && s.d.link.Some? && Next(s, l).d.link != s.d.link
    ensures l == Net(D.Sever) || (l.Fetch? && l.f.Redial?) || (l == Control(D.CloseConnection) && s.d.main.Stopped?)
  {
    if l.Net? { assert Next(s, l).d == D.NetNext(s.d, l.n); }
    if l.Fetch? { assert Next(s, l).d == D.FetchNext(s.d, l.f); }
    if l.Control? { assert Next(s, l).d == D.ControlNext(s.d, l.k); }
  }

  // ---------------------------------------------------------------- progress

  /** An upper bound on the calls an attempt still has to return from. */
  function Remaining(p: A.Phase): nat {
    match p
    case FindingVideo => 17
    case Inserting => 16
    case Reading(to, _) => if to == A.Processing then 15 else if to == A.Completed then 4 else 2
    case Writing(to, _, _) => if to == A.Processing then 14 else if to == A.Completed then 3 else 1
    case OpeningService => 13
    case Downloading => 12
    case MakingDirectory => 11
    case Fragmenting => 10
    case Encoding => 9
    case Uploading => 8
    case RemovingSource => 7
    case RemovingFragments => 6
    case RemovingDirectory => 5
    case Ended(_) => 0
  }

  function WorkerRank(s: State, w: nat): nat {
    if w >= |s.d.workers| then 0
    else match s.d.workers[w]
      case Gone => 0
      case Idle => 1
      case Sending(_) => 2
      case Busy(_, a) => 3 + (if a < |s.j.attempts| then Remaining(s.j.attempts[a].phase) else 0)
  }

  function Total(s: State, n: nat): nat {
    if n == 0 then 0 else Total(s, n - 1) + WorkerRank(s, n - 1)
  }

  const CHANNEL_WEIGHT := 20
  const STREAM_WEIGHT := 22

  function ConsumerRank(c: D.Consumer): nat {
    match c
    case Exited => 0
    case Checking => 1
    case Declaring => 2
    case Redialing => 3
    case Waiting => 4
    case Interrupted => 5
    case Receiving => 6
    case Subscribing => 7
    case Handing(_) => 7 + CHANNEL_WEIGHT
  }

  function MainRank(m: D.Main): nat {
    match m
    case Serving => 7
    case AwaitConsumer => 6
    case CloseInput => 5
    case AwaitWorkers => 4
    case CloseResults => 3
    case AwaitLogger => 2
    case Stopped => 1
    case Closed => 0
  }

  /** The consumer may still read from its stream before it notices the cancellation. */
  predicate Reads(c: D.Consumer) { c.Subscribing? || c.Receiving? || c.Handing? }

  /** The messages the broker could push over session `n`, now or after dropping other sessions. */
  function Pushable(b: D.Broker, n: nat): set<nat> {
    b.ready + (set k | k in b.unacked.Keys && k.session != n :: b.unacked[k])
  }

  predicate Connected(s: D.State) { Reads(s.consumer) && s.link.Some? && s.link.value in s.broker.open }

  function Fetchable(s: D.State): set<nat> {
    if Connected(s) then Pushable(s.broker, s.link.value) else {}
  }

  function FetchRank(s: D.State): nat {
    STREAM_WEIGHT * |Fetchable(s)| + (if Reads(s.consumer) then STREAM_WEIGHT * |s.stream| else 0)
    + ConsumerRank(s.consumer)
  }

  function Measure(s: State): nat {
    FetchRank(s.d) + CHANNEL_WEIGHT * |s.d.channel| + Total(s, |s.d.workers|)
    + MainRank(s.d.main) + (if s.d.loggerDone then 0 else 1)
  }

  /** The program's own steps, as opposed to what the broker, the network, the publishers, and
      tools or uploads still running do. */
  predicate Own(l: Label) {
    !l.Publish? && !l.Net? && !(l.Call? && A.Running(l.c))
  }

  // Changing one worker changes the total by the change of that worker's rank.
  lemma {:induction false} TotalChange(s: State, t: State, w: nat, n: nat)
    requires forall i | 0 <= i < n && i != w :: WorkerRank(t, i) == WorkerRank(s, i)
    ensures if w < n then Total(t, n) + WorkerRank(s, w) == Total(s, n) + WorkerRank(t, w) else Total(t, n) == Total(s, n)
    decreases n
  {
    if n > 0 { TotalChange(s, t, w, n - 1); }
  }

  lemma DbReturns(j: A.State, a: nat, c: A.DbCall)
    requires A.DbEnabled(j, a, c)
    ensures Remaining(A.DbGoes(j, a, c)) < Remaining(j.attempts[a].phase)
  {
    match c
    case FindVideo(_) =>
    case InsertRow(_, _, _) =>
    case ReadRow(r) => MarkReturns(j.attempts[a].phase.to, j.attempts[a].phase.error, r);
    case WriteRow(r) => MarkReturns(j.attempts[a].phase.to, j.attempts[a].phase.error, r);
  }

  lemma MarkReturns(to: A.Status, error: string, r: Outcome)
    ensures Remaining(A.AfterMark(to, error, r)) < (match to case Processing => 14 case Completed => 3 case _ => 1)
  {
  }

  lemma MediaReturns(j: A.State, a: nat, c: A.MediaCall)
    requires A.MediaEnabled(j, a, c)
    ensures Remaining(A.MediaGoes(j.attempts[a], c)) <= Remaining(j.attempts[a].phase)
    ensures !A.Running(A.Media(c)) ==> Remaining(A.MediaGoes(j.attempts[a], c)) < Remaining(j.attempts[a].phase)
  {
  }

  lemma CallReturns(j: A.State, a: nat, c: A.Call)
    requires A.Enabled(j, a, c)
    ensures a < |j.attempts| && a < |A.Next(j, a, c).attempts|
    ensures Remaining(A.Next(j, a, c).attempts[a].phase) <= Remaining(j.attempts[a].phase)
    ensures !A.Running(c) ==> Remaining(A.Next(j, a, c).attempts[a].phase) < Remaining(j.attempts[a].phase)
  {
    match c
    case Db(d) => DbReturns(j, a, d);
    case Media(m) => MediaReturns(j, a, m);
  }

  lemma CallLowersMeasure(s: State, w: nat, c: A.Call)
    requires Inv(s) && Enabled(s, Call(w, c))
    ensures Measure(Next(s, Call(w, c))) + (if A.Running(c) then 0 else 1) <= Measure(s)
  {
    var t := Next(s, Call(w, c));
    CallKeepsOtherRanks(s, w, c);
    TotalChange(s, t, w, |s.d.workers|);
    CallLowersRank(s, w, c);
    assert t.d == s.d;
  }

  lemma CallLowersRank(s: State, w: nat, c: A.Call)
    requires Enabled(s, Call(w, c))
    ensures w < |s.d.workers|
    ensures WorkerRank(Next(s, Call(w, c)), w) + (if A.Running(c) then 0 else 1) <= WorkerRank(s, w)
  {
    CallReturns(s.j, s.d.workers[w].attempt, c);
  }

  lemma CallKeepsOtherRanks(s: State, w: nat, c: A.Call)
    requires Inv(s) && Enabled(s, Call(w, c))
    ensures forall i | 0 <= i < |s.d.workers| && i != w :: WorkerRank(Next(s, Call(w, c)), i) == WorkerRank(s, i)
  {
    CallKeepsOthers(s.j, s.d.workers[w].attempt, c);
    assert DI.WorkerMatchesLog(s.d, w);
    forall i | 0 <= i < |s.d.workers| && i != w ensures WorkerRank(Next(s, Call(w, c)), i) == WorkerRank(s, i) {
      assert DI.WorkerMatchesLog(s.d, i);
    }
  }

  /** The lemma for steps of one worker: the rest of the workers keep their rank. */
  lemma WorkerStepTotal(s: State, l: Label, w: nat)
    requires Inv(s) && Enabled(s, l)
    requires l == Take(w) || l == Quit(w) || l == SendResult(w) || (l.Settle? && l.w == w)
    ensures w < |s.d.workers| && |Next(s, l).d.workers| == |s.d.workers|
    ensures Total(Next(s, l), |s.d.workers|) + WorkerRank(s, w) == Total(s, |s.d.workers|) + WorkerRank(Next(s, l), w)
  {
    var t := Next(s, l);
    forall i | 0 <= i < |s.d.workers| && i != w ensures WorkerRank(t, i) == WorkerRank(s, i) {
      assert DI.WorkerMatchesLog(s.d, i);
    }
    TotalChange(s, t, w, |s.d.workers|);
  }

  lemma WorkerLowersMeasure(s: State, l: Label)
    requires Inv(s) && Enabled(s, l)
    requires l.Take? || l.Quit? || l.SendResult? || l.Settle?
    ensures Measure(Next(s, l)) < Measure(s)
  {
    WorkerStepTotal(s, l, l.w);
    WorkerStepLowersRest(s, l);
  }

  lemma WorkerStepLowersRest(s: State, l: Label)
    requires Inv(s) && Enabled(s, l)
    requires l.Take? || l.Quit? || l.SendResult? || l.Settle?
    ensures var t := Next(s, l);
            && FetchRank(t.d) <= FetchRank(s.d) && t.d.main == s.d.main && t.d.loggerDone == s.d.loggerDone
            && CHANNEL_WEIGHT * |t.d.channel| + WorkerRank(t, l.w) < CHANNEL_WEIGHT * |s.d.channel| + WorkerRank(s, l.w)
  {
    WorkerStepLowersOwn(s, l);
    if l.Settle? {
      SettleShrinksFetchable(s, l.w, l.reached);
    } else {
      assert Next(s, l).d.broker == s.d.broker;
    }
  }

  lemma WorkerStepLowersOwn(s: State, l: Label)
    requires Inv(s) && Enabled(s, l)
    requires l.Take? || l.Quit? || l.SendResult? || l.Settle?
    ensures var t := Next(s, l);
            CHANNEL_WEIGHT * |t.d.channel| + WorkerRank(t, l.w) < CHANNEL_WEIGHT * |s.d.channel| + WorkerRank(s, l.w)
  {
  }

  lemma SettleShrinksFetchable(s: State, w: nat, reached: bool)
    requires Inv(s) && Enabled(s, Settle(w, reached))
    ensures |Fetchable(Next(s, Settle(w, reached)).d)| <= |Fetchable(s.d)|
  {
    var t := Next(s, Settle(w, reached));
    assert Fetchable(t.d) <= Fetchable(s.d);
    DI.SubsetCard(Fetchable(t.d), Fetchable(s.d));
  }

  lemma {:induction false} SameTotal(s: State, t: State, n: nat)
    requires s.j == t.j && s.d.workers == t.d.workers
    ensures Total(t, n) == Total(s, n)
    decreases n
  {
    if n > 0 { SameTotal(s, t, n - 1); }
  }

  lemma FetchKeepsFetchable(s: D.State, f: D.FetchLabel)
    requires D.Cancelled(s) && D.FetchEnabled(s, f)
    ensures Reads(D.FetchNext(s, f).consumer) ==> Reads(s.consumer)
    ensures |Fetchable(D.FetchNext(s, f))| <= |Fetchable(s)|
  {
    var t := D.FetchNext(s, f);
    if Reads(t.consumer) {
      assert t.broker.ready == s.broker.ready && t.broker.unacked == s.broker.unacked
          && t.broker.open == s.broker.open && t.link == s.link;
      assert Pushable(t.broker, 0) == Pushable(s.broker, 0);
    }
  }

  function LocalRank(s: D.State): nat {
    (if Reads(s.consumer) then STREAM_WEIGHT * |s.stream| else 0) + ConsumerRank(s.consumer) + CHANNEL_WEIGHT * |s.channel|
  }

  lemma FetchLowersLocalRank(s: D.State, f: D.FetchLabel)
    requires DI.PhasesOk(s) && D.Cancelled(s) && D.FetchEnabled(s, f)
    ensures LocalRank(D.FetchNext(s, f)) < LocalRank(s)
  {
  }

  lemma FetchLowersRank(s: D.State, f: D.FetchLabel)
    requires DI.Inv(s) && D.Cancelled(s) && D.FetchEnabled(s, f)
    ensures var t := D.FetchNext(s, f);
            FetchRank(t) + CHANNEL_WEIGHT * |t.channel| < FetchRank(s) + CHANNEL_WEIGHT * |s.channel|
  {
    FetchKeepsFetchable(s, f);
    FetchLowersLocalRank(s, f);
    var t := D.FetchNext(s, f);
    assert FetchRank(t) + CHANNEL_WEIGHT * |t.channel| == STREAM_WEIGHT * |Fetchable(t)| + LocalRank(t);
    assert FetchRank(s) + CHANNEL_WEIGHT * |s.channel| == STREAM_WEIGHT * |Fetchable(s)| + LocalRank(s);
  }

  lemma NetKeepsRank(s: D.State, n: D.NetLabel)
    requires DI.Inv(s) && D.NetEnabled(s, n)
    ensures FetchRank(D.NetNext(s, n)) <= FetchRank(s) + (if n.Publish? then STREAM_WEIGHT else 0)
  {
    NetKeepsFetchable(s, n);
  }

  /** A delivery to the stream was fetchable before. */
  lemma NetKeepsFetchable(s: D.State, n: D.NetLabel)
    requires DI.BrokerOk(s.broker) && D.NetEnabled(s, n)
    ensures var t := D.NetNext(s, n);
            && t.consumer == s.consumer
            && (Reads(s.consumer) ==>
                  |Fetchable(t)| + |t.stream| <= |Fetchable(s)| + |s.stream| + (if n.Publish? then 1 else 0))
  {
    var t := D.NetNext(s, n);
    if Connected(t) {
      var x := s.link.value;
      match n
      case Publish => assert Pushable(t.broker, x) == Pushable(s.broker, x) + {s.broker.published};
      case Deliver(k, m) => DeliverPushable(s.broker, k, m, x);
      case Drop(k) => DropPushable(s.broker, k, x);
      case Sever =>
    } else if Reads(s.consumer) && n.Deliver? && s.link == Some(n.session) {
      assert Connected(t);
    }
  }

  lemma DropPushable(b: D.Broker, k: nat, n: nat)
    requires k != n
    ensures |Pushable(D.Dropped(b, k), n)| <= |Pushable(b, n)|
  {
    DI.SubsetCard(Pushable(D.Dropped(b, k), n), Pushable(b, n));
  }

  /** A delivery over the session itself takes the message out of what can still be pushed. */
  lemma DeliverPushable(b: D.Broker, k: nat, m: nat, n: nat)
    requires DI.BrokerOk(b) && k in b.open && m in b.ready
    ensures k < |b.tags| && |Pushable(D.Delivered(b, k, m), n)| + (if k == n then 1 else 0) <= |Pushable(b, n)|
  {
    var c := D.Delivered(b, k, m);
    var slot := D.Slot(k, b.tags[k]);
    assert slot !in b.unacked;
    if k == n {
      assert DI.InOnePlace(b, m);
      forall x | x in Pushable(c, n) ensures x in Pushable(b, n) - {m} {
        PushedOnce(b, k, m, n, x);
      }
      DI.SubsetCard(Pushable(c, n), Pushable(b, n) - {m});
    } else {
      forall x | x in Pushable(c, n) ensures x in Pushable(b, n) {
        if x !in c.ready {
          var j :| j in c.unacked.Keys && j.session != n && c.unacked[j] == x;
          assert j == slot || (j in b.unacked.Keys && b.unacked[j] == x);
        }
      }
      DI.SubsetCard(Pushable(c, n), Pushable(b, n));
    }
  }

  lemma PushedOnce(b: D.Broker, k: nat, m: nat, n: nat, x: nat)
    requires DI.BrokerOk(b) && k in b.open && k < |b.tags| && m in b.ready && k == n
    requires x in Pushable(D.Delivered(b, k, m), n)
    ensures x in Pushable(b, n) && x != m
  {
    var c := D.Delivered(b, k, m);
    assert DI.InOnePlace(b, m);
    if x !in c.ready {
      var j :| j in c.unacked.Keys && j.session != n && c.unacked[j] == x;
      assert j in b.unacked.Keys && b.unacked[j] == x;
      assert b.unacked[j] in b.unacked.Values;
    }
  }

  /** After the cancellation every step of the program lowers the measure, nothing but publishing
      raises it, and publishing raises it by a constant. */
  lemma StepLowersMeasure(s: State, l: Label)
    requires Inv(s) && D.Cancelled(s.d) && Enabled(s, l)
    ensures Measure(Next(s, l)) + (if Own(l) then 1 else 0) <= Measure(s) + (if l.Publish? then STREAM_WEIGHT else 0)
  {
    match l
    case Call(w, c) => CallLowersMeasure(s, w, c);
    case Publish(_) => NetStepKeepsMeasure(s, l);
    case Net(_) => NetStepKeepsMeasure(s, l);
    case Fetch(_) => ConsumerStepLowersMeasure(s, l);
    case Control(_) => ConsumerStepLowersMeasure(s, l);
    case _ => WorkerLowersMeasure(s, l);
  }

  lemma NetStepKeepsMeasure(s: State, l: Label)
    requires Inv(s) && Enabled(s, l) && (l.Publish? || l.Net?)
    ensures Measure(Next(s, l)) <= Measure(s) + (if l.Publish? then STREAM_WEIGHT else 0)
  {
    SameTotal(s, Next(s, l), |s.d.workers|);
    NetKeepsRank(s.d, if l.Publish? then D.Publish else l.n);
  }

  lemma ConsumerStepLowersMeasure(s: State, l: Label)
    requires Inv(s) && D.Cancelled(s.d) && Enabled(s, l) && (l.Fetch? || l.Control?)
    ensures Measure(Next(s, l)) < Measure(s)
  {
    SameTotal(s, Next(s, l), |s.d.workers|);
    if l.Fetch? { FetchLowersRank(s.d, l.f); }
  }

  lemma CancelledForGood(s: State, l: Label)
    requires Enabled(s, l) && D.Cancelled(s.d)
    ensures D.Cancelled(Next(s, l).d)
  {
    if l.Net? { assert Next(s, l).d == D.NetNext(s.d, l.n); }
    if l.Fetch? { assert Next(s, l).d == D.FetchNext(s.d, l.f); }
  }

  function OwnSteps(ls: seq<Label>): nat {
    if ls == [] then 0 else (if Own(ls[0]) then 1 else 0) + OwnSteps(ls[1..])
  }

  function Publishes(ls: seq<Label>): nat {
    if ls == [] then 0 else (if ls[0].Publish? then 1 else 0) + Publishes(ls[1..])
  }

  lemma {:induction false} CancelledRunIsBounded(s: State, ls: seq<Label>, t: State)
    requires Inv(s) && D.Cancelled(s.d) && Runs(s, ls, t)
    ensures OwnSteps(ls) + Measure(t) <= Measure(s) + STREAM_WEIGHT * Publishes(ls)
    decreases |ls|
  {
    if ls != [] {
      StepInv(s, ls[0]);
      StepLowersMeasure(s, ls[0]);
      CancelledForGood(s, ls[0]);
      CancelledRunIsBounded(Next(s, ls[0]), ls[1..], t);
    }
  }

  /** Once shutdown has begun the program takes boundedly many steps more, whatever the broker and
      the network do; only new messages can add to the bound. */
  lemma ShutdownIsBounded(
    width: nat, enabled: bool, disk: A.Disk, before: seq<Label>, s: State, ls: seq<Label>, t: State)
    requires Reached(width, enabled, disk, before, s) && D.Cancelled(s.d) && Runs(s, ls, t)
    ensures OwnSteps(ls) <= Measure(s) + STREAM_WEIGHT * Publishes(ls)
  {
    ReachedInv(width, enabled, disk, before, s);
    CancelledRunIsBounded(s, ls, t);
  }

  // ---------------------------------------------------------------- no deadlock

  /** A call the attempt can be in the middle of, returning an error. */
  function FailingCall(p: A.Phase): A.Call
    requires !p.Ended?
  {
    var r := Fault("error");
    match p
    case FindingVideo => A.Db(A.FindVideo(r))
    case Inserting => A.Db(A.InsertRow(0, r, false))
    case Reading(_, _) => A.Db(A.ReadRow(r))
    case Writing(_, _, _) => A.Db(A.WriteRow(r))
    case OpeningService => A.Media(A.OpenService(r))
    case Downloading => A.Media(A.Download(r, false))
    case MakingDirectory => A.Media(A.MakeDirectory(r))
    case Fragmenting => A.Media(A.FragmentDone(r))
    case Encoding => A.Media(A.EncodeDone(r))
    case Uploading => A.Media(A.UploadDone(r))
    case _ => A.Media(A.Remove(r, {}))
  }

  lemma AttemptCanReturn(j: A.State, a: nat)
    requires A.Inv(j) && a < |j.attempts| && !j.attempts[a].phase.Ended?
    ensures A.Enabled(j, a, FailingCall(j.attempts[a].phase)) && !A.Running(FailingCall(j.attempts[a].phase))
  {
    assert A.PhaseOk(j, a) && A.HolderOk(j, a);
  }

  lemma WorkerCanStep(s: State, w: nat) returns (l: Label)
    requires Inv(s) && s.d.main.AwaitWorkers? && w < |s.d.workers| && !s.d.workers[w].Gone?
    ensures Own(l) && Enabled(s, l)
  {
    assert DI.WorkerMatchesLog(s.d, w);
    match s.d.workers[w]
    case Idle =>
      if s.d.channel == [] {
        l := Quit(w);
      } else {
        assert DI.At(s.d, DI.InChannel(0)).Some?;
        assert DI.Genuine(s.d.broker, s.d.channel[0]);
        l := Take(w);
      }
    case Busy(_, a) =>
      if s.j.attempts[a].phase.Ended? {
        l := Settle(w, false);
      } else {
        AttemptCanReturn(s.j, a);
        l := Call(w, FailingCall(s.j.attempts[a].phase));
      }
    case Sending(_) => l := SendResult(w);
  }

  lemma ConsumerCanStep(s: State) returns (l: Label)
    requires Inv(s) && D.Cancelled(s.d) && !s.d.consumer.Exited?
    ensures Own(l) && Enabled(s, l)
  {
    l := Fetch(match s.d.consumer
               case Checking => D.Check
               case Subscribing => D.Subscribe(false, false)
               case Handing(_) => D.HandBack(false)
               case Interrupted => D.Resume
               case Redialing => D.Redial(false)
               case Declaring => D.Redeclare(false)
               case _ => D.SeeCancel);
  }

  /** Until stop has returned, the program always has a step to take. */
  lemma NeverDeadlocked(width: nat, enabled: bool, disk: A.Disk, ls: seq<Label>, t: State) returns (l: Label)
    requires Reached(width, enabled, disk, ls, t)
    requires D.Cancelled(t.d) && !t.d.main.Stopped? && !t.d.main.Closed?
    ensures Own(l) && Enabled(t, l)
  {
    ReachedInv(width, enabled, disk, ls, t);
    if !t.d.consumer.Exited? {
      l := ConsumerCanStep(t);
    } else if t.d.main.AwaitWorkers? && !D.AllGone(t.d) {
      var w :| 0 <= w < |t.d.workers| && !t.d.workers[w].Gone?;
      l := WorkerCanStep(t, w);
    } else {
      l := Control(match t.d.main
                   case AwaitConsumer => D.ConsumerDone
                   case CloseInput => D.CloseMessages
                   case AwaitWorkers => D.WorkersDone
                   case CloseResults => D.CloseResultChannel
                   case _ => if t.d.loggerDone then D.LoggerDone else D.LoggerExit);
    }
  }
}
