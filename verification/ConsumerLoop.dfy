/** RunQueueConsumer, consumeOnce and reconnect as the loops they are. They are driven by any run of
    the delivery protocol: what happens at each of their program points is what the run has there.
    Durations are in nanoseconds. */
module ConsumerLoop {
  import opened Basics
  import opened QueueClient
  import opened ConsumerRuns
  import D = Delivery
  import DI = DeliveryInvariant

  const SECOND: int := 1_000_000_000
  const MIN_BACKOFF: int := 1 * SECOND
  const MAX_BACKOFF: int := 30 * SECOND

  function NextBackoff(current: int): int {
    var next := current * 2;
    if next > MAX_BACKOFF then MAX_BACKOFF else next
  }

  function Pow2(k: nat): int { if k == 0 then 1 else 2 * Pow2(k - 1) }

  /** min(2^k, 30) seconds */
  function Backoff(k: nat): int {
    if Pow2(k) < 30 then Pow2(k) * SECOND else MAX_BACKOFF
  }

  lemma {:induction false} Pow2Grows(j: nat, k: nat)
    requires j <= k
    ensures 1 <= Pow2(j) <= Pow2(k)
    decreases k
  {
    if j < k { Pow2Grows(j, k - 1); } else if j > 0 { Pow2Grows(j - 1, k - 1); }
  }

  /** The wait stays within its bounds and never shrinks while a streak goes on. */
  lemma BackoffBounds(j: nat, k: nat)
    requires j <= k
    ensures MIN_BACKOFF == 1_000_000_000 <= Backoff(j) <= Backoff(k) <= 30_000_000_000 == MAX_BACKOFF
  {
    Pow2Grows(j, k);
    Pow2Grows(0, j);
  }

  /** One second, doubling, and thirty seconds from the fifth failure on. */
  lemma BackoffSeconds(k: nat)
    ensures Backoff(0) == 1_000_000_000 && Backoff(1) == 2_000_000_000 && Backoff(2) == 4_000_000_000
    ensures Backoff(3) == 8_000_000_000 && Backoff(4) == 16_000_000_000
    ensures k >= 5 ==> Backoff(k) == 30_000_000_000
  {
    assert Pow2(1) == 2 && Pow2(2) == 4 && Pow2(3) == 8 && Pow2(4) == 16 && Pow2(5) == 32;
    if k >= 5 { Pow2Grows(5, k); }
  }

  lemma BackoffDoubles(k: nat)
    ensures NextBackoff(Backoff(k)) == Backoff(k + 1)
  {
    Pow2Grows(0, k);
  }

  // ---------------------------------------------------------------- waits

  /** How many reconnects have failed since the last success, after the first `n` moves. */
  function Failures(moves: seq<Move>, n: nat): nat
    requires n <= |moves|
  {
    if n == 0 then 0
    else
      match moves[n - 1].step
      case Redial(false) => Failures(moves, n - 1) + 1
      case Redeclare(ok) => if ok then 0 else Failures(moves, n - 1) + 1
      case _ => Failures(moves, n - 1)
  }

  /** The consumer has been interrupted and is about to wait. */
  predicate Waits(m: Move) { m.step.Resume? && !m.cancelled }

  /** The waits due in the first `n` moves: min(2^k, 30) seconds each, k reconnects having failed since
      the last success. */
  function Due(moves: seq<Move>, n: nat): seq<int>
    requires n <= |moves|
  {
    if n == 0 then []
    else Due(moves, n - 1) + (if Waits(moves[n - 1]) then [Backoff(Failures(moves, n - 1))] else [])
  }

  /** While reconnects keep failing the wait never shrinks, after a success it is back at the minimum,
      and it is always within its bounds. */
  lemma WaitsAreBounded(moves: seq<Move>, n: nat)
    requires n < |moves|
    ensures MIN_BACKOFF <= Backoff(Failures(moves, n)) <= MAX_BACKOFF
    ensures match moves[n].step
            case Redeclare(true) => Backoff(Failures(moves, n + 1)) == MIN_BACKOFF
            case _ => Backoff(Failures(moves, n)) <= Backoff(Failures(moves, n + 1))
  {
    BackoffBounds(Failures(moves, n), Failures(moves, n) + 1);
  }

  function Own(step: D.FetchLabel): Move { Move([], step, false, None) }

  /** Three interruptions: before the second wait a dial has failed, before the third a reconnect has
      succeeded. */
  lemma WaitsByExample()
    ensures var moves := [Own(D.Check), Own(D.Subscribe(false, false)), Own(D.Resume), Own(D.WaitOver), Own(D.Redial(false)),
                          Own(D.Check), Own(D.Subscribe(false, false)), Own(D.Resume), Own(D.WaitOver), Own(D.Redial(true)),
                          Own(D.Redeclare(true)), Own(D.Check), Own(D.Subscribe(false, false)), Own(D.Resume)];
            Due(moves, |moves|) == [1_000_000_000, 2_000_000_000, 1_000_000_000]
  {
    var moves := [Own(D.Check), Own(D.Subscribe(false, false)), Own(D.Resume), Own(D.WaitOver), Own(D.Redial(false)),
                  Own(D.Check), Own(D.Subscribe(false, false)), Own(D.Resume), Own(D.WaitOver), Own(D.Redial(true)),
                  Own(D.Redeclare(true)), Own(D.Check), Own(D.Subscribe(false, false)), Own(D.Resume)];
    BackoffSeconds(0);
    assert Failures(moves, 2) == 0 && Due(moves, 2) == [];
    assert Failures(moves, 3) == 0 && Due(moves, 3) == [1_000_000_000];
    assert Failures(moves, 5) == 1 && Due(moves, 5) == [1_000_000_000];
    assert Failures(moves, 7) == 1 && Due(moves, 7) == [1_000_000_000];
    assert Failures(moves, 8) == 1 && Due(moves, 8) == [1_000_000_000, 2_000_000_000];
    assert Failures(moves, 10) == 1 && Due(moves, 10) == Due(moves, 8);
    assert Failures(moves, 11) == 0 && Due(moves, 11) == Due(moves, 8);
    assert Failures(moves, 13) == 0 && Due(moves, 13) == Due(moves, 8);
  }

  // ---------------------------------------------------------------- the loops

  /** What the AMQP library answers at a move that calls it. */
  datatype Answer = Answer(dial: Dial, exchange: Outcome, deadLetters: Outcome, binding: Outcome, queue: Outcome)

  predicate AllDone(x: Answer) {
    x.exchange.Done? && x.deadLetters.Done? && x.binding.Done? && x.queue.Done?
  }

  /** The answers are those of the run. */
  predicate Answered(prefetch: int, moves: seq<Move>, answers: seq<Answer>) {
    |answers| == |moves|
    && forall n | 0 <= n < |moves| ::
         match moves[n].step
         case Redial(ok) => ok <==> Succeeds(prefetch, answers[n].dial)
         case Redeclare(ok) => ok <==> AllDone(answers[n])
         case _ => true
  }

  /** Why a call has come to its end: the shutdown was seen, it had to give up, all went well, or the
      run goes no further. */
  datatype Outlook = Stopped | Interrupted | Succeeded | Running

  /** The delivery that was handed back, if the last move is one that does that. */
  function GivenBack(moves: seq<Move>, n: nat): Option<D.Copy>
    requires n <= |moves|
  {
    if n > 0 && moves[n - 1].step.HandBack? then moves[n - 1].delivery else None
  }

  /** The consumer is at the program point after `n` moves; the client holds a channel as long as there
      can be a session. */
  ghost predicate IsAt(p: Point, moves: seq<Move>, n: nat, q: Client)
    reads q
  {
    && n <= |moves| && Path(p, moves) && Consistent(q.Look())
    && (PointAfter(p, moves, n).up ==> q.channel.Some?)
  }

  /** The call of Consume. */
  lemma SubscribeOnce(p: Point, moves: seq<Move>, n: nat)
    requires n < |moves| && Path(p, moves) && PointAfter(p, moves, n).at.Subscribing?
    ensures moves[n].step.Subscribe? && (moves[n].step.ok ==> PointAfter(p, moves, n).up)
    ensures PointAfter(p, moves, n + 1)
         == Point(if moves[n].step.ok then D.Receiving else D.Interrupted, PointAfter(p, moves, n).up)
    ensures Due(moves, n + 1) == Due(moves, n) && Failures(moves, n + 1) == Failures(moves, n)
    ensures HandedBy(moves, n + 1) == HandedBy(moves, n) && GivenBack(moves, n + 1) == None
  {
    assert InPlace(p, moves, n);
  }

  /** The outer select of consumeOnce. */
  lemma ReceiveOnce(p: Point, moves: seq<Move>, n: nat)
    requires n < |moves| && Path(p, moves) && PointAfter(p, moves, n).at.Receiving?
    ensures moves[n].step.SeeCancel? || moves[n].step.StreamEnds? || (moves[n].step.Receive? && moves[n].delivery.Some?)
    ensures PointAfter(p, moves, n + 1).up == PointAfter(p, moves, n).up
    ensures PointAfter(p, moves, n + 1).at == match moves[n].step
                                              case SeeCancel => D.Exited
                                              case Receive => D.Handing(moves[n].delivery.value)
                                              case _ => D.Interrupted
    ensures Due(moves, n + 1) == Due(moves, n) && Failures(moves, n + 1) == Failures(moves, n)
    ensures HandedBy(moves, n + 1) == HandedBy(moves, n) && GivenBack(moves, n + 1) == None
  {
    assert InPlace(p, moves, n);
  }

  /** The inner select of consumeOnce. */
  lemma HandOnce(p: Point, moves: seq<Move>, n: nat, msg: D.Copy)
    requires n < |moves| && Path(p, moves) && PointAfter(p, moves, n).at == D.Handing(msg)
    ensures moves[n].step.HandBack? || moves[n].step.Handoff?
    ensures PointAfter(p, moves, n + 1).up == PointAfter(p, moves, n).up
    ensures PointAfter(p, moves, n + 1).at == if moves[n].step.HandBack? then D.Exited else D.Receiving
    ensures Due(moves, n + 1) == Due(moves, n) && Failures(moves, n + 1) == Failures(moves, n)
    ensures HandedBy(moves, n + 1) == HandedBy(moves, n) + (if moves[n].step.HandBack? then [] else [msg])
    ensures GivenBack(moves, n + 1) == if moves[n].step.HandBack? then Some(msg) else None
  {
    assert InPlace(p, moves, n);
  }

  /** No wait and no reconnect lies between. */
  predicate OnlyDeliveries(moves: seq<Move>, start: nat, n: nat) {
    start <= n <= |moves| && Due(moves, n) == Due(moves, start) && Failures(moves, n) == Failures(moves, start)
  }

  /** The loop of consumeOnce: every delivery read from the stream is handed to the workers, in order,
      except at most the last one, which is handed back to the broker because of the shutdown. */
  method Forward(moves: seq<Move>, start: nat, before: seq<D.Copy>, ghost p: Point)
    returns (n: nat, outlook: Outlook, handed: seq<D.Copy>, returned: Option<D.Copy>)
    requires start <= |moves| && Path(p, moves) && PointAfter(p, moves, start).at.Receiving?
    requires GivenBack(moves, start) == None && before == HandedBy(moves, start)
    ensures OnlyDeliveries(moves, start, n) && PointAfter(p, moves, n).up == PointAfter(p, moves, start).up
    ensures handed == HandedBy(moves, n) && returned == GivenBack(moves, n)
    ensures match outlook
            case Stopped => PointAfter(p, moves, n).at.Exited?
            case Interrupted => PointAfter(p, moves, n).at.Interrupted?
            case Running => n == |moves| && (PointAfter(p, moves, n).at.Receiving? || PointAfter(p, moves, n).at.Handing?)
            case Succeeded => false
  {
    n, outlook, handed, returned := start, Running, before, None;
    while n < |moves|
      invariant OnlyDeliveries(moves, start, n) && PointAfter(p, moves, n).up == PointAfter(p, moves, start).up
      invariant PointAfter(p, moves, n).at.Receiving? && returned == None == GivenBack(moves, n)
      invariant handed == HandedBy(moves, n)
    {
      ReceiveOnce(p, moves, n);
      n := n + 1;
      if moves[n - 1].step.SeeCancel? {
        outlook := Stopped;
        return;
      }
      if moves[n - 1].step.StreamEnds? {
        outlook := Interrupted;
        return;
      }
      var msg := moves[n - 1].delivery.value;
      if n == |moves| { return; }
      HandOnce(p, moves, n, msg);
      n := n + 1;
      if moves[n - 1].step.HandBack? {
        outlook, returned := Stopped, Some(msg);
        return;
      }
      handed := handed + [msg];
    }
  }

  /** Subscribes, and forwards deliveries until the stream ends or the shutdown begins. */
  method ConsumeOnce(q: Client, moves: seq<Move>, start: nat, before: seq<D.Copy>, ghost p: Point)
    returns (n: nat, outlook: Outlook, handed: seq<D.Copy>, returned: Option<D.Copy>)
    requires IsAt(p, moves, start, q) && PointAfter(p, moves, start).at.Subscribing?
    requires GivenBack(moves, start) == None && before == HandedBy(moves, start)
    ensures OnlyDeliveries(moves, start, n) && IsAt(p, moves, n, q)
    ensures handed == HandedBy(moves, n) && returned == GivenBack(moves, n)
    ensures outlook.Stopped? <==> PointAfter(p, moves, n).at.Exited?
    ensures outlook.Interrupted? <==> PointAfter(p, moves, n).at.Interrupted?
    ensures outlook.Running? ==> n == |moves| && !PointAfter(p, moves, n).at.Redialing?
    ensures !outlook.Succeeded?
  {
    n, outlook, handed, returned := start, Running, before, None;
    if n == |moves| { return; }
    SubscribeOnce(p, moves, n);
    var r := q.Consume(if moves[n].step.ok then Done else Fault("consume"));
    n := n + 1;
    if r.Fault? {
      outlook := Interrupted;
      return;
    }
    n, outlook, handed, returned := Forward(moves, n, before, p);
  }

  /** The dial of reconnect. */
  lemma DialOnce(p: Point, moves: seq<Move>, n: nat)
    requires n < |moves| && Path(p, moves) && PointAfter(p, moves, n).at.Redialing?
    ensures moves[n].step.Redial?
    ensures var ok := moves[n].step.ok; PointAfter(p, moves, n + 1) == Point(if ok then D.Declaring else D.Checking, ok)
    ensures Due(moves, n + 1) == Due(moves, n)
    ensures Failures(moves, n + 1) == Failures(moves, n) + (if moves[n].step.ok then 0 else 1)
    ensures HandedBy(moves, n + 1) == HandedBy(moves, n) && GivenBack(moves, n + 1) == None
  {
    assert InPlace(p, moves, n);
  }

  /** The declarations of reconnect. */
  lemma DeclareOnce(p: Point, moves: seq<Move>, n: nat)
    requires n < |moves| && Path(p, moves) && PointAfter(p, moves, n).at.Declaring?
    ensures moves[n].step.Redeclare?
    ensures PointAfter(p, moves, n + 1) == Point(D.Checking, PointAfter(p, moves, n).up)
    ensures Due(moves, n + 1) == Due(moves, n)
    ensures Failures(moves, n + 1) == if moves[n].step.ok then 0 else Failures(moves, n) + 1
    ensures HandedBy(moves, n + 1) == HandedBy(moves, n) && GivenBack(moves, n + 1) == None
  {
    assert InPlace(p, moves, n);
  }

  /** The client's part of a redial: the old connection is closed, and nothing is leaked. */
  method Redial(q: Client, d: Dial) returns (r: Outcome)
    requires Consistent(q.Look())
    modifies q
    ensures Consistent(q.Look()) && Leaked(q.Look()) == Leaked(old(q.Look()))
    ensures r.Done? <==> Succeeds(q.prefetch, d)
    ensures r.Done? ==> q.Holds(old(q.dialed))
    ensures r.Fault? ==> q.Empty()
    ensures old(q.connection).Some? ==> old(q.connection).value in q.closed
  {
    ReconnectKeeps(q.Look(), q.prefetch, d);
    r := q.Reconnect(d);
  }

  /** The declarations on the new channel. */
  method Redeclare(q: Client, moves: seq<Move>, answers: seq<Answer>, start: nat, ghost p: Point)
    returns (n: nat, outlook: Outlook)
    requires start <= |moves| && Path(p, moves) && PointAfter(p, moves, start).at.Declaring?
    requires Answered(q.prefetch, moves, answers) && GivenBack(moves, start) == None && q.channel.Some?
    ensures start <= n <= |moves| && PointAfter(p, moves, n).up == PointAfter(p, moves, start).up
    ensures Due(moves, n) == Due(moves, start) && HandedBy(moves, n) == HandedBy(moves, start)
    ensures outlook.Running? ==> n == |moves| && PointAfter(p, moves, n).at.Declaring?
    ensures !outlook.Running? ==> PointAfter(p, moves, n).at.Checking?
    ensures outlook.Succeeded? ==> Failures(moves, n) == 0
    ensures outlook.Interrupted? ==> Failures(moves, n) == Failures(moves, start) + 1
    ensures !outlook.Stopped? && GivenBack(moves, n) == None
  {
    n, outlook := start, Running;
    if n == |moves| { return; }
    DeclareOnce(p, moves, n);
    var x := answers[n];
    var r, made := q.Declare(x.exchange, x.deadLetters, x.binding, x.queue);
    n := n + 1;
    outlook := if r.Done? then Succeeded else Interrupted;
  }

  /** Dial again, then declare the topology. Even a failure leaves the client consistent and leaks
      nothing. */
  method Reconnect(q: Client, moves: seq<Move>, answers: seq<Answer>, start: nat, ghost p: Point)
    returns (n: nat, outlook: Outlook)
    requires IsAt(p, moves, start, q) && PointAfter(p, moves, start).at.Redialing?
    requires Answered(q.prefetch, moves, answers) && GivenBack(moves, start) == None
    modifies q
    ensures start <= n <= |moves| && IsAt(p, moves, n, q) && Leaked(q.Look()) == Leaked(old(q.Look()))
    ensures Due(moves, n) == Due(moves, start) && HandedBy(moves, n) == HandedBy(moves, start)
    ensures outlook.Running? ==> n == |moves| && !PointAfter(p, moves, n).at.Exited?
    ensures !outlook.Running? ==> PointAfter(p, moves, n).at.Checking?
    ensures outlook.Succeeded? ==> Failures(moves, n) == 0 && q.Holds(old(q.dialed))
    ensures n > start && !answers[start].dial.Connects? && !(answers[start].dial.QosFails? && q.prefetch <= 0) ==> q.Empty()
    ensures n > start && old(q.connection).Some? ==> old(q.connection).value in q.closed
    ensures outlook.Interrupted? ==> Failures(moves, n) == Failures(moves, start) + 1
    ensures !outlook.Stopped? && GivenBack(moves, n) == None
  {
    n, outlook := start, Running;
    if n == |moves| { return; }
    DialOnce(p, moves, n);
    var r := Redial(q, answers[n].dial);
    n := n + 1;
    if r.Fault? {
      outlook := Interrupted;
      return;
    }
    n, outlook := Redeclare(q, moves, answers, n, p);
  }

  /** Between two rounds: unless the shutdown has begun, wait for the timer or the shutdown. */
  method Pause(moves: seq<Move>, start: nat, backoff: int, before: seq<int>, ghost p: Point)
    returns (n: nat, outlook: Outlook, waits: seq<int>)
    requires start <= |moves| && Path(p, moves) && PointAfter(p, moves, start).at.Interrupted?
    requires before == Due(moves, start) && backoff == Backoff(Failures(moves, start))
    requires GivenBack(moves, start) == None
    ensures start <= n <= |moves| && waits == Due(moves, n) && Failures(moves, n) == Failures(moves, start)
    ensures PointAfter(p, moves, n).up == PointAfter(p, moves, start).up
    ensures HandedBy(moves, n) == HandedBy(moves, start) && GivenBack(moves, n) == None
    ensures outlook.Stopped? <==> PointAfter(p, moves, n).at.Exited?
    ensures outlook.Succeeded? <==> PointAfter(p, moves, n).at.Redialing?
    ensures outlook.Running? ==> n == |moves|
    ensures !outlook.Interrupted?
  {
    n, outlook, waits := start, Running, before;
    if n == |moves| { return; }
    assert InPlace(p, moves, n);
    n := n + 1;
    if moves[n - 1].cancelled {
      outlook := Stopped;
      return;
    }
    waits := waits + [backoff];
    if n == |moves| { return; }
    assert InPlace(p, moves, n);
    n := n + 1;
    outlook := if moves[n - 1].step.SeeCancel? then Stopped else Succeeded;
  }

  /** No step belongs to a consumer that has exited, so the run has no further moves for it. */
  lemma StaysExited(p: Point, moves: seq<Move>, n: nat)
    requires n <= |moves| && Path(p, moves)
    ensures PointAfter(p, moves, n).at.Exited? ==> n == |moves|
  {
    assert n < |moves| ==> InPlace(p, moves, n);
  }

  /** The check at the top of the loop. */
  lemma CheckOnce(p: Point, moves: seq<Move>, n: nat)
    requires n < |moves| && Path(p, moves) && PointAfter(p, moves, n).at.Checking?
    ensures PointAfter(p, moves, n + 1)
         == Point(if moves[n].cancelled then D.Exited else D.Subscribing, PointAfter(p, moves, n).up)
    ensures Due(moves, n + 1) == Due(moves, n) && Failures(moves, n + 1) == Failures(moves, n)
    ensures HandedBy(moves, n + 1) == HandedBy(moves, n) && GivenBack(moves, n + 1) == None
    ensures moves[n].cancelled ==> n + 1 == |moves|
  {
    assert InPlace(p, moves, n);
    StaysExited(p, moves, n + 1);
  }

  /** From subscribing to the end of the wait that follows an interruption. */
  method Turn(q: Client, moves: seq<Move>, start: nat, backoff: int, before: seq<D.Copy>, waited: seq<int>, ghost p: Point)
    returns (n: nat, outlook: Outlook, handed: seq<D.Copy>, returned: Option<D.Copy>, waits: seq<int>)
    requires IsAt(p, moves, start, q) && PointAfter(p, moves, start).at.Subscribing?
    requires GivenBack(moves, start) == None && before == HandedBy(moves, start)
    requires waited == Due(moves, start) && backoff == Backoff(Failures(moves, start))
    ensures start <= n <= |moves| && IsAt(p, moves, n, q)
    ensures waits == Due(moves, n) && Failures(moves, n) == Failures(moves, start)
    ensures handed == HandedBy(moves, n) && returned == GivenBack(moves, n)
    ensures outlook.Stopped? <==> PointAfter(p, moves, n).at.Exited?
    ensures outlook.Succeeded? <==> PointAfter(p, moves, n).at.Redialing?
    ensures outlook.Succeeded? || n == |moves|
    ensures outlook.Succeeded? ==> returned == None
    ensures !outlook.Interrupted?
  {
    n, outlook, handed, returned := ConsumeOnce(q, moves, start, before, p);
    waits := waited;
    if outlook.Interrupted? {
      n, outlook, waits := Pause(moves, n, backoff, waits, p);
    }
    StaysExited(p, moves, n);
  }

  /** The loop ends exactly when the shutdown is seen. Every wait is min(2^k, 30) seconds, where k
      counts the reconnects that failed since the last success, and what has been handed to the workers
      is what the run has handed over. */
  method RunQueueConsumer(q: Client, moves: seq<Move>, answers: seq<Answer>, ghost p: Point)
    returns (waits: seq<int>, handed: seq<D.Copy>, returned: Option<D.Copy>, stopped: bool)
    requires IsAt(p, moves, 0, q) && p.at.Checking? && Answered(q.prefetch, moves, answers)
    modifies q
    ensures waits == Due(moves, |moves|) && handed == HandedBy(moves, |moves|)
    ensures returned == GivenBack(moves, |moves|)
    ensures stopped <==> PointAfter(p, moves, |moves|).at.Exited?
    ensures IsAt(p, moves, |moves|, q) && Leaked(q.Look()) == Leaked(old(q.Look()))
  {
    var backoff, n := MIN_BACKOFF, 0;
    ghost var leaked := Leaked(q.Look());
    waits, handed, returned, stopped := [], [], None, false;
    while n < |moves|
      invariant IsAt(p, moves, n, q) && PointAfter(p, moves, n).at.Checking?
      invariant waits == Due(moves, n) && handed == HandedBy(moves, n) && returned == None == GivenBack(moves, n)
      invariant backoff == Backoff(Failures(moves, n)) && !stopped
      invariant Leaked(q.Look()) == leaked
    {
      var outlook;
      CheckOnce(p, moves, n);
      n := n + 1;
      if moves[n - 1].cancelled {
        stopped := true;
        return;
      }
      n, outlook, handed, returned, waits := Turn(q, moves, n, backoff, handed, waits, p);
      if !outlook.Succeeded? {
        stopped := outlook.Stopped?;
        return;
      }
      BackoffDoubles(Failures(moves, n));
      n, outlook := Reconnect(q, moves, answers, n, p);
      if outlook.Running? { return; }
      backoff := if outlook.Succeeded? then MIN_BACKOFF else NextBackoff(backoff);
    }
  }

  /** The loop on any run of the delivery protocol that starts at its top: it hands over what the run
      hands over, and it has returned exactly if the consumer of the run has exited. */
  method Follow(q: Client, moves: seq<Move>, answers: seq<Answer>, ghost s: D.State)
    returns (waits: seq<int>, handed: seq<D.Copy>, stopped: bool)
    requires DI.Inv(s) && s.consumer.Checking? && Playable(s, moves) && Answered(q.prefetch, moves, answers)
    requires Consistent(q.Look()) && (s.link.Some? ==> q.channel.Some?)
    modifies q
    ensures var t := Play(s, moves, |moves|).value;
            t.handed == s.handed + handed && (stopped <==> t.consumer.Exited?)
    ensures waits == Due(moves, |moves|)
    ensures Consistent(q.Look()) && Leaked(q.Look()) == Leaked(old(q.Look()))
  {
    ghost var p := Point(D.Checking, s.link.Some?);
    RunIsPath(s, moves);
    var returned;
    waits, handed, returned, stopped := RunQueueConsumer(q, moves, answers, p);
  }
}
