/** The delivery protocol: broker, consumer goroutine, MessageChannel, workers,
    ResultChannel, result logger and the shutdown sequence of main, as a labelled
    transition system. One label is one atomic action of one party. What an
    attempt does between Take and Settle is in module Attempts; here its verdict
    is a parameter of the label Settle. */
module Delivery {
  import opened Basics

  /** A delivery tag is scoped to the channel, hence to the session. */
  datatype Slot = Slot(session: nat, tag: nat)

  /** A delivery the program holds: which message, and which tag would settle it. */
  datatype Copy = Copy(msg: nat, slot: Slot)

  /** Messages are numbered in publishing order. `acked` and `dead` record the attempt
      on whose behalf the message was settled; `lost` counts, per message, the sessions
      that ended while the message was unacked in them. */
  datatype Broker = Broker(
    published: nat,
    ready: set<nat>,
    unacked: map<Slot, nat>,
    acked: map<nat, nat>,
    dead: map<nat, nat>,
    tags: seq<nat>,         // one entry a session: the number of tags handed out in it
    open: set<nat>,         // sessions the broker still considers alive
    consuming: set<nat>,    // sessions with a registered consumer
    lost: multiset<nat>)

  /** Program points of RunQueueConsumer, consumeOnce and reconnect. */
  datatype Consumer =
    | Checking
    | Subscribing
    | Receiving
    | Handing(copy: Copy)
    | Interrupted
    | Waiting
    | Redialing
    | Declaring
    | Exited

  /** Program points of JobWorker. */
  datatype Worker = Idle | Busy(copy: Copy, attempt: nat) | Sending(attempt: nat) | Gone

  /** Program points of main from the select on, through the deferred stop function. */
  datatype Main =
    | Serving
    | AwaitConsumer
    | CloseInput
    | AwaitWorkers
    | CloseResults
    | AwaitLogger
    | Stopped
    | Closed

  /** What has happened so far to one message taken from MessageChannel. */
  datatype Entry = Entry(copy: Copy, worker: nat, settles: nat, results: nat)

  datatype State = State(
    width: nat,             // worker count, prefetch and MessageChannel capacity
    broker: Broker,
    link: Option<nat>,      // the session whose channel the client can still use
    stream: seq<Copy>,      // deliveries received by the client and not yet read
    consumer: Consumer,
    channel: seq<Copy>,     // MessageChannel
    inputClosed: bool,
    workers: seq<Worker>,
    resultsClosed: bool,
    loggerDone: bool,
    main: Main,
    panicked: bool,         // a goroutine sent on, or closed, a closed channel
    handed: seq<Copy>,      // everything ever sent on MessageChannel, in order
    log: seq<Entry>)        // one entry an attempt

  /** What the broker, the publishers and the network do. */
  datatype NetLabel =
    | Publish
    | Deliver(session: nat, msg: nat)
    | Drop(session: nat)
    | Sever

  /** What the consumer goroutine does. */
  datatype FetchLabel =
    | Check
    | Subscribe(ok: bool, registered: bool)
    | SeeCancel
    | Receive
    | StreamEnds
    | Handoff
    | HandBack(reached: bool)
    | Resume
    | WaitOver
    | Redial(ok: bool)
    | Redeclare(ok: bool)

  /** What one worker does. */
  datatype WorkLabel =
    | Take
    | Quit
    | Settle(ok: bool, reached: bool)
    | SendResult

  /** What main and the result logger do. */
  datatype ControlLabel =
    | Cancel
    | ConsumerDone
    | CloseMessages
    | WorkersDone
    | CloseResultChannel
    | LoggerExit
    | LoggerDone
    | CloseConnection

  datatype Label =
    | Net(n: NetLabel)
    | Fetch(f: FetchLabel)
    | Work(w: nat, k: WorkLabel)
    | Control(c: ControlLabel)

  function Init(width: nat): State {
    State(width,
          Broker(0, {}, map[], map[], map[], [0], {0}, {}, multiset{}),
          Some(0), [], Checking, [], false, seq(width, _ => Idle), false, false, Serving, false, [], [])
  }

  // ---------------------------------------------------------------- broker

  /** The slots that are unacked in one session. */
  function InSession(b: Broker, session: nat): set<Slot> {
    set k | k in b.unacked.Keys && k.session == session
  }

  /** The broker pushes a ready message in a session, under the next tag of that session. */
  function Delivered(b: Broker, session: nat, msg: nat): Broker
    requires session < |b.tags|
  {
    b.(ready := b.ready - {msg},
       unacked := b.unacked[Slot(session, b.tags[session]) := msg],
       tags := b.tags[session := b.tags[session] + 1])
  }

  /** The broker notices that a session is gone and makes its unacked messages ready again. */
  function Dropped(b: Broker, session: nat): Broker {
    var back := set k | k in InSession(b, session) :: b.unacked[k];
    b.(ready := b.ready + back,
       unacked := map k | k in b.unacked && k.session != session :: b.unacked[k],
       open := b.open - {session},
       consuming := b.consuming - {session},
       lost := b.lost + multiset(back))
  }

  /** basic.ack (or basic.reject without requeue) for a tag; an unknown tag settles nothing. */
  function Settled(b: Broker, slot: Slot, attempt: nat, ok: bool): Broker {
    if slot !in b.unacked then b
    else if ok then b.(unacked := b.unacked - {slot}, acked := b.acked[b.unacked[slot] := attempt])
    else b.(unacked := b.unacked - {slot}, dead := b.dead[b.unacked[slot] := attempt])
  }

  /** basic.nack with requeue for a tag. */
  function Requeued(b: Broker, slot: Slot): Broker {
    if slot !in b.unacked then b
    else b.(unacked := b.unacked - {slot}, ready := b.ready + {b.unacked[slot]})
  }

  /** An acknowledgement can arrive only on the channel the delivery came from, while both
      sides still hold that channel open. */
  predicate CanReach(s: State, slot: Slot) {
    s.link == Some(slot.session) && slot.session in s.broker.open
  }

  // ---------------------------------------------------------------- steps

  predicate Cancelled(s: State) { s.main != Serving }

  predicate NetEnabled(s: State, l: NetLabel) {
    match l
    case Publish => true
    case Deliver(n, m) =>
      && n < |s.broker.tags| && n in s.broker.open && n in s.broker.consuming
      && m in s.broker.ready && |InSession(s.broker, n)| < s.width
    case Drop(n) => n in s.broker.open
    case Sever => s.link.Some?
  }

  function NetNext(s: State, l: NetLabel): State
    requires NetEnabled(s, l)
  {
    var b := s.broker;
    match l
    case Publish => s.(broker := b.(ready := b.ready + {b.published}, published := b.published + 1))
    case Deliver(n, m) =>
      s.(broker := Delivered(b, n, m),
         stream := if s.link == Some(n) then s.stream + [Copy(m, Slot(n, b.tags[n]))] else s.stream)
    case Drop(n) => s.(broker := Dropped(b, n))
    case Sever => s.(link := None)
  }

  predicate FetchEnabled(s: State, l: FetchLabel) {
    match l
    case Check => s.consumer.Checking?
    case Subscribe(ok, registered) =>
      && s.consumer.Subscribing?
      && (ok ==> registered)
      && (registered ==> s.link.Some? && s.link.value in s.broker.open)
    case SeeCancel => (s.consumer.Receiving? || s.consumer.Waiting?) && Cancelled(s)
    case Receive => s.consumer.Receiving? && s.stream != []
    case StreamEnds => s.consumer.Receiving? && s.link.None?
    case Handoff => s.consumer.Handing? && (s.inputClosed || |s.channel| < s.width)
    case HandBack(reached) =>
      s.consumer.Handing? && Cancelled(s) && (reached ==> CanReach(s, s.consumer.copy.slot))
    case Resume => s.consumer.Interrupted?
    case WaitOver => s.consumer.Waiting?
    case Redial(_) => s.consumer.Redialing?
    case Redeclare(_) => s.consumer.Declaring?
  }

  function FetchNext(s: State, l: FetchLabel): State
    requires FetchEnabled(s, l)
  {
    var b := s.broker;
    match l
    case Check => s.(consumer := if Cancelled(s) then Exited else Subscribing)
    case Subscribe(ok, registered) =>
      s.(broker := if registered then b.(consuming := b.consuming + {s.link.value}) else b,
         consumer := if ok then Receiving else Interrupted)
    case SeeCancel => s.(consumer := Exited)
    case Receive => s.(consumer := Handing(s.stream[0]), stream := s.stream[1..])
    case StreamEnds => s.(consumer := Interrupted, stream := [])
    case Handoff =>
      if s.inputClosed then s.(panicked := true)
      else s.(consumer := Receiving,
              channel := s.channel + [s.consumer.copy],
              handed := s.handed + [s.consumer.copy])
    case HandBack(reached) =>
      s.(broker := if reached then Requeued(b, s.consumer.copy.slot) else b, consumer := Exited)
    case Resume => s.(consumer := if Cancelled(s) then Exited else Waiting)
    case WaitOver => s.(consumer := Redialing)
    case Redial(ok) =>
      if ok then
        s.(broker := b.(tags := b.tags + [0], open := b.open + {|b.tags|}),
           link := Some(|b.tags|), stream := [], consumer := Declaring)
      else s.(link := None, stream := [], consumer := Checking)
    case Redeclare(_) => s.(consumer := Checking)
  }

  predicate WorkEnabled(s: State, w: nat, l: WorkLabel) {
    w < |s.workers| &&
    match l
    case Take => s.workers[w].Idle? && s.channel != []
    case Quit => s.workers[w].Idle? && s.channel == [] && s.inputClosed
    case Settle(_, reached) => s.workers[w].Busy? && (reached ==> CanReach(s, s.workers[w].copy.slot))
    case SendResult => s.workers[w].Sending? && (s.resultsClosed || !s.loggerDone)
  }

  function WorkNext(s: State, w: nat, l: WorkLabel): State
    requires WorkEnabled(s, w, l)
  {
    match l
    case Take =>
      s.(channel := s.channel[1..],
         workers := s.workers[w := Busy(s.channel[0], |s.log|)],
         log := s.log + [Entry(s.channel[0], w, 0, 0)])
    case Quit => s.(workers := s.workers[w := Gone])
    case Settle(ok, reached) =>
      var Busy(c, a) := s.workers[w];
      s.(broker := if reached then Settled(s.broker, c.slot, a, ok) else s.broker,
         workers := s.workers[w := Sending(a)],
         log := if a < |s.log| then s.log[a := s.log[a].(settles := s.log[a].settles + 1)] else s.log)
    case SendResult =>
      if s.resultsClosed then s.(panicked := true)
      else
        var a := s.workers[w].attempt;
        s.(workers := s.workers[w := Idle],
           log := if a < |s.log| then s.log[a := s.log[a].(results := s.log[a].results + 1)] else s.log)
  }

  predicate AllGone(s: State) {
    forall w | 0 <= w < |s.workers| :: s.workers[w].Gone?
  }

  predicate ControlEnabled(s: State, l: ControlLabel) {
    match l
    case Cancel => s.main.Serving?
    case ConsumerDone => s.main.AwaitConsumer? && s.consumer.Exited?
    case CloseMessages => s.main.CloseInput?
    case WorkersDone => s.main.AwaitWorkers? && AllGone(s)
    case CloseResultChannel => s.main.CloseResults?
    case LoggerExit => s.resultsClosed && !s.loggerDone
    case LoggerDone => s.main.AwaitLogger? && s.loggerDone
    case CloseConnection => s.main.Stopped?
  }

  function ControlNext(s: State, l: ControlLabel): State
    requires ControlEnabled(s, l)
  {
    match l
    case Cancel => s.(main := AwaitConsumer)
    case ConsumerDone => s.(main := CloseInput)
    case CloseMessages =>
      if s.inputClosed then s.(panicked := true) else s.(inputClosed := true, main := AwaitWorkers)
    case WorkersDone => s.(main := CloseResults)
    case CloseResultChannel =>
      if s.resultsClosed then s.(panicked := true) else s.(resultsClosed := true, main := AwaitLogger)
    case LoggerExit => s.(loggerDone := true)
    case LoggerDone => s.(main := Stopped)
    case CloseConnection => s.(link := None, main := Closed)
  }

  predicate Enabled(s: State, l: Label) {
    !s.panicked &&
    match l
    case Net(n) => NetEnabled(s, n)
    case Fetch(f) => FetchEnabled(s, f)
    case Work(w, k) => WorkEnabled(s, w, k)
    case Control(c) => ControlEnabled(s, c)
  }

  function Next(s: State, l: Label): State
    requires Enabled(s, l)
  {
    match l
    case Net(n) => NetNext(s, n)
    case Fetch(f) => FetchNext(s, f)
    case Work(w, k) => WorkNext(s, w, k)
    case Control(c) => ControlNext(s, c)
  }
}
