/** The RabbitMQ client: two fields that nearly every method sets or clears under one mutex. The
    outcome of each call into the AMQP library is a parameter. Connections are numbered in the
    order in which they are opened. */
module QueueClient {
  import opened Basics

  /** How far connectLocked gets. */
  datatype Dial =
    | DialFails(text: string)
    | ChannelFails(text: string)
    | QosFails(text: string)
    | Connects

  /** The client's two fields, and what the library has seen: how many connections it has opened,
      which were passed to Close, and the prefetch windows it has set on their channels. `channel` is
      the number of the connection that carries it. */
  datatype View = View(
    connection: Option<nat>, channel: Option<nat>, dialed: nat, closed: seq<nat>, windows: map<nat, int>)

  function Fresh(): View { View(None, None, 0, [], map[]) }

  function AfterClose(v: View): View {
    v.(connection := None, channel := None,
       closed := if v.connection.Some? then v.closed + [v.connection.value] else v.closed)
  }

  /** Whether the dial gives the client a usable connection; without a prefetch QoS is not set. */
  predicate Succeeds(prefetch: int, d: Dial) { d.Connects? || (d.QosFails? && prefetch <= 0) }

  function AfterDial(v: View, prefetch: int, d: Dial): View {
    if d.DialFails? then v
    else if Succeeds(prefetch, d) then
      v.(connection := Some(v.dialed), channel := Some(v.dialed), dialed := v.dialed + 1,
         windows := if prefetch > 0 then v.windows[v.dialed := prefetch] else v.windows)
    else v.(dialed := v.dialed + 1, closed := v.closed + [v.dialed])
  }

  function AfterReconnect(v: View, prefetch: int, d: Dial): View { AfterDial(AfterClose(v), prefetch, d) }

  // ---------------------------------------------------------------- any sequence of operations

  /** `alive` says whether the library still reports connection and channel as open. */
  datatype Op =
    | Connect(d: Dial)
    | Reconnect(d: Dial)
    | EnsureReady(alive: bool, d: Dial)
    | Close
    | Declare
    | Consume
    | Publish(alive: bool, first: Dial, send: Outcome, second: Dial)

  predicate IsReady(v: View, alive: bool) { v.connection.Some? && v.channel.Some? && alive }

  /** The state in which Publish makes its first send attempt, if it makes one. */
  function BeforeSend(v: View, prefetch: int, alive: bool, first: Dial): View {
    if IsReady(v, alive) then v else AfterReconnect(v, prefetch, first)
  }

  predicate Sends(v: View, prefetch: int, alive: bool, first: Dial) {
    IsReady(v, alive) || Succeeds(prefetch, first)
  }

  function Apply(v: View, prefetch: int, op: Op): View {
    match op
    case Connect(d) => AfterDial(v, prefetch, d)
    case Reconnect(d) => AfterReconnect(v, prefetch, d)
    case EnsureReady(alive, d) => if IsReady(v, alive) then v else AfterReconnect(v, prefetch, d)
    case Close => AfterClose(v)
    case Declare => v
    case Consume => v
    case Publish(alive, first, send, second) =>
      var u := BeforeSend(v, prefetch, alive, first);
      if Sends(v, prefetch, alive, first) && send.Fault? then AfterReconnect(u, prefetch, second) else u
  }

  function ApplyAll(v: View, prefetch: int, ops: seq<Op>): View
    decreases |ops|
  {
    if ops == [] then v else ApplyAll(Apply(v, prefetch, ops[0]), prefetch, ops[1..])
  }

  /** Opened connections that nobody holds and nobody has closed. */
  function Leaked(v: View): set<nat> {
    set c | 0 <= c < v.dialed && c !in v.closed && v.connection != Some(c)
  }

  /** Both fields are nil, or both are set and the channel belongs to the connection, which is open.
      No connection is closed twice. */
  predicate Consistent(v: View) {
    && v.channel == v.connection
    && (v.connection.Some? ==> v.connection.value < v.dialed && v.connection.value !in v.closed)
    && (forall i | 0 <= i < |v.closed| :: v.closed[i] < v.dialed)
    && (forall i, j | 0 <= i < j < |v.closed| :: v.closed[i] != v.closed[j])
  }

  /** The operation overwrites a connection that the client still holds. */
  predicate Overwrites(v: View, prefetch: int, op: Op) {
    op.Connect? && Succeeds(prefetch, op.d) && v.connection.Some?
  }

  function CountOverwrites(v: View, prefetch: int, ops: seq<Op>): nat
    decreases |ops|
  {
    if ops == [] then 0
    else (if Overwrites(v, prefetch, ops[0]) then 1 else 0)
         + CountOverwrites(Apply(v, prefetch, ops[0]), prefetch, ops[1..])
  }

  lemma CloseKeeps(v: View)
    requires Consistent(v)
    ensures Consistent(AfterClose(v)) && Leaked(AfterClose(v)) == Leaked(v)
  {
  }

  lemma DialKeeps(v: View, prefetch: int, d: Dial)
    requires Consistent(v)
    ensures Consistent(AfterDial(v, prefetch, d))
    ensures Leaked(AfterDial(v, prefetch, d)) ==
            if Succeeds(prefetch, d) && v.connection.Some? then Leaked(v) + {v.connection.value} else Leaked(v)
  {
  }

  lemma ReconnectKeeps(v: View, prefetch: int, d: Dial)
    requires Consistent(v)
    ensures Consistent(AfterReconnect(v, prefetch, d)) && Leaked(AfterReconnect(v, prefetch, d)) == Leaked(v)
  {
    CloseKeeps(v);
    DialKeeps(AfterClose(v), prefetch, d);
  }

  lemma ApplyKeeps(v: View, prefetch: int, op: Op)
    requires Consistent(v)
    ensures Consistent(Apply(v, prefetch, op))
    ensures |Leaked(Apply(v, prefetch, op))| == |Leaked(v)| + (if Overwrites(v, prefetch, op) then 1 else 0)
  {
    match op
    case Connect(d) => DialKeeps(v, prefetch, d);
    case Reconnect(d) => ReconnectKeeps(v, prefetch, d);
    case EnsureReady(_, d) => ReconnectKeeps(v, prefetch, d);
    case Close => CloseKeeps(v);
    case Declare =>
    case Consume =>
    case Publish(alive, first, _, second) =>
      ReconnectKeeps(v, prefetch, first);
      ReconnectKeeps(BeforeSend(v, prefetch, alive, first), prefetch, second);
  }

  lemma {:induction false} ApplyAllKeeps(v: View, prefetch: int, ops: seq<Op>)
    requires Consistent(v)
    ensures Consistent(ApplyAll(v, prefetch, ops))
    ensures |Leaked(ApplyAll(v, prefetch, ops))| == |Leaked(v)| + CountOverwrites(v, prefetch, ops)
    decreases |ops|
  {
    if ops != [] {
      ApplyKeeps(v, prefetch, ops[0]);
      ApplyAllKeeps(Apply(v, prefetch, ops[0]), prefetch, ops[1..]);
    }
  }

  /** After any operations on a new client, connection and channel are both nil or both set, and the
      connections dialed but not closed are the held one and one more for every Connect that
      succeeded on a connected client. So nothing leaks exactly when Connect was never used so. */
  lemma ClientLedger(prefetch: int, ops: seq<Op>)
    ensures var v := ApplyAll(Fresh(), prefetch, ops);
            && Consistent(v)
            && |Leaked(v)| == CountOverwrites(Fresh(), prefetch, ops)
            && (Leaked(v) == {} <==> CountOverwrites(Fresh(), prefetch, ops) == 0)
  {
    ApplyAllKeeps(Fresh(), prefetch, ops);
    assert Leaked(Fresh()) == {};
    var v := ApplyAll(Fresh(), prefetch, ops);
    if Leaked(v) != {} { var c :| c in Leaked(v); assert |Leaked(v) - {c}| + 1 == |Leaked(v)|; }
  }

  /** The ledger is exact: a second Connect on a new client leaks the first connection. */
  lemma SecondConnectLeaks()
    ensures CountOverwrites(Fresh(), 1, [Op.Connect(Connects), Op.Connect(Connects)]) == 1
    ensures Leaked(ApplyAll(Fresh(), 1, [Op.Connect(Connects), Op.Connect(Connects)])) == {0}
  {
    var op := Op.Connect(Connects);
    var v := Apply(Fresh(), 1, op);
    var w := Apply(v, 1, op);
    assert [op, op][1..] == [op] && [op][1..] == [];
    assert ApplyAll(v, 1, [op]) == w && ApplyAll(Fresh(), 1, [op, op]) == w;
    assert CountOverwrites(v, 1, [op]) == 1;
  }

  // ---------------------------------------------------------------- the prefetch window

  /** The held channel has the window the client is configured with; one of zero or less is not set. */
  predicate Limited(v: View, prefetch: int) {
    v.channel.Some? ==>
      if prefetch > 0 then v.channel.value in v.windows && v.windows[v.channel.value] == prefetch
      else v.channel.value !in v.windows
  }

  predicate OnlyDialed(v: View) { forall c | c in v.windows :: c < v.dialed }

  lemma ApplyKeepsLimit(v: View, prefetch: int, op: Op)
    requires Limited(v, prefetch) && OnlyDialed(v)
    ensures Limited(Apply(v, prefetch, op), prefetch) && OnlyDialed(Apply(v, prefetch, op))
  {
  }

  lemma {:induction false} ApplyAllKeepsLimit(v: View, prefetch: int, ops: seq<Op>)
    requires Limited(v, prefetch) && OnlyDialed(v)
    ensures Limited(ApplyAll(v, prefetch, ops), prefetch)
    decreases |ops|
  {
    if ops != [] {
      ApplyKeepsLimit(v, prefetch, ops[0]);
      ApplyAllKeepsLimit(Apply(v, prefetch, ops[0]), prefetch, ops[1..]);
    }
  }

  /** Whatever the client has been through, every channel it holds has its prefetch window set: main
      sets the prefetch to the number of workers, so this is the window that the broker observes, also
      after a reconnect. */
  lemma HeldChannelIsLimited(workers: nat, ops: seq<Op>)
    requires workers > 0
    ensures var v := ApplyAll(Fresh(), workers, ops);
            v.channel.Some? ==> v.channel.value in v.windows && v.windows[v.channel.value] == workers
  {
    ApplyAllKeepsLimit(Fresh(), workers, ops);
  }

  // ---------------------------------------------------------------- the client

  class Client {
    const prefetch: int
    var connection: Option<nat>
    var channel: Option<nat>
    var dialed: nat          // kept by the AMQP library
    var closed: seq<nat>     // kept by the AMQP library
    var windows: map<nat, int>    // kept by the AMQP library

    function Look(): View
      reads this
    {
      View(connection, channel, dialed, closed, windows)
    }

    constructor (prefetch: int)
      ensures this.prefetch == prefetch && Look() == Fresh()
    {
      this.prefetch := prefetch;
      connection, channel := None, None;
      dialed, closed, windows := 0, [], map[];
    }

    /** The client holds connection `number` and its channel, with the prefetch window set. */
    ghost predicate Holds(number: nat)
      reads this
    {
      && connection == Some(number) && channel == Some(number)
      && (prefetch > 0 ==> number in windows && windows[number] == prefetch)
    }

    /** The client holds nothing. */
    ghost predicate Empty()
      reads this
    {
      connection == None && channel == None
    }

    /** A connection that is of no use is closed again and leaves the fields alone. */
    method ConnectLocked(d: Dial) returns (r: Outcome)
      modifies this
      ensures Look() == AfterDial(old(Look()), prefetch, d)
      ensures r.Done? <==> Succeeds(prefetch, d)
      ensures r.Done? <==> d.Connects? || (d.QosFails? && prefetch <= 0)
      ensures r.Done? ==> Holds(old(dialed)) && dialed == old(dialed) + 1 && closed == old(closed)
      ensures r.Fault? ==> connection == old(connection) && channel == old(channel)
      ensures r.Fault? && d.DialFails? ==> dialed == old(dialed) && closed == old(closed)
      ensures r.Fault? && !d.DialFails? ==> dialed == old(dialed) + 1 && closed == old(closed) + [old(dialed)]
    {
      if d.DialFails? { return Fault(d.text); }
      var number := dialed;
      dialed := dialed + 1;
      if d.ChannelFails? {
        closed := closed + [number];
        return Fault(d.text);
      }
      if prefetch > 0 {
        if d.QosFails? {
          closed := closed + [number];
          return Fault(d.text);
        }
        windows := windows[number := prefetch];
      }
      connection := Some(number);
      channel := Some(number);
      return Done;
    }

    /** Both are closed even if closing the channel fails, and the first error is reported. */
    method CloseLocked(channelClose: Outcome, connectionClose: Outcome) returns (r: Outcome)
      modifies this
      ensures Look() == AfterClose(old(Look()))
      ensures Empty() && dialed == old(dialed)
      ensures closed == old(closed) + (if old(connection).Some? then [old(connection).value] else [])
      ensures r == if old(channel).Some? && channelClose.Fault? then channelClose
                   else if old(connection).Some? then connectionClose
                   else Done
    {
      r := Done;
      if channel.Some? {
        if channelClose.Fault? { r := channelClose; }
        channel := None;
      }
      if connection.Some? {
        closed := closed + [connection.value];
        if connectionClose.Fault? && r.Done? { r := connectionClose; }
        connection := None;
      }
    }

    /** The old connection is closed, whatever comes of the dial. On success the client holds the new
        one, and otherwise nothing. */
    method ReconnectLocked(d: Dial) returns (r: Outcome)
      modifies this
      ensures Look() == AfterReconnect(old(Look()), prefetch, d)
      ensures r.Done? <==> Succeeds(prefetch, d)
      ensures r.Done? ==> Holds(old(dialed)) && dialed == old(dialed) + 1
      ensures r.Fault? ==> Empty() && dialed == old(dialed) + (if d.DialFails? then 0 else 1)
      ensures old(connection).Some? ==> old(connection).value in closed
    {
      var ignored := CloseLocked(Done, Done);
      r := ConnectLocked(d);
    }

    /** A usable client is left alone; any other is reconnected. */
    method EnsureReady(alive: bool, d: Dial) returns (r: Outcome)
      modifies this
      ensures Look() == Apply(old(Look()), prefetch, Op.EnsureReady(alive, d))
      ensures old(connection.Some? && channel.Some?) && alive ==> r.Done? && Look() == old(Look())
      ensures !(old(connection.Some? && channel.Some?) && alive) ==>
                && (r.Done? <==> Succeeds(prefetch, d))
                && (r.Done? ==> Holds(old(dialed)) && dialed == old(dialed) + 1)
                && (r.Fault? ==> Empty())
                && (old(connection).Some? ==> old(connection).value in closed)
    {
      if connection.Some? && channel.Some? && alive { return Done; }
      r := ReconnectLocked(d);
    }

    /** A send attempt needs a channel: it would dereference a nil pointer otherwise. */
    method PublishOnce(send: Outcome) returns (r: Outcome)
      requires channel.Some?
      ensures r == send
    {
      r := send;
    }

    /** The retry of Publish: over a fresh connection, or not at all. */
    method Retry(sent: Outcome, second: Dial, resend: Outcome) returns (r: Outcome, tried: bool)
      requires sent.Fault?
      modifies this
      ensures Look() == AfterReconnect(old(Look()), prefetch, second)
      ensures tried <==> Succeeds(prefetch, second)
      ensures if tried then r == resend && Holds(old(dialed)) else r.Fault? && Empty()
      ensures old(connection).Some? ==> old(connection).value in closed
      ensures dialed == old(dialed) + (if second.DialFails? then 0 else 1)
    {
      var reopening := ReconnectLocked(second);
      if reopening.Fault? {
        return Fault("publish failed: " + sent.text + "; reconnect failed: " + reopening.text), false;
      }
      r := PublishOnce(resend);
      tried := true;
    }

    /** At most two attempts: the first over the connection the client holds if it is usable, and
        otherwise over a new one; the second only over a connection opened for it, the one before being
        closed. The result is nil exactly when there was an attempt and the last one succeeded. */
    method Publish(alive: bool, first: Dial, send: Outcome, second: Dial, resend: Outcome)
      returns (r: Outcome, attempts: seq<Outcome>)
      modifies this
      ensures Look() == Apply(old(Look()), prefetch, Op.Publish(alive, first, send, second))
      ensures |attempts| <= 2
      ensures r.Done? <==> attempts != [] && attempts[|attempts| - 1].Done?
      ensures var ready := old(connection.Some? && channel.Some?) && alive;
              && (attempts == [] <==> !ready && !Succeeds(prefetch, first))
              && (attempts == [] ==> Empty())
              && (attempts == [send] && send.Done? ==> if ready then Look() == old(Look()) else Holds(old(dialed)))
              && (attempts != [] ==> attempts[0] == send)
              && (|attempts| == 2 <==> attempts != [] && send.Fault? && Succeeds(prefetch, second))
              && (|attempts| == 2 ==> attempts[1] == resend && Holds(if ready then old(dialed) else old(dialed) + 1))
              && (attempts != [] && send.Fault? && !Succeeds(prefetch, second) ==> Empty())
              && (old(connection).Some? && !(ready && send.Done?) ==> old(connection).value in closed)
              && (attempts != [] && send.Fault? && !ready ==> old(dialed) in closed)
    {
      attempts := [];
      if !(connection.Some? && channel.Some? && alive) {
        var opening := ReconnectLocked(first);
        if opening.Fault? { return Fault("publish: queue unavailable: " + opening.text), []; }
      }
      r := PublishOnce(send);
      attempts := [r];
      if r.Fault? {
        var tried;
        r, tried := Retry(r, second, resend);
        if tried { attempts := [send, r]; }
      }
    }

    method Connect(d: Dial) returns (r: Outcome)
      modifies this
      ensures Look() == Apply(old(Look()), prefetch, Op.Connect(d))
      ensures r.Done? <==> Succeeds(prefetch, d)
      ensures r.Done? ==> Holds(old(dialed)) && closed == old(closed)
      ensures r.Fault? ==> connection == old(connection) && channel == old(channel)
    {
      r := ConnectLocked(d);
    }

    /** Never keeps the old connection, and never the half of a new one. */
    method Reconnect(d: Dial) returns (r: Outcome)
      modifies this
      ensures Look() == Apply(old(Look()), prefetch, Op.Reconnect(d))
      ensures r.Done? <==> Succeeds(prefetch, d)
      ensures r.Done? ==> Holds(old(dialed)) && dialed == old(dialed) + 1
      ensures r.Fault? ==> Empty() && dialed == old(dialed) + (if d.DialFails? then 0 else 1)
      ensures old(connection).Some? ==> old(connection).value in closed
    {
      r := ReconnectLocked(d);
    }

    method Close(channelClose: Outcome, connectionClose: Outcome) returns (r: Outcome)
      modifies this
      ensures Look() == Apply(old(Look()), prefetch, Op.Close)
      ensures Empty() && dialed == old(dialed)
      ensures closed == old(closed) + (if old(connection).Some? then [old(connection).value] else [])
      ensures r == if old(channel).Some? && channelClose.Fault? then channelClose
                   else if old(connection).Some? then connectionClose
                   else Done
    {
      r := CloseLocked(channelClose, connectionClose);
    }

    /** Each declaration is made only if the ones before it succeeded. */
    method Declare(exchange: Outcome, deadLetters: Outcome, binding: Outcome, queue: Outcome) returns (r: Outcome, made: nat)
      ensures Look() == Apply(old(Look()), prefetch, Op.Declare)
      ensures channel.None? ==> r.Fault? && made == 0
      ensures channel.Some? ==>
                (r.Done? <==> exchange.Done? && deadLetters.Done? && binding.Done? && queue.Done?)
                && (r.Done? <==> made == 4) && made <= 4
                && (made == 0 <==> exchange.Fault?)
                && (made >= 2 <==> exchange.Done? && deadLetters.Done?)
                && (made >= 3 <==> exchange.Done? && deadLetters.Done? && binding.Done?)
    {
      if channel.None? { return Fault("rabbitmq channel is not initialized"), 0; }
      if exchange.Fault? { return Fault("declare dead-letter exchange: " + exchange.text), 0; }
      if deadLetters.Fault? { return Fault("declare dead-letter queue: " + deadLetters.text), 1; }
      if binding.Fault? { return Fault("bind dead-letter queue: " + binding.text), 2; }
      return queue, if queue.Done? then 4 else 3;
    }

    method Consume(answer: Outcome) returns (r: Outcome)
      ensures Look() == Apply(old(Look()), prefetch, Op.Consume)
      ensures r.Done? <==> channel.Some? && answer.Done?
    {
      if channel.None? { return Fault("rabbitmq channel is not initialized"); }
      r := answer;
    }
  }
}
