/** Runs that show what can happen: a request carried out and an orderly shutdown, a message
    dead-lettered, a rejection lost, a message processed twice, a message handed back. Every kind of
    step of the program occurs in one of them. */
module Witnesses {
  import opened Basics
  import D = Delivery
  import A = Attempts
  import T = Traces
  import Pipeline
  import opened System
  import opened Guarantees

  lemma {:induction false} RunAppend(s: State, ls: seq<Label>, t: State, l: Label)
    requires Runs(s, ls, t) && Enabled(t, l)
    ensures Runs(s, ls + [l], Next(t, l))
    decreases |ls|
  {
    if ls == [] {
      assert ([] + [l])[1..] == [];
    } else {
      assert (ls + [l])[1..] == ls[1..] + [l];
      RunAppend(Next(s, ls[0]), ls[1..], t, l);
    }
  }

  lemma Extend(s: State, ls: seq<Label>, t: State, l: Label) returns (ms: seq<Label>, u: State)
    requires Runs(s, ls, t) && Enabled(t, l)
    ensures Runs(s, ms, u) && u == Next(t, l) && ms == ls + [l]
  {
    RunAppend(s, ls, t, l);
    ms, u := ls + [l], Next(t, l);
  }

  /** The calls of one attempt, made by the worker that is busy with it. */
  lemma {:induction false} TraceIsRun(o: State, ls: seq<Label>, s: State, w: nat, cs: seq<A.Call>, t: A.State)
    returns (ms: seq<Label>)
    requires Runs(o, ls, s) && w < |s.d.workers| && s.d.workers[w].Busy? && !s.d.panicked
    requires s.d.workers[w].attempt < |s.j.attempts| && T.Trace(s.j, s.d.workers[w].attempt, cs, t)
    ensures Runs(o, ms, s.(j := t)) && s.d.workers[w].attempt < |t.attempts|
    decreases |cs|
  {
    var a := s.d.workers[w].attempt;
    if cs == [] {
      ms := ls;
    } else {
      T.TraceEnds(s.j, a, cs, t);
      var u := T.After(s.j, a, cs[..|cs| - 1]).value;
      ms := TraceIsRun(o, ls, s, w, cs[..|cs| - 1], u);
      T.CallKeepsOthers(u, a, cs[|cs| - 1]);
      var next;
      ms, next := Extend(o, ms, s.(j := u), Call(w, cs[|cs| - 1]));
      assert next == s.(j := t);
    }
  }

  // ---------------------------------------------------------------- a message reaches a worker

  const SLOT := D.Slot(0, 0)
  const COPY := D.Copy(0, SLOT)

  /** One worker, one message with payload `p`, one session. */
  function Scene(j: A.State, p: A.Payload, b: D.Broker, stream: seq<D.Copy>, consumer: D.Consumer,
                 channel: seq<D.Copy>, worker: D.Worker, handed: seq<D.Copy>, log: seq<D.Entry>): State
  {
    State(D.State(1, b, Some(0), stream, consumer, channel, false, [worker], false, false, D.Serving, false, handed, log),
          j, [p])
  }

  function ReadyBroker(): D.Broker { D.Broker(1, {0}, map[], map[], map[], [0], {0}, {0}, multiset{}) }

  function PushedBroker(): D.Broker { D.Broker(1, {}, map[SLOT := 0], map[], map[], [1], {0}, {0}, multiset{}) }

  /** A message is published and the consumer subscribes. */
  lemma Subscribed(enabled: bool, disk: A.Disk, p: A.Payload) returns (ls: seq<Label>, t: State)
    requires p.Malformed? ==> p.error != ""
    ensures Reached(1, enabled, disk, ls, t)
    ensures t == Scene(A.Init(enabled, disk), p, ReadyBroker(), [], D.Receiving, [], D.Idle, [], [])
  {
    var s := Init(1, enabled, disk);
    ls, t := Extend(s, [], s, Publish(p));
    ls, t := Extend(s, ls, t, Fetch(D.Check));
    ls, t := Extend(s, ls, t, Fetch(D.Subscribe(true, true)));
  }

  /** The message is pushed. */
  lemma Pushed(enabled: bool, disk: A.Disk, p: A.Payload) returns (ls: seq<Label>, t: State)
    requires p.Malformed? ==> p.error != ""
    ensures Reached(1, enabled, disk, ls, t)
    ensures t == Scene(A.Init(enabled, disk), p, PushedBroker(), [COPY], D.Receiving, [], D.Idle, [], [])
  {
    ls, t := Subscribed(enabled, disk, p);
    assert D.InSession(t.d.broker, 0) == {};
    ls, t := Extend(Init(1, enabled, disk), ls, t, Net(D.Deliver(0, 0)));
  }

  /** The consumer has it in hand. */
  lemma InHand(enabled: bool, disk: A.Disk, p: A.Payload) returns (ls: seq<Label>, t: State)
    requires p.Malformed? ==> p.error != ""
    ensures Reached(1, enabled, disk, ls, t)
    ensures t == Scene(A.Init(enabled, disk), p, PushedBroker(), [], D.Handing(COPY), [], D.Idle, [], [])
  {
    ls, t := Pushed(enabled, disk, p);
    ls, t := Extend(Init(1, enabled, disk), ls, t, Fetch(D.Receive));
  }

  /** A worker has taken it. */
  function Taken(j: A.State, p: A.Payload): State {
    Scene(j, p, PushedBroker(), [], D.Receiving, [], D.Busy(COPY, 0), [COPY], [D.Entry(COPY, 0, 0, 0)])
  }

  lemma MessageTaken(enabled: bool, disk: A.Disk, p: A.Payload) returns (ls: seq<Label>, t: State)
    requires p.Malformed? ==> p.error != ""
    ensures Reached(1, enabled, disk, ls, t) && t == Taken(A.Begin(A.Init(enabled, disk), p), p)
  {
    var s := Init(1, enabled, disk);
    ls, t := InHand(enabled, disk, p);
    ls, t := Extend(s, ls, t, Fetch(D.Handoff));
    assert t == Scene(A.Init(enabled, disk), p, PushedBroker(), [], D.Receiving, [COPY], D.Idle, [COPY], []);
    ls, t := Extend(s, ls, t, Take(0));
  }

  // ---------------------------------------------------------------- a request carried out

  /** Where the one attempt is, and what stays as it is in the media work. */
  predicate At(s: A.State, v: string, p: string, phase: A.Phase) {
    && s.enabled && |s.attempts| == 1 && s.attempts[0].video == v && s.attempts[0].prefix == p
    && s.attempts[0].job == Some(0) && s.attempts[0].phase == phase
    && s.rows == map[0 := A.Row(v, p, A.Processing, "")] && s.history.Keys == {0}
  }

  lemma Media(s: A.State, cs: seq<A.Call>, t: A.State, c: A.MediaCall) returns (ds: seq<A.Call>, u: A.State)
    requires T.Trace(s, 0, cs, t) && A.MediaEnabled(t, 0, c)
    ensures T.Trace(s, 0, ds, u) && u == A.MediaNext(t, 0, c)
  {
    T.TraceAppend(s, 0, cs, t, A.Media(c));
    ds, u := cs + [A.Media(c)], A.MediaNext(t, 0, c);
  }

  /** Up to the fragmented file. */
  lemma Fragmented(s: A.State, v: string, p: string) returns (cs: seq<A.Call>, t: A.State)
    requires At(s, v, p, A.OpeningService) && v !in s.disk.dirs && s.attempts[0].uploaded == {} && s.writes == []
    ensures T.Trace(s, 0, cs, t) && At(t, v, p, A.Encoding)
    ensures v in t.disk.dirs && t.disk.dirs[v] == map[] && t.attempts[0].uploaded == {} && t.writes == []
  {
    cs, t := Media(s, [], s, A.OpenService(Done));
    cs, t := Media(s, cs, t, A.MediaCall.Download(Done, true));
    cs, t := Media(s, cs, t, A.MakeDirectory(Done));
    cs, t := Media(s, cs, t, A.ToolFragment);
    cs, t := Media(s, cs, t, A.FragmentDone(Done));
  }

  /** One file is encoded and uploaded. */
  lemma Uploaded(s: A.State, v: string, p: string, f: string) returns (cs: seq<A.Call>, t: A.State)
    requires At(s, v, p, A.Encoding) && v in s.disk.dirs && s.disk.dirs[v] == map[]
    requires s.attempts[0].uploaded == {} && s.writes == []
    ensures T.Trace(s, 0, cs, t) && At(t, v, p, A.RemovingSource) && t.writes == [A.Write(0, v, f, 0, true)]
  {
    cs, t := Media(s, [], s, A.ToolEncode(f, true));
    assert t.disk.dirs[v] == map[f := 0];
    cs, t := Media(s, cs, t, A.EncodeDone(Done));
    cs, t := Media(s, cs, t, A.CopyFile(f, true));
    assert t.attempts[0].uploaded == {f};
    cs, t := Media(s, cs, t, A.UploadDone(Done));
  }

  /** The scratch files are removed. */
  lemma Removed(s: A.State, v: string, p: string) returns (cs: seq<A.Call>, t: A.State)
    requires At(s, v, p, A.RemovingSource)
    ensures T.Trace(s, 0, cs, t) && t.writes == s.writes && v !in t.disk.dirs
    ensures At(t, v, p, A.Reading(A.Completed, ""))
  {
    cs, t := Media(s, [], s, A.Remove(Done, {}));
    cs, t := Media(s, cs, t, A.Remove(Done, {}));
    cs, t := Media(s, cs, t, A.Remove(Done, {}));
  }

  /** The row is marked. */
  lemma Marked(s: A.State, v: string, p: string) returns (cs: seq<A.Call>, t: A.State)
    requires At(s, v, p, A.Reading(A.Completed, ""))
    ensures T.Trace(s, 0, cs, t) && t.writes == s.writes && t.disk == s.disk
    ensures |t.attempts| == 1 && t.attempts[0].phase == A.Ended("")
    ensures t.rows == map[0 := A.Row(v, p, A.Completed, "")]
  {
    T.TraceAppend(s, 0, [], s, A.Db(A.ReadRow(Done)));
    cs, t := [] + [A.Db(A.ReadRow(Done))], A.Next(s, 0, A.Db(A.ReadRow(Done)));
    T.TraceAppend(s, 0, cs, t, A.Db(A.WriteRow(Done)));
    cs, t := cs + [A.Db(A.WriteRow(Done))], A.Next(t, 0, A.Db(A.WriteRow(Done)));
  }

  lemma JobDone(disk: A.Disk, v: string, p: string, f: string) returns (cs: seq<A.Call>, t: A.State)
    requires v !in disk.dirs
    ensures T.Trace(A.Begin(A.Init(true, disk), A.Job(v, p)), 0, cs, t)
    ensures |t.attempts| == 1 && t.attempts[0].phase == A.Ended("") && v !in t.disk.dirs
    ensures t.rows == map[0 := A.Row(v, p, A.Completed, "")] && t.writes == [A.Write(0, v, f, 0, true)]
  {
    var s := A.Begin(A.Init(true, disk), A.Job(v, p));
    var more, u, w;
    cs, t := Pipeline.MarkedProcessing(s, v, p);
    more, u := Fragmented(t, v, p);
    T.TraceConcat(s, 0, cs, t, more, u);
    cs := cs + more;
    more, w := Uploaded(u, v, p, f);
    T.TraceConcat(s, 0, cs, u, more, w);
    cs := cs + more;
    more, u := Removed(w, v, p);
    T.TraceConcat(s, 0, cs, w, more, u);
    cs := cs + more;
    more, t := Marked(u, v, p);
    T.TraceConcat(s, 0, cs, u, more, t);
    cs := cs + more;
  }

  function AckedBroker(): D.Broker { D.Broker(1, {}, map[], map[0 := 0], map[], [1], {0}, {0}, multiset{}) }

  function Reported(j: A.State, p: A.Payload, b: D.Broker): State {
    Scene(j, p, b, [], D.Receiving, [], D.Idle, [COPY], [D.Entry(COPY, 0, 1, 1)])
  }

  /** A published request is carried out: its message is acknowledged and its row is Completed. */
  lemma RequestSucceeds(disk: A.Disk, v: string, p: string, f: string) returns (ls: seq<Label>, t: State)
    requires v !in disk.dirs
    ensures Reached(1, true, disk, ls, t)
    ensures t.d.broker.acked == map[0 := 0] && t.d.broker.dead == map[] && t.d.broker.ready == {}
    ensures t.payloads == [A.Job(v, p)] && t.j.rows == map[0 := A.Row(v, p, A.Completed, "")]
    ensures t.j.writes == [A.Write(0, v, f, 0, true)]
    ensures t == Reported(t.j, A.Job(v, p), AckedBroker())
  {
    var s := Init(1, true, disk);
    ls, t := MessageTaken(true, disk, A.Job(v, p));
    var cs, j := JobDone(disk, v, p, f);
    ls := TraceIsRun(s, ls, t, 0, cs, j);
    ls, t := Settled(s, ls, j, A.Job(v, p));
  }

  /** The worker acknowledges its message and reports. */
  lemma Settled(o: State, ls: seq<Label>, j: A.State, p: A.Payload) returns (ms: seq<Label>, t: State)
    requires Runs(o, ls, Taken(j, p)) && |j.attempts| == 1 && j.attempts[0].phase == A.Ended("")
    ensures Runs(o, ms, t) && t == Reported(j, p, AckedBroker())
  {
    assert map[SLOT := 0] - {SLOT} == map[];
    ms, t := Extend(o, ls, Taken(j, p), Settle(0, true));
    assert t == Scene(j, p, AckedBroker(), [], D.Receiving, [], D.Sending(0), [COPY], [D.Entry(COPY, 0, 1, 0)]);
    ms, t := Extend(o, ms, t, SendResult(0));
  }

  /** After that an orderly shutdown. */
  lemma ShutdownCompletes(disk: A.Disk, v: string, p: string, f: string) returns (ls: seq<Label>, t: State)
    requires v !in disk.dirs
    ensures Reached(1, true, disk, ls, t)
    ensures t.d.main.Closed? && t.d.broker.acked == map[0 := 0] && t.j.rows == map[0 := A.Row(v, p, A.Completed, "")]
  {
    var s := Init(1, true, disk);
    ls, t := RequestSucceeds(disk, v, p, f);
    ls, t := ConsumerLeaves(s, ls, t);
    ls, t := WorkersLeave(s, ls, t);
    ls, t := LoggerLeaves(s, ls, t);
  }

  lemma ConsumerLeaves(o: State, ls: seq<Label>, s: State) returns (ms: seq<Label>, t: State)
    requires Runs(o, ls, s) && s.d.main.Serving? && s.d.consumer.Receiving? && !s.d.inputClosed && !s.d.panicked
    ensures Runs(o, ms, t) && t.d.broker == s.d.broker && t.j == s.j && !t.d.panicked
    ensures t.d.main.AwaitWorkers? && t.d.inputClosed && t.d.workers == s.d.workers && t.d.channel == s.d.channel
    ensures t.d.resultsClosed == s.d.resultsClosed && t.d.loggerDone == s.d.loggerDone
  {
    ms, t := Extend(o, ls, s, Control(D.Cancel));
    ms, t := Extend(o, ms, t, Fetch(D.SeeCancel));
    ms, t := InputCloses(o, ms, t);
  }

  lemma InputCloses(o: State, ls: seq<Label>, s: State) returns (ms: seq<Label>, t: State)
    requires Runs(o, ls, s) && s.d.main.AwaitConsumer? && s.d.consumer.Exited? && !s.d.inputClosed && !s.d.panicked
    ensures Runs(o, ms, t) && t.d.broker == s.d.broker && t.j == s.j && !t.d.panicked
    ensures t.d.main.AwaitWorkers? && t.d.inputClosed && t.d.workers == s.d.workers && t.d.channel == s.d.channel
    ensures t.d.resultsClosed == s.d.resultsClosed && t.d.loggerDone == s.d.loggerDone
  {
    ms, t := Extend(o, ls, s, Control(D.ConsumerDone));
    ms, t := Extend(o, ms, t, Control(D.CloseMessages));
  }

  lemma WorkersLeave(o: State, ls: seq<Label>, s: State) returns (ms: seq<Label>, t: State)
    requires Runs(o, ls, s) && s.d.main.AwaitWorkers? && s.d.inputClosed && !s.d.resultsClosed && !s.d.loggerDone
    requires s.d.workers == [D.Idle] && s.d.channel == [] && !s.d.panicked
    ensures Runs(o, ms, t) && t.d.broker == s.d.broker && t.j == s.j && !t.d.panicked
    ensures t.d.main == D.AwaitLogger && t.d.resultsClosed && !t.d.loggerDone
  {
    ms, t := Extend(o, ls, s, Quit(0));
    assert t.d.workers == [D.Gone];
    ms, t := Extend(o, ms, t, Control(D.WorkersDone));
    ms, t := Extend(o, ms, t, Control(D.CloseResultChannel));
  }

  lemma LoggerLeaves(o: State, ls: seq<Label>, s: State) returns (ms: seq<Label>, t: State)
    requires Runs(o, ls, s) && s.d.main.AwaitLogger? && s.d.resultsClosed && !s.d.loggerDone && !s.d.panicked
    ensures Runs(o, ms, t) && t.d.main.Closed? && t.d.broker == s.d.broker && t.j == s.j
  {
    ms, t := Extend(o, ls, s, Control(D.LoggerExit));
    ms, t := LinkCloses(o, ms, t);
  }

  lemma LinkCloses(o: State, ls: seq<Label>, s: State) returns (ms: seq<Label>, t: State)
    requires Runs(o, ls, s) && s.d.main.AwaitLogger? && s.d.loggerDone && !s.d.panicked
    ensures Runs(o, ms, t) && t.d.main.Closed? && t.d.broker == s.d.broker && t.j == s.j
  {
    ms, t := Extend(o, ls, s, Control(D.LoggerDone));
    ms, t := Extend(o, ms, t, Control(D.CloseConnection));
  }

  // ---------------------------------------------------------------- rejections

  /** A malformed message is dead-lettered. */
  lemma MessageIsDeadLettered(enabled: bool, disk: A.Disk, text: string) returns (ls: seq<Label>, t: State)
    requires text != ""
    ensures Reached(1, enabled, disk, ls, t)
    ensures t.d.broker.dead == map[0 := 0] && t.d.broker.acked == map[] && t.d.broker.ready == {}
    ensures |t.j.attempts| == 1 && t.j.attempts[0].phase == A.Ended(text) && t.j.rows == map[]
  {
    ls, t := MessageTaken(enabled, disk, A.Malformed(text));
    ls, t := Extend(Init(1, enabled, disk), ls, t, Settle(0, true));
  }

  /** A rejection can get lost: a worker fails a malformed message after the broker has dropped the
      session it came from. The message is ready again and not dead-lettered. */
  lemma RejectionGetsLost(enabled: bool, disk: A.Disk, text: string) returns (ls: seq<Label>, t: State)
    requires text != ""
    ensures Reached(1, enabled, disk, ls, t)
    ensures |t.d.log| == 1 && t.d.log[0].copy.msg == 0 && t.d.log[0].settles == 1
    ensures |t.j.attempts| == 1 && t.j.attempts[0].phase == A.Ended(text)
    ensures 0 in t.d.broker.ready && t.d.broker.dead == map[] && t.d.broker.acked == map[]
  {
    var s := Init(1, enabled, disk);
    ls, t := MessageTaken(enabled, disk, A.Malformed(text));
    assert SLOT in D.InSession(t.d.broker, 0);
    ls, t := Extend(s, ls, t, Net(D.Drop(0)));
    assert 0 in t.d.broker.ready;
    ls, t := Extend(s, ls, t, Settle(0, false));
  }

  /** A delivery that the consumer holds when the shutdown begins is handed back. */
  lemma DeliveryIsHandedBack(enabled: bool, disk: A.Disk, p: A.Payload) returns (ls: seq<Label>, t: State)
    requires p.Malformed? ==> p.error != ""
    ensures Reached(1, enabled, disk, ls, t)
    ensures t.d.consumer.Exited? && t.d.broker.ready == {0} && t.d.broker.unacked == map[] && t.d.handed == []
  {
    var s := Init(1, enabled, disk);
    ls, t := InHand(enabled, disk, p);
    ls, t := Extend(s, ls, t, Control(D.Cancel));
    ls, t := HandBack(s, ls, t);
  }

  lemma HandBack(o: State, ls: seq<Label>, s: State) returns (ms: seq<Label>, t: State)
    requires Runs(o, ls, s) && s.d.consumer == D.Handing(COPY) && s.d.main == D.AwaitConsumer && !s.d.panicked
    requires s.d.broker == PushedBroker() && s.d.link == Some(0) && s.d.handed == []
    ensures Runs(o, ms, t)
    ensures t.d.consumer.Exited? && t.d.broker.ready == {0} && t.d.broker.unacked == map[] && t.d.handed == []
  {
    assert map[SLOT := 0] - {SLOT} == map[];
    ms, t := Extend(o, ls, s, Fetch(D.HandBack(true)));
  }

  // ---------------------------------------------------------------- processed twice

  /** A message is processed twice when its session is lost meanwhile: with the processor disabled it
      leads to two rows. So the bound on duplicates is reached. */
  lemma MessageIsProcessedTwice(disk: A.Disk, v: string, p: string) returns (ls: seq<Label>, t: State)
    ensures Reached(1, false, disk, ls, t)
    ensures RowsFor(t, 0) == {0, 1} && t.d.broker.lost[0] == 1
    ensures t.j.rows == map[0 := A.Row(v, p, A.Pending, ""), 1 := A.Row(v, p, A.Pending, "")]
  {
    var s := Init(1, false, disk);
    ls, t := FirstAttempt(disk, v, p);
    var j := t.j;
    ls, t := SessionLost(s, ls, j, A.Job(v, p));
    ls, t := AttemptReported(s, ls, j, A.Job(v, p));
    ls, t := StreamEnds(s, ls, j, A.Job(v, p));
    ls, t := WaitsOut(s, ls, j, A.Job(v, p));
    ls, t := DialFails(s, ls, j, A.Job(v, p));
    ls, t := WaitsOut(s, ls, j, A.Job(v, p));
    ls, t := DialSucceeds(s, ls, j, A.Job(v, p));
    ls, t := Resubscribed(s, ls, j, A.Job(v, p));
    ls, t := Redelivered(s, ls, j, A.Job(v, p));
    ls, t := SecondAttempt(s, ls, j, v, p);
  }

  /** One row, and the worker about to settle. */
  predicate HasFirstRow(j: A.State, v: string, p: string) {
    && !j.enabled && j.attempts == [A.Attempt(v, p, Some(0), A.Ended(""), {}, {})]
    && j.rows == map[0 := A.Row(v, p, A.Pending, "")] && j.history.Keys == {0}
  }

  lemma Inserted(s: A.State, a: nat, v: string, p: string, id: nat) returns (cs: seq<A.Call>, t: A.State)
    requires !s.enabled && a < |s.attempts| && id !in s.rows && id !in s.history
    requires s.attempts[a] == A.Attempt(v, p, None, A.FindingVideo, {}, {})
    ensures T.Trace(s, a, cs, t) && t.enabled == s.enabled && t.history.Keys == s.history.Keys + {id}
    ensures t.attempts == s.attempts[a := A.Attempt(v, p, Some(id), A.Ended(""), {}, {})]
    ensures t.rows == s.rows[id := A.Row(v, p, A.Pending, "")]
  {
    T.TraceAppend(s, a, [], s, A.Db(A.FindVideo(Done)));
    cs, t := [] + [A.Db(A.FindVideo(Done))], A.Next(s, a, A.Db(A.FindVideo(Done)));
    T.TraceAppend(s, a, cs, t, A.Db(A.InsertRow(id, Done, true)));
    cs, t := cs + [A.Db(A.InsertRow(id, Done, true))], A.Next(t, a, A.Db(A.InsertRow(id, Done, true)));
    assert t.attempts == s.attempts[a := A.Attempt(v, p, Some(id), A.Ended(""), {}, {})];
  }

  lemma FirstAttempt(disk: A.Disk, v: string, p: string) returns (ls: seq<Label>, t: State)
    ensures Reached(1, false, disk, ls, t)
    ensures HasFirstRow(t.j, v, p) && t == Taken(t.j, A.Job(v, p))
  {
    var s := Init(1, false, disk);
    ls, t := MessageTaken(false, disk, A.Job(v, p));
    var cs, j := Inserted(t.j, 0, v, p, 0);
    ls := TraceIsRun(s, ls, t, 0, cs, j);
    t := t.(j := j);
  }

  const SECOND_SLOT := D.Slot(1, 0)
  const SECOND_COPY := D.Copy(0, SECOND_SLOT)

  /** After the loss of the session the message is ready again. */
  function LostBroker(): D.Broker { D.Broker(1, {0}, map[], map[], map[], [1], {}, {}, multiset{0}) }

  function NewBroker(consuming: set<nat>): D.Broker {
    D.Broker(1, {0}, map[], map[], map[], [1, 0], {1}, consuming, multiset{0})
  }

  function AgainBroker(): D.Broker {
    D.Broker(1, {}, map[SECOND_SLOT := 0], map[], map[], [1, 1], {1}, {1}, multiset{0})
  }

  /** A scene without a session, or with another one. */
  function Linked(t: State, link: Option<nat>): State { t.(d := t.d.(link := link)) }

  lemma SessionLost(o: State, ls: seq<Label>, j: A.State, p: A.Payload) returns (ms: seq<Label>, t: State)
    requires Runs(o, ls, Taken(j, p))
    ensures Runs(o, ms, t)
    ensures t == Linked(Scene(j, p, LostBroker(), [], D.Receiving, [], D.Busy(COPY, 0), [COPY], [D.Entry(COPY, 0, 0, 0)]), None)
  {
    assert D.InSession(PushedBroker(), 0) == {SLOT};
    assert D.Dropped(PushedBroker(), 0) == LostBroker() by {
      assert (set k | k in D.InSession(PushedBroker(), 0) :: PushedBroker().unacked[k]) == {0};
    }
    ms, t := Extend(o, ls, Taken(j, p), Net(D.Drop(0)));
    ms, t := Extend(o, ms, t, Net(D.Sever));
  }

  function Idled(j: A.State, p: A.Payload, b: D.Broker, consumer: D.Consumer): State {
    Scene(j, p, b, [], consumer, [], D.Idle, [COPY], [D.Entry(COPY, 0, 1, 1)])
  }

  /** The settle call does not arrive. */
  lemma AttemptReported(o: State, ls: seq<Label>, j: A.State, p: A.Payload) returns (ms: seq<Label>, t: State)
    requires |j.attempts| == 1 && j.attempts[0].phase.Ended?
    requires Runs(o, ls, Linked(Scene(j, p, LostBroker(), [], D.Receiving, [], D.Busy(COPY, 0), [COPY],
                                      [D.Entry(COPY, 0, 0, 0)]), None))
    ensures Runs(o, ms, t) && t == Linked(Idled(j, p, LostBroker(), D.Receiving), None)
  {
    var s := Linked(Scene(j, p, LostBroker(), [], D.Receiving, [], D.Busy(COPY, 0), [COPY], [D.Entry(COPY, 0, 0, 0)]), None);
    ms, t := Extend(o, ls, s, Settle(0, false));
    ms, t := Extend(o, ms, t, SendResult(0));
  }

  /** The consumer notices the loss. */
  lemma StreamEnds(o: State, ls: seq<Label>, j: A.State, p: A.Payload) returns (ms: seq<Label>, t: State)
    requires Runs(o, ls, Linked(Idled(j, p, LostBroker(), D.Receiving), None))
    ensures Runs(o, ms, t) && t == Linked(Idled(j, p, LostBroker(), D.Interrupted), None)
  {
    ms, t := Extend(o, ls, Linked(Idled(j, p, LostBroker(), D.Receiving), None), Fetch(D.StreamEnds));
  }

  /** It waits. */
  lemma WaitsOut(o: State, ls: seq<Label>, j: A.State, p: A.Payload) returns (ms: seq<Label>, t: State)
    requires Runs(o, ls, Linked(Idled(j, p, LostBroker(), D.Interrupted), None))
    ensures Runs(o, ms, t) && t == Linked(Idled(j, p, LostBroker(), D.Redialing), None)
  {
    ms, t := Extend(o, ls, Linked(Idled(j, p, LostBroker(), D.Interrupted), None), Fetch(D.Resume));
    ms, t := Extend(o, ms, t, Fetch(D.WaitOver));
  }

  /** The first dial fails, and so does subscribing without a session. */
  lemma DialFails(o: State, ls: seq<Label>, j: A.State, p: A.Payload) returns (ms: seq<Label>, t: State)
    requires Runs(o, ls, Linked(Idled(j, p, LostBroker(), D.Redialing), None))
    ensures Runs(o, ms, t) && t == Linked(Idled(j, p, LostBroker(), D.Interrupted), None)
  {
    ms, t := Extend(o, ls, Linked(Idled(j, p, LostBroker(), D.Redialing), None), Fetch(D.Redial(false)));
    ms, t := Extend(o, ms, t, Fetch(D.Check));
    ms, t := Extend(o, ms, t, Fetch(D.Subscribe(false, false)));
  }

  /** The second dial succeeds. */
  lemma DialSucceeds(o: State, ls: seq<Label>, j: A.State, p: A.Payload) returns (ms: seq<Label>, t: State)
    requires Runs(o, ls, Linked(Idled(j, p, LostBroker(), D.Redialing), None))
    ensures Runs(o, ms, t) && t == Linked(Idled(j, p, NewBroker({}), D.Checking), Some(1))
  {
    ms, t := Extend(o, ls, Linked(Idled(j, p, LostBroker(), D.Redialing), None), Fetch(D.Redial(true)));
    ms, t := Extend(o, ms, t, Fetch(D.Redeclare(true)));
  }

  /** The consumer subscribes over the new session. */
  lemma Resubscribed(o: State, ls: seq<Label>, j: A.State, p: A.Payload) returns (ms: seq<Label>, t: State)
    requires Runs(o, ls, Linked(Idled(j, p, NewBroker({}), D.Checking), Some(1)))
    ensures Runs(o, ms, t) && t == Linked(Idled(j, p, NewBroker({1}), D.Receiving), Some(1))
  {
    ms, t := Extend(o, ls, Linked(Idled(j, p, NewBroker({}), D.Checking), Some(1)), Fetch(D.Check));
    ms, t := Extend(o, ms, t, Fetch(D.Subscribe(true, true)));
  }

  /** The message is pushed over it and reaches the channel again. */
  lemma Redelivered(o: State, ls: seq<Label>, j: A.State, p: A.Payload) returns (ms: seq<Label>, t: State)
    requires Runs(o, ls, Linked(Idled(j, p, NewBroker({1}), D.Receiving), Some(1)))
    ensures Runs(o, ms, t) && t == Linked(Queued(j, p), Some(1))
  {
    assert D.InSession(NewBroker({1}), 1) == {};
    ms, t := Extend(o, ls, Linked(Idled(j, p, NewBroker({1}), D.Receiving), Some(1)), Net(D.Deliver(1, 0)));
    ms, t := Forwarded(o, ms, t, j, p);
  }

  function Queued(j: A.State, p: A.Payload): State {
    Scene(j, p, AgainBroker(), [], D.Receiving, [SECOND_COPY], D.Idle, [COPY, SECOND_COPY], [D.Entry(COPY, 0, 1, 1)])
  }

  lemma Forwarded(o: State, ls: seq<Label>, s: State, j: A.State, p: A.Payload) returns (ms: seq<Label>, t: State)
    requires Runs(o, ls, s) && s == Linked(Scene(j, p, AgainBroker(), [SECOND_COPY], D.Receiving, [], D.Idle, [COPY],
                                                 [D.Entry(COPY, 0, 1, 1)]), Some(1))
    ensures Runs(o, ms, t) && t == Linked(Queued(j, p), Some(1))
  {
    ms, t := Extend(o, ls, s, Fetch(D.Receive));
    ms, t := Extend(o, ms, t, Fetch(D.Handoff));
  }

  lemma SecondAttempt(o: State, ls: seq<Label>, j: A.State, v: string, p: string) returns (ms: seq<Label>, t: State)
    requires Runs(o, ls, Linked(Queued(j, A.Job(v, p)), Some(1))) && HasFirstRow(j, v, p)
    ensures Runs(o, ms, t)
    ensures RowsFor(t, 0) == {0, 1} && t.d.broker.lost[0] == 1
    ensures t.j.rows == map[0 := A.Row(v, p, A.Pending, ""), 1 := A.Row(v, p, A.Pending, "")]
  {
    ms, t := Extend(o, ls, Linked(Queued(j, A.Job(v, p)), Some(1)), Take(0));
    var cs, k := Inserted(t.j, 1, v, p, 1);
    ms := TraceIsRun(o, ms, t, 0, cs, k);
    t := t.(j := k);
    assert t.d.log == [D.Entry(COPY, 0, 1, 1), D.Entry(SECOND_COPY, 0, 0, 0)];
    TwoRows(t);
  }

  lemma TwoRows(t: State)
    requires t.d.log == [D.Entry(COPY, 0, 1, 1), D.Entry(SECOND_COPY, 0, 0, 0)] && |t.j.attempts| == 2
    requires t.j.attempts[0].job == Some(0) && t.j.attempts[1].job == Some(1)
    ensures RowsFor(t, 0) == {0, 1}
  {
    assert AttemptsOn(t, 0) == {0, 1};
    assert forall id | id in RowsFor(t, 0) :: id == 0 || id == 1;
    assert t.j.attempts[0].job.value in RowsFor(t, 0) && t.j.attempts[1].job.value in RowsFor(t, 0);
  }
}
