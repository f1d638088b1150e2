/** JobWorker and its helpers as the sequential code one worker goroutine runs: parse, create the
    row, run the processor, settle the message, report the result. */
module Worker {
  import opened Basics
  import opened Attempts
  import opened Traces
  import opened Pipeline

  /** The one settle call that a message gets. */
  datatype Verdict = Ack | Nack(requeue: bool)

  class Acknowledger {
    var calls: seq<Verdict>
  }

  /** A failed message is rejected without requeue, so the broker dead-letters it. */
  method Acknowledge(ack: Acknowledger?, error: string)
    modifies ack
    ensures ack != null && error == "" ==> ack.calls == old(ack.calls) + [Ack]
    ensures ack != null && error != "" ==> ack.calls == old(ack.calls) + [Nack(false)]
  {
    if ack == null { return; }
    if error != "" {
      ack.calls := ack.calls + [Nack(false)];
      return;
    }
    ack.calls := ack.calls + [Ack];
  }

  /** A message, and what comes of the outside calls made for it. */
  datatype Task = Task(payload: Payload, find: Outcome, insert: Outcome, stored: bool, x: Script)

  const NOT_CONFIGURED := "job service repositories are not configured"

  /** Job ids are generated; `next` stands for the generator. */
  class IdSource {
    var next: nat

    constructor ()
      ensures next == 0
    {
      next := 0;
    }

    ghost predicate AheadOf(repository: JobRepository)
      reads this, repository
    {
      (forall id | id in repository.rows :: id < next) && forall id | id in repository.history :: id < next
    }
  }

  class Worker {
    const processor: Processor
    const ids: IdSource
    const enabled: bool
    const configured: bool      // the job service has both repositories

    constructor (processor: Processor, ids: IdSource, enabled: bool, configured: bool)
      ensures this.processor == processor && this.ids == ids && this.enabled == enabled && this.configured == configured
    {
      this.processor, this.ids, this.enabled, this.configured := processor, ids, enabled, configured;
    }

    /** The outcomes are ones that the outside calls for this message can have. */
    predicate RealTask(k: Task) {
      && RealFault(k.find) && RealFault(k.insert) && (k.insert.Done? ==> k.stored) && RealScript(k.x)
      && match k.payload
         case Malformed(e) => e != ""
         case Job(v, p) => RealUpload(k.x, processor.TargetOf(v, p))
    }

    ghost predicate Valid(s: State)
      reads processor.repository, processor.disk, processor.bucket, ids
    {
      && processor.Wired() && ids.AheadOf(processor.repository) && s.enabled == enabled && Inv(s)
      && processor.repository.Matches(s) && s.disk == processor.disk.Look() && s.writes == processor.bucket.writes
    }

    /** CreatePendingJob: load the video, then insert a pending row under an id that was never used. */
    method CreatePendingJob(k: Task, ghost s: State, ghost a: nat)
      returns (r: Outcome, id: nat, ghost cs: seq<Call>, ghost t: State)
      requires RealTask(k) && k.payload.Job? && Valid(s) && AtPhase(s, a, FindingVideo)
      requires s.attempts[a].video == k.payload.video && s.attempts[a].prefix == k.payload.prefix
      modifies processor.repository, ids
      ensures RealFault(r) && Trace(s, a, cs, t) && Valid(t) && |t.attempts| == |s.attempts|
      ensures t.disk == s.disk && t.writes == s.writes
      ensures r.Done? <==> configured && k.find.Done? && k.insert.Done?
      ensures !configured ==> r == Fault(NOT_CONFIGURED)
      ensures id !in old(processor.repository.rows) && id !in old(processor.repository.history)
      ensures processor.repository.rows
           == if configured && k.find.Done? && k.stored
              then old(processor.repository.rows)[id := Row(k.payload.video, k.payload.prefix, Pending, "")]
              else old(processor.repository.rows)
      ensures r.Fault? ==> AtPhase(t, a, Ended(r.text))
      ensures r.Done? ==> AtPhase(t, a, if enabled then Reading(Processing, "") else Ended(""))
                          && processor.Matches(t, a, id, k.payload.video)
    {
      r := if configured then k.find else Fault(NOT_CONFIGURED);
      ghost var c := Db(FindVideo(r));
      TraceAppend(s, a, [], s, c);
      cs, t, id := [] + [c], Next(s, a, c), ids.next;
      CallInv(s, a, c);
      if r.Done? {
        ghost var d := Db(InsertRow(id, k.insert, k.stored));
        InsertRowNow(id, k, t, a);
        TraceAppend(s, a, cs, t, d);
        cs, t := cs + [d], Next(t, a, d);
        r := k.insert;
      }
    }

    method InsertRowNow(id: nat, k: Task, ghost s: State, ghost a: nat)
      requires RealTask(k) && k.payload.Job? && Valid(s) && AtPhase(s, a, Inserting) && id == ids.next
      requires s.attempts[a].video == k.payload.video && s.attempts[a].prefix == k.payload.prefix
      modifies processor.repository, ids
      ensures Enabled(s, a, Db(InsertRow(id, k.insert, k.stored)))
      ensures var t := Next(s, a, Db(InsertRow(id, k.insert, k.stored)));
              Valid(t) && (k.stored ==> processor.Matches(t, a, id, k.payload.video))
      ensures processor.repository.rows
           == if k.stored
              then old(processor.repository.rows)[id := Row(k.payload.video, k.payload.prefix, Pending, "")]
              else old(processor.repository.rows)
    {
      ids.next := ids.next + 1;
      CallInv(s, a, Db(InsertRow(id, k.insert, k.stored)));
      processor.repository.Insert(id, Row(k.payload.video, k.payload.prefix, Pending, ""), k.insert, k.stored);
    }

    /** The outside calls let the job succeed; `taken` says that the video's directory is there. */
    predicate Accomplished(k: Task, taken: bool) {
      && k.payload.Job? && configured && k.find.Done? && k.insert.Done?
      && (enabled ==>
            && MarkResult(k.x.processing).Done?
            && WorkSucceeds(k.x, processor.TargetOf(k.payload.video, k.payload.prefix), taken)
            && MarkResult(k.x.completed).Done?)
    }

    predicate Taken(k: Task)
      reads processor.disk
    {
      k.payload.Job? && k.payload.video in processor.disk.dirs
    }

    /** With the processor enabled, the job is run to its end. */
    method RunJob(a: nat, id: nat, k: Task, ghost s: State) returns (r: Outcome, ghost cs: seq<Call>, ghost t: State)
      requires RealTask(k) && k.payload.Job? && Valid(s) && AtPhase(s, a, Reading(Processing, ""))
      requires processor.Matches(s, a, id, k.payload.video)
      modifies processor.repository, processor.disk, processor.bucket
      ensures RealFault(r) && Trace(s, a, cs, t) && Valid(t) && |t.attempts| == |s.attempts|
      ensures AtPhase(t, a, Ended(if r.Done? then "" else r.text))
      ensures r.Done? <==>
                && MarkResult(k.x.processing).Done?
                && WorkSucceeds(k.x, processor.TargetOf(k.payload.video, k.payload.prefix), old(Taken(k)))
                && MarkResult(k.x.completed).Done?
    {
      r, cs, t := processor.Run(a, id, k.payload.video, k.payload.prefix, k.x, s);
      TraceInv(s, a, cs, t);
      TraceKeepsIds(s, a, cs, t, ids.next, id);
    }

    /** Begins a new attempt and takes it to its end. The error it reports is the attempt's: empty
        exactly if the row is Completed, or, with the processor disabled, created. */
    method ProcessPayload(a: nat, k: Task, ghost s: State) returns (error: string, ghost cs: seq<Call>, ghost t: State)
      requires RealTask(k) && Valid(s) && a == |s.attempts|
      modifies processor.repository, processor.disk, processor.bucket, ids
      ensures Trace(Begin(s, k.payload), a, cs, t) && Valid(t) && |t.attempts| == a + 1
      ensures AtPhase(t, a, Ended(error))
      ensures error == "" <==> Accomplished(k, old(Taken(k)))
      ensures k.payload.Malformed? ==> error == k.payload.error && processor.repository.rows == old(processor.repository.rows)
    {
      ghost var b := Begin(s, k.payload);
      BeginInv(s, k.payload);
      cs, t := [], b;
      if k.payload.Malformed? {
        return k.payload.error, cs, t;
      }
      var r, id;
      r, id, cs, t := CreatePendingJob(k, b, a);
      if r.Fault? { return r.text, cs, t; }
      error := "";
      if enabled {
        ghost var more: seq<Call>;
        ghost var u: State;
        r, more, u := RunJob(a, id, k, t);
        TraceConcat(b, a, cs, t, more, u);
        cs, t := cs + more, u;
        if r.Fault? { error := r.text; }
      }
    }

    /** The settle call is the one that the attempt deserves: an acknowledgement exactly if it has ended
        without an error, and otherwise a rejection without requeue. With the processor enabled, an
        attempt that has a row is acknowledged exactly if that row is Completed. */
    ghost predicate Deserves(t: State, a: nat, v: Verdict) {
      && a < |t.attempts| && t.attempts[a].phase.Ended?
      && (v == Ack <==> t.attempts[a].phase == Ended(""))
      && (v == Nack(false) <==> t.attempts[a].phase != Ended(""))
      && (enabled && t.attempts[a].job.Some? ==>
            var id := t.attempts[a].job.value;
            id in t.rows && (v == Ack <==> t.rows[id].status == Completed))
    }

    /** One turn of the loop: one attempt, then one settle call that agrees with how it ended. */
    method Handle(a: nat, k: Task, ack: Acknowledger, ghost s: State) returns (result: string, ghost t: State)
      requires RealTask(k) && Valid(s) && a == |s.attempts|
      modifies processor.repository, processor.disk, processor.bucket, ids, ack
      ensures Valid(t) && |t.attempts| == a + 1 && t.attempts[..a] == s.attempts
      ensures t.attempts[a].phase == Ended(result)
      ensures result == "" <==> Accomplished(k, old(Taken(k)))
      ensures |ack.calls| == |old(ack.calls)| + 1 && ack.calls[..|old(ack.calls)|] == old(ack.calls)
      ensures Deserves(t, a, ack.calls[|old(ack.calls)|])
      ensures forall id | id in s.rows :: id in t.rows && t.rows[id] == s.rows[id]
    {
      ghost var cs: seq<Call>;
      result, cs, t := ProcessPayload(a, k, s);
      NewAttemptKeepsOthers(s, k.payload, cs, t);
      DeservedVerdict(t, a, if result == "" then Ack else Nack(false));
      Acknowledge(ack, result);
    }

    lemma DeservedVerdict(t: State, a: nat, v: Verdict)
      requires Inv(t) && t.enabled == enabled && a < |t.attempts| && t.attempts[a].phase.Ended?
      requires v == if t.attempts[a].phase.error == "" then Ack else Nack(false)
      ensures Deserves(t, a, v)
    {
      if enabled && t.attempts[a].job.Some? {
        EndedRow(t, a, t.attempts[a].job.value);
      }
    }

    /** The results agree with how the attempts from `first` on have ended. */
    ghost predicate Reported(t: State, first: nat, results: seq<string>) {
      |t.attempts| == first + |results| && forall i | 0 <= i < |results| :: t.attempts[first + i].phase == Ended(results[i])
    }

    /** Every attempt from `first` on has had the settle call it deserves. */
    ghost predicate Settled(t: State, first: nat, calls: seq<Verdict>) {
      |t.attempts| == first + |calls| && forall i | 0 <= i < |calls| :: Deserves(t, first + i, calls[i])
    }

    /** What an earlier attempt deserves does not change while a later one runs. */
    lemma DesertLasts(t: State, u: State, a: nat, v: Verdict)
      requires Deserves(t, a, v) && a < |u.attempts| && u.attempts[a] == t.attempts[a]
      requires forall id | id in t.rows :: id in u.rows && u.rows[id] == t.rows[id]
      ensures Deserves(u, a, v)
    {
    }

    lemma OneMore(t: State, u: State, first: nat, results: seq<string>, calls: seq<Verdict>, result: string, v: Verdict)
      requires Reported(t, first, results) && Settled(t, first, calls)
      requires |u.attempts| == |t.attempts| + 1 && u.attempts[..|t.attempts|] == t.attempts
      requires forall id | id in t.rows :: id in u.rows && u.rows[id] == t.rows[id]
      requires u.attempts[|t.attempts|].phase == Ended(result) && Deserves(u, |t.attempts|, v)
      ensures Reported(u, first, results + [result]) && Settled(u, first, calls + [v])
    {
      forall i | 0 <= i < |results|
        ensures u.attempts[first + i].phase == Ended(results[i]) && Deserves(u, first + i, calls[i])
      {
        assert u.attempts[..|t.attempts|][first + i] == t.attempts[first + i];
        DesertLasts(t, u, first + i, calls[i]);
      }
    }

    /** The loop over the message channel: each message, in order, gets one attempt, one settle call
        that agrees with how the attempt ended, and one result. */
    method JobWorker(first: nat, tasks: seq<Task>, ack: Acknowledger, ghost s: State)
      returns (results: seq<string>, ghost t: State)
      requires Valid(s) && first == |s.attempts| && forall k | k in tasks :: RealTask(k)
      modifies processor.repository, processor.disk, processor.bucket, ids, ack
      ensures Valid(t) && |results| == |tasks| && Reported(t, first, results)
      ensures |ack.calls| == |old(ack.calls)| + |tasks| && ack.calls[..|old(ack.calls)|] == old(ack.calls)
      ensures Settled(t, first, ack.calls[|old(ack.calls)|..])
    {
      results, t := [], s;
      ghost var before := ack.calls;
      ghost var calls: seq<Verdict> := [];
      assert before == before + calls;
      while |results| < |tasks|
        invariant |results| <= |tasks| && |calls| == |results| && Valid(t) && Reported(t, first, results)
        invariant ack.calls == before + calls && Settled(t, first, calls)
      {
        var n := |results|;
        assert tasks[n] in tasks;
        ghost var u: State;
        var result;
        result, u := Handle(first + n, tasks[n], ack, t);
        ghost var verdict := ack.calls[|before| + n];
        OneMore(t, u, first, results, calls, result, verdict);
        calls := calls + [verdict];
        assert ack.calls == before + calls;
        results := results + [result];
        t := u;
      }
      assert ack.calls[|before|..] == calls;
    }
  }

  /** The service with empty stores, as main puts it together. */
  method Assemble(enabled: bool, configured: bool, storage: string, uploadConcurrency: int)
    returns (w: Worker, ghost s: State)
    ensures s == Init(enabled, Disk(map[], map[], map[])) && w.Valid(s)
    ensures w.enabled == enabled && w.configured == configured
    ensures w.processor.storage == storage && w.processor.uploadConcurrency == uploadConcurrency
    ensures fresh(w) && fresh(w.processor.repository) && fresh(w.processor.disk) && fresh(w.processor.bucket) && fresh(w.ids)
  {
    var repository := new JobRepository();
    var disk := new ScratchDisk();
    var bucket := new Bucket();
    var service := new JobService(repository);
    var processor := new Processor(service, disk, bucket, storage, uploadConcurrency);
    var ids := new IdSource();
    w := new Worker(processor, ids, enabled, configured);
    s := Init(enabled, Disk(map[], map[], map[]));
    InitInv(enabled, Disk(map[], map[], map[]));
  }
}
