/** The bounded pool of ProcessUpload: a sender that queues file indexes on a channel, workers
    that upload the files and collect the failed ones under a mutex. */
module UploadPool {
  import opened Basics

  /** Program points of uploadWorker: at the channel, in UploadObject, about to take the mutex,
      returned. */
  datatype Worker = Waiting | Uploading(x: nat) | Recording(x: nat) | Gone

  datatype Finished = Finished(x: nat, ok: bool)

  /** File `x` is to become the object `names[x]` with content `contents[x]`. */
  datatype Pool = Pool(
    names: seq<string>, contents: seq<string>,
    capacity: nat, next: nat, channel: seq<nat>, closed: bool,
    workers: seq<Worker>, errors: seq<nat>, done: seq<Finished>,
    bucket: map<string, string>)

  datatype Step =
    | Send
    | Close
    | Receive(w: nat)
    | Finish(w: nat, ok: bool, stored: Option<string>)
    | Record(w: nat)
    | Exit(w: nat)

  function Start(names: seq<string>, contents: seq<string>, capacity: nat, workers: nat, bucket: map<string, string>): Pool {
    Pool(names, contents, capacity, 0, [], false, seq(workers, _ => Waiting), [], [], bucket)
  }

  /** A successful upload stores exactly the file's content; a failed one may leave anything
      behind under the object's name, or nothing. */
  predicate Enabled(p: Pool, s: Step) {
    match s
    case Send => p.next < |p.names| && |p.channel| < p.capacity && !p.closed
    case Close => p.next >= |p.names| && !p.closed
    case Receive(w) => w < |p.workers| && p.workers[w].Waiting? && p.channel != []
    case Finish(w, ok, stored) =>
      && w < |p.workers| && p.workers[w].Uploading?
      && p.workers[w].x < |p.names| && p.workers[w].x < |p.contents|
      && (ok ==> stored == Some(p.contents[p.workers[w].x]))
    case Record(w) => w < |p.workers| && p.workers[w].Recording?
    case Exit(w) => w < |p.workers| && p.workers[w].Waiting? && p.channel == [] && p.closed
  }

  function Next(p: Pool, s: Step): Pool
    requires Enabled(p, s)
  {
    match s
    case Send => p.(channel := p.channel + [p.next], next := p.next + 1)
    case Close => p.(closed := true)
    case Receive(w) => p.(workers := p.workers[w := Uploading(p.channel[0])], channel := p.channel[1..])
    case Finish(w, ok, stored) =>
      var x := p.workers[w].x;
      p.(workers := p.workers[w := if ok then Waiting else Recording(x)],
         done := if ok then p.done + [Finished(x, true)] else p.done,
         bucket := if stored.Some? then p.bucket[p.names[x] := stored.value] else p.bucket)
    case Record(w) =>
      var x := p.workers[w].x;
      p.(workers := p.workers[w := Waiting], errors := p.errors + [x], done := p.done + [Finished(x, false)])
    case Exit(w) => p.(workers := p.workers[w := Gone])
  }

  predicate Runs(p: Pool, ss: seq<Step>, q: Pool)
    decreases |ss|
  {
    if ss == [] then p == q else Enabled(p, ss[0]) && Runs(Next(p, ss[0]), ss[1..], q)
  }

  /** Where the steps lead, if they can be made. */
  function After(p: Pool, ss: seq<Step>): Option<Pool>
    decreases |ss|
  {
    if ss == [] then Some(p) else if Enabled(p, ss[0]) then After(Next(p, ss[0]), ss[1..]) else None
  }

  lemma {:induction false} AfterIsRun(p: Pool, ss: seq<Step>)
    requires After(p, ss).Some?
    ensures Runs(p, ss, After(p, ss).value)
    decreases |ss|
  {
    if ss != [] { AfterIsRun(Next(p, ss[0]), ss[1..]); }
  }

  /** Nothing the pool does depends on what is in the bucket. */
  lemma {:induction false} AnyBucket(p: Pool, ss: seq<Step>, b: map<string, string>)
    requires After(p, ss).Some?
    ensures After(p.(bucket := b), ss).Some?
    ensures After(p.(bucket := b), ss).value.(bucket := map[]) == After(p, ss).value.(bucket := map[])
    decreases |ss|
  {
    if ss != [] {
      var q := p.(bucket := b);
      assert Enabled(q, ss[0]) && Next(q, ss[0]).(bucket := map[]) == Next(p, ss[0]).(bucket := map[]);
      var next := Next(p, ss[0]);
      AnyBucket(next, ss[1..], Next(q, ss[0]).bucket);
      assert next.(bucket := Next(q, ss[0]).bucket) == Next(q, ss[0]);
    }
  }

  /** wg.Wait has returned. */
  predicate AllGone(p: Pool) {
    p.closed && forall w | 0 <= w < |p.workers| :: p.workers[w].Gone?
  }

  // ---------------------------------------------------------------- accounting

  function Holds(k: Worker, x: nat): nat {
    if (k.Uploading? || k.Recording?) && k.x == x then 1 else 0
  }

  /** How many workers are at file `x`. */
  function HeldBy(ws: seq<Worker>, x: nat): nat {
    if ws == [] then 0 else HeldBy(ws[..|ws| - 1], x) + Holds(ws[|ws| - 1], x)
  }

  lemma {:induction false} HeldByUpdate(ws: seq<Worker>, w: nat, k: Worker, x: nat)
    requires w < |ws|
    ensures HeldBy(ws[w := k], x) + Holds(ws[w], x) == HeldBy(ws, x) + Holds(k, x)
    decreases |ws|
  {
    var n := |ws| - 1;
    if w < n {
      HeldByUpdate(ws[..n], w, k, x);
      assert ws[w := k][..n] == ws[..n][w := k];
    } else {
      assert ws[w := k][..n] == ws[..n];
    }
  }

  lemma {:induction false} HeldAtLeast(ws: seq<Worker>, w: nat, x: nat)
    requires w < |ws|
    ensures HeldBy(ws, x) >= Holds(ws[w], x)
    decreases |ws|
  {
    if w < |ws| - 1 { HeldAtLeast(ws[..|ws| - 1], w, x); }
  }

  function Indexes(done: seq<Finished>): seq<nat> {
    seq(|done|, i requires 0 <= i < |done| => done[i].x)
  }

  /** In how many places file `x` is: unsent, in the channel, at a worker, done. */
  function Places(p: Pool, x: nat): nat {
    (if p.next <= x < |p.names| then 1 else 0) + multiset(p.channel)[x] + HeldBy(p.workers, x) + multiset(Indexes(p.done))[x]
  }

  ghost predicate Accounted(p: Pool) {
    && p.next <= |p.names| == |p.contents|
    && (p.closed ==> p.next == |p.names|)
    && (forall x: nat :: Places(p, x) == if x < |p.names| then 1 else 0)
    && (forall w | 0 <= w < |p.workers| :: p.workers[w].Gone? ==> p.closed && p.channel == [])
  }

  lemma StepPlaces(p: Pool, s: Step, x: nat)
    requires Enabled(p, s) && p.next <= |p.names|
    ensures Places(Next(p, s), x) == Places(p, x)
  {
    match s
    case Receive(w) =>
      HeldByUpdate(p.workers, w, Uploading(p.channel[0]), x);
      assert p.channel == [p.channel[0]] + p.channel[1..];
    case Finish(_, _, _) => FinishPlaces(p, s, x);
    case Record(w) => RecordPlaces(p, s, x);
    case Exit(w) => HeldByUpdate(p.workers, w, Gone, x);
    case _ =>
  }

  lemma FinishPlaces(p: Pool, s: Step, x: nat)
    requires Enabled(p, s) && s.Finish?
    ensures Places(Next(p, s), x) == Places(p, x)
  {
    var y := p.workers[s.w].x;
    HeldByUpdate(p.workers, s.w, if s.ok then Waiting else Recording(y), x);
    assert Indexes(p.done + [Finished(y, true)]) == Indexes(p.done) + [y];
  }

  lemma RecordPlaces(p: Pool, s: Step, x: nat)
    requires Enabled(p, s) && s.Record?
    ensures Places(Next(p, s), x) == Places(p, x)
  {
    var y := p.workers[s.w].x;
    HeldByUpdate(p.workers, s.w, Waiting, x);
    assert Indexes(p.done + [Finished(y, false)]) == Indexes(p.done) + [y];
  }

  lemma StepAccounted(p: Pool, s: Step)
    requires Accounted(p) && Enabled(p, s)
    ensures Accounted(Next(p, s))
  {
    forall x: nat ensures Places(Next(p, s), x) == if x < |p.names| then 1 else 0 {
      StepPlaces(p, s, x);
      assert Places(p, x) == if x < |p.names| then 1 else 0;
    }
  }

  // ---------------------------------------------------------------- errors and objects

  /** The failed ones, in the order in which they were recorded. */
  function Failures(done: seq<Finished>): seq<nat> {
    if done == [] then []
    else
      var n := |done| - 1;
      Failures(done[..n]) + (if done[n].ok then [] else [done[n].x])
  }

  lemma FailuresAppend(done: seq<Finished>, f: Finished)
    ensures Failures(done + [f]) == Failures(done) + (if f.ok then [] else [f.x])
  {
    assert (done + [f])[..|done|] == done;
  }

  predicate Distinct(names: seq<string>) {
    forall i, j | 0 <= i < j < |names| :: names[i] != names[j]
  }

  /** Each file uploaded with success is in the bucket, and the bucket is as before elsewhere. */
  ghost predicate BucketOk(p: Pool, before: map<string, string>) {
    && (forall f | f in p.done && f.ok :: Stored(p, f.x))
    && (forall k | k !in p.names :: (k in p.bucket <==> k in before) && (k in before ==> p.bucket[k] == before[k]))
  }

  ghost predicate Inv(p: Pool, before: map<string, string>) {
    && Accounted(p) && Distinct(p.names) && BucketOk(p, before)
    && p.errors == Failures(p.done)
  }

  lemma StepInv(p: Pool, s: Step, before: map<string, string>)
    requires Inv(p, before) && Enabled(p, s)
    ensures Inv(Next(p, s), before)
  {
    StepAccounted(p, s);
    match s
    case Finish(w, _, _) =>
      FinishKeepsBucket(p, s, before);
      FailuresAppend(p.done, Finished(p.workers[w].x, true));
    case Record(w) => FailuresAppend(p.done, Finished(p.workers[w].x, false));
    case _ =>
  }

  /** A file that a worker holds is not done yet. */
  lemma HeldIsNotDone(p: Pool, w: nat, f: Finished)
    requires Accounted(p) && w < |p.workers| && p.workers[w].Uploading? && f in p.done
    ensures f.x != p.workers[w].x
  {
    var x := p.workers[w].x;
    HeldAtLeast(p.workers, w, x);
    assert Places(p, x) <= 1;
    assert multiset(Indexes(p.done))[x] == 0;
    var i :| 0 <= i < |p.done| && p.done[i] == f;
    assert Indexes(p.done)[i] == f.x && f.x in multiset(Indexes(p.done));
  }

  predicate Stored(p: Pool, x: nat) {
    x < |p.names| && x < |p.contents| && p.names[x] in p.bucket && p.bucket[p.names[x]] == p.contents[x]
  }

  /** The object a worker writes is not that of a file done earlier. */
  lemma FinishKeepsStored(p: Pool, s: Step, x: nat)
    requires Distinct(p.names) && Enabled(p, s) && s.Finish? && Stored(p, x) && x != p.workers[s.w].x
    ensures Stored(Next(p, s), x)
  {
    var y := p.workers[s.w].x;
    assert p.names[x] != p.names[y];
  }

  lemma FinishStores(p: Pool, s: Step)
    requires Enabled(p, s) && s.Finish? && s.ok
    ensures Stored(Next(p, s), p.workers[s.w].x)
  {
  }

  lemma FinishKeepsForeign(p: Pool, s: Step, k: string)
    requires Enabled(p, s) && s.Finish? && k !in p.names
    ensures k in Next(p, s).bucket <==> k in p.bucket
    ensures k in p.bucket ==> Next(p, s).bucket[k] == p.bucket[k]
  {
    assert p.names[p.workers[s.w].x] in p.names;
  }

  lemma FinishKeepsBucket(p: Pool, s: Step, before: map<string, string>)
    requires Inv(p, before) && Enabled(p, s) && s.Finish?
    ensures BucketOk(Next(p, s), before)
  {
    var q := Next(p, s);
    forall f | f in q.done && f.ok ensures Stored(q, f.x) {
      if f in p.done {
        HeldIsNotDone(p, s.w, f);
        FinishKeepsStored(p, s, f.x);
      } else {
        FinishStores(p, s);
      }
    }
    forall k | k !in q.names
      ensures (k in q.bucket <==> k in before) && (k in before ==> q.bucket[k] == before[k])
    {
      FinishKeepsForeign(p, s, k);
    }
  }

  lemma {:induction false} RunInv(p: Pool, ss: seq<Step>, q: Pool, before: map<string, string>)
    requires Inv(p, before) && Runs(p, ss, q)
    ensures Inv(q, before) && q.names == p.names && q.contents == p.contents
    decreases |ss|
  {
    if ss != [] {
      StepInv(p, ss[0], before);
      RunInv(Next(p, ss[0]), ss[1..], q, before);
    }
  }

  lemma {:induction false} NobodyHolds(ws: seq<Worker>, x: nat)
    requires forall w | 0 <= w < |ws| :: ws[w].Waiting? || ws[w].Gone?
    ensures HeldBy(ws, x) == 0
    decreases |ws|
  {
    if ws != [] { NobodyHolds(ws[..|ws| - 1], x); }
  }

  lemma StartInv(names: seq<string>, contents: seq<string>, capacity: nat, workers: nat, bucket: map<string, string>)
    requires Distinct(names) && |names| == |contents|
    ensures Inv(Start(names, contents, capacity, workers, bucket), bucket)
  {
    var p := Start(names, contents, capacity, workers, bucket);
    forall x: nat ensures Places(p, x) == if x < |names| then 1 else 0 {
      NobodyHolds(p.workers, x);
    }
  }

  // ---------------------------------------------------------------- what a run amounts to

  /** At every step each file is unsent, in the channel, at one worker or done, and in one of these
      only. */
  lemma EveryFileIsSomewhere(names: seq<string>, contents: seq<string>, capacity: nat, workers: nat,
                             bucket: map<string, string>, ss: seq<Step>, q: Pool)
    requires Distinct(names) && |names| == |contents|
    requires Runs(Start(names, contents, capacity, workers, bucket), ss, q)
    ensures forall x: nat :: Places(q, x) == if x < |names| then 1 else 0
  {
    StartInv(names, contents, capacity, workers, bucket);
    RunInv(Start(names, contents, capacity, workers, bucket), ss, q, bucket);
  }

  lemma {:induction false} FailureIsDone(done: seq<Finished>, x: nat)
    ensures x in Failures(done) <==> Finished(x, false) in done
  {
    if done != [] {
      var n := |done| - 1;
      FailureIsDone(done[..n], x);
      assert done == done[..n] + [done[n]];
    }
  }

  /** When the pool is done every file has been tried exactly once. Errors holds exactly the failed
      ones; the others are in the bucket, and nothing but the files' own objects was touched. */
  lemma PoolResult(names: seq<string>, contents: seq<string>, capacity: nat, workers: nat,
                   bucket: map<string, string>, ss: seq<Step>, q: Pool)
    requires Distinct(names) && |names| == |contents| && workers > 0
    requires Runs(Start(names, contents, capacity, workers, bucket), ss, q) && AllGone(q)
    ensures forall x: nat :: multiset(Indexes(q.done))[x] == if x < |names| then 1 else 0
    ensures q.errors == Failures(q.done)
    ensures forall x | 0 <= x < |names| && x !in q.errors :: names[x] in q.bucket && q.bucket[names[x]] == contents[x]
    ensures forall k | k !in names :: (k in q.bucket <==> k in bucket) && (k in bucket ==> q.bucket[k] == bucket[k])
  {
    var p := Start(names, contents, capacity, workers, bucket);
    StartInv(names, contents, capacity, workers, bucket);
    RunInv(p, ss, q, bucket);
    RunKeepsCrew(p, ss, q);
    assert q.workers[0].Gone?;
    forall x: nat ensures multiset(Indexes(q.done))[x] == if x < |names| then 1 else 0 {
      NobodyHolds(q.workers, x);
      assert Places(q, x) == if x < |names| then 1 else 0;
    }
    forall x | 0 <= x < |names| && x !in q.errors ensures names[x] in q.bucket && q.bucket[names[x]] == contents[x] {
      assert x in multiset(Indexes(q.done));
      var i :| 0 <= i < |q.done| && Indexes(q.done)[i] == x;
      FailureIsDone(q.done, x);
      assert q.done[i] in q.done && q.done[i].ok;
    }
  }

  lemma {:induction false} RunKeepsCrew(p: Pool, ss: seq<Step>, q: Pool)
    requires Runs(p, ss, q)
    ensures |q.workers| == |p.workers| && q.capacity == p.capacity
    decreases |ss|
  {
    if ss != [] { RunKeepsCrew(Next(p, ss[0]), ss[1..], q); }
  }

  // ---------------------------------------------------------------- progress

  function Rank(k: Worker): nat {
    match k
    case Waiting => 1
    case Uploading(_) => 4
    case Recording(_) => 2
    case Gone => 0
  }

  function Ranks(ws: seq<Worker>): nat {
    if ws == [] then 0 else Ranks(ws[..|ws| - 1]) + Rank(ws[|ws| - 1])
  }

  lemma {:induction false} RanksUpdate(ws: seq<Worker>, w: nat, k: Worker)
    requires w < |ws|
    ensures Ranks(ws[w := k]) + Rank(ws[w]) == Ranks(ws) + Rank(k)
    decreases |ws|
  {
    var n := |ws| - 1;
    if w < n {
      RanksUpdate(ws[..n], w, k);
      assert ws[w := k][..n] == ws[..n][w := k];
    } else {
      assert ws[w := k][..n] == ws[..n];
    }
  }

  function Work(p: Pool): int {
    5 * (|p.names| - p.next) + 4 * |p.channel| + Ranks(p.workers) + (if p.closed then 0 else 1)
  }

  /** Every step brings the pool closer to its end. */
  lemma StepLowersWork(p: Pool, s: Step)
    requires Enabled(p, s) && p.next <= |p.names|
    ensures 0 <= Work(Next(p, s)) < Work(p)
  {
    match s
    case Receive(w) => RanksUpdate(p.workers, w, Uploading(p.channel[0]));
    case Finish(w, ok, _) => RanksUpdate(p.workers, w, if ok then Waiting else Recording(p.workers[w].x));
    case Record(w) => RanksUpdate(p.workers, w, Waiting);
    case Exit(w) => RanksUpdate(p.workers, w, Gone);
    case _ =>
  }

  /** Until all workers have returned, some step is possible: the pool never deadlocks. */
  lemma NeverDeadlocked(names: seq<string>, contents: seq<string>, capacity: nat, workers: nat,
                        bucket: map<string, string>, ss: seq<Step>, q: Pool) returns (s: Step)
    requires Distinct(names) && |names| == |contents| && capacity > 0 && workers > 0
    requires Runs(Start(names, contents, capacity, workers, bucket), ss, q) && !AllGone(q)
    ensures Enabled(q, s) && 0 <= Work(Next(q, s)) < Work(q)
  {
    var p := Start(names, contents, capacity, workers, bucket);
    StartInv(names, contents, capacity, workers, bucket);
    RunInv(p, ss, q, bucket);
    RunKeepsCrew(p, ss, q);
    var w: nat := 0;
    if q.closed {
      w :| w < |q.workers| && !q.workers[w].Gone?;
    }
    match q.workers[w] {
      case Uploading(x) =>
        HeldAtLeast(q.workers, w, x);
        assert Places(q, x) == if x < |names| then 1 else 0;
        s := Finish(w, false, None);
      case Recording(_) => s := Record(w);
      case Waiting =>
        if q.channel != [] { s := Receive(w); }
        else if q.closed { s := Exit(w); }
        else if q.next < |names| { s := Send; }
        else { s := Close; }
    }
    StepLowersWork(q, s);
  }

  /** Nothing has failed so far. */
  predicate Unfailed(p: Pool) {
    p.errors == [] && forall w | 0 <= w < |p.workers| :: !p.workers[w].Recording?
  }

  /** A step that fails nothing. */
  lemma GoodStep(p: Pool) returns (s: Step)
    requires Accounted(p) && Unfailed(p) && p.capacity > 0 && |p.workers| > 0 && !AllGone(p)
    ensures Enabled(p, s) && Unfailed(Next(p, s)) && 0 <= Work(Next(p, s)) < Work(p)
  {
    var w: nat := 0;
    if p.closed {
      w :| w < |p.workers| && !p.workers[w].Gone?;
    }
    match p.workers[w] {
      case Uploading(x) =>
        HeldAtLeast(p.workers, w, x);
        assert Places(p, x) == if x < |p.names| then 1 else 0;
        s := Finish(w, true, Some(p.contents[x]));
      case Waiting =>
        if p.channel != [] { s := Receive(w); }
        else if p.closed { s := Exit(w); }
        else if p.next < |p.names| { s := Send; }
        else { s := Close; }
    }
    StepLowersWork(p, s);
  }

  /** Every upload can come to a good end. */
  lemma {:induction false} CanSucceed(p: Pool) returns (ss: seq<Step>, q: Pool)
    requires Accounted(p) && Unfailed(p) && p.capacity > 0 && |p.workers| > 0 && 0 <= Work(p)
    ensures Runs(p, ss, q) && AllGone(q) && q.errors == []
    decreases Work(p)
  {
    if AllGone(p) {
      ss, q := [], p;
    } else {
      var s := GoodStep(p);
      StepAccounted(p, s);
      ss, q := CanSucceed(Next(p, s));
      assert ([s] + ss)[1..] == ss;
      ss := [s] + ss;
    }
  }

  lemma UploadCanSucceed(names: seq<string>, contents: seq<string>, capacity: nat, workers: nat, bucket: map<string, string>)
    returns (ss: seq<Step>, q: Pool)
    requires Distinct(names) && |names| == |contents| && capacity > 0 && workers > 0
    ensures Runs(Start(names, contents, capacity, workers, bucket), ss, q) && AllGone(q) && q.errors == []
  {
    StartInv(names, contents, capacity, workers, bucket);
    ss, q := CanSucceed(Start(names, contents, capacity, workers, bucket));
  }
}
