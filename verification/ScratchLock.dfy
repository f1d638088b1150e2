/** The directory that Fragment makes for a video acts as a lock on the video's scratch files,
    and as a lock that nobody can ever take again once its holder has failed. */
module ScratchLock {
  import opened Basics
  import D = Delivery
  import DI = DeliveryInvariant
  import A = Attempts
  import opened System
  import opened Guarantees

  // ---------------------------------------------------------------- mutual exclusion

  /** At most one attempt a video is between its Mkdir and the removal of the directory. While it
      is, the directory holds only what its own Encode wrote; and whatever was uploaded, ever, was
      produced by the attempt that uploaded it. */
  lemma DirectoryIsLock(width: nat, enabled: bool, disk: A.Disk, ls: seq<Label>, t: State)
    requires Reached(width, enabled, disk, ls, t)
    ensures forall a, b | 0 <= a < |t.j.attempts| && 0 <= b < |t.j.attempts| && a != b
                          && A.Holding(t.j.attempts[a].phase) && A.Holding(t.j.attempts[b].phase) ::
              t.j.attempts[a].video != t.j.attempts[b].video
    ensures forall a | 0 <= a < |t.j.attempts| && A.Holding(t.j.attempts[a].phase) ::
              var v := t.j.attempts[a].video;
              v in t.j.disk.dirs && forall f | f in t.j.disk.dirs[v] :: t.j.disk.dirs[v][f] == a
    ensures forall w | w in t.j.writes :: w.producer == w.uploader
  {
    ReachedInv(width, enabled, disk, ls, t);
    forall a | 0 <= a < |t.j.attempts| && A.Holding(t.j.attempts[a].phase)
      ensures var v := t.j.attempts[a].video;
              v in t.j.disk.dirs && forall f | f in t.j.disk.dirs[v] :: t.j.disk.dirs[v][f] == a
    {
      assert A.HolderOk(t.j, a);
    }
  }

  /** Same directory contents and same fragmented file for a video. */
  predicate SameFiles(d: A.Disk, e: A.Disk, v: string) {
    && (v in d.dirs <==> v in e.dirs) && (v in d.dirs ==> e.dirs[v] == d.dirs[v])
    && (v in d.frag <==> v in e.frag) && (v in d.frag ==> e.frag[v] == d.frag[v])
  }

  /** Whoever changes a video's directory or fragmented file is working on that video and holds
      the directory, before the change or from it on. */
  lemma OnlyTheHolderTouches(width: nat, enabled: bool, disk: A.Disk, ls: seq<Label>, t: State, l: Label, v: string)
    requires Reached(width, enabled, disk, ls, t) && Enabled(t, l)
    requires !SameFiles(t.j.disk, Next(t, l).j.disk, v)
    ensures l.Call? && var a := t.d.workers[l.w].attempt;
            && a < |t.j.attempts| && a < |Next(t, l).j.attempts| && t.j.attempts[a].video == v
            && (A.Holding(t.j.attempts[a].phase) || (v !in t.j.disk.dirs && A.Holding(Next(t, l).j.attempts[a].phase)))
  {
    OnlyMediaTouches(t, l);
    MediaTouchesOwnVideo(t.j, t.d.workers[l.w].attempt, l.c.m, v);
  }

  lemma OnlyMediaTouches(s: State, l: Label)
    requires Enabled(s, l) && Next(s, l).j.disk != s.j.disk
    ensures l.Call? && l.c.Media?
    ensures l.w < |s.d.workers| && s.d.workers[l.w].Busy?
    ensures A.MediaEnabled(s.j, s.d.workers[l.w].attempt, l.c.m)
    ensures Next(s, l).j == A.MediaNext(s.j, s.d.workers[l.w].attempt, l.c.m)
  {
  }

  lemma MediaTouchesOwnVideo(j: A.State, a: nat, c: A.MediaCall, v: string)
    requires A.MediaEnabled(j, a, c)
    requires !SameFiles(j.disk, A.MediaDisk(j, a, c), v)
    ensures j.attempts[a].video == v
    ensures A.Holding(j.attempts[a].phase) || (v !in j.disk.dirs && A.Holding(A.MediaGoes(j.attempts[a], c)))
  {
  }

  // ---------------------------------------------------------------- leftover directories

  /** The directory exists and no attempt is going to remove it. */
  ghost predicate Abandoned(j: A.State, v: string) {
    v in j.disk.dirs && forall a | 0 <= a < |j.attempts| && A.Holding(j.attempts[a].phase) :: j.attempts[a].video != v
  }

  /** The call fails the attempt while it holds the directory, or fails to remove the directory. */
  predicate LeavesDirectory(j: A.State, a: nat, c: A.Call, v: string)
    requires A.Enabled(j, a, c)
  {
    && j.attempts[a].video == v
    && match c
       case Media(FragmentDone(r)) => r.Fault?
       case Media(EncodeDone(r)) => r.Fault?
       case Media(UploadDone(r)) => r.Fault?
       case Media(Remove(r, _)) => r.Fault? && j.attempts[a].phase.RemovingDirectory?
       case _ => false
  }

  /** Exactly those calls turn a video's directory into a leftover. */
  lemma AbandonedExactlyByFailure(j: A.State, a: nat, c: A.Call, v: string)
    requires A.Inv(j) && A.Enabled(j, a, c) && !Abandoned(j, v)
    ensures Abandoned(A.Next(j, a, c), v) <==> LeavesDirectory(j, a, c, v)
  {
    match c
    case Db(d) => A.DbStaysOutside(j, a, d); DbAbandonsNothing(j, a, d, v);
    case Media(m) => MediaAbandons(j, a, m, v);
  }

  lemma DbAbandonsNothing(j: A.State, a: nat, c: A.DbCall, v: string)
    requires A.Inv(j) && A.DbEnabled(j, a, c)
    ensures Abandoned(A.DbNext(j, a, c), v) <==> Abandoned(j, v)
  {
    A.DbStaysOutside(j, a, c);
    var k := A.DbNext(j, a, c);
    assert forall b | 0 <= b < |j.attempts| :: A.Holding(k.attempts[b].phase) == A.Holding(j.attempts[b].phase)
                                            && k.attempts[b].video == j.attempts[b].video;
  }

  lemma MediaAbandons(j: A.State, a: nat, c: A.MediaCall, v: string)
    requires A.Inv(j) && A.MediaEnabled(j, a, c) && !Abandoned(j, v)
    ensures Abandoned(A.MediaNext(j, a, c), v) <==> LeavesDirectory(j, a, A.Media(c), v)
  {
    var k := A.MediaNext(j, a, c);
    assert A.HolderOk(j, a);
    assert k.attempts[a].video == j.attempts[a].video;
    if LeavesDirectory(j, a, A.Media(c), v) {
      assert A.Holding(j.attempts[a].phase) && !A.Holding(k.attempts[a].phase);
      forall b | 0 <= b < |k.attempts| && A.Holding(k.attempts[b].phase) ensures k.attempts[b].video != v {
        assert b != a;
      }
    } else if v in k.disk.dirs {
      MediaKeepsAHolder(j, a, c, v);
    }
  }

  lemma MediaKeepsAHolder(j: A.State, a: nat, c: A.MediaCall, v: string)
    requires A.Inv(j) && A.MediaEnabled(j, a, c) && !Abandoned(j, v)
    requires v in A.MediaDisk(j, a, c).dirs && !LeavesDirectory(j, a, A.Media(c), v)
    ensures !Abandoned(A.MediaNext(j, a, c), v)
  {
    var k := A.MediaNext(j, a, c);
    if v in j.disk.dirs {
      var b :| 0 <= b < |j.attempts| && A.Holding(j.attempts[b].phase) && j.attempts[b].video == v;
      assert k.attempts[b].video == v && A.Holding(k.attempts[b].phase);
    } else {
      assert k.attempts[a].video == v && A.Holding(k.attempts[a].phase);
    }
  }

  /** The attempt has not made the directory, and can now only fail. */
  predicate Stuck(p: A.Phase) {
    || p.FindingVideo? || p.Inserting? || p.OpeningService? || p.Downloading? || p.MakingDirectory?
    || (A.Marking(p) && p.to != A.Completed)
    || (p.Ended? && p.error != "")
  }

  lemma DbKeepsStuck(j: A.State, a: nat, c: A.DbCall)
    requires A.Inv(j) && j.enabled && A.DbEnabled(j, a, c) && Stuck(j.attempts[a].phase)
    ensures Stuck(A.DbGoes(j, a, c))
  {
    assert A.PhaseOk(j, a);
  }

  lemma MediaKeepsStuck(j: A.State, a: nat, c: A.MediaCall)
    requires A.Inv(j) && A.MediaEnabled(j, a, c) && Stuck(j.attempts[a].phase) && Abandoned(j, j.attempts[a].video)
    ensures Stuck(A.MediaGoes(j.attempts[a], c))
  {
  }

  lemma MediaKeepsAbandoned(j: A.State, a: nat, c: A.MediaCall, v: string)
    requires A.Inv(j) && A.MediaEnabled(j, a, c) && Abandoned(j, v)
    ensures Abandoned(A.MediaNext(j, a, c), v)
  {
    var k := A.MediaNext(j, a, c);
    if j.attempts[a].video == v {
      assert !A.Holding(j.attempts[a].phase);
      assert !A.Holding(A.MediaGoes(j.attempts[a], c)) && k.disk.dirs == j.disk.dirs;
    } else {
      assert v in k.disk.dirs;
    }
  }

  /** All attempts on `v` numbered from `from` on, and all those that were stuck in `s`, are stuck. */
  predicate AllStuck(s: State, t: State, v: string) {
    |s.j.attempts| <= |t.j.attempts|
    && forall a | 0 <= a < |t.j.attempts| && t.j.attempts[a].video == v
                  && (a >= |s.j.attempts| || (s.j.attempts[a].video == v && Stuck(s.j.attempts[a].phase))) ::
         Stuck(t.j.attempts[a].phase)
  }

  lemma StepKeepsAllStuck(o: State, s: State, l: Label, v: string)
    requires Inv(s) && s.j.enabled && Enabled(s, l) && Abandoned(s.j, v) && AllStuck(o, s, v)
    ensures Abandoned(Next(s, l).j, v) && AllStuck(o, Next(s, l), v)
  {
    match l
    case Call(w, c) => CallKeepsAllStuck(o, s, w, c, v);
    case Take(w) => BeginKeepsStuck(s.j, s.payloads[s.d.channel[0].msg], v);
    case _ => assert Next(s, l).j == s.j;
  }

  lemma CallKeepsAllStuck(o: State, s: State, w: nat, c: A.Call, v: string)
    requires Inv(s) && s.j.enabled && Enabled(s, Call(w, c)) && Abandoned(s.j, v) && AllStuck(o, s, v)
    ensures Abandoned(Next(s, Call(w, c)).j, v) && AllStuck(o, Next(s, Call(w, c)), v)
  {
    var a := s.d.workers[w].attempt;
    CallKeepsOthers(s.j, a, c);
    CallKeepsStuck(s.j, a, c, v);
  }

  lemma BeginKeepsStuck(j: A.State, p: A.Payload, v: string)
    requires Abandoned(j, v) && (p.Malformed? ==> p.error != "")
    ensures Abandoned(A.Begin(j, p), v)
    ensures var k := A.Begin(j, p); |k.attempts| == |j.attempts| + 1 && Stuck(k.attempts[|j.attempts|].phase)
  {
  }

  lemma CallKeepsStuck(j: A.State, a: nat, c: A.Call, v: string)
    requires A.Inv(j) && j.enabled && A.Enabled(j, a, c) && Abandoned(j, v)
    ensures Abandoned(A.Next(j, a, c), v)
    ensures a < |A.Next(j, a, c).attempts|
    ensures j.attempts[a].video == v && Stuck(j.attempts[a].phase) ==> Stuck(A.Next(j, a, c).attempts[a].phase)
  {
    match c
    case Db(d) =>
      DbAbandonsNothing(j, a, d, v);
      if Stuck(j.attempts[a].phase) { DbKeepsStuck(j, a, d); }
    case Media(m) =>
      MediaKeepsAbandoned(j, a, m, v);
      if j.attempts[a].video == v && Stuck(j.attempts[a].phase) { MediaKeepsStuck(j, a, m); }
  }

  lemma {:induction false} LeftoverLasts(o: State, s: State, ls: seq<Label>, t: State, v: string)
    requires Inv(s) && s.j.enabled && Runs(s, ls, t) && Abandoned(s.j, v) && AllStuck(o, s, v)
    ensures Abandoned(t.j, v) && AllStuck(o, t, v)
    decreases |ls|
  {
    if ls != [] {
      StepInv(s, ls[0]);
      StepKeepsSettings(s, ls[0]);
      StepKeepsAllStuck(o, s, ls[0], v);
      LeftoverLasts(o, Next(s, ls[0]), ls[1..], t, v);
    }
  }

  /** Attempt `a` works on `v` and starts after `s`, or had not made the directory by then. */
  predicate TooLate(s: State, t: State, a: nat, v: string) {
    && a < |t.j.attempts| && t.j.attempts[a].video == v
    && (a >= |s.j.attempts| || (s.j.attempts[a].video == v && Stuck(s.j.attempts[a].phase)))
  }

  /** The attempt is before its Mkdir. */
  predicate NotThereYet(p: A.Phase) {
    || p == A.FindingVideo || p == A.Inserting || p == A.OpeningService || p == A.Downloading || p == A.MakingDirectory
    || ((p.Reading? || p.Writing?) && p.to == A.Processing)
  }

  /** Once a video's directory is left over it stays for the rest of the run, and no attempt that
      comes too late for it ever completes its row. */
  lemma LeftoverIsAbsorbing(
    width: nat, disk: A.Disk, before: seq<Label>, s: State, ls: seq<Label>, t: State, v: string, a: nat)
    requires Reached(width, true, disk, before, s) && Runs(s, ls, t) && Abandoned(s.j, v)
    ensures v in t.j.disk.dirs && Abandoned(t.j, v)
    ensures a < |t.j.attempts| && t.j.attempts[a].video == v && t.j.attempts[a].job.Some?
            && (a >= |s.j.attempts| || (s.j.attempts[a].video == v && NotThereYet(s.j.attempts[a].phase))) ==>
              && t.j.attempts[a].job.value in t.j.rows
              && t.j.rows[t.j.attempts[a].job.value].status in {A.Pending, A.Processing, A.Failed}
    ensures TooLate(s, t, a, v) && t.j.attempts[a].job.Some? ==>
              t.j.attempts[a].job.value in t.j.rows && t.j.rows[t.j.attempts[a].job.value].status != A.Completed
  {
    ReachedInv(width, true, disk, before, s);
    LeftoverLasts(s, s, ls, t, v);
    RunInv(s, ls, t);
    LateIsNotCompleted(s, t, v, a);
    LateIsInRows(s, t, v, a);
  }

  lemma LateIsInRows(s: State, t: State, v: string, a: nat)
    requires A.Inv(t.j) && AllStuck(s, t, v)
    ensures a < |t.j.attempts| && t.j.attempts[a].video == v && t.j.attempts[a].job.Some?
            && (a >= |s.j.attempts| || (s.j.attempts[a].video == v && NotThereYet(s.j.attempts[a].phase))) ==>
              && t.j.attempts[a].job.value in t.j.rows
              && t.j.rows[t.j.attempts[a].job.value].status in {A.Pending, A.Processing, A.Failed}
  {
    LateIsNotCompleted(s, t, v, a);
  }

  lemma LateIsNotCompleted(s: State, t: State, v: string, a: nat)
    requires A.Inv(t.j) && AllStuck(s, t, v)
    ensures TooLate(s, t, a, v) && t.j.attempts[a].job.Some? ==>
              t.j.attempts[a].job.value in t.j.rows && t.j.rows[t.j.attempts[a].job.value].status != A.Completed
  {
    if TooLate(s, t, a, v) && t.j.attempts[a].job.Some? { StuckIsNotCompleted(t.j, a); }
  }

  /** Nor is a message ever acknowledged on behalf of such an attempt. */
  lemma LeftoverIsNeverAcked(
    width: nat, disk: A.Disk, before: seq<Label>, s: State, ls: seq<Label>, t: State, v: string, m: nat)
    requires Reached(width, true, disk, before, s) && Runs(s, ls, t) && Abandoned(s.j, v)
    requires m in t.d.broker.acked
    ensures !TooLate(s, t, t.d.broker.acked[m], v)
  {
    ReachedInv(width, true, disk, before, s);
    LeftoverLasts(s, s, ls, t, v);
    RunInv(s, ls, t);
    AckedHasEnded(t, m);
    StuckIsNotAcked(s, t, t.d.broker.acked[m], v);
  }

  lemma StuckIsNotAcked(s: State, t: State, a: nat, v: string)
    requires AllStuck(s, t, v) && a < |t.j.attempts| && t.j.attempts[a].phase == A.Ended("")
    ensures !TooLate(s, t, a, v)
  {
  }

  lemma AckedHasEnded(t: State, m: nat)
    requires Linked(t) && m in t.d.broker.acked
    ensures var a := t.d.broker.acked[m]; a < |t.j.attempts| && t.j.attempts[a].phase == A.Ended("")
  {
    assert SettledFor(t, m, t.d.broker.acked[m], true);
  }

  lemma StuckIsNotCompleted(j: A.State, a: nat)
    requires A.Inv(j) && a < |j.attempts| && j.attempts[a].job.Some? && Stuck(j.attempts[a].phase)
    ensures j.attempts[a].job.value in j.rows && j.rows[j.attempts[a].job.value].status != A.Completed
  {
    assert A.PhaseOk(j, a);
    var id := j.attempts[a].job.value;
    assert A.RowOk(j, id);
    LastStatus(j.history[id]);
  }
}
