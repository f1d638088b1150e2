/** What one attempt does to a message that a worker has taken: the job row, the scratch
    directory named by the video id, the upload. Any number of attempts interleave. One
    Call is one call into the database, the file system, a tool or the storage service,
    together with what came of it; the attempt's Phase is the program point between calls. */
module Attempts {
  import opened Basics

  datatype Status = Pending | Processing | Completed | Failed

  /** The columns of a job row that change or matter here. */
  datatype Row = Row(video: string, prefix: string, status: Status, error: string)

  datatype Phase =
    | FindingVideo
    | Inserting
    | Reading(to: Status, error: string)               // updateStatus, before Find
    | Writing(to: Status, error: string, copy: Row)    // updateStatus, before Update
    | OpeningService
    | Downloading
    | MakingDirectory
    | Fragmenting
    | Encoding
    | Uploading
    | RemovingSource
    | RemovingFragments
    | RemovingDirectory
    | Ended(error: string)                             // the result's Error; "" is success

  /** `outputs` are the files Encode left in the directory, `uploaded` those whose upload
      succeeded. */
  datatype Attempt = Attempt(
    video: string, prefix: string, job: Option<nat>, phase: Phase,
    outputs: set<string>, uploaded: set<string>)

  /** Every file is tagged with the attempt that wrote it last. `dirs` holds the output
      directories that exist, each with its files. */
  datatype Disk = Disk(mp4: map<string, nat>, frag: map<string, nat>, dirs: map<string, map<string, nat>>)

  /** One object written to the bucket: by whom, from which file, who produced that file, and whether
      the upload succeeded. A failed upload may still have stored part of the file. */
  datatype Write = Write(uploader: nat, video: string, file: string, producer: nat, complete: bool)

  datatype State = State(
    enabled: bool,                  // Processor.Enabled
    attempts: seq<Attempt>,
    rows: map<nat, Row>,
    history: map<nat, seq<Row>>,    // every value a row ever had, oldest first
    disk: Disk,
    writes: seq<Write>)

  /** What parseJobWorkerMessage makes of a message. */
  datatype Payload = Malformed(error: string) | Job(video: string, prefix: string)

  /** Calls into the two repositories. */
  datatype DbCall =
    | FindVideo(r: Outcome)
    | InsertRow(id: nat, r: Outcome, stored: bool)
    | ReadRow(r: Outcome)
    | WriteRow(r: Outcome)

  /** Calls into the storage service, the scratch disk and the tools. */
  datatype MediaCall =
    | OpenService(r: Outcome)
    | Download(r: Outcome, created: bool)
    | MakeDirectory(r: Outcome)
    | ToolFragment
    | FragmentDone(r: Outcome)
    | ToolEncode(file: string, present: bool)
    | EncodeDone(r: Outcome)
    | CopyFile(file: string, complete: bool)
    | UploadDone(r: Outcome)
    | Remove(r: Outcome, left: set<string>)

  datatype Call = Db(d: DbCall) | Media(m: MediaCall)

  function Init(enabled: bool, disk: Disk): State {
    State(enabled, [], map[], map[], disk, [])
  }

  /** processPayload up to the parse. */
  function Begin(s: State, p: Payload): State {
    s.(attempts := s.attempts + [
      match p
      case Malformed(e) => Attempt("", "", None, Ended(e), {}, {})
      case Job(v, x) => Attempt(v, x, None, FindingVideo, {}, {})])
  }

  /** Calls that a tool or an upload still running makes; they return nothing to the attempt. */
  predicate Running(c: Call) {
    c.Media? && (c.m.ToolFragment? || c.m.ToolEncode? || c.m.CopyFile?)
  }

  predicate RealFault(r: Outcome) { r.Fault? ==> r.text != "" }

  predicate HasRow(s: State, t: Attempt) { t.job.Some? && t.job.value in s.rows && t.job.value in s.history }

  /** process returns an error, so Run goes on to MarkFailed. */
  function Fail(text: string): Phase { Reading(Failed, text) }

  /** Where Run goes once updateStatus has returned. */
  function AfterMark(to: Status, error: string, r: Outcome): Phase {
    match (to, r)
    case (Processing, Done) => OpeningService
    case (Processing, Fault(e)) => Fail("mark processing: " + e)
    case (Failed, Done) => Ended(error)
    case (Failed, Fault(e)) => Ended("processing failed: " + error + " (also could not mark job failed: " + e + ")")
    case (_, Done) => Ended("")
    case (_, Fault(e)) => Ended("processing succeeded but could not mark completed: " + e)
  }

  predicate DbEnabled(s: State, a: nat, c: DbCall) {
    a < |s.attempts| && RealFault(c.r) &&
    var t := s.attempts[a];
    match c
    case FindVideo(_) => t.phase.FindingVideo?
    case InsertRow(id, r, stored) =>
      t.phase.Inserting? && (stored ==> id !in s.rows && id !in s.history) && (r.Done? ==> stored)
    case ReadRow(r) => t.phase.Reading? && t.job.Some? && (r.Done? ==> HasRow(s, t))
    case WriteRow(_) => t.phase.Writing? && HasRow(s, t)
  }

  /** The program point after the call. */
  function DbGoes(s: State, a: nat, c: DbCall): Phase
    requires DbEnabled(s, a, c)
  {
    var t := s.attempts[a];
    match c
    case FindVideo(r) => if r.Done? then Inserting else Ended(r.text)
    case InsertRow(_, r, _) =>
      if r.Fault? then Ended(r.text) else if s.enabled then Reading(Processing, "") else Ended("")
    case ReadRow(r) =>
      if r.Done? then Writing(t.phase.to, t.phase.error, s.rows[t.job.value])
      else AfterMark(t.phase.to, t.phase.error, r)
    case WriteRow(r) => AfterMark(t.phase.to, t.phase.error, r)
  }

  /** The row the call writes, if it writes one, and under which id. */
  function DbWrites(s: State, a: nat, c: DbCall): Option<(nat, Row)>
    requires DbEnabled(s, a, c)
  {
    var t := s.attempts[a];
    match c
    case InsertRow(id, _, true) => Some((id, Row(t.video, t.prefix, Pending, "")))
    case WriteRow(Done) => Some((t.job.value, t.phase.copy.(status := t.phase.to, error := t.phase.error)))
    case _ => None
  }

  function DbNext(s: State, a: nat, c: DbCall): State
    requires DbEnabled(s, a, c)
  {
    var t := s.attempts[a].(phase := DbGoes(s, a, c));
    match DbWrites(s, a, c)
    case None => s.(attempts := s.attempts[a := t])
    case Some((id, row)) =>
      s.(attempts := s.attempts[a := t.(job := Some(id))],
         rows := s.rows[id := row],
         history := s.history[id := (if id in s.history then s.history[id] else []) + [row]])
  }

  predicate MediaEnabled(s: State, a: nat, c: MediaCall) {
    a < |s.attempts| &&
    var t := s.attempts[a];
    match c
    case OpenService(r) => t.phase.OpeningService? && RealFault(r)
    case Download(r, created) => t.phase.Downloading? && RealFault(r) && (r.Done? ==> created)
    case MakeDirectory(r) =>
      t.phase.MakingDirectory? && RealFault(r) && (r.Done? ==> t.video !in s.disk.dirs)
    case ToolFragment => t.phase.Fragmenting?
    case FragmentDone(r) =>
      && t.phase.Fragmenting? && RealFault(r)
      && (r.Done? ==> t.video in s.disk.frag && s.disk.frag[t.video] == a)
    case ToolEncode(_, _) => t.phase.Encoding? && t.video in s.disk.dirs
    case EncodeDone(r) => t.phase.Encoding? && RealFault(r) && t.video in s.disk.dirs
    case CopyFile(f, _) => t.phase.Uploading? && t.video in s.disk.dirs && f in s.disk.dirs[t.video]
    case UploadDone(r) =>
      && t.phase.Uploading? && RealFault(r)
      && (r.Done? ==> t.video in s.disk.dirs && s.disk.dirs[t.video] != map[] && s.disk.dirs[t.video].Keys <= t.uploaded)
    case Remove(r, _) =>
      (t.phase.RemovingSource? || t.phase.RemovingFragments? || t.phase.RemovingDirectory?) && RealFault(r)
  }

  /** The program point after the call. */
  function MediaGoes(t: Attempt, c: MediaCall): Phase {
    match c
    case OpenService(r) => if r.Done? then Downloading else Fail("video service init: " + r.text)
    case Download(r, _) => if r.Done? then MakingDirectory else Fail("download: " + r.text)
    case MakeDirectory(r) => if r.Done? then Fragmenting else Fail("fragment: " + r.text)
    case FragmentDone(r) => if r.Done? then Encoding else Fail("fragment: " + r.text)
    case EncodeDone(r) => if r.Done? then Uploading else Fail("encode: " + r.text)
    case UploadDone(r) => if r.Done? then RemovingSource else Fail("upload: " + r.text)
    case Remove(_, _) =>
      if t.phase.RemovingSource? then RemovingFragments
      else if t.phase.RemovingFragments? then RemovingDirectory
      else Reading(Completed, "")
    case _ => t.phase
  }

  function MediaAttempt(s: State, a: nat, c: MediaCall): Attempt
    requires MediaEnabled(s, a, c)
  {
    var t := s.attempts[a].(phase := MediaGoes(s.attempts[a], c));
    match c
    case EncodeDone(_) => t.(outputs := s.disk.dirs[t.video].Keys)
    case CopyFile(f, true) => t.(uploaded := t.uploaded + {f})
    case _ => t
  }

  /** RemoveAll of a directory either removes it or leaves it with some of its files. */
  function RemoveDirectory(dirs: map<string, map<string, nat>>, video: string, r: Outcome, left: set<string>)
    : map<string, map<string, nat>>
  {
    if r.Done? then dirs - {video}
    else if video in dirs then
      var kept := map f | f in dirs[video] && f in left :: dirs[video][f];
      dirs[video := kept]
    else dirs
  }

  function MediaDisk(s: State, a: nat, c: MediaCall): Disk
    requires MediaEnabled(s, a, c)
  {
    var t := s.attempts[a];
    var d := s.disk;
    match c
    case Download(_, created) => if created then d.(mp4 := d.mp4[t.video := a]) else d
    case MakeDirectory(r) => if r.Done? then d.(dirs := d.dirs[t.video := map[]]) else d
    case ToolFragment => d.(frag := d.frag[t.video := a])
    case ToolEncode(f, present) =>
      var files := d.dirs[t.video];
      d.(dirs := d.dirs[t.video := if present then files[f := a] else files - {f}])
    case Remove(r, left) =>
      if t.phase.RemovingSource? then (if r.Done? then d.(mp4 := d.mp4 - {t.video}) else d)
      else if t.phase.RemovingFragments? then (if r.Done? then d.(frag := d.frag - {t.video}) else d)
      else d.(dirs := RemoveDirectory(d.dirs, t.video, r, left))
    case _ => d
  }

  function MediaNext(s: State, a: nat, c: MediaCall): State
    requires MediaEnabled(s, a, c)
  {
    s.(attempts := s.attempts[a := MediaAttempt(s, a, c)],
       disk := MediaDisk(s, a, c),
       writes := if c.CopyFile?
                 then s.writes + [Write(a, s.attempts[a].video, c.file,
                                        s.disk.dirs[s.attempts[a].video][c.file], c.complete)]
                 else s.writes)
  }

  predicate Enabled(s: State, a: nat, c: Call) {
    match c
    case Db(d) => DbEnabled(s, a, d)
    case Media(m) => MediaEnabled(s, a, m)
  }

  function Next(s: State, a: nat, c: Call): State
    requires Enabled(s, a, c)
  {
    match c
    case Db(d) => DbNext(s, a, d)
    case Media(m) => MediaNext(s, a, m)
  }

  // ---------------------------------------------------------------- rows

  function Statuses(h: seq<Row>): seq<Status> {
    seq(|h|, i requires 0 <= i < |h| => h[i].status)
  }

  /** The four ways a row can be when nothing has marked it Completed. */
  predicate Unfinished(h: seq<Row>) {
    var q := Statuses(h);
    q == [Pending] || q == [Pending, Processing] || q == [Pending, Failed] || q == [Pending, Processing, Failed]
  }

  predicate ErrorsMatch(h: seq<Row>) {
    forall i | 0 <= i < |h| :: h[i].error != "" <==> h[i].status == Failed
  }

  predicate RowOk(s: State, id: nat)
    requires id in s.rows && id in s.history
  {
    var h := s.history[id];
    && (Unfinished(h) || Statuses(h) == [Pending, Processing, Completed])
    && (!s.enabled ==> Statuses(h) == [Pending])
    && h[|h| - 1] == s.rows[id]
    && ErrorsMatch(h)
  }

  predicate Marking(p: Phase) { p.Reading? || p.Writing? }

  predicate InPipeline(p: Phase) {
    p.OpeningService? || p.Downloading? || p.MakingDirectory? || Holding(p)
  }

  /** Between a successful Mkdir and the removal of the directory in Finish. */
  predicate Holding(p: Phase) {
    p.Fragmenting? || p.Encoding? || p.Uploading? || p.RemovingSource? || p.RemovingFragments? || p.RemovingDirectory?
  }

  /** The program point of an attempt fixes the statuses its row has gone through. */
  predicate PhaseOk(s: State, a: nat)
    requires a < |s.attempts|
  {
    var t := s.attempts[a];
    var p := t.phase;
    && (t.job.Some? ==> HasRow(s, t) && s.rows[t.job.value].video == t.video && s.rows[t.job.value].prefix == t.prefix)
    && (p.FindingVideo? || p.Inserting? ==> t.job.None?)
    && (Marking(p) || InPipeline(p) ==> s.enabled && t.job.Some?)
    && (p == Ended("") ==> t.job.Some?)
    && (t.job.Some? ==>
          var q := Statuses(s.history[t.job.value]);
          && (InPipeline(p) ==> q == [Pending, Processing])
          && (Marking(p) ==>
                match p.to
                case Pending => false
                case Processing => p.error == "" && q == [Pending]
                case Completed => p.error == "" && q == [Pending, Processing]
                case Failed => p.error != "" && (q == [Pending] || q == [Pending, Processing]))
          && (p.Writing? ==> p.copy == s.rows[t.job.value])
          && (p.Ended? && p.error != "" ==> Unfinished(s.history[t.job.value]))
          && (p == Ended("") && s.enabled ==> q == [Pending, Processing, Completed]))
  }

  ghost predicate RowsOk(s: State) {
    && s.rows.Keys == s.history.Keys
    && (forall id | id in s.rows :: RowOk(s, id))
    && (forall a | 0 <= a < |s.attempts| :: PhaseOk(s, a))
    && JobsDistinct(s)
  }

  predicate JobsDistinct(s: State) {
    forall a, b | 0 <= a < b < |s.attempts| && s.attempts[a].job.Some? && s.attempts[b].job.Some? ::
      s.attempts[a].job != s.attempts[b].job
  }

  lemma BeginKeepsRows(s: State, p: Payload)
    requires RowsOk(s) && (p.Malformed? ==> p.error != "")
    ensures RowsOk(Begin(s, p))
  {
    var t := Begin(s, p);
    forall id | id in t.rows ensures RowOk(t, id) { assert RowOk(s, id); }
    forall a | 0 <= a < |t.attempts| ensures PhaseOk(t, a) {
      if a < |s.attempts| { assert PhaseOk(s, a); }
    }
  }

  lemma StatusesAppend(h: seq<Row>, r: Row)
    ensures Statuses(h + [r]) == Statuses(h) + [r.status]
  {
  }

  lemma OthersKeepPhase(s: State, a: nat, c: DbCall, b: nat)
    requires RowsOk(s) && DbEnabled(s, a, c) && b < |s.attempts| && b != a
    ensures PhaseOk(DbNext(s, a, c), b)
  {
    assert PhaseOk(s, b) && PhaseOk(s, a);
    assert DbNext(s, a, c).attempts[b] == s.attempts[b];
  }

  /** A mark extends a legal history to a legal one. */
  lemma MarkedStatuses(h: seq<Row>, row: Row)
    requires match row.status
             case Pending => false
             case Processing => Statuses(h) == [Pending]
             case Completed => Statuses(h) == [Pending, Processing]
             case Failed => Statuses(h) == [Pending] || Statuses(h) == [Pending, Processing]
    ensures row.status == Processing ==> Statuses(h + [row]) == [Pending, Processing]
    ensures row.status == Completed ==> Statuses(h + [row]) == [Pending, Processing, Completed]
    ensures row.status == Failed ==> Unfinished(h + [row])
  {
    StatusesAppend(h, row);
  }

  lemma WriteKeepsRow(s: State, a: nat, r: Outcome)
    requires RowsOk(s) && DbEnabled(s, a, WriteRow(r))
    ensures RowOk(DbNext(s, a, WriteRow(r)), s.attempts[a].job.value)
  {
    assert PhaseOk(s, a);
    var p, id := s.attempts[a].phase, s.attempts[a].job.value;
    assert RowOk(s, id);
    var h, row := s.history[id], p.copy.(status := p.to, error := p.error);
    if r.Done? {
      MarkedStatuses(h, row);
      assert DbNext(s, a, WriteRow(r)).history[id] == h + [row];
    }
  }

  lemma WriteKeepsPhase(s: State, a: nat, r: Outcome)
    requires RowsOk(s) && DbEnabled(s, a, WriteRow(r))
    ensures PhaseOk(DbNext(s, a, WriteRow(r)), a)
  {
    assert PhaseOk(s, a);
    var p, id := s.attempts[a].phase, s.attempts[a].job.value;
    assert RowOk(s, id);
    var h, row := s.history[id], p.copy.(status := p.to, error := p.error);
    if r.Done? {
      MarkedStatuses(h, row);
      assert DbNext(s, a, WriteRow(r)).history[id] == h + [row];
    }
  }

  lemma ReadKeepsPhase(s: State, a: nat, r: Outcome)
    requires RowsOk(s) && DbEnabled(s, a, ReadRow(r))
    ensures PhaseOk(DbNext(s, a, ReadRow(r)), a)
  {
    assert PhaseOk(s, a);
  }

  lemma InsertKeepsRow(s: State, a: nat, c: DbCall)
    requires RowsOk(s) && DbEnabled(s, a, c) && c.InsertRow?
    ensures PhaseOk(DbNext(s, a, c), a)
    ensures c.stored ==> RowOk(DbNext(s, a, c), c.id)
  {
    assert PhaseOk(s, a);
    var row := Row(s.attempts[a].video, s.attempts[a].prefix, Pending, "");
    assert Statuses([row]) == [Pending];
  }

  /** An attempt writes only the row it inserted. */
  lemma DbKeepsOwn(s: State, a: nat, c: DbCall)
    requires RowsOk(s) && DbEnabled(s, a, c)
    ensures PhaseOk(DbNext(s, a, c), a)
    ensures match DbWrites(s, a, c)
            case Some((id, _)) =>
              RowOk(DbNext(s, a, c), id) && (s.attempts[a].job == Some(id) || (id !in s.rows && s.attempts[a].job.None?))
            case None => true
  {
    assert PhaseOk(s, a);
    match c {
      case FindVideo(_) =>
      case InsertRow(_, _, _) => InsertKeepsRow(s, a, c);
      case ReadRow(r) => ReadKeepsPhase(s, a, r);
      case WriteRow(r) =>
        WriteKeepsPhase(s, a, r);
        if r.Done? { WriteKeepsRow(s, a, r); }
    }
  }

  /** A database call appends to the history of its own row at most, and leaves all others alone. */
  lemma DbTouchesOwnRow(s: State, a: nat, c: DbCall, id: nat)
    requires RowsOk(s) && DbEnabled(s, a, c) && id in s.rows
    ensures var n := DbNext(s, a, c);
            && id in s.history && id in n.history && id in n.rows && s.history[id] <= n.history[id]
            && (s.attempts[a].job != Some(id) ==> n.rows[id] == s.rows[id])
  {
    DbKeepsOwn(s, a, c);
  }

  lemma DbKeepsRows(s: State, a: nat, c: DbCall)
    requires RowsOk(s) && DbEnabled(s, a, c)
    ensures RowsOk(DbNext(s, a, c))
  {
    var t := DbNext(s, a, c);
    var w := DbWrites(s, a, c);
    DbKeepsOwn(s, a, c);
    forall id | id in t.rows ensures RowOk(t, id) {
      if !(w.Some? && w.value.0 == id) { assert RowOk(s, id); }
    }
    forall b | 0 <= b < |t.attempts| ensures PhaseOk(t, b) {
      if b != a { OthersKeepPhase(s, a, c, b); }
    }
    DbKeepsJobsDistinct(s, a, c);
  }

  lemma DbKeepsJobsDistinct(s: State, a: nat, c: DbCall)
    requires RowsOk(s) && DbEnabled(s, a, c)
    ensures JobsDistinct(DbNext(s, a, c))
  {
    DbKeepsOwn(s, a, c);
    forall b | 0 <= b < |s.attempts| && s.attempts[b].job.Some? ensures s.attempts[b].job.value in s.rows {
      assert PhaseOk(s, b);
    }
  }

  lemma MediaKeepsPhase(s: State, a: nat, c: MediaCall)
    requires RowsOk(s) && MediaEnabled(s, a, c)
    ensures PhaseOk(MediaNext(s, a, c), a)
  {
    assert PhaseOk(s, a);
    var p := MediaGoes(s.attempts[a], c);
    assert InPipeline(p) || (Marking(p) && p.Reading? &&
      ((p.to == Failed && p.error != "") || (p.to == Completed && p.error == "")));
  }

  lemma MediaKeepsRows(s: State, a: nat, c: MediaCall)
    requires RowsOk(s) && MediaEnabled(s, a, c)
    ensures RowsOk(MediaNext(s, a, c))
  {
    var t := MediaNext(s, a, c);
    assert t.attempts[a].job == s.attempts[a].job;
    forall id | id in t.rows ensures RowOk(t, id) { assert RowOk(s, id); }
    forall b | 0 <= b < |t.attempts| ensures PhaseOk(t, b) {
      if b == a { MediaKeepsPhase(s, a, c); } else { assert PhaseOk(s, b); }
    }
  }

  // ---------------------------------------------------------------- disk

  /** The directory holds only what its holder's own Encode wrote, and the fragmented file it
      encodes is its own. */
  predicate HolderOk(s: State, a: nat)
    requires a < |s.attempts|
  {
    var t := s.attempts[a];
    Holding(t.phase) ==>
      && t.video in s.disk.dirs
      && (forall f | f in s.disk.dirs[t.video] :: s.disk.dirs[t.video][f] == a)
      && (t.phase.Encoding? || t.phase.Uploading? ==> t.video in s.disk.frag && s.disk.frag[t.video] == a)
      && (t.phase.Uploading? ==> t.outputs == s.disk.dirs[t.video].Keys)
  }

  /** The attempt has been through a successful upload. */
  predicate PastUpload(p: Phase) {
    || p.RemovingSource? || p.RemovingFragments? || p.RemovingDirectory?
    || (Marking(p) && p.to == Completed)
  }

  predicate UploadsOk(s: State, a: nat)
    requires a < |s.attempts|
  {
    var t := s.attempts[a];
    && (forall f | f in t.uploaded :: Write(a, t.video, f, a, true) in s.writes)
    && (PastUpload(t.phase) || (t.phase == Ended("") && s.enabled) ==> t.outputs != {} && t.outputs <= t.uploaded)
  }

  ghost predicate OneHolder(s: State) {
    forall a, b | 0 <= a < b < |s.attempts| && Holding(s.attempts[a].phase) && Holding(s.attempts[b].phase) ::
      s.attempts[a].video != s.attempts[b].video
  }

  ghost predicate DiskOk(s: State) {
    && OneHolder(s)
    && (forall a | 0 <= a < |s.attempts| :: HolderOk(s, a))
    && (forall a | 0 <= a < |s.attempts| :: UploadsOk(s, a))
    && (forall w | w in s.writes :: w.producer == w.uploader)
  }

  lemma BeginKeepsDisk(s: State, p: Payload)
    requires DiskOk(s) && (p.Malformed? ==> p.error != "")
    ensures DiskOk(Begin(s, p))
  {
    var t := Begin(s, p);
    forall a | 0 <= a < |t.attempts| ensures HolderOk(t, a) && UploadsOk(t, a) {
      if a < |s.attempts| { assert HolderOk(s, a) && UploadsOk(s, a); }
    }
  }

  lemma DbStaysOutside(s: State, a: nat, c: DbCall)
    requires RowsOk(s) && DbEnabled(s, a, c)
    ensures !Holding(s.attempts[a].phase) && !Holding(DbGoes(s, a, c))
    ensures PastUpload(DbGoes(s, a, c)) || (DbGoes(s, a, c) == Ended("") && s.enabled) ==> PastUpload(s.attempts[a].phase)
  {
    assert PhaseOk(s, a);
  }

  /** A database call neither makes nor unmakes a holder, and touches no file. */
  lemma DbKeepsDisk(s: State, a: nat, c: DbCall)
    requires DiskOk(s) && RowsOk(s) && DbEnabled(s, a, c)
    ensures DiskOk(DbNext(s, a, c))
  {
    var t := DbNext(s, a, c);
    DbStaysOutside(s, a, c);
    assert t.disk == s.disk && t.writes == s.writes;
    forall b | 0 <= b < |t.attempts| ensures HolderOk(t, b) && UploadsOk(t, b) {
      assert HolderOk(s, b) && UploadsOk(s, b);
      if b != a {
        assert t.attempts[b] == s.attempts[b];
      } else {
        assert !Holding(t.attempts[a].phase);
      }
    }
    forall b, d | 0 <= b < d < |t.attempts| && Holding(t.attempts[b].phase) && Holding(t.attempts[d].phase)
      ensures t.attempts[b].video != t.attempts[d].video
    {
      assert b != a && d != a;
    }
  }

  /** Only the holder changes what is under the video's directory or its fragmented file. */
  lemma OthersKeepHolding(s: State, a: nat, c: MediaCall, b: nat)
    requires DiskOk(s) && MediaEnabled(s, a, c) && b < |s.attempts| && b != a
    ensures HolderOk(MediaNext(s, a, c), b)
  {
    assert HolderOk(s, a) && HolderOk(s, b);
    var v := s.attempts[b].video;
    if Holding(s.attempts[b].phase) {
      assert Holding(s.attempts[a].phase) ==> s.attempts[a].video != v;
      var d := MediaDisk(s, a, c);
      assert v in d.dirs && d.dirs[v] == s.disk.dirs[v];
      assert v in s.disk.frag ==> v in d.frag && d.frag[v] == s.disk.frag[v];
    }
  }

  lemma OwnKeepsHolding(s: State, a: nat, c: MediaCall)
    requires DiskOk(s) && MediaEnabled(s, a, c)
    ensures HolderOk(MediaNext(s, a, c), a)
  {
    assert HolderOk(s, a);
    var v := s.attempts[a].video;
    var p := MediaGoes(s.attempts[a], c);
    if Holding(p) {
      var d := MediaDisk(s, a, c);
      assert v in d.dirs && forall f | f in d.dirs[v] :: d.dirs[v][f] == a;
    }
  }

  lemma OthersKeepUploads(s: State, a: nat, c: MediaCall, b: nat)
    requires DiskOk(s) && MediaEnabled(s, a, c) && b < |s.attempts| && b != a
    ensures UploadsOk(MediaNext(s, a, c), b)
  {
    assert UploadsOk(s, b);
    assert s.writes <= MediaNext(s, a, c).writes;
  }

  lemma OwnKeepsUploads(s: State, a: nat, c: MediaCall)
    requires DiskOk(s) && RowsOk(s) && MediaEnabled(s, a, c)
    ensures UploadsOk(MediaNext(s, a, c), a)
  {
    assert UploadsOk(s, a) && HolderOk(s, a);
    var t := MediaNext(s, a, c);
    assert s.writes <= t.writes;
    match c
    case CopyFile(f, complete) =>
      assert t.writes[|s.writes|] == Write(a, s.attempts[a].video, f, a, complete);
    case EncodeDone(_) =>
    case UploadDone(_) =>
    case _ => assert t.attempts[a].outputs == s.attempts[a].outputs && t.attempts[a].uploaded == s.attempts[a].uploaded;
  }

  lemma MediaKeepsOneHolder(s: State, a: nat, c: MediaCall)
    requires DiskOk(s) && MediaEnabled(s, a, c)
    ensures OneHolder(MediaNext(s, a, c))
  {
    var t := MediaNext(s, a, c);
    var p := MediaGoes(s.attempts[a], c);
    assert Holding(p) ==> Holding(s.attempts[a].phase) || s.attempts[a].video !in s.disk.dirs;
    forall b | 0 <= b < |s.attempts| && b != a && Holding(p) && Holding(s.attempts[b].phase)
      ensures s.attempts[a].video != s.attempts[b].video
    {
      assert HolderOk(s, b);
    }
  }

  lemma MediaKeepsDisk(s: State, a: nat, c: MediaCall)
    requires DiskOk(s) && RowsOk(s) && MediaEnabled(s, a, c)
    ensures DiskOk(MediaNext(s, a, c))
  {
    var t := MediaNext(s, a, c);
    forall b | 0 <= b < |t.attempts| ensures HolderOk(t, b) && UploadsOk(t, b) {
      if b == a {
        OwnKeepsHolding(s, a, c);
        OwnKeepsUploads(s, a, c);
      } else {
        OthersKeepHolding(s, a, c, b);
        OthersKeepUploads(s, a, c, b);
      }
    }
    MediaKeepsOneHolder(s, a, c);
    forall w | w in t.writes ensures w.producer == w.uploader {
      if w !in s.writes { assert HolderOk(s, a); }
    }
  }

  // ---------------------------------------------------------------- all of it

  ghost predicate Inv(s: State) { RowsOk(s) && DiskOk(s) }

  lemma InitInv(enabled: bool, disk: Disk)
    ensures Inv(Init(enabled, disk))
  {
  }

  lemma BeginInv(s: State, p: Payload)
    requires Inv(s) && (p.Malformed? ==> p.error != "")
    ensures Inv(Begin(s, p))
  {
    BeginKeepsRows(s, p);
    BeginKeepsDisk(s, p);
  }

  lemma CallInv(s: State, a: nat, c: Call)
    requires Inv(s) && Enabled(s, a, c)
    ensures Inv(Next(s, a, c))
  {
    match c
    case Db(d) => DbKeepsRows(s, a, d); DbKeepsDisk(s, a, d);
    case Media(m) => MediaKeepsRows(s, a, m); MediaKeepsDisk(s, a, m);
  }
}
