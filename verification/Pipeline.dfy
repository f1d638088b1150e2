/** One attempt as the sequential code it is: repository, service, scratch disk, tools, upload and
    processor as objects that the calls change in place. Every outcome of an outside call is a
    parameter. Each method says which trace of the transition system of module Attempts it is; the
    interleaving of several attempts is the business of that module. */
module Pipeline {
  import opened Basics
  import opened Attempts
  import opened Traces
  import UT = UploadTrace
  import P = UploadPool
  import U = Upload

  // ---------------------------------------------------------------- stores

  class JobRepository {
    var rows: map<nat, Row>
    ghost var history: map<nat, seq<Row>>

    constructor ()
      ensures rows == map[] && history == map[]
    {
      rows, history := map[], map[];
    }

    ghost predicate Matches(s: State)
      reads this
    {
      s.rows == rows && s.history == history && rows.Keys == history.Keys
    }

    /** An insert that reports an error may have stored the row all the same. */
    method Insert(id: nat, row: Row, r: Outcome, stored: bool)
      requires id !in rows && id !in history && rows.Keys == history.Keys
      modifies this
      ensures rows.Keys == history.Keys
      ensures rows == (if stored then old(rows)[id := row] else old(rows))
      ensures history == (if stored then old(history)[id := [] + [row]] else old(history))
    {
      if stored {
        rows := rows[id := row];
        history := history[id := [] + [row]];
      }
    }

    method Find(id: nat, r: Outcome) returns (found: Result<Row>)
      ensures found == if r.Fault? then Err("find job: " + r.text)
                       else if id in rows then Ok(rows[id])
                       else Err("job does not exist")
    {
      if r.Fault? { return Err("find job: " + r.text); }
      if id !in rows { return Err("job does not exist"); }
      return Ok(rows[id]);
    }

    /** An update that reports an error has not changed the row. */
    method Update(id: nat, row: Row, r: Outcome)
      modifies this
      ensures rows == (if r.Done? then old(rows)[id := row] else old(rows))
      ensures history == if r.Done?
                         then old(history)[id := (if id in old(history) then old(history)[id] else []) + [row]]
                         else old(history)
    {
      if r.Done? {
        rows := rows[id := row];
        history := history[id := (if id in history then history[id] else []) + [row]];
      }
    }
  }

  class ScratchDisk {
    var mp4: map<string, nat>
    var frag: map<string, nat>
    var dirs: map<string, map<string, nat>>

    constructor ()
      ensures Look() == Disk(map[], map[], map[])
    {
      mp4, frag, dirs := map[], map[], map[];
    }

    function Look(): Disk
      reads this
    {
      Disk(mp4, frag, dirs)
    }

    /** os.Mkdir: fails if the directory exists, or for a reason of its own. */
    method Mkdir(video: string, r: Outcome) returns (made: Outcome)
      modifies this`dirs
      ensures made.Done? <==> r.Done? && video !in old(dirs)
      ensures dirs == if made.Done? then old(dirs)[video := map[]] else old(dirs)
      ensures r.Fault? ==> made == r
      ensures made.Fault? ==> made.text == (if r.Fault? then r.text else "file exists")
    {
      if r.Fault? { return r; }
      if video in dirs { return Fault("file exists"); }
      dirs := dirs[video := map[]];
      return Done;
    }

    /** os.RemoveAll of the source file, the fragmented file or the directory. */
    method RemoveAll(k: nat, video: string, r: Outcome, left: set<string>)
      modifies this
      ensures Look() == Removed(old(Look()), video, k, r, left)
    {
      if k == 0 {
        if r.Done? { mp4 := mp4 - {video}; }
      } else if k == 1 {
        if r.Done? { frag := frag - {video}; }
      } else {
        dirs := RemoveDirectory(dirs, video, r, left);
      }
    }
  }

  class Bucket {
    var objects: map<string, string>
    ghost var writes: seq<Write>

    constructor ()
      ensures objects == map[] && writes == []
    {
      objects, writes := map[], [];
    }
  }

  // ---------------------------------------------------------------- JobService.updateStatus

  /** What the two calls of one updateStatus come to. */
  datatype Mark = Mark(read: Outcome, write: Outcome)

  /** The result of marking a row that exists. */
  function MarkResult(m: Mark): Outcome { if m.read.Fault? then Fault("find job: " + m.read.text) else m.write }

  class JobService {
    const repository: JobRepository

    constructor (repository: JobRepository)
      ensures this.repository == repository
    {
      this.repository := repository;
    }

    /** On success the row has the new status and error, on failure no row has changed. */
    method UpdateStatus(id: nat, to: Status, error: string, m: Mark, ghost s: State, ghost a: nat)
      returns (r: Outcome, ghost cs: seq<Call>, ghost t: State)
      requires RealFault(m.write)
      requires repository.Matches(s) && AtPhase(s, a, Reading(to, error)) && s.attempts[a].job == Some(id)
      modifies repository
      ensures RealFault(r)
      ensures r == if m.read.Done? && id !in old(repository.rows) then Fault("job does not exist") else MarkResult(m)
      ensures Trace(s, a, cs, t) && repository.Matches(t) && t.disk == s.disk && t.writes == s.writes
      ensures t.attempts == s.attempts[a := s.attempts[a].(phase := AfterMark(to, error, r))]
      ensures t.rows.Keys == s.rows.Keys
      ensures repository.rows == if r.Done?
                                 then old(repository.rows)[id := old(repository.rows)[id].(status := to, error := error)]
                                 else old(repository.rows)
    {
      var found := repository.Find(id, m.read);
      ghost var c1 := Db(ReadRow(if found.Ok? then Done else Fault(found.text)));
      ghost var s1 := Next(s, a, c1);
      TraceAppend(s, a, [], s, c1);
      cs, t := [] + [c1], s1;
      if found.Err? { return Fault(found.text), cs, t; }
      var job := found.value;
      job := job.(status := to);
      job := job.(error := error);
      repository.Update(id, job, m.write);
      ghost var c2 := Db(WriteRow(m.write));
      assert s1.attempts[a].job == Some(id) && HasRow(s1, s1.attempts[a]);
      TraceAppend(s, a, cs, t, c2);
      t := Next(s1, a, c2);
      cs := cs + [c2];
      r := m.write;
      assert t.attempts == s.attempts[a := s.attempts[a].(phase := AfterMark(to, error, r))];
    }
  }

  // ---------------------------------------------------------------- VideoService

  class VideoService {
    const disk: ScratchDisk
    const video: string
    const a: nat            // the attempt this service works for

    constructor (disk: ScratchDisk, video: string, a: nat)
      ensures this.disk == disk && this.video == video && this.a == a
    {
      this.disk, this.video, this.a := disk, video, a;
    }

    ghost predicate Ready(s: State, p: Phase)
      reads this, disk
    {
      AtPhase(s, a, p) && s.attempts[a].video == video && s.disk == disk.Look()
    }

    method Download(r: Outcome, created: bool, ghost s: State) returns (ghost cs: seq<Call>, ghost t: State)
      requires RealFault(r) && (r.Done? ==> created) && Ready(s, Downloading)
      modifies disk`mp4
      ensures Reaches(s, a, cs, t, if r.Done? then MakingDirectory else Fail("download: " + r.text))
      ensures disk.mp4 == if created then old(disk.mp4)[video := a] else old(disk.mp4)
      ensures t.disk == disk.Look() && t.writes == s.writes
    {
      if created { disk.mp4 := disk.mp4[video := a]; }
      var c := MediaCall.Download(r, created);
      MediaStep(s, a, [], s, Downloading, c);
      cs, t := [] + [Media(c)], MediaNext(s, a, c);
    }

    /** os.Mkdir is the lock; only then may the tool write the fragmented file. */
    method Fragment(mkdir: Outcome, written: bool, tool: Outcome, ghost s: State)
      returns (r: Outcome, ghost cs: seq<Call>, ghost t: State)
      requires RealFault(mkdir) && RealFault(tool) && (tool.Done? ==> written) && Ready(s, MakingDirectory)
      modifies disk`dirs, disk`frag
      ensures RealFault(r)
      ensures r.Done? <==> mkdir.Done? && video !in old(disk.dirs) && tool.Done?
      ensures var made := mkdir.Done? && video !in old(disk.dirs);
              && disk.dirs == (if made then old(disk.dirs)[video := map[]] else old(disk.dirs))
              && disk.frag == (if made && written then old(disk.frag)[video := a] else old(disk.frag))
      ensures Reaches(s, a, cs, t, if r.Done? then Encoding else Fail("fragment: " + r.text))
      ensures t.disk == disk.Look() && t.writes == s.writes
    {
      r := disk.Mkdir(video, mkdir);
      var c := MediaCall.MakeDirectory(r);
      MkdirStep(s, a, r);
      MediaStep(s, a, [], s, MakingDirectory, c);
      cs, t := [] + [Media(c)], MediaNext(s, a, c);
      if r.Done? {
        ghost var more: seq<Call>;
        ghost var u: State;
        more, u := RunFragmenter(written, tool, t);
        ReachesConcat(s, a, cs, t, Fragmenting, more, u, if tool.Done? then Encoding else Fail("fragment: " + tool.text));
        r, cs, t := tool, cs + more, u;
      }
    }

    /** mp4fragment, which may have written its target even if it fails. */
    method RunFragmenter(written: bool, tool: Outcome, ghost s: State) returns (ghost cs: seq<Call>, ghost t: State)
      requires RealFault(tool) && (tool.Done? ==> written) && Ready(s, Fragmenting)
      modifies disk`frag
      ensures disk.frag == if written then old(disk.frag)[video := a] else old(disk.frag)
      ensures Reaches(s, a, cs, t, if tool.Done? then Encoding else Fail("fragment: " + tool.text))
      ensures t.disk == disk.Look() && t.writes == s.writes
    {
      cs, t := [], s;
      if written {
        disk.frag := disk.frag[video := a];
        MediaStep(s, a, cs, t, Fragmenting, ToolFragment);
        cs, t := cs + [Media(ToolFragment)], MediaNext(t, a, ToolFragment);
      }
      MediaStep(s, a, cs, t, Fragmenting, FragmentDone(tool));
      cs, t := cs + [Media(FragmentDone(tool))], MediaNext(t, a, FragmentDone(tool));
    }

    /** `files` are the tool's writes and deletions in the output directory, in order. What is there
        afterwards is theirs; other directories are as before. */
    method Encode(files: seq<(string, bool)>, tool: Outcome, ghost s: State) returns (ghost cs: seq<Call>, ghost t: State)
      requires RealFault(tool) && Ready(s, Encoding) && video in disk.dirs
      modifies disk`dirs
      ensures Reaches(s, a, cs, t, if tool.Done? then Uploading else Fail("encode: " + tool.text))
      ensures t.disk == disk.Look() && t.writes == s.writes
      ensures disk.dirs == old(disk.dirs)[video := Encoded(old(disk.dirs)[video], files, |files|, a)]
    {
      cs, t := [], s;
      ghost var inside := disk.dirs[video];
      assert disk.dirs == disk.dirs[video := inside];
      for i := 0 to |files|
        invariant Reaches(s, a, cs, t, Encoding)
        invariant t.disk == disk.Look() && t.writes == s.writes
        invariant disk.dirs == old(disk.dirs)[video := Encoded(inside, files, i, a)]
      {
        var (f, present) := files[i];
        var c := ToolEncode(f, present);
        ToolStep(t, a, f, present);
        MediaStep(s, a, cs, t, Encoding, c);
        cs, t := cs + [Media(c)], MediaNext(t, a, c);
        var now := disk.dirs[video];
        disk.dirs := disk.dirs[video := if present then now[f := a] else now - {f}];
      }
      MediaStep(s, a, cs, t, Encoding, EncodeDone(tool));
      cs, t := cs + [Media(EncodeDone(tool))], MediaNext(t, a, EncodeDone(tool));
    }

    /** Every artifact is attempted, whatever came of the ones before it. */
    method Finish(rs: seq<Outcome>, left: set<string>, ghost s: State)
      returns (errs: seq<string>, ghost cs: seq<Call>, ghost t: State)
      requires |rs| == 3 && (forall r | r in rs :: RealFault(r)) && Ready(s, RemovingSource)
      modifies disk
      ensures Reaches(s, a, cs, t, Reading(Completed, ""))
      ensures t.disk == disk.Look() && t.writes == s.writes
      ensures errs == [] <==> forall i | 0 <= i < 3 :: rs[i].Done?
      ensures disk.mp4 == if rs[0].Done? then old(disk.mp4) - {video} else old(disk.mp4)
      ensures disk.frag == if rs[1].Done? then old(disk.frag) - {video} else old(disk.frag)
      ensures disk.dirs == RemoveDirectory(old(disk.dirs), video, rs[2], left)
    {
      errs, cs, t := [], [], s;
      for k := 0 to 3
        invariant Reaches(s, a, cs, t, RemovalPoint(k))
        invariant t.disk == disk.Look() && t.writes == s.writes
        invariant disk.Look() == RemovedUpTo(old(disk.Look()), video, rs, left, k)
        invariant errs == [] <==> forall i | 0 <= i < k :: rs[i].Done?
      {
        var c := Remove(rs[k], left);
        assert rs[k] in rs;
        RemoveStep(t, a, k, rs[k], left);
        MediaStep(s, a, cs, t, RemovalPoint(k), c);
        cs, t := cs + [Media(c)], MediaNext(t, a, c);
        if rs[k].Fault? { errs := errs + [rs[k].text]; }
        disk.RemoveAll(k, video, rs[k], left);
      }
      RemovedAll(old(disk.Look()), video, rs, left);
    }
  }

  /** What removing the k-th target, with result `r`, makes of the disk. */
  function Removed(d: Disk, video: string, k: nat, r: Outcome, left: set<string>): Disk {
    if k == 0 then (if r.Done? then d.(mp4 := d.mp4 - {video}) else d)
    else if k == 1 then (if r.Done? then d.(frag := d.frag - {video}) else d)
    else d.(dirs := RemoveDirectory(d.dirs, video, r, left))
  }

  function RemovedUpTo(d: Disk, video: string, rs: seq<Outcome>, left: set<string>, k: nat): Disk
    requires k <= |rs|
  {
    if k == 0 then d else Removed(RemovedUpTo(d, video, rs, left, k - 1), video, k - 1, rs[k - 1], left)
  }

  lemma RemovedAll(d: Disk, video: string, rs: seq<Outcome>, left: set<string>)
    requires |rs| == 3
    ensures RemovedUpTo(d, video, rs, left, 3)
         == Disk(if rs[0].Done? then d.mp4 - {video} else d.mp4,
                 if rs[1].Done? then d.frag - {video} else d.frag,
                 RemoveDirectory(d.dirs, video, rs[2], left))
  {
    var d1 := Removed(d, video, 0, rs[0], left);
    var d2 := Removed(d1, video, 1, rs[1], left);
    assert RemovedUpTo(d, video, rs, left, 1) == d1;
    assert RemovedUpTo(d, video, rs, left, 2) == d2;
  }

  lemma RemoveStep(t: State, a: nat, k: nat, r: Outcome, left: set<string>)
    requires AtPhase(t, a, RemovalPoint(k)) && k < 3 && RealFault(r)
    ensures MediaEnabled(t, a, Remove(r, left)) && MediaGoes(t.attempts[a], Remove(r, left)) == RemovalPoint(k + 1)
    ensures MediaNext(t, a, Remove(r, left)).disk == Removed(t.disk, t.attempts[a].video, k, r, left)
    ensures MediaNext(t, a, Remove(r, left)).writes == t.writes
  {
  }

  lemma MkdirStep(t: State, a: nat, r: Outcome)
    requires AtPhase(t, a, MakingDirectory) && RealFault(r) && (r.Done? ==> t.attempts[a].video !in t.disk.dirs)
    ensures MediaEnabled(t, a, MakeDirectory(r))
    ensures MediaGoes(t.attempts[a], MakeDirectory(r)) == if r.Done? then Fragmenting else Fail("fragment: " + r.text)
    ensures MediaNext(t, a, MakeDirectory(r)).disk
         == if r.Done? then t.disk.(dirs := t.disk.dirs[t.attempts[a].video := map[]]) else t.disk
    ensures MediaNext(t, a, MakeDirectory(r)).writes == t.writes
  {
  }

  lemma ToolStep(t: State, a: nat, f: string, present: bool)
    requires AtPhase(t, a, Encoding) && t.attempts[a].video in t.disk.dirs
    ensures MediaEnabled(t, a, ToolEncode(f, present)) && MediaGoes(t.attempts[a], ToolEncode(f, present)) == Encoding
    ensures var v := t.attempts[a].video; var now := t.disk.dirs[v];
            MediaNext(t, a, ToolEncode(f, present)).disk
            == t.disk.(dirs := t.disk.dirs[v := if present then now[f := a] else now - {f}])
    ensures MediaNext(t, a, ToolEncode(f, present)).writes == t.writes
  {
  }

  /** A directory after the first `n` writes and deletions of attempt `a`. */
  function Encoded(inside: map<string, nat>, files: seq<(string, bool)>, n: nat, a: nat): map<string, nat>
    requires n <= |files|
  {
    if n == 0 then inside
    else
      var now := Encoded(inside, files, n - 1, a);
      if files[n - 1].1 then now[files[n - 1].0 := a] else now - {files[n - 1].0}
  }

  /** The files that are left of them in a directory that was empty. */
  function LeftBy(files: seq<(string, bool)>, n: nat): set<string>
    requires n <= |files|
  {
    if n == 0 then {}
    else if files[n - 1].1 then LeftBy(files, n - 1) + {files[n - 1].0}
    else LeftBy(files, n - 1) - {files[n - 1].0}
  }

  lemma {:induction false} EncodedFiles(files: seq<(string, bool)>, n: nat, a: nat)
    requires n <= |files|
    ensures Encoded(map[], files, n, a).Keys == LeftBy(files, n)
  {
    if n > 0 { EncodedFiles(files, n - 1, a); }
  }

  /** Where Finish is before its k-th target. */
  function RemovalPoint(k: nat): Phase {
    if k == 0 then RemovingSource else if k == 1 then RemovingFragments
    else if k == 2 then RemovingDirectory else Reading(Completed, "")
  }

  // ---------------------------------------------------------------- Processor

  /** What comes of every outside call of one Run. `files` is what the encoder does in the output
      directory, `tree` what Walk finds there, `steps` the interleaving of the uploads. */
  datatype Script = Script(
    processing: Mark, open: Outcome, download: Outcome, created: bool,
    mkdir: Outcome, written: bool, fragment: Outcome,
    files: seq<(string, bool)>, encode: Outcome,
    tree: U.Node, clientOpens: bool, cpus: nat, steps: seq<P.Step>,
    removals: seq<Outcome>, left: set<string>, completed: Mark, failed: Mark)

  predicate RealMark(m: Mark) { RealFault(m.write) }

  predicate RealScript(x: Script) {
    && RealMark(x.processing) && RealFault(x.open) && RealFault(x.download) && (x.download.Done? ==> x.created)
    && RealFault(x.mkdir) && RealFault(x.fragment) && (x.fragment.Done? ==> x.written) && RealFault(x.encode)
    && |x.removals| == 3 && (forall r | r in x.removals :: RealFault(r))
    && RealMark(x.completed) && RealMark(x.failed)
  }

  /** Where the uploads go: the directory and the prefix, and how many workers upload. */
  datatype Target = Target(path: string, prefix: string, concurrency: int)

  const DEFAULT_UPLOAD_CONCURRENCY := 4

  /** The pool, over any bucket; nothing it does depends on that. */
  function PoolOf(x: Script, g: Target, bucket: map<string, string>): P.Pool {
    U.PoolFor(g.path, g.prefix, x.tree, g.concurrency, x.cpus, bucket)
  }

  /** ProcessUpload gets as far as to start the pool. */
  predicate Starts(x: Script) { U.Readable(x.tree) && U.Leaves(x.tree) != [] && x.clientOpens }

  /** What Walk finds is what the encoder has left, and the uploads run to their end. */
  predicate RealUpload(x: Script, g: Target) {
    && U.Walkable(g.path, x.tree)
    && (U.Readable(x.tree) ==> UT.FilesOf(x.tree) == LeftBy(x.files, |x.files|))
    && (Starts(x) ==> var q := P.After(PoolOf(x, g, map[]), x.steps); q.Some? && P.AllGone(q.value))
  }

  /** The directory can be read, is not empty, and every file of it is uploaded. */
  predicate UploadsAll(x: Script, g: Target) {
    Starts(x) && var q := P.After(PoolOf(x, g, map[]), x.steps); q.Some? && q.value.errors == []
  }

  /** The media work succeeds: every step does, and the directory was not there. */
  predicate WorkSucceeds(x: Script, g: Target, taken: bool) {
    && x.open.Done? && x.download.Done? && !taken && x.mkdir.Done? && x.fragment.Done?
    && x.encode.Done? && UploadsAll(x, g)
  }

  class Processor {
    const service: JobService
    const repository: JobRepository
    const disk: ScratchDisk
    const bucket: Bucket
    const storage: string
    const uploadConcurrency: int

    constructor (service: JobService, disk: ScratchDisk, bucket: Bucket, storage: string, uploadConcurrency: int)
      ensures this.service == service && this.repository == service.repository && this.disk == disk && this.bucket == bucket
      ensures this.storage == storage && this.uploadConcurrency == uploadConcurrency
    {
      this.service, this.repository, this.disk, this.bucket := service, service.repository, disk, bucket;
      this.storage, this.uploadConcurrency := storage, uploadConcurrency;
    }

    function TargetOf(video: string, prefix: string): (g: Target)
      ensures g.concurrency >= 1 && (uploadConcurrency <= 0 ==> g.concurrency == 4)
    {
      Target(storage + "/" + video, prefix,
             if uploadConcurrency <= 0 then DEFAULT_UPLOAD_CONCURRENCY else uploadConcurrency)
    }

    /** The stores hold what the state of the transition system says, and `id` and `video` are those
        of attempt `a`. */
    ghost predicate Matches(s: State, a: nat, id: nat, video: string)
      reads repository, disk, bucket
    {
      && repository.Matches(s) && s.disk == disk.Look() && s.writes == bucket.writes
      && a < |s.attempts| && s.attempts[a].job == Some(id) && s.attempts[a].video == video
      && HasRow(s, s.attempts[a])
    }

    ghost predicate Wired()
    {
      repository == service.repository
    }

    /** Nil exactly if the directory could be read, has files, and all of them were uploaded; then the
        bucket holds them under their names. In any case no other object is touched. */
    method UploadOutputs(a: nat, video: string, prefix: string, x: Script, ghost s: State)
      returns (r: Outcome, ghost cs: seq<Call>, ghost t: State)
      requires RealUpload(x, TargetOf(video, prefix)) && AtPhase(s, a, Uploading) && s.attempts[a].video == video
      requires s.disk == disk.Look() && s.writes == bucket.writes
      requires video in disk.dirs && disk.dirs[video].Keys == LeftBy(x.files, |x.files|)
      modifies bucket
      ensures RealFault(r)
      ensures r.Done? <==> UploadsAll(x, TargetOf(video, prefix))
      ensures r.Done? ==> U.Copied(storage + "/" + video, prefix, x.tree, old(bucket.objects), bucket.objects)
      ensures U.OnlyItsObjects(storage + "/" + video, prefix, x.tree, old(bucket.objects), bucket.objects)
      ensures Reaches(s, a, cs, t, if r.Done? then RemovingSource else Fail("upload: " + r.text))
      ensures t.disk == disk.Look() && t.writes == bucket.writes
    {
      var g := TargetOf(video, prefix);
      var upload := new U.VideoUpload(g.path, g.prefix);
      ghost var end := PoolOf(x, g, bucket.objects);
      if Starts(x) { end := EndOfPool(x, g, bucket.objects); }
      ghost var before := bucket.objects;
      U.HasFilesExactly(x.tree);
      var after;
      r, after := upload.ProcessUpload(x.tree, x.clientOpens, g.concurrency, x.cpus, bucket.objects, x.steps, end);
      cs, t := UploadCalls(a, video, x, g, before, end, r, s);
      bucket.objects := after;
      bucket.writes := t.writes;
    }

    ghost predicate For(work: VideoService, a: nat, video: string) {
      work.disk == disk && work.video == video && work.a == a
    }

    /** Up to the downloaded source. */
    method Fetch(work: VideoService, a: nat, video: string, x: Script, ghost s: State)
      returns (r: Outcome, ghost cs: seq<Call>, ghost t: State)
      requires RealScript(x) && AtPhase(s, a, OpeningService) && s.attempts[a].video == video
      requires For(work, a, video) && s.disk == disk.Look()
      modifies disk`mp4
      ensures RealFault(r)
      ensures r.Done? <==> x.open.Done? && x.download.Done?
      ensures Reaches(s, a, cs, t, if r.Done? then MakingDirectory else Fail(r.text))
      ensures t.disk == disk.Look() && t.writes == s.writes
    {
      ghost var more: seq<Call>;
      ghost var u: State;
      MediaStep(s, a, [], s, OpeningService, OpenService(x.open));
      cs, t := [] + [Media(OpenService(x.open))], MediaNext(s, a, OpenService(x.open));
      if x.open.Fault? { return Fault("video service init: " + x.open.text), cs, t; }

      more, u := work.Download(x.download, x.created, t);
      r := if x.download.Done? then Done else Fault("download: " + x.download.text);
      ReachesConcat(s, a, cs, t, Downloading, more, u, if r.Done? then MakingDirectory else Fail(r.text));
      cs, t := cs + more, u;
    }

    /** Up to and including Fragment: succeeds exactly if every step does and the directory was not
        there, and then it is there, empty. */
    method Prepare(work: VideoService, a: nat, video: string, x: Script, ghost s: State)
      returns (r: Outcome, ghost cs: seq<Call>, ghost t: State)
      requires RealScript(x) && AtPhase(s, a, OpeningService) && s.attempts[a].video == video
      requires For(work, a, video) && s.disk == disk.Look()
      modifies disk
      ensures RealFault(r)
      ensures r.Done? <==> x.open.Done? && x.download.Done? && x.mkdir.Done? && video !in old(disk.dirs) && x.fragment.Done?
      ensures Reaches(s, a, cs, t, if r.Done? then Encoding else Fail(r.text))
      ensures t.disk == disk.Look() && t.writes == s.writes
      ensures r.Done? ==> disk.dirs == old(disk.dirs)[video := map[]]
    {
      r, cs, t := Fetch(work, a, video, x, s);
      if r.Done? {
        ghost var more: seq<Call>;
        ghost var u: State;
        r, more, u := work.Fragment(x.mkdir, x.written, x.fragment, t);
        r := if r.Done? then Done else Fault("fragment: " + r.text);
        ReachesConcat(s, a, cs, t, MakingDirectory, more, u, if r.Done? then Encoding else Fail(r.text));
        cs, t := cs + more, u;
      }
    }

    /** From Encode to Finish. A clean-up failure is logged and does not fail the job. */
    method Package(work: VideoService, a: nat, video: string, prefix: string, x: Script, ghost s: State)
      returns (r: Outcome, ghost cs: seq<Call>, ghost t: State)
      requires RealScript(x) && RealUpload(x, TargetOf(video, prefix))
      requires AtPhase(s, a, Encoding) && s.attempts[a].video == video
      requires For(work, a, video) && video in disk.dirs && disk.dirs[video] == map[]
      requires s.disk == disk.Look() && s.writes == bucket.writes
      modifies disk, bucket
      ensures RealFault(r)
      ensures r.Done? <==> x.encode.Done? && UploadsAll(x, TargetOf(video, prefix))
      ensures r.Done? ==> U.Copied(storage + "/" + video, prefix, x.tree, old(bucket.objects), bucket.objects)
      ensures Reaches(s, a, cs, t, if r.Done? then Reading(Completed, "") else Fail(r.text))
      ensures t.disk == disk.Look() && t.writes == bucket.writes
      ensures video in disk.dirs <==> r.Fault? || x.removals[2].Fault?
    {
      ghost var more: seq<Call>;
      ghost var u: State;
      cs, t := work.Encode(x.files, x.encode, s);
      if x.encode.Fault? { return Fault("encode: " + x.encode.text), cs, t; }

      EncodedFiles(x.files, |x.files|, a);
      r, more, u := UploadOutputs(a, video, prefix, x, t);
      ReachesConcat(s, a, cs, t, Uploading, more, u, if r.Done? then RemovingSource else Fail("upload: " + r.text));
      cs, t := cs + more, u;
      if r.Fault? { return Fault("upload: " + r.text), cs, t; }

      var errs;
      errs, more, u := work.Finish(x.removals, x.left, t);
      ReachesConcat(s, a, cs, t, RemovingSource, more, u, Reading(Completed, ""));
      cs, t := cs + more, u;
    }

    /** The media work between MarkProcessing and the terminal status, each step only after the one
        before it has succeeded. */
    method Produce(a: nat, video: string, prefix: string, x: Script, ghost s: State)
      returns (r: Outcome, ghost cs: seq<Call>, ghost t: State)
      requires RealScript(x) && RealUpload(x, TargetOf(video, prefix))
      requires AtPhase(s, a, OpeningService) && s.attempts[a].video == video
      requires s.disk == disk.Look() && s.writes == bucket.writes
      modifies disk, bucket
      ensures RealFault(r)
      ensures r.Done? <==> WorkSucceeds(x, TargetOf(video, prefix), video in old(disk.dirs))
      ensures r.Done? ==> U.Copied(storage + "/" + video, prefix, x.tree, old(bucket.objects), bucket.objects)
      ensures Reaches(s, a, cs, t, if r.Done? then Reading(Completed, "") else Fail(r.text))
      ensures t.disk == disk.Look() && t.writes == bucket.writes
    {
      ghost var more: seq<Call>;
      ghost var u: State;
      var work := new VideoService(disk, video, a);
      r, cs, t := Prepare(work, a, video, x, s);
      if r.Done? {
        r, more, u := Package(work, a, video, prefix, x, t);
        ReachesConcat(s, a, cs, t, Encoding, more, u, if r.Done? then Reading(Completed, "") else Fail(r.text));
        cs, t := cs + more, u;
      }
    }

    /** Mark the row Processing, then do the media work. */
    method Process(a: nat, id: nat, video: string, prefix: string, x: Script, ghost s: State)
      returns (r: Outcome, ghost cs: seq<Call>, ghost t: State)
      requires Wired() && RealScript(x) && RealUpload(x, TargetOf(video, prefix))
      requires Matches(s, a, id, video) && AtPhase(s, a, Reading(Processing, ""))
      modifies repository, disk, bucket
      ensures RealFault(r)
      ensures r.Done? <==>
                MarkResult(x.processing).Done? && WorkSucceeds(x, TargetOf(video, prefix), video in old(disk.dirs))
      ensures r.Done? ==> U.Copied(storage + "/" + video, prefix, x.tree, old(bucket.objects), bucket.objects)
      ensures Trace(s, a, cs, t) && Matches(t, a, id, video)
      ensures AtPhase(t, a, if r.Done? then Reading(Completed, "") else Fail(r.text))
    {
      r, cs, t := service.UpdateStatus(id, Processing, "", x.processing, s, a);
      if r.Fault? { return Fault("mark processing: " + r.text), cs, t; }
      ghost var more: seq<Call>;
      ghost var u: State;
      r, more, u := Produce(a, video, prefix, x, t);
      TraceConcat(s, a, cs, t, more, u);
      cs, t := cs + more, u;
    }

    /** The terminal mark of Run. */
    method Conclude(a: nat, id: nat, video: string, x: Script, processed: Outcome, ghost s: State)
      returns (r: Outcome, ghost cs: seq<Call>, ghost t: State)
      requires Wired() && RealScript(x) && Matches(s, a, id, video) && RealFault(processed)
      requires AtPhase(s, a, if processed.Done? then Reading(Completed, "") else Fail(processed.text))
      modifies repository
      ensures RealFault(r)
      ensures Trace(s, a, cs, t) && Matches(t, a, id, video)
      ensures AtPhase(t, a, Ended(if r.Done? then "" else r.text))
      ensures var marked := MarkResult(if processed.Done? then x.completed else x.failed);
              && id in old(repository.rows)
              && repository.rows == (if marked.Fault? then old(repository.rows)
                                     else old(repository.rows)[id := old(repository.rows)[id].(
                                            status := if processed.Done? then Completed else Failed,
                                            error := if processed.Done? then "" else processed.text)])
              && (r.Done? <==> processed.Done? && marked.Done?)
              && (processed.Fault? && marked.Done? ==> r == processed)
    {
      var marked;
      if processed.Fault? {
        marked, cs, t := service.UpdateStatus(id, Failed, processed.text, x.failed, s, a);
        r := processed;
        if marked.Fault? {
          r := Fault("processing failed: " + processed.text + " (also could not mark job failed: " + marked.text + ")");
        }
      } else {
        marked, cs, t := service.UpdateStatus(id, Completed, "", x.completed, s, a);
        r := marked;
        if marked.Fault? {
          r := Fault("processing succeeded but could not mark completed: " + marked.text);
        }
      }
    }

    /** The attempt ends with Run's error, having gone through the calls `cs`. Whether the work succeeds
        is decided by the outside calls alone; then the row is Completed exactly if the Completed mark
        succeeds, otherwise it is Failed, with the error, exactly if the Failed mark does. A row whose
        terminal mark failed is still Pending or Processing. */
    method Run(a: nat, id: nat, video: string, prefix: string, x: Script, ghost s: State)
      returns (r: Outcome, ghost cs: seq<Call>, ghost t: State)
      requires Wired() && RealScript(x) && RealUpload(x, TargetOf(video, prefix))
      requires Inv(s) && Matches(s, a, id, video) && AtPhase(s, a, Reading(Processing, ""))
      modifies repository, disk, bucket
      ensures RealFault(r)
      ensures Trace(s, a, cs, t) && Inv(t) && Matches(t, a, id, video)
      ensures AtPhase(t, a, Ended(if r.Done? then "" else r.text))
      ensures id in repository.rows
      ensures var works := MarkResult(x.processing).Done?
                           && WorkSucceeds(x, TargetOf(video, prefix), video in old(disk.dirs));
              && (repository.rows[id].status == Completed <==> works && MarkResult(x.completed).Done?)
              && (repository.rows[id].status == Failed <==> !works && MarkResult(x.failed).Done?)
              && (works ==> U.Copied(storage + "/" + video, prefix, x.tree, old(bucket.objects), bucket.objects))
      ensures r.Done? <==> repository.rows[id].status == Completed
      ensures repository.rows[id].status == Failed ==> repository.rows[id].error == r.text
      ensures repository.rows[id].status in {Pending, Processing, Completed, Failed}
    {
      ghost var more: seq<Call>;
      ghost var u: State;
      r, cs, t := Process(a, id, video, prefix, x, s);
      TraceInv(s, a, cs, t);
      BeforeTerminalMark(t, a, id);
      r, more, u := Conclude(a, id, video, x, r, t);
      TraceConcat(s, a, cs, t, more, u);
      TraceInv(t, a, more, u);
      cs, t := cs + more, u;
    }
  }

  /** Where the pool of one upload ends. */
  lemma EndOfPool(x: Script, g: Target, bucket: map<string, string>) returns (end: P.Pool)
    requires RealUpload(x, g) && Starts(x)
    ensures P.Runs(PoolOf(x, g, bucket), x.steps, end) && P.AllGone(end)
    ensures end.errors == [] <==> UploadsAll(x, g)
  {
    var start := PoolOf(x, g, map[]);
    P.AnyBucket(start, x.steps, bucket);
    end := P.After(PoolOf(x, g, bucket), x.steps).value;
    P.AfterIsRun(PoolOf(x, g, bucket), x.steps);
  }

  /** The calls that an upload with result `r` stands for. */
  lemma UploadCalls(a: nat, video: string, x: Script, g: Target, bucket: map<string, string>, end: P.Pool, r: Outcome,
                    s: State)
    returns (cs: seq<Call>, t: State)
    requires RealUpload(x, g) && AtPhase(s, a, Uploading) && s.attempts[a].video == video
    requires video in s.disk.dirs && s.disk.dirs[video].Keys == LeftBy(x.files, |x.files|)
    requires Starts(x) ==> P.Runs(PoolOf(x, g, bucket), x.steps, end) && P.AllGone(end)
    requires RealFault(r) && (r.Done? <==> Starts(x) && end.errors == [])
    ensures Reaches(s, a, cs, t, if r.Done? then RemovingSource else Fail("upload: " + r.text)) && t.disk == s.disk
  {
    if Starts(x) {
      cs, t := UT.UploadIsTrace(s, a, g.path, g.prefix, x.tree, g.concurrency, x.cpus, bucket, x.steps, end, r);
    } else {
      MediaStep(s, a, [], s, Uploading, UploadDone(r));
      cs, t := [] + [Media(UploadDone(r))], MediaNext(s, a, UploadDone(r));
    }
  }

  /** Until a terminal mark has gone through, the row is Pending or Processing. */
  lemma BeforeTerminalMark(s: State, a: nat, id: nat)
    requires Inv(s) && a < |s.attempts| && s.attempts[a].job == Some(id) && s.attempts[a].phase.Reading?
    ensures id in s.rows && (s.rows[id].status == Pending || s.rows[id].status == Processing)
  {
    assert PhaseOk(s, a) && RowOk(s, id);
    var h := s.history[id];
    assert Statuses(h)[|h| - 1] == h[|h| - 1].status;
  }

  /** An attempt that has ended under an enabled processor ended well exactly if its row says so. */
  lemma EndedRow(s: State, a: nat, id: nat)
    requires Inv(s) && s.enabled && a < |s.attempts| && s.attempts[a].job == Some(id) && s.attempts[a].phase.Ended?
    ensures id in s.rows && (s.attempts[a].phase.error == "" <==> s.rows[id].status == Completed)
  {
    assert PhaseOk(s, a) && RowOk(s, id);
    var h := s.history[id];
    assert Statuses(h)[|h| - 1] == h[|h| - 1].status;
  }

  /** A failing job need not become Failed: here the storage service is down, and then the database
      is, too. */
  lemma UnrecordedFailure(disk: Disk) returns (cs: seq<Call>, t: State)
    ensures Trace(Begin(Init(true, disk), Job("v", "p")), 0, cs, t) && Inv(t)
    ensures |t.attempts| == 1 && t.attempts[0].phase.Ended? && t.attempts[0].phase.error != ""
    ensures t.attempts[0].job == Some(0) && 0 in t.rows && t.rows[0] == Row("v", "p", Processing, "")
  {
    var s := Begin(Init(true, disk), Job("v", "p"));
    InitInv(true, disk);
    BeginInv(Init(true, disk), Job("v", "p"));
    var first, u := MarkedProcessing(s, "v", "p");
    var last;
    last, t := Outage(u);
    TraceConcat(s, 0, first, u, last, t);
    cs := first + last;
    TraceInv(s, 0, cs, t);
  }

  lemma Outage(s: State) returns (cs: seq<Call>, t: State)
    requires |s.attempts| == 1 && s.attempts[0].phase.OpeningService? && HasRow(s, s.attempts[0])
    ensures Trace(s, 0, cs, t) && t.rows == s.rows && |t.attempts| == 1
    ensures t.attempts[0].job == s.attempts[0].job && t.attempts[0].phase.Ended? && t.attempts[0].phase.error != ""
  {
    var down := Fault("down");
    cs, t := [], s;
    TraceAppend(s, 0, cs, t, Media(OpenService(down)));
    cs, t := cs + [Media(OpenService(down))], Next(t, 0, Media(OpenService(down)));
    TraceAppend(s, 0, cs, t, Db(ReadRow(down)));
    cs, t := cs + [Db(ReadRow(down))], Next(t, 0, Db(ReadRow(down)));
  }

  /** The first four calls of an attempt, all of them successful. */
  lemma MarkedProcessing(s: State, v: string, p: string) returns (cs: seq<Call>, t: State)
    requires s.enabled && s.rows == map[] && s.history == map[]
    requires s.attempts == [Attempt(v, p, None, FindingVideo, {}, {})]
    ensures Trace(s, 0, cs, t) && t.enabled && |t.attempts| == 1 && t.disk == s.disk && t.writes == s.writes
    ensures t.attempts[0] == Attempt(v, p, Some(0), OpeningService, {}, {})
    ensures t.rows == map[0 := Row(v, p, Processing, "")] && t.history.Keys == {0}
  {
    cs, t := [], s;
    TraceAppend(s, 0, cs, t, Db(FindVideo(Done)));
    cs, t := cs + [Db(FindVideo(Done))], Next(t, 0, Db(FindVideo(Done)));
    TraceAppend(s, 0, cs, t, Db(InsertRow(0, Done, true)));
    cs, t := cs + [Db(InsertRow(0, Done, true))], Next(t, 0, Db(InsertRow(0, Done, true)));
    assert t.rows == map[0 := Row(v, p, Pending, "")];
    TraceAppend(s, 0, cs, t, Db(ReadRow(Done)));
    cs, t := cs + [Db(ReadRow(Done))], Next(t, 0, Db(ReadRow(Done)));
    TraceAppend(s, 0, cs, t, Db(WriteRow(Done)));
    cs, t := cs + [Db(WriteRow(Done))], Next(t, 0, Db(WriteRow(Done)));
  }
}
