/** The upload of an output directory, as module Attempts has it, is what the pool of ProcessUpload
    does: any run of the pool is a sequence of CopyFile calls, and it ends well exactly if it has
    recorded no error. */
module UploadTrace {
  import opened Basics
  import opened Attempts
  import opened Traces
  import P = UploadPool
  import U = Upload
  import Paths

  /** The files of a tree, named by their paths below the directory, in the order of the walk. */
  function FileNames(root: U.Node): seq<string> {
    var ls := U.Leaves(root);
    seq(|ls|, i requires 0 <= i < |ls| => Paths.Glue(ls[i].rel))
  }

  function FilesOf(root: U.Node): set<string> { set f | f in FileNames(root) }

  /** They are the files of the tree. */
  lemma FilesOfTree(root: U.Node, f: string)
    requires U.WellNamed(root)
    ensures f in FilesOf(root) <==> exists rel :: U.FileAt(root, rel).Some? && f == Paths.Glue(rel)
  {
    var ls := U.Leaves(root);
    if f in FilesOf(root) {
      var i :| 0 <= i < |ls| && FileNames(root)[i] == f;
      assert ls[i] == U.Leaf(ls[i].rel, ls[i].content) && ls[i] in ls;
      U.LeavesAreFiles(root, ls[i].rel, ls[i].content);
    }
    if exists rel :: U.FileAt(root, rel).Some? && f == Paths.Glue(rel) {
      var rel :| U.FileAt(root, rel).Some? && f == Paths.Glue(rel);
      var i := U.LeafOfFile(root, rel);
      assert FileNames(root)[i] == f;
    }
  }

  /** What the pool has done has been done to the files: those finished well are uploaded. */
  ghost predicate Mirrors(s: State, a: nat, files: seq<string>, p: P.Pool) {
    && AtPhase(s, a, Uploading) && s.attempts[a].video in s.disk.dirs
    && (forall x | 0 <= x < |files| :: files[x] in s.disk.dirs[s.attempts[a].video])
    && |files| == |p.names|
    && (forall d | d in p.done && d.ok :: d.x < |files| && files[d.x] in s.attempts[a].uploaded)
  }

  /** The call of a step: only the end of an upload is one. */
  function CallOf(p: P.Pool, step: P.Step, files: seq<string>): Option<MediaCall>
    requires P.Enabled(p, step) && |files| == |p.names|
  {
    match step
    case Finish(w, ok, _) => Some(CopyFile(files[p.workers[w].x], ok))
    case _ => None
  }

  lemma StepMirrors(s: State, a: nat, files: seq<string>, p: P.Pool, step: P.Step) returns (cs: seq<Call>, t: State)
    requires Mirrors(s, a, files, p) && P.Enabled(p, step)
    ensures Reaches(s, a, cs, t, Uploading) && t.disk == s.disk
    ensures Mirrors(t, a, files, P.Next(p, step))
  {
    var c := CallOf(p, step, files);
    cs, t := [], s;
    if c.Some? {
      MediaStep(s, a, [], s, Uploading, c.value);
      cs, t := [] + [Media(c.value)], MediaNext(s, a, c.value);
    }
  }

  lemma {:induction false} RunMirrors(s: State, a: nat, files: seq<string>, p: P.Pool, ss: seq<P.Step>, q: P.Pool)
    returns (cs: seq<Call>, t: State)
    requires Mirrors(s, a, files, p) && P.Runs(p, ss, q)
    ensures Reaches(s, a, cs, t, Uploading) && t.disk == s.disk && Mirrors(t, a, files, q)
    decreases |ss|
  {
    if ss == [] {
      cs, t := [], s;
    } else {
      var first, rest: seq<Call>;
      var u;
      first, u := StepMirrors(s, a, files, p, ss[0]);
      rest, t := RunMirrors(u, a, files, P.Next(p, ss[0]), ss[1..], q);
      TraceConcat(s, a, first, u, rest, t);
      cs := first + rest;
    }
  }

  /** The whole upload. Whatever the interleaving, it is a trace from Uploading to where the result
      leads, and the result is nil exactly if the pool has recorded no error. */
  lemma UploadIsTrace(s: State, a: nat, videoPath: string, outputPrefix: string, root: U.Node, concurrency: int, cpus: nat,
                      bucket: map<string, string>, run: seq<P.Step>, q: P.Pool, r: Outcome)
    returns (cs: seq<Call>, t: State)
    requires AtPhase(s, a, Uploading) && s.attempts[a].video in s.disk.dirs
    requires s.disk.dirs[s.attempts[a].video].Keys == FilesOf(root)
    requires U.Walkable(videoPath, root) && U.Leaves(root) != []
    requires P.Runs(U.PoolFor(videoPath, outputPrefix, root, concurrency, cpus, bucket), run, q) && P.AllGone(q)
    requires RealFault(r) && (r.Done? <==> q.errors == [])
    ensures Reaches(s, a, cs, t, if r.Done? then RemovingSource else Fail("upload: " + r.text))
    ensures t.disk == s.disk
  {
    var start := U.PoolFor(videoPath, outputPrefix, root, concurrency, cpus, bucket);
    var files := FileNames(root);
    U.PoolNames(videoPath, outputPrefix, root);
    assert forall x | 0 <= x < |files| :: files[x] in FilesOf(root);
    cs, t := RunMirrors(s, a, files, start, run, q);
    if r.Done? {
      AllAreUploaded(videoPath, outputPrefix, root, concurrency, cpus, bucket, run, q);
      NamesCover(root, q, t.attempts[a].uploaded);
    }
    MediaStep(s, a, cs, t, Uploading, UploadDone(r));
    cs, t := cs + [Media(UploadDone(r))], MediaNext(t, a, UploadDone(r));
  }

  /** What is true of every file of the walk is true of every file of the tree. */
  lemma NamesCover(root: U.Node, q: P.Pool, uploaded: set<string>)
    requires U.Leaves(root) != []
    requires forall x: nat | x < |U.Leaves(root)| :: P.Finished(x, true) in q.done
    requires forall d | d in q.done && d.ok :: d.x < |FileNames(root)| && FileNames(root)[d.x] in uploaded
    ensures FilesOf(root) <= uploaded && FilesOf(root) != {}
  {
    var files := FileNames(root);
    assert files[0] in FilesOf(root);
    forall f | f in FilesOf(root) ensures f in uploaded {
      var x :| 0 <= x < |files| && files[x] == f;
      assert P.Finished(x, true) in q.done;
    }
  }

  /** Without an error every file has been finished well. */
  lemma AllAreUploaded(videoPath: string, outputPrefix: string, root: U.Node, concurrency: int, cpus: nat,
                       bucket: map<string, string>, run: seq<P.Step>, q: P.Pool)
    requires U.Walkable(videoPath, root) && U.Leaves(root) != []
    requires P.Runs(U.PoolFor(videoPath, outputPrefix, root, concurrency, cpus, bucket), run, q) && P.AllGone(q)
    requires q.errors == []
    ensures forall x: nat | x < |U.Leaves(root)| :: P.Finished(x, true) in q.done
  {
    U.PoolNames(videoPath, outputPrefix, root);
    var paths := U.Walked(videoPath, root);
    P.PoolResult(U.ObjectNamesOf(videoPath, outputPrefix, paths), U.Contents(U.Leaves(root)), cpus,
                 U.WorkerCount(concurrency, |paths|), bucket, run, q);
    forall x: nat | x < |U.Leaves(root)| ensures P.Finished(x, true) in q.done {
      assert x in multiset(P.Indexes(q.done));
      var i :| 0 <= i < |q.done| && P.Indexes(q.done)[i] == x;
      P.FailureIsDone(q.done, x);
      assert q.done[i] in q.done;
    }
  }
}
