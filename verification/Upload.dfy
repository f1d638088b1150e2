/** ProcessUpload as a whole: walk the output directory, run the pool, report. Run to the end under
    any interleaving of its workers it comes to "copy the tree". */
module Upload {
  import opened Basics
  import opened Paths
  import opened ObjectNames
  import opened UploadPool

  /** What is below a path: a file, a directory with its entries in the order Walk reads them, or
      something that cannot be read. */
  datatype Node = File(content: string) | Dir(entries: seq<Entry>) | Broken
  datatype Entry = Entry(name: string, node: Node)

  /** A file of a tree: where it is and what is in it. */
  datatype Leaf = Leaf(rel: seq<string>, content: string)

  predicate Readable(node: Node) {
    match node
    case File(_) => true
    case Dir(es) => forall i | 0 <= i < |es| :: Readable(es[i].node)
    case Broken => false
  }

  /** Entry names are names, and no two entries of a directory share one. */
  predicate WellNamed(node: Node) {
    match node
    case Dir(es) =>
      && (forall i | 0 <= i < |es| :: Ordinary(es[i].name) && WellNamed(es[i].node))
      && (forall i, j | 0 <= i < j < |es| :: es[i].name != es[j].name)
    case _ => true
  }

  function Leaves(node: Node): seq<Leaf>
    decreases node, 0
  {
    match node
    case File(c) => [Leaf([], c)]
    case Dir(es) => LeavesIn(es)
    case Broken => []
  }

  /** What is found at a path, following one name after the other. */
  function NodeAt(node: Node, rel: seq<string>): Option<Node>
    decreases rel
  {
    if rel == [] then Some(node)
    else if node.Dir? && exists i :: 0 <= i < |node.entries| && node.entries[i].name == rel[0] then
      NodeAt(EntryNamed(node.entries, rel[0]), rel[1..])
    else None
  }

  /** The first entry of that name; in a well-named tree there is at most one. */
  function EntryNamed(es: seq<Entry>, name: string): Node
    requires exists i :: 0 <= i < |es| && es[i].name == name
  {
    if es[0].name == name then es[0].node else EntryNamed(es[1..], name)
  }

  /** The content of the file at a path, if there is one. */
  function FileAt(root: Node, rel: seq<string>): Option<string> {
    match NodeAt(root, rel)
    case Some(File(c)) => Some(c)
    case _ => None
  }

  function Below(name: string, ls: seq<Leaf>): seq<Leaf> {
    seq(|ls|, i requires 0 <= i < |ls| => Leaf([name] + ls[i].rel, ls[i].content))
  }

  function LeavesIn(es: seq<Entry>): seq<Leaf>
    decreases es, 0
  {
    if es == [] then [] else Below(es[0].name, Leaves(es[0].node)) + LeavesIn(es[1..])
  }

  // ---------------------------------------------------------------- distinct files, ordinary paths

  lemma {:induction false} LeavesAreOrdinary(node: Node)
    requires WellNamed(node)
    ensures forall i | 0 <= i < |Leaves(node)| :: AllOrdinary(Leaves(node)[i].rel)
    ensures node.Dir? ==> forall i | 0 <= i < |Leaves(node)| :: Leaves(node)[i].rel != []
    decreases node, 1
  {
    match node
    case Dir(es) => LeavesInAreOrdinary(es);
    case _ =>
  }

  /** The leaf is below one of the entries. */
  predicate BelowSome(es: seq<Entry>, l: Leaf) {
    l.rel != [] && exists k :: 0 <= k < |es| && l.rel[0] == es[k].name
  }

  lemma {:induction false} LeavesInAreOrdinary(es: seq<Entry>)
    requires forall i | 0 <= i < |es| :: Ordinary(es[i].name) && WellNamed(es[i].node)
    ensures forall i | 0 <= i < |LeavesIn(es)| :: AllOrdinary(LeavesIn(es)[i].rel) && BelowSome(es, LeavesIn(es)[i])
    decreases es, 0
  {
    if es != [] {
      LeavesAreOrdinary(es[0].node);
      LeavesInAreOrdinary(es[1..]);
      var here, rest, all := Below(es[0].name, Leaves(es[0].node)), LeavesIn(es[1..]), LeavesIn(es);
      assert all == here + rest;
      forall i | 0 <= i < |all|
        ensures AllOrdinary(all[i].rel) && BelowSome(es, all[i])
      {
        if i < |here| {
          assert all[i].rel[0] == es[0].name;
        } else {
          assert all[i] == rest[i - |here|] && BelowSome(es[1..], rest[i - |here|]);
          var k :| 0 <= k < |es[1..]| && rest[i - |here|].rel[0] == es[1..][k].name;
          assert es[1..][k] == es[k + 1];
        }
      }
    }
  }

  predicate DistinctLeaves(ls: seq<Leaf>) {
    forall i, j | 0 <= i < j < |ls| :: ls[i].rel != ls[j].rel
  }

  lemma {:induction false} LeavesAreDistinct(node: Node)
    requires WellNamed(node)
    ensures DistinctLeaves(Leaves(node))
    decreases node, 1
  {
    match node
    case Dir(es) => LeavesInAreDistinct(es);
    case _ =>
  }

  lemma {:induction false} LeavesInAreDistinct(es: seq<Entry>)
    requires forall i | 0 <= i < |es| :: Ordinary(es[i].name) && WellNamed(es[i].node)
    requires forall i, j | 0 <= i < j < |es| :: es[i].name != es[j].name
    ensures DistinctLeaves(LeavesIn(es))
    decreases es, 0
  {
    if es != [] {
      LeavesAreDistinct(es[0].node);
      LeavesInAreDistinct(es[1..]);
      LeavesInAreOrdinary(es[1..]);
      var inside := Leaves(es[0].node);
      var here, rest, all := Below(es[0].name, inside), LeavesIn(es[1..]), LeavesIn(es);
      assert all == here + rest;
      forall i, j | 0 <= i < j < |all| ensures all[i].rel != all[j].rel {
        if j < |here| {
          assert here[i].rel[1..] == inside[i].rel && here[j].rel[1..] == inside[j].rel;
        } else if i < |here| {
          assert here[i].rel[0] == es[0].name && BelowSome(es[1..], rest[j - |here|]);
          var k :| 0 <= k < |es[1..]| && rest[j - |here|].rel[0] == es[1..][k].name;
          assert es[1..][k] == es[k + 1];
        } else {
          assert all[i] == rest[i - |here|] && all[j] == rest[j - |here|];
        }
      }
    }
  }

  // ---------------------------------------------------------------- what the leaves are

  lemma {:induction false} EntryIs(es: seq<Entry>, i: nat)
    requires i < |es| && forall j, k | 0 <= j < k < |es| :: es[j].name != es[k].name
    ensures EntryNamed(es, es[i].name) == es[i].node
    decreases i
  {
    if i > 0 {
      assert es[1..][i - 1] == es[i];
      assert es[0].name != es[i].name;
      EntryIs(es[1..], i - 1);
    }
  }

  /** One entry's files, found below the directory. */
  lemma NodeBelow(es: seq<Entry>, i: nat, rel: seq<string>)
    requires i < |es| && forall j, k | 0 <= j < k < |es| :: es[j].name != es[k].name
    ensures NodeAt(Dir(es), [es[i].name] + rel) == NodeAt(es[i].node, rel)
  {
    EntryIs(es, i);
    assert ([es[i].name] + rel)[1..] == rel;
  }

  /** The leaves are exactly the files of the tree. */
  lemma {:induction false} LeavesAreFiles(root: Node, rel: seq<string>, c: string)
    requires WellNamed(root)
    ensures FileAt(root, rel) == Some(c) <==> Leaf(rel, c) in Leaves(root)
    decreases root, 1
  {
    match root
    case File(_) => assert Leaf(rel, c) in Leaves(root) <==> Leaf(rel, c) == Leaves(root)[0];
    case Broken =>
    case Dir(es) =>
      LeavesInAreFiles(es, rel, c);
      FileInIsFileAt(es, rel, c);
  }

  /** Some entry leads to the file. */
  predicate FileIn(es: seq<Entry>, rel: seq<string>, c: string) {
    rel != [] && exists i :: 0 <= i < |es| && FileBelow(es[i], rel, c)
  }

  predicate FileBelow(e: Entry, rel: seq<string>, c: string)
    requires rel != []
  {
    e.name == rel[0] && FileAt(e.node, rel[1..]) == Some(c)
  }

  lemma FileInIsFileAt(es: seq<Entry>, rel: seq<string>, c: string)
    requires forall j, k | 0 <= j < k < |es| :: es[j].name != es[k].name
    ensures FileIn(es, rel, c) <==> FileAt(Dir(es), rel) == Some(c)
  {
    if rel != [] && exists i :: 0 <= i < |es| && es[i].name == rel[0] {
      var i :| 0 <= i < |es| && es[i].name == rel[0];
      assert rel == [es[i].name] + rel[1..];
      NodeBelow(es, i, rel[1..]);
      assert FileBelow(es[i], rel, c) <==> FileAt(Dir(es), rel) == Some(c);
    }
  }

  lemma {:induction false} LeavesInAreFiles(es: seq<Entry>, rel: seq<string>, c: string)
    requires forall i | 0 <= i < |es| :: WellNamed(es[i].node)
    ensures FileIn(es, rel, c) <==> Leaf(rel, c) in LeavesIn(es)
    decreases es, 0
  {
    if es != [] {
      LeavesInAreFiles(es[1..], rel, c);
      LeafBelow(es[0], rel, c);
      FileInCons(es, rel, c);
      assert LeavesIn(es) == Below(es[0].name, Leaves(es[0].node)) + LeavesIn(es[1..]);
    }
  }

  lemma FileInCons(es: seq<Entry>, rel: seq<string>, c: string)
    requires es != []
    ensures FileIn(es, rel, c) <==> (rel != [] && FileBelow(es[0], rel, c)) || FileIn(es[1..], rel, c)
  {
    assert forall i | 0 <= i < |es[1..]| :: es[1..][i] == es[i + 1];
    if rel != [] && FileIn(es[1..], rel, c) {
      var i :| 0 <= i < |es[1..]| && FileBelow(es[1..][i], rel, c);
      assert FileBelow(es[i + 1], rel, c);
    }
    if rel != [] && FileIn(es, rel, c) {
      var i :| 0 <= i < |es| && FileBelow(es[i], rel, c);
      if i > 0 { assert FileBelow(es[1..][i - 1], rel, c); }
    }
  }

  lemma LeafBelow(e: Entry, rel: seq<string>, c: string)
    requires WellNamed(e.node)
    ensures Leaf(rel, c) in Below(e.name, Leaves(e.node)) <==> rel != [] && FileBelow(e, rel, c)
    decreases e, 2
  {
    var ls := Leaves(e.node);
    var below := Below(e.name, ls);
    if rel != [] {
      LeavesAreFiles(e.node, rel[1..], c);
      if FileBelow(e, rel, c) {
        var i :| 0 <= i < |ls| && ls[i] == Leaf(rel[1..], c);
        assert below[i] == Leaf([e.name] + rel[1..], c) && [e.name] + rel[1..] == rel;
      }
    }
    if Leaf(rel, c) in below {
      var i :| 0 <= i < |below| && below[i] == Leaf(rel, c);
      assert rel[1..] == ls[i].rel && ls[i] in ls;
    }
  }

  /** A file "f" and a directory "d" with a file "g". */
  function Sample(c: string, e: string): Node {
    Dir([Entry("f", File(c)), Entry("d", Dir([Entry("g", File(e))]))])
  }

  lemma SampleFiles(c: string, e: string)
    ensures WellNamed(Sample(c, e)) && Readable(Sample(c, e))
    ensures FileAt(Sample(c, e), ["f"]) == Some(c) && FileAt(Sample(c, e), ["d", "g"]) == Some(e)
    ensures FileAt(Sample(c, e), []) == None && FileAt(Sample(c, e), ["d"]) == None && FileAt(Sample(c, e), ["g"]) == None
  {
    var inner := [Entry("g", File(e))];
    var es := [Entry("f", File(c)), Entry("d", Dir(inner))];
    assert ["f"] == ["f"] + [] && ["d"] == ["d"] + [] && ["g"] == ["g"] + [];
    assert ["d", "g"] == ["d"] + ["g"];
    assert "f" != "d" && "f" != "g" && "d" != "g";
    NodeBelow(es, 0, []);
    NodeBelow(es, 1, []);
    NodeBelow(es, 1, ["g"]);
    NodeBelow(inner, 0, []);
    assert NodeAt(Dir(es), ["g"]) == None;
  }

  // ---------------------------------------------------------------- what Walk collects

  /** The paths Walk reports for the files below `path`, in order. */
  function Walked(path: string, node: Node): seq<string>
    decreases node, 0
  {
    match node
    case File(_) => [path]
    case Dir(es) => WalkedIn(path, es)
    case Broken => []
  }

  function WalkedIn(path: string, es: seq<Entry>): seq<string>
    decreases es, 0
  {
    if es == [] then [] else Walked(Join(path, es[0].name), es[0].node) + WalkedIn(path, es[1..])
  }

  lemma LocalPathBelow(dir: string, above: seq<string>, name: string)
    ensures LocalPath(dir, above + [name]) == Join(LocalPath(dir, above), name)
  {
    assert (above + [name])[..|above|] == above;
  }

  /** Where the walk finds what is below `above`. */
  function Locator(dir: string, above: seq<string>): seq<string> -> string {
    rel => LocalPath(dir, above + rel)
  }

  /** The paths are, in order, those of the files. */
  predicate Aligned(locate: seq<string> -> string, paths: seq<string>, ls: seq<Leaf>) {
    |paths| == |ls| && forall i | 0 <= i < |ls| :: paths[i] == locate(ls[i].rel)
  }

  lemma AlignedBelow(inner: seq<string> -> string, outer: seq<string> -> string, name: string, paths: seq<string>, ls: seq<Leaf>)
    requires Aligned(inner, paths, ls)
    requires forall l | l in ls :: inner(l.rel) == outer([name] + l.rel)
    ensures Aligned(outer, paths, Below(name, ls))
  {
    var below := Below(name, ls);
    forall i | 0 <= i < |below| ensures paths[i] == outer(below[i].rel) {
      assert ls[i] in ls && inner(ls[i].rel) == outer([name] + ls[i].rel);
    }
  }

  lemma AlignedConcat(locate: seq<string> -> string, p1: seq<string>, l1: seq<Leaf>, p2: seq<string>, l2: seq<Leaf>)
    requires Aligned(locate, p1, l1) && Aligned(locate, p2, l2)
    ensures Aligned(locate, p1 + p2, l1 + l2)
  {
    var paths, ls := p1 + p2, l1 + l2;
    forall i | 0 <= i < |ls| ensures paths[i] == locate(ls[i].rel) {
      if i < |l1| {
        assert ls[i] == l1[i] && paths[i] == p1[i];
      } else {
        assert ls[i] == l2[i - |l1|] && paths[i] == p2[i - |l1|];
      }
    }
  }

  /** Walk reports, in order, the local path of each file. */
  lemma {:induction false} WalkedAreLocalPaths(dir: string, above: seq<string>, node: Node)
    ensures Aligned(Locator(dir, above), Walked(LocalPath(dir, above), node), Leaves(node))
    decreases node, 1
  {
    match node
    case File(_) => assert above + [] == above;
    case Dir(es) => WalkedInAreLocalPaths(dir, above, es);
    case Broken =>
  }

  lemma {:induction false} WalkedInAreLocalPaths(dir: string, above: seq<string>, es: seq<Entry>)
    ensures Aligned(Locator(dir, above), WalkedIn(LocalPath(dir, above), es), LeavesIn(es))
    decreases es, 0
  {
    if es != [] {
      var name, node, path := es[0].name, es[0].node, LocalPath(dir, above);
      LocalPathBelow(dir, above, name);
      WalkedAreLocalPaths(dir, above + [name], node);
      WalkedInAreLocalPaths(dir, above, es[1..]);
      LocatedBelow(dir, above, name, Leaves(node));
      AlignedBelow(Locator(dir, above + [name]), Locator(dir, above), name, Walked(Join(path, name), node), Leaves(node));
      AlignedConcat(Locator(dir, above), Walked(Join(path, name), node), Below(name, Leaves(node)),
                    WalkedIn(path, es[1..]), LeavesIn(es[1..]));
    }
  }

  lemma LocatedBelow(dir: string, above: seq<string>, name: string, ls: seq<Leaf>)
    ensures forall l | l in ls :: Locator(dir, above + [name])(l.rel) == Locator(dir, above)([name] + l.rel)
  {
    forall l | l in ls ensures Locator(dir, above + [name])(l.rel) == Locator(dir, above)([name] + l.rel) {
      assert above + [name] + l.rel == above + ([name] + l.rel);
    }
  }

  // ---------------------------------------------------------------- VideoUpload

  function ObjectNamesOf(videoPath: string, outputPrefix: string, paths: seq<string>): seq<string> {
    seq(|paths|, i requires 0 <= i < |paths| => ObjectName(videoPath, outputPrefix, paths[i]))
  }

  function Contents(ls: seq<Leaf>): seq<string> {
    seq(|ls|, i requires 0 <= i < |ls| => ls[i].content)
  }

  /** min(max(concurrency, 1), files), as ProcessUpload computes it. */
  function WorkerCount(concurrency: int, files: nat): nat {
    var w := if concurrency <= 0 then 1 else concurrency;
    if w > files then files else w
  }

  /** Never more workers than asked for or than files, and at least one if there is a file. */
  lemma WorkersAreBounded(concurrency: int, files: nat)
    ensures WorkerCount(concurrency, files) <= files
    ensures concurrency >= 1 ==> WorkerCount(concurrency, files) <= concurrency
    ensures files > 0 ==> WorkerCount(concurrency, files) >= 1
    ensures concurrency >= files ==> WorkerCount(concurrency, files) == files
    ensures 1 <= concurrency <= files ==> WorkerCount(concurrency, files) == concurrency
  {
  }

  /** The pool that ProcessUpload sets up for a tree. */
  function PoolFor(videoPath: string, outputPrefix: string, root: Node, concurrency: int, cpus: nat,
                   bucket: map<string, string>): Pool
  {
    var paths := Walked(videoPath, root);
    Start(ObjectNamesOf(videoPath, outputPrefix, paths), Contents(Leaves(root)), cpus,
          WorkerCount(concurrency, |paths|), bucket)
  }

  /** The object of each file of the tree holds the file's content; the rest of the bucket is as
      before. */
  ghost predicate Copied(videoPath: string, outputPrefix: string, root: Node,
                         before: map<string, string>, after: map<string, string>)
  {
    && (forall rel | FileAt(root, rel).Some? :: Holds(after, NameOf(videoPath, outputPrefix, rel), FileAt(root, rel).value))
    && OnlyItsObjects(videoPath, outputPrefix, root, before, after)
  }

  predicate Holds(bucket: map<string, string>, name: string, content: string) {
    name in bucket && bucket[name] == content
  }

  /** The name is that of some file of the tree. */
  ghost predicate NamesAFile(videoPath: string, outputPrefix: string, root: Node, name: string) {
    exists rel :: FileAt(root, rel).Some? && name == NameOf(videoPath, outputPrefix, rel)
  }

  /** Nothing changed but objects named after files of the tree. */
  ghost predicate OnlyItsObjects(videoPath: string, outputPrefix: string, root: Node,
                                 before: map<string, string>, after: map<string, string>)
  {
    forall k | !NamesAFile(videoPath, outputPrefix, root, k) ::
      (k in after <==> k in before) && (k in before ==> after[k] == before[k])
  }

  ghost predicate HasFiles(root: Node) { exists rel :: FileAt(root, rel).Some? }

  lemma HasFilesExactly(root: Node)
    requires WellNamed(root)
    ensures Leaves(root) != [] <==> HasFiles(root)
  {
    var ls := Leaves(root);
    if ls != [] {
      LeavesAreFiles(root, ls[0].rel, ls[0].content);
      assert ls[0] == Leaf(ls[0].rel, ls[0].content);
    }
    forall rel | FileAt(root, rel).Some? ensures ls != [] {
      LeavesAreFiles(root, rel, FileAt(root, rel).value);
    }
  }

  /** The walk fails exactly if something in the tree cannot be read. */
  lemma {:induction false} ReadableExactly(root: Node)
    requires WellNamed(root)
    ensures Readable(root) <==> forall rel :: NodeAt(root, rel) != Some(Broken)
  {
    match root
    case File(_) =>
    case Broken => assert NodeAt(root, []) == Some(Broken);
    case Dir(es) =>
      forall i | 0 <= i < |es| ensures Readable(es[i].node) <==> forall rel :: NodeAt(es[i].node, rel) != Some(Broken) {
        ReadableExactly(es[i].node);
      }
      if Readable(root) {
        forall rel ensures NodeAt(root, rel) != Some(Broken) { ReadableBelow(es, rel); }
      } else {
        var i :| 0 <= i < |es| && !Readable(es[i].node);
        var rel :| NodeAt(es[i].node, rel) == Some(Broken);
        NodeBelow(es, i, rel);
      }
  }

  lemma ReadableBelow(es: seq<Entry>, rel: seq<string>)
    requires forall j, k | 0 <= j < k < |es| :: es[j].name != es[k].name
    requires forall i | 0 <= i < |es| :: forall rel :: NodeAt(es[i].node, rel) != Some(Broken)
    ensures NodeAt(Dir(es), rel) != Some(Broken)
  {
    if rel != [] && exists i :: 0 <= i < |es| && es[i].name == rel[0] {
      var i :| 0 <= i < |es| && es[i].name == rel[0];
      assert rel == [es[i].name] + rel[1..];
      NodeBelow(es, i, rel[1..]);
    }
  }

  /** What Walk can meet at VideoPath; there is nothing at an empty path. */
  predicate Walkable(videoPath: string, root: Node) {
    WellNamed(root) && (videoPath == "" ==> root.Broken?)
  }

  /** The names the pool works with are those of the tree's files, and all different. */
  lemma PoolNames(videoPath: string, outputPrefix: string, root: Node)
    requires Walkable(videoPath, root)
    ensures |Walked(videoPath, root)| == |Leaves(root)|
    ensures var names := ObjectNamesOf(videoPath, outputPrefix, Walked(videoPath, root));
            && (forall i | 0 <= i < |names| :: names[i] == NameOf(videoPath, outputPrefix, Leaves(root)[i].rel))
            && Distinct(names)
  {
    var ls := Leaves(root);
    assert LocalPath(videoPath, []) == videoPath;
    WalkedAreLocalPaths(videoPath, [], root);
    var paths := Walked(videoPath, root);
    forall i | 0 <= i < |ls| ensures paths[i] == LocalPath(videoPath, [] + ls[i].rel) {
      assert paths[i] == Locator(videoPath, [])(ls[i].rel);
    }
    forall i | 0 <= i < |ls| ensures [] + ls[i].rel == ls[i].rel {
    }
    LeavesAreOrdinary(root);
    LeavesAreDistinct(root);
    var names := ObjectNamesOf(videoPath, outputPrefix, Walked(videoPath, root));
    forall i, j | 0 <= i < j < |names| ensures names[i] != names[j] {
      if names[i] == names[j] {
        NamesAreInjective(videoPath, outputPrefix, ls[i].rel, ls[j].rel);
      }
    }
  }

  lemma LeafOfFile(root: Node, rel: seq<string>) returns (i: nat)
    requires WellNamed(root) && FileAt(root, rel).Some?
    ensures i < |Leaves(root)| && Leaves(root)[i] == Leaf(rel, FileAt(root, rel).value)
  {
    LeavesAreFiles(root, rel, FileAt(root, rel).value);
    i :| i < |Leaves(root)| && Leaves(root)[i] == Leaf(rel, FileAt(root, rel).value);
  }

  /** Every name that the pool works with is that of a file. */
  lemma NameOfLeaf(videoPath: string, outputPrefix: string, root: Node, names: seq<string>, k: string)
    requires WellNamed(root) && |names| == |Leaves(root)| && k in names
    requires forall i | 0 <= i < |names| :: names[i] == NameOf(videoPath, outputPrefix, Leaves(root)[i].rel)
    ensures NamesAFile(videoPath, outputPrefix, root, k)
  {
    var i :| 0 <= i < |names| && names[i] == k;
    var l := Leaves(root)[i];
    assert l == Leaf(l.rel, l.content) && l in Leaves(root);
    LeavesAreFiles(root, l.rel, l.content);
  }

  /** Whatever the interleaving: no error means the tree has been copied, and an error means that
      some file's upload failed; either way no object but the files' own was touched. */
  lemma UploadRefinesCopy(videoPath: string, outputPrefix: string, root: Node, concurrency: int, cpus: nat,
                          bucket: map<string, string>, run: seq<Step>, q: Pool)
    requires Walkable(videoPath, root) && Leaves(root) != []
    requires Runs(PoolFor(videoPath, outputPrefix, root, concurrency, cpus, bucket), run, q) && AllGone(q)
    ensures q.errors == [] ==> Copied(videoPath, outputPrefix, root, bucket, q.bucket)
    ensures OnlyItsObjects(videoPath, outputPrefix, root, bucket, q.bucket)
    ensures q.errors == [] <==> forall f | f in q.done :: f.ok
  {
    PoolNames(videoPath, outputPrefix, root);
    var ls := Leaves(root);
    var names := ObjectNamesOf(videoPath, outputPrefix, Walked(videoPath, root));
    PoolResult(names, Contents(ls), cpus, WorkerCount(concurrency, |names|), bucket, run, q);
    forall k | !NamesAFile(videoPath, outputPrefix, root, k)
      ensures (k in q.bucket <==> k in bucket) && (k in bucket ==> q.bucket[k] == bucket[k])
    {
      if k in names { NameOfLeaf(videoPath, outputPrefix, root, names, k); }
    }
    if q.errors == [] {
      forall rel | FileAt(root, rel).Some?
        ensures Holds(q.bucket, NameOf(videoPath, outputPrefix, rel), FileAt(root, rel).value)
      {
        var i := LeafOfFile(root, rel);
        assert Holds(q.bucket, names[i], Contents(ls)[i]);
      }
    }
    forall f | f in q.done ensures f.ok || f.x in q.errors {
      FailureIsDone(q.done, f.x);
    }
    if q.errors != [] {
      FailureIsDone(q.done, q.errors[0]);
    }
  }

  /** The two files of the sample, copied. */
  lemma CopyByExample(videoPath: string, outputPrefix: string, c: string, e: string,
                      before: map<string, string>, after: map<string, string>)
    requires videoPath != "" && Clean(videoPath) == videoPath && outputPrefix != ""
    requires Copied(videoPath, outputPrefix, Sample(c, e), before, after)
    ensures Holds(after, Under(Clean(outputPrefix), "f"), c)
    ensures Holds(after, Under(Clean(outputPrefix), "d" + "/" + "g"), e)
  {
    SampleFiles(c, e);
    NameOfSample(videoPath, outputPrefix, "d", "g");
    NameUnderGivenPrefix(videoPath, outputPrefix, ["f"]);
    CopiedAt(videoPath, outputPrefix, Sample(c, e), before, after, ["f"], c);
    CopiedAt(videoPath, outputPrefix, Sample(c, e), before, after, ["d", "g"], e);
  }

  lemma NameOfSample(videoPath: string, outputPrefix: string, d: string, g: string)
    requires videoPath != "" && Clean(videoPath) == videoPath && outputPrefix != "" && Ordinary(d) && Ordinary(g)
    ensures NameOf(videoPath, outputPrefix, [d, g]) == Under(Clean(outputPrefix), d + "/" + g)
  {
    NameUnderGivenPrefix(videoPath, outputPrefix, [d, g]);
    assert [d, g][1..] == [g];
  }

  lemma CopiedAt(videoPath: string, outputPrefix: string, root: Node, before: map<string, string>, after: map<string, string>,
                 rel: seq<string>, c: string)
    requires Copied(videoPath, outputPrefix, root, before, after) && FileAt(root, rel) == Some(c)
    ensures Holds(after, NameOf(videoPath, outputPrefix, rel), c)
  {
  }

  class VideoUpload {
    var paths: seq<string>
    var errors: seq<string>
    const videoPath: string
    const outputPrefix: string

    constructor (videoPath: string, outputPrefix: string)
      ensures this.videoPath == videoPath && this.outputPrefix == outputPrefix && paths == [] && errors == []
    {
      this.videoPath := videoPath;
      this.outputPrefix := outputPrefix;
      paths, errors := [], [];
    }

    /** The walk function of loadPaths, applied to everything below `path`; it stops at the first
        thing that cannot be read. */
    method Walk(path: string, node: Node) returns (ok: bool)
      modifies this`paths
      ensures ok <==> Readable(node)
      ensures ok ==> paths == old(paths) + Walked(path, node)
      decreases node
    {
      match node
      case File(_) =>
        paths := paths + [path];
        return true;
      case Broken =>
        return false;
      case Dir(es) =>
        ok := WalkEntries(path, es);
    }

    /** The entries of a directory, in order. */
    method WalkEntries(path: string, es: seq<Entry>) returns (ok: bool)
      modifies this`paths
      ensures ok <==> forall k | 0 <= k < |es| :: Readable(es[k].node)
      ensures ok ==> paths == old(paths) + WalkedIn(path, es)
      decreases es
    {
      if es == [] {
        assert paths + [] == paths;
        return true;
      }
      ghost var first, rest := Walked(Join(path, es[0].name), es[0].node), WalkedIn(path, es[1..]);
      assert old(paths) + first + rest == old(paths) + (first + rest);
      ok := Walk(Join(path, es[0].name), es[0].node);
      if ok { ok := WalkEntries(path, es[1..]); }
      assert (forall k | 0 <= k < |es| :: Readable(es[k].node))
         <==> Readable(es[0].node) && forall k | 0 <= k < |es[1..]| :: Readable(es[1..][k].node);
    }

    method LoadPaths(root: Node) returns (ok: bool)
      modifies this`paths
      ensures ok <==> Readable(root)
      ensures ok ==> paths == old(paths) + Walked(videoPath, root)
    {
      ok := Walk(videoPath, root);
    }

    /** Errors names the files whose indexes are `xs`. */
    predicate Records(xs: seq<nat>)
      reads this
    {
      |errors| == |xs| && forall j | 0 <= j < |xs| :: xs[j] < |paths| && errors[j] == paths[xs[j]]
    }

    /** The pool at work, from its start to the return of wg.Wait. */
    method RunPool(start: Pool, run: seq<Step>, ghost end: Pool, ghost before: map<string, string>) returns (p: Pool)
      requires Runs(start, run, end) && Inv(start, before)
      requires |start.names| == |paths| && Records(start.errors)
      modifies this`errors
      ensures p == end && Records(end.errors)
    {
      p := start;
      var i := 0;
      while i < |run|
        invariant 0 <= i <= |run|
        invariant Runs(p, run[i..], end) && Inv(p, before)
        invariant |p.names| == |paths| && Records(p.errors)
      {
        assert run[i..][0] == run[i] && run[i..][1..] == run[i + 1..];
        StepInv(p, run[i], before);
        if run[i].Record? {
          HeldIsAFile(p, run[i].w);
          errors := errors + [paths[p.workers[run[i].w].x]];
        }
        p := Next(p, run[i]);
        i := i + 1;
      }
      assert run[|run|..] == [];
    }

    /** `run` is the interleaving that the scheduler and the storage service happen to produce, and
        `end` where it ends. */
    method ProcessUpload(root: Node, clientOpens: bool, concurrency: int, cpus: nat,
                         bucket: map<string, string>, run: seq<Step>, ghost end: Pool)
      returns (r: Outcome, after: map<string, string>)
      requires Walkable(videoPath, root)
      requires Readable(root) && Leaves(root) != [] && clientOpens ==>
                 Runs(PoolFor(videoPath, outputPrefix, root, concurrency, cpus, bucket), run, end) && AllGone(end)
      modifies this
      ensures r.Fault? ==> r.text != ""
      ensures r.Done? ==> Copied(videoPath, outputPrefix, root, bucket, after)
      ensures r.Done? <==> Readable(root) && HasFiles(root) && clientOpens && forall f | f in end.done :: f.ok
      ensures OnlyItsObjects(videoPath, outputPrefix, root, bucket, after)
      ensures Readable(root) && Leaves(root) != [] && clientOpens ==>
                paths == Walked(videoPath, root) && Records(end.errors) && (r.Done? <==> end.errors == [])
    {
      after := bucket;
      paths, errors := [], [];
      PoolNames(videoPath, outputPrefix, root);
      HasFilesExactly(root);

      var loaded := LoadPaths(root);
      if !loaded { return Fault("load output paths"), bucket; }
      if |paths| == 0 { return Fault("no output files found under " + videoPath), bucket; }
      if !clientOpens { return Fault("storage client"), bucket; }

      var start := PoolFor(videoPath, outputPrefix, root, concurrency, cpus, bucket);
      StartInv(start.names, start.contents, cpus, WorkerCount(concurrency, |paths|), bucket);
      var p := RunPool(start, run, end, bucket);
      UploadRefinesCopy(videoPath, outputPrefix, root, concurrency, cpus, bucket, run, end);
      after := p.bucket;
      r := if |errors| > 0 then Fault("uploads failed") else Done;
    }
  }

  /** A worker only ever holds the index of a file. */
  lemma HeldIsAFile(p: Pool, w: nat)
    requires Accounted(p) && w < |p.workers| && (p.workers[w].Uploading? || p.workers[w].Recording?)
    ensures p.workers[w].x < |p.names|
  {
    var x := p.workers[w].x;
    HeldAtLeast(p.workers, w, x);
    assert Places(p, x) == if x < |p.names| then 1 else 0;
  }
}
