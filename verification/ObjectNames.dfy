/** The names under which the files of an output directory are uploaded. */
module ObjectNames {
  import opened Paths

  /** The path filepath.Walk reports for the file that is at `rel` below `dir`. */
  function LocalPath(dir: string, rel: seq<string>): string {
    if rel == [] then dir else Join(LocalPath(dir, rel[..|rel| - 1]), rel[|rel| - 1])
  }

  /** The prefix objectName uses. */
  function EffectivePrefix(videoPath: string, outputPrefix: string): string {
    if outputPrefix == "" then Base(videoPath) else outputPrefix
  }

  /** objectName */
  function ObjectName(videoPath: string, outputPrefix: string, localPath: string): string {
    var rel := TrimPrefix(localPath, videoPath + "/");
    Join(EffectivePrefix(videoPath, outputPrefix), rel)
  }

  /** The object name of the file at `rel` below the output directory. */
  function NameOf(videoPath: string, outputPrefix: string, rel: seq<string>): string {
    ObjectName(videoPath, outputPrefix, LocalPath(videoPath, rel))
  }

  lemma BaseNotEmpty(p: string)
    ensures Base(p) != ""
  {
  }

  // ---------------------------------------------------------------- the path Walk reports

  lemma {:induction false} LocalPathIsClean(dir: string, rel: seq<string>)
    requires dir != "" && rel != [] && AllOrdinary(rel)
    ensures LocalPath(dir, rel) == Render(Rooted(dir), Kept(dir) + rel)
    decreases |rel|
  {
    var n := |rel| - 1;
    if n == 0 {
      assert rel == [rel[0]] && rel[..0] == [];
      JoinRelative(dir, [rel[0]]);
    } else {
      LocalPathIsClean(dir, rel[..n]);
      JoinName(dir, rel[..n], rel[n]);
      assert rel == rel[..n] + [rel[n]];
    }
  }

  /** One more name at the end of a cleaned path. */
  lemma JoinName(dir: string, above: seq<string>, name: string)
    requires above != [] && AllOrdinary(above) && Ordinary(name)
    ensures Join(Render(Rooted(dir), Kept(dir) + above), name) == Render(Rooted(dir), Kept(dir) + (above + [name]))
  {
    var local := Render(Rooted(dir), Kept(dir) + above);
    KeptIsNormal(dir);
    NormalThenOrdinary(Rooted(dir), Kept(dir), above);
    SplitOfRender(Rooted(dir), Kept(dir) + above);
    assert local != "" by { assert Split("") == [""]; }
    JoinRelative(local, [name]);
    assert Kept(dir) + above + [name] == Kept(dir) + (above + [name]);
  }

  lemma TrimAtSlash(a: string, b: string)
    ensures a + "/" <= a + "/" + b && TrimPrefix(a + "/" + b, a + "/") == b
  {
    assert (a + "/" + b)[|a + "/"|..] == b;
  }

  /** TrimPrefix finds VideoPath in front of the reported path exactly when VideoPath is clean
      (and names something below the root or the working directory). */
  lemma TrimsExactlyWhenClean(dir: string, rel: seq<string>)
    requires dir != "" && rel != [] && AllOrdinary(rel)
    ensures dir + "/" <= LocalPath(dir, rel) <==> Clean(dir) == dir && Kept(dir) != []
    ensures dir + "/" <= LocalPath(dir, rel) ==> TrimPrefix(LocalPath(dir, rel), dir + "/") == Glue(rel)
  {
    var local := LocalPath(dir, rel);
    LocalPathIsClean(dir, rel);
    if dir + "/" <= local {
      var rest := local[|dir + "/"|..];
      assert local == dir + "/" + rest;
      PrefixMeansClean(dir, rel, rest);
    }
    if Clean(dir) == dir && Kept(dir) != [] {
      RenderUnder(dir, rel);
      DotOrSlash(dir);
      TrimAtSlash(dir, Glue(rel));
    }
  }

  lemma PrefixMeansClean(dir: string, rel: seq<string>, rest: string)
    requires dir != "" && rel != [] && AllOrdinary(rel)
    requires Render(Rooted(dir), Kept(dir) + rel) == dir + "/" + rest
    ensures Clean(dir) == dir && Kept(dir) != []
  {
    var r, all := Rooted(dir), Kept(dir) + rel;
    KeptIsNormal(dir);
    NormalThenOrdinary(r, Kept(dir), rel);
    SplitOfRender(r, all);
    SplitAtSlash(dir, rest);
    if r {
      OnlyRootHasOne(dir);
      FrontOfConcat([""], all, Split(dir), Split(rest));
    } else {
      assert [] + all == all;
      FrontOfConcat([], all, Split(dir), Split(rest));
    }
    var k := |Split(dir)| - (if r then 1 else 0);
    NormalPrefix(r, all, k);
    SplitGivesKept(dir, all[..k]);
  }

  /** A rooted path that is not empty has more than the empty component in front of its slash. */
  lemma OnlyRootHasOne(dir: string)
    requires Rooted(dir)
    ensures |Split(dir)| > 1
  {
    SplitOfRooted(dir);
  }

  /** The front part of two ways to divide the same components. */
  lemma FrontOfConcat(lead: seq<string>, all: seq<string>, front: seq<string>, back: seq<string>)
    requires lead + all == front + back && |lead| <= |front|
    ensures |front| - |lead| <= |all| && front == lead + all[..|front| - |lead|]
  {
    assert front == (front + back)[..|front|];
    assert (lead + all)[..|front|] == lead + all[..|front| - |lead|];
  }

  lemma SplitTellsApart(p: string, q: string)
    ensures p == q <==> Split(p) == Split(q)
  {
    GlueOfSplit(p);
    GlueOfSplit(q);
  }

  /** A path whose components are already in cleaned form is clean. */
  lemma SplitGivesKept(dir: string, cs: seq<string>)
    requires cs != [] && Normal(Rooted(dir), cs) && Split(dir) == (if Rooted(dir) then [""] + cs else cs)
    ensures Kept(dir) == cs && Clean(dir) == dir
  {
    var lead := if Rooted(dir) then [""] else [];
    assert Split(dir) == lead + cs;
    ReduceConcat(Rooted(dir), [], lead, cs);
    ReduceOfNormal(Rooted(dir), [], cs);
    assert [] + cs == cs;
    SplitOfRender(Rooted(dir), cs);
    SplitTellsApart(dir, Clean(dir));
  }

  // ---------------------------------------------------------------- the names

  /** The components in front of the relative path in every object name of a directory. */
  function Front(videoPath: string, outputPrefix: string): seq<string> {
    var p := EffectivePrefix(videoPath, outputPrefix);
    if Clean(videoPath) == videoPath then Kept(p) else Reduce(Rooted(p), Kept(p), Kept(videoPath))
  }

  lemma FrontIsNormal(videoPath: string, outputPrefix: string)
    ensures Normal(Rooted(EffectivePrefix(videoPath, outputPrefix)), Front(videoPath, outputPrefix))
  {
    var p := EffectivePrefix(videoPath, outputPrefix);
    KeptIsNormal(p);
    KeptHasNoSlash(videoPath);
    ReduceIsNormal(Rooted(p), Kept(p), Kept(videoPath));
  }

  /** Joining a prefix with a cleaned path. */
  lemma JoinRendered(p: string, rooted: bool, cs: seq<string>)
    requires p != "" && cs != [] && Normal(rooted, cs)
    ensures Join(p, Render(rooted, cs)) == Render(Rooted(p), Reduce(Rooted(p), Kept(p), cs))
  {
    var q := Render(rooted, cs);
    SplitOfRender(rooted, cs);
    GlueStarts(cs);
    SplitAtSlash(p, q);
    assert Rooted(p + "/" + q) == Rooted(p);
    ReduceConcat(Rooted(p), [], Split(p), Split(q));
    if rooted { assert ([""] + cs)[1..] == cs; }
  }

  /** Every object name is the front of its directory followed by the relative path. */
  lemma NameShape(videoPath: string, outputPrefix: string, rel: seq<string>)
    requires videoPath != "" && rel != [] && AllOrdinary(rel)
    ensures NameOf(videoPath, outputPrefix, rel)
         == Render(Rooted(EffectivePrefix(videoPath, outputPrefix)), Front(videoPath, outputPrefix) + rel)
  {
    var p := EffectivePrefix(videoPath, outputPrefix);
    BaseNotEmpty(videoPath);
    var local := LocalPath(videoPath, rel);
    TrimsExactlyWhenClean(videoPath, rel);
    if videoPath + "/" <= local {
      JoinRelative(p, rel);
    } else {
      LocalPathIsClean(videoPath, rel);
      KeptIsNormal(videoPath);
      NormalThenOrdinary(Rooted(videoPath), Kept(videoPath), rel);
      JoinRendered(p, Rooted(videoPath), Kept(videoPath) + rel);
      ReduceConcat(Rooted(p), Kept(p), Kept(videoPath), rel);
      ReduceOrdinary(Rooted(p), Reduce(Rooted(p), Kept(p), Kept(videoPath)), rel);
    }
  }

  /** For every directory and every prefix, different files get different object names. */
  lemma NamesAreInjective(videoPath: string, outputPrefix: string, r1: seq<string>, r2: seq<string>)
    requires videoPath != "" && r1 != [] && r2 != [] && AllOrdinary(r1) && AllOrdinary(r2)
    requires NameOf(videoPath, outputPrefix, r1) == NameOf(videoPath, outputPrefix, r2)
    ensures r1 == r2
  {
    var r := Rooted(EffectivePrefix(videoPath, outputPrefix));
    var front := Front(videoPath, outputPrefix);
    NameShape(videoPath, outputPrefix, r1);
    NameShape(videoPath, outputPrefix, r2);
    FrontIsNormal(videoPath, outputPrefix);
    NormalThenOrdinary(r, front, r1);
    NormalThenOrdinary(r, front, r2);
    RenderTellsApart(r, front + r1, front + r2);
    assert (front + r1)[|front|..] == r1 && (front + r2)[|front|..] == r2;
  }

  /** With a clean VideoPath the name is the relative path put under the cleaned prefix. */
  lemma NameIsUnderPrefix(videoPath: string, outputPrefix: string, rel: seq<string>)
    requires videoPath != "" && Clean(videoPath) == videoPath && rel != [] && AllOrdinary(rel)
    ensures NameOf(videoPath, outputPrefix, rel) == Under(Clean(EffectivePrefix(videoPath, outputPrefix)), Glue(rel))
  {
    NameShape(videoPath, outputPrefix, rel);
    RenderUnder(EffectivePrefix(videoPath, outputPrefix), rel);
  }

  /** Base drops slashes at the end. */
  lemma BaseAtTheEdge(storage: string, v: string)
    requires Ordinary(v)
    ensures Base(storage + "/" + v + "/") == v && Base("") == "." && Base("/") == "/"
  {
    var p := storage + "/" + v;
    BaseOfVideoPath(storage, v);
    assert (p + "/")[..|p|] == p && Trimmed(p + "/") == Trimmed(p);
    assert Trimmed("/") == "" && Split("") == [""];
  }

  /** With a prefix the name is the relative path under the cleaned prefix. */
  lemma NameUnderGivenPrefix(videoPath: string, outputPrefix: string, rel: seq<string>)
    requires videoPath != "" && Clean(videoPath) == videoPath && outputPrefix != "" && rel != [] && AllOrdinary(rel)
    ensures NameOf(videoPath, outputPrefix, rel) == Under(Clean(outputPrefix), Glue(rel))
  {
    NameIsUnderPrefix(videoPath, outputPrefix, rel);
  }

  /** Without one it is the relative path under the name of the video's directory. */
  lemma NameUnderVideo(storage: string, v: string, rel: seq<string>)
    requires Ordinary(v) && Clean(storage + "/" + v) == storage + "/" + v && rel != [] && AllOrdinary(rel)
    ensures NameOf(storage + "/" + v, "", rel) == v + "/" + Glue(rel)
  {
    BaseOfVideoPath(storage, v);
    NameIsUnderPrefix(storage + "/" + v, "", rel);
    KeptOfName(v);
  }

  /** The file "f" of "/s/v", uploaded under "p/q/", becomes "p/q/f", and without a prefix "v/f". */
  lemma NamesByExample(s: string, v: string, p: string, q: string, f: string)
    requires Ordinary(s) && Ordinary(v) && Ordinary(p) && Ordinary(q) && Ordinary(f)
    ensures NameOf("/" + s + "/" + v, p + "/" + q + "/", [f]) == p + "/" + q + "/" + f
    ensures NameOf("/" + s + "/" + v, "", [f]) == v + "/" + f
  {
    var path, prefix := "/" + s + "/" + v, p + "/" + q;
    assert Glue([f]) == f;
    CleanAtTheEdge();
    CleanRooted(s);
    CleanAppends("/" + s, v);
    assert path == Under("/" + s, v);
    NameUnderVideo("/" + s, v, [f]);
    KeptOfName(p);
    CleanAppends(p, q);
    CleanDropsEmpty(prefix);
    NameUnderGivenPrefix(path, prefix + "/", [f]);
    assert |prefix| > 1;
  }

  lemma CleanRooted(s: string)
    requires Ordinary(s)
    ensures Clean("/" + s) == "/" + s
  {
    SplitNoSlash(s);
    assert ("/" + s)[1..] == s;
    assert ["", s][1..] == [s];
    ReduceOrdinary(true, [], [s]);
    assert Reduce(true, [], ["", s]) == Reduce(true, [], [s]);
  }

  /** The name is the documented one, prefix joined with the relative path, exactly when VideoPath
      is clean or the prefix swallows it whole (as prefix "a/v" does with VideoPath "../v/."). */
  lemma DocumentedNameExactly(videoPath: string, outputPrefix: string, rel: seq<string>)
    requires videoPath != "" && rel != [] && AllOrdinary(rel)
    ensures var p := EffectivePrefix(videoPath, outputPrefix);
            NameOf(videoPath, outputPrefix, rel) == Join(p, Glue(rel))
            <==> Clean(videoPath) == videoPath || Join(p, Clean(videoPath)) == Clean(p)
  {
    var p := EffectivePrefix(videoPath, outputPrefix);
    var r, front := Rooted(p), Front(videoPath, outputPrefix);
    BaseNotEmpty(videoPath);
    NameShape(videoPath, outputPrefix, rel);
    JoinRelative(p, rel);
    FrontIsNormal(videoPath, outputPrefix);
    KeptIsNormal(p);
    NormalThenOrdinary(r, front, rel);
    NormalThenOrdinary(r, Kept(p), rel);
    if Render(r, front + rel) == Render(r, Kept(p) + rel) {
      RenderTellsApart(r, front + rel, Kept(p) + rel);
      assert (front + rel)[..|front|] == front && (Kept(p) + rel)[..|front|] == Kept(p);
    }
    if Clean(videoPath) != videoPath {
      JoinCleaned(p, videoPath);
      if Render(r, front) == Render(r, Kept(p)) {
        RenderTellsApart(r, front, Kept(p));
      }
    }
  }

  lemma KeptOfName(c: string)
    requires Ordinary(c)
    ensures Kept(c) == [c] && Clean(c) == c && !Rooted(c)
  {
    SplitNoSlash(c);
    assert c[0] in c;
    ReduceOrdinary(false, [], [c]);
  }

  lemma KeptOfDotted(v: string)
    requires Ordinary(v)
    ensures Kept("./" + v) == [v] && Clean("./" + v) == v
  {
    assert "./" + v == "." + "/" + v;
    SplitAtSlash(".", v);
    SplitNoSlash(".");
    SplitNoSlash(v);
    ReduceConcat(false, [], ["."], [v]);
    assert Reduce(false, [], ["."]) == [];
    ReduceOrdinary(false, [], [v]);
  }

  /** So it is not for every directory: below "./v" the file "f" is uploaded as "p/v/f". */
  lemma UncleanDirectoryShowsInNames(v: string, p: string, f: string)
    requires Ordinary(v) && Ordinary(p) && Ordinary(f)
    ensures NameOf("./" + v, p, [f]) == p + "/" + (v + "/" + f) != p + "/" + f == Join(p, Glue([f]))
  {
    KeptOfName(p);
    KeptOfDotted(v);
    ReduceOrdinary(false, [p], [v]);
    NameShape("./" + v, p, [f]);
    assert [p] + [v] + [f] == [p] + [v, f];
    assert Glue([f]) == f && [v, f][1..] == [f];
    GlueConcat([p], [v, f]);
    JoinRelative(p, [f]);
    GlueConcat([p], [f]);
    assert |p + "/" + (v + "/" + f)| > |p + "/" + f|;
  }

  lemma JoinCleaned(p: string, q: string)
    requires p != ""
    ensures Join(p, Clean(q)) == Render(Rooted(p), Reduce(Rooted(p), Kept(p), Kept(q)))
  {
    KeptIsNormal(q);
    if Kept(q) != [] {
      JoinRendered(p, Rooted(q), Kept(q));
    } else {
      assert "/" + Glue([]) == "/";
      SplitAtSlash(p, Clean(q));
      assert Rooted(p + "/" + Clean(q)) == Rooted(p);
      SplitNoSlash(".");
      assert Split("/") == ["", ""];
      ReduceConcat(Rooted(p), [], Split(p), Split(Clean(q)));
      var r, k := Rooted(p), Kept(p);
      assert Reduce(r, k, ["."]) == k;
      assert ["", ""][1..] == [""];
      assert Reduce(r, k, ["", ""]) == Reduce(r, k, [""]) == k;
    }
  }

  // ---------------------------------------------------------------- directories of different videos

  lemma BaseOfVideoPath(storage: string, video: string)
    requires Ordinary(video)
    ensures Base(storage + "/" + video) == video
  {
    var p := storage + "/" + video;
    assert p[|p| - 1] == video[|video| - 1] && video[|video| - 1] in video;
    SplitAtSlash(storage, video);
    SplitNoSlash(video);
  }

  /** What path.Clean keeps of the directory in front of the last component. */
  function KeptAbove(storage: string): seq<string> { Reduce(Rooted(storage + "/"), [], Split(storage)) }

  /** Whether a video's directory is a clean path does not depend on the video. */
  predicate CleanAbove(storage: string) {
    Split(storage) == (if Rooted(storage + "/") then [""] else []) + KeptAbove(storage)
  }

  lemma KeptOfVideoPath(storage: string, v: string)
    requires Ordinary(v)
    ensures Rooted(storage + "/" + v) == Rooted(storage + "/")
    ensures Kept(storage + "/" + v) == KeptAbove(storage) + [v]
    ensures Normal(Rooted(storage + "/"), KeptAbove(storage))
  {
    var r := Rooted(storage + "/");
    SplitAtSlash(storage, v);
    SplitNoSlash(v);
    ReduceConcat(r, [], Split(storage), [v]);
    ReduceIsNormal(r, [], Split(storage));
  }

  lemma CleanVideoPath(storage: string, v: string)
    requires Ordinary(v)
    ensures Clean(storage + "/" + v) == storage + "/" + v <==> CleanAbove(storage)
  {
    var p := storage + "/" + v;
    var r := Rooted(storage + "/");
    var lead := if r then [""] else [];
    KeptOfVideoPath(storage, v);
    KeptIsNormal(p);
    SplitOfRender(r, Kept(p));
    SplitAtSlash(storage, v);
    SplitNoSlash(v);
    assert lead + (KeptAbove(storage) + [v]) == lead + KeptAbove(storage) + [v];
    SplitTellsApart(p, Clean(p));
    SameFront(Split(storage), lead + KeptAbove(storage), v);
  }

  lemma SameFront(a: seq<string>, b: seq<string>, c: string)
    ensures a + [c] == b + [c] <==> a == b
  {
    assert (a + [c])[..|a|] == a && (b + [c])[..|b|] == b;
    assert |a + [c]| == |a| + 1 && |b + [c]| == |b| + 1;
  }

  /** Cleaning a path below a video's name: a leading ".." takes the name away, otherwise it stays. */
  lemma ReduceBelowName(rooted: bool, v: string, cs: seq<string>)
    requires Ordinary(v) && Normal(rooted, cs)
    ensures Reduce(false, [v], cs) == if cs != [] && cs[0] == ".." then Reduce(false, [], cs[1..]) else [v] + cs
  {
    if cs != [] && cs[0] != ".." {
      NoneClimbs(rooted, cs, |cs|);
      ReduceOrdinary(false, [v], cs);
    }
  }

  lemma {:induction false} NoneClimbs(rooted: bool, cs: seq<string>, n: nat)
    requires Normal(rooted, cs) && cs != [] && cs[0] != ".." && n <= |cs|
    ensures forall i | 0 <= i < n :: Ordinary(cs[i])
    decreases n
  {
    if n > 0 {
      NoneClimbs(rooted, cs, n - 1);
      assert n > 1 ==> Ordinary(cs[n - 2]);
    }
  }

  lemma FrontOfVideo(storage: string, v: string)
    requires Ordinary(v)
    ensures Front(storage + "/" + v, "") ==
            if CleanAbove(storage) then [v] else Reduce(false, [v], KeptAbove(storage)) + [v]
    ensures !Rooted(EffectivePrefix(storage + "/" + v, ""))
  {
    BaseOfVideoPath(storage, v);
    CleanVideoPath(storage, v);
    KeptOfVideoPath(storage, v);
    KeptOfName(v);
    ReduceConcat(false, [v], KeptAbove(storage), [v]);
  }

  /** The place where the names of two videos' outputs differ. */
  lemma FrontsDiffer(storage: string, v1: string, v2: string) returns (k: nat)
    requires Ordinary(v1) && Ordinary(v2)
    ensures var f1, f2 := Front(storage + "/" + v1, ""), Front(storage + "/" + v2, "");
            k < |f1| && k < |f2| && f1[k] == v1 && f2[k] == v2
  {
    var above := KeptAbove(storage);
    FrontOfVideo(storage, v1);
    FrontOfVideo(storage, v2);
    KeptOfVideoPath(storage, v1);
    ReduceBelowName(Rooted(storage + "/"), v1, above);
    ReduceBelowName(Rooted(storage + "/"), v2, above);
    k := if !CleanAbove(storage) && above != [] && above[0] == ".." then |Front(storage + "/" + v1, "")| - 1 else 0;
  }

  /** With an empty prefix, outputs of different videos never get the same object name, whatever the
      storage directory is called. */
  lemma EmptyPrefixKeepsVideosApart(storage: string, v1: string, v2: string, r1: seq<string>, r2: seq<string>)
    requires Ordinary(v1) && Ordinary(v2) && v1 != v2
    requires r1 != [] && r2 != [] && AllOrdinary(r1) && AllOrdinary(r2)
    ensures NameOf(storage + "/" + v1, "", r1) != NameOf(storage + "/" + v2, "", r2)
  {
    var k := FrontsDiffer(storage, v1, v2);
    var f1 := FrontShape(storage, v1, r1);
    var f2 := FrontShape(storage, v2, r2);
    if NameOf(storage + "/" + v1, "", r1) == NameOf(storage + "/" + v2, "", r2) {
      RenderTellsApart(false, f1 + r1, f2 + r2);
    }
    assert (f1 + r1)[k] == v1 && (f2 + r2)[k] == v2;
  }

  lemma FrontShape(storage: string, v: string, rel: seq<string>) returns (front: seq<string>)
    requires Ordinary(v) && rel != [] && AllOrdinary(rel)
    ensures front == Front(storage + "/" + v, "")
    ensures NameOf(storage + "/" + v, "", rel) == Render(false, front + rel) && Normal(false, front + rel)
  {
    front := Front(storage + "/" + v, "");
    NameShape(storage + "/" + v, "", rel);
    FrontOfVideo(storage, v);
    FrontIsNormal(storage + "/" + v, "");
    NormalThenOrdinary(false, front, rel);
  }
}
