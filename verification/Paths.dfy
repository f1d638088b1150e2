/** Lexical slash-separated paths, as Go's path and path/filepath packages treat them on Unix. */
module Paths {

  /** The components between slashes; never empty, and "" for two adjacent slashes. */
  function Split(p: string): (cs: seq<string>)
    ensures |cs| >= 1
    ensures forall c | c in cs :: '/' !in c
  {
    if p == "" then [""]
    else if p[0] == '/' then [""] + Split(p[1..])
    else
      var cs := Split(p[1..]);
      [[p[0]] + cs[0]] + cs[1..]
  }

  function Glue(cs: seq<string>): string {
    if cs == [] then "" else if |cs| == 1 then cs[0] else cs[0] + "/" + Glue(cs[1..])
  }

  /** A file or directory name: what a directory entry other than "." and ".." can be called. */
  predicate Ordinary(c: string) {
    c != "" && c != "." && c != ".." && '/' !in c
  }

  predicate AllOrdinary(cs: seq<string>) {
    forall i | 0 <= i < |cs| :: Ordinary(cs[i])
  }

  /** What path.Clean does with the next component, `out` being what is kept so far. */
  function Push(rooted: bool, out: seq<string>, c: string): seq<string> {
    if c == "" || c == "." then out
    else if c != ".." then out + [c]
    else if out != [] && out[|out| - 1] != ".." then out[..|out| - 1]
    else if rooted then out
    else out + [c]
  }

  function Reduce(rooted: bool, out: seq<string>, cs: seq<string>): seq<string>
    decreases |cs|
  {
    if cs == [] then out else Reduce(rooted, Push(rooted, out, cs[0]), cs[1..])
  }

  predicate Rooted(p: string) { p != "" && p[0] == '/' }

  /** The components that path.Clean keeps. */
  function Kept(p: string): seq<string> { Reduce(Rooted(p), [], Split(p)) }

  function Render(rooted: bool, cs: seq<string>): string {
    if rooted then "/" + Glue(cs) else if cs == [] then "." else Glue(cs)
  }

  /** path.Clean */
  function Clean(p: string): string { Render(Rooted(p), Kept(p)) }

  /** path.Join of two elements. */
  function Join(a: string, b: string): string {
    if a == "" then (if b == "" then "" else Clean(b)) else Clean(a + "/" + b)
  }

  function Trimmed(p: string): string {
    if p != "" && p[|p| - 1] == '/' then Trimmed(p[..|p| - 1]) else p
  }

  /** filepath.Base */
  function Base(p: string): string {
    if p == "" then "."
    else
      var cs := Split(Trimmed(p));
      if cs[|cs| - 1] == "" then "/" else cs[|cs| - 1]
  }

  /** strings.TrimPrefix */
  function TrimPrefix(s: string, prefix: string): string {
    if prefix <= s then s[|prefix|..] else s
  }

  /** A relative path put under a cleaned one. */
  function Under(dir: string, rel: string): string {
    if dir == "." then rel else if dir == "/" then "/" + rel else dir + "/" + rel
  }

  // ---------------------------------------------------------------- splitting and gluing

  lemma {:induction false} SplitAtSlash(a: string, b: string)
    ensures Split(a + "/" + b) == Split(a) + Split(b)
  {
    if a == "" {
      assert a + "/" + b == "/" + b && ("/" + b)[1..] == b;
    } else {
      assert (a + "/" + b)[1..] == a[1..] + "/" + b;
      SplitAtSlash(a[1..], b);
    }
  }

  lemma {:induction false} SplitNoSlash(c: string)
    requires '/' !in c
    ensures Split(c) == [c]
  {
    if c != "" {
      assert c[0] in c;
      SplitNoSlash(c[1..]);
      assert [c[0]] + c[1..] == c;
    }
  }

  lemma {:induction false} SplitOfGlue(cs: seq<string>)
    requires cs != [] && forall c | c in cs :: '/' !in c
    ensures Split(Glue(cs)) == cs
    decreases |cs|
  {
    if |cs| == 1 {
      SplitNoSlash(cs[0]);
    } else {
      SplitNoSlash(cs[0]);
      SplitOfGlue(cs[1..]);
      SplitAtSlash(cs[0], Glue(cs[1..]));
    }
  }

  lemma {:induction false} GlueOfSplit(p: string)
    ensures Glue(Split(p)) == p
  {
    if p != "" {
      GlueOfSplit(p[1..]);
      var cs := Split(p[1..]);
      if p[0] == '/' {
        assert Split(p)[1..] == cs;
      } else if |cs| > 1 {
        assert Split(p)[1..] == cs[1..];
      }
    }
  }

  lemma {:induction false} GlueConcat(a: seq<string>, b: seq<string>)
    requires a != [] && b != []
    ensures Glue(a + b) == Glue(a) + "/" + Glue(b)
    decreases |a|
  {
    if |a| == 1 {
      assert (a + b)[1..] == b;
    } else {
      assert (a + b)[1..] == a[1..] + b;
      GlueConcat(a[1..], b);
    }
  }

  // ---------------------------------------------------------------- reducing

  lemma {:induction false} ReduceConcat(rooted: bool, out: seq<string>, a: seq<string>, b: seq<string>)
    ensures Reduce(rooted, out, a + b) == Reduce(rooted, Reduce(rooted, out, a), b)
    decreases |a|
  {
    if a == [] {
      assert a + b == b;
    } else {
      assert (a + b)[1..] == a[1..] + b;
      ReduceConcat(rooted, Push(rooted, out, a[0]), a[1..], b);
    }
  }

  lemma {:induction false} ReduceOrdinary(rooted: bool, out: seq<string>, cs: seq<string>)
    requires AllOrdinary(cs)
    ensures Reduce(rooted, out, cs) == out + cs
    decreases |cs|
  {
    if cs != [] {
      ReduceOrdinary(rooted, out + [cs[0]], cs[1..]);
      assert out + [cs[0]] + cs[1..] == out + cs;
    }
  }

  lemma {:induction false} ReduceKeepsNoSlash(rooted: bool, out: seq<string>, cs: seq<string>)
    requires (forall c | c in out :: '/' !in c && c != "") && forall c | c in cs :: '/' !in c
    ensures forall c | c in Reduce(rooted, out, cs) :: '/' !in c && c != ""
    decreases |cs|
  {
    if cs != [] {
      assert cs[0] in cs;
      ReduceKeepsNoSlash(rooted, Push(rooted, out, cs[0]), cs[1..]);
    }
  }

  lemma KeptHasNoSlash(p: string)
    ensures forall c | c in Kept(p) :: '/' !in c && c != ""
  {
    ReduceKeepsNoSlash(Rooted(p), [], Split(p));
  }

  /** Joining a non-empty path with a relative one: the kept components, then the relative ones. */
  lemma JoinRelative(p: string, cs: seq<string>)
    requires p != "" && cs != [] && AllOrdinary(cs)
    ensures Join(p, Glue(cs)) == Render(Rooted(p), Kept(p) + cs) == Under(Clean(p), Glue(cs))
  {
    var rel := Glue(cs);
    SplitOfGlue(cs);
    SplitAtSlash(p, rel);
    assert Rooted(p + "/" + rel) == Rooted(p);
    ReduceConcat(Rooted(p), [], Split(p), cs);
    ReduceOrdinary(Rooted(p), Kept(p), cs);
    RenderUnder(p, cs);
  }

  lemma RenderUnder(p: string, cs: seq<string>)
    requires cs != []
    ensures Render(Rooted(p), Kept(p) + cs) == Under(Clean(p), Glue(cs))
  {
    var kept := Kept(p);
    KeptHasNoSlash(p);
    if kept == [] {
      assert kept + cs == cs;
      assert "/" + Glue([]) == "/";
    } else {
      GlueConcat(kept, cs);
      assert kept[0] in kept;
      GlueStarts(kept);
      DotOrSlash(p);
      if Rooted(p) {
        assert Clean(p) == "/" + Glue(kept);
      } else {
        assert Clean(p) == Glue(kept);
      }
    }
  }

  lemma GlueStarts(cs: seq<string>)
    requires cs != [] && cs[0] != ""
    ensures Glue(cs) != "" && Glue(cs)[0] == cs[0][0]
  {
  }

  /** Only a path that keeps nothing cleans to "." or "/". */
  lemma DotOrSlash(p: string)
    requires Kept(p) != []
    ensures Clean(p) != "." && Clean(p) != "/"
  {
    KeptHasNoSlash(p);
    var kept := Kept(p);
    assert kept[0] in kept;
    GlueStarts(kept);
    if !Rooted(p) && Glue(kept) == "." {
      SplitOfGlue(kept);
      SplitNoSlash(".");
      assert kept == ["."];
      ReduceKeepsNoDot(Rooted(p), [], Split(p));
    }
  }

  lemma {:induction false} ReduceKeepsNoDot(rooted: bool, out: seq<string>, cs: seq<string>)
    requires "." !in out
    ensures "." !in Reduce(rooted, out, cs)
    decreases |cs|
  {
    if cs != [] {
      ReduceKeepsNoDot(rooted, Push(rooted, out, cs[0]), cs[1..]);
    }
  }

  // ---------------------------------------------------------------- cleaned components

  /** Components as path.Clean leaves them: names, after ".." at the start of an unrooted path. */
  predicate Normal(rooted: bool, cs: seq<string>) {
    forall i | 0 <= i < |cs| ::
      && cs[i] != "" && cs[i] != "." && '/' !in cs[i]
      && (cs[i] == ".." ==> !rooted && (i == 0 || cs[i - 1] == ".."))
  }

  lemma {:induction false} ReduceIsNormal(rooted: bool, out: seq<string>, cs: seq<string>)
    requires Normal(rooted, out) && forall c | c in cs :: '/' !in c
    ensures Normal(rooted, Reduce(rooted, out, cs))
    decreases |cs|
  {
    if cs != [] {
      assert cs[0] in cs;
      ReduceIsNormal(rooted, Push(rooted, out, cs[0]), cs[1..]);
    }
  }

  lemma {:induction false} ReduceOfNormal(rooted: bool, out: seq<string>, cs: seq<string>)
    requires Normal(rooted, out + cs)
    ensures Reduce(rooted, out, cs) == out + cs
    decreases |cs|
  {
    if cs != [] {
      assert (out + cs)[|out|] == cs[0];
      assert out + [cs[0]] + cs[1..] == out + cs;
      if out != [] { assert (out + cs)[|out| - 1] == out[|out| - 1]; }
      ReduceOfNormal(rooted, out + [cs[0]], cs[1..]);
    }
  }

  lemma NormalThenOrdinary(rooted: bool, a: seq<string>, b: seq<string>)
    requires Normal(rooted, a) && AllOrdinary(b)
    ensures Normal(rooted, a + b)
  {
    var cs := a + b;
    forall i | 0 <= i < |cs|
      ensures cs[i] != "" && cs[i] != "." && '/' !in cs[i]
      ensures cs[i] == ".." ==> !rooted && (i == 0 || cs[i - 1] == "..")
    {
      if i < |a| {
        assert cs[i] == a[i] && (i > 0 ==> cs[i - 1] == a[i - 1]);
      } else {
        assert cs[i] == b[i - |a|] && Ordinary(b[i - |a|]);
      }
    }
  }

  lemma NormalPrefix(rooted: bool, cs: seq<string>, k: nat)
    requires Normal(rooted, cs) && k <= |cs|
    ensures Normal(rooted, cs[..k])
  {
    forall i | 0 <= i < k
      ensures cs[..k][i] != "" && cs[..k][i] != "." && '/' !in cs[..k][i]
      ensures cs[..k][i] == ".." ==> !rooted && (i == 0 || cs[..k][i - 1] == "..")
    {
      assert cs[..k][i] == cs[i] && (i > 0 ==> cs[..k][i - 1] == cs[i - 1]);
    }
  }

  lemma KeptIsNormal(p: string)
    ensures Normal(Rooted(p), Kept(p))
  {
    ReduceIsNormal(Rooted(p), [], Split(p));
  }

  lemma SplitOfRooted(p: string)
    requires Rooted(p)
    ensures Split(p) == [""] + Split(p[1..])
  {
  }

  /** What Split makes of a rendered path, and hence what cleaning it keeps. */
  lemma SplitOfRender(rooted: bool, cs: seq<string>)
    requires Normal(rooted, cs) && cs != []
    ensures Split(Render(rooted, cs)) == (if rooted then [""] + cs else cs)
    ensures Rooted(Render(rooted, cs)) == rooted && Kept(Render(rooted, cs)) == cs
  {
    SplitOfGlue(cs);
    GlueStarts(cs);
    assert Glue(cs)[0] == cs[0][0] && cs[0][0] in cs[0];
    assert [] + cs == cs;
    ReduceOfNormal(rooted, [], cs);
    if rooted {
      assert ("/" + Glue(cs))[1..] == Glue(cs);
      SplitOfRooted("/" + Glue(cs));
      assert ([""] + cs)[1..] == cs;
    }
  }

  /** Rendering tells all cleaned paths apart. */
  lemma RenderTellsApart(rooted: bool, a: seq<string>, b: seq<string>)
    requires Normal(rooted, a) && Normal(rooted, b) && Render(rooted, a) == Render(rooted, b)
    ensures a == b
  {
    if a != [] { SplitOfRender(rooted, a); }
    if b != [] { SplitOfRender(rooted, b); }
    assert "/" + Glue([]) == "/";
    SplitNoSlash(".");
    assert Split("/") == ["", ""];
  }

  // ---------------------------------------------------------------- what path.Clean does

  /** An ordinary component is kept. */
  lemma CleanAppends(p: string, c: string)
    requires p != "" && Ordinary(c)
    ensures Clean(p + "/" + c) == Under(Clean(p), c)
  {
    assert Glue([c]) == c;
    JoinRelative(p, [c]);
  }

  /** ".." takes back the component in front of it. */
  lemma CleanGoesUp(p: string, c: string)
    requires p != "" && Ordinary(c)
    ensures Clean(p + "/" + c + "/..") == Clean(p)
  {
    var r, k := Rooted(p), Kept(p);
    SplitNoSlash(c);
    SplitNoSlash("..");
    SplitAtSlash(p, c);
    SplitAtSlash(p + "/" + c, "..");
    assert p + "/" + c + "/.." == p + "/" + c + "/" + "..";
    assert Rooted(p + "/" + c + "/..") == r;
    ReduceConcat(r, [], Split(p) + [c], [".."]);
    ReduceConcat(r, [], Split(p), [c]);
    assert Reduce(r, k, [c]) == k + [c];
    assert Reduce(r, k + [c], [".."]) == (k + [c])[..|k|] == k;
  }

  /** Empty components and "." are dropped. */
  lemma CleanDropsEmpty(p: string)
    requires p != ""
    ensures Clean(p + "/") == Clean(p) && Clean(p + "/.") == Clean(p)
  {
    var r, k := Rooted(p), Kept(p);
    SplitNoSlash(".");
    SplitAtSlash(p, "");
    SplitAtSlash(p, ".");
    assert p + "/" == p + "/" + "" && p + "/." == p + "/" + ".";
    assert Rooted(p + "/") == r && Rooted(p + "/.") == r;
    ReduceConcat(r, [], Split(p), [""]);
    ReduceConcat(r, [], Split(p), ["."]);
    assert Reduce(r, k, [""]) == k && Reduce(r, k, ["."]) == k;
  }

  /** ".." stays in front of an unrooted path and is dropped in front of a rooted one; a path that keeps
      nothing is "." or "/". */
  lemma CleanAtTheEdge()
    ensures Clean("") == "." && Clean("/") == "/"
    ensures Clean("..") == ".." && Clean("../..") == "../.." && Clean("/..") == "/"
  {
    SplitNoSlash("..");
    SplitAtSlash("..", "..");
    SplitAtSlash("", "..");
    assert "../.." == ".." + "/" + ".." && "/.." == "" + "/" + "..";
    assert Split("/") == ["", ""] && Split("..") == [".."];
    assert Split("../..") == ["..", ".."] && Split("/..") == ["", ".."];
    assert ["", ""][1..] == [""] && ["..", ".."][1..] == [".."] && ["", ".."][1..] == [".."];
    assert [".."][1..] == [] && [""][1..] == [];
    assert Kept("/") == [] && Kept("/..") == [] && Kept("..") == [".."];
    assert Reduce(false, [".."], [".."]) == ["..", ".."];
    assert Kept("../..") == ["..", ".."];
  }

  /** Cleaning a clean path changes nothing. */
  lemma CleanIsIdempotent(p: string)
    ensures Clean(Clean(p)) == Clean(p)
  {
    KeptIsNormal(p);
    if Kept(p) != [] {
      SplitOfRender(Rooted(p), Kept(p));
    } else {
      CleanAtTheEdge();
      SplitNoSlash(".");
      assert Clean(".") == ".";
      assert "/" + Glue([]) == "/";
    }
  }
}
