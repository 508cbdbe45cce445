/**
 * POSIX path handling as Node's `path` module performs it on the paths the
 * worker builds: `basename`, `extname`, `basename(p, extname(p))` and
 * `resolve`.
 */
module Paths {
  import opened Common

  /** A resolved absolute path as its list of components: "/a/b" is ["a", "b"], "/" is []. */
  type Path = seq<string>

  /** Removes every trailing '/'. */
  function TrimTrailingSlashes(s: string): (r: string)
    ensures r <= s
    ensures r == [] || r[|r| - 1] != '/'
    ensures forall i :: |r| <= i < |s| ==> s[i] == '/'
  {
    if s != [] && s[|s| - 1] == '/' then TrimTrailingSlashes(s[..|s| - 1]) else s
  }

  /** The index just past the last '/' of `s`, or 0 when there is none. */
  function AfterLastSlash(s: string): (k: nat)
    ensures k <= |s|
    ensures k == 0 || s[k - 1] == '/'
    ensures forall i :: k <= i < |s| ==> s[i] != '/'
  {
    if s == [] then 0
    else if s[|s| - 1] == '/' then |s|
    else AfterLastSlash(s[..|s| - 1])
  }

  /** `path.posix.basename(p)`: the last component once trailing slashes are dropped. */
  function Basename(p: string): (b: string)
    ensures '/' !in b
  {
    var t := TrimTrailingSlashes(p);
    t[AfterLastSlash(t)..]
  }

  /** The index of the last '.' of `s`, if any. */
  function LastDot(s: string): (r: Option<nat>)
    ensures r.None? <==> '.' !in s
    ensures r.Some? ==> r.value < |s| && s[r.value] == '.' && '.' !in s[r.value + 1..]
  {
    if s == [] then None
    else if s[|s| - 1] == '.' then Some(|s| - 1)
    else
      assert s == s[..|s| - 1] + [s[|s| - 1]];
      LastDot(s[..|s| - 1])
  }

  /**
   * `path.posix.extname(p)`: from the last '.' of the base name to its end;
   * empty when there is no dot, when the only dot of interest opens the
   * name (a dotfile such as ".bashrc") and for the name "..".
   */
  function Extname(p: string): string {
    var b := Basename(p);
    match LastDot(b)
    case None => ""
    case Some(d) => if d == 0 || b == ".." then "" else b[d..]
  }

  /**
   * The extension is empty exactly when the base name has no dot, when its
   * only dot is its first character, and for ".."; otherwise it is a proper
   * suffix of the base name that starts with its only dot.
   */
  lemma ExtnameSpec(p: string)
    ensures var b, e := Basename(p), Extname(p);
      && (e == [] <==> ('.' !in b || (b[0] == '.' && '.' !in b[1..]) || b == ".."))
      && (e != [] ==> |e| < |b| && b[|b| - |e|..] == e && e[0] == '.' && '.' !in e[1..])
  {
    var b := Basename(p);
    match LastDot(b)
    case None =>
    case Some(d) =>
      if b[0] == '.' && '.' !in b[1..] {
        assert d == 0;
      }
  }

  /**
   * `path.basename(p, path.extname(p))`: the base name with its last
   * extension removed. Node's suffix matching is modelled only for this
   * suffix, which is always a proper suffix of the base name or empty.
   */
  function Stem(p: string): string {
    var b := Basename(p);
    ExtnameSpec(p);
    b[..|b| - |Extname(p)|]
  }

  /** Putting the extension back after the stem gives the base name. */
  lemma StemSpec(p: string)
    ensures Stem(p) + Extname(p) == Basename(p)
  {
    ExtnameSpec(p);
  }

  /** Splits a string at every '/'. */
  function Split(s: string): (parts: seq<string>)
    ensures |parts| >= 1
    ensures forall i :: 0 <= i < |parts| ==> '/' !in parts[i]
  {
    if s == [] then [""]
    else
      var rest := Split(s[1..]);
      if s[0] == '/' then [""] + rest else [[s[0]] + rest[0]] + rest[1..]
  }

  /** Joins components with '/' between them: the inverse of `Split`. */
  function Join(parts: seq<string>): string {
    if parts == [] then ""
    else if |parts| == 1 then parts[0]
    else parts[0] + "/" + Join(parts[1..])
  }

  /** Joining the components of a split gives the string back. */
  lemma {:induction false} JoinSplit(s: string)
    ensures Join(Split(s)) == s
  {
    if s != [] {
      var rest := Split(s[1..]);
      JoinSplit(s[1..]);
      if s[0] == '/' {
        assert Split(s) == [""] + rest;
        assert Split(s)[1..] == rest;
      } else if |rest| == 1 {
        assert Split(s) == [[s[0]] + rest[0]];
      } else {
        var parts := Split(s);
        assert parts == [[s[0]] + rest[0]] + rest[1..];
        assert parts[1..] == rest[1..];
        assert Join(rest) == rest[0] + "/" + Join(rest[1..]);
        assert s == [s[0]] + s[1..];
      }
    }
  }

  /** A slash-free component followed by '/' splits off as one component. */
  lemma {:induction false} SplitAfterName(a: string, t: string)
    requires '/' !in a
    ensures Split(a + "/" + t) == [a] + Split(t)
  {
    if a == [] {
      assert ("/" + t)[1..] == t;
    } else {
      assert (a + "/" + t)[1..] == a[1..] + "/" + t;
      SplitAfterName(a[1..], t);
      assert [a[0]] + a[1..] == a;
    }
  }

  /** Splitting the join of slash-free components gives the components back. */
  lemma {:induction false} SplitJoin(parts: seq<string>)
    requires |parts| >= 1
    requires forall i :: 0 <= i < |parts| ==> '/' !in parts[i]
    ensures Split(Join(parts)) == parts
  {
    if |parts| == 1 {
      SplitNoSlash(parts[0]);
    } else {
      SplitJoin(parts[1..]);
      SplitAfterName(parts[0], Join(parts[1..]));
      assert parts == [parts[0]] + parts[1..];
    }
  }

  /** Applies path components to a resolved path: "" and "." stay, ".." goes up (never above the root). */
  function Walk(base: Path, comps: seq<string>): Path
    decreases |comps|
  {
    if comps == [] then base
    else if comps[0] == "" || comps[0] == "." then Walk(base, comps[1..])
    else if comps[0] == ".." then Walk(if base == [] then [] else base[..|base| - 1], comps[1..])
    else Walk(base + [comps[0]], comps[1..])
  }

  /**
   * `path.resolve(base, rel)` once `base` is already resolved: an absolute
   * `rel` starts again from the root; the result is normalised.
   */
  function Resolve(base: Path, rel: string): Path {
    Walk(if rel != [] && rel[0] == '/' then [] else base, Split(rel))
  }

  /** `path.resolve(a, b)` from the working directory `cwd`. */
  function Resolve2(cwd: Path, a: string, b: string): Path {
    Resolve(Resolve(cwd, a), b)
  }

  /** The text of a resolved path: "/" followed by its components joined by "/". */
  function PathText(p: Path): (t: string)
    ensures |t| >= 1 && t[0] == '/'
  {
    if p == [] then "/"
    else if |p| == 1 then "/" + p[0]
    else PathText(p[..|p| - 1]) + "/" + p[|p| - 1]
  }

  /** Joining one more component at the end adds "/" and that component. */
  lemma {:induction false} JoinSnoc(parts: seq<string>, x: string)
    requires parts != []
    ensures Join(parts + [x]) == Join(parts) + "/" + x
    decreases |parts|
  {
    if |parts| == 1 {
      assert (parts + [x])[1..] == [x];
    } else {
      assert (parts + [x])[1..] == parts[1..] + [x];
      JoinSnoc(parts[1..], x);
    }
  }

  /** The text of a non-empty path is "/" followed by its components joined by "/". */
  lemma {:induction false} PathTextIsJoin(p: Path)
    requires p != []
    ensures PathText(p) == "/" + Join(p)
    decreases |p|
  {
    if |p| > 1 {
      var init, x := p[..|p| - 1], p[|p| - 1];
      assert init + [x] == p;
      assert PathText(p) == PathText(init) + "/" + x;
      PathTextIsJoin(init);
      JoinSnoc(init, x);
      AppendAssoc3("/", Join(init), "/", x);
    }
  }

  lemma AppendAssoc3(a: string, b: string, c: string, d: string)
    ensures a + b + c + d == a + (b + c + d)
  {
  }

  /**
   * The text of a path whose components hold no '/' splits back into a
   * leading empty component (the root) followed by exactly those components.
   */
  lemma SplitPathText(p: Path)
    requires p != []
    requires forall i :: 0 <= i < |p| ==> '/' !in p[i]
    ensures Split(PathText(p)) == [""] + p
  {
    PathTextIsJoin(p);
    SplitJoin(p);
    SplitAfterName("", Join(p));
    assert "" + "/" + Join(p) == "/" + Join(p);
  }

  /** Walking plain names descends through each of them in turn. */
  lemma {:induction false} WalkPlainNames(base: Path, comps: seq<string>)
    requires forall i :: 0 <= i < |comps| ==> IsPlainName(comps[i])
    ensures Walk(base, comps) == base + comps
    decreases |comps|
  {
    if comps != [] {
      WalkPlainNames(base + [comps[0]], comps[1..]);
      assert base + [comps[0]] + comps[1..] == base + comps;
    }
  }

  /**
   * The text of a path of plain names resolves, from any directory, to
   * exactly that path: the string handed on denotes the resolved path.
   */
  lemma ResolvePathText(base: Path, p: Path)
    requires forall i :: 0 <= i < |p| ==> IsPlainName(p[i])
    ensures Resolve(base, PathText(p)) == p
  {
    var t := PathText(p);
    assert Resolve(base, t) == Walk([], Split(t));
    if p == [] {
      assert t == "/";
      assert Split(t) == [""] + Split("");
      assert Walk([], [""] + [""]) == Walk([], [""]);
    } else {
      SplitPathText(p);
      assert Walk([], [""] + p) == Walk([], p) by {
        assert ([""] + p)[1..] == p;
      }
      WalkPlainNames([], p);
    }
  }

  /** A name that resolves to a child of any directory: non-empty, no '/', not "." or "..". */
  predicate IsPlainName(n: string) {
    n != [] && '/' !in n && n != "." && n != ".."
  }

  /** Resolving a plain name descends exactly one level, and nothing else does. */
  lemma {:induction false} ResolvePlainName(base: Path, n: string)
    requires '/' !in n
    ensures Resolve(base, n) == (if IsPlainName(n) then base + [n] else if n == ".." && base != [] then base[..|base| - 1] else base)
  {
    SplitNoSlash(n);
    assert n != [] ==> n[0] != '/';
    assert Resolve(base, n) == Walk(base, [n]);
    assert [n][1..] == [];
    if IsPlainName(n) {
      assert Walk(base, [n]) == Walk(base + [n], []);
    } else if n == ".." {
      assert Walk(base, [n]) == Walk(if base == [] then [] else base[..|base| - 1], []);
    } else {
      assert Walk(base, [n]) == Walk(base, []);
    }
  }

  lemma {:induction false} SplitNoSlash(n: string)
    requires '/' !in n
    ensures Split(n) == [n]
  {
    if n != [] {
      SplitNoSlash(n[1..]);
      assert [n[0]] + n[1..] == n;
    }
  }

  /** The base name of "dir/name" (with or without trailing slashes) is "name". */
  lemma {:induction false} BasenameOfChild(dir: string, n: string, slashes: nat)
    requires n != [] && '/' !in n
    ensures Basename(dir + "/" + n + seq(slashes, _ => '/')) == n
  {
    var ss := seq(slashes, _ => '/');
    var p := dir + "/" + n + ss;
    TrimSlashes(dir + "/" + n, slashes);
    var t := dir + "/" + n;
    assert t[..|t| - 1] == dir + "/" + n[..|n| - 1];
    AfterLastSlashOfChild(dir, n);
  }

  lemma {:induction false} TrimSlashes(s: string, k: nat)
    requires s != [] && s[|s| - 1] != '/'
    ensures TrimTrailingSlashes(s + seq(k, _ => '/')) == s
  {
    if k > 0 {
      var ss := seq(k, _ => '/');
      assert (s + ss)[..|s + ss| - 1] == s + seq(k - 1, _ => '/');
      TrimSlashes(s, k - 1);
    } else {
      assert s + seq(k, _ => '/') == s;
    }
  }

  lemma {:induction false} AfterLastSlashOfChild(dir: string, n: string)
    requires '/' !in n
    ensures AfterLastSlash(dir + "/" + n) == |dir| + 1
    decreases |n|
  {
    var t := dir + "/" + n;
    if n == [] {
    } else {
      assert t[..|t| - 1] == dir + "/" + n[..|n| - 1];
      AfterLastSlashOfChild(dir, n[..|n| - 1]);
    }
  }

  /** The last dot of `stem + "." + ext` is the one before `ext` when `ext` has none. */
  lemma {:induction false} LastDotBeforeExt(stem: string, ext: string)
    requires '.' !in ext
    ensures LastDot(stem + "." + ext) == Some(|stem|)
    decreases |ext|
  {
    var s := stem + "." + ext;
    if ext != [] {
      assert s[..|s| - 1] == stem + "." + ext[..|ext| - 1];
      assert s[|s| - 1] == ext[|ext| - 1];
      LastDotBeforeExt(stem, ext[..|ext| - 1]);
    }
  }

  /** A base name "stem.ext", where `ext` has no dot and `stem` is not empty, has the extension ".ext" and the stem `stem`. */
  lemma ExtnameOfName(p: string, stem: string, ext: string)
    requires stem != [] && '.' !in ext && stem + "." + ext != ".."
    requires Basename(p) == stem + "." + ext
    ensures Extname(p) == "." + ext
    ensures Stem(p) == stem
  {
    var n := stem + "." + ext;
    LastDotBeforeExt(stem, ext);
    ExtnameAtDot(p, n, |stem|);
    DotSplit(stem, ext);
    StemOfName(p, n, |stem|);
  }

  lemma ExtnameAtDot(p: string, n: string, k: nat)
    requires Basename(p) == n && LastDot(n) == Some(k) && 0 < k && n != ".."
    ensures Extname(p) == n[k..]
  {
  }

  lemma DotSplit(stem: string, ext: string)
    ensures (stem + "." + ext)[|stem|..] == "." + ext
    ensures (stem + "." + ext)[..|stem|] == stem
  {
  }

  lemma StemOfName(p: string, n: string, k: nat)
    requires Basename(p) == n && k <= |n| && Extname(p) == n[k..]
    ensures Stem(p) == n[..k]
  {
  }

  /**
   * A file "stem.ext" in a directory, where `ext` has no dot and `stem` is
   * not empty: its extension is ".ext" and removing it leaves `stem`.
   */
  lemma ExtnameOfChild(dir: string, stem: string, ext: string)
    requires stem != [] && '/' !in stem && '/' !in ext && '.' !in ext
    requires stem + "." + ext != ".."
    ensures Extname(dir + "/" + stem + "." + ext) == "." + ext
    ensures Stem(dir + "/" + stem + "." + ext) == stem
  {
    var n := stem + "." + ext;
    assert dir + "/" + stem + "." + ext == dir + "/" + n + seq(0, _ => '/');
    BasenameOfChild(dir, n, 0);
    ExtnameOfName(dir + "/" + stem + "." + ext, stem, ext);
  }
}
