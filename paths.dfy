/** POSIX path handling as the file policy uses it: `os.path.join`,
    `Path.resolve` (lexically: `.` and empty segments vanish, `..` drops the
    last segment and stays at `/`), `str(path)` and `Path.relative_to`.
    Separators are `/` only; symbolic links are not followed. */
module Paths {

  /** A resolved absolute path, as the list of its segments below `/`. */
  type Path = seq<string>

  predicate PlainSegment(seg: string) {
    seg != "" && seg != "." && seg != ".." && '/' !in seg
  }

  /** What `resolve` can produce: only plain segments. */
  predicate Normal(p: Path) {
    forall i :: 0 <= i < |p| ==> PlainSegment(p[i])
  }

  predicate NoSlash(segs: seq<string>) {
    forall i :: 0 <= i < |segs| ==> '/' !in segs[i]
  }

  /** Index of the first `/` in `s`. */
  function SlashIndex(s: string): (k: nat)
    requires '/' in s
    ensures k < |s| && s[k] == '/'
    ensures forall i :: 0 <= i < k ==> s[i] != '/'
  {
    if s[0] == '/' then 0 else
      assert '/' in s[1..] by { var i :| 0 <= i < |s| && s[i] == '/'; assert s[1..][i - 1] == '/'; }
      SlashIndex(s[1..]) + 1
  }

  /** `s.split("/")`: the pieces between separators, empty ones included. */
  function SplitPath(s: string): (r: seq<string>)
    ensures |r| >= 1
    ensures NoSlash(r)
    decreases |s|
  {
    if '/' in s then
      var k := SlashIndex(s);
      [s[..k]] + SplitPath(s[k + 1..])
    else [s]
  }

  /** The first separator is the one `SlashIndex` finds. */
  lemma SlashIndexIsFirst(s: string, k: nat)
    requires k < |s| && s[k] == '/'
    requires forall i :: 0 <= i < k ==> s[i] != '/'
    ensures '/' in s && SlashIndex(s) == k
  {
    assert '/' in s by { assert s[k] in s; }
  }

  /** Splitting distributes over a separator: the pieces of `a + "/" + b`
      are those of `a` followed by those of `b`. */
  lemma {:induction false} SplitAround(a: string, b: string)
    ensures SplitPath(a + "/" + b) == SplitPath(a) + SplitPath(b)
    decreases |a|
  {
    var s := a + "/" + b;
    if '/' in a {
      var ka := SlashIndex(a);
      forall i | 0 <= i < ka ensures s[i] != '/' { assert s[i] == a[i]; }
      SlashIndexIsFirst(s, ka);
      var rest := a[ka + 1..];
      assert s[..ka] == a[..ka];
      assert s[ka + 1..] == rest + "/" + b;
      calc {
        SplitPath(s);
        [s[..ka]] + SplitPath(s[ka + 1..]);
        [a[..ka]] + SplitPath(rest + "/" + b);
        { SplitAround(rest, b); }
        [a[..ka]] + (SplitPath(rest) + SplitPath(b));
        ([a[..ka]] + SplitPath(rest)) + SplitPath(b);
        SplitPath(a) + SplitPath(b);
      }
    } else {
      forall i | 0 <= i < |a| ensures s[i] != '/' { assert s[i] == a[i] && a[i] in a; }
      SlashIndexIsFirst(s, |a|);
      assert s[..|a|] == a;
      assert s[|a| + 1..] == b;
      assert SplitPath(s) == [a] + SplitPath(b);
    }
  }

  /** One segment of `resolve`'s walk. */
  function Enter(dir: Path, seg: string): (r: Path)
  {
    if seg == "" || seg == "." then dir
    else if seg == ".." then (if dir == [] then [] else dir[..|dir| - 1])
    else dir + [seg]
  }

  /** The lexical part of `resolve`: walk the segments from `dir`. */
  function Walk(dir: Path, segs: seq<string>): (r: Path)
    ensures Normal(dir) && NoSlash(segs) ==> Normal(r)
    decreases |segs|
  {
    if segs == [] then dir else Walk(Enter(dir, segs[0]), segs[1..])
  }

  lemma {:induction false} WalkAppend(dir: Path, a: seq<string>, b: seq<string>)
    ensures Walk(dir, a + b) == Walk(Walk(dir, a), b)
    decreases |a|
  {
    if a == [] {
      assert a + b == b;
    } else {
      assert (a + b)[0] == a[0];
      assert (a + b)[1..] == a[1..] + b;
      WalkAppend(Enter(dir, a[0]), a[1..], b);
    }
  }

  /** Walking plain segments only descends. */
  lemma {:induction false} WalkPlain(dir: Path, p: Path)
    requires Normal(p)
    ensures Walk(dir, p) == dir + p
    decreases |p|
  {
    if p != [] {
      WalkPlain(dir + [p[0]], p[1..]);
      assert dir + [p[0]] + p[1..] == dir + p;
    }
  }

  /** A walk whose segments contain no `..` never leaves where it started. */
  lemma {:induction false} WalkWithoutParentStaysBelow(dir: Path, segs: seq<string>)
    requires forall i :: 0 <= i < |segs| ==> segs[i] != ".."
    ensures dir <= Walk(dir, segs)
    decreases |segs|
  {
    if segs != [] {
      WalkWithoutParentStaysBelow(Enter(dir, segs[0]), segs[1..]);
    }
  }

  /** `os.path.join(a, b)` on POSIX: an absolute `b` replaces `a`; otherwise
      a separator is inserted exactly when `a` is non-empty and does not
      already end with one. */
  function Join(a: string, b: string): (r: string)
    ensures b != [] && b[0] == '/' ==> r == b
    ensures (b == [] || b[0] != '/') && (a == [] || a[|a| - 1] == '/') ==> r == a + b
    ensures (b == [] || b[0] != '/') && a != [] && a[|a| - 1] != '/' ==> r == a + "/" + b
  {
    if b != [] && b[0] == '/' then b
    else if a == [] || a[|a| - 1] == '/' then a + b
    else a + "/" + b
  }

  /** `Path(s).resolve()` with `cwd` the process's working directory. */
  function Resolve(cwd: Path, s: string): (r: Path)
    ensures Normal(cwd) ==> Normal(r)
  {
    Walk(if s != [] && s[0] == '/' then [] else cwd, SplitPath(s))
  }

  function JoinSegments(p: Path): string
    requires p != []
  {
    if |p| == 1 then p[0] else p[0] + "/" + JoinSegments(p[1..])
  }

  /** `str(path)`. */
  function Render(p: Path): (r: string)
    ensures r != [] && r[0] == '/'
  {
    if p == [] then "/" else "/" + JoinSegments(p)
  }

  lemma {:induction false} SplitJoinSegments(p: Path)
    requires p != [] && NoSlash(p)
    ensures SplitPath(JoinSegments(p)) == p
    decreases |p|
  {
    var head := p[0];
    assert '/' !in head;
    if |p| == 1 {
      assert JoinSegments(p) == head;
    } else {
      var rest := p[1..];
      assert NoSlash(rest) by {
        forall i | 0 <= i < |rest| ensures '/' !in rest[i] { assert rest[i] == p[i + 1]; }
      }
      var t := JoinSegments(rest);
      assert JoinSegments(p) == head + "/" + t;
      SplitAround(head, t);
      SplitJoinSegments(rest);
      assert SplitPath(head) == [head];
      assert [head] + rest == p;
    }
  }

  /** Rendering a resolved non-root path and splitting it back gives an empty
      piece (before the leading `/`) followed by the segments. */
  lemma SplitRender(p: Path)
    requires Normal(p) && p != []
    ensures SplitPath(Render(p)) == [""] + p
  {
    var t := JoinSegments(p);
    assert Render(p) == "" + "/" + t;
    SplitAround("", t);
    assert SplitPath("") == [""];
    assert NoSlash(p) by {
      forall i | 0 <= i < |p| ensures '/' !in p[i] { assert PlainSegment(p[i]); }
    }
    SplitJoinSegments(p);
  }

  /** The path `resolve` gives for `os.path.join(str(root), s)`: a relative
      `s` is walked from `root`, an absolute one from `/`. */
  lemma ResolveJoin(cwd: Path, root: Path, s: string)
    requires Normal(root)
    ensures Resolve(cwd, Join(Render(root), s))
            == Walk(if s != [] && s[0] == '/' then [] else root, SplitPath(s))
  {
    if s != [] && s[0] == '/' {
    } else if root == [] {
      ResolveJoinAtTop(cwd, s);
    } else {
      ResolveJoinBelowTop(cwd, root, s);
    }
  }

  /** Resolving a relative path against a normal working directory is
      resolving it joined onto the directory's text. */
  lemma ResolveRelative(cwd: Path, s: string)
    requires Normal(cwd)
    requires s == [] || s[0] != '/'
    ensures Resolve(cwd, s) == Resolve([], Join(Render(cwd), s))
  {
    ResolveJoin([], cwd, s);
  }

  /** `Path(str(p)).resolve() == p` for a resolved path `p`. */
  lemma ResolveRender(cwd: Path, p: Path)
    requires Normal(p)
    ensures Resolve(cwd, Render(p)) == p
  {
    if p == [] {
      assert Render(p) == "" + "/" + "";
      SplitAround("", "");
      assert SplitPath("") == [""];
      assert Walk([], ["", ""]) == Walk([], [""]);
    } else {
      SplitRender(p);
      assert ([""] + p)[1..] == p;
      assert Walk([], [""] + p) == Walk([], p);
      WalkPlain([], p);
      assert [] + p == p;
    }
  }

  lemma ResolveJoinAtTop(cwd: Path, s: string)
    requires s == [] || s[0] != '/'
    ensures Resolve(cwd, Join(Render([]), s)) == Walk([], SplitPath(s))
  {
    var j := Join("/", s);
    assert j == "" + "/" + s;
    SplitAround("", s);
    assert SplitPath("") == [""];
    var segs := SplitPath(s);
    assert SplitPath(j) == [""] + segs;
    assert ([""] + segs)[1..] == segs;
    assert Walk([], [""] + segs) == Walk(Enter([], ""), segs);
  }

  lemma ResolveJoinBelowTop(cwd: Path, root: Path, s: string)
    requires Normal(root) && root != []
    requires s == [] || s[0] != '/'
    ensures Resolve(cwd, Join(Render(root), s)) == Walk(root, SplitPath(s))
  {
    var r := Render(root);
    RenderEndsInSegment(root);
    var j := Join(r, s);
    assert j == r + "/" + s;
    assert j[0] == '/';
    SplitAround(r, s);
    SplitRender(root);
    var segs := SplitPath(s);
    assert SplitPath(j) == ([""] + root) + segs;
    WalkAppend([], [""] + root, segs);
    assert ([""] + root)[1..] == root;
    assert Walk([], [""] + root) == Walk(Enter([], ""), root);
    WalkPlain([], root);
    assert [] + root == root;
  }

  lemma RenderEndsInSegment(p: Path)
    requires Normal(p) && p != []
    ensures Render(p)[|Render(p)| - 1] != '/'
  {
    LastOfJoin(p);
  }

  lemma {:induction false} LastOfJoin(p: Path)
    requires Normal(p) && p != []
    ensures JoinSegments(p) != []
    ensures JoinSegments(p)[|JoinSegments(p)| - 1] != '/'
    decreases |p|
  {
    if |p| == 1 {
      assert p[0][|p[0]| - 1] in p[0];
    } else {
      LastOfJoin(p[1..]);
      var t := JoinSegments(p[1..]);
      assert (p[0] + "/" + t)[|p[0] + "/" + t| - 1] == t[|t| - 1];
    }
  }

  /** `../name` splits into the two segments. */
  lemma SplitParentName(name: string)
    requires '/' !in name
    ensures SplitPath("../" + name) == ["..", name]
  {
    assert "../" + name == ".." + "/" + name;
    SplitAround("..", name);
    assert '/' !in "..";
  }

  /** Walking `..` then a plain name from a non-root directory replaces its
      last segment. */
  lemma WalkParentName(dir: Path, name: string)
    requires dir != [] && PlainSegment(name)
    ensures Walk(dir, ["..", name]) == dir[..|dir| - 1] + [name]
  {
    var up := dir[..|dir| - 1];
    assert Enter(dir, "..") == up;
    assert ["..", name][1..] == [name];
    assert Walk(up, [name]) == Walk(up + [name], [name][1..]);
  }

  /** `path.relative_to(root)` succeeds: the root's segments are a prefix. */
  predicate IsUnder(path: Path, root: Path) {
    root <= path
  }
}
