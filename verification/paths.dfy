/** The `posixpath` functions the engine uses on `/`-separated paths:
    `join` of two parts, `isabs`, `basename`, `normpath` and `abspath`. The
    working directory is a parameter. */
module Paths {
  import opened Strings

  predicate IsAbs(p: string)
  {
    |p| > 0 && p[0] == '/'
  }

  predicate EndsWithSlash(p: string)
  {
    |p| > 0 && p[|p| - 1] == '/'
  }

  /** `os.path.join(a, b)`: an absolute `b` replaces `a`; otherwise one `/`
      separates them unless `a` is empty or already ends with one. */
  function PathJoin(a: string, b: string): (r: string)
    ensures IsAbs(b) ==> r == b
  {
    if IsAbs(b) then b
    else if a == "" || EndsWithSlash(a) then a + b
    else a + "/" + b
  }

  /** Joining onto an absolute path gives an absolute path. */
  lemma JoinAbs(a: string, b: string)
    requires IsAbs(a)
    ensures IsAbs(PathJoin(a, b))
  {
    if !IsAbs(b) {
      var prefix := if EndsWithSlash(a) then a else a + "/";
      assert PathJoin(a, b) == prefix + b;
      assert (prefix + b)[0] == prefix[0] == a[0];
    }
  }

  /** `os.path.basename(p)`: the text after the last `/`. */
  function Basename(p: string): (r: string)
    ensures '/' !in r
  {
    SplitPartsFree(p, '/');
    LastPart(p, '/')
  }

  /** A path component that `normpath` keeps as it is. */
  predicate PlainName(n: string)
  {
    n != "" && n != "." && n != ".." && '/' !in n
  }

  /** The leading slashes `normpath` keeps: POSIX gives exactly two leading
      slashes an implementation-defined meaning, so `//` is kept and one or
      three or more become one. */
  function InitialSlashes(p: string): nat
  {
    if !IsAbs(p) then 0
    else if |p| >= 2 && p[1] == '/' && !(|p| >= 3 && p[2] == '/') then 2
    else 1
  }

  function Slashes(k: nat): (r: string)
    ensures |r| == k && forall i :: 0 <= i < k ==> r[i] == '/'
  {
    if k == 0 then "" else Slashes(k - 1) + "/"
  }

  /** One step of `normpath`'s scan: `''` and `.` vanish, `..` removes the
      last kept component unless that is `..` itself, or there is none and
      the path is relative (then it is kept). */
  function NormStep(acc: seq<string>, comp: string, rooted: bool): seq<string>
  {
    if comp == "" || comp == "." then acc
    else if comp != ".." || (!rooted && acc == []) || (acc != [] && acc[|acc| - 1] == "..") then acc + [comp]
    else if acc != [] then acc[..|acc| - 1]
    else acc
  }

  /** The components `normpath` keeps, scanning `cs` from the left. */
  function NormComps(cs: seq<string>, rooted: bool): (r: seq<string>)
    ensures forall i :: 0 <= i < |r| ==> r[i] != "" && r[i] in cs
  {
    if cs == [] then []
    else
      var acc := NormComps(cs[..|cs| - 1], rooted);
      var r := NormStep(acc, cs[|cs| - 1], rooted);
      assert forall x :: x in acc ==> x in cs;
      r
  }

  /** `os.path.normpath(p)`. */
  function NormPath(p: string): string
  {
    if p == "" then "."
    else
      var k := InitialSlashes(p);
      var r := Slashes(k) + Join(NormComps(Split(p, '/'), k > 0), "/");
      if r == "" then "." else r
  }

  /** `os.path.abspath(p)` with `cwd` as the working directory. */
  function AbsPath(cwd: string, p: string): string
  {
    NormPath(if IsAbs(p) then p else PathJoin(cwd, p))
  }

  lemma {:induction false} JoinSnoc(parts: seq<string>, x: string, sep: string)
    ensures Join(parts + [x], sep) == if parts == [] then x else Join(parts, sep) + sep + x
  {
    if parts != [] {
      assert (parts + [x])[1..] == parts[1..] + [x];
      JoinSnoc(parts[1..], x, sep);
    }
  }

  /** The last character of a join of non-empty parts is that of the last
      part. */
  lemma {:induction false} JoinLast(parts: seq<string>, sep: string)
    requires parts != [] && parts[|parts| - 1] != ""
    ensures var j := Join(parts, sep); |j| > 0 && j[|j| - 1] == parts[|parts| - 1][|parts[|parts| - 1]| - 1]
  {
    if |parts| > 1 {
      JoinLast(parts[1..], sep);
    }
  }

  lemma SplitSnocSep(p: string)
    ensures Split(p + "/", '/') == Split(p, '/') + [""]
  {
    var ps := Split(p, '/');
    SplitAtOne("", "", '/');
    assert "" + ['/'] + "" == "/";
    SplitAppend(p, "/", '/');
    assert ps[|ps| - 1] + "" == ps[|ps| - 1];
    assert ps[..|ps| - 1] + [ps[|ps| - 1]] == ps;
  }

  lemma SplitSnocName(p: string, n: string)
    requires '/' !in n
    ensures Split(p + n, '/') == var ps := Split(p, '/'); ps[..|ps| - 1] + [ps[|ps| - 1] + n]
  {
    SplitFree(n, '/');
    SplitAppend(p, n, '/');
  }

  /** Splitting `p` joined with a plain name adds the name as a last
      component, after components that normalise as those of `p`. */
  lemma SplitJoinName(p: string, n: string, rooted: bool)
    requires PlainName(n)
    ensures var cs := Split(PathJoin(p, n), '/');
      |cs| >= 1 && cs[|cs| - 1] == n
      && NormComps(cs[..|cs| - 1], rooted) == NormComps(Split(p, '/'), rooted)
  {
    var ps := Split(p, '/');
    if p == "" {
      SplitFree(n, '/');
      assert PathJoin(p, n) == n;
    } else if EndsWithSlash(p) {
      var p' := p[..|p| - 1];
      assert p == p' + "/";
      SplitSnocSep(p');
      SplitSnocName(p, n);
      assert ps[|ps| - 1] == "";
      assert "" + n == n;
      var cs := Split(PathJoin(p, n), '/');
      assert cs[..|cs| - 1] == ps[..|ps| - 1];
      assert ps == ps[..|ps| - 1] + [""];
      assert NormComps(ps, rooted) == NormStep(NormComps(ps[..|ps| - 1], rooted), "", rooted);
    } else {
      SplitSnocSep(p);
      SplitSnocName(p + "/", n);
      assert PathJoin(p, n) == (p + "/") + n;
      assert "" + n == n;
      var cs := Split(PathJoin(p, n), '/');
      assert cs == ps + [n];
      assert cs[..|cs| - 1] == ps;
    }
  }

  /** For an absolute path, joining a plain name does not change the leading
      slashes `normpath` keeps. */
  lemma InitialSlashesJoin(p: string, n: string)
    requires IsAbs(p) && PlainName(n)
    ensures InitialSlashes(PathJoin(p, n)) == InitialSlashes(p)
  {
    var q := PathJoin(p, n);
    assert q[..|p|] == p;
    if |p| == 1 {
      assert q == "/" + n;
      assert n[0] != '/';
    } else if |p| == 2 && p[1] == '/' {
      assert q == "//" + n;
      assert n[0] != '/';
    } else if |p| == 2 {
      assert q == p + "/" + n;
    }
  }

  /** A normalised absolute path ends in a slash only when it is the root
      (`/` or `//`). */
  lemma NormAbsShape(p: string)
    requires IsAbs(p)
    ensures var k := InitialSlashes(p);
      var cs := NormComps(Split(p, '/'), true);
      NormPath(p) == Slashes(k) + Join(cs, "/")
      && (cs == [] ==> NormPath(p) == Slashes(k))
      && (cs != [] ==> !EndsWithSlash(NormPath(p)))
  {
    var k := InitialSlashes(p);
    var cs := NormComps(Split(p, '/'), true);
    if cs != [] {
      JoinLast(cs, "/");
      var last := cs[|cs| - 1];
      assert last in Split(p, '/');
      SplitPartsFree(p, '/');
      var i :| 0 <= i < |Split(p, '/')| && Split(p, '/')[i] == last;
      assert last[|last| - 1] in last;
    }
  }

  /** Normalising an absolute path joined with a plain name is joining the
      name to the normalised path. */
  lemma NormPathJoin(p: string, n: string)
    requires IsAbs(p) && PlainName(n)
    ensures NormPath(PathJoin(p, n)) == PathJoin(NormPath(p), n)
  {
    NormJoinShape(p, n);
    NormAbsShape(p);
    AppendName(NormPath(p), InitialSlashes(p), NormComps(Split(p, '/'), true), n);
  }

  /** The normalised join keeps the leading slashes of the path and adds the
      name to its components. */
  lemma NormJoinShape(p: string, n: string)
    requires IsAbs(p) && PlainName(n)
    ensures NormPath(PathJoin(p, n))
            == Slashes(InitialSlashes(p)) + Join(NormComps(Split(p, '/'), true) + [n], "/")
  {
    var q := PathJoin(p, n);
    var base := NormComps(Split(p, '/'), true);
    var body := NormComps(Split(q, '/'), true);
    assert body == base + [n] by {
      SplitJoinName(p, n, true);
      var cs := Split(q, '/');
      assert cs == cs[..|cs| - 1] + [n];
    }
    InitialSlashesJoin(p, n);
    NormAbsShape(q);
  }

  /** Appending a plain name to a path given by its leading slashes and its
      components. */
  lemma AppendName(np: string, k: nat, base: seq<string>, n: string)
    requires k >= 1 && np == Slashes(k) + Join(base, "/") && PlainName(n)
    requires base == [] ==> np == Slashes(k)
    requires base != [] ==> !EndsWithSlash(np)
    ensures Slashes(k) + Join(base + [n], "/") == PathJoin(np, n)
  {
    assert !IsAbs(n) by { assert n[0] in n; }
    JoinSnoc(base, n, "/");
    if base == [] {
      assert EndsWithSlash(np);
    } else {
      assert Slashes(k) + (Join(base, "/") + "/" + n) == (Slashes(k) + Join(base, "/")) + "/" + n;
    }
  }

  /** What `join` puts in front of a relative part: the path itself when
      it is empty or ends with `/`, else the path and a `/`. */
  function Dir(a: string): string
  {
    if a == "" || EndsWithSlash(a) then a else a + "/"
  }

  lemma JoinRelative(a: string, b: string)
    requires !IsAbs(b)
    ensures PathJoin(a, b) == Dir(a) + b
  {
  }

  lemma {:induction false} DirAppend(a: string, b: string)
    ensures Dir(Dir(a) + b) == Dir(a) + Dir(b)
  {
    var d := Dir(a);
    if b == "" {
      assert d + b == d;
    } else {
      assert (d + b)[|d + b| - 1] == b[|b| - 1];
      if !EndsWithSlash(b) {
        ConcatAssoc(d, b, "/");
      }
    }
  }

  /** Joining is associative when the last part is relative. */
  lemma PathJoinAssoc(a: string, b: string, c: string)
    requires !IsAbs(b) && PlainName(c)
    ensures PathJoin(a, PathJoin(b, c)) == PathJoin(PathJoin(a, b), c)
  {
    assert !IsAbs(c) by { assert c[0] in c; }
    JoinRelative(b, c);
    var bc := Dir(b) + c;
    assert !IsAbs(bc) by {
      if Dir(b) == "" { assert bc == c; } else { assert bc[0] == Dir(b)[0]; }
    }
    JoinRelative(a, bc);
    JoinRelative(a, b);
    JoinRelative(Dir(a) + b, c);
    DirAppend(a, b);
    ConcatAssoc(Dir(a), Dir(b), c);
  }

  /** The base name of a file joined onto a directory is the file's name. */
  lemma BasenameJoin(dir: string, name: string)
    requires name != "" && '/' !in name
    ensures Basename(PathJoin(dir, name)) == name
  {
    assert !IsAbs(name) by { assert name[0] in name; }
    JoinRelative(dir, name);
    var prefix := Dir(dir);
    var ps := Split(prefix, '/');
    assert ps[|ps| - 1] == "" by {
      if prefix != "" {
        var p' := prefix[..|prefix| - 1];
        assert prefix == p' + "/";
        SplitSnocSep(p');
      }
    }
    SplitSnocName(prefix, name);
    assert LastPart(prefix + name, '/') == name by {
      assert "" + name == name;
    }
  }
}
