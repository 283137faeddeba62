/** Choosing the validator for a generated file: every validator names the
    `fnmatch` patterns of the files it handles, and the file's base name must
    match the patterns of exactly one of them. The validators a program knows
    are a parameter here; whether a validator's tool is installed and what it
    reports about a file are parameters too. */
module Validators {
  import opened Errors
  import opened Strings
  import opened Paths

  /** The message when no validator handles a path. */
  const NoValidator: string :=
    "could not find suitable validator for path "

  /** The message when more than one validator handles a path. */
  const ManyValidators: string :=
    "multiple suitable validators found for path "

  /** The failure of `remove` on the tuple of validators. */
  const TupleRemove: string :=
    "'tuple' object has no attribute 'remove'"

  /** A validator class as the factory sees it: its name and the patterns of
      `supported_file_types()`. */
  datatype Validator = Validator(name: string, patterns: seq<string>)

  /** `ShellCheckValidator`: shell scripts. */
  const ShellCheck := Validator("ShellCheckValidator", ["*.sh", "*.bash"])

  /** The validators the package exports. */
  const Known: seq<Validator> := [ShellCheck]

  /** `fnmatch.fnmatch(name, pattern)` on a POSIX system: `*` matches any
      text, `?` any one character, every other character itself, and the
      pattern must cover the whole name. */
  function Match(pattern: string, name: string): bool
    decreases |pattern| + |name|
  {
    if pattern == [] then name == []
    else if pattern[0] == '*' then Match(pattern[1..], name) || (name != [] && Match(pattern, name[1..]))
    else name != [] && (pattern[0] == '?' || pattern[0] == name[0]) && Match(pattern[1..], name[1..])
  }

  /** A pattern without wildcards. */
  predicate Literal(p: string)
  {
    '*' !in p && '?' !in p
  }

  predicate EndsWith(s: string, suffix: string)
  {
    |s| >= |suffix| && s[|s| - |suffix|..] == suffix
  }

  /** A pattern without wildcards matches exactly itself. */
  lemma {:induction false} MatchLiteral(p: string, name: string)
    requires Literal(p)
    ensures Match(p, name) <==> name == p
    decreases |p|
  {
    if p != [] {
      assert p == [p[0]] + p[1..];
      if name != [] {
        MatchLiteral(p[1..], name[1..]);
        assert name == [name[0]] + name[1..];
      }
    }
  }

  /** `*` followed by a literal tail matches exactly the names that end with
      that tail: `*.sh` matches the names ending in `.sh`. */
  lemma {:induction false} MatchStarSuffix(lit: string, name: string)
    requires Literal(lit)
    ensures Match("*" + lit, name) <==> EndsWith(name, lit)
    decreases |name|
  {
    var p := "*" + lit;
    assert p[1..] == lit;
    MatchLiteral(lit, name);
    if name != [] {
      MatchStarSuffix(lit, name[1..]);
      if EndsWith(name[1..], lit) {
        assert name[|name| - |lit|..] == name[1..][|name[1..]| - |lit|..];
      }
      if EndsWith(name, lit) && name != lit {
        assert |name| > |lit|;
        assert name[1..][|name[1..]| - |lit|..] == name[|name| - |lit|..];
      }
    } else {
      if EndsWith(name, lit) {
        assert lit == [];
      }
    }
  }

  /** Whether one of the patterns matches the name, looked at in order. */
  function AnyMatch(patterns: seq<string>, name: string): bool
  {
    patterns != [] && (AnyMatch(patterns[..|patterns| - 1], name) || Match(patterns[|patterns| - 1], name))
  }

  /** `AnyMatch` holds exactly when some pattern of the list matches. */
  lemma {:induction false} AnyMatchSpec(patterns: seq<string>, name: string)
    ensures AnyMatch(patterns, name) <==> exists p :: p in patterns && Match(p, name)
  {
    if patterns != [] {
      var init := patterns[..|patterns| - 1];
      AnyMatchSpec(init, name);
      assert patterns == init + [patterns[|patterns| - 1]];
      if exists p :: p in patterns && Match(p, name) {
        var p :| p in patterns && Match(p, name);
        if p != patterns[|patterns| - 1] {
          assert p in init;
        }
      }
    }
  }

  /** A validator is suitable for a path when one of its patterns matches the
      path's base name. */
  predicate Suitable(v: Validator, path: string)
  {
    AnyMatch(v.patterns, Basename(path))
  }

  /** The suitable validators, in the order the validators are visited. */
  function Suitables(vs: seq<Validator>, path: string): (r: seq<Validator>)
    ensures forall v :: v in r <==> v in vs && Suitable(v, path)
  {
    if vs == [] then []
    else
      var init := Suitables(vs[..|vs| - 1], path);
      var last := vs[|vs| - 1];
      assert vs == vs[..|vs| - 1] + [last];
      if Suitable(last, path) then init + [last] else init
  }

  /** The set the selection loop collects. */
  function SuitableSet(vs: seq<Validator>, path: string): set<Validator>
  {
    set v | v in Suitables(vs, path)
  }

  const NoneFound := NoValidator

  /** `get_validator(path)`: more than one suitable validator is an error,
      none is an error, and a single one is the answer. The message for a
      missing validator names the path (the code as written leaves a
      literal `{}` in it; see `NotFoundAsWritten`). */
  function Select(vs: seq<Validator>, path: string): Result<Validator>
  {
    var found := Suitables(vs, path);
    var count := |SuitableSet(vs, path)|;
    if count > 1 then Fail(ValueError, ManyValidators + path)
    else if count < 1 then Fail(KeyError, NoneFound + path)
    else Ok(found[0])
  }

  /** The message of the code as written: the `{}` placeholder is never
      filled in. */
  function NotFoundAsWritten(vs: seq<Validator>, path: string): Result<Validator>
  {
    var r := Select(vs, path);
    if r.Err? && r.error.kind == KeyError then Fail(KeyError, NoneFound + "{}") else r
  }

  /** Without a suitable validator, the message as written does not name
      the path it is about, while the corrected one ends with it. */
  lemma NotFoundMessage()
    ensures NotFoundAsWritten(Known, "x.py") == Fail(KeyError, NoneFound + "{}")
    ensures Select(Known, "x.py") == Fail(KeyError, NoneFound + "x.py")
  {
    ShellCheckChoice();
  }

  /** The package's own validator map, as written: `__all__` is a tuple of
      names, which has no `remove`, so building the map always raises
      `AttributeError` (a `TypeError` here). */
  function KnownAsWritten(): Result<seq<Validator>>
  {
    Fail(TypeError, TupleRemove)
  }

  /** `get_validator` over the map as written. */
  function SelectAsWritten(path: string): Result<Validator>
  {
    match KnownAsWritten()
    case Err(e) => Err(e)
    case Ok(vs) => Select(vs, path)
  }

  /** As written, no path gets a validator, not even a shell script; with
      the map holding the exported validators, a shell script gets
      ShellCheck. */
  lemma KnownAsWrittenFails(path: string)
    ensures SelectAsWritten(path).Err? && SelectAsWritten(path).error.kind == TypeError
    ensures Select(Known, "build.sh") == Ok(ShellCheck)
  {
    ShellCheckChoice();
  }

  /** The element of a one-element set. */
  lemma SingletonMember<T>(s: set<T>, a: T, b: T)
    requires |s| == 1 && a in s && b in s
    ensures a == b
  {
    var t := s - {a};
    assert s == t + {a};
    assert |t| == 0;
    assert t == {};
  }

  /** `get_validator(path)`. */
  method GetValidator(vs: seq<Validator>, path: string) returns (r: Result<Validator>)
    ensures r == Select(vs, path)
  {
    var name := Basename(path);
    var suitable: set<Validator> := {};
    var i := 0;
    while i < |vs|
      invariant 0 <= i <= |vs|
      invariant suitable == SuitableSet(vs[..i], path)
    {
      var v := vs[i];
      var j := 0;
      while j < |v.patterns|
        invariant 0 <= j <= |v.patterns|
        invariant suitable == SuitableSet(vs[..i], path) + (if AnyMatch(v.patterns[..j], name) then {v} else {})
      {
        assert v.patterns[..j + 1][..j] == v.patterns[..j];
        if Match(v.patterns[j], name) {
          suitable := suitable + {v};
        }
        j := j + 1;
      }
      assert v.patterns[..j] == v.patterns;
      assert vs[..i + 1][..i] == vs[..i];
      i := i + 1;
    }
    assert vs[..i] == vs;
    if |suitable| > 1 {
      return Fail(ValueError, ManyValidators + path);
    } else if |suitable| < 1 {
      return Fail(KeyError, NoneFound + path);
    }
    var v :| v in suitable;
    ghost var found := Suitables(vs, path);
    assert found[0] in suitable;
    SingletonMember(suitable, v, found[0]);
    return Ok(v);
  }

  /** What the selection decides: the single validator it returns is suitable
      and no other one is; `KeyError` means none is suitable; `ValueError`
      means two different ones are. */
  lemma SelectSpec(vs: seq<Validator>, path: string)
    ensures Select(vs, path).Ok? ==> var v := Select(vs, path).value;
      v in vs && Suitable(v, path) && forall w :: w in vs && Suitable(w, path) ==> w == v
    ensures FailedWith(Select(vs, path), KeyError) <==> forall v :: v in vs ==> !Suitable(v, path)
    ensures FailedWith(Select(vs, path), ValueError)
      <==> exists v, w :: v in vs && w in vs && v != w && Suitable(v, path) && Suitable(w, path)
  {
    var found := Suitables(vs, path);
    var s := SuitableSet(vs, path);
    assert forall v :: v in vs && Suitable(v, path) ==> v in s;
    if |s| == 1 {
      assert found[0] in s;
      forall w | w in vs && Suitable(w, path) ensures w == found[0] {
        assert w in s;
        SingletonMember(s, w, found[0]);
      }
      forall v, w | v in vs && w in vs && Suitable(v, path) && Suitable(w, path) ensures v == w {
        assert v in s && w in s;
        SingletonMember(s, v, w);
      }
    } else if |s| == 0 {
      assert s == {};
    } else {
      var a :| a in s;
      assert |s - {a}| > 0;
      var b :| b in s - {a};
      assert a in vs && b in vs && a != b && Suitable(a, path) && Suitable(b, path);
    }
  }

  /** A validator is suitable exactly when one of its patterns matches the
      base name of the path; the directories in front of it do not matter. */
  lemma SuitableSpec(v: Validator, dir: string, name: string)
    requires '/' !in name
    ensures Suitable(v, name) <==> exists p :: p in v.patterns && Match(p, name)
    ensures Suitable(v, dir + "/" + name) <==> Suitable(v, name)
  {
    SplitFree(name, '/');
    LastPartAfter(dir, name, '/');
    AnyMatchSpec(v.patterns, name);
  }

  /** A single suitable validator is chosen. */
  lemma SelectOnly(v: Validator, path: string)
    requires Suitable(v, path)
    ensures Select([v], path) == Ok(v)
  {
    assert [v][..0] == [];
    assert Suitables([v], path) == [v];
    assert SuitableSet([v], path) == {v};
  }

  /** A single unsuitable validator leaves the path without one. */
  lemma SelectNone(v: Validator, path: string)
    requires !Suitable(v, path)
    ensures Select([v], path) == Fail(KeyError, NoneFound + path)
  {
    assert [v][..0] == [];
    assert Suitables([v], path) == [];
    assert SuitableSet([v], path) == {};
  }

  /** ShellCheck takes every file whose name ends in `.sh`, in any
      directory. */
  lemma ShellScriptSuitable(dir: string, name: string)
    requires '/' !in name && EndsWith(name, ".sh")
    ensures Suitable(ShellCheck, name) && Suitable(ShellCheck, dir + "/" + name)
  {
    SuitableSpec(ShellCheck, dir, name);
    MatchStarSuffix(".sh", name);
    assert "*.sh" == "*" + ".sh";
    assert "*.sh" in ShellCheck.patterns;
  }

  /** ShellCheck takes `.sh` files wherever they are. */
  lemma ShellScriptsSuitable()
    ensures Suitable(ShellCheck, "build.sh")
    ensures Suitable(ShellCheck, "/tmp/out/build-appimage.sh")
  {
    var a, b := "build", "build-appimage";
    assert '/' !in a + ".sh" && '/' !in b + ".sh";
    assert (a + ".sh")[|a|..] == ".sh" && (b + ".sh")[|b|..] == ".sh";
    ShellScriptSuitable("", a + ".sh");
    ShellScriptSuitable("/tmp/out", b + ".sh");
    assert "build.sh" == a + ".sh";
    assert "/tmp/out/build-appimage.sh" == "/tmp/out" + "/" + (b + ".sh");
  }

  /** ShellCheck does not take a Python file. */
  lemma PythonNotSuitable()
    ensures !Suitable(ShellCheck, "x.py")
  {
    SuitableSpec(ShellCheck, "", "x.py");
    MatchStarSuffix(".sh", "x.py");
    MatchStarSuffix(".bash", "x.py");
    assert "*.sh" == "*" + ".sh";
    assert "*.bash" == "*" + ".bash";
    assert "x.py"[1..] != ".sh";
  }

  /** With ShellCheck as the only validator, a `.sh` file is given to it and
      a Python file finds no validator. */
  lemma ShellCheckChoice()
    ensures Select(Known, "build.sh") == Ok(ShellCheck)
    ensures Select(Known, "/tmp/out/build-appimage.sh") == Ok(ShellCheck)
    ensures Select(Known, "x.py") == Fail(KeyError, NoneFound + "x.py")
  {
    ShellScriptsSuitable();
    PythonNotSuitable();
    SelectOnly(ShellCheck, "build.sh");
    SelectOnly(ShellCheck, "/tmp/out/build-appimage.sh");
    SelectNone(ShellCheck, "x.py");
  }

  /** `validate_file(path)`: the selected validator is instantiated, which
      fails when its tool is not installed, and then checks the file.
      `available` names the validators whose tools are installed; `verdict`
      is what the tool reports (`ValidationError` when it rejects the file). */
  method ValidateFile(vs: seq<Validator>, path: string, available: set<string>, verdict: Result<()>)
    returns (r: Result<()>)
    ensures r == ValidateOutcome(vs, path, available, verdict)
  {
    var v := GetValidator(vs, path);
    if v.Err? {
      return Err(v.error);
    }
    if v.value.name !in available {
      return Fail(RuntimeError, "validator " + v.value.name + " not available");
    }
    return verdict;
  }

  function ValidateOutcome(vs: seq<Validator>, path: string, available: set<string>, verdict: Result<()>): Result<()>
  {
    var v :- Select(vs, path);
    if v.name !in available then Fail(RuntimeError, "validator " + v.name + " not available")
    else verdict
  }

  /** A file is accepted only when exactly one validator is suitable, its
      tool is installed and the tool accepts the file; a failure of the
      selection is passed on unchanged. */
  lemma ValidateOutcomeSpec(vs: seq<Validator>, path: string, available: set<string>, verdict: Result<()>)
    ensures ValidateOutcome(vs, path, available, verdict) == Ok(())
      <==> Select(vs, path).Ok? && Select(vs, path).value.name in available && verdict == Ok(())
    ensures Select(vs, path).Err? ==> ValidateOutcome(vs, path, available, verdict) == Err(Select(vs, path).error)
    ensures Select(vs, path).Ok? && Select(vs, path).value.name !in available
      ==> FailedWith(ValidateOutcome(vs, path, available, verdict), RuntimeError)
  {
  }
}
