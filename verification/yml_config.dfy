/** The root-level check of a loaded `appimagecraft.yml`: the keys it may
    and must have, the file version, and the form of the project name. The
    YAML text is loaded elsewhere; the parser here starts from the loaded
    value. */
module YmlConfig {
  import opened Errors
  import opened Strings
  import opened Dicts
  import opened Config

  const ValidRootKeys: seq<string> := ["version", "project", "build", "environment", "appimage", "scripts"]
  const RequiredRootKeys: seq<string> := ["version", "project", "build"]

  /** The message `_assert` falls back on when it is given none. */
  const UnknownError := "Unknown error while parsing appimagecraft config"
  /** The message of every failed project name check. */
  const NameFormat := "project name must be in "

  /** `_assert(condition, message)`. */
  function Check(condition: bool, message: string): Result<()>
  {
    if condition then Ok(())
    else Fail(ValueError, if message == "" then UnknownError else message)
  }

  /** `assert_reverse_dns_format(name)`: the name must not end with a dot,
      must not start with one, and must contain one. */
  function CheckName(name: string): Result<()>
  {
    var notLast :- Check(!(|name| > 0 && name[|name| - 1] == '.'), NameFormat);
    var notFirst :- Check(!(|name| > 0 && name[0] == '.'), NameFormat);
    Check(Count(name, '.') > 0, NameFormat)
  }

  /** Reverse-DNS form seen through the labels between the dots: at least
      two labels, the first and the last of them non-empty. Labels in
      between may be empty. */
  predicate ReverseDns(name: string)
  {
    var labels := Split(name, '.');
    |labels| >= 2 && labels[0] != "" && labels[|labels| - 1] != ""
  }

  /** The first label is empty exactly when the text is empty or starts with
      the separator. */
  lemma SplitFirstEmpty(s: string, c: char)
    ensures Split(s, c)[0] == "" <==> s == [] || s[0] == c
  {
  }

  /** The last label is empty exactly when the text is empty or ends with
      the separator. */
  lemma {:induction false} SplitLastEmpty(s: string, c: char)
    ensures var parts := Split(s, c); parts[|parts| - 1] == "" <==> s == [] || s[|s| - 1] == c
  {
    if s != [] {
      var t := s[1..];
      var rest := Split(t, c);
      SplitLastEmpty(t, c);
      if t != [] {
        assert t[|t| - 1] == s[|s| - 1];
      }
      if s[0] != c && |rest| == 1 && t != [] {
        JoinSplit(t, c);
      }
    }
  }

  /** The name check accepts exactly the reverse-DNS names, and refuses the
      others with `ValueError` and its fixed message. */
  lemma CheckNameSpec(name: string)
    ensures CheckName(name) == Ok(()) <==> ReverseDns(name)
    ensures CheckName(name).Err? ==> CheckName(name).error == Error(ValueError, NameFormat)
  {
    SplitFirstEmpty(name, '.');
    SplitLastEmpty(name, '.');
    SplitCount(name, '.');
  }

  /** An inner empty label passes: the check does not look between the
      dots. */
  lemma NameExamples()
    ensures CheckName("org.example") == Ok(())
    ensures CheckName("a..b") == Ok(())
    ensures CheckName(".a").Err? && CheckName("a.").Err? && CheckName("abc").Err?
  {
    NameWithDot("org.example", 3);
    NameWithDot("a..b", 1);
    NameEdgeDot(".a");
    NameEdgeDot("a.");
    NameWithoutDot("abc");
  }

  /** A dot inside a name that neither starts nor ends with one passes. */
  lemma NameWithDot(name: string, i: nat)
    requires 0 < i < |name| - 1 && name[i] == '.' && name[0] != '.' && name[|name| - 1] != '.'
    ensures CheckName(name) == Ok(())
  {
    CountPositive(name, i, '.');
  }

  /** A leading or trailing dot is refused. */
  lemma NameEdgeDot(name: string)
    requires |name| > 0 && (name[0] == '.' || name[|name| - 1] == '.')
    ensures CheckName(name).Err?
  {
  }

  /** A name without a dot is refused. */
  lemma {:induction false} NameWithoutDot(name: string)
    requires '.' !in name
    ensures CheckName(name).Err?
  {
    CountAbsent(name, '.');
  }

  lemma {:induction false} CountAbsent(s: string, c: char)
    requires c !in s
    ensures Count(s, c) == 0
  {
    if s != [] {
      assert c !in s[1..] by { assert forall x :: x in s[1..] ==> x in s; }
      CountAbsent(s[1..], c);
    }
  }

  lemma {:induction false} CountPositive(s: string, i: nat, c: char)
    requires i < |s| && s[i] == c
    ensures Count(s, c) > 0
  {
    if i > 0 {
      CountPositive(s[1..], i - 1, c);
    }
  }

  /** `_validate()` of the loaded configuration. The keys are a set in
      Python, and the invalid or missing key named in the message is
      whichever the set difference lists first; here it is the first invalid
      key in the order of the file, and the first missing key in the order
      version, project, build. */
  function Validate(c: Value): Result<()>
  {
    if !c.VMap? then Fail(TypeError, "object has no attribute 'keys'")
    else
      var keys := Keys(c.entries);
      var invalid := Fresh(keys, ValidRootKeys);
      if invalid != [] then Fail(ValueError, "invalid key in config: " + invalid[0])
      else
        var missing := Fresh(RequiredRootKeys, keys);
        if missing != [] then Fail(ValueError, "missing key in config: " + missing[0])
        else
          assert "version" !in missing && "project" !in missing;
          ContentCheck(Get(c.entries, "version").value, Get(c.entries, "project").value)
  }

  /** `"{}".format(version)` for a scalar version; the text form of a list
      or mapping is not modelled. */
  function VersionText(v: Value): string
  {
    match PyStr(v)
    case Ok(t) => t
    case Err(_) => ""
  }

  /** A configuration `_validate` lets through, stated key by key. */
  predicate Accepted(c: Value)
  {
    && c.VMap?
    && (forall k :: k in Keys(c.entries) ==> k in ValidRootKeys)
    && (forall k :: k in RequiredRootKeys ==> k in Keys(c.entries))
    && Get(c.entries, "version") in {Some(VInt(1)), Some(VBool(true))}
    && ProjectAccepted(Get(c.entries, "project"))
  }

  /** The project entry: a mapping whose name is a reverse-DNS string. */
  predicate ProjectAccepted(project: Option<Value>)
  {
    && project.Some? && project.value.VMap?
    && var name := Get(project.value.entries, "name");
       name.Some? && name.value.VStr? && ReverseDns(name.value.s)
  }

  /** `_validate` passes exactly the accepted configurations: only known
      root keys, all required ones, version 1 (Python's `True` equals 1),
      a project mapping with a reverse-DNS string name. */
  lemma ValidateSpec(c: Value)
    ensures Validate(c) == Ok(()) <==> Accepted(c)
  {
    if !c.VMap? {
      assert Validate(c).Err?;
    } else if !RootKeysOk(c) {
      RootKeysRefused(c);
    } else {
      PastRootKeys(c);
      ContentCheckSpec(Version(c), Project(c));
      AcceptedContent(c);
    }
  }

  /** An unknown or a missing root key fails the validation. */
  lemma RootKeysRefused(c: Value)
    requires c.VMap? && !RootKeysOk(c)
    ensures Validate(c).Err?
  {
    var keys := Keys(c.entries);
    if Fresh(keys, ValidRootKeys) == [] {
      assert forall j :: j in keys ==> j in ValidRootKeys;
      var k :| k in RequiredRootKeys && k !in keys;
      assert k in Fresh(RequiredRootKeys, keys);
    }
  }

  /** With the root keys right, acceptance is about the version and the
      project. */
  lemma AcceptedContent(c: Value)
    requires RootKeysOk(c)
    ensures Accepted(c)
      <==> (Version(c) == VInt(1) || Version(c) == VBool(true)) && ProjectAccepted(Some(Project(c)))
  {
    assert Get(c.entries, "version") == Some(Version(c));
    assert Get(c.entries, "project") == Some(Project(c));
  }

  /** The checks of the contents pass exactly for version 1 and a project
      mapping with a reverse-DNS string name. */
  lemma ContentCheckSpec(version: Value, project: Value)
    ensures ContentCheck(version, project) == Ok(())
      <==> (version == VInt(1) || version == VBool(true)) && ProjectAccepted(Some(project))
  {
    if project.VMap? {
      var name := Get(project.entries, "name");
      if name.Some? && name.value.VStr? {
        CheckNameSpec(name.value.s);
      }
    }
  }

  /** A root key outside the known ones is reported with `ValueError`, and
      it is reported before any missing key: the message names an unknown
      key of the file, whatever else is wrong. */
  lemma InvalidKeyFirst(c: Value, k: string)
    requires c.VMap? && k in Keys(c.entries) && k !in ValidRootKeys
    ensures Validate(c).Err?
    ensures exists bad :: (bad in Keys(c.entries) && bad !in ValidRootKeys
                           && Validate(c).error == Error(ValueError, "invalid key in config: " + bad))
  {
    var invalid := Fresh(Keys(c.entries), ValidRootKeys);
    assert k in invalid;
    assert invalid[0] in invalid;
  }

  /** With only known keys, a missing required key is reported with
      `ValueError`, naming a key that is missing. */
  lemma MissingKeyReported(c: Value, k: string)
    requires c.VMap? && forall j :: j in Keys(c.entries) ==> j in ValidRootKeys
    requires k in RequiredRootKeys && k !in Keys(c.entries)
    ensures exists m :: (m in RequiredRootKeys && m !in Keys(c.entries)
                         && Validate(c) == Fail(ValueError, "missing key in config: " + m))
  {
    var keys := Keys(c.entries);
    FreshNone(keys, ValidRootKeys);
    var missing := Fresh(RequiredRootKeys, keys);
    assert k in missing;
    assert missing[0] in missing;
  }

  /** Only known root keys, and all the required ones. */
  predicate RootKeysOk(c: Value)
  {
    && c.VMap?
    && (forall j :: j in Keys(c.entries) ==> j in ValidRootKeys)
    && (forall k :: k in RequiredRootKeys ==> k in Keys(c.entries))
  }

  /** The version and the project of a configuration whose root keys are
      right. */
  function Version(c: Value): Value
    requires RootKeysOk(c)
  {
    assert "version" in RequiredRootKeys;
    Get(c.entries, "version").value
  }

  function Project(c: Value): Value
    requires RootKeysOk(c)
  {
    assert "project" in RequiredRootKeys;
    Get(c.entries, "project").value
  }

  /** Once the root keys are right, the checks of the contents decide. */
  lemma {:induction false} PastRootKeys(c: Value)
    requires RootKeysOk(c)
    ensures Validate(c) == ContentCheck(Version(c), Project(c))
  {
    FreshNone(Keys(c.entries), ValidRootKeys);
    FreshNone(RequiredRootKeys, Keys(c.entries));
  }

  /** The rest of `_validate`: the version, then the project mapping and
      its name. */
  function ContentCheck(version: Value, project: Value): Result<()>
  {
    if version != VInt(1) && version != VBool(true) then
      Fail(ValueError, "unsupported config file version: " + VersionText(version))
    else if !project.VMap? then Fail(ValueError, "project: data must be in key: value format")
    else
      match Get(project.entries, "name")
      case None => Fail(ValueError, "project name missing")
      case Some(name) =>
        if name.VStr? then CheckName(name.s)
        else Fail(TypeError, "object has no attribute 'endswith'")
  }

  /** With every root key in place, a version other than 1, a project that is
      not a mapping and a project without a name are each refused with
      `ValueError` and their own message. */
  lemma ContentChecks(c: Value)
    requires RootKeysOk(c)
    ensures Version(c) != VInt(1) && Version(c) != VBool(true)
      ==> Validate(c) == Fail(ValueError, "unsupported config file version: " + VersionText(Version(c)))
    ensures (Version(c) == VInt(1) || Version(c) == VBool(true)) && !Project(c).VMap?
      ==> Validate(c) == Fail(ValueError, "project: data must be in key: value format")
    ensures (Version(c) == VInt(1) || Version(c) == VBool(true)) && Project(c).VMap? && "name" !in Keys(Project(c).entries)
      ==> Validate(c) == Fail(ValueError, "project name missing")
  {
    PastRootKeys(c);
  }

  /** Nothing is fresh when every key already exists. */
  lemma {:induction false} FreshNone(ks: seq<string>, existing: seq<string>)
    requires forall x :: x in ks ==> x in existing
    ensures Fresh(ks, existing) == []
  {
    if ks != [] {
      FreshNone(ks[1..], existing);
    }
  }

  /** `AppImageCraftYMLParser` once its file is loaded: it holds the loaded
      configuration. */
  class Parser {
    var loaded: Value

    /** The configuration passed `_validate`. */
    predicate Valid()
      reads this
    {
      Validate(loaded) == Ok(())
    }

    constructor (loaded: Value)
      ensures this.loaded == loaded
    {
      this.loaded := loaded;
    }

    /** The constructor after loading: the configuration is validated, and a
        configuration that fails raises the validation error. */
    static method Open(loaded: Value) returns (r: Result<Parser>)
      ensures r.Ok? <==> Validate(loaded) == Ok(())
      ensures r.Err? ==> Validate(loaded) == Err(r.error)
      ensures r.Ok? ==> fresh(r.value) && r.value.loaded == loaded && r.value.Valid()
    {
      var checked := Validate(loaded);
      if checked.Err? {
        return Err(checked.error);
      }
      var p := new Parser(loaded);
      return Ok(p);
    }

    /** `data()`: a copy of the loaded mapping. The copy is a value, so a
        caller that changes it does not change the parser. Its keys are the
        known root keys, and every required key is among them. */
    method Data() returns (d: Dict<Value>)
      requires Valid()
      ensures VMap(d) == loaded
      ensures forall k :: k in Keys(d) ==> k in ValidRootKeys
      ensures forall k :: k in RequiredRootKeys ==> k in Keys(d)
    {
      ValidateSpec(loaded);
      d := loaded.entries;
    }
  }
}
