/** `CMakeBuilder`: configure with CMake in `cmake-build`, build with make,
    install into the AppDir, and optionally build packages with CPack. The
    builder holds its section of the configuration (`build: cmake:`). */
module CMake {
  import opened Errors
  import opened Strings
  import opened Dicts
  import opened Config
  import opened Shell
  import opened Paths
  import opened Files
  import opened Util
  import opened BashScript
  import opened Builders

  const ScriptFilename: string := "build-cmake.sh"

  /** The variables every build gets unless the configuration overrides
      them. */
  const DefaultVariables: Dict<Value> := [
    ("CMAKE_INSTALL_PREFIX", VStr("/usr")),
    ("CMAKE_BUILD_TYPE", VStr("Release"))
  ]

  /** The user's `extra_variables` as `dict.update` takes them: a false
      value means none, a list is parsed as `KEY=VALUE` entries, a mapping
      is used as it is; `update` refuses a non-empty string (its items are
      single characters, not pairs) with `ValueError` and a number or `True`
      (not iterable) with `TypeError`. */
  function UserVariables(config: Value): Result<Dict<Value>>
  {
    var raw :- GetOr(config, "extra_variables", VNone);
    if !Truthy(raw) then Ok([])
    else match raw
      case VList(_) =>
        var d :- KvListToDict(raw);
        Ok(StrDict(d))
      case VMap(m) => Ok(m)
      case VStr(_) => Fail(ValueError, FirstElementLength)
      case _ => Fail(TypeError, "object is not iterable")
  }

  /** `_get_configure_extra_variables`: the defaults updated by the user's
      variables. */
  function ExtraVariables(config: Value): Result<Dict<Value>>
  {
    var user :- UserVariables(config);
    Ok(Update(DefaultVariables, user))
  }

  /** `_validate_cmake_arg_name`. */
  function ValidateArgName(name: string): (r: Result<()>)
    ensures r.Ok? <==> ' ' !in name
    ensures r.Err? ==> FailedWith(r, ValueError)
  {
    if ' ' in name then Fail(ValueError, SpacesRefused) else Ok(())
  }

  const SpacesRefused: string := "Spaces are not allowed in CMake argument names"

  /** The name check of the constructor over all variables, in order. */
  function ValidateArgNames(vars: Dict<Value>): (r: Result<()>)
    ensures r.Ok? <==> forall i :: 0 <= i < |vars| ==> ' ' !in vars[i].0
    ensures r.Err? ==> FailedWith(r, ValueError)
  {
    if vars == [] then Ok(())
    else if ' ' in vars[0].0 then ValidateArgName(vars[0].0)
    else
      var r := ValidateArgNames(vars[1..]);
      assert forall i :: 0 < i < |vars| ==> vars[i] == vars[1..][i - 1];
      r
  }

  /** `CMakeBuilder(config)`: the constructor computes the variables and
      checks their names. */
  function Construct(config: Value): (r: Result<()>)
    ensures r.Ok? <==> (ExtraVariables(config).Ok?
                        && forall i :: 0 <= i < |ExtraVariables(config).value| ==> ' ' !in ExtraVariables(config).value[i].0)
    ensures ExtraVariables(config).Ok? && r.Err? ==> FailedWith(r, ValueError)
  {
    var vars :- ExtraVariables(config);
    ValidateArgNames(vars)
  }

  /** The constructor as the source writes it: `__init__` calls the base
      constructor without the configuration, so `_builder_config` is never
      set and computing the variables raises `AttributeError` (a
      `TypeError` here). */
  function ConstructAsWritten(config: Value): Result<()>
  {
    Fail(TypeError, NoBuilderConfig)
  }

  const NoBuilderConfig: string := "'CMakeBuilder' object has no attribute '_builder_config'"

  /** As written no configuration constructs the builder, not even one
      without settings, which the intended constructor accepts. */
  lemma ConstructAsWrittenFails(config: Value)
    ensures FailedWith(ConstructAsWritten(config), TypeError)
    ensures Construct(VMap([])) == Ok(())
  {
    var vars := ExtraVariables(VMap([])).value;
    assert vars == DefaultVariables;
    assert ' ' !in DefaultVariables[0].0 && ' ' !in DefaultVariables[1].0;
  }

  /** The `-DKEY=VALUE` argument of one variable: the name is checked again
      and the value quoted. */
  function VarArg(entry: (string, Value)): Result<string>
  {
    var _ :- ValidateArgName(entry.0);
    var q :- PyQuote(entry.1);
    Ok("-D" + entry.0 + "=" + q)
  }

  /** The `-D` arguments of `vars`, in order; the first bad one stops. */
  function VarArgs(vars: Dict<Value>): Result<seq<string>>
  {
    Traverse(VarArg, vars)
  }

  /** `_generate_cmake_command`. */
  function CMakeCommand(config: Value, projectRoot: string): Result<string>
  {
    var vars :- ExtraVariables(config);
    var args :- VarArgs(vars);
    var sd :- SourceDir(config, projectRoot);
    Ok(Join(["cmake"] + args + [sd], " "))
  }

  /** `_generate_cmake_command` as the source writes it: a loop appending
      one argument per variable. */
  method GenerateCMakeCommand(config: Value, projectRoot: string) returns (r: Result<string>)
    ensures r == CMakeCommand(config, projectRoot)
  {
    var vars := ExtraVariables(config);
    if vars.Err? {
      return Err(vars.error);
    }
    var env := vars.value;
    var args: seq<string> := [];
    var i := 0;
    while i < |env|
      invariant 0 <= i <= |env|
      invariant VarArgs(env[..i]) == Ok(args)
    {
      var arg := VarArg(env[i]);
      TraverseStep(VarArg, env, i, args);
      if arg.Err? {
        return Err(arg.error);
      }
      args := args + [arg.value];
      i := i + 1;
    }
    assert env[..i] == env;
    var sd := SourceDir(config, projectRoot);
    if sd.Err? {
      return Err(sd.error);
    }
    return Ok(Join(["cmake"] + args + [sd.value], " "));
  }

  /** `re.match(r"^[A-Z]+$", s)`: one or more upper-case ASCII letters; `$`
      also matches before a newline that ends the string. */
  predicate IsCPackName(s: string)
  {
    var u := if |s| > 0 && s[|s| - 1] == '\n' then s[..|s| - 1] else s;
    |u| > 0 && forall i :: 0 <= i < |u| ==> 'A' <= u[i] <= 'Z'
  }

  /** The line of one CPack generator; a non-string fails in `re.match`. */
  function CPackLine(gen: Value): Result<string>
  {
    if !gen.VStr? then Fail(TypeError, "expected string or bytes-like object")
    else if !IsCPackName(gen.s) then Fail(ValueError, "generator in invalid format: " + gen.s)
    else Ok("cpack -V " + Quote(gen.s))
  }

  function CPackGeneratorLines(gens: seq<Value>): Result<seq<string>>
  {
    Traverse(CPackLine, gens)
  }

  const CPackHeading: seq<string> := ["", "# build packages with cpack"]

  /** The CPack section, added after the install line; only an explicit
      `false` (or no `cpack` key) leaves it out. */
  function CPackLines(config: Value): Result<seq<string>>
  {
    var c :- GetOr(config, "cpack", VBool(false));
    CPackSection(c)
  }

  /** The generators asked for by the value `c` of `cpack` (not `false`):
      `None` when plain `cpack -V` is to run, which is what an empty
      `cpack:` entry or a mapping without `generators` means. */
  function CPackGenerators(c: Value): Result<Option<seq<Value>>>
  {
    var gens :- if c == VNone then Ok(VNone) else GetOr(c, "generators", VNone);
    if gens == VNone then Ok(None)
    else if !gens.VList? then Fail(ValueError, "generators: must be list")
    else Ok(Some(gens.items))
  }

  /** The CPack section for the value `c` of `cpack`. */
  function CPackSection(c: Value): Result<seq<string>>
  {
    if c == VBool(false) then Ok([])
    else
      var gens :- CPackGenerators(c);
      match gens
      case None => Ok(CPackHeading + ["cpack -V"])
      case Some(items) =>
        var ls :- CPackGeneratorLines(items);
        Ok(CPackHeading + ls)
  }

  /** The fixed lines between the change into the build directory and the
      configure command. */
  const SetupLines: seq<string> :=
    ["", SeparateDirComment, "mkdir -p cmake-build", "cd cmake-build", "", "# set up build"]

  /** The part of `build-cmake.sh` around the configure command. */
  function MainLines(buildDir: string, command: string, appDir: string): seq<string>
  {
    [CdComment, "cd " + Quote(buildDir)] + SetupLines + [command] + BuildProjectLines
    + [CMakeInstallComment, "make install DESTDIR=" + Quote(appDir)]
  }

  /** The buffered lines of `build-cmake.sh` (after the header). */
  function ScriptLines(config: Value, cwd: string, projectRoot: string, buildDir: string): Result<seq<string>>
  {
    var command :- CMakeCommand(config, projectRoot);
    var cpack :- CPackLines(config);
    Ok(MainLines(buildDir, command, GetAppDirPath(cwd, buildDir)) + cpack)
  }

  /** `generate_build_script`. */
  function BuildScript(config: Value, cwd: string, projectRoot: string, buildDir: string): Outcome<string>
  {
    ScriptOutcome(buildDir, ScriptFilename, ScriptLines(config, cwd, projectRoot, buildDir))
  }

  /** `generate_build_script` as the source writes it: the generator grows
      step by step and the file is written last. */
  method GenerateBuildScript(fs: FileSystem, config: Value, cwd: string, projectRoot: string, buildDir: string)
    returns (r: Result<string>)
    modifies fs
    ensures var o := BuildScript(config, cwd, projectRoot, buildDir);
      r == o.result && fs.files == Apply(old(fs.files), o.writes)
      && fs.log == old(fs.log) + WrittenPaths(o.writes)
  {
    var scriptPath := PathJoin(buildDir, ScriptFilename);
    var gen := new ScriptGenerator(scriptPath);
    var command := GenerateCMakeCommand(config, projectRoot);
    if command.Err? {
      assert BuildScript(config, cwd, projectRoot, buildDir) == Outcome([], Err(command.error));
      return Err(command.error);
    }
    var main := MainLines(buildDir, command.value, GetAppDirPath(cwd, buildDir));
    gen.AddLines(main);
    var cpack := AddCPackLines(gen, config);
    if cpack.Err? {
      assert BuildScript(config, cwd, projectRoot, buildDir) == Outcome([], Err(cpack.error));
      return Err(cpack.error);
    }
    ghost var lines := gen.lines;
    ScriptLinesOk(config, cwd, projectRoot, buildDir, command.value, main, lines);
    FilenamePlain();
    r := FinishScript(fs, gen, buildDir, ScriptFilename);
  }

  lemma FilenamePlain()
    ensures ScriptFilename != "" && '/' !in ScriptFilename
  {
  }

  lemma ScriptLinesOk(config: Value, cwd: string, projectRoot: string, buildDir: string, command: string,
                      main: seq<string>, lines: seq<string>)
    requires CMakeCommand(config, projectRoot) == Ok(command) && CPackLines(config).Ok?
    requires main == MainLines(buildDir, command, GetAppDirPath(cwd, buildDir))
    requires lines == [] + main + CPackLines(config).value
    ensures ScriptLines(config, cwd, projectRoot, buildDir) == Ok(lines)
  {
    var cpack := CPackLines(config).value;
    assert lines == main + cpack by {
      assert [] + main == main;
    }
  }

  /** The CPack part of `generate_build_script`: the generators are added
      one by one; on a failure the caller drops the generator. */
  method AddCPackLines(gen: ScriptGenerator, config: Value) returns (r: Result<()>)
    modifies gen
    ensures r.Ok? <==> CPackLines(config).Ok?
    ensures r.Ok? ==> gen.lines == old(gen.lines) + CPackLines(config).value
    ensures r.Err? ==> r.error == CPackLines(config).error
  {
    var c := GetOr(config, "cpack", VBool(false));
    if c.Err? {
      return Err(c.error);
    }
    r := AddCPackSection(gen, c.value);
  }

  method AddCPackSection(gen: ScriptGenerator, c: Value) returns (r: Result<()>)
    modifies gen
    ensures r.Ok? <==> CPackSection(c).Ok?
    ensures r.Ok? ==> gen.lines == old(gen.lines) + CPackSection(c).value
    ensures r.Err? ==> r.error == CPackSection(c).error
  {
    if c == VBool(false) {
      return Ok(());
    }
    var gens := CPackGenerators(c);
    if gens.Err? {
      return Err(gens.error);
    }
    if gens.value.None? {
      gen.AddLines(CPackHeading + ["cpack -V"]);
      return Ok(());
    }
    var items := gens.value.value;
    gen.AddLines(CPackHeading);
    ghost var mid := gen.lines;
    r := AddGeneratorLines(gen, items);
    CPackSectionList(c, items, mid, gen.lines, old(gen.lines));
  }

  lemma CPackSectionList(c: Value, items: seq<Value>, mid: seq<string>, lines: seq<string>, before: seq<string>)
    requires c != VBool(false) && CPackGenerators(c) == Ok(Some(items))
    requires mid == before + CPackHeading
    requires CPackGeneratorLines(items).Ok? ==> lines == mid + CPackGeneratorLines(items).value
    ensures CPackSection(c).Ok? <==> CPackGeneratorLines(items).Ok?
    ensures CPackSection(c).Ok? ==> lines == before + CPackSection(c).value
    ensures CPackSection(c).Err? ==> CPackSection(c).error == CPackGeneratorLines(items).error
  {
    if CPackGeneratorLines(items).Ok? {
      var ls := CPackGeneratorLines(items).value;
      assert CPackSection(c) == Ok(CPackHeading + ls);
      ConcatAssoc(before, CPackHeading, ls);
    }
  }

  /** The loop over the CPack generators. */
  method AddGeneratorLines(gen: ScriptGenerator, items: seq<Value>) returns (r: Result<()>)
    modifies gen
    ensures r.Ok? <==> CPackGeneratorLines(items).Ok?
    ensures r.Ok? ==> gen.lines == old(gen.lines) + CPackGeneratorLines(items).value
    ensures r.Err? ==> r.error == CPackGeneratorLines(items).error
  {
    var i := 0;
    while i < |items|
      invariant 0 <= i <= |items|
      invariant CPackGeneratorLines(items[..i]).Ok?
      invariant gen.lines == old(gen.lines) + CPackGeneratorLines(items[..i]).value
    {
      var line := CPackLine(items[i]);
      TraverseStep(CPackLine, items, i, CPackGeneratorLines(items[..i]).value);
      if line.Err? {
        return Err(line.error);
      }
      gen.AddLine(line.value);
      i := i + 1;
    }
    assert items[..i] == items;
    return Ok(());
  }


  /** The configured variables come after the two defaults, which keep their
      place; a user value replaces the default of the same name, and no name
      occurs twice. */
  lemma ExtraVariablesSpec(config: Value)
    requires UserVariables(config).Ok? && Valid(UserVariables(config).value)
    ensures ExtraVariables(config).Ok?
    ensures var vars := ExtraVariables(config).value;
      var user := UserVariables(config).value;
      Valid(vars)
      && |vars| >= 2 && Keys(vars)[..2] == ["CMAKE_INSTALL_PREFIX", "CMAKE_BUILD_TYPE"]
      && forall k :: Get(vars, k) == if k in Keys(user) then Get(user, k) else Get(DefaultVariables, k)
  {
    var user := UserVariables(config).value;
    assert Keys(DefaultVariables) == ["CMAKE_INSTALL_PREFIX", "CMAKE_BUILD_TYPE"];
    assert Valid(DefaultVariables);
    UpdateKeys(DefaultVariables, user);
    UpdateValid(DefaultVariables, user);
    forall k {
      UpdateGet(DefaultVariables, user, k);
    }
  }

  /** A `KEY=VALUE` list yields exactly its parsed entries, as strings, and
      a list with a malformed entry or a repeated key is refused. */
  lemma UserVariablesFromList(config: Value, items: seq<Value>)
    requires GetOr(config, "extra_variables", VNone) == Ok(VList(items)) && items != []
    ensures UserVariables(config).Ok? <==> AllEntriesOk(items) && Valid(Entries(items))
    ensures UserVariables(config).Ok? ==>
      UserVariables(config).value == StrDict(Entries(items)) && Valid(UserVariables(config).value)
  {
    KvListOutcomes(items);
    if UserVariables(config).Ok? {
      var d := Entries(items);
      assert Keys(StrDict(d)) == Keys(d);
    }
  }

  /** The other shapes of `extra_variables`: unset, empty or false means
      none; a mapping is taken as it is; a string or a number is refused. */
  lemma UserVariablesOther(config: Value)
    requires config.VMap?
    ensures var raw := Get(config.entries, "extra_variables");
      (raw.None? || !Truthy(raw.value) ==> UserVariables(config) == Ok([]))
      && (raw.Some? && raw.value.VMap? ==> UserVariables(config) == Ok(raw.value.entries))
      && (raw.Some? && raw.value.VStr? && raw.value.s != "" ==> FailedWith(UserVariables(config), ValueError))
      && (raw.Some? && Truthy(raw.value) && (raw.value.VInt? || raw.value.VBool?) ==>
            FailedWith(UserVariables(config), TypeError))
  {
  }

  /** `-DKEY=VALUE` is refused exactly for a name with a space or a value
      that is neither false nor a string; otherwise the shell reads the
      value part back as the configured text. */
  lemma VarArgSpec(entry: (string, Value))
    ensures VarArg(entry).Ok? <==> ' ' !in entry.0 && (Truthy(entry.1) ==> entry.1.VStr?)
    ensures VarArg(entry).Ok? ==>
      var a := VarArg(entry).value;
      var n := |entry.0| + 3;
      |a| >= n && a[..n] == "-D" + entry.0 + "=" && Unquote(a[n..]) == Some(ShellText(entry.1))
  {
    if VarArg(entry).Ok? {
      var q := PyQuote(entry.1).value;
      var a := VarArg(entry).value;
      assert a == ("-D" + entry.0 + "=") + q;
      PyQuoteRoundTrip(entry.1);
    }
  }

  /** The constructor's check makes the command's own name check redundant:
      after a successful construction the command fails only on a value or
      the source directory. */
  lemma ConstructedCommand(config: Value, projectRoot: string)
    requires Construct(config).Ok?
    ensures var vars := ExtraVariables(config).value;
      CMakeCommand(config, projectRoot).Ok?
      <==> (forall i :: 0 <= i < |vars| ==> (Truthy(vars[i].1) ==> vars[i].1.VStr?))
           && SourceDir(config, projectRoot).Ok?
  {
    var vars := ExtraVariables(config).value;
    forall i | 0 <= i < |vars| {
      VarArgSpec(vars[i]);
    }
  }

  /** Only an explicit `cpack: false` (or no `cpack` key) leaves CPack out:
      `cpack:` with no value, `cpack: 0` or `cpack: {}` do not. */
  lemma CPackOnlyFalseSkips(config: Value)
    requires config.VMap?
    ensures CPackLines(config) == Ok([])
      <==> Get(config.entries, "cpack") == None || Get(config.entries, "cpack") == Some(VBool(false))
  {
    var c := GetOr(config, "cpack", VBool(false)).value;
    if c != VBool(false) {
      var gens := CPackGenerators(c);
      if gens.Ok? && gens.value.Some? {
        var ls := CPackGeneratorLines(gens.value.value);
        if ls.Ok? {
          assert CPackSection(c) == Ok(CPackHeading + ls.value);
        }
      }
    }
  }

  /** Generators named by upper-case letters each get `cpack -V NAME`, in
      order and unquoted. */
  lemma CPackPlainNames(config: Value, names: seq<string>)
    requires config.VMap? && Get(config.entries, "cpack") == Some(VMap([("generators", VList(StrValues(names)))]))
    requires forall i :: 0 <= i < |names| ==> |names[i]| > 0 && forall j :: 0 <= j < |names[i]| ==> 'A' <= names[i][j] <= 'Z'
    ensures CPackLines(config).Ok?
    ensures var ls := CPackLines(config).value;
      |ls| == |names| + 2 && ls[..2] == CPackHeading
      && forall i :: 0 <= i < |names| ==> ls[i + 2] == "cpack -V " + names[i]
  {
    var gens := StrValues(names);
    forall i | 0 <= i < |names|
      ensures CPackLine(gens[i]) == Ok("cpack -V " + names[i])
    {
      assert gens[i] == VStr(names[i]);
      PlainNameLine(names[i]);
    }
    var c := VMap([("generators", VList(gens))]);
    assert GetOr(config, "cpack", VBool(false)) == Ok(c);
    assert CPackGenerators(c) == Ok(Some(gens));
    var ls := CPackGeneratorLines(gens).value;
    assert CPackLines(config) == Ok(CPackHeading + ls);
  }

  lemma PlainNameLine(s: string)
    requires |s| > 0 && forall j :: 0 <= j < |s| ==> 'A' <= s[j] <= 'Z'
    ensures CPackLine(VStr(s)) == Ok("cpack -V " + s)
  {
    assert s[|s| - 1] != '\n';
    assert IsCPackName(s);
    assert AllSafe(s);
  }
}
