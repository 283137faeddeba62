/** `AllBuildScriptsGenerator`: writes the hook scripts, one script per
    registered builder, the AppImage script, and the main script `build.sh`
    that calls them in order. */
module BuildScripts {
  import opened Errors
  import opened Strings
  import opened Dicts
  import opened Config
  import opened Shell
  import opened Paths
  import opened Files
  import opened Util
  import opened BashScript
  import Builders
  import CMake
  import AppImageScript
  import HookScripts

  /** What the generator learns from its surroundings: the working
      directory (for absolute paths), the machine name (for the default
      architecture) and whether `shellcheck` is installed and what it says
      about `build.sh`. */
  datatype Host = Host(cwd: string, machine: string, shellcheckAvailable: bool, shellcheckVerdict: Result<()>)

  // ---------------------------------------------------------------------
  // The null builder

  /** `_is_null_builder`. */
  predicate IsNullBuilder(name: Option<string>)
  {
    name.None? || Lower(name.value) == "null"
  }

  // ---------------------------------------------------------------------
  // Builder scripts

  /** The builders that can be constructed by name. */
  const Registered: seq<string> := ["cmake"]

  /** One turn of the loop over the build section: a null or unknown
      builder is skipped, and so is one whose construction raises
      `KeyError` (it is caught with the lookup); otherwise its script is
      written and its name recorded. */
  function BuilderStep(o: Outcome<Dict<string>>, name: string, config: Value, cwd: string, projectRoot: string,
                       buildDir: string): Outcome<Dict<string>>
  {
    if o.result.Err? then o
    else if IsNullBuilder(Some(name)) || name !in Registered then o
    else
      match CMake.Construct(config)
      case Err(e) => if e.kind == KeyError then o else Outcome(o.writes, Err(e))
      case Ok(_) =>
        var s := CMake.BuildScript(config, cwd, projectRoot, buildDir);
        match s.result
        case Err(e) => Outcome(o.writes + s.writes, Err(e))
        case Ok(f) => Outcome(o.writes + s.writes, Ok(Put(o.result.value, name, f)))
  }

  /** The loop over the build section, in its order. */
  function BuilderLoop(entries: Dict<Value>, cwd: string, projectRoot: string, buildDir: string)
    : Outcome<Dict<string>>
    decreases |entries|
  {
    if entries == [] then Outcome([], Ok([]))
    else
      var n := |entries| - 1;
      BuilderStep(BuilderLoop(entries[..n], cwd, projectRoot, buildDir), entries[n].0, entries[n].1, cwd,
                  projectRoot, buildDir)
  }

  /** `generate_builder_scripts`: the map from builder name to script name. */
  function BuilderScripts(config: Value, cwd: string, projectRoot: string, buildDir: string): Outcome<Dict<string>>
  {
    match Index(config, "build")
    case Err(e) => Outcome([], Err(e))
    case Ok(b) =>
      if !b.VMap? then Outcome([], Fail(TypeError, "object has no attribute 'keys'"))
      else BuilderLoop(b.entries, cwd, projectRoot, buildDir)
  }

  // ---------------------------------------------------------------------
  // The main script

  /** The comment above the convenience exports. */
  const ConvenienceComment: string :=
    "# convenience variables, may be used in config file"

  /** The comment above the top-level environment. */
  const EnvironmentComment: string :=
    "# user specified environment variables"

  /** The comment above the creation of the artifacts directory. */
  const ArtifactsComment: string :=
    "# create artifacts directory (called scripts shall put their build results into this directory)"

  /** The comment above the creation of the AppDir. */
  const AppDirComment: string :=
    "# create AppDir so that tools which are sensitive to that won't complain"

  /** The comment above the commented-out builders. */
  const AlternativesComment: string :=
    "# additional available builders (call appimagecraft with --builder <name> to switch)"

  /** The message of the call with the missing argument. */
  const MissingBuildDir: string :=
    "build_files() missing 1 required positional argument: 'build_dir'"

  /** The convenience exports at the top of `build.sh`. */
  function Conveniences(projectRoot: string, buildDir: string): seq<string>
  {
    [ConvenienceComment]
      + Assign("PROJECT_ROOT", Quote(projectRoot)) + Assign("BUILD_DIR", Quote(buildDir))
  }

  /** `$VERSION`: the quoted `version`, else `$(<version_command>)`, else
      nothing. */
  function VersionLines(project: Value): Result<seq<string>>
  {
    var version :- GetOr(project, "version", VNone);
    if version != VNone then
      var q :- PyQuote(version);
      Ok(Assign("VERSION", q))
    else
      var command :- GetOr(project, "version_command", VNone);
      if command != VNone then
        var t :- PyStr(command);
        Ok(Assign("VERSION", "$(" + t + ")"))
      else Ok([])
  }

  /** The top-level environment as a mapping: a list is parsed as
      `KEY=VALUE` strings, a mapping is taken as it is, and anything else
      has no `items`. */
  function EnvironmentMap(env: Value): Result<Dict<Value>>
  {
    if env.VList? then
      var d :- KvListToDict(env);
      Ok(StrDict(d))
    else if env.VMap? then Ok(env.entries)
    else Fail(TypeError, "object has no attribute 'items'")
  }

  /** The top-level environment block: nothing without `environment`, else
      a heading, an assignment and an export per variable (the value written
      with `str()`, unquoted), and an empty line. */
  function EnvironmentLines(config: Value): Result<seq<string>>
  {
    var env :- GetOr(config, "environment", VNone);
    if env == VNone then Ok([])
    else
      var d :- EnvironmentMap(env);
      var exports :- ExportLines(d, true);
      Ok([EnvironmentComment] + exports + [""])
  }

  /** The fixed part before the builders: into the build directory, the
      artifacts directory, the pre-build hook, the AppDir. */
  function HeaderLines(buildDir: string): seq<string>
  {
    HeaderBefore(buildDir) + [PreBuildCall] + HeaderAfter
  }

  function HeaderBefore(buildDir: string): seq<string>
  {
    ["# make sure to be in the build dir", "cd " + Quote(buildDir)] + ArtifactsLines
  }

  /** The fixed lines between the change into the build directory and the
      pre-build call. */
  const ArtifactsLines: seq<string> :=
    ["", ArtifactsComment, "[ ! -d artifacts ] && mkdir artifacts", "", "# call pre-build script (if available)"]

  const HeaderAfter: seq<string> := ["", AppDirComment, "mkdir -p AppDir", ""]

  const PreBuildCall: string := "[ -f pre_build.sh ] && bash pre_build.sh"
  const PostBuildCall: string := "[ -f post_build.sh ] && bash post_build.sh"

  /** The call of a script in a subshell. */
  function Source(script: string): string
  {
    "(source " + script + ")"
  }

  /** The selected builder's entry and the builders left for the comments:
      a null selection adds nothing; otherwise the selected builder must
      have a script, is called and is removed from the map. */
  function SelectedLines(selected: Option<string>, scripts: Dict<string>): Result<(seq<string>, Dict<string>)>
  {
    if IsNullBuilder(selected) then Ok(([], scripts))
    else
      match Get(scripts, selected.value)
      case None => Fail(KeyError, selected.value)
      case Some(f) =>
        Ok((["# call script for main builder " + selected.value, Source(f)], Remove(scripts, selected.value)))
  }

  /** A commented-out call per remaining non-null builder, in map order. */
  function Alternatives(rest: Dict<string>): seq<string>
    decreases |rest|
  {
    if rest == [] then []
    else
      var n := |rest| - 1;
      var init := Alternatives(rest[..n]);
      if IsNullBuilder(Some(rest[n].0)) then init
      else init + ["# script for builder " + rest[n].0, "#source " + rest[n].1 + "\n"]
  }

  function AlternativeLines(rest: Dict<string>): seq<string>
  {
    if rest == [] then []
    else [AlternativesComment] + Alternatives(rest)
  }

  const PostLines: seq<string> := PostBefore + [PostBuildCall, ""]
  const PostBefore: seq<string> := ["", "# call post-build script (if available)"]

  /** The lines of `build.sh` after the version: the environment, the fixed
      header, the selected builder, the others as comments, the post-build
      hook. */
  function BodyLines(config: Value, buildDir: string, selected: Option<string>, scripts: Dict<string>)
    : Result<seq<string>>
  {
    var env :- EnvironmentLines(config);
    var sel :- SelectedLines(selected, scripts);
    Ok(env + HeaderLines(buildDir) + sel.0 + AlternativeLines(sel.1) + PostLines)
  }

  /** The lines of `build.sh` up to the AppImage call. */
  function MainLines(config: Value, projectRoot: string, buildDir: string, selected: Option<string>,
                     scripts: Dict<string>): Result<seq<string>>
  {
    var project :- Index(config, "project");
    var version :- VersionLines(project);
    var body :- BodyLines(config, buildDir, selected, scripts);
    Ok(Conveniences(projectRoot, buildDir) + version + [""] + body)
  }

  function AppImageCall(path: string): seq<string>
  {
    ["# build AppImage", Source(Quote(path))]
  }

  const MainFilename: string := "build.sh"
  const AppImageFilename: string := "build-appimage.sh"

  /** `_generate_main_script`: the AppImage script is written first, then
      `build.sh`, whose path is returned. */
  function MainScript(config: Value, projectRoot: string, buildDir: string, selected: Option<string>,
                      scripts: Dict<string>, machine: string): Outcome<string>
  {
    match MainLines(config, projectRoot, buildDir, selected, scripts)
    case Err(e) => Outcome([], Err(e))
    case Ok(lines) =>
      match GetOr(config, "appimage", VNone)
      case Err(e) => Outcome([], Err(e))
      case Ok(ai) => MainWrites(lines, ai, buildDir, machine)
  }

  /** The writes once the lines of `build.sh` are known: the AppImage
      script, then `build.sh` ending with its call. */
  function MainWrites(lines: seq<string>, ai: Value, buildDir: string, machine: string): Outcome<string>
  {
    var aiPath := PathJoin(buildDir, AppImageFilename);
    var a := AppImageScript.BuildFileOutcome(ai, machine, aiPath);
    match a.result
    case Err(e) => Outcome(a.writes, Err(e))
    case Ok(_) =>
      var mainPath := PathJoin(buildDir, MainFilename);
      Outcome(a.writes + [Write(mainPath, ScriptText(lines + AppImageCall(aiPath)))], Ok(mainPath))
  }

  // ---------------------------------------------------------------------
  // All scripts

  /** `generate_all_scripts`: the hook scripts, the builder scripts, the
      AppImage script and `build.sh`, in that order, then `shellcheck` on
      `build.sh` when it is installed. A failure keeps what was written
      before it. */
  function AllScripts(config: Value, projectRoot: string, selected: Option<string>, buildDir: Option<string>,
                      host: Host): Outcome<string>
  {
    if buildDir.None? then Outcome([], Fail(ValueError, "build dir has not been set"))
    else
      var bd := buildDir.value;
      match GetOr(config, "scripts", VNone)
      case Err(e) => Outcome([], Err(e))
      case Ok(scriptsConfig) =>
        var hooks := HookScripts.BuildFiles(scriptsConfig, projectRoot, bd);
        if hooks.result.Err? then Outcome(hooks.writes, Err(hooks.result.error))
        else
          var builders := BuilderScripts(config, host.cwd, projectRoot, bd);
          if builders.result.Err? then Outcome(hooks.writes + builders.writes, Err(builders.result.error))
          else
            var main := MainScript(config, projectRoot, bd, selected, builders.result.value, host.machine);
            var writes := hooks.writes + builders.writes + main.writes;
            if main.result.Err? then Outcome(writes, main.result)
            else if host.shellcheckAvailable && host.shellcheckVerdict.Err? then
              Outcome(writes, Err(host.shellcheckVerdict.error))
            else Outcome(writes, main.result)
  }

  /** `generate_all_scripts` as the source is written: the hook generator's
      `build_files` is given the build directory only, so the call fails
      with `TypeError` (a missing argument) before anything is written. */
  function AllScriptsAsWritten(config: Value, projectRoot: string, selected: Option<string>,
                               buildDir: Option<string>, host: Host): Outcome<string>
  {
    if buildDir.None? then Outcome([], Fail(ValueError, "build dir has not been set"))
    else
      match GetOr(config, "scripts", VNone)
      case Err(e) => Outcome([], Err(e))
      case Ok(_) => Outcome([], Fail(TypeError, MissingBuildDir))
  }

  // ---------------------------------------------------------------------
  // The generator as the source writes it

  /** `generate_builder_scripts`: the loop over the build section, filling
      the map of scripts. */
  method GenerateBuilderScripts(fs: FileSystem, config: Value, cwd: string, projectRoot: string, buildDir: string)
    returns (r: Result<Dict<string>>)
    modifies fs
    ensures var o := BuilderScripts(config, cwd, projectRoot, buildDir);
      r == o.result && fs.files == Apply(old(fs.files), o.writes)
      && fs.log == old(fs.log) + WrittenPaths(o.writes)
  {
    var build := Index(config, "build");
    if build.Err? {
      return Err(build.error);
    }
    if !build.value.VMap? {
      return Fail(TypeError, "object has no attribute 'keys'");
    }
    r := RunBuilderLoop(fs, build.value.entries, cwd, projectRoot, buildDir);
  }

  /** The loop over the build section, in its order, filling the map of
      scripts; the first failure ends it. */
  method RunBuilderLoop(fs: FileSystem, entries: Dict<Value>, cwd: string, projectRoot: string, buildDir: string)
    returns (r: Result<Dict<string>>)
    modifies fs
    ensures var o := BuilderLoop(entries, cwd, projectRoot, buildDir);
      r == o.result && fs.files == Apply(old(fs.files), o.writes)
      && fs.log == old(fs.log) + WrittenPaths(o.writes)
  {
    var scripts: Dict<string> := [];
    var i := 0;
    while i < |entries|
      invariant 0 <= i <= |entries|
      invariant var o := BuilderLoop(entries[..i], cwd, projectRoot, buildDir);
        o.result == Ok(scripts) && fs.files == Apply(old(fs.files), o.writes)
        && fs.log == old(fs.log) + WrittenPaths(o.writes)
    {
      BuilderLoopStep(entries, i, cwd, projectRoot, buildDir);
      var next := AddBuilder(fs, scripts, entries[i].0, entries[i].1, cwd, projectRoot, buildDir,
                             old(fs.files), old(fs.log), BuilderLoop(entries[..i], cwd, projectRoot, buildDir));
      if next.Err? {
        BuilderLoopFailed(entries, i + 1, cwd, projectRoot, buildDir);
        return next;
      }
      scripts := next.value;
      i := i + 1;
    }
    assert entries[..i] == entries;
    return Ok(scripts);
  }

  /** The body of the loop for one builder. `o` is what the builders before
      it did to the files `files0` and the log `log0`. */
  method AddBuilder(fs: FileSystem, scripts: Dict<string>, name: string, config: Value, cwd: string,
                    projectRoot: string, buildDir: string,
                    ghost files0: map<string, File>, ghost log0: seq<string>, ghost o: Outcome<Dict<string>>)
    returns (r: Result<Dict<string>>)
    requires o.result == Ok(scripts) && fs.files == Apply(files0, o.writes) && fs.log == log0 + WrittenPaths(o.writes)
    modifies fs
    ensures var o' := BuilderStep(o, name, config, cwd, projectRoot, buildDir);
      r == o'.result && fs.files == Apply(files0, o'.writes) && fs.log == log0 + WrittenPaths(o'.writes)
  {
    if IsNullBuilder(Some(name)) || name !in Registered {
      BuilderStepSkipped(o, name, config, cwd, projectRoot, buildDir);
      return Ok(scripts);
    }
    var constructed := CMake.Construct(config);
    if constructed.Err? {
      BuilderStepSkipped(o, name, config, cwd, projectRoot, buildDir);
      if constructed.error.kind == KeyError {
        return Ok(scripts);
      }
      return Err(constructed.error);
    }
    ghost var s := CMake.BuildScript(config, cwd, projectRoot, buildDir);
    var f := GenerateCMake(fs, config, cwd, projectRoot, buildDir, files0, log0, o.writes);
    if f.Err? {
      BuilderStepBuilt(o, name, config, cwd, projectRoot, buildDir, s);
      return Err(f.error);
    }
    r := Ok(Put(scripts, name, f.value));
    BuilderStepAdded(o, scripts, name, config, cwd, projectRoot, buildDir, s, f.value, r);
  }

  lemma BuilderLoopStep(entries: Dict<Value>, i: nat, cwd: string, projectRoot: string, buildDir: string)
    requires i < |entries|
    ensures BuilderLoop(entries[..i + 1], cwd, projectRoot, buildDir)
      == BuilderStep(BuilderLoop(entries[..i], cwd, projectRoot, buildDir), entries[i].0, entries[i].1, cwd,
                     projectRoot, buildDir)
  {
    assert entries[..i + 1][..i] == entries[..i];
  }

  lemma BuilderStepSkipped(o: Outcome<Dict<string>>, name: string, config: Value, cwd: string, projectRoot: string,
                           buildDir: string)
    requires o.result.Ok?
    ensures IsNullBuilder(Some(name)) || name !in Registered ==> BuilderStep(o, name, config, cwd, projectRoot, buildDir) == o
    ensures !IsNullBuilder(Some(name)) && name in Registered && CMake.Construct(config).Err?
      ==> BuilderStep(o, name, config, cwd, projectRoot, buildDir)
          == if CMake.Construct(config).error.kind == KeyError then o else Outcome(o.writes, Err(CMake.Construct(config).error))
  {
  }

  lemma BuilderStepBuilt(o: Outcome<Dict<string>>, name: string, config: Value, cwd: string, projectRoot: string,
                         buildDir: string, s: Outcome<string>)
    requires o.result.Ok? && !IsNullBuilder(Some(name)) && name in Registered && CMake.Construct(config).Ok?
    requires s == CMake.BuildScript(config, cwd, projectRoot, buildDir)
    ensures BuilderStep(o, name, config, cwd, projectRoot, buildDir)
      == Outcome(o.writes + s.writes, if s.result.Err? then Err(s.result.error) else Ok(Put(o.result.value, name, s.result.value)))
  {
  }

  /** The CMake script written after the scripts written so far. */
  method GenerateCMake(fs: FileSystem, config: Value, cwd: string, projectRoot: string, buildDir: string,
                       ghost files0: map<string, File>, ghost log0: seq<string>, ghost ws: seq<Write>)
    returns (f: Result<string>)
    requires fs.files == Apply(files0, ws) && fs.log == log0 + WrittenPaths(ws)
    modifies fs
    ensures var s := CMake.BuildScript(config, cwd, projectRoot, buildDir);
      f == s.result && fs.files == Apply(files0, ws + s.writes) && fs.log == log0 + WrittenPaths(ws + s.writes)
  {
    ghost var s := CMake.BuildScript(config, cwd, projectRoot, buildDir);
    ghost var mid := fs.files;
    f := CMake.GenerateBuildScript(fs, config, cwd, projectRoot, buildDir);
    assert fs.files == Apply(mid, s.writes);
    ApplyAppend(files0, ws, s.writes);
    assert fs.files == Apply(files0, ws + s.writes);
    assert fs.log == log0 + WrittenPaths(ws) + WrittenPaths(s.writes);
    AppendAssoc(log0, WrittenPaths(ws), WrittenPaths(s.writes));
    assert f == s.result;
  }

  lemma BuilderStepAdded(o: Outcome<Dict<string>>, scripts: Dict<string>, name: string, config: Value, cwd: string,
                         projectRoot: string, buildDir: string, s: Outcome<string>, f: string, r: Result<Dict<string>>)
    requires o.result == Ok(scripts) && !IsNullBuilder(Some(name)) && name in Registered && CMake.Construct(config).Ok?
    requires s == CMake.BuildScript(config, cwd, projectRoot, buildDir) && s.result == Ok(f)
    requires r == Ok(Put(scripts, name, f))
    ensures BuilderStep(o, name, config, cwd, projectRoot, buildDir) == Outcome(o.writes + s.writes, r)
  {
  }

  lemma {:induction false} BuilderLoopFailed(entries: Dict<Value>, n: nat, cwd: string, projectRoot: string,
                                             buildDir: string)
    requires n <= |entries| && BuilderLoop(entries[..n], cwd, projectRoot, buildDir).result.Err?
    ensures BuilderLoop(entries, cwd, projectRoot, buildDir) == BuilderLoop(entries[..n], cwd, projectRoot, buildDir)
    decreases |entries| - n
  {
    if n < |entries| {
      assert entries[..n + 1][..n] == entries[..n];
      BuilderLoopFailed(entries, n + 1, cwd, projectRoot, buildDir);
    } else {
      assert entries[..n] == entries;
    }
  }

  // ---------------------------------------------------------------------
  // `_generate_main_script` as the source writes it

  /** The top-level environment, added line by line. */
  method AddEnvironment(gen: ScriptGenerator, config: Value) returns (r: Result<()>)
    modifies gen
    ensures r.Ok? <==> EnvironmentLines(config).Ok?
    ensures r.Ok? ==> gen.lines == old(gen.lines) + EnvironmentLines(config).value
    ensures r.Err? ==> r.error == EnvironmentLines(config).error
  {
    var env := GetOr(config, "environment", VNone);
    if env.Err? {
      return Err(env.error);
    }
    if env.value == VNone {
      return Ok(());
    }
    gen.AddLine(EnvironmentComment);
    var d := EnvironmentMap(env.value);
    if d.Err? {
      return Err(d.error);
    }
    var exported := gen.ExportEnvVars(d.value, true);
    if exported.Err? {
      return Err(exported.error);
    }
    ghost var exports := ExportLines(d.value, true).value;
    gen.AddLine("");
    assert EnvironmentLines(config) == Ok([EnvironmentComment] + exports + [""]);
    assert gen.lines == old(gen.lines) + ([EnvironmentComment] + exports + [""]) by {
      ConcatAssoc(old(gen.lines), [EnvironmentComment], exports);
      ConcatAssoc(old(gen.lines), [EnvironmentComment] + exports, [""]);
    }
    return Ok(());
  }

  /** The commented-out calls of the builders that are not selected. */
  method AddAlternatives(gen: ScriptGenerator, rest: Dict<string>)
    modifies gen
    ensures gen.lines == old(gen.lines) + AlternativeLines(rest)
  {
    if rest == [] {
      return;
    }
    gen.AddLine(AlternativesComment);
    ghost var start := gen.lines;
    var i := 0;
    while i < |rest|
      invariant 0 <= i <= |rest|
      invariant gen.lines == start + Alternatives(rest[..i])
    {
      AlternativesStep(rest, i);
      if !IsNullBuilder(Some(rest[i].0)) {
        var comment, call := "# script for builder " + rest[i].0, "#source " + rest[i].1 + "\n";
        gen.AddLine(comment);
        gen.AddLine(call);
        ConcatAssoc(start, Alternatives(rest[..i]), [comment, call]);
      }
      i := i + 1;
    }
    assert rest[..i] == rest;
    ConcatAssoc(old(gen.lines), [AlternativesComment], Alternatives(rest));
  }

  lemma AlternativesStep(rest: Dict<string>, i: nat)
    requires i < |rest|
    ensures Alternatives(rest[..i + 1]) == Alternatives(rest[..i])
      + if IsNullBuilder(Some(rest[i].0)) then [] else ["# script for builder " + rest[i].0, "#source " + rest[i].1 + "\n"]
  {
    assert rest[..i + 1][..i] == rest[..i];
  }

  /** The buffered lines of `build.sh` after the version. */
  method FillBody(gen: ScriptGenerator, config: Value, buildDir: string, selected: Option<string>,
                  scripts: Dict<string>)
    returns (r: Result<()>)
    modifies gen
    ensures r.Ok? <==> BodyLines(config, buildDir, selected, scripts).Ok?
    ensures r.Ok? ==> gen.lines == old(gen.lines) + BodyLines(config, buildDir, selected, scripts).value
    ensures r.Err? ==> r.error == BodyLines(config, buildDir, selected, scripts).error
  {
    var env := AddEnvironment(gen, config);
    if env.Err? {
      return Err(env.error);
    }
    gen.AddLines(HeaderLines(buildDir));
    ghost var beforeSelected := gen.lines;
    var sel := SelectedLines(selected, scripts);
    if sel.Err? {
      return Err(sel.error);
    }
    gen.AddLines(sel.value.0);
    AddAlternatives(gen, sel.value.1);
    gen.AddLines(PostLines);
    BodyLinesOk(config, buildDir, selected, scripts, EnvironmentLines(config).value, sel.value, old(gen.lines),
                beforeSelected, gen.lines);
    return Ok(());
  }

  lemma BodyLinesOk(config: Value, buildDir: string, selected: Option<string>, scripts: Dict<string>,
                    env: seq<string>, sel: (seq<string>, Dict<string>), before: seq<string>,
                    beforeSelected: seq<string>, lines: seq<string>)
    requires EnvironmentLines(config) == Ok(env) && SelectedLines(selected, scripts) == Ok(sel)
    requires beforeSelected == before + env + HeaderLines(buildDir)
    requires lines == beforeSelected + sel.0 + AlternativeLines(sel.1) + PostLines
    ensures BodyLines(config, buildDir, selected, scripts).Ok?
    ensures lines == before + BodyLines(config, buildDir, selected, scripts).value
  {
    Regroup(before, env, HeaderLines(buildDir), sel.0, AlternativeLines(sel.1), PostLines);
  }

  lemma EmptyPrefix(a: seq<string>, b: seq<string>, c: seq<string>)
    ensures [] + a + b + c == a + b + c
  {
  }

  /** Lines appended one block at a time are the first block followed by
      the others. */
  lemma Regroup(a: seq<string>, b: seq<string>, c: seq<string>, d: seq<string>, e: seq<string>, f: seq<string>)
    ensures a + b + c + d + e + f == a + (b + c + d + e + f)
  {
  }

  /** The buffered lines of `build.sh` up to the AppImage call. */
  method FillMain(gen: ScriptGenerator, config: Value, projectRoot: string, buildDir: string,
                  selected: Option<string>, scripts: Dict<string>)
    returns (r: Result<()>)
    modifies gen
    requires gen.lines == []
    ensures r.Ok? <==> MainLines(config, projectRoot, buildDir, selected, scripts).Ok?
    ensures r.Ok? ==> gen.lines == MainLines(config, projectRoot, buildDir, selected, scripts).value
    ensures r.Err? ==> r.error == MainLines(config, projectRoot, buildDir, selected, scripts).error
  {
    var project := Index(config, "project");
    if project.Err? {
      return Err(project.error);
    }
    gen.AddLine(ConvenienceComment);
    gen.AddLines(Assign("PROJECT_ROOT", Quote(projectRoot)));
    gen.AddLines(Assign("BUILD_DIR", Quote(buildDir)));
    ghost var conveniences := gen.lines;
    var version := VersionLines(project.value);
    if version.Err? {
      return Err(version.error);
    }
    gen.AddLines(version.value);
    gen.AddLine("");
    ghost var beforeBody := gen.lines;
    var body := FillBody(gen, config, buildDir, selected, scripts);
    if body.Err? {
      return Err(body.error);
    }
    MainLinesOk(config, projectRoot, buildDir, selected, scripts, project.value, conveniences, version.value,
                beforeBody, gen.lines);
    return Ok(());
  }

  lemma MainLinesOk(config: Value, projectRoot: string, buildDir: string, selected: Option<string>,
                    scripts: Dict<string>, project: Value, conveniences: seq<string>, version: seq<string>,
                    beforeBody: seq<string>, lines: seq<string>)
    requires Index(config, "project") == Ok(project) && VersionLines(project) == Ok(version)
    requires BodyLines(config, buildDir, selected, scripts).Ok?
    requires conveniences == [] + [ConvenienceComment]
      + Assign("PROJECT_ROOT", Quote(projectRoot)) + Assign("BUILD_DIR", Quote(buildDir))
    requires beforeBody == conveniences + version + [""]
    requires lines == beforeBody + BodyLines(config, buildDir, selected, scripts).value
    ensures MainLines(config, projectRoot, buildDir, selected, scripts) == Ok(lines)
  {
    EmptyPrefix([ConvenienceComment], Assign("PROJECT_ROOT", Quote(projectRoot)), Assign("BUILD_DIR", Quote(buildDir)));
    assert conveniences == Conveniences(projectRoot, buildDir);
    var body := BodyLines(config, buildDir, selected, scripts).value;
    assert MainLines(config, projectRoot, buildDir, selected, scripts)
      == Ok(Conveniences(projectRoot, buildDir) + version + [""] + body);
  }

  /** `_generate_main_script`: the AppImage script, then `build.sh`. */
  method GenerateMainScript(fs: FileSystem, config: Value, projectRoot: string, buildDir: string,
                            selected: Option<string>, scripts: Dict<string>, machine: string)
    returns (r: Result<string>)
    modifies fs
    ensures var o := MainScript(config, projectRoot, buildDir, selected, scripts, machine);
      r == o.result && fs.files == Apply(old(fs.files), o.writes)
      && fs.log == old(fs.log) + WrittenPaths(o.writes)
  {
    var gen := new ScriptGenerator(PathJoin(buildDir, MainFilename));
    var filled := FillMain(gen, config, projectRoot, buildDir, selected, scripts);
    if filled.Err? {
      return Err(filled.error);
    }
    // `project` was looked up, so the configuration is a mapping.
    var ai := GetOr(config, "appimage", VNone);
    r := WriteMain(fs, gen, ai.value, buildDir, machine);
  }

  /** The AppImage script, then the call of it and `build.sh` itself. */
  method WriteMain(fs: FileSystem, gen: ScriptGenerator, ai: Value, buildDir: string, machine: string)
    returns (r: Result<string>)
    requires gen.path == PathJoin(buildDir, MainFilename)
    modifies fs, gen
    ensures var o := MainWrites(old(gen.lines), ai, buildDir, machine);
      r == o.result && fs.files == Apply(old(fs.files), o.writes)
      && fs.log == old(fs.log) + WrittenPaths(o.writes)
  {
    var aiPath := PathJoin(buildDir, AppImageFilename);
    var built := AppImageScript.BuildFile(fs, ai, machine, aiPath);
    if built.Err? {
      return Err(built.error);
    }
    ghost var before := gen.lines;
    gen.AddLines(AppImageCall(aiPath));
    ghost var mid := fs.files;
    ghost var midLog := fs.log;
    gen.BuildFile(fs);
    assert fs.files == mid[gen.path := File(ScriptText(before + AppImageCall(aiPath)), ExecutableMode)];
    MainWritten(before, ai, buildDir, machine, old(fs.files), old(fs.log), mid, midLog, fs.files, fs.log);
    return Ok(gen.path);
  }

  lemma MainWritten(lines: seq<string>, ai: Value, buildDir: string, machine: string,
                    files0: map<string, File>, log0: seq<string>, mid: map<string, File>, midLog: seq<string>,
                    files: map<string, File>, log: seq<string>)
    requires var a := AppImageScript.BuildFileOutcome(ai, machine, PathJoin(buildDir, AppImageFilename));
      a.result.Ok? && mid == Apply(files0, a.writes) && midLog == log0 + WrittenPaths(a.writes)
    requires var w := Write(PathJoin(buildDir, MainFilename),
                            ScriptText(lines + AppImageCall(PathJoin(buildDir, AppImageFilename))));
      files == mid[w.path := File(w.content, ExecutableMode)] && log == midLog + [w.path]
    ensures var o := MainWrites(lines, ai, buildDir, machine);
      o.result == Ok(PathJoin(buildDir, MainFilename)) && files == Apply(files0, o.writes)
      && log == log0 + WrittenPaths(o.writes)
  {
    var a := AppImageScript.BuildFileOutcome(ai, machine, PathJoin(buildDir, AppImageFilename));
    var w := Write(PathJoin(buildDir, MainFilename),
                   ScriptText(lines + AppImageCall(PathJoin(buildDir, AppImageFilename))));
    ApplyOne(mid, w);
    ApplyAppend(files0, a.writes, [w]);
    AppendAssoc(log0, WrittenPaths(a.writes), [w.path]);
  }

  // ---------------------------------------------------------------------
  // `generate_all_scripts` as the source writes it

  /** `generate_all_scripts`: hooks, builders, the main script, then the
      check of `build.sh`. */
  method GenerateAllScripts(fs: FileSystem, config: Value, projectRoot: string, selected: Option<string>,
                            buildDir: Option<string>, host: Host)
    returns (r: Result<string>)
    modifies fs
    ensures var o := AllScripts(config, projectRoot, selected, buildDir, host);
      r == o.result && fs.files == Apply(old(fs.files), o.writes)
      && fs.log == old(fs.log) + WrittenPaths(o.writes)
  {
    if buildDir.None? {
      return Fail(ValueError, "build dir has not been set");
    }
    var bd := buildDir.value;
    var scriptsConfig := GetOr(config, "scripts", VNone);
    if scriptsConfig.Err? {
      return Err(scriptsConfig.error);
    }
    ghost var hooksOutcome := HookScripts.BuildFiles(scriptsConfig.value, projectRoot, bd);
    var hooks := HookScripts.GenerateHookScripts(fs, scriptsConfig.value, projectRoot, bd);
    if hooks.Err? {
      return Err(hooks.error);
    }
    ghost var files1 := fs.files;
    ghost var log1 := fs.log;
    ghost var buildersOutcome := BuilderScripts(config, host.cwd, projectRoot, bd);
    var builders := GenerateBuilderScripts(fs, config, host.cwd, projectRoot, bd);
    ApplyThen(old(fs.files), old(fs.log), hooksOutcome.writes, buildersOutcome.writes, files1, log1, fs.files, fs.log);
    if builders.Err? {
      return Err(builders.error);
    }
    ghost var files2 := fs.files;
    ghost var log2 := fs.log;
    ghost var mainOutcome := MainScript(config, projectRoot, bd, selected, builders.value, host.machine);
    var main := GenerateMainScript(fs, config, projectRoot, bd, selected, builders.value, host.machine);
    ApplyThen(old(fs.files), old(fs.log), hooksOutcome.writes + buildersOutcome.writes, mainOutcome.writes,
              files2, log2, fs.files, fs.log);
    if main.Err? {
      return main;
    }
    if host.shellcheckAvailable && host.shellcheckVerdict.Err? {
      return Err(host.shellcheckVerdict.error);
    }
    return main;
  }

  // ---------------------------------------------------------------------
  // Properties

  /** A builder is null when it is missing or spelled `null` in any mix of
      upper and lower case. */
  lemma IsNullBuilderSpec(name: string)
    ensures IsNullBuilder(None)
    ensures IsNullBuilder(Some(name))
      <==> |name| == 4 && name[0] in "nN" && name[1] in "uU" && name[2] in "lL" && name[3] in "lL"
  {
    var l := Lower(name);
    if |name| == 4 {
      assert l == [LowerChar(name[0]), LowerChar(name[1]), LowerChar(name[2]), LowerChar(name[3])];
    }
  }

  /** A builder that is built is recorded under its name with the name of
      its script. */
  lemma BuiltScriptName(config: Value, cwd: string, projectRoot: string, buildDir: string)
    ensures var s := CMake.BuildScript(config, cwd, projectRoot, buildDir);
      s.result.Ok? ==> s.result.value == CMake.ScriptFilename
  {
    CMake.FilenamePlain();
    Builders.ScriptOutcomeSpec(buildDir, CMake.ScriptFilename, CMake.ScriptLines(config, cwd, projectRoot, buildDir));
  }

  /** Without a `cmake` entry nothing is built or written. */
  lemma {:induction false} BuilderLoopNoCMake(entries: Dict<Value>, cwd: string, projectRoot: string, buildDir: string)
    requires "cmake" !in Keys(entries)
    ensures BuilderLoop(entries, cwd, projectRoot, buildDir) == Outcome([], Ok([]))
    decreases |entries|
  {
    if entries != [] {
      var n := |entries| - 1;
      assert Keys(entries[..n]) == Keys(entries)[..n];
      BuilderLoopNoCMake(entries[..n], cwd, projectRoot, buildDir);
      assert entries[n].0 == Keys(entries)[n];
    }
  }

  /** The map of scripts is empty or holds the CMake script alone, and the
      CMake script is there only when the build section names it. */
  lemma {:induction false} BuilderLoopSpec(entries: Dict<Value>, cwd: string, projectRoot: string, buildDir: string)
    ensures var o := BuilderLoop(entries, cwd, projectRoot, buildDir);
      o.result.Ok? ==> o.result.value == [] || (o.result.value == [("cmake", CMake.ScriptFilename)] && "cmake" in Keys(entries))
    decreases |entries|
  {
    if entries != [] {
      var n := |entries| - 1;
      var init := entries[..n];
      BuilderLoopSpec(init, cwd, projectRoot, buildDir);
      BuilderStepSpec(BuilderLoop(init, cwd, projectRoot, buildDir), entries[n].0, entries[n].1, cwd, projectRoot,
                      buildDir);
      assert Keys(init) == Keys(entries)[..n];
      assert entries[n].0 == Keys(entries)[n];
    }
  }

  /** One turn of the loop keeps the map empty or holding the CMake script
      alone, and it records the CMake script only under `cmake`. */
  lemma BuilderStepSpec(o: Outcome<Dict<string>>, name: string, config: Value, cwd: string, projectRoot: string,
                        buildDir: string)
    requires o.result.Ok? ==> o.result.value == [] || o.result.value == [("cmake", CMake.ScriptFilename)]
    ensures var r := BuilderStep(o, name, config, cwd, projectRoot, buildDir);
      r.result.Ok? ==> r.result == o.result || (name == "cmake" && r.result.value == [("cmake", CMake.ScriptFilename)])
  {
    var r := BuilderStep(o, name, config, cwd, projectRoot, buildDir);
    if r.result.Ok? && r.result != o.result {
      var s := CMake.BuildScript(config, cwd, projectRoot, buildDir);
      BuiltScriptName(config, cwd, projectRoot, buildDir);
      assert name in Registered;
      assert r.result.value == Put(o.result.value, name, s.result.value);
    }
  }

  /** `generate_builder_scripts` needs a `build` mapping: with `cmake` not
      among its keys the result is an empty map and nothing is written;
      otherwise the map is empty or names the CMake script. */
  lemma BuilderScriptsSpec(config: Value, cwd: string, projectRoot: string, buildDir: string)
    ensures Index(config, "build").Err? ==> BuilderScripts(config, cwd, projectRoot, buildDir).result.Err?
    ensures Index(config, "build").Ok? && !Index(config, "build").value.VMap?
      ==> FailedWith(BuilderScripts(config, cwd, projectRoot, buildDir).result, TypeError)
    ensures var b := Index(config, "build");
      b.Ok? && b.value.VMap? && "cmake" !in Keys(b.value.entries)
      ==> BuilderScripts(config, cwd, projectRoot, buildDir) == Outcome([], Ok([]))
    ensures var b := Index(config, "build"); var o := BuilderScripts(config, cwd, projectRoot, buildDir);
      o.result.Ok?
      ==> b.Ok? && b.value.VMap? && (o.result.value == []
                                    || (o.result.value == [("cmake", CMake.ScriptFilename)]
                                        && "cmake" in Keys(b.value.entries)))
  {
    var b := Index(config, "build");
    if b.Ok? && b.value.VMap? {
      BuilderLoopSpec(b.value.entries, cwd, projectRoot, buildDir);
      if "cmake" !in Keys(b.value.entries) {
        BuilderLoopNoCMake(b.value.entries, cwd, projectRoot, buildDir);
      }
    }
  }

  /** A null selection calls no builder; otherwise the selected builder
      must have a script, which is called, and it is left out of the
      builders offered as alternatives while the others keep their
      scripts. */
  lemma SelectedLinesSpec(selected: Option<string>, scripts: Dict<string>)
    ensures IsNullBuilder(selected) ==> SelectedLines(selected, scripts) == Ok(([], scripts))
    ensures !IsNullBuilder(selected) && Get(scripts, selected.value).None?
      ==> FailedWith(SelectedLines(selected, scripts), KeyError)
    ensures !IsNullBuilder(selected) && Get(scripts, selected.value).Some?
      ==> var r := SelectedLines(selected, scripts);
          r.Ok? && r.value.0[|r.value.0| - 1] == "(source " + Get(scripts, selected.value).value + ")"
          && selected.value !in Keys(r.value.1)
          && forall k :: k != selected.value ==> Get(r.value.1, k) == Get(scripts, k)
  {
  }

  /** Every alternative is a comment, so no other builder runs. */
  lemma {:induction false} AlternativesAreComments(rest: Dict<string>)
    ensures forall l :: l in Alternatives(rest) ==> |l| > 0 && l[0] == '#'
    decreases |rest|
  {
    if rest != [] {
      var n := |rest| - 1;
      AlternativesAreComments(rest[..n]);
      if !IsNullBuilder(Some(rest[n].0)) {
        var a := "# script for builder " + rest[n].0;
        var b := "#source " + rest[n].1 + "\n";
        assert a[0] == '#';
        assert b[0] == '#';
        assert Alternatives(rest) == Alternatives(rest[..n]) + [a, b];
      }
    }
  }

  /** Each builder that is not null is offered with its script. */
  lemma {:induction false} AlternativesOffered(rest: Dict<string>, i: nat)
    requires i < |rest| && !IsNullBuilder(Some(rest[i].0))
    ensures "#source " + rest[i].1 + "\n" in Alternatives(rest)
    decreases |rest|
  {
    var n := |rest| - 1;
    if i < n {
      AlternativesOffered(rest[..n], i);
    }
  }

  /** Line `a` comes somewhere before line `b`. */
  predicate Before(ls: seq<string>, a: string, b: string)
  {
    exists i, j :: 0 <= i < j < |ls| && ls[i] == a && ls[j] == b
  }

  lemma BlocksOrder(q: seq<string>, env: seq<string>, header: seq<string>, sel: seq<string>, alt: seq<string>,
                    post: seq<string>, h1: seq<string>, h2: seq<string>, p1: seq<string>, p2: seq<string>,
                    pre: string, call: string, postCall: string)
    requires header == h1 + [pre] + h2 && post == p1 + [postCall] + p2
    ensures Before(q + (env + header + sel + alt + post), pre, postCall)
    ensures |sel| == 2 && sel[1] == call
      ==> Before(q + (env + header + sel + alt + post), pre, call)
          && Before(q + (env + header + sel + alt + post), call, postCall)
  {
    var ls := q + (env + header + sel + alt + post);
    var i := |q| + |env| + |h1|;
    var j := |q| + |env| + |header| + 1;
    var k := |q| + |env| + |header| + |sel| + |alt| + |p1|;
    assert ls[i] == pre;
    assert ls[k] == postCall;
    if |sel| == 2 && sel[1] == call {
      assert ls[j] == call;
    }
  }

  /** In `build.sh` the pre-build hook runs before the selected builder,
      which runs before the post-build hook. */
  lemma MainLinesOrder(config: Value, projectRoot: string, buildDir: string, selected: Option<string>,
                       scripts: Dict<string>)
    requires MainLines(config, projectRoot, buildDir, selected, scripts).Ok?
    ensures var ls := MainLines(config, projectRoot, buildDir, selected, scripts).value;
      Before(ls, PreBuildCall, PostBuildCall)
      && (!IsNullBuilder(selected)
          ==> var call := Source(Get(scripts, selected.value).value);
              Before(ls, PreBuildCall, call) && Before(ls, call, PostBuildCall))
  {
    var project := Index(config, "project").value;
    var version := VersionLines(project).value;
    var env := EnvironmentLines(config).value;
    var sel := SelectedLines(selected, scripts).value;
    var q := Conveniences(projectRoot, buildDir) + version + [""];
    var call := if IsNullBuilder(selected) then "" else Source(Get(scripts, selected.value).value);
    assert MainLines(config, projectRoot, buildDir, selected, scripts).value
      == q + (env + HeaderLines(buildDir) + sel.0 + AlternativeLines(sel.1) + PostLines);
    BlocksOrder(q, env, HeaderLines(buildDir), sel.0, AlternativeLines(sel.1), PostLines, HeaderBefore(buildDir),
                HeaderAfter, PostBefore, [""], PreBuildCall, call, PostBuildCall);
  }

  /** The AppImage script is written before `build.sh`, whose lines end
      with the call of the AppImage script and whose path is returned;
      when the lines of `build.sh` cannot be made, nothing is written. */
  lemma MainScriptWrites(config: Value, projectRoot: string, buildDir: string, selected: Option<string>,
                         scripts: Dict<string>, machine: string)
    ensures var o := MainScript(config, projectRoot, buildDir, selected, scripts, machine);
      var m := MainLines(config, projectRoot, buildDir, selected, scripts);
      m.Err? ==> o == Outcome([], Err(m.error))
    ensures var o := MainScript(config, projectRoot, buildDir, selected, scripts, machine);
      var aiPath := PathJoin(buildDir, AppImageFilename);
      o.result.Ok?
      ==> o.result.value == PathJoin(buildDir, MainFilename) && |o.writes| == 2
          && o.writes[0].path == aiPath
          && o.writes[1] == Write(PathJoin(buildDir, MainFilename),
                                  ScriptText(MainLines(config, projectRoot, buildDir, selected, scripts).value
                                             + AppImageCall(aiPath)))
  {
    var m := MainLines(config, projectRoot, buildDir, selected, scripts);
    if m.Ok? && GetOr(config, "appimage", VNone).Ok? {
      var aiPath := PathJoin(buildDir, AppImageFilename);
      AppImageScript.OutcomeOf(GetOr(config, "appimage", VNone).value, machine, aiPath);
    }
  }

  /** Without a build directory nothing is written. */
  lemma AllScriptsNoBuildDir(config: Value, projectRoot: string, selected: Option<string>, host: Host)
    ensures var o := AllScripts(config, projectRoot, selected, None, host);
      o.writes == [] && FailedWith(o.result, ValueError)
  {
  }

  /** `shellcheck` decides only the verdict: the files written are the same
      whether it is installed and whatever it reports, and a complaint turns
      a success into its error. */
  lemma AllScriptsShellcheck(config: Value, projectRoot: string, selected: Option<string>,
                             buildDir: Option<string>, host: Host)
    ensures var unchecked := Host(host.cwd, host.machine, false, Ok(()));
      var o := AllScripts(config, projectRoot, selected, buildDir, host);
      var u := AllScripts(config, projectRoot, selected, buildDir, unchecked);
      o.writes == u.writes
      && (!host.shellcheckAvailable || host.shellcheckVerdict.Ok? || u.result.Err? ==> o.result == u.result)
      && (host.shellcheckAvailable && host.shellcheckVerdict.Err? && u.result.Ok?
          ==> o.result == Err(host.shellcheckVerdict.error))
  {
  }

  /** A run that succeeds writes the hook scripts, the builder scripts, the
      AppImage script and `build.sh`, in that order, and returns the path of
      `build.sh`. */
  lemma AllScriptsOrder(config: Value, projectRoot: string, selected: Option<string>, buildDir: Option<string>,
                        host: Host)
    requires AllScripts(config, projectRoot, selected, buildDir, host).result.Ok?
    ensures buildDir.Some? && GetOr(config, "scripts", VNone).Ok?
    ensures var bd := buildDir.value;
      var hooks := HookScripts.BuildFiles(GetOr(config, "scripts", VNone).value, projectRoot, bd);
      var builders := BuilderScripts(config, host.cwd, projectRoot, bd);
      hooks.result.Ok? && builders.result.Ok?
      && var main := MainScript(config, projectRoot, bd, selected, builders.result.value, host.machine);
         AllScripts(config, projectRoot, selected, buildDir, host)
         == Outcome(hooks.writes + builders.writes + main.writes, Ok(PathJoin(bd, MainFilename)))
  {
    var bd := buildDir.value;
    var builders := BuilderScripts(config, host.cwd, projectRoot, bd);
    MainScriptWrites(config, projectRoot, bd, selected, builders.result.value, host.machine);
  }

  /** As written, `generate_all_scripts` fails with `TypeError` for every
      configuration mapping and build directory, before anything is
      written. */
  lemma AllScriptsAsWrittenFails(config: Value, projectRoot: string, selected: Option<string>, bd: string,
                                 host: Host)
    requires config.VMap?
    ensures var o := AllScriptsAsWritten(config, projectRoot, selected, Some(bd), host);
      o.writes == [] && FailedWith(o.result, TypeError)
  {
  }

  /** A configuration whose only entry is a `pre_build` hook: as written
      nothing is written, while the corrected run writes the hook script
      before it fails on the missing `build` section. */
  lemma AllScriptsAsWrittenFinding(projectRoot: string, bd: string, selected: Option<string>, host: Host)
    ensures var entries := [("pre_build", VList([VStr("true")]))];
      var config := VMap([("scripts", VMap(entries))]);
      var w := Write(HookScripts.StagePath(bd, "pre_build"), HookScripts.StageText(projectRoot, bd, ["true"]));
      AllScriptsAsWritten(config, projectRoot, selected, Some(bd), host).writes == []
      && AllScripts(config, projectRoot, selected, Some(bd), host) == Outcome([w], Fail(KeyError, "build"))
  {
    var entries := [("pre_build", VList([VStr("true")]))];
    var config := VMap([("scripts", VMap(entries))]);
    PreBuildOnly(projectRoot, bd);
    assert GetOr(config, "scripts", VNone) == Ok(VMap(entries));
    assert BuilderScripts(config, host.cwd, projectRoot, bd) == Outcome([], Fail(KeyError, "build"));
  }

  /** A section whose only entry is a one-line `pre_build` hook writes the
      `pre_build` script alone. */
  lemma PreBuildOnly(projectRoot: string, bd: string)
    ensures var entries := [("pre_build", VList([VStr("true")]))];
      HookScripts.BuildFiles(VMap(entries), projectRoot, bd)
      == Outcome([Write(HookScripts.StagePath(bd, "pre_build"), HookScripts.StageText(projectRoot, bd, ["true"]))],
                 Ok(()))
  {
    var entries := [("pre_build", VList([VStr("true")]))];
    assert Keys(entries) == ["pre_build"];
    var items := [VStr("true")];
    assert PyStr(items[0]) == Ok("true");
    assert PyStrs(items).value == ["true"];
    assert HookScripts.StageLines(VList(items)) == Ok(["true"]);
    HookScripts.HooksWritten(entries, projectRoot, bd);
    assert HookScripts.HookConfig(VMap(entries)) == VMap(entries);
  }

  /** `$VERSION` is the configured version, quoted so that the shell reads
      it back unchanged; `version_command` is used only without a version,
      and without either nothing is exported. */
  lemma VersionLinesSpec(project: Value)
    requires project.VMap?
    ensures var v := Get(project.entries, "version");
      v.Some? && v.value.VStr?
      ==> VersionLines(project).Ok? && |VersionLines(project).value| == 2
          && VersionLines(project).value[0][..8] == "VERSION="
          && Unquote(VersionLines(project).value[0][8..]) == Some(v.value.s)
          && VersionLines(project).value[1] == "export VERSION"
    ensures var c := Get(project.entries, "version_command");
      Get(project.entries, "version") in {None, Some(VNone)} && c.Some? && c.value.VStr?
      ==> VersionLines(project) == Ok(["VERSION=$(" + c.value.s + ")", "export VERSION"])
    ensures Get(project.entries, "version") in {None, Some(VNone)}
      && Get(project.entries, "version_command") in {None, Some(VNone)}
      ==> VersionLines(project) == Ok([])
  {
    var v := Get(project.entries, "version");
    if v.Some? && v.value.VStr? {
      VersionGiven(project);
    }
    var c := Get(project.entries, "version_command");
    if v in {None, Some(VNone)} && c.Some? && c.value.VStr? {
      VersionCommandGiven(project);
    }
    if v in {None, Some(VNone)} && c in {None, Some(VNone)} {
      assert GetOr(project, "version", VNone) == Ok(VNone);
      assert GetOr(project, "version_command", VNone) == Ok(VNone);
    }
  }

  /** A configured version string is exported quoted. */
  lemma VersionGiven(project: Value)
    requires project.VMap?
    requires var v := Get(project.entries, "version"); v.Some? && v.value.VStr?
    ensures var v := Get(project.entries, "version");
      VersionLines(project).Ok? && |VersionLines(project).value| == 2
      && VersionLines(project).value[0][..8] == "VERSION="
      && Unquote(VersionLines(project).value[0][8..]) == Some(v.value.s)
      && VersionLines(project).value[1] == "export VERSION"
  {
    var v := Get(project.entries, "version").value;
    PyQuoteRoundTrip(v);
    var q := PyQuote(v).value;
    assert GetOr(project, "version", VNone) == Ok(v);
    assert VersionLines(project) == Ok(Assign("VERSION", q));
    assert ("VERSION=" + q)[..8] == "VERSION=";
    assert ("VERSION=" + q)[8..] == q;
    assert ShellText(v) == v.s;
  }

  /** Without a version, a version command is run by the shell. */
  lemma VersionCommandGiven(project: Value)
    requires project.VMap?
    requires Get(project.entries, "version") in {None, Some(VNone)}
    requires var c := Get(project.entries, "version_command"); c.Some? && c.value.VStr?
    ensures var c := Get(project.entries, "version_command");
      VersionLines(project) == Ok(["VERSION=$(" + c.value.s + ")", "export VERSION"])
  {
    var c := Get(project.entries, "version_command").value;
    assert GetOr(project, "version", VNone) == Ok(VNone);
    assert GetOr(project, "version_command", VNone) == Ok(c);
    assert VersionLines(project) == Ok(Assign("VERSION", "$(" + c.s + ")"));
    assert "VERSION" + "=" + "$(" == "VERSION=$(";
    assert "VERSION" + "=" + ("$(" + c.s + ")") == ("VERSION" + "=" + "$(") + c.s + ")";
    assert "export " + "VERSION" == "export VERSION";
  }

  /** A mapping given as the top-level environment is exported variable by
      variable, in its order, each assignment followed by its export,
      between a heading and an empty line. */
  lemma EnvironmentLinesMapping(config: Value, env: Dict<Value>)
    requires config.VMap? && Get(config.entries, "environment") == Some(VMap(env)) && ExportLines(env, true).Ok?
    ensures EnvironmentLines(config).Ok?
    ensures var ls := EnvironmentLines(config).value;
      |ls| == 2 * |env| + 2 && ls[0] == EnvironmentComment && ls[|ls| - 1] == ""
      && forall i :: 0 <= i < |env|
           ==> ls[2 * i + 2] == "export " + env[i].0
               && |ls[2 * i + 1]| > |env[i].0| && ls[2 * i + 1][..|env[i].0| + 1] == env[i].0 + "="
  {
    var ex := ExportLines(env, true).value;
    assert GetOr(config, "environment", VNone) == Ok(VMap(env));
    assert EnvironmentMap(VMap(env)) == Ok(env);
    assert EnvironmentLines(config) == Ok([EnvironmentComment] + ex + [""]);
    FramedExports(env, EnvironmentComment);
  }

  /** The exports of `env` between a heading and an empty line. */
  lemma FramedExports(env: Dict<Value>, heading: string)
    requires ExportLines(env, true).Ok?
    ensures var ls := [heading] + ExportLines(env, true).value + [""];
      |ls| == 2 * |env| + 2 && ls[0] == heading && ls[|ls| - 1] == ""
      && forall i :: 0 <= i < |env|
           ==> ls[2 * i + 2] == "export " + env[i].0
               && |ls[2 * i + 1]| > |env[i].0| && ls[2 * i + 1][..|env[i].0| + 1] == env[i].0 + "="
  {
    var ex := ExportLines(env, true).value;
    var ls := [heading] + ex + [""];
    forall i | 0 <= i < |env|
      ensures ls[2 * i + 2] == "export " + env[i].0
              && |ls[2 * i + 1]| > |env[i].0| && ls[2 * i + 1][..|env[i].0| + 1] == env[i].0 + "="
    {
      ExportLinesAt(env, true, i);
      FramedAt(heading, ex, "", 2 * i);
      FramedAt(heading, ex, "", 2 * i + 1);
    }
  }

  lemma FramedAt<T>(head: T, xs: seq<T>, last: T, j: nat)
    requires j < |xs|
    ensures ([head] + xs + [last])[j + 1] == xs[j]
  {
  }

  /** The `KEY=VALUE` list form of an environment and the mapping it
      describes export the same variables. */
  lemma EnvironmentForms(d: Dict<string>)
    requires Valid(d)
    requires forall i :: 0 <= i < |d| ==> '=' !in d[i].0 && ' ' !in d[i].0 && '=' !in d[i].1
    ensures EnvironmentMap(VList(ToKvList(d))) == EnvironmentMap(VMap(StrDict(d)))
  {
    KvRoundTrip(d);
  }
}
