/** `QMakeBuilder`: export the builder's environment, configure with qmake
    in `qmake-build`, build with make and install into the AppDir. */
module QMake {
  import opened Errors
  import opened Strings
  import opened Dicts
  import opened Config
  import opened Shell
  import opened Paths
  import opened Files
  import opened Util
  import opened BashScript
  import opened Builders

  const ScriptFilename: string := "build-qmake.sh"
  const NoProjectFile: string :=
    "Could not find QMake project file in source dir, please specify a different source_dir or a project_file"

  /** The environment a builder key holds, as `try_export_env_vars` reads
      it: the value is first probed with `dict()`; when that raises
      `ValueError` (a list of `KEY=VALUE` strings, a string) it is parsed as
      a `KEY=VALUE` list, when it raises anything else that propagates, and
      when it succeeds the value itself is passed on to be exported, which
      the model reads as the mapping `dict()` makes of it (a list of pairs,
      or of two-character strings such as `"A="`, is accepted that way). */
  function EnvSource(v: Value): Result<Dict<Value>>
  {
    match DictProbe(v)
    case Ok(_) => DictOf(v)
    case Err(e) =>
      if e.kind == ValueError then
        var d :- KvListToDict(v);
        Ok(StrDict(d))
      else Err(e)
  }

  /** The block `try_export_env_vars(key, raw)` adds: nothing when the key
      is missing, else a heading, the exports, and an empty line. */
  function EnvBlock(config: Value, key: string, raw: bool): Result<seq<string>>
  {
    var entry :- TryIndex(config, key);
    match entry
    case None => Ok([])
    case Some(v) =>
      var env :- EnvSource(v);
      var exports :- ExportLines(env, raw);
      Ok(["# environment variables from " + key] + exports + [""])
  }

  /** The project file: the configured one, or else the first `.pro` file
      in the source directory (`proFiles` is what `glob` returns there, in
      its order), made absolute against the source directory. The qmake
      builder does not define `_get_source_dir`; the source directory is
      taken as the CMake builder computes it. */
  function ProjectFile(config: Value, projectRoot: string, proFiles: seq<string>): Result<string>
  {
    var sd :- SourceDir(config, projectRoot);
    var configured :- GetOr(config, "project_file", VNone);
    ChooseProjectFile(sd, configured, proFiles)
  }

  /** The project file once the source directory and the configured
      `project_file` entry are known. */
  function ChooseProjectFile(sd: string, configured: Value, proFiles: seq<string>): Result<string>
  {
    var file :-
      if Truthy(configured) then AsString(configured)
      else if proFiles == [] then
        Fail(RuntimeError, NoProjectFile)
      else Ok(proFiles[0]);
    Ok(if IsAbs(file) then file else PathJoin(sd, file))
  }

  /** `_qenerate_qmake_command`. */
  function QMakeCommand(config: Value, projectRoot: string, proFiles: seq<string>): Result<string>
  {
    var pf :- ProjectFile(config, projectRoot, proFiles);
    Ok("qmake " + pf)
  }

  /** The fixed lines between the change into the build directory and the
      qmake command. */
  const SetupLines: seq<string> := [
    "",
    SeparateDirComment,
    "mkdir -p qmake-build",
    "cd qmake-build",
    "",
    "# it's always a good idea to print the qmake version in use",
    "qmake --version",
    "",
    "# set up build"
  ]

  /** The fixed lines between the qmake command and the install. */
  const MakeLines: seq<string> :=
    BuildProjectLines + ["# install binaries into AppDir (requires correct qmake install(...) configuration)"]

  /** The part of `build-qmake.sh` around the qmake command. */
  function MainLines(buildDir: string, command: string, appDir: string): seq<string>
  {
    [CdComment, "cd " + Quote(buildDir)] + SetupLines + [command] + MakeLines
    + ["make install INSTALL_ROOT=" + Quote(appDir)]
  }

  /** The buffered lines of `build-qmake.sh`: the quoted environment, the
      raw environment, then the build. */
  function ScriptLines(config: Value, cwd: string, projectRoot: string, buildDir: string, proFiles: seq<string>)
    : Result<seq<string>>
  {
    var env :- EnvBlock(config, "environment", false);
    var rawEnv :- EnvBlock(config, "raw_environment", true);
    var command :- QMakeCommand(config, projectRoot, proFiles);
    Ok(env + rawEnv + MainLines(buildDir, command, GetAppDirPath(cwd, buildDir)))
  }

  /** `generate_build_script`. */
  function BuildScript(config: Value, cwd: string, projectRoot: string, buildDir: string, proFiles: seq<string>)
    : Outcome<string>
  {
    ScriptOutcome(buildDir, ScriptFilename, ScriptLines(config, cwd, projectRoot, buildDir, proFiles))
  }

  /** `try_export_env_vars` on the generator. */
  method TryExportEnvVars(gen: ScriptGenerator, config: Value, key: string, raw: bool) returns (r: Result<()>)
    modifies gen
    ensures r.Ok? <==> EnvBlock(config, key, raw).Ok?
    ensures r.Ok? ==> gen.lines == old(gen.lines) + EnvBlock(config, key, raw).value
    ensures r.Err? ==> r.error == EnvBlock(config, key, raw).error
  {
    var entry := TryIndex(config, key);
    if entry.Err? {
      return Err(entry.error);
    }
    if entry.value.None? {
      return Ok(());
    }
    var env := EnvSource(entry.value.value);
    if env.Err? {
      return Err(env.error);
    }
    gen.AddLine("# environment variables from " + key);
    ghost var mid := gen.lines;
    var exported := gen.ExportEnvVars(env.value, raw);
    if exported.Err? {
      return Err(exported.error);
    }
    gen.AddLine("");
    EnvBlockOk(config, key, raw, entry.value.value, env.value, old(gen.lines), mid, gen.lines);
    return Ok(());
  }

  lemma EnvBlockOk(config: Value, key: string, raw: bool, v: Value, env: Dict<Value>,
                   before: seq<string>, mid: seq<string>, lines: seq<string>)
    requires TryIndex(config, key) == Ok(Some(v)) && EnvSource(v) == Ok(env)
    requires ExportLines(env, raw).Ok?
    requires mid == before + ["# environment variables from " + key]
    requires lines == mid + ExportLines(env, raw).value + [""]
    ensures EnvBlock(config, key, raw).Ok?
    ensures lines == before + EnvBlock(config, key, raw).value
  {
    var head, exports := ["# environment variables from " + key], ExportLines(env, raw).value;
    assert EnvBlock(config, key, raw) == Ok(head + exports + [""]);
    assert lines == before + (head + exports + [""]) by {
      ConcatAssoc(before + head, exports, [""]);
      ConcatAssoc(before, head, exports + [""]);
      ConcatAssoc(head, exports, [""]);
    }
  }

  /** `generate_build_script` as the source writes it. */
  method GenerateBuildScript(fs: FileSystem, config: Value, cwd: string, projectRoot: string, buildDir: string,
                             proFiles: seq<string>)
    returns (r: Result<string>)
    modifies fs
    ensures var o := BuildScript(config, cwd, projectRoot, buildDir, proFiles);
      r == o.result && fs.files == Apply(old(fs.files), o.writes)
      && fs.log == old(fs.log) + WrittenPaths(o.writes)
  {
    var gen := new ScriptGenerator(PathJoin(buildDir, ScriptFilename));
    var env := TryExportEnvVars(gen, config, "environment", false);
    if env.Err? {
      return Err(env.error);
    }
    var rawEnv := TryExportEnvVars(gen, config, "raw_environment", true);
    if rawEnv.Err? {
      return Err(rawEnv.error);
    }
    var command := QMakeCommand(config, projectRoot, proFiles);
    if command.Err? {
      return Err(command.error);
    }
    var main := MainLines(buildDir, command.value, GetAppDirPath(cwd, buildDir));
    gen.AddLines(main);
    ScriptLinesOk(config, cwd, projectRoot, buildDir, proFiles, command.value, main, gen.lines);
    FilenamePlain();
    r := FinishScript(fs, gen, buildDir, ScriptFilename);
  }

  lemma FilenamePlain()
    ensures ScriptFilename != "" && '/' !in ScriptFilename
  {
  }

  lemma ScriptLinesOk(config: Value, cwd: string, projectRoot: string, buildDir: string, proFiles: seq<string>,
                      command: string, main: seq<string>, lines: seq<string>)
    requires EnvBlock(config, "environment", false).Ok? && EnvBlock(config, "raw_environment", true).Ok?
    requires QMakeCommand(config, projectRoot, proFiles) == Ok(command)
    requires main == MainLines(buildDir, command, GetAppDirPath(cwd, buildDir))
    requires lines == [] + EnvBlock(config, "environment", false).value
      + EnvBlock(config, "raw_environment", true).value + main
    ensures ScriptLines(config, cwd, projectRoot, buildDir, proFiles) == Ok(lines)
  {
    assert [] + EnvBlock(config, "environment", false).value == EnvBlock(config, "environment", false).value;
  }

  /** A mapping is exported as it is. */
  lemma EnvSourceMap(m: Dict<Value>)
    ensures EnvSource(VMap(m)) == Ok(m)
  {
  }

  /** A list of well-formed `KEY=VALUE` strings with distinct keys (the
      first not two characters long, which `dict()` would take for a pair)
      is parsed into the mapping of its entries, in order. */
  lemma EnvSourceList(items: seq<Value>)
    requires items != [] && AllEntriesOk(items) && Valid(Entries(items))
    requires |items[0].s| != 2
    ensures EnvSource(VList(items)) == Ok(StrDict(Entries(items)))
  {
    forall i | 0 <= i < |items| ensures items[i].VStr? {
      assert ParseEntry(items[i]).Ok?;
    }
    DictProbeStrings(items);
    KvListOutcomes(items);
  }

  /** The project file is absolute whenever the project root is. */
  lemma ProjectFileAbsolute(config: Value, projectRoot: string, proFiles: seq<string>)
    requires IsAbs(projectRoot) && ProjectFile(config, projectRoot, proFiles).Ok?
    ensures IsAbs(ProjectFile(config, projectRoot, proFiles).value)
  {
    SourceDirSpec(config, projectRoot);
    var sd := SourceDir(config, projectRoot).value;
    var configured := GetOr(config, "project_file", VNone).value;
    var file := if Truthy(configured) then configured.s else proFiles[0];
    if !IsAbs(file) {
      JoinAbs(sd, file);
    }
  }

  /** Without a configured file (unset or empty) and without a `.pro` file
      qmake cannot run; without a configured file the first file `glob`
      found is used, joined to the source directory unless absolute. */
  lemma ProjectFileFound(config: Value, projectRoot: string, proFiles: seq<string>)
    requires config.VMap?
    requires var g := Get(config.entries, "project_file"); g.None? || !Truthy(g.value)
    requires SourceDir(config, projectRoot).Ok?
    ensures proFiles == [] ==> FailedWith(ProjectFile(config, projectRoot, proFiles), RuntimeError)
    ensures proFiles != [] ==>
      ProjectFile(config, projectRoot, proFiles)
      == Ok(if IsAbs(proFiles[0]) then proFiles[0] else PathJoin(SourceDir(config, projectRoot).value, proFiles[0]))
  {
    var sd := SourceDir(config, projectRoot).value;
    var configured := GetOr(config, "project_file", VNone).value;
    assert ProjectFile(config, projectRoot, proFiles) == ChooseProjectFile(sd, configured, proFiles);
  }

  /** A configured project file is used as it is when absolute and is
      joined to the source directory when relative. */
  lemma ProjectFileConfigured(config: Value, projectRoot: string, proFiles: seq<string>, file: string)
    requires config.VMap? && Get(config.entries, "project_file") == Some(VStr(file)) && file != ""
    requires SourceDir(config, projectRoot).Ok?
    ensures ProjectFile(config, projectRoot, proFiles)
      == Ok(if IsAbs(file) then file else PathJoin(SourceDir(config, projectRoot).value, file))
  {
    var sd := SourceDir(config, projectRoot).value;
    assert GetOr(config, "project_file", VNone) == Ok(VStr(file));
    assert ProjectFile(config, projectRoot, proFiles) == ChooseProjectFile(sd, VStr(file), proFiles);
  }
}
