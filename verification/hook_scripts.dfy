/** `PrePostBuildScriptsGenerator`: the `scripts:` section holds the lines
    of at most two hook scripts, `pre_build` and `post_build`, each written
    as `<build dir>/<stage>.sh` behind the project-aware prelude. */
module HookScripts {
  import opened Errors
  import opened Strings
  import opened Dicts
  import opened Config
  import opened Shell
  import opened Paths
  import opened Files
  import opened BashScript

  /** The stages, in the order their scripts are written. */
  const Stages: seq<string> := ["pre_build", "post_build"]

  /** The constructor: no `scripts` section is an empty one. */
  function HookConfig(scripts: Value): (r: Value)
    ensures scripts != VNone ==> r == scripts
    ensures scripts == VNone ==> r == VMap([])
  {
    if scripts == VNone then VMap([]) else scripts
  }

  /** The keys that name no stage, in the order of the section. */
  function InvalidStages(keys: seq<string>): (r: seq<string>)
    ensures forall k :: k in r <==> k in keys && k !in Stages
  {
    if keys == [] then []
    else if keys[0] in Stages then InvalidStages(keys[1..])
    else [keys[0]] + InvalidStages(keys[1..])
  }

  /** The lines a stage's value gives to `add_lines`, each written with
      `str()`. */
  function StageLines(v: Value): Result<seq<string>>
  {
    var items :- Iterate(v);
    PyStrs(items)
  }

  function StagePath(buildDir: string, stage: string): string
  {
    PathJoin(buildDir, stage + ".sh")
  }

  /** The text of a hook script: the prelude that exports the two
      directories, then the configured lines. */
  function StageText(projectRoot: string, buildDir: string, lines: seq<string>): string
  {
    ScriptText(ProjectPrelude(projectRoot, buildDir) + lines)
  }

  /** One turn of the loop over the stages: after a failure nothing more
      happens, a stage without a key is skipped, a present one is written
      or stops the loop with its failure. */
  function StageStep(entries: Dict<Value>, o: Outcome<()>, stage: string, projectRoot: string, buildDir: string)
    : Outcome<()>
  {
    if o.result.Err? then o
    else
      match Get(entries, stage)
      case None => o
      case Some(v) =>
        match StageLines(v)
        case Err(e) => Outcome(o.writes, Err(e))
        case Ok(ls) => Outcome(o.writes + [Write(StagePath(buildDir, stage), StageText(projectRoot, buildDir, ls))], Ok(()))
  }

  /** The loop over `stages`, from nothing written. */
  function StageWrites(entries: Dict<Value>, stages: seq<string>, projectRoot: string, buildDir: string)
    : Outcome<()>
    decreases |stages|
  {
    if stages == [] then Outcome([], Ok(()))
    else
      var n := |stages| - 1;
      StageStep(entries, StageWrites(entries, stages[..n], projectRoot, buildDir), stages[n], projectRoot, buildDir)
  }

  lemma StageWritesStep(entries: Dict<Value>, stages: seq<string>, i: nat, projectRoot: string, buildDir: string)
    requires i < |stages|
    ensures StageWrites(entries, stages[..i + 1], projectRoot, buildDir)
      == StageStep(entries, StageWrites(entries, stages[..i], projectRoot, buildDir), stages[i], projectRoot, buildDir)
  {
    assert stages[..i + 1][..i] == stages[..i];
  }

  /** Once failed, the loop stays failed. */
  lemma {:induction false} StageWritesFailed(entries: Dict<Value>, stages: seq<string>, n: nat, projectRoot: string, buildDir: string)
    requires n <= |stages| && StageWrites(entries, stages[..n], projectRoot, buildDir).result.Err?
    ensures StageWrites(entries, stages, projectRoot, buildDir) == StageWrites(entries, stages[..n], projectRoot, buildDir)
    decreases |stages| - n
  {
    if n < |stages| {
      StageWritesStep(entries, stages, n, projectRoot, buildDir);
      StageWritesFailed(entries, stages, n + 1, projectRoot, buildDir);
    } else {
      assert stages[..n] == stages;
    }
  }

  /** The loop over the two stages is two steps, `pre_build` first. */
  lemma StageWritesTwo(entries: Dict<Value>, projectRoot: string, buildDir: string)
    ensures StageWrites(entries, Stages, projectRoot, buildDir)
      == StageStep(entries, StageStep(entries, Outcome([], Ok(())), "pre_build", projectRoot, buildDir),
                   "post_build", projectRoot, buildDir)
  {
    var st := Stages;
    assert st[..2] == st;
    assert st[..1] == ["pre_build"];
    assert st[..1][..0] == [];
    StageWritesStep(entries, st, 1, projectRoot, buildDir);
  }

  /** `build_files`: the section must be a mapping whose keys are all
      stages (checked before anything is written); then the stages in
      order. */
  function BuildFiles(scripts: Value, projectRoot: string, buildDir: string): Outcome<()>
  {
    var config := HookConfig(scripts);
    if !config.VMap? then Outcome([], Fail(TypeError, "object has no attribute 'keys'"))
    else
      var invalid := InvalidStages(Keys(config.entries));
      if invalid != [] then Outcome([], Fail(ValueError, "Invalid script stage: " + invalid[0]))
      else StageWrites(config.entries, Stages, projectRoot, buildDir)
  }

  /** `build_files` as the source writes it: validate, then loop over the
      stages and write each present one through a project-aware
      generator. */
  method GenerateHookScripts(fs: FileSystem, scripts: Value, projectRoot: string, buildDir: string)
    returns (r: Result<()>)
    modifies fs
    ensures var o := BuildFiles(scripts, projectRoot, buildDir);
      r == o.result && fs.files == Apply(old(fs.files), o.writes)
      && fs.log == old(fs.log) + WrittenPaths(o.writes)
  {
    var config := HookConfig(scripts);
    if !config.VMap? {
      return Fail(TypeError, "object has no attribute 'keys'");
    }
    var invalid := InvalidStages(Keys(config.entries));
    if invalid != [] {
      return Fail(ValueError, "Invalid script stage: " + invalid[0]);
    }
    var i := 0;
    while i < |Stages|
      invariant 0 <= i <= |Stages|
      invariant var o := StageWrites(config.entries, Stages[..i], projectRoot, buildDir);
        o.result == Ok(()) && fs.files == Apply(old(fs.files), o.writes)
        && fs.log == old(fs.log) + WrittenPaths(o.writes)
    {
      StageWritesStep(config.entries, Stages, i, projectRoot, buildDir);
      var written := WriteStage(fs, config.entries, Stages[i], projectRoot, buildDir, old(fs.files), old(fs.log),
                                StageWrites(config.entries, Stages[..i], projectRoot, buildDir));
      if written.Err? {
        StageWritesFailed(config.entries, Stages, i + 1, projectRoot, buildDir);
        return written;
      }
      i := i + 1;
    }
    assert Stages[..i] == Stages;
    return Ok(());
  }

  /** The body of the loop for one stage: skip it without a key, else
      write its script through a project-aware generator. `o` is what the
      earlier stages did to the files `files0` and the log `log0`. */
  method WriteStage(fs: FileSystem, entries: Dict<Value>, stage: string, projectRoot: string, buildDir: string,
                    ghost files0: map<string, File>, ghost log0: seq<string>, ghost o: Outcome<()>)
    returns (r: Result<()>)
    requires o.result == Ok(()) && fs.files == Apply(files0, o.writes) && fs.log == log0 + WrittenPaths(o.writes)
    modifies fs
    ensures var o' := StageStep(entries, o, stage, projectRoot, buildDir);
      r == o'.result && fs.files == Apply(files0, o'.writes) && fs.log == log0 + WrittenPaths(o'.writes)
  {
    var entry := Get(entries, stage);
    if entry.None? {
      return Ok(());
    }
    var lines := StageLines(entry.value);
    if lines.Err? {
      return Err(lines.error);
    }
    var path := StagePath(buildDir, stage);
    var gen := new ScriptGenerator.ProjectAware(path, projectRoot, buildDir);
    gen.AddLines(lines.value);
    ghost var w := Write(path, StageText(projectRoot, buildDir, lines.value));
    assert ScriptText(gen.lines) == w.content;
    gen.BuildFile(fs);
    AppendWrite(files0, o.writes, w);
    StageStepWrites(entries, o, stage, projectRoot, buildDir, lines.value);
    ConcatAssoc(log0, WrittenPaths(o.writes), [path]);
    return Ok(());
  }

  lemma StageStepWrites(entries: Dict<Value>, o: Outcome<()>, stage: string, projectRoot: string, buildDir: string,
                        ls: seq<string>)
    requires o.result.Ok? && Get(entries, stage).Some? && StageLines(Get(entries, stage).value) == Ok(ls)
    ensures StageStep(entries, o, stage, projectRoot, buildDir)
      == Outcome(o.writes + [Write(StagePath(buildDir, stage), StageText(projectRoot, buildDir, ls))], Ok(()))
  {
  }

  lemma AppendWrite(files: map<string, File>, ws: seq<Write>, w: Write)
    ensures Apply(files, ws + [w]) == Apply(files, ws)[w.path := File(w.content, ExecutableMode)]
    ensures WrittenPaths(ws + [w]) == WrittenPaths(ws) + [w.path]
  {
    assert (ws + [w])[..|ws|] == ws;
  }

  // ---------------------------------------------------------------------
  // Properties

  /** What a stage contributes on its own: nothing without a key, else its
      script. */
  function StageWrite(entries: Dict<Value>, stage: string, projectRoot: string, buildDir: string): seq<Write>
    requires Get(entries, stage).Some? ==> StageLines(Get(entries, stage).value).Ok?
  {
    match Get(entries, stage)
    case None => []
    case Some(v) => [Write(StagePath(buildDir, stage), StageText(projectRoot, buildDir, StageLines(v).value))]
  }

  /** A valid section writes the `pre_build` script (if any) and then the
      `post_build` script (if any), and nothing else. */
  lemma HooksWritten(entries: Dict<Value>, projectRoot: string, buildDir: string)
    requires forall k :: k in Keys(entries) ==> k in Stages
    requires forall s :: s in Stages && Get(entries, s).Some? ==> StageLines(Get(entries, s).value).Ok?
    ensures BuildFiles(VMap(entries), projectRoot, buildDir)
      == Outcome(StageWrite(entries, "pre_build", projectRoot, buildDir)
                 + StageWrite(entries, "post_build", projectRoot, buildDir), Ok(()))
  {
    NoInvalid(Keys(entries));
    StageWritesTwo(entries, projectRoot, buildDir);
    var pre := StageWrite(entries, "pre_build", projectRoot, buildDir);
    StageStepOk(entries, Outcome([], Ok(())), "pre_build", projectRoot, buildDir);
    assert [] + pre == pre;
    StageStepOk(entries, Outcome(pre, Ok(())), "post_build", projectRoot, buildDir);
  }

  lemma StageStepOk(entries: Dict<Value>, o: Outcome<()>, stage: string, projectRoot: string, buildDir: string)
    requires o.result == Ok(())
    requires Get(entries, stage).Some? ==> StageLines(Get(entries, stage).value).Ok?
    ensures StageStep(entries, o, stage, projectRoot, buildDir)
      == Outcome(o.writes + StageWrite(entries, stage, projectRoot, buildDir), Ok(()))
  {
    if Get(entries, stage).None? {
      assert o.writes + [] == o.writes;
    }
  }

  lemma {:induction false} NoInvalid(keys: seq<string>)
    requires forall k :: k in keys ==> k in Stages
    ensures InvalidStages(keys) == []
  {
    if keys != [] {
      assert forall k :: k in keys[1..] ==> k in keys;
      NoInvalid(keys[1..]);
    }
  }

  /** No `scripts` section: no hook script. */
  lemma HooksNone(projectRoot: string, buildDir: string)
    ensures BuildFiles(VNone, projectRoot, buildDir) == Outcome([], Ok(()))
  {
    StageWritesTwo([], projectRoot, buildDir);
  }

  /** A key that names no stage is refused with `ValueError` before any
      script is written. */
  lemma HooksInvalid(entries: Dict<Value>, projectRoot: string, buildDir: string, k: string)
    requires k in Keys(entries) && k !in Stages
    ensures var o := BuildFiles(VMap(entries), projectRoot, buildDir);
      o.writes == [] && FailedWith(o.result, ValueError)
  {
    assert k in InvalidStages(Keys(entries));
  }

  /** When the `post_build` lines cannot be written, the `pre_build` script
      has already been written: the stages run in order. */
  lemma HooksPostFails(entries: Dict<Value>, projectRoot: string, buildDir: string, pre: seq<string>, post: Value)
    requires forall k :: k in Keys(entries) ==> k in Stages
    requires Get(entries, "pre_build").Some? && StageLines(Get(entries, "pre_build").value) == Ok(pre)
    requires Get(entries, "post_build") == Some(post) && StageLines(post).Err?
    ensures BuildFiles(VMap(entries), projectRoot, buildDir)
      == Outcome([Write(StagePath(buildDir, "pre_build"), StageText(projectRoot, buildDir, pre))], Err(StageLines(post).error))
  {
    NoInvalid(Keys(entries));
    StageWritesTwo(entries, projectRoot, buildDir);
  }

  /** A hook script reads back, line by line, as the header, the exports
      of the two directories, and the configured lines. */
  lemma StageTextLines(projectRoot: string, buildDir: string, lines: seq<string>)
    requires '\n' !in projectRoot && '\n' !in buildDir
    requires forall i :: 0 <= i < |lines| ==> '\n' !in lines[i]
    ensures Split(StageText(projectRoot, buildDir, lines), '\n')
      == Header + ProjectPrelude(projectRoot, buildDir) + lines + [""]
  {
    var prelude := ProjectPrelude(projectRoot, buildDir);
    var all := prelude + lines;
    PreludeSingleLines(projectRoot, buildDir);
    forall i | 0 <= i < |all| ensures '\n' !in all[i] {
      if i >= |prelude| {
        assert all[i] == lines[i - |prelude|];
      } else {
        assert all[i] == prelude[i];
      }
    }
    ScriptTextSplit(all);
    ConcatAssoc(Header, prelude, lines);
  }
}
