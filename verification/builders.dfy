/** What the builders share: a builder holds its section of the
    configuration (`build: <name>:`), finds the sources, and writes one
    script, named after the builder, into the build directory. */
module Builders {
  import opened Errors
  import opened Strings
  import opened Dicts
  import opened Config
  import opened Paths
  import opened Files
  import opened BashScript

  /** The comment above the change into the build directory. */
  const CdComment: string := "# make sure we're in the build directory"

  /** The comment above the creation of the out-of-tree build directory. */
  const SeparateDirComment: string := "# build in separate directory to avoid a mess in the build dir"

  /** The make step every builder's script runs after configuring. */
  const BuildProjectLines: seq<string> := ["", "# build project", "make -j $(nproc)", ""]

  /** The comment above the install step of the CMake and the autotools
      scripts (the autotools builder's comment names CMake as well). */
  const CMakeInstallComment: string :=
    "# install binaries into AppDir (requires correct CMake install(...) configuration)"

  /** `_get_source_dir` (the same in the CMake and the autotools builder):
      unset or empty means the project root; a relative path is taken from
      the project root; an absolute one is kept. */
  function SourceDir(config: Value, projectRoot: string): Result<string>
  {
    var sd :- GetOr(config, "source_dir", VNone);
    if !Truthy(sd) then Ok(projectRoot)
    else if !sd.VStr? then Fail(TypeError, "expected str, bytes or os.PathLike object")
    else if IsAbs(sd.s) then Ok(sd.s)
    else Ok(PathJoin(projectRoot, sd.s))
  }

  /** An unset or empty source directory is the project root, a relative
      one is joined to the project root, an absolute one is kept, and the
      source directory of an absolute project root is absolute. */
  lemma SourceDirSpec(config: Value, projectRoot: string)
    requires config.VMap?
    ensures var g := Get(config.entries, "source_dir");
      g.None? || !Truthy(g.value) ==> SourceDir(config, projectRoot) == Ok(projectRoot)
    ensures var g := Get(config.entries, "source_dir");
      g.Some? && g.value.VStr? && g.value.s != "" ==>
        SourceDir(config, projectRoot) == Ok(if IsAbs(g.value.s) then g.value.s else PathJoin(projectRoot, g.value.s))
    ensures IsAbs(projectRoot) && SourceDir(config, projectRoot).Ok? ==> IsAbs(SourceDir(config, projectRoot).value)
  {
    var sd := GetOr(config, "source_dir", VNone).value;
    if IsAbs(projectRoot) && Truthy(sd) && sd.VStr? && !IsAbs(sd.s) {
      JoinAbs(projectRoot, sd.s);
    }
  }

  /** The end of every `generate_build_script`: when the buffered lines
      could all be made, `build_dir/<filename>` is written and its base name
      returned; otherwise the exception leaves nothing written. */
  function ScriptOutcome(buildDir: string, filename: string, lines: Result<seq<string>>): Outcome<string>
  {
    match lines
    case Err(e) => Outcome([], Err(e))
    case Ok(ls) => Outcome([Write(PathJoin(buildDir, filename), ScriptText(ls))], Ok(Basename(PathJoin(buildDir, filename))))
  }

  /** A builder writes exactly its own script into the build directory and
      returns the script's name. */
  lemma ScriptOutcomeSpec(buildDir: string, filename: string, lines: Result<seq<string>>)
    requires filename != "" && '/' !in filename
    ensures var o := ScriptOutcome(buildDir, filename, lines);
      (o.result.Ok? <==> lines.Ok?)
      && (o.result.Ok? ==> (o.writes == [Write(PathJoin(buildDir, filename), ScriptText(lines.value))]
                            && o.result.value == filename))
      && (o.result.Err? ==> o.writes == [] && o.result.error == lines.error)
  {
    BasenameJoin(buildDir, filename);
  }

  /** The script text a builder writes reads back, line by line, as the
      header followed by the buffered lines. */
  lemma ScriptWritten(buildDir: string, filename: string, lines: seq<string>)
    requires filename != "" && '/' !in filename
    requires forall i :: 0 <= i < |lines| ==> '\n' !in lines[i]
    ensures var o := ScriptOutcome(buildDir, filename, Ok(lines));
      o.result == Ok(filename)
      && |o.writes| == 1 && o.writes[0].path == PathJoin(buildDir, filename)
      && Split(o.writes[0].content, '\n') == Header + lines + [""]
  {
    ScriptOutcomeSpec(buildDir, filename, Ok(lines));
    ScriptTextSplit(lines);
  }

  /** The last two steps of every `generate_build_script`: write the file,
      then return the base name of its path. */
  method FinishScript(fs: FileSystem, gen: ScriptGenerator, buildDir: string, filename: string)
    returns (r: Result<string>)
    requires filename != "" && '/' !in filename
    requires gen.path == PathJoin(buildDir, filename)
    modifies fs
    ensures var o := ScriptOutcome(buildDir, filename, Ok(gen.lines));
      r == o.result && fs.files == Apply(old(fs.files), o.writes)
      && fs.log == old(fs.log) + WrittenPaths(o.writes)
  {
    gen.BuildFile(fs);
    ApplyOne(old(fs.files), Write(gen.path, ScriptText(gen.lines)));
    ScriptOutcomeSpec(buildDir, filename, Ok(gen.lines));
    return Ok(Basename(gen.path));
  }
}
