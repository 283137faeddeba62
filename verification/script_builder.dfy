/** `ScriptBuilder`: the user's own commands, written as they are after the
    common header. The builder holds its section of the configuration
    (`build: script:`). */
module ScriptBuilder {
  import opened Errors
  import opened Strings
  import opened Dicts
  import opened Config
  import opened Paths
  import opened Files
  import opened BashScript
  import opened Builders

  const ScriptFilename: string := "build-script.sh"

  /** The lines of the script: the items of `commands`, each as `str()`
      writes it. */
  function Commands(config: Value): Result<seq<string>>
  {
    var raw :- Index(config, "commands");
    var items :- Iterate(raw);
    PyStrs(items)
  }

  /** `generate_build_script`; the project root plays no part. */
  function BuildScript(config: Value, buildDir: string): Outcome<string>
  {
    ScriptOutcome(buildDir, ScriptFilename, Commands(config))
  }

  /** `generate_build_script` as the source writes it. */
  method GenerateBuildScript(fs: FileSystem, config: Value, buildDir: string) returns (r: Result<string>)
    modifies fs
    ensures var o := BuildScript(config, buildDir);
      r == o.result && fs.files == Apply(old(fs.files), o.writes)
      && fs.log == old(fs.log) + WrittenPaths(o.writes)
  {
    var gen := new ScriptGenerator(PathJoin(buildDir, ScriptFilename));
    var raw := Index(config, "commands");
    if raw.Err? {
      return Err(raw.error);
    }
    var items := Iterate(raw.value);
    if items.Err? {
      return Err(items.error);
    }
    var texts := PyStrs(items.value);
    if texts.Err? {
      return Err(texts.error);
    }
    gen.AddLines(texts.value);
    FilenamePlain();
    assert [] + texts.value == texts.value;
    r := FinishScript(fs, gen, buildDir, ScriptFilename);
  }

  lemma FilenamePlain()
    ensures ScriptFilename != "" && '/' !in ScriptFilename
  {
  }

  /** `str()` keeps strings as they are. */
  lemma PyStrsOfStrings(ss: seq<string>)
    ensures PyStrs(StrValues(ss)) == Ok(ss)
  {
    var items := StrValues(ss);
    assert forall i :: 0 <= i < |ss| ==> PyStr(items[i]) == Ok(ss[i]);
    assert PyStrs(items).value == ss;
  }

  /** A list of command strings becomes the script's lines verbatim, in
      order (and `ScriptWritten` gives the text that is written). */
  lemma CommandsList(config: Value, cmds: seq<string>)
    requires config.VMap? && Get(config.entries, "commands") == Some(VList(StrValues(cmds)))
    ensures Commands(config) == Ok(cmds)
  {
    PyStrsOfStrings(cmds);
  }

  /** Without `commands` the builder fails with `KeyError` and writes
      nothing. */
  lemma CommandsMissing(config: Value, buildDir: string)
    requires config.VMap? && Get(config.entries, "commands").None?
    ensures BuildScript(config, buildDir) == Outcome([], Fail(KeyError, "commands"))
  {
  }

  /** A string given as `commands` is iterated character by character: each
      character becomes a line of its own. */
  lemma CommandsString(config: Value, s: string)
    requires config.VMap? && Get(config.entries, "commands") == Some(VStr(s))
    ensures Commands(config) == Ok(Chars(s))
  {
    PyStrsOfStrings(Chars(s));
  }
}
