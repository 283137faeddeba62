/** `AutotoolsBuilder`: optionally run `autogen.sh`, configure out of tree
    in `autotools-build`, build with make and install into the AppDir. The
    builder holds its section of the configuration (`build: autotools:`). */
module Autotools {
  import opened Errors
  import opened Strings
  import opened Dicts
  import opened Config
  import opened Shell
  import opened Paths
  import opened Files
  import opened Util
  import opened BashScript
  import opened Builders

  const ScriptFilename: string := "build-autotools.sh"

  /** The install prefix every configure run gets first. */
  const PrefixParam: string := "--prefix=/usr"

  /** The parameters every configure run gets first. */
  const DefaultParams: seq<Value> := [VStr(PrefixParam)]

  /** `_get_configure_extra_variables`: the defaults followed by what
      `configure: extra_params:` yields when iterated; a false or missing
      value stands for an empty mapping. */
  function ExtraParams(config: Value): Result<seq<Value>>
  {
    var configure :- GetOr(config, "configure", VMap([]));
    var raw :- GetOr(configure, "extra_params", VNone);
    var items :- Iterate(if Truthy(raw) then raw else VMap([]));
    Ok(DefaultParams + items)
  }

  /** The configure parameters, each through `shlex.quote`, in order. */
  function QuotedParams(params: seq<Value>): Result<seq<string>>
  {
    Traverse(PyQuote, params)
  }

  /** `_generate_configure_command`: `<source dir>/configure`, the quoted
      parameters, and the source directory once more as the last word. */
  function ConfigureCommand(config: Value, projectRoot: string): Result<string>
  {
    var sd :- SourceDir(config, projectRoot);
    var params :- ExtraParams(config);
    var quoted :- QuotedParams(params);
    Ok(Join([PathJoin(sd, "configure")] + quoted + [sd], " "))
  }

  /** `_generate_configure_command` as the source writes it: a loop
      appending one quoted parameter at a time. */
  method GenerateConfigureCommand(config: Value, projectRoot: string) returns (r: Result<string>)
    ensures r == ConfigureCommand(config, projectRoot)
  {
    var first := SourceDir(config, projectRoot);
    if first.Err? {
      return Err(first.error);
    }
    var args := [PathJoin(first.value, "configure")];
    var extra := ExtraParams(config);
    if extra.Err? {
      return Err(extra.error);
    }
    var params := extra.value;
    var quoted: seq<string> := [];
    var i := 0;
    while i < |params|
      invariant 0 <= i <= |params|
      invariant QuotedParams(params[..i]) == Ok(quoted)
    {
      var escaped := PyQuote(params[i]);
      TraverseStep(PyQuote, params, i, quoted);
      if escaped.Err? {
        return Err(escaped.error);
      }
      quoted := quoted + [escaped.value];
      i := i + 1;
    }
    assert params[..i] == params;
    var sd := SourceDir(config, projectRoot);
    return Ok(Join(args + quoted + [sd.value], " "));
  }

  /** The lines before the autogen block. */
  function FirstLines(buildDir: string): seq<string>
  {
    [CdComment, "cd " + Quote(buildDir)] + SetupLines
  }

  /** The fixed lines that create and enter the build directory. */
  const SetupLines: seq<string> := ["", SeparateDirComment, "mkdir -p autotools-build", "cd autotools-build", ""]

  /** The comment above the run of `autogen.sh`. */
  const AutogenComment: string :=
    "# in case the project uses autogen.sh, we have to call that script to generate the configure script"

  /** The two warnings printed when `autogen.sh` exists but may not be run. */
  const EchoFound: string := "    " + "echo \"Warning: autogen.sh found, might have to be called by us\""
  const EchoHint: string := "    " + "echo \"f so please add allow_insource: true to the autotools builder config\""

  /** The comment that opens the block without `allow_insource`. */
  const NoInsourceComment: string :=
    "# " + "the user needs to explicitly allow in source operations in order to be able to auto call autogen.sh"

  /** The autogen block as the source writes it. Without `allow_insource`
      the test line keeps its `{0}` placeholder, because `format` is never
      called on it, and the two echo lines are one string, because the
      comma between the two literals is missing. */
  function AutogenLinesAsWritten(autogenPath: string, allowInsource: bool): seq<string>
  {
    if allowInsource then
      [
        AutogenComment,
        "[ -f " + autogenPath + " ] && " + autogenPath,
        ""
      ]
    else
      [
        NoInsourceComment,
        "if [ -f {0} ]; then",
        EchoFound + EchoHint,
        "fi",
        ""
      ]
  }

  /** The autogen block as intended: the test names `autogen.sh` in the
      source directory, and each warning is a command of its own. */
  function AutogenLines(autogenPath: string, allowInsource: bool): seq<string>
  {
    if allowInsource then
      [
        AutogenComment,
        "[ -f " + autogenPath + " ] && " + autogenPath,
        ""
      ]
    else
      [
        NoInsourceComment,
        "if [ -f " + autogenPath + " ]; then",
        EchoFound,
        EchoHint,
        "fi",
        ""
      ]
  }

  /** The lines after the autogen block. */
  function MainLines(command: string, appDir: string): seq<string>
  {
    ["# set up build directory with configure", command] + BuildProjectLines
    + [CMakeInstallComment, "make install DESTDIR=" + Quote(appDir)]
  }

  /** The buffered lines of `build-autotools.sh`. */
  function ScriptLines(config: Value, cwd: string, projectRoot: string, buildDir: string): Result<seq<string>>
  {
    var sd :- SourceDir(config, projectRoot);
    var allow :- GetOr(config, "allow_insource", VNone);
    var command :- ConfigureCommand(config, projectRoot);
    Ok(FirstLines(buildDir) + AutogenLines(PathJoin(sd, "autogen.sh"), Truthy(allow))
       + MainLines(command, GetAppDirPath(cwd, buildDir)))
  }

  /** `generate_build_script`. */
  function BuildScript(config: Value, cwd: string, projectRoot: string, buildDir: string): Outcome<string>
  {
    ScriptOutcome(buildDir, ScriptFilename, ScriptLines(config, cwd, projectRoot, buildDir))
  }

  /** `generate_build_script` as the source writes it. */
  method GenerateBuildScript(fs: FileSystem, config: Value, cwd: string, projectRoot: string, buildDir: string)
    returns (r: Result<string>)
    modifies fs
    ensures var o := BuildScript(config, cwd, projectRoot, buildDir);
      r == o.result && fs.files == Apply(old(fs.files), o.writes)
      && fs.log == old(fs.log) + WrittenPaths(o.writes)
  {
    var gen := new ScriptGenerator(PathJoin(buildDir, ScriptFilename));
    var first := FirstLines(buildDir);
    gen.AddLines(first);
    var sd := SourceDir(config, projectRoot);
    if sd.Err? {
      return Err(sd.error);
    }
    var autogenPath := PathJoin(sd.value, "autogen.sh");
    var allow := GetOr(config, "allow_insource", VNone);
    var autogen := AutogenLines(autogenPath, Truthy(allow.value));
    gen.AddLines(autogen);
    var command := GenerateConfigureCommand(config, projectRoot);
    if command.Err? {
      return Err(command.error);
    }
    var main := MainLines(command.value, GetAppDirPath(cwd, buildDir));
    gen.AddLines(main);
    ScriptLinesOk(config, cwd, projectRoot, buildDir, sd.value, allow.value, command.value,
                  first, autogen, main, gen.lines);
    FilenamePlain();
    r := FinishScript(fs, gen, buildDir, ScriptFilename);
  }

  lemma FilenamePlain()
    ensures ScriptFilename != "" && '/' !in ScriptFilename
  {
  }

  lemma ScriptLinesOk(config: Value, cwd: string, projectRoot: string, buildDir: string,
                      sd: string, allow: Value, command: string,
                      first: seq<string>, autogen: seq<string>, main: seq<string>, lines: seq<string>)
    requires SourceDir(config, projectRoot) == Ok(sd)
    requires GetOr(config, "allow_insource", VNone) == Ok(allow)
    requires ConfigureCommand(config, projectRoot) == Ok(command)
    requires first == FirstLines(buildDir)
    requires autogen == AutogenLines(PathJoin(sd, "autogen.sh"), Truthy(allow))
    requires main == MainLines(command, GetAppDirPath(cwd, buildDir))
    requires lines == [] + first + autogen + main
    ensures ScriptLines(config, cwd, projectRoot, buildDir) == Ok(lines)
  {
    assert [] + first == first;
  }

  /** The parameters start with `--prefix=/usr`. */
  lemma ExtraParamsDefaultFirst(config: Value)
    requires ExtraParams(config).Ok?
    ensures |ExtraParams(config).value| >= 1 && ExtraParams(config).value[0] == VStr(PrefixParam)
  {
  }

  /** Without a `configure` section, or without `extra_params` in it, only
      the defaults are passed. */
  lemma ExtraParamsUnset(config: Value)
    requires config.VMap?
    requires Get(config.entries, "configure").None?
      || (Get(config.entries, "configure").value.VMap?
          && Get(Get(config.entries, "configure").value.entries, "extra_params").None?)
    ensures ExtraParams(config) == Ok(DefaultParams)
  {
    assert Get<Value>([], "extra_params") == None;
    assert Iterate(VMap([])) == Ok([]);
    assert DefaultParams + [] == DefaultParams;
  }

  /** A list of parameters is passed after the defaults, in order. */
  lemma ExtraParamsList(config: Value, configure: Dict<Value>, xs: seq<Value>)
    requires config.VMap? && Get(config.entries, "configure") == Some(VMap(configure))
    requires Get(configure, "extra_params") == Some(VList(xs))
    ensures ExtraParams(config) == Ok(DefaultParams + xs)
  {
    if xs == [] {
      assert Iterate(VMap([])) == Ok([]);
    }
  }

  /** A mapping contributes its keys, in order, as the loop iterates them. */
  lemma ExtraParamsMap(config: Value, configure: Dict<Value>, m: Dict<Value>)
    requires config.VMap? && Get(config.entries, "configure") == Some(VMap(configure))
    requires Get(configure, "extra_params") == Some(VMap(m))
    ensures ExtraParams(config) == Ok(DefaultParams + StrValues(Keys(m)))
  {
  }

  /** `shlex.quote` accepts exactly the false values and the strings, and
      the shell reads every quoted parameter back as its text. */
  lemma QuotedParamsSpec(params: seq<Value>)
    ensures QuotedParams(params).Ok? <==> forall i :: 0 <= i < |params| ==> (Truthy(params[i]) ==> params[i].VStr?)
    ensures QuotedParams(params).Ok? ==>
      var qs := QuotedParams(params).value;
      |qs| == |params| && forall i :: 0 <= i < |params| ==> Unquote(qs[i]) == Some(ShellText(params[i]))
  {
    if QuotedParams(params).Ok? {
      forall i | 0 <= i < |params|
        ensures Unquote(QuotedParams(params).value[i]) == Some(ShellText(params[i]))
      {
        PyQuoteRoundTrip(params[i]);
      }
    }
  }

  /** The configure command fails exactly when the source directory, the
      parameters or one of their quotings does. */
  lemma ConfigureCommandOk(config: Value, projectRoot: string)
    requires SourceDir(config, projectRoot).Ok? && ExtraParams(config).Ok?
    ensures var params := ExtraParams(config).value;
      ConfigureCommand(config, projectRoot).Ok?
      <==> forall i :: 0 <= i < |params| ==> (Truthy(params[i]) ==> params[i].VStr?)
  {
    QuotedParamsSpec(ExtraParams(config).value);
  }

  /** The command runs the configure script of the source directory with
      `--prefix=/usr` first and passes the source directory last. */
  lemma ConfigureCommandShape(config: Value, projectRoot: string)
    requires ConfigureCommand(config, projectRoot).Ok?
    ensures var c := ConfigureCommand(config, projectRoot).value;
      var sd := SourceDir(config, projectRoot).value;
      var head := PathJoin(sd, "configure") + " " + PrefixParam + " ";
      |c| >= |head| + |sd| && c[..|head|] == head && c[|c| - |sd| - 1..] == " " + sd
  {
    var sd := SourceDir(config, projectRoot).value;
    var params := ExtraParams(config).value;
    var qs := QuotedParams(params).value;
    assert qs[0] == PrefixParam by {
      assert params[0] == VStr(PrefixParam);
      PrefixParamSafe();
    }
    assert ConfigureCommand(config, projectRoot).value == Join([PathJoin(sd, "configure")] + qs + [sd], " ");
    WordsShape(PathJoin(sd, "configure"), PrefixParam, qs, sd);
  }

  /** `shlex.quote` leaves the prefix parameter as it is. */
  lemma PrefixParamSafe()
    ensures AllSafe(PrefixParam)
  {
  }

  lemma WordsShape(a: string, p: string, qs: seq<string>, sd: string)
    requires qs != [] && qs[0] == p
    ensures var c := Join([a] + qs + [sd], " ");
      var head := a + " " + p + " ";
      |c| >= |head| + |sd| && c[..|head|] == head && c[|c| - |sd| - 1..] == " " + sd
  {
    var words := [a] + qs + [sd];
    var c := Join(words, " ");
    assert words[1..] == qs + [sd];
    assert (qs + [sd])[1..] == qs[1..] + [sd];
    var tail := Join(qs[1..] + [sd], " ");
    assert Join(words, " ") == a + " " + Join(qs + [sd], " ");
    assert Join(qs + [sd], " ") == p + " " + tail;
    assert c == (a + " " + p + " ") + tail;
    JoinSnoc([a] + qs, sd, " ");
    assert c == Join([a] + qs, " ") + (" " + sd);
  }

  /** `autogen.sh` is run by the script exactly when `allow_insource` is
      set. */
  lemma AutogenRunsOnlyWhenAllowed(autogenPath: string, allowInsource: bool)
    ensures var ls := AutogenLines(autogenPath, allowInsource);
      allowInsource <==> exists i :: 0 <= i < |ls| && ls[i] == "[ -f " + autogenPath + " ] && " + autogenPath
  {
    var ls := AutogenLines(autogenPath, allowInsource);
    var run := "[ -f " + autogenPath + " ] && " + autogenPath;
    assert run[0] == '[';
    if allowInsource {
      assert ls[1] == run;
    } else {
      forall i | 0 <= i < |ls|
        ensures ls[i] != run
      {
        if i == 0 {
          assert ls[i] == NoInsourceComment;
        } else if i == 1 {
          assert ls[i][0] == 'i';
        } else if i == 2 {
          assert EchoFound[0] == ' ';
        } else if i == 3 {
          assert EchoHint[0] == ' ';
        } else if i == 4 {
          assert ls[i][0] == 'f';
        } else {
          assert ls[i] == "";
        }
      }
    }
  }

  /** Both variants test for the file at the path they are given, and the
      path can be read back from the test line. */
  lemma AutogenTestsPath(autogenPath: string, allowInsource: bool)
    ensures var line := AutogenLines(autogenPath, allowInsource)[1];
      var test := "[ -f " + autogenPath + " ]";
      var at := if allowInsource then 0 else 3;
      |line| >= at + |test| && line[at..at + |test|] == test
      && line[at + 5..at + 5 + |autogenPath|] == autogenPath
  {
    var test := "[ -f " + autogenPath + " ]";
    var line := AutogenLines(autogenPath, allowInsource)[1];
    if allowInsource {
      assert line == test + (" && " + autogenPath);
    } else {
      assert line == "if " + test + "; then";
    }
  }

  /** The intended block warns with two separate commands. */
  lemma AutogenWarnings(autogenPath: string)
    ensures AutogenLines(autogenPath, false)[2..4] == [EchoFound, EchoHint]
  {
  }

  /** As written, the test without `allow_insource` does not depend on the
      path at all: the shell tests for a file literally named `{0}`. The
      two warnings are one line, on which the second `echo` is an argument
      of the first. */
  lemma AutogenAsWrittenFindings(autogenPath: string, other: string)
    ensures var ls := AutogenLinesAsWritten(autogenPath, false);
      ls == AutogenLinesAsWritten(other, false)
      && ls[1] == "if [ -f {0} ]; then"
      && |ls| == |AutogenLines(autogenPath, false)| - 1
      && ls[2] == EchoFound + EchoHint
  {
  }
}
