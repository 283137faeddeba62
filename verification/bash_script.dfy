/** The line buffer every generator writes through: lines are collected in
    memory and written out, after a fixed header, only by `BuildFile`. */
module BashScript {
  import opened Errors
  import opened Strings
  import opened Dicts
  import opened Config
  import opened Shell
  import opened Files

  /** The five lines every script starts with. */
  const Header: seq<string> := [
    "#! /bin/bash",
    "",
    "# make sure to quit on errors in subcommands",
    "set -e",
    ""
  ]

  /** The text of `lines`, each followed by a newline. */
  function Render(lines: seq<string>): string
  {
    if lines == [] then "" else Render(lines[..|lines| - 1]) + lines[|lines| - 1] + "\n"
  }

  /** The whole text of a script whose buffer holds `lines`. */
  function ScriptText(lines: seq<string>): string
  {
    Render(Header + lines)
  }

  lemma {:induction false} RenderAppend(a: seq<string>, b: seq<string>)
    ensures Render(a + b) == Render(a) + Render(b)
    decreases |b|
  {
    if b == [] {
      assert a + b == a;
    } else {
      var b' := b[..|b| - 1];
      assert (a + b)[..|a + b| - 1] == a + b';
      RenderAppend(a, b');
    }
  }

  /** Rendering is lossless: splitting the text at newlines gives back the
      lines (and an empty text after the last newline), provided no line
      holds a newline itself. */
  lemma {:induction false} RenderSplit(lines: seq<string>)
    requires forall i :: 0 <= i < |lines| ==> '\n' !in lines[i]
    ensures Split(Render(lines), '\n') == lines + [""]
    decreases |lines|
  {
    if lines != [] {
      var init := lines[..|lines| - 1];
      var last := lines[|lines| - 1];
      RenderSplit(init);
      var tail := last + "\n";
      assert Split(tail, '\n') == [last, ""] by {
        SplitAtOne(last, "", '\n');
        assert last + ['\n'] + "" == tail;
      }
      assert Render(lines) == Render(init) + tail by {
        ConcatAssoc(Render(init), last, "\n");
      }
      SplitAppend(Render(init), tail, '\n');
      FuseLine(init, last);
      assert init + [last] == lines;
    }
  }

  /** The parts of a text ending in a newline, after those of a text whose
      parts end with an empty one. */
  lemma FuseLine(init: seq<string>, last: string)
    ensures Fuse(init + [""], [last, ""]) == init + [last] + [""]
  {
    var pa := init + [""];
    assert pa[..|pa| - 1] == init;
    assert pa[|pa| - 1] + last == last;
    assert [last, ""][1..] == [""];
  }

  /** The script text is the header followed by the buffered lines. */
  lemma ScriptTextSplit(lines: seq<string>)
    requires forall i :: 0 <= i < |lines| ==> '\n' !in lines[i]
    ensures Split(ScriptText(lines), '\n') == Header + lines + [""]
  {
    var all := Header + lines;
    forall i | 0 <= i < |all| ensures '\n' !in all[i] {
      if i >= |Header| {
        assert all[i] == lines[i - |Header|];
      }
    }
    RenderSplit(all);
  }

  /** The lines the assumed `export_env_vars` writes for one variable:
      `K=V` and then `export K`, `V` quoted unless `raw` (then written with
      `str()`). */
  function ExportPair(key: string, value: Value, raw: bool): Result<seq<string>>
  {
    var text := if raw then PyStr(value) else PyQuote(value);
    if text.Err? then Err(text.error)
    else Ok(Assign(key, text.value))
  }

  /** An assignment followed by an export, the two lines by which the
      scripts export a variable (a separate `export` keeps a failing
      command substitution from being masked). */
  function Assign(key: string, text: string): seq<string>
  {
    [key + "=" + text, "export " + key]
  }

  /** The lines the assumed `export_env_vars` writes for `env`, in its order. */
  function ExportLines(env: Dict<Value>, raw: bool): (r: Result<seq<string>>)
    ensures r.Ok? ==> |r.value| == 2 * |env|
    decreases |env|
  {
    if env == [] then Ok([])
    else
      var init := ExportLines(env[..|env| - 1], raw);
      var last := ExportPair(env[|env| - 1].0, env[|env| - 1].1, raw);
      if init.Err? then init
      else if last.Err? then Err(last.error)
      else Ok(init.value + last.value)
  }

  /** Each variable gets an assignment and an export, in order; a quoted
      value reads back as the original string. */
  lemma {:induction false} ExportLinesAt(env: Dict<Value>, raw: bool, i: nat)
    requires ExportLines(env, raw).Ok? && i < |env|
    ensures var ls := ExportLines(env, raw).value;
      var k := env[i].0;
      ls[2 * i + 1] == "export " + k
      && |ls[2 * i]| > |k| && ls[2 * i][..|k| + 1] == k + "="
      && (!raw && env[i].1.VStr? ==> Unquote(ls[2 * i][|k| + 1..]) == Some(env[i].1.s))
    decreases |env|
  {
    var init := env[..|env| - 1];
    var ls := ExportLines(env, raw).value;
    var k := env[i].0;
    if i < |env| - 1 {
      ExportLinesAt(init, raw, i);
      assert ls[..2 * |init|] == ExportLines(init, raw).value;
      assert ls[2 * i] == ExportLines(init, raw).value[2 * i];
    } else {
      var pair := ExportPair(k, env[i].1, raw).value;
      assert ls == ExportLines(init, raw).value + pair;
      assert ls[2 * i] == pair[0];
      if !raw && env[i].1.VStr? {
        QuoteRoundTrip(env[i].1.s);
        assert pair[0][|k| + 1..] == Quote(env[i].1.s);
      }
    }
  }

  /** `BashScriptGenerator`: a path and a growing list of lines. */
  class ScriptGenerator {
    const path: string
    var lines: seq<string>

    constructor (path: string)
      ensures this.path == path && lines == []
    {
      this.path := path;
      lines := [];
    }

    /** The project-aware generator that the pre- and post-build scripts
        use (`ProjectAwareBashScriptBuilder`, which the generator module does
        not define): assumed to be a buffer that starts by exporting
        `PROJECT_ROOT` and `BUILD_DIR`. */
    constructor ProjectAware(path: string, projectRoot: string, buildDir: string)
      ensures this.path == path
      ensures lines == ProjectPrelude(projectRoot, buildDir)
    {
      this.path := path;
      lines := ProjectPrelude(projectRoot, buildDir);
    }

    /** `add_lines`: the buffer becomes the old lines followed by `ls`. */
    method AddLines(ls: seq<string>)
      modifies this
      ensures lines == old(lines) + ls
    {
      lines := lines + ls;
    }

    /** `add_line`: exactly one line more, at the end (`""` for the
        default). */
    method AddLine(line: string)
      modifies this
      ensures lines == old(lines) + [line]
      ensures |lines| == |old(lines)| + 1 && lines[..|old(lines)|] == old(lines)
    {
      lines := lines + [line];
    }

    /** `export_env_vars`, which the qmake builder calls but the generator
        does not define: assumed to add assignments and exports for `env`,
        only when every value can be written. */
    method ExportEnvVars(env: Dict<Value>, raw: bool) returns (r: Result<()>)
      modifies this
      ensures r.Ok? <==> ExportLines(env, raw).Ok?
      ensures r.Ok? ==> lines == old(lines) + ExportLines(env, raw).value
      ensures r.Err? ==> lines == old(lines) && r.error == ExportLines(env, raw).error
    {
      var out: seq<string> := [];
      var i := 0;
      while i < |env|
        invariant 0 <= i <= |env|
        invariant ExportLines(env[..i], raw) == Ok(out)
      {
        assert env[..i + 1][..i] == env[..i];
        var pair := ExportPair(env[i].0, env[i].1, raw);
        if pair.Err? {
          PrefixError(env, raw, i + 1);
          assert env[..i + 1][i] == env[i];
          return Err(pair.error);
        }
        out := out + pair.value;
        i := i + 1;
      }
      assert env[..i] == env;
      lines := lines + out;
      return Ok(());
    }

    /** `build_file`: the header and the lines, each ended by a newline,
        replace the file at `path`, which becomes executable. Nothing else is
        written and the buffer is kept. */
    method BuildFile(fs: FileSystem)
      modifies fs
      ensures fs.files == old(fs.files)[path := File(ScriptText(lines), ExecutableMode)]
      ensures fs.log == old(fs.log) + [path]
    {
      var all := Header + lines;
      var text := "";
      var i := 0;
      while i < |all|
        invariant 0 <= i <= |all|
        invariant text == Render(all[..i])
      {
        assert all[..i + 1][..i] == all[..i];
        text := text + all[i] + "\n";
        i := i + 1;
      }
      assert all[..i] == all;
      fs.WriteExecutable(path, text);
    }
  }

  /** The exports a project-aware script starts with. */
  function ProjectPrelude(projectRoot: string, buildDir: string): seq<string>
  {
    Assign("PROJECT_ROOT", Quote(projectRoot)) + Assign("BUILD_DIR", Quote(buildDir))
  }

  /** Paths without a newline give a prelude of four single lines. */
  lemma PreludeSingleLines(projectRoot: string, buildDir: string)
    requires '\n' !in projectRoot && '\n' !in buildDir
    ensures var p := ProjectPrelude(projectRoot, buildDir);
      |p| == 4 && forall i :: 0 <= i < |p| ==> '\n' !in p[i]
  {
    QuoteChars(projectRoot);
    QuoteChars(buildDir);
    AssignSingleLine("PROJECT_ROOT", Quote(projectRoot));
    AssignSingleLine("BUILD_DIR", Quote(buildDir));
  }

  lemma AssignSingleLine(key: string, text: string)
    requires '\n' !in key && '\n' !in text
    ensures forall i :: 0 <= i < |Assign(key, text)| ==> '\n' !in Assign(key, text)[i]
  {
    assert '\n' !in "export " + key;
  }

  /** The assumed prelude is the assumed export of the two paths, quoted. */
  lemma ProjectPreludeExports(projectRoot: string, buildDir: string)
    ensures ExportLines([("PROJECT_ROOT", VStr(projectRoot)), ("BUILD_DIR", VStr(buildDir))], false)
      == Ok(ProjectPrelude(projectRoot, buildDir))
  {
    var env := [("PROJECT_ROOT", VStr(projectRoot)), ("BUILD_DIR", VStr(buildDir))];
    var first := Assign("PROJECT_ROOT", Quote(projectRoot));
    assert env[..1] == [("PROJECT_ROOT", VStr(projectRoot))];
    assert env[..1][..0] == [];
    assert [] + first == first;
    assert ExportLines(env[..1], false) == Ok(first);
  }

  /** A failure on a prefix of `env` is the failure on the whole. */
  lemma {:induction false} PrefixError(env: Dict<Value>, raw: bool, n: nat)
    requires n <= |env| && ExportLines(env[..n], raw).Err?
    ensures ExportLines(env, raw) == ExportLines(env[..n], raw)
    decreases |env| - n
  {
    if n < |env| {
      assert env[..n + 1][..n] == env[..n];
      PrefixError(env, raw, n + 1);
    } else {
      assert env[..n] == env;
    }
  }
}
