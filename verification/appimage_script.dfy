/** `AppImageBuildScriptGenerator`: the script that fetches linuxdeploy and
    its plugins, exports the configured environment and runs linuxdeploy on
    the AppDir. The generator holds the `appimage` section of the
    configuration; `platform.machine()` is the parameter `machine`. */
module AppImageScript {
  import opened Errors
  import opened Strings
  import opened Dicts
  import opened Config
  import opened Shell
  import opened Files
  import opened Util
  import opened BashScript

  /** The section the generator is given; a missing one reads as `{}`. */
  function GeneratorConfig(ldConfig: Value): (r: Value)
    ensures ldConfig.VNone? ==> r == VMap([])
    ensures !ldConfig.VNone? ==> r == ldConfig
  {
    if ldConfig.VNone? then VMap([]) else ldConfig
  }

  // ---------------------------------------------------------------------
  // Architecture

  const ValidArchs: seq<string> := ["x86_64", "i386"]

  /** The aliases replaced by the architecture linuxdeploy names. */
  function Substitute(a: Value): Value
  {
    if a == VStr("amd64") then VStr("x86_64")
    else if a == VStr("i586") || a == VStr("i686") then VStr("i386")
    else a
  }

  /** The architecture after substitution: a list or mapping cannot be
      looked up among the aliases; anything but the two valid names is
      refused. */
  function ResolveArch(a: Value): Result<string>
  {
    if !Hashable(a) then Fail(TypeError, "unhashable type")
    else
      var s := Substitute(a);
      if s.VStr? && s.s in ValidArchs then Ok(s.s) else Fail(ValueError, "Invalid arch")
  }

  /** Where the continuous builds of linuxdeploy are downloaded from. */
  const LinuxdeployReleases: string :=
    "https://github.com/linuxdeploy/linuxdeploy/releases/download/continuous/linuxdeploy-"

  /** The comment above the download of linuxdeploy. */
  const FetchComment: string :=
    "# fetch linuxdeploy from GitHub releases"

  /** The repositories of the official plugins, up to the plugin name. */
  const OfficialPluginHost: string :=
    "https://github.com/linuxdeploy/linuxdeploy-plugin-"

  /** The path of the continuous builds in a plugin repository. */
  const ContinuousPath: string :=
    "/releases/download/continuous/"

  /** The message for a URL whose file names no plugin. */
  const NoPluginName: string :=
    "Could not detect linuxdeploy plugin name from URL "

  /** The configured `arch`, or else the machine's. */
  function Arch(config: Value, machine: string): Result<string>
  {
    var a :- GetOr(config, "arch", VStr(machine));
    ResolveArch(a)
  }

  function LinuxdeployUrl(arch: string): string
  {
    LinuxdeployReleases + arch + ".AppImage"
  }

  /** The first lines: download linuxdeploy and make it executable. */
  function DownloadLines(arch: string): seq<string>
  {
    [
      FetchComment,
      "wget -c " + Quote(LinuxdeployUrl(arch)),
      "chmod +x linuxdeploy-" + arch + ".AppImage"
    ]
  }

  // ---------------------------------------------------------------------
  // URLs, as `urllib.parse.urlparse` splits them

  datatype Url = Url(scheme: string, netloc: string, path: string)

  predicate AsciiLetter(c: char)
  {
    'a' <= c <= 'z' || 'A' <= c <= 'Z'
  }

  predicate SchemeChar(c: char)
  {
    AsciiLetter(c) || '0' <= c <= '9' || c == '+' || c == '-' || c == '.'
  }

  /** Leading C0 control characters and spaces are stripped. */
  function StripLeading(s: string): (r: string)
    ensures r <= s || (|r| <= |s| && r == s[|s| - |r|..])
    ensures r != [] ==> r[0] > ' '
    ensures s != [] && s[0] > ' ' ==> r == s
    ensures forall c :: c in r ==> c in s
  {
    if s != [] && s[0] <= ' ' then StripLeading(s[1..]) else s
  }

  /** Tabs, carriage returns and newlines are removed everywhere. */
  function DropUnsafe(s: string): (r: string)
    ensures forall c :: c in r ==> c in s && c != '\t' && c != '\r' && c != '\n'
    ensures (forall i :: 0 <= i < |s| ==> s[i] != '\t' && s[i] != '\r' && s[i] != '\n') ==> r == s
  {
    if s == [] then []
    else (if s[0] == '\t' || s[0] == '\r' || s[0] == '\n' then [] else [s[0]]) + DropUnsafe(s[1..])
  }

  /** The scheme (lower-cased) and the rest: the text before the first
      `:`, when it starts with a letter and holds only scheme characters. */
  function SplitScheme(u: string): (string, string)
  {
    var i := Find(u, ':');
    if i > 0 && AsciiLetter(u[0]) && (forall k | 0 <= k < i :: SchemeChar(u[k])) then (Lower(u[..i]), u[i + 1..])
    else ("", u)
  }

  /** The first index from `k` on holding `/`, `?` or `#`, or the length. */
  function NetlocEnd(u: string, k: nat): (d: nat)
    requires k <= |u|
    ensures k <= d <= |u|
    ensures forall j :: k <= j < d ==> u[j] != '/' && u[j] != '?' && u[j] != '#'
    ensures d < |u| ==> u[d] == '/' || u[d] == '?' || u[d] == '#'
    decreases |u| - k
  {
    if k == |u| || u[k] == '/' || u[k] == '?' || u[k] == '#' then k else NetlocEnd(u, k + 1)
  }

  /** The network location after `//`, and the rest. */
  function SplitNetloc(rest: string): (string, string)
  {
    if |rest| >= 2 && rest[..2] == "//" then
      var d := NetlocEnd(rest, 2);
      (rest[2..d], rest[d..])
    else ("", rest)
  }

  /** `urlparse(s)` for a string: scheme, network location and path (the
      path without its query and fragment). `;` parameters are cut from
      the path only after its last `/`, so they never empty a path that
      follows a network location and are not modelled. A network location
      with one square bracket but not the other is refused. */
  function UrlParse(s: string): Result<Url>
  {
    var u := DropUnsafe(StripLeading(s));
    var (scheme, rest) := SplitScheme(u);
    var (netloc, tail) := SplitNetloc(rest);
    if ('[' in netloc) != (']' in netloc) then Fail(ValueError, "Invalid IPv6 URL")
    else Ok(Url(scheme, netloc, Before(Before(tail, '#'), '?')))
  }

  /** The test for an absolute URL: scheme, network location and path all
      present. */
  predicate IsAbsUrl(u: Url)
  {
    u.scheme != "" && u.netloc != "" && u.path != ""
  }

  // ---------------------------------------------------------------------
  // Plugin names, as the pattern
  // `^linuxdeploy-plugin-([^\s\.-]+)(?:-[^\.]+)?(?:\..+)?$` reads them

  const PluginPrefix: string := "linuxdeploy-plugin-"

  /** The characters of the captured name. */
  predicate NameChar(c: char)
  {
    !IsSpace(c) && c != '.' && c != '-'
  }

  /** The length of the longest prefix of name characters. */
  function NameRun(t: string): (n: nat)
    ensures n <= |t|
    ensures forall i :: 0 <= i < n ==> NameChar(t[i])
    ensures n < |t| ==> !NameChar(t[n])
  {
    if t != [] && NameChar(t[0]) then 1 + NameRun(t[1..]) else 0
  }

  /** The length of the longest prefix without a dot. */
  function DotFreeRun(t: string): (n: nat)
    ensures n <= |t|
    ensures forall i :: 0 <= i < n ==> t[i] != '.'
    ensures n < |t| ==> t[n] == '.'
  {
    if t != [] && t[0] != '.' then 1 + DotFreeRun(t[1..]) else 0
  }

  /** `$`: the end of the text, or a final newline. */
  predicate AtEnd(x: string)
  {
    x == "" || x == "\n"
  }

  /** `.+$`: at least one character that is not a newline, up to the end
      or a final newline. */
  predicate DotsToEnd(x: string)
  {
    (x != "" && '\n' !in x) || (|x| >= 2 && x[|x| - 1] == '\n' && '\n' !in x[..|x| - 1])
  }

  /** `(?:-[^\.]+)?(?:\..+)?$` after the captured name, which ends before
      any character that could continue it, so the match never backtracks
      into the name. `[^\.]+` may take newlines. */
  predicate SuffixMatches(r: string)
  {
    AtEnd(r)
    || (r[0] == '.' && DotsToEnd(r[1..]))
    || (r[0] == '-' &&
        var a := DotFreeRun(r[1..]);
        var v := r[1 + a..];
        a > 0 && (v == "" || DotsToEnd(v[1..])))
  }

  /** The plugin name the pattern captures from a file name, if it
      matches. */
  function PluginName(f: string): Option<string>
  {
    if !(PluginPrefix <= f) then None
    else
      var t := f[|PluginPrefix|..];
      var n := NameRun(t);
      if n > 0 && SuffixMatches(t[n..]) then Some(t[..n]) else None
  }

  // ---------------------------------------------------------------------
  // Plugins

  /** `build_official_plugin_url(name)`. */
  function OfficialPluginUrl(name: string): string
  {
    OfficialPluginHost + name + ContinuousPath
    + "linuxdeploy-plugin-" + name + "-$ARCH.AppImage"
  }

  const CondaUrl: string :=
    "https://raw.githubusercontent.com/linuxdeploy/linuxdeploy-plugin-conda/master/linuxdeploy-plugin-conda.sh"

  /** A plugin given by name: only the known ones. */
  function KnownPlugin(name: string): Result<(string, string)>
  {
    if name == "qt" then Ok(("qt", OfficialPluginUrl("qt")))
    else if name == "conda" then Ok(("conda", CondaUrl))
    else Fail(ValueError, "Unknown plugin: " + name)
  }

  /** One entry of `plugins`: an absolute URL, named after the file it
      points to, or the name of a known plugin. A non-string entry is
      refused by `urlparse` when it is true, and otherwise looked up among
      the known names, which a list or mapping cannot be. */
  function ResolvePlugin(entry: Value): Result<(string, string)>
  {
    match entry
    case VStr(s) =>
      var u :- UrlParse(s);
      if IsAbsUrl(u) then
        match PluginName(LastPart(s, '/'))
        case None => Fail(ValueError, NoPluginName + s)
        case Some(name) => Ok((name, s))
      else KnownPlugin(s)
    case _ =>
      if Truthy(entry) then Fail(TypeError, "non-string plugin entry")
      else if !Hashable(entry) then Fail(TypeError, "unhashable type")
      else Fail(ValueError, "Unknown plugin")
  }

  /** `ld_plugins`: every entry resolved in order, the first failure
      stopping it, and put into the map by name. */
  function PluginMap(entries: seq<Value>): Result<Dict<string>>
  {
    var pairs :- Traverse(ResolvePlugin, entries);
    Ok(FromPairs(pairs))
  }

  /** The plugins of `linuxdeploy: plugins:`; a missing section, a missing
      key and an empty (`null`) key give none. */
  function Plugins(config: Value): Result<Dict<string>>
  {
    var ld :- TryIndex(config, "linuxdeploy");
    match ld
    case None => Ok([])
    case Some(section) =>
      var raw :- TryIndex(section, "plugins");
      match raw
      case None => Ok([])
      case Some(v) =>
        if v.VNone? then Ok([])
        else
          var entries :- Iterate(v);
          PluginMap(entries)
  }

  /** The lines fetching one plugin; `$ARCH` in its URL becomes the
      architecture. */
  function FetchBlock(name: string, url: string, arch: string): seq<string>
  {
    [
      "# fetch " + name + " plugin",
      "wget -c " + Quote(Replace(url, "$ARCH", arch)),
      "chmod +x linuxdeploy-plugin-" + Quote(name) + "*"
    ]
  }

  /** The fetch blocks of all plugins, in the order of the map. */
  function FetchLines(plugins: Dict<string>, arch: string): (r: seq<string>)
    ensures |r| == 3 * |plugins|
    decreases |plugins|
  {
    if plugins == [] then []
    else
      var n := |plugins| - 1;
      FetchLines(plugins[..n], arch) + FetchBlock(plugins[n].0, plugins[n].1, arch)
  }

  // ---------------------------------------------------------------------
  // Environment

  /** `linuxdeploy: environment:`, or `None` when either key is missing. */
  function EnvConfig(config: Value): Result<Option<Value>>
  {
    var ld :- TryIndex(config, "linuxdeploy");
    match ld
    case None => Ok(None)
    case Some(section) => TryIndex(section, "environment")
  }

  /** The environment as the source writes it: when `dict()` raises
      `ValueError`, the fallback first evaluates `iter(list)`, which raises
      `TypeError` (the type `list` is not iterable), so the fallback never
      runs. */
  function EnvDictAsWritten(v: Value): Result<Dict<Value>>
  {
    match DictProbe(v)
    case Ok(_) => DictOf(v)
    case Err(e) =>
      if e.kind == ValueError then Fail(TypeError, "'type' object is not iterable")
      else Err(e)
  }

  /** The environment as intended: a value `dict()` refuses with
      `ValueError` is parsed as a list of `KEY=VALUE` strings. */
  function EnvDict(v: Value): Result<Dict<Value>>
  {
    match DictProbe(v)
    case Ok(_) => DictOf(v)
    case Err(e) =>
      if e.kind == ValueError then
        var d :- KvListToDict(v);
        Ok(StrDict(d))
      else Err(e)
  }

  /** One export line; the value goes through `shlex.quote`. */
  function EnvExport(kv: (string, Value)): Result<string>
  {
    var q :- PyQuote(kv.1);
    Ok("export " + Quote(kv.0) + "=" + q)
  }

  /** The environment block: nothing without an environment, else an
      export per variable and an empty line. */
  function EnvLines(config: Value): Result<seq<string>>
  {
    var raw :- EnvConfig(config);
    match raw
    case None => Ok([])
    case Some(v) =>
      var env :- EnvDict(v);
      var exports :- Traverse(EnvExport, env);
      Ok(exports + [""])
  }

  // ---------------------------------------------------------------------
  // The linuxdeploy command

  /** The options every run gets: the AppDir to bundle and the output
      format. */
  const LdOptions: seq<string> := ["--appdir", "AppDir", "--output", "appimage"]

  /** The AppImage of the architecture, then the fixed options. */
  function BaseWords(arch: string): seq<string>
  {
    ["./linuxdeploy-" + arch + ".AppImage"] + LdOptions
  }

  /** `--plugin <name>` for every plugin, in order. */
  function PluginArgs(names: seq<string>): (r: seq<string>)
    ensures |r| == 2 * |names|
    decreases |names|
  {
    if names == [] then []
    else
      var n := |names| - 1;
      PluginArgs(names[..n]) + ["--plugin", Quote(names[n])]
  }

  /** `extra_args`: nothing when unset, the items of a list, a string as
      one word; any other type is refused. Every word must be a string for
      the final `join`. */
  function ExtraArgs(extra: Value): Result<seq<string>>
  {
    match extra
    case VNone => Ok([])
    case VList(xs) => AsStrings(xs)
    case VStr(s) => Ok([s])
    case _ => Fail(ValueError, "Invalid type for extra_args")
  }

  /** The words of `linuxdeploy: extra_args`, read with `get` and its
      defaults. */
  function ExtraWords(config: Value): Result<seq<string>>
  {
    var ld :- GetOr(config, "linuxdeploy", VMap([]));
    var extra :- GetOr(ld, "extra_args", VNone);
    ExtraArgs(extra)
  }

  /** The linuxdeploy command line. */
  function LdCommand(config: Value, arch: string, plugins: Dict<string>): Result<string>
  {
    var extraWords :- ExtraWords(config);
    Ok(Join(BaseWords(arch) + PluginArgs(Keys(plugins)) + extraWords, " "))
  }

  // ---------------------------------------------------------------------
  // The whole script

  /** The buffered lines of the script, or the exception that stops
      `build_file` before it writes. */
  function ScriptLines(config: Value, machine: string): Result<seq<string>>
  {
    var arch :- Arch(config, machine);
    var plugins :- Plugins(config);
    var env :- EnvLines(config);
    var command :- LdCommand(config, arch, plugins);
    Ok(DownloadLines(arch) + FetchLines(plugins, arch) + [""] + env + [command])
  }

  /** `build_file(path)` on a generator given `ldConfig`. */
  function BuildFileOutcome(ldConfig: Value, machine: string, path: string): Outcome<()>
  {
    match ScriptLines(GeneratorConfig(ldConfig), machine)
    case Err(e) => Outcome([], Err(e))
    case Ok(lines) => Outcome([Write(path, ScriptText(lines))], Ok(()))
  }

  // ---------------------------------------------------------------------
  // `build_file` as the source writes it

  /** The loop filling `ld_plugins`: each entry resolved and stored under
      its name, the first failure stopping it. */
  method ResolvePlugins(config: Value) returns (r: Result<Dict<string>>)
    ensures r == Plugins(config)
  {
    var ld := TryIndex(config, "linuxdeploy");
    if ld.Err? {
      return Err(ld.error);
    }
    if ld.value.None? {
      return Ok([]);
    }
    var raw := TryIndex(ld.value.value, "plugins");
    if raw.Err? {
      return Err(raw.error);
    }
    if raw.value.None? || raw.value.value.VNone? {
      return Ok([]);
    }
    var entries := Iterate(raw.value.value);
    if entries.Err? {
      return Err(entries.error);
    }
    var xs := entries.value;
    var plugins: Dict<string> := [];
    var i := 0;
    while i < |xs|
      invariant 0 <= i <= |xs|
      invariant PluginMap(xs[..i]) == Ok(plugins)
    {
      var p := ResolvePlugin(xs[i]);
      PluginMapStep(xs, i);
      if p.Err? {
        TraversePrefixError(ResolvePlugin, xs, i + 1);
        return Err(p.error);
      }
      plugins := Put(plugins, p.value.0, p.value.1);
      i := i + 1;
    }
    assert xs[..i] == xs;
    return Ok(plugins);
  }

  /** One more entry either fails the whole map or is put into it. */
  lemma PluginMapStep(xs: seq<Value>, i: nat)
    requires i < |xs| && PluginMap(xs[..i]).Ok?
    ensures ResolvePlugin(xs[i]).Err? ==> Traverse(ResolvePlugin, xs[..i + 1]) == Err(ResolvePlugin(xs[i]).error)
    ensures ResolvePlugin(xs[i]).Ok? ==>
      PluginMap(xs[..i + 1]) == Ok(Put(PluginMap(xs[..i]).value, ResolvePlugin(xs[i]).value.0, ResolvePlugin(xs[i]).value.1))
  {
    assert xs[..i + 1][..i] == xs[..i];
    assert xs[..i + 1][i] == xs[i];
    var init := Traverse(ResolvePlugin, xs[..i]).value;
    if ResolvePlugin(xs[i]).Ok? {
      var all := init + [ResolvePlugin(xs[i]).value];
      assert all[..|all| - 1] == init;
    }
  }

  /** The loop over `ld_plugins.items()` adding a fetch block per plugin. */
  method AddFetchBlocks(gen: ScriptGenerator, plugins: Dict<string>, arch: string)
    modifies gen
    ensures gen.lines == old(gen.lines) + FetchLines(plugins, arch)
  {
    var i := 0;
    while i < |plugins|
      invariant 0 <= i <= |plugins|
      invariant gen.lines == old(gen.lines) + FetchLines(plugins[..i], arch)
    {
      var block := FetchBlock(plugins[i].0, plugins[i].1, arch);
      FetchLinesStep(plugins, i, arch);
      gen.AddLines(block);
      ConcatAssoc(old(gen.lines), FetchLines(plugins[..i], arch), block);
      i := i + 1;
    }
    assert plugins[..i] == plugins;
  }

  lemma FetchLinesStep(plugins: Dict<string>, i: nat, arch: string)
    requires i < |plugins|
    ensures FetchLines(plugins[..i + 1], arch) == FetchLines(plugins[..i], arch) + FetchBlock(plugins[i].0, plugins[i].1, arch)
  {
    assert plugins[..i + 1][..i] == plugins[..i];
  }

  /** The exports of the environment, added line by line. */
  method AddEnvironment(gen: ScriptGenerator, config: Value) returns (r: Result<()>)
    modifies gen
    ensures r.Ok? <==> EnvLines(config).Ok?
    ensures r.Ok? ==> gen.lines == old(gen.lines) + EnvLines(config).value
    ensures r.Err? ==> r.error == EnvLines(config).error
  {
    var raw := EnvConfig(config);
    if raw.Err? {
      return Err(raw.error);
    }
    if raw.value.None? {
      return Ok(());
    }
    var env := EnvDict(raw.value.value);
    if env.Err? {
      return Err(env.error);
    }
    var exported := AddExports(gen, env.value);
    if exported.Err? {
      return Err(exported.error);
    }
    gen.AddLine("");
    return Ok(());
  }

  /** The loop over the environment's items: an export line per variable,
      in order, until one cannot be quoted. */
  method AddExports(gen: ScriptGenerator, d: Dict<Value>) returns (r: Result<()>)
    modifies gen
    ensures r.Ok? <==> Traverse(EnvExport, d).Ok?
    ensures r.Ok? ==> gen.lines == old(gen.lines) + Traverse(EnvExport, d).value
    ensures r.Err? ==> r.error == Traverse(EnvExport, d).error
  {
    ghost var out: seq<string> := [];
    var i := 0;
    while i < |d|
      invariant 0 <= i <= |d|
      invariant Traverse(EnvExport, d[..i]) == Ok(out)
      invariant gen.lines == old(gen.lines) + out
    {
      var line := EnvExport(d[i]);
      TraverseStep(EnvExport, d, i, out);
      if line.Err? {
        return Err(line.error);
      }
      gen.AddLine(line.value);
      out := out + [line.value];
      i := i + 1;
    }
    assert d[..i] == d;
    return Ok(());
  }

  /** `ld_command`, built word by word and joined. */
  method LinuxdeployCommand(config: Value, arch: string, plugins: Dict<string>) returns (r: Result<string>)
    ensures r == LdCommand(config, arch, plugins)
  {
    var words := BaseWords(arch);
    var i := 0;
    while i < |plugins|
      invariant 0 <= i <= |plugins|
      invariant words == BaseWords(arch) + PluginArgs(Keys(plugins[..i]))
    {
      assert Keys(plugins[..i + 1])[..i] == Keys(plugins[..i]);
      words := words + ["--plugin", Quote(plugins[i].0)];
      i := i + 1;
    }
    assert plugins[..i] == plugins;
    var ld := GetOr(config, "linuxdeploy", VMap([]));
    if ld.Err? {
      return Err(ld.error);
    }
    var extra := GetOr(ld.value, "extra_args", VNone);
    if extra.Err? {
      return Err(extra.error);
    }
    var extraWords := ExtraArgs(extra.value);
    if extraWords.Err? {
      return Err(extraWords.error);
    }
    return Ok(Join(words + extraWords.value, " "));
  }

  /** The body of `build_file` up to the write: every step of the source
      in its order, adding to the generator's lines. */
  method FillScript(gen: ScriptGenerator, config: Value, machine: string) returns (r: Result<()>)
    modifies gen
    requires gen.lines == []
    ensures r.Ok? <==> ScriptLines(config, machine).Ok?
    ensures r.Ok? ==> gen.lines == ScriptLines(config, machine).value
    ensures r.Err? ==> r.error == ScriptLines(config, machine).error
  {
    StepFailures(config, machine);
    var arch := Arch(config, machine);
    if arch.Err? {
      return Err(arch.error);
    }
    var a := arch.value;
    gen.AddLines(DownloadLines(a));
    assert [] + DownloadLines(a) == DownloadLines(a);
    var plugins := ResolvePlugins(config);
    if plugins.Err? {
      return Err(plugins.error);
    }
    var ps := plugins.value;
    AddFetchBlocks(gen, ps, a);
    gen.AddLine("");
    var env := AddEnvironment(gen, config);
    if env.Err? {
      return Err(env.error);
    }
    var command := LinuxdeployCommand(config, a, ps);
    if command.Err? {
      return Err(command.error);
    }
    gen.AddLine(command.value);
    ScriptLinesOk(config, machine, a, ps, EnvLines(config).value, command.value, gen.lines);
    return Ok(());
  }

  /** `build_file(path)`: the script is written only when every step
      succeeds. */
  method BuildFile(fs: FileSystem, ldConfig: Value, machine: string, path: string) returns (r: Result<()>)
    modifies fs
    ensures var o := BuildFileOutcome(ldConfig, machine, path);
      r == o.result && fs.files == Apply(old(fs.files), o.writes)
      && fs.log == old(fs.log) + WrittenPaths(o.writes)
  {
    var config := GeneratorConfig(ldConfig);
    var gen := new ScriptGenerator(path);
    var filled := FillScript(gen, config, machine);
    if filled.Err? {
      return Err(filled.error);
    }
    ghost var lines := gen.lines;
    Written(ldConfig, machine, path, lines, fs.files);
    gen.BuildFile(fs);
    return Ok(());
  }

  /** The outcome in terms of the buffered lines. */
  lemma OutcomeOf(ldConfig: Value, machine: string, path: string)
    ensures var lines := ScriptLines(GeneratorConfig(ldConfig), machine);
      BuildFileOutcome(ldConfig, machine, path)
      == if lines.Ok? then Outcome([Write(path, ScriptText(lines.value))], Ok(())) else Outcome([], Err(lines.error))
  {
  }

  /** A successful run writes its lines to `path`, and nothing else. */
  lemma Written(ldConfig: Value, machine: string, path: string, lines: seq<string>, files: map<string, File>)
    requires ScriptLines(GeneratorConfig(ldConfig), machine) == Ok(lines)
    ensures BuildFileOutcome(ldConfig, machine, path) == Outcome([Write(path, ScriptText(lines))], Ok(()))
    ensures Apply(files, [Write(path, ScriptText(lines))]) == files[path := File(ScriptText(lines), ExecutableMode)]
    ensures WrittenPaths([Write(path, ScriptText(lines))]) == [path]
  {
    ApplyOne(files, Write(path, ScriptText(lines)));
  }

  /** The first step that fails decides the exception. */
  lemma StepFailures(config: Value, machine: string)
    ensures Arch(config, machine).Err? ==> ScriptLines(config, machine) == Err(Arch(config, machine).error)
    ensures Arch(config, machine).Ok? && Plugins(config).Err? ==> ScriptLines(config, machine) == Err(Plugins(config).error)
    ensures Arch(config, machine).Ok? && Plugins(config).Ok? && EnvLines(config).Err? ==>
      ScriptLines(config, machine) == Err(EnvLines(config).error)
    ensures Arch(config, machine).Ok? && Plugins(config).Ok? && EnvLines(config).Ok?
      && LdCommand(config, Arch(config, machine).value, Plugins(config).value).Err?
      ==> ScriptLines(config, machine) == Err(LdCommand(config, Arch(config, machine).value, Plugins(config).value).error)
  {
  }

  lemma ScriptLinesOk(config: Value, machine: string, arch: string, plugins: Dict<string>, env: seq<string>,
                      command: string, lines: seq<string>)
    requires Arch(config, machine) == Ok(arch) && Plugins(config) == Ok(plugins)
    requires EnvLines(config) == Ok(env) && LdCommand(config, arch, plugins) == Ok(command)
    requires lines == DownloadLines(arch) + FetchLines(plugins, arch) + [""] + env + [command]
    ensures ScriptLines(config, machine) == Ok(lines)
  {
  }

  // ---------------------------------------------------------------------
  // Properties

  /** Exactly the two valid names and their three aliases are accepted, and
      each alias stands for its architecture. */
  lemma ResolveArchSpec(a: Value)
    ensures ResolveArch(a).Ok? <==> a.VStr? && a.s in ["x86_64", "amd64", "i386", "i586", "i686"]
    ensures ResolveArch(a).Ok? && a.s in ["x86_64", "amd64"] ==> ResolveArch(a).value == "x86_64"
    ensures ResolveArch(a).Ok? && a.s in ["i386", "i586", "i686"] ==> ResolveArch(a).value == "i386"
    ensures ResolveArch(a).Err? && Hashable(a) ==> ResolveArch(a).error.kind == ValueError
  {
  }

  /** Without an `arch` key the machine's architecture is used. */
  lemma ArchDefault(config: Value, machine: string)
    requires config.VMap? && Get(config.entries, "arch").None?
    ensures Arch(config, machine) == ResolveArch(VStr(machine))
  {
  }

  /** What the pattern captures: a non-empty run of name characters right
      after the prefix, which the rest of the file name does not
      continue. */
  lemma PluginNameSound(f: string)
    requires PluginName(f).Some?
    ensures var g := PluginName(f).value;
      g != "" && PluginPrefix + g <= f
      && (forall i :: 0 <= i < |g| ==> NameChar(g[i]))
      && (|PluginPrefix + g| < |f| ==> !NameChar(f[|PluginPrefix + g|]))
  {
    var t := f[|PluginPrefix|..];
    var n := NameRun(t);
    assert f == PluginPrefix + t;
    assert t == t[..n] + t[n..];
  }

  /** The pattern applied past the prefix. */
  lemma PluginNameAfterPrefix(t: string)
    ensures PluginName(PluginPrefix + t)
      == if NameRun(t) > 0 && SuffixMatches(t[NameRun(t)..]) then Some(t[..NameRun(t)]) else None
  {
    assert (PluginPrefix + t)[|PluginPrefix|..] == t;
  }

  /** A name followed by `r`, which cannot continue it, is captured when the
      pattern accepts `r`. */
  lemma NameThen(g: string, r: string)
    requires g != "" && forall i :: 0 <= i < |g| ==> NameChar(g[i])
    requires r == "" || !NameChar(r[0])
    requires SuffixMatches(r)
    ensures PluginName(PluginPrefix + (g + r)) == Some(g)
  {
    NameRunStops(g, r);
    assert (g + r)[|g|..] == r;
    assert (g + r)[..|g|] == g;
    PluginNameAfterPrefix(g + r);
  }

  /** `-<anything without a dot>.<extension>` is accepted. */
  lemma SuffixRelease(a: string, e: string)
    requires a != "" && '.' !in a
    requires e != "" && '\n' !in e
    ensures SuffixMatches("-" + (a + ("." + e)))
  {
    var r := "-" + (a + ("." + e));
    assert r[1..] == a + ("." + e);
    DotFreeRunStops(a, "." + e);
    assert r[1 + |a|..] == "." + e;
    assert ("." + e)[1..] == e;
  }

  /** `.<extension>` is accepted. */
  lemma SuffixExtension(e: string)
    requires e != "" && '\n' !in e
    ensures SuffixMatches("." + e)
  {
    assert ("." + e)[1..] == e;
  }

  /** Release file names `linuxdeploy-plugin-<name>-<anything without a
      dot>.<extension>` name their plugin. */
  lemma PluginNameRelease(g: string, a: string, e: string)
    requires g != "" && forall i :: 0 <= i < |g| ==> NameChar(g[i])
    requires a != "" && '.' !in a
    requires e != "" && '\n' !in e
    ensures PluginName(PluginPrefix + g + "-" + a + "." + e) == Some(g)
  {
    var r := "-" + (a + ("." + e));
    assert PluginPrefix + g + "-" + a + "." + e == PluginPrefix + (g + r) by {
      ConcatAssoc(PluginPrefix + g + "-" + a, ".", e);
      ConcatAssoc(PluginPrefix + g + "-", a, "." + e);
      ConcatAssoc(PluginPrefix + g, "-", a + ("." + e));
      ConcatAssoc(PluginPrefix, g, r);
    }
    SuffixRelease(a, e);
    NameThen(g, r);
  }

  /** So does `linuxdeploy-plugin-<name>.<extension>`, a script plugin. */
  lemma PluginNameScript(g: string, e: string)
    requires g != "" && forall i :: 0 <= i < |g| ==> NameChar(g[i])
    requires e != "" && '\n' !in e
    ensures PluginName(PluginPrefix + g + "." + e) == Some(g)
  {
    assert PluginPrefix + g + "." + e == PluginPrefix + (g + ("." + e)) by {
      ConcatAssoc(PluginPrefix + g, ".", e);
      ConcatAssoc(PluginPrefix, g, "." + e);
    }
    SuffixExtension(e);
    NameThen(g, "." + e);
  }

  /** And the bare `linuxdeploy-plugin-<name>`. */
  lemma PluginNameBare(g: string)
    requires g != "" && forall i :: 0 <= i < |g| ==> NameChar(g[i])
    ensures PluginName(PluginPrefix + g) == Some(g)
  {
    assert SuffixMatches("");
    NameThen(g, "");
    assert g + "" == g;
  }

  /** Without a name right after the prefix nothing matches. */
  lemma PluginNameNeedsName(r: string)
    requires r == "" || r[0] == '-' || r[0] == '.'
    ensures PluginName(PluginPrefix + r) == None
  {
    PluginNameAfterPrefix(r);
  }

  lemma {:induction false} NameRunStops(g: string, r: string)
    requires forall i :: 0 <= i < |g| ==> NameChar(g[i])
    requires r == "" || !NameChar(r[0])
    ensures NameRun(g + r) == |g|
    decreases |g|
  {
    if g != [] {
      assert (g + r)[1..] == g[1..] + r;
      NameRunStops(g[1..], r);
    }
  }

  lemma {:induction false} DotFreeRunStops(a: string, r: string)
    requires '.' !in a
    requires r == "" || r[0] == '.'
    ensures DotFreeRun(a + r) == |a|
    decreases |a|
  {
    if a != [] {
      assert (a + r)[1..] == a[1..] + r;
      DotFreeRunStops(a[1..], r);
    }
  }

  /** No tab, carriage return or newline. */
  predicate NoBreaks(s: string)
  {
    forall i :: 0 <= i < |s| ==> s[i] != '\t' && s[i] != '\r' && s[i] != '\n'
  }

  /** A scheme `urlparse` recognises. */
  predicate SchemeName(scheme: string)
  {
    scheme != "" && AsciiLetter(scheme[0]) && forall i :: 0 <= i < |scheme| ==> SchemeChar(scheme[i])
  }

  /** A network location without delimiters or brackets. */
  predicate HostName(host: string)
  {
    host != "" && forall i :: 0 <= i < |host| ==> host[i] !in "/?#[]"
  }

  /** A path without query or fragment. */
  predicate PlainPath(path: string)
  {
    path != "" && path[0] == '/' && '?' !in path && '#' !in path
  }

  /** `scheme://host/path` splits into its three parts (the scheme
      lower-cased), so it is an absolute URL. */
  lemma UrlParseAbsolute(scheme: string, host: string, path: string)
    requires SchemeName(scheme) && HostName(host) && PlainPath(path)
    requires NoBreaks(scheme + "://" + host + path)
    ensures UrlParse(scheme + "://" + host + path) == Ok(Url(Lower(scheme), host, path))
    ensures IsAbsUrl(UrlParse(scheme + "://" + host + path).value)
  {
    var url := scheme + "://" + host + path;
    var rest := "//" + host + path;
    assert url == scheme + [':'] + rest;
    CleanUrl(url);
    SplitSchemeOf(scheme, rest);
    SplitNetlocOf(host, path);
    assert '[' !in host && ']' !in host;
    UrlParseOf(url, Lower(scheme), rest, host, path);
  }

  lemma UrlParseOf(s: string, scheme: string, rest: string, netloc: string, tail: string)
    requires DropUnsafe(StripLeading(s)) == s
    requires SplitScheme(s) == (scheme, rest) && SplitNetloc(rest) == (netloc, tail)
    requires '[' !in netloc && ']' !in netloc
    ensures UrlParse(s) == Ok(Url(scheme, netloc, Before(Before(tail, '#'), '?')))
  {
  }

  /** Nothing is stripped from a URL starting with a visible character and
      holding no tab or line break. */
  lemma CleanUrl(url: string)
    requires url != [] && url[0] > ' ' && NoBreaks(url)
    ensures DropUnsafe(StripLeading(url)) == url
  {
  }

  lemma SplitSchemeOf(scheme: string, rest: string)
    requires SchemeName(scheme)
    ensures SplitScheme(scheme + [':'] + rest) == (Lower(scheme), rest)
  {
    var u := scheme + [':'] + rest;
    assert ':' !in scheme;
    FindAfter(scheme, ':', rest);
    assert u[..|scheme|] == scheme;
    assert u[|scheme| + 1..] == rest;
  }

  lemma SplitNetlocOf(host: string, path: string)
    requires forall i :: 0 <= i < |host| ==> host[i] !in "/?#"
    requires path != "" && path[0] == '/' && '?' !in path && '#' !in path
    ensures SplitNetloc("//" + host + path) == (host, path)
    ensures Before(Before(path, '#'), '?') == path
  {
    var rest := "//" + host + path;
    var d := NetlocEnd(rest, 2);
    assert rest[2 + |host|] == '/';
    assert rest[..2] == "//";
    assert rest[2..d] == host;
    assert rest[d..] == path;
  }

  /** A string without `:` has no scheme, so it names a plugin (`qt`,
      `conda`) rather than giving a URL. */
  lemma ResolveByName(s: string)
    requires ':' !in s && '[' !in s && ']' !in s
    ensures ResolvePlugin(VStr(s)) == KnownPlugin(s)
  {
    UrlWithoutScheme(s);
  }

  lemma UrlWithoutScheme(s: string)
    requires ':' !in s && '[' !in s && ']' !in s
    ensures UrlParse(s).Ok? && UrlParse(s).value.scheme == ""
  {
    var u := DropUnsafe(StripLeading(s));
    assert ':' !in u;
    assert SplitScheme(u) == ("", u);
    var (netloc, tail) := SplitNetloc(u);
    assert '[' !in netloc && ']' !in netloc;
  }

  /** Exactly the two known names resolve, each to its fixed URL. */
  lemma KnownPluginSpec(s: string)
    ensures KnownPlugin(s).Ok? <==> s == "qt" || s == "conda"
    ensures KnownPlugin(s).Ok? ==> KnownPlugin(s).value.0 == s
    ensures s == "qt" ==> KnownPlugin(s).value.1 == OfficialPluginUrl("qt")
    ensures s == "conda" ==> KnownPlugin(s).value.1 == CondaUrl
    ensures KnownPlugin(s).Err? ==> KnownPlugin(s).error.kind == ValueError
  {
  }

  /** An absolute URL is named by the file it points to, and refused when
      that file name does not match the pattern. */
  lemma ResolveUrl(scheme: string, host: string, dir: string, file: string)
    requires SchemeName(scheme) && HostName(host) && PlainPath(dir + "/" + file) && '/' !in file
    requires NoBreaks(scheme + "://" + host + dir + "/" + file)
    ensures var url := scheme + "://" + host + dir + "/" + file;
      ResolvePlugin(VStr(url))
      == if PluginName(file).Some? then Ok((PluginName(file).value, url))
         else Fail(ValueError, NoPluginName + url)
  {
    var path := dir + "/" + file;
    var url := scheme + "://" + host + path;
    assert url == scheme + "://" + host + dir + "/" + file;
    UrlParseAbsolute(scheme, host, path);
    assert url == (scheme + "://" + host + dir) + ['/'] + file;
    LastPartAfter(scheme + "://" + host + dir, file, '/');
    ResolveAbsolute(url, UrlParse(url).value);
  }

  lemma ResolveAbsolute(s: string, u: Url)
    requires UrlParse(s) == Ok(u) && IsAbsUrl(u)
    ensures ResolvePlugin(VStr(s))
      == if PluginName(LastPart(s, '/')).Some? then Ok((PluginName(LastPart(s, '/')).value, s))
         else Fail(ValueError, NoPluginName + s)
  {
  }

  /** When the entries resolve, in order, to `pairs`, the plugins are
      their names in the order of first appearance, each with the URL of
      its last entry. */
  lemma PluginMapResolved(entries: seq<Value>, pairs: seq<(string, string)>)
    requires Traverse(ResolvePlugin, entries) == Ok(pairs)
    ensures PluginMap(entries).Ok?
    ensures Keys(PluginMap(entries).value) == Dedup(Keys(pairs))
    ensures forall i :: 0 <= i < |pairs| && LastOf(pairs, i) ==> Get(PluginMap(entries).value, pairs[i].0) == Some(pairs[i].1)
  {
    FromPairsSpec(pairs);
  }

  /** The first entry that cannot be resolved stops the loop with its
      exception. */
  lemma PluginMapFails(entries: seq<Value>, i: nat)
    requires i < |entries| && ResolvePlugin(entries[i]).Err?
    requires forall j :: 0 <= j < i ==> ResolvePlugin(entries[j]).Ok?
    ensures PluginMap(entries) == Err(ResolvePlugin(entries[i]).error)
  {
    TraverseFirstError(ResolvePlugin, entries, i);
  }

  /** No `linuxdeploy` section, no `plugins` key or an empty one: no
      plugins. */
  lemma PluginsAbsent(config: Value)
    requires config.VMap?
    requires var ld := Get(config.entries, "linuxdeploy");
      ld.None? || (ld.value.VMap? && var p := Get(ld.value.entries, "plugins"); p.None? || p == Some(VNone))
    ensures Plugins(config) == Ok([])
  {
  }

  /** The fetch block of the `i`-th plugin sits at lines `3i` to `3i + 2`. */
  lemma {:induction false} FetchLinesAt(plugins: Dict<string>, arch: string, i: nat)
    requires i < |plugins|
    ensures FetchLines(plugins, arch)[3 * i..3 * i + 3] == FetchBlock(plugins[i].0, plugins[i].1, arch)
    decreases |plugins|
  {
    var n := |plugins| - 1;
    var init := FetchLines(plugins[..n], arch);
    var block := FetchBlock(plugins[n].0, plugins[n].1, arch);
    assert FetchLines(plugins, arch) == init + block;
    if i < n {
      FetchLinesAt(plugins[..n], arch, i);
      assert plugins[..n][i] == plugins[i];
      BlockInPrefix(init, block, i);
    } else {
      assert |init| == 3 * i;
      BlockAtEnd(init, block);
      assert (init + block)[3 * i..3 * i + 3] == block;
    }
  }

  lemma BlockInPrefix(init: seq<string>, block: seq<string>, i: nat)
    requires 3 * i + 3 <= |init|
    ensures (init + block)[3 * i..3 * i + 3] == init[3 * i..3 * i + 3]
  {
  }

  lemma BlockAtEnd(init: seq<string>, block: seq<string>)
    requires |block| == 3
    ensures (init + block)[|init|..|init| + 3] == block
  {
  }

  /** Each plugin's download URL holds no `$ARCH` any more: it has been
      replaced by the architecture everywhere. */
  lemma ArchReplaced(url: string, arch: string)
    requires arch in ValidArchs
    ensures !Occurs(Replace(url, "$ARCH", arch), "$ARCH")
  {
    ReplaceLeavesNone(url, "$ARCH", arch);
  }

  // ---------------------------------------------------------------------
  // The environment

  /** A mapping is exported as it is, under both readings of the source. */
  lemma EnvDictMap(m: Dict<Value>)
    ensures EnvDict(VMap(m)) == Ok(m) && EnvDictAsWritten(VMap(m)) == Ok(m)
  {
  }

  /** The two readings differ only where `dict()` raises `ValueError`. */
  lemma EnvDictAgree(v: Value)
    requires !FailedWith(DictProbe(v), ValueError)
    ensures EnvDictAsWritten(v) == EnvDict(v)
  {
  }

  /** A list of well-formed `KEY=VALUE` strings with distinct keys (the
      first not two characters long, which `dict()` would take for a pair)
      is, as intended, the mapping of its entries in order. */
  lemma EnvListCorrected(items: seq<Value>)
    requires items != [] && AllEntriesOk(items) && Valid(Entries(items))
    requires |items[0].s| != 2
    ensures EnvDict(VList(items)) == Ok(StrDict(Entries(items)))
  {
    forall i | 0 <= i < |items| ensures items[i].VStr? {
      assert ParseEntry(items[i]).Ok?;
    }
    DictProbeStrings(items);
    KvListOutcomes(items);
  }

  /** The same list, as the source is written, fails with `TypeError`:
      `iter(list)` is called on the type, not on the value. */
  lemma EnvListAsWritten(items: seq<Value>)
    requires items != [] && AllEntriesOk(items) && Valid(Entries(items))
    requires |items[0].s| != 2
    ensures EnvDictAsWritten(VList(items)) == Fail(TypeError, "'type' object is not iterable")
  {
    forall i | 0 <= i < |items| ensures items[i].VStr? {
      assert ParseEntry(items[i]).Ok?;
    }
    DictProbeStrings(items);
  }

  /** Without `linuxdeploy: environment` no line is added. */
  lemma EnvLinesAbsent(config: Value)
    requires EnvConfig(config) == Ok(None)
    ensures EnvLines(config) == Ok([])
  {
  }

  /** An environment of string values becomes one export per variable, in
      the order of the mapping, then an empty line. */
  lemma EnvLinesMapping(config: Value, v: Value, env: Dict<Value>)
    requires EnvConfig(config) == Ok(Some(v)) && EnvDict(v) == Ok(env)
    requires forall i :: 0 <= i < |env| ==> env[i].1.VStr?
    ensures EnvLines(config).Ok?
    ensures var lines := EnvLines(config).value;
      |lines| == |env| + 1 && lines[|env|] == ""
      && forall i :: 0 <= i < |env| ==> lines[i] == "export " + Quote(env[i].0) + "=" + Quote(env[i].1.s)
  {
    forall i | 0 <= i < |env| ensures EnvExport(env[i]) == Ok("export " + Quote(env[i].0) + "=" + Quote(env[i].1.s)) {
    }
  }

  /** A value that is set but not a string cannot be quoted: the block
      fails with `TypeError`. */
  lemma EnvLinesRefuses(config: Value, v: Value, env: Dict<Value>, i: nat)
    requires EnvConfig(config) == Ok(Some(v)) && EnvDict(v) == Ok(env)
    requires i < |env| && Truthy(env[i].1) && !env[i].1.VStr?
    ensures EnvLines(config).Err?
  {
    assert EnvExport(env[i]).Err?;
  }

  // ---------------------------------------------------------------------
  // The command

  /** `extra_args` is accepted exactly when it is unset, a string, or a list
      of strings, which are appended in order. */
  lemma ExtraArgsSpec(extra: Value)
    ensures ExtraArgs(extra).Ok?
      <==> extra.VNone? || extra.VStr? || (extra.VList? && forall i :: 0 <= i < |extra.items| ==> extra.items[i].VStr?)
    ensures extra.VStr? ==> ExtraArgs(extra) == Ok([extra.s])
    ensures ExtraArgs(extra).Ok? && extra.VList?
      ==> StrValues(ExtraArgs(extra).value) == extra.items
    ensures !(extra.VNone? || extra.VStr? || extra.VList?) ==> FailedWith(ExtraArgs(extra), ValueError)
  {
    if extra.VList? && ExtraArgs(extra).Ok? {
      var ws := ExtraArgs(extra).value;
      assert forall i :: 0 <= i < |ws| ==> StrValues(ws)[i] == extra.items[i];
    }
  }

  /** The `--plugin` arguments come in pairs, one per plugin, in order. */
  lemma {:induction false} PluginArgsAt(names: seq<string>, i: nat)
    requires i < |names|
    ensures PluginArgs(names)[2 * i] == "--plugin" && PluginArgs(names)[2 * i + 1] == Quote(names[i])
    decreases |names|
  {
    var n := |names| - 1;
    if i < n {
      PluginArgsAt(names[..n], i);
      assert names[..n][i] == names[i];
    }
  }

  /** The command line: the AppImage of the architecture with the fixed
      options, then `--plugin <name>` per plugin, then the extra words, all
      separated by single spaces. */
  lemma LdCommandShape(config: Value, arch: string, plugins: Dict<string>)
    ensures LdCommand(config, arch, plugins).Ok? <==> ExtraWords(config).Ok?
    ensures LdCommand(config, arch, plugins).Ok?
      ==> LdCommand(config, arch, plugins).value
          == "./linuxdeploy-" + arch + ".AppImage" + Prefixed(LdOptions, " ")
             + Prefixed(PluginArgs(Keys(plugins)), " ") + Prefixed(ExtraWords(config).value, " ")
  {
    if ExtraWords(config).Ok? {
      JoinWords(BaseWords(arch), PluginArgs(Keys(plugins)), ExtraWords(config).value);
      assert BaseWords(arch)[1..] == LdOptions;
    }
  }

  lemma JoinWords(base: seq<string>, p: seq<string>, e: seq<string>)
    requires base != []
    ensures Join(base + p + e, " ") == base[0] + Prefixed(base[1..], " ") + Prefixed(p, " ") + Prefixed(e, " ")
  {
    var all := base + p + e;
    JoinPrefixed(all, " ");
    assert all[1..] == base[1..] + (p + e);
    PrefixedAppend(base[1..], p + e, " ");
    PrefixedAppend(p, e, " ");
    var b1, p1, e1 := Prefixed(base[1..], " "), Prefixed(p, " "), Prefixed(e, " ");
    ConcatAssoc(base[0] + b1, p1, e1);
    ConcatAssoc(base[0], b1, p1 + e1);
  }
}
