# appimagecraft script generation, modelled in Dafny

appimagecraft builds AppImages from a YAML file, `appimagecraft.yml`. It
does not build anything itself. From the configuration it writes a set of
bash scripts into a build directory, and it runs them. This project models
that generation step:

- the root-level validation of the loaded configuration
  (`AppImageCraftYMLParser`);
- the line buffer every script goes through (`BashScriptGenerator`);
- the project-aware prelude that exports `PROJECT_ROOT` and `BUILD_DIR`;
- the builders that write `build-<name>.sh`: CMake (with CPack), qmake,
  autotools and a plain user script;
- the pre-build and post-build hook scripts;
- the AppImage script that fetches linuxdeploy and its plugins and runs it;
- `AllBuildScriptsGenerator`, which writes all of these and then the main
  script `build.sh` that calls them in order;
- the choice of a validator (ShellCheck) for a generated file;
- the helpers of `_util.py`.

Configuration values are the dynamic `Config.Value` (none, booleans,
integers, strings, lists, insertion-ordered mappings). Python's exceptions
are `Errors.Result` failures carrying the exception class. `AttributeError`
on a value of the wrong shape is folded into `TypeError`.

The file system is a `Files.FileSystem` object. Its state is a map from
path to file (text and mode) plus the list of paths written, in order.
Every generator has two forms:

- a method that follows the source step by step on that object;
- a function giving its `Outcome`, that is, the writes it makes and its
  result or exception.

Each method's `ensures` ties it to its function. The lemmas state what the
scripts contain and in which order they are written.

Environment facts are parameters of the model:

- the working directory;
- `platform.machine()`;
- what `glob` finds;
- whether `shellcheck` is installed and what it reports.

`shlex.quote` is modelled together with a reader of POSIX shell words
(section 2.2 of POSIX.1-2017, Shell Command Language). This is how the
quoting is proved lossless.

Where the code and its evident intent differ, the model follows the intent
and a member named `...AsWritten` models the code as it stands. See
"## Findings".

The configuration of a builder (`build: <name>:`) is modelled as held by
the builder. As shipped, the base constructor (`builders/base.py:2`) takes
no argument and stores nothing. The qmake, autotools and script builders
call it with the configuration (`builders/qmake.py:15`,
`builders/autotools.py:13`, `builders/script.py:12`), which raises
`TypeError`, so these three builders cannot be constructed as written. The
model assumes the base keeps the configuration as `_builder_config`, which
is what every builder reads. Other names the source uses but does not
define are modelled as assumptions too; "## Left out" lists each.

## Model

| member | source | states |
|---|---|---|
| Util.AssertNotNone | appimagecraft/_util.py:6-8 | fails exactly on `None`, with `ValueError` |
| Util.AppDirPath | appimagecraft/_util.py:11-12 | the AppDir is the absolute, normalised build directory plus `AppDir`; the working directory plays no part for an absolute build directory |
| Util.ParseEntry | appimagecraft/_util.py:21-24 | an entry is accepted iff it is a string with exactly one `=` and no space before it; the key and value rebuild the entry; a malformed string fails with `ValueError` |
| Util.ConvertKvListToDict | appimagecraft/_util.py:15-31 | the loop computes the specification `KvListToDict` |
| Util.KvFromOk | appimagecraft/_util.py:20-29 | the loop succeeds iff every entry is well formed and no key repeats; then the dict is the entries, one per input, in order |
| Util.KvFromDuplicate | appimagecraft/_util.py:26-27 | with well-formed entries, the only failure is a repeated key, with `KeyError` |
| Util.KvListOutcomes | appimagecraft/_util.py:15-31 | the outcomes for a list, for `None` (`ValueError`) and for the empty list |
| Util.KvRoundTrip | appimagecraft/_util.py:15-31 | a dict with keys free of `=` and spaces and values free of `=` survives the trip through its `KEY=VALUE` list |
| Shell.Quote | appimagecraft/builders/cmake.py:65 | `shlex.quote` leaves a string unchanged exactly when it is non-empty and all safe characters, and never gives an empty word |
| Shell.EscapeIsReplace | appimagecraft/builders/cmake.py:65 | the quote escaping is the `replace` of `'` by `'"'"'` |
| Shell.PyQuote | appimagecraft/builders/cmake.py:65 | a false value quotes as `''`; any other value is accepted iff it is a string |
| Shell.QuoteRoundTrip | appimagecraft/builders/cmake.py:65 | the shell reads every quoted string back as the original |
| Shell.PyQuoteRoundTrip | appimagecraft/builders/autotools.py:47 | every value `shlex.quote` accepts reads back as its text |
| Shell.QuoteChars | appimagecraft/builders/cmake.py:65 | quoting adds only quote characters |
| Paths.PathJoin | appimagecraft/builders/cmake.py:54-55 | `os.path.join` of an absolute second part is that part |
| Paths.JoinAbs | appimagecraft/builders/cmake.py:54-55 | joining onto an absolute path stays absolute |
| Paths.Basename | appimagecraft/builders/cmake.py:132 | a base name holds no `/` |
| Paths.BasenameJoin | appimagecraft/builders/cmake.py:75-132 | the base name of `dir/name` is `name` |
| Paths.NormPathJoin | appimagecraft/_util.py:12 | normalising an absolute path joined with a plain name is joining the name to the normalised path |
| Paths.PathJoinAssoc | appimagecraft/_util.py:12 | joining is associative when the last part is relative |
| Config.PyStrs | appimagecraft/generators/bash_script.py:22-23 | `str()` of every item succeeds iff each one does, giving one text per item in order |
| Config.AsStrings | appimagecraft/generators/appimage_build_script.py:151 | a list converts iff every item is a string, keeping the items |
| Config.DictOfProbe | appimagecraft/builders/qmake.py:61-62 | when `dict()` refuses a value, it raises the exception the probe names |
| Config.DictProbeStrings | appimagecraft/builders/qmake.py:61-63 | `dict()` of a list of strings, one not two characters long, raises `ValueError` |
| Errors.TraverseFirstError | appimagecraft/builders/cmake.py:62-67 | in a loop over items, the first failing item decides the exception |
| Errors.TraverseOk | appimagecraft/builders/cmake.py:62-67 | when every item succeeds, the results are the items' results in order |
| Errors.TraverseFailure | appimagecraft/builders/cmake.py:62-67 | a loop failure is the failure of some item |
| Files.Apply | appimagecraft/generators/bash_script.py:34-40 | after the writes every written path exists with mode 0o755, and no existing file is lost |
| Files.ApplyUntouched | appimagecraft/generators/bash_script.py:34-40 | a path nobody writes keeps its file |
| Files.ApplyTwice | appimagecraft/generators/bash_script.py:34-40 | writing the same script twice is writing it once |
| Files.ApplyThen | appimagecraft/generators/build_scripts.py:164-184 | two generators run in turn leave the concatenation of their writes |
| Files.FileSystem.WriteExecutable | appimagecraft/generators/bash_script.py:34-40 | the file at the path is replaced by the text with mode 0o755, nothing else changes, and the path is logged |
| BashScript.RenderSplit | appimagecraft/generators/bash_script.py:22-23 | rendered lines split at newlines give back the lines |
| BashScript.ScriptTextSplit | appimagecraft/generators/bash_script.py:25-40 | a script reads back as the five header lines followed by the buffered lines |
| BashScript.ExportLines | appimagecraft/builders/qmake.py:72 | two lines per variable (the assumed `export_env_vars`, in the `K=V`, `export K` form of `build_scripts.py:27-31`) |
| BashScript.ExportLinesAt | appimagecraft/builders/qmake.py:72 | variable `i` gets `K=V` then `export K` at lines `2i` and `2i+1`; a quoted value reads back as the configured text |
| BashScript.ScriptGenerator.constructor | appimagecraft/generators/bash_script.py:8-13 | a new generator has its path and an empty buffer |
| BashScript.ScriptGenerator.ProjectAware | appimagecraft/generators/pre_post_build_scripts.py:17 | the assumed `ProjectAwareBashScriptBuilder` starts with the exports of `PROJECT_ROOT` and `BUILD_DIR` |
| BashScript.ProjectPreludeExports | appimagecraft/generators/pre_post_build_scripts.py:17 | that assumed prelude is the assumed `export_env_vars` of the two quoted directories |
| BashScript.ScriptGenerator.AddLines | appimagecraft/generators/bash_script.py:15-16 | the buffer becomes the old lines followed by the new ones |
| BashScript.ScriptGenerator.AddLine | appimagecraft/generators/bash_script.py:18-19 | exactly one line more, at the end, the old lines kept |
| BashScript.ScriptGenerator.ExportEnvVars | appimagecraft/builders/qmake.py:72 | the assumed `export_env_vars`: the export lines are added iff every value can be written; on failure the buffer is unchanged |
| BashScript.ScriptGenerator.BuildFile | appimagecraft/generators/bash_script.py:34-40 | the file at the path becomes the header and the lines, executable; only that path is written |
| BashScript.PrefixError | appimagecraft/builders/qmake.py:72 | a failure on a prefix of the variables is the failure of the whole |
| Builders.SourceDirSpec | appimagecraft/builders/cmake.py:48-57 | an unset or empty source directory is the project root; a relative one is joined to the project root; an absolute one is kept; an absolute root gives an absolute source directory |
| Builders.ScriptOutcomeSpec | appimagecraft/builders/cmake.py:130-132 | a builder writes exactly its own script into the build directory and returns its base name, or writes nothing and fails |
| Builders.ScriptWritten | appimagecraft/builders/cmake.py:130 | the written script reads back as the header and the buffered lines |
| Builders.FinishScript | appimagecraft/builders/cmake.py:130-132 | writing the buffer and returning the base name is the builder's outcome |
| CMake.ValidateArgName | appimagecraft/builders/cmake.py:42-46 | a name is accepted iff it has no space, else `ValueError` |
| CMake.ValidateArgNames | appimagecraft/builders/cmake.py:16-17 | all names are accepted iff none has a space |
| CMake.Construct | appimagecraft/builders/cmake.py:13-17 | construction succeeds iff the variables can be computed and no name has a space |
| CMake.ConstructAsWrittenFails | appimagecraft/builders/cmake.py:13-17 | as written no configuration constructs the builder, while the intended constructor accepts an empty one |
| CMake.ExtraVariablesSpec | appimagecraft/builders/cmake.py:19-35 | the two defaults come first, a user value replaces the default of the same name, user values follow, no name twice |
| CMake.UserVariablesFromList | appimagecraft/builders/cmake.py:25-29 | a `KEY=VALUE` list yields its parsed entries, or is refused when malformed or repeated |
| CMake.UserVariablesOther | appimagecraft/builders/cmake.py:25-33 | unset or false means none; a mapping is taken as it is; a string raises `ValueError`, a number `TypeError` |
| CMake.VarArgSpec | appimagecraft/builders/cmake.py:62-67 | `-DKEY=VALUE` is refused iff the name has a space or the value is true and not a string; the value reads back as its text |
| CMake.ConstructedCommand | appimagecraft/builders/cmake.py:59-72 | after construction the command fails only on a value or the source directory |
| CMake.GenerateCMakeCommand | appimagecraft/builders/cmake.py:59-72 | the loop computes the specification `CMakeCommand` |
| CMake.CPackOnlyFalseSkips | appimagecraft/builders/cmake.py:101-105 | CPack is left out iff `cpack` is missing or exactly `false` |
| CMake.CPackPlainNames | appimagecraft/builders/cmake.py:113-125 | upper-case generator names each get `cpack -V NAME`, in order |
| CMake.PlainNameLine | appimagecraft/builders/cmake.py:113-125 | a non-empty upper-case generator name gives `cpack -V NAME` |
| CMake.AddCPackLines | appimagecraft/builders/cmake.py:101-128 | the generator's buffer grows by the CPack section, or the failure is reported |
| CMake.AddGeneratorLines | appimagecraft/builders/cmake.py:120-125 | the loop adds the generator lines of the specification, or reports its failure and its exception |
| CMake.GenerateBuildScript | appimagecraft/builders/cmake.py:74-132 | the method's writes and result are `BuildScript`'s |
| QMake.EnvSourceMap | appimagecraft/builders/qmake.py:61-62 | a mapping environment is exported as it is (any value `dict()` accepts is exported as the mapping `dict()` makes of it) |
| QMake.EnvSourceList | appimagecraft/builders/qmake.py:61-69 | a well-formed `KEY=VALUE` list with distinct keys, whose first entry is not two characters long (`dict()` would take that for a pair), becomes the mapping of its entries |
| QMake.TryExportEnvVars | appimagecraft/builders/qmake.py:55-75 | the buffer grows by the heading, exports and blank line, or not at all |
| QMake.ProjectFileAbsolute | appimagecraft/builders/qmake.py:41-43 | the project file is absolute whenever the project root is |
| QMake.ProjectFileFound | appimagecraft/builders/qmake.py:33-43 | without a configured file (unset or empty) the first `.pro` file is used, joined to the source directory when relative; with none, `RuntimeError` |
| QMake.ProjectFileConfigured | appimagecraft/builders/qmake.py:31-45 | a configured absolute project file is used as it is; a relative one is joined to the source directory |
| QMake.GenerateBuildScript | appimagecraft/builders/qmake.py:49-103 | the method's writes and result are `BuildScript`'s |
| Autotools.ExtraParamsDefaultFirst | appimagecraft/builders/autotools.py:16-22 | `--prefix=/usr` comes first |
| Autotools.ExtraParamsUnset | appimagecraft/builders/autotools.py:20 | without `configure` or `extra_params`, only the default |
| Autotools.ExtraParamsList | appimagecraft/builders/autotools.py:20-23 | a list is appended after the default, in order |
| Autotools.ExtraParamsMap | appimagecraft/builders/autotools.py:20-23 | a mapping contributes its keys, in order |
| Autotools.QuotedParamsSpec | appimagecraft/builders/autotools.py:46-49 | quoting accepts exactly false values and strings, and each quoted parameter reads back |
| Autotools.ConfigureCommandOk | appimagecraft/builders/autotools.py:43-54 | the command fails iff the source directory, the parameters or a quoting does |
| Autotools.ConfigureCommandShape | appimagecraft/builders/autotools.py:43-54 | `<source>/configure`, then `--prefix=/usr`, then the source directory as the last word |
| Autotools.GenerateConfigureCommand | appimagecraft/builders/autotools.py:43-54 | the loop computes the specification `ConfigureCommand` |
| Autotools.AutogenRunsOnlyWhenAllowed | appimagecraft/builders/autotools.py:73-87 | `autogen.sh` is run iff `allow_insource` is set |
| Autotools.AutogenTestsPath | appimagecraft/builders/autotools.py:76 | the intended block tests for `autogen.sh` at the given path, readable back from the test line |
| Autotools.AutogenWarnings | appimagecraft/builders/autotools.py:82-84 | the intended block warns with two separate commands |
| Autotools.AutogenAsWrittenFindings | appimagecraft/builders/autotools.py:82-84 | as written the test names `{0}` whatever the path, and the two warnings are one line |
| Autotools.GenerateBuildScript | appimagecraft/builders/autotools.py:56-102 | the method's writes and result are `BuildScript`'s |
| ScriptBuilder.CommandsList | appimagecraft/builders/script.py:25 | a list of command strings becomes the script's lines verbatim, in order |
| ScriptBuilder.CommandsMissing | appimagecraft/builders/script.py:25 | without `commands`, `KeyError` and nothing written |
| ScriptBuilder.CommandsString | appimagecraft/builders/script.py:25 | a string is taken character by character, one line each |
| ScriptBuilder.GenerateBuildScript | appimagecraft/builders/script.py:21-28 | the method's writes and result are `BuildScript`'s |
| HookScripts.HookConfig | appimagecraft/generators/pre_post_build_scripts.py:9-13 | no `scripts` section is an empty one |
| HookScripts.InvalidStages | appimagecraft/generators/pre_post_build_scripts.py:24 | exactly the keys that name no stage, in order |
| HookScripts.HooksNone | appimagecraft/generators/pre_post_build_scripts.py:9-13 | no section, no hook script |
| HookScripts.HooksInvalid | appimagecraft/generators/pre_post_build_scripts.py:24-26 | a key naming no stage fails with `ValueError` before anything is written |
| HookScripts.HooksWritten | appimagecraft/generators/pre_post_build_scripts.py:28-34 | a valid section writes `pre_build.sh` (if any), then `post_build.sh` (if any), and nothing else |
| HookScripts.HooksPostFails | appimagecraft/generators/pre_post_build_scripts.py:28-34 | when the `post_build` lines fail, `pre_build.sh` has already been written |
| HookScripts.StageWritesFailed | appimagecraft/generators/pre_post_build_scripts.py:28-34 | once a stage fails, the later ones do nothing |
| HookScripts.StageTextLines | appimagecraft/generators/pre_post_build_scripts.py:16-19 | a hook script reads back as the header, the two exports and the configured lines |
| HookScripts.GenerateHookScripts | appimagecraft/generators/pre_post_build_scripts.py:15-34 | the method's writes and result are `BuildFiles`' |
| AppImageScript.GeneratorConfig | appimagecraft/generators/appimage_build_script.py:12-16 | a missing section reads as an empty mapping |
| AppImageScript.ResolveArchSpec | appimagecraft/generators/appimage_build_script.py:25-39 | exactly `x86_64`, `i386` and their aliases are accepted, each alias giving its architecture |
| AppImageScript.ArchDefault | appimagecraft/generators/appimage_build_script.py:23 | without `arch` the machine's is used |
| AppImageScript.PluginNameSound | appimagecraft/generators/appimage_build_script.py:65 | a captured plugin name is a non-empty run of name characters that the rest of the file name does not continue |
| AppImageScript.PluginNameRelease | appimagecraft/generators/appimage_build_script.py:65 | `linuxdeploy-plugin-<name>-<tag>.<ext>` names its plugin |
| AppImageScript.PluginNameScript | appimagecraft/generators/appimage_build_script.py:65 | `linuxdeploy-plugin-<name>.<ext>` names its plugin |
| AppImageScript.PluginNameBare | appimagecraft/generators/appimage_build_script.py:65 | `linuxdeploy-plugin-<name>` names its plugin |
| AppImageScript.PluginNameNeedsName | appimagecraft/generators/appimage_build_script.py:65 | without a name after the prefix nothing matches |
| AppImageScript.UrlParseAbsolute | appimagecraft/generators/appimage_build_script.py:76-77 | `scheme://host/path` parses into its parts and is an absolute URL |
| AppImageScript.ResolveByName | appimagecraft/generators/appimage_build_script.py:90-96 | a string without `:` is looked up as a plugin name |
| AppImageScript.KnownPluginSpec | appimagecraft/generators/appimage_build_script.py:57-61 | exactly `qt` and `conda` resolve, each to its fixed URL |
| AppImageScript.ResolveUrl | appimagecraft/generators/appimage_build_script.py:79-88 | an absolute URL is named by its file, or refused with `ValueError` when the file name does not match |
| AppImageScript.PluginMapResolved | appimagecraft/generators/appimage_build_script.py:74-98 | resolved entries give their names in order of first appearance, each with its last URL |
| AppImageScript.PluginMapFails | appimagecraft/generators/appimage_build_script.py:74-98 | the first entry that cannot be resolved decides the exception |
| AppImageScript.PluginsAbsent | appimagecraft/generators/appimage_build_script.py:67-73 | no section, no key or an empty key: no plugins |
| AppImageScript.ResolvePlugins | appimagecraft/generators/appimage_build_script.py:63-98 | the loop computes the plugin map of the specification |
| AppImageScript.FetchLinesAt | appimagecraft/generators/appimage_build_script.py:100-108 | plugin `i` is fetched by lines `3i` to `3i+2` |
| AppImageScript.ArchReplaced | appimagecraft/generators/appimage_build_script.py:102 | a plugin URL holds no `$ARCH` once the architecture is put in |
| AppImageScript.AddFetchBlocks | appimagecraft/generators/appimage_build_script.py:100-108 | the buffer grows by the fetch lines of all plugins |
| AppImageScript.EnvDictMap | appimagecraft/generators/appimage_build_script.py:119 | a mapping environment is used as it is under both readings |
| AppImageScript.EnvDictAgree | appimagecraft/generators/appimage_build_script.py:118-127 | the as-written and intended readings differ only where `dict()` raises `ValueError` |
| AppImageScript.EnvListCorrected | appimagecraft/generators/appimage_build_script.py:118-127 | as intended, a well-formed `KEY=VALUE` list with distinct keys, whose first entry is not two characters long, becomes the mapping of its entries |
| AppImageScript.EnvListAsWritten | appimagecraft/generators/appimage_build_script.py:122 | as written, the same list (first entry not two characters long) fails with `TypeError` |
| AppImageScript.EnvLinesAbsent | appimagecraft/generators/appimage_build_script.py:113-116 | without an environment, no line |
| AppImageScript.EnvLinesMapping | appimagecraft/generators/appimage_build_script.py:129-132 | string values give one `export` per variable, in order, then a blank line |
| AppImageScript.EnvLinesRefuses | appimagecraft/generators/appimage_build_script.py:129-130 | a true non-string value fails with `TypeError` |
| AppImageScript.AddEnvironment | appimagecraft/generators/appimage_build_script.py:113-132 | the buffer grows by the environment lines, or the failure is reported |
| AppImageScript.AddExports | appimagecraft/generators/appimage_build_script.py:129-130 | the buffer grows by one `export` line per variable, in order, or the error of the first variable that cannot be exported is returned |
| AppImageScript.ExtraArgsSpec | appimagecraft/generators/appimage_build_script.py:142-151 | accepted iff unset, a string or a list of strings; the words are appended in order |
| AppImageScript.PluginArgsAt | appimagecraft/generators/appimage_build_script.py:137-139 | `--plugin <name>` pairs, one per plugin, in order |
| AppImageScript.LdCommandShape | appimagecraft/generators/appimage_build_script.py:135-151 | the AppImage with its fixed options, then the plugins, then the extra words, separated by spaces |
| AppImageScript.LinuxdeployCommand | appimagecraft/generators/appimage_build_script.py:135-151 | the method computes the specification `LdCommand` |
| AppImageScript.StepFailures | appimagecraft/generators/appimage_build_script.py:20-153 | the first failing step decides the exception |
| AppImageScript.Written | appimagecraft/generators/appimage_build_script.py:153 | a successful run writes its lines to the path and nothing else |
| AppImageScript.BuildFile | appimagecraft/generators/appimage_build_script.py:20-153 | the method's writes and result are `BuildFileOutcome`'s |
| BuildScripts.IsNullBuilderSpec | appimagecraft/generators/build_scripts.py:186-188 | a builder is null iff missing or `null` in any case |
| BuildScripts.BuiltScriptName | appimagecraft/generators/build_scripts.py:155-156 | a built builder is recorded under its name with its script's name |
| BuildScripts.BuilderLoopNoCMake | appimagecraft/generators/build_scripts.py:137-153 | without a `cmake` entry nothing is built or written |
| BuildScripts.BuilderLoopSpec | appimagecraft/generators/build_scripts.py:143-158 | the map is empty or holds the CMake script, which is there only when the section names it |
| BuildScripts.BuilderStepSpec | appimagecraft/generators/build_scripts.py:143-156 | one turn keeps the map as it was or records the CMake script under `cmake` |
| BuildScripts.RunBuilderLoop | appimagecraft/generators/build_scripts.py:141-158 | the loop's writes and map are `BuilderLoop`'s over the section |
| BuildScripts.BuilderScriptsSpec | appimagecraft/generators/build_scripts.py:133-158 | the `build` section must be a mapping; its builder map is as above |
| BuildScripts.GenerateBuilderScripts | appimagecraft/generators/build_scripts.py:133-158 | the loop's writes and map are `BuilderScripts`' |
| BuildScripts.VersionLinesSpec | appimagecraft/generators/build_scripts.py:39-45 | `$VERSION` is the quoted version, else `$(version_command)`, else nothing |
| BuildScripts.VersionGiven | appimagecraft/generators/build_scripts.py:39-41 | a version string is exported as `VERSION=<quoted>`, which the shell reads back as the version |
| BuildScripts.VersionCommandGiven | appimagecraft/generators/build_scripts.py:42-45 | without a version, the version command is exported as `VERSION=$(<command>)` |
| BuildScripts.EnvironmentLinesMapping | appimagecraft/generators/build_scripts.py:49-59 | a mapping environment is exported variable by variable, in order |
| BuildScripts.EnvironmentForms | appimagecraft/generators/build_scripts.py:50-56 | the `KEY=VALUE` list form and the mapping it describes export the same variables |
| BuildScripts.SelectedLinesSpec | appimagecraft/generators/build_scripts.py:77-92 | a null selection calls no builder; otherwise the selected builder must have a script, is called and is removed from the alternatives |
| BuildScripts.AlternativesAreComments | appimagecraft/generators/build_scripts.py:94-107 | every alternative is a comment |
| BuildScripts.AlternativesOffered | appimagecraft/generators/build_scripts.py:94-107 | each non-null builder left is offered with its script |
| BuildScripts.MainLinesOrder | appimagecraft/generators/build_scripts.py:62-114 | the pre-build hook runs before the selected builder, which runs before the post-build hook |
| BuildScripts.MainScriptWrites | appimagecraft/generators/build_scripts.py:117-131 | the AppImage script is written before `build.sh`, which ends with its call; without lines nothing is written |
| BuildScripts.GenerateMainScript | appimagecraft/generators/build_scripts.py:20-131 | the method's writes and result are `MainScript`'s |
| BuildScripts.AllScriptsNoBuildDir | appimagecraft/generators/build_scripts.py:165-166 | no build directory, nothing written |
| BuildScripts.AllScriptsShellcheck | appimagecraft/generators/build_scripts.py:174-182 | `shellcheck` changes only the verdict, never the files |
| BuildScripts.AllScriptsOrder | appimagecraft/generators/build_scripts.py:164-184 | success writes hooks, builder scripts, the AppImage script and `build.sh`, in that order, and returns the path of `build.sh` |
| BuildScripts.AllScriptsAsWrittenFails | appimagecraft/generators/build_scripts.py:160-162 | as written every run fails with `TypeError` before writing |
| BuildScripts.AllScriptsAsWrittenFinding | appimagecraft/generators/build_scripts.py:160-162 | a configuration where the corrected run writes a hook and the as-written one writes nothing |
| BuildScripts.PreBuildOnly | appimagecraft/generators/pre_post_build_scripts.py:15-34 | a section holding only a one-line `pre_build` hook writes that hook script alone |
| BuildScripts.GenerateAllScripts | appimagecraft/generators/build_scripts.py:164-184 | the method's writes and result are `AllScripts`' |
| YmlConfig.CheckNameSpec | appimagecraft/parsers/appimagecraft_yml.py:36-41 | a name passes iff it splits into at least two labels with the first and the last non-empty; otherwise `ValueError` with the fixed message |
| YmlConfig.NameExamples | appimagecraft/parsers/appimagecraft_yml.py:36-41 | `org.example` and `a..b` pass; `.a`, `a.` and `abc` fail |
| YmlConfig.NameWithDot | appimagecraft/parsers/appimagecraft_yml.py:36-40 | a name with an inner dot and none at either end passes |
| YmlConfig.NameEdgeDot | appimagecraft/parsers/appimagecraft_yml.py:38-39 | a name starting or ending with a dot is refused |
| YmlConfig.NameWithoutDot | appimagecraft/parsers/appimagecraft_yml.py:40 | a name without a dot is refused |
| YmlConfig.ValidateSpec | appimagecraft/parsers/appimagecraft_yml.py:26-67 | validation passes iff only known root keys, all required ones, version 1, and a project mapping with a reverse-DNS name |
| YmlConfig.RootKeysRefused | appimagecraft/parsers/appimagecraft_yml.py:46-54 | an unknown root key or a missing required one fails validation |
| YmlConfig.AcceptedContent | appimagecraft/parsers/appimagecraft_yml.py:56-67 | with the root keys right, validation passes iff the version is 1 and the project is a mapping with a reverse-DNS name |
| YmlConfig.ContentCheckSpec | appimagecraft/parsers/appimagecraft_yml.py:56-67 | the version and project checks pass iff the version equals 1 and the project is a mapping whose name is in reverse-DNS form |
| YmlConfig.InvalidKeyFirst | appimagecraft/parsers/appimagecraft_yml.py:46-50 | an unknown root key is reported, before any missing key |
| YmlConfig.MissingKeyReported | appimagecraft/parsers/appimagecraft_yml.py:52-54 | with known keys only, a missing required key is reported |
| YmlConfig.ContentChecks | appimagecraft/parsers/appimagecraft_yml.py:56-64 | a bad version, a non-mapping project and a nameless project each fail with their message |
| YmlConfig.Parser.Open | appimagecraft/parsers/appimagecraft_yml.py:6-14 | a parser exists iff the configuration validates; otherwise the validation error is raised |
| YmlConfig.Parser.Data | appimagecraft/parsers/appimagecraft_yml.py:20-21 | `data()` is the loaded mapping, whose keys are known and include the required ones |
| Validators.MatchLiteral | appimagecraft/validators/util.py:33 | a pattern without wildcards matches exactly itself |
| Validators.MatchStarSuffix | appimagecraft/validators/util.py:33 | `*<literal>` matches exactly the names ending in it |
| Validators.SuitableSpec | appimagecraft/validators/util.py:31-34 | a validator is suitable iff a pattern matches the base name; the directory does not matter |
| Validators.Suitables | appimagecraft/validators/util.py:29-34 | exactly the suitable validators |
| Validators.SelectSpec | appimagecraft/validators/util.py:36-41 | the chosen validator is the only suitable one; `KeyError` iff none; `ValueError` iff two distinct ones |
| Validators.GetValidator | appimagecraft/validators/util.py:17-41 | the nested loop computes the specification `Select` |
| Validators.ShellScriptSuitable | appimagecraft/validators/shellcheck.py:23-25 | ShellCheck takes every `.sh` file in any directory |
| Validators.ShellCheckChoice | appimagecraft/validators/shellcheck.py:23-25 | with ShellCheck alone, `.sh` files get it and a Python file gets `KeyError` |
| Validators.NotFoundMessage | appimagecraft/validators/util.py:38-39 | as written the message does not name the path; the corrected one ends with it |
| Validators.KnownAsWrittenFails | appimagecraft/validators/util.py:9-14 | as written no path gets a validator, while with the exported validators a shell script gets ShellCheck |
| Validators.ValidateOutcomeSpec | appimagecraft/validators/util.py:44-56 | accepted only with a unique suitable validator whose tool is installed and accepts the file |
| Validators.ValidateFile | appimagecraft/validators/util.py:44-56 | the method computes the specification `ValidateOutcome` |

## Left out

- Reading `appimagecraft.yml` is not modelled: the existence check, `open` and the YAML loader. The parser starts from the loaded value.
- Logging is not modelled.
- Floating-point configuration values are not modelled, so a version `1.0` cannot be stated.
- Mapping keys are strings only; other YAML keys are read as their text.
- `str()` of a list or mapping is not modelled; the model fails with `TypeError` where Python would print the container.
- YmlConfig.VersionText: the message for a list or mapping version leaves out its text.
- Python sets have no defined order. The invalid or missing root key and the invalid hook stage named in a message are the first in file order, or in the fixed key order.
- `fnmatch` bracket classes (`[...]`) are not modelled; no known pattern uses them. `os.path.normcase` is the identity on POSIX.
- `urlparse` is modelled for what the plugin test needs. `;` parameters are not modelled.
- `\s` in the plugin name pattern is the whitespace of `Strings.IsSpace`.
- `str.lower` is modelled on ASCII letters only.
- The working directory, `platform.machine()`, the `glob` result, whether `shellcheck` is installed and its verdict are all parameters.
- A generator whose lines fail part-way through a write would leave a truncated file in Python. In the model nothing is written, because every line is computed before the file is opened.
- `from_dict` (it only raises `NotImplementedError`) and the abstract `BuilderBase` and `ValidatorBase` methods are not modelled.
- `get_builder_by_name` in `appimagecraft/builders/__init__.py` is not modelled; the generators use their own map of builders.
- The `del` of the selected builder in `_generate_main_script` is modelled as removal from the map offered as alternatives; nothing else observes it.
- Validators.Known: the validator map is the explicit list of the exported validators. The as-written map is `KnownAsWritten` (see "## Findings").
- AppImageScript.PluginMapResolved is stated for entries that resolve, given as a list of resolved pairs; it does not describe each entry's own resolution.
- The builder constructors: the base constructor (`builders/base.py:2`) takes no configuration, so `super().__init__(config)` in `builders/qmake.py:15`, `builders/autotools.py:13` and `builders/script.py:12` raises `TypeError` and those builders never construct as written. The model assumes the base stores the configuration as `_builder_config` and models each builder's script from there.
- `QMakeBuilder._get_source_dir`: `builders/qmake.py:29` calls it, but neither `QMakeBuilder` nor `BuilderBase` defines it. The model gives it the semantics of `builders/cmake.py:48-57` (`Builders.SourceDir`).
- `ProjectAwareBashScriptBuilder` and `export_env_vars`: `generators/bash_script.py` defines only `BashScriptGenerator`, and `generators/__init__.py:1` and `generators/pre_post_build_scripts.py:5` import names it does not define. The model's project-aware prelude and export lines are assumptions, in the `K=V`, `export K` form of `generators/build_scripts.py:27-31`.
- QMake.EnvSource: when `dict()` accepts the value, the source passes the value itself to the undefined `export_env_vars`; the model passes on the mapping `dict()` makes of it.
- The qmake, autotools and script builders are modelled on their own. `AllBuildScriptsGenerator` never calls them, because its map of builders holds only `cmake`, and the model follows that map.

## Findings

| source | as written | input that shows it | evidently intended | confidence | as-written member | corrected member |
|---|---|---|---|---|---|---|
| appimagecraft/builders/autotools.py:82-84 | the test line keeps `{0}` because `format` is never called, and a missing comma joins the two `echo` lines | any autotools build without `allow_insource` | test for `<source>/autogen.sh` and print two warnings | not executed | Autotools.AutogenAsWrittenFindings | Autotools.AutogenTestsPath |
| appimagecraft/generators/appimage_build_script.py:122 | `iter(list)` is called on the type, which raises `TypeError`, so the `KEY=VALUE` fallback never runs | `linuxdeploy: environment: ["A=1"]` | parse the list with `convert_kv_list_to_dict` | not executed | AppImageScript.EnvListAsWritten | AppImageScript.EnvListCorrected |
| appimagecraft/generators/build_scripts.py:162 | `build_files(build_dir)` omits the project root, a missing argument | any configuration with a build directory | `build_files(project_root_dir, build_dir)` | not executed | BuildScripts.AllScriptsAsWrittenFinding | BuildScripts.AllScriptsOrder |
| appimagecraft/validators/util.py:39 | the `KeyError` message keeps a literal `{}` | the path `x.py` | name the path in the message | not executed | Validators.NotFoundMessage | Validators.SelectSpec |
| appimagecraft/validators/util.py:10-11 | `__all__` is a tuple of names, which has no `remove` | every path, e.g. `build.sh` | map each exported validator class to its patterns | not executed | Validators.KnownAsWrittenFails | Validators.ShellCheckChoice |
| appimagecraft/builders/cmake.py:14 | the base constructor is called without the configuration, so `_builder_config` is never set | any `build: cmake:` section, e.g. an empty one | keep the section as `_builder_config` | not executed | CMake.ConstructAsWrittenFails | CMake.Construct |
