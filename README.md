# jpon-cli `init`, `Command` and `Package` in Dafny

This project models three parts of the jpon-cli scaffolding tool:

- `Package`: a reference to an npm package. It resolves the version `latest`
  through the registry. It computes where a version sits in the local cache
  (`storeDir/_<name with its first '/' as '_'>@<version>@<name>`). It checks
  whether that copy is on disk, and installs or updates the package through
  the installer.
- `Command`: the lifecycle every subcommand runs. The constructor validates
  the argument list. Then a strict chain of stages runs: runtime version gate,
  argument split, `init`, `exec`. The first stage that throws ends the chain,
  and its error is logged and swallowed.
- `InitCommand`, the `init` subcommand. It reads the project name and the
  `force` flag, and refuses to go on without a template catalog. A non-empty
  working directory is cleared only behind two confirmations. It collects
  the project information from the prompts, then fetches the chosen template
  through a `Package`: installed when absent, updated otherwise.

Each operation is first stated as a function on values, over a `World`: the
paths on disk, the current directory's listing, and logs of registry lookups,
installer runs and prompts. The collaborators (registry, installer, manifest
lookup, version parser, template catalog, home directory) are fields of
`Services`. The classes (`Package`, `InitCommand`, and `Host`, which holds the world)
are then proved against those functions; `Command`, whose base hooks always
throw, has its pipeline stated directly in its methods' contracts. Lemmas state what
the functions promise.

Files:

- `common.dfy`: `Option`, `Result`, and one `Failure` per throw site.
- `environment.dfy`: world, collaborators, host.
- `cache_path.dfy`: cache naming.
- `package.dfy`: the `Package` model.
- `command.dfy`: the `Command` model.
- `project_name.dfy`: the project-name regular expression.
- `init_command.dfy`: the `init` workflow.

## Model

| member | source | states |
|---|---|---|
| Environment.LookupLatest | models/package/lib/index.js:41 | a latest-version lookup is logged; it succeeds exactly for names the registry knows, with the registry's version; it leaves the disk and the installer log alone |
| Environment.RunInstaller | models/package/lib/index.js:71-81 | an installer run is logged with its request; it succeeds exactly when the installer reports success; the disk afterwards is what the installer leaves, whether it succeeded or not |
| Environment.EmptyDir | commands/init/lib/index.js:129 | emptying the working directory empties its listing and removes exactly the paths inside it from the disk; paths outside it and the logs are kept |
| Environment.Host.GetLatestVersion | models/package/lib/index.js:41 | the host's lookup gives the result and the new world that `LookupLatest` describes |
| Environment.Host.Install | models/package/lib/index.js:71-81 | the host's installer call gives the result and the new world that `RunInstaller` describes |
| CacheNaming.IndexOf | models/package/lib/index.js:31 | the first index of a character, or -1 exactly when it is absent; no earlier index holds it |
| CacheNaming.ReplaceFirst | models/package/lib/index.js:31 | `replace` with a one-character pattern keeps the length |
| CacheNaming.ReplaceFirstAbsent | models/package/lib/index.js:31 | without an occurrence the string is unchanged |
| CacheNaming.ReplaceFirstAt | models/package/lib/index.js:31 | when the first occurrence is at i, exactly position i changes, to the replacement |
| CacheNaming.ReplaceFirstReplacesFirst | models/package/lib/index.js:31 | only the occurrence `IndexOf` finds is replaced; every other character is kept |
| CacheNaming.ReplaceFirstSlash | models/package/lib/index.js:31 | for `scope/rest` with no '/' in scope, the prefix is `scope_rest`; later slashes stay |
| CacheNaming.ScopedPrefixExample | models/package/lib/index.js:38-39 | `@jpon-cli/core` has the prefix `@jpon-cli_core` |
| CacheNaming.PrefixOfPlainName | models/package/lib/index.js:31 | a name without '/' is its own prefix |
| CacheNaming.CachePathInjectiveInVersion | models/package/lib/index.js:52-57 | for one store directory and package, different versions have different cache paths |
| CacheNaming.CachePathInjectiveInName | models/package/lib/index.js:52-57 | for one store directory and version, different package names have different cache paths |
| CacheNaming.CachePathInjectiveInStoreDir | models/package/lib/index.js:52-57 | for one package and version, different store directories give different cache paths |
| CacheNaming.NameVersionCollision | models/package/lib/index.js:45-50 | over (name, version) pairs with '@' in them the naming is not injective: `a@a`/`x` and `a`/`a@x@a` share a path |
| PackageModel.Construct | models/package/lib/index.js:15-32 | the constructor succeeds exactly for an object with a package name and then copies its four fields; a falsy argument and a non-object are the two distinct errors |
| PackageModel.PrepareResolvesLatest | models/package/lib/index.js:34-43 | `prepare` fails exactly when the version is `latest` and the registry rejects; on success the version is the resolved one; it looks up the registry only for `latest`, never installs, and only adds a set store directory to the disk |
| PackageModel.PrepareIdempotent | models/package/lib/index.js:40-42 | preparing a reference a second time, at the version the first call settled on, changes nothing and looks nothing up |
| PackageModel.ExistsUnmanaged | models/package/lib/index.js:64-66 | without a store directory, `exists` reports whether the target path is on disk and changes neither the version nor the world |
| PackageModel.ExistsManaged | models/package/lib/index.js:61-63 | with a store directory, `exists` settles on the resolved version and reports whether that version's cache path was on disk before the call |
| PackageModel.InstallUsesResolvedVersion | models/package/lib/index.js:69-82 | `install` calls the installer exactly once, for one package at the resolved version, with the reference's target and store directory; it succeeds exactly when the installer accepts |
| PackageModel.UpdateInstallsIffAbsent | models/package/lib/index.js:84-107 | `update` runs the installer (once, for the registry's latest version) if and only if that version's cache path is absent; it moves the reference to that version on success; a cached latest version never fails |
| PackageModel.Package.constructor | models/package/lib/index.js:22-31 | the fields are copied and the stored prefix is the name's cache prefix |
| PackageModel.Package.New | models/package/lib/index.js:15-32 | `new Package(options)` fails exactly as `Construct` does and otherwise builds a fresh package carrying `Construct`'s fields |
| PackageModel.Package.GetSpecificCacheFilePath | models/package/lib/index.js:52-57 | the path built from the stored prefix is the cache path of the package at the given version |
| PackageModel.Package.CacheFilePath | models/package/lib/index.js:45-50 | the cache path of the current version is the specific cache path at that version |
| PackageModel.Package.Prepare | models/package/lib/index.js:34-43 | result, new version and new world are those of `PrepareSpec` on the old reference and world |
| PackageModel.Package.Exists | models/package/lib/index.js:60-67 | result, new version and new world are those of `ExistsSpec` |
| PackageModel.Package.Install | models/package/lib/index.js:69-82 | result, new version and new world are those of `InstallSpec` |
| PackageModel.Package.Update | models/package/lib/index.js:84-107 | result, new version and new world are those of `UpdateSpec` |
| PackageModel.Package.GetRootFilePath | models/package/lib/index.js:109-130 | null exactly when no manifest directory is found above the search start (the cache path of a managed package, else the target path) or the manifest has no `main`; otherwise the formatted path of `main` in that directory |
| CommandModel.CheckArgv | models/command/lib/index.js:9-19 | the constructor keeps its argument exactly when it is a non-empty array; falsy, non-array and empty are three distinct errors |
| CommandModel.Compare | models/command/lib/index.js:38 | version precedence is zero exactly for equal versions and lies in -1..1 |
| CommandModel.CompareIsTotalOrder | models/command/lib/index.js:38 | precedence is antisymmetric, transitive and total |
| CommandModel.CheckNodeVersion | models/command/lib/index.js:35-43 | the gate throws exactly when the runtime's major version is below 12 |
| CommandModel.SplitArgs | models/command/lib/index.js:44-48 | the positional list followed by the options object is the original list, one shorter |
| CommandModel.Command.constructor | models/command/lib/index.js:19 | the argument list is stored; no stage has run, nothing is logged, the runner is pending |
| CommandModel.Command.Create | models/command/lib/index.js:9-33 | an invalid argument throws with `CheckArgv`'s error; otherwise a fresh command whose runner never resolves: a failed version gate logs only its error and leaves the argument list as given; a passed one splits it as `SplitArgs` does and logs only the base `init`'s error |
| CommandModel.Command.InitArgs | models/command/lib/index.js:44-48 | the new options object and positional list are `SplitArgs` of the old list |
| CommandModel.Command.Init | models/command/lib/index.js:49-51 | the base `init` always throws |
| CommandModel.Command.Exec | models/command/lib/index.js:52-54 | the base `exec` always throws |
| CommandModel.Command.Run | models/command/lib/index.js:20-31 | the stages run in order and stop at the first throw, whose error alone is logged; with the base hooks the runner never resolves |
| ProjectName.LeadingRun | commands/init/lib/index.js:172 | the longest prefix in the leading class: every character in it is in the class, the next one is not |
| ProjectName.AlnumRunThenTail | commands/init/lib/index.js:172 | letters and digits may precede any valid tail |
| ProjectName.TailIsGroups | commands/init/lib/index.js:172 | a valid tail splits into the pattern's groups |
| ProjectName.GroupsIsTail | commands/init/lib/index.js:172 | a sequence of the pattern's groups is a valid tail |
| ProjectName.SkipLeading | commands/init/lib/index.js:172 | a valid tail stays valid from the end of the longest leading run |
| ProjectName.RecognizerMatchesPattern | commands/init/lib/index.js:172 | the deterministic recognizer accepts a name if and only if the regular expression matches it, for either leading class |
| ProjectName.AcceptedDashExample | commands/init/lib/index.js:172 | `my-app` is accepted |
| ProjectName.AcceptedUnderscoreExample | commands/init/lib/index.js:172 | `my_app2` is accepted with the intended class |
| ProjectName.AcceptedUnderscoreExampleAsWritten | commands/init/lib/index.js:172 | `my_app2` is accepted as written too, with `_` inside the leading run |
| ProjectName.AcceptedPlainExample | commands/init/lib/index.js:172 | `app` is accepted |
| ProjectName.RejectedLeadingExamples | commands/init/lib/index.js:167-172 | a name starting with a digit or a dash is rejected |
| ProjectName.RejectedTailExamples | commands/init/lib/index.js:167-172 | a trailing dash and a character outside every class are rejected |
| ProjectName.AsWrittenAcceptsUnderscoreEnds | commands/init/lib/index.js:167-172 | as written, `_app` (not starting with a letter) and `app_` (not ending in a letter or digit) are accepted |
| ProjectName.IntendedRejectsUnderscoreEnds | commands/init/lib/index.js:167-172 | with `[a-zA-Z]`, both are rejected |
| ProjectName.TailCharacters | commands/init/lib/index.js:172 | a valid tail uses only letters, digits and separators, and a non-empty one ends in a letter or digit |
| ProjectName.IntendedNameRules | commands/init/lib/index.js:167-172 | every name the intended rule accepts starts with a letter, ends with a letter or digit, and uses no special character but `-` and `_` |
| ProjectName.DashIsFollowedByLetter | commands/init/lib/index.js:172 | in an accepted name every `-` is followed by a letter |
| ProjectName.DashInTail | commands/init/lib/index.js:172 | in a valid tail every `-` is followed by a letter |
| InitWorkflow.InitName | commands/init/lib/index.js:22 | the project name is the first positional argument if it is truthy, else the empty string |
| InitWorkflow.InitFields | commands/init/lib/index.js:21-26 | `init` reads the name as `InitName`; `force` is true exactly for an options object with a truthy `force`; a missing options object throws |
| InitWorkflow.VisibleEntries | commands/init/lib/index.js:224-226 | an entry is kept exactly when it is listed and is neither a dotfile nor `node_modules` |
| InitWorkflow.IsCwdEmpty | commands/init/lib/index.js:221-228 | the directory is empty exactly when every entry is a dotfile or `node_modules` |
| InitWorkflow.CwdEmptyExamples | commands/init/lib/index.js:221-228 | `.git`, `node_modules`, `.env` count as empty; `.git`, `src` do not |
| InitWorkflow.CreateTemplateChoice | commands/init/lib/index.js:230-235 | one choice per template, in order, valued by its package name and labelled by its display name |
| InitWorkflow.FindTemplate | commands/init/lib/index.js:44-46 | none exactly when no template has the key; otherwise the first template with that package name |
| InitWorkflow.ChosenTemplateIsFound | commands/init/lib/index.js:44-46 | every value the template prompt offers is found in the catalog |
| InitWorkflow.NameFilterMatchesPattern | commands/init/lib/index.js:164-187 | for either leading class, the name prompt accepts exactly what the project-name pattern with that class matches, and keeps it as typed; with the intended class that is a letter first, a letter or digit last, only `-` and `_` as special characters |
| InitWorkflow.VersionFilter | commands/init/lib/index.js:194-203 | the version prompt accepts exactly what the version parser accepts, and keeps the parser's normalised form |
| InitWorkflow.FirstAcceptedIsFirst | commands/init/lib/index.js:158-204 | a prompt settles on nothing exactly when it rejects every answer; otherwise on an accepted answer's value, all earlier answers having been rejected |
| InitWorkflow.ProjectInfoShape | commands/init/lib/index.js:135-219 | the type prompt, then for a project the form, is put; a component gets the empty object; a project gets its type, the first name the pattern with the given leading class matches, a version the parser produced from an answer, and a choice's value; it waits exactly when a project prompt has no acceptable answer |
| InitWorkflow.UnderscoreNameDivergence | commands/init/lib/index.js:158-187 | with `_app` as the only name answer, the rule as written collects the project with that name while the intended rule leaves the prompt waiting |
| InitWorkflow.PrepareFailsOnlyWithoutTemplates | commands/init/lib/index.js:95-131 | `prepare` fails exactly when the catalog is missing or empty, before asking or touching anything; it never calls the registry or the installer, and the disk only loses paths inside the working directory |
| InitWorkflow.PrepareClearsIffConfirmed | commands/init/lib/index.js:104-131 | the directory is cleared if and only if templates exist, it is not empty, the user continued or `force` is set, and the clear was confirmed; clearing empties the listing and removes every path inside the working directory, and otherwise the disk is unchanged |
| InitWorkflow.PrepareAsks | commands/init/lib/index.js:104-133 | the prompts put, in order: the continue question (unless forced) and the clear question (if continuing) for a non-empty directory, then the information prompts if it proceeds |
| InitWorkflow.ForceSkipsOnlyFirstConfirmation | commands/init/lib/index.js:106-131 | with `force`, a non-empty directory gets only the clear question, and is cleared exactly on its answer |
| InitWorkflow.DeclinedIffRefused | commands/init/lib/index.js:104-117 | `prepare` returns nothing exactly when, without `force`, the user declines to continue in a non-empty directory; then only that question was put |
| InitWorkflow.CollectedInfoShape | commands/init/lib/index.js:133-219 | collected information is the empty object for a component; for a project it is full, with a name the pattern with the given leading class matches, a parsed version, and a template the catalog lookup finds |
| InitWorkflow.TemplateRef | commands/init/lib/index.js:47-61 | the template package is managed, named and versioned as the template, targets `~/.jpon-cli/template`, and has its `node_modules` as its store |
| InitWorkflow.AcquireKeepsOnlyCached | commands/init/lib/index.js:62-90 | a package is kept only at a version whose cache path is on disk at the end, differing from the built one at most in its version |
| InitWorkflow.AcquireFailsOnlyInRegistryOrInstaller | commands/init/lib/index.js:62-90 | fetching a template fails only with the registry's rejection for its name or the installer's |
| InitWorkflow.AcquireInstallsWhenAbsent | commands/init/lib/index.js:62-75 | an absent template is installed: the installer runs exactly once, for the resolved version |
| InitWorkflow.AcquireUpdatesWhenPresent | commands/init/lib/index.js:76-89 | a present template is updated: the installer runs only when the registry's latest version is not cached |
| InitWorkflow.DownloadKeepsOnlyCached | commands/init/lib/index.js:42-90 | the empty information fails at once with no lookup; the recorded template is the first with the picked name; a kept package is that template's, managed, with its cached copy on disk |
| InitWorkflow.ExecLogsAtMostOne | commands/init/lib/index.js:27-40 | `exec` logs at most one error, none while a prompt waits, and exactly the missing-template error without templates |
| InitWorkflow.NoDownloadWithoutInfo | commands/init/lib/index.js:29-36 | a declined or waiting `prepare` makes no lookup and no install, and logs nothing; the disk is what `prepare` left, so only paths inside the working directory can be gone |
| InitWorkflow.ExecFindsPickedTemplate | commands/init/lib/index.js:27-46 | for a project the picked template is always found, so the only errors are the registry's or the installer's; a component always fails for want of a template |
| InitWorkflow.InitCommand.constructor | commands/init/lib/index.js:20 | a fresh command on the given base, with none of its own fields set |
| InitWorkflow.InitCommand.Init | commands/init/lib/index.js:21-26 | the name is assigned first, as `InitName` of the positional list, and stays assigned on both paths; `force` is `InitFields`' flag, and on a missing options object the error is returned with `force` unchanged |
| InitWorkflow.InitCommand.GetProjectInfo | commands/init/lib/index.js:135-219 | the answer and new world are those of `ProjectInfoSpec` on the stored catalog's choices, with the leading class as written |
| InitWorkflow.InitCommand.Prepare | commands/init/lib/index.js:93-134 | result and new world are those of `PrepareProjectSpec` with the leading class as written; the catalog is stored exactly when it is non-empty |
| InitWorkflow.InitCommand.DownloadTemplate | commands/init/lib/index.js:42-91 | result, new world and recorded template are those of `DownloadSpec`; the stored package is a fresh one whose reference is the kept one, or unchanged when none is kept |
| InitWorkflow.InitCommand.Acquire | commands/init/lib/index.js:62-90 | result and new world are those of `AcquireSpec`; the package is stored exactly when it is kept |
| InitWorkflow.InitCommand.Exec | commands/init/lib/index.js:27-40 | completion, new world, logged errors, stored information and template are those of `ExecSpec` with the leading class as written; the stored package is unchanged when none is kept, otherwise a fresh one whose reference is the kept one, managed and cached on disk |
| InitWorkflow.InitCommand.ExecDownload | commands/init/lib/index.js:30-39 | the information is stored, and the download's error, if any, is logged, as `DownloadSpec` describes; the stored package is unchanged when none is kept, otherwise a fresh one whose reference is the kept one |
| InitWorkflow.InitCommand.Run | models/command/lib/index.js:20-31 | with this command's hooks: the gate's error alone, every field and the world unchanged; or the split then `init`'s error, with the name assigned and `force`, the `exec` fields and the world unchanged; or all four stages, resolving exactly when `exec` completed (leading class as written), with `exec`'s errors, world, information, template and package |
| InitWorkflow.InitCommand.RunAfterGate | models/command/lib/index.js:23-26 | after a passed gate: the split, then `init` (whose error leaves the name assigned and `force`, the `exec` fields and the world unchanged), then `exec` as `ExecSpec` describes with the `force` `init` read and the leading class as written, including the stored information, template and package |
| InitWorkflow.InitCommand.RunExec | models/command/lib/index.js:25-26 | the `exec` stage runs and the runner resolves exactly when `exec` completed; errors, world, catalog, information, template and package are those `ExecSpec` gives |
| InitWorkflow.InitCommand.Create | commands/init/lib/index.js:238-240 | `init(argv)` throws exactly as the base constructor does, leaving the world alone; otherwise it resolves exactly when the gate passes, `init` succeeds and `exec` completes; the error log and the world are the failed gate's (its error, world unchanged), the failed `init`'s (its error, world unchanged), or `exec`'s, which also gives the stored information, template and package |

## Left out

- I/O is not modelled beyond the world's paths and logs: log messages, colours, the spinner and `sleep`.
- `mkdirpSync` creates parent directories; only the store directory itself is added to the disk.
- `path.resolve` is a plain separator join, without normalisation or absolutisation.
- The working directory's listing (`World.cwd`) is kept beside the set of paths on disk, not derived from it: the model does not state that the listing names exactly the paths directly inside the working directory. Clearing (`EmptyDir`) updates both.
- The version parser (`semver.valid`) is an abstract function of `Services`, and so is the manifest lookup (`pkg-dir` and `require` of `package.json`).
  A manifest that fails to parse is not modelled.
- The runtime version gate compares numeric (major, minor, patch) triples; pre-release tags of the runtime version are not modelled.
- Asynchrony is not modelled. Each promise is awaited in order, as the source awaits them.
  The runner promise is a `resolved` flag, and a prompt still waiting for an acceptable answer is an `exec` that did not complete.
- Answers are the values inquirer hands over after applying prompt defaults: an empty name answer stands for the default `''` (commands/init/lib/index.js:163), and an empty version answer for `'1.0.0'` (commands/init/lib/index.js:193).
- Inquirer's timing of `filter` against `validate` is not modelled.
  Each input prompt is modelled as "the first accepted answer, filtered".
- A template index past the end of the list is read as the list prompt still waiting.
- The template catalog request (`getProjectTemplate`) is a `Services` field.
  A rejecting request is not told apart from a missing catalog: both are `NoTemplates`.
- A `packageVersion` that is undefined is not modelled; versions are strings.
- Inheritance is modelled as composition: `InitCommand` holds its base `Command`.
  The base constructor's pipeline is re-run in `InitCommand.Run` with the subclass hooks.
- Template copying and rendering, and dependency installation after the download, are not in the modelled source.
- `core/cli` and `utils/request` are not part of this model.

## Findings

| source | as written | input that shows it | evidently intended | confidence | as-written member | corrected member |
|---|---|---|---|---|---|---|
| commands/init/lib/index.js:172 | the leading class is `[a-zA-z]`, code points 65 to 122, which admits `[ \ ] ^ _` and the backtick; so a name may start or end with `_`, against the rules in the comments at lines 167-169 | `_app` and `app_` are accepted | `[a-zA-Z]`: a letter first, a letter or digit last, only `-` and `_` as special characters | high (not executed) | ProjectName.AsWrittenAcceptsUnderscoreEnds | ProjectName.IntendedNameRules |

The recognizer and its equivalence with the regular expression are proved for both classes. The prompt and workflow functions take the leading class as a parameter. The class `InitCommand` runs them with the class as written, so the model behaves as the source does (`InitWorkflow.UnderscoreNameDivergence` shows where the two differ). The properties of the intended rule are proved with the intended class.
