/** The `init` subcommand: it reads the project name and the `force` flag,
    checks the template catalog, guards the clearing of a non-empty working
    directory behind two confirmations, collects the project information
    from the prompts, and fetches the chosen template through a `Package`
    that it installs when absent and updates otherwise.

    Prompt answers are parameters (`Answers`); the catalog, the registry, the
    installer and the disk are the collaborators of `Environment`. The
    workflow is first stated on values, then the class is proved against it. */
module InitWorkflow {
  import opened Common
  import opened Environment
  import opened CacheNaming
  import opened PackageModel
  import opened CommandModel
  import opened ProjectName

  // ---------------------------------------------------------------------
  // `init`: the fields taken from the split argument list

  /** `init`'s project name: the first positional argument when it is
      truthy, and the empty string otherwise. */
  function InitName(argv: seq<ArgValue>): (r: ArgValue)
    ensures Truthy(r) <==> |argv| > 0 && Truthy(argv[0])
    ensures Truthy(r) ==> r == argv[0]
    ensures !Truthy(r) ==> r == Str("")
  {
    if |argv| > 0 && Truthy(argv[0]) then argv[0] else Str("")
  }

  /** `init`: the project name, and `force` as the truthiness of the options
      object's `force`. Reading `force` of a missing options object throws. */
  function InitFields(argv: seq<ArgValue>, cmd: ArgValue): (r: Result<(ArgValue, bool)>)
    ensures r.Err? <==> cmd == Nullish
    ensures r.Err? ==> r.error == CommandOptionsUndefined
    ensures r.Ok? ==> r.value.0 == InitName(argv)
    ensures r.Ok? ==> (r.value.1 <==> cmd == Options(true))
  {
    match cmd
    case Nullish => Err(CommandOptionsUndefined)
    case Str(_) => Ok((InitName(argv), false))
    case Options(force) => Ok((InitName(argv), force))
  }

  // ---------------------------------------------------------------------
  // `isCwdEmpty`

  /** Entries the emptiness check ignores: dotfiles and `node_modules`. */
  predicate IsHidden(entry: string) {
    (|entry| > 0 && entry[0] == '.') || entry == "node_modules"
  }

  /** The directory listing without the ignored entries, in listing order. */
  function VisibleEntries(entries: seq<string>): (r: seq<string>)
    ensures |r| <= |entries|
    ensures forall e :: e in r <==> e in entries && !IsHidden(e)
  {
    if entries == [] then []
    else if IsHidden(entries[0]) then VisibleEntries(entries[1..])
    else [entries[0]] + VisibleEntries(entries[1..])
  }

  /** `isCwdEmpty`: the directory counts as empty exactly when every entry is ignored. */
  function IsCwdEmpty(entries: seq<string>): (r: bool)
    ensures r <==> forall i :: 0 <= i < |entries| ==> IsHidden(entries[i])
  {
    var visible := VisibleEntries(entries);
    assert visible != [] ==> visible[0] in visible;
    |visible| == 0
  }

  /** A listing of only dotfiles and `node_modules` is empty; one ordinary file is not. */
  lemma CwdEmptyExamples()
    ensures IsCwdEmpty([".git", "node_modules", ".env"])
    ensures !IsCwdEmpty([".git", "src"])
  {
    assert !IsHidden("src");
  }

  // ---------------------------------------------------------------------
  // `createTemplateChoice` and the template lookup

  /** One entry of the template list prompt. */
  datatype Choice = Choice(value: string, name: string)

  /** `createTemplateChoice`: one choice per template, in catalog order,
      valued by the package name and labelled by the display name. */
  function CreateTemplateChoice(ts: seq<Template>): (cs: seq<Choice>)
    ensures |cs| == |ts|
    ensures forall i :: 0 <= i < |ts| ==> cs[i].value == ts[i].npmName && cs[i].name == ts[i].name
  {
    if ts == [] then [] else [Choice(ts[0].npmName, ts[0].name)] + CreateTemplateChoice(ts[1..])
  }

  /** `template.find(item => item.npmName === key)`: the first template with that package name. */
  function FindTemplate(ts: seq<Template>, key: string): (r: Option<Template>)
    ensures r.None? <==> forall i :: 0 <= i < |ts| ==> ts[i].npmName != key
    ensures r.Some? ==> exists i :: 0 <= i < |ts| && ts[i] == r.value && (forall j :: 0 <= j < i ==> ts[j].npmName != key)
    ensures r.Some? ==> r.value.npmName == key
  {
    if ts == [] then None
    else if ts[0].npmName == key then Some(ts[0])
    else
      var rest := FindTemplate(ts[1..], key);
      if rest.Some? then
        var i :| 0 <= i < |ts[1..]| && ts[1..][i] == rest.value && (forall j :: 0 <= j < i ==> ts[1..][j].npmName != key);
        assert ts[i + 1] == rest.value && forall j :: 0 <= j < i + 1 ==> ts[j].npmName != key;
        rest
      else rest
  }

  /** Every value the template prompt offers is found again in the catalog. */
  lemma {:induction false} ChosenTemplateIsFound(ts: seq<Template>, i: nat)
    requires i < |ts|
    ensures FindTemplate(ts, CreateTemplateChoice(ts)[i].value).Some?
  {
    var key := CreateTemplateChoice(ts)[i].value;
    assert ts[i].npmName == key;
  }

  // ---------------------------------------------------------------------
  // `getProjectInfo`

  /** The name prompt: its validator is the project-name rule with the given
      leading class (the workflow runs the class as written), and its filter
      the identity. */
  function NameFilter(l: LeadingClass, v: string): Option<string> {
    if IsValidProjectName(l, v) then Some(v) else None
  }

  /** The name prompt accepts exactly the answers the project-name pattern
      matches, and keeps them as typed; with the intended leading class these
      are the names that start with a letter, end with a letter or digit, and
      use no special character but `-` and `_`. */
  lemma NameFilterMatchesPattern(l: LeadingClass, v: string)
    ensures NameFilter(l, v).Some? <==> MatchesPattern(l, v)
    ensures NameFilter(l, v).Some? ==> NameFilter(l, v).value == v
    ensures l == Intended && NameFilter(l, v).Some? ==>
      && IsAlpha(v[0]) && IsAlnum(v[|v| - 1])
      && forall i :: 0 <= i < |v| ==> IsAlnum(v[i]) || IsSeparator(v[i])
  {
    RecognizerMatchesPattern(l, v);
    if l == Intended && IsValidProjectName(l, v) {
      IntendedNameRules(v);
    }
  }

  /** The version prompt: it accepts what the version parser accepts, and
      keeps the parser's normalised form. */
  function VersionFilter(svc: Services, v: string): (r: Option<string>)
    ensures r.Some? <==> IsSet(svc.semverValid(v))
    ensures r.Some? ==> r == svc.semverValid(v)
  {
    if IsSet(svc.semverValid(v)) then svc.semverValid(v) else None
  }

  /** The two validating input prompts. */
  datatype InputPrompt = NamePrompt | VersionPrompt

  /** What an input prompt makes of one answer: the filtered value, or
      nothing when its validator rejects the answer. */
  function Accept(svc: Services, l: LeadingClass, prompt: InputPrompt, v: string): Option<string> {
    match prompt
    case NamePrompt => NameFilter(l, v)
    case VersionPrompt => VersionFilter(svc, v)
  }

  /** The first answer an input prompt accepts; the prompt asks again after
      every rejected answer. */
  function FirstAccepted(svc: Services, l: LeadingClass, prompt: InputPrompt, attempts: seq<string>): Option<string> {
    if attempts == [] then None
    else if Accept(svc, l, prompt, attempts[0]).Some? then Accept(svc, l, prompt, attempts[0])
    else FirstAccepted(svc, l, prompt, attempts[1..])
  }

  /** The prompt settles on nothing exactly when it rejects every answer;
      otherwise on the filtered value of an answer all of whose predecessors
      it rejected. */
  lemma {:induction false} FirstAcceptedIsFirst(svc: Services, l: LeadingClass, prompt: InputPrompt, attempts: seq<string>)
    ensures var r := FirstAccepted(svc, l, prompt, attempts);
      && (r.None? <==> forall i :: 0 <= i < |attempts| ==> Accept(svc, l, prompt, attempts[i]).None?)
      && (r.Some? ==>
           exists i :: 0 <= i < |attempts| && Accept(svc, l, prompt, attempts[i]) == r
             && (forall j :: 0 <= j < i ==> Accept(svc, l, prompt, attempts[j]).None?))
  {
    if attempts != [] && Accept(svc, l, prompt, attempts[0]).None? {
      var rest := FirstAccepted(svc, l, prompt, attempts[1..]);
      FirstAcceptedIsFirst(svc, l, prompt, attempts[1..]);
      if rest.Some? {
        var i :| 0 <= i < |attempts[1..]| && Accept(svc, l, prompt, attempts[1..][i]) == rest
          && forall j :: 0 <= j < i ==> Accept(svc, l, prompt, attempts[1..][j]).None?;
        assert Accept(svc, l, prompt, attempts[i + 1]) == rest;
        forall j | 0 <= j < i + 1 ensures Accept(svc, l, prompt, attempts[j]).None? {
          if j > 0 { assert attempts[j] == attempts[1..][j - 1]; }
        }
      } else {
        forall i | 0 <= i < |attempts| ensures Accept(svc, l, prompt, attempts[i]).None? {
          if i > 0 { assert attempts[i] == attempts[1..][i - 1]; }
        }
      }
    }
  }

  /** The initialisation type chosen in the first prompt. */
  datatype InitType = Project | Component

  /** The collected information: the four fields of a project, or the empty
      object a component gets. */
  datatype ProjectInfo =
    | Full(initType: InitType, projectName: string, projectVersion: string, projectTemplate: string)
    | Empty

  /** How `prepare` ends: the user declined to continue (it returns nothing),
      a prompt is still waiting for an acceptable answer, or the information
      was collected. */
  datatype Prepared = Declined | Waiting | Collected(info: ProjectInfo)

  /** The user's answers: the two confirmations, the type, every answer typed
      into the name and version prompts in order, and the position picked
      in the template list (past its end: nothing picked yet). */
  datatype Answers = Answers(
    ifContinue: bool,
    confirmDelete: bool,
    initType: InitType,
    nameAttempts: seq<string>,
    versionAttempts: seq<string>,
    templateIndex: nat)

  /** The prompts `getProjectInfo` puts: the type, then for a project the form. */
  function InfoQuestions(a: Answers): seq<Question> {
    [TypeQuestion] + (if a.initType == Project then [ProjectQuestions] else [])
  }

  /** `getProjectInfo` against the template choices. */
  function ProjectInfoSpec(svc: Services, l: LeadingClass, choices: seq<Choice>, a: Answers, w: World): Call<Prepared> {
    var w1 := w.(asked := w.asked + [TypeQuestion]);
    if a.initType == Component then Call(Ok(Collected(Empty)), w1)
    else
      var w2 := w1.(asked := w1.asked + [ProjectQuestions]);
      var name := FirstAccepted(svc, l, NamePrompt, a.nameAttempts);
      var version := FirstAccepted(svc, l, VersionPrompt, a.versionAttempts);
      if name.None? || version.None? || a.templateIndex >= |choices| then Call(Ok(Waiting), w2)
      else
        Call(Ok(Collected(Full(Project, name.value, version.value, choices[a.templateIndex].value))), w2)
  }

  /** `getProjectInfo` puts the type prompt and, for a project, the form; a
      component gets the empty object; a project gets its type, the first
      name the project-name pattern matches, a version the version parser
      produced from one of the answers, and the value of one of the choices.
      It waits exactly when a project prompt has no acceptable answer yet. */
  lemma {:induction false} ProjectInfoShape(svc: Services, l: LeadingClass, choices: seq<Choice>, a: Answers, w: World)
    ensures var c := ProjectInfoSpec(svc, l, choices, a, w);
      && c.result.Ok? && !c.result.value.Declined?
      && c.world == w.(asked := w.asked + InfoQuestions(a))
      && (a.initType == Component ==> c.result.value == Collected(Empty))
      && (c.result.value.Collected? && a.initType == Project ==>
           var info := c.result.value.info;
           && info.Full? && info.initType == Project
           && MatchesPattern(l, info.projectName)
           && Some(info.projectName) == FirstAccepted(svc, l, NamePrompt, a.nameAttempts)
           && IsSet(Some(info.projectVersion))
           && (exists i :: 0 <= i < |a.versionAttempts| && svc.semverValid(a.versionAttempts[i]) == Some(info.projectVersion))
           && (exists j :: 0 <= j < |choices| && choices[j].value == info.projectTemplate))
      && (c.result.value == Waiting <==>
           a.initType == Project &&
           (|| FirstAccepted(svc, l, NamePrompt, a.nameAttempts).None?
            || FirstAccepted(svc, l, VersionPrompt, a.versionAttempts).None?
            || a.templateIndex >= |choices|))
  {
    var c := ProjectInfoSpec(svc, l, choices, a, w);
    if c.result.value.Collected? && a.initType == Project {
      var info := c.result.value.info;
      FirstAcceptedIsFirst(svc, l, NamePrompt, a.nameAttempts);
      var k :| 0 <= k < |a.nameAttempts| && Accept(svc, l, NamePrompt, a.nameAttempts[k]) == Some(info.projectName);
      NameFilterMatchesPattern(l, a.nameAttempts[k]);
      FirstAcceptedIsFirst(svc, l, VersionPrompt, a.versionAttempts);
      var i :| 0 <= i < |a.versionAttempts| && Accept(svc, l, VersionPrompt, a.versionAttempts[i]) == Some(info.projectVersion);
      assert svc.semverValid(a.versionAttempts[i]) == Some(info.projectVersion);
      assert choices[a.templateIndex].value == info.projectTemplate;
    }
  }

  /** The leading class decides the workflow: with `_app` as the only name
      answer, the rule as written collects the project while the intended
      rule leaves the name prompt waiting. */
  lemma UnderscoreNameDivergence(svc: Services, choices: seq<Choice>, a: Answers, w: World)
    requires a.initType == Project && a.nameAttempts == ["_app"] && a.templateIndex < |choices|
    requires FirstAccepted(svc, AsWritten, VersionPrompt, a.versionAttempts).Some?
    ensures ProjectInfoSpec(svc, AsWritten, choices, a, w).result.value.Collected?
    ensures ProjectInfoSpec(svc, AsWritten, choices, a, w).result.value.info.projectName == "_app"
    ensures ProjectInfoSpec(svc, Intended, choices, a, w).result == Ok(Waiting)
  {
    AsWrittenAcceptsUnderscoreEnds();
    IntendedRejectsUnderscoreEnds();
    assert Accept(svc, Intended, NamePrompt, a.nameAttempts[0]).None?;
    assert a.nameAttempts[1..] == [];
    assert FirstAccepted(svc, Intended, NamePrompt, a.nameAttempts).None?;
  }

  // ---------------------------------------------------------------------
  // `prepare`

  /** The catalog is present and non-empty. */
  predicate HasTemplates(svc: Services) {
    svc.catalog.Some? && |svc.catalog.value| > 0
  }

  /** The world once the directory gate has been passed: a non-empty
      directory has had the continue question (unless forced) and the clear
      question put, and is cleared on a positive clear answer. */
  function GateWorld(dir: Path, force: bool, a: Answers, w: World): World {
    if IsCwdEmpty(w.cwd) then w
    else
      var w1 := if force then w else w.(asked := w.asked + [ContinueQuestion]);
      var w2 := w1.(asked := w1.asked + [ClearQuestion]);
      if a.confirmDelete then EmptyDir(dir, w2) else w2
  }

  /** `prepare`: no templates is an error before anything else; a non-empty
      directory needs the continue answer (unless forced) and is cleared only
      on the second, clear answer; then the information is collected. */
  function PrepareProjectSpec(svc: Services, l: LeadingClass, force: bool, a: Answers, w: World): Call<Prepared> {
    if !HasTemplates(svc) then Call(Err(NoTemplates), w)
    else if !IsCwdEmpty(w.cwd) && !force && !a.ifContinue then Call(Ok(Declined), w.(asked := w.asked + [ContinueQuestion]))
    else ProjectInfoSpec(svc, l, CreateTemplateChoice(svc.catalog.value), a, GateWorld(svc.workingDir, force, a, w))
  }

  /** `prepare` fails exactly when there are no templates, and then before
      anything is asked or touched; it never calls the registry or the
      installer, and the only paths it removes lie inside the working
      directory. */
  lemma {:induction false} PrepareFailsOnlyWithoutTemplates(svc: Services, l: LeadingClass, force: bool, a: Answers, w: World)
    ensures var c := PrepareProjectSpec(svc, l, force, a, w);
      && (c.result.Err? <==> !HasTemplates(svc))
      && (c.result.Err? ==> c.result.error == NoTemplates && c.world == w)
      && c.world.files <= w.files
      && (forall p :: p in w.files && !Inside(svc.workingDir, p) ==> p in c.world.files)
      && c.world.lookups == w.lookups && c.world.installs == w.installs
  {
    if HasTemplates(svc) && (IsCwdEmpty(w.cwd) || force || a.ifContinue) {
      ProjectInfoShape(svc, l, CreateTemplateChoice(svc.catalog.value), a, GateWorld(svc.workingDir, force, a, w));
    }
  }

  /** The confirmations `prepare` asks for, in order. */
  function ConfirmQuestions(force: bool, cwdEmpty: bool, a: Answers): seq<Question> {
    if cwdEmpty then []
    else (if force then [] else [ContinueQuestion]) + (if force || a.ifContinue then [ClearQuestion] else [])
  }

  /** `prepare` proceeds to the information prompts unless it failed or was declined. */
  predicate Proceeds(svc: Services, force: bool, a: Answers, w: World) {
    HasTemplates(svc) && (IsCwdEmpty(w.cwd) || force || a.ifContinue)
  }

  /** The directory is cleared if and only if templates exist, it is not
      empty, the user continued (or `force` is set) and confirmed the clear;
      clearing empties its listing and removes every path inside it, and
      otherwise the disk is left as it was. */
  lemma PrepareClearsIffConfirmed(svc: Services, l: LeadingClass, force: bool, a: Answers, w: World)
    ensures var c := PrepareProjectSpec(svc, l, force, a, w);
      var cleared := HasTemplates(svc) && !IsCwdEmpty(w.cwd) && (force || a.ifContinue) && a.confirmDelete;
      && c.world.cwd == (if cleared then [] else w.cwd)
      && c.world.files == (if cleared then EmptyDir(svc.workingDir, w).files else w.files)
  {
    if Proceeds(svc, force, a, w) {
      ProjectInfoShape(svc, l, CreateTemplateChoice(svc.catalog.value), a, GateWorld(svc.workingDir, force, a, w));
    }
  }

  /** The prompts `prepare` puts, in order: the confirmations, then the
      information prompts if it proceeds; nothing at all without templates. */
  lemma PrepareAsks(svc: Services, l: LeadingClass, force: bool, a: Answers, w: World)
    ensures PrepareProjectSpec(svc, l, force, a, w).world.asked
         == w.asked
          + (if HasTemplates(svc) then ConfirmQuestions(force, IsCwdEmpty(w.cwd), a) else [])
          + (if Proceeds(svc, force, a, w) then InfoQuestions(a) else [])
  {
    if Proceeds(svc, force, a, w) {
      ProjectInfoShape(svc, l, CreateTemplateChoice(svc.catalog.value), a, GateWorld(svc.workingDir, force, a, w));
      if !IsCwdEmpty(w.cwd) {
        assert ConfirmQuestions(force, false, a) == (if force then [] else [ContinueQuestion]) + [ClearQuestion];
      }
    }
  }

  /** `force` skips only the first confirmation: with templates and a
      non-empty directory, the continue question is not put, the clear
      question still is, and the directory is cleared only on its answer. */
  lemma {:induction false} ForceSkipsOnlyFirstConfirmation(svc: Services, l: LeadingClass, a: Answers, w: World)
    requires HasTemplates(svc) && !IsCwdEmpty(w.cwd)
    ensures var c := PrepareProjectSpec(svc, l, true, a, w);
      && c.world.asked == w.asked + [ClearQuestion] + InfoQuestions(a)
      && (c.world.cwd == [] <==> a.confirmDelete || w.cwd == [])
  {
    PrepareAsks(svc, l, true, a, w);
    PrepareClearsIffConfirmed(svc, l, true, a, w);
  }

  /** `prepare` returns nothing exactly when, without `force`, the user
      declines to continue in a non-empty directory; then only the continue
      question was put and nothing was cleared. */
  lemma {:induction false} DeclinedIffRefused(svc: Services, l: LeadingClass, force: bool, a: Answers, w: World)
    ensures var c := PrepareProjectSpec(svc, l, force, a, w);
      && (c.result == Ok(Declined) <==> HasTemplates(svc) && !IsCwdEmpty(w.cwd) && !force && !a.ifContinue)
      && (c.result == Ok(Declined) ==> c.world == w.(asked := w.asked + [ContinueQuestion]))
  {
    if Proceeds(svc, force, a, w) {
      ProjectInfoShape(svc, l, CreateTemplateChoice(svc.catalog.value), a, GateWorld(svc.workingDir, force, a, w));
    }
  }

  /** What `prepare` collects has the shape the prompts promise: a component
      gets the empty object; a project gets its type, a name the
      project-name pattern matches, a normalised version, and the package
      name of a catalog template. */
  lemma {:induction false} CollectedInfoShape(svc: Services, l: LeadingClass, force: bool, a: Answers, w: World)
    requires PrepareProjectSpec(svc, l, force, a, w).result.Ok?
    requires PrepareProjectSpec(svc, l, force, a, w).result.value.Collected?
    ensures var info := PrepareProjectSpec(svc, l, force, a, w).result.value.info;
      && (a.initType == Component ==> info == Empty)
      && (a.initType == Project ==>
           && info.Full? && info.initType == Project
           && MatchesPattern(l, info.projectName)
           && (exists i :: 0 <= i < |a.versionAttempts| && svc.semverValid(a.versionAttempts[i]) == Some(info.projectVersion))
           && FindTemplate(svc.catalog.value, info.projectTemplate).Some?)
  {
    var ts := svc.catalog.value;
    var choices := CreateTemplateChoice(ts);
    ProjectInfoShape(svc, l, choices, a, GateWorld(svc.workingDir, force, a, w));
    var info := PrepareProjectSpec(svc, l, force, a, w).result.value.info;
    if a.initType == Project {
      var j :| 0 <= j < |choices| && choices[j].value == info.projectTemplate;
      ChosenTemplateIsFound(ts, j);
    }
  }

  // ---------------------------------------------------------------------
  // `downloadTemplate`

  /** Where templates are kept: `~/.jpon-cli/template`. */
  function TemplateTarget(home: Path): Path {
    Join(Join(home, ".jpon-cli"), "template")
  }

  /** The package reference `downloadTemplate` builds for a template: kept
      under `~/.jpon-cli/template`, cached in its `node_modules`. */
  function TemplateRef(home: Path, t: Template): (p: PackageRef)
    ensures Managed(p) && p.packageName == t.npmName && p.packageVersion == t.version
    ensures p.targetPath == Some(TemplateTarget(home))
    ensures p.storeDir == Some(Join(TemplateTarget(home), "node_modules"))
  {
    PackageRef(Some(TemplateTarget(home)), Some(Join(TemplateTarget(home), "node_modules")), t.npmName, t.version)
  }

  /** The outcome of fetching one template package: its result, the
      reference kept (when the cached copy is on disk afterwards), and the
      world afterwards. */
  datatype Acquired = Acquired(result: Result<()>, kept: Option<PackageRef>, world: World)

  /** The install-or-update half of `downloadTemplate`: check for the cached
      copy, install when absent and update otherwise, then check again and
      keep the reference if the copy is there. The final check runs even
      when the install or update failed, and its own failure wins. */
  function AcquireSpec(svc: Services, p: PackageRef, w: World): Acquired {
    var e := ExistsSpec(svc, p, w);
    if e.result.Err? then Acquired(Err(e.result.error), None, e.world)
    else
      var p1 := p.(packageVersion := e.version);
      var op := if !e.result.value then InstallSpec(svc, p1, e.world) else UpdateSpec(svc, p1, e.world);
      var p2 := p1.(packageVersion := op.version);
      var f := ExistsSpec(svc, p2, op.world);
      if f.result.Err? then Acquired(Err(f.result.error), None, f.world)
      else Acquired(op.result, if f.result.value then Some(p2.(packageVersion := f.version)) else None, f.world)
  }

  /** A managed reference is kept only at a version whose cached copy is on
      disk at the end; only its version can differ from the original. */
  lemma {:induction false} AcquireKeepsOnlyCached(svc: Services, p: PackageRef, w: World)
    requires Managed(p)
    ensures var r := AcquireSpec(svc, p, w);
      r.kept.Some? ==>
        && r.kept.value == p.(packageVersion := r.kept.value.packageVersion)
        && CachePath(p.storeDir.value, p.packageName, r.kept.value.packageVersion) in r.world.files
  {
    var e := ExistsSpec(svc, p, w);
    if e.result.Ok? {
      var p1 := p.(packageVersion := e.version);
      var op := if !e.result.value then InstallSpec(svc, p1, e.world) else UpdateSpec(svc, p1, e.world);
      var p2 := p1.(packageVersion := op.version);
      var f := ExistsSpec(svc, p2, op.world);
      assert f.result.Ok? && f.result.value ==> CachePath(p.storeDir.value, p.packageName, f.version) in f.world.files;
    }
  }

  /** Fetching a managed reference fails only in the registry or the installer. */
  lemma {:induction false} AcquireFailsOnlyInRegistryOrInstaller(svc: Services, p: PackageRef, w: World)
    requires Managed(p)
    ensures var r := AcquireSpec(svc, p, w);
      r.result.Err? ==> r.result.error == LatestVersionUnavailable(p.packageName) || r.result.error == InstallFailed
  {
    PrepareResolvesLatest(svc, p, w);
    var e := ExistsSpec(svc, p, w);
    if e.result.Ok? {
      var p1 := p.(packageVersion := e.version);
      PrepareResolvesLatest(svc, p1, e.world);
      var op := if !e.result.value then InstallSpec(svc, p1, e.world) else UpdateSpec(svc, p1, e.world);
      var p2 := p1.(packageVersion := op.version);
      PrepareResolvesLatest(svc, p2, op.world);
    }
  }

  /** A reference whose cached copy is absent is installed at its resolved
      version: the installer runs exactly once, for that version. */
  lemma {:induction false} AcquireInstallsWhenAbsent(svc: Services, p: PackageRef, w: World)
    requires Managed(p)
    requires p.packageVersion == Latest ==> p.packageName in svc.latest
    requires CachePath(p.storeDir.value, p.packageName, Resolved(svc, p)) !in w.files
    ensures AcquireSpec(svc, p, w).world.installs == w.installs + [InstallRequestFor(svc, p, Resolved(svc, p))]
  {
    ExistsManaged(svc, p, w);
    var e := ExistsSpec(svc, p, w);
    PrepareResolvesLatest(svc, p, w);
    var p1 := p.(packageVersion := e.version);
    InstallUsesResolvedVersion(svc, p1, e.world);
    var op := InstallSpec(svc, p1, e.world);
    var p2 := p1.(packageVersion := op.version);
    PrepareResolvesLatest(svc, p2, op.world);
  }

  /** A reference whose cached copy is present is updated instead: the
      installer runs only if the registry's latest version is not cached. */
  lemma {:induction false} AcquireUpdatesWhenPresent(svc: Services, p: PackageRef, w: World)
    requires Managed(p)
    requires p.packageName in svc.latest
    requires CachePath(p.storeDir.value, p.packageName, Resolved(svc, p)) in w.files
    ensures var latest := svc.latest[p.packageName];
      AcquireSpec(svc, p, w).world.installs
        == w.installs
         + (if CachePath(p.storeDir.value, p.packageName, latest) in w.files then [] else [InstallRequestFor(svc, p, latest)])
  {
    ExistsManaged(svc, p, w);
    var e := ExistsSpec(svc, p, w);
    PrepareResolvesLatest(svc, p, w);
    var p1 := p.(packageVersion := e.version);
    UpdateInstallsIffAbsent(svc, p1, e.world);
    CachePathIsNotStoreDir(p.storeDir.value, p.packageName, svc.latest[p.packageName]);
    var op := UpdateSpec(svc, p1, e.world);
    var p2 := p1.(packageVersion := op.version);
    PrepareResolvesLatest(svc, p2, op.world);
  }

  /** The outcome of `downloadTemplate`: its result, the template it found,
      the package reference it keeps, and the world afterwards. */
  datatype Download = Download(
    result: Result<()>,
    templateInfo: Option<Template>,
    kept: Option<PackageRef>,
    world: World)

  /** `downloadTemplate`: find the template the information names, then
      fetch it under the template directory. */
  function DownloadSpec(svc: Services, ts: seq<Template>, info: ProjectInfo, w: World): Download {
    var found := if info.Full? then FindTemplate(ts, info.projectTemplate) else None;
    if found.None? then Download(Err(TemplateInfoUndefined), None, None, w)
    else
      var r := AcquireSpec(svc, TemplateRef(svc.home, found.value), w);
      Download(r.result, found, r.kept, r.world)
  }

  /** `downloadTemplate` records the first template with the picked package
      name (none for the empty information, which fails at once), and keeps
      a package only when it is that template's and its cached copy is on
      disk at the end. */
  lemma {:induction false} DownloadKeepsOnlyCached(svc: Services, ts: seq<Template>, info: ProjectInfo, w: World)
    ensures var d := DownloadSpec(svc, ts, info, w);
      && (info.Empty? ==> d == Download(Err(TemplateInfoUndefined), None, None, w))
      && d.templateInfo == (if info.Full? then FindTemplate(ts, info.projectTemplate) else None)
      && (d.kept.Some? ==>
           && d.templateInfo.Some?
           && d.kept.value.packageName == d.templateInfo.value.npmName
           && Managed(d.kept.value)
           && CachePath(d.kept.value.storeDir.value, d.kept.value.packageName, d.kept.value.packageVersion) in d.world.files)
  {
    if info.Full? && FindTemplate(ts, info.projectTemplate).Some? {
      AcquireKeepsOnlyCached(svc, TemplateRef(svc.home, FindTemplate(ts, info.projectTemplate).value), w);
    }
  }

  // ---------------------------------------------------------------------
  // `exec`

  /** The outcome of `exec`: whether it completed (a prompt still waiting
      means it did not), the errors it caught and logged, the information,
      template and package it stored, and the world afterwards. */
  datatype ExecOutcome = ExecOutcome(
    finished: bool,
    errors: seq<Failure>,
    info: Option<ProjectInfo>,
    templateInfo: Option<Template>,
    kept: Option<PackageRef>,
    world: World)

  /** `exec`: prepare, and download the template whenever information was
      collected; every error is caught and logged, none escapes. */
  function ExecSpec(svc: Services, l: LeadingClass, force: bool, a: Answers, w: World): ExecOutcome
  {
    var p := PrepareProjectSpec(svc, l, force, a, w);
    match p.result
    case Err(e) => ExecOutcome(true, [e], None, None, None, p.world)
    case Ok(Declined) => ExecOutcome(true, [], None, None, None, p.world)
    case Ok(Waiting) => ExecOutcome(false, [], None, None, None, p.world)
    case Ok(Collected(info)) =>
      var d := DownloadSpec(svc, svc.catalog.value, info, p.world);
      ExecOutcome(true, if d.result.Err? then [d.result.error] else [], Some(info), d.templateInfo, d.kept, d.world)
  }

  /** `exec` logs at most one error; it logs none while a prompt is still
      waiting, and without templates it logs exactly the missing-template error. */
  lemma {:induction false} ExecLogsAtMostOne(svc: Services, l: LeadingClass, force: bool, a: Answers, w: World)
    ensures var o := ExecSpec(svc, l, force, a, w);
      && |o.errors| <= 1
      && (!o.finished ==> o.errors == [] && o.info.None?)
      && (!HasTemplates(svc) ==> o.errors == [NoTemplates])
  {
  }

  /** A declined or still-waiting `prepare` downloads nothing: no registry
      lookup, no installer run, and the disk is what `prepare` left, which
      differs only by the paths a confirmed clear removed from the working
      directory. */
  lemma {:induction false} NoDownloadWithoutInfo(svc: Services, l: LeadingClass, force: bool, a: Answers, w: World)
    requires PrepareProjectSpec(svc, l, force, a, w).result in {Ok(Declined), Ok(Waiting)}
    ensures var o := ExecSpec(svc, l, force, a, w);
      && o.world.files == PrepareProjectSpec(svc, l, force, a, w).world.files
      && o.world.files <= w.files
      && (forall p :: p in w.files && !Inside(svc.workingDir, p) ==> p in o.world.files)
      && o.world.lookups == w.lookups && o.world.installs == w.installs
      && o.errors == [] && o.kept.None?
  {
    var p := PrepareProjectSpec(svc, l, force, a, w);
    PrepareFailsOnlyWithoutTemplates(svc, l, force, a, w);
    assert ExecSpec(svc, l, force, a, w).world == p.world;
  }

  /** For a project, the template the user picked is always found, so the
      download can fail only in the registry or the installer; a component's
      empty information always fails for want of a template. */
  lemma {:induction false} ExecFindsPickedTemplate(svc: Services, l: LeadingClass, force: bool, a: Answers, w: World)
    requires PrepareProjectSpec(svc, l, force, a, w).result.Ok?
    requires PrepareProjectSpec(svc, l, force, a, w).result.value.Collected?
    ensures var o := ExecSpec(svc, l, force, a, w);
      && (a.initType == Project ==>
           && o.templateInfo.Some?
           && forall e <- o.errors :: e == LatestVersionUnavailable(o.templateInfo.value.npmName) || e == InstallFailed)
      && (a.initType == Component ==> o.errors == [TemplateInfoUndefined] && o.templateInfo.None?)
  {
    var p := PrepareProjectSpec(svc, l, force, a, w);
    var info := p.result.value.info;
    CollectedInfoShape(svc, l, force, a, w);
    var d := DownloadSpec(svc, svc.catalog.value, info, p.world);
    assert ExecSpec(svc, l, force, a, w)
        == ExecOutcome(true, if d.result.Err? then [d.result.error] else [], Some(info), d.templateInfo, d.kept, d.world);
    DownloadKeepsOnlyCached(svc, svc.catalog.value, info, p.world);
    if a.initType == Project {
      var t := FindTemplate(svc.catalog.value, info.projectTemplate).value;
      AcquireFailsOnlyInRegistryOrInstaller(svc, TemplateRef(svc.home, t), p.world);
    }
  }

  // ---------------------------------------------------------------------
  // The command

  /** The `init` command: the base command's fields (argument list, options
      object, stage trace, error log, runner state) and its own. */
  class InitCommand {
    const base: Command
    var projectName: ArgValue
    var force: bool
    var template: Option<seq<Template>>
    var projectInfo: Option<ProjectInfo>
    var templateInfo: Option<Template>
    var templateNpm: Option<Package>

    constructor (base: Command)
      ensures this.base == base
      ensures projectName == Nullish && !force
      ensures template.None? && projectInfo.None? && templateInfo.None? && templateNpm.None?
    {
      this.base := base;
      projectName := Nullish;
      force := false;
      template := None;
      projectInfo := None;
      templateInfo := None;
      templateNpm := None;
    }

    /** `init`: the project name is assigned first, then `force` is read
      from the options object, which throws when that object is missing;
      the name stays assigned on that error. */
    method Init() returns (r: Result<()>)
      modifies this`projectName, this`force
      ensures projectName == InitName(base.argv)
      ensures var f := InitFields(base.argv, base.cmd);
        && (r.Err? <==> f.Err?)
        && (r.Err? ==> r.error == f.error && force == old(force))
        && (r.Ok? ==> (projectName, force) == f.value)
    {
      projectName := InitName(base.argv);
      if base.cmd == Nullish {
        return Err(CommandOptionsUndefined);
      }
      force := base.cmd == Options(true);
      r := Ok(());
    }

    /** `getProjectInfo`: the type prompt, then for a project the form. */
    method GetProjectInfo(host: Host, a: Answers) returns (r: Prepared)
      requires template.Some?
      modifies host`world
      ensures Call(Ok(r), host.world) == ProjectInfoSpec(host.svc, AsWritten, CreateTemplateChoice(template.value), a, old(host.world))
    {
      host.world := host.world.(asked := host.world.asked + [TypeQuestion]);
      if a.initType == Component {
        return Collected(Empty);
      }
      host.world := host.world.(asked := host.world.asked + [ProjectQuestions]);
      var choices := CreateTemplateChoice(template.value);
      var name := FirstAccepted(host.svc, AsWritten, NamePrompt, a.nameAttempts);
      var version := FirstAccepted(host.svc, AsWritten, VersionPrompt, a.versionAttempts);
      if name.None? || version.None? || a.templateIndex >= |choices| {
        return Waiting;
      }
      r := Collected(Full(Project, name.value, version.value, choices[a.templateIndex].value));
    }

    /** `prepare`: store the catalog, guard the directory, collect the information. */
    method Prepare(host: Host, a: Answers) returns (r: Result<Prepared>)
      modifies this`template, host`world
      ensures Call(r, host.world) == PrepareProjectSpec(host.svc, AsWritten, force, a, old(host.world))
      ensures template == if HasTemplates(host.svc) then host.svc.catalog else old(template)
    {
      var catalog := host.svc.catalog;
      if catalog.None? || |catalog.value| == 0 {
        return Err(NoTemplates);
      }
      template := catalog;
      if !IsCwdEmpty(host.world.cwd) {
        var ifContinue := false;
        if !force {
          host.world := host.world.(asked := host.world.asked + [ContinueQuestion]);
          ifContinue := a.ifContinue;
          if !ifContinue {
            return Ok(Declined);
          }
        }
        if ifContinue || force {
          host.world := host.world.(asked := host.world.asked + [ClearQuestion]);
          if a.confirmDelete {
            host.world := EmptyDir(host.svc.workingDir, host.world);
          }
        }
      }
      var info := GetProjectInfo(host, a);
      r := Ok(info);
    }

    /** `downloadTemplate`: find the template, then fetch it through a
        fresh `Package`. */
    method DownloadTemplate(host: Host) returns (r: Result<()>)
      requires template.Some? && projectInfo.Some?
      modifies this`templateInfo, this`templateNpm, host`world
      ensures var d := DownloadSpec(host.svc, template.value, projectInfo.value, old(host.world));
        && r == d.result && host.world == d.world
        && templateInfo == (if d.templateInfo.Some? then d.templateInfo else old(templateInfo))
        && (|| (d.kept == None && templateNpm == old(templateNpm))
            || (templateNpm.Some? && fresh(templateNpm.value) && d.kept == Some(templateNpm.value.Ref())))
    {
      var info := projectInfo.value;
      var found := if info.Full? then FindTemplate(template.value, info.projectTemplate) else None;
      if found.None? {
        return Err(TemplateInfoUndefined);
      }
      templateInfo := found;
      var pkg := new Package(TemplateRef(host.svc.home, found.value));
      r := Acquire(host, pkg);
    }

    /** The install-or-update half of `downloadTemplate`, on the package it
        built: `templateNpm` is set to it only when its cached copy is on
        disk at the end. */
    method Acquire(host: Host, pkg: Package) returns (r: Result<()>)
      requires pkg.Valid()
      modifies pkg`packageVersion, this`templateNpm, host`world
      ensures var acq := AcquireSpec(host.svc, old(pkg.Ref()), old(host.world));
        && r == acq.result && host.world == acq.world
        && (|| (acq.kept == None && templateNpm == old(templateNpm))
            || (templateNpm == Some(pkg) && acq.kept == Some(pkg.Ref())))
    {
      var present := pkg.Exists(host);
      if present.Err? {
        return Err(present.error);
      }
      if !present.value {
        r := pkg.Install(host);
      } else {
        r := pkg.Update(host);
      }
      var after := pkg.Exists(host);
      if after.Err? {
        return Err(after.error);
      }
      if after.value {
        templateNpm := Some(pkg);
      }
    }

    /** `exec`: prepare and download, logging whatever either throws.
        Returns whether it completed. */
    method Exec(host: Host, a: Answers) returns (finished: bool)
      modifies this`template, this`projectInfo, this`templateInfo, this`templateNpm, base`errorLog, host`world
      ensures var o := ExecSpec(host.svc, AsWritten, old(force), a, old(host.world));
        && finished == o.finished && host.world == o.world
        && base.errorLog == old(base.errorLog) + o.errors
        && projectInfo == (if o.info.Some? then o.info else old(projectInfo))
        && templateInfo == (if o.templateInfo.Some? then o.templateInfo else old(templateInfo))
      ensures HasTemplates(host.svc) ==> template == host.svc.catalog
      ensures !HasTemplates(host.svc) ==> template == old(template)
      ensures var o := ExecSpec(host.svc, AsWritten, old(force), a, old(host.world));
        || (o.kept == None && templateNpm == old(templateNpm))
        || (templateNpm.Some? && fresh(templateNpm.value) && o.kept == Some(templateNpm.value.Ref()))
      ensures templateNpm == old(templateNpm) || (
        && templateNpm.Some? && fresh(templateNpm.value)
        && var p := templateNpm.value.Ref();
           Managed(p) && CachePath(p.storeDir.value, p.packageName, p.packageVersion) in host.world.files)
    {
      ghost var p := PrepareProjectSpec(host.svc, AsWritten, force, a, host.world);
      ghost var o := ExecSpec(host.svc, AsWritten, force, a, host.world);
      var prepared := Prepare(host, a);
      if prepared.Err? {
        assert o == ExecOutcome(true, [prepared.error], None, None, None, p.world);
        base.errorLog := base.errorLog + [prepared.error];
        return true;
      }
      match prepared.value
      case Declined =>
        assert o == ExecOutcome(true, [], None, None, None, p.world);
        finished := true;
      case Waiting =>
        assert o == ExecOutcome(false, [], None, None, None, p.world);
        finished := false;
      case Collected(info) =>
        assert host.world == p.world;
        ghost var d := DownloadSpec(host.svc, host.svc.catalog.value, info, p.world);
        assert o == ExecOutcome(true, if d.result.Err? then [d.result.error] else [], Some(info), d.templateInfo, d.kept, d.world);
        ExecDownload(host, info);
        finished := true;
    }

    /** The download half of `exec`, once information was collected: its
        error, if any, is logged. */
    method ExecDownload(host: Host, info: ProjectInfo)
      requires template == host.svc.catalog && template.Some?
      modifies this`projectInfo, this`templateInfo, this`templateNpm, base`errorLog, host`world
      ensures var d := DownloadSpec(host.svc, host.svc.catalog.value, info, old(host.world));
        && host.world == d.world && projectInfo == Some(info)
        && base.errorLog == old(base.errorLog) + (if d.result.Err? then [d.result.error] else [])
        && templateInfo == (if d.templateInfo.Some? then d.templateInfo else old(templateInfo))
        && (|| (d.kept == None && templateNpm == old(templateNpm))
            || (templateNpm.Some? && fresh(templateNpm.value) && d.kept == Some(templateNpm.value.Ref())))
      ensures templateNpm == old(templateNpm) || (
        && templateNpm.Some? && fresh(templateNpm.value)
        && var p := templateNpm.value.Ref();
           Managed(p) && CachePath(p.storeDir.value, p.packageName, p.packageVersion) in host.world.files)
    {
      DownloadKeepsOnlyCached(host.svc, host.svc.catalog.value, info, host.world);
      projectInfo := Some(info);
      var r := DownloadTemplate(host);
      if r.Err? {
        base.errorLog := base.errorLog + [r.error];
      }
    }

    /** The runner chain with this command's `init` and `exec`: the version
        gate, the argument split, `init`, `exec`. It resolves only when all
        four completed; a throwing stage is logged and ends the chain. */
    method Run(host: Host, runtime: Version, a: Answers)
      requires base.stagesRun == [] && !base.resolved
      modifies this, base, host`world
      ensures base.stagesRun <= Stages
      ensures CheckNodeVersion(runtime).Err? ==>
        && base.stagesRun == [CheckNodeVersionStage]
        && base.errorLog == old(base.errorLog) + [NodeVersionTooLow]
        && !base.resolved && host.world == old(host.world)
        && base.argv == old(base.argv) && base.cmd == old(base.cmd)
        && projectName == old(projectName) && force == old(force)
        && template == old(template) && projectInfo == old(projectInfo)
        && templateInfo == old(templateInfo) && templateNpm == old(templateNpm)
      ensures CheckNodeVersion(runtime).Ok? ==>
        var split := SplitArgs(old(base.argv));
        var f := InitFields(split.1, split.0);
        && (base.cmd, base.argv) == split
        && (f.Err? ==>
             && base.stagesRun == [CheckNodeVersionStage, InitArgsStage, InitStage]
             && base.errorLog == old(base.errorLog) + [CommandOptionsUndefined]
             && projectName == InitName(split.1) && force == old(force)
             && template == old(template) && projectInfo == old(projectInfo)
             && templateInfo == old(templateInfo) && templateNpm == old(templateNpm)
             && !base.resolved && host.world == old(host.world))
        && (f.Ok? ==>
             var o := ExecSpec(host.svc, AsWritten, f.value.1, a, old(host.world));
             && base.stagesRun == Stages
             && (projectName, force) == f.value
             && base.resolved == o.finished
             && base.errorLog == old(base.errorLog) + o.errors
             && host.world == o.world
             && template == (if HasTemplates(host.svc) then host.svc.catalog else old(template))
             && projectInfo == (if o.info.Some? then o.info else old(projectInfo))
             && templateInfo == (if o.templateInfo.Some? then o.templateInfo else old(templateInfo))
             && (|| (o.kept == None && templateNpm == old(templateNpm))
                 || (templateNpm.Some? && fresh(templateNpm.value) && o.kept == Some(templateNpm.value.Ref()))))
    {
      base.stagesRun := base.stagesRun + [CheckNodeVersionStage];
      var gate := CheckNodeVersion(runtime);
      if gate.Err? {
        base.errorLog := base.errorLog + [gate.error];
        return;
      }
      RunAfterGate(host, a);
    }

    /** The stages after a passed version gate: split, `init`, `exec`. */
    method RunAfterGate(host: Host, a: Answers)
      requires base.stagesRun == [CheckNodeVersionStage] && !base.resolved
      modifies this, base, host`world
      ensures
        var split := SplitArgs(old(base.argv));
        var f := InitFields(split.1, split.0);
        && (base.cmd, base.argv) == split
        && (f.Err? ==>
             && base.stagesRun == [CheckNodeVersionStage, InitArgsStage, InitStage]
             && base.errorLog == old(base.errorLog) + [CommandOptionsUndefined]
             && projectName == InitName(split.1) && force == old(force)
             && template == old(template) && projectInfo == old(projectInfo)
             && templateInfo == old(templateInfo) && templateNpm == old(templateNpm)
             && !base.resolved && host.world == old(host.world))
        && (f.Ok? ==>
             var o := ExecSpec(host.svc, AsWritten, f.value.1, a, old(host.world));
             && base.stagesRun == Stages
             && (projectName, force) == f.value
             && base.resolved == o.finished
             && base.errorLog == old(base.errorLog) + o.errors
             && host.world == o.world
             && template == (if HasTemplates(host.svc) then host.svc.catalog else old(template))
             && projectInfo == (if o.info.Some? then o.info else old(projectInfo))
             && templateInfo == (if o.templateInfo.Some? then o.templateInfo else old(templateInfo))
             && (|| (o.kept == None && templateNpm == old(templateNpm))
                 || (templateNpm.Some? && fresh(templateNpm.value) && o.kept == Some(templateNpm.value.Ref()))))
    {
      base.stagesRun := base.stagesRun + [InitArgsStage];
      base.InitArgs();
      base.stagesRun := base.stagesRun + [InitStage];
      var init := Init();
      if init.Err? {
        base.errorLog := base.errorLog + [init.error];
        return;
      }
      assert host.world == old(host.world);
      RunExec(host, a);
    }

    /** The last stage: `exec` runs, and the runner resolves when it completed. */
    method RunExec(host: Host, a: Answers)
      requires base.stagesRun == [CheckNodeVersionStage, InitArgsStage, InitStage]
      modifies this`template, this`projectInfo, this`templateInfo, this`templateNpm, base`stagesRun, base`errorLog, base`resolved, host`world
      ensures var o := ExecSpec(host.svc, AsWritten, old(force), a, old(host.world));
        && base.stagesRun == Stages
        && base.resolved == o.finished
        && base.errorLog == old(base.errorLog) + o.errors
        && host.world == o.world
        && template == (if HasTemplates(host.svc) then host.svc.catalog else old(template))
        && projectInfo == (if o.info.Some? then o.info else old(projectInfo))
        && templateInfo == (if o.templateInfo.Some? then o.templateInfo else old(templateInfo))
        && (|| (o.kept == None && templateNpm == old(templateNpm))
            || (templateNpm.Some? && fresh(templateNpm.value) && o.kept == Some(templateNpm.value.Ref())))
    {
      base.stagesRun := base.stagesRun + [ExecStage];
      var finished := Exec(host, a);
      base.resolved := finished;
    }

    /** `init(argv)`, that is `new InitCommand(argv)`: the base constructor's
        validation, then the runner chain. */
    static method Create(arg: ArgvInput, host: Host, runtime: Version, a: Answers) returns (r: Result<InitCommand>)
      modifies host`world
      ensures r.Err? <==> CheckArgv(arg).Err?
      ensures r.Err? ==> r.error == CheckArgv(arg).error && host.world == old(host.world)
      ensures r.Ok? ==> fresh(r.value) && fresh(r.value.base)
      ensures r.Ok? ==>
        var split := SplitArgs(CheckArgv(arg).value);
        var f := InitFields(split.1, split.0);
        r.value.base.resolved <==>
          CheckNodeVersion(runtime).Ok? && f.Ok? && ExecSpec(host.svc, AsWritten, f.value.1, a, old(host.world)).finished
      ensures r.Ok? && CheckNodeVersion(runtime).Err? ==>
        var c := r.value;
        && c.base.errorLog == [NodeVersionTooLow] && host.world == old(host.world)
        && c.base.argv == CheckArgv(arg).value && c.projectName == Nullish
        && c.template.None? && c.projectInfo.None? && c.templateInfo.None? && c.templateNpm.None?
      ensures r.Ok? && CheckNodeVersion(runtime).Ok? ==>
        var c := r.value;
        var split := SplitArgs(CheckArgv(arg).value);
        var f := InitFields(split.1, split.0);
        && (c.base.cmd, c.base.argv) == split
        && (f.Err? ==>
             && c.base.errorLog == [CommandOptionsUndefined] && host.world == old(host.world)
             && c.projectName == InitName(split.1)
             && c.template.None? && c.projectInfo.None? && c.templateInfo.None? && c.templateNpm.None?)
        && (f.Ok? ==>
             var o := ExecSpec(host.svc, AsWritten, f.value.1, a, old(host.world));
             && c.base.errorLog == o.errors && host.world == o.world
             && (c.projectName, c.force) == f.value
             && c.projectInfo == o.info && c.templateInfo == o.templateInfo
             && (|| (o.kept == None && c.templateNpm.None?)
                 || (c.templateNpm.Some? && fresh(c.templateNpm.value) && o.kept == Some(c.templateNpm.value.Ref()))))
    {
      var checked := CheckArgv(arg);
      if checked.Err? {
        return Err(checked.error);
      }
      var base := new Command(checked.value);
      var c := new InitCommand(base);
      c.Run(host, runtime, a);
      r := Ok(c);
    }
  }
}
