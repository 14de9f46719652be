/** The renderer's project-creation component: its validation wrappers,
    the choice of CMS archive, the two provisioning chains (a new project
    from a CMS archive, and a project from existing files), and the form
    state that builds the `ddev config` arguments.

    Directory listing, extraction, `ddev config`, the hosts-file update and
    the user's answer to the confirmation dialog are inputs, gathered in an
    `Environment`. */
module CreateProject {
  import opened Common
  import opened Strings
  import DdevShell
  import Helpers
  import opened Provisioning

  // ----- validation -----

  /** `validateNewProjectInputs`: all three validators, and the first
      rejection in the order they are listed. */
  function ValidateNewProjectInputs(name: string, cmsType: string, targetPath: string,
                                    access: string -> Result<string>): (r: Option<JsError>)
    ensures r.None? <==> Helpers.ValidateHostname(name).Ok? && Helpers.ValidateCMSType(cmsType).Ok? &&
                         Helpers.ValidateInstallPath(targetPath, access).Ok?
    ensures r.Some? ==> r.value == if Helpers.ValidateHostname(name).Err? then Helpers.ValidateHostname(name).error
                                   else if Helpers.ValidateCMSType(cmsType).Err? then Helpers.ValidateCMSType(cmsType).error
                                   else Helpers.ValidateInstallPath(targetPath, access).error
  {
    var checks := [Helpers.ValidateHostname(name).Failure(), Helpers.ValidateCMSType(cmsType).Failure(),
                   Helpers.ValidateInstallPath(targetPath, access).Failure()];
    FirstFailureOfThree(checks[0], checks[1], checks[2]);
    FirstFailure(checks)
  }

  /** `validateExistingFilesInputs`: name, project folder and docroot. */
  function ValidateExistingFilesInputs(name: string, path: string, docroot: string,
                                       access: string -> Result<string>): (r: Option<JsError>)
    ensures r.None? <==> Helpers.ValidateHostname(name).Ok? && Helpers.ValidateInstallPath(path, access).Ok? &&
                         Helpers.ValidateDocroot(path, docroot, access).Ok?
    ensures r.Some? ==> r.value == if Helpers.ValidateHostname(name).Err? then Helpers.ValidateHostname(name).error
                                   else if Helpers.ValidateInstallPath(path, access).Err? then Helpers.ValidateInstallPath(path, access).error
                                   else Helpers.ValidateDocroot(path, docroot, access).error
  {
    var checks := [Helpers.ValidateHostname(name).Failure(), Helpers.ValidateInstallPath(path, access).Failure(),
                   Helpers.ValidateDocroot(path, docroot, access).Failure()];
    FirstFailureOfThree(checks[0], checks[1], checks[2]);
    FirstFailure(checks)
  }

  // ----- the CMS archive -----

  const ArchiveNotFound: string :=
    "CMS archive not found in `~/.ddev/CMS`. Restarting the UI will attempt to redownload these files."

  /** The text an archive's file name must contain. An unknown type leaves
      the token `undefined` (the `Error` in the default branch is created
      but not thrown), and `indexOf` looks for that word. */
  function CMSToken(cmsType: string): (token: string)
    ensures token == "undefined" <==> cmsType !in ["wordpress", "drupal6", "drupal7", "drupal8"]
    ensures cmsType == "wordpress" ==> token == cmsType
    ensures cmsType in ["drupal6", "drupal7", "drupal8"] ==> token == "drupal-" + cmsType[6..]
  {
    match cmsType
    case "wordpress" => "wordpress"
    case "drupal6" => "drupal-6"
    case "drupal7" => "drupal-7"
    case "drupal8" => "drupal-8"
    case _ => "undefined"
  }

  /** What each turn of the `forEach` over the listed files does to the
      promise, followed by the rejection after the loop. */
  function TarballVerdicts(files: seq<string>, token: string, cmsPath: string): (vs: seq<Settlement<string, JsError>>)
    ensures |vs| == |files| + 1
  {
    seq(|files|, i requires 0 <= i < |files| =>
      if Contains(files[i], token) then Resolved(cmsPath + "/" + files[i]) else Pending)
    + [Rejected(ErrorObject(ArchiveNotFound))]
  }

  /** `getCMSTarballPath`, given what `getLocalDistros` resolves with
      (`None` when it never resolves, or rejects: nothing catches that). */
  function GetCMSTarballPath(cmsType: string, cmsPath: string, distros: Option<seq<string>>): (r: Settlement<string, JsError>)
    ensures distros.None? ==> r.Pending?
    ensures distros.Some? ==> !r.Pending?
    ensures r.Rejected? ==> r == Rejected(ErrorObject(ArchiveNotFound))
    ensures r.Resolved? ==> exists k :: 0 <= k < |distros.value| && Contains(distros.value[k], CMSToken(cmsType)) &&
                                        r.value == cmsPath + "/" + distros.value[k]
  {
    match distros
    case None => Pending
    case Some(files) =>
      var vs := TarballVerdicts(files, CMSToken(cmsType), cmsPath);
      assert vs[|files|].Rejected?;
      FirstSettled(vs)
  }

  /** The first listed file holding the token is chosen; later matches and
      the rejection after the loop are ignored. */
  lemma TarballFirstMatch(cmsType: string, cmsPath: string, files: seq<string>, k: int)
    requires 0 <= k < |files| && Contains(files[k], CMSToken(cmsType))
    requires forall j :: 0 <= j < k ==> !Contains(files[j], CMSToken(cmsType))
    ensures GetCMSTarballPath(cmsType, cmsPath, Some(files)) == Resolved(cmsPath + "/" + files[k])
  {
    var vs := TarballVerdicts(files, CMSToken(cmsType), cmsPath);
    assert forall j :: 0 <= j < k ==> vs[j].Pending?;
    FirstSettledIsFirst(vs, k);
  }

  /** Without a matching file the promise rejects with the not-found error. */
  lemma TarballNotFound(cmsType: string, cmsPath: string, files: seq<string>)
    requires forall j :: 0 <= j < |files| ==> !Contains(files[j], CMSToken(cmsType))
    ensures GetCMSTarballPath(cmsType, cmsPath, Some(files)) == Rejected(ErrorObject(ArchiveNotFound))
  {
    var vs := TarballVerdicts(files, CMSToken(cmsType), cmsPath);
    assert forall j :: 0 <= j < |files| ==> vs[j].Pending?;
    FirstSettledIsFirst(vs, |files|);
  }

  /** The folder the archives are kept in: the first `~` of `~/.ddev/CMS`
      replaced by the home directory. */
  function CMSPath(home: string): string
  {
    DdevShell.ExpandHome("~/.ddev/CMS", home)
  }

  lemma CMSPathUnderHome(home: string)
    ensures CMSPath(home) == home + "/.ddev/CMS"
  {
    assert "~/.ddev/CMS" == "" + "~" + "/.ddev/CMS";
    DdevShell.ExpandFirstTilde("", "/.ddev/CMS", home);
  }

  /** The collaborators the workflows depend on. */
  datatype Environment = Environment(
    home: string,
    access: string -> Result<string>,
    distros: string -> Option<seq<string>>,
    unpack: (string, string) -> StepOutcome,
    existingConfig: string -> Settlement<string, JsError>,
    confirmed: bool,
    configure: string -> StepOutcome,
    hosts: string -> StepOutcome,
    startChunks: seq<string>,
    startCode: Option<int>)

  /** `extractCMSImageToTargetPath`: the archive is unpacked into
      `<targetFolder>/<siteName>`, and that folder is what it resolves with. */
  function ExtractCMSImage(siteName: string, cmsType: string, cmsPath: string, targetFolder: string,
                           env: Environment): (r: Settlement<string, JsError>)
    ensures r.Resolved? ==> r.value == targetFolder + "/" + siteName
    ensures r.Resolved? ==> GetCMSTarballPath(cmsType, cmsPath, env.distros(cmsPath)).Resolved?
    ensures GetCMSTarballPath(cmsType, cmsPath, env.distros(cmsPath)).Rejected? ==>
              r == GetCMSTarballPath(cmsType, cmsPath, env.distros(cmsPath))
    ensures GetCMSTarballPath(cmsType, cmsPath, env.distros(cmsPath)).Pending? ==> r.Pending?
    ensures GetCMSTarballPath(cmsType, cmsPath, env.distros(cmsPath)).Resolved? ==>
              var unpacked := env.unpack(GetCMSTarballPath(cmsType, cmsPath, env.distros(cmsPath)).value,
                                         targetFolder + "/" + siteName);
              (unpacked.Done? ==> r == Resolved(targetFolder + "/" + siteName)) &&
              (unpacked.Failed? ==> r == Rejected(unpacked.error)) &&
              (unpacked.Stalled? ==> r.Pending?)
  {
    match GetCMSTarballPath(cmsType, cmsPath, env.distros(cmsPath))
    case Pending => Pending
    case Rejected(e) => Rejected(e)
    case Resolved(tarball) =>
      var outputPath := targetFolder + "/" + siteName;
      match env.unpack(tarball, outputPath)
      case Done => Resolved(outputPath)
      case Failed(e) => Rejected(e)
      case Stalled => Pending
  }

  // ----- the two chains -----

  /** How a step ends, as the chain sees it. `start` returns nothing, so
      the chain moves past it at once; its effect is in its callbacks. */
  function StepResult(validation: Option<JsError>, extraction: Settlement<string, JsError>,
                      env: Environment, step: Step): StepOutcome
  {
    match step
    case Validate => OutcomeOfCheck(validation)
    case Extract(_) => OutcomeOfPromise(extraction)
    case CheckConfig(path) => OutcomeOfPromise(env.existingConfig(path))
    case Configure(path) => env.configure(path)
    case UpdateHosts(name) => env.hosts(name)
    case Start(_) => Done
  }

  function Outcome(validation: Option<JsError>, extraction: Settlement<string, JsError>,
                   env: Environment): Step -> StepOutcome
  {
    (step: Step) => StepResult(validation, extraction, env, step)
  }

  function NewValidation(name: string, cmsType: string, targetPath: string, env: Environment): Option<JsError>
  {
    ValidateNewProjectInputs(name, cmsType, targetPath, env.access)
  }

  function NewExtraction(name: string, cmsType: string, targetPath: string, env: Environment): Settlement<string, JsError>
  {
    ExtractCMSImage(name, cmsType, CMSPath(env.home), targetPath, env)
  }

  /** The folder `configureSite` and `start` run in: `<targetPath>/<name>`
      for `php`, and otherwise what the extraction resolved with. */
  function NewWorkingPath(name: string, cmsType: string, targetPath: string, env: Environment): string
  {
    if cmsType == "php" then targetPath + "/" + name
    else
      var extraction := NewExtraction(name, cmsType, targetPath, env);
      if extraction.Resolved? then extraction.value else ""
  }

  /** The steps of `addCMS`: extraction only for a type other than `php`. */
  function NewProjectSteps(name: string, cmsType: string, targetPath: string, workingPath: string): seq<Step>
  {
    [Validate] + (if cmsType != "php" then [Extract(targetPath + "/" + name)] else []) +
    [Configure(workingPath), UpdateHosts(name), Start(workingPath)]
  }

  /** Which steps `addCMS` starts, and where it stops. */
  function AddCMS(name: string, cmsType: string, targetPath: string, env: Environment): (r: ChainRun)
    ensures |r.ran| > 0 && r.ran[0] == Validate
  {
    RunChain(NewProjectSteps(name, cmsType, targetPath, NewWorkingPath(name, cmsType, targetPath, env)),
             Outcome(NewValidation(name, cmsType, targetPath, env), NewExtraction(name, cmsType, targetPath, env), env))
  }

  /** A completed `addCMS` went through four steps for `php` and five
      otherwise, the last one being the start. */
  lemma NewProjectCompletedRun(name: string, cmsType: string, targetPath: string, env: Environment)
    requires AddCMS(name, cmsType, targetPath, env).halt.Completed?
    ensures var ran := AddCMS(name, cmsType, targetPath, env).ran;
            |ran| == (if cmsType == "php" then 4 else 5) && ran[|ran| - 1].Start?
  {
  }

  /** Whether `addCMSFromExisting` goes on to run `ddev config`. */
  function ShouldConfigure(targetPath: string, env: Environment): bool
  {
    match env.existingConfig(targetPath)
    case Resolved(messages) => Helpers.CheckIfExistingConfig(messages, env.confirmed)
    case _ => false
  }

  /** The steps of `addCMSFromExisting`: `ddev config` only when the user
      agreed to replace an existing configuration. */
  function ExistingProjectSteps(name: string, targetPath: string, configure: bool): seq<Step>
  {
    [Validate, CheckConfig(targetPath)] + (if configure then [Configure(targetPath)] else []) +
    [UpdateHosts(name), Start(targetPath)]
  }

  function AddCMSFromExisting(name: string, targetPath: string, docroot: string, env: Environment): (r: ChainRun)
    ensures |r.ran| > 0 && r.ran[0] == Validate
    ensures |r.ran| > 1 ==> r.ran[1] == CheckConfig(targetPath)
    ensures r.halt.Completed? ==> r.ran[|r.ran| - 1] == Start(targetPath)
  {
    RunChain(ExistingProjectSteps(name, targetPath, ShouldConfigure(targetPath, env)),
             Outcome(ValidateExistingFilesInputs(name, targetPath, docroot, env.access), Pending, env))
  }

  // ----- what the user sees -----

  datatype Screen = Loading(text: string) | HideLoading | ErrorScreen(message: string) | Navigate(route: string)

  function LoadingFor(step: Step): seq<Screen>
  {
    match step
    case Validate => [Loading("Working...")]
    case Extract(_) => [Loading("Unzipping files")]
    case CheckConfig(_) => []
    case Configure(_) => [Loading("Configuring Project")]
    case UpdateHosts(_) => [Loading("Updating Hosts File")]
    case Start(_) => [Loading("Starting Project")]
  }

  /** The start callbacks: a chunk announcing success opens the project's
      page, one announcing the exit hides the loading screen, and the error
      callback shows what it was given. */
  function StartReaction(name: string, d: DdevShell.Delivery): seq<Screen>
  {
    match d
    case Callback(text) =>
      if Contains(text, "Successfully started") then [Navigate("/project/" + name)]
      else if Contains(text, "Process Exited") then [HideLoading]
      else []
    case ErrorCallback(text) => [ErrorScreen(text)]
  }

  function StartScreens(name: string, ds: seq<DdevShell.Delivery>): seq<Screen>
  {
    if ds == [] then [] else StartReaction(name, ds[0]) + StartScreens(name, ds[1..])
  }

  /** What a chain shows: the loading text of every started step, then the
      error screen if a step rejected, or the reactions to `ddev start`'s
      output if every step went through. */
  function Screens(name: string, run: ChainRun, env: Environment): (shown: seq<Screen>)
    ensures run.halt.FailedAt? ==> |shown| > 0 && shown[|shown| - 1] == ErrorScreen(run.halt.error.ToString())
    ensures !run.halt.Completed? ==> |shown| <= |StepScreens(run.ran, LoadingFor)| + 1
  {
    StepScreens(run.ran, LoadingFor) +
    match run.halt
    case FailedAt(e) => [ErrorScreen(e.ToString())]
    case StalledAt => []
    case Completed => StartScreens(name, DdevShell.Transcript(env.startChunks, env.startCode, true))
  }

  // ----- properties of the chains -----

  /** A rejected validation shows its error and nothing else runs. */
  lemma NewProjectValidationFailure(name: string, cmsType: string, targetPath: string, env: Environment)
    requires NewValidation(name, cmsType, targetPath, env).Some?
    ensures AddCMS(name, cmsType, targetPath, env).ran == [Validate]
    ensures Screens(name, AddCMS(name, cmsType, targetPath, env), env) ==
            [Loading("Working..."), ErrorScreen(NewValidation(name, cmsType, targetPath, env).value.ToString())]
  {
    var validation := NewValidation(name, cmsType, targetPath, env);
    FirstStepRejects(name, cmsType, targetPath, NewWorkingPath(name, cmsType, targetPath, env),
                     validation, NewExtraction(name, cmsType, targetPath, env), env);
    RejectedValidationScreens(name, validation.value, env);
  }

  /** Whatever the extraction and working folder, a rejected validation
      ends the chain at once. */
  lemma FirstStepRejects(name: string, cmsType: string, targetPath: string, workingPath: string,
                         validation: Option<JsError>, extraction: Settlement<string, JsError>, env: Environment)
    requires validation.Some?
    ensures RunChain(NewProjectSteps(name, cmsType, targetPath, workingPath), Outcome(validation, extraction, env)) ==
            ChainRun([Validate], FailedAt(validation.value))
  {
    var steps := NewProjectSteps(name, cmsType, targetPath, workingPath);
    var outcome := Outcome(validation, extraction, env);
    assert steps[0] == Validate;
    assert outcome(Validate) == Failed(validation.value);
    FirstStepFails(steps, outcome);
  }

  lemma RejectedValidationScreens(name: string, e: JsError, env: Environment)
    ensures Screens(name, ChainRun([Validate], FailedAt(e)), env) == [Loading("Working..."), ErrorScreen(e.ToString())]
  {
    assert [Validate][1..] == [];
    assert StepScreens([Validate], LoadingFor) == [Loading("Working...")];
  }

  /** `php` skips extraction; every other type extracts right after
      validation. */
  lemma NewProjectExtraction(name: string, cmsType: string, targetPath: string, env: Environment)
    ensures cmsType == "php" ==> forall s :: s in AddCMS(name, cmsType, targetPath, env).ran ==> !s.Extract?
    ensures cmsType != "php" && |AddCMS(name, cmsType, targetPath, env).ran| > 1 ==>
              AddCMS(name, cmsType, targetPath, env).ran[1] == Extract(targetPath + "/" + name)
  {
    var steps := NewProjectSteps(name, cmsType, targetPath, NewWorkingPath(name, cmsType, targetPath, env));
    var run := AddCMS(name, cmsType, targetPath, env);
    assert run.ran == steps[..|run.ran|];
    forall s | s in run.ran ensures s in steps {
    }
  }

  lemma StepFolder(name: string, cmsType: string, targetPath: string, workingPath: string, s: Step)
    requires s in NewProjectSteps(name, cmsType, targetPath, workingPath) && (s.Configure? || s.Start?)
    ensures s.path == workingPath
  {
  }

  /** For a type other than `php`, a run that gets past extraction had its
      extraction resolve. */
  lemma PastExtraction(name: string, cmsType: string, targetPath: string, env: Environment)
    requires cmsType != "php" && |AddCMS(name, cmsType, targetPath, env).ran| > 2
    ensures NewExtraction(name, cmsType, targetPath, env).Resolved?
  {
    var extraction := NewExtraction(name, cmsType, targetPath, env);
    var steps := NewProjectSteps(name, cmsType, targetPath, NewWorkingPath(name, cmsType, targetPath, env));
    var outcome := Outcome(NewValidation(name, cmsType, targetPath, env), extraction, env);
    var run := RunChain(steps, outcome);
    assert run.ran[1] == steps[1];
    assert outcome(run.ran[1]).Done?;
  }

  /** The `k`-th step started, when it is `ddev config` or `ddev start`,
      runs in `<targetPath>/<name>`. */
  lemma StartedStepFolder(name: string, cmsType: string, targetPath: string, env: Environment, k: int)
    requires 0 <= k < |AddCMS(name, cmsType, targetPath, env).ran|
    requires AddCMS(name, cmsType, targetPath, env).ran[k].Configure? || AddCMS(name, cmsType, targetPath, env).ran[k].Start?
    ensures AddCMS(name, cmsType, targetPath, env).ran[k].path == targetPath + "/" + name
  {
    var wp := NewWorkingPath(name, cmsType, targetPath, env);
    var steps := NewProjectSteps(name, cmsType, targetPath, wp);
    var run := AddCMS(name, cmsType, targetPath, env);
    assert run.ran == steps[..|run.ran|];
    assert steps[k] == run.ran[k];
    StepFolder(name, cmsType, targetPath, wp, run.ran[k]);
    if cmsType != "php" {
      assert k >= 2;
      PastExtraction(name, cmsType, targetPath, env);
    }
  }

  /** Either way `ddev config` and `ddev start` run in `<targetPath>/<name>`,
      because the extraction resolves with the folder it unpacked into. */
  lemma NewProjectFolder(name: string, cmsType: string, targetPath: string, env: Environment)
    ensures forall s :: s in AddCMS(name, cmsType, targetPath, env).ran && (s.Configure? || s.Start?) ==>
              s.path == targetPath + "/" + name
  {
    var ran := AddCMS(name, cmsType, targetPath, env).ran;
    forall s | s in ran && (s.Configure? || s.Start?) ensures s.path == targetPath + "/" + name {
      var k :| 0 <= k < |ran| && ran[k] == s;
      StartedStepFolder(name, cmsType, targetPath, env, k);
    }
  }

  /** The first step that rejects is the last one started, and its error
      is the last thing shown. */
  lemma NewProjectStopsAtFailure(name: string, cmsType: string, targetPath: string, env: Environment, k: int)
    requires var steps := NewProjectSteps(name, cmsType, targetPath, NewWorkingPath(name, cmsType, targetPath, env));
             var outcome := Outcome(NewValidation(name, cmsType, targetPath, env), NewExtraction(name, cmsType, targetPath, env), env);
             0 <= k < |steps| && outcome(steps[k]).Failed? && forall j :: 0 <= j < k ==> outcome(steps[j]).Done?
    ensures var steps := NewProjectSteps(name, cmsType, targetPath, NewWorkingPath(name, cmsType, targetPath, env));
            var outcome := Outcome(NewValidation(name, cmsType, targetPath, env), NewExtraction(name, cmsType, targetPath, env), env);
            var run := AddCMS(name, cmsType, targetPath, env);
            var shown := Screens(name, run, env);
            run.ran == steps[..k + 1] && run.halt == FailedAt(outcome(steps[k]).error) &&
            shown[|shown| - 1] == ErrorScreen(outcome(steps[k]).error.ToString())
  {
    var steps := NewProjectSteps(name, cmsType, targetPath, NewWorkingPath(name, cmsType, targetPath, env));
    var outcome := Outcome(NewValidation(name, cmsType, targetPath, env), NewExtraction(name, cmsType, targetPath, env), env);
    NothingAfterFailure(steps, outcome, k);
    ReachedAfterSuccesses(steps, outcome, k);
  }

  /** `ddev config` runs for an existing project only when an existing
      configuration was reported and the user agreed; the hosts-file update
      and `ddev start` follow either way. */
  lemma ExistingProjectConfigureGate(name: string, targetPath: string, docroot: string, env: Environment)
    ensures Configure(targetPath) in AddCMSFromExisting(name, targetPath, docroot, env).ran ==>
              env.existingConfig(targetPath).Resolved? && env.confirmed &&
              Contains(env.existingConfig(targetPath).value, "existing configuration")
    ensures ValidateExistingFilesInputs(name, targetPath, docroot, env.access).None? &&
            env.existingConfig(targetPath).Resolved? &&
            (ShouldConfigure(targetPath, env) ==> env.configure(targetPath).Done?) &&
            env.hosts(name).Done? ==>
              AddCMSFromExisting(name, targetPath, docroot, env).halt.Completed? &&
              Start(targetPath) in AddCMSFromExisting(name, targetPath, docroot, env).ran
  {
    if Configure(targetPath) in AddCMSFromExisting(name, targetPath, docroot, env).ran {
      ConfigureNeedsConfirmation(name, targetPath, docroot, env);
    }
    if ValidateExistingFilesInputs(name, targetPath, docroot, env.access).None? &&
       env.existingConfig(targetPath).Resolved? &&
       (ShouldConfigure(targetPath, env) ==> env.configure(targetPath).Done?) &&
       env.hosts(name).Done? {
      ExistingProjectCompletes(name, targetPath, docroot, env);
    }
  }

  lemma ConfigureNeedsConfirmation(name: string, targetPath: string, docroot: string, env: Environment)
    requires Configure(targetPath) in AddCMSFromExisting(name, targetPath, docroot, env).ran
    ensures ShouldConfigure(targetPath, env)
  {
    var steps := ExistingProjectSteps(name, targetPath, ShouldConfigure(targetPath, env));
    var run := AddCMSFromExisting(name, targetPath, docroot, env);
    var k :| 0 <= k < |run.ran| && run.ran[k] == Configure(targetPath);
    assert steps[k] == Configure(targetPath);
  }

  lemma ExistingProjectCompletes(name: string, targetPath: string, docroot: string, env: Environment)
    requires ValidateExistingFilesInputs(name, targetPath, docroot, env.access).None?
    requires env.existingConfig(targetPath).Resolved?
    requires ShouldConfigure(targetPath, env) ==> env.configure(targetPath).Done?
    requires env.hosts(name).Done?
    ensures AddCMSFromExisting(name, targetPath, docroot, env).halt.Completed?
    ensures Start(targetPath) in AddCMSFromExisting(name, targetPath, docroot, env).ran
  {
    var steps := ExistingProjectSteps(name, targetPath, ShouldConfigure(targetPath, env));
    var outcome := Outcome(ValidateExistingFilesInputs(name, targetPath, docroot, env.access), Pending, env);
    forall k | 0 <= k < |steps| ensures outcome(steps[k]).Done? {
    }
    assert steps[|steps| - 1] == Start(targetPath);
  }

  /** Reactions to `ddev start`'s chunks, one after another. */
  lemma {:induction false} ChunkReactions(name: string, chunks: seq<string>)
    ensures Navigate("/project/" + name) in StartScreens(name, DdevShell.ChunkDeliveries(chunks, true)) <==>
            exists k :: 0 <= k < |chunks| && Contains(chunks[k], "Successfully started")
    ensures forall x :: x in StartScreens(name, DdevShell.ChunkDeliveries(chunks, true)) ==> !x.ErrorScreen?
    decreases |chunks|
  {
    if chunks != [] {
      var ds := DdevShell.ChunkDeliveries(chunks, true);
      assert ds[1..] == DdevShell.ChunkDeliveries(chunks[1..], true);
      ChunkReactions(name, chunks[1..]);
      if exists k :: 0 <= k < |chunks[1..]| && Contains(chunks[1..][k], "Successfully started") {
        var k :| 0 <= k < |chunks[1..]| && Contains(chunks[1..][k], "Successfully started");
        assert chunks[k + 1] == chunks[1..][k];
      }
      if exists k :: 0 <= k < |chunks| && Contains(chunks[k], "Successfully started") {
        var k :| 0 <= k < |chunks| && Contains(chunks[k], "Successfully started");
        if k > 0 { assert chunks[1..][k - 1] == chunks[k]; }
      }
    }
  }

  lemma {:induction false} StartScreensAppend(name: string, a: seq<DdevShell.Delivery>, b: seq<DdevShell.Delivery>)
    ensures StartScreens(name, a + b) == StartScreens(name, a) + StartScreens(name, b)
    decreases |a|
  {
    if a == [] {
      assert a + b == b;
    } else {
      assert (a + b)[1..] == a[1..] + b;
      StartScreensAppend(name, a[1..], b);
    }
  }

  /** The exit announcement mentions the exit and not a start. */
  lemma ExitedMessageHidesLoading()
    ensures Contains(DdevShell.ExitedMessage, "Process Exited")
    ensures !Contains(DdevShell.ExitedMessage, "Successfully started")
  {
    IndexOfAtStart("Process Exited", " With Code 0");
    assert DdevShell.ExitedMessage == "Process Exited" + " With Code 0";
    forall j | true ensures !OccursAt(DdevShell.ExitedMessage, "Successfully started", j) {
      if 0 <= j && j + 20 <= |DdevShell.ExitedMessage| {
        assert DdevShell.ExitedMessage[j] != 'S';
        assert DdevShell.ExitedMessage[j..j + 20][0] == DdevShell.ExitedMessage[j];
      }
    }
  }

  /** Once the chain reaches `ddev start`, the project's page opens exactly
      when some chunk announces success; a clean exit then hides the
      loading screen, and any other exit shows all the output as an error. */
  lemma StartOutcome(name: string, chunks: seq<string>, code: Option<int>)
    ensures var shown := StartScreens(name, DdevShell.Transcript(chunks, code, true));
            (Navigate("/project/" + name) in shown <==> exists k :: 0 <= k < |chunks| && Contains(chunks[k], "Successfully started")) &&
            |shown| > 0 && shown[|shown| - 1] == (if code == Some(0) then HideLoading else ErrorScreen(Concat(chunks)))
  {
    var ds := DdevShell.ChunkDeliveries(chunks, true);
    var last := DdevShell.ExitDelivery(code, true, Concat(chunks));
    StartScreensAppend(name, ds, [last]);
    ChunkReactions(name, chunks);
    ExitedMessageHidesLoading();
    assert [last][1..] == [];
    assert StartScreens(name, [last]) == [if code == Some(0) then HideLoading else ErrorScreen(Concat(chunks))];
  }

  // ----- the form -----

  /** The CMS part of the form, as `handleInstallProfileUpdate` sees it. */
  datatype Profile = Profile(cmsType: string, cmsVersion: string)

  /** `handleInstallProfileUpdate`'s rule: a different type replaces the
      type and leaves the version; otherwise a different version replaces
      the version; otherwise nothing changes. */
  function ProfileUpdate(current: Profile, cmsType: string, cmsVersion: string): (next: Profile)
    ensures next.cmsType == cmsType || next.cmsVersion == cmsVersion
    ensures next.cmsType == current.cmsType || next.cmsVersion == current.cmsVersion
    ensures next.cmsType == cmsType
    ensures next.cmsVersion == if current.cmsType != cmsType then current.cmsVersion else cmsVersion
  {
    if current.cmsType != cmsType then current.(cmsType := cmsType)
    else if current.cmsVersion != cmsVersion then current.(cmsVersion := cmsVersion)
    else current
  }

  /** Two identical updates leave the form with the requested type and version. */
  lemma ProfileUpdateSettles(current: Profile, cmsType: string, cmsVersion: string)
    ensures ProfileUpdate(ProfileUpdate(current, cmsType, cmsVersion), cmsType, cmsVersion) == Profile(cmsType, cmsVersion)
  {
  }

  /** `--projecttype` for a new project: Drupal gets its version appended,
      `8` standing for `latest`. */
  function ProjectType(cmsType: string, cmsVersion: string): string
  {
    if cmsType == "drupal" then cmsType + (if cmsVersion == "latest" then "8" else cmsVersion) else cmsType
  }

  /** A character that lower-cases to a digit is that digit. */
  lemma LowerDigit(v: string, d: char)
    requires '0' <= d <= '9' && ToLower(v) == [d]
    ensures v == [d]
  {
    assert LowerChar(v[0]) == d;
  }

  /** The accepted types are already lower case. */
  lemma AcceptedTypesLowerCase()
    ensures forall t :: t in Helpers.RendererCMSTypes ==> ToLower(t) == t
  {
    assert ToLower("wordpress") == "wordpress";
    assert ToLower("php") == "php";
    assert ToLower("drupal6") == "drupal6";
    assert ToLower("drupal7") == "drupal7";
    assert ToLower("drupal8") == "drupal8";
  }

  /** A Drupal type the validator accepts carries version 6, 7 or 8. */
  lemma DrupalVersionOfAccepted(v: string)
    requires ToLower("drupal" + v) in Helpers.RendererCMSTypes
    ensures v in ["6", "7", "8"]
  {
    var low := ToLower("drupal" + v);
    assert low[..6] == ToLower("drupal");
    assert ToLower("drupal") == "drupal";
    assert low[0] == 'd';
    assert low != "wordpress" && low != "php";
    assert |v| == 1;
    assert ToLower(v) == low[6..];
    assert low[6] in "678";
    LowerDigit(v, low[6]);
  }

  /** The types the install profiles offer are the ones the validator
      accepts, and a Drupal version other than 6, 7, 8 or `latest` is not. */
  lemma ProjectTypeValidates(cmsType: string, cmsVersion: string)
    ensures cmsType in ["wordpress", "php"] ==> Helpers.ValidateCMSType(ProjectType(cmsType, cmsVersion)).Ok?
    ensures cmsType == "drupal" ==>
              (Helpers.ValidateCMSType(ProjectType(cmsType, cmsVersion)).Ok? <==> cmsVersion in ["latest", "6", "7", "8"])
  {
    AcceptedTypesLowerCase();
    if cmsType == "drupal" {
      var v := if cmsVersion == "latest" then "8" else cmsVersion;
      var t := ProjectType(cmsType, cmsVersion);
      assert t == "drupal" + v;
      if cmsVersion in ["latest", "6", "7", "8"] {
        if v == "6" { assert t == "drupal6"; }
        else if v == "7" { assert t == "drupal7"; }
        else { assert t == "drupal8"; }
      }
      if ToLower(t) in Helpers.RendererCMSTypes {
        DrupalVersionOfAccepted(v);
      }
    }
  }

  /** `--docroot` for an existing project: the first occurrence of the
      project folder removed, then one leading `/`; an empty docroot stays
      empty. */
  function RelativeDocroot(docroot: string, path: string): string
  {
    if docroot == "" then ""
    else
      var rest := ReplaceFirst(docroot, path, "");
      if rest != [] && rest[0] == '/' then rest[1..] else rest
  }

  /** A docroot chosen inside the project folder becomes relative to it. */
  lemma RelativeDocrootInside(path: string, relative: string)
    ensures RelativeDocroot(path + "/" + relative, path) == relative
  {
    var docroot := path + "/" + relative;
    IndexOfAtStart(path, "/" + relative);
    assert docroot == path + ("/" + relative);
    assert docroot[|path|..] == "/" + relative;
  }

  /** What `handleProjectCreation` hands on. */
  datatype Submission =
    | NewProject(name: string, cmsType: string, targetPath: string, args: map<string, Option<string>>)
    | ExistingProject(name: string, targetPath: string, docroot: string, args: map<string, Option<string>>)

  /** The project-creation form's state. */
  class ProjectForm {
    var name: string
    var installtype: string
    var path: string
    var docroot: string
    var phpVersion: string
    var webServer: string
    var dbType: string
    var enableXDebug: bool
    var httpPort: string
    var httpsPort: string
    var cmsType: string
    var cmsVersion: string
    var activeTab: string

    /** The initial state. */
    constructor ()
      ensures name == "" && installtype == "new" && path == "" && docroot == ""
      ensures phpVersion == "7.1" && webServer == "nginx-fpm" && dbType == "MariaDB" && !enableXDebug
      ensures httpPort == "80" && httpsPort == "443"
      ensures cmsType == "php" && cmsVersion == "latest" && activeTab == "installProfiles"
    {
      name := "";
      installtype := "new";
      path := "";
      docroot := "";
      phpVersion := "7.1";
      webServer := "nginx-fpm";
      dbType := "MariaDB";
      enableXDebug := false;
      httpPort := "80";
      httpsPort := "443";
      cmsType := "php";
      cmsVersion := "latest";
      activeTab := "installProfiles";
    }

    /** `handleInstallProfileUpdate`: only the CMS type or version changes. */
    method HandleInstallProfileUpdate(newType: string, newVersion: string)
      modifies this
      ensures Profile(cmsType, cmsVersion) == ProfileUpdate(Profile(old(cmsType), old(cmsVersion)), newType, newVersion)
      ensures name == old(name) && installtype == old(installtype) && path == old(path) && docroot == old(docroot)
      ensures phpVersion == old(phpVersion) && webServer == old(webServer) && dbType == old(dbType)
      ensures enableXDebug == old(enableXDebug) && httpPort == old(httpPort) && httpsPort == old(httpsPort)
      ensures activeTab == old(activeTab)
    {
      if cmsType != newType {
        cmsType := newType;
      } else if cmsVersion != newVersion {
        cmsVersion := newVersion;
      }
    }

    /** `handleProjectCreation`: the `ddev config` arguments, one key at a
        time (`None` for the flag without a value), and the workflow they
        are handed to. */
    method HandleProjectCreation() returns (args: map<string, Option<string>>, submission: Submission)
      ensures args.Keys == {"--projectname", "--php-version", "--webserver-type", "--http-port", "--https-port"} +
                           (if enableXDebug then {"--xdebug-enabled"} else {}) +
                           (if installtype == "new" then {"--projecttype"} else {"--docroot"})
      ensures args["--projectname"] == Some(name) && args["--php-version"] == Some(phpVersion)
      ensures args["--webserver-type"] == Some(webServer)
      ensures args["--http-port"] == Some(httpPort) && args["--https-port"] == Some(httpsPort)
      ensures enableXDebug ==> args["--xdebug-enabled"] == None
      ensures installtype == "new" ==>
                args["--projecttype"] == Some(ProjectType(cmsType, cmsVersion)) &&
                submission == NewProject(name, ProjectType(cmsType, cmsVersion), path, args)
      ensures installtype != "new" ==>
                args["--docroot"] == Some(RelativeDocroot(docroot, path)) &&
                submission == ExistingProject(name, path, RelativeDocroot(docroot, path), args)
    {
      var root := docroot;
      args := map[];
      args := args["--projectname" := Some(name)];
      args := args["--php-version" := Some(phpVersion)];
      args := args["--webserver-type" := Some(webServer)];
      args := args["--http-port" := Some(httpPort)];
      args := args["--https-port" := Some(httpsPort)];
      if enableXDebug {
        args := args["--xdebug-enabled" := None];
      }
      if installtype == "new" {
        var cms := "";
        if cmsType == "drupal" {
          var version := if cmsVersion == "latest" then "8" else cmsVersion;
          cms := cmsType + version;
        } else {
          cms := cmsType;
        }
        args := args["--projecttype" := Some(cms)];
        submission := NewProject(name, cms, path, args);
      } else {
        if root != "" {
          root := ReplaceFirst(root, path, "");
          if root != [] && root[0] == '/' {
            root := root[1..];
          }
        }
        args := args["--docroot" := Some(root)];
        submission := ExistingProject(name, path, root, args);
      }
    }
  }
}
