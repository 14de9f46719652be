/** The older site creator: its validators, the CMS lookup, the folder a
    site is extracted to and worked in, and the order in which `addCMS`
    starts its steps.

    Only the validation promise is returned into the chain that shows the
    error screen. The later promises are created inside `then` callbacks
    without being returned, so their failures are never reported, and the
    hosts-file update is not waited for at all. `getCMSTarballPath` of
    the distribution updater and the tarball extraction are oracles. */
module SiteCreator {
  import opened Common
  import opened Strings
  import DdevShell
  import Helpers
  import opened Provisioning

  /** `validateHostname`: the renderer's grammar with this file's messages. */
  function ValidateHostname(hostname: string): Result<bool>
  {
    Helpers.CheckHostname(hostname, "Hostname Cannot Be Blank.", "Hostname is Invalid.")
  }

  /** Both hostname validators accept the same names. */
  lemma SameHostnameGrammar(hostname: string)
    ensures ValidateHostname(hostname).Ok? <==> Helpers.ValidateHostname(hostname).Ok?
  {
  }

  const SiteCreatorCMSTypes: seq<string> := ["wordpress", "drupal7", "drupal8"]

  /** `validateCMSType`. */
  function ValidateCMSType(cmsType: string): Result<bool>
  {
    Helpers.CheckCMSType(cmsType, SiteCreatorCMSTypes, "CMS Type Cannot Be Blank.", "CMS Type is Invalid.")
  }

  /** This file accepts fewer types than the renderer: every type it
      accepts is accepted there, while `drupal6` and `php` are not accepted
      here. */
  lemma NarrowerCMSTypes(cmsType: string)
    ensures ValidateCMSType(cmsType).Ok? ==> Helpers.ValidateCMSType(cmsType).Ok?
    ensures ValidateCMSType("drupal6") == Err(Text("CMS Type is Invalid."))
    ensures ValidateCMSType("php") == Err(Text("CMS Type is Invalid."))
  {
    assert ToLower("drupal6") == "drupal6";
    assert ToLower("php") == "php";
  }

  /** The version half of a CMS lookup: `''` for WordPress, a number for Drupal. */
  datatype Version = Unversioned | Major(n: nat)

  datatype CMSTarget = CMSTarget(cms: string, version: Version)

  /** `getCMSPath`'s `switch`, which compares the type exactly and throws
      `'No CMS selected'` for anything else. */
  function GetCMSPath(cmsType: string): (r: Result<CMSTarget>)
    ensures r.Ok? <==> cmsType in SiteCreatorCMSTypes
    ensures r.Err? ==> r.error == Text("No CMS selected")
    ensures r.Ok? ==> (r.value.cms == "wordpress" <==> r.value.version.Unversioned?)
    ensures r.Ok? && r.value.version.Major? ==> r.value.cms == "drupal" && 7 <= r.value.version.n <= 8
    ensures r.Ok? && r.value.version.Unversioned? ==> cmsType == "wordpress"
    ensures r.Ok? && r.value.version.Major? ==>
              7 <= r.value.version.n <= 8 && cmsType == "drupal" + [('0' as int + r.value.version.n) as char]
  {
    match cmsType
    case "wordpress" => Ok(CMSTarget("wordpress", Unversioned))
    case "drupal7" => Ok(CMSTarget("drupal", Major(7)))
    case "drupal8" => Ok(CMSTarget("drupal", Major(8)))
    case _ => Err(Text("No CMS selected"))
  }

  /** The validator lower-cases the type but the lookup does not, so a type
      written with capitals passes validation and then has no CMS. */
  lemma CapitalisedTypeHasNoCMS()
    ensures ValidateCMSType("WordPress").Ok?
    ensures GetCMSPath("WordPress").Err?
  {
    assert ToLower("WordPress") == "wordpress";
  }

  /** `validateInputs`: all three checks, and the first rejection in the
      order they are listed. `canReadAndWrite` is used as it is. */
  function ValidateInputs(name: string, cmsType: string, targetPath: string, access: string -> Result<string>): (r: Option<JsError>)
    ensures r.None? <==> ValidateHostname(name).Ok? && ValidateCMSType(cmsType).Ok? && access(targetPath).Ok?
    ensures r.Some? ==> r.value == if ValidateHostname(name).Err? then ValidateHostname(name).error
                                   else if ValidateCMSType(cmsType).Err? then ValidateCMSType(cmsType).error
                                   else access(targetPath).error
  {
    FirstFailureOfThree(ValidateHostname(name).Failure(), ValidateCMSType(cmsType).Failure(), access(targetPath).Failure());
    FirstFailure([ValidateHostname(name).Failure(), ValidateCMSType(cmsType).Failure(), access(targetPath).Failure()])
  }

  /** The folder `createFiles` extracts into. */
  function ExtractionFolder(targetFolder: string, siteName: string): string
  {
    targetFolder + "/" + siteName
  }

  /** The last `/`-separated part of a path (`split('/').pop()`). */
  function BaseName(path: string): string
  {
    var parts := SplitOn(path, "/");
    parts[|parts| - 1]
  }

  /** The folder inside the extraction folder that the site is run from:
      `wordpress` for any type naming WordPress, and otherwise the tarball's
      file name with its first `.tar.gz` removed. */
  function CMSWorkingPath(cmsType: string, tarballPath: string): string
  {
    if IndexOf(cmsType, "wordpress") != -1 then "wordpress"
    else ReplaceFirst(BaseName(tarballPath), ".tar.gz", "")
  }

  /** Removing the first `.tar.gz` from `<base>.tar.gz` gives `<base>`
      when the base holds no `.t`. */
  lemma StripTarballSuffix(base: string)
    requires !Contains(base, ".t")
    ensures ReplaceFirst(base + ".tar.gz", ".tar.gz", "") == base
  {
    var file := base + ".tar.gz";
    assert OccursAt(file, ".tar.gz", |base|) by { assert file[|base|..|base| + 7] == ".tar.gz"; }
    forall j | 0 <= j < |base| ensures !OccursAt(file, ".tar.gz", j) {
      assert OccursAt(file, ".tar.gz", j) ==> j + 2 <= |file| && file[j..j + 2] == ".t" by {
        if j + 7 <= |file| {
          assert file[j..j + 2] == file[j..j + 7][..2];
        }
      }
      if j + 1 < |base| {
        assert !OccursAt(base, ".t", j);
        assert file[j..j + 2] == base[j..j + 2];
      } else {
        assert file[j + 1] == '.';
      }
    }
    assert IndexOf(file, ".tar.gz") == |base|;
    assert file[..|base|] == base && file[|base| + 7..] == [];
  }

  /** For a Drupal tarball `<dir>/<base>.tar.gz` whose base name holds no
      `/` and no `.t` (such as `drupal-8.5.3`), the working folder is the
      base name. */
  lemma DrupalWorkingFolder(cmsType: string, dir: string, base: string)
    requires !Contains(cmsType, "wordpress")
    requires '/' !in base && !Contains(base, ".t")
    ensures CMSWorkingPath(cmsType, dir + "/" + base + ".tar.gz") == base
  {
    var file := base + ".tar.gz";
    assert '/' !in file by {
      forall i | 0 <= i < |file| ensures file[i] != '/' {
        if i < |base| { assert file[i] == base[i]; }
      }
    }
    assert dir + "/" + base + ".tar.gz" == dir + ['/'] + file;
    SplitLast(dir, '/', file);
    assert BaseName(dir + ['/'] + file) == file;
    StripTarballSuffix(base);
  }

  /** What the user sees. */
  datatype Screen = ShowLoading | LoadingText(text: string) | ErrorScreen(message: string) | ResetModal

  /** The oracles a run of `addCMS` depends on: the distribution updater's
      tarball lookup, the extraction, `ddev config`, and the output and exit code of `ddev start`. */
  datatype Environment = Environment(
    access: string -> Result<string>,
    tarball: CMSTarget -> Settlement<string, JsError>,
    extract: (string, string) -> StepOutcome,
    configure: string -> StepOutcome,
    startChunks: seq<string>,
    startCode: Option<int>)

  /** `createFiles`: settles with the working path, or never reports
      anything the chain can see. */
  function CreateFiles(siteName: string, cmsType: string, targetFolder: string, env: Environment): (r: Settlement<string, JsError>)
    ensures GetCMSPath(cmsType).Err? ==> r == Rejected(GetCMSPath(cmsType).error)
    ensures GetCMSPath(cmsType).Ok? && env.tarball(GetCMSPath(cmsType).value).Rejected? ==>
              r == env.tarball(GetCMSPath(cmsType).value)
    ensures GetCMSPath(cmsType).Ok? && env.tarball(GetCMSPath(cmsType).value).Pending? ==> r.Pending?
    ensures GetCMSPath(cmsType).Ok? && env.tarball(GetCMSPath(cmsType).value).Resolved? &&
            env.extract(env.tarball(GetCMSPath(cmsType).value).value, ExtractionFolder(targetFolder, siteName)).Done? ==>
              r == Resolved(ExtractionFolder(targetFolder, siteName) + "/" +
                            CMSWorkingPath(cmsType, env.tarball(GetCMSPath(cmsType).value).value))
    ensures GetCMSPath(cmsType).Ok? && env.tarball(GetCMSPath(cmsType).value).Resolved? &&
            !env.extract(env.tarball(GetCMSPath(cmsType).value).value, ExtractionFolder(targetFolder, siteName)).Done? ==>
              r.Pending?
    ensures r.Resolved? ==>
              GetCMSPath(cmsType).Ok? && env.tarball(GetCMSPath(cmsType).value).Resolved? &&
              var tarball := env.tarball(GetCMSPath(cmsType).value).value;
              env.extract(tarball, ExtractionFolder(targetFolder, siteName)).Done? &&
              r.value == ExtractionFolder(targetFolder, siteName) + "/" + CMSWorkingPath(cmsType, tarball)
  {
    match GetCMSPath(cmsType)
    case Err(e) => Rejected(e)
    case Ok(target) =>
      match env.tarball(target)
      case Pending => Pending
      case Rejected(e) => Rejected(e)
      case Resolved(tarballPath) =>
        var folder := ExtractionFolder(targetFolder, siteName);
        match env.extract(tarballPath, folder)
        case Done => Resolved(folder + "/" + CMSWorkingPath(cmsType, tarballPath))
        case _ => Pending
  }

  /** The steps `addCMS` chains, in order. */
  function AddCMSSteps(name: string, targetPath: string, workingPath: string): seq<Step>
  {
    [Validate, Extract(ExtractionFolder(targetPath, name)), Configure(workingPath), UpdateHosts(name), Start(workingPath)]
  }

  /** How each step of `addCMS` ends, as the chain sees it. */
  function StepResult(name: string, cmsType: string, targetPath: string, env: Environment, step: Step): StepOutcome
  {
    match step
    case Validate => OutcomeOfCheck(ValidateInputs(name, cmsType, targetPath, env.access))
    case Extract(_) => OutcomeOfPromise(CreateFiles(name, cmsType, targetPath, env))
    case Configure(path) => env.configure(path)
    case _ => Done
  }

  function AddCMSOutcome(name: string, cmsType: string, targetPath: string, env: Environment): Step -> StepOutcome
  {
    (step: Step) => StepResult(name, cmsType, targetPath, env, step)
  }

  /** The path configure and start work in, once `createFiles` has resolved. */
  function AddCMSWorkingPath(name: string, cmsType: string, targetPath: string, env: Environment): string
  {
    var created := CreateFiles(name, cmsType, targetPath, env);
    if created.Resolved? then created.value else ""
  }

  /** Which steps `addCMS` starts. The hosts-file update counts as done as
      soon as it is started, since nothing waits for it. */
  function AddCMS(name: string, cmsType: string, targetPath: string, env: Environment): (r: ChainRun)
    ensures |r.ran| > 0 && r.ran[0] == Validate
    ensures r.halt.Completed? ==> |r.ran| == 5 && r.ran[4].Start?
  {
    RunChain(AddCMSSteps(name, targetPath, AddCMSWorkingPath(name, cmsType, targetPath, env)),
             AddCMSOutcome(name, cmsType, targetPath, env))
  }

  function LoadingFor(step: Step): seq<Screen>
  {
    match step
    case Validate => [ShowLoading]
    case Extract(_) => [LoadingText("Unzipping files")]
    case Configure(_) => [LoadingText("Configuring Site")]
    case UpdateHosts(_) => [LoadingText("Updating Hosts File")]
    case Start(_) => [LoadingText("Starting Site")]
    case CheckConfig(_) => []
  }

  /** `startSite` resolves with the first chunk (or the exit message); a
      first chunk announcing the environment resets the dialog. */
  function StartScreens(env: Environment): seq<Screen>
  {
    match DdevShell.Promised(DdevShell.Transcript(env.startChunks, env.startCode, true))
    case Resolved(out) =>
      if IndexOf(out, "Starting environment") != -1 then [LoadingText("Start Process Initiated." + out), ResetModal] else []
    case _ => []
  }

  /** Everything `addCMS` shows, in order. */
  function AddCMSScreens(name: string, cmsType: string, targetPath: string, env: Environment): seq<Screen>
  {
    var run := AddCMS(name, cmsType, targetPath, env);
    StepScreens(run.ran, LoadingFor) +
    (if run.halt.FailedAt? && run.ran == [Validate] then [ErrorScreen(run.halt.error.ToString())] else []) +
    (if run.halt.Completed? then StartScreens(env) else [])
  }

  /** A failed validation shows the error screen, and nothing else runs. */
  lemma ValidationFailureStops(name: string, cmsType: string, targetPath: string, env: Environment)
    requires ValidateInputs(name, cmsType, targetPath, env.access).Some?
    ensures AddCMS(name, cmsType, targetPath, env).ran == [Validate]
    ensures AddCMSScreens(name, cmsType, targetPath, env) ==
            [ShowLoading, ErrorScreen(ValidateInputs(name, cmsType, targetPath, env.access).value.ToString())]
  {
    var e := ValidateInputs(name, cmsType, targetPath, env.access).value;
    var steps := AddCMSSteps(name, targetPath, AddCMSWorkingPath(name, cmsType, targetPath, env));
    var outcome := AddCMSOutcome(name, cmsType, targetPath, env);
    assert outcome(Validate) == Failed(e);
    assert steps[0] == Validate;
    assert RunChain(steps, outcome) == ChainRun([Validate], FailedAt(e));
    assert AddCMS(name, cmsType, targetPath, env) == ChainRun([Validate], FailedAt(e));
    assert [Validate][1..] == [];
    assert StepScreens([Validate], LoadingFor) == [ShowLoading];
  }

  /** A chain whose first step resolved does not stop failing at that step. */
  lemma FailureAfterFirstStep(steps: seq<Step>, outcome: Step -> StepOutcome)
    requires |steps| > 0 && outcome(steps[0]).Done?
    ensures RunChain(steps, outcome).halt.FailedAt? ==> RunChain(steps, outcome).ran != [steps[0]]
  {
  }

  /** Neither the steps' loading screens nor the start reactions are error screens. */
  lemma NoErrorScreenIn(ran: seq<Step>, env: Environment)
    ensures forall x :: x in StepScreens(ran, LoadingFor) + StartScreens(env) ==> !x.ErrorScreen?
  {
    forall x | x in StepScreens(ran, LoadingFor) ensures !x.ErrorScreen? {
      StepScreensFrom(ran, LoadingFor, x);
    }
  }

  /** Once validation passes, no failure reaches the error screen. */
  lemma LaterFailuresUnreported(name: string, cmsType: string, targetPath: string, env: Environment)
    requires ValidateInputs(name, cmsType, targetPath, env.access).None?
    ensures forall k :: 0 <= k < |AddCMSScreens(name, cmsType, targetPath, env)| ==>
              !AddCMSScreens(name, cmsType, targetPath, env)[k].ErrorScreen?
  {
    var steps := AddCMSSteps(name, targetPath, AddCMSWorkingPath(name, cmsType, targetPath, env));
    var outcome := AddCMSOutcome(name, cmsType, targetPath, env);
    assert outcome(steps[0]) == Done;
    FailureAfterFirstStep(steps, outcome);
    var run := AddCMS(name, cmsType, targetPath, env);
    assert !(run.halt.FailedAt? && run.ran == [Validate]);
    NoErrorScreenIn(run.ran, env);
    var shown := AddCMSScreens(name, cmsType, targetPath, env);
    assert shown == StepScreens(run.ran, LoadingFor) + (if run.halt.Completed? then StartScreens(env) else []);
    forall k | 0 <= k < |shown| ensures !shown[k].ErrorScreen? {
      assert shown[k] in StepScreens(run.ran, LoadingFor) + StartScreens(env);
    }
  }

  /** Nothing waits for the hosts-file update: once `ddev config` resolves in
      the working folder, the start step is reached whatever happens to it. */
  lemma StartFollowsConfigure(name: string, cmsType: string, targetPath: string, env: Environment)
    requires ValidateInputs(name, cmsType, targetPath, env.access).None?
    requires CreateFiles(name, cmsType, targetPath, env).Resolved?
    requires env.configure(CreateFiles(name, cmsType, targetPath, env).value).Done?
    ensures AddCMS(name, cmsType, targetPath, env).halt.Completed?
    ensures Start(CreateFiles(name, cmsType, targetPath, env).value) in AddCMS(name, cmsType, targetPath, env).ran
  {
    var steps := AddCMSSteps(name, targetPath, AddCMSWorkingPath(name, cmsType, targetPath, env));
    var outcome := AddCMSOutcome(name, cmsType, targetPath, env);
    forall k | 0 <= k < |steps| ensures outcome(steps[k]).Done? {
    }
    assert steps[4] in steps;
  }

  /** A capitalised type passes validation, but the lookup's rejection is
      never reported: the user is left at "Unzipping files". */
  lemma CapitalisedTypeFailsSilently(name: string, targetPath: string, env: Environment)
    requires ValidateHostname(name).Ok? && env.access(targetPath).Ok?
    ensures AddCMS(name, "WordPress", targetPath, env).halt == FailedAt(Text("No CMS selected"))
    ensures AddCMSScreens(name, "WordPress", targetPath, env) == [ShowLoading, LoadingText("Unzipping files")]
  {
    CapitalisedTypeHasNoCMS();
    var steps := AddCMSSteps(name, targetPath, AddCMSWorkingPath(name, "WordPress", targetPath, env));
    var outcome := AddCMSOutcome(name, "WordPress", targetPath, env);
    assert outcome(steps[0]) == Done;
    assert CreateFiles(name, "WordPress", targetPath, env) == Rejected(Text("No CMS selected"));
    assert outcome(steps[1]) == Failed(Text("No CMS selected"));
    assert RunChain(steps[1..], outcome) == ChainRun([steps[1]], FailedAt(Text("No CMS selected")));
    var ran := [Validate, steps[1]];
    assert RunChain(steps, outcome) == ChainRun(ran, FailedAt(Text("No CMS selected")));
    assert StepScreens(ran[1..][1..], LoadingFor) == [];
    assert StepScreens(ran[1..], LoadingFor) == [LoadingText("Unzipping files")];
  }
}
