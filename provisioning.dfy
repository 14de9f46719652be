/** The step chains both project-creation workflows are built from: a
    promise chain runs its steps in order and stops at the first step that
    rejects or never settles. */
module Provisioning {
  import opened Common

  /** A step of a provisioning workflow, with the argument it is run on. */
  datatype Step =
    | Validate
    | Extract(outputPath: string)
    | CheckConfig(path: string)
    | Configure(path: string)
    | UpdateHosts(siteName: string)
    | Start(path: string)

  /** How a step's promise ends: resolved, rejected, or never settled. */
  datatype StepOutcome = Done | Failed(error: JsError) | Stalled

  /** Where a chain stopped. */
  datatype Halt = Completed | FailedAt(error: JsError) | StalledAt

  /** The steps that were started, in order, and where the chain stopped. */
  datatype ChainRun = ChainRun(ran: seq<Step>, halt: Halt)

  function OutcomeOfCheck(failure: Option<JsError>): StepOutcome
  {
    match failure
    case None => Done
    case Some(e) => Failed(e)
  }

  function OutcomeOfPromise<T>(p: Settlement<T, JsError>): StepOutcome
  {
    match p
    case Pending => Stalled
    case Resolved(_) => Done
    case Rejected(e) => Failed(e)
  }

  /** A `.then` chain over `steps`. The steps started are a prefix of the
      chain; every one but the last resolved; the chain completes exactly
      when all of them ran and resolved, and otherwise it stopped at the
      last step started, which rejected or never settled. */
  function RunChain(steps: seq<Step>, outcome: Step -> StepOutcome): (r: ChainRun)
    ensures |r.ran| <= |steps| && r.ran == steps[..|r.ran|]
    ensures forall k :: 0 <= k < |r.ran| - 1 ==> outcome(r.ran[k]).Done?
    ensures r.halt.Completed? <==> r.ran == steps && forall k :: 0 <= k < |steps| ==> outcome(steps[k]).Done?
    ensures r.halt.FailedAt? ==> r.ran != [] && outcome(r.ran[|r.ran| - 1]) == Failed(r.halt.error)
    ensures r.halt.StalledAt? ==> r.ran != [] && outcome(r.ran[|r.ran| - 1]).Stalled?
    decreases |steps|
  {
    if steps == [] then ChainRun([], Completed)
    else match outcome(steps[0])
      case Failed(e) => ChainRun([steps[0]], FailedAt(e))
      case Stalled => ChainRun([steps[0]], StalledAt)
      case Done =>
        var rest := RunChain(steps[1..], outcome);
        ChainRun([steps[0]] + rest.ran, rest.halt)
  }

  /** A step after a failing one is never started. */
  /** A chain whose first step rejects stops there with that step's error. */
  lemma FirstStepFails(steps: seq<Step>, outcome: Step -> StepOutcome)
    requires |steps| > 0 && outcome(steps[0]).Failed?
    ensures RunChain(steps, outcome) == ChainRun([steps[0]], FailedAt(outcome(steps[0]).error))
  {
  }

  lemma {:induction false} NothingAfterFailure(steps: seq<Step>, outcome: Step -> StepOutcome, k: int)
    requires 0 <= k < |steps| && !outcome(steps[k]).Done?
    ensures |RunChain(steps, outcome).ran| <= k + 1
    decreases k
  {
    if k > 0 && outcome(steps[0]).Done? {
      NothingAfterFailure(steps[1..], outcome, k - 1);
    }
  }

  /** A step is started when everything before it resolved. */
  lemma {:induction false} ReachedAfterSuccesses(steps: seq<Step>, outcome: Step -> StepOutcome, k: int)
    requires 0 <= k < |steps|
    requires forall j :: 0 <= j < k ==> outcome(steps[j]).Done?
    ensures |RunChain(steps, outcome).ran| > k
    decreases k
  {
    if k > 0 {
      ReachedAfterSuccesses(steps[1..], outcome, k - 1);
    }
  }

  /** What a chain shows as it starts its steps: each started step's
      screens, in order. */
  function StepScreens<S>(steps: seq<Step>, screens: Step -> seq<S>): seq<S>
  {
    if steps == [] then [] else screens(steps[0]) + StepScreens(steps[1..], screens)
  }

  /** Everything shown comes from a step that was started. */
  lemma {:induction false} StepScreensFrom<S>(steps: seq<Step>, screens: Step -> seq<S>, x: S)
    requires x in StepScreens(steps, screens)
    ensures exists k :: 0 <= k < |steps| && x in screens(steps[k])
    decreases |steps|
  {
    if x !in screens(steps[0]) {
      StepScreensFrom(steps[1..], screens, x);
      var k :| 0 <= k < |steps[1..]| && x in screens(steps[1..][k]);
      assert steps[1..][k] == steps[k + 1];
    }
  }
}
