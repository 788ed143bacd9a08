/**
 What an approval does, over whole lives of a run: exactly when the approved step runs again,
 and what becomes of it, and of the run, when it does not.
 */
module WorkflowApprovals {
  import opened Common
  import opened WorkflowModels
  import opened WorkflowGraph
  import opened WorkflowSemantics
  import opened WorkflowPasses
  import opened WorkflowEntry
  import opened WorkflowLives

  // ---- one resume -----------------------------------------------------------------------

  /** A resume that leaves a step RUNNING approved it after its last allowed attempt. */
  predicate ApprovedTooLate(step: WorkflowStep, run: RunState, approvals: map<string, string>) {
    && step.id in run.steps && step.id in approvals
    && run.steps[step.id].status == WaitingApproval
    && run.steps[step.id].attempts == step.maxRetries + 1
  }

  lemma ResumeLeavesRunning(defn: seq<WorkflowStep>, h: Handlers, run: RunState, approvals: map<string, string>,
                            after: RunState, i: nat)
    requires i < |defn| && Kept(defn, run) && Quiescent(defn, run.steps)
    requires Driven(defn, h, Approved(run, approvals), after)
    requires run.steps[defn[i].id].status != Running && after.steps[defn[i].id].status == Running
    ensures ApprovedTooLate(defn[i], run, approvals)
  {
    RunningMeansExhausted(defn, h, Approved(run, approvals), after, i);
    assert FoundedStep(defn, defn[i], run);
    assert run.steps[defn[i].id].attempts <= defn[i].maxRetries + 1;
  }

  /** An approved waiting step is judged by the stored context, and executed if its condition passes there. */
  lemma ResumeJudges(defn: seq<WorkflowStep>, h: Handlers, run: RunState, approvals: map<string, string>,
                     after: RunState, i: nat)
    requires i < |defn| && Kept(defn, run) && Driven(defn, h, Approved(run, approvals), after)
    requires defn[i].id in approvals && run.steps[defn[i].id].status == WaitingApproval
    ensures var s := ApprovedStep(run.steps[defn[i].id], approvals[defn[i].id]);
      after.steps[defn[i].id] ==
        if ConditionPasses(defn[i], run.context) then Retried(defn[i], s, h) else s.(status := Skipped)
  {
    hide Sane, Rested, Retried, ConditionPasses, AllDepsSettled;
    var step, before := defn[i], Approved(run, approvals);
    assert FoundedStep(defn, step, run);
    ApprovalsKeepSettled(step, run, approvals);
    assert EntryJudged(step, h, before, after);
  }

  /** Waiting for approval when a resume approves it. */
  predicate ApprovedWaiting(step: WorkflowStep, run: RunState, approvals: map<string, string>) {
    step.id in run.steps && step.id in approvals && run.steps[step.id].status == WaitingApproval
  }

  // ---- whole lives ----------------------------------------------------------------------

  /**
   An approval makes a step run again exactly when an attempt is left and its condition passes
   in the stored context. Without an attempt left it is put to rest in RUNNING, and if its
   condition does not pass it is skipped, however many attempts are left.
   */
  lemma ApprovalRunsExactlyWhen(defn: seq<WorkflowStep>, h: Handlers, context: map<string, Value>,
      hist: seq<RunState>, approvals: seq<map<string, string>>, k: nat, i: nat)
    requires Life(defn, h, context, hist, approvals) && k < |approvals| && i < |defn|
    requires ApprovedWaiting(defn[i], hist[k], approvals[k])
    ensures defn[i].id in hist[k + 1].steps
    ensures var step, w, r := defn[i], hist[k].steps[defn[i].id], hist[k + 1].steps[defn[i].id];
      var s, passes := ApprovedStep(w, approvals[k][step.id]), ConditionPasses(step, hist[k].context);
      && r == (if passes then Retried(step, s, h) else s.(status := Skipped))
      && (r.attempts > w.attempts <==> w.attempts <= step.maxRetries && passes)
      && (r.status == Running <==> w.attempts > step.maxRetries && passes)
      && (r.status == Skipped <==> !passes)
  {
    hide Life, Driven, Kept, Retried, ConditionPasses;
    LifeKept(defn, h, context, hist, approvals, k);
    LifeStep(defn, h, context, hist, approvals, k);
    ResumeJudges(defn, h, hist[k], approvals[k], hist[k + 1], i);
    RetriedBounds(defn[i], ApprovedStep(hist[k].steps[defn[i].id], approvals[k][defn[i].id]), h);
    KeptBudget(defn, hist[k], i);
    NothingLeft(defn[i], ApprovedStep(hist[k].steps[defn[i].id], approvals[k][defn[i].id]), h);
  }

  lemma KeptBudget(defn: seq<WorkflowStep>, run: RunState, i: nat)
    requires Kept(defn, run) && i < |defn|
    ensures defn[i].id in run.steps && run.steps[defn[i].id].attempts <= defn[i].maxRetries + 1
    ensures run.steps[defn[i].id].status == WaitingApproval ==> run.steps[defn[i].id].attempts >= 1
  {
    assert FoundedStep(defn, defn[i], run);
    assert run.steps[defn[i].id].attempts <= defn[i].maxRetries + 1;
  }

  lemma NothingLeft(step: WorkflowStep, s: StepRun, h: Handlers)
    ensures s.attempts > step.maxRetries ==> Retried(step, s, h) == s.(status := Running)
  {
    RetryRule(step, s, h);
  }

  /** If the condition reads no output, or a direct dependency's, it still passes when the approval arrives. */
  lemma LocalConditionStillPasses(defn: seq<WorkflowStep>, h: Handlers, context: map<string, Value>,
      hist: seq<RunState>, approvals: seq<map<string, string>>, k: nat, i: nat)
    requires Life(defn, h, context, hist, approvals) && k < |hist| && i < |defn| && LocalCondition(defn, defn[i])
    requires defn[i].id in hist[k].steps && hist[k].steps[defn[i].id].status == WaitingApproval
    ensures ConditionPasses(defn[i], hist[k].context)
  {
    LifeKept(defn, h, context, hist, approvals, k);
    assert FoundedStep(defn, defn[i], hist[k]);
  }

  /** A step rests in RUNNING only because some resume approved it after its last allowed attempt. */
  lemma {:induction false} RunningWasApprovedTooLate(defn: seq<WorkflowStep>, h: Handlers, context: map<string, Value>,
      hist: seq<RunState>, approvals: seq<map<string, string>>, j: nat, i: nat) returns (k: nat)
    requires Life(defn, h, context, hist, approvals) && j < |hist| && i < |defn|
    requires defn[i].id in hist[j].steps && hist[j].steps[defn[i].id].status == Running
    ensures k < j && ApprovedTooLate(defn[i], hist[k], approvals[k])
  {
    hide Life, Kept, Quiescent;
    if j == 0 {
      LifeBegins(defn, h, context, hist, approvals);
      StartLeavesNothingRunning(defn, h, context, hist[0]);
      assert false;
    } else {
      LifeKept(defn, h, context, hist, approvals, j - 1);
      LifeDriven(defn, h, context, hist, approvals, j - 1);
      if hist[j - 1].steps[defn[i].id].status == Running {
        k := RunningWasApprovedTooLate(defn, h, context, hist, approvals, j - 1, i);
      } else {
        LifeStep(defn, h, context, hist, approvals, j - 1);
        ResumeLeavesRunning(defn, h, hist[j - 1], approvals[j - 1], hist[j], i);
        k := j - 1;
      }
    }
  }

  /**
   An approval that arrives after the last allowed attempt never runs the step. If its condition
   still passes it is left RUNNING for good and the run never completes; else it is skipped.
   */
  lemma ApprovedTooLateNeverRuns(defn: seq<WorkflowStep>, h: Handlers, context: map<string, Value>,
      hist: seq<RunState>, approvals: seq<map<string, string>>, k: nat, i: nat, j: nat)
    requires Life(defn, h, context, hist, approvals) && i < |defn| && k < j < |hist|
    requires ApprovedTooLate(defn[i], hist[k], approvals[k])
    ensures defn[i].id in hist[j].steps
    ensures SameOutcome(hist[j].steps[defn[i].id], hist[k].steps[defn[i].id].(
      status := if ConditionPasses(defn[i], hist[k].context) then Running else Skipped))
    ensures ConditionPasses(defn[i], hist[k].context) ==>
      if exists other :: other in hist[j].steps && hist[j].steps[other].status == WaitingApproval
      then hist[j].status == RunPaused else hist[j].status == RunFailed
  {
    hide Life, Driven, ConditionPasses, Retried;
    ApprovalRunsExactlyWhen(defn, h, context, hist, approvals, k, i);
    NothingLeft(defn[i], ApprovedStep(hist[k].steps[defn[i].id], approvals[k][defn[i].id]), h);
    LifeStable(defn, h, context, hist, approvals, k + 1, j, defn[i]);
    LifeDriven(defn, h, context, hist, approvals, j);
    if ConditionPasses(defn[i], hist[k].context) {
      RunningBlocksCompletion(hist[j].steps, defn[i].id);
    }
  }

  /** Whatever its condition reads, a step approved too late is left RUNNING or skipped, with its budget used up. */
  lemma TooLateIsNeverExecuted(defn: seq<WorkflowStep>, h: Handlers, context: map<string, Value>,
      hist: seq<RunState>, approvals: seq<map<string, string>>, k: nat, i: nat, j: nat)
    requires Life(defn, h, context, hist, approvals) && i < |defn| && k < j < |hist|
    requires ApprovedTooLate(defn[i], hist[k], approvals[k])
    ensures defn[i].id in hist[j].steps
    ensures hist[j].steps[defn[i].id].status in {Running, Skipped}
    ensures hist[j].steps[defn[i].id].attempts == defn[i].maxRetries + 1
  {
    hide Life, ConditionPasses;
    ApprovedTooLateNeverRuns(defn, h, context, hist, approvals, k, i, j);
  }

  /** With max_retries = 0, the default, every approval comes too late. */
  lemma DefaultRetriesNeverRunApprovedSteps(defn: seq<WorkflowStep>, h: Handlers, context: map<string, Value>,
      hist: seq<RunState>, approvals: seq<map<string, string>>, k: nat, i: nat)
    requires Life(defn, h, context, hist, approvals) && k < |approvals| && i < |defn| && defn[i].maxRetries == 0
    requires defn[i].id in hist[k].steps && defn[i].id in approvals[k]
    requires hist[k].steps[defn[i].id].status == WaitingApproval
    ensures ApprovedTooLate(defn[i], hist[k], approvals[k])
  {
    LifeKept(defn, h, context, hist, approvals, k);
    assert FoundedStep(defn, defn[i], hist[k]);
    assert hist[k].steps[defn[i].id].attempts <= defn[i].maxRetries + 1;
  }

  // ---- two approvals, concretely --------------------------------------------------------

  function AskFirst(id: string, attempt: nat, approvalId: Option<string>): AttemptResult {
    if id == "a" && approvalId.None? then Waits(Null) else Returned(Data(attempt))
  }

  const Asked := StepRun(WaitingApproval, 1, Null, None, None)
  const Answered := StepRun(Pending, 1, Null, None, Some("ok"))

  lemma AskFirstAttempts(step: WorkflowStep)
    ensures step.id == "a" ==> Retried(step, FreshStep, AskFirst) == Asked
    ensures step.id == "a" ==>
      Retried(step, Answered, AskFirst) == if step.maxRetries == 0 then Answered.(status := Running)
                                           else Answered.(status := Completed, attempts := 2, output := Data(2))
    ensures step.id != "a" ==> Retried(step, FreshStep, AskFirst) == StepRun(Completed, 1, Data(1), None, None)
  {
    RetriedFromReturns(step, FreshStep.(status := Running), 1, 1, AskFirst);
    if step.id == "a" && step.maxRetries > 0 {
      RetriedFromReturns(step, Answered.(status := Running), 2, 2, AskFirst);
    }
  }

  lemma LifeOfTwo(defn: seq<WorkflowStep>, h: Handlers, context: map<string, Value>,
                  first: RunState, second: RunState, approval: map<string, string>)
    requires Driven(defn, h, Initial(defn, context), first) && Driven(defn, h, Approved(first, approval), second)
    ensures Life(defn, h, context, [first, second], [approval])
  {
    hide Driven;
    var hist, approvals := [first, second], [approval];
    assert hist[..1] == [first] && approvals[..0] == [];
    assert Life(defn, h, context, [first], []);
  }

  /** The life of a list that is started, and resumed with "a" approved. */
  lemma TwoDrives(defn: seq<WorkflowStep>) returns (first: RunState, second: RunState)
    requires UniqueIds(defn)
    ensures Driven(defn, AskFirst, Initial(defn, map[]), first) && Kept(defn, first)
    ensures Driven(defn, AskFirst, Approved(first, map["a" := "ok"]), second)
    ensures Life(defn, AskFirst, map[], [first, second], [map["a" := "ok"]])
  {
    hide Driven, Sane, Kept, Driving, Life, Listed;
    InitialIsSane(defn, map[]);
    InitialIsKept(defn, map[]);
    DrivingIsDriven(defn, AskFirst, Initial(defn, map[]));
    first := Driving(defn, AskFirst, Initial(defn, map[]));
    DriveKeeps(defn, AskFirst, Initial(defn, map[]), first);
    ApprovalsKeepSane(defn, first, map["a" := "ok"]);
    DrivingIsDriven(defn, AskFirst, Approved(first, map["a" := "ok"]));
    second := Driving(defn, AskFirst, Approved(first, map["a" := "ok"]));
    LifeOfTwo(defn, AskFirst, map[], first, second, map["a" := "ok"]);
  }

  /**
   A step that waits once and would return as soon as it is approved: with the default of no
   retries its approved run ends FAILED, with any retries it ends COMPLETED.
   */
  lemma ApprovalNeedsARetry(maxRetries: nat) returns (hist: seq<RunState>, approvals: seq<map<string, string>>)
    ensures var step := WorkflowStep("a", [], None, Null, maxRetries);
      && |hist| == 2 && Life([step], AskFirst, map[], hist, approvals)
      && ApprovedWaiting(step, hist[0], approvals[0])
      && hist[1].status == if maxRetries == 0 then RunFailed else RunCompleted
  {
    hide Life, Retried, Progressed, Sane, Quiescent;
    var step := WorkflowStep("a", [], None, Null, maxRetries);
    var defn := [step];
    var first, second := TwoDrives(defn);
    AskFirstAttempts(step);
    assert defn[0] == step && IdSet(defn) == {"a"};
    assert EntryJudged(step, AskFirst, Initial(defn, map[]), first);
    assert first.steps["a"] == Asked;
    ResumeJudges(defn, AskFirst, first, map["a" := "ok"], second, 0);
    hist, approvals := [first, second], [map["a" := "ok"]];
    assert second.steps["a"].status == if maxRetries == 0 then Running else Completed;
  }

  function Waiter(maxRetries: nat): WorkflowStep {
    WorkflowStep("a", [], Some("step.b"), Null, maxRetries)
  }

  const Writer := WorkflowStep("b", [], None, Null, 0)

  predicate Pair(defn: seq<WorkflowStep>, maxRetries: nat) {
    defn == [Waiter(maxRetries), Writer]
  }

  lemma PairStarts(defn: seq<WorkflowStep>, maxRetries: nat, first: RunState)
    requires Pair(defn, maxRetries) && Driven(defn, AskFirst, Initial(defn, map[]), first) && Kept(defn, first)
    ensures first.steps == map["a" := Asked, "b" := StepRun(Completed, 1, Data(1), None, None)]
    ensures first.status == RunPaused && !ConditionPasses(Waiter(maxRetries), first.context)
  {
    PairWellFormed(defn);
    hide IdSet, Retried, Driven, WellFormed, Kept, ConditionPasses, Initial, RunStatusOf;
    StartedAtOnce(defn, first, 0);
    StartedAtOnce(defn, first, 1);
    AskFirstAttempts(Waiter(maxRetries));
    AskFirstAttempts(Writer);
    DrivenShape(defn, Initial(defn, map[]), first);
    SameRecords(first.steps, Asked, StepRun(Completed, 1, Data(1), None, None));
    WriterWrote(defn, maxRetries, first);
  }

  lemma SameRecords(steps: map<string, StepRun>, a: StepRun, b: StepRun)
    requires steps.Keys == {"a", "b"} && steps["a"] == a && steps["b"] == b
    ensures steps == map["a" := a, "b" := b]
    ensures a.status == WaitingApproval ==> RunStatusOf(steps) == RunPaused
  {
  }

  /** A step that depends on nothing and whose condition passes is executed by a start. */
  lemma StartedAtOnce(defn: seq<WorkflowStep>, first: RunState, i: nat)
    requires Driven(defn, AskFirst, Initial(defn, map[]), first) && i < |defn|
    requires defn[i].dependsOn == [] && (defn[i].conditionKey.None? || defn[i].conditionEquals == Null)
    ensures defn[i].id in first.steps && first.steps[defn[i].id] == Retried(defn[i], FreshStep, AskFirst)
  {
    hide Rested, Retried;
    assert EntryJudged(defn[i], AskFirst, Initial(defn, map[]), first);
  }

  lemma DrivenShape(defn: seq<WorkflowStep>, before: RunState, after: RunState)
    requires Driven(defn, AskFirst, before, after)
    ensures after.steps.Keys == IdSet(defn) && after.status == RunStatusOf(after.steps)
  {
  }

  lemma WriterWrote(defn: seq<WorkflowStep>, maxRetries: nat, first: RunState)
    requires Kept(defn, first) && "b" in first.steps && first.steps["b"].status == Completed
    requires first.steps["b"].output == Data(1)
    ensures !ConditionPasses(Waiter(maxRetries), first.context)
  {
    assert first.context[StepKey("b")] == Data(1) && StepKey("b") == "step.b";
  }

  lemma PairResumes(defn: seq<WorkflowStep>, maxRetries: nat, first: RunState, second: RunState)
    requires Pair(defn, maxRetries) && Kept(defn, first)
    requires Driven(defn, AskFirst, Approved(first, map["a" := "ok"]), second)
    requires first.steps == map["a" := Asked, "b" := StepRun(Completed, 1, Data(1), None, None)]
    requires !ConditionPasses(Waiter(maxRetries), first.context)
    ensures second.status == RunCompleted && "a" in second.steps
    ensures second.steps["a"].status == Skipped && second.steps["a"].attempts == 1
  {
    hide Kept, Retried, Progressed, Quiescent, ConditionPasses;
    ResumeJudges(defn, AskFirst, first, map["a" := "ok"], second, 0);
    RestedKeepsDecided(defn, AskFirst, Approved(first, map["a" := "ok"]), second, "b");
    assert second.steps.Keys == {"a", "b"};
  }

  /**
   A step that waits while another step writes what its condition reads: approved, it is skipped
   with all its retries left, and the run ends COMPLETED without it.
   */
  lemma ApprovalNeedsItsCondition(maxRetries: nat) returns (hist: seq<RunState>, approvals: seq<map<string, string>>)
    ensures var defn := [Waiter(maxRetries), Writer];
      && WellFormed(defn) && |hist| == 2 && Life(defn, AskFirst, map[], hist, approvals)
      && hist[0].status == RunPaused && ApprovedWaiting(defn[0], hist[0], approvals[0]) && hist[0].steps["a"].attempts == 1
      && hist[1].status == RunCompleted && "a" in hist[1].steps
      && hist[1].steps["a"].status == Skipped && hist[1].steps["a"].attempts == 1
  {
    hide Life, Driven, Kept, WellFormed;
    var defn := [Waiter(maxRetries), Writer];
    PairWellFormed(defn);
    var first, second := TwoDrives(defn);
    PairStarts(defn, maxRetries, first);
    PairResumes(defn, maxRetries, first, second);
    hist, approvals := [first, second], [map["a" := "ok"]];
  }

  lemma PairWellFormed(defn: seq<WorkflowStep>)
    requires |defn| == 2 && defn[0].id == "a" && defn[1].id == "b" && defn[0].dependsOn == defn[1].dependsOn == []
    ensures WellFormed(defn) && UniqueIds(defn) && IdSet(defn) == {"a", "b"}
  {
    hide HasCycle;
    DepsOfAt(defn, 0);
    DepsOfAt(defn, 1);
    assert defn[0].id in IdSet(defn) && defn[1].id in IdSet(defn);
    assert IdSet(defn) == {"a", "b"};
    OrderExcludesCycles(DepsOf(defn), ["a", "b"]);
  }
}
