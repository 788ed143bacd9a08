/**
 Theorems about whole lives of a run: a start followed by any number of resumes. They use
 only what Start and Resume guarantee, so they hold for every list order and batch split.
 */
module WorkflowLives {
  import opened WorkflowModels
  import opened WorkflowGraph
  import opened WorkflowSemantics

  /** hist[0] is a start's result, and each later state a resume of the one before. */
  ghost predicate Life(defn: seq<WorkflowStep>, h: Handlers, context: map<string, Value>,
                       hist: seq<RunState>, approvals: seq<map<string, string>>)
    ensures Life(defn, h, context, hist, approvals) ==> |hist| == |approvals| + 1
  {
    |hist| == |approvals| + 1 &&
    if approvals == [] then Driven(defn, h, Initial(defn, context), hist[0])
    else
      var n := |approvals|;
      Life(defn, h, context, hist[..n], approvals[..n - 1]) &&
      Driven(defn, h, Approved(hist[n - 1], approvals[n - 1]), hist[n])
  }

  /** No condition of the list depends on the order in which steps are handled. */
  predicate ConditionsOrderProof(defn: seq<WorkflowStep>, entry: map<string, StepRun>) {
    forall i :: 0 <= i < |defn| ==> OrderProof(defn, entry, defn[i])
  }

  // ---- the meaning of a drive is unique -------------------------------------------------

  ghost predicate Solves(defn: seq<WorkflowStep>, h: Handlers, before: RunState, m: map<string, StepRun>) {
    && before.steps.Keys == m.Keys == IdSet(defn)
    && forall i {:trigger Decide(defn[i], h, before, m)} :: 0 <= i < |defn| ==> m[defn[i].id] == Decide(defn[i], h, before, m)
  }

  /** An equation only looks at the outcomes of the step's own dependencies. */
  lemma DecideReadsDependencies(step: WorkflowStep, h: Handlers, before: RunState,
                                m: map<string, StepRun>, n: map<string, StepRun>)
    requires step.id in before.steps
    requires forall d :: d in step.dependsOn ==> d in m && d in n && m[d] == n[d]
    ensures Decide(step, h, before, m) == Decide(step, h, before, n)
  {
    assert AnyDepFailed(step, m) == AnyDepFailed(step, n);
    assert AllDepsSettled(step, m) == AllDepsSettled(step, n);
  }

  /** In a well-formed workflow the equations have at most one solution. */
  lemma UniqueOutcome(defn: seq<WorkflowStep>, h: Handlers, before: RunState,
                      m: map<string, StepRun>, n: map<string, StepRun>)
    requires WellFormed(defn) && Solves(defn, h, before, m) && Solves(defn, h, before, n)
    ensures m == n
  {
    var deps := DepsOf(defn);
    var differ := set id | id in m && m[id] != n[id];
    if differ != {} {
      forall a | a in differ
        ensures EdgeInto(deps, a, differ)
      {
        var i :| 0 <= i < |defn| && defn[i].id == a;
        DepsOfAt(defn, i);
        if forall d :: d in defn[i].dependsOn ==> m[d] == n[d] {
          DecideReadsDependencies(defn[i], h, before, m, n);
          assert false;
        }
        var d :| d in defn[i].dependsOn && m[d] != n[d];
        assert Edge(deps, a, d) && d in differ;
      }
      TrappedSetHasCycle(deps, differ);
      assert false;
    }
    assert forall id :: id in m ==> id !in differ;
  }

  lemma DriveSolves(defn: seq<WorkflowStep>, h: Handlers, before: RunState, after: RunState)
    requires ConditionsOrderProof(defn, before.steps) && Driven(defn, h, before, after)
    ensures Solves(defn, h, before, after.steps)
  {
    forall i | 0 <= i < |defn|
      ensures after.steps[defn[i].id] == Decide(defn[i], h, before, after.steps)
    {
      DrivenSolves(defn, h, before, after, i);
    }
  }

  predicate SameSteps(defn: seq<WorkflowStep>, other: seq<WorkflowStep>) {
    (forall i :: 0 <= i < |defn| ==> defn[i] in other) && (forall j :: 0 <= j < |other| ==> other[j] in defn)
  }

  lemma SameStepsOrderProof(defn: seq<WorkflowStep>, other: seq<WorkflowStep>, entry: map<string, StepRun>, step: WorkflowStep)
    requires SameSteps(defn, other) && OrderProof(defn, entry, step)
    ensures OrderProof(other, entry, step)
  {
    forall j | 0 <= j < |other|
      ensures exists i :: 0 <= i < |defn| && defn[i] == other[j]
    {
      assert other[j] in defn;
    }
  }

  lemma OtherSolvesAt(defn: seq<WorkflowStep>, other: seq<WorkflowStep>, h: Handlers, before: RunState, after: RunState, i: nat)
    requires SameSteps(defn, other) && Driven(other, h, before, after)
    requires i < |defn| && OrderProof(defn, before.steps, defn[i])
    ensures defn[i].id in before.steps && defn[i].id in after.steps
    ensures after.steps[defn[i].id] == Decide(defn[i], h, before, after.steps)
  {
    hide Decide, OrderProof;
    assert defn[i] in other;
    var j :| 0 <= j < |other| && other[j] == defn[i];
    SameStepsOrderProof(defn, other, before.steps, defn[i]);
    DrivenSolves(other, h, before, after, j);
  }

  /** Reordering the step list changes neither a step's outcome nor the context nor the run status. */
  lemma ListOrderIrrelevant(defn: seq<WorkflowStep>, other: seq<WorkflowStep>, h: Handlers,
                            before: RunState, after: RunState, after': RunState)
    requires WellFormed(defn) && ConditionsOrderProof(defn, before.steps) && SameSteps(defn, other)
    requires Driven(defn, h, before, after) && Driven(other, h, before, after')
    ensures after'.steps == after.steps && after'.context == after.context && after'.status == after.status
  {
    hide Decide, OrderProof, SameSteps, HasCycle;
    DriveSolves(defn, h, before, after);
    forall i | 0 <= i < |defn|
      ensures after'.steps[defn[i].id] == Decide(defn[i], h, before, after'.steps)
    {
      OtherSolvesAt(defn, other, h, before, after', i);
    }
    UniqueOutcome(defn, h, before, after.steps, after'.steps);
  }

  // ---- start ----------------------------------------------------------------------------

  /** No step is left RUNNING by a drive unless it was entered with its budget used up. */
  lemma RunningMeansExhausted(defn: seq<WorkflowStep>, h: Handlers, before: RunState, after: RunState, i: nat)
    requires i < |defn| && Driven(defn, h, before, after)
    requires after.steps[defn[i].id].status == Running && before.steps[defn[i].id].status != Running
    ensures var s := before.steps[defn[i].id];
      s.status == Pending && s.attempts > defn[i].maxRetries && after.steps[defn[i].id] == s.(status := Running)
  {
    assert Justified(defn, defn[i], h, before, after.steps);
    RetryRule(defn[i], before.steps[defn[i].id], h);
    RetriedBounds(defn[i], before.steps[defn[i].id], h);
  }

  /**
   The outcome of a pending step, whatever its condition reads. Every key is written at most
   once, so the check saw the entry or the final value: where they agree the outcome is exact,
   as it is when the dependencies are settled on entry, and when the condition is steady.
   */
  lemma OutcomeRule(defn: seq<WorkflowStep>, h: Handlers, before: RunState, after: RunState, i: nat)
    requires i < |defn| && Driven(defn, h, before, after) && before.steps[defn[i].id].status == Pending
    ensures var step, s, r := defn[i], before.steps[defn[i].id], after.steps[defn[i].id];
      && (AnyDepFailed(step, after.steps) ==> r == s.(status := Skipped))
      && (!AnyDepFailed(step, after.steps) && !AllDepsSettled(step, after.steps) ==> r == s)
      && (AllDepsSettled(step, after.steps) ==>
            && (r == s.(status := Skipped) || r == Retried(step, s, h))
            && (ConditionPasses(step, before.context) && ConditionPasses(step, after.context) ==> r == Retried(step, s, h))
            && (!ConditionPasses(step, before.context) && !ConditionPasses(step, after.context) ==>
                  r == s.(status := Skipped))
            && (SteadyCondition(defn, before.steps, step) ==>
                  r == if MeantToRun(step, before.context, after.steps) then Retried(step, s, h)
                       else s.(status := Skipped)))
      && (AllDepsSettled(step, before.steps) ==>
            r == if ConditionPasses(step, before.context) then Retried(step, s, h) else s.(status := Skipped))
  {
    assert Justified(defn, defn[i], h, before, after.steps);
    assert EntryJudged(defn[i], h, before, after);
    RetriedBounds(defn[i], before.steps[defn[i].id], h);
  }

  /** What else is true of a start: nothing rests in RUNNING, and an untouched step waits for a dependency. */
  lemma StartRule(defn: seq<WorkflowStep>, h: Handlers, context: map<string, Value>, after: RunState, i: nat)
    requires i < |defn| && KnownDeps(defn) && Driven(defn, h, Initial(defn, context), after)
    ensures var step, m := defn[i], after.steps;
      var unfinished := exists d :: d in step.dependsOn && m[d].status in {WaitingApproval, Pending};
      && m[step.id].status != Running
      && (AnyDepFailed(step, m) ==> m[step.id] == FreshStep.(status := Skipped))
      && (!AnyDepFailed(step, m) && unfinished ==> m[step.id] == FreshStep)
      && (AllDepsSettled(step, m) ==> m[step.id] != FreshStep)
      && (AnyDepFailed(step, m) || AllDepsSettled(step, m) || unfinished)
  {
    var step, m := defn[i], after.steps;
    var before := Initial(defn, context);
    OutcomeRule(defn, h, before, after, i);
    RetriedBounds(step, FreshStep, h);
    forall d | d in step.dependsOn
      ensures d in m && m[d].status != Running
    {
      assert d in IdSet(defn);
      var k :| 0 <= k < |defn| && defn[k].id == d;
      if m[d].status == Running {
        RunningMeansExhausted(defn, h, before, after, k);
      }
    }
  }

  // ---- no false deadlock ----------------------------------------------------------------

  /** A pending step of a drive that has stopped has a dependency that is neither settled nor failed. */
  lemma BlockedBy(defn: seq<WorkflowStep>, steps: map<string, StepRun>, i: nat) returns (d: string)
    requires KnownDeps(defn) && steps.Keys == IdSet(defn) && Quiescent(defn, steps)
    requires i < |defn| && steps[defn[i].id].status == Pending
    ensures d in defn[i].dependsOn && d in steps && steps[d].status in {Pending, WaitingApproval, Running}
  {
    assert !AnyDepFailed(defn[i], steps) && !AllDepsSettled(defn[i], steps);
    d :| d in defn[i].dependsOn && !(d in steps && Settled(steps[d].status));
    assert d in IdSet(defn);
  }

  /** If nothing waits and nothing rests in RUNNING, a drive only stops when every step is terminal. */
  lemma PendingNeedsBlocker(defn: seq<WorkflowStep>, steps: map<string, StepRun>)
    requires WellFormed(defn) && steps.Keys == IdSet(defn) && Quiescent(defn, steps)
    requires forall id :: id in steps ==> steps[id].status !in {WaitingApproval, Running}
    ensures forall id :: id in steps ==> Terminal(steps[id].status)
  {
    var deps := DepsOf(defn);
    var stuck := set id | id in steps && steps[id].status == Pending;
    if stuck != {} {
      forall a | a in stuck
        ensures EdgeInto(deps, a, stuck)
      {
        var i :| 0 <= i < |defn| && defn[i].id == a;
        DepsOfAt(defn, i);
        var d := BlockedBy(defn, steps, i);
        assert Edge(deps, a, d) && d in stuck;
      }
      TrappedSetHasCycle(deps, stuck);
      assert false;
    }
    forall id | id in steps
      ensures Terminal(steps[id].status)
    {
      assert id !in stuck;
    }
  }

  /** The no-progress FAILED exit is taken exactly when nothing waits and some step rests in RUNNING. */
  lemma NoFalseDeadlock(defn: seq<WorkflowStep>, h: Handlers, before: RunState, after: RunState)
    requires WellFormed(defn) && Driven(defn, h, before, after)
    ensures var m := after.steps;
      after.status == RunFailed <==>
        || ((forall id :: id in m ==> Terminal(m[id].status)) && exists id :: id in m && m[id].status == Failed)
        || ((forall id :: id in m ==> m[id].status != WaitingApproval) && exists id :: id in m && m[id].status == Running)
  {
    hide Progressed, Quiescent, HasCycle;
    if forall id :: id in after.steps ==> after.steps[id].status !in {WaitingApproval, Running} {
      PendingNeedsBlocker(defn, after.steps);
    }
  }

  lemma StartLeavesNothingRunning(defn: seq<WorkflowStep>, h: Handlers, context: map<string, Value>, after: RunState)
    requires Driven(defn, h, Initial(defn, context), after)
    ensures forall id :: id in after.steps ==> after.steps[id].status != Running
  {
    forall id | id in after.steps
      ensures after.steps[id].status != Running
    {
      var i :| 0 <= i < |defn| && defn[i].id == id;
      if after.steps[id].status == Running {
        RunningMeansExhausted(defn, h, Initial(defn, context), after, i);
      }
    }
  }

  /** With no step at rest in RUNNING, FAILED means that a step failed and PAUSED that one waits. */
  lemma StatusWithoutRunning(defn: seq<WorkflowStep>, steps: map<string, StepRun>)
    requires WellFormed(defn) && steps.Keys == IdSet(defn) && Quiescent(defn, steps)
    requires forall id :: id in steps ==> steps[id].status != Running
    ensures RunStatusOf(steps) == RunFailed ==>
      (forall id :: id in steps ==> Terminal(steps[id].status)) && exists id :: id in steps && steps[id].status == Failed
    ensures RunStatusOf(steps) == RunPaused <==> exists id :: id in steps && steps[id].status == WaitingApproval
  {
    if forall id :: id in steps ==> steps[id].status != WaitingApproval {
      PendingNeedsBlocker(defn, steps);
    }
  }

  /** From a start that exit is unreachable: FAILED then means that a step failed. */
  lemma StartNeverDeadlocks(defn: seq<WorkflowStep>, h: Handlers, context: map<string, Value>, after: RunState)
    requires WellFormed(defn) && Driven(defn, h, Initial(defn, context), after)
    ensures after.status == RunFailed ==>
      (forall id :: id in after.steps ==> Terminal(after.steps[id].status)) &&
      exists id :: id in after.steps && after.steps[id].status == Failed
    ensures after.status == RunPaused <==>
      exists id :: id in after.steps && after.steps[id].status == WaitingApproval
  {
    hide Progressed;
    StartLeavesNothingRunning(defn, h, context, after);
    StatusWithoutRunning(defn, after.steps);
  }

  // ---- what a drive and an approval keep ------------------------------------------------

  /**
   A step that has made an attempt has settled dependencies and, if its condition is local,
   a condition that still passes; an executed step has made an attempt.
   */
  predicate FoundedStep(defn: seq<WorkflowStep>, step: WorkflowStep, run: RunState) {
    step.id in run.steps &&
    var s := run.steps[step.id];
    && (s.status !in {Pending, Skipped} ==> s.attempts >= 1)
    && (s.attempts >= 1 ==> AllDepsSettled(step, run.steps))
    && (s.attempts >= 1 && LocalCondition(defn, step) ==> ConditionPasses(step, run.context))
  }

  predicate Kept(defn: seq<WorkflowStep>, run: RunState) {
    Sane(defn, run) &&
    forall i {:trigger FoundedStep(defn, defn[i], run)} :: 0 <= i < |defn| ==> FoundedStep(defn, defn[i], run)
  }

  /** A local condition of a settled step keeps its value through a drive. */
  lemma ConditionStays(defn: seq<WorkflowStep>, step: WorkflowStep, h: Handlers, before: RunState, after: RunState)
    requires Sane(defn, before) && Progressed(defn, h, before, after)
    requires LocalCondition(defn, step) && AllDepsSettled(step, before.steps)
    ensures AllDepsSettled(step, after.steps)
    ensures ConditionPasses(step, after.context) == ConditionPasses(step, before.context)
  {
    DriveOnlyMovesPending(defn, h, before, after);
    SettledPersists(step, before.context, before.steps, after.steps);
    ProgressStarts(defn, h, before);
    SteadyConditionAgrees(defn, step, h, before, before);
    SteadyConditionAgrees(defn, step, h, before, after);
  }

  lemma DriveKeepsFoundedStep(defn: seq<WorkflowStep>, h: Handlers, before: RunState, after: RunState, step: WorkflowStep)
    requires step in defn && Sane(defn, before) && Progressed(defn, h, before, after)
    requires FoundedStep(defn, step, before)
    ensures FoundedStep(defn, step, after)
  {
    var i :| 0 <= i < |defn| && defn[i] == step;
    assert Justified(defn, step, h, before, after.steps);
    RetriedBounds(step, before.steps[step.id], h);
    if before.steps[step.id].attempts >= 1 {
      DriveOnlyMovesPending(defn, h, before, after);
      SettledPersists(step, before.context, before.steps, after.steps);
      if LocalCondition(defn, step) {
        ConditionStays(defn, step, h, before, after);
      }
    } else if after.steps[step.id].attempts >= 1 && LocalCondition(defn, step) {
      SteadyConditionAgrees(defn, step, h, before, after);
    }
  }

  lemma DriveKeeps(defn: seq<WorkflowStep>, h: Handlers, before: RunState, after: RunState)
    requires Kept(defn, before) && Driven(defn, h, before, after)
    ensures Kept(defn, after)
  {
    DriveKeepsSane(defn, h, before, after);
    forall i | 0 <= i < |defn|
      ensures FoundedStep(defn, defn[i], after)
    {
      assert FoundedStep(defn, defn[i], before);
      DriveKeepsFoundedStep(defn, h, before, after, defn[i]);
    }
  }

  lemma InitialIsKept(defn: seq<WorkflowStep>, context: map<string, Value>)
    ensures Kept(defn, Initial(defn, context))
  {
    InitialIsSane(defn, context);
  }

  lemma ApprovalsKeepSettled(step: WorkflowStep, run: RunState, approvals: map<string, string>)
    requires AllDepsSettled(step, run.steps)
    ensures AllDepsSettled(step, Approved(run, approvals).steps)
  {
  }

  lemma ApprovalsKeep(defn: seq<WorkflowStep>, run: RunState, approvals: map<string, string>)
    requires Kept(defn, run)
    ensures Kept(defn, Approved(run, approvals))
  {
    ApprovalsKeepSane(defn, run, approvals);
    forall i | 0 <= i < |defn|
      ensures FoundedStep(defn, defn[i], Approved(run, approvals))
    {
      assert FoundedStep(defn, defn[i], run);
      if run.steps[defn[i].id].attempts >= 1 {
        ApprovalsKeepSettled(defn[i], run, approvals);
      }
    }
  }

  // ---- whole lives ----------------------------------------------------------------------

  lemma {:induction false} LifeStep(defn: seq<WorkflowStep>, h: Handlers, context: map<string, Value>,
                 hist: seq<RunState>, approvals: seq<map<string, string>>, k: nat)
    requires Life(defn, h, context, hist, approvals) && k < |approvals|
    ensures Driven(defn, h, Approved(hist[k], approvals[k]), hist[k + 1])
  {
    hide Driven;
    var n := |approvals|;
    if k < n - 1 {
      LifeStep(defn, h, context, hist[..n], approvals[..n - 1], k);
      assert hist[..n][k] == hist[k] && hist[..n][k + 1] == hist[k + 1] && approvals[..n - 1][k] == approvals[k];
    }
  }

  lemma {:induction false} LifeBegins(defn: seq<WorkflowStep>, h: Handlers, context: map<string, Value>,
                   hist: seq<RunState>, approvals: seq<map<string, string>>)
    requires Life(defn, h, context, hist, approvals)
    ensures Driven(defn, h, Initial(defn, context), hist[0])
  {
    hide Driven;
    if approvals != [] {
      LifeBegins(defn, h, context, hist[..|approvals|], approvals[..|approvals| - 1]);
    }
  }

  lemma LifeDriven(defn: seq<WorkflowStep>, h: Handlers, context: map<string, Value>,
                   hist: seq<RunState>, approvals: seq<map<string, string>>, k: nat)
    requires Life(defn, h, context, hist, approvals) && k < |hist|
    ensures hist[k].steps.Keys == IdSet(defn)
    ensures Quiescent(defn, hist[k].steps) && hist[k].status == RunStatusOf(hist[k].steps)
  {
    if k > 0 {
      LifeStep(defn, h, context, hist, approvals, k - 1);
    } else {
      LifeBegins(defn, h, context, hist, approvals);
    }
  }

  /** Every state of a life is well-kept: budget, exact call history, outputs in the context. */
  lemma {:induction false} LifeKept(defn: seq<WorkflowStep>, h: Handlers, context: map<string, Value>,
                                    hist: seq<RunState>, approvals: seq<map<string, string>>, k: nat)
    requires Life(defn, h, context, hist, approvals) && k < |hist|
    ensures Kept(defn, hist[k])
  {
    hide Life, Driven, Kept, Sane;
    if k == 0 {
      InitialIsKept(defn, context);
      LifeBegins(defn, h, context, hist, approvals);
      DriveKeeps(defn, h, Initial(defn, context), hist[0]);
    } else {
      LifeKept(defn, h, context, hist, approvals, k - 1);
      ApprovalsKeep(defn, hist[k - 1], approvals[k - 1]);
      LifeStep(defn, h, context, hist, approvals, k - 1);
      DriveKeeps(defn, h, Approved(hist[k - 1], approvals[k - 1]), hist[k]);
    }
  }

  lemma RunningBlocksCompletion(steps: map<string, StepRun>, id: string)
    requires id in steps && steps[id].status == Running
    ensures RunStatusOf(steps) ==
      if exists other :: other in steps && steps[other].status == WaitingApproval then RunPaused else RunFailed
  {
  }

  /** Everything about a step run except the approval id, which a resume may still overwrite. */
  predicate SameOutcome(a: StepRun, b: StepRun) {
    a.status == b.status && a.attempts == b.attempts && a.output == b.output && a.error == b.error
  }

  /** Attempts only grow, and a step that is neither pending nor waiting keeps its outcome. */
  predicate StablePair(a: RunState, b: RunState, id: string) {
    && id in a.steps && id in b.steps
    && a.steps[id].attempts <= b.steps[id].attempts
    && (a.steps[id].status !in {Pending, WaitingApproval} ==> SameOutcome(a.steps[id], b.steps[id]))
  }

  lemma ResumeStable(defn: seq<WorkflowStep>, h: Handlers, run: RunState, approvals: map<string, string>,
                     after: RunState, step: WorkflowStep)
    requires step in defn && Driven(defn, h, Approved(run, approvals), after)
    ensures StablePair(run, after, step.id)
  {
    var i :| 0 <= i < |defn| && defn[i] == step;
    assert Justified(defn, defn[i], h, Approved(run, approvals), after.steps);
    JustifiedBounds(defn, step, h, Approved(run, approvals), after.steps);
  }

  lemma {:induction false} StableChain(hist: seq<RunState>, i: nat, j: nat, id: string)
    requires i <= j < |hist| && id in hist[i].steps
    requires forall a, b {:trigger StablePair(hist[a], hist[b], id)} ::
      i <= a < j && b == a + 1 ==> StablePair(hist[a], hist[b], id)
    ensures StablePair(hist[i], hist[j], id)
    decreases j
  {
    if i < j {
      StableChain(hist, i, j - 1, id);
      assert StablePair(hist[j - 1], hist[j], id);
    }
  }

  lemma LifeStepStable(defn: seq<WorkflowStep>, h: Handlers, context: map<string, Value>,
      hist: seq<RunState>, approvals: seq<map<string, string>>, k: nat, step: WorkflowStep)
    requires Life(defn, h, context, hist, approvals) && k < |approvals| && step in defn
    ensures StablePair(hist[k], hist[k + 1], step.id)
  {
    hide Life, Driven;
    LifeStep(defn, h, context, hist, approvals, k);
    ResumeStable(defn, h, hist[k], approvals[k], hist[k + 1], step);
  }

  /** Across a life attempts only grow, and settled, failed and RUNNING steps never change. */
  lemma LifeStable(defn: seq<WorkflowStep>, h: Handlers, context: map<string, Value>,
      hist: seq<RunState>, approvals: seq<map<string, string>>, i: nat, j: nat, step: WorkflowStep)
    requires Life(defn, h, context, hist, approvals) && i <= j < |hist| && step in defn
    ensures StablePair(hist[i], hist[j], step.id)
  {
    hide Life, Driven;
    LifeDriven(defn, h, context, hist, approvals, i);
    forall a, b | i <= a < j && b == a + 1
      ensures StablePair(hist[a], hist[b], step.id)
    {
      LifeStepStable(defn, h, context, hist, approvals, a, step);
    }
    StableChain(hist, i, j, step.id);
  }

  /** Over a whole life a step's handler is called at most max_retries + 1 times, never twice for one attempt. */
  lemma LifeBudget(defn: seq<WorkflowStep>, h: Handlers, context: map<string, Value>,
                   hist: seq<RunState>, approvals: seq<map<string, string>>, k: nat, i: nat)
    requires Life(defn, h, context, hist, approvals) && k < |hist| && i < |defn|
    ensures var calls := CallsOf(hist[k].calls, defn[i].id);
      |calls| <= defn[i].maxRetries + 1 && forall n :: 0 <= n < |calls| ==> calls[n].attempt == n + 1
  {
    LifeKept(defn, h, context, hist, approvals, k);
    var id := defn[i].id;
    assert hist[k].steps[defn[i].id].attempts <= defn[i].maxRetries + 1;
    assert AttemptsInOrder(CallsOf(hist[k].calls, id), hist[k].steps[id].attempts);
  }

  /** Each completed step's output is in the context under its own key, in every state of a life. */
  lemma LifeOutputs(defn: seq<WorkflowStep>, h: Handlers, context: map<string, Value>,
                    hist: seq<RunState>, approvals: seq<map<string, string>>, k: nat, id: string)
    requires Life(defn, h, context, hist, approvals) && k < |hist|
    requires id in hist[k].steps && hist[k].steps[id].status == Completed
    ensures StepKey(id) in hist[k].context && hist[k].context[StepKey(id)] == hist[k].steps[id].output
  {
    LifeKept(defn, h, context, hist, approvals, k);
  }
}
