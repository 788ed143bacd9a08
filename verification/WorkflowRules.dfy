/**
 What every state of a run's life looks like, status by status: which steps can have been
 attempted, skipped or left pending, what the run status says, and what the context holds.
 */
module WorkflowRules {
  import opened Common
  import opened WorkflowModels
  import opened WorkflowGraph
  import opened WorkflowSemantics
  import opened WorkflowLives

  // ---- one step's record ----------------------------------------------------------------

  /** What one more attempt does to a step's record, outcome by outcome. */
  lemma AttemptRule(step: WorkflowStep, s: StepRun, h: Handlers)
    requires s.attempts <= step.maxRetries
    ensures var r, n := Retried(step, s, h), s.attempts + 1;
      match h(step.id, n, s.approvalId)
      case Returned(v) => r == StepRun(Completed, n, v, None, s.approvalId)
      case Waits(v) => r == StepRun(WaitingApproval, n, v, None, s.approvalId)
      case Raised(e) =>
        if n == step.maxRetries + 1 then r == StepRun(Failed, n, s.output, Some(e), s.approvalId)
        else r == Retried(step, s.(attempts := n, error := Some(e)), h)
  {
    var n := s.attempts + 1;
    var next := Concluded(step, s.(status := Running), n, h(step.id, n, s.approvalId));
    assert n == step.maxRetries + 1 ==> RetriedFrom(step, next, n + 1, h) == next;
  }

  // ---- dependencies ---------------------------------------------------------------------

  /** In every state of a life the dependencies of a step that was ever attempted are COMPLETED or SKIPPED. */
  lemma AttemptedOnlyAfterDependencies(defn: seq<WorkflowStep>, h: Handlers, context: map<string, Value>,
      hist: seq<RunState>, approvals: seq<map<string, string>>, k: nat, i: nat, d: string)
    requires Life(defn, h, context, hist, approvals) && k < |hist| && i < |defn| && d in defn[i].dependsOn
    ensures defn[i].id in hist[k].steps
    ensures hist[k].steps[defn[i].id].attempts >= 1 ==>
      d in hist[k].steps && (hist[k].steps[d].status == Completed || hist[k].steps[d].status == Skipped)
  {
    LifeKept(defn, h, context, hist, approvals, k);
    assert FoundedStep(defn, defn[i], hist[k]);
  }

  /** A dependent of a step at rest in RUNNING is never attempted, before or after. */
  lemma DependentOfRunningNeverRuns(defn: seq<WorkflowStep>, h: Handlers, context: map<string, Value>,
      hist: seq<RunState>, approvals: seq<map<string, string>>, k: nat, j: nat, i: nat, dep: WorkflowStep)
    requires Life(defn, h, context, hist, approvals) && k < |hist| && j < |hist| && i < |defn|
    requires dep in defn && dep.id in defn[i].dependsOn
    requires dep.id in hist[k].steps && hist[k].steps[dep.id].status == Running
    ensures defn[i].id in hist[j].steps && hist[j].steps[defn[i].id].attempts == 0
    ensures CallsOf(hist[j].calls, defn[i].id) == []
  {
    hide Life, Kept;
    AttemptedOnlyAfterDependencies(defn, h, context, hist, approvals, j, i, dep.id);
    AttemptedOnlyAfterDependencies(defn, h, context, hist, approvals, k, i, dep.id);
    if k <= j {
      LifeStable(defn, h, context, hist, approvals, k, j, dep);
    } else {
      LifeStable(defn, h, context, hist, approvals, j, k, defn[i]);
    }
    CallsAreAttempts(defn, h, context, hist, approvals, j, i);
  }

  /** The attempt count is the number of handler calls made. */
  lemma CallsAreAttempts(defn: seq<WorkflowStep>, h: Handlers, context: map<string, Value>,
      hist: seq<RunState>, approvals: seq<map<string, string>>, k: nat, i: nat)
    requires Life(defn, h, context, hist, approvals) && k < |hist| && i < |defn|
    ensures defn[i].id in hist[k].steps
    ensures |CallsOf(hist[k].calls, defn[i].id)| == hist[k].steps[defn[i].id].attempts
  {
    LifeKept(defn, h, context, hist, approvals, k);
    assert AttemptsInOrder(CallsOf(hist[k].calls, defn[i].id), hist[k].steps[defn[i].id].attempts);
  }

  /** In every state of a life a step with a FAILED dependency is SKIPPED and was never attempted. */
  lemma FailedDependencySkips(defn: seq<WorkflowStep>, h: Handlers, context: map<string, Value>,
      hist: seq<RunState>, approvals: seq<map<string, string>>, k: nat, i: nat, d: string)
    requires Life(defn, h, context, hist, approvals) && k < |hist| && i < |defn| && d in defn[i].dependsOn
    requires d in hist[k].steps && hist[k].steps[d].status == Failed
    ensures defn[i].id in hist[k].steps
    ensures hist[k].steps[defn[i].id].status == Skipped && hist[k].steps[defn[i].id].attempts == 0
  {
    AttemptedOnlyAfterDependencies(defn, h, context, hist, approvals, k, i, d);
    LifeDriven(defn, h, context, hist, approvals, k);
    LifeKept(defn, h, context, hist, approvals, k);
    assert FoundedStep(defn, defn[i], hist[k]);
    assert AnyDepFailed(defn[i], hist[k].steps);
  }

  predicate Unfinished(steps: map<string, StepRun>, d: string) {
    && d in steps
    && (steps[d].status == Pending || steps[d].status == WaitingApproval || steps[d].status == Running)
  }

  /** A step is PENDING only for want of a dependency that is PENDING, WAITING_APPROVAL or RUNNING. */
  lemma PendingWantsDependency(defn: seq<WorkflowStep>, h: Handlers, context: map<string, Value>,
      hist: seq<RunState>, approvals: seq<map<string, string>>, k: nat, i: nat)
    requires Life(defn, h, context, hist, approvals) && k < |hist| && i < |defn| && KnownDeps(defn)
    requires defn[i].id in hist[k].steps && hist[k].steps[defn[i].id].status == Pending
    ensures exists d :: d in defn[i].dependsOn && Unfinished(hist[k].steps, d)
  {
    LifeDriven(defn, h, context, hist, approvals, k);
    var d := BlockedBy(defn, hist[k].steps, i);
  }

  /** In every state of a life a SKIPPED step without a condition has a FAILED dependency. */
  lemma {:induction false} SkipHasReason(defn: seq<WorkflowStep>, h: Handlers, context: map<string, Value>,
      hist: seq<RunState>, approvals: seq<map<string, string>>, k: nat, i: nat) returns (d: string)
    requires Life(defn, h, context, hist, approvals) && k < |hist| && i < |defn| && defn[i].conditionKey.None?
    requires defn[i].id in hist[k].steps && hist[k].steps[defn[i].id].status == Skipped
    ensures d in defn[i].dependsOn && d in hist[k].steps && hist[k].steps[d].status == Failed
  {
    hide Life, Driven;
    if k == 0 {
      LifeBegins(defn, h, context, hist, approvals);
      d := SkippedNow(defn, h, Initial(defn, context), hist[0], i);
    } else {
      var before := Approved(hist[k - 1], approvals[k - 1]);
      LifeStep(defn, h, context, hist, approvals, k - 1);
      LifeDriven(defn, h, context, hist, approvals, k - 1);
      if before.steps[defn[i].id].status == Pending {
        d := SkippedNow(defn, h, before, hist[k], i);
      } else {
        DecidedStays(defn, h, before, hist[k]);
        d := SkipHasReason(defn, h, context, hist, approvals, k - 1, i);
      }
    }
  }

  lemma SkippedNow(defn: seq<WorkflowStep>, h: Handlers, before: RunState, after: RunState, i: nat) returns (d: string)
    requires i < |defn| && Driven(defn, h, before, after) && defn[i].conditionKey.None?
    requires before.steps[defn[i].id].status == Pending && after.steps[defn[i].id].status == Skipped
    ensures d in defn[i].dependsOn && d in after.steps && after.steps[d].status == Failed
  {
    OutcomeRule(defn, h, before, after, i);
    RetriedBounds(defn[i], before.steps[defn[i].id], h);
    assert AnyDepFailed(defn[i], after.steps);
    d :| d in defn[i].dependsOn && d in after.steps && after.steps[d].status == Failed;
  }

  // ---- conditions -----------------------------------------------------------------------

  /** What a condition compares: the value under its key, or null when the key is missing. */
  lemma ConditionMeaning(step: WorkflowStep, context: map<string, Value>)
    ensures step.conditionKey.None? ==> ConditionPasses(step, context)
    ensures step.conditionKey.Some? && step.conditionKey.value in context ==>
      (ConditionPasses(step, context) <==> context[step.conditionKey.value] == step.conditionEquals)
    ensures step.conditionKey.Some? && step.conditionKey.value !in context ==>
      (ConditionPasses(step, context) <==> step.conditionEquals == Null)
  {
  }

  /** A start attempts a step without dependencies exactly when the given context meets its condition. */
  lemma StartMeetsCondition(defn: seq<WorkflowStep>, h: Handlers, context: map<string, Value>, after: RunState, i: nat)
    requires Driven(defn, h, Initial(defn, context), after) && i < |defn| && defn[i].dependsOn == []
    ensures var step, r := defn[i], after.steps[defn[i].id];
      var met := step.conditionKey.None? ||
        (if step.conditionKey.value in context then context[step.conditionKey.value] == step.conditionEquals
         else step.conditionEquals == Null);
      && (met ==> r.attempts >= 1 && r.status != Skipped)
      && (!met ==> r == StepRun(Skipped, 0, Null, None, None))
  {
    OutcomeRule(defn, h, Initial(defn, context), after, i);
    RetriedBounds(defn[i], FreshStep, h);
    ConditionMeaning(defn[i], context);
  }

  /** A condition on a direct dependency's output is met exactly by what that dependency returned. */
  lemma DependencyMeetsCondition(defn: seq<WorkflowStep>, h: Handlers, context: map<string, Value>, after: RunState,
                                 i: nat, d: string)
    requires Driven(defn, h, Initial(defn, context), after) && i < |defn|
    requires d in defn[i].dependsOn && defn[i].conditionKey == Some("step." + d)
    requires forall x :: x in defn[i].dependsOn ==>
      x in after.steps && (after.steps[x].status == Completed || after.steps[x].status == Skipped)
    requires after.steps[d].status == Completed
    ensures var r := after.steps[defn[i].id];
      && (after.steps[d].output == defn[i].conditionEquals ==> r.attempts >= 1 && r.status != Skipped)
      && (after.steps[d].output != defn[i].conditionEquals ==> r == StepRun(Skipped, 0, Null, None, None))
  {
    var key := StepKey(d);
    assert key == "step." + d && key[5..] == d;
    forall j | 0 <= j < |defn| && key == StepKey(defn[j].id)
      ensures defn[j].id == d
    {
      assert StepKey(defn[j].id)[5..] == defn[j].id;
    }
    assert SteadyCondition(defn, Initial(defn, context).steps, defn[i]);
    assert AllDepsSettled(defn[i], after.steps);
    OutcomeRule(defn, h, Initial(defn, context), after, i);
    RetriedBounds(defn[i], FreshStep, h);
  }

  // ---- run status -----------------------------------------------------------------------

  /** What the status of a run at rest says about its steps. */
  lemma RunStatusMeaning(defn: seq<WorkflowStep>, h: Handlers, before: RunState, after: RunState)
    requires Driven(defn, h, before, after)
    ensures var m := after.steps;
      && (after.status == RunCompleted <==> forall id :: id in m ==> m[id].status == Completed || m[id].status == Skipped)
      && (after.status == RunPaused <==> exists id :: id in m && m[id].status == WaitingApproval)
      && (after.status == RunFailed <==>
            (forall id :: id in m ==> m[id].status != WaitingApproval) &&
            exists id :: id in m && m[id].status != Completed && m[id].status != Skipped)
  {
    hide Progressed, Quiescent;
  }

  // ---- context --------------------------------------------------------------------------

  /** The output of a completed step, under its key. */
  predicate OutputOf(steps: map<string, StepRun>, id: string, key: string, value: Value) {
    id in steps && steps[id].status == Completed && key == "step." + id && value == steps[id].output
  }

  /**
   What a context holds compared with an earlier one: nothing is lost, and what is new or
   different is the output of a completed step under "step.<id>".
   */
  ghost predicate OutputsAdded(was: map<string, Value>, now: map<string, Value>, steps: map<string, StepRun>) {
    && (forall key :: key in was ==> key in now)
    && forall key :: key in now && !(key in was && now[key] == was[key]) ==>
         exists id :: OutputOf(steps, id, key, now[key])
  }

  lemma DriveAddsOutputs(defn: seq<WorkflowStep>, h: Handlers, before: RunState, after: RunState)
    requires Driven(defn, h, before, after)
    ensures OutputsAdded(before.context, after.context, after.steps)
  {
    hide Quiescent, EntryJudged, AllJustified, CallsAccounted;
    var added := NewOutputs(before.steps, after.steps);
    forall key | key in added
      ensures exists id :: OutputOf(after.steps, id, key, added[key])
    {
      var id :| id in after.steps && StepKey(id) == key && after.steps[id].status == Completed &&
        added[key] == after.steps[id].output;
      assert OutputOf(after.steps, id, key, added[key]);
    }
  }

  /** Over a whole life the context is the given one plus the outputs of completed steps. */
  lemma {:induction false} LifeContext(defn: seq<WorkflowStep>, h: Handlers, context: map<string, Value>,
      hist: seq<RunState>, approvals: seq<map<string, string>>, k: nat)
    requires Life(defn, h, context, hist, approvals) && k < |hist|
    ensures OutputsAdded(context, hist[k].context, hist[k].steps)
  {
    hide Life, Driven;
    if k == 0 {
      LifeBegins(defn, h, context, hist, approvals);
      DriveAddsOutputs(defn, h, Initial(defn, context), hist[0]);
    } else {
      LifeContext(defn, h, context, hist, approvals, k - 1);
      LifeStep(defn, h, context, hist, approvals, k - 1);
      var before := Approved(hist[k - 1], approvals[k - 1]);
      DriveAddsOutputs(defn, h, before, hist[k]);
      DecidedStays(defn, h, before, hist[k]);
      ApprovingAddsNothing(hist[k - 1], approvals[k - 1]);
      AddedTwice(context, hist[k - 1], before, hist[k]);
    }
  }

  lemma DecidedStays(defn: seq<WorkflowStep>, h: Handlers, before: RunState, after: RunState)
    requires Driven(defn, h, before, after)
    ensures before.steps.Keys == after.steps.Keys
    ensures forall id :: id in before.steps && before.steps[id].status != Pending ==> after.steps[id] == before.steps[id]
  {
    DriveOnlyMovesPending(defn, h, before, after);
  }

  lemma ApprovingAddsNothing(run: RunState, approvals: map<string, string>)
    ensures var before := Approved(run, approvals);
      && before.context == run.context && before.steps.Keys == run.steps.Keys
      && forall id :: id in run.steps && run.steps[id].status == Completed ==>
           before.steps[id].status == Completed && before.steps[id].output == run.steps[id].output
  {
  }

  lemma AddedTwice(context: map<string, Value>, first: RunState, before: RunState, second: RunState)
    requires OutputsAdded(context, first.context, first.steps) && before.context == first.context
    requires before.steps.Keys == first.steps.Keys == second.steps.Keys
    requires forall id :: id in first.steps && first.steps[id].status == Completed ==>
      before.steps[id].status == Completed && before.steps[id].output == first.steps[id].output
    requires forall id :: id in before.steps && before.steps[id].status == Completed ==> second.steps[id] == before.steps[id]
    requires OutputsAdded(before.context, second.context, second.steps)
    ensures OutputsAdded(context, second.context, second.steps)
  {
    forall key | key in second.context && !(key in context && second.context[key] == context[key])
      ensures exists id :: OutputOf(second.steps, id, key, second.context[key])
    {
      if key in first.context && second.context[key] == first.context[key] {
        var id :| OutputOf(first.steps, id, key, first.context[key]);
        assert OutputOf(second.steps, id, key, second.context[key]);
      }
    }
  }
}
