/**
 What a drive of a workflow run may do, stated as equations between the state before and
 the state after, without saying in which order or in which batches steps were handled.
 */
module WorkflowSemantics {
  import opened Common
  import opened WorkflowModels

  /** A handler call that was made, in the order the calls were made. */
  datatype Call = Call(step: string, attempt: nat, approvalId: Option<string>)

  datatype RunState = RunState(
    status: WorkflowStatus,
    context: map<string, Value>,
    steps: map<string, StepRun>,
    calls: seq<Call>)

  // ---- one step -------------------------------------------------------------------------

  /** The record of a step whose attempt n ended in `result`; only the last attempt may fail it. */
  function Concluded(step: WorkflowStep, s: StepRun, n: nat, result: AttemptResult): StepRun {
    match result
    case Returned(v) => s.(status := Completed, attempts := n, output := v, error := None)
    case Waits(v) => s.(status := WaitingApproval, attempts := n, output := v, error := None)
    case Raised(e) =>
      s.(status := if n > step.maxRetries then Failed else s.status, attempts := n, error := Some(e))
  }

  /** The step run after attempts k, k+1, ... have been made, until one does not raise. */
  function RetriedFrom(step: WorkflowStep, s: StepRun, k: nat, h: Handlers): StepRun
    decreases step.maxRetries + 2 - k
  {
    if k > step.maxRetries + 1 then s
    else
      var next := Concluded(step, s, k, h(step.id, k, s.approvalId));
      if h(step.id, k, s.approvalId).Raised? then RetriedFrom(step, next, k + 1, h) else next
  }

  /** The step run after a step has been executed from its current attempt count. */
  function Retried(step: WorkflowStep, s: StepRun, h: Handlers): StepRun {
    RetriedFrom(step, s.(status := Running), s.attempts + 1, h)
  }

  /** Attempt n is the first one from k on that does not raise. */
  predicate FirstReturn(step: WorkflowStep, approvalId: Option<string>, k: nat, n: nat, h: Handlers) {
    && k <= n <= step.maxRetries + 1
    && !h(step.id, n, approvalId).Raised?
    && forall j :: k <= j < n ==> h(step.id, j, approvalId).Raised?
  }

  lemma {:induction false} RetriedFromReturns(step: WorkflowStep, s: StepRun, k: nat, n: nat, h: Handlers)
    requires FirstReturn(step, s.approvalId, k, n, h)
    ensures RetriedFrom(step, s, k, h) == Concluded(step, s, n, h(step.id, n, s.approvalId))
    decreases n - k
  {
    if k < n {
      RetriedFromReturns(step, Concluded(step, s, k, h(step.id, k, s.approvalId)), k + 1, n, h);
    }
  }

  lemma {:induction false} RetriedFromExhausts(step: WorkflowStep, s: StepRun, k: nat, h: Handlers)
    requires k <= step.maxRetries + 1
    requires forall j :: k <= j <= step.maxRetries + 1 ==> h(step.id, j, s.approvalId).Raised?
    ensures RetriedFrom(step, s, k, h) ==
      s.(status := Failed, attempts := step.maxRetries + 1,
         error := Some(h(step.id, step.maxRetries + 1, s.approvalId).error))
    decreases step.maxRetries + 1 - k
  {
    if k <= step.maxRetries {
      RetriedFromExhausts(step, Concluded(step, s, k, h(step.id, k, s.approvalId)), k + 1, h);
    }
  }

  /**
   The retry rule in full: nothing is attempted once the budget is used; otherwise the first
   attempt that does not raise decides; otherwise the last error does.
   */
  lemma RetryRule(step: WorkflowStep, s: StepRun, h: Handlers)
    ensures s.attempts > step.maxRetries ==> Retried(step, s, h) == s.(status := Running)
    ensures s.attempts <= step.maxRetries ==>
      || (exists n :: FirstReturn(step, s.approvalId, s.attempts + 1, n, h) &&
            Retried(step, s, h) == Concluded(step, s, n, h(step.id, n, s.approvalId)))
      || ((forall j :: s.attempts < j <= step.maxRetries + 1 ==> h(step.id, j, s.approvalId).Raised?) &&
          Retried(step, s, h) == s.(status := Failed, attempts := step.maxRetries + 1,
                                    error := Some(h(step.id, step.maxRetries + 1, s.approvalId).error)))
  {
    var running := s.(status := Running);
    if s.attempts <= step.maxRetries {
      if n :| s.attempts < n <= step.maxRetries + 1 && !h(step.id, n, s.approvalId).Raised? {
        var m := LeastReturn(step, s.approvalId, s.attempts + 1, n, h);
        RetriedFromReturns(step, running, s.attempts + 1, m, h);
        hide RetriedFrom;
        assert Retried(step, s, h) == Concluded(step, s, m, h(step.id, m, s.approvalId));
      } else {
        RetriedFromExhausts(step, running, s.attempts + 1, h);
      }
    }
  }

  lemma {:induction false} LeastReturn(step: WorkflowStep, a: Option<string>, k: nat, n: nat, h: Handlers) returns (m: nat)
    requires k <= n <= step.maxRetries + 1 && !h(step.id, n, a).Raised?
    ensures FirstReturn(step, a, k, m, h)
    decreases n - k
  {
    if !h(step.id, k, a).Raised? {
      m := k;
    } else {
      m := LeastReturn(step, a, k + 1, n, h);
    }
  }

  /** What every execution keeps: the budget, the approval id and the settled outcomes. */
  lemma RetriedBounds(step: WorkflowStep, s: StepRun, h: Handlers)
    ensures var r := Retried(step, s, h);
      && r.status !in {Pending, Skipped} && r.approvalId == s.approvalId && r.attempts >= s.attempts
      && (s.attempts <= step.maxRetries + 1 ==> r.attempts <= step.maxRetries + 1)
      && (r.status == Running <==> s.attempts > step.maxRetries)
      && (r.status == Failed ==> r.attempts == step.maxRetries + 1)
      && (r.status != Running ==> r.attempts > s.attempts)
  {
    RetryRule(step, s, h);
  }

  // ---- one run --------------------------------------------------------------------------

  predicate AnyDepFailed(step: WorkflowStep, steps: map<string, StepRun>) {
    exists d :: d in step.dependsOn && d in steps && steps[d].status == Failed
  }

  predicate AllDepsSettled(step: WorkflowStep, steps: map<string, StepRun>) {
    forall d :: d in step.dependsOn ==> d in steps && Settled(steps[d].status)
  }

  function ReadKey(context: map<string, Value>, key: string): Value {
    if key in context then context[key] else Null
  }

  predicate ConditionPasses(step: WorkflowStep, context: map<string, Value>) {
    step.conditionKey.None? || ReadKey(context, step.conditionKey.value) == step.conditionEquals
  }

  /** A condition may read an output key only if that step is a direct dependency. */
  predicate LocalCondition(defn: seq<WorkflowStep>, step: WorkflowStep) {
    step.conditionKey.Some? ==>
      forall i :: 0 <= i < |defn| && step.conditionKey.value == StepKey(defn[i].id) ==> defn[i].id in step.dependsOn
  }

  /**
   The value the condition will read is known in advance: no step still to run writes its key,
   except direct dependencies, which settle before, and direct dependents, which run after.
   */
  predicate SteadyCondition(defn: seq<WorkflowStep>, entry: map<string, StepRun>, step: WorkflowStep) {
    step.conditionKey.Some? ==>
      forall i :: 0 <= i < |defn| && step.conditionKey.value == StepKey(defn[i].id) ==>
        || defn[i].id in step.dependsOn
        || (defn[i].id in entry && entry[defn[i].id].status != Pending)
        || step.id in defn[i].dependsOn
  }

  /** Such a condition, or one that is checked in the first pass because the dependencies are settled on entry. */
  predicate OrderProof(defn: seq<WorkflowStep>, entry: map<string, StepRun>, step: WorkflowStep) {
    SteadyCondition(defn, entry, step) || AllDepsSettled(step, entry)
  }

  /** The condition's value read off the dependencies' final outcomes and the entry context. */
  predicate MeantToRun(step: WorkflowStep, context: map<string, Value>, steps: map<string, StepRun>) {
    step.conditionKey.None? ||
    var key := step.conditionKey.value;
    var read :=
      if |key| >= 5 && key == StepKey(key[5..]) && key[5..] in step.dependsOn && key[5..] in steps &&
         steps[key[5..]].status == Completed
      then steps[key[5..]].output
      else ReadKey(context, key);
    read == step.conditionEquals
  }

  /** The equation that the outcome of one step has to satisfy, given everybody's outcome. */
  function Decide(step: WorkflowStep, h: Handlers, before: RunState, after: map<string, StepRun>): StepRun
    requires step.id in before.steps
  {
    var s := before.steps[step.id];
    if s.status != Pending then s
    else if AnyDepFailed(step, after) then s.(status := Skipped)
    else if !AllDepsSettled(step, after) then s
    else if !MeantToRun(step, before.context, after) then s.(status := Skipped)
    else Retried(step, s, h)
  }

  /** The condition read in the context of the moment: entry context plus the outputs since. */
  predicate PassesNow(step: WorkflowStep, before: RunState, now: map<string, StepRun>) {
    ConditionPasses(step, before.context + NewOutputs(before.steps, now))
  }

  /** A key is written at most once in a drive, so a check made on the way saw its entry or its present value. */
  predicate MayRun(step: WorkflowStep, before: RunState, now: map<string, StepRun>) {
    ConditionPasses(step, before.context) || PassesNow(step, before, now)
  }

  predicate MaySkip(step: WorkflowStep, before: RunState, now: map<string, StepRun>) {
    !ConditionPasses(step, before.context) || !PassesNow(step, before, now)
  }

  /**
   What is true of each step at every moment of a drive: nothing happened to it, or a
   dependency failed, or its condition was checked with all dependencies settled.
   */
  predicate Justified(defn: seq<WorkflowStep>, step: WorkflowStep, h: Handlers,
                      before: RunState, now: map<string, StepRun>)
    requires step.id in before.steps && step.id in now
  {
    var s, r := before.steps[step.id], now[step.id];
    r == s ||
    (s.status == Pending &&
     (|| (AnyDepFailed(step, now) && r == s.(status := Skipped))
      || (AllDepsSettled(step, now) && Checked(defn, step, h, before, now))))
  }

  /** The outcome of a step whose condition was checked; for a steady condition it is exact. */
  predicate Checked(defn: seq<WorkflowStep>, step: WorkflowStep, h: Handlers,
                    before: RunState, now: map<string, StepRun>)
    requires step.id in before.steps && step.id in now
  {
    var s, r := before.steps[step.id], now[step.id];
    && ((r == s.(status := Skipped) && MaySkip(step, before, now)) ||
        (r == Retried(step, s, h) && MayRun(step, before, now)))
    && (SteadyCondition(defn, before.steps, step) ==>
          r == if MeantToRun(step, before.context, now) then Retried(step, s, h) else s.(status := Skipped))
  }

  /** No pending step can be skipped or started. */
  predicate Quiescent(defn: seq<WorkflowStep>, steps: map<string, StepRun>) {
    forall i :: 0 <= i < |defn| && defn[i].id in steps && steps[defn[i].id].status == Pending ==>
      !AnyDepFailed(defn[i], steps) && !AllDepsSettled(defn[i], steps)
  }

  /** The context entries written for steps that completed in between. */
  function NewOutputs(before: map<string, StepRun>, now: map<string, StepRun>): map<string, Value> {
    map id | id in now && now[id].status == Completed && !(id in before && before[id].status == Completed) ::
      StepKey(id) := now[id].output
  }

  function CallsOf(calls: seq<Call>, id: string): seq<Call> {
    if calls == [] then []
    else
      var last := calls[|calls| - 1];
      CallsOf(calls[..|calls| - 1], id) + (if last.step == id then [last] else [])
  }

  /** The calls that take a step run from its attempt count up to `upTo`. */
  function NewCalls(id: string, s: StepRun, upTo: nat): seq<Call> {
    if upTo < s.attempts then []
    else seq(upTo - s.attempts, i requires 0 <= i => Call(id, s.attempts + 1 + i, s.approvalId))
  }

  function RunStatusOf(steps: map<string, StepRun>): WorkflowStatus {
    if forall id :: id in steps ==> Terminal(steps[id].status) then
      if exists id :: id in steps && steps[id].status == Failed then RunFailed else RunCompleted
    else if exists id :: id in steps && steps[id].status == WaitingApproval then RunPaused
    else RunFailed
  }

  predicate AllJustified(defn: seq<WorkflowStep>, h: Handlers, before: RunState, now: map<string, StepRun>) {
    && before.steps.Keys == now.Keys == IdSet(defn)
    && forall i {:trigger Justified(defn, defn[i], h, before, now)} ::
      0 <= i < |defn| ==> Justified(defn, defn[i], h, before, now)
  }

  predicate CallsAccounted(before: RunState, now: RunState) {
    forall id {:trigger CallsOf(now.calls, id)} :: id in now.steps && id in before.steps ==>
      CallsOf(now.calls, id) == CallsOf(before.calls, id) + NewCalls(id, before.steps[id], now.steps[id].attempts)
  }

  /** How far a drive has come from its entry state: true at every moment of it. */
  predicate Progressed(defn: seq<WorkflowStep>, h: Handlers, before: RunState, now: RunState) {
    && AllJustified(defn, h, before, now.steps)
    && now.context == before.context + NewOutputs(before.steps, now.steps)
    && CallsAccounted(before, now)
  }

  /** Nothing can move any more, everything that moved is justified, and the run status says so. */
  predicate Rested(defn: seq<WorkflowStep>, h: Handlers, before: RunState, after: RunState)
    ensures Rested(defn, h, before, after) ==> before.steps.Keys == after.steps.Keys == IdSet(defn)
  {
    && Progressed(defn, h, before, after)
    && Quiescent(defn, after.steps)
    && after.status == RunStatusOf(after.steps)
  }

  /** A pending step whose dependencies are settled on entry is decided by the entry context. */
  predicate EntryJudged(step: WorkflowStep, h: Handlers, before: RunState, after: RunState) {
    step.id in before.steps && step.id in after.steps && before.steps[step.id].status == Pending &&
    AllDepsSettled(step, before.steps) ==>
      after.steps[step.id] ==
        if ConditionPasses(step, before.context) then Retried(step, before.steps[step.id], h)
        else before.steps[step.id].(status := Skipped)
  }

  /** What a drive from `before` to `after` guarantees. */
  predicate Driven(defn: seq<WorkflowStep>, h: Handlers, before: RunState, after: RunState)
    ensures Driven(defn, h, before, after) ==> before.steps.Keys == after.steps.Keys == IdSet(defn)
  {
    && Rested(defn, h, before, after)
    && forall i {:trigger EntryJudged(defn[i], h, before, after)} ::
      0 <= i < |defn| ==> EntryJudged(defn[i], h, before, after)
  }

  /** The invariant of a stored run. */
  predicate Sane(defn: seq<WorkflowStep>, run: RunState) {
    && run.steps.Keys == IdSet(defn)
    && (forall i {:trigger run.steps[defn[i].id]} :: 0 <= i < |defn| ==> run.steps[defn[i].id].attempts <= defn[i].maxRetries + 1)
    && CompletedInContext(run)
    && (forall id {:trigger CallsOf(run.calls, id)} :: id in run.steps ==> AttemptsInOrder(CallsOf(run.calls, id), run.steps[id].attempts))
  }

  predicate CompletedInContext(run: RunState) {
    forall id {:trigger StepKey(id)} :: id in run.steps && run.steps[id].status == Completed ==>
      StepKey(id) in run.context && run.context[StepKey(id)] == run.steps[id].output
  }

  /** Exactly the attempts 1, 2, ..., n were made, each once. */
  predicate AttemptsInOrder(calls: seq<Call>, n: nat) {
    |calls| == n && forall k :: 0 <= k < n ==> calls[k].attempt == k + 1
  }

  /** The state a start begins from. */
  function Initial(defn: seq<WorkflowStep>, context: map<string, Value>): RunState {
    RunState(RunRunning, context, map id | id in IdSet(defn) :: FreshStep, [])
  }

  // ---- lemmas ---------------------------------------------------------------------------

  /** Steps that are no longer pending keep their record. */
  predicate OnlyPendingChanged(now: map<string, StepRun>, next: map<string, StepRun>) {
    now.Keys == next.Keys && forall id :: id in now && now[id].status != Pending ==> next[id] == now[id]
  }

  lemma JustifiedPersists(defn: seq<WorkflowStep>, step: WorkflowStep, h: Handlers, before: RunState,
                          now: map<string, StepRun>, next: map<string, StepRun>)
    requires step.id in before.steps && before.steps.Keys == now.Keys && OnlyPendingChanged(now, next)
    requires next[step.id] == now[step.id]
    requires Justified(defn, step, h, before, now)
    ensures Justified(defn, step, h, before, next)
  {
    if AnyDepFailed(step, now) {
      assert AnyDepFailed(step, next) by {
        var d :| d in step.dependsOn && d in now && now[d].status == Failed;
        assert next[d] == now[d];
      }
    }
    if AllDepsSettled(step, now) {
      SettledPersists(step, before.context, now, next);
      CheckPersists(step, before, now, next);
    }
  }

  /** Outputs once written stay, so a value read on the way remains the entry or the present value. */
  lemma CheckPersists(step: WorkflowStep, before: RunState, now: map<string, StepRun>, next: map<string, StepRun>)
    requires before.steps.Keys == now.Keys && OnlyPendingChanged(now, next)
    ensures MayRun(step, before, now) ==> MayRun(step, before, next)
    ensures MaySkip(step, before, now) ==> MaySkip(step, before, next)
  {
    if step.conditionKey.Some? {
      var key := step.conditionKey.value;
      if key in NewOutputs(before.steps, now) {
        OutputStays(before.steps, now, next, key);
      } else {
        assert ReadKey(before.context + NewOutputs(before.steps, now), key) == ReadKey(before.context, key);
      }
    }
  }

  lemma OutputStays(before: map<string, StepRun>, now: map<string, StepRun>, next: map<string, StepRun>, key: string)
    requires before.Keys == now.Keys && OnlyPendingChanged(now, next) && key in NewOutputs(before, now)
    ensures key in NewOutputs(before, next) && NewOutputs(before, next)[key] == NewOutputs(before, now)[key]
  {
    var id :| id in now && StepKey(id) == key && now[id].status == Completed && before[id].status != Completed;
    assert next[id] == now[id];
    NewOutputsAt(before, now, id);
    NewOutputsAt(before, next, id);
  }

  lemma SettledPersists(step: WorkflowStep, context: map<string, Value>,
                        now: map<string, StepRun>, next: map<string, StepRun>)
    requires OnlyPendingChanged(now, next) && AllDepsSettled(step, now)
    ensures AllDepsSettled(step, next)
    ensures MeantToRun(step, context, next) == MeantToRun(step, context, now)
  {
  }

  /** A step's output key is newly written exactly when the step newly completed. */
  lemma NewOutputsAt(before: map<string, StepRun>, now: map<string, StepRun>, id: string)
    requires before.Keys == now.Keys && id in now
    ensures var added := NewOutputs(before, now);
      && (StepKey(id) in added <==> now[id].status == Completed && before[id].status != Completed)
      && (StepKey(id) in added ==> added[StepKey(id)] == now[id].output)
  {
    var added := NewOutputs(before, now);
    if now[id].status == Completed && before[id].status != Completed {
      assert StepKey(id) in added;
    }
    if StepKey(id) in added {
      var other :| other in now && StepKey(other) == StepKey(id) && now[other].status == Completed &&
        before[other].status != Completed && added[StepKey(id)] == now[other].output;
      assert other == StepKey(other)[5..] == id;
    }
  }

  /** A key that is no step's output key is never written. */
  lemma NewOutputsElsewhere(before: map<string, StepRun>, now: map<string, StepRun>, key: string)
    requires forall id :: id in now ==> key != StepKey(id)
    ensures key !in NewOutputs(before, now)
  {
  }

  /** A step that was not pending is untouched; the others only gain attempts within the budget. */
  lemma JustifiedBounds(defn: seq<WorkflowStep>, step: WorkflowStep, h: Handlers,
                        before: RunState, now: map<string, StepRun>)
    requires step.id in before.steps && step.id in now && Justified(defn, step, h, before, now)
    ensures var s, r := before.steps[step.id], now[step.id];
      && (s.status != Pending ==> r == s)
      && r.attempts >= s.attempts && r.approvalId == s.approvalId
      && (s.attempts <= step.maxRetries + 1 ==> r.attempts <= step.maxRetries + 1)
  {
    RetriedBounds(step, before.steps[step.id], h);
  }

  /** A step that still waits to be checked has not had the output of a step that depends on it written. */
  lemma DependentNotYetRun(defn: seq<WorkflowStep>, h: Handlers, before: RunState, now: RunState,
                           step: WorkflowStep, i: nat)
    requires AllJustified(defn, h, before, now.steps) && i < |defn| && step.id in defn[i].dependsOn
    requires step.id in now.steps && now.steps[step.id].status == Pending
    ensures now.steps[defn[i].id].status == Completed ==> before.steps[defn[i].id] == now.steps[defn[i].id]
  {
    assert Justified(defn, defn[i], h, before, now.steps);
    assert !AllDepsSettled(defn[i], now.steps);
  }

  /**
   When a step with settled dependencies is checked, the run's own context answers a steady
   condition as the equations do; a local one also at any later moment.
   */
  lemma SteadyConditionAgrees(defn: seq<WorkflowStep>, step: WorkflowStep, h: Handlers, before: RunState, now: RunState)
    requires Sane(defn, before) && Progressed(defn, h, before, now) && AllDepsSettled(step, now.steps)
    requires LocalCondition(defn, step) ||
      (SteadyCondition(defn, before.steps, step) && step.id in now.steps && now.steps[step.id].status == Pending)
    ensures ConditionPasses(step, now.context) == MeantToRun(step, before.context, now.steps)
  {
    hide NewOutputs, CallsAccounted, Retried, Justified, MaySkip, MayRun;
    if step.conditionKey.Some? {
      var key := step.conditionKey.value;
      if i :| 0 <= i < |defn| && key == StepKey(defn[i].id) {
        assert key[5..] == defn[i].id;
        NewOutputsAt(before.steps, now.steps, defn[i].id);
        assert Justified(defn, defn[i], h, before, now.steps);
        JustifiedBounds(defn, defn[i], h, before, now.steps);
        if defn[i].id !in step.dependsOn && before.steps[defn[i].id].status == Pending {
          DependentNotYetRun(defn, h, before, now, step, i);
        }
      } else {
        NewOutputsElsewhere(before.steps, now.steps, key);
        if |key| >= 5 && key == StepKey(key[5..]) {
          assert key[5..] !in IdSet(defn);
        }
      }
    }
  }

  /** After a drive every step whose condition is steady or was checked at once satisfies its equation. */
  lemma DrivenSolves(defn: seq<WorkflowStep>, h: Handlers, before: RunState, after: RunState, i: nat)
    requires i < |defn| && Driven(defn, h, before, after) && OrderProof(defn, before.steps, defn[i])
    ensures after.steps[defn[i].id] == Decide(defn[i], h, before, after.steps)
  {
    var step := defn[i];
    assert Justified(defn, step, h, before, after.steps);
    RetriedBounds(step, before.steps[step.id], h);
    if !SteadyCondition(defn, before.steps, step) && before.steps[step.id].status == Pending {
      DriveOnlyMovesPending(defn, h, before, after);
      SettledPersists(step, before.context, before.steps, after.steps);
      assert EntryJudged(step, h, before, after);
      var k :| 0 <= k < |defn| && step.conditionKey.value == StepKey(defn[k].id) && defn[k].id !in step.dependsOn;
      assert step.conditionKey.value[5..] == defn[k].id;
    }
  }

  lemma DriveOnlyMovesPending(defn: seq<WorkflowStep>, h: Handlers, before: RunState, after: RunState)
    requires AllJustified(defn, h, before, after.steps)
    ensures OnlyPendingChanged(before.steps, after.steps)
  {
    forall id | id in before.steps && before.steps[id].status != Pending
      ensures after.steps[id] == before.steps[id]
    {
      var i :| 0 <= i < |defn| && defn[i].id == id;
      assert Justified(defn, defn[i], h, before, after.steps);
    }
  }

  lemma {:induction false} CallsOfAppend(a: seq<Call>, b: seq<Call>, id: string)
    ensures CallsOf(a + b, id) == CallsOf(a, id) + CallsOf(b, id)
  {
    if b == [] {
      assert a + b == a;
    } else {
      var n := |b| - 1;
      assert (a + b)[..|a + b| - 1] == a + b[..n];
      CallsOfAppend(a, b[..n], id);
    }
  }

  lemma {:induction false} CallsOfUniform(calls: seq<Call>, step: string, id: string)
    requires forall k :: 0 <= k < |calls| ==> calls[k].step == step
    ensures CallsOf(calls, id) == if id == step then calls else []
  {
    if calls != [] {
      var n := |calls| - 1;
      CallsOfUniform(calls[..n], step, id);
      assert calls == calls[..n] + [calls[n]];
    }
  }

  lemma OutputsStayInContext(defn: seq<WorkflowStep>, h: Handlers, before: RunState, after: RunState, i: nat)
    requires CompletedInContext(before) && Progressed(defn, h, before, after) && i < |defn|
    requires after.steps[defn[i].id].status == Completed
    ensures var id := defn[i].id;
      StepKey(id) in after.context && after.context[StepKey(id)] == after.steps[id].output
  {
    NewOutputsAt(before.steps, after.steps, defn[i].id);
    JustifiedBounds(defn, defn[i], h, before, after.steps);
  }

  lemma AttemptsStayInOrder(defn: seq<WorkflowStep>, h: Handlers, before: RunState, after: RunState, i: nat)
    requires Sane(defn, before) && Progressed(defn, h, before, after) && i < |defn|
    ensures var id := defn[i].id;
      AttemptsInOrder(CallsOf(after.calls, id), after.steps[id].attempts)
  {
    var id := defn[i].id;
    JustifiedBounds(defn, defn[i], h, before, after.steps);
    assert AttemptsInOrder(CallsOf(before.calls, id), before.steps[id].attempts);
  }

  /** Everything a stored run has to keep is kept by a drive. */
  lemma DriveKeepsSane(defn: seq<WorkflowStep>, h: Handlers, before: RunState, after: RunState)
    requires Sane(defn, before) && Progressed(defn, h, before, after)
    ensures Sane(defn, after)
  {
    forall i | 0 <= i < |defn|
      ensures after.steps[defn[i].id].attempts <= defn[i].maxRetries + 1
    {
      JustifiedBounds(defn, defn[i], h, before, after.steps);
    }
    forall id | id in after.steps
      ensures AttemptsInOrder(CallsOf(after.calls, id), after.steps[id].attempts)
      ensures after.steps[id].status == Completed ==>
        StepKey(id) in after.context && after.context[StepKey(id)] == after.steps[id].output
    {
      var i :| 0 <= i < |defn| && defn[i].id == id;
      AttemptsStayInOrder(defn, h, before, after, i);
      if after.steps[id].status == Completed {
        OutputsStayInContext(defn, h, before, after, i);
      }
    }
  }

  lemma ProgressStarts(defn: seq<WorkflowStep>, h: Handlers, run: RunState)
    requires Sane(defn, run)
    ensures Progressed(defn, h, run, run)
  {
    assert NewOutputs(run.steps, run.steps) == map[];
  }

  lemma StatusIsFree(defn: seq<WorkflowStep>, h: Handlers, before: RunState, now: RunState, status: WorkflowStatus)
    requires Progressed(defn, h, before, now)
    ensures Progressed(defn, h, before, now.(status := status))
  {
    assert forall id :: id in now.steps ==> now.(status := status).steps[id] == now.steps[id];
  }

  lemma InitialIsSane(defn: seq<WorkflowStep>, context: map<string, Value>)
    ensures Sane(defn, Initial(defn, context))
  {
  }

  /** An approval is recorded on its step; a waiting step becomes pending again. */
  function ApprovedStep(s: StepRun, approval: string): StepRun {
    s.(approvalId := Some(approval), status := if s.status == WaitingApproval then Pending else s.status)
  }

  function WithApprovals(steps: map<string, StepRun>, approvals: map<string, string>): map<string, StepRun> {
    map id | id in steps :: if id in approvals then ApprovedStep(steps[id], approvals[id]) else steps[id]
  }

  /** The state a resume drives on from. */
  function Approved(run: RunState, approvals: map<string, string>): RunState {
    run.(status := RunRunning, steps := WithApprovals(run.steps, approvals))
  }

  lemma ApprovalsKeepSane(defn: seq<WorkflowStep>, run: RunState, approvals: map<string, string>)
    requires Sane(defn, run)
    ensures Sane(defn, Approved(run, approvals))
  {
  }

  /**
   What a resume does with approvals: each one is recorded on its step, whatever that step's
   status, and every call the step makes from then on carries it; nobody else's approval changes.
   A waiting step that is not approved is left exactly as it was.
   */
  lemma ApprovalsArrive(defn: seq<WorkflowStep>, h: Handlers, run: RunState, approvals: map<string, string>,
                        after: RunState, id: string)
    requires Driven(defn, h, Approved(run, approvals), after) && id in run.steps
    ensures id in after.steps
    ensures after.steps[id].approvalId == if id in approvals then Some(approvals[id]) else run.steps[id].approvalId
    ensures CallsCarry(CallsOf(run.calls, id), CallsOf(after.calls, id), after.steps[id].approvalId)
    ensures run.steps[id].status == WaitingApproval ==>
      if id in approvals then after.steps[id].status != WaitingApproval || after.steps[id].attempts > run.steps[id].attempts
      else after.steps[id] == run.steps[id]
  {
    hide Quiescent, AllDepsSettled, AnyDepFailed, Checked, Retried;
    var before := Approved(run, approvals);
    var i :| 0 <= i < |defn| && defn[i].id == id;
    assert Justified(defn, defn[i], h, before, after.steps);
    JustifiedBounds(defn, defn[i], h, before, after.steps);
    JustifiedMoves(defn, defn[i], h, before, after.steps);
    assert CallsOf(after.calls, id) ==
      CallsOf(before.calls, id) + NewCalls(id, before.steps[id], after.steps[id].attempts);
  }

  /** The later calls continue the earlier ones, and the new ones carry this approval. */
  predicate CallsCarry(was: seq<Call>, now: seq<Call>, approvalId: Option<string>) {
    was <= now && forall m :: |was| <= m < |now| ==> now[m].approvalId == approvalId
  }

  /** A step that waits after having been pending has made an attempt. */
  lemma JustifiedMoves(defn: seq<WorkflowStep>, step: WorkflowStep, h: Handlers, before: RunState, now: map<string, StepRun>)
    requires step.id in before.steps && step.id in now && Justified(defn, step, h, before, now)
    ensures before.steps[step.id].status == Pending && now[step.id].status == WaitingApproval ==>
      now[step.id].attempts > before.steps[step.id].attempts
  {
    RetriedBounds(step, before.steps[step.id], h);
  }
}
