# Formal model of the agent platform's coordination core

This project models the parts of the platform whose correctness depends on many steps, many
callers or a search, and proves what they guarantee:

- **Workflows** (`Workflow*.dfy`, `GraphValidator.dfy`, `EditorValidator.dfy`): the definition
  validator and its editor mirror, the engine that drives a run over the dependency graph with
  retries, conditions, skips, approval pauses and resumption, and theorems about whole lives of
  a run (a start followed by any number of resumes).
- **Integration runtime** (`RateLimit.dfy`, `CircuitBreaker.dfy`, `ExecutionStore.dfy`,
  `RuntimeService.dfy`, `Idempotency.dfy`): the sliding-window limiter, the circuit breaker, the
  retry loop with its accounting, and idempotency over every interleaving of requests.
- **Approval gate** (`Approvals.dfy`, `ToolGate.dfy`, `GrantLedger.dfy`, `Broker.dfy`): single-use
  grants in two store representations, policy, executor, connector broker, and the accounting of
  grants over whole histories.
- **Jobs** (`JobQueue.dfy`, `JobFlow.dfy`): FIFO queue, retry or dead letter, conservation,
  bounded work and bounded overtaking for any number of workers.
- **Memory** (`MemoryFilter.dfy`, `MemorySql.dfy`, `ContextPacking.dfy`): the reference filters,
  the WHERE compiler with positional arguments, and context packing.
- **Environment stamp** (`EnvironmentStamp.dfy`): agreement of racing deployments.

Objects that the program updates in place are classes; each method is proved against a
specification over values, and the theorems are lemmas about those specifications. Concurrency is
modelled by step machines whose steps are the segments between awaits (or single SQL statements),
run under an arbitrary schedule. Clocks, fresh identifiers, handlers, adapters and the database's
text matching are parameters. In the workflow engine a handler's outcome is a function of step id,
attempt number and approval id; since no attempt number of a step is ever used twice in a life
(`WorkflowLives.LifeBudget`), this covers every behaviour of the handlers.

Results that a reader of the code might not expect:

- Approving a waiting workflow step runs it again exactly when it has an attempt left and its
  condition passes in the stored context (`WorkflowApprovals.ApprovalRunsExactlyWhen`). There are two
  ways to fail:
  - It waited on its last allowed attempt: the resume leaves it RUNNING for good and the run never
    completes. With the default `max_retries = 0` this is what every approval leads to unless the
    condition fails (`WorkflowApprovals.ApprovedTooLateNeverRuns`,
    `WorkflowApprovals.DefaultRetriesNeverRunApprovedSteps`, and such a run in
    `WorkflowApprovals.ApprovalNeedsARetry`).
  - Its condition no longer passes, because a step it does not depend on has meanwhile written the
    key: it is skipped, however many attempts are left, and the run may end COMPLETED without it
    (such a run in `WorkflowApprovals.ApprovalNeedsItsCondition`). A condition that reads no output
    key, or a direct dependency's, still passes (`WorkflowApprovals.LocalConditionStillPasses`).
- An approval may be given before its step waits: it is recorded on any step of the run and carried by
  every call that step makes later (`WorkflowSemantics.ApprovalsArrive`).
- The no-progress FAILED exit is reached exactly through a step left RUNNING
  (`WorkflowLives.NoFalseDeadlock`, `WorkflowApprovals.RunningWasApprovedTooLate`).
- Attempts that the approval gate refuses use up the retry budget: over a whole life the handler of a
  gated step runs at most (max_retries + 2) / 2 times, rounded down (`WorkflowGates.GatedHandlerRuns`).
- A gated step whose handler raises on the approved attempt, with retries left, does not retry: the
  grant is used up, so it waits for approval again (`ToolGate.GatedStepRule`).
- The order of the step list can change an outcome (`WorkflowOrder.ListOrderMatters`): a step that
  depends only on a skipped step and whose condition reads the output of a third one is skipped
  when it is listed after the skipped step and executed when it is listed before it. It cannot when
  each condition reads no output still to be written, except by a direct dependency or a direct
  dependent, or belongs to a step whose dependencies are settled when the drive begins; such a step is
  always judged by the context the drive begins with (`WorkflowLives.ListOrderIrrelevant`,
  `WorkflowEntry.SettledAreJudgedOnEntry`). For any other condition the check saw the entry or the
  final value of its key, and where these agree the outcome is exact (`WorkflowLives.OutcomeRule`).
- Rate limit and circuit breaker are kept per "provider:workflow". Provider names without a colon
  identify the pair (`RuntimeService.KeysIdentify`); with one, two pairs can share a key
  (`RuntimeService.KeysCanCollide`).
- The approval stores agree on a history exactly when no identifier is issued twice
  (`Approvals.StoresAgreeExactlyWhenFresh`).
- The in-memory audit log stays within `max_events` exactly when that limit is positive; with
  `max_events = 0` it never drops anything, because a slice from -0 is the whole list
  (`ToolGate.LogWithinLimitExactly`, `ToolGate.LogGrowsAtZero`).

## Model

| member | source | states |
|---|---|---|
| WorkflowGraph.DepsOfAt | app/workflows/models.py:65 | with unique ids the dependency map holds each step's own list |
| WorkflowGraph.LastStepWins | frontend/src/lib/workflow-validate.ts:19 | with repeated ids the last step with an id gives its dependencies |
| WorkflowGraph.OrderExcludesCycles | app/workflows/models.py:63-79 | a topological order of all nodes rules out every closed walk |
| WorkflowGraph.TrappedSetHasCycle | app/workflows/models.py:67-76 | a non-empty set in which every node depends on a node of the set contains a cycle |
| WorkflowGraph.UniqueByCount | app/workflows/models.py:52-54 | comparing the list with its set detects exactly the repeated ids |
| GraphValidator.CycleSearch.Visit | app/workflows/models.py:67-76 | the search terminates, fails only on a real cycle, restores the path, and only appends to a topological finish order |
| GraphValidator.SearchAll | app/workflows/models.py:78-79 | the search succeeds exactly when there is no dependency cycle; its finish order is topological and complete |
| GraphValidator.CheckDependencies | app/workflows/models.py:56-61 | accepts exactly lists without unknown or self dependencies, and reports the first bad step, unknown dependencies before a self dependency |
| GraphValidator.ValidateGraph | app/workflows/models.py:51-80 | accepts exactly the well-formed definitions; a rejection names the first rule broken, with the step and the missing ids |
| GraphValidator.ReportMeans | app/workflows/models.py:53-61 | the step named in a rejection has exactly the named unknown dependencies, or depends on itself |
| GraphValidator.FirstIsReported | app/workflows/models.py:56-61 | the first step with a wrong dependency list is reported, for itself only if none of its dependencies is unknown |
| GraphValidator.WellFormedMeans | app/workflows/models.py:50-80 | the accepted lists, rule by rule: distinct ids, existing dependencies, no self-dependency, no closed walk |
| EditorValidator.CycleFlag.Visit | frontend/src/lib/workflow-validate.ts:23-33 | the non-aborting search terminates on every input, raises the flag only for a real cycle and otherwise keeps a topological order |
| EditorValidator.FlagsCycle | frontend/src/lib/workflow-validate.ts:20-35 | the flag ends up set exactly when the graph has a cycle, duplicate and unknown ids included |
| EditorValidator.CollectStepErrors | frontend/src/lib/workflow-validate.ts:13-17 | the per-step errors, in list order |
| EditorValidator.ValidateWorkflowGraph | frontend/src/lib/workflow-validate.ts:5-38 | the error list is exactly what is wrong with the graph, in a fixed order |
| EditorValidator.ErrorsMean | frontend/src/lib/workflow-validate.ts:10-35 | each kind of message appears exactly when there is reason for it |
| EditorValidator.ErrorsInOrder | frontend/src/lib/workflow-validate.ts:10-35 | an empty list or repeated ids are reported first, a cycle last |
| EditorValidator.StepErrorsMeaning | frontend/src/lib/workflow-validate.ts:13-17 | a step is reported for unknown dependencies and for itself, independently, in this order |
| EditorValidator.UnknownMeaning | frontend/src/lib/workflow-validate.ts:14 | the unknown dependencies are named in the order the step lists them |
| EditorValidator.SilentExactlyWhenAccepted | frontend/src/lib/workflow-validate.ts:3-38 | the editor reports nothing exactly when the backend accepts the same non-empty list |
| EditorValidator.EditorReportsBackendError | frontend/src/lib/workflow-validate.ts:3-38 | whatever the backend rejects a list for is among the editor's errors |
| WorkflowSemantics.RetriedFromReturns | app/workflows/engine.py:94-130 | the first attempt that does not raise decides the step |
| WorkflowSemantics.RetriedFromExhausts | app/workflows/engine.py:131-135 | if every remaining attempt raises, the step is FAILED with the last error |
| WorkflowSemantics.RetryRule | app/workflows/engine.py:85-137 | the whole retry rule, including the empty range that leaves a step RUNNING |
| WorkflowSemantics.RetriedBounds | app/workflows/engine.py:94-135 | execution stays within max_retries + 1 attempts, and rests in RUNNING exactly when none was left |
| WorkflowSemantics.JustifiedPersists | app/workflows/engine.py:171-194 | what justified a skip or an execution, the condition check included, stays true when only pending steps change |
| WorkflowSemantics.CheckPersists | app/workflows/engine.py:76-83 | a value that a condition check saw is the entry or the present value of its key, at every later moment of the drive too |
| WorkflowSemantics.NewOutputsAt | app/workflows/engine.py:192-193 | a step's output key is written exactly when the step newly completed |
| WorkflowSemantics.SteadyConditionAgrees | app/workflows/engine.py:76-83 | when a step is checked the mutable context answers a steady condition as the final outcomes do, and a local one at any later moment |
| WorkflowSemantics.DrivenSolves | app/workflows/engine.py:139-206 | after a drive the record of each step whose condition is steady or checked at once solves its equation: skipped if a dependency failed, untouched if one is unsettled, skipped if the condition fails, else the retried outcome |
| WorkflowSemantics.DriveKeepsSane | app/workflows/engine.py:139-206 | a drive keeps the budget, the exact attempt history and every completed output in the context |
| WorkflowSemantics.ApprovalsKeepSane | app/workflows/engine.py:65-72 | applying approvals keeps them too |
| WorkflowSemantics.ApprovalsArrive | app/workflows/engine.py:65-74 | an approval is recorded on its step whatever its status and carried by every later call; no other approval changes, and a waiting step that is not approved stays as it was |
| WorkflowPasses.ScanOnlySkips | app/workflows/engine.py:163-184 | a pass only turns pending steps into skipped ones and picks pending steps |
| WorkflowPasses.IdlePassIsQuiescent | app/workflows/engine.py:198-206 | a pass that skips and picks nothing has found nothing that could move |
| WorkflowPasses.TurnMoves | app/workflows/engine.py:144-206 | a turn that is not the last one leaves strictly fewer steps pending, so every drive terminates |
| WorkflowPasses.TurnKeeps | app/workflows/engine.py:144-206 | every turn keeps each step justified; the last one leaves a quiescent run with the right status |
| WorkflowEntry.SettledAreJudgedOnEntry | app/workflows/engine.py:168-184 | wherever it is listed and whatever its condition reads, a step whose dependencies are settled on entry is decided by the context the drive began with |
| WorkflowEntry.DrivingIsDriven | app/workflows/engine.py:139-206 | repeating turns until the loop is left meets every guarantee of a drive and keeps the stored-run invariant |
| WorkflowEngine.RunStore.Save | app/workflows/store.py:22-23 | saving stores a copy of the run's state under its id and nothing else |
| WorkflowEngine.Engine.Invoke | app/workflows/engine.py:98-125 | one handler call, recorded with its attempt and approval id |
| WorkflowEngine.Engine.ExecuteStep | app/workflows/engine.py:85-137 | the attempt loop computes the retried record in place and makes exactly the calls it counts |
| WorkflowEngine.Engine.Scan | app/workflows/engine.py:163-184 | one pass in list order, earlier skips seen by later steps: exactly the statuses and ready steps of the pass function; progress exactly when a status changed |
| WorkflowEngine.Engine.ExecuteAll | app/workflows/engine.py:186-189 | the gathered executions take each ready step to its retried record, with its calls, and write no output |
| WorkflowEngine.Engine.RecordOutputs | app/workflows/engine.py:190-193 | the context gains exactly the outputs of the completed steps of the batch |
| WorkflowEngine.Engine.Step | app/workflows/engine.py:144-206 | one turn of the loop is the turn function, in state and in whether the loop is left; every exit is saved |
| WorkflowEngine.Engine.Drive | app/workflows/engine.py:139-206 | terminates; the final state is exactly that of repeated turns, and it is saved |
| WorkflowEngine.Engine.Start | app/workflows/engine.py:37-52 | a started run is exactly the drive from all-pending, meets its guarantees and is stored |
| WorkflowEngine.Engine.ApplyApprovals | app/workflows/engine.py:65-70 | every listed step of the run gets its approval whatever its status, only waiting steps become pending, nothing else changes |
| WorkflowEngine.Engine.Resume | app/workflows/engine.py:54-74 | an unknown run is an error that changes nothing; otherwise the result is exactly the drive from the approved state, stored; each listed step has its approval and its new calls carry it, others keep theirs |
| WorkflowLives.DecideReadsDependencies | app/workflows/engine.py:172-184 | a step's equation looks only at its direct dependencies |
| WorkflowLives.UniqueOutcome | app/workflows/engine.py:139-206 | in an acyclic workflow the outcome equations have at most one solution |
| WorkflowLives.DriveSolves | app/workflows/engine.py:139-206 | with such conditions a drive's result is that solution |
| WorkflowLives.ListOrderIrrelevant | app/workflows/engine.py:163-184 | reordering the steps changes no outcome, no context entry and no run status |
| WorkflowLives.RunningMeansExhausted | app/workflows/engine.py:91-94 | a drive leaves a step RUNNING only if it was entered pending with no attempt left |
| WorkflowLives.OutcomeRule | app/workflows/engine.py:171-184 | the outcome of every pending step, whatever its condition reads: failed dependency, unfinished dependency, and a condition check that saw the entry or the final value of its key, exact where they agree or the dependencies were settled on entry |
| WorkflowLives.StartRule | app/workflows/engine.py:171-184 | after a start nothing rests in RUNNING, and a step is untouched exactly for want of a dependency that waits or is pending |
| WorkflowLives.PendingNeedsBlocker | app/workflows/engine.py:198-206 | a quiescent acyclic run with nothing waiting and nothing RUNNING is terminal |
| WorkflowLives.NoFalseDeadlock | app/workflows/engine.py:198-206 | FAILED means that a step failed, or that nothing waits and some step rests in RUNNING, and conversely |
| WorkflowLives.StartNeverDeadlocks | app/workflows/engine.py:37-52 | from a start FAILED implies a failed step and PAUSED is exactly an approval wait |
| WorkflowLives.ConditionStays | app/workflows/engine.py:76-83 | a local condition of a settled step keeps its value through later drives |
| WorkflowLives.LifeKept | app/workflows/engine.py:37-74 | every state of a life keeps budget, history, outputs and settled dependencies of attempted steps |
| WorkflowLives.LifeStable | app/workflows/engine.py:65-74 | across a life attempts only grow, and COMPLETED, FAILED, SKIPPED and RUNNING outcomes never change |
| WorkflowLives.LifeBudget | app/workflows/engine.py:94-95 | over a whole life a handler is called at most max_retries + 1 times, once per attempt number |
| WorkflowLives.LifeOutputs | app/workflows/engine.py:192-193 | each completed output is in the context under its own key |
| WorkflowRules.AttemptRule | app/workflows/engine.py:94-135 | one attempt, outcome by outcome: the whole record after a return, a wait, a raise and a last raise |
| WorkflowRules.AttemptedOnlyAfterDependencies | app/workflows/engine.py:179 | over a whole life the dependencies of an attempted step are COMPLETED or SKIPPED |
| WorkflowRules.DependentOfRunningNeverRuns | app/workflows/engine.py:179 | a dependent of a step at rest in RUNNING is never attempted and its handler never called |
| WorkflowRules.FailedDependencySkips | app/workflows/engine.py:174-177 | a step with a FAILED dependency is SKIPPED and was never attempted |
| WorkflowRules.PendingWantsDependency | app/workflows/engine.py:171-184 | a step is left PENDING only for want of a dependency that is PENDING, WAITING_APPROVAL or RUNNING |
| WorkflowRules.SkipHasReason | app/workflows/engine.py:174-182 | a SKIPPED step without a condition has a FAILED dependency |
| WorkflowRules.ConditionMeaning | app/workflows/engine.py:76-83 | a condition compares the value under its key, or null when the key is missing |
| WorkflowRules.StartMeetsCondition | app/workflows/engine.py:76-83 | a start attempts a step without dependencies exactly when the given context meets its condition |
| WorkflowRules.DependencyMeetsCondition | app/workflows/engine.py:179-184 | a condition on a direct dependency's output is met exactly by what that dependency returned |
| WorkflowRules.RunStatusMeaning | app/workflows/engine.py:144-206 | COMPLETED, PAUSED and FAILED in terms of the step statuses, each exactly |
| WorkflowRules.LifeContext | app/workflows/engine.py:192-193 | over a whole life the context is the given one plus outputs of completed steps under their keys |
| WorkflowApprovals.RunningWasApprovedTooLate | app/workflows/engine.py:94 | a step at rest in RUNNING was approved after its last allowed attempt |
| WorkflowApprovals.ApprovedTooLateNeverRuns | app/workflows/engine.py:94 | approved after its last attempt, a step stays RUNNING with its attempts unchanged and the run stays PAUSED or FAILED, or, if its condition does not pass, it is skipped for good |
| WorkflowApprovals.TooLateIsNeverExecuted | app/workflows/engine.py:94 | whatever its condition reads, it is never executed |
| WorkflowApprovals.DefaultRetriesNeverRunApprovedSteps | app/workflows/models.py:41 | with max_retries 0 every approval comes too late |
| WorkflowApprovals.ApprovalRunsExactlyWhen | app/workflows/engine.py:67-74 | an approval makes a step run again exactly when an attempt is left and its condition passes in the stored context; else it rests in RUNNING or is skipped, each exactly under its condition |
| WorkflowApprovals.LocalConditionStillPasses | app/workflows/engine.py:76-83 | a condition that reads no output, or a direct dependency's, passes whenever its step waits for approval |
| WorkflowApprovals.ApprovalNeedsARetry | app/workflows/engine.py:65-94 | for every max_retries, a life of a step that waits once and would then return: approved, it ends FAILED with no retries and COMPLETED with any |
| WorkflowApprovals.ApprovalNeedsItsCondition | app/workflows/engine.py:67-74 | for every max_retries, a life in which an approved step is skipped with its retries left, because another step wrote what its condition reads, and the run ends COMPLETED |
| WorkflowGates.LifeChained | app/workflows/engine.py:94-135 | over a whole life a step is attempted again only after an attempt that waited, or after one that raised and then with the same approval |
| WorkflowGates.GatedHandlerRuns | app/workflows/handlers.py:48-56 | over a whole life the handler of a gated step runs at most (max_retries + 2) / 2 times, whatever is approved when |
| WorkflowOrder.DriveOrderIrrelevant | app/workflows/engine.py:163-184 | reordering the list changes no outcome, context entry or run status of a drive when no condition reads an output that may be written before or after the check |
| WorkflowOrder.ListOrderMatters | app/workflows/engine.py:171-184 | two orders of three steps, both accepted, in which the same step ends SKIPPED and COMPLETED |
| WorkflowPipeline.ValidateAndStart | app/workflows/models.py:48-80 | a list is started exactly when it is well-formed and not empty, and the run never ends in a false deadlock |
| RateLimit.SpacedBoundsEveryWindow | app/runtime/rate_limit.py:11-20 | a history whose admissions are spaced puts at most `limit` into any window |
| RateLimit.CountIsCardinality | app/runtime/rate_limit.py:14-16 | the count is the number of admissions after the cutoff and not after now |
| RateLimit.AdmitKeepsSpaced | app/runtime/rate_limit.py:17-20 | admitting with room in the window keeps the history spaced |
| RateLimit.EvictionKeepsCount | app/runtime/rate_limit.py:15-16 | evicting expired events does not change the count |
| RateLimit.SlidingWindowRateLimiter.Evict | app/runtime/rate_limit.py:13-16 | what is left in the deque is what the full history has in the window |
| RateLimit.SlidingWindowRateLimiter.Allow | app/runtime/rate_limit.py:11-20 | denies exactly when `limit` admissions lie in (now - window, now]; a denial uses no slot; other keys untouched |
| RateLimit.SlidingWindowRateLimiter.Usage | app/runtime/rate_limit.py:22-28 | the displayed count is the number the next allow at that instant compares |
| RateLimit.SlidingWindowRateLimiter.WindowNeverExceeds | app/runtime/rate_limit.py:11-20 | for every key and instant the window ending there holds at most `limit` admissions |
| CircuitBreaker.ReplayMeaning | app/runtime/circuit_breaker.py:16-32 | the counter is the failures since the last reset; open exactly from the threshold on, since the latest failure |
| CircuitBreaker.StaysOpen | app/runtime/circuit_breaker.py:16-23 | no call passes within the recovery time of an opening failure unless a success intervenes |
| CircuitBreaker.RefusedExactlyWhen | app/runtime/circuit_breaker.py:16-23 | a call is refused exactly when some opening failure is recent and not followed by a success |
| CircuitBreaker.AskedAfterRecovery | app/runtime/circuit_breaker.py:16-23 | being asked closes an open circuit exactly once the recovery time has passed |
| CircuitBreaker.PassesMeaning | app/runtime/circuit_breaker.py:18-23 | a call passes while the circuit is closed and again after the recovery time |
| CircuitBreaker.OutcomesCounted | app/runtime/circuit_breaker.py:25-32 | a failure counts one more and opens from the threshold on; a success forgets everything |
| CircuitBreaker.Breaker.Allow | app/runtime/circuit_breaker.py:16-23 | the answer and the new state are those of the event history; other keys untouched |
| CircuitBreaker.Breaker.Success | app/runtime/circuit_breaker.py:25-26 | records a success for this key only |
| CircuitBreaker.Breaker.Failure | app/runtime/circuit_breaker.py:28-32 | records a failure for this key only |
| CircuitBreaker.Breaker.Status | app/runtime/circuit_breaker.py:34-44 | says open exactly when allow would refuse at that instant |
| ExecutionStore.InMemoryExecutionStore.Save | app/runtime/store.py:21-24 | stores the execution and points its non-empty key at it |
| ExecutionStore.InMemoryExecutionStore.ByIdempotencyKey | app/runtime/store.py:30-32 | answers with the execution the key points at |
| ExecutionStore.SaveThenLookup | app/runtime/store.py:21-32 | a lookup after a save answers with the save for its own key and as before otherwise |
| ExecutionStore.EarlierSuccessMeaning | app/runtime/service.py:32-35 | a request is answered from the store exactly when its non-empty key leads to a stored success |
| RuntimeService.SleptIsGeometric | app/runtime/service.py:96 | n backoff sleeps add up to base * (2^n - 1) |
| RuntimeService.IntegrationRuntime.Admit | app/runtime/service.py:44-54 | the limiter is asked first, and the breaker only if it admits |
| RuntimeService.IntegrationRuntime.Attempts | app/runtime/service.py:67-111 | success at the first successful attempt, or failure after max_retries + 1 calls; calls and sleeps are exact |
| RuntimeService.IntegrationRuntime.RunAdapter | app/runtime/service.py:64-114 | the breaker is charged exactly one success or one failure, and the final record is saved |
| RuntimeService.IntegrationRuntime.ExecuteFresh | app/runtime/service.py:37-114 | refusals and unknown providers call no adapter, sleep not at all and charge no outcome |
| RuntimeService.IntegrationRuntime.ExecuteLocked | app/runtime/service.py:31-114 | a stored success is returned and nothing changes; otherwise the outcome, store, histories, calls and sleeps are exact; limiter and breaker are asked under "provider:workflow" and no other key changes |
| RuntimeService.IntegrationRuntime.SettledMeans | app/runtime/service.py:44-114 | the outcome case by case: rate limited, circuit open, unknown provider, first success, exhausted; with status, error text, attempts and breaker charges |
| RuntimeService.ErrorTexts | app/runtime/service.py:84-106 | the error text of an exhausted execution is that of its last attempt |
| RuntimeService.KeysIdentify | app/runtime/service.py:37 | without colons in provider names two requests share a key exactly when provider and workflow are the same |
| RuntimeService.KeysCanCollide | app/runtime/service.py:37 | with a colon in a provider name two different pairs share a key |
| RuntimeService.WorkflowsAreSeparate | app/runtime/service.py:37 | two workflows of one provider never touch each other's histories |
| Idempotency.StepKeeps | app/runtime/service.py:24-35 | every segment of every request keeps locks exclusive and a success indexed with nobody active under its key |
| Idempotency.LookupFindsSuccess | app/runtime/store.py:30-32 | the index answers with the success of a key whenever there is one |
| Idempotency.AtMostOneSuccess | app/runtime/service.py:24-35 | in every interleaving at most one execution has succeeded under a key |
| Idempotency.SuccessIsFinal | app/runtime/service.py:32-35 | once one has, it stays stored, the adapter is not called again for the key, and later requests get it back |
| Idempotency.SuccessIsFinalInEveryRun | app/runtime/service.py:24-35 | the same from any reachable moment on |
| Idempotency.FinishedIsAccounted | app/runtime/service.py:67-114 | in every interleaving a finished request made at most max_retries + 1 calls and charged exactly one outcome, its own, or called nobody and charged nothing |
| Idempotency.ExecuteLockedIsARun | app/runtime/service.py:26-115 | a request that nobody interrupts is a run of the interleaving machine and leaves the store and calls that ExecuteLocked leaves |
| Approvals.InMemoryApprovalStore.Issue | app/tools/approvals.py:25-35 | adds the grant under its id |
| Approvals.InMemoryApprovalStore.Consume | app/tools/approvals.py:37-42 | succeeds exactly for a live grant of that tool, and only then removes it |
| Approvals.PostgresApprovalStore.Issue | app/persistence/postgres_stores.py:293-308 | inserts an unmarked row |
| Approvals.PostgresApprovalStore.Consume | app/persistence/postgres_stores.py:310-323 | succeeds exactly for an unmarked row of that tool, and marks it |
| Approvals.RowsAreIssuedIds | app/persistence/postgres_stores.py:297-302 | rows are never deleted: they are exactly the ids ever issued |
| Approvals.FreshStoresAgree | app/persistence/postgres_stores.py:289-323 | with fresh ids the unmarked rows simulate the remaining grants, answer by answer |
| Approvals.StoresAgreeExactlyWhenFresh | app/tools/approvals.py:21-42 | both stores answer a history alike exactly when no id is issued twice |
| ToolGate.LogKeepsNewest | app/tools/audit.py:67-68 | with a positive limit the log holds the newest events, as many as the limit allows |
| ToolGate.LogWithinLimitExactly | app/tools/audit.py:67-68 | after any record the log is within its limit exactly when the limit is positive |
| ToolGate.LogGrowsAtZero | app/tools/audit.py:67-68 | with limit zero nothing is ever dropped |
| ToolGate.AuditLog.Record | app/tools/audit.py:46-68 | takes the log of a history to the log of the history with one more record |
| ToolGate.ToolPolicy.Authorize | app/tools/policy.py:20-45 | READ passes and leaves every grant alone; anything else passes exactly with a live grant of that name, which is used up; both refusals named |
| ToolGate.ToolExecutor.Execute | app/tools/executor.py:20-75 | unknown, READ and gated tools: result, grants, calls and the one audit event in each case; success exactly when the handler ran and returned |
| ToolGate.RunTool | app/workflows/handlers.py:37-56 | a missing approval becomes waiting with the refusal as its result, every other failure, a missing tool name included, a retryable error |
| ToolGate.ExecuteToolStep | app/workflows/engine.py:93-135 | a tool step ends as the engine's retry rule says for the handler the gate makes of the tool, and each attempt is one gated request |
| ToolGate.OneCallHoweverOften | app/workflows/handlers.py:48-56 | repeating a non-READ request with one approval does what asking once does |
| ToolGate.GatedStepRule | app/workflows/engine.py:93-135 | all ways a gated step can end: waiting, completed, waiting again because the paid attempt raised with retries left, failed |
| GrantLedger.StepKeepsBalance | app/tools/policy.py:27-45 | every issue, authorisation, invocation and abandonment keeps the books balanced |
| GrantLedger.RunIsBalanced | app/tools/policy.py:27-45 | so does every history of interleaved callers |
| GrantLedger.EveryCallPaidByItsOwnGrant | app/tools/executor.py:39-75 | with authorisations and calls interleaved, every non-READ call was paid for by a grant of exactly its name that paid for nothing else |
| GrantLedger.CallsNeverExceedGrants | app/integrations/broker.py:191-207 | a gated name is never called more often than grants were issued for it |
| GrantLedger.OneCallPerGrant | app/tools/approvals.py:37-42 | under whatever interleaving one grant pays for at most one call |
| GrantLedger.ExecuteIsARun | app/tools/executor.py:39-64 | an executor or broker request, uninterrupted, is a run of the ledger |
| GrantLedger.StepIsARun | app/workflows/engine.py:94-125 | the attempts of a tool step, each asking the gate again, are a run of the ledger |
| GrantLedger.HistoryIsARun | app/tools/policy.py:27-45 | every history of issues, requests and tool steps on one store is a run of the ledger |
| GrantLedger.EveryOperationPaysItsCalls | app/workflows/handlers.py:48-56 | in every such history each non-READ call was paid for by a grant of exactly its name and by no other call |
| GrantLedger.OperationsNeverExceedGrants | app/integrations/broker.py:191-207 | in every such history a gated name is called at most as often as grants were issued for it |
| GrantLedger.WrongNameKeepsGrant | app/tools/approvals.py:39-40 | presenting a grant for another name is refused and leaves it live |
| GrantLedger.ReadAlwaysClears | app/tools/policy.py:27-28 | READ is let through whatever is presented, and every grant stays live |
| GrantLedger.ClearedExactlyWith | app/tools/policy.py:30-45 | anything else is let through exactly with a live grant of that name |
| GrantLedger.GrantWorksExactlyOnce | app/tools/approvals.py:37-42 | a live grant of the right name passes once and never again |
| Broker.SortOrders | app/integrations/broker.py:99 | the candidate list is sorted, configured first and then by id, and loses nothing |
| Broker.CandidatesServe | app/integrations/broker.py:92-98 | the candidates are exactly the implemented non-infrastructure connectors declaring the capability |
| Broker.RoutingRule | app/integrations/broker.py:84-99 | the first provider serves, is configured whenever any is, and has the least id among its like |
| Broker.AtMostMeaning | app/integrations/broker.py:99 | ids are compared like dictionary words |
| Broker.ConnectorBroker.RouteMeaning | app/integrations/broker.py:84-117 | a connector takes a request exactly when it serves the capability, is configured and comes first by id among those |
| Broker.ConnectorBroker.Invoke | app/integrations/broker.py:209-268 | one provider call at most; not wired, provider error and success are told apart; one audit event |
| Broker.ConnectorBroker.Execute | app/integrations/broker.py:137-207 | each outcome happens exactly under its condition; refusals before the policy leave grants alone; one audit event, success exactly on OK |
| Broker.ConnectorBroker.NotConnectedMeansNoneConfigured | app/integrations/broker.py:174-188 | no route for a served capability means that no serving connector is configured |
| JobQueue.InMemoryJobQueue.Enqueue | app/queue/base.py:34-36 | appends to the job's own queue only |
| JobQueue.InMemoryJobQueue.Dequeue | app/queue/base.py:38-41 | takes the front of the named queue only |
| JobQueue.JobWorker.Handle | app/queue/worker.py:41-52 | a failed job keeps id and payload, counts one more attempt and goes to the back while retries are left, else to the dead letters; backoff is exact |
| JobQueue.JobWorker.ProcessOne | app/queue/worker.py:34-39 | handles the front job, or reports an empty queue |
| JobQueue.OneUsesWork | app/queue/worker.py:41-52 | each call uses up at least one unit of work |
| JobQueue.QueueDrains | app/queue/worker.py:34-52 | the queue is empty after as many calls as there is work, however often handlers raise |
| JobQueue.WorkIsExact | app/queue/worker.py:41-52 | a job whose handler always raises is handled exactly as often as its work says |
| JobQueue.WorkMeans | app/queue/worker.py:45-46 | the work of a job is once more than its retries left, and once if none are |
| JobFlow.JobsAreConserved | app/queue/worker.py:34-52 | no interleaving of workers loses or duplicates a job |
| JobFlow.TakesAreBounded | app/queue/worker.py:41-52 | over every interleaving a job is taken at most max(1, max_retries - attempts + 1) times in sum |
| JobFlow.DeadMeansExhausted | app/queue/worker.py:45-52 | only jobs that failed more than max_retries times become dead letters |
| JobFlow.FirstInFirstOut | app/queue/base.py:34-41 | what was taken and what is queued is the old order followed by later arrivals |
| JobFlow.PositionDecidesTurn | app/queue/worker.py:34-52 | p + 1 dequeues by any workers reach the job at position p, poison messages or not, and it is the (p+1)-th taken |
| JobFlow.ProcessOneIsARun | app/queue/worker.py:34-52 | one call of a lone worker is a run of the flow: queue, dead letters, finished and taken jobs |
| JobFlow.CallsAreARun | app/queue/worker.py:34-52 | so is any sequence of its calls, whatever the handlers do |
| JobFlow.FirstHandledInTurn | app/queue/worker.py:34-52 | a lone worker first handles the job at position p in its (p+1)-th call |
| JobFlow.CallsConserveJobs | app/queue/worker.py:34-52 | whatever its handlers do, each job id is queued, dead or finished as often as it was there |
| MemoryFilter.FilterTwice | app/memory/in_memory.py:32-45 | rebinding the list filter by filter keeps what passes both |
| MemoryFilter.SortSorts | app/memory/in_memory.py:69 | the sort is a descending permutation by overlap, importance and creation time |
| MemoryFilter.TakeKeepsBest | app/memory/in_memory.py:67-70 | cutting the sorted list keeps the best and drops only what is not better |
| MemoryFilter.HitsMeaning | app/memory/in_memory.py:32-57 | which records match, filter by filter and by a shared token |
| MemoryFilter.RankMeaning | app/memory/in_memory.py:59-69 | ranking by shared tokens, then importance, then age |
| MemoryFilter.OverlapMeaning | app/memory/in_memory.py:48-57 | shared tokens are counted between the query and the record's text |
| MemoryFilter.HaystackMeaning | app/memory/in_memory.py:51-53 | a record's text is its key, content and tags, separated by blanks |
| MemoryFilter.SearchInMemory | app/memory/in_memory.py:29-70 | as many matching records as the limit allows, best first by (shared tokens, importance, created_at); nothing left out is better |
| MemorySql.AddClause | app/persistence/postgres_stores.py:73-75 | a bound clause adds exactly its own condition and leaves the earlier placeholders' values alone |
| MemorySql.Compile | app/persistence/postgres_stores.py:69-99 | the compiled conjunction, NULL as not true, selects exactly the records the filters keep; the limit is bound to its placeholder |
| MemorySql.ArrangementsAgree | app/persistence/postgres_stores.py:99 | two descending arrangements of the same records agree in rank place by place |
| MemorySql.SqlResultMeaning | app/persistence/postgres_stores.py:98-102 | the server answers with as many selected rows as the limit allows, most important and then newest first, and leaves out nothing better |
| MemorySql.SearchesAgreeUpToTies | app/persistence/postgres_stores.py:69-102 | both stores answer alike up to ties, the limit included |
| MemorySql.SearchBoth | app/memory/in_memory.py:29-70 | the compiled statement of a query and the reference search of it agree |
| ContextPacking.CompressRankedMemories | app/memory/semantic.py:82-94 | exactly the whole lines that fit, then the front of the next one when more than 20 characters are left |
| ContextPacking.PackedIsBoundedPrefix | app/memory/semantic.py:82-94 | the text is a prefix of the full context and never exceeds a non-negative limit |
| ContextPacking.DroppedOnlyWhenFull | app/memory/semantic.py:87-91 | if anything was dropped, the limit is met or at most 20 characters after a separator were left |
| ContextPacking.PackingIsUnique | app/memory/semantic.py:82-94 | lines and limit determine the text |
| EnvironmentStamp.NormaliseIsIdempotent | app/persistence/environment.py:30 | normalising a normalised name changes nothing |
| EnvironmentStamp.NormaliseMeans | app/persistence/environment.py:30 | normalising drops the white space around a name and lowers its letters, and nothing else |
| EnvironmentStamp.EnsureEnvironment | app/persistence/environment.py:23-65 | stamps a fresh database, and accepts exactly a name equal to the stamp |
| EnvironmentStamp.StepKeeps | app/persistence/environment.py:30-65 | every statement of every deployment keeps the stamp and the results that depend on it |
| EnvironmentStamp.StampNeverChanges | app/persistence/environment.py:45-50 | once set the stamp never changes |
| EnvironmentStamp.StampProvenance | app/persistence/environment.py:45-50 | it is the earlier stamp or some participant's normalised name |
| EnvironmentStamp.FinishedExactly | app/persistence/environment.py:53-65 | a finished deployment got through exactly when its name is the stamp's; the row never vanishes |
| EnvironmentStamp.AcceptedAgree | app/persistence/environment.py:57-65 | all deployments that get through run in the same environment |
| EnvironmentStamp.FreshDatabaseHasWinner | app/persistence/environment.py:51-53 | on a fresh database somebody gets through |
| EnvironmentStamp.AloneIsARun | app/persistence/environment.py:23-65 | an uninterrupted deployment is such a run |

## Left out

- MemoryFilter.SearchInMemory: the tokenizer is a parameter.
- MemorySql.SearchBoth: is stated for queries without text, because the two stores match text differently by design (token overlap and substring); each side models its own text search.
- WorkflowEngine.Engine.Resume: requires the stored run to belong to the definition it is resumed with; a resume with a different definition is not modelled.
- WorkflowEngine.Engine.ExecuteAll: runs the gathered steps one after the other; each touches only its own record and no handler's effect on another handler is modelled beyond the handler parameter.
- WorkflowLives.ListOrderIrrelevant: is stated for conditions whose value is known in advance or checked at once; WorkflowOrder.ListOrderMatters shows that it is false without such a condition, and WorkflowLives.OutcomeRule says what holds then.
- WorkflowLives.LifeKept: follows resumes of finished drives; resuming a state saved between two batches of an interrupted drive is not followed.
- ToolGate.RunTool: how a result is serialised is a parameter; a tool whose own output carries a waiting_approval flag is not told apart from other outputs, and is taken as the step's output.
- RuntimeService.IntegrationRuntime.ExecuteLocked: the exact limiter and breaker histories are those of an uninterrupted request (Idempotency.FinishedIsAccounted counts calls and charges under interleaving); no task cancellation; time is a real number read from a clock that never runs backwards.
- Idempotency.SuccessIsFinal: the in-memory store and no cancellation; which requests are refused and what adapters answer is arbitrary.
- Broker.SortOrders: the catalogue and configuration are fixed during one request.
- EnvironmentStamp.NormaliseIsIdempotent: whitespace and letter case are ASCII.
- Concurrent resumes of one run, which work on separate copies of the stored state.
- Error texts beyond the fixed messages, timestamps, correlation ids, JSON contents and Pydantic field bounds.
- Hybrid recall and semantic search: score arithmetic in floating point over external embeddings.
- Redis and PostgreSQL implementations of queue, run store, execution store and audit log.
- HTTP routes, OAuth, provider adapters, LLM calls, migrations and the user interface.
