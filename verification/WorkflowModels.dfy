/** The workflow entities: steps, step runs and the statuses they go through. */
module WorkflowModels {
  import opened Common

  /** A JSON payload. Only equality matters; Null is what a missing key reads as. */
  datatype Value = Null | Data(token: int)

  datatype StepStatus = Pending | Running | Completed | Failed | Skipped | WaitingApproval

  datatype WorkflowStatus = RunPending | RunRunning | RunPaused | RunCompleted | RunFailed

  datatype WorkflowStep = WorkflowStep(
    id: string,
    dependsOn: seq<string>,
    conditionKey: Option<string>,
    conditionEquals: Value,
    maxRetries: nat)

  datatype StepRun = StepRun(
    status: StepStatus,
    attempts: nat,
    output: Value,
    error: Option<string>,
    approvalId: Option<string>)

  const FreshStep := StepRun(Pending, 0, Null, None, None)

  /** What one call of a step's handler did: returned, asked for approval, or raised. */
  datatype AttemptResult = Returned(output: Value) | Waits(result: Value) | Raised(error: string)

  /** The handlers: step id, attempt number and approval id decide the outcome of the call. */
  type Handlers = (string, nat, Option<string>) -> AttemptResult

  predicate Terminal(status: StepStatus) {
    status in {Completed, Failed, Skipped}
  }

  /** A dependency in one of these statuses lets its dependents run. */
  predicate Settled(status: StepStatus) {
    status in {Completed, Skipped}
  }

  /** The context key that holds a completed step's output. */
  function StepKey(id: string): (key: string)
    ensures |key| == |id| + 5 && key[..5] == "step." && key[5..] == id
  {
    "step." + id
  }

  function IdsOf(steps: seq<WorkflowStep>): (ids: seq<string>)
    ensures |ids| == |steps|
    ensures forall i :: 0 <= i < |steps| ==> ids[i] == steps[i].id
  {
    seq(|steps|, i requires 0 <= i < |steps| => steps[i].id)
  }

  function IdSet(steps: seq<WorkflowStep>): set<string> {
    set i | 0 <= i < |steps| :: steps[i].id
  }
}
