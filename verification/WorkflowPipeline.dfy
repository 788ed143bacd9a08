/** From a submitted step list to a driven run: the validator guards the engine. */
module WorkflowPipeline {
  import opened Common
  import opened WorkflowModels
  import opened WorkflowGraph
  import opened WorkflowSemantics
  import opened WorkflowEngine
  import opened WorkflowLives
  import GraphValidator

  /** A list of steps is refused when it is empty, or for its graph. */
  datatype DefinitionError = NoSteps | BadGraph(error: GraphValidator.GraphError)

  /**
   A list is started exactly when it is well-formed and not empty. Its run then never ends in a false
   deadlock: FAILED means that a step failed, PAUSED that one waits for approval.
   */
  method ValidateAndStart(engine: Engine, steps: seq<WorkflowStep>, runId: string, context: map<string, Value>)
    returns (r: Result<WorkflowRun, DefinitionError>)
    modifies engine.store
    ensures r.Ok? <==> |steps| >= 1 && WellFormed(steps)
    ensures r.Err? ==> engine.store.runs == old(engine.store.runs)
    ensures r.Err? ==> if steps == [] then r.error == NoSteps
      else r.error.BadGraph? && GraphValidator.ReportedFor(steps, r.error.error)
    ensures r.Ok? ==> engine.store.runs == old(engine.store.runs)[runId := r.value.State()]
    ensures r.Ok? ==> Driven(steps, engine.handlers, Initial(steps, context), r.value.State())
    ensures r.Ok? && r.value.status == RunFailed ==>
      exists id :: id in r.value.steps && r.value.steps[id].status == Failed
    ensures r.Ok? && r.value.status == RunPaused ==>
      exists id :: id in r.value.steps && r.value.steps[id].status == WaitingApproval
  {
    hide Driven, Sane;
    if steps == [] {
      return Err(NoSteps);
    }
    var verdict, order := GraphValidator.ValidateGraph(steps);
    if verdict.Err? {
      return Err(BadGraph(verdict.error));
    }
    var run := engine.Start(steps, runId, context);
    StartNeverDeadlocks(steps, engine.handlers, context, run.State());
    return Ok(run);
  }
}
