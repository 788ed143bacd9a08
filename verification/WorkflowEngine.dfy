/**
 The workflow engine (app/workflows/engine.py): start, resume, and the loop that drives a
 run until nothing can move. Each method is proved equal to its function in WorkflowPasses.
 */
module WorkflowEngine {
  import opened Common
  import opened WorkflowModels
  import opened WorkflowGraph
  import opened WorkflowSemantics
  import opened WorkflowPasses
  import opened WorkflowEntry

  class WorkflowRun {
    const id: string
    var status: WorkflowStatus
    var context: map<string, Value>
    var steps: map<string, StepRun>
    /** History of the handler calls made for this run. */
    var calls: seq<Call>

    constructor (id: string, state: RunState)
      ensures this.id == id && State() == state
    {
      this.id := id;
      status, context, steps, calls := state.status, state.context, state.steps, state.calls;
    }

    function State(): RunState
      reads this
    {
      RunState(status, context, steps, calls)
    }
  }

  /** The run store keeps copies, so a stored state never changes behind its back. */
  class RunStore {
    var runs: map<string, RunState>

    constructor ()
      ensures runs == map[]
    {
      runs := map[];
    }

    method Save(run: WorkflowRun)
      modifies this
      ensures runs == old(runs)[run.id := run.State()]
    {
      runs := runs[run.id := run.State()];
    }

    function Get(runId: string): Option<RunState>
      reads this
    {
      if runId in runs then Some(runs[runId]) else None
    }
  }

  /** The store differs from `was`, if at all, in what it holds for this run. */
  predicate OnlyRunSaved(was: map<string, RunState>, now: map<string, RunState>, id: string) {
    now == was || (id in now && now == was[id := now[id]])
  }

  lemma SaveReplaces(was: map<string, RunState>, now: map<string, RunState>, id: string, state: RunState)
    requires OnlyRunSaved(was, now, id)
    ensures now[id := state] == was[id := state]
    ensures OnlyRunSaved(was, now[id := state], id)
  {
  }

  class Engine {
    const store: RunStore
    const handlers: Handlers

    constructor (store: RunStore, handlers: Handlers)
      ensures this.store == store && this.handlers == handlers
    {
      this.store, this.handlers := store, handlers;
    }

    /** One handler call; the outcome is the environment's. */
    method Invoke(step: WorkflowStep, attempt: nat, approvalId: Option<string>, run: WorkflowRun)
      returns (result: AttemptResult)
      modifies run`calls
      ensures result == handlers(step.id, attempt, approvalId)
      ensures run.calls == old(run.calls) + [Call(step.id, attempt, approvalId)]
    {
      run.calls := run.calls + [Call(step.id, attempt, approvalId)];
      result := handlers(step.id, attempt, approvalId);
    }

    method ExecuteStep(step: WorkflowStep, run: WorkflowRun)
      requires step.id in run.steps
      modifies run`steps, run`calls
      ensures run.steps == old(run.steps)[step.id := Retried(step, old(run.steps[step.id]), handlers)]
      ensures run.calls == old(run.calls) + NewCalls(step.id, old(run.steps[step.id]), run.steps[step.id].attempts)
    {
      hide NewCalls;
      ghost var start := run.steps[step.id];
      NewCallsNone(step.id, start);
      var state := run.steps[step.id].(status := Running);
      run.steps := run.steps[step.id := state];
      var attempt := state.attempts + 1;
      while attempt <= step.maxRetries + 1
        invariant run.steps == old(run.steps)[step.id := state]
        invariant state.status == Running && state.approvalId == start.approvalId
        invariant state.attempts == attempt - 1
        invariant RetriedFrom(step, state, attempt, handlers) == Retried(step, start, handlers)
        invariant run.calls == old(run.calls) + NewCalls(step.id, start, state.attempts)
      {
        state := state.(attempts := attempt);
        var result := Invoke(step, attempt, state.approvalId, run);
        NewCallsNext(step.id, start, attempt - 1);
        match result {
          case Waits(value) =>
            state := state.(status := WaitingApproval, output := value, error := None);
            run.steps := run.steps[step.id := state];
            return;
          case Returned(value) =>
            state := state.(output := value, error := None, status := Completed);
            run.steps := run.steps[step.id := state];
            return;
          case Raised(message) =>
            state := state.(error := Some(message));
            if attempt > step.maxRetries {
              state := state.(status := Failed);
              run.steps := run.steps[step.id := state];
              return;
            }
            run.steps := run.steps[step.id := state];
        }
        attempt := attempt + 1;
      }
    }

    /** One pass over the pending steps, in list order. */
    method Scan(defn: seq<WorkflowStep>, run: WorkflowRun) returns (ready: seq<WorkflowStep>, progress: bool)
      requires Listed(defn, run.steps)
      modifies run`steps
      ensures Pass(run.steps, ready) == Scanned(defn, run.context, old(run.steps))
      ensures progress <==> run.steps != old(run.steps)
    {
      hide AnyDepFailed, AllDepsSettled, ConditionPasses, Scanned;
      ScanStarts(defn, run.context, run.steps);
      ready, progress := [], false;
      for i := 0 to |defn|
        invariant run.steps.Keys == old(run.steps).Keys
        invariant Pass(run.steps, ready) == Scanned(defn[..i], run.context, old(run.steps))
        invariant progress <==> run.steps != old(run.steps)
      {
        ScanNext(defn, run.context, old(run.steps), i);
        ScanOnlySkips(defn[..i], run.context, old(run.steps));
        var step := defn[i];
        if run.steps[step.id].status == Pending {
          if AnyDepFailed(step, run.steps) {
            run.steps := run.steps[step.id := run.steps[step.id].(status := Skipped)];
            progress := true;
          } else if AllDepsSettled(step, run.steps) {
            if !ConditionPasses(step, run.context) {
              run.steps := run.steps[step.id := run.steps[step.id].(status := Skipped)];
              progress := true;
            } else {
              ready := ready + [step];
            }
          }
        }
      }
      assert defn[..|defn|] == defn;
    }

    /** The gathered executions of one batch; nothing is written to the context yet. */
    method ExecuteAll(run: WorkflowRun, ready: seq<WorkflowStep>)
      requires Listed(ready, run.steps)
      modifies run`steps, run`calls
      ensures run.State() == Executed(ready, handlers, old(run.State()))
    {
      for j := 0 to |ready|
        invariant run.State() == Executed(ready[..j], handlers, old(run.State()))
      {
        assert ready[..j + 1][..j] == ready[..j];
        ExecuteStep(ready[j], run);
      }
      assert ready[..|ready|] == ready;
    }

    /** Writes the outputs of the completed steps of the batch into the context. */
    method RecordOutputs(run: WorkflowRun, ready: seq<WorkflowStep>)
      requires Listed(ready, run.steps)
      modifies run`context
      ensures run.State() == Recorded(ready, old(run.State()))
    {
      for j := 0 to |ready|
        invariant run.State() == Recorded(ready[..j], old(run.State()))
      {
        assert ready[..j + 1][..j] == ready[..j];
        if run.steps[ready[j].id].status == Completed {
          run.context := run.context[StepKey(ready[j].id) := run.steps[ready[j].id].output];
        }
      }
      assert ready[..|ready|] == ready;
    }

    method SaveRun(run: WorkflowRun, ghost was: map<string, RunState>)
      requires OnlyRunSaved(was, store.runs, run.id)
      modifies store
      ensures store.runs == was[run.id := run.State()] && OnlyRunSaved(was, store.runs, run.id)
    {
      SaveReplaces(was, store.runs, run.id, run.State());
      store.Save(run);
    }

    /** Every way out of the drive: set the run status and save. */
    method Finish(run: WorkflowRun, status: WorkflowStatus, ghost was: map<string, RunState>)
      requires OnlyRunSaved(was, store.runs, run.id)
      modifies run`status, store
      ensures run.State() == old(run.State()).(status := status)
      ensures store.runs == was[run.id := run.State()] && OnlyRunSaved(was, store.runs, run.id)
    {
      run.status := status;
      SaveRun(run, was);
    }

    /** One turn of the loop; the state is saved after a batch and on every way out. */
    method Step(defn: seq<WorkflowStep>, run: WorkflowRun, ghost was: map<string, RunState>) returns (done: bool)
      requires Listed(defn, run.steps) && OnlyRunSaved(was, store.runs, run.id)
      modifies run, store
      ensures var t := Turned(defn, handlers, old(run.State())); done == t.Done? && run.State() == t.run
      ensures OnlyRunSaved(was, store.runs, run.id)
      ensures done ==> store.runs == was[run.id := run.State()]
    {
      hide Scanned, Executed, Recorded, OnlyRunSaved;
      if forall id | id in run.steps :: Terminal(run.steps[id].status) {
        var anyFailed := exists id | id in run.steps :: run.steps[id].status == Failed;
        Finish(run, if anyFailed then RunFailed else RunCompleted, was);
        return true;
      }
      var waiting := exists id | id in run.steps :: run.steps[id].status == WaitingApproval;
      ScanOnlySkips(defn, run.context, run.steps);
      var ready, progress := Scan(defn, run);
      if ready != [] {
        ExecuteAll(run, ready);
        RecordOutputs(run, ready);
        SaveRun(run, was);
        return false;
      }
      if waiting && !progress {
        Finish(run, RunPaused, was);
        return true;
      }
      if !progress {
        Finish(run, RunFailed, was);
        return true;
      }
      return false;
    }

    /** Drives the run until nothing can move; every exit saves the final state. */
    method Drive(defn: seq<WorkflowStep>, run: WorkflowRun)
      requires KnownDeps(defn) && Listed(defn, run.steps)
      modifies run, store
      ensures run.State() == Driving(defn, handlers, old(run.State()))
      ensures store.runs == old(store.runs)[run.id := run.State()]
    {
      ghost var was := store.runs;
      while true
        invariant Listed(defn, run.steps) && OnlyRunSaved(was, store.runs, run.id)
        invariant Driving(defn, handlers, run.State()) == Driving(defn, handlers, old(run.State()))
        decreases PendingIds(run.steps)
      {
        TurnMoves(defn, handlers, run.State());
        var done := Step(defn, run, was);
        if done {
          return;
        }
      }
    }

    method DriveStored(defn: seq<WorkflowStep>, run: WorkflowRun)
      requires UniqueIds(defn) && KnownDeps(defn) && Sane(defn, run.State())
      modifies run, store
      ensures Listed(defn, old(run.steps)) && run.State() == Driving(defn, handlers, old(run.State()))
      ensures Driven(defn, handlers, old(run.State()), run.State()) && Sane(defn, run.State())
      ensures store.runs == old(store.runs)[run.id := run.State()]
    {
      hide Driven, Sane, Driving;
      DrivingIsDriven(defn, handlers, run.State());
      store.Save(run);
      Drive(defn, run);
    }

    method Start(defn: seq<WorkflowStep>, runId: string, context: map<string, Value>) returns (run: WorkflowRun)
      requires WellFormed(defn)
      modifies store
      ensures fresh(run) && run.id == runId
      ensures Listed(defn, Initial(defn, context).steps)
      ensures run.State() == Driving(defn, handlers, Initial(defn, context))
      ensures Driven(defn, handlers, Initial(defn, context), run.State()) && Sane(defn, run.State())
      ensures store.runs == old(store.runs)[runId := run.State()]
    {
      InitialIsSane(defn, context);
      run := new WorkflowRun(runId, Initial(defn, context));
      DriveStored(defn, run);
    }

    method ApplyApprovals(run: WorkflowRun, approvals: map<string, string>)
      modifies run`steps
      ensures run.steps == WithApprovals(old(run.steps), approvals)
      ensures run.steps.Keys == old(run.steps).Keys
      ensures forall id :: id in run.steps && id !in approvals ==> run.steps[id] == old(run.steps)[id]
      ensures forall id :: id in run.steps && id in approvals ==>
        var s := old(run.steps)[id];
        run.steps[id] == StepRun(if s.status == WaitingApproval then Pending else s.status,
                                 s.attempts, s.output, s.error, Some(approvals[id]))
    {
      var todo := approvals.Keys;
      ghost var applied: map<string, string> := map[];
      while todo != {}
        invariant todo !! applied.Keys && todo + applied.Keys == approvals.Keys
        invariant forall id :: id in applied ==> applied[id] == approvals[id]
        invariant run.steps == WithApprovals(old(run.steps), applied)
        decreases todo
      {
        var stepId :| stepId in todo;
        ghost var was := run.steps;
        if stepId in run.steps {
          run.steps := run.steps[stepId := run.steps[stepId].(approvalId := Some(approvals[stepId]))];
          if run.steps[stepId].status == WaitingApproval {
            run.steps := run.steps[stepId := run.steps[stepId].(status := Pending)];
          }
        }
        applied := applied[stepId := approvals[stepId]];
        todo := todo - {stepId};
      }
      assert applied == approvals;
    }

    /** Resuming an unknown run is the KeyError; otherwise approvals are applied and the run driven on. */
    method Resume(defn: seq<WorkflowStep>, runId: string, approvals: map<string, string>)
      returns (r: Result<WorkflowRun, string>)
      requires WellFormed(defn) && (runId in store.runs ==> Sane(defn, store.runs[runId]))
      modifies store
      ensures r.Ok? <==> runId in old(store.runs)
      ensures r.Err? ==> r.error == runId && store.runs == old(store.runs)
      ensures r.Ok? ==> fresh(r.value) && r.value.id == runId
      ensures r.Ok? ==> Listed(defn, Approved(old(store.runs)[runId], approvals).steps)
      ensures r.Ok? ==> r.value.State() == Driving(defn, handlers, Approved(old(store.runs)[runId], approvals))
      ensures r.Ok? ==> Driven(defn, handlers, Approved(old(store.runs)[runId], approvals), r.value.State())
      ensures r.Ok? ==> Sane(defn, r.value.State()) && store.runs == old(store.runs)[runId := r.value.State()]
      ensures r.Ok? ==> r.value.steps.Keys == old(store.runs)[runId].steps.Keys
      ensures r.Ok? ==> forall id :: id in r.value.steps ==>
        var was, now := old(store.runs)[runId], r.value;
        && now.steps[id].approvalId == (if id in approvals then Some(approvals[id]) else was.steps[id].approvalId)
        && CallsCarry(CallsOf(was.calls, id), CallsOf(now.calls, id), now.steps[id].approvalId)
        && (was.steps[id].status == WaitingApproval && id !in approvals ==> now.steps[id] == was.steps[id])
    {
      var stored := store.Get(runId);
      if stored.None? {
        return Err(runId);
      }
      ApprovalsKeepSane(defn, stored.value, approvals);
      var run := new WorkflowRun(runId, stored.value);
      ApplyApprovals(run, approvals);
      run.status := RunRunning;
      DriveStored(defn, run);
      forall id | id in stored.value.steps {
        ApprovalsArrive(defn, handlers, stored.value, approvals, run.State(), id);
      }
      return Ok(run);
    }
  }
}
