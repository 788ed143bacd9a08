/**
 What the first pass of a drive decides: a pending step whose dependencies are settled on entry
 is judged by the context the drive begins with. With that, every drive is as WorkflowSemantics
 asks.
 */
module WorkflowEntry {
  import opened WorkflowModels
  import opened WorkflowGraph
  import opened WorkflowSemantics
  import opened WorkflowPasses

  /** Step `step` of an unfinished pass is decided by the context alone. */
  predicate DecidedByContext(step: WorkflowStep, context: map<string, Value>, steps: map<string, StepRun>, p: Pass)
    requires step.id in steps && step.id in p.steps
  {
    if ConditionPasses(step, context) then p.steps[step.id] == steps[step.id] && step in p.ready
    else p.steps[step.id] == steps[step.id].(status := Skipped)
  }

  lemma EntryExamined(step: WorkflowStep, context: map<string, Value>, steps: map<string, StepRun>, p: Pass)
    requires step.id in steps && step.id in p.steps && p.steps[step.id] == steps[step.id]
    requires AllDepsSettled(step, p.steps) && steps[step.id].status == Pending
    ensures DecidedByContext(step, context, steps, Examined(step, context, p))
  {
    hide ConditionPasses;
    assert !AnyDepFailed(step, p.steps);
  }

  /** Skipping pending steps leaves settled dependencies settled. */
  lemma SettledThroughSkips(step: WorkflowStep, steps: map<string, StepRun>, next: map<string, StepRun>)
    requires OnlySkipped(steps, next) && AllDepsSettled(step, steps)
    ensures AllDepsSettled(step, next)
  {
  }

  lemma OtherExamined(step: WorkflowStep, other: WorkflowStep, context: map<string, Value>,
                      steps: map<string, StepRun>, p: Pass)
    requires step.id in steps && step.id in p.steps && other.id in p.steps && other.id != step.id
    requires DecidedByContext(step, context, steps, p)
    ensures DecidedByContext(step, context, steps, Examined(other, context, p))
  {
    hide ConditionPasses, AnyDepFailed, AllDepsSettled;
  }

  /** A pass decides a pending step with settled dependencies by the context it runs in. */
  lemma {:induction false} EntryScanned(defn: seq<WorkflowStep>, context: map<string, Value>,
                                       steps: map<string, StepRun>, n: nat, i: nat)
    requires i < n <= |defn| && UniqueIds(defn) && Listed(defn, steps)
    requires AllDepsSettled(defn[i], steps) && steps[defn[i].id].status == Pending
    ensures Listed(defn[..n], steps)
    ensures DecidedByContext(defn[i], context, steps, Scanned(defn[..n], context, steps))
  {
    hide DecidedByContext, Examined, Scanned;
    ScanNext(defn, context, steps, n - 1);
    var p := Scanned(defn[..n - 1], context, steps);
    if i == n - 1 {
      OthersScanned(defn, context, steps, n - 1, i);
      ScanOnlySkips(defn[..n - 1], context, steps);
      SettledThroughSkips(defn[i], steps, p.steps);
      EntryExamined(defn[i], context, steps, p);
    } else {
      EntryScanned(defn, context, steps, n - 1, i);
      OtherExamined(defn[i], defn[n - 1], context, steps, p);
    }
  }

  /** A pass over other steps leaves this one alone. */
  lemma {:induction false} OthersScanned(defn: seq<WorkflowStep>, context: map<string, Value>,
                                         steps: map<string, StepRun>, n: nat, i: nat)
    requires n <= i < |defn| && UniqueIds(defn) && Listed(defn, steps)
    ensures Listed(defn[..n], steps)
    ensures Scanned(defn[..n], context, steps).steps[defn[i].id] == steps[defn[i].id]
  {
    if n > 0 {
      hide Scanned, AnyDepFailed, AllDepsSettled, ConditionPasses;
      ScanNext(defn, context, steps, n - 1);
      OthersScanned(defn, context, steps, n - 1, i);
    }
  }

  /** A batch executes each of its steps once, from the record it had. */
  lemma {:induction false} BatchExecutes(ready: seq<WorkflowStep>, h: Handlers, run: RunState, i: nat)
    requires i < |ready| && DistinctSteps(ready) && Listed(ready, run.steps)
    ensures Executed(ready, h, run).steps[ready[i].id] == Retried(ready[i], run.steps[ready[i].id], h)
  {
    var n := |ready| - 1;
    if i < n {
      BatchExecutes(ready[..n], h, run, i);
      assert ready[..n][i] == ready[i];
    } else {
      BatchSkips(ready[..n], h, run, ready[n].id);
    }
  }

  lemma {:induction false} BatchSkips(ready: seq<WorkflowStep>, h: Handlers, run: RunState, id: string)
    requires Listed(ready, run.steps) && id in run.steps && forall i :: 0 <= i < |ready| ==> ready[i].id != id
    ensures Executed(ready, h, run).steps[id] == run.steps[id]
  {
    if ready != [] {
      BatchSkips(ready[..|ready| - 1], h, run, id);
    }
  }

  /** The first turn decides every pending step whose dependencies are settled. */
  lemma EntryTurn(defn: seq<WorkflowStep>, h: Handlers, run: RunState, i: nat)
    requires UniqueIds(defn) && Sane(defn, run) && i < |defn|
    requires AllDepsSettled(defn[i], run.steps) && run.steps[defn[i].id].status == Pending
    ensures Listed(defn, run.steps) && Turned(defn, h, run).More?
    ensures var s := run.steps[defn[i].id];
      Turned(defn, h, run).run.steps[defn[i].id] ==
        if ConditionPasses(defn[i], run.context) then Retried(defn[i], s, h) else s.(status := Skipped)
  {
    hide Sane, Progressed, Scanned, Startable, ConditionPasses, Executed, Recorded;
    var id := defn[i].id;
    var p := PassOf(defn, h, run, i);
    if p.ready != [] {
      var scanned := run.(steps := p.steps);
      if k :| 0 <= k < |p.ready| && p.ready[k] == defn[i] {
        StartableId(defn, run, p.steps, p.ready[k]);
        BatchExecutes(p.ready, h, scanned, k);
      } else {
        forall k | 0 <= k < |p.ready|
          ensures p.ready[k].id != id
        {
          PickedFrom(defn, run, p, k, i);
        }
        BatchSkips(p.ready, h, scanned, id);
      }
    }
  }

  lemma PassOf(defn: seq<WorkflowStep>, h: Handlers, run: RunState, i: nat) returns (p: Pass)
    requires UniqueIds(defn) && Sane(defn, run) && i < |defn|
    requires AllDepsSettled(defn[i], run.steps) && run.steps[defn[i].id].status == Pending
    ensures Listed(defn, run.steps) && p == Scanned(defn, run.context, run.steps)
    ensures OnlySkipped(run.steps, p.steps) && AllPending(p.ready, run.steps)
    ensures Picked(defn, run, p.steps, p.ready, |defn|)
    ensures DecidedByContext(defn[i], run.context, run.steps, p)
  {
    hide Progressed, Sane, Picked, DecidedByContext, OnlySkipped, AllPending;
    ProgressStarts(defn, h, run);
    assert defn[..|defn|] == defn;
    ScanKeeps(defn, h, run, run, |defn|);
    ScanOnlySkips(defn, run.context, run.steps);
    EntryScanned(defn, run.context, run.steps, |defn|, i);
    p := Scanned(defn, run.context, run.steps);
  }

  lemma PickedFrom(defn: seq<WorkflowStep>, run: RunState, p: Pass, k: nat, i: nat)
    requires UniqueIds(defn) && i < |defn| && k < |p.ready| && Picked(defn, run, p.steps, p.ready, |defn|)
    ensures p.ready[k].id == defn[i].id ==> p.ready[k] == defn[i]
  {
    StartableId(defn, run, p.steps, p.ready[k]);
    var j :| 0 <= j < |defn| && defn[j] == p.ready[k];
  }

  /**
   Wherever it stands in the list and whatever its condition reads, a step whose dependencies
   are settled on entry is decided by the context the drive began with.
   */
  lemma SettledAreJudgedOnEntry(defn: seq<WorkflowStep>, h: Handlers, run: RunState, step: WorkflowStep)
    requires UniqueIds(defn) && Sane(defn, run) && step in defn
    ensures Listed(defn, run.steps)
    ensures EntryJudged(step, h, run, Driving(defn, h, run))
  {
    hide Sane, Progressed, Turned, ConditionPasses, Retried, Rested, Driving, AllDepsSettled;
    SaneIsListed(defn, run);
    var i :| 0 <= i < |defn| && defn[i] == step;
    if AllDepsSettled(step, run.steps) && run.steps[step.id].status == Pending {
      EntryTurn(defn, h, run, i);
      var next := Turned(defn, h, run).run;
      ProgressStarts(defn, h, run);
      TurnKeeps(defn, h, run, run);
      DriveKeepsSane(defn, h, run, next);
      ProgressStarts(defn, h, next);
      DrivingKeeps(defn, h, next, next);
      RetriedBounds(step, run.steps[step.id], h);
      RestedKeepsDecided(defn, h, next, Driving(defn, h, next), step.id);
      DrivingNext(defn, h, run);
    }
  }

  lemma SaneIsListed(defn: seq<WorkflowStep>, run: RunState)
    requires Sane(defn, run)
    ensures Listed(defn, run.steps)
  {
  }

  lemma DrivingNext(defn: seq<WorkflowStep>, h: Handlers, run: RunState)
    requires Listed(defn, run.steps) && Turned(defn, h, run).More?
    ensures Listed(defn, Turned(defn, h, run).run.steps)
    ensures Driving(defn, h, run) == Driving(defn, h, Turned(defn, h, run).run)
  {
    TurnMoves(defn, h, run);
  }

  lemma RestedKeepsDecided(defn: seq<WorkflowStep>, h: Handlers, before: RunState, after: RunState, id: string)
    requires Rested(defn, h, before, after) && id in before.steps && before.steps[id].status != Pending
    ensures id in after.steps && after.steps[id] == before.steps[id]
  {
    DriveOnlyMovesPending(defn, h, before, after);
  }

  /** Every drive of a sane run does what WorkflowSemantics asks. */
  lemma DrivingIsDriven(defn: seq<WorkflowStep>, h: Handlers, run: RunState)
    requires UniqueIds(defn) && Sane(defn, run)
    ensures Listed(defn, run.steps)
    ensures Driven(defn, h, run, Driving(defn, h, run)) && Sane(defn, Driving(defn, h, run))
  {
    hide Driving, Progressed, Sane, EntryJudged;
    ProgressStarts(defn, h, run);
    DrivingKeeps(defn, h, run, run);
    DriveKeepsSane(defn, h, run, Driving(defn, h, run));
    forall i | 0 <= i < |defn|
      ensures EntryJudged(defn[i], h, run, Driving(defn, h, run))
    {
      SettledAreJudgedOnEntry(defn, h, run, defn[i]);
    }
  }
}
