/**
 One pass over the pending steps, one batch and one turn of the engine's loop, as functions of
 the run. Driving a run is repeating turns; every drive meets its guarantee in WorkflowSemantics.
 */
module WorkflowPasses {
  import opened WorkflowModels
  import opened WorkflowGraph
  import opened WorkflowSemantics

  // ---- the loop as a function -----------------------------------------------------------

  /** The statuses a pass leaves behind, and the steps it picked. */
  datatype Pass = Pass(steps: map<string, StepRun>, ready: seq<WorkflowStep>)

  predicate Listed(defn: seq<WorkflowStep>, steps: map<string, StepRun>) {
    forall i :: 0 <= i < |defn| ==> defn[i].id in steps
  }

  /** What a pass does at one step: skip it, pick it, or leave it. */
  function Examined(step: WorkflowStep, context: map<string, Value>, p: Pass): (next: Pass)
    requires step.id in p.steps
    ensures next.steps.Keys == p.steps.Keys
  {
    var s := p.steps[step.id];
    if s.status != Pending then p
    else if AnyDepFailed(step, p.steps) then p.(steps := p.steps[step.id := s.(status := Skipped)])
    else if !AllDepsSettled(step, p.steps) then p
    else if ConditionPasses(step, context) then p.(ready := p.ready + [step])
    else p.(steps := p.steps[step.id := s.(status := Skipped)])
  }

  /** A pass in list order; later steps see earlier skips. */
  function Scanned(defn: seq<WorkflowStep>, context: map<string, Value>, steps: map<string, StepRun>): (p: Pass)
    requires Listed(defn, steps)
    ensures p.steps.Keys == steps.Keys
  {
    if defn == [] then Pass(steps, [])
    else
      var n := |defn| - 1;
      Examined(defn[n], context, Scanned(defn[..n], context, steps))
  }

  function ExecutedOne(step: WorkflowStep, h: Handlers, run: RunState): RunState
    requires step.id in run.steps
  {
    var s := run.steps[step.id];
    var r := Retried(step, s, h);
    run.(steps := run.steps[step.id := r], calls := run.calls + NewCalls(step.id, s, r.attempts))
  }

  function Executed(ready: seq<WorkflowStep>, h: Handlers, run: RunState): (next: RunState)
    requires Listed(ready, run.steps)
    ensures next.steps.Keys == run.steps.Keys && next.context == run.context && next.status == run.status
  {
    if ready == [] then run
    else ExecutedOne(ready[|ready| - 1], h, Executed(ready[..|ready| - 1], h, run))
  }

  function Recorded(ready: seq<WorkflowStep>, run: RunState): (next: RunState)
    requires Listed(ready, run.steps)
    ensures next == run.(context := next.context)
  {
    if ready == [] then run
    else
      var id, sofar := ready[|ready| - 1].id, Recorded(ready[..|ready| - 1], run);
      if run.steps[id].status == Completed
      then sofar.(context := sofar.context[StepKey(id) := run.steps[id].output]) else sofar
  }

  datatype Turn = More(run: RunState) | Done(run: RunState)

  /** One turn of the loop: finish, run a batch, or go round again because something was skipped. */
  function Turned(defn: seq<WorkflowStep>, h: Handlers, run: RunState): (t: Turn)
    requires Listed(defn, run.steps)
    ensures t.run.steps.Keys == run.steps.Keys
  {
    if forall id :: id in run.steps ==> Terminal(run.steps[id].status) then
      Done(run.(status := if exists id :: id in run.steps && run.steps[id].status == Failed then RunFailed else RunCompleted))
    else
      var p := Scanned(defn, run.context, run.steps);
      ScanOnlySkips(defn, run.context, run.steps);
      var scanned := run.(steps := p.steps);
      if p.ready != [] then More(Recorded(p.ready, Executed(p.ready, h, scanned)))
      else if p.steps != run.steps then More(scanned)
      else Done(run.(status :=
        if exists id :: id in run.steps && run.steps[id].status == WaitingApproval then RunPaused else RunFailed))
  }

  /** The state in which the loop is left. */
  function Driving(defn: seq<WorkflowStep>, h: Handlers, run: RunState): (last: RunState)
    requires Listed(defn, run.steps)
    ensures last.steps.Keys == run.steps.Keys
    decreases PendingIds(run.steps)
  {
    TurnMoves(defn, h, run);
    match Turned(defn, h, run)
    case Done(last) => last
    case More(next) => Driving(defn, h, next)
  }

  // ---- it terminates --------------------------------------------------------------------

  function PendingIds(steps: map<string, StepRun>): set<string> {
    set id | id in steps && steps[id].status == Pending
  }

  lemma ScanStarts(defn: seq<WorkflowStep>, context: map<string, Value>, steps: map<string, StepRun>)
    ensures Scanned(defn[..0], context, steps) == Pass(steps, [])
  {
  }

  lemma ScanNext(defn: seq<WorkflowStep>, context: map<string, Value>, steps: map<string, StepRun>, n: nat)
    requires n < |defn| && Listed(defn, steps)
    ensures Listed(defn[..n], steps) && Listed(defn[..n + 1], steps)
    ensures Scanned(defn[..n + 1], context, steps) == Examined(defn[n], context, Scanned(defn[..n], context, steps))
  {
    assert defn[..n + 1][..n] == defn[..n];
  }

  predicate OnlySkipped(steps: map<string, StepRun>, next: map<string, StepRun>) {
    steps.Keys == next.Keys &&
    forall id :: id in steps && next[id] != steps[id] ==>
      steps[id].status == Pending && next[id] == steps[id].(status := Skipped)
  }

  predicate AllPending(ready: seq<WorkflowStep>, steps: map<string, StepRun>) {
    forall i :: 0 <= i < |ready| ==> ready[i].id in steps && steps[ready[i].id].status == Pending
  }

  lemma ExamineOnlySkips(step: WorkflowStep, context: map<string, Value>, steps: map<string, StepRun>, p: Pass)
    requires step.id in p.steps && OnlySkipped(steps, p.steps) && AllPending(p.ready, steps)
    ensures var next := Examined(step, context, p); OnlySkipped(steps, next.steps) && AllPending(next.ready, steps)
  {
    hide AnyDepFailed, AllDepsSettled, ConditionPasses;
  }

  /** A pass changes nothing but pending steps into skipped ones, and picks pending steps. */
  lemma {:induction false} ScanOnlySkips(defn: seq<WorkflowStep>, context: map<string, Value>, steps: map<string, StepRun>)
    requires Listed(defn, steps)
    ensures var p := Scanned(defn, context, steps); OnlySkipped(steps, p.steps) && AllPending(p.ready, steps)
  {
    if defn != [] {
      hide OnlySkipped, AllPending, Examined;
      var n := |defn| - 1;
      ScanOnlySkips(defn[..n], context, steps);
      ExamineOnlySkips(defn[n], context, steps, Scanned(defn[..n], context, steps));
    }
  }

  /** A batch leaves none of its steps pending, and touches no other step. */
  lemma {:induction false} BatchSettles(ready: seq<WorkflowStep>, h: Handlers, run: RunState)
    requires Listed(ready, run.steps)
    ensures var next := Executed(ready, h, run);
      && (forall i :: 0 <= i < |ready| ==> next.steps[ready[i].id].status != Pending)
      && (forall id :: id in run.steps && next.steps[id].status == Pending ==> next.steps[id] == run.steps[id])
  {
    if ready != [] {
      var n := |ready| - 1;
      var before := Executed(ready[..n], h, run);
      BatchSettles(ready[..n], h, run);
      RetriedBounds(ready[n], before.steps[ready[n].id], h);
    }
  }

  /** A turn that is not the last one leaves fewer steps pending. */
  lemma TurnMoves(defn: seq<WorkflowStep>, h: Handlers, run: RunState)
    requires Listed(defn, run.steps)
    ensures Turned(defn, h, run).More? ==> PendingIds(Turned(defn, h, run).run.steps) < PendingIds(run.steps)
  {
    var p := Scanned(defn, run.context, run.steps);
    ScanOnlySkips(defn, run.context, run.steps);
    if Turned(defn, h, run).More? {
      var next := Turned(defn, h, run).run;
      if p.ready != [] {
        BatchSettles(p.ready, h, run.(steps := p.steps));
        assert p.ready[0].id in PendingIds(run.steps) && p.ready[0].id !in PendingIds(next.steps);
      } else {
        var id :| id in run.steps && p.steps[id] != run.steps[id];
        assert id in PendingIds(run.steps) && id !in PendingIds(next.steps);
      }
    }
  }

  // ---- one step at a time ---------------------------------------------------------------

  /** The chosen steps are pending, have settled dependencies, and their conditions told them to run. */
  predicate Startable(defn: seq<WorkflowStep>, before: RunState, steps: map<string, StepRun>, step: WorkflowStep) {
    && step in defn && step.id in steps && steps[step.id].status == Pending
    && AllDepsSettled(step, steps) && MayRun(step, before, steps)
    && (SteadyCondition(defn, before.steps, step) ==> MeantToRun(step, before.context, steps))
  }

  predicate DistinctSteps(ready: seq<WorkflowStep>) {
    forall i, j :: 0 <= i < j < |ready| ==> ready[i].id != ready[j].id
  }

  /** Changing one pending step to something its dependencies justify keeps the whole run justified. */
  lemma ChangeOne(defn: seq<WorkflowStep>, h: Handlers, before: RunState, now: map<string, StepRun>, k: nat, r: StepRun)
    requires UniqueIds(defn) && AllJustified(defn, h, before, now)
    requires k < |defn| && now[defn[k].id].status == Pending
    requires Justified(defn, defn[k], h, before, now[defn[k].id := r])
    ensures AllJustified(defn, h, before, now[defn[k].id := r])
    ensures before.steps[defn[k].id] == now[defn[k].id]
  {
    assert Justified(defn, defn[k], h, before, now);
    RetriedBounds(defn[k], before.steps[defn[k].id], h);
    var next := now[defn[k].id := r];
    forall i | 0 <= i < |defn|
      ensures Justified(defn, defn[i], h, before, next)
    {
      if i != k {
        assert Justified(defn, defn[i], h, before, now);
        JustifiedPersists(defn, defn[i], h, before, now, next);
      }
    }
  }

  /** Skipping a pending step that may be skipped is justified. */
  lemma SkipOne(defn: seq<WorkflowStep>, h: Handlers, before: RunState, now: RunState, k: nat)
    requires UniqueIds(defn) && Sane(defn, before) && Progressed(defn, h, before, now)
    requires k < |defn| && now.steps[defn[k].id].status == Pending
    requires AnyDepFailed(defn[k], now.steps) ||
      (AllDepsSettled(defn[k], now.steps) && !ConditionPasses(defn[k], now.context))
    ensures AllJustified(defn, h, before, now.steps[defn[k].id := now.steps[defn[k].id].(status := Skipped)])
  {
    hide NewOutputs, CallsAccounted, Retried, AllDepsSettled, MeantToRun, Sane, ConditionPasses, MaySkip, MayRun;
    var step := defn[k];
    var next := now.steps[step.id := now.steps[step.id].(status := Skipped)];
    PendingUntouched(defn, h, before, now.steps, k);
    assert OnlyPendingChanged(now.steps, next);
    if AnyDepFailed(step, now.steps) {
      var d :| d in step.dependsOn && d in now.steps && now.steps[d].status == Failed;
      assert next[d].status == Failed;
    } else {
      SettledPersists(step, before.context, now.steps, next);
      SkipAllowed(step, before, now);
      CheckPersists(step, before, now.steps, next);
      if SteadyCondition(defn, before.steps, step) {
        SteadyConditionAgrees(defn, step, h, before, now);
      }
    }
    ChangeOne(defn, h, before, now.steps, k, next[step.id]);
  }

  lemma SkipAllowed(step: WorkflowStep, before: RunState, now: RunState)
    requires now.context == before.context + NewOutputs(before.steps, now.steps)
    ensures !ConditionPasses(step, now.context) ==> MaySkip(step, before, now.steps)
    ensures ConditionPasses(step, now.context) ==> MayRun(step, before, now.steps)
  {
  }

  /** A step that is pending now is as it was on entry. */
  lemma PendingUntouched(defn: seq<WorkflowStep>, h: Handlers, before: RunState, now: map<string, StepRun>, k: nat)
    requires AllJustified(defn, h, before, now) && k < |defn| && now[defn[k].id].status == Pending
    ensures before.steps[defn[k].id] == now[defn[k].id]
  {
    assert Justified(defn, defn[k], h, before, now);
    RetriedBounds(defn[k], before.steps[defn[k].id], h);
  }

  /** A skip writes no output and makes no call. */
  lemma SkipIsQuiet(before: RunState, now: RunState, next: RunState, id: string)
    requires before.steps.Keys == now.steps.Keys && id in now.steps && now.steps[id].status == Pending
    requires next == now.(steps := now.steps[id := now.steps[id].(status := Skipped)])
    requires now.context == before.context + NewOutputs(before.steps, now.steps) && CallsAccounted(before, now)
    ensures next.context == before.context + NewOutputs(before.steps, next.steps) && CallsAccounted(before, next)
  {
    var was, became := NewOutputs(before.steps, now.steps), NewOutputs(before.steps, next.steps);
    assert became == was by {
      forall other | other in now.steps
        ensures next.steps[other].status == Completed <==> now.steps[other].status == Completed
        ensures next.steps[other].output == now.steps[other].output
        ensures next.steps[other].attempts == now.steps[other].attempts
      {
      }
    }
  }

  /** The steps picked so far, all of them from the first n of the list. */
  predicate Picked(defn: seq<WorkflowStep>, before: RunState, steps: map<string, StepRun>,
                   ready: seq<WorkflowStep>, n: nat)
    requires n <= |defn|
  {
    && DistinctSteps(ready)
    && forall s :: s in ready ==> Startable(defn, before, steps, s) && s in defn[..n]
  }

  /** Nobody but the pending step `id` has changed. */
  predicate OnlyChanged(now: map<string, StepRun>, next: map<string, StepRun>, id: string) {
    OnlyPendingChanged(now, next) && forall other :: other in now && other != id ==> next[other] == now[other]
  }

  lemma StartablePersists(defn: seq<WorkflowStep>, before: RunState, now: map<string, StepRun>,
                          next: map<string, StepRun>, s: WorkflowStep)
    requires before.steps.Keys == now.Keys && OnlyPendingChanged(now, next)
    requires Startable(defn, before, now, s) && next[s.id] == now[s.id]
    ensures Startable(defn, before, next, s)
  {
    SettledPersists(s, before.context, now, next);
    CheckPersists(s, before, now, next);
  }

  lemma PickedPersists(defn: seq<WorkflowStep>, before: RunState, now: map<string, StepRun>,
                       next: map<string, StepRun>, ready: seq<WorkflowStep>, n: nat)
    requires n < |defn| && UniqueIds(defn) && Picked(defn, before, now, ready, n)
    requires before.steps.Keys == now.Keys && OnlyChanged(now, next, defn[n].id)
    ensures Picked(defn, before, next, ready, n + 1)
  {
    hide Startable;
    NotPickedYet(defn, before, now, ready, n);
    forall s | s in ready
      ensures Startable(defn, before, next, s) && s in defn[..n + 1]
    {
      StartableId(defn, before, now, s);
      StartablePersists(defn, before, now, next, s);
      assert forall x :: x in defn[..n] ==> x in defn[..n + 1];
    }
  }

  lemma StartableId(defn: seq<WorkflowStep>, before: RunState, steps: map<string, StepRun>, s: WorkflowStep)
    requires Startable(defn, before, steps, s)
    ensures s in defn && s.id in steps && steps[s.id].status == Pending
  {
  }

  lemma PickNext(defn: seq<WorkflowStep>, before: RunState, steps: map<string, StepRun>,
                 ready: seq<WorkflowStep>, i: nat)
    requires i < |defn| && UniqueIds(defn) && Picked(defn, before, steps, ready, i)
    requires before.steps.Keys == steps.Keys && Startable(defn, before, steps, defn[i])
    ensures Picked(defn, before, steps, ready + [defn[i]], i + 1)
  {
    NotPickedYet(defn, before, steps, ready, i);
    PickedPersists(defn, before, steps, steps, ready, i);
    assert defn[i] in defn[..i + 1];
  }

  lemma NotPickedYet(defn: seq<WorkflowStep>, before: RunState, steps: map<string, StepRun>,
                     ready: seq<WorkflowStep>, i: nat)
    requires i < |defn| && UniqueIds(defn) && Picked(defn, before, steps, ready, i)
    ensures forall s :: s in ready ==> s.id != defn[i].id
  {
    forall s | s in ready
      ensures s.id != defn[i].id
    {
      assert s in defn[..i];
      var k :| 0 <= k < i && defn[k] == s;
    }
  }

  lemma QuiescentNext(defn: seq<WorkflowStep>, steps: map<string, StepRun>, i: nat)
    requires i < |defn| && Quiescent(defn[..i], steps)
    requires Quiescent([defn[i]], steps)
    ensures Quiescent(defn[..i + 1], steps)
  {
    assert defn[..i + 1] == defn[..i] + [defn[i]];
    assert [defn[i]][0] == defn[i];
  }

  /** Executing a picked step is justified. */
  lemma ExecuteOne(defn: seq<WorkflowStep>, h: Handlers, before: RunState, now: map<string, StepRun>, step: WorkflowStep)
    requires UniqueIds(defn) && AllJustified(defn, h, before, now)
    requires Startable(defn, before, now, step)
    ensures var next := now[step.id := Retried(step, now[step.id], h)];
      AllJustified(defn, h, before, next) && OnlyChanged(now, next, step.id)
    ensures step.id in before.steps && before.steps[step.id] == now[step.id]
  {
    hide NewOutputs, Retried, AllDepsSettled, MeantToRun, MaySkip, MayRun;
    var k :| 0 <= k < |defn| && defn[k] == step;
    var next := now[step.id := Retried(step, now[step.id], h)];
    PendingUntouched(defn, h, before, now, k);
    SettledPersists(step, before.context, now, next);
    CheckPersists(step, before, now, next);
    ChangeOne(defn, h, before, now, k, next[step.id]);
  }

  lemma RestStartable(defn: seq<WorkflowStep>, before: RunState, now: map<string, StepRun>,
                      next: map<string, StepRun>, ready: seq<WorkflowStep>, j: nat)
    requires j < |ready| && DistinctSteps(ready) && before.steps.Keys == now.Keys
    requires forall i :: j <= i < |ready| ==> Startable(defn, before, now, ready[i])
    requires OnlyChanged(now, next, ready[j].id)
    ensures forall i :: j < i < |ready| ==> Startable(defn, before, next, ready[i])
  {
    hide Startable;
    forall i | j < i < |ready|
      ensures Startable(defn, before, next, ready[i])
    {
      StartableId(defn, before, now, ready[i]);
      assert ready[j].id != ready[i].id;
      StartablePersists(defn, before, now, next, ready[i]);
    }
  }

  lemma NewCallsNone(id: string, s: StepRun)
    ensures NewCalls(id, s, s.attempts) == []
  {
  }

  lemma NewCallsNext(id: string, s: StepRun, n: nat)
    requires n >= s.attempts
    ensures NewCalls(id, s, n + 1) == NewCalls(id, s, n) + [Call(id, n + 1, s.approvalId)]
  {
  }

  lemma NewCallsOf(calls: seq<Call>, id: string, s: StepRun, upTo: nat, other: string)
    ensures CallsOf(calls + NewCalls(id, s, upTo), other) ==
      CallsOf(calls, other) + if other == id then NewCalls(id, s, upTo) else []
  {
    CallsOfAppend(calls, NewCalls(id, s, upTo), other);
    CallsOfUniform(NewCalls(id, s, upTo), id, other);
  }

  /** The calls of one executed step are the only new ones. */
  lemma ExecutionAccounted(before: RunState, now: RunState, next: RunState, id: string)
    requires id in now.steps && id in before.steps && now.steps[id] == before.steps[id]
    requires CallsAccounted(before, now) && OnlyChanged(now.steps, next.steps, id)
    requires next.calls == now.calls + NewCalls(id, now.steps[id], next.steps[id].attempts)
    ensures CallsAccounted(before, next)
  {
    assert NewCalls(id, before.steps[id], now.steps[id].attempts) == [];
    hide NewCalls, CallsOf;
    forall other | other in next.steps && other in before.steps
      ensures CallsOf(next.calls, other) ==
        CallsOf(before.calls, other) + NewCalls(other, before.steps[other], next.steps[other].attempts)
    {
      NewCallsOf(now.calls, id, now.steps[id], next.steps[id].attempts, other);
      assert CallsOf(now.calls, other) ==
        CallsOf(before.calls, other) + NewCalls(other, before.steps[other], now.steps[other].attempts);
    }
  }

  /** Another step's record matters to no key but its own. */
  lemma RecordElsewhere(before: map<string, StepRun>, now: map<string, StepRun>, id: string, r: StepRun, key: string)
    requires before.Keys == now.Keys && id in now && key != StepKey(id)
    ensures var was, became := NewOutputs(before, now), NewOutputs(before, now[id := r]);
      (key in became <==> key in was) && (key in was ==> became[key] == was[key])
  {
    var next := now[id := r];
    var was, became := NewOutputs(before, now), NewOutputs(before, next);
    if key in became || key in was {
      var other :| other in now && StepKey(other) == key;
      NewOutputsAt(before, now, other);
      NewOutputsAt(before, next, other);
    }
  }

  /** Recording one finished step adds its output, if it completed, and nothing else. */
  lemma RecordOne(before: map<string, StepRun>, now: map<string, StepRun>, id: string, r: StepRun)
    requires before.Keys == now.Keys && id in now
    requires before[id].status == now[id].status == Pending
    ensures NewOutputs(before, now[id := r]) ==
      if r.status == Completed then NewOutputs(before, now)[StepKey(id) := r.output] else NewOutputs(before, now)
  {
    var was, became := NewOutputs(before, now), NewOutputs(before, now[id := r]);
    var expected := if r.status == Completed then was[StepKey(id) := r.output] else was;
    NewOutputsAt(before, now, id);
    NewOutputsAt(before, now[id := r], id);
    hide NewOutputs, StepKey;
    forall key
      ensures key in became <==> key in expected
      ensures key in became ==> became[key] == expected[key]
    {
      if key != StepKey(id) {
        RecordElsewhere(before, now, id, r, key);
      }
    }
    assert became == expected;
  }

  /** Only the listed steps have changed. */
  predicate OnlyThese(was: map<string, StepRun>, now: map<string, StepRun>, done: seq<WorkflowStep>) {
    was.Keys == now.Keys &&
    forall id :: id in was && id !in IdSet(done) ==> now[id] == was[id]
  }

  /** `recorded` is `now` on the recorded ids and `was` elsewhere. */
  predicate PartlyRecorded(was: map<string, StepRun>, now: map<string, StepRun>, recorded: map<string, StepRun>, ids: set<string>) {
    was.Keys == now.Keys == recorded.Keys &&
    forall id :: id in was ==> recorded[id] == if id in ids then now[id] else was[id]
  }

  lemma IdSetGrows(ready: seq<WorkflowStep>, j: nat)
    requires j < |ready|
    ensures IdSet(ready[..j + 1]) == IdSet(ready[..j]) + {ready[j].id}
  {
    var less, more := ready[..j], ready[..j + 1];
    assert forall i :: 0 <= i < |less| ==> more[i] == less[i];
    assert more[j] == ready[j];
    forall id | id in IdSet(less)
      ensures id in IdSet(more)
    {
      var i :| 0 <= i < |less| && less[i].id == id;
      assert more[i].id == id;
    }
  }

  lemma RecordedNext(was: map<string, StepRun>, now: map<string, StepRun>, recorded: map<string, StepRun>,
                     ready: seq<WorkflowStep>, j: nat)
    requires j < |ready| && DistinctSteps(ready) && ready[j].id in was
    requires PartlyRecorded(was, now, recorded, IdSet(ready[..j]))
    ensures recorded[ready[j].id] == was[ready[j].id] && recorded.Keys == was.Keys
    ensures PartlyRecorded(was, now, recorded[ready[j].id := now[ready[j].id]], IdSet(ready[..j + 1]))
  {
    IdSetGrows(ready, j);
    assert ready[j].id !in IdSet(ready[..j]);
  }

  lemma MoreDone(was: map<string, StepRun>, now: map<string, StepRun>, next: map<string, StepRun>,
                 ready: seq<WorkflowStep>, j: nat)
    requires j < |ready| && OnlyThese(was, now, ready[..j]) && OnlyChanged(now, next, ready[j].id)
    ensures OnlyThese(was, next, ready[..j + 1])
  {
    IdSetGrows(ready, j);
  }

  // ---- passes, batches and turns keep a drive justified ---------------------------------

  /** What a pass from a state of the drive leads to, looking at the first n steps. */
  predicate PassedWell(defn: seq<WorkflowStep>, h: Handlers, before: RunState, run: RunState, p: Pass, n: nat)
    requires n <= |defn|
  {
    Progressed(defn, h, before, run.(steps := p.steps)) && Picked(defn, before, p.steps, p.ready, n)
  }

  lemma SkipKeeps(defn: seq<WorkflowStep>, h: Handlers, before: RunState, now: RunState,
                  ready: seq<WorkflowStep>, n: nat) returns (next: RunState)
    requires n < |defn| && UniqueIds(defn) && Sane(defn, before) && Progressed(defn, h, before, now)
    requires Picked(defn, before, now.steps, ready, n) && now.steps[defn[n].id].status == Pending
    requires AnyDepFailed(defn[n], now.steps) ||
      (AllDepsSettled(defn[n], now.steps) && !ConditionPasses(defn[n], now.context))
    ensures next == now.(steps := now.steps[defn[n].id := now.steps[defn[n].id].(status := Skipped)])
    ensures Progressed(defn, h, before, next) && Picked(defn, before, next.steps, ready, n + 1)
  {
    hide Picked, NewOutputs, CallsAccounted, AnyDepFailed, AllDepsSettled, ConditionPasses, Sane;
    next := now.(steps := now.steps[defn[n].id := now.steps[defn[n].id].(status := Skipped)]);
    SkipOne(defn, h, before, now, n);
    SkipIsQuiet(before, now, next, defn[n].id);
    PickedPersists(defn, before, now.steps, next.steps, ready, n);
  }

  lemma PickKeeps(defn: seq<WorkflowStep>, h: Handlers, before: RunState, now: RunState, ready: seq<WorkflowStep>, n: nat)
    requires n < |defn| && UniqueIds(defn) && Sane(defn, before) && Progressed(defn, h, before, now)
    requires Picked(defn, before, now.steps, ready, n) && now.steps[defn[n].id].status == Pending
    requires AllDepsSettled(defn[n], now.steps) && ConditionPasses(defn[n], now.context)
    ensures Picked(defn, before, now.steps, ready + [defn[n]], n + 1)
  {
    hide Picked, NewOutputs, CallsAccounted, AllDepsSettled, ConditionPasses, MeantToRun, Sane, MayRun, MaySkip;
    SkipAllowed(defn[n], before, now);
    if SteadyCondition(defn, before.steps, defn[n]) {
      SteadyConditionAgrees(defn, defn[n], h, before, now);
    }
    PickNext(defn, before, now.steps, ready, n);
  }

  lemma LeaveKeeps(defn: seq<WorkflowStep>, before: RunState, steps: map<string, StepRun>, ready: seq<WorkflowStep>, n: nat)
    requires n < |defn| && UniqueIds(defn) && before.steps.Keys == steps.Keys
    requires Picked(defn, before, steps, ready, n)
    ensures Picked(defn, before, steps, ready, n + 1)
  {
    hide Picked;
    PickedPersists(defn, before, steps, steps, ready, n);
  }

  lemma ExamineKeeps(defn: seq<WorkflowStep>, h: Handlers, before: RunState, run: RunState, p: Pass, n: nat)
    requires n < |defn| && UniqueIds(defn) && Sane(defn, before) && PassedWell(defn, h, before, run, p, n)
    requires defn[n].id in p.steps
    ensures PassedWell(defn, h, before, run, Examined(defn[n], run.context, p), n + 1)
  {
    hide Picked, Progressed, AnyDepFailed, AllDepsSettled, ConditionPasses, Sane;
    var step, now, next := defn[n], run.(steps := p.steps), Examined(defn[n], run.context, p);
    ProgressedKeys(defn, h, before, now);
    if next.steps != p.steps {
      var skipped := SkipKeeps(defn, h, before, now, p.ready, n);
      assert run.(steps := next.steps) == skipped;
    } else if next.ready != p.ready {
      PickKeeps(defn, h, before, now, p.ready, n);
    } else {
      LeaveKeeps(defn, before, p.steps, p.ready, n);
    }
  }

  /** A pass that does nothing at all finds nothing to do. */
  lemma {:induction false} IdlePassIsQuiescent(defn: seq<WorkflowStep>, context: map<string, Value>,
                                               steps: map<string, StepRun>, n: nat)
    requires n <= |defn| && Listed(defn, steps)
    requires Scanned(defn[..n], context, steps) == Pass(steps, [])
    ensures Quiescent(defn[..n], steps)
  {
    if n > 0 {
      hide Scanned, AnyDepFailed, AllDepsSettled, ConditionPasses;
      ScanNext(defn, context, steps, n - 1);
      var p := Scanned(defn[..n - 1], context, steps);
      ScanOnlySkips(defn[..n - 1], context, steps);
      assert p == Pass(steps, []);
      IdlePassIsQuiescent(defn, context, steps, n - 1);
      QuiescentNext(defn, steps, n - 1);
    }
  }

  lemma {:induction false} ScanKeeps(defn: seq<WorkflowStep>, h: Handlers, before: RunState, run: RunState, n: nat)
    requires n <= |defn| && UniqueIds(defn) && Sane(defn, before) && Progressed(defn, h, before, run)
    ensures Listed(defn[..n], run.steps)
    ensures PassedWell(defn, h, before, run, Scanned(defn[..n], run.context, run.steps), n)
  {
    hide Progressed, Sane, Examined, UniqueIds;
    ProgressedKeys(defn, h, before, run);
    if n > 0 {
      hide PassedWell, Scanned;
      ScanNext(defn, run.context, run.steps, n - 1);
      ScanKeeps(defn, h, before, run, n - 1);
      ExamineKeeps(defn, h, before, run, Scanned(defn[..n - 1], run.context, run.steps), n - 1);
    }
  }

  predicate Executing(defn: seq<WorkflowStep>, h: Handlers, before: RunState, now: RunState, ready: seq<WorkflowStep>, j: nat) {
    && AllJustified(defn, h, before, now.steps) && CallsAccounted(before, now)
    && forall i :: j <= i < |ready| ==> Startable(defn, before, now.steps, ready[i])
  }

  lemma ExecutedOneKeeps(defn: seq<WorkflowStep>, h: Handlers, before: RunState, now: RunState,
                         ready: seq<WorkflowStep>, j: nat)
    requires UniqueIds(defn) && j < |ready| && DistinctSteps(ready) && Executing(defn, h, before, now, ready, j)
    ensures Executing(defn, h, before, ExecutedOne(ready[j], h, now), ready, j + 1)
    ensures OnlyChanged(now.steps, ExecutedOne(ready[j], h, now).steps, ready[j].id)
  {
    var next := ExecutedOne(ready[j], h, now);
    ExecuteOne(defn, h, before, now.steps, ready[j]);
    ExecutionAccounted(before, now, next, ready[j].id);
    RestStartable(defn, before, now.steps, next.steps, ready, j);
  }

  lemma ExecutingIds(defn: seq<WorkflowStep>, h: Handlers, before: RunState, run: RunState, ready: seq<WorkflowStep>)
    requires Executing(defn, h, before, run, ready, 0)
    ensures Listed(ready, run.steps)
  {
  }

  lemma {:induction false} ExecutedKeeps(defn: seq<WorkflowStep>, h: Handlers, before: RunState, run: RunState,
                                         ready: seq<WorkflowStep>, n: nat)
    requires UniqueIds(defn) && n <= |ready| && DistinctSteps(ready) && Executing(defn, h, before, run, ready, 0)
    ensures Listed(ready[..n], run.steps)
    ensures Executing(defn, h, before, Executed(ready[..n], h, run), ready, n)
    ensures OnlyThese(run.steps, Executed(ready[..n], h, run).steps, ready[..n])
  {
    hide Executing, OnlyChanged, ExecutedOne, DistinctSteps, UniqueIds;
    ExecutingIds(defn, h, before, run, ready);
    if n > 0 {
      ExecutedKeeps(defn, h, before, run, ready, n - 1);
      assert ready[..n][..n - 1] == ready[..n - 1];
      var now := Executed(ready[..n - 1], h, run);
      ExecutedOneKeeps(defn, h, before, now, ready, n - 1);
      MoreDone(run.steps, now.steps, ExecutedOne(ready[n - 1], h, now).steps, ready, n - 1);
    }
  }

  lemma RecordedMore(ready: seq<WorkflowStep>, run: RunState, n: nat)
    requires n < |ready| && Listed(ready, run.steps)
    ensures var id := ready[n].id;
      Recorded(ready[..n + 1], run).context ==
        if run.steps[id].status == Completed
        then Recorded(ready[..n], run).context[StepKey(id) := run.steps[id].output] else Recorded(ready[..n], run).context
  {
    assert ready[..n + 1][..n] == ready[..n];
  }

  /** Recording the first n steps of a batch gives the outputs of those n. */
  lemma {:induction false} RecordedKeeps(before: RunState, entry: map<string, StepRun>, run: RunState,
                                         ready: seq<WorkflowStep>, n: nat) returns (recorded: map<string, StepRun>)
    requires n <= |ready| && DistinctSteps(ready) && Listed(ready, run.steps)
    requires before.steps.Keys == run.steps.Keys == entry.Keys
    requires run.context == before.context + NewOutputs(before.steps, entry)
    requires forall i :: 0 <= i < |ready| ==>
      entry[ready[i].id].status == Pending && before.steps[ready[i].id].status == Pending
    ensures PartlyRecorded(entry, run.steps, recorded, IdSet(ready[..n]))
    ensures Recorded(ready[..n], run).context == before.context + NewOutputs(before.steps, recorded)
  {
    hide NewOutputs, Recorded, PartlyRecorded, DistinctSteps;
    if n == 0 {
      recorded := entry;
      NoneRecorded(entry, run, ready);
    } else {
      var id := ready[n - 1].id;
      recorded := RecordedKeeps(before, entry, run, ready, n - 1);
      RecordedMore(ready, run, n - 1);
      RecordedNext(entry, run.steps, recorded, ready, n - 1);
      RecordOne(before.steps, recorded, id, run.steps[id]);
      UnionUpdate(before.context, NewOutputs(before.steps, recorded), StepKey(id), run.steps[id].output);
      recorded := recorded[id := run.steps[id]];
    }
  }

  lemma NoneRecorded(entry: map<string, StepRun>, run: RunState, ready: seq<WorkflowStep>)
    requires run.steps.Keys == entry.Keys
    ensures PartlyRecorded(entry, run.steps, entry, IdSet(ready[..0])) && Recorded(ready[..0], run) == run
  {
  }

  lemma UnionUpdate(a: map<string, Value>, b: map<string, Value>, key: string, value: Value)
    ensures (a + b)[key := value] == a + b[key := value]
  {
  }

  lemma PickedPending(defn: seq<WorkflowStep>, h: Handlers, before: RunState, steps: map<string, StepRun>,
                      ready: seq<WorkflowStep>, i: nat)
    requires AllJustified(defn, h, before, steps) && Picked(defn, before, steps, ready, |defn|) && i < |ready|
    ensures Startable(defn, before, steps, ready[i])
    ensures ready[i].id in steps && steps[ready[i].id].status == Pending && before.steps[ready[i].id].status == Pending
  {
    hide Justified, AllDepsSettled, MeantToRun, MayRun;
    assert Startable(defn, before, steps, ready[i]);
    var k :| 0 <= k < |defn| && defn[k] == ready[i];
    PendingUntouched(defn, h, before, steps, k);
  }

  lemma BatchKeeps(defn: seq<WorkflowStep>, h: Handlers, before: RunState, run: RunState, ready: seq<WorkflowStep>)
    requires UniqueIds(defn) && Progressed(defn, h, before, run) && Picked(defn, before, run.steps, ready, |defn|)
    ensures Listed(ready, run.steps)
    ensures Progressed(defn, h, before, Recorded(ready, Executed(ready, h, run)))
  {
    hide NewOutputs, CallsAccounted, AllJustified, Startable, Executed, Recorded, UniqueIds, OnlyThese, PartlyRecorded;
    AllJustifiedKeys(defn, h, before, run.steps);
    forall i | 0 <= i < |ready|
      ensures Startable(defn, before, run.steps, ready[i])
      ensures ready[i].id in run.steps && run.steps[ready[i].id].status == Pending
      ensures before.steps[ready[i].id].status == Pending
    {
      PickedPending(defn, h, before, run.steps, ready, i);
    }
    assert ready[..|ready|] == ready;
    ExecutedKeeps(defn, h, before, run, ready, |ready|);
    var now := Executed(ready, h, run);
    var recorded := RecordedKeeps(before, run.steps, now, ready, |ready|);
    FullyRecorded(run.steps, now.steps, recorded, ready);
    CallsSeeStepsOnly(before, now, Recorded(ready, now));
  }

  lemma FullyRecorded(was: map<string, StepRun>, now: map<string, StepRun>, recorded: map<string, StepRun>,
                      ready: seq<WorkflowStep>)
    requires OnlyThese(was, now, ready) && PartlyRecorded(was, now, recorded, IdSet(ready))
    ensures recorded == now
  {
  }

  lemma AllJustifiedKeys(defn: seq<WorkflowStep>, h: Handlers, before: RunState, steps: map<string, StepRun>)
    requires AllJustified(defn, h, before, steps)
    ensures before.steps.Keys == steps.Keys == IdSet(defn)
  {
  }

  lemma CallsSeeStepsOnly(before: RunState, now: RunState, next: RunState)
    requires CallsAccounted(before, now) && next.steps == now.steps && next.calls == now.calls
    ensures CallsAccounted(before, next)
  {
  }

  /** Whatever a turn does, the run stays justified; the last one leaves nothing to do. */
  lemma TurnKeeps(defn: seq<WorkflowStep>, h: Handlers, before: RunState, run: RunState)
    requires UniqueIds(defn) && Sane(defn, before) && Progressed(defn, h, before, run)
    ensures Listed(defn, run.steps)
    ensures var t := Turned(defn, h, run);
      Progressed(defn, h, before, t.run) && (t.Done? ==> Rested(defn, h, before, t.run))
  {
    hide Progressed, Sane, Picked, Scanned, Executed, Recorded;
    ProgressedKeys(defn, h, before, run);
    assert defn[..|defn|] == defn;
    ScanKeeps(defn, h, before, run, |defn|);
    var p := Scanned(defn, run.context, run.steps);
    ScanOnlySkips(defn, run.context, run.steps);
    var t := Turned(defn, h, run);
    if t.Done? {
      StatusIsFree(defn, h, before, run, t.run.status);
      DoneIsQuiescent(defn, h, run);
    } else if p.ready != [] {
      BatchKeeps(defn, h, before, run.(steps := p.steps), p.ready);
    }
  }

  lemma DoneIsQuiescent(defn: seq<WorkflowStep>, h: Handlers, run: RunState)
    requires Listed(defn, run.steps) && Turned(defn, h, run).Done?
    ensures var t := Turned(defn, h, run).run;
      t.steps == run.steps && Quiescent(defn, t.steps) && t.status == RunStatusOf(t.steps)
  {
    hide Executed, Recorded, Scanned;
    var p := Scanned(defn, run.context, run.steps);
    if !(forall id :: id in run.steps ==> Terminal(run.steps[id].status)) {
      assert p == Pass(run.steps, []) && defn[..|defn|] == defn;
      IdlePassIsQuiescent(defn, run.context, run.steps, |defn|);
    }
  }

  lemma ProgressedKeys(defn: seq<WorkflowStep>, h: Handlers, before: RunState, run: RunState)
    requires Progressed(defn, h, before, run)
    ensures before.steps.Keys == run.steps.Keys == IdSet(defn)
  {
  }

  /** A drive, wherever in it one looks from, ends at rest with every step justified. */
  lemma {:induction false} DrivingKeeps(defn: seq<WorkflowStep>, h: Handlers, before: RunState, run: RunState)
    requires UniqueIds(defn) && Sane(defn, before) && Progressed(defn, h, before, run)
    ensures Listed(defn, run.steps)
    ensures Rested(defn, h, before, Driving(defn, h, run))
    decreases PendingIds(run.steps)
  {
    hide Progressed, Sane, Rested;
    TurnKeeps(defn, h, before, run);
    TurnMoves(defn, h, run);
    match Turned(defn, h, run)
    case Done(last) =>
    case More(next) => DrivingKeeps(defn, h, before, next);
  }
}
