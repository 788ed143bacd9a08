/** When the order of the step list matters: conditions that read a step other than a direct dependency. */
module WorkflowOrder {
  import opened Common
  import opened WorkflowModels
  import opened WorkflowGraph
  import opened WorkflowSemantics
  import opened WorkflowPasses
  import opened WorkflowEntry
  import opened WorkflowLives

  lemma SameStepsSane(defn: seq<WorkflowStep>, other: seq<WorkflowStep>, run: RunState)
    requires SameSteps(defn, other) && Sane(defn, run)
    ensures IdSet(other) == IdSet(defn) && Sane(other, run)
  {
    forall j | 0 <= j < |other|
      ensures other[j].id in IdSet(defn) && run.steps[other[j].id].attempts <= other[j].maxRetries + 1
    {
      assert other[j] in defn;
      var i :| 0 <= i < |defn| && defn[i] == other[j];
    }
    forall i | 0 <= i < |defn|
      ensures defn[i].id in IdSet(other)
    {
      assert defn[i] in other;
      var j :| 0 <= j < |other| && other[j] == defn[i];
    }
  }

  /** When no condition is sensitive to it, the order of the list changes no outcome, output or status of a drive. */
  lemma DriveOrderIrrelevant(defn: seq<WorkflowStep>, other: seq<WorkflowStep>, h: Handlers, run: RunState)
    requires WellFormed(defn) && UniqueIds(other) && SameSteps(defn, other) && Sane(defn, run)
    requires ConditionsOrderProof(defn, run.steps)
    ensures Sane(other, run) && Listed(defn, run.steps) && Listed(other, run.steps)
    ensures var a, b := Driving(defn, h, run), Driving(other, h, run);
      a.steps == b.steps && a.context == b.context && a.status == b.status
  {
    hide Sane, Driving, Driven, ConditionsOrderProof, HasCycle, SameSteps;
    SameStepsSane(defn, other, run);
    DrivingIsDriven(defn, h, run);
    DrivingIsDriven(other, h, run);
    ListOrderIrrelevant(defn, other, h, run, Driving(defn, h, run), Driving(other, h, run));
  }

  // ---- order can matter -----------------------------------------------------------------

  function AlwaysSeven(id: string, attempt: nat, approvalId: Option<string>): AttemptResult {
    Returned(Data(7))
  }

  const S := WorkflowStep("s", [], Some("k"), Data(1), 0)
  const X := WorkflowStep("x", ["s"], Some("step.a"), Data(7), 0)
  const A := WorkflowStep("a", [], None, Null, 0)

  function Three(s: StepRun, x: StepRun, a: StepRun): map<string, StepRun> {
    map["s" := s, "x" := x, "a" := a]
  }

  const Pending3 := Three(FreshStep, FreshStep, FreshStep)
  const Dropped := FreshStep.(status := Skipped)
  const Ran := StepRun(Completed, 1, Data(7), None, None)

  lemma OneAttempt(step: WorkflowStep)
    requires step.maxRetries == 0
    ensures Retried(step, FreshStep, AlwaysSeven) == Ran
  {
    RetriedFromReturns(step, FreshStep.(status := Running), 1, 1, AlwaysSeven);
  }

  predicate SmallList(defn: seq<WorkflowStep>) {
    defn == [S, X, A] || defn == [X, S, A]
  }

  lemma SmallIds(defn: seq<WorkflowStep>)
    requires SmallList(defn)
    ensures UniqueIds(defn) && IdSet(defn) == {"s", "x", "a"}
    ensures Initial(defn, map[]).steps == Pending3 && Listed(defn, Pending3)
  {
    assert defn[0].id in IdSet(defn) && defn[1].id in IdSet(defn) && defn[2].id in IdSet(defn);
    assert IdSet(defn) == {"s", "x", "a"};
  }

  /** Both lists are accepted workflows. */
  lemma SmallWellFormed(defn: seq<WorkflowStep>)
    requires SmallList(defn)
    ensures WellFormed(defn)
  {
    hide IdSet, Initial, HasCycle, DepsOf, KnownDeps, NoSelfDeps, UniqueIds, TopologicalOrder, SmallList;
    SmallIds(defn);
    SmallOrder(defn);
    OrderExcludesCycles(DepsOf(defn), ["s", "x", "a"]);
    SmallRules(defn);
  }

  lemma SmallOrder(defn: seq<WorkflowStep>)
    requires SmallList(defn)
    ensures TopologicalOrder(DepsOf(defn), ["s", "x", "a"])
  {
    hide IdSet, DepsOf, UniqueIds, TopologicalOrder, Initial, Listed, SmallList;
    SmallIds(defn);
    SmallDepsAt(defn, S);
    SmallDepsAt(defn, X);
    SmallDepsAt(defn, A);
    assert DepsOf(defn) == map["s" := [], "x" := ["s"], "a" := []];
    ChainOrder(DepsOf(defn));
  }

  lemma SmallDepsAt(defn: seq<WorkflowStep>, step: WorkflowStep)
    requires SmallList(defn) && step in [S, X, A]
    ensures step.id in DepsOf(defn) && DepsOf(defn)[step.id] == step.dependsOn
  {
    SmallIds(defn);
    hide IdSet, DepsOf, UniqueIds, Initial, Listed;
    var k :| 0 <= k < |defn| && defn[k] == step;
    DepsOfAt(defn, k);
  }

  lemma ChainOrder(deps: Deps)
    requires deps == map["s" := [], "x" := ["s"], "a" := []]
    ensures TopologicalOrder(deps, ["s", "x", "a"])
  {
    var order := ["s", "x", "a"];
    forall i, d | 0 <= i < |order| && Edge(deps, order[i], d)
      ensures d in order[..i]
    {
      assert order[i] == "x" && d == "s" && order[..i][0] == "s";
    }
  }

  lemma SmallRules(defn: seq<WorkflowStep>)
    requires SmallList(defn)
    ensures KnownDeps(defn) && NoSelfDeps(defn)
  {
    SmallIds(defn);
    hide IdSet;
    forall i, d | 0 <= i < |defn| && d in defn[i].dependsOn
      ensures d == "s" && defn[i] == X
    {
      assert S.dependsOn == [] && A.dependsOn == [];
    }
  }

  /** A pass over a list of three. */
  lemma ThreeScanned(defn: seq<WorkflowStep>, context: map<string, Value>, steps: map<string, StepRun>)
    requires |defn| == 3 && Listed(defn, steps)
    ensures Scanned(defn, context, steps) ==
      Examined(defn[2], context, Examined(defn[1], context, Examined(defn[0], context, Pass(steps, []))))
  {
    hide Examined;
    assert defn[..3] == defn && defn[..0] == [];
    ScanNext(defn, context, steps, 2);
    ScanNext(defn, context, steps, 1);
    ScanNext(defn, context, steps, 0);
  }

  /** Executing and recording one fresh step that succeeds at once. */
  lemma OneBatch(step: WorkflowStep, run: RunState) returns (next: RunState)
    requires step.maxRetries == 0 && step.id in run.steps && run.steps[step.id] == FreshStep
    ensures next == Recorded([step], Executed([step], AlwaysSeven, run))
    ensures next.steps == run.steps[step.id := Ran] && next.context == run.context[StepKey(step.id) := Data(7)]
  {
    OneAttempt(step);
    assert [step][..0] == [];
    next := Recorded([step], Executed([step], AlwaysSeven, run));
  }

  lemma SmallDeps(steps: map<string, StepRun>)
    requires "s" in steps
    ensures !AnyDepFailed(S, steps) && AllDepsSettled(S, steps) && !AnyDepFailed(A, steps) && AllDepsSettled(A, steps)
    ensures AnyDepFailed(X, steps) <==> steps["s"].status == Failed
    ensures AllDepsSettled(X, steps) <==> Settled(steps["s"].status)
  {
    assert "s" in X.dependsOn;
  }

  lemma SmallConditions(context: map<string, Value>)
    requires "k" !in context
    ensures !ConditionPasses(S, context) && ConditionPasses(A, context)
    ensures ConditionPasses(X, context) <==> "step.a" in context && context["step.a"] == Data(7)
  {
  }

  lemma PassForward(defn: seq<WorkflowStep>)
    requires defn == [S, X, A]
    ensures Listed(defn, Pending3)
    ensures Scanned(defn, map[], Pending3) == Pass(Three(Dropped, Dropped, FreshStep), [A])
  {
    hide AnyDepFailed, AllDepsSettled, ConditionPasses, Scanned;
    ThreeScanned(defn, map[], Pending3);
    SmallConditions(map[]);
    SmallDeps(Pending3);
    SmallDeps(Three(Dropped, FreshStep, FreshStep));
    SmallDeps(Three(Dropped, Dropped, FreshStep));
    assert Pending3["s" := Dropped] == Three(Dropped, FreshStep, FreshStep);
    assert Three(Dropped, FreshStep, FreshStep)["x" := Dropped] == Three(Dropped, Dropped, FreshStep);
  }

  lemma PassBackward(defn: seq<WorkflowStep>)
    requires defn == [X, S, A]
    ensures Listed(defn, Pending3)
    ensures Scanned(defn, map[], Pending3) == Pass(Three(Dropped, FreshStep, FreshStep), [A])
  {
    hide AnyDepFailed, AllDepsSettled, ConditionPasses, Scanned;
    ThreeScanned(defn, map[], Pending3);
    SmallConditions(map[]);
    SmallDeps(Pending3);
    SmallDeps(Three(Dropped, FreshStep, FreshStep));
    assert Pending3["s" := Dropped] == Three(Dropped, FreshStep, FreshStep);
  }

  lemma PassAgain(defn: seq<WorkflowStep>)
    requires defn == [X, S, A]
    ensures Listed(defn, Three(Dropped, FreshStep, Ran))
    ensures Scanned(defn, map["step.a" := Data(7)], Three(Dropped, FreshStep, Ran)) ==
      Pass(Three(Dropped, FreshStep, Ran), [X])
  {
    hide AnyDepFailed, AllDepsSettled, ConditionPasses, Scanned;
    ThreeScanned(defn, map["step.a" := Data(7)], Three(Dropped, FreshStep, Ran));
    SmallConditions(map["step.a" := Data(7)]);
    SmallDeps(Three(Dropped, FreshStep, Ran));
  }

  lemma DoneWhenTerminal(defn: seq<WorkflowStep>, h: Handlers, run: RunState)
    requires Listed(defn, run.steps) && forall id :: id in run.steps ==> Terminal(run.steps[id].status)
    ensures Driving(defn, h, run).steps == run.steps
  {
  }

  lemma MoreTurns(defn: seq<WorkflowStep>, run: RunState, p: Pass, step: WorkflowStep) returns (next: RunState)
    requires Listed(defn, run.steps) && "x" in run.steps && !Terminal(run.steps["x"].status)
    requires Scanned(defn, run.context, run.steps) == p && p.ready == [step]
    requires step.maxRetries == 0 && step.id in p.steps && p.steps[step.id] == FreshStep
    ensures Listed(defn, next.steps) && Driving(defn, AlwaysSeven, run) == Driving(defn, AlwaysSeven, next)
    ensures next.steps == p.steps[step.id := Ran] && next.context == run.context[StepKey(step.id) := Data(7)]
  {
    hide Scanned, Executed, Recorded, StepKey;
    next := OneBatch(step, run.(steps := p.steps));
    assert Turned(defn, AlwaysSeven, run) == More(next);
  }

  lemma RunForward(defn: seq<WorkflowStep>)
    requires defn == [S, X, A] && Initial(defn, map[]).steps == Pending3 && Listed(defn, Pending3)
    ensures Driving(defn, AlwaysSeven, Initial(defn, map[])).steps == Three(Dropped, Dropped, Ran)
  {
    hide Scanned, Driving, Listed;
    PassForward(defn);
    var next := MoreTurns(defn, Initial(defn, map[]), Pass(Three(Dropped, Dropped, FreshStep), [A]), A);
    assert next.steps == Three(Dropped, Dropped, Ran) && next.steps.Keys == {"s", "x", "a"};
    DoneWhenTerminal(defn, AlwaysSeven, next);
  }

  lemma RunBackward(defn: seq<WorkflowStep>)
    requires defn == [X, S, A] && Initial(defn, map[]).steps == Pending3 && Listed(defn, Pending3)
    ensures Driving(defn, AlwaysSeven, Initial(defn, map[])).steps == Three(Dropped, Ran, Ran)
  {
    hide Scanned, Driving, Listed;
    PassBackward(defn);
    PassAgain(defn);
    assert StepKey("a") == "step.a";
    var next := MoreTurns(defn, Initial(defn, map[]), Pass(Three(Dropped, FreshStep, FreshStep), [A]), A);
    assert next.steps == Three(Dropped, FreshStep, Ran) && next.context == map["step.a" := Data(7)];
    var last := MoreTurns(defn, next, Pass(Three(Dropped, FreshStep, Ran), [X]), X);
    assert last.steps == Three(Dropped, Ran, Ran);
    DoneWhenTerminal(defn, AlwaysSeven, last);
  }

  /**
   The outcome can depend on the order of the list: x depends on s, which is skipped, and its
   condition reads the output of a, on which it does not depend. Listed after s it is judged
   before a has run, listed before s one turn later.
   */
  lemma ListOrderMatters()
    ensures WellFormed([S, X, A]) && WellFormed([X, S, A])
    ensures Listed([S, X, A], Initial([S, X, A], map[]).steps) && Listed([X, S, A], Initial([X, S, A], map[]).steps)
    ensures Driving([S, X, A], AlwaysSeven, Initial([S, X, A], map[])).steps == Three(Dropped, Dropped, Ran)
    ensures Driving([X, S, A], AlwaysSeven, Initial([X, S, A], map[])).steps == Three(Dropped, Ran, Ran)
  {
    hide Driving, WellFormed, Initial, Listed, UniqueIds;
    SmallWellFormed([S, X, A]);
    SmallWellFormed([X, S, A]);
    SmallIds([S, X, A]);
    SmallIds([X, S, A]);
    RunForward([S, X, A]);
    RunBackward([X, S, A]);
  }
}
