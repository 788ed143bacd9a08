/** The editor's own validator (frontend/src/lib/workflow-validate.ts): it collects every error. */
module EditorValidator {
  import opened WorkflowModels
  import opened WorkflowGraph
  import GraphValidator

  datatype EditorError =
    | NoSteps
    | DuplicateIds
    | UnknownSteps(step: string, missing: seq<string>)
    | SelfDependency(step: string)
    | DependencyCycle

  function Unknown(dependsOn: seq<string>, known: set<string>): (missing: seq<string>)
    ensures forall d :: d in missing <==> d in dependsOn && d !in known
  {
    if dependsOn == [] then []
    else (if dependsOn[0] in known then [] else [dependsOn[0]]) + Unknown(dependsOn[1..], known)
  }

  function StepErrors(step: WorkflowStep, known: set<string>): seq<EditorError> {
    var missing := Unknown(step.dependsOn, known);
    (if missing != [] then [UnknownSteps(step.id, missing)] else []) +
    (if step.id in step.dependsOn then [SelfDependency(step.id)] else [])
  }

  function AllStepErrors(steps: seq<WorkflowStep>, known: set<string>): seq<EditorError> {
    if steps == [] then []
    else AllStepErrors(steps[..|steps| - 1], known) + StepErrors(steps[|steps| - 1], known)
  }

  /** The whole error list, in order, in terms of what is wrong with the graph. */
  ghost function ExpectedErrors(steps: seq<WorkflowStep>): seq<EditorError> {
    (if steps == [] then [NoSteps] else []) +
    (if UniqueIds(steps) then [] else [DuplicateIds]) +
    AllStepErrors(steps, IdSet(steps)) +
    (if HasCycle(DepsOf(steps)) then [DependencyCycle] else [])
  }

  /** All node names the search can meet: ids and whatever they name as dependencies. */
  function Nodes(deps: Deps): set<string> {
    deps.Keys + set n, d | n in deps && d in deps[n] :: d
  }

  /** The search never aborts: it sets a flag, and treats an unknown id as a leaf. */
  class CycleFlag {
    const deps: Deps
    var visiting: set<string>
    var visited: set<string>
    var cycle: bool
    ghost var path: seq<string>
    ghost var finished: seq<string>

    ghost predicate Valid()
      reads this
    {
      && visiting == (set x | x in path)
      && (path != [] ==> IsWalk(deps, path))
      && visiting !! visited
      && (cycle ==> HasCycle(deps))
      && (!cycle ==> visited == (set x | x in finished) && TopologicalOrder(deps, finished))
    }

    constructor (deps: Deps)
      ensures Valid() && this.deps == deps && path == [] && !cycle
    {
      this.deps := deps;
      visiting, visited, cycle := {}, {}, false;
      path, finished := [], [];
    }

    function DependenciesOf(node: string): seq<string> {
      if node in deps then deps[node] else []
    }

    method Visit(node: string)
      requires Valid() && node in Nodes(deps)
      requires path != [] ==> Edge(deps, path[|path| - 1], node)
      modifies this
      ensures Valid() && visiting == old(visiting) && path == old(path)
      ensures old(cycle) ==> cycle
      ensures old(visited) <= visited
      ensures !cycle ==> node in visited
      decreases Nodes(deps) - visiting - visited
    {
      hide HasCycle, TopologicalOrder, IsWalk, Nodes, Edge;
      if node in visiting {
        ClosingWalk(deps, path, node);
        cycle := true;
        return;
      }
      if node in visited {
        return;
      }
      assert node in Nodes(deps) - visiting - visited;
      Enter(node);
      var next := DependenciesOf(node);
      DependenciesAreEdges(node);
      for i := 0 to |next|
        invariant Valid() && path == old(path) + [node] && visiting == old(visiting) + {node}
        invariant old(cycle) ==> cycle
        invariant old(visited) <= visited
        invariant !cycle ==> forall k :: 0 <= k < i ==> next[k] in visited
      {
        Visit(next[i]);
      }
      Leave(node, old(path));
    }

    lemma DependenciesAreEdges(node: string)
      ensures forall d :: Edge(deps, node, d) <==> d in DependenciesOf(node)
      ensures forall d :: d in DependenciesOf(node) ==> d in Nodes(deps)
    {
    }

    method Enter(node: string)
      requires Valid() && node !in visiting && node !in visited
      requires path != [] ==> Edge(deps, path[|path| - 1], node)
      modifies this`visiting, this`path
      ensures Valid() && visiting == old(visiting) + {node} && path == old(path) + [node]
    {
      hide HasCycle, TopologicalOrder;
      visiting := visiting + {node};
      path := path + [node];
    }

    /** Takes the node, whose dependencies have been visited, off the path. */
    method Leave(node: string, ghost outer: seq<string>)
      requires Valid() && path == outer + [node] && node !in outer
      requires !cycle ==> forall d :: Edge(deps, node, d) ==> d in visited
      modifies this`visiting, this`visited, this`path, this`finished
      ensures Valid() && visiting == old(visiting) - {node} && path == outer && visited == old(visited) + {node}
    {
      hide HasCycle, TopologicalOrder;
      assert (set x | x in path) == (set x | x in outer) + {node};
      assert forall i :: 0 <= i < |outer| ==> path[i] == outer[i];
      visiting := visiting - {node};
      visited := visited + {node};
      path := outer;
      if !cycle {
        AppendToOrder(deps, finished, node);
      }
      finished := finished + [node];
    }
  }

  method FlagsCycle(ids: seq<string>, deps: Deps) returns (cycle: bool)
    requires deps.Keys == (set x | x in ids)
    ensures cycle <==> HasCycle(deps)
  {
    var search := new CycleFlag(deps);
    for i := 0 to |ids|
      invariant search.Valid() && search.deps == deps && search.path == [] && fresh(search)
      invariant !search.cycle ==> forall k :: 0 <= k < i ==> ids[k] in search.visited
    {
      search.Visit(ids[i]);
    }
    cycle := search.cycle;
    if !cycle {
      OrderExcludesCycles(deps, search.finished);
    }
  }

  lemma AllStepErrorsNone(steps: seq<WorkflowStep>, known: set<string>)
    ensures AllStepErrors(steps[..0], known) == []
  {
  }

  lemma AllStepErrorsNext(steps: seq<WorkflowStep>, i: nat, known: set<string>)
    requires i < |steps|
    ensures AllStepErrors(steps[..i + 1], known) == AllStepErrors(steps[..i], known) + StepErrors(steps[i], known)
  {
    assert steps[..i + 1][..i] == steps[..i];
  }

  method CollectStepErrors(steps: seq<WorkflowStep>, idSet: set<string>) returns (errors: seq<EditorError>)
    ensures errors == AllStepErrors(steps, idSet)
  {
    hide AllStepErrors;
    errors := [];
    AllStepErrorsNone(steps, idSet);
    for i := 0 to |steps|
      invariant errors == AllStepErrors(steps[..i], idSet)
    {
      ghost var before := errors;
      var missing := Unknown(steps[i].dependsOn, idSet);
      if missing != [] {
        errors := errors + [UnknownSteps(steps[i].id, missing)];
      }
      if steps[i].id in steps[i].dependsOn {
        errors := errors + [SelfDependency(steps[i].id)];
      }
      assert errors == before + StepErrors(steps[i], idSet);
      AllStepErrorsNext(steps, i, idSet);
    }
    assert steps[..|steps|] == steps;
  }

  method ValidateWorkflowGraph(steps: seq<WorkflowStep>) returns (errors: seq<EditorError>)
    ensures errors == ExpectedErrors(steps)
  {
    errors := [];
    var ids := IdsOf(steps);
    var idSet := set x | x in ids;
    UniqueByCount(steps);
    if steps == [] {
      errors := errors + [NoSteps];
    }
    if |ids| != |idSet| {
      errors := errors + [DuplicateIds];
    }
    var stepErrors := CollectStepErrors(steps, idSet);
    errors := errors + stepErrors;
    var cycle := FlagsCycle(ids, DepsOf(steps));
    if cycle {
      errors := errors + [DependencyCycle];
    }
  }

  /** An error is in the list exactly when some step has it. */
  lemma {:induction false} StepErrorIn(steps: seq<WorkflowStep>, known: set<string>, e: EditorError)
    ensures e in AllStepErrors(steps, known) <==>
      exists i :: 0 <= i < |steps| && e in StepErrors(steps[i], known)
  {
    hide StepErrors;
    if steps != [] {
      var n := |steps| - 1;
      StepErrorIn(steps[..n], known, e);
      assert forall i :: 0 <= i < n ==> steps[..n][i] == steps[i];
    }
  }

  /** The unknown dependencies of a step, in the order it lists them. */
  lemma UnknownMeaning(d: string, rest: seq<string>, known: set<string>)
    ensures Unknown([], known) == []
    ensures Unknown([d] + rest, known) == (if d in known then [] else [d]) + Unknown(rest, known)
  {
    assert ([d] + rest)[1..] == rest;
  }

  /** A step is reported for unknown dependencies and for itself, each whether or not the other applies. */
  lemma StepErrorsMeaning(step: WorkflowStep, known: set<string>)
    ensures var missing, self := Unknown(step.dependsOn, known), step.id in step.dependsOn;
      && (missing == [] && !self ==> StepErrors(step, known) == [])
      && (missing == [] && self ==> StepErrors(step, known) == [SelfDependency(step.id)])
      && (missing != [] && !self ==> StepErrors(step, known) == [UnknownSteps(step.id, missing)])
      && (missing != [] && self ==> StepErrors(step, known) == [UnknownSteps(step.id, missing), SelfDependency(step.id)])
  {
  }

  predicate DependsOnItself(steps: seq<WorkflowStep>, id: string) {
    exists i :: 0 <= i < |steps| && steps[i].id == id && id in steps[i].dependsOn
  }

  predicate HasUnknown(steps: seq<WorkflowStep>, id: string, missing: seq<string>) {
    exists i :: 0 <= i < |steps| && steps[i].id == id && missing == Unknown(steps[i].dependsOn, IdSet(steps))
  }

  /** Each kind of message appears exactly when there is reason for it. */
  lemma ErrorsMean(steps: seq<WorkflowStep>)
    ensures var errors := ExpectedErrors(steps);
      && (NoSteps in errors <==> |steps| == 0)
      && (DuplicateIds in errors <==> exists i, j :: 0 <= i < j < |steps| && steps[i].id == steps[j].id)
      && (DependencyCycle in errors <==> HasCycle(DepsOf(steps)))
      && (forall id :: SelfDependency(id) in errors <==> DependsOnItself(steps, id))
      && (forall id, missing :: UnknownSteps(id, missing) in errors <==> missing != [] && HasUnknown(steps, id, missing))
  {
    hide HasCycle, AllStepErrors, ExpectedErrors, DependsOnItself, HasUnknown;
    InExpected(steps, NoSteps);
    InExpected(steps, DuplicateIds);
    InExpected(steps, DependencyCycle);
    OtherErrors(steps);
    forall id
      ensures SelfDependency(id) in ExpectedErrors(steps) <==> DependsOnItself(steps, id)
    {
      InExpected(steps, SelfDependency(id));
      StepErrorIn(steps, IdSet(steps), SelfDependency(id));
      SelfErrorIn(steps, id);
    }
    forall id, missing
      ensures UnknownSteps(id, missing) in ExpectedErrors(steps) <==> missing != [] && HasUnknown(steps, id, missing)
    {
      InExpected(steps, UnknownSteps(id, missing));
      StepErrorIn(steps, IdSet(steps), UnknownSteps(id, missing));
      UnknownErrorIn(steps, id, missing);
    }
  }

  /** The message for an empty list or for repeated ids comes first, the one for a cycle last. */
  lemma ErrorsInOrder(steps: seq<WorkflowStep>)
    ensures var errors := ExpectedErrors(steps);
      && (NoSteps in errors ==> errors[0] == NoSteps)
      && (DuplicateIds in errors ==> errors[0] == DuplicateIds)
      && (DependencyCycle in errors ==> errors[|errors| - 1] == DependencyCycle)
  {
    hide HasCycle, AllStepErrors;
    InExpected(steps, NoSteps);
    InExpected(steps, DuplicateIds);
    InExpected(steps, DependencyCycle);
    OtherErrors(steps);
  }

  lemma InExpected(steps: seq<WorkflowStep>, e: EditorError)
    ensures e in ExpectedErrors(steps) <==>
      || (steps == [] && e == NoSteps)
      || (!UniqueIds(steps) && e == DuplicateIds)
      || e in AllStepErrors(steps, IdSet(steps))
      || (HasCycle(DepsOf(steps)) && e == DependencyCycle)
  {
    hide HasCycle, AllStepErrors, UniqueIds;
  }

  lemma OtherErrors(steps: seq<WorkflowStep>)
    ensures forall e :: e in AllStepErrors(steps, IdSet(steps)) ==> e.UnknownSteps? || e.SelfDependency?
  {
    forall e | e in AllStepErrors(steps, IdSet(steps))
      ensures e.UnknownSteps? || e.SelfDependency?
    {
      StepErrorIn(steps, IdSet(steps), e);
    }
  }

  lemma SelfErrorIn(steps: seq<WorkflowStep>, id: string)
    ensures (exists i :: 0 <= i < |steps| && SelfDependency(id) in StepErrors(steps[i], IdSet(steps))) <==>
      DependsOnItself(steps, id)
  {
    if DependsOnItself(steps, id) {
      var i :| 0 <= i < |steps| && steps[i].id == id && id in steps[i].dependsOn;
      assert SelfDependency(id) in StepErrors(steps[i], IdSet(steps));
    }
  }

  lemma UnknownErrorIn(steps: seq<WorkflowStep>, id: string, missing: seq<string>)
    ensures (exists i :: 0 <= i < |steps| && UnknownSteps(id, missing) in StepErrors(steps[i], IdSet(steps))) <==>
      missing != [] && HasUnknown(steps, id, missing)
  {
    if missing != [] && HasUnknown(steps, id, missing) {
      var i :| 0 <= i < |steps| && steps[i].id == id && missing == Unknown(steps[i].dependsOn, IdSet(steps));
      assert UnknownSteps(id, missing) in StepErrors(steps[i], IdSet(steps));
    }
  }

  /** The editor is silent exactly when the backend accepts the same non-empty list. */
  lemma SilentExactlyWhenAccepted(steps: seq<WorkflowStep>)
    ensures ExpectedErrors(steps) == [] <==> |steps| >= 1 && WellFormed(steps)
  {
    var known := IdSet(steps);
    var all := AllStepErrors(steps, known);
    if all == [] {
      forall i | 0 <= i < |steps|
        ensures StepErrors(steps[i], known) == []
      {
        if StepErrors(steps[i], known) != [] {
          StepErrorIn(steps, known, StepErrors(steps[i], known)[0]);
        }
      }
      assert KnownDeps(steps) && NoSelfDeps(steps) by {
        forall i | 0 <= i < |steps|
          ensures (forall d :: d in steps[i].dependsOn ==> d in known) && steps[i].id !in steps[i].dependsOn
        {
          assert Unknown(steps[i].dependsOn, known) == [];
          forall d | d in steps[i].dependsOn
            ensures d in known
          {
            assert d !in Unknown(steps[i].dependsOn, known);
          }
        }
      }
    } else {
      StepErrorIn(steps, known, all[0]);
      var i :| 0 <= i < |steps| && all[0] in StepErrors(steps[i], known);
      if Unknown(steps[i].dependsOn, known) != [] {
        assert Unknown(steps[i].dependsOn, known)[0] in steps[i].dependsOn;
      }
    }
  }

  /** The editor error that says what a backend error says. */
  ghost predicate SameComplaint(b: GraphValidator.GraphError, e: EditorError) {
    match b
    case DuplicateIds => e == DuplicateIds
    case UnknownDependencies(id, missing) =>
      e.UnknownSteps? && e.step == id && (set d | d in e.missing) == missing
    case SelfDependency(id) => e == SelfDependency(id)
    case DependencyCycle => e == DependencyCycle
  }

  /** Whatever the backend rejects a list for, the editor says too. */
  lemma EditorReportsBackendError(steps: seq<WorkflowStep>, b: GraphValidator.GraphError)
    requires GraphValidator.ReportedFor(steps, b)
    ensures exists e :: e in ExpectedErrors(steps) && SameComplaint(b, e)
  {
    match b
    case DuplicateIds =>
      assert DuplicateIds in ExpectedErrors(steps) && SameComplaint(b, DuplicateIds);
    case UnknownDependencies(id, missing) => EditorReportsUnknown(steps, b);
    case SelfDependency(id) => EditorReportsSelf(steps, b);
    case DependencyCycle =>
      assert DependencyCycle in ExpectedErrors(steps) && SameComplaint(b, DependencyCycle);
  }

  lemma EditorReportsUnknown(steps: seq<WorkflowStep>, b: GraphValidator.GraphError)
    requires b.UnknownDependencies? && GraphValidator.ReportedFor(steps, b)
    ensures exists e :: e in ExpectedErrors(steps) && SameComplaint(b, e)
  {
    hide HasCycle, UniqueIds, AllStepErrors, StepErrors;
    var known := IdSet(steps);
    var i: nat :| GraphValidator.FirstBadStep(steps, i) && steps[i].id == b.step && b.missing == MissingDeps(steps[i], known);
    BadStepListed(steps, i);
    var e := UnknownSteps(b.step, Unknown(steps[i].dependsOn, known));
    assert (set x | x in e.missing) == b.missing;
    StepErrorIn(steps, known, e);
    assert e in ExpectedErrors(steps) && SameComplaint(b, e);
  }

  lemma BadStepListed(steps: seq<WorkflowStep>, i: nat)
    requires GraphValidator.FirstBadStep(steps, i)
    ensures i < |steps| && StepErrors(steps[i], IdSet(steps)) != []
    ensures MissingDeps(steps[i], IdSet(steps)) != {} ==>
      UnknownSteps(steps[i].id, Unknown(steps[i].dependsOn, IdSet(steps))) in StepErrors(steps[i], IdSet(steps))
    ensures MissingDeps(steps[i], IdSet(steps)) == {} ==> SelfDependency(steps[i].id) in StepErrors(steps[i], IdSet(steps))
  {
    if d :| d in MissingDeps(steps[i], IdSet(steps)) {
      assert d in Unknown(steps[i].dependsOn, IdSet(steps));
    }
  }

  lemma EditorReportsSelf(steps: seq<WorkflowStep>, b: GraphValidator.GraphError)
    requires b.SelfDependency? && GraphValidator.ReportedFor(steps, b)
    ensures exists e :: e in ExpectedErrors(steps) && SameComplaint(b, e)
  {
    hide HasCycle, UniqueIds, AllStepErrors, StepErrors;
    var known := IdSet(steps);
    var i: nat :| GraphValidator.FirstBadStep(steps, i) && steps[i].id == b.step && MissingDeps(steps[i], known) == {};
    BadStepListed(steps, i);
    StepErrorIn(steps, known, SelfDependency(b.step));
    assert SelfDependency(b.step) in ExpectedErrors(steps) && SameComplaint(b, SelfDependency(b.step));
  }
}
