/** The definition-time check of app/workflows/models.py: four rules, reported in order. */
module GraphValidator {
  import opened Common
  import opened WorkflowModels
  import opened WorkflowGraph

  datatype GraphError =
    | DuplicateIds
    | UnknownDependencies(step: string, missing: set<string>)
    | SelfDependency(step: string)
    | DependencyCycle

  /** Step i is the first one whose dependency list is wrong. */
  ghost predicate FirstBadStep(steps: seq<WorkflowStep>, i: nat) {
    && i < |steps|
    && (MissingDeps(steps[i], IdSet(steps)) != {} || steps[i].id in steps[i].dependsOn)
    && forall j :: 0 <= j < i ==>
      MissingDeps(steps[j], IdSet(steps)) == {} && steps[j].id !in steps[j].dependsOn
  }

  /** The one error a rejected list is reported with. */
  ghost predicate ReportedFor(steps: seq<WorkflowStep>, e: GraphError) {
    match e
    case DuplicateIds => !UniqueIds(steps)
    case UnknownDependencies(id, missing) =>
      UniqueIds(steps) && missing != {} &&
      exists i: nat :: FirstBadStep(steps, i) && steps[i].id == id && missing == MissingDeps(steps[i], IdSet(steps))
    case SelfDependency(id) =>
      UniqueIds(steps) &&
      exists i: nat :: FirstBadStep(steps, i) && steps[i].id == id && MissingDeps(steps[i], IdSet(steps)) == {}
    case DependencyCycle =>
      UniqueIds(steps) && KnownDeps(steps) && NoSelfDeps(steps) && HasCycle(DepsOf(steps))
  }

  /** The recursive search: `visiting` is the current path, `visited` the finished nodes. */
  class CycleSearch {
    const deps: Deps
    var visiting: set<string>
    var visited: set<string>
    ghost var path: seq<string>
    ghost var finished: seq<string>

    ghost predicate Valid()
      reads this
    {
      && (forall n, d :: n in deps && d in deps[n] ==> d in deps)
      && visiting !! visited && visiting <= deps.Keys && visited <= deps.Keys
      && visiting == (set x | x in path)
      && (path != [] ==> IsWalk(deps, path))
      && visited == (set x | x in finished)
      && TopologicalOrder(deps, finished)
    }

    constructor (deps: Deps)
      requires forall n, d :: n in deps && d in deps[n] ==> d in deps
      ensures Valid() && this.deps == deps && path == [] && visited == {}
    {
      this.deps := deps;
      visiting, visited := {}, {};
      path, finished := [], [];
    }

    /** Returns false in place of raising the cycle error. */
    method Visit(node: string) returns (ok: bool)
      requires Valid() && node in deps
      requires path != [] ==> Edge(deps, path[|path| - 1], node)
      modifies this
      ensures !ok ==> HasCycle(deps)
      ensures ok ==> Valid() && visiting == old(visiting) && path == old(path)
      ensures ok ==> old(finished) <= finished && old(visited) <= visited && node in visited
      decreases deps.Keys - visiting - visited
    {
      hide HasCycle, TopologicalOrder;
      if node in visiting {
        ClosingWalk(deps, path, node);
        return false;
      }
      if node in visited {
        return true;
      }
      assert node in deps.Keys - visiting - visited;
      visiting := visiting + {node};
      path := path + [node];
      assert path[|path| - 1] == node;
      for i := 0 to |deps[node]|
        invariant Valid() && path == old(path) + [node] && visiting == old(visiting) + {node}
        invariant old(finished) <= finished && old(visited) <= visited
        invariant forall k :: 0 <= k < i ==> deps[node][k] in visited
      {
        assert Edge(deps, node, deps[node][i]);
        var found := Visit(deps[node][i]);
        if !found {
          return false;
        }
      }
      visiting := visiting - {node};
      visited := visited + {node};
      path := old(path);
      AppendToOrder(deps, finished, node);
      finished := finished + [node];
      return true;
    }
  }

  /** Runs the search from every id; the finish order is topological when no cycle is met. */
  method SearchAll(ids: seq<string>, deps: Deps) returns (ok: bool, ghost order: seq<string>)
    requires forall n, d :: n in deps && d in deps[n] ==> d in deps
    requires deps.Keys == (set x | x in ids)
    ensures ok <==> !HasCycle(deps)
    ensures ok ==> TopologicalOrder(deps, order) && (set x | x in order) == deps.Keys
  {
    order := [];
    var search := new CycleSearch(deps);
    for i := 0 to |ids|
      invariant search.Valid() && search.deps == deps && search.path == [] && fresh(search)
      invariant forall k :: 0 <= k < i ==> ids[k] in search.visited
    {
      ok := search.Visit(ids[i]);
      if !ok {
        return;
      }
    }
    ok, order := true, search.finished;
    OrderExcludesCycles(deps, order);
  }

  /** The loop over the steps: unknown dependencies first, then self-dependencies. */
  method CheckDependencies(steps: seq<WorkflowStep>) returns (r: Result<(), GraphError>)
    requires UniqueIds(steps)
    ensures r.Ok? <==> KnownDeps(steps) && NoSelfDeps(steps)
    ensures r.Err? ==> ReportedFor(steps, r.error)
  {
    var known := IdSet(steps);
    for i := 0 to |steps|
      invariant forall j :: 0 <= j < i ==>
        MissingDeps(steps[j], known) == {} && steps[j].id !in steps[j].dependsOn
    {
      var missing := MissingDeps(steps[i], known);
      if missing != {} {
        assert FirstBadStep(steps, i);
        assert !KnownDeps(steps) by {
          var d :| d in missing;
          assert d in steps[i].dependsOn && d !in known;
        }
        return Err(UnknownDependencies(steps[i].id, missing));
      }
      if steps[i].id in steps[i].dependsOn {
        assert FirstBadStep(steps, i);
        return Err(SelfDependency(steps[i].id));
      }
    }
    assert KnownDeps(steps) by {
      forall i, d | 0 <= i < |steps| && d in steps[i].dependsOn
        ensures d in known
      {
        assert d !in MissingDeps(steps[i], known);
      }
    }
    return Ok(());
  }

  /** In a list with known dependencies every dependency is itself a key of the map. */
  lemma DepsAreClosed(steps: seq<WorkflowStep>)
    requires UniqueIds(steps) && KnownDeps(steps)
    ensures forall n, d :: n in DepsOf(steps) && d in DepsOf(steps)[n] ==> d in DepsOf(steps)
  {
    forall n, d | n in DepsOf(steps) && d in DepsOf(steps)[n]
      ensures d in IdSet(steps)
    {
      var i :| 0 <= i < |steps| && steps[i].id == n;
      DepsOfAt(steps, i);
    }
  }

  /** Accepts exactly the well-formed lists, and reports the first rule that is broken. */
  method ValidateGraph(steps: seq<WorkflowStep>)
    returns (r: Result<(), GraphError>, ghost order: seq<string>)
    ensures r.Ok? <==> WellFormed(steps)
    ensures r.Err? ==> ReportedFor(steps, r.error)
    ensures r.Ok? ==> TopologicalOrder(DepsOf(steps), order) && (set x | x in order) == IdSet(steps)
  {
    order := [];
    var ids := IdsOf(steps);
    UniqueByCount(steps);
    if |ids| != |(set x | x in ids)| {
      return Err(DuplicateIds), order;
    }
    r := CheckDependencies(steps);
    if r.Err? {
      return;
    }
    DepsAreClosed(steps);
    var acyclic;
    acyclic, order := SearchAll(ids, DepsOf(steps));
    if !acyclic {
      r := Err(DependencyCycle);
    }
  }

  predicate NamesAStep(steps: seq<WorkflowStep>, id: string) {
    exists j :: 0 <= j < |steps| && steps[j].id == id
  }

  ghost predicate ExactlyUnknown(steps: seq<WorkflowStep>, step: WorkflowStep, missing: set<string>) {
    missing != {} && forall d :: d in missing <==> d in step.dependsOn && !NamesAStep(steps, d)
  }

  lemma IdSetMeans(steps: seq<WorkflowStep>)
    ensures forall d :: d in IdSet(steps) <==> NamesAStep(steps, d)
  {
  }

  /** Nothing is wrong with the dependency list of this step. */
  predicate Clean(steps: seq<WorkflowStep>, step: WorkflowStep) {
    step.id !in step.dependsOn && forall d :: d in step.dependsOn ==> NamesAStep(steps, d)
  }

  /** A rejection for a dependency list names the first step whose list is wrong, and for itself only if nothing is unknown. */
  lemma FirstIsReported(steps: seq<WorkflowStep>, e: GraphError) returns (i: nat)
    requires ReportedFor(steps, e) && (e.UnknownDependencies? || e.SelfDependency?)
    ensures i < |steps| && steps[i].id == e.step && !Clean(steps, steps[i])
    ensures forall j :: 0 <= j < i ==> Clean(steps, steps[j])
    ensures e.SelfDependency? ==> forall d :: d in steps[i].dependsOn ==> NamesAStep(steps, d)
  {
    IdSetMeans(steps);
    hide IdSet, NamesAStep;
    if e.UnknownDependencies? {
      i :| FirstBadStep(steps, i) && steps[i].id == e.step && e.missing == MissingDeps(steps[i], IdSet(steps));
    } else {
      i :| FirstBadStep(steps, i) && steps[i].id == e.step && MissingDeps(steps[i], IdSet(steps)) == {};
    }
    forall j | 0 <= j <= i {
      CleanMeans(steps, j);
    }
  }

  lemma CleanMeans(steps: seq<WorkflowStep>, j: nat)
    requires j < |steps|
    ensures Clean(steps, steps[j]) <==>
      MissingDeps(steps[j], IdSet(steps)) == {} && steps[j].id !in steps[j].dependsOn
    ensures MissingDeps(steps[j], IdSet(steps)) == {} ==> forall d :: d in steps[j].dependsOn ==> NamesAStep(steps, d)
  {
    IdSetMeans(steps);
    hide IdSet, NamesAStep;
    if MissingDeps(steps[j], IdSet(steps)) == {} {
      forall d | d in steps[j].dependsOn
        ensures d in IdSet(steps)
      {
        assert d !in MissingDeps(steps[j], IdSet(steps));
      }
    }
  }

  /** What a rejection says: the step it names has exactly these unknown dependencies, or depends on itself. */
  lemma ReportMeans(steps: seq<WorkflowStep>, e: GraphError)
    requires ReportedFor(steps, e)
    ensures e.DuplicateIds? ==> exists i, j :: 0 <= i < j < |steps| && steps[i].id == steps[j].id
    ensures e.UnknownDependencies? ==>
      exists i :: 0 <= i < |steps| && steps[i].id == e.step && ExactlyUnknown(steps, steps[i], e.missing)
    ensures e.SelfDependency? ==> exists i :: 0 <= i < |steps| && steps[i].id == e.step && e.step in steps[i].dependsOn
    ensures e.DependencyCycle? ==> exists p :: IsCycle(DepsOf(steps), p)
  {
    IdSetMeans(steps);
    hide IdSet;
    match e
    case UnknownDependencies(id, missing) =>
      var i: nat :| FirstBadStep(steps, i) && steps[i].id == id && missing == MissingDeps(steps[i], IdSet(steps));
      assert ExactlyUnknown(steps, steps[i], missing);
    case SelfDependency(id) =>
      var i: nat :| FirstBadStep(steps, i) && steps[i].id == id && MissingDeps(steps[i], IdSet(steps)) == {};
    case _ =>
  }

  predicate DependenciesExist(steps: seq<WorkflowStep>) {
    forall i, d :: 0 <= i < |steps| && d in steps[i].dependsOn ==> NamesAStep(steps, d)
  }

  /** The rules of a definition, one by one. */
  lemma WellFormedMeans(steps: seq<WorkflowStep>)
    ensures WellFormed(steps) <==>
      && (forall i, j :: 0 <= i < j < |steps| ==> steps[i].id != steps[j].id)
      && DependenciesExist(steps)
      && (forall i :: 0 <= i < |steps| ==> steps[i].id !in steps[i].dependsOn)
      && !exists p :: IsCycle(DepsOf(steps), p)
  {
    KnownDepsMeans(steps);
    hide IdSet, IsCycle, KnownDeps, DependenciesExist;
    assert HasCycle(DepsOf(steps)) <==> exists p :: IsCycle(DepsOf(steps), p);
  }

  lemma KnownDepsMeans(steps: seq<WorkflowStep>)
    ensures KnownDeps(steps) <==> DependenciesExist(steps)
  {
    IdSetMeans(steps);
    hide IdSet, NamesAStep;
    if DependenciesExist(steps) {
      forall i, d | 0 <= i < |steps| && d in steps[i].dependsOn
        ensures d in IdSet(steps)
      {
        assert NamesAStep(steps, d);
      }
    }
  }
}
