/**
 What it means for a list of steps to be a well-formed dependency graph, stated without
 any search: a cycle is a closed walk along dependency edges.
 */
module WorkflowGraph {
  import opened WorkflowModels

  type Deps = map<string, seq<string>>

  /** Each id's dependency list; with repeated ids the last step wins. */
  function DepsOf(steps: seq<WorkflowStep>): (deps: Deps)
    ensures deps.Keys == IdSet(steps)
  {
    if steps == [] then map[]
    else
      var last := steps[|steps| - 1];
      DepsOf(steps[..|steps| - 1])[last.id := last.dependsOn]
  }

  predicate Edge(deps: Deps, a: string, b: string) {
    a in deps && b in deps[a]
  }

  predicate IsWalk(deps: Deps, p: seq<string>)
    ensures IsWalk(deps, p) ==> p != []
  {
    p != [] && forall i :: 0 <= i < |p| - 1 ==> Edge(deps, p[i], p[i + 1])
  }

  predicate IsCycle(deps: Deps, p: seq<string>) {
    |p| >= 2 && IsWalk(deps, p) && p[0] == p[|p| - 1]
  }

  ghost predicate HasCycle(deps: Deps) {
    exists p :: IsCycle(deps, p)
  }

  predicate UniqueIds(steps: seq<WorkflowStep>) {
    forall i, j :: 0 <= i < j < |steps| ==> steps[i].id != steps[j].id
  }

  function MissingDeps(step: WorkflowStep, known: set<string>): set<string> {
    set d | d in step.dependsOn && d !in known
  }

  predicate KnownDeps(steps: seq<WorkflowStep>) {
    forall i, d :: 0 <= i < |steps| && d in steps[i].dependsOn ==> d in IdSet(steps)
  }

  predicate NoSelfDeps(steps: seq<WorkflowStep>) {
    forall i :: 0 <= i < |steps| ==> steps[i].id !in steps[i].dependsOn
  }

  /** The four rules of a workflow definition. */
  ghost predicate WellFormed(steps: seq<WorkflowStep>) {
    UniqueIds(steps) && KnownDeps(steps) && NoSelfDeps(steps) && !HasCycle(DepsOf(steps))
  }

  lemma {:induction false} DepsOfAt(steps: seq<WorkflowStep>, i: nat)
    requires UniqueIds(steps) && i < |steps|
    ensures steps[i].id in DepsOf(steps) && DepsOf(steps)[steps[i].id] == steps[i].dependsOn
  {
    var last := |steps| - 1;
    if i < last {
      assert steps[..last][i] == steps[i];
      DepsOfAt(steps[..last], i);
    }
  }

  /** With repeated ids the last step with an id wins. */
  lemma {:induction false} LastStepWins(steps: seq<WorkflowStep>, i: nat)
    requires i < |steps| && forall j :: i < j < |steps| ==> steps[j].id != steps[i].id
    ensures steps[i].id in DepsOf(steps) && DepsOf(steps)[steps[i].id] == steps[i].dependsOn
  {
    var last := |steps| - 1;
    if i < last {
      assert steps[..last][i] == steps[i];
      LastStepWins(steps[..last], i);
    }
  }

  /** Every dependency of a listed node comes before it, and no node is listed twice. */
  ghost predicate TopologicalOrder(deps: Deps, order: seq<string>) {
    && (forall i, j :: 0 <= i < j < |order| ==> order[i] != order[j])
    && (forall i, d :: 0 <= i < |order| && Edge(deps, order[i], d) ==> d in order[..i])
  }

  /** A node may be appended once all of its dependencies are listed. */
  lemma AppendToOrder(deps: Deps, order: seq<string>, node: string)
    requires TopologicalOrder(deps, order) && node !in order
    requires forall d :: Edge(deps, node, d) ==> d in order
    ensures TopologicalOrder(deps, order + [node])
  {
    var longer := order + [node];
    forall i, d | 0 <= i < |longer| && Edge(deps, longer[i], d)
      ensures d in longer[..i]
    {
      if i < |order| {
        assert Edge(deps, order[i], d) && longer[..i] == order[..i];
      } else {
        assert longer[..i] == order;
      }
    }
  }

  /** A walk starting inside a topological order only moves towards its front. */
  lemma {:induction false} WalkMovesForward(deps: Deps, order: seq<string>, p: seq<string>, i: nat)
    requires TopologicalOrder(deps, order) && IsWalk(deps, p)
    requires i < |order| && p[0] == order[i]
    ensures |p| >= 2 ==> p[|p| - 1] in order[..i]
  {
    if |p| >= 2 {
      assert Edge(deps, p[0], p[1]);
      var k :| 0 <= k < i && order[k] == p[1];
      var rest := p[1..];
      forall j | 0 <= j < |rest| - 1
        ensures Edge(deps, rest[j], rest[j + 1])
      {
        assert Edge(deps, p[j + 1], p[j + 1 + 1]);
      }
      WalkMovesForward(deps, order, rest, k);
    }
  }

  /** A topological order of every node with dependencies rules cycles out. */
  lemma OrderExcludesCycles(deps: Deps, order: seq<string>)
    requires TopologicalOrder(deps, order)
    requires forall n :: n in deps ==> n in order
    ensures !HasCycle(deps)
  {
    if p :| IsCycle(deps, p) {
      assert Edge(deps, p[0], p[1]);
      var i :| 0 <= i < |order| && order[i] == p[0];
      WalkMovesForward(deps, order, p, i);
    }
  }

  predicate EdgeInto(deps: Deps, a: string, s: set<string>) {
    exists b :: b in s && Edge(deps, a, b)
  }

  /** A non-empty set in which every node depends on a node of the set contains a cycle. */
  lemma TrappedSetHasCycle(deps: Deps, s: set<string>)
    requires s != {}
    requires forall a :: a in s ==> EdgeInto(deps, a, s)
    ensures HasCycle(deps)
  {
    var a :| a in s;
    ExtendWalk(deps, s, [a]);
  }

  lemma {:induction false} ExtendWalk(deps: Deps, s: set<string>, p: seq<string>)
    requires forall a :: a in s ==> EdgeInto(deps, a, s)
    requires IsWalk(deps, p) && forall x :: x in p ==> x in s
    ensures HasCycle(deps)
    decreases s - (set x | x in p)
  {
    hide IsWalk, HasCycle;
    var last := p[|p| - 1];
    assert last in s && EdgeInto(deps, last, s);
    var b :| b in s && Edge(deps, last, b);
    if b in p {
      ClosingWalk(deps, p, b);
    } else {
      LongerWalk(deps, p, b);
      MoreVisited(p, b, s);
      ExtendWalk(deps, s, p + [b]);
    }
  }

  lemma LongerWalk(deps: Deps, p: seq<string>, b: string)
    requires IsWalk(deps, p) && Edge(deps, p[|p| - 1], b)
    ensures IsWalk(deps, p + [b])
  {
  }

  /** Appending a new node of s leaves fewer nodes of s to visit. */
  lemma MoreVisited(p: seq<string>, b: string, s: set<string>)
    requires b in s && b !in p && forall x :: x in p ==> x in s
    ensures forall x :: x in p + [b] ==> x in s
    ensures s - (set x | x in p + [b]) < s - (set x | x in p)
  {
    var seen, more := set x | x in p, set x | x in p + [b];
    assert more == seen + {b};
    assert b in s - seen && b !in s - more;
  }

  /** A walk whose last node has an edge back to a node of the walk closes a cycle. */
  lemma ClosingWalk(deps: Deps, p: seq<string>, b: string)
    requires IsWalk(deps, p) && b in p && Edge(deps, p[|p| - 1], b)
    ensures HasCycle(deps)
  {
    var k :| 0 <= k < |p| && p[k] == b;
    var c := p[k..] + [b];
    forall i | 0 <= i < |c| - 1
      ensures Edge(deps, c[i], c[i + 1])
    {
      if i + k < |p| - 1 {
        assert Edge(deps, p[i + k], p[i + k + 1]);
      }
    }
    assert IsCycle(deps, c);
  }

  /** The ids of a list are distinct exactly when the set of them is as large as the list. */
  lemma {:induction false} DistinctByCount(ids: seq<string>)
    ensures |(set x | x in ids)| <= |ids|
    ensures |ids| == |(set x | x in ids)| <==>
      forall i, j :: 0 <= i < j < |ids| ==> ids[i] != ids[j]
  {
    if ids != [] {
      var n := |ids| - 1;
      var rest, last := ids[..n], ids[n];
      DistinctByCount(rest);
      assert ids == rest + [last];
      assert (set x | x in ids) == (set x | x in rest) + {last};
      if last in rest {
        var i :| 0 <= i < n && rest[i] == last;
        assert ids[i] == ids[n];
        assert (set x | x in ids) == (set x | x in rest);
      }
    }
  }

  lemma UniqueByCount(steps: seq<WorkflowStep>)
    ensures IdSet(steps) == set x | x in IdsOf(steps)
    ensures |steps| == |IdSet(steps)| <==> UniqueIds(steps)
  {
    var ids := IdsOf(steps);
    DistinctByCount(ids);
    assert IdSet(steps) == set x | x in ids;
    assert forall i :: 0 <= i < |steps| ==> ids[i] == steps[i].id;
  }
}
