/**
 A gated tool step over a whole life of a run: attempts that the approval gate refuses use up
 the retry budget, so the handler runs in at most every other attempt.
 */
module WorkflowGates {
  import opened Approvals
  import opened WorkflowModels
  import opened WorkflowSemantics
  import opened WorkflowLives
  import opened ToolGate
  import GL = GrantLedger

  // ---- how the attempts of a step follow each other -------------------------------------

  function ResultOf(h: Handlers, c: Call): AttemptResult {
    h(c.step, c.attempt, c.approvalId)
  }

  /** An attempt is followed by another only if it waited, or raised; after a raise with the same approval. */
  predicate Follows(h: Handlers, first: Call, next: Call) {
    || ResultOf(h, first).Waits?
    || (ResultOf(h, first).Raised? && next.approvalId == first.approvalId)
  }

  predicate Chained(h: Handlers, calls: seq<Call>) {
    forall m, n :: 0 <= m < |calls| && n == m + 1 && n < |calls| ==> Follows(h, calls[m], calls[n])
  }

  /** A step that can still be executed made no attempt yet or waited in its last one. */
  predicate ChainedStep(h: Handlers, s: StepRun, calls: seq<Call>) {
    Chained(h, calls) &&
    (s.status in {Pending, WaitingApproval} && calls != [] ==> ResultOf(h, calls[|calls| - 1]).Waits?)
  }

  /** The attempts of one execution: all but the last raise, and a step left waiting waited in the last. */
  lemma RetriedTrace(step: WorkflowStep, s: StepRun, h: Handlers)
    ensures var r := Retried(step, s, h);
      && (forall j :: s.attempts < j < r.attempts ==> h(step.id, j, s.approvalId).Raised?)
      && (r.status == WaitingApproval ==> r.attempts > s.attempts && h(step.id, r.attempts, s.approvalId).Waits?)
  {
    RetryRule(step, s, h);
  }

  /** The calls of one more execution continue the chain. */
  lemma ChainExtends(step: WorkflowStep, s: StepRun, h: Handlers, calls: seq<Call>)
    requires s.status == Pending && ChainedStep(h, s, calls)
    ensures var r := Retried(step, s, h);
      ChainedStep(h, r, calls + NewCalls(step.id, s, r.attempts))
  {
    RetriedTrace(step, s, h);
    RetriedBounds(step, s, h);
    hide Retried;
    var r := Retried(step, s, h);
    var more := NewCalls(step.id, s, r.attempts);
    var all := calls + more;
    assert |more| == r.attempts - s.attempts;
    forall m, n | 0 <= m < |all| && n == m + 1 && n < |all|
      ensures Follows(h, all[m], all[n])
    {
      if n < |calls| {
        assert all[m] == calls[m] && all[n] == calls[n];
      } else if m >= |calls| {
        assert all[m] == more[m - |calls|] && all[n] == more[n - |calls|];
      } else {
        assert all[m] == calls[|calls| - 1];
      }
    }
    assert Chained(h, all);
    if r.status == WaitingApproval {
      assert all[|all| - 1] == more[|more| - 1] == Call(step.id, r.attempts, s.approvalId);
    }
  }

  lemma DriveKeepsChain(defn: seq<WorkflowStep>, h: Handlers, before: RunState, after: RunState, i: nat)
    requires i < |defn| && Driven(defn, h, before, after)
    requires ChainedStep(h, before.steps[defn[i].id], CallsOf(before.calls, defn[i].id))
    ensures ChainedStep(h, after.steps[defn[i].id], CallsOf(after.calls, defn[i].id))
  {
    hide ChainedStep, Quiescent, AllDepsSettled, MaySkip, MayRun, SteadyCondition, Retried;
    var step, s, r := defn[i], before.steps[defn[i].id], after.steps[defn[i].id];
    var calls := CallsOf(before.calls, step.id);
    assert CallsOf(after.calls, step.id) == calls + NewCalls(step.id, s, r.attempts);
    assert Justified(defn, step, h, before, after.steps);
    if s.status == Pending && r == Retried(step, s, h) {
      ChainExtends(step, s, h, calls);
    } else {
      assert NewCalls(step.id, s, s.attempts) == [];
      assert calls + [] == calls;
      StatusOnly(h, s, r, calls);
    }
  }

  lemma StatusOnly(h: Handlers, s: StepRun, r: StepRun, calls: seq<Call>)
    requires ChainedStep(h, s, calls)
    requires r.status == s.status || r.status !in {Pending, WaitingApproval} ||
      (s.status == WaitingApproval && r.status == Pending)
    ensures ChainedStep(h, r, calls)
  {
  }

  /**
   Over a whole life a step is attempted again only after an attempt that waited, when a resume
   has approved it, or after one that raised, and then with the same approval.
   */
  lemma {:induction false} LifeChained(defn: seq<WorkflowStep>, h: Handlers, context: map<string, Value>,
      hist: seq<RunState>, approvals: seq<map<string, string>>, k: nat, i: nat)
    requires Life(defn, h, context, hist, approvals) && k < |hist| && i < |defn|
    ensures defn[i].id in hist[k].steps
    ensures ChainedStep(h, hist[k].steps[defn[i].id], CallsOf(hist[k].calls, defn[i].id))
  {
    hide Life, Driven, ChainedStep, CallsOf;
    var id := defn[i].id;
    if k == 0 {
      LifeBegins(defn, h, context, hist, approvals);
      NoCallsYet(h, id);
      DriveKeepsChain(defn, h, Initial(defn, context), hist[0], i);
    } else {
      LifeChained(defn, h, context, hist, approvals, k - 1, i);
      LifeStep(defn, h, context, hist, approvals, k - 1);
      var before := Approved(hist[k - 1], approvals[k - 1]);
      StatusOnly(h, hist[k - 1].steps[id], before.steps[id], CallsOf(before.calls, id));
      DriveKeepsChain(defn, h, before, hist[k], i);
    }
  }

  lemma NoCallsYet(h: Handlers, id: string)
    ensures CallsOf([], id) == [] && ChainedStep(h, FreshStep, [])
  {
  }

  // ---- the gate in between --------------------------------------------------------------

  /** What the gate was shown: `met[m]` are the grants that attempt m + 1 of the step met. */
  datatype Gate = Gate(
    registry: map<string, Risk>,
    tool: string,
    met: seq<map<string, Grant>>,
    handler: nat -> HandlerOutcome,
    dump: ToolResult -> Value)

  /** The gate let attempt m through, so the tool's handler ran. */
  predicate HandlerRan(g: Gate, calls: seq<Call>, m: nat)
    requires m < |calls| == |g.met| && g.tool in g.registry
  {
    Admits(g.met[m], g.tool, g.registry[g.tool], calls[m].approvalId)
  }

  /** The step is a non-READ tool step: each of its attempts came to what the gate makes of it. */
  predicate GateDecides(h: Handlers, g: Gate, calls: seq<Call>) {
    && g.tool in g.registry && g.registry[g.tool] != Read && |g.met| == |calls|
    && forall m :: 0 <= m < |calls| ==>
         ResultOf(h, calls[m]) == AttemptWith(g.registry, g.met[m], g.tool, calls[m].approvalId, g.handler(m + 1), g.dump)
  }

  /** Every run of the handler is a call of its own in one history of the shared grant store. */
  predicate InLedger(g: Gate, calls: seq<Call>, actions: seq<GL.Action>, place: seq<nat>)
    requires |calls| == |g.met| && g.tool in g.registry
  {
    && |place| == |calls|
    && (forall m :: 0 <= m < |calls| && HandlerRan(g, calls, m) ==>
          place[m] < |GL.Run(actions).calls| &&
          GL.Run(actions).calls[place[m]] == PaidCall(g.tool, g.registry[g.tool], calls[m].approvalId))
    && (forall m, n :: 0 <= m < n < |calls| && HandlerRan(g, calls, m) && HandlerRan(g, calls, n) ==> place[m] != place[n])
  }

  function RunCount(g: Gate, calls: seq<Call>, n: nat): nat
    requires n <= |calls| == |g.met| && g.tool in g.registry
  {
    if n == 0 then 0 else RunCount(g, calls, n - 1) + if HandlerRan(g, calls, n - 1) then 1 else 0
  }

  /** The handler never runs in two attempts in a row. */
  lemma NeverTwiceInARow(h: Handlers, g: Gate, calls: seq<Call>, actions: seq<GL.Action>, place: seq<nat>, m: nat)
    requires GateDecides(h, g, calls) && Chained(h, calls) && InLedger(g, calls, actions, place)
    requires m + 1 < |calls| && HandlerRan(g, calls, m)
    ensures !HandlerRan(g, calls, m + 1)
  {
    assert Follows(h, calls[m], calls[m + 1]) && !ResultOf(h, calls[m]).Waits?;
    assert calls[m + 1].approvalId == calls[m].approvalId;
    if HandlerRan(g, calls, m + 1) {
      GL.OneCallPerGrant(actions, calls[m].approvalId.value, place[m], place[m + 1]);
      assert false;
    }
  }

  lemma {:induction false} RunsAreSpread(h: Handlers, g: Gate, calls: seq<Call>, actions: seq<GL.Action>,
                                         place: seq<nat>, n: nat)
    requires GateDecides(h, g, calls) && Chained(h, calls) && InLedger(g, calls, actions, place)
    requires n <= |calls|
    ensures 2 * RunCount(g, calls, n) <= n + 1
    ensures n > 0 && !HandlerRan(g, calls, n - 1) ==> 2 * RunCount(g, calls, n) <= n
  {
    hide GateDecides, Chained, InLedger, HandlerRan;
    if n > 0 {
      GatedShape(h, g, calls);
      RunsAreSpread(h, g, calls, actions, place, n - 1);
      if n > 1 && HandlerRan(g, calls, n - 2) {
        NeverTwiceInARow(h, g, calls, actions, place, n - 2);
      }
    }
  }

  lemma GatedShape(h: Handlers, g: Gate, calls: seq<Call>)
    requires GateDecides(h, g, calls)
    ensures |g.met| == |calls| && g.tool in g.registry
  {
  }

  /**
   Refusals use up attempts: over a whole life, whatever is approved when, the handler of a gated
   step runs at most (max_retries + 2) / 2 times, rounded down.
   */
  lemma GatedHandlerRuns(defn: seq<WorkflowStep>, h: Handlers, context: map<string, Value>,
      hist: seq<RunState>, approvals: seq<map<string, string>>, k: nat, i: nat,
      g: Gate, actions: seq<GL.Action>, place: seq<nat>)
    requires Life(defn, h, context, hist, approvals) && k < |hist| && i < |defn|
    requires var calls := CallsOf(hist[k].calls, defn[i].id);
      GateDecides(h, g, calls) && InLedger(g, calls, actions, place)
    ensures var calls := CallsOf(hist[k].calls, defn[i].id);
      RunCount(g, calls, |calls|) <= (defn[i].maxRetries + 2) / 2
  {
    var calls := CallsOf(hist[k].calls, defn[i].id);
    LifeChained(defn, h, context, hist, approvals, k, i);
    LifeBudget(defn, h, context, hist, approvals, k, i);
    hide Life, CallsOf, GateDecides, InLedger;
    RunsAreSpread(h, g, calls, actions, place, |calls|);
  }
}
