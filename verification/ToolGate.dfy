/**
 The approval gate in front of every consequential call: policy (app/tools/policy.py),
 executor and audit (app/tools/executor.py), and the workflow's tool step
 (app/workflows/handlers.py).
 */
module ToolGate {
  import opened Common
  import opened Approvals
  import opened WorkflowModels
  import opened WorkflowSemantics

  datatype Risk = Read | Write | HighRisk

  /** A handler or provider call, with the grant that paid for it. */
  datatype PaidCall = PaidCall(name: string, risk: Risk, paidBy: Option<string>)

  /** History of the handler and provider calls made. */
  class Outside {
    ghost var calls: seq<PaidCall>

    constructor ()
      ensures calls == []
    {
      calls := [];
    }
  }

  // ---- audit ----------------------------------------------------------------------------

  datatype AuditEvent = AuditEvent(tool: string, success: bool, risk: Risk, approvalRequired: bool, error: Option<string>)

  /** The slice [-n:] of the log: for n = 0 it is everything, for a negative n it drops from the front. */
  function LastOnes(events: seq<AuditEvent>, n: int): seq<AuditEvent> {
    if n == 0 || n >= |events| then events
    else if n > 0 then events[|events| - n..]
    else if -n <= |events| then events[-n..] else []
  }

  function Trimmed(events: seq<AuditEvent>, maxEvents: int): seq<AuditEvent> {
    if |events| <= maxEvents then events else LastOnes(events, maxEvents)
  }

  /** The log after a history of records. */
  function Logged(history: seq<AuditEvent>, maxEvents: int): seq<AuditEvent> {
    if history == [] then []
    else Trimmed(Logged(history[..|history| - 1], maxEvents) + [history[|history| - 1]], maxEvents)
  }

  /** With a positive limit the log holds the newest events, as many as the limit allows. */
  lemma {:induction false} LogKeepsNewest(history: seq<AuditEvent>, maxEvents: int)
    requires maxEvents >= 1
    ensures Logged(history, maxEvents) ==
      if |history| <= maxEvents then history else history[|history| - maxEvents..]
  {
    if history != [] {
      var n := |history| - 1;
      LogKeepsNewest(history[..n], maxEvents);
      assert history[..n] + [history[n]] == history;
    }
  }

  /** With a limit of zero nothing is ever dropped. */
  lemma {:induction false} LogGrowsAtZero(history: seq<AuditEvent>)
    ensures Logged(history, 0) == history
  {
    if history != [] {
      LogGrowsAtZero(history[..|history| - 1]);
    }
  }

  /** After any record the log is within its limit exactly when that limit is positive. */
  lemma LogWithinLimitExactly(history: seq<AuditEvent>, maxEvents: int)
    requires history != []
    ensures |Logged(history, maxEvents)| <= maxEvents <==> maxEvents >= 1
  {
    if maxEvents >= 1 {
      LogKeepsNewest(history, maxEvents);
    } else if maxEvents == 0 {
      LogGrowsAtZero(history);
    }
  }

  class AuditLog {
    const maxEvents: int
    var events: seq<AuditEvent>

    constructor (maxEvents: int)
      ensures this.maxEvents == maxEvents && events == []
    {
      this.maxEvents, events := maxEvents, [];
    }

    method Record(e: AuditEvent)
      modifies this
      ensures events == Trimmed(old(events) + [e], maxEvents)
      ensures forall history {:trigger Logged(history, maxEvents)} ::
        old(events) == Logged(history, maxEvents) ==> events == Logged(history + [e], maxEvents)
    {
      ghost var was := events;
      events := events + [e];
      if |events| > maxEvents {
        events := LastOnes(events, maxEvents);
      }
      forall history | was == Logged(history, maxEvents)
        ensures events == Logged(history + [e], maxEvents)
      {
        assert (history + [e])[..|history|] == history;
      }
    }
  }

  // ---- policy ---------------------------------------------------------------------------

  datatype Decision = Decision(allowed: bool, approvalRequired: bool, error: Option<string>)

  /** The grant presented is live and was issued for exactly this name. */
  predicate Presents(grants: map<string, Grant>, name: string, approvalId: Option<string>) {
    approvalId.Some? && approvalId.value != "" && approvalId.value in grants && grants[approvalId.value].tool == name
  }

  predicate Admits(grants: map<string, Grant>, name: string, risk: Risk, approvalId: Option<string>) {
    risk == Read || Presents(grants, name, approvalId)
  }

  /** Only an admitted call that is not READ uses up a grant, and only the one presented. */
  function GrantsAfter(grants: map<string, Grant>, name: string, risk: Risk, approvalId: Option<string>): map<string, Grant> {
    if risk != Read && Presents(grants, name, approvalId) then grants - {approvalId.value} else grants
  }

  /** The shared store's live grants and the calls made so far. */
  datatype Books = Books(live: map<string, Grant>, calls: seq<PaidCall>)

  /** What one gated request does to the books; `made` says whether a let-through request makes its call. */
  function Gated(b: Books, name: string, risk: Risk, approvalId: Option<string>, made: bool): Books {
    if !Admits(b.live, name, risk, approvalId) then b
    else Books(GrantsAfter(b.live, name, risk, approvalId),
               b.calls + if made then [PaidCall(name, risk, Payment(risk, approvalId))] else [])
  }

  /** The same request made n times. */
  function GatedTimes(b: Books, name: string, risk: Risk, approvalId: Option<string>, n: nat): Books {
    if n == 0 then b else Gated(GatedTimes(b, name, risk, approvalId, n - 1), name, risk, approvalId, true)
  }

  function RefusalReason(approvalId: Option<string>): string {
    if approvalId.None? || approvalId.value == "" then "Trusted approval required" else "Invalid or expired approval"
  }

  function Payment(risk: Risk, approvalId: Option<string>): Option<string> {
    if risk == Read then None else approvalId
  }

  class ToolPolicy {
    const approvals: InMemoryApprovalStore

    constructor (approvals: InMemoryApprovalStore)
      ensures this.approvals == approvals
    {
      this.approvals := approvals;
    }

    method Authorize(name: string, risk: Risk, approvalId: Option<string>) returns (d: Decision)
      modifies approvals
      ensures d.allowed == Admits(old(approvals.grants), name, risk, approvalId)
      ensures approvals.grants == GrantsAfter(old(approvals.grants), name, risk, approvalId)
      ensures d.approvalRequired == !d.allowed
      ensures d.error == if d.allowed then None else Some(RefusalReason(approvalId))
      ensures risk == Read ==> d == Decision(true, false, None) && approvals.grants == old(approvals.grants)
      ensures risk != Read ==>
        var grants := old(approvals.grants);
        && (d.allowed <==>
              (approvalId.Some? && approvalId.value != "" && approvalId.value in grants && grants[approvalId.value].tool == name))
        && approvals.grants == (if d.allowed then grants - {approvalId.value} else grants)
        && (!d.allowed && (approvalId.None? || approvalId.value == "") ==> d.error == Some("Trusted approval required"))
        && (!d.allowed && approvalId.Some? && approvalId.value != "" ==> d.error == Some("Invalid or expired approval"))
    {
      if risk == Read {
        return Decision(true, false, None);
      }
      if approvalId.None? || approvalId.value == "" {
        return Decision(false, true, Some("Trusted approval required"));
      }
      var grant := approvals.Consume(approvalId.value, name);
      if grant.None? {
        return Decision(false, true, Some("Invalid or expired approval"));
      }
      return Decision(true, false, None);
    }
  }

  // ---- executor -------------------------------------------------------------------------

  datatype HandlerOutcome = Produced(output: Value) | Threw(message: string)

  datatype ToolResult = ToolResult(
    tool: string,
    success: bool,
    risk: Risk,
    output: Value,
    error: Option<string>,
    approvalRequired: bool)

  function EventOf(r: ToolResult): AuditEvent {
    AuditEvent(r.tool, r.success, r.risk, r.approvalRequired, r.error)
  }

  /** The result of a request that the gate refused. */
  function Refusal(tool: string, risk: Risk, approvalId: Option<string>): ToolResult {
    ToolResult(tool, false, risk, Null, Some(RefusalReason(approvalId)), true)
  }

  class ToolExecutor {
    const registry: map<string, Risk>
    const policy: ToolPolicy
    const audit: AuditLog
    const outside: Outside

    constructor (registry: map<string, Risk>, policy: ToolPolicy, audit: AuditLog, outside: Outside)
      ensures this.registry == registry && this.policy == policy && this.audit == audit && this.outside == outside
    {
      this.registry, this.policy, this.audit, this.outside := registry, policy, audit, outside;
    }

    ghost function Ledger(): Books
      reads policy.approvals, outside
    {
      Books(policy.approvals.grants, outside.calls)
    }

    /** The tool is registered and the policy lets it through now. */
    predicate Passes(tool: string, approvalId: Option<string>)
      reads policy.approvals
    {
      tool in registry && Admits(policy.approvals.grants, tool, registry[tool], approvalId)
    }

    /** Looks up, authorises, runs, audits: the handler runs exactly when the gate lets it, and is paid for. */
    method Execute(tool: string, approvalId: Option<string>, handler: HandlerOutcome) returns (r: ToolResult)
      modifies policy.approvals, audit, outside
      ensures Ledger() ==
        if tool in registry then Gated(old(Ledger()), tool, registry[tool], approvalId, true) else old(Ledger())
      ensures audit.events == Trimmed(old(audit.events) + [EventOf(r)], audit.maxEvents)
      ensures r.tool == tool && r.risk == if tool in registry then registry[tool] else HighRisk
      ensures r.success == (old(Passes(tool, approvalId)) && handler.Produced?)
      ensures r.success ==> r.output == handler.output
      ensures r.approvalRequired == (tool in registry && !old(Passes(tool, approvalId)))
      ensures r.error.Some? <==> !r.success
      ensures r.approvalRequired ==> r == Refusal(tool, registry[tool], approvalId)
      ensures tool !in registry ==> r.error == Some("'Unknown tool: " + tool + "'")
      ensures old(Passes(tool, approvalId)) && handler.Threw? ==> r.error == Some(handler.message)
      ensures audit.events ==
        Trimmed(old(audit.events) + [AuditEvent(r.tool, r.success, r.risk, r.approvalRequired, r.error)], audit.maxEvents)
      ensures tool !in registry ==>
        !r.success && !r.approvalRequired && outside.calls == old(outside.calls) &&
        policy.approvals.grants == old(policy.approvals.grants)
      ensures tool in registry && registry[tool] == Read ==>
        && !r.approvalRequired && (r.success <==> handler.Produced?) && policy.approvals.grants == old(policy.approvals.grants)
        && outside.calls == old(outside.calls) + [PaidCall(tool, Read, None)]
      ensures tool in registry && registry[tool] != Read ==>
        var grants := old(policy.approvals.grants);
        if approvalId.Some? && approvalId.value != "" && approvalId.value in grants && grants[approvalId.value].tool == tool
        then !r.approvalRequired && (r.success <==> handler.Produced?) &&
             policy.approvals.grants == grants - {approvalId.value} &&
             outside.calls == old(outside.calls) + [PaidCall(tool, registry[tool], approvalId)]
        else r.approvalRequired && !r.success && policy.approvals.grants == grants && outside.calls == old(outside.calls)
    {
      if tool !in registry {
        r := ToolResult(tool, false, HighRisk, Null, Some("'Unknown tool: " + tool + "'"), false);
        audit.Record(EventOf(r));
        return;
      }
      var risk := registry[tool];
      var decision := policy.Authorize(tool, risk, approvalId);
      if !decision.allowed {
        r := ToolResult(tool, false, risk, Null, decision.error, decision.approvalRequired);
        audit.Record(EventOf(r));
        return;
      }
      outside.calls := outside.calls + [PaidCall(tool, risk, Payment(risk, approvalId))];
      match handler {
        case Produced(output) => r := ToolResult(tool, true, risk, output, None, false);
        case Threw(message) => r := ToolResult(tool, false, risk, Null, Some(message), false);
      }
      audit.Record(EventOf(r));
    }
  }

  // ---- the workflow's tool step ---------------------------------------------------------

  /** What an attempt of a tool step comes to with these grants; `dump` serialises a result. */
  function AttemptWith(registry: map<string, Risk>, grants: map<string, Grant>, tool: string, approvalId: Option<string>,
                       handler: HandlerOutcome, dump: ToolResult -> Value): AttemptResult
  {
    if tool !in registry then Raised("'Unknown tool: " + tool + "'")
    else if !Admits(grants, tool, registry[tool], approvalId) then Waits(dump(Refusal(tool, registry[tool], approvalId)))
    else
      match handler
      case Produced(output) => Returned(output)
      case Threw(message) => Raised(if message != "" then message else "Tool execution failed")
  }

  /**
   run_tool: approval required becomes waiting, any other failure a retryable exception, as is
   an input that names no tool by a string.
   */
  method RunTool(executor: ToolExecutor, input: Option<string>, approvalId: Option<string>, handler: HandlerOutcome,
                 dump: ToolResult -> Value)
    returns (a: AttemptResult)
    modifies executor.policy.approvals, executor.audit, executor.outside
    ensures a == if input.None? then Raised("Tool step requires input.tool")
                 else AttemptWith(executor.registry, old(executor.policy.approvals.grants), input.value, approvalId, handler, dump)
    ensures input.None? ==> a == Raised("Tool step requires input.tool")
    ensures input.Some? && input.value in executor.registry && executor.registry[input.value] == Read ==>
      if handler.Produced? then a == Returned(handler.output)
      else a == Raised(if handler.message != "" then handler.message else "Tool execution failed")
    ensures input.Some? && input.value in executor.registry && executor.registry[input.value] != Read ==>
      var grants := old(executor.policy.approvals.grants);
      if approvalId.Some? && approvalId.value != "" && approvalId.value in grants && grants[approvalId.value].tool == input.value
      then if handler.Produced? then a == Returned(handler.output)
           else a == Raised(if handler.message != "" then handler.message else "Tool execution failed")
      else exists why :: a == Waits(dump(ToolResult(input.value, false, executor.registry[input.value], Null, Some(why), true)))
    ensures executor.Ledger() ==
      if input.Some? && input.value in executor.registry
      then Gated(old(executor.Ledger()), input.value, executor.registry[input.value], approvalId, true)
      else old(executor.Ledger())
  {
    if input.None? {
      return Raised("Tool step requires input.tool");
    }
    var tool := input.value;
    var result := executor.Execute(tool, approvalId, handler);
    if result.approvalRequired {
      return Waits(dump(result));
    }
    if !result.success {
      return Raised(if result.error.value != "" then result.error.value else "Tool execution failed");
    }
    return Returned(result.output);
  }

  /**
   The handler a tool step presents to the engine: its first attempt, number `first`, meets the
   grants as they are, every later one the grants that are left after it.
   */
  function StepHandler(registry: map<string, Risk>, grants: map<string, Grant>, tool: string, approvalId: Option<string>,
                       first: nat, handler: nat -> HandlerOutcome, dump: ToolResult -> Value): Handlers
  {
    (id: string, n: nat, a: Option<string>) =>
      AttemptWith(registry, GrantsBefore(registry, grants, tool, approvalId, first, n), tool, approvalId, handler(n), dump)
  }

  function GrantsBefore(registry: map<string, Risk>, grants: map<string, Grant>, tool: string, approvalId: Option<string>,
                        first: nat, n: nat): map<string, Grant>
  {
    if n <= first || tool !in registry then grants else GrantsAfter(grants, tool, registry[tool], approvalId)
  }

  /**
   The retry loop of a tool step is the engine's, for the handler the gate makes of the tool;
   every attempt made is one gated request.
   */
  method ExecuteToolStep(step: WorkflowStep, s: StepRun, executor: ToolExecutor, tool: string,
                         handler: nat -> HandlerOutcome, dump: ToolResult -> Value)
    returns (r: StepRun)
    modifies executor.policy.approvals, executor.audit, executor.outside
    ensures r == Retried(step, s, StepHandler(executor.registry, old(executor.policy.approvals.grants), tool,
                                              s.approvalId, s.attempts + 1, handler, dump))
    ensures r.attempts >= s.attempts
    ensures executor.Ledger() ==
      if tool in executor.registry
      then GatedTimes(old(executor.Ledger()), tool, executor.registry[tool], s.approvalId, r.attempts - s.attempts)
      else old(executor.Ledger())
  {
    ghost var books := executor.Ledger();
    ghost var h := StepHandler(executor.registry, books.live, tool, s.approvalId, s.attempts + 1, handler, dump);
    r := s.(status := Running);
    var attempt := s.attempts + 1;
    while attempt <= step.maxRetries + 1
      invariant r.attempts == attempt - 1 >= s.attempts && r.status == Running && r.approvalId == s.approvalId
      invariant RetriedFrom(step, r, attempt, h) == Retried(step, s, h)
      invariant executor.Ledger() ==
        if tool in executor.registry
        then GatedTimes(books, tool, executor.registry[tool], s.approvalId, attempt - 1 - s.attempts) else books
    {
      if tool in executor.registry {
        GrantsOfTimes(executor.registry, books, tool, s.approvalId, s.attempts + 1, attempt);
      }
      r := r.(attempts := attempt);
      var result := RunTool(executor, Some(tool), s.approvalId, handler(attempt), dump);
      assert result == h(step.id, attempt, s.approvalId);
      match result {
        case Waits(value) =>
          r := r.(status := WaitingApproval, output := value, error := None);
          return;
        case Returned(value) =>
          r := r.(output := value, error := None, status := Completed);
          return;
        case Raised(message) =>
          r := r.(error := Some(message));
          if attempt > step.maxRetries {
            r := r.(status := Failed);
            return;
          }
      }
      attempt := attempt + 1;
    }
  }

  /** A second request with the same approval changes the grants no further. */
  lemma {:induction false} GrantsOfTimes(registry: map<string, Risk>, b: Books, tool: string, approvalId: Option<string>,
                                         first: nat, n: nat)
    requires tool in registry && n >= first
    ensures GatedTimes(b, tool, registry[tool], approvalId, n - first).live ==
      GrantsBefore(registry, b.live, tool, approvalId, first, n)
  {
    if n > first {
      GrantsOfTimes(registry, b, tool, approvalId, first, n - 1);
    }
  }

  /** However often a gated (non-READ) request is repeated with one approval, it makes at most one call. */
  lemma {:induction false} OneCallHoweverOften(b: Books, name: string, risk: Risk, approvalId: Option<string>, n: nat)
    requires risk != Read
    ensures GatedTimes(b, name, risk, approvalId, n) == if n == 0 then b else Gated(b, name, risk, approvalId, true)
  {
    if n > 0 {
      OneCallHoweverOften(b, name, risk, approvalId, n - 1);
    }
  }

  /**
   One grant pays for at most one handler call: if the paid attempt raises and attempts are
   left, the next one finds the grant used up and the step waits again instead of retrying.
   */
  lemma GatedStepRule(step: WorkflowStep, s: StepRun, registry: map<string, Risk>, grants: map<string, Grant>,
                      tool: string, handler: nat -> HandlerOutcome, dump: ToolResult -> Value)
    requires tool in registry && registry[tool] != Read && s.attempts <= step.maxRetries
    ensures var n := s.attempts + 1;
      var r := Retried(step, s, StepHandler(registry, grants, tool, s.approvalId, n, handler, dump));
      var waiting := s.(status := WaitingApproval, error := None, output := dump(Refusal(tool, registry[tool], s.approvalId)));
      r == if !Presents(grants, tool, s.approvalId) then waiting.(attempts := n)
           else if handler(n).Produced? then s.(status := Completed, attempts := n, error := None, output := handler(n).output)
           else if s.attempts < step.maxRetries then waiting.(attempts := n + 1)
           else s.(status := Failed, attempts := n,
                   error := Some(if handler(n).message != "" then handler(n).message else "Tool execution failed"))
  {
    var n := s.attempts + 1;
    var h := StepHandler(registry, grants, tool, s.approvalId, n, handler, dump);
    var running := s.(status := Running);
    assert h(step.id, n, s.approvalId) == AttemptWith(registry, grants, tool, s.approvalId, handler(n), dump);
    var left := GrantsBefore(registry, grants, tool, s.approvalId, n, n + 1);
    assert left == GrantsAfter(grants, tool, registry[tool], s.approvalId);
    assert !Presents(left, tool, s.approvalId);
    assert h(step.id, n + 1, s.approvalId) == AttemptWith(registry, left, tool, s.approvalId, handler(n + 1), dump);
    assert h(step.id, n + 1, s.approvalId) == Waits(dump(Refusal(tool, registry[tool], s.approvalId)));
    if !h(step.id, n, s.approvalId).Raised? {
      RetriedFromReturns(step, running, n, n, h);
      assert Retried(step, s, h) == Concluded(step, running, n, h(step.id, n, s.approvalId));
    } else if s.attempts < step.maxRetries {
      RetriedFromReturns(step, running, n, n + 1, h);
    } else {
      RetriedFromExhausts(step, running, n, h);
    }
  }
}
