/**
 The connector broker (app/integrations/broker.py): capability to connector, under policy
 and audit. The catalogue, the configuration and the provider call are parameters.
 */
module Broker {
  import opened Common
  import opened WorkflowModels
  import opened ToolGate

  datatype ConnectorSpec = ConnectorSpec(id: string, implemented: bool, infrastructure: bool, capabilities: set<string>)

  /** Whether a provider is configured, and the environment variables it needs. */
  datatype Provider = Provider(configured: bool, needed: seq<string>)

  // ---- order on connector ids -----------------------------------------------------------

  /** The code-point order of strings. */
  predicate AtMost(a: string, b: string) {
    a == [] || (b != [] && (a[0] < b[0] || (a[0] == b[0] && AtMost(a[1..], b[1..]))))
  }

  lemma {:induction false} AtMostTotal(a: string, b: string)
    ensures AtMost(a, b) || AtMost(b, a)
    ensures AtMost(a, b) && AtMost(b, a) ==> a == b
  {
    if a != [] && b != [] && a[0] == b[0] {
      AtMostTotal(a[1..], b[1..]);
      assert a == [a[0]] + a[1..] && b == [b[0]] + b[1..];
    }
  }

  lemma {:induction false} AtMostTransitive(a: string, b: string, c: string)
    requires AtMost(a, b) && AtMost(b, c)
    ensures AtMost(a, c)
  {
    if a != [] && a[0] == b[0] && b[0] == c[0] {
      AtMostTransitive(a[1..], b[1..], c[1..]);
    }
  }

  /**
   The order is the one of dictionaries: a prefix comes before its extensions, and otherwise the
   first character that differs decides. Together with AtMostTotal this determines it.
   */
  lemma {:induction false} AtMostMeaning(common: string, a: string, b: string)
    ensures AtMost(common, common + b)
    ensures a != "" && b != "" && a[0] < b[0] ==> AtMost(common + a, common + b) && !AtMost(common + b, common + a)
  {
    if common == "" {
      assert common + a == a && common + b == b;
    } else {
      AtMostMeaning(common[1..], a, b);
      assert (common + a)[1..] == common[1..] + a && (common + b)[1..] == common[1..] + b;
    }
  }

  /** Configured connectors first, then by id. */
  predicate Before(providers: map<string, Provider>, a: string, b: string) {
    if Configured(providers, a) != Configured(providers, b) then Configured(providers, a) else AtMost(a, b)
  }

  predicate Configured(providers: map<string, Provider>, id: string) {
    id in providers && providers[id].configured
  }

  function Requirements(providers: map<string, Provider>, id: string): seq<string> {
    if id in providers then providers[id].needed else []
  }

  function Insert(providers: map<string, Provider>, id: string, sorted: seq<string>): seq<string> {
    if sorted == [] || Before(providers, id, sorted[0]) then [id] + sorted
    else [sorted[0]] + Insert(providers, id, sorted[1..])
  }

  function Sort(providers: map<string, Provider>, ids: seq<string>): seq<string> {
    if ids == [] then [] else Insert(providers, ids[0], Sort(providers, ids[1..]))
  }

  predicate Ordered(providers: map<string, Provider>, ids: seq<string>) {
    forall i, j :: 0 <= i < j < |ids| ==> Before(providers, ids[i], ids[j])
  }

  lemma BeforeTransitive(providers: map<string, Provider>, a: string, b: string, c: string)
    requires Before(providers, a, b) && Before(providers, b, c)
    ensures Before(providers, a, c)
  {
    if AtMost(a, b) && AtMost(b, c) {
      AtMostTransitive(a, b, c);
    }
  }

  lemma BeforeTotal(providers: map<string, Provider>, a: string, b: string)
    ensures Before(providers, a, b) || Before(providers, b, a)
  {
    AtMostTotal(a, b);
  }

  lemma {:induction false} InsertKeeps(providers: map<string, Provider>, id: string, sorted: seq<string>)
    ensures multiset(Insert(providers, id, sorted)) == multiset{id} + multiset(sorted)
  {
    if sorted != [] && !Before(providers, id, sorted[0]) {
      InsertKeeps(providers, id, sorted[1..]);
      assert sorted == [sorted[0]] + sorted[1..];
    }
  }

  lemma OrderedCons(providers: map<string, Provider>, x: string, rest: seq<string>)
    requires Ordered(providers, rest) && forall y :: y in rest ==> Before(providers, x, y)
    ensures Ordered(providers, [x] + rest)
  {
    hide Before;
    var r := [x] + rest;
    forall i, j | 0 <= i < j < |r|
      ensures Before(providers, r[i], r[j])
    {
      assert r[j] == rest[j - 1];
      if i > 0 {
        assert Before(providers, rest[i - 1], rest[j - 1]);
      }
    }
  }

  lemma {:induction false} InsertOrders(providers: map<string, Provider>, id: string, sorted: seq<string>)
    requires Ordered(providers, sorted)
    ensures Ordered(providers, Insert(providers, id, sorted))
  {
    hide Before;
    if sorted != [] {
      var head, tail := sorted[0], sorted[1..];
      assert Ordered(providers, tail) && forall y :: y in tail ==> Before(providers, head, y) by {
        assert forall j :: 0 <= j < |tail| ==> tail[j] == sorted[j + 1];
      }
      if Before(providers, id, head) {
        forall y | y in sorted
          ensures Before(providers, id, y)
        {
          if y != head {
            assert y in tail;
            BeforeTransitive(providers, id, head, y);
          }
        }
        OrderedCons(providers, id, sorted);
      } else {
        BeforeTotal(providers, id, head);
        InsertOrders(providers, id, tail);
        InsertKeeps(providers, id, tail);
        var rest := Insert(providers, id, tail);
        forall y | y in rest
          ensures Before(providers, head, y)
        {
          assert y in multiset(rest);
        }
        OrderedCons(providers, head, rest);
      }
    }
  }

  lemma {:induction false} SortOrders(providers: map<string, Provider>, ids: seq<string>)
    ensures Ordered(providers, Sort(providers, ids)) && multiset(Sort(providers, ids)) == multiset(ids)
  {
    if ids != [] {
      SortOrders(providers, ids[1..]);
      InsertOrders(providers, ids[0], Sort(providers, ids[1..]));
      InsertKeeps(providers, ids[0], Sort(providers, ids[1..]));
      assert ids == [ids[0]] + ids[1..];
    }
  }

  // ---- routing --------------------------------------------------------------------------

  /** Implemented, not infrastructure, and declaring the capability. */
  predicate Serves(spec: ConnectorSpec, capability: string) {
    spec.implemented && !spec.infrastructure && capability in spec.capabilities
  }

  function Candidates(catalog: seq<ConnectorSpec>, capability: string): seq<string> {
    if catalog == [] then []
    else (if Serves(catalog[0], capability) then [catalog[0].id] else []) + Candidates(catalog[1..], capability)
  }

  predicate CanServe(catalog: seq<ConnectorSpec>, capability: string, id: string) {
    exists i :: 0 <= i < |catalog| && catalog[i].id == id &&
                catalog[i].implemented && !catalog[i].infrastructure && capability in catalog[i].capabilities
  }

  lemma {:induction false} CandidatesServe(catalog: seq<ConnectorSpec>, capability: string, id: string)
    ensures id in Candidates(catalog, capability) <==> CanServe(catalog, capability, id)
  {
    if catalog != [] {
      CandidatesServe(catalog[1..], capability, id);
      if CanServe(catalog[1..], capability, id) {
        var i :| 0 <= i < |catalog| - 1 && Serves(catalog[1..][i], capability) && catalog[1..][i].id == id;
        assert catalog[i + 1].id == id;
      }
      if CanServe(catalog, capability, id) && !(Serves(catalog[0], capability) && catalog[0].id == id) {
        var i :| 0 <= i < |catalog| && Serves(catalog[i], capability) && catalog[i].id == id;
        assert catalog[1..][i - 1].id == id;
      }
    }
  }

  function ProvidersFor(catalog: seq<ConnectorSpec>, providers: map<string, Provider>, capability: string): seq<string> {
    Sort(providers, Candidates(catalog, capability))
  }

  /**
   The first provider serves the capability; it is configured whenever any serving connector
   is, and it has the least id of those that are configured like it.
   */
  lemma RoutingRule(catalog: seq<ConnectorSpec>, providers: map<string, Provider>, capability: string)
    ensures var ps := ProvidersFor(catalog, providers, capability);
      && (ps == [] <==> forall id :: !CanServe(catalog, capability, id))
      && (ps != [] ==> CanServe(catalog, capability, ps[0]))
      && (ps != [] ==> forall id :: CanServe(catalog, capability, id) ==>
            (Configured(providers, id) ==> Configured(providers, ps[0])) &&
            (Configured(providers, id) == Configured(providers, ps[0]) ==> AtMost(ps[0], id)))
  {
    var cs := Candidates(catalog, capability);
    var ps := ProvidersFor(catalog, providers, capability);
    SortOrders(providers, cs);
    forall id
      ensures id in ps <==> CanServe(catalog, capability, id)
    {
      CandidatesServe(catalog, capability, id);
      assert id in ps <==> id in multiset(ps);
      assert id in cs <==> id in multiset(cs);
    }
    if ps != [] {
      assert ps[0] in ps;
      forall id | CanServe(catalog, capability, id)
        ensures Configured(providers, id) ==> Configured(providers, ps[0])
        ensures Configured(providers, id) == Configured(providers, ps[0]) ==> AtMost(ps[0], id)
      {
        assert id in ps;
        var k :| 0 <= k < |ps| && ps[k] == id;
        if k > 0 {
          assert Before(providers, ps[0], ps[k]);
        } else {
          AtMostTotal(id, id);
        }
      }
    }
  }

  // ---- the broker -----------------------------------------------------------------------

  datatype Outcome = OK | UnknownCapability | NoProvider | NotConnected | ApprovalRequired | ProviderError

  datatype BrokerResult = BrokerResult(
    outcome: Outcome,
    capability: string,
    connector: Option<string>,
    risk: Risk,
    output: Value,
    error: Option<string>,
    missing: seq<string>)

  /** What a provider call does; NotWired is raised when the adapter has no such operation. */
  datatype Performed = Output(value: Value) | NotWired(message: string) | Failed(message: string)

  class ConnectorBroker {
    const capabilities: map<string, Risk>
    const catalog: seq<ConnectorSpec>
    const providers: map<string, Provider>
    const policy: ToolPolicy
    const audit: AuditLog
    const outside: Outside
    /** None when no operation was injected. */
    const perform: Option<(string, string) -> Performed>

    constructor (capabilities: map<string, Risk>, catalog: seq<ConnectorSpec>, providers: map<string, Provider>,
                 policy: ToolPolicy, audit: AuditLog, outside: Outside, perform: Option<(string, string) -> Performed>)
      ensures this.capabilities == capabilities && this.catalog == catalog && this.providers == providers
      ensures this.policy == policy && this.audit == audit && this.outside == outside && this.perform == perform
    {
      this.capabilities, this.catalog, this.providers := capabilities, catalog, providers;
      this.policy, this.audit, this.outside, this.perform := policy, audit, outside, perform;
    }

    /** The connector a known capability is routed to, when one serves it and it is configured. */
    function Route(capability: string): Option<string> {
      var ps := ProvidersFor(catalog, providers, capability);
      if capability in capabilities && ps != [] && Configured(providers, ps[0]) then Some(ps[0]) else None
    }

    ghost function Ledger(): Books
      reads policy.approvals, outside
    {
      Books(policy.approvals.grants, outside.calls)
    }

    predicate Passes(capability: string, approvalId: Option<string>)
      reads policy.approvals
    {
      Route(capability).Some? && Admits(policy.approvals.grants, capability, capabilities[capability], approvalId)
    }

    function EventOf(r: BrokerResult): AuditEvent {
      AuditEvent(r.capability, r.outcome == OK, r.risk, r.outcome == ApprovalRequired, r.error)
    }

    /** How a request ends once it has been let through. */
    function OutcomeOf(capability: string, connector: string): Outcome {
      if perform.None? || perform.value(connector, capability).NotWired? then NoProvider
      else if perform.value(connector, capability).Failed? then ProviderError
      else OK
    }

    method Finish(r: BrokerResult)
      modifies audit
      ensures audit.events == Trimmed(old(audit.events) +
        [AuditEvent(r.capability, r.outcome == OK, r.risk, r.outcome == ApprovalRequired, r.error)], audit.maxEvents)
    {
      audit.Record(EventOf(r));
    }

    /** The provider call, once the policy has let it through. */
    method Invoke(capability: string, risk: Risk, connector: string, ghost payment: Option<string>) returns (r: BrokerResult)
      modifies audit, outside
      ensures r.capability == capability && r.connector == Some(connector) && r.risk == risk && r.missing == []
      ensures outside.calls == old(outside.calls) + if perform.Some? then [PaidCall(capability, risk, payment)] else []
      ensures audit.events == Trimmed(old(audit.events) +
        [AuditEvent(r.capability, r.outcome == OK, r.risk, r.outcome == ApprovalRequired, r.error)], audit.maxEvents)
      ensures r.outcome == OutcomeOf(capability, connector)
      ensures r.outcome == OK ==> r.output == perform.value(connector, capability).value
      ensures perform.None? ==> r.outcome == NoProvider
      ensures perform.Some? ==>
        match perform.value(connector, capability)
        case NotWired(message) => r.outcome == NoProvider && r.error == Some(message)
        case Failed(message) => r.outcome == ProviderError && r.error == Some(message)
        case Output(value) => r.outcome == OK && r.output == value
      ensures r.error.Some? <==> r.outcome != OK
    {
      if perform.None? {
        r := BrokerResult(NoProvider, capability, Some(connector), risk, Null,
                          Some(connector + " has no operation wired for " + capability + " yet."), []);
        Finish(r);
        return;
      }
      outside.calls := outside.calls + [PaidCall(capability, risk, payment)];
      match perform.value(connector, capability) {
        case NotWired(message) => r := BrokerResult(NoProvider, capability, Some(connector), risk, Null, Some(message), []);
        case Failed(message) => r := BrokerResult(ProviderError, capability, Some(connector), risk, Null, Some(message), []);
        case Output(value) => r := BrokerResult(OK, capability, Some(connector), risk, value, None, []);
      }
      Finish(r);
    }

    /**
     Every request ends in exactly one audited outcome. A refusal before the policy step leaves
     every grant alone; the provider is called exactly when the policy lets the request through.
     */
    method Execute(capability: string, approvalId: Option<string>) returns (r: BrokerResult)
      modifies policy.approvals, audit, outside
      ensures r.capability == capability
      ensures r.risk == if capability in capabilities then capabilities[capability] else HighRisk
      ensures audit.events == Trimmed(old(audit.events) +
        [AuditEvent(r.capability, r.outcome == OK, r.risk, r.outcome == ApprovalRequired, r.error)], audit.maxEvents)
      ensures r.outcome == UnknownCapability <==> capability !in capabilities
      ensures r.outcome == NotConnected <==>
        (capability in capabilities && ProvidersFor(catalog, providers, capability) != [] && Route(capability).None?)
      ensures r.outcome == NotConnected ==>
        && r.connector == Some(ProvidersFor(catalog, providers, capability)[0])
        && r.missing == if r.connector.value in providers then providers[r.connector.value].needed else []
      ensures capability in capabilities && ProvidersFor(catalog, providers, capability) == [] ==>
        r.outcome == NoProvider && r.connector == None
      ensures r.outcome == ApprovalRequired <==> Route(capability).Some? && !old(Passes(capability, approvalId))
      ensures Route(capability).Some? ==> r.connector == Route(capability)
      ensures r.outcome in {OK, ProviderError} ==> old(Passes(capability, approvalId))
      ensures old(Passes(capability, approvalId)) ==> r.outcome == OutcomeOf(capability, Route(capability).value)
      ensures old(Passes(capability, approvalId)) && perform.None? ==> r.outcome == NoProvider
      ensures old(Passes(capability, approvalId)) && perform.Some? ==>
        match perform.value(Route(capability).value, capability)
        case NotWired(message) => r.outcome == NoProvider && r.error == Some(message)
        case Failed(message) => r.outcome == ProviderError && r.error == Some(message)
        case Output(value) => r.outcome == OK && r.output == value
      ensures Route(capability).Some? && capabilities[capability] == Read ==>
        r.outcome != ApprovalRequired && policy.approvals.grants == old(policy.approvals.grants)
      ensures Route(capability).Some? && capabilities[capability] != Read ==>
        var grants := old(policy.approvals.grants);
        if approvalId.Some? && approvalId.value != "" && approvalId.value in grants && grants[approvalId.value].tool == capability
        then r.outcome != ApprovalRequired && policy.approvals.grants == grants - {approvalId.value}
        else r.outcome == ApprovalRequired && policy.approvals.grants == grants && outside.calls == old(outside.calls)
      ensures Ledger() ==
        if Route(capability).Some?
        then Gated(old(Ledger()), capability, capabilities[capability], approvalId, perform.Some?) else old(Ledger())
    {
      if capability !in capabilities {
        r := BrokerResult(UnknownCapability, capability, None, HighRisk, Null, Some("Unknown capability: " + capability), []);
        Finish(r);
        return;
      }
      var risk := capabilities[capability];
      var candidates := ProvidersFor(catalog, providers, capability);
      if candidates == [] {
        r := BrokerResult(NoProvider, capability, None, risk, Null, Some("No connector implements " + capability), []);
        Finish(r);
        return;
      }
      var connector := candidates[0];
      if !Configured(providers, connector) {
        r := BrokerResult(NotConnected, capability, Some(connector), risk, Null, Some(connector + " is not configured"),
                          Requirements(providers, connector));
        Finish(r);
        return;
      }
      var decision := policy.Authorize(capability, risk, approvalId);
      if !decision.allowed {
        r := BrokerResult(ApprovalRequired, capability, Some(connector), risk, Null, decision.error, []);
        Finish(r);
        return;
      }
      r := Invoke(capability, risk, connector, Payment(risk, approvalId));
    }

    /** A connector takes a request exactly when it serves the capability, is configured and comes first by id. */
    lemma RouteMeaning(capability: string, id: string)
      requires capability in capabilities
      ensures Route(capability) == Some(id) <==>
        && CanServe(catalog, capability, id) && id in providers && providers[id].configured
        && forall other :: CanServe(catalog, capability, other) && other in providers && providers[other].configured ==>
             AtMost(id, other)
    {
      RoutingRule(catalog, providers, capability);
      if Route(capability).Some? {
        AtMostTotal(id, Route(capability).value);
      }
    }

    /** A refusal as not connected means that no serving connector at all is configured. */
    lemma NotConnectedMeansNoneConfigured(capability: string)
      requires ProvidersFor(catalog, providers, capability) != [] && capability in capabilities
      ensures Route(capability).None? <==>
        forall id :: CanServe(catalog, capability, id) ==> !Configured(providers, id)
    {
      RoutingRule(catalog, providers, capability);
    }
  }
}
