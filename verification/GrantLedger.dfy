/**
 The accounting of approvals over whole histories: tools, connectors and retrying workflow
 steps share one store, and authorisation and invocation of different callers interleave.
 */
module GrantLedger {
  import opened Common
  import opened Approvals
  import opened ToolGate

  /**
   `issued` remembers every grant ever issued, `cleared` the callers that were let through and
   have not invoked their handler yet, `calls` the invocations made.
   */
  datatype Ledger = Ledger(
    live: map<string, Grant>,
    issued: map<string, Grant>,
    cleared: map<nat, PaidCall>,
    calls: seq<PaidCall>)

  datatype Action =
    | Issue(grant: Grant)
    | Authorize(caller: nat, name: string, risk: Risk, approvalId: Option<string>)
    | Invoke(caller: nat)
    | Abandon(caller: nat)

  const Empty := Ledger(map[], map[], map[], [])

  /** Grant identifiers are fresh, and a caller asks again only after it has used its clearance. */
  predicate Enabled(l: Ledger, a: Action) {
    match a
    case Issue(g) => g.id !in l.issued
    case Authorize(caller, _, _, _) => caller !in l.cleared
    case Invoke(caller) => caller in l.cleared
    case Abandon(caller) => caller in l.cleared
  }

  function Step(l: Ledger, a: Action): Ledger {
    if !Enabled(l, a) then l
    else
      match a
      case Issue(g) => l.(live := l.live[g.id := g], issued := l.issued[g.id := g])
      case Authorize(caller, name, risk, approvalId) =>
        if Admits(l.live, name, risk, approvalId)
        then l.(live := GrantsAfter(l.live, name, risk, approvalId),
                cleared := l.cleared[caller := PaidCall(name, risk, Payment(risk, approvalId))])
        else l
      case Invoke(caller) => l.(cleared := l.cleared - {caller}, calls := l.calls + [l.cleared[caller]])
      case Abandon(caller) => l.(cleared := l.cleared - {caller})
  }

  function RunFrom(l: Ledger, actions: seq<Action>): Ledger {
    if actions == [] then l else Step(RunFrom(l, actions[..|actions| - 1]), actions[|actions| - 1])
  }

  function Run(actions: seq<Action>): Ledger {
    RunFrom(Empty, actions)
  }

  /** READ is free; anything else was paid for by a spent grant issued for exactly this name. */
  predicate PaidFor(l: Ledger, c: PaidCall) {
    if c.risk == Read then c.paidBy == None
    else c.paidBy.Some? && c.paidBy.value in l.issued && l.issued[c.paidBy.value].tool == c.name &&
         c.paidBy.value !in l.live
  }

  predicate SamePayment(c: PaidCall, d: PaidCall) {
    c.paidBy.Some? && c.paidBy == d.paidBy
  }

  predicate Balanced(l: Ledger) {
    && (forall g :: g in l.live ==> g in l.issued && l.issued[g] == l.live[g])
    && (forall i :: 0 <= i < |l.calls| ==> PaidFor(l, l.calls[i]))
    && (forall p :: p in l.cleared ==> PaidFor(l, l.cleared[p]))
    && (forall i, j :: 0 <= i < j < |l.calls| ==> !SamePayment(l.calls[i], l.calls[j]))
    && (forall p, q :: p in l.cleared && q in l.cleared && p != q ==> !SamePayment(l.cleared[p], l.cleared[q]))
    && (forall i, p :: 0 <= i < |l.calls| && p in l.cleared ==> !SamePayment(l.calls[i], l.cleared[p]))
  }

  lemma AuthorizeKeepsBalance(l: Ledger, caller: nat, name: string, risk: Risk, approvalId: Option<string>)
    requires Balanced(l) && caller !in l.cleared
    ensures Balanced(Step(l, Authorize(caller, name, risk, approvalId)))
  {
  }

  lemma InvokeKeepsBalance(l: Ledger, caller: nat)
    requires Balanced(l) && caller in l.cleared
    ensures Balanced(Step(l, Invoke(caller)))
  {
    var next := Step(l, Invoke(caller));
    assert forall p :: p in next.cleared ==> p in l.cleared && p != caller && next.cleared[p] == l.cleared[p];
    assert forall i :: 0 <= i < |l.calls| ==> next.calls[i] == l.calls[i] && !SamePayment(l.calls[i], l.cleared[caller]);
  }

  lemma StepKeepsBalance(l: Ledger, a: Action)
    requires Balanced(l)
    ensures Balanced(Step(l, a))
  {
    if Enabled(l, a) {
      match a
      case Issue(_) =>
      case Authorize(caller, name, risk, approvalId) => AuthorizeKeepsBalance(l, caller, name, risk, approvalId);
      case Invoke(caller) => InvokeKeepsBalance(l, caller);
      case Abandon(_) =>
    }
  }

  /** Every history keeps the books balanced. */
  lemma {:induction false} RunIsBalanced(actions: seq<Action>)
    ensures Balanced(Run(actions))
  {
    if actions != [] {
      RunIsBalanced(actions[..|actions| - 1]);
      StepKeepsBalance(Run(actions[..|actions| - 1]), actions[|actions| - 1]);
    }
  }

  /** Every non-READ call ever made was paid for by its own grant, issued for exactly its name. */
  lemma EveryCallPaidByItsOwnGrant(actions: seq<Action>, i: nat)
    requires i < |Run(actions).calls| && Run(actions).calls[i].risk != Read
    ensures var l := Run(actions);
      && l.calls[i].paidBy.Some? && l.calls[i].paidBy.value in l.issued
      && l.issued[l.calls[i].paidBy.value].tool == l.calls[i].name
      && forall j :: 0 <= j < |l.calls| && j != i ==> l.calls[j].paidBy != l.calls[i].paidBy
  {
    var l := Run(actions);
    RunIsBalanced(actions);
    assert PaidFor(l, l.calls[i]);
    forall j | 0 <= j < |l.calls| && j != i
      ensures l.calls[j].paidBy != l.calls[i].paidBy
    {
      if j < i {
        assert !SamePayment(l.calls[j], l.calls[i]);
      } else {
        assert !SamePayment(l.calls[i], l.calls[j]);
      }
    }
  }

  function Spent(calls: seq<PaidCall>, name: string): set<string> {
    set i | 0 <= i < |calls| && calls[i].name == name && calls[i].paidBy.Some? :: calls[i].paidBy.value
  }

  function GatedCalls(calls: seq<PaidCall>, name: string): nat {
    if calls == [] then 0
    else
      var c := calls[|calls| - 1];
      GatedCalls(calls[..|calls| - 1], name) + if c.name == name && c.risk != Read then 1 else 0
  }

  /** The n-th call was paid for, if at all, by a grant that had paid for none of the calls before. */
  lemma PaymentIsNew(l: Ledger, n: nat, name: string)
    requires Balanced(l) && n < |l.calls|
    ensures l.calls[n].paidBy.Some? <==> l.calls[n].risk != Read
    ensures l.calls[n].paidBy.Some? ==> l.calls[n].paidBy.value !in Spent(l.calls[..n], name)
  {
    assert PaidFor(l, l.calls[n]);
    if i :| 0 <= i < n && l.calls[i].paidBy.Some? && l.calls[i].paidBy == l.calls[n].paidBy {
      assert !SamePayment(l.calls[i], l.calls[n]);
    }
  }

  lemma {:induction false} GatedCallsAreSpentGrants(l: Ledger, n: nat, name: string)
    requires Balanced(l) && n <= |l.calls|
    ensures GatedCalls(l.calls[..n], name) == |Spent(l.calls[..n], name)|
  {
    hide Balanced;
    if n > 0 {
      var before, c := l.calls[..n - 1], l.calls[n - 1];
      GatedCallsAreSpentGrants(l, n - 1, name);
      PaymentIsNew(l, n - 1, name);
      SpentGrows(before, c, name);
      hide Spent;
      assert l.calls[..n] == before + [c] && l.calls[..n][..n - 1] == before;
    } else {
      assert Spent(l.calls[..0], name) == {};
    }
  }

  lemma SpentGrows(calls: seq<PaidCall>, c: PaidCall, name: string)
    ensures Spent(calls + [c], name) == Spent(calls, name) + if c.name == name && c.paidBy.Some? then {c.paidBy.value} else {}
  {
    var longer := calls + [c];
    assert longer[|calls|] == c && forall i :: 0 <= i < |calls| ==> longer[i] == calls[i];
    forall g | g in Spent(calls, name)
      ensures g in Spent(longer, name)
    {
      var i :| 0 <= i < |calls| && calls[i].name == name && calls[i].paidBy == Some(g);
      assert longer[i].paidBy == Some(g);
    }
  }

  /** A gated tool or capability is never called more often than grants were issued for it. */
  lemma CallsNeverExceedGrants(actions: seq<Action>, name: string)
    ensures var l := Run(actions);
      GatedCalls(l.calls, name) <= |(set g | g in l.issued && l.issued[g].tool == name)|
  {
    var l := Run(actions);
    RunIsBalanced(actions);
    GatedCallsAreSpentGrants(l, |l.calls|, name);
    assert l.calls[..|l.calls|] == l.calls;
    var issued := set g | g in l.issued && l.issued[g].tool == name;
    var spent := Spent(l.calls, name);
    forall g | g in spent
      ensures g in issued
    {
      var i :| 0 <= i < |l.calls| && l.calls[i].name == name && l.calls[i].paidBy == Some(g);
      assert PaidFor(l, l.calls[i]);
    }
    SubsetSize(spent, issued);
  }

  lemma {:induction false} SubsetSize(a: set<string>, b: set<string>)
    requires a <= b
    ensures |a| <= |b|
  {
    if a != {} {
      var x :| x in a;
      SubsetSize(a - {x}, b - {x});
    }
  }

  /** Retrying with the same approval, under whatever interleaving, runs the handler at most once. */
  lemma OneCallPerGrant(actions: seq<Action>, g: string, i: nat, j: nat)
    requires i < |Run(actions).calls| && j < |Run(actions).calls|
    requires Run(actions).calls[i].paidBy == Some(g) && Run(actions).calls[j].paidBy == Some(g)
    ensures i == j
  {
    RunIsBalanced(actions);
    var l := Run(actions);
    assert i < j ==> !SamePayment(l.calls[i], l.calls[j]);
    assert j < i ==> !SamePayment(l.calls[j], l.calls[i]);
  }

  /** Presenting a live grant for another name is refused and leaves the grant live. */
  lemma WrongNameKeepsGrant(actions: seq<Action>, caller: nat, name: string, risk: Risk, g: string)
    requires var l := Run(actions); g in l.live && l.live[g].tool != name && caller !in l.cleared
    requires risk != Read
    ensures Step(Run(actions), Authorize(caller, name, risk, Some(g))) == Run(actions)
  {
    RunIsBalanced(actions);
  }

  /** READ needs no grant: whatever is presented, the caller is let through and every grant stays live. */
  lemma ReadAlwaysClears(l: Ledger, caller: nat, name: string, approvalId: Option<string>)
    requires caller !in l.cleared
    ensures Step(l, Authorize(caller, name, Read, approvalId)) ==
      l.(cleared := l.cleared[caller := PaidCall(name, Read, None)])
  {
  }

  /** Anything else is let through exactly with a live grant of that name. */
  lemma ClearedExactlyWith(l: Ledger, caller: nat, name: string, risk: Risk, approvalId: Option<string>)
    requires caller !in l.cleared && risk != Read
    ensures caller in Step(l, Authorize(caller, name, risk, approvalId)).cleared <==>
      (approvalId.Some? && approvalId.value != "" && approvalId.value in l.live && l.live[approvalId.value].tool == name)
  {
  }

  /** A live grant of the right name lets its presenter through, once: a second presentation is refused. */
  lemma GrantWorksExactlyOnce(actions: seq<Action>, first: nat, second: nat, name: string, risk: Risk, g: string)
    requires var l := Run(actions);
      g in l.live && l.live[g].tool == name && first !in l.cleared && second !in l.cleared
    requires risk != Read && g != "" && first != second
    ensures var once := Step(Run(actions), Authorize(first, name, risk, Some(g)));
      && first in once.cleared && g !in once.live
      && Step(once, Authorize(second, name, risk, Some(g))) == once
  {
    RunIsBalanced(actions);
  }

  // ---- tools, connectors and workflow steps are runs of the ledger ----------------------

  function BooksOf(l: Ledger): Books {
    Books(l.live, l.calls)
  }

  lemma {:induction false} RunFromAppend(l: Ledger, a: seq<Action>, b: seq<Action>)
    ensures RunFrom(l, a + b) == RunFrom(RunFrom(l, a), b)
  {
    if b == [] {
      assert a + b == a;
    } else {
      var n := |b| - 1;
      assert (a + b)[..|a + b| - 1] == a + b[..n];
      RunFromAppend(l, a, b[..n]);
    }
  }

  /** An uninterrupted request: authorisation, then the call, or none if there is nothing to call. */
  function Request(caller: nat, name: string, risk: Risk, approvalId: Option<string>, made: bool): seq<Action> {
    [Authorize(caller, name, risk, approvalId), if made then Invoke(caller) else Abandon(caller)]
  }

  /** What ToolExecutor.Execute and ConnectorBroker.Execute do to grants and calls is a run of the ledger. */
  lemma ExecuteIsARun(l: Ledger, caller: nat, name: string, risk: Risk, approvalId: Option<string>, made: bool)
    requires caller !in l.cleared
    ensures var t := RunFrom(l, Request(caller, name, risk, approvalId, made));
      && BooksOf(t) == Gated(BooksOf(l), name, risk, approvalId, made)
      && t.issued == l.issued && t.cleared == l.cleared
  {
    var actions := Request(caller, name, risk, approvalId, made);
    assert actions[..1] == [actions[0]] && [actions[0]][..0] == [];
    var asked := Step(l, actions[0]);
    assert RunFrom(l, actions[..1]) == asked;
    if Admits(l.live, name, risk, approvalId) {
      assert asked.cleared - {caller} == l.cleared;
    }
  }

  function Requests(caller: nat, name: string, risk: Risk, approvalId: Option<string>, n: nat): seq<Action> {
    if n == 0 then []
    else Requests(caller, name, risk, approvalId, n - 1) + Request(caller, name, risk, approvalId, true)
  }

  /** So are the attempts of a tool step, each of which asks the gate again. */
  lemma {:induction false} StepIsARun(l: Ledger, caller: nat, name: string, risk: Risk, approvalId: Option<string>, n: nat)
    requires caller !in l.cleared
    ensures var t := RunFrom(l, Requests(caller, name, risk, approvalId, n));
      && BooksOf(t) == GatedTimes(BooksOf(l), name, risk, approvalId, n)
      && t.issued == l.issued && t.cleared == l.cleared
  {
    if n > 0 {
      StepIsARun(l, caller, name, risk, approvalId, n - 1);
      var before := Requests(caller, name, risk, approvalId, n - 1);
      RunFromAppend(l, before, Request(caller, name, risk, approvalId, true));
      ExecuteIsARun(RunFrom(l, before), caller, name, risk, approvalId, true);
    }
  }

  /**
   The operations on the shared store: a grant is issued; an executor or broker request; a tool
   step with its attempts.
   */
  datatype Event =
    | Granted(grant: Grant)
    | Requested(name: string, risk: Risk, approvalId: Option<string>, made: bool)
    | Stepped(tool: string, risk: Risk, approvalId: Option<string>, attempts: nat)

  function Booked(b: Books, e: Event): Books {
    match e
    case Granted(g) => b.(live := b.live[g.id := g])
    case Requested(name, risk, approvalId, made) => Gated(b, name, risk, approvalId, made)
    case Stepped(tool, risk, approvalId, attempts) => GatedTimes(b, tool, risk, approvalId, attempts)
  }

  /** The grants and calls after a history of operations. */
  function BooksAfter(events: seq<Event>): Books {
    if events == [] then Books(map[], []) else Booked(BooksAfter(events[..|events| - 1]), events[|events| - 1])
  }

  /** The grants issued in a history. */
  function GrantedIn(events: seq<Event>): map<string, Grant> {
    if events == [] then map[]
    else
      var earlier, e := GrantedIn(events[..|events| - 1]), events[|events| - 1];
      if e.Granted? then earlier[e.grant.id := e.grant] else earlier
  }

  /** No grant identifier is issued twice. */
  predicate FreshGrants(events: seq<Event>) {
    forall i :: 0 <= i < |events| && events[i].Granted? ==> events[i].grant.id !in GrantedIn(events[..i])
  }

  lemma FreshGrantsPrefix(events: seq<Event>, n: nat)
    requires n <= |events| && FreshGrants(events)
    ensures FreshGrants(events[..n])
  {
    forall i | 0 <= i < n && events[i].Granted?
      ensures events[..n][i].grant.id !in GrantedIn(events[..n][..i])
    {
      assert events[..n][..i] == events[..i];
    }
  }

  function ActionsFor(e: Event): seq<Action> {
    match e
    case Granted(g) => [Issue(g)]
    case Requested(name, risk, approvalId, made) => Request(0, name, risk, approvalId, made)
    case Stepped(tool, risk, approvalId, attempts) => Requests(0, tool, risk, approvalId, attempts)
  }

  lemma EventIsARun(l: Ledger, e: Event)
    requires 0 !in l.cleared && (e.Granted? ==> e.grant.id !in l.issued)
    ensures var t := RunFrom(l, ActionsFor(e));
      && BooksOf(t) == Booked(BooksOf(l), e) && t.cleared == l.cleared
      && t.issued == if e.Granted? then l.issued[e.grant.id := e.grant] else l.issued
  {
    match e
    case Granted(g) => assert [Issue(g)][..0] == [];
    case Requested(name, risk, approvalId, made) => ExecuteIsARun(l, 0, name, risk, approvalId, made);
    case Stepped(tool, risk, approvalId, attempts) => StepIsARun(l, 0, tool, risk, approvalId, attempts);
  }

  function ActionsOf(events: seq<Event>): seq<Action> {
    if events == [] then [] else ActionsOf(events[..|events| - 1]) + ActionsFor(events[|events| - 1])
  }

  /** Every history of operations on one store is a run of the ledger. */
  lemma {:induction false} HistoryIsARun(events: seq<Event>)
    requires FreshGrants(events)
    ensures var l := Run(ActionsOf(events));
      BooksOf(l) == BooksAfter(events) && l.issued == GrantedIn(events) && l.cleared == map[]
  {
    if events != [] {
      var n := |events| - 1;
      FreshGrantsPrefix(events, n);
      HistoryIsARun(events[..n]);
      RunFromAppend(Empty, ActionsOf(events[..n]), ActionsFor(events[n]));
      EventIsARun(Run(ActionsOf(events[..n])), events[n]);
    }
  }

  /**
   In every history of issues, tool executions, broker executions and tool steps sharing one
   store, each non-READ call was paid for by a grant issued for exactly its name, and by no
   other call.
   */
  lemma EveryOperationPaysItsCalls(events: seq<Event>, i: nat)
    requires FreshGrants(events)
    requires i < |BooksAfter(events).calls| && BooksAfter(events).calls[i].risk != Read
    ensures var calls := BooksAfter(events).calls;
      && calls[i].paidBy.Some? && calls[i].paidBy.value in GrantedIn(events)
      && GrantedIn(events)[calls[i].paidBy.value].tool == calls[i].name
      && forall j :: 0 <= j < |calls| && j != i ==> calls[j].paidBy != calls[i].paidBy
  {
    HistoryIsARun(events);
    EveryCallPaidByItsOwnGrant(ActionsOf(events), i);
  }

  /** In every such history a gated name is called at most as often as grants were issued for it. */
  lemma OperationsNeverExceedGrants(events: seq<Event>, name: string)
    requires FreshGrants(events)
    ensures GatedCalls(BooksAfter(events).calls, name) <=
      |(set g | g in GrantedIn(events) && GrantedIn(events)[g].tool == name)|
  {
    HistoryIsARun(events);
    CallsNeverExceedGrants(ActionsOf(events), name);
  }
}
