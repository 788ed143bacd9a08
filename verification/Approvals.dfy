/**
 Single-use approval grants: the in-memory store that deletes a consumed grant
 (app/tools/approvals.py) and the PostgreSQL store that marks it
 (app/persistence/postgres_stores.py), proved to answer every history alike.
 */
module Approvals {
  import opened Common

  datatype Grant = Grant(id: string, tool: string, approvedBy: string, reason: Option<string>)

  /** A row of tool_approvals; `consumedAt` is NULL while the grant is live. */
  datatype Row = Row(grant: Grant, consumedAt: Option<int>)

  class InMemoryApprovalStore {
    var grants: map<string, Grant>

    constructor ()
      ensures grants == map[]
    {
      grants := map[];
    }

    /** `id` is the fresh identifier of the new grant. */
    method Issue(id: string, tool: string, approvedBy: string, reason: Option<string>) returns (grant: Grant)
      modifies this
      ensures grant == Grant(id, tool, approvedBy, reason)
      ensures grants == old(grants)[id := grant]
      ensures (grants, Some(grant)) == DeletingStep(old(grants), IssueOp(id, tool, approvedBy, reason))
    {
      grant := Grant(id, tool, approvedBy, reason);
      grants := grants[id := grant];
    }

    /** Succeeds exactly for a live grant of that very tool, and only then uses it up. */
    method Consume(id: string, tool: string) returns (grant: Option<Grant>)
      modifies this
      ensures grant.Some? <==> id in old(grants) && old(grants)[id].tool == tool
      ensures grant.Some? ==> grant.value == old(grants)[id] && grants == old(grants) - {id}
      ensures grant.None? ==> grants == old(grants)
      ensures forall at :: (grants, grant) == DeletingStep(old(grants), ConsumeOp(id, tool, at))
    {
      if id !in grants || grants[id].tool != tool {
        return None;
      }
      grant := Some(grants[id]);
      grants := grants - {id};
    }
  }

  class PostgresApprovalStore {
    var rows: map<string, Row>

    constructor ()
      ensures rows == map[]
    {
      rows := map[];
    }

    /** The primary key makes an insert of a used identifier fail. */
    method Issue(id: string, tool: string, approvedBy: string, reason: Option<string>) returns (grant: Grant)
      requires id !in rows
      modifies this
      ensures grant == Grant(id, tool, approvedBy, reason)
      ensures rows == old(rows)[id := Row(grant, None)]
      ensures (rows, Some(grant)) == MarkingStep(old(rows), IssueOp(id, tool, approvedBy, reason))
    {
      grant := Grant(id, tool, approvedBy, reason);
      rows := rows[id := Row(grant, None)];
    }

    /** One conditional update: the unmarked row of that identifier and tool, if there is one, is marked and returned. */
    method Consume(id: string, tool: string, now: int) returns (grant: Option<Grant>)
      modifies this
      ensures grant.Some? <==> id in old(rows) && old(rows)[id].grant.tool == tool && old(rows)[id].consumedAt.None?
      ensures grant.Some? ==> grant.value == old(rows)[id].grant
      ensures grant.Some? ==> rows == old(rows)[id := old(rows)[id].(consumedAt := Some(now))]
      ensures grant.None? ==> rows == old(rows)
      ensures (rows, grant) == MarkingStep(old(rows), ConsumeOp(id, tool, now))
    {
      if id in rows && rows[id].grant.tool == tool && rows[id].consumedAt.None? {
        grant := Some(rows[id].grant);
        rows := rows[id := rows[id].(consumedAt := Some(now))];
      } else {
        grant := None;
      }
    }
  }

  // ---- both stores on one history -------------------------------------------------------

  datatype Op =
    | IssueOp(id: string, tool: string, approvedBy: string, reason: Option<string>)
    | ConsumeOp(id: string, tool: string, at: int)

  /** What the caller sees: the grant issued or consumed, or nothing (an insert that conflicts is None too). */
  type Answer = Option<Grant>

  function DeletingStep(grants: map<string, Grant>, op: Op): (map<string, Grant>, Answer) {
    match op
    case IssueOp(id, tool, approver, reason) =>
      var g := Grant(id, tool, approver, reason);
      (grants[id := g], Some(g))
    case ConsumeOp(id, tool, _) =>
      if id in grants && grants[id].tool == tool then (grants - {id}, Some(grants[id])) else (grants, None)
  }

  function MarkingStep(rows: map<string, Row>, op: Op): (map<string, Row>, Answer) {
    match op
    case IssueOp(id, tool, approver, reason) =>
      var g := Grant(id, tool, approver, reason);
      if id in rows then (rows, None) else (rows[id := Row(g, None)], Some(g))
    case ConsumeOp(id, tool, at) =>
      if id in rows && rows[id].grant.tool == tool && rows[id].consumedAt.None?
      then (rows[id := rows[id].(consumedAt := Some(at))], Some(rows[id].grant))
      else (rows, None)
  }

  function Deleting(ops: seq<Op>): (map<string, Grant>, seq<Answer>) {
    if ops == [] then (map[], [])
    else
      var (grants, answers) := Deleting(ops[..|ops| - 1]);
      var (next, answer) := DeletingStep(grants, ops[|ops| - 1]);
      (next, answers + [answer])
  }

  function Marking(ops: seq<Op>): (map<string, Row>, seq<Answer>) {
    if ops == [] then (map[], [])
    else
      var (rows, answers) := Marking(ops[..|ops| - 1]);
      var (next, answer) := MarkingStep(rows, ops[|ops| - 1]);
      (next, answers + [answer])
  }

  /** No identifier is issued twice. */
  predicate FreshIds(ops: seq<Op>) {
    forall i, j :: 0 <= i < j < |ops| && ops[i].IssueOp? && ops[j].IssueOp? ==> ops[i].id != ops[j].id
  }

  /** The live grants are the rows that are not marked. */
  function Live(rows: map<string, Row>): map<string, Grant> {
    map id | id in rows && rows[id].consumedAt.None? :: rows[id].grant
  }

  /** The rows are exactly the identifiers ever issued. */
  lemma {:induction false} RowsAreIssuedIds(ops: seq<Op>, id: string)
    ensures id in Marking(ops).0 <==> exists i :: 0 <= i < |ops| && ops[i].IssueOp? && ops[i].id == id
  {
    if ops != [] {
      var n := |ops| - 1;
      var p := ops[..n];
      RowsAreIssuedIds(p, id);
      assert forall i :: 0 <= i < n ==> p[i] == ops[i];
      if i :| 0 <= i < |p| && p[i].IssueOp? && p[i].id == id {
        assert ops[i].IssueOp? && ops[i].id == id;
      }
    }
  }

  /** One step takes equal live grants to equal live grants, with the same answer. */
  lemma StepsAgree(rows: map<string, Row>, op: Op)
    requires op.IssueOp? ==> op.id !in rows
    ensures MarkingStep(rows, op).1 == DeletingStep(Live(rows), op).1
    ensures Live(MarkingStep(rows, op).0) == DeletingStep(Live(rows), op).0
  {
  }

  lemma {:induction false} AnswerCount(ops: seq<Op>)
    ensures |Marking(ops).1| == |Deleting(ops).1| == |ops|
  {
    if ops != [] {
      AnswerCount(ops[..|ops| - 1]);
    }
  }

  /** With fresh identifiers the live rows simulate the remaining grants, answer by answer. */
  lemma {:induction false} FreshStoresAgree(ops: seq<Op>)
    requires FreshIds(ops)
    ensures Marking(ops).1 == Deleting(ops).1
    ensures Live(Marking(ops).0) == Deleting(ops).0
  {
    if ops != [] {
      var n := |ops| - 1;
      var p := ops[..n];
      FreshStoresAgree(p);
      RowsAreIssuedIds(p, ops[n].id);
      assert forall i :: 0 <= i < n ==> p[i] == ops[i];
      StepsAgree(Marking(p).0, ops[n]);
    }
  }

  /** The two stores answer a history of issues and consumes alike exactly when no identifier is reused. */
  lemma {:induction false} StoresAgreeExactlyWhenFresh(ops: seq<Op>)
    ensures Marking(ops).1 == Deleting(ops).1 <==> FreshIds(ops)
  {
    if FreshIds(ops) {
      FreshStoresAgree(ops);
    } else {
      var n := |ops| - 1;
      var p := ops[..n];
      StoresAgreeExactlyWhenFresh(p);
      AnswerCount(p);
      assert forall i :: 0 <= i < n ==> p[i] == ops[i];
      if FreshIds(p) {
        RowsAreIssuedIds(p, ops[n].id);
        assert Marking(ops).1[n] != Deleting(ops).1[n];
      } else {
        assert Marking(ops).1[..n] == Marking(p).1 && Deleting(ops).1[..n] == Deleting(p).1;
      }
    }
  }
}
