/**
 Memory search, twice: the reference filters of app/memory/in_memory.py, and the compiler of
 app/persistence/postgres_stores.py from a query to a WHERE clause with positional arguments.
 */
module MemoryFilter {
  import opened Common

  datatype Scope = SessionScope | TaskScope | ProjectScope | DecisionScope | AgentRunScope

  function ScopeValue(s: Scope): string {
    match s
    case SessionScope => "session"
    case TaskScope => "task"
    case ProjectScope => "project"
    case DecisionScope => "decision"
    case AgentRunScope => "agent_run"
  }

  datatype Record = Record(
    id: string,
    scope: Scope,
    key: string,
    content: string,
    projectId: Option<string>,
    taskId: Option<string>,
    sessionId: Option<string>,
    agent: Option<string>,
    tags: seq<string>,
    importance: real,
    createdAt: int)

  datatype Query = Query(
    text: Option<string>,
    scopes: seq<Scope>,
    projectId: Option<string>,
    taskId: Option<string>,
    sessionId: Option<string>,
    agent: Option<string>,
    tags: seq<string>,
    limit: nat)

  predicate HasText(q: Query) {
    q.text.Some? && q.text.value != ""
  }

  // ---- the reference filters ------------------------------------------------------------

  predicate Matches(wanted: Option<string>, actual: Option<string>) {
    wanted.Some? ==> actual == wanted
  }

  /** A record survives every filter the query asks for. */
  predicate Keeps(q: Query, r: Record) {
    && (q.scopes != [] ==> r.scope in q.scopes)
    && Matches(q.projectId, r.projectId)
    && Matches(q.taskId, r.taskId)
    && Matches(q.sessionId, r.sessionId)
    && Matches(q.agent, r.agent)
    && (q.tags != [] ==> exists t :: t in q.tags && t in r.tags)
  }

  function Filter(keep: Record -> bool, records: seq<Record>): (kept: seq<Record>)
    ensures forall r :: r in kept <==> r in records && keep(r)
  {
    if records == [] then []
    else
      var rest := Filter(keep, records[..|records| - 1]);
      var last := records[|records| - 1];
      if keep(last) then rest + [last] else rest
  }

  lemma {:induction false} FilterCount(keep: Record -> bool, records: seq<Record>, r: Record)
    ensures multiset(Filter(keep, records))[r] == if keep(r) then multiset(records)[r] else 0
  {
    if records != [] {
      var n := |records| - 1;
      FilterCount(keep, records[..n], r);
      assert records == records[..n] + [records[n]];
    }
  }

  lemma {:induction false} FilterTwice(first: Record -> bool, second: Record -> bool, both: Record -> bool, records: seq<Record>)
    requires forall r :: both(r) <==> first(r) && second(r)
    ensures Filter(second, Filter(first, records)) == Filter(both, records)
  {
    if records != [] {
      var n := |records| - 1;
      FilterTwice(first, second, both, records[..n]);
      var kept := Filter(first, records[..n]);
      if first(records[n]) {
        assert (kept + [records[n]])[..|kept|] == kept;
      }
    }
  }

  lemma {:induction false} FilterSame(a: Record -> bool, b: Record -> bool, records: seq<Record>)
    requires forall r :: a(r) <==> b(r)
    ensures Filter(a, records) == Filter(b, records)
  {
    if records != [] {
      FilterSame(a, b, records[..|records| - 1]);
    }
  }

  // ---- order and limit ------------------------------------------------------------------

  datatype Rank = Rank(overlap: nat, importance: real, createdAt: int)

  /** The rank of a record for a query without text. */
  function RankOf(r: Record): Rank {
    Rank(0, r.importance, r.createdAt)
  }

  /** (overlap, importance, created_at), larger first. */
  predicate AtLeast(a: Rank, b: Rank) {
    || a.overlap > b.overlap
    || (a.overlap == b.overlap && a.importance > b.importance)
    || (a.overlap == b.overlap && a.importance == b.importance && a.createdAt >= b.createdAt)
  }

  predicate Descending(rank: Record -> Rank, rs: seq<Record>) {
    forall i, j :: 0 <= i < j < |rs| ==> AtLeast(rank(rs[i]), rank(rs[j]))
  }

  function Insert(rank: Record -> Rank, r: Record, sorted: seq<Record>): seq<Record> {
    if sorted == [] || AtLeast(rank(r), rank(sorted[0])) then [r] + sorted
    else [sorted[0]] + Insert(rank, r, sorted[1..])
  }

  /** The stable sort with reverse=True: equal ranks keep their order. */
  function Sort(rank: Record -> Rank, rs: seq<Record>): seq<Record> {
    if rs == [] then [] else Insert(rank, rs[0], Sort(rank, rs[1..]))
  }

  lemma {:induction false} SortSame(a: Record -> Rank, b: Record -> Rank, rs: seq<Record>)
    requires forall r :: a(r) == b(r)
    ensures Sort(a, rs) == Sort(b, rs)
  {
    if rs != [] {
      SortSame(a, b, rs[1..]);
      InsertSame(a, b, rs[0], Sort(a, rs[1..]));
    }
  }

  lemma {:induction false} InsertSame(a: Record -> Rank, b: Record -> Rank, r: Record, sorted: seq<Record>)
    requires forall r :: a(r) == b(r)
    ensures Insert(a, r, sorted) == Insert(b, r, sorted)
  {
    if sorted != [] {
      InsertSame(a, b, r, sorted[1..]);
    }
  }

  lemma {:induction false} InsertKeeps(rank: Record -> Rank, r: Record, sorted: seq<Record>)
    ensures multiset(Insert(rank, r, sorted)) == multiset{r} + multiset(sorted)
  {
    if sorted != [] && !AtLeast(rank(r), rank(sorted[0])) {
      InsertKeeps(rank, r, sorted[1..]);
      assert sorted == [sorted[0]] + sorted[1..];
    }
  }

  lemma DescendingCons(rank: Record -> Rank, x: Record, rest: seq<Record>)
    requires Descending(rank, rest) && forall y :: y in rest ==> AtLeast(rank(x), rank(y))
    ensures Descending(rank, [x] + rest)
  {
    hide AtLeast;
    var rs := [x] + rest;
    forall i, j | 0 <= i < j < |rs|
      ensures AtLeast(rank(rs[i]), rank(rs[j]))
    {
      assert rs[j] == rest[j - 1];
      if i > 0 {
        assert rs[i] == rest[i - 1];
      }
    }
  }

  lemma {:induction false} InsertSorts(rank: Record -> Rank, r: Record, sorted: seq<Record>)
    requires Descending(rank, sorted)
    ensures Descending(rank, Insert(rank, r, sorted))
  {
    if sorted != [] {
      var head, tail := sorted[0], sorted[1..];
      assert sorted == [head] + tail;
      assert Descending(rank, tail) && forall y :: y in tail ==> AtLeast(rank(head), rank(y));
      if AtLeast(rank(r), rank(head)) {
        DescendingCons(rank, r, sorted);
      } else {
        InsertSorts(rank, r, tail);
        InsertKeeps(rank, r, tail);
        forall y | y in Insert(rank, r, tail)
          ensures AtLeast(rank(head), rank(y))
        {
          assert y in multiset(Insert(rank, r, tail));
        }
        DescendingCons(rank, head, Insert(rank, r, tail));
      }
    }
  }

  lemma {:induction false} SortSorts(rank: Record -> Rank, rs: seq<Record>)
    ensures Descending(rank, Sort(rank, rs)) && multiset(Sort(rank, rs)) == multiset(rs)
  {
    if rs != [] {
      SortSorts(rank, rs[1..]);
      InsertSorts(rank, rs[0], Sort(rank, rs[1..]));
      InsertKeeps(rank, rs[0], Sort(rank, rs[1..]));
      assert rs == [rs[0]] + rs[1..];
    }
  }

  function Take(rs: seq<Record>, limit: nat): seq<Record> {
    if |rs| <= limit then rs else rs[..limit]
  }

  method Narrow(records: seq<Record>, keep: Record -> bool, ghost all: seq<Record>, ghost soFar: Record -> bool,
                ghost now: Record -> bool) returns (kept: seq<Record>)
    requires records == Filter(soFar, all)
    requires forall r :: now(r) <==> soFar(r) && keep(r)
    ensures kept == Filter(now, all)
  {
    FilterTwice(soFar, keep, now, all);
    kept := Filter(keep, records);
  }

  lemma {:induction false} FilterAll(keep: Record -> bool, records: seq<Record>)
    requires forall r :: keep(r)
    ensures Filter(keep, records) == records
  {
    if records != [] {
      FilterAll(keep, records[..|records| - 1]);
    }
  }

  // ---- text -----------------------------------------------------------------------------

  /** The pieces joined by single blanks. */
  function Joined(pieces: seq<string>): string {
    if pieces == [] then ""
    else if |pieces| == 1 then pieces[0]
    else pieces[0] + " " + Joined(pieces[1..])
  }

  function Haystack(r: Record): string {
    Joined([r.key, r.content] + r.tags)
  }

  /** How many tokens of the query's text the record shares; `tokens` is the tokenizer. */
  function Overlap(tokens: string -> set<string>, q: Query, r: Record): nat {
    if HasText(q) then |tokens(q.text.value) * tokens(Haystack(r))| else 0
  }

  /** A query with text finds only records that share a token with it. */
  predicate Hits(tokens: string -> set<string>, q: Query, r: Record) {
    Keeps(q, r) && (HasText(q) ==> Overlap(tokens, q, r) > 0)
  }

  function RankFor(tokens: string -> set<string>, q: Query): Record -> Rank {
    r => Rank(Overlap(tokens, q, r), r.importance, r.createdAt)
  }

  /** The text that a record's tokens are taken from: key, content and tags, separated by blanks. */
  lemma {:induction false} JoinedNext(pieces: seq<string>, last: string)
    requires pieces != []
    ensures Joined(pieces + [last]) == Joined(pieces) + " " + last
  {
    if |pieces| == 1 {
      assert (pieces + [last])[1..] == [last];
    } else {
      JoinedNext(pieces[1..], last);
      assert (pieces + [last])[1..] == pieces[1..] + [last];
    }
  }

  lemma HaystackMeaning(r: Record)
    ensures r.tags == [] ==> Haystack(r) == r.key + " " + r.content
    ensures r.tags != [] ==>
      Haystack(r) == Haystack(r.(tags := r.tags[..|r.tags| - 1])) + " " + r.tags[|r.tags| - 1]
  {
    if r.tags == [] {
      JoinedNext([r.key], r.content);
      assert [r.key, r.content] + r.tags == [r.key] + [r.content];
    } else {
      var n := |r.tags| - 1;
      JoinedNext([r.key, r.content] + r.tags[..n], r.tags[n]);
      assert [r.key, r.content] + r.tags == [r.key, r.content] + r.tags[..n] + [r.tags[n]];
    }
  }

  /** Cutting the sorted list keeps the best and drops only what is not better. */
  lemma TakeKeepsBest(rank: Record -> Rank, rs: seq<Record>, limit: nat) returns (rest: seq<Record>)
    ensures var found := Take(Sort(rank, rs), limit);
      && |found| == (if |rs| < limit then |rs| else limit)
      && multiset(found) + multiset(rest) == multiset(rs)
      && (forall i, j :: 0 <= i < j < |found| ==> AtLeast(rank(found[i]), rank(found[j])))
      && (forall f, r :: f in found && r in rest ==> AtLeast(rank(f), rank(r)))
  {
    hide AtLeast;
    var sorted := Sort(rank, rs);
    SortSorts(rank, rs);
    SameSize(sorted, rs);
    rest := CutKeepsBest(rank, sorted, limit);
  }

  lemma CutKeepsBest(rank: Record -> Rank, sorted: seq<Record>, limit: nat) returns (rest: seq<Record>)
    requires Descending(rank, sorted)
    ensures var found := Take(sorted, limit);
      && |found| == (if |sorted| < limit then |sorted| else limit)
      && multiset(found) + multiset(rest) == multiset(sorted) && (|found| < limit ==> rest == [])
      && (forall i, j :: 0 <= i < j < |found| ==> AtLeast(rank(found[i]), rank(found[j])))
      && (forall f, r :: f in found && r in rest ==> AtLeast(rank(f), rank(r)))
  {
    hide AtLeast;
    rest := if |sorted| <= limit then [] else sorted[limit..];
    assert sorted == Take(sorted, limit) + rest;
  }

  lemma SameSize(a: seq<Record>, b: seq<Record>)
    requires multiset(a) == multiset(b)
    ensures |a| == |b|
  {
    assert |multiset(a)| == |a| && |multiset(b)| == |b|;
  }

  /**
   InMemoryMemoryStore.search: rebind the list filter by filter, score if there is text, sort, cut.
   What is found and the rest are the matching records; what is found comes first.
   */
  method SearchInMemory(all: seq<Record>, q: Query, tokens: string -> set<string>)
    returns (found: seq<Record>, ghost rest: seq<Record>)
    ensures found == Take(Sort(RankFor(tokens, q), Filter(r => Hits(tokens, q, r), all)), q.limit)
    ensures |found| == if |Filter(r => Hits(tokens, q, r), all)| < q.limit then |Filter(r => Hits(tokens, q, r), all)| else q.limit
    ensures multiset(found) + multiset(rest) == multiset(Filter(r => Hits(tokens, q, r), all))
    ensures forall r :: r in found || r in rest <==>
      && r in all
      && (q.scopes == [] || r.scope in q.scopes)
      && (q.projectId.None? || r.projectId == q.projectId)
      && (q.taskId.None? || r.taskId == q.taskId)
      && (q.sessionId.None? || r.sessionId == q.sessionId)
      && (q.agent.None? || r.agent == q.agent)
      && (q.tags == [] || exists t :: t in q.tags && t in r.tags)
      && (q.text.None? || q.text.value == "" || tokens(q.text.value) * tokens(Haystack(r)) != {})
    ensures forall i, j :: 0 <= i < j < |found| ==>
      var f, r := found[i], found[j];
      var more, less := Overlap(tokens, q, f), Overlap(tokens, q, r);
      more > less || (more == less && (f.importance > r.importance ||
                                       (f.importance == r.importance && f.createdAt >= r.createdAt)))
    ensures forall f, r :: f in found && r in rest ==>
      var more, less := Overlap(tokens, q, f), Overlap(tokens, q, r);
      more > less || (more == less && (f.importance > r.importance ||
                                       (f.importance == r.importance && f.createdAt >= r.createdAt)))
  {
    hide Hits, AtLeast, Overlap, Filter, Sort, Take, RankFor;
    var records := SearchHits(all, q, tokens);
    found := Take(Sort(RankFor(tokens, q), records), q.limit);
    rest := TakeKeepsBest(RankFor(tokens, q), records, q.limit);
    forall r
      ensures r in found || r in rest <==> r in all && Hits(tokens, q, r)
    {
      FilterMember(r => Hits(tokens, q, r), all, r);
      SameMembers(found, rest, records, r);
    }
    forall r {
      HitsMeaning(tokens, q, r);
    }
    forall f, r {
      RankMeaning(tokens, q, f, r);
    }
  }

  lemma FilterMember(keep: Record -> bool, records: seq<Record>, r: Record)
    ensures r in Filter(keep, records) <==> r in records && keep(r)
  {
  }

  lemma SameMembers(found: seq<Record>, rest: seq<Record>, records: seq<Record>, r: Record)
    requires multiset(found) + multiset(rest) == multiset(records)
    ensures r in found || r in rest <==> r in records
  {
    assert r in records <==> r in multiset(records);
    assert r in found || r in rest <==> r in multiset(found) + multiset(rest);
  }

  /** A record matches when it passes every filter the query sets and shares a token with its text. */
  lemma HitsMeaning(tokens: string -> set<string>, q: Query, r: Record)
    ensures Hits(tokens, q, r) <==>
      && (q.scopes == [] || r.scope in q.scopes)
      && (q.projectId.None? || r.projectId == q.projectId)
      && (q.taskId.None? || r.taskId == q.taskId)
      && (q.sessionId.None? || r.sessionId == q.sessionId)
      && (q.agent.None? || r.agent == q.agent)
      && (q.tags == [] || exists t :: t in q.tags && t in r.tags)
      && (q.text.None? || q.text.value == "" || tokens(q.text.value) * tokens(Haystack(r)) != {})
  {
    hide Haystack;
    if HasText(q) {
      var shared := tokens(q.text.value) * tokens(Haystack(r));
      assert shared == {} <==> |shared| == 0;
    }
  }

  /** Ranking first by shared tokens, then by importance, then by age. */
  lemma RankMeaning(tokens: string -> set<string>, q: Query, f: Record, r: Record)
    ensures AtLeast(RankFor(tokens, q)(f), RankFor(tokens, q)(r)) <==>
      var more, less := Overlap(tokens, q, f), Overlap(tokens, q, r);
      more > less || (more == less && (f.importance > r.importance ||
                                       (f.importance == r.importance && f.createdAt >= r.createdAt)))
  {
    hide Overlap;
  }

  /** Shared tokens count only for a query with text. */
  lemma OverlapMeaning(tokens: string -> set<string>, q: Query, r: Record)
    ensures Overlap(tokens, q, r) ==
      if q.text.None? || q.text.value == "" then 0 else |tokens(q.text.value) * tokens(Haystack(r))|
  {
  }

  method SearchHits(all: seq<Record>, q: Query, tokens: string -> set<string>) returns (records: seq<Record>)
    ensures records == Filter(r => Hits(tokens, q, r), all)
  {
    hide Filter, Keeps, Overlap;
    records := NarrowAll(all, q);
    if HasText(q) {
      records := Score(records, q, tokens);
      FilterTwice(r => Keeps(q, r), r => Overlap(tokens, q, r) > 0, r => Hits(tokens, q, r), all);
    } else {
      FilterSame(r => Keeps(q, r), r => Hits(tokens, q, r), all);
    }
  }

  /** Keeps the records that share a token with the query's text. */
  method Score(records: seq<Record>, q: Query, tokens: string -> set<string>) returns (scored: seq<Record>)
    ensures scored == Filter(r => Overlap(tokens, q, r) > 0, records)
  {
    hide Overlap;
    scored := [];
    for i := 0 to |records|
      invariant scored == Filter(r => Overlap(tokens, q, r) > 0, records[..i])
    {
      assert records[..i + 1][..i] == records[..i];
      if Overlap(tokens, q, records[i]) > 0 {
        scored := scored + [records[i]];
      }
    }
    assert records[..|records|] == records;
  }

  /** Without text the search orders by importance and time alone. */
  lemma NoTextRanks(all: seq<Record>, q: Query, tokens: string -> set<string>)
    requires !HasText(q)
    ensures Sort(RankFor(tokens, q), Filter(r => Hits(tokens, q, r), all)) == Sort(RankOf, Filter(r => Keeps(q, r), all))
  {
    FilterSame(r => Hits(tokens, q, r), r => Keeps(q, r), all);
    SortSame(RankFor(tokens, q), RankOf, Filter(r => Keeps(q, r), all));
  }

  method NarrowAll(all: seq<Record>, q: Query) returns (records: seq<Record>)
    ensures records == Filter(r => Keeps(q, r), all)
  {
    hide Filter;
    ghost var k0 := (r: Record) => true;
    FilterAll(k0, all);
    var byScope := (r: Record) => q.scopes != [] ==> r.scope in q.scopes;
    ghost var k1 := (r: Record) => k0(r) && byScope(r);
    records := Narrow(all, byScope, all, k0, k1);
    ghost var k2 := (r: Record) => k1(r) && Matches(q.projectId, r.projectId);
    records := Narrow(records, (r: Record) => Matches(q.projectId, r.projectId), all, k1, k2);
    ghost var k3 := (r: Record) => k2(r) && Matches(q.taskId, r.taskId);
    records := Narrow(records, (r: Record) => Matches(q.taskId, r.taskId), all, k2, k3);
    ghost var k4 := (r: Record) => k3(r) && Matches(q.sessionId, r.sessionId);
    records := Narrow(records, (r: Record) => Matches(q.sessionId, r.sessionId), all, k3, k4);
    ghost var k5 := (r: Record) => k4(r) && Matches(q.agent, r.agent);
    records := Narrow(records, (r: Record) => Matches(q.agent, r.agent), all, k4, k5);
    var byTags := (r: Record) => q.tags != [] ==> exists t | t in q.tags :: t in r.tags;
    ghost var k6 := (r: Record) => k5(r) && byTags(r);
    records := Narrow(records, byTags, all, k5, k6);
    FilterSame(k6, r => Keeps(q, r), all);
  }
}
