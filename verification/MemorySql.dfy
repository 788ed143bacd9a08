/** The WHERE compiler of PostgresMemoryStore.search, and its agreement with the reference filters. */
module MemorySql {
  import opened Common
  import opened MemoryFilter

  datatype Column = ScopeCol | ProjectCol | TaskCol | SessionCol | AgentCol

  /** A positional argument; $i is args[i - 1]. */
  datatype Arg = Text(value: string) | Texts(values: seq<string>) | Number(n: nat)

  datatype Clause =
    | EqualsAny(col: Column, placeholder: nat)
    | Equals(col: Column, placeholder: nat)
    | Overlaps(placeholder: nat)
    | Ilike(placeholder: nat)

  /** SQL's three truth values. */
  datatype Truth = True | False | Unknown

  function Cell(r: Record, col: Column): Option<string> {
    match col
    case ScopeCol => Some(ScopeValue(r.scope))
    case ProjectCol => r.projectId
    case TaskCol => r.taskId
    case SessionCol => r.sessionId
    case AgentCol => r.agent
  }

  function Bool(b: bool): Truth {
    if b then True else False
  }

  function Bound(args: seq<Arg>, placeholder: nat): Option<Arg> {
    if 1 <= placeholder <= |args| then Some(args[placeholder - 1]) else None
  }

  /** How the server evaluates a clause; `ilike` decides a text match. A NULL cell is Unknown. */
  function Eval(c: Clause, args: seq<Arg>, r: Record, ilike: (string, Record) -> bool): Truth {
    match c
    case EqualsAny(col, i) =>
      (match Bound(args, i)
       case Some(Texts(vs)) => if Cell(r, col).None? then Unknown else Bool(Cell(r, col).value in vs)
       case _ => Unknown)
    case Equals(col, i) =>
      (match Bound(args, i)
       case Some(Text(v)) => if Cell(r, col).None? then Unknown else Bool(Cell(r, col).value == v)
       case _ => Unknown)
    case Overlaps(i) =>
      (match Bound(args, i)
       case Some(Texts(vs)) => Bool(exists t :: t in vs && t in r.tags)
       case _ => Unknown)
    case Ilike(i) =>
      (match Bound(args, i)
       case Some(Text(v)) => Bool(ilike(v, r))
       case _ => Unknown)
  }

  function And(a: Truth, b: Truth): Truth {
    if a == False || b == False then False else if a == Unknown || b == Unknown then Unknown else True
  }

  /** c1 AND c2 AND ...; no WHERE clause at all keeps every row. */
  function Conjunction(where: seq<Clause>, args: seq<Arg>, r: Record, ilike: (string, Record) -> bool): Truth {
    if where == [] then True
    else And(Conjunction(where[..|where| - 1], args, r, ilike), Eval(where[|where| - 1], args, r, ilike))
  }

  /** Every placeholder used so far has been bound. */
  predicate AllBound(where: seq<Clause>, n: nat) {
    forall i :: 0 <= i < |where| ==> 1 <= where[i].placeholder <= n
  }

  /** Binding more arguments does not change what is already written. */
  lemma {:induction false} MoreArgs(where: seq<Clause>, args: seq<Arg>, more: seq<Arg>, r: Record, ilike: (string, Record) -> bool)
    requires AllBound(where, |args|)
    ensures Conjunction(where, args + more, r, ilike) == Conjunction(where, args, r, ilike)
  {
    if where != [] {
      MoreArgs(where[..|where| - 1], args, more, r, ilike);
      assert where[|where| - 1] == where[|where| - 1];
    }
  }

  /** The compiler's two growing lists; `bind` appends an argument and answers its position. */
  datatype Builder = Builder(where: seq<Clause>, args: seq<Arg>) {
    predicate Valid() {
      AllBound(where, |args|)
    }

    predicate Selects(r: Record, ilike: (string, Record) -> bool) {
      Conjunction(where, args, r, ilike) == True
    }
  }

  /** Appending a bound clause adds exactly that clause's condition. */
  lemma AddClause(b: Builder, c: Clause, arg: Arg, r: Record, ilike: (string, Record) -> bool)
    requires b.Valid() && c.placeholder == |b.args| + 1
    ensures var b' := Builder(b.where + [c], b.args + [arg]);
      && b'.Valid()
      && (b'.Selects(r, ilike) <==> b.Selects(r, ilike) && Eval(c, b.args + [arg], r, ilike) == True)
  {
    hide Eval, Conjunction;
    MoreArgs(b.where, b.args, [arg], r, ilike);
    ConjunctionNext(b.where, c, b.args + [arg], r, ilike);
  }

  lemma ConjunctionNext(where: seq<Clause>, c: Clause, args: seq<Arg>, r: Record, ilike: (string, Record) -> bool)
    ensures Conjunction(where + [c], args, r, ilike) == And(Conjunction(where, args, r, ilike), Eval(c, args, r, ilike))
  {
    hide Eval;
    assert (where + [c])[..|where|] == where;
  }

  method AddScopes(b: Builder, scopes: seq<Scope>, ghost ilike: (string, Record) -> bool) returns (b': Builder)
    requires b.Valid()
    ensures b'.Valid()
    ensures forall r :: b'.Selects(r, ilike) <==> b.Selects(r, ilike) && (scopes != [] ==> r.scope in scopes)
  {
    if scopes == [] {
      return b;
    }
    var values := seq(|scopes|, i requires 0 <= i < |scopes| => ScopeValue(scopes[i]));
    var args := b.args + [Texts(values)];
    b' := Builder(b.where + [EqualsAny(ScopeCol, |args|)], args);
    forall r
      ensures b'.Selects(r, ilike) <==> b.Selects(r, ilike) && r.scope in scopes
    {
      AddClause(b, EqualsAny(ScopeCol, |args|), Texts(values), r, ilike);
      ScopeMembership(scopes, values, r.scope);
    }
  }

  lemma ScopeMembership(scopes: seq<Scope>, values: seq<string>, s: Scope)
    requires |values| == |scopes| && forall i :: 0 <= i < |scopes| ==> values[i] == ScopeValue(scopes[i])
    ensures ScopeValue(s) in values <==> s in scopes
  {
    if s in scopes {
      var i :| 0 <= i < |scopes| && scopes[i] == s;
      assert values[i] == ScopeValue(s);
    }
  }

  method AddEquals(b: Builder, col: Column, wanted: Option<string>, ghost ilike: (string, Record) -> bool) returns (b': Builder)
    requires b.Valid()
    ensures b'.Valid()
    ensures forall r :: b'.Selects(r, ilike) <==> b.Selects(r, ilike) && Matches(wanted, Cell(r, col))
  {
    if wanted.None? {
      return b;
    }
    var args := b.args + [Text(wanted.value)];
    b' := Builder(b.where + [Equals(col, |args|)], args);
    forall r
      ensures b'.Selects(r, ilike) <==> b.Selects(r, ilike) && Cell(r, col) == wanted
    {
      AddClause(b, Equals(col, |args|), Text(wanted.value), r, ilike);
    }
  }

  method AddTags(b: Builder, tags: seq<string>, ghost ilike: (string, Record) -> bool) returns (b': Builder)
    requires b.Valid()
    ensures b'.Valid()
    ensures forall r :: b'.Selects(r, ilike) <==>
      b.Selects(r, ilike) && (tags != [] ==> exists t :: t in tags && t in r.tags)
  {
    if tags == [] {
      return b;
    }
    var args := b.args + [Texts(tags)];
    b' := Builder(b.where + [Overlaps(|args|)], args);
    forall r
      ensures b'.Selects(r, ilike) <==> b.Selects(r, ilike) && exists t :: t in tags && t in r.tags
    {
      AddClause(b, Overlaps(|args|), Texts(tags), r, ilike);
    }
  }

  method AddText(b: Builder, text: Option<string>, ghost ilike: (string, Record) -> bool) returns (b': Builder)
    requires b.Valid()
    ensures b'.Valid()
    ensures forall r :: b'.Selects(r, ilike) <==>
      b.Selects(r, ilike) && (text.Some? && text.value != "" ==> ilike("%" + text.value + "%", r))
  {
    if text.None? || text.value == "" {
      return b;
    }
    var args := b.args + [Text("%" + text.value + "%")];
    b' := Builder(b.where + [Ilike(|args|)], args);
    forall r
      ensures b'.Selects(r, ilike) <==> b.Selects(r, ilike) && ilike("%" + text.value + "%", r)
    {
      AddClause(b, Ilike(|args|), Text("%" + text.value + "%"), r, ilike);
    }
  }

  /**
   The compiled statement selects exactly the records the reference filters keep (and that match
   the text, when there is one); the limit's placeholder is bound to the query's limit.
   */
  method Compile(q: Query, ghost ilike: (string, Record) -> bool) returns (b: Builder, limit: nat)
    ensures b.Valid() && Bound(b.args, limit) == Some(Number(q.limit))
    ensures forall r :: b.Selects(r, ilike) <==> Keeps(q, r) && (HasText(q) ==> ilike("%" + q.text.value + "%", r))
  {
    hide Conjunction;
    b := Builder([], []);
    assert forall r :: b.Selects(r, ilike) by {
      EmptySelectsAll(b, ilike);
    }
    b := AddScopes(b, q.scopes, ilike);
    b := AddEquals(b, ProjectCol, q.projectId, ilike);
    b := AddEquals(b, TaskCol, q.taskId, ilike);
    b := AddEquals(b, SessionCol, q.sessionId, ilike);
    b := AddEquals(b, AgentCol, q.agent, ilike);
    b := AddTags(b, q.tags, ilike);
    b := AddText(b, q.text, ilike);
    ghost var before := b;
    b := Builder(b.where, b.args + [Number(q.limit)]);
    limit := |b.args|;
    forall r
      ensures b.Selects(r, ilike) <==> before.Selects(r, ilike)
    {
      MoreArgs(before.where, before.args, [Number(q.limit)], r, ilike);
    }
  }

  lemma EmptySelectsAll(b: Builder, ilike: (string, Record) -> bool)
    requires b.where == []
    ensures forall r :: b.Selects(r, ilike)
  {
  }

  // ---- both result lists ----------------------------------------------------------------

  /** ORDER BY importance DESC, created_at DESC LIMIT n: any descending arrangement, cut off. */
  ghost predicate SqlResult(rows: seq<Record>, b: Builder, limit: nat, ilike: (string, Record) -> bool, result: seq<Record>) {
    exists full :: IsArrangement(full, Filter(r => b.Selects(r, ilike), rows)) && result == Take(full, limit)
  }

  ghost predicate IsArrangement(full: seq<Record>, selected: seq<Record>) {
    Descending(RankOf, full) && multiset(full) == multiset(selected)
  }

  function Ranks(rs: seq<Record>): seq<Rank> {
    seq(|rs|, i requires 0 <= i < |rs| => RankOf(rs[i]))
  }

  lemma WithoutRemovesOne<T>(s: seq<T>, i: nat)
    requires i < |s|
    ensures multiset(s) == multiset(Without(s, i)) + multiset{s[i]}
  {
    assert s == s[..i] + [s[i]] + s[i + 1..];
  }

  /** Two sequences with the same elements keep having them when equal elements are taken out. */
  lemma RemoveBoth<T>(a: seq<T>, i: nat, b: seq<T>, j: nat)
    requires multiset(a) == multiset(b) && i < |a| && j < |b| && a[i] == b[j]
    ensures multiset(Without(a, i)) == multiset(Without(b, j))
  {
    WithoutRemovesOne(a, i);
    WithoutRemovesOne(b, j);
    assert multiset(Without(a, i)) == multiset(a) - multiset{a[i]};
    assert multiset(Without(b, j)) == multiset(b) - multiset{b[j]};
  }

  lemma SameElement<T>(a: seq<T>, i: nat, b: seq<T>) returns (j: nat)
    requires multiset(a) == multiset(b) && i < |a|
    ensures j < |b| && b[j] == a[i]
  {
    assert a[i] in multiset(b);
    j :| 0 <= j < |b| && b[j] == a[i];
  }

  lemma {:induction false} RanksOfPermutation(a: seq<Record>, b: seq<Record>)
    requires multiset(a) == multiset(b)
    ensures multiset(Ranks(a)) == multiset(Ranks(b))
    decreases |a|
  {
    if a == [] {
      assert |multiset(b)| == 0;
    } else {
      var j := SameElement(a, 0, b);
      RemoveBoth(a, 0, b, j);
      RanksOfPermutation(Without(a, 0), Without(b, j));
      RanksWithout(a, 0);
      RanksWithout(b, j);
    }
  }

  lemma RanksWithout(rs: seq<Record>, i: nat)
    requires i < |rs|
    ensures multiset(Ranks(rs)) == multiset(Ranks(Without(rs, i))) + multiset{RankOf(rs[i])}
  {
    WithoutRemovesOne(Ranks(rs), i);
    assert Ranks(Without(rs, i)) == Without(Ranks(rs), i);
  }

  predicate DescendingRanks(ks: seq<Rank>) {
    forall i, j :: 0 <= i < j < |ks| ==> AtLeast(ks[i], ks[j])
  }

  lemma HeadsAgree(a: seq<Rank>, b: seq<Rank>)
    requires multiset(a) == multiset(b) && DescendingRanks(a) && DescendingRanks(b) && a != []
    ensures b != [] && a[0] == b[0]
  {
    var j := SameElement(a, 0, b);
    var i := SameElement(b, 0, a);
    assert j > 0 ==> AtLeast(b[0], b[j]);
    assert i > 0 ==> AtLeast(a[0], a[i]);
  }

  lemma TailsAgree(a: seq<Rank>, b: seq<Rank>)
    requires multiset(a) == multiset(b) && a != [] && b != [] && a[0] == b[0]
    ensures multiset(a[1..]) == multiset(b[1..])
  {
    RemoveBoth(a, 0, b, 0);
    assert Without(a, 0) == a[1..] && Without(b, 0) == b[1..];
  }

  lemma {:induction false} SortedRanksAgree(a: seq<Rank>, b: seq<Rank>)
    requires multiset(a) == multiset(b) && DescendingRanks(a) && DescendingRanks(b)
    ensures a == b
    decreases |a|
  {
    hide AtLeast;
    if a == [] {
      assert |multiset(b)| == 0;
    } else {
      HeadsAgree(a, b);
      TailsAgree(a, b);
      SortedRanksAgree(a[1..], b[1..]);
      assert a == [a[0]] + a[1..] && b == [b[0]] + b[1..];
    }
  }

  lemma ArrangementsAgree(a: seq<Record>, b: seq<Record>)
    requires Descending(RankOf, a) && Descending(RankOf, b) && multiset(a) == multiset(b)
    ensures Ranks(a) == Ranks(b)
  {
    RanksOfPermutation(a, b);
    assert DescendingRanks(Ranks(a)) && DescendingRanks(Ranks(b));
    SortedRanksAgree(Ranks(a), Ranks(b));
  }

  lemma FilterPermutation(keep: Record -> bool, keep': Record -> bool, rows: seq<Record>, all: seq<Record>)
    requires multiset(rows) == multiset(all) && forall r :: keep(r) <==> keep'(r)
    ensures multiset(Filter(keep, rows)) == multiset(Filter(keep', all))
  {
    forall r
      ensures multiset(Filter(keep, rows))[r] == multiset(Filter(keep', all))[r]
    {
      FilterCount(keep, rows, r);
      FilterCount(keep', all, r);
    }
  }

  /** No other matching record has this record's rank. */
  predicate OnlyOneOfRank(all: seq<Record>, q: Query, found: Record) {
    forall r :: r in all && Keeps(q, r) && r.importance == found.importance && r.createdAt == found.createdAt ==> r == found
  }

  /**
   For a query without text the two stores answer with equally long lists whose ranks agree
   place by place; where a rank is unique among the matching records, so does the record.
   */
  lemma SearchesAgreeUpToTies(all: seq<Record>, rows: seq<Record>, q: Query, b: Builder,
                              ilike: (string, Record) -> bool, result: seq<Record>)
    requires multiset(rows) == multiset(all)
    requires forall r :: b.Selects(r, ilike) <==> Keeps(q, r)
    requires SqlResult(rows, b, q.limit, ilike, result)
    ensures var found := Take(Sort(RankOf, Filter(r => Keeps(q, r), all)), q.limit);
      && |result| == |found|
      && (forall i :: 0 <= i < |found| ==>
            result[i].importance == found[i].importance && result[i].createdAt == found[i].createdAt)
      && (forall i :: 0 <= i < |found| && OnlyOneOfRank(all, q, found[i]) ==> result[i] == found[i])
  {
    var keep := (r: Record) => Keeps(q, r);
    var selects := (r: Record) => b.Selects(r, ilike);
    var kept := Filter(keep, all);
    var found := Take(Sort(RankOf, kept), q.limit);
    FilterSame(keep, r => Keeps(q, r), all);
    FilterSame(selects, r => b.Selects(r, ilike), rows);
    var full :| IsArrangement(full, Filter(selects, rows)) && result == Take(full, q.limit);
    FilterPermutation(selects, keep, rows, all);
    SortSorts(RankOf, kept);
    ArrangementsAgree(full, Sort(RankOf, kept));
    assert |Ranks(full)| == |full| && |Ranks(Sort(RankOf, kept))| == |Sort(RankOf, kept)|;
    forall i | 0 <= i < |found|
      ensures RankOf(result[i]) == RankOf(found[i])
      ensures result[i] in all && Keeps(q, result[i])
    {
      assert Ranks(full)[i] == Ranks(Sort(RankOf, kept))[i];
      assert full[i] in multiset(full);
      assert full[i] in multiset(kept);
    }
  }

  /** What the server answers: as many selected rows as the limit allows, most important and then newest first. */
  lemma SqlResultMeaning(rows: seq<Record>, b: Builder, limit: nat, ilike: (string, Record) -> bool, result: seq<Record>)
    returns (rest: seq<Record>)
    requires SqlResult(rows, b, limit, ilike, result)
    ensures multiset(result) + multiset(rest) == multiset(Filter(r => b.Selects(r, ilike), rows))
    ensures |result| <= limit && (|result| < limit ==> rest == [])
    ensures forall i, j :: 0 <= i < j < |result| ==> NotAfter(result[i], result[j])
    ensures forall f, r :: f in result && r in rest ==> NotAfter(f, r)
  {
    hide AtLeast, Filter, NotAfter, Take;
    var full :| IsArrangement(full, Filter(r => b.Selects(r, ilike), rows)) && result == Take(full, limit);
    rest := CutKeepsBest(RankOf, full, limit);
    forall a, r {
      NotAfterMeaning(a, r);
    }
  }

  lemma NotAfterMeaning(a: Record, b: Record)
    ensures AtLeast(RankOf(a), RankOf(b)) <==> NotAfter(a, b)
  {
  }

  /** ORDER BY importance DESC, created_at DESC. */
  predicate NotAfter(a: Record, b: Record) {
    a.importance > b.importance || (a.importance == b.importance && a.createdAt >= b.createdAt)
  }

  ghost predicate AgreeUpToTies(all: seq<Record>, q: Query, result: seq<Record>, found: seq<Record>) {
    && |result| == |found|
    && (forall i :: 0 <= i < |found| ==>
          result[i].importance == found[i].importance && result[i].createdAt == found[i].createdAt)
    && (forall i :: 0 <= i < |found| && OnlyOneOfRank(all, q, found[i]) ==> result[i] == found[i])
  }

  /** Compiles and searches: whatever the server answers agrees with the reference search. */
  method SearchBoth(all: seq<Record>, q: Query, tokens: string -> set<string>, ghost rows: seq<Record>, ghost ilike: (string, Record) -> bool)
    returns (found: seq<Record>, b: Builder, limit: nat)
    requires !HasText(q) && multiset(rows) == multiset(all)
    ensures Bound(b.args, limit) == Some(Number(q.limit))
    ensures forall result :: SqlResult(rows, b, q.limit, ilike, result) ==> AgreeUpToTies(all, q, result, found)
  {
    b, limit := Compile(q, ilike);
    ghost var rest;
    found, rest := SearchInMemory(all, q, tokens);
    NoTextRanks(all, q, tokens);
    forall result | SqlResult(rows, b, q.limit, ilike, result)
      ensures AgreeUpToTies(all, q, result, found)
    {
      SearchesAgreeUpToTies(all, rows, q, b, ilike, result);
    }
  }
}
