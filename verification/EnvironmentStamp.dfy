/**
 The environment stamp (app/persistence/environment.py): first writer wins, and every
 deployment that gets through agrees with the stamp, whatever the interleaving.
 */
module EnvironmentStamp {
  import opened Common

  // ---- names: strip().lower(), on ASCII --------------------------------------------------

  predicate IsSpace(c: char) {
    c == ' ' || '\t' <= c <= '\r' || '\U{001c}' <= c <= '\U{001f}'
  }

  function LowerChar(c: char): char {
    if 'A' <= c <= 'Z' then c - 'A' + 'a' else c
  }

  function Lower(s: string): (r: string)
    ensures |r| == |s| && forall i :: 0 <= i < |s| ==> r[i] == LowerChar(s[i])
  {
    seq(|s|, i requires 0 <= i < |s| => LowerChar(s[i]))
  }

  function StripLeft(s: string): string {
    if s != "" && IsSpace(s[0]) then StripLeft(s[1..]) else s
  }

  function StripRight(s: string): string {
    if s != "" && IsSpace(s[|s| - 1]) then StripRight(s[..|s| - 1]) else s
  }

  function Normalise(s: string): string {
    Lower(StripRight(StripLeft(s)))
  }

  predicate Trim(s: string) {
    s == "" || (!IsSpace(s[0]) && !IsSpace(s[|s| - 1]))
  }

  lemma {:induction false} StripLeftTrims(s: string)
    ensures var r := StripLeft(s); r == "" || !IsSpace(r[0])
  {
    if s != "" && IsSpace(s[0]) {
      StripLeftTrims(s[1..]);
    }
  }

  lemma {:induction false} StripRightTrims(s: string)
    requires s == "" || !IsSpace(s[0])
    ensures Trim(StripRight(s))
  {
    if s != "" && IsSpace(s[|s| - 1]) {
      StripRightTrims(s[..|s| - 1]);
    }
  }

  lemma NormaliseIsIdempotent(s: string)
    ensures Normalise(Normalise(s)) == Normalise(s)
  {
    StripLeftTrims(s);
    StripRightTrims(StripLeft(s));
    var n := Normalise(s);
    assert Trim(n);
    assert StripRight(StripLeft(n)) == n;
    assert Lower(n) == n;
  }

  predicate Blank(s: string) {
    forall i :: 0 <= i < |s| ==> s[i] == ' ' || '\t' <= s[i] <= '\r' || '\U{001c}' <= s[i] <= '\U{001f}'
  }

  /** The letters of m in lower case, everything else as it is. */
  predicate Lowered(m: string, r: string) {
    |r| == |m| && forall i :: 0 <= i < |m| ==>
      r[i] == if 'A' <= m[i] && m[i] <= 'Z' then (m[i] as int + 32) as char else m[i]
  }

  lemma {:induction false} StripLeftDrops(s: string) returns (left: string)
    ensures s == left + StripLeft(s) && Blank(left)
  {
    left := "";
    if s != "" && IsSpace(s[0]) {
      var more := StripLeftDrops(s[1..]);
      left := [s[0]] + more;
      assert s == [s[0]] + s[1..];
    }
  }

  lemma {:induction false} StripRightDrops(s: string) returns (right: string)
    ensures s == StripRight(s) + right && Blank(right)
  {
    right := "";
    if s != "" && IsSpace(s[|s| - 1]) {
      var more := StripRightDrops(s[..|s| - 1]);
      right := more + [s[|s| - 1]];
      assert s == s[..|s| - 1] + [s[|s| - 1]];
    }
  }

  lemma TrimmedEnds(name: string)
    requires Trim(name) && name != ""
    ensures !Blank([name[0]]) && !Blank([name[|name| - 1]])
  {
    assert [name[0]][0] == name[0] && [name[|name| - 1]][0] == name[|name| - 1];
  }

  lemma LowerMeans(name: string)
    ensures Lowered(name, Lower(name))
  {
  }

  lemma InOrder(a: string, b: string, c: string)
    ensures a + (b + c) == a + b + c
  {
  }

  /** Normalising drops the white space around a name and lowers its letters, and does nothing else. */
  lemma NormaliseMeans(s: string) returns (left: string, name: string, right: string)
    ensures s == left + name + right && Blank(left) && Blank(right)
    ensures name != "" ==> !Blank([name[0]]) && !Blank([name[|name| - 1]])
    ensures Lowered(name, Normalise(s))
  {
    hide Blank, Lowered, Lower, StripLeft, StripRight, Trim, IsSpace;
    left := StripLeftDrops(s);
    right := StripRightDrops(StripLeft(s));
    name := StripRight(StripLeft(s));
    StripLeftTrims(s);
    StripRightTrims(StripLeft(s));
    InOrder(left, name, right);
    LowerMeans(name);
    if name != "" {
      TrimmedEnds(name);
    }
  }

  // ---- one deployment, uninterrupted -----------------------------------------------------

  datatype StampError = EmptyName | Mismatch(stamped: string) | NotStamped

  class Database {
    var tableExists: bool
    var stamp: Option<string>

    method CreateTableIfNotExists()
      modifies this
      ensures tableExists && stamp == old(stamp)
    {
      tableExists := true;
    }

    method SelectStamp() returns (row: Option<string>)
      requires tableExists
      ensures row == stamp
    {
      row := stamp;
    }

    /** INSERT ... ON CONFLICT (id) DO NOTHING */
    method InsertIfAbsent(environment: string)
      requires tableExists
      modifies this
      ensures tableExists && stamp == if old(stamp).None? then Some(environment) else old(stamp)
    {
      if stamp.None? {
        stamp := Some(environment);
      }
    }
  }

  method EnsureEnvironment(db: Database, raw: string) returns (r: Result<string, StampError>)
    modifies db
    ensures r == Err(EmptyName) <==> Normalise(raw) == ""
    ensures Normalise(raw) == "" ==> db.stamp == old(db.stamp) && db.tableExists == old(db.tableExists)
    ensures Normalise(raw) != "" ==>
      db.stamp == if old(db.stamp).None? then Some(Normalise(raw)) else old(db.stamp)
    ensures r.Ok? <==> Normalise(raw) != "" && (old(db.stamp).None? || Normalise(old(db.stamp).value) == Normalise(raw))
    ensures r.Ok? ==> r.value == Normalise(raw)
    ensures r.Err? && Normalise(raw) != "" ==> r.error == Mismatch(Normalise(old(db.stamp).value))
  {
    NormaliseIsIdempotent(raw);
    var environment := Normalise(raw);
    if environment == "" {
      return Err(EmptyName);
    }
    db.CreateTableIfNotExists();
    var row := db.SelectStamp();
    if row.None? {
      db.InsertIfAbsent(environment);
      row := db.SelectStamp();
      if row.None? {
        return Err(NotStamped);
      }
    }
    var stamped := Normalise(row.value);
    if stamped != environment {
      return Err(Mismatch(stamped));
    }
    return Ok(stamped);
  }

  // ---- many deployments, statement by statement ------------------------------------------

  datatype Phase =
    | Begun
    | TableReady
    | SawNoStamp
    | Inserted
    | Done(result: Result<string, StampError>)

  datatype Deployment = Deployment(raw: string, phase: Phase)

  datatype State = State(stamp: Option<string>, deployments: seq<Deployment>)

  function Compare(row: string, raw: string): Result<string, StampError> {
    if Normalise(row) != Normalise(raw) then Err(Mismatch(Normalise(row))) else Ok(Normalise(row))
  }

  function To(s: State, i: nat, phase: Phase): State
    requires i < |s.deployments|
  {
    s.(deployments := s.deployments[i := s.deployments[i].(phase := phase)])
  }

  /** Deployment i executes its next statement; a finished or unknown one does nothing. */
  function Step(s: State, i: nat): State {
    if i >= |s.deployments| then s
    else
      var raw := s.deployments[i].raw;
      match s.deployments[i].phase
      case Begun => To(s, i, if Normalise(raw) == "" then Done(Err(EmptyName)) else TableReady)
      case TableReady => To(s, i, if s.stamp.None? then SawNoStamp else Done(Compare(s.stamp.value, raw)))
      case SawNoStamp =>
        To(s, i, Inserted).(stamp := if s.stamp.None? then Some(Normalise(raw)) else s.stamp)
      case Inserted =>
        To(s, i, if s.stamp.None? then Done(Err(NotStamped)) else Done(Compare(s.stamp.value, raw)))
      case Done(_) => s
  }

  function Run(s: State, schedule: seq<nat>): State {
    if schedule == [] then s else Step(Run(s, schedule[..|schedule| - 1]), schedule[|schedule| - 1])
  }

  predicate Starting(s: State) {
    forall i :: 0 <= i < |s.deployments| ==> s.deployments[i].phase == Begun
  }

  /** Kept from `s` on: stamp and names persist, and every result matches the stamp. */
  predicate Kept(s: State, t: State) {
    && |t.deployments| == |s.deployments|
    && (forall i :: 0 <= i < |s.deployments| ==> t.deployments[i].raw == s.deployments[i].raw)
    && (s.stamp.Some? ==> t.stamp == s.stamp)
    && (forall i :: 0 <= i < |t.deployments| ==> Settled(t, t.deployments[i]))
    && (s.stamp.None? && t.stamp.Some? ==>
          exists i :: 0 <= i < |t.deployments| && t.stamp == Some(Normalise(t.deployments[i].raw)))
  }

  predicate Settled(t: State, d: Deployment) {
    match d.phase
    case Begun => true
    case TableReady => Normalise(d.raw) != ""
    case SawNoStamp => Normalise(d.raw) != ""
    case Inserted => Normalise(d.raw) != "" && t.stamp.Some?
    case Done(r) =>
      if Normalise(d.raw) == "" then r == Err(EmptyName) else t.stamp.Some? && r == Compare(t.stamp.value, d.raw)
  }

  lemma StepKeeps(s: State, t: State, i: nat)
    requires Kept(s, t)
    ensures Kept(s, Step(t, i))
    ensures t.stamp.Some? ==> Step(t, i).stamp == t.stamp
  {
    var u := Step(t, i);
    if i < |t.deployments| {
      assert Settled(t, t.deployments[i]);
      forall j | 0 <= j < |u.deployments|
        ensures Settled(u, u.deployments[j])
      {
        assert Settled(t, t.deployments[j]);
      }
      if s.stamp.None? && t.stamp.None? && u.stamp.Some? {
        assert u.stamp == Some(Normalise(u.deployments[i].raw));
      }
      if s.stamp.None? && t.stamp.Some? {
        var k :| 0 <= k < |t.deployments| && t.stamp == Some(Normalise(t.deployments[k].raw));
        assert u.stamp == Some(Normalise(u.deployments[k].raw));
      }
    }
  }

  lemma {:induction false} RunKeeps(s: State, schedule: seq<nat>)
    requires Starting(s)
    ensures Kept(s, Run(s, schedule))
  {
    if schedule != [] {
      RunKeeps(s, schedule[..|schedule| - 1]);
      StepKeeps(s, Run(s, schedule[..|schedule| - 1]), schedule[|schedule| - 1]);
    }
  }

  /** Once set, the stamp never changes, from any moment of any run on. */
  lemma {:induction false} StampNeverChanges(s: State, before: seq<nat>, after: seq<nat>)
    requires Starting(s) && Run(s, before).stamp.Some?
    ensures Run(s, before + after).stamp == Run(s, before).stamp
  {
    if after == [] {
      assert before + after == before;
    } else {
      var n := |after| - 1;
      assert (before + after)[..|before + after| - 1] == before + after[..n];
      StampNeverChanges(s, before, after[..n]);
      RunKeeps(s, before + after[..n]);
      StepKeeps(s, Run(s, before + after[..n]), after[n]);
    }
  }

  /** The stamp is the earlier one, or some participant's normalised non-empty name. */
  lemma StampProvenance(s: State, schedule: seq<nat>)
    requires Starting(s) && Run(s, schedule).stamp.Some?
    ensures var stamp := Run(s, schedule).stamp;
      stamp == s.stamp ||
      (s.stamp.None? && exists i :: 0 <= i < |s.deployments| && stamp == Some(Normalise(s.deployments[i].raw)))
  {
    RunKeeps(s, schedule);
    var t := Run(s, schedule);
    if s.stamp.None? {
      var i :| 0 <= i < |t.deployments| && t.stamp == Some(Normalise(t.deployments[i].raw));
      assert t.stamp == Some(Normalise(s.deployments[i].raw));
    }
  }

  /**
   A deployment that has finished was accepted exactly when its name is the stamp's, and was
   told so; the "row vanished" error never happens.
   */
  lemma FinishedExactly(s: State, schedule: seq<nat>, i: nat)
    requires Starting(s) && i < |s.deployments|
    requires var t := Run(s, schedule); i < |t.deployments| && t.deployments[i].phase.Done?
    ensures var t, name := Run(s, schedule), Normalise(s.deployments[i].raw);
      var r := t.deployments[i].phase.result;
      && (r == Err(EmptyName) <==> name == "")
      && r != Err(NotStamped)
      && (r.Ok? <==> name != "" && t.stamp.Some? && Normalise(t.stamp.value) == name)
      && (r.Ok? ==> r.value == name)
  {
    RunKeeps(s, schedule);
    assert Settled(Run(s, schedule), Run(s, schedule).deployments[i]);
  }

  /** All deployments that get through run in the same environment. */
  lemma AcceptedAgree(s: State, schedule: seq<nat>, i: nat, j: nat)
    requires Starting(s)
    requires var ds := Run(s, schedule).deployments;
      i < |ds| && j < |ds| && ds[i].phase.Done? && ds[j].phase.Done? &&
      ds[i].phase.result.Ok? && ds[j].phase.result.Ok?
    ensures Run(s, schedule).deployments[i].phase.result == Run(s, schedule).deployments[j].phase.result
  {
    RunKeeps(s, schedule);
    FinishedExactly(s, schedule, i);
    FinishedExactly(s, schedule, j);
  }

  predicate Accepted(t: State, i: nat, name: string) {
    i < |t.deployments| && t.deployments[i].phase == Done(Ok(name))
  }

  /** On a fresh database the race has a winner: once all have finished, somebody with a name got through. */
  lemma FreshDatabaseHasWinner(s: State, schedule: seq<nat>, named: nat)
    requires Starting(s) && s.stamp.None?
    requires named < |s.deployments| && Normalise(s.deployments[named].raw) != ""
    requires forall i :: 0 <= i < |Run(s, schedule).deployments| ==> Run(s, schedule).deployments[i].phase.Done?
    ensures exists i :: 0 <= i < |s.deployments| && Accepted(Run(s, schedule), i, Normalise(s.deployments[i].raw))
  {
    RunKeeps(s, schedule);
    var t := Run(s, schedule);
    assert Settled(t, t.deployments[named]);
    var w :| 0 <= w < |t.deployments| && t.stamp == Some(Normalise(t.deployments[w].raw));
    NormaliseIsIdempotent(s.deployments[w].raw);
    assert Settled(t, t.deployments[w]) && t.deployments[w].raw == s.deployments[w].raw;
    StampIsNamed(s, schedule);
    assert Accepted(t, w, Normalise(s.deployments[w].raw));
  }

  /** What gets stamped is never empty. */
  lemma {:induction false} StampIsNamed(s: State, schedule: seq<nat>)
    requires Starting(s) && s.stamp.None?
    ensures Run(s, schedule).stamp != Some("")
  {
    if schedule != [] {
      var n := |schedule| - 1;
      StampIsNamed(s, schedule[..n]);
      RunKeeps(s, schedule[..n]);
      var t := Run(s, schedule[..n]);
      if schedule[n] < |t.deployments| {
        assert Settled(t, t.deployments[schedule[n]]);
      }
    }
  }

  /** An uninterrupted deployment is the run in which it alone moves, four statements long at most. */
  lemma AloneIsARun(stamp: Option<string>, raw: string)
    ensures var t := Run(State(stamp, [Deployment(raw, Begun)]), [0, 0, 0, 0]);
      var name := Normalise(raw);
      && t.stamp == (if name != "" && stamp.None? then Some(name) else stamp)
      && t.deployments == [Deployment(raw, Done(
           if name == "" then Err(EmptyName)
           else if stamp.None? || Normalise(stamp.value) == name then Ok(name)
           else Err(Mismatch(Normalise(stamp.value)))))]
  {
    NormaliseIsIdempotent(raw);
    var s := State(stamp, [Deployment(raw, Begun)]);
    var one: seq<nat>, two: seq<nat>, three: seq<nat>, four: seq<nat> := [0], [0, 0], [0, 0, 0], [0, 0, 0, 0];
    assert one[..0] == [] && two[..1] == one && three[..2] == two && four[..3] == three;
    assert Run(s, one) == Step(s, 0);
    assert Run(s, two) == Step(Run(s, one), 0);
    assert Run(s, three) == Step(Run(s, two), 0);
    assert Run(s, four) == Step(Run(s, three), 0);
  }
}
