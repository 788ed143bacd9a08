/** The circuit breaker (app/runtime/circuit_breaker.py), against the history of its events. */
module CircuitBreaker {
  import opened Common

  datatype CircuitState = CircuitState(failures: nat, openedAt: Option<real>)

  const Closed := CircuitState(0, None)

  /** One call of allow, success or failure for a key; asking and failing read the clock. */
  datatype Event = Asked(at: real) | Succeeded | Failed(at: real)

  datatype Settings = Settings(threshold: int, recovery: real)

  predicate Passes(s: CircuitState, now: real, c: Settings) {
    s.openedAt.None? || now - s.openedAt.value >= c.recovery
  }

  /** The state after a history. */
  function Replay(h: seq<Event>, c: Settings): CircuitState {
    if h == [] then Closed
    else
      var s := Replay(h[..|h| - 1], c);
      match h[|h| - 1]
      case Succeeded => Closed
      case Failed(at) =>
        CircuitState(s.failures + 1, if s.failures + 1 >= c.threshold then Some(at) else s.openedAt)
      case Asked(at) => if s.openedAt.Some? && Passes(s, at, c) then Closed else s
  }

  /** Event i returned the key to the closed state: a success, or a call let through after recovery. */
  predicate Resets(h: seq<Event>, c: Settings, i: nat)
    requires i < |h|
  {
    h[i].Succeeded? ||
    (h[i].Asked? && Replay(h[..i], c).openedAt.Some? && Passes(Replay(h[..i], c), h[i].at, c))
  }

  /** How many failures follow the last reset. */
  function FailuresSinceReset(h: seq<Event>, c: Settings): nat {
    if h == [] then 0
    else
      var n := |h| - 1;
      if Resets(h, c, n) then 0
      else FailuresSinceReset(h[..n], c) + if h[n].Failed? then 1 else 0
  }

  /** Event i is the latest failure since the last reset. */
  predicate LatestFailure(h: seq<Event>, c: Settings, i: nat) {
    && i < |h| && h[i].Failed?
    && forall k :: i < k < |h| ==> !h[k].Failed? && !Resets(h, c, k)
  }

  lemma ResetsInPrefix(h: seq<Event>, c: Settings, n: nat, k: nat)
    requires k < n <= |h|
    ensures Resets(h[..n], c, k) == Resets(h, c, k)
  {
    assert h[..n][..k] == h[..k];
  }

  lemma LatestFailureExtends(h: seq<Event>, c: Settings, i: nat)
    requires h != [] && LatestFailure(h[..|h| - 1], c, i)
    requires !h[|h| - 1].Failed? && !Resets(h, c, |h| - 1)
    ensures LatestFailure(h, c, i)
  {
    var p := h[..|h| - 1];
    forall k | i < k < |h|
      ensures !h[k].Failed? && !Resets(h, c, k)
    {
      if k < |h| - 1 {
        ResetsInPrefix(h, c, |h| - 1, k);
        assert !p[k].Failed? && !Resets(p, c, k);
      }
    }
  }

  /**
   The counter is the number of failures since the last reset; the circuit is open exactly
   when that number has reached the threshold, and it opened at the latest of them.
   */
  lemma {:induction false} ReplayMeaning(h: seq<Event>, c: Settings)
    ensures var s := Replay(h, c);
      && s.failures == FailuresSinceReset(h, c)
      && (s.openedAt.Some? <==> s.failures >= 1 && s.failures >= c.threshold)
      && (s.openedAt.Some? ==> exists i: nat :: LatestFailure(h, c, i) && s.openedAt == Some(h[i].at))
  {
    if h != [] {
      var n := |h| - 1;
      var p := h[..n];
      ReplayMeaning(p, c);
      var s := Replay(h, c);
      if h[n].Failed? {
        assert LatestFailure(h, c, n);
      } else if s.openedAt.Some? {
        var i: nat :| LatestFailure(p, c, i) && Replay(p, c).openedAt == Some(p[i].at);
        LatestFailureExtends(h, c, i);
        assert h[i] == p[i];
      }
    }
  }

  /** Being asked closes an open circuit once the recovery time has passed, and changes nothing before. */
  lemma AskedAfterRecovery(h: seq<Event>, c: Settings, now: real)
    ensures var s, t := Replay(h, c), Replay(h + [Asked(now)], c);
      if s.openedAt.Some? && now - s.openedAt.value >= c.recovery then t == CircuitState(0, None) else t == s
  {
    assert (h + [Asked(now)])[..|h|] == h;
  }

  /** A call passes while the circuit is closed, and again once the recovery time has passed. */
  lemma PassesMeaning(s: CircuitState, now: real, c: Settings)
    ensures s.openedAt.None? ==> Passes(s, now, c)
    ensures s.openedAt.Some? ==> (Passes(s, now, c) <==> now - s.openedAt.value >= c.recovery)
  {
  }

  /** A failure counts one more and opens the circuit from the threshold on; a success forgets everything. */
  lemma OutcomesCounted(h: seq<Event>, c: Settings, at: real)
    ensures var s, t := Replay(h, c), Replay(h + [Failed(at)], c);
      t.failures == s.failures + 1 && t.openedAt == if s.failures + 1 >= c.threshold then Some(at) else s.openedAt
    ensures Replay(h + [Succeeded], c) == CircuitState(0, None)
  {
    assert (h + [Failed(at)])[..|h|] == h && (h + [Succeeded])[..|h|] == h;
  }

  /** The clock never runs backwards over the events of a key, and `now` is not before them. */
  predicate Ordered(h: seq<Event>, now: real) {
    && (forall i :: 0 <= i < |h| && !h[i].Succeeded? ==> h[i].at <= now)
    && (forall i, j :: 0 <= i < j < |h| && !h[i].Succeeded? && !h[j].Succeeded? ==> h[i].at <= h[j].at)
  }

  /**
   Cool-down: once a failure has opened the circuit, no call within the recovery time of that
   failure is let through unless a success came in between.
   */
  lemma {:induction false} StaysOpen(h: seq<Event>, c: Settings, i: nat, now: real)
    requires i < |h| && h[i].Failed? && Ordered(h, now) && now - h[i].at < c.recovery
    requires Replay(h[..i + 1], c).openedAt.Some?
    requires forall k :: i < k < |h| ==> !h[k].Succeeded?
    ensures var s := Replay(h, c);
      s.openedAt.Some? && s.openedAt.value >= h[i].at && !Passes(s, now, c)
  {
    var n := |h| - 1;
    if i == n {
      assert h[..i + 1] == h;
      ReplayMeaning(h[..n], c);
    } else {
      var p := h[..n];
      assert p[..i + 1] == h[..i + 1];
      assert h[n].at <= now;
      StaysOpen(p, c, i, h[n].at);
    }
  }

  /** A call is refused exactly when some failure that opened the circuit is recent and not forgiven. */
  lemma RefusedExactlyWhen(h: seq<Event>, c: Settings, now: real)
    requires Ordered(h, now)
    ensures !Passes(Replay(h, c), now, c) <==>
      exists i :: 0 <= i < |h| && h[i].Failed? && Replay(h[..i + 1], c).openedAt.Some? &&
        now - h[i].at < c.recovery && forall k :: i < k < |h| ==> !h[k].Succeeded?
  {
    ReplayMeaning(h, c);
    if !Passes(Replay(h, c), now, c) {
      var i: nat :| LatestFailure(h, c, i) && Replay(h, c).openedAt == Some(h[i].at);
      StillOpenSince(h, c, i);
      forall k | i < k < |h|
        ensures !h[k].Succeeded?
      {
        assert !Resets(h, c, k);
      }
    }
    forall i | 0 <= i < |h| && h[i].Failed? && Replay(h[..i + 1], c).openedAt.Some? &&
        now - h[i].at < c.recovery && forall k :: i < k < |h| ==> !h[k].Succeeded?
      ensures !Passes(Replay(h, c), now, c)
    {
      StaysOpen(h, c, i, now);
    }
  }

  /** Nothing but the latest failure itself can have opened a circuit that is open now. */
  lemma {:induction false} StillOpenSince(h: seq<Event>, c: Settings, i: nat)
    requires LatestFailure(h, c, i) && Replay(h, c).openedAt.Some?
    ensures Replay(h[..i + 1], c).openedAt.Some?
  {
    var n := |h| - 1;
    if i == n {
      assert h[..i + 1] == h;
    } else {
      var p := h[..n];
      forall k | i < k < |p|
        ensures !p[k].Failed? && !Resets(p, c, k)
      {
        ResetsInPrefix(h, c, n, k);
      }
      assert !h[n].Failed? && !Resets(h, c, n);
      StillOpenSince(p, c, i);
      assert p[..i + 1] == h[..i + 1];
    }
  }

  datatype Snapshot = Snapshot(open: bool, failures: nat, recoversIn: Option<real>)

  class Breaker {
    const settings: Settings
    var states: map<string, CircuitState>
    ghost var history: map<string, seq<Event>>

    ghost function History(key: string): seq<Event>
      reads this
    {
      HistoryOf(history, key)
    }

    function StateOf(key: string): CircuitState
      reads this
    {
      if key in states then states[key] else Closed
    }

    ghost predicate Valid()
      reads this
    {
      forall key :: StateOf(key) == Replay(History(key), settings)
    }

    constructor (threshold: int, recovery: real)
      ensures Valid() && settings == Settings(threshold, recovery) && history == map[]
    {
      settings := Settings(threshold, recovery);
      states, history := map[], map[];
    }

    /** A step on one key leaves every other key's state and history alone. */
    twostate lemma OthersKept(key: string)
      requires old(Valid()) && StateOf(key) == Replay(History(key), settings)
      requires forall other :: other != key ==>
        StateOf(other) == old(StateOf(other)) && History(other) == old(History(other))
      ensures Valid()
    {
    }

    ghost method Record(key: string, e: Event)
      modifies this`history
      ensures Grew(old(history), history, key, [e])
    {
      history := history[key := History(key) + [e]];
    }

    method Allow(key: string, now: real) returns (ok: bool)
      requires Valid()
      modifies this
      ensures Valid() && Grew(old(history), history, key, [Asked(now)])
      ensures ok == Passes(Replay(old(History(key)), settings), now, settings)
    {
      ghost var h := History(key);
      assert (h + [Asked(now)])[..|h|] == h;
      var state := StateOf(key);
      states := states[key := state];
      Record(key, Asked(now));
      ok := state.openedAt.None?;
      if state.openedAt.Some? && now - state.openedAt.value >= settings.recovery {
        states := states[key := Closed];
        ok := true;
      }
      OthersKept(key);
    }

    method Success(key: string)
      requires Valid()
      modifies this
      ensures Valid() && Grew(old(history), history, key, [Succeeded])
    {
      ghost var h := History(key);
      assert (h + [Succeeded])[..|h|] == h;
      states := states[key := Closed];
      Record(key, Succeeded);
      OthersKept(key);
    }

    method Failure(key: string, now: real)
      requires Valid()
      modifies this
      ensures Valid() && Grew(old(history), history, key, [Failed(now)])
    {
      ghost var h := History(key);
      assert (h + [Failed(now)])[..|h|] == h;
      var state := StateOf(key);
      state := state.(failures := state.failures + 1);
      if state.failures >= settings.threshold {
        state := state.(openedAt := Some(now));
      }
      states := states[key := state];
      Record(key, Failed(now));
      OthersKept(key);
    }

    /** Says open exactly when Allow would refuse at that instant. */
    method Status(key: string, now: real) returns (r: Snapshot)
      requires Valid()
      ensures var s := Replay(History(key), settings);
        && r.open == !Passes(s, now, settings)
        && r.failures == FailuresSinceReset(History(key), settings)
        && r.recoversIn == if r.open then Some(settings.recovery - (now - s.openedAt.value)) else None
    {
      ReplayMeaning(History(key), settings);
      var state := StateOf(key);
      if state.openedAt.None? {
        return Snapshot(false, state.failures, None);
      }
      var left := settings.recovery - (now - state.openedAt.value);
      var remaining := if left > 0.0 then left else 0.0;
      return Snapshot(remaining > 0.0, state.failures, if remaining > 0.0 then Some(remaining) else None);
    }
  }
}
