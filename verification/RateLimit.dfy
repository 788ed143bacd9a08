/** The sliding-window limiter (app/runtime/rate_limit.py), against the full admission history. */
module RateLimit {
  import opened Common

  /** How many of the instants lie in (lo, hi]. */
  function Count(times: seq<real>, lo: real, hi: real): nat {
    if times == [] then 0
    else
      var last := times[|times| - 1];
      Count(times[..|times| - 1], lo, hi) + if lo < last <= hi then 1 else 0
  }

  predicate Sorted(times: seq<real>) {
    forall i, j :: 0 <= i < j < |times| ==> times[i] <= times[j]
  }

  /** The admission `limit` places back is at least one window older. */
  predicate Spaced(times: seq<real>, limit: int, window: real) {
    && (times != [] ==> limit >= 1)
    && forall i, j :: 0 <= i < |times| && j == i + limit && j < |times| ==> times[i] <= times[j] - window
  }

  /** The count is the number of positions whose instant lies after lo and not after hi. */
  lemma {:induction false} CountIsCardinality(times: seq<real>, lo: real, hi: real)
    ensures Count(times, lo, hi) == |set i | 0 <= i < |times| && lo < times[i] && times[i] <= hi|
  {
    var within := set i | 0 <= i < |times| && lo < times[i] && times[i] <= hi;
    if times != [] {
      var n := |times| - 1;
      CountIsCardinality(times[..n], lo, hi);
      var before := set i | 0 <= i < n && lo < times[..n][i] && times[..n][i] <= hi;
      assert within == before + if lo < times[n] <= hi then {n} else {};
    }
  }

  lemma {:induction false} CountAppend(a: seq<real>, b: seq<real>, lo: real, hi: real)
    ensures Count(a + b, lo, hi) == Count(a, lo, hi) + Count(b, lo, hi)
  {
    if b == [] {
      assert a + b == a;
    } else {
      var n := |b| - 1;
      assert (a + b)[..|a + b| - 1] == a + b[..n];
      CountAppend(a, b[..n], lo, hi);
    }
  }

  lemma {:induction false} CountNone(times: seq<real>, lo: real, hi: real)
    requires forall i :: 0 <= i < |times| ==> times[i] <= lo || hi < times[i]
    ensures Count(times, lo, hi) == 0
  {
    if times != [] {
      CountNone(times[..|times| - 1], lo, hi);
    }
  }

  lemma {:induction false} CountAtMost(times: seq<real>, lo: real, hi: real)
    ensures Count(times, lo, hi) <= |times|
    ensures (forall i :: 0 <= i < |times| ==> lo < times[i] <= hi) ==> Count(times, lo, hi) == |times|
  {
    if times != [] {
      CountAtMost(times[..|times| - 1], lo, hi);
    }
  }

  /** Dropping admissions that are too old for the window does not change the count. */
  lemma EvictionKeepsCount(all: seq<real>, kept: seq<real>, lo: real, hi: real)
    requires |kept| <= |all| && all[|all| - |kept|..] == kept
    requires forall i :: 0 <= i < |all| - |kept| ==> all[i] <= lo
    ensures Count(all, lo, hi) == Count(kept, lo, hi)
    ensures Sorted(all) && (forall i :: 0 <= i < |all| ==> all[i] <= hi) && (kept == [] || kept[0] > lo) ==>
      Count(all, lo, hi) == |kept|
  {
    var dropped := all[..|all| - |kept|];
    assert all == dropped + kept;
    CountAppend(dropped, kept, lo, hi);
    CountNone(dropped, lo, hi);
    if Sorted(all) && (forall i :: 0 <= i < |all| ==> all[i] <= hi) && (kept == [] || kept[0] > lo) {
      forall i | 0 <= i < |kept|
        ensures lo < kept[i] <= hi
      {
        assert kept[i] == all[|dropped| + i] && kept[0] == all[|dropped|];
      }
      CountAtMost(kept, lo, hi);
    }
  }

  /** The count over a window is at most the number of admissions after position k, if k is too old. */
  lemma CountAfter(times: seq<real>, k: nat, lo: real, hi: real)
    requires Sorted(times) && k < |times| && times[k] <= lo
    ensures Count(times, lo, hi) <= |times| - k - 1
  {
    var early, recent := times[..k + 1], times[k + 1..];
    assert times == early + recent;
    forall i | 0 <= i < |early|
      ensures early[i] <= lo
    {
      assert times[i] <= times[k];
    }
    CountNone(early, lo, hi);
    CountAtMost(recent, lo, hi);
    CountAppend(early, recent, lo, hi);
  }

  /** If position k is inside the window, so is everything from k on. */
  lemma CountFrom(times: seq<real>, k: nat, lo: real, hi: real)
    requires Sorted(times) && k < |times| && lo < times[k]
    requires forall i :: 0 <= i < |times| ==> times[i] <= hi
    ensures Count(times, lo, hi) >= |times| - k
  {
    var early, recent := times[..k], times[k..];
    assert times == early + recent;
    forall i | 0 <= i < |recent|
      ensures lo < recent[i] <= hi
    {
      assert recent[i] == times[k + i] && times[k] <= times[k + i];
    }
    CountAtMost(recent, lo, hi);
    CountAppend(early, recent, lo, hi);
  }

  lemma SpacedAt(times: seq<real>, limit: int, window: real, i: nat, j: nat)
    requires Spaced(times, limit, window) && j == i + limit && j < |times|
    ensures times[i] <= times[j] - window
  {
  }

  lemma SpacedPrefix(times: seq<real>, limit: int, window: real, n: nat)
    requires Sorted(times) && Spaced(times, limit, window) && n <= |times|
    ensures Sorted(times[..n]) && Spaced(times[..n], limit, window)
  {
  }

  /** No window of any position ever holds more than `limit` admissions. */
  lemma {:induction false} SpacedBoundsEveryWindow(times: seq<real>, limit: int, window: real, t: real)
    requires Sorted(times) && Spaced(times, limit, window)
    ensures Count(times, t - window, t) <= if limit < 0 then 0 else limit
  {
    if times != [] {
      var n := |times| - 1;
      if times[n] > t {
        SpacedPrefix(times, limit, window, n);
        SpacedBoundsEveryWindow(times[..n], limit, window, t);
      } else if n >= limit {
        SpacedAt(times, limit, window, n - limit, n);
        CountAfter(times, n - limit, t - window, t);
      } else {
        CountAtMost(times, t - window, t);
      }
    }
  }

  /** Admitting when the window has room keeps the history spaced. */
  lemma AdmitKeepsSpaced(times: seq<real>, limit: int, window: real, now: real)
    requires Sorted(times) && Spaced(times, limit, window)
    requires forall i :: 0 <= i < |times| ==> times[i] <= now
    requires Count(times, now - window, now) < limit
    ensures Sorted(times + [now]) && Spaced(times + [now], limit, window)
  {
    var longer := times + [now];
    forall i, j | 0 <= i < |longer| && j == i + limit && j < |longer|
      ensures longer[i] <= longer[j] - window
    {
      if j < |times| {
        SpacedAt(times, limit, window, i, j);
      } else if times[i] > now - window {
        CountFrom(times, i, now - window, now);
      }
    }
  }

  /** `kept` is the part of the history `all` that eviction up to `clock` may not drop, or more. */
  predicate Tracks(all: seq<real>, kept: seq<real>, clock: real, limit: int, window: real) {
    && |kept| <= |all| && all[|all| - |kept|..] == kept
    && (forall i :: 0 <= i < |all| - |kept| ==> all[i] <= clock - window)
    && (forall i :: 0 <= i < |all| ==> all[i] <= clock)
    && Sorted(all) && Spaced(all, limit, window)
  }

  lemma TracksLater(all: seq<real>, kept: seq<real>, clock: real, later: real, limit: int, window: real)
    requires Tracks(all, kept, clock, limit, window) && clock <= later
    ensures Tracks(all, kept, later, limit, window)
  {
  }

  /** The front of the kept part may be dropped once it has left the window. */
  lemma TracksDrop(all: seq<real>, kept: seq<real>, now: real, limit: int, window: real)
    requires Tracks(all, kept, now, limit, window) && kept != [] && kept[0] <= now - window
    ensures Tracks(all, kept[1..], now, limit, window)
  {
    hide Sorted, Spaced;
    var n := |all| - |kept|;
    assert all[n] == all[n..][0] == kept[0];
    assert all[n + 1..] == all[n..][1..];
  }

  /** Once the front is inside the window, what is kept is what the window holds. */
  lemma TracksCount(all: seq<real>, kept: seq<real>, now: real, limit: int, window: real)
    requires Tracks(all, kept, now, limit, window) && (kept == [] || kept[0] > now - window)
    ensures |kept| == Count(all, now - window, now)
  {
    hide Sorted, Spaced;
    EvictionKeepsCount(all, kept, now - window, now);
  }

  lemma TracksAdmit(all: seq<real>, kept: seq<real>, now: real, limit: int, window: real)
    requires Tracks(all, kept, now, limit, window) && Count(all, now - window, now) < limit
    ensures Tracks(all + [now], kept + [now], now, limit, window)
  {
    AdmitKeepsSpaced(all, limit, window, now);
  }

  method CountLive(times: seq<real>, cutoff: real, now: real) returns (used: nat)
    requires forall i :: 0 <= i < |times| ==> times[i] <= now
    ensures used == Count(times, cutoff, now)
  {
    used := 0;
    for i := 0 to |times|
      invariant used == Count(times[..i], cutoff, now)
    {
      assert times[..i + 1][..i] == times[..i];
      if times[i] > cutoff {
        used := used + 1;
      }
    }
    assert times[..|times|] == times;
  }

  class SlidingWindowRateLimiter {
    const limit: int
    const window: real
    var events: map<string, seq<real>>
    /** Every admission ever made, per key, and the last instant the limiter was asked at. */
    ghost var admitted: map<string, seq<real>>
    ghost var clock: real

    ghost function History(key: string): seq<real>
      reads this
    {
      HistoryOf(admitted, key)
    }

    function Kept(key: string): seq<real>
      reads this
    {
      if key in events then events[key] else []
    }

    ghost predicate Valid()
      reads this
    {
      forall key :: Tracks(History(key), Kept(key), clock, limit, window)
    }

    constructor (limit: int, window: real, start: real)
      ensures Valid() && this.limit == limit && this.window == window && clock == start && admitted == map[]
    {
      this.limit, this.window := limit, window;
      events, admitted, clock := map[], map[], start;
    }

    /** Pops the expired events; what is left is what the full history has in the window. */
    method Evict(key: string, now: real) returns (kept: seq<real>)
      requires Valid() && now >= clock
      ensures Tracks(History(key), kept, now, limit, window)
      ensures |kept| == Count(History(key), now - window, now)
    {
      hide Tracks, Count;
      ghost var all := History(key);
      kept := Kept(key);
      TracksLater(all, kept, clock, now, limit, window);
      while kept != [] && kept[0] <= now - window
        invariant Tracks(all, kept, now, limit, window)
      {
        TracksDrop(all, kept, now, limit, window);
        kept := kept[1..];
      }
      TracksCount(all, kept, now, limit, window);
    }

    method Keep(key: string, kept: seq<real>, ghost all: seq<real>, now: real)
      requires Valid() && now >= clock && Tracks(all, kept, now, limit, window)
      modifies this
      ensures Valid() && clock == now && admitted == old(admitted)[key := all]
    {
      hide Tracks;
      events := events[key := kept];
      admitted := admitted[key := all];
      clock := now;
      OthersTracked(key);
    }

    /** Denies exactly when `limit` admissions lie in (now - window, now]. */
    method Allow(key: string, now: real) returns (ok: bool)
      requires Valid() && now >= clock
      modifies this
      ensures Valid() && clock == now
      ensures ok <==> Count(old(History(key)), now - window, now) < limit
      ensures Grew(old(admitted), admitted, key, if ok then [now] else [])
    {
      hide Tracks, Count, Valid;
      var kept := Evict(key, now);
      if |kept| >= limit {
        Keep(key, kept, History(key), now);
        assert old(History(key)) == old(History(key)) + [];
        return false;
      }
      TracksAdmit(History(key), kept, now, limit, window);
      Keep(key, kept + [now], History(key) + [now], now);
      return true;
    }

    /** A call for one key leaves every other key tracked. */
    twostate lemma OthersTracked(key: string)
      requires old(Valid()) && old(clock) <= clock
      requires Tracks(History(key), Kept(key), clock, limit, window)
      requires forall other :: other != key ==> History(other) == old(History(other)) && Kept(other) == old(Kept(other))
      ensures Valid()
    {
      hide Tracks;
      forall other
        ensures Tracks(History(other), Kept(other), clock, limit, window)
      {
        if other != key {
          assert Tracks(old(History(other)), old(Kept(other)), old(clock), limit, window);
          TracksLater(History(other), Kept(other), old(clock), clock, limit, window);
        }
      }
    }

    /** The display count is the number the next Allow at that instant compares with the limit. */
    method Usage(key: string, now: real) returns (used: nat)
      requires Valid() && now >= clock
      ensures used == Count(History(key), now - window, now)
    {
      ghost var all := History(key);
      var kept := Kept(key);
      assert Tracks(all, kept, clock, limit, window);
      var cutoff := now - window;
      EvictionKeepsCount(all, kept, cutoff, now);
      forall i | 0 <= i < |kept|
        ensures kept[i] <= now
      {
        assert kept[i] == all[|all| - |kept| + i];
      }
      used := CountLive(kept, cutoff, now);
    }

    /** For every key and every instant the window ending there holds at most `limit` admissions. */
    lemma WindowNeverExceeds(key: string, t: real)
      requires Valid()
      ensures Count(History(key), t - window, t) <= if limit < 0 then 0 else limit
    {
      assert Tracks(History(key), Kept(key), clock, limit, window);
      SpacedBoundsEveryWindow(History(key), limit, window, t);
    }
  }
}
