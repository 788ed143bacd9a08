/** Small datatypes and functions shared by the components. */
module Common {
  datatype Option<+T> = None | Some(value: T)

  datatype Result<+T, +E> = Ok(value: T) | Err(error: E)

  function Pow2(n: nat): nat {
    if n == 0 then 1 else 2 * Pow2(n - 1)
  }

  lemma {:induction false} Pow2Doubles(n: nat)
    ensures Pow2(0) == 1 && Pow2(n + 1) == 2 * Pow2(n) && Pow2(n) >= n + 1
  {
    if n > 0 {
      Pow2Doubles(n - 1);
    }
  }

  /** The sequence with position i left out. */
  function Without<T>(s: seq<T>, i: nat): seq<T>
    requires i < |s|
  {
    s[..i] + s[i + 1..]
  }

  /** What has been recorded for a key. */
  function HistoryOf<T>(histories: map<string, seq<T>>, key: string): seq<T> {
    if key in histories then histories[key] else []
  }

  /** Exactly these entries were added, and only for this key. */
  ghost predicate Grew<T>(was: map<string, seq<T>>, now: map<string, seq<T>>, key: string, added: seq<T>) {
    HistoryOf(now, key) == HistoryOf(was, key) + added &&
    forall other {:trigger HistoryOf(now, other)} :: other != key ==> HistoryOf(now, other) == HistoryOf(was, other)
  }

  lemma GrewNothing<T>(history: map<string, seq<T>>, key: string)
    ensures Grew(history, history, key, [])
  {
    assert HistoryOf(history, key) + [] == HistoryOf(history, key);
  }

  lemma GrewTwice<T>(a: map<string, seq<T>>, b: map<string, seq<T>>, c: map<string, seq<T>>,
                     key: string, first: seq<T>, second: seq<T>)
    requires Grew(a, b, key, first) && Grew(b, c, key, second)
    ensures Grew(a, c, key, first + second)
  {
    assert HistoryOf(a, key) + first + second == HistoryOf(a, key) + (first + second);
    forall other | other != key
      ensures HistoryOf(c, other) == HistoryOf(a, other)
    {
      assert HistoryOf(b, other) == HistoryOf(a, other);
    }
  }
}
