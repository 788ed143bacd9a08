/** Packing ranked memories into a bounded context (app/memory/semantic.py). */
module ContextPacking {
  /** "\n".join(lines) */
  function Join(lines: seq<string>): string {
    if lines == [] then ""
    else if |lines| == 1 then lines[0]
    else Join(lines[..|lines| - 1]) + "\n" + lines[|lines| - 1]
  }

  /** The separator that the next line costs. */
  function Sep(lines: seq<string>): nat {
    if lines == [] then 0 else 1
  }

  lemma JoinNext(lines: seq<string>, next: string)
    ensures Join(lines + [next]) == if lines == [] then next else Join(lines) + "\n" + next
  {
    assert (lines + [next])[..|lines + [next]| - 1] == lines;
  }

  lemma {:induction false} JoinPrefix(lines: seq<string>, k: nat)
    requires k <= |lines|
    ensures Join(lines[..k]) <= Join(lines)
    ensures k < |lines| ==> Join(lines[..k]) + (if k == 0 then "" else "\n") + lines[k] <= Join(lines)
  {
    var n := |lines| - 1;
    if k == |lines| {
      assert lines[..k] == lines;
    } else {
      assert lines == lines[..n] + [lines[n]];
      JoinNext(lines[..n], lines[n]);
      if k < n {
        JoinPrefix(lines[..n], k);
        assert lines[..n][..k] == lines[..k];
      } else {
        assert lines[..k] == lines[..n];
      }
    }
  }

  /** The largest number of whole lines whose join fits. */
  predicate Fits(all: seq<string>, k: nat, limit: int) {
    k <= |all| && |Join(all[..k])| <= limit && (k < |all| ==> |Join(all[..k + 1])| > limit)
  }

  /**
   The packed text: as many whole lines as fit, then as much of the next line as is left,
   provided that is more than 20 characters.
   */
  predicate Packed(all: seq<string>, limit: int, k: nat, text: string) {
    && Fits(all, k, limit)
    && if k == |all| then text == Join(all)
       else
         var room := limit - |Join(all[..k])| - Sep(all[..k]);
         if room > 20 then |text| == limit && text <= Join(all)
         else text == Join(all[..k])
  }

  method CompressRankedMemories(all: seq<string>, limit: int) returns (text: string, ghost k: nat)
    ensures limit >= 0 ==> Packed(all, limit, k, text)
    ensures limit >= 0 ==>
      && k <= |all| && |Join(all[..k])| <= limit
      && (k == |all| ==> text == Join(all))
      && (k < |all| ==>
            var room := limit - |Join(all[..k])| - (if k == 0 then 0 else 1);
            && room < |all[k]|
            && if room > 20
               then text == Join(all[..k]) + (if k == 0 then "" else "\n") + all[k][..room]
               else text == Join(all[..k]))
    ensures limit < 0 ==> text == ""
  {
    var lines: seq<string> := [];
    var used := 0;
    k := |all|;
    assert all[..0] == [];
    for i := 0 to |all|
      invariant lines == all[..i] && used == |Join(lines)| && k == |all|
      invariant i > 0 ==> 0 <= used <= limit
    {
      var line := all[i];
      var extra := |line| + if lines == [] then 0 else 1;
      JoinNext(lines, line);
      assert all[..i + 1] == all[..i] + [line];
      if used + extra > limit {
        k := i;
        var remaining := limit - used - if lines == [] then 0 else 1;
        if remaining > 20 {
          JoinNext(lines, line[..remaining]);
          CutLineIsPrefix(all, i, remaining);
          return Join(lines + [line[..remaining]]), k;
        }
        return Join(lines), k;
      }
      lines := lines + [line];
      used := used + extra;
    }
    text := Join(lines);
    assert all[..|all|] == all;
  }

  /** Whole lines followed by the front of the next one are a prefix of the full context. */
  lemma CutLineIsPrefix(all: seq<string>, k: nat, cut: nat)
    requires k < |all| && cut <= |all[k]|
    ensures Join(all[..k] + [all[k][..cut]]) <= Join(all)
  {
    JoinPrefix(all, k);
    JoinNext(all[..k], all[k][..cut]);
    var whole := Join(all[..k]) + (if k == 0 then "" else "\n") + all[k];
    assert Join(all[..k] + [all[k][..cut]]) == whole[..|whole| - |all[k]| + cut];
  }

  /** The text is a prefix of the full context and fits the limit whenever the limit is not negative. */
  lemma PackedIsBoundedPrefix(all: seq<string>, limit: int, k: nat, text: string)
    requires limit >= 0 && Packed(all, limit, k, text)
    ensures text <= Join(all) && |text| <= limit
  {
    JoinPrefix(all, k);
    assert all[..|all|] == all;
  }

  /** If anything was dropped, the limit is met exactly or at most 20 characters after a separator were left. */
  lemma DroppedOnlyWhenFull(all: seq<string>, limit: int, k: nat, text: string)
    requires limit >= 0 && Packed(all, limit, k, text) && text != Join(all)
    ensures |text| == limit || (text == Join(all[..k]) && k < |all| && limit - |text| - Sep(all[..k]) <= 20)
  {
  }

  /** The packing is determined by the lines and the limit. */
  lemma PackingIsUnique(all: seq<string>, limit: int, k: nat, text: string, k': nat, text': string)
    requires limit >= 0 && Packed(all, limit, k, text) && Packed(all, limit, k', text')
    ensures k == k' && text == text'
  {
    if k < k' {
      JoinGrows(all, k + 1, k');
      assert false;
    } else if k' < k {
      JoinGrows(all, k' + 1, k);
      assert false;
    }
    if |text| == |text'| && text <= Join(all) && text' <= Join(all) {
      assert text == Join(all)[..|text|] == text';
    }
  }

  lemma JoinGrows(all: seq<string>, a: nat, b: nat)
    requires a <= b <= |all|
    ensures |Join(all[..a])| <= |Join(all[..b])|
  {
    assert all[..b][..a] == all[..a];
    JoinPrefix(all[..b], a);
  }
}
