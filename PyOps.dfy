/**
 * The few Python built-in operations the converter scripts rely on:
 * the substring test `sub in s`, `dict.get(key, default)` and the
 * open-ended slice `s[start:]`.
 */
module PyOps {
  import opened Wrappers

  /** Python's `sub in s` on strings: `sub` occurs somewhere in `s`. */
  predicate Contains(s: string, sub: string)
    decreases |s|
  {
    sub <= s || (|s| > 0 && Contains(s[1..], sub))
  }

  /** `sub` occurs in `s` at index `i`. */
  ghost predicate OccursAt(s: string, sub: string, i: int)
  {
    0 <= i && i + |sub| <= |s| && s[i..i + |sub|] == sub
  }

  /** An occurrence at a known index makes `Contains` true. */
  lemma {:induction false} ContainsAt(s: string, sub: string, i: nat)
    requires OccursAt(s, sub, i)
    ensures Contains(s, sub)
    decreases i
  {
    if i == 0 {
      assert s[..|sub|] == sub;
    } else {
      assert s[1..][i - 1..i - 1 + |sub|] == s[i..i + |sub|];
      ContainsAt(s[1..], sub, i - 1);
    }
  }

  /** A word occurs in any text that ends with it. */
  lemma ContainsTail(prefix: string, word: string)
    ensures Contains(prefix + word, word)
  {
    assert (prefix + word)[|prefix|..|prefix| + |word|] == word;
    ContainsAt(prefix + word, word, |prefix|);
  }

  /** A `Contains` test that succeeds has an index where `sub` occurs. */
  lemma {:induction false} ContainsWitness(s: string, sub: string) returns (i: nat)
    requires Contains(s, sub)
    ensures OccursAt(s, sub, i)
    decreases |s|
  {
    if sub <= s {
      assert s[0..|sub|] == sub;
      i := 0;
    } else {
      var j := ContainsWitness(s[1..], sub);
      assert s[1..][j..j + |sub|] == s[j + 1..j + 1 + |sub|];
      i := j + 1;
    }
  }

  /** `Contains` holds exactly when `sub` occurs at some index of `s`. */
  lemma ContainsIff(s: string, sub: string)
    ensures Contains(s, sub) <==> exists i :: OccursAt(s, sub, i)
  {
    if Contains(s, sub) {
      var i := ContainsWitness(s, sub);
    }
    if exists i :: OccursAt(s, sub, i) {
      var i :| OccursAt(s, sub, i);
      ContainsAt(s, sub, i);
    }
  }

  /** Python's `d.get(key)`: the stored value, or `None` when the key is absent. */
  function Get<K, V>(d: map<K, V>, key: K): Option<V>
  {
    if key in d then Some(d[key]) else None
  }

  /** Python's `d.get(key, default)`. */
  function GetOr<K, V>(d: map<K, V>, key: K, default: V): V
  {
    if key in d then d[key] else default
  }

  function Min(a: int, b: int): int
  {
    if a <= b then a else b
  }

  /**
   * Python's `s[start:]`: a negative start counts from the end, and a start
   * outside the sequence is clamped to it, so the slice never fails.
   */
  function SliceFrom<T>(s: seq<T>, start: int): (r: seq<T>)
    ensures start >= 0 ==> |r| == |s| - Min(start, |s|)
    ensures start < 0 ==> |r| == Min(-start, |s|)
    ensures r == s[|s| - |r|..]
  {
    var from := if start < 0 then (if |s| + start < 0 then 0 else |s| + start)
                else (if start > |s| then |s| else start);
    s[from..]
  }

  /**
   * The window `s[-n:]` slides by one when an element is appended: it drops
   * its oldest element once it is full and always ends in the new one.
   * (For n = 1 the older part is empty, not `s[-0:]`, which is all of `s`.)
   */
  lemma LastAfterAppend<T>(s: seq<T>, x: T, n: nat)
    requires n > 0
    ensures SliceFrom(s + [x], -(n as int)) ==
            (if n == 1 then [] else SliceFrom(s, -(n as int - 1))) + [x]
  {
    var r := SliceFrom(s + [x], -(n as int));
    if n > 1 {
      var q := SliceFrom(s, -(n as int - 1));
      assert |r| == |q| + 1;
      assert r == (s + [x])[|s| + 1 - |r|..];
      assert q == s[|s| - |q|..];
    }
  }
}
