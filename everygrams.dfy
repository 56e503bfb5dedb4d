/** What the n-gram corpus asks of nltk.everygrams(seq, min_n, max_n): every
    contiguous window of the sequence whose length lies in [min_n, max_n], each
    once. The order in which windows of different lengths are emitted is left
    free: an everygrams function is any function whose output has the same
    multiset as the reference enumeration Windows below. */
module Everygrams {

  /** The windows of length n, by start index. */
  function WindowsOfLength<T>(s: seq<T>, n: nat): seq<seq<T>>
    requires n >= 1
  {
    seq(if |s| >= n then |s| - n + 1 else 0, i requires 0 <= i <= |s| - n => s[i..i + n])
  }

  /** Reference enumeration: lengths lo..hi in increasing order, each by start index.
      Lengths below 1 contribute nothing. */
  function Windows<T>(s: seq<T>, lo: int, hi: int): seq<seq<T>>
    decreases hi - lo
  {
    if lo > hi then []
    else (if lo >= 1 then WindowsOfLength(s, lo) else []) + Windows(s, lo + 1, hi)
  }

  /** nltk reads a max_len of -1 as "the length of the sequence". */
  function EffectiveMax(len: nat, maxN: int): int
  {
    if maxN == -1 then len else maxN
  }

  /** The number of windows of each length n in [lo, hi] with n >= 1: len - n + 1 when
      the sequence is that long, else none. */
  function WindowCount(len: nat, lo: int, hi: int): nat
    decreases hi - lo
  {
    if lo > hi then 0
    else (if lo >= 1 && len >= lo then len - lo + 1 else 0) + WindowCount(len, lo + 1, hi)
  }

  /** w occurs in s starting at index i. */
  ghost predicate IsSliceAt<T>(w: seq<T>, s: seq<T>, i: int)
  {
    0 <= i && i + |w| <= |s| && s[i..i + |w|] == w
  }

  /** The arguments for which nltk's everygrams and the reference enumeration agree:
      min_len at least 1 and max_len at least -1. Below that nltk emits empty tuples or
      raises. */
  predicate InRange(lo: int, hi: int)
  {
    lo >= 1 && hi >= -1
  }

  /** The everygrams contract: for arguments in range, the output holds exactly the
      contiguous windows, with the same multiplicities as the reference enumeration. */
  ghost predicate IsEverygrams(everygrams: (seq<string>, int, int) -> seq<seq<string>>)
  {
    forall s: seq<string>, lo: int, hi: int :: InRange(lo, hi) ==>
      multiset(everygrams(s, lo, hi)) == multiset(Windows(s, lo, EffectiveMax(|s|, hi)))
  }

  // ---------------------------------------------------------------------------
  // Lemmas
  // ---------------------------------------------------------------------------

  /** The reference enumeration has sum over n in [lo, hi] of (len - n + 1) windows. */
  lemma {:induction false} WindowsLength<T>(s: seq<T>, lo: int, hi: int)
    ensures |Windows(s, lo, hi)| == WindowCount(|s|, lo, hi)
    decreases hi - lo
  {
    if lo <= hi {
      WindowsLength(s, lo + 1, hi);
    }
  }

  /** A window is in the enumeration exactly when its length lies in [lo, hi], is at
      least 1, and it occurs somewhere in s. */
  lemma {:induction false} WindowsMembership<T>(s: seq<T>, lo: int, hi: int, w: seq<T>)
    ensures w in Windows(s, lo, hi) <==>
              1 <= |w| && lo <= |w| <= hi && exists i :: IsSliceAt(w, s, i)
    decreases hi - lo
  {
    if lo <= hi {
      WindowsMembership(s, lo + 1, hi, w);
      var here := if lo >= 1 then WindowsOfLength(s, lo) else [];
      assert Windows(s, lo, hi) == here + Windows(s, lo + 1, hi);
      if w in here {
        var i :| 0 <= i < |here| && here[i] == w;
        assert IsSliceAt(w, s, i);
      }
      if 1 <= |w| && |w| == lo && exists i :: IsSliceAt(w, s, i) {
        var i :| IsSliceAt(w, s, i);
        assert here[i] == w;
      }
    }
  }

  /** When every length in [lo, hi] is at least 1 and fits in the sequence, the count is
      the closed form of the sum of (len - n + 1) over n in [lo, hi] (stated doubled). */
  lemma {:induction false} WindowCountClosedForm(len: nat, lo: int, hi: int)
    requires 1 <= lo <= hi <= len + 1
    ensures 2 * WindowCount(len, lo, hi) == (hi - lo + 1) * (2 * len - lo - hi + 2)
    decreases hi - lo
  {
    if lo < hi {
      WindowCountClosedForm(len, lo + 1, hi);
      assert WindowCount(len, lo, hi) == len - lo + 1 + WindowCount(len, lo + 1, hi);
      assert (hi - lo + 1) * (2 * len - lo - hi + 2)
          == (hi - lo) * (2 * len - lo - hi + 1) + 2 * (len - lo + 1);
    }
  }

  /** Any everygrams function yields, for a sequence s, exactly WindowCount windows. */
  lemma EverygramsCount(everygrams: (seq<string>, int, int) -> seq<seq<string>>,
                        s: seq<string>, lo: int, hi: int)
    requires IsEverygrams(everygrams) && InRange(lo, hi)
    ensures |everygrams(s, lo, hi)| == WindowCount(|s|, lo, EffectiveMax(|s|, hi))
  {
    var r := everygrams(s, lo, hi);
    var w := Windows(s, lo, EffectiveMax(|s|, hi));
    assert multiset(r) == multiset(w);
    assert |multiset(r)| == |r| && |multiset(w)| == |w|;
    WindowsLength(s, lo, EffectiveMax(|s|, hi));
  }

  /** Any everygrams function yields only contiguous windows of s, of a length in range,
      and yields every such window. */
  lemma EverygramsMembership(everygrams: (seq<string>, int, int) -> seq<seq<string>>,
                             s: seq<string>, lo: int, hi: int, w: seq<string>)
    requires IsEverygrams(everygrams) && InRange(lo, hi)
    ensures w in everygrams(s, lo, hi) <==>
              1 <= |w| && lo <= |w| <= EffectiveMax(|s|, hi) && exists i :: IsSliceAt(w, s, i)
  {
    var r := everygrams(s, lo, hi);
    var e := Windows(s, lo, EffectiveMax(|s|, hi));
    assert multiset(r) == multiset(e);
    assert w in r <==> w in multiset(r);
    assert w in e <==> w in multiset(e);
    WindowsMembership(s, lo, EffectiveMax(|s|, hi), w);
  }
}
