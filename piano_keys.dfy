/**
 * Facts about key indices shared by the keyboard, the finger overlay and the
 * store: which indices are black keys, runs of consecutive indices, and
 * counts of white keys.
 */
module PianoKeys {
  import JsNumbers

  /** The number of keys of the instrument: indices run from 0 to 87. */
  const KeyCount := 88

  /** Pitch classes (index mod 12) that are black keys. */
  const BlackPitchClasses: set<int> := {1, 3, 6, 8, 10}

  /** `[1, 3, 6, 8, 10].includes(keyIndex % 12)`, with JavaScript's remainder. */
  predicate IsBlackKey(k: int)
  {
    JsNumbers.Rem(k, 12) in BlackPitchClasses
  }

  /** `Array.from({ length: n }, (_, i) => lo + i)`: the indices lo, lo+1, ..., lo+n-1. */
  function Span(lo: int, n: nat): (s: seq<int>)
    ensures |s| == n
    ensures forall i | 0 <= i < n :: s[i] == lo + i
  {
    seq(n, i => lo + i)
  }

  /** `s.filter(k => !isBlackKey(k))`: the white keys of `s`, in order. */
  function WhiteKeys(s: seq<int>): (w: seq<int>)
    ensures |w| <= |s|
    ensures forall k :: k in w <==> k in s && !IsBlackKey(k)
  {
    if |s| == 0 then []
    else WhiteKeys(s[..|s| - 1]) + (if IsBlackKey(s[|s| - 1]) then [] else [s[|s| - 1]])
  }

  /** The number of white keys among lo, ..., lo+n-1. */
  function WhiteCount(lo: int, n: nat): nat
  {
    |WhiteKeys(Span(lo, n))|
  }

  /** Extending a run by one index adds one to the white count exactly when that index is white. */
  lemma WhiteCountStep(lo: int, n: nat)
    ensures WhiteCount(lo, n + 1) == WhiteCount(lo, n) + (if IsBlackKey(lo + n) then 0 else 1)
  {
    assert Span(lo, n + 1)[..n] == Span(lo, n);
  }

  /** Every key index in a run is either white or black: the white count never exceeds the run's length. */
  lemma {:induction false} WhiteCountMonotone(lo: int, m: nat, n: nat)
    requires m <= n
    ensures WhiteCount(lo, m) <= WhiteCount(lo, n) <= WhiteCount(lo, m) + (n - m)
    decreases n - m
  {
    if m < n {
      WhiteCountStep(lo, n - 1);
      WhiteCountMonotone(lo, m, n - 1);
    }
  }
}
