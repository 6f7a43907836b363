/**
 * The finger overlay: which pressed keys get a finger, which finger, its
 * angle, size and glove hue, and the white-key counts behind its horizontal
 * position. The float percentages of that position are not modelled. The
 * fixed fingering table is keyed by an 88-key numbering in which 39 is C4,
 * not by the store's numbering in which 60 is C4.
 */
module FingerAnimations {
  import opened Wrappers
  import JsNumbers
  import PianoKeys
  import PianoKeyboard

  /** Finger numbers: 0 thumb, 1 index, 2 middle, 3 ring, 4 little finger. */
  type Finger = f: int | 0 <= f < 5

  /**
   * `Array.from(activeKeys).filter(...)`: the pressed keys inside the window,
   * in `order`, the order in which the set of pressed keys lists them.
   */
  function VisibleActiveKeys(order: seq<int>, startKey: int, visibleKeys: int): (keys: seq<int>)
    ensures |keys| <= |order|
    ensures forall k :: k in keys <==> k in order && startKey <= k < startKey + visibleKeys
  {
    if |order| == 0 then []
    else
      var last := order[|order| - 1];
      VisibleActiveKeys(order[..|order| - 1], startKey, visibleKeys)
        + (if startKey <= last < startKey + visibleKeys then [last] else [])
  }

  /** Each pressed key appears at most once in the set's order, and so at most once among the fingers. */
  lemma {:induction false} VisibleActiveKeysDistinct(order: seq<int>, startKey: int, visibleKeys: int)
    requires forall i, j | 0 <= i < j < |order| :: order[i] != order[j]
    ensures var keys := VisibleActiveKeys(order, startKey, visibleKeys);
      forall i, j | 0 <= i < j < |keys| :: keys[i] != keys[j]
  {
    if |order| > 0 {
      var init := order[..|order| - 1];
      var last := order[|order| - 1];
      VisibleActiveKeysDistinct(init, startKey, visibleKeys);
      assert last !in init;
      assert last !in VisibleActiveKeys(init, startKey, visibleKeys);
    }
  }

  /** Fingers of the fixed table for the keys 39 (C4 in its numbering) to 51 (C5). */
  const CMajorFingering: seq<Finger> := [0, 1, 1, 2, 2, 3, 3, 4, 4, 4, 3, 2, 1]

  /** Fingers by offset from the window's first key, modulo 12. */
  const FingerMap: seq<Finger> := [0, 1, 1, 2, 2, 3, 3, 4, 4, 4, 3, 2]

  /**
   * `getFingerForKey`: the table for the keys 39 to 51, otherwise the map at
   * `relativeIndex % 12`; `None` stands for the `undefined` a negative
   * remainder reads.
   */
  function FingerForKey(relativeIndex: int, absoluteIndex: int): (finger: Option<Finger>)
    ensures 39 <= absoluteIndex <= 51 ==> finger == Some(CMajorFingering[absoluteIndex - 39])
    ensures !(39 <= absoluteIndex <= 51) ==>
      finger == if JsNumbers.Rem(relativeIndex, 12) < 0 then None else Some(FingerMap[relativeIndex % 12])
  {
    if 39 <= absoluteIndex <= 51 then Some(CMajorFingering[absoluteIndex - 39])
    else
      var r := JsNumbers.Rem(relativeIndex, 12);
      if r < 0 then None else Some(FingerMap[r])
  }

  /** Every key inside the window gets a finger. */
  lemma VisibleKeyHasFinger(order: seq<int>, startKey: int, visibleKeys: int, k: int)
    requires k in VisibleActiveKeys(order, startKey, visibleKeys)
    ensures FingerForKey(k - startKey, k).Some?
  {
  }

  /**
   * The table is the map read from key 39 on, except at its last key: C5
   * (51) gets the index finger where the map would give the thumb.
   */
  lemma TableExtendsMap()
    ensures CMajorFingering[..12] == FingerMap
    ensures CMajorFingering[12] == 1 && FingerMap[0] == 0
  {
  }

  /** So a window starting on 39 fingers the same key the same way with or without the table, up to 50. */
  lemma TableAgreesFromItsC(relativeIndex: int)
    requires 0 <= relativeIndex < 12
    ensures FingerForKey(relativeIndex, 39 + relativeIndex) == Some(FingerMap[relativeIndex])
  {
  }

  /** Outside the table the finger repeats every twelve keys of the window. */
  lemma FingerPeriodic(relativeIndex: int, a: int, b: int)
    requires relativeIndex >= 0
    requires !(39 <= a <= 51) && !(39 <= b <= 51)
    ensures FingerForKey(relativeIndex + 12, a) == FingerForKey(relativeIndex, b)
  {
  }

  /** The table's "C4" is a black key of the store's numbering, and the store's C4 (60) is outside the table. */
  lemma TableNumberingDiffersFromStore()
    ensures PianoKeys.IsBlackKey(39)
    ensures !PianoKeys.IsBlackKey(60) && FingerForKey(0, 60) == Some(FingerMap[0])
  {
  }

  /** `getFingerAngle`: the base angle of the finger, five degrees more on a black key. */
  function FingerAngle(finger: Finger, isBlackKey: bool): (angle: int)
    ensures -15 <= angle <= 20
  {
    [15, 8, 0, -8, -15][finger] + (if isBlackKey then 5 else 0)
  }

  /** The angle falls from the thumb to the little finger, and a black key adds five degrees to any finger. */
  lemma FingerAngleOrder(f: Finger, g: Finger, isBlackKey: bool)
    ensures f < g ==> FingerAngle(f, isBlackKey) > FingerAngle(g, isBlackKey)
    ensures FingerAngle(f, true) == FingerAngle(f, false) + 5
    ensures FingerAngle(2, false) == 0
  {
  }

  /** The glove's width and length: the thumb's own, the other fingers' from the tables. */
  function FingerWidth(finger: Finger): (width: int)
    ensures 24 <= width <= 32
  {
    if finger == 0 then 32 else [28, 30, 28, 24][finger - 1]
  }

  function FingerLength(finger: Finger): (length: int)
    ensures 75 <= length <= 95
  {
    if finger == 0 then 75 else [90, 95, 90, 80][finger - 1]
  }

  /** The thumb is the widest and shortest finger, the middle finger the longest. */
  lemma ThumbShape(f: Finger)
    ensures f != 0 ==> FingerWidth(f) < FingerWidth(0) && FingerLength(0) < FingerLength(f)
    ensures FingerLength(f) <= FingerLength(2)
  {
  }

  /** The glove hue `(noteIndex * 8) % 360`, with JavaScript's remainder. */
  function Hue(noteIndex: int): (hue: int)
    ensures noteIndex >= 0 ==> 0 <= hue < 360 && hue % 8 == 0
    ensures noteIndex < 0 ==> -360 < hue <= 0
  {
    JsNumbers.Rem(noteIndex * 8, 360)
  }

  /** The hue repeats every 45 keys and differs between any two keys less than 45 apart. */
  lemma HuePeriod(m: int, n: int)
    requires 0 <= m <= n
    ensures Hue(n + 45) == Hue(n)
    ensures n < m + 45 ==> (Hue(m) == Hue(n) <==> m == n)
  {
    HueRepeats(n);
    if m < n < m + 45 {
      HueDistinct(m, n);
    }
  }

  lemma HueRepeats(n: nat)
    ensures Hue(n + 45) == Hue(n)
  {
    var a := n * 8;
    assert (n + 45) * 8 == a + 360;
    assert Hue(n) == a % 360;
    assert Hue(n + 45) == (a + 360) % 360;
  }

  lemma HueDistinct(m: nat, n: nat)
    requires m < n < m + 45
    ensures Hue(m) != Hue(n)
  {
    var d := (n - m) * 8;
    assert n * 8 == m * 8 + d;
    assert Hue(m) == (m * 8) % 360;
    assert Hue(n) == (m * 8 + d) % 360;
    ModAddSmall(m * 8, d);
  }

  /** Adding less than a full turn always changes the hue. */
  lemma ModAddSmall(a: nat, d: int)
    requires 0 < d < 360
    ensures (a + d) % 360 != a % 360
  {
    var q := a / 360;
    if a % 360 + d < 360 {
      assert (a + d) / 360 == q;
    } else {
      assert (a + d) / 360 == q + 1;
    }
  }

  /** The black-key offsets the position's count checks. */
  const BlackOffsets: seq<int> := [1, 3, 6, 8, 10]

  /** How many `offsets` have `(startKey + i) % 12 < visibleKeys`. */
  function OffsetsBelow(offsets: seq<int>, startKey: int, visibleKeys: int): (n: nat)
    ensures n <= |offsets|
  {
    if |offsets| == 0 then 0
    else
      OffsetsBelow(offsets[..|offsets| - 1], startKey, visibleKeys)
        + (if JsNumbers.Rem(startKey + offsets[|offsets| - 1], 12) < visibleKeys then 1 else 0)
  }

  /**
   * `whiteKeysCount` as written: `visibleKeys` minus the black-key offsets
   * whose shifted pitch class is below `visibleKeys`. It does not count the
   * black keys of the window.
   */
  function WhiteKeysCountAsWritten(startKey: int, visibleKeys: int): (count: int)
    ensures visibleKeys - 5 <= count <= visibleKeys
  {
    visibleKeys - OffsetsBelow(BlackOffsets, startKey, visibleKeys)
  }

  /** The number of white keys of the window, the denominator the keyboard itself uses. */
  function WhiteKeysCount(startKey: int, visibleKeys: nat): (count: nat)
    ensures count <= visibleKeys
  {
    PianoKeys.WhiteCountMonotone(startKey, 0, visibleKeys);
    PianoKeys.WhiteCount(startKey, visibleKeys)
  }

  /** `Array.from({ length: n }, ...)` takes a negative length as 0. */
  function Length(n: int): nat
  {
    if n < 0 then 0 else n
  }

  /** `whiteKeysBefore` of a black key: the white keys among the `relativeIndex` keys left of it. */
  function WhiteKeysBefore(startKey: int, relativeIndex: int): nat
  {
    PianoKeys.WhiteCount(startKey, Length(relativeIndex))
  }

  /** `whiteKeyIndex` of a white key: the white keys up to and including it, minus one. */
  function WhiteKeyIndex(startKey: int, relativeIndex: int): int
  {
    PianoKeys.WhiteCount(startKey, Length(relativeIndex + 1)) - 1
  }

  /** For a white key the index is the number of white keys left of it, as for a black key. */
  lemma WhiteKeyIndexCountsLeft(startKey: int, relativeIndex: int)
    requires relativeIndex >= 0 && !PianoKeys.IsBlackKey(startKey + relativeIndex)
    ensures WhiteKeyIndex(startKey, relativeIndex) == WhiteKeysBefore(startKey, relativeIndex)
  {
    PianoKeys.WhiteCountStep(startKey, relativeIndex);
  }

  /** The overlay's count of white keys left of a window key is the keyboard's `whiteKeysBefore`. */
  lemma WhiteKeysBeforeMatchesKeyboard(startKey: int, visibleKeys: nat, relativeIndex: nat, active: set<int>, suggested: seq<int>)
    requires relativeIndex < visibleKeys
    ensures WhiteKeysBefore(startKey, relativeIndex) ==
      PianoKeyboard.WhiteKeysBefore(PianoKeyboard.Keys(startKey, visibleKeys, active, suggested), startKey + relativeIndex)
  {
    PianoKeyboard.WhiteKeysBeforeIsWhiteCount(startKey, visibleKeys, relativeIndex, active, suggested);
  }

  /** With the true count every white key of the window has a slot: its index lies in 0..count-1. */
  lemma WhiteKeySlotInRange(startKey: int, visibleKeys: nat, relativeIndex: int)
    requires 0 <= relativeIndex < visibleKeys && !PianoKeys.IsBlackKey(startKey + relativeIndex)
    ensures 0 <= WhiteKeyIndex(startKey, relativeIndex) < WhiteKeysCount(startKey, visibleKeys)
  {
    PianoKeys.WhiteCountStep(startKey, relativeIndex);
    PianoKeys.WhiteCountMonotone(startKey, relativeIndex + 1, visibleKeys);
  }

  /** Every pitch class is below a count of 12 or more, so then all five offsets are subtracted. */
  lemma {:induction false} OffsetsBelowWide(offsets: seq<int>, startKey: int, visibleKeys: int)
    requires visibleKeys >= 12
    ensures OffsetsBelow(offsets, startKey, visibleKeys) == |offsets|
  {
    if |offsets| > 0 {
      OffsetsBelowWide(offsets[..|offsets| - 1], startKey, visibleKeys);
    }
  }

  /** For 12 keys or more the count as written is `visibleKeys - 5`, wherever the window starts. */
  lemma WhiteKeysCountAsWrittenWide(startKey: int, visibleKeys: int)
    requires visibleKeys >= 12
    ensures WhiteKeysCountAsWritten(startKey, visibleKeys) == visibleKeys - 5
  {
    OffsetsBelowWide(BlackOffsets, startKey, visibleKeys);
  }

  /**
   * The count as written is wrong for a window of B and C (start 11, two
   * keys): it gives one white key where there are two, and the C's index 1
   * falls outside.
   */
  lemma WhiteKeysCountAsWrittenMiscounts()
    ensures WhiteKeysCountAsWritten(11, 2) == 1 && WhiteKeysCount(11, 2) == 2
    ensures !PianoKeys.IsBlackKey(12) && WhiteKeyIndex(11, 1) == 1
  {
    assert BlackOffsets[..4] == [1, 3, 6, 8];
    assert BlackOffsets[..4][..3] == [1, 3, 6];
    assert BlackOffsets[..4][..3][..2] == [1, 3];
    assert BlackOffsets[..4][..3][..2][..1] == [1];
    assert OffsetsBelow([1], 11, 2) == 1;
    assert OffsetsBelow([1, 3], 11, 2) == 1;
    assert OffsetsBelow([1, 3, 6], 11, 2) == 1;
    assert OffsetsBelow([1, 3, 6, 8], 11, 2) == 1;
    assert PianoKeys.Span(11, 2) == [11, 12];
    assert PianoKeys.Span(11, 2)[..1] == [11];
  }
}
