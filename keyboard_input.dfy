/**
 * The keyboard hook: a two-row letter table (white keys on z x c v b n m ,
 * and black keys on s d g h j) and its key handlers. Whether the event's
 * target is a text field is a parameter.
 */
module KeyboardInput {
  import opened Wrappers
  import JsStrings
  import PianoKeys
  import StoreModel
  import PianoStore

  const KeyMap: map<string, int> := map[
    "z" := 0, "x" := 2, "c" := 4, "v" := 5, "b" := 7, "n" := 9, "m" := 11, "," := 12,
    "s" := 1, "d" := 3, "g" := 6, "h" := 8, "j" := 10]

  /** The lower row of the table and its offsets. */
  const LowerRow: seq<string> := ["z", "x", "c", "v", "b", "n", "m", ","]
  const LowerOffsets: seq<int> := [0, 2, 4, 5, 7, 9, 11, 12]

  /** The upper row of the table and its offsets. */
  const UpperRow: seq<string> := ["s", "d", "g", "h", "j"]
  const UpperOffsets: seq<int> := [1, 3, 6, 8, 10]

  /** The table is exactly the two rows. */
  lemma KeyMapRows()
    ensures forall i | 0 <= i < 8 :: LowerRow[i] in KeyMap && KeyMap[LowerRow[i]] == LowerOffsets[i]
    ensures forall i | 0 <= i < 5 :: UpperRow[i] in KeyMap && KeyMap[UpperRow[i]] == UpperOffsets[i]
    ensures forall a | a in KeyMap :: a in LowerRow || a in UpperRow
  {
  }

  /** Thirteen letters onto the thirteen offsets 0..12, no two on the same offset. */
  lemma KeyMapInjective(a: string, b: string)
    requires a in KeyMap && b in KeyMap && KeyMap[a] == KeyMap[b]
    ensures 0 <= KeyMap[a] <= 12
    ensures a == b
  {
  }

  lemma KeyMapCovers(r: int)
    requires 0 <= r <= 12
    ensures exists a | a in KeyMap :: KeyMap[a] == r
  {
    if r in LowerOffsets {
      var i :| 0 <= i < 8 && LowerOffsets[i] == r;
      assert KeyMap[LowerRow[i]] == r;
    } else {
      assert r in UpperOffsets;
      var i :| 0 <= i < 5 && UpperOffsets[i] == r;
      assert KeyMap[UpperRow[i]] == r;
    }
  }

  /** Measured from a C, the lower row plays white keys and the upper row black keys. */
  lemma RowsMatchKeyColours()
    ensures forall i | 0 <= i < 8 :: !PianoKeys.IsBlackKey(LowerOffsets[i])
    ensures forall i | 0 <= i < 5 :: PianoKeys.IsBlackKey(UpperOffsets[i])
  {
  }

  /** So with the window starting on a C, a lower-row key presses a white key and an upper-row key a black one. */
  lemma RowsFromC(startKey: int, i: int)
    requires 0 <= startKey && startKey % 12 == 0
    ensures 0 <= i < 8 ==> !PianoKeys.IsBlackKey(startKey + LowerOffsets[i])
    ensures 0 <= i < 5 ==> PianoKeys.IsBlackKey(startKey + UpperOffsets[i])
  {
    RowsMatchKeyColours();
    if 0 <= i < 8 {
      assert (startKey + LowerOffsets[i]) % 12 == LowerOffsets[i] % 12;
    }
    if 0 <= i < 5 {
      assert (startKey + UpperOffsets[i]) % 12 == UpperOffsets[i];
    }
  }

  /** The key `handleKeyDown` passes to `pressKey`, if any; there is no range check here. */
  function KeyDownTarget(inTextField: bool, key: string, repeat: bool, startKey: int): (target: Option<int>)
    ensures target.Some? <==> !inTextField && JsStrings.ToLower(key) in KeyMap && !repeat
    ensures target.Some? ==> target.value == startKey + KeyMap[JsStrings.ToLower(key)]
  {
    var k := JsStrings.ToLower(key);
    if inTextField || k !in KeyMap || repeat then None else Some(startKey + KeyMap[k])
  }

  /** The key `handleKeyUp` passes to `releaseKey`: any mapped key, repeated or in a text field. */
  function KeyUpTarget(key: string, startKey: int): (target: Option<int>)
    ensures target.Some? <==> JsStrings.ToLower(key) in KeyMap
    ensures target.Some? ==> target.value == startKey + KeyMap[JsStrings.ToLower(key)]
  {
    var k := JsStrings.ToLower(key);
    if k !in KeyMap then None else Some(startKey + KeyMap[k])
  }

  /** A key pressed through the hook is released by the key-up of the same letter. */
  lemma KeyUpReleasesKeyDown(inTextField: bool, key: string, repeat: bool, startKey: int)
    ensures KeyDownTarget(inTextField, key, repeat, startKey).Some? ==>
      KeyUpTarget(key, startKey) == KeyDownTarget(inTextField, key, repeat, startKey)
  {
  }

  /**
   * Without a range check the store's window check decides: a letter whose
   * offset is at or beyond the number of visible keys presses nothing.
   */
  lemma OffsetBeyondWindowIgnored(st: StoreModel.StoreState, inTextField: bool, key: string, repeat: bool)
    requires JsStrings.ToLower(key) in KeyMap && KeyMap[JsStrings.ToLower(key)] >= st.visibleKeys
    ensures match KeyDownTarget(inTextField, key, repeat, st.startKey)
      case None => true
      case Some(k) => StoreModel.PressKey(st, k, StoreModel.DefaultVelocity) == st
  {
  }

  method HandleKeyDown(store: PianoStore.Store, inTextField: bool, key: string, repeat: bool)
    modifies store
    ensures store.State() ==
      match KeyDownTarget(inTextField, key, repeat, old(store.startKey))
      case None => old(store.State())
      case Some(k) => StoreModel.PressKey(old(store.State()), k, StoreModel.DefaultVelocity)
  {
    var target := KeyDownTarget(inTextField, key, repeat, store.startKey);
    if target.Some? {
      store.PressKey(target.value, StoreModel.DefaultVelocity);
    }
  }

  method HandleKeyUp(store: PianoStore.Store, key: string)
    modifies store
    ensures store.State() ==
      match KeyUpTarget(key, old(store.startKey))
      case None => old(store.State())
      case Some(k) => StoreModel.ReleaseKey(old(store.State()), k)
  {
    var target := KeyUpTarget(key, store.startKey);
    if target.Some? {
      store.ReleaseKey(target.value);
    }
  }
}
