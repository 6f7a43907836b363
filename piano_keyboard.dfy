/**
 * The on-screen keyboard component: the letter-to-offset table and its key
 * handlers, the mouse releases, the list of visible keys, the count of white
 * keys left of a black key, and the shortcut labels. Whether the keyboard
 * has focus is a parameter.
 */
module PianoKeyboard {
  import opened Wrappers
  import JsStrings
  import PianoKeys
  import StoreModel
  import PianoStore

  /** Home-row letters to offsets from the window's first key: white keys on a s d f g h j k, black on w e t y u. */
  const KeyMap: map<string, int> := map[
    "a" := 0, "w" := 1, "s" := 2, "e" := 3, "d" := 4, "f" := 5, "t" := 6,
    "g" := 7, "y" := 8, "h" := 9, "u" := 10, "j" := 11, "k" := 12]

  /** The letters shown on the keys, by offset. */
  const Shortcuts: seq<string> := ["A", "W", "S", "E", "D", "F", "T", "G", "Y", "H", "U", "J", "K"]

  /** The letters of `keyMap`, by offset. */
  const KeyLetters: seq<string> := ["a", "w", "s", "e", "d", "f", "t", "g", "y", "h", "u", "j", "k"]

  /** `keyMap` sends the letter at position r of `KeyLetters` to r, for each of the 13 offsets 0..12. */
  lemma KeyMapByOffset(r: int)
    requires 0 <= r <= 12
    ensures KeyLetters[r] in KeyMap && KeyMap[KeyLetters[r]] == r
  {
  }

  /** Every letter of `keyMap` is the letter of its own offset, so no two letters share an offset. */
  lemma KeyMapInjective(a: string, b: string)
    requires a in KeyMap && b in KeyMap && KeyMap[a] == KeyMap[b]
    ensures 0 <= KeyMap[a] <= 12 && KeyLetters[KeyMap[a]] == a
    ensures a == b
  {
  }

  /** `getKeyboardShortcut(relativeIndex)`: the label of the key at that offset, or "" beyond the table. */
  function KeyboardShortcut(relativeIndex: int): (shortcut: string)
    ensures shortcut == "" <==> !(0 <= relativeIndex < |Shortcuts|)
  {
    if 0 <= relativeIndex < |Shortcuts| then Shortcuts[relativeIndex] else ""
  }

  /** The label of every key the table covers, lowered as the handlers lower `e.key`, maps back to its offset. */
  lemma ShortcutRoundTrip(relativeIndex: int)
    requires 0 <= relativeIndex <= 12
    ensures var key := JsStrings.ToLower(KeyboardShortcut(relativeIndex));
      key in KeyMap && KeyMap[key] == relativeIndex
  {
    var text := Shortcuts[relativeIndex];
    assert |text| == 1;
    var key := JsStrings.ToLower(text);
    assert key == [JsStrings.LowerChar(text[0])];
  }

  /** The key `handleKeyDown` presses, if any. */
  function KeyDownTarget(focused: bool, key: string, repeat: bool, startKey: int): (target: Option<int>)
    ensures target.Some? <==>
      focused && JsStrings.ToLower(key) in KeyMap && !repeat
      && 0 <= startKey + KeyMap[JsStrings.ToLower(key)] < PianoKeys.KeyCount
    ensures target.Some? ==> target.value == startKey + KeyMap[JsStrings.ToLower(key)]
  {
    var k := JsStrings.ToLower(key);
    if !focused || k !in KeyMap || repeat then None
    else
      var noteIndex := startKey + KeyMap[k];
      if 0 <= noteIndex < PianoKeys.KeyCount then Some(noteIndex) else None
  }

  /** The key `handleKeyUp` releases, if any: the same checks without the repeat check. */
  function KeyUpTarget(focused: bool, key: string, startKey: int): (target: Option<int>)
    ensures target.Some? <==>
      focused && JsStrings.ToLower(key) in KeyMap && 0 <= startKey + KeyMap[JsStrings.ToLower(key)] < PianoKeys.KeyCount
    ensures target.Some? ==> target.value == startKey + KeyMap[JsStrings.ToLower(key)]
  {
    var k := JsStrings.ToLower(key);
    if !focused || k !in KeyMap then None
    else
      var noteIndex := startKey + KeyMap[k];
      if 0 <= noteIndex < PianoKeys.KeyCount then Some(noteIndex) else None
  }

  /** A key-up releases whatever the key-down of the same event would press, repeat or not. */
  lemma KeyUpMatchesKeyDown(focused: bool, key: string, repeat: bool, startKey: int)
    ensures KeyDownTarget(focused, key, repeat, startKey).Some? ==>
      KeyUpTarget(focused, key, startKey) == KeyDownTarget(focused, key, repeat, startKey)
    ensures !repeat ==> KeyUpTarget(focused, key, startKey) == KeyDownTarget(focused, key, repeat, startKey)
  {
  }

  method HandleKeyDown(store: PianoStore.Store, focused: bool, key: string, repeat: bool)
    modifies store
    ensures store.State() ==
      match KeyDownTarget(focused, key, repeat, old(store.startKey))
      case None => old(store.State())
      case Some(k) => StoreModel.PressKey(old(store.State()), k, StoreModel.DefaultVelocity)
  {
    var target := KeyDownTarget(focused, key, repeat, store.startKey);
    if target.Some? {
      store.PressKey(target.value, StoreModel.DefaultVelocity);
    }
  }

  method HandleKeyUp(store: PianoStore.Store, focused: bool, key: string)
    modifies store
    ensures store.State() ==
      match KeyUpTarget(focused, key, old(store.startKey))
      case None => old(store.State())
      case Some(k) => StoreModel.ReleaseKey(old(store.State()), k)
  {
    var target := KeyUpTarget(focused, key, store.startKey);
    if target.Some? {
      store.ReleaseKey(target.value);
    }
  }

  /** Releasing each key of `keys` in turn, in any order. */
  function ReleaseEach(st: StoreModel.StoreState, keys: set<int>): (r: StoreModel.StoreState)
    ensures !StoreModel.Ready(st) ==> r == st
    ensures StoreModel.Ready(st) ==> r == st.(activeKeys := r.activeKeys) && r.activeKeys == st.activeKeys - keys
  {
    if StoreModel.Ready(st) then st.(activeKeys := st.activeKeys - keys) else st
  }

  /** Releasing one more key extends the released set by that key. */
  lemma ReleaseEachStep(st: StoreModel.StoreState, done: set<int>, k: int)
    ensures StoreModel.ReleaseKey(ReleaseEach(st, done), k) == ReleaseEach(st, done + {k})
  {
  }

  /** The keys listed in `s`. */
  function Elements(s: seq<int>): (keys: set<int>)
    ensures forall k :: k in keys <==> k in s
  {
    set k | k in s
  }

  /**
   * The global `mouseup` handler: `activeKeys.forEach(releaseKey)`, where
   * `order` is the order in which `forEach` visits the set. With the piano
   * ready it leaves no key down; otherwise every release is refused.
   */
  method HandleMouseUp(store: PianoStore.Store, order: seq<int>)
    requires forall k :: k in order <==> k in store.activeKeys
    modifies store
    ensures store.State() == ReleaseEach(old(store.State()), old(store.activeKeys))
    ensures StoreModel.Ready(old(store.State())) ==> store.activeKeys == {}
  {
    ghost var snapshot := store.activeKeys;
    for i := 0 to |order|
      invariant store.State() == ReleaseEach(old(store.State()), Elements(order[..i]))
    {
      ReleaseEachStep(old(store.State()), Elements(order[..i]), order[i]);
      store.ReleaseKey(order[i]);
      assert Elements(order[..i]) + {order[i]} == Elements(order[..i + 1]);
    }
    assert order[..|order|] == order;
    assert forall k :: k in Elements(order) <==> k in snapshot;
    assert Elements(order) == snapshot;
  }

  /** `onMouseLeave`: release the key only if it is active. */
  function MouseLeave(st: StoreModel.StoreState, key: int): (r: StoreModel.StoreState)
    ensures key !in st.activeKeys ==> r == st
  {
    if key in st.activeKeys then StoreModel.ReleaseKey(st, key) else st
  }

  /** The activity check is redundant: leaving a key has the effect of releasing it. */
  lemma MouseLeaveIsRelease(st: StoreModel.StoreState, key: int)
    ensures MouseLeave(st, key) == StoreModel.ReleaseKey(st, key)
  {
    if key !in st.activeKeys && StoreModel.Ready(st) {
      assert st.activeKeys - {key} == st.activeKeys;
    }
  }

  method HandleMouseLeave(store: PianoStore.Store, key: int)
    modifies store
    ensures store.State() == MouseLeave(old(store.State()), key)
  {
    if key in store.activeKeys {
      store.ReleaseKey(key);
    }
  }

  /** One entry of the rendered key list. */
  datatype KeyInfo = KeyInfo(keyIndex: int, isBlackKey: bool, isActive: bool, isSuggested: bool)

  /** The `keys` list: one entry per visible index, from the window's first key on (none for a negative count). */
  function Keys(startKey: int, visibleKeys: int, activeKeys: set<int>, suggestedKeys: seq<int>): (keys: seq<KeyInfo>)
    ensures |keys| == Max(0, visibleKeys)
    ensures forall i | 0 <= i < |keys| ::
      keys[i] == KeyInfo(startKey + i, PianoKeys.IsBlackKey(startKey + i), startKey + i in activeKeys, startKey + i in suggestedKeys)
  {
    seq(Max(0, visibleKeys), i => KeyInfo(startKey + i, PianoKeys.IsBlackKey(startKey + i), startKey + i in activeKeys, startKey + i in suggestedKeys))
  }

  /** `whiteKeysBefore`: how many entries of `keys` are white and have a smaller index than `keyIndex`. */
  function WhiteKeysBefore(keys: seq<KeyInfo>, keyIndex: int): (n: nat)
    ensures n <= |keys|
  {
    if |keys| == 0 then 0
    else
      var last := keys[|keys| - 1];
      WhiteKeysBefore(keys[..|keys| - 1], keyIndex) + (if !last.isBlackKey && last.keyIndex < keyIndex then 1 else 0)
  }

  /** On the prefix of the list below `keyIndex`, the count is the number of white keys of that run of indices. */
  lemma {:induction false} WhiteKeysBeforePrefix(startKey: int, n: nat, keyIndex: int, active: set<int>, suggested: seq<int>)
    requires startKey + n <= keyIndex
    ensures WhiteKeysBefore(Keys(startKey, n, active, suggested), keyIndex) == PianoKeys.WhiteCount(startKey, n)
  {
    if n > 0 {
      var keys := Keys(startKey, n, active, suggested);
      assert keys[..n - 1] == Keys(startKey, n - 1, active, suggested);
      WhiteKeysBeforePrefix(startKey, n - 1, keyIndex, active, suggested);
      PianoKeys.WhiteCountStep(startKey, n - 1);
    }
  }

  /** Entries at or above `keyIndex` add nothing to the count. */
  lemma {:induction false} WhiteKeysBeforeIgnoresAbove(keys: seq<KeyInfo>, m: nat, keyIndex: int)
    requires m <= |keys|
    requires forall i | m <= i < |keys| :: keys[i].keyIndex >= keyIndex
    ensures WhiteKeysBefore(keys, keyIndex) == WhiteKeysBefore(keys[..m], keyIndex)
  {
    if |keys| > m {
      assert keys[..|keys| - 1][..m] == keys[..m];
      WhiteKeysBeforeIgnoresAbove(keys[..|keys| - 1], m, keyIndex);
    } else {
      assert keys[..m] == keys;
    }
  }

  /**
   * For the key at offset `r` of the window, `whiteKeysBefore` is the number
   * of white keys among the `r` keys to its left.
   */
  lemma WhiteKeysBeforeIsWhiteCount(startKey: int, visibleKeys: nat, r: nat, active: set<int>, suggested: seq<int>)
    requires r < visibleKeys
    ensures WhiteKeysBefore(Keys(startKey, visibleKeys, active, suggested), startKey + r) == PianoKeys.WhiteCount(startKey, r)
  {
    var keys := Keys(startKey, visibleKeys, active, suggested);
    WhiteKeysBeforeIgnoresAbove(keys, r, startKey + r);
    assert keys[..r] == Keys(startKey, r, active, suggested);
    WhiteKeysBeforePrefix(startKey, r, startKey + r, active, suggested);
  }
}
