/**
 * The window buttons: widen and narrow the window by one key, shift it by
 * one key, and show each button only when it has something to do.
 */
module PianoControls {
  import opened Wrappers
  import JsNumbers
  import KeyWindow
  import NoteNames
  import StoreModel

  /** `handleIncreaseKeys`: the count it passes to `setVisibleKeys`, or `None` when it does nothing. */
  function IncreaseRequest(visibleKeys: int): (count: Option<int>)
    ensures count.Some? <==> visibleKeys < KeyWindow.MaxVisible
    ensures count.Some? ==> count.value == visibleKeys + 1 <= KeyWindow.MaxVisible
  {
    if visibleKeys < KeyWindow.MaxVisible then Some(visibleKeys + 1) else None
  }

  /** `handleDecreaseKeys`. */
  function DecreaseRequest(visibleKeys: int): (count: Option<int>)
    ensures count.Some? <==> visibleKeys > 1
    ensures count.Some? ==> 1 <= count.value == visibleKeys - 1
  {
    if visibleKeys > 1 then Some(visibleKeys - 1) else None
  }

  /** `handleSlideLeft`: one key left, never below 0. */
  function SlideLeftRequest(startKey: int): (s: int)
    ensures 0 <= s && s <= Max(0, startKey)
    ensures startKey > 0 ==> s == startKey - 1
  {
    Max(0, startKey - 1)
  }

  /** `handleSlideRight`: one key right, never past the last start that fits. */
  function SlideRightRequest(startKey: int, visibleKeys: int): (s: int)
    ensures s <= KeyWindow.MaxStart(visibleKeys)
    ensures startKey < KeyWindow.MaxStart(visibleKeys) ==> s == startKey + 1
  {
    Min(KeyWindow.MaxStart(visibleKeys), startKey + 1)
  }

  /** From a valid window both slides ask for a start the store keeps as it is. */
  lemma SlidesStayInRange(startKey: int, visibleKeys: int)
    requires KeyWindow.WindowValid(startKey, visibleKeys)
    ensures 0 <= SlideLeftRequest(startKey) <= KeyWindow.MaxStart(visibleKeys)
    ensures 0 <= SlideRightRequest(startKey, visibleKeys) <= KeyWindow.MaxStart(visibleKeys)
  {
  }

  /** The component's own `keyToNote`, with its own copy of the name table. */
  function LocalKeyToNote(key: int): string
  {
    var notes := ["C", "C#", "D", "D#", "E", "F", "F#", "G", "G#", "A", "A#", "B"];
    var octave := key / 12 - 1;
    var noteIndex := JsNumbers.Rem(key, 12);
    (if noteIndex >= 0 then notes[noteIndex] else "undefined") + JsNumbers.IntToString(octave)
  }

  /** It names every key as the store's `keyToNote` does. */
  lemma LocalKeyToNoteAgrees(key: int)
    ensures LocalKeyToNote(key) == NoteNames.KeyToNote(key)
  {
  }

  /** The visibility conditions of the four buttons. */
  predicate ShowDecrease(visibleKeys: int) { visibleKeys > 1 }
  predicate ShowIncrease(visibleKeys: int) { visibleKeys < KeyWindow.MaxVisible }
  predicate ShowLeft(startKey: int) { startKey > 0 }
  predicate ShowRight(startKey: int, visibleKeys: int) { startKey < KeyWindow.LastKey - visibleKeys + 1 }

  /** A click on each button, carried through to the store. */
  function ClickDecrease(st: StoreModel.StoreState): StoreModel.StoreState
  {
    match DecreaseRequest(st.visibleKeys)
    case None => st
    case Some(count) => StoreModel.SetVisibleKeys(st, count)
  }

  function ClickIncrease(st: StoreModel.StoreState): StoreModel.StoreState
  {
    match IncreaseRequest(st.visibleKeys)
    case None => st
    case Some(count) => StoreModel.SetVisibleKeys(st, count)
  }

  function ClickLeft(st: StoreModel.StoreState): StoreModel.StoreState
  {
    StoreModel.SetStartKey(st, SlideLeftRequest(st.startKey))
  }

  function ClickRight(st: StoreModel.StoreState): StoreModel.StoreState
  {
    StoreModel.SetStartKey(st, SlideRightRequest(st.startKey, st.visibleKeys))
  }

  /** On a valid store, each button is shown exactly when clicking it would change the window. */
  lemma ButtonShownIffEffective(st: StoreModel.StoreState)
    requires KeyWindow.WindowValid(st.startKey, st.visibleKeys)
    ensures ShowDecrease(st.visibleKeys) <==> ClickDecrease(st).visibleKeys != st.visibleKeys
    ensures ShowIncrease(st.visibleKeys) <==> ClickIncrease(st).visibleKeys != st.visibleKeys
    ensures ShowLeft(st.startKey) <==> ClickLeft(st).startKey != st.startKey
    ensures ShowRight(st.startKey, st.visibleKeys) <==> ClickRight(st).startKey != st.startKey
  {
  }

  /** A shown button moves its value by exactly one. */
  lemma ButtonStepsByOne(st: StoreModel.StoreState)
    requires KeyWindow.WindowValid(st.startKey, st.visibleKeys)
    ensures ShowDecrease(st.visibleKeys) ==> ClickDecrease(st).visibleKeys == st.visibleKeys - 1
    ensures ShowIncrease(st.visibleKeys) ==> ClickIncrease(st).visibleKeys == st.visibleKeys + 1
    ensures ShowLeft(st.startKey) ==> ClickLeft(st).startKey == st.startKey - 1
    ensures ShowRight(st.startKey, st.visibleKeys) ==> ClickRight(st).startKey == st.startKey + 1
  {
  }
}
