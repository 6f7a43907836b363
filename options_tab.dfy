/**
 * The settings panel: the values its keyboard-size and start-key controls
 * compute from the text of a slider or a +/- button before calling the
 * store's setters. The 100 ms debounce in front of them is not modelled.
 */
module OptionsTab {
  import opened Wrappers
  import JsNumbers
  import KeyWindow
  import StoreModel

  /** `parseInt(text) || fallback`: both NaN and 0 fall back. */
  function ParsedOr(text: string, fallback: int): (n: int)
    ensures JsNumbers.ParseInt(text).None? ==> n == fallback
    ensures JsNumbers.ParseInt(text) == Some(0) ==> n == fallback
    ensures (match JsNumbers.ParseInt(text) case None => false case Some(v) => v != 0) ==> Some(n) == JsNumbers.ParseInt(text)
  {
    match JsNumbers.ParseInt(text)
    case None => fallback
    case Some(v) => if v == 0 then fallback else v
  }

  /** `handleKeysChange`'s value: the parsed count (13 if none) clamped into 12..88. */
  function KeysValue(text: string): (count: int)
    ensures 12 <= count <= 88
    ensures var n := ParsedOr(text, 13); 12 <= n <= 88 ==> count == n
  {
    Max(12, Min(88, ParsedOr(text, 13)))
  }

  /** `handleKeyboardStartChange`'s value: the parsed start (60 if none) clamped into 0..88-visibleKeys. */
  function StartValue(text: string, visibleKeys: int): (start: int)
    ensures 0 <= start
    ensures visibleKeys <= 88 ==> start <= 88 - visibleKeys
    ensures var n := ParsedOr(text, 60); 0 <= n <= 88 - visibleKeys ==> start == n
  {
    Max(0, Min(88 - visibleKeys, ParsedOr(text, 60)))
  }

  /** The store after the keyboard-size control calls `setVisibleKeys`. */
  function KeysChange(st: StoreModel.StoreState, text: string): StoreModel.StoreState
  {
    StoreModel.SetVisibleKeys(st, KeysValue(text))
  }

  /** The store after the start-key control calls `setStartKey`. */
  function StartChange(st: StoreModel.StoreState, text: string): StoreModel.StoreState
  {
    StoreModel.SetStartKey(st, StartValue(text, st.visibleKeys))
  }

  /** Through the store's own clamp the panel can only set 12 to 18 visible keys. */
  lemma KeysChangeRange(st: StoreModel.StoreState, text: string)
    ensures 12 <= KeysChange(st, text).visibleKeys <= KeyWindow.MaxVisible
  {
  }

  /** On a valid store the panel's start is already in range: the store keeps it unchanged. */
  lemma StartChangeKeepsValue(st: StoreModel.StoreState, text: string)
    requires KeyWindow.WindowValid(st.startKey, st.visibleKeys)
    ensures StartChange(st, text).startKey == StartValue(text, st.visibleKeys)
  {
  }

  /** The +/- size buttons pass the number `visibleKeys ± 1`, which is then converted to text and parsed back. */
  lemma KeysButtons(visibleKeys: int)
    ensures KeysValue(JsNumbers.IntToString(visibleKeys + 1)) ==
      if visibleKeys + 1 == 0 then 13 else Max(12, Min(88, visibleKeys + 1))
    ensures KeysValue(JsNumbers.IntToString(visibleKeys - 1)) ==
      if visibleKeys - 1 == 0 then 13 else Max(12, Min(88, visibleKeys - 1))
  {
    JsNumbers.ParseIntOfIntToString(visibleKeys + 1);
    JsNumbers.ParseIntOfIntToString(visibleKeys - 1);
  }

  /** The +/- start buttons pass `(startKey ± 1).toString()`. */
  lemma StartButtons(startKey: int, visibleKeys: int)
    requires 1 <= visibleKeys <= KeyWindow.MaxVisible
    ensures StartValue(JsNumbers.IntToString(startKey + 1), visibleKeys) ==
      if startKey + 1 == 0 then 60 else Max(0, Min(88 - visibleKeys, startKey + 1))
    ensures StartValue(JsNumbers.IntToString(startKey - 1), visibleKeys) ==
      if startKey - 1 == 0 then 60 else Max(0, Min(88 - visibleKeys, startKey - 1))
  {
    JsNumbers.ParseIntOfIntToString(startKey + 1);
    JsNumbers.ParseIntOfIntToString(startKey - 1);
  }

  /**
   * Asking for start 0 gives min(88 - visibleKeys, 60): the 0 counts as
   * "no number". So "-" at start 1 jumps to 60 instead of 0; only a
   * negative number reaches start 0.
   */
  lemma StartZeroFallsBack(visibleKeys: int)
    requires 1 <= visibleKeys <= KeyWindow.MaxVisible
    ensures StartValue("0", visibleKeys) == 60
    ensures StartValue(JsNumbers.IntToString(1 - 1), visibleKeys) == 60
    ensures forall text: string | StartValue(text, visibleKeys) == 0 :: ParsedOr(text, 60) < 0
  {
    JsNumbers.ParseIntOfOneChar("0");
    assert JsNumbers.IntToString(0) == "0";
  }

  /** The start value with only NaN falling back to 60; 0 counts as a number. */
  function StartValueCorrected(text: string, visibleKeys: int): (start: int)
    ensures 0 <= start
    ensures visibleKeys <= 88 ==> start <= 88 - visibleKeys
  {
    var n := match JsNumbers.ParseInt(text) case None => 60 case Some(v) => v;
    Max(0, Min(88 - visibleKeys, n))
  }

  /** With the correction every start of the valid range is reached by its own text, 0 included. */
  lemma StartValueCorrectedReachesAll(start: int, visibleKeys: int)
    requires 0 <= start <= 88 - visibleKeys
    ensures StartValueCorrected(JsNumbers.IntToString(start), visibleKeys) == start
  {
    JsNumbers.ParseIntOfIntToString(start);
  }
}
