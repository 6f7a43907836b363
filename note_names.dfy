/**
 * Conversion between key indices and note names, in the store's numbering:
 * index 60 is "C4" and the octave of index k is floor(k / 12) - 1, so the
 * indices follow MIDI note numbers.
 */
module NoteNames {
  import opened Wrappers
  import JsNumbers

  /** The twelve pitch-class names, indexed by `key % 12`. */
  const PitchNames: seq<string> := ["C", "C#", "D", "D#", "E", "F", "F#", "G", "G#", "A", "A#", "B"]

  /** A pitch-class name is a letter, possibly followed by '#'; it holds no digit and no '-'. */
  predicate IsPitchText(s: string)
  {
    forall i | 0 <= i < |s| :: s[i] != '-' && !JsNumbers.IsDigit(s[i])
  }

  lemma PitchNamesShape()
    ensures |PitchNames| == 12
    ensures forall i | 0 <= i < 12 :: 1 <= |PitchNames[i]| <= 2 && IsPitchText(PitchNames[i])
    ensures forall i, j | 0 <= i < 12 && 0 <= j < 12 && i != j :: PitchNames[i] != PitchNames[j]
  {
  }

  /** `notes.indexOf(name)`: the first position of `name`, or -1. */
  function IndexOf(names: seq<string>, name: string): (r: int)
    ensures -1 <= r < |names|
    ensures r == -1 <==> name !in names
    ensures r >= 0 ==> names[r] == name && forall j | 0 <= j < r :: names[j] != name
  {
    if |names| == 0 then -1
    else if names[0] == name then 0
    else var r := IndexOf(names[1..], name); if r == -1 then -1 else r + 1
  }

  /**
   * `keyToNote(key)`: pitch-class name followed by the octave number. For a
   * negative index JavaScript's `%` is negative (or zero) and the table
   * lookup yields `undefined`, which the template literal spells out.
   */
  function KeyToNote(key: int): string
  {
    var octave := key / 12 - 1;
    var noteIndex := JsNumbers.Rem(key, 12);
    (if noteIndex >= 0 then PitchNames[noteIndex] else "undefined") + JsNumbers.IntToString(octave)
  }

  /**
   * `noteToKey(note)` as written: everything but the last character is the
   * pitch-class name, the last character alone is parsed as the octave.
   * The result -1 means "unknown pitch class"; `None` is `NaN`.
   */
  function NoteToKey(note: string): (r: Option<int>)
    ensures r == Some(-1) <==> |note| == 0 || note[..|note| - 1] !in PitchNames
  {
    var noteName := if |note| > 0 then note[..|note| - 1] else "";
    var last := if |note| > 0 then note[|note| - 1..] else "";
    var noteIndex := IndexOf(PitchNames, noteName);
    if noteIndex == -1 then Some(-1)
    else
      JsNumbers.ParseIntOfOneChar(last);
      match JsNumbers.ParseInt(last)
      case None => None
      case Some(octave) => Some((octave + 1) * 12 + noteIndex)
  }

  /** Each pitch-class name is found at its own position. */
  lemma IndexOfPitchName(i: int)
    requires 0 <= i < 12
    ensures IndexOf(PitchNames, PitchNames[i]) == i
  {
    PitchNamesShape();
  }

  /** The text of an index whose octave is 0..9: its pitch-class name and one digit. */
  lemma KeyToNoteOneDigit(k: int)
    requires 12 <= k < 132
    ensures KeyToNote(k) == PitchNames[k % 12] + [JsNumbers.DigitChar(k / 12 - 1)]
  {
    assert JsNumbers.IntToString(k / 12 - 1) == [JsNumbers.DigitChar(k / 12 - 1)];
  }

  /** A known pitch-class name followed by one digit reads back as that octave and pitch class. */
  lemma NoteToKeyOfNameAndDigit(i: int, d: nat)
    requires 0 <= i < 12 && d < 10
    ensures NoteToKey(PitchNames[i] + [JsNumbers.DigitChar(d)]) == Some((d + 1) * 12 + i)
  {
    var note := PitchNames[i] + [JsNumbers.DigitChar(d)];
    assert note[..|note| - 1] == PitchNames[i];
    assert note[|note| - 1..] == [JsNumbers.DigitChar(d)];
    IndexOfPitchName(i);
    JsNumbers.ParseIntOfOneChar([JsNumbers.DigitChar(d)]);
  }

  /** For indices whose octave is a single digit (12..131), `noteToKey` undoes `keyToNote`. */
  lemma NoteToKeyInvertsKeyToNote(k: int)
    requires 12 <= k < 132
    ensures NoteToKey(KeyToNote(k)) == Some(k)
  {
    KeyToNoteOneDigit(k);
    NoteToKeyOfNameAndDigit(k % 12, k / 12 - 1);
  }

  /**
   * For indices 0..11 the octave is "-1": the last character alone is "1" and
   * the rest ("C-", "C#-", ...) is no pitch-class name, so the result is -1.
   */
  lemma NoteToKeyLowOctave(k: int)
    requires 0 <= k < 12
    ensures KeyToNote(k) == PitchNames[k] + "-1"
    ensures NoteToKey(KeyToNote(k)) == Some(-1)
  {
    PitchNamesShape();
    var note := KeyToNote(k);
    var rest := PitchNames[k] + "-";
    assert note[..|note| - 1] == rest;
    assert rest[|PitchNames[k]|] == '-';
    assert !IsPitchText(rest);
    assert rest !in PitchNames;
  }

  /** The position of the first character of `s` that is a digit or '-', or |s|. */
  function OctaveStart(s: string): (i: nat)
    ensures i <= |s|
    ensures IsPitchText(s[..i])
    ensures i < |s| ==> s[i] == '-' || JsNumbers.IsDigit(s[i])
  {
    if |s| == 0 || s[0] == '-' || JsNumbers.IsDigit(s[0]) then 0
    else
      var i := OctaveStart(s[1..]);
      assert s[..i + 1] == [s[0]] + s[1..][..i];
      i + 1
  }

  /**
   * `noteToKey` with the whole octave suffix parsed (sign and all digits),
   * so that it undoes `keyToNote` on every non-negative index.
   */
  function NoteToKeyFull(note: string): Option<int>
  {
    var split := OctaveStart(note);
    var noteIndex := IndexOf(PitchNames, note[..split]);
    if noteIndex == -1 then Some(-1)
    else
      match JsNumbers.ParseInt(note[split..])
      case None => None
      case Some(octave) => Some((octave + 1) * 12 + noteIndex)
  }

  /** A known pitch-class name, then the octave text where `OctaveStart` splits: the parsed octave and pitch class. */
  lemma NoteToKeyFullOfSplit(note: string, i: int, octave: int)
    requires 0 <= i < 12
    requires OctaveStart(note) == |PitchNames[i]| <= |note|
    requires note[..|PitchNames[i]|] == PitchNames[i]
    requires JsNumbers.ParseInt(note[|PitchNames[i]|..]) == Some(octave)
    ensures NoteToKeyFull(note) == Some((octave + 1) * 12 + i)
  {
    IndexOfPitchName(i);
  }

  lemma PitchNameIsText(i: int)
    requires 0 <= i < 12
    ensures IsPitchText(PitchNames[i])
  {
    PitchNamesShape();
  }

  /** A pitch-class name followed by the text of any octave reads back as that octave and pitch class. */
  lemma NoteToKeyFullOfNameAndOctave(i: int, octave: int)
    requires 0 <= i < 12
    ensures NoteToKeyFull(PitchNames[i] + JsNumbers.IntToString(octave)) == Some((octave + 1) * 12 + i)
  {
    var name := PitchNames[i];
    var text := JsNumbers.IntToString(octave);
    var note := name + text;
    PitchNameIsText(i);
    OctaveStartOfConcat(name, text);
    assert note[..|name|] == name;
    assert note[|name|..] == text;
    JsNumbers.ParseIntOfIntToString(octave);
    NoteToKeyFullOfSplit(note, i, octave);
  }

  /** The full parse undoes `keyToNote` on every non-negative index, all 88 piano keys included. */
  lemma NoteToKeyFullInvertsKeyToNote(k: nat)
    ensures NoteToKeyFull(KeyToNote(k)) == Some(k)
  {
    NoteToKeyFullOfNameAndOctave(k % 12, k / 12 - 1);
  }

  lemma {:induction false} OctaveStartOfConcat(name: string, text: string)
    requires IsPitchText(name)
    requires |text| > 0 && (text[0] == '-' || JsNumbers.IsDigit(text[0]))
    ensures OctaveStart(name + text) == |name|
  {
    if |name| > 0 {
      assert (name + text)[1..] == name[1..] + text;
      OctaveStartOfConcat(name[1..], text);
    } else {
      assert name + text == text;
    }
  }
}
