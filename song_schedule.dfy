/**
 * Songs and the pure rules of the per-frame playback step: which notes the
 * cursor presses, which notes are sounding, where the window follows them,
 * when the song ends, and how `playSong` sizes and centres the window.
 * Times and durations are whole milliseconds; `elapsed` is injected.
 */
module SongSchedule {
  import opened Wrappers
  import KeyWindow

  datatype SongNote = SongNote(midi: int, duration: int, time: int)
  datatype NoteRange = NoteRange(min: int, max: int)
  datatype Song = Song(name: string, notes: seq<SongNote>, range: NoteRange)

  /** A deferred release: `setTimeout(() => releaseKey(key), duration)` scheduled at `dueAt`. */
  datatype ReleaseTimer = ReleaseTimer(key: int, dueAt: int)

  /**
   * Where the trigger loop stops when the cursor is at `from`: it passes every
   * note that has started by `elapsed` and halts at the first that has not.
   */
  function TriggerEnd(notes: seq<SongNote>, from: nat, elapsed: int): (r: nat)
    requires from <= |notes|
    ensures from <= r <= |notes|
    ensures forall j | from <= j < r :: notes[j].time <= elapsed
    ensures r < |notes| ==> notes[r].time > elapsed
    decreases |notes| - from
  {
    if from < |notes| && notes[from].time <= elapsed then TriggerEnd(notes, from + 1, elapsed) else from
  }

  /** The stopping point is determined by the two conditions above. */
  lemma TriggerEndUnique(notes: seq<SongNote>, from: nat, elapsed: int, r: nat)
    requires from <= r <= |notes|
    requires forall j | from <= j < r :: notes[j].time <= elapsed
    requires r < |notes| ==> notes[r].time > elapsed
    ensures TriggerEnd(notes, from, elapsed) == r
  {
  }

  /** A later frame never leaves the cursor behind an earlier one. */
  lemma TriggerEndMonotone(notes: seq<SongNote>, from: nat, e1: int, e2: int)
    requires from <= |notes| && e1 <= e2
    ensures TriggerEnd(notes, from, e1) <= TriggerEnd(notes, from, e2)
  {
  }

  /**
   * Frame-rate independence of the cursor: stepping at `e1` and then at a
   * later `e2` leaves it where a single step at `e2` would.
   */
  lemma TriggerEndCompose(notes: seq<SongNote>, from: nat, e1: int, e2: int)
    requires from <= |notes| && e1 <= e2
    ensures TriggerEnd(notes, TriggerEnd(notes, from, e1), e2) == TriggerEnd(notes, from, e2)
  {
    var m := TriggerEnd(notes, from, e1);
    var t := TriggerEnd(notes, m, e2);
    TriggerEndMonotone(notes, from, e1, e2);
    assert forall j | from <= j < t :: notes[j].time <= e2 by {
      forall j | from <= j < t ensures notes[j].time <= e2 {
        if j < m {
          assert notes[j].time <= e1;
        }
      }
    }
    TriggerEndUnique(notes, from, e2, t);
  }

  /** Keys among the notes `from..to-1` that fall in the window and so are accepted by `pressKey`. */
  function Accepted(notes: seq<SongNote>, from: nat, to: nat, start: int, visible: int): (keys: set<int>)
    requires from <= to <= |notes|
    ensures forall k :: (k in keys <==>
      KeyWindow.InWindow(k, start, visible) && exists j | from <= j < to :: notes[j].midi == k)
  {
    if to == from then {}
    else
      var rest := Accepted(notes, from, to - 1, start, visible);
      var k := notes[to - 1].midi;
      if KeyWindow.InWindow(k, start, visible) then rest + {k} else rest
  }

  /** The release timers the trigger loop schedules for the notes `from..to-1`, in order. */
  function ReleaseTimers(notes: seq<SongNote>, from: nat, to: nat, elapsed: int): (ts: seq<ReleaseTimer>)
    requires from <= to <= |notes|
    ensures |ts| == to - from
    ensures forall i | 0 <= i < |ts| :: (ts[i] ==
      ReleaseTimer(notes[from + i].midi, elapsed + notes[from + i].duration))
  {
    if to == from then []
    else ReleaseTimers(notes, from, to - 1, elapsed) + [ReleaseTimer(notes[to - 1].midi, elapsed + notes[to - 1].duration)]
  }

  predicate IsSounding(n: SongNote, elapsed: int)
  {
    n.time <= elapsed <= n.time + n.duration
  }

  /** `currentNotes`: the notes sounding at `elapsed`, in list order. */
  function Sounding(notes: seq<SongNote>, elapsed: int): (s: seq<SongNote>)
    ensures |s| <= |notes|
    ensures forall n :: n in s <==> n in notes && IsSounding(n, elapsed)
  {
    if |notes| == 0 then []
    else (if IsSounding(notes[0], elapsed) then [notes[0]] else []) + Sounding(notes[1..], elapsed)
  }

  /** `Math.min(...notes.map(n => n.midi))` on a non-empty list. */
  function MinMidi(s: seq<SongNote>): (m: int)
    requires |s| > 0
    ensures exists i | 0 <= i < |s| :: s[i].midi == m
    ensures forall i | 0 <= i < |s| :: m <= s[i].midi
  {
    if |s| == 1 then s[0].midi else Min(s[0].midi, MinMidi(s[1..]))
  }

  /** `Math.max(...notes.map(n => n.midi))` on a non-empty list. */
  function MaxMidi(s: seq<SongNote>): (m: int)
    requires |s| > 0
    ensures exists i | 0 <= i < |s| :: s[i].midi == m
    ensures forall i | 0 <= i < |s| :: s[i].midi <= m
  {
    if |s| == 1 then s[0].midi else Max(s[0].midi, MaxMidi(s[1..]))
  }

  /** `Math.floor((lo + hi) / 2)`. */
  function Middle(lo: int, hi: int): (c: int)
    requires lo <= hi
    ensures lo <= c <= hi
    ensures c + c == lo + hi || c + c + 1 == lo + hi
  {
    (lo + hi) / 2
  }

  /**
   * The auto-scroll rule: the start it asks `setStartKey` for, or `None`
   * when nothing sounds or the centre of the sounding notes is at least two
   * keys inside both edges of the window.
   */
  function FollowRequest(notes: seq<SongNote>, elapsed: int, start: int, visible: int): (req: Option<int>)
    ensures req.None? <==>
      (var cur := Sounding(notes, elapsed);
       |cur| == 0 || start + 2 <= Middle(MinMidi(cur), MaxMidi(cur)) <= start + visible - 3)
    ensures req.Some? ==>
      (var cur := Sounding(notes, elapsed);
       |cur| > 0 && req.value == Middle(MinMidi(cur), MaxMidi(cur)) - visible / 2)
  {
    var cur := Sounding(notes, elapsed);
    if |cur| == 0 then None
    else
      var center := Middle(MinMidi(cur), MaxMidi(cur));
      if center < start + 2 || center > start + visible - 3 then Some(center - visible / 2) else None
  }

  /** When the follow rule fires, the window it sets shows the centre it aimed at. */
  lemma FollowShowsCenter(center: int, visible: int)
    requires 0 <= center <= KeyWindow.LastKey && 1 <= visible <= KeyWindow.MaxVisible
    ensures KeyWindow.InWindow(center, KeyWindow.ClampStart(center - visible / 2, visible), visible)
  {
  }

  /**
   * With at least five keys away from the piano's ends, the window the
   * follow rule sets keeps the centre inside the margins, so the rule does
   * not fire again on the same sounding notes.
   */
  lemma FollowSettles(center: int, visible: int)
    requires 5 <= visible <= KeyWindow.MaxVisible
    requires 0 <= center - visible / 2 <= KeyWindow.MaxStart(visible)
    ensures var s := KeyWindow.ClampStart(center - visible / 2, visible);
      s + 2 <= center <= s + visible - 3
  {
  }

  /** The centre of the sounding notes lies between their lowest and highest key. */
  lemma SoundingCenterBounds(notes: seq<SongNote>, elapsed: int)
    requires forall i | 0 <= i < |notes| :: 0 <= notes[i].midi <= KeyWindow.LastKey
    requires |Sounding(notes, elapsed)| > 0
    ensures var cur := Sounding(notes, elapsed);
      0 <= Middle(MinMidi(cur), MaxMidi(cur)) <= KeyWindow.LastKey
  {
    var cur := Sounding(notes, elapsed);
    var lo := MinMidi(cur);
    var hi := MaxMidi(cur);
    var i :| 0 <= i < |cur| && cur[i].midi == lo;
    var j :| 0 <= j < |cur| && cur[j].midi == hi;
    assert cur[i] in notes && cur[j] in notes;
  }

  /** `totalTime`: the end of the last note in the list (the list must be non-empty). */
  function TotalTime(notes: seq<SongNote>): (t: int)
    requires |notes| > 0
    ensures t == notes[|notes| - 1].time + notes[|notes| - 1].duration
  {
    var last := notes[|notes| - 1];
    last.time + last.duration
  }

  /** The number of keys `playSong` shows: the range size, at least 7 and at most 18. */
  function PlayVisible(range: NoteRange): (v: int)
    ensures 7 <= v <= KeyWindow.MaxVisible
    ensures 7 <= range.max - range.min + 1 <= KeyWindow.MaxVisible ==> v == range.max - range.min + 1
  {
    Min(Max(range.max - range.min + 1, 7), KeyWindow.MaxVisible)
  }

  /** The start `playSong` asks for: the range's centre minus half the width. */
  function PlayRequest(range: NoteRange): int
  {
    (range.min + range.max) / 2 - PlayVisible(range) / 2
  }

  /** The range lies on the piano. */
  predicate OnPiano(range: NoteRange)
  {
    0 <= range.min <= range.max <= KeyWindow.LastKey
  }

  /**
   * The whole range is visible after `playSong` when it has at most 7 keys,
   * or an odd number of keys up to 18.
   */
  lemma PlayWindowShowsRange(range: NoteRange)
    requires OnPiano(range)
    requires var size := range.max - range.min + 1; size <= 7 || (size <= KeyWindow.MaxVisible && size % 2 == 1)
    ensures var v := PlayVisible(range); var s := KeyWindow.ClampStart(PlayRequest(range), v);
      KeyWindow.InWindow(range.min, s, v) && KeyWindow.InWindow(range.max, s, v)
  {
  }

  /**
   * For an even number of keys between 8 and 18 the centre is rounded down,
   * the window starts one key below the range and the top note is not shown
   * (unless the range starts at key 0).
   */
  lemma PlayWindowMissesTopOfEvenRange(range: NoteRange)
    requires OnPiano(range) && 1 <= range.min
    requires var size := range.max - range.min + 1; 8 <= size <= KeyWindow.MaxVisible && size % 2 == 0
    ensures var v := PlayVisible(range); var s := KeyWindow.ClampStart(PlayRequest(range), v);
      s == range.min - 1 && !KeyWindow.InWindow(range.max, s, v)
  {
  }
}
