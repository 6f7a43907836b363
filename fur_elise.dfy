/**
 * The built-in score: "Für Elise" as a constant note list with its key
 * range, in the store's numbering (60 is C4). The list is kept in the
 * order written, phrase by phrase (melody, then its left-hand
 * accompaniment), which is not the order of start times.
 */
module FurElise {
  import SongSchedule
  import KeyWindow
  import StoreModel

  type SongNote = SongSchedule.SongNote

  const Phrase0: seq<SongNote> := [
    SongSchedule.SongNote(76, 400, 0), SongSchedule.SongNote(75, 400, 400), SongSchedule.SongNote(76, 400, 800),
    SongSchedule.SongNote(75, 400, 1200), SongSchedule.SongNote(76, 400, 1600), SongSchedule.SongNote(71, 400, 2000),
    SongSchedule.SongNote(74, 400, 2400), SongSchedule.SongNote(72, 400, 2800), SongSchedule.SongNote(69, 800, 3200),
    SongSchedule.SongNote(45, 800, 3200), SongSchedule.SongNote(52, 800, 3200), SongSchedule.SongNote(57, 800, 3200)
  ]

  const Phrase1: seq<SongNote> := [
    SongSchedule.SongNote(60, 400, 4000), SongSchedule.SongNote(64, 400, 4400), SongSchedule.SongNote(69, 400, 4800),
    SongSchedule.SongNote(71, 800, 5200), SongSchedule.SongNote(40, 800, 5200), SongSchedule.SongNote(47, 800, 5200),
    SongSchedule.SongNote(52, 800, 5200)
  ]

  const Phrase2: seq<SongNote> := [
    SongSchedule.SongNote(64, 400, 6000), SongSchedule.SongNote(68, 400, 6400), SongSchedule.SongNote(71, 400, 6800),
    SongSchedule.SongNote(72, 800, 7200), SongSchedule.SongNote(45, 800, 7200), SongSchedule.SongNote(52, 800, 7200),
    SongSchedule.SongNote(57, 800, 7200)
  ]

  const Phrase3: seq<SongNote> := [
    SongSchedule.SongNote(76, 400, 8000), SongSchedule.SongNote(75, 400, 8400), SongSchedule.SongNote(76, 400, 8800),
    SongSchedule.SongNote(75, 400, 9200), SongSchedule.SongNote(76, 400, 9600), SongSchedule.SongNote(71, 400, 10000),
    SongSchedule.SongNote(74, 400, 10400), SongSchedule.SongNote(72, 400, 10800), SongSchedule.SongNote(69, 800, 11200),
    SongSchedule.SongNote(45, 800, 11200), SongSchedule.SongNote(52, 800, 11200), SongSchedule.SongNote(57, 800, 11200)
  ]

  const Phrase4: seq<SongNote> := [
    SongSchedule.SongNote(60, 400, 12000), SongSchedule.SongNote(64, 400, 12400), SongSchedule.SongNote(69, 400, 12800),
    SongSchedule.SongNote(71, 800, 13200), SongSchedule.SongNote(40, 800, 13200), SongSchedule.SongNote(47, 800, 13200),
    SongSchedule.SongNote(52, 800, 13200)
  ]

  const Phrase5: seq<SongNote> := [
    SongSchedule.SongNote(64, 400, 14000), SongSchedule.SongNote(72, 400, 14400), SongSchedule.SongNote(71, 400, 14800),
    SongSchedule.SongNote(69, 800, 15200), SongSchedule.SongNote(45, 800, 15200), SongSchedule.SongNote(52, 800, 15200),
    SongSchedule.SongNote(57, 800, 15200)
  ]

  const Phrase6: seq<SongNote> := [
    SongSchedule.SongNote(71, 400, 16000), SongSchedule.SongNote(72, 400, 16400), SongSchedule.SongNote(74, 400, 16800),
    SongSchedule.SongNote(76, 400, 17200), SongSchedule.SongNote(79, 400, 17600), SongSchedule.SongNote(77, 400, 18000),
    SongSchedule.SongNote(76, 400, 18400), SongSchedule.SongNote(74, 400, 18800), SongSchedule.SongNote(43, 1600, 16000),
    SongSchedule.SongNote(50, 1600, 16000), SongSchedule.SongNote(55, 1600, 16000), SongSchedule.SongNote(38, 1600, 17600),
    SongSchedule.SongNote(50, 1600, 17600), SongSchedule.SongNote(57, 1600, 17600)
  ]

  const Phrase7: seq<SongNote> := [
    SongSchedule.SongNote(77, 400, 19200), SongSchedule.SongNote(76, 400, 19600), SongSchedule.SongNote(74, 400, 20000),
    SongSchedule.SongNote(72, 400, 20400), SongSchedule.SongNote(76, 400, 20800), SongSchedule.SongNote(74, 400, 21200),
    SongSchedule.SongNote(72, 400, 21600), SongSchedule.SongNote(71, 400, 22000), SongSchedule.SongNote(41, 1600, 19200),
    SongSchedule.SongNote(48, 1600, 19200), SongSchedule.SongNote(53, 1600, 19200), SongSchedule.SongNote(40, 1600, 20800),
    SongSchedule.SongNote(47, 1600, 20800), SongSchedule.SongNote(52, 1600, 20800)
  ]

  const Phrase8: seq<SongNote> := [
    SongSchedule.SongNote(76, 400, 22400), SongSchedule.SongNote(75, 400, 22800), SongSchedule.SongNote(76, 400, 23200),
    SongSchedule.SongNote(75, 400, 23600), SongSchedule.SongNote(76, 400, 24000), SongSchedule.SongNote(71, 400, 24400),
    SongSchedule.SongNote(74, 400, 24800), SongSchedule.SongNote(72, 400, 25200), SongSchedule.SongNote(69, 800, 25600),
    SongSchedule.SongNote(45, 800, 25600), SongSchedule.SongNote(52, 800, 25600), SongSchedule.SongNote(57, 800, 25600)
  ]

  const Phrase9: seq<SongNote> := [
    SongSchedule.SongNote(60, 400, 26400), SongSchedule.SongNote(64, 400, 26800), SongSchedule.SongNote(69, 400, 27200),
    SongSchedule.SongNote(71, 800, 27600), SongSchedule.SongNote(40, 800, 27600), SongSchedule.SongNote(47, 800, 27600),
    SongSchedule.SongNote(52, 800, 27600)
  ]

  const Phrase10: seq<SongNote> := [
    SongSchedule.SongNote(64, 400, 28400), SongSchedule.SongNote(68, 400, 28800), SongSchedule.SongNote(71, 400, 29200),
    SongSchedule.SongNote(72, 800, 29600), SongSchedule.SongNote(45, 800, 29600), SongSchedule.SongNote(52, 800, 29600),
    SongSchedule.SongNote(57, 800, 29600)
  ]

  const Phrase11: seq<SongNote> := [
    SongSchedule.SongNote(76, 400, 30400), SongSchedule.SongNote(75, 400, 30800), SongSchedule.SongNote(76, 400, 31200),
    SongSchedule.SongNote(75, 400, 31600), SongSchedule.SongNote(76, 400, 32000), SongSchedule.SongNote(71, 400, 32400),
    SongSchedule.SongNote(74, 400, 32800), SongSchedule.SongNote(72, 400, 33200), SongSchedule.SongNote(69, 800, 33600),
    SongSchedule.SongNote(45, 800, 33600), SongSchedule.SongNote(52, 800, 33600), SongSchedule.SongNote(57, 800, 33600)
  ]

  const Phrase12: seq<SongNote> := [
    SongSchedule.SongNote(60, 400, 34400), SongSchedule.SongNote(64, 400, 34800), SongSchedule.SongNote(69, 400, 35200),
    SongSchedule.SongNote(71, 800, 35600), SongSchedule.SongNote(40, 800, 35600), SongSchedule.SongNote(47, 800, 35600),
    SongSchedule.SongNote(52, 800, 35600)
  ]

  const Phrase13: seq<SongNote> := [
    SongSchedule.SongNote(64, 400, 36400), SongSchedule.SongNote(72, 400, 36800), SongSchedule.SongNote(71, 400, 37200),
    SongSchedule.SongNote(69, 1200, 37600), SongSchedule.SongNote(45, 1200, 37600), SongSchedule.SongNote(52, 1200, 37600),
    SongSchedule.SongNote(57, 1200, 37600)
  ]

  /** The whole note list, in the order written. */
  const Notes: seq<SongNote> :=
    Phrase0 + Phrase1 + Phrase2 + Phrase3 + Phrase4 + Phrase5 + Phrase6
    + Phrase7 + Phrase8 + Phrase9 + Phrase10 + Phrase11 + Phrase12 + Phrase13

  const Range := SongSchedule.NoteRange(38, 79)

  const Song := SongSchedule.Song("Für Elise", Notes, Range)

  /** The end of the last note: the length of the piece in milliseconds. */
  const Length := 38800

  /** A note inside the declared range that starts at or after 0, lasts, and ends by `Length`. */
  predicate NoteFits(n: SongNote)
  {
    Range.min <= n.midi <= Range.max && 0 <= n.time && 0 < n.duration && n.time + n.duration <= Length
  }

  lemma Phrase0Fits()
    ensures forall n | n in Phrase0 :: NoteFits(n)
  {
  }

  lemma Phrase1Fits()
    ensures forall n | n in Phrase1 :: NoteFits(n)
  {
  }

  lemma Phrase2Fits()
    ensures forall n | n in Phrase2 :: NoteFits(n)
  {
  }

  lemma Phrase3Fits()
    ensures forall n | n in Phrase3 :: NoteFits(n)
  {
  }

  lemma Phrase4Fits()
    ensures forall n | n in Phrase4 :: NoteFits(n)
  {
  }

  lemma Phrase5Fits()
    ensures forall n | n in Phrase5 :: NoteFits(n)
  {
  }

  lemma Phrase6Fits()
    ensures forall n | n in Phrase6 :: NoteFits(n)
  {
  }

  lemma Phrase7Fits()
    ensures forall n | n in Phrase7 :: NoteFits(n)
  {
  }

  lemma Phrase8Fits()
    ensures forall n | n in Phrase8 :: NoteFits(n)
  {
  }

  lemma Phrase9Fits()
    ensures forall n | n in Phrase9 :: NoteFits(n)
  {
  }

  lemma Phrase10Fits()
    ensures forall n | n in Phrase10 :: NoteFits(n)
  {
  }

  lemma Phrase11Fits()
    ensures forall n | n in Phrase11 :: NoteFits(n)
  {
  }

  lemma Phrase12Fits()
    ensures forall n | n in Phrase12 :: NoteFits(n)
  {
  }

  lemma Phrase13Fits()
    ensures forall n | n in Phrase13 :: NoteFits(n)
  {
  }
  /** 132 notes, each in the declared range, with a start time of 0 or more, a positive duration and an end by `Length`. */
  lemma NotesFit()
    ensures |Notes| == 132
    ensures forall i | 0 <= i < |Notes| :: NoteFits(Notes[i])
  {
    Phrase0Fits(); Phrase1Fits(); Phrase2Fits(); Phrase3Fits(); Phrase4Fits(); Phrase5Fits(); Phrase6Fits();
    Phrase7Fits(); Phrase8Fits(); Phrase9Fits(); Phrase10Fits(); Phrase11Fits(); Phrase12Fits(); Phrase13Fits();
    forall i | 0 <= i < |Notes| ensures NoteFits(Notes[i]) {
      assert Notes[i] in Notes;
    }
  }

  /** `Notes` with the first six phrases (52 notes) and the middle section split off. */
  lemma MiddleSection()
    ensures |Phrase0 + Phrase1 + Phrase2 + Phrase3 + Phrase4 + Phrase5| == 52
    ensures Notes[52..66] == Phrase6 && Notes[66..80] == Phrase7
  {
    var head := Phrase0 + Phrase1 + Phrase2 + Phrase3 + Phrase4 + Phrase5;
    var tail := Phrase8 + Phrase9 + Phrase10 + Phrase11 + Phrase12 + Phrase13;
    assert Notes == head + Phrase6 + Phrase7 + tail;
  }

  /** Both ends of the declared range are played: G5 (79) and D2 (38). */
  lemma RangeAttained()
    ensures Notes[56].midi == Range.max && Notes[63].midi == Range.min
  {
    MiddleSection();
    assert Notes[56] == Phrase6[4] && Notes[63] == Phrase6[11];
  }

  /** The last note ends at `Length`, and no note ends later, so `Length` is the song's total time. */
  lemma TotalTimeIsLength()
    ensures SongSchedule.TotalTime(Notes) == Length
    ensures forall i | 0 <= i < |Notes| :: Notes[i].time + Notes[i].duration <= SongSchedule.TotalTime(Notes)
  {
    NotesFit();
    assert Notes[131] == Phrase13[6];
  }

  /**
   * The list is not in start-time order: the last melody note of the middle
   * section (18800 ms) comes before its accompaniment (16000 ms), and
   * likewise 22000 ms before 19200 ms in the next phrase.
   */
  lemma NotSortedByTime()
    ensures Notes[59].time == 18800 && Notes[60].time == 16000
    ensures Notes[73].time == 22000 && Notes[74].time == 19200
  {
    MiddleSection();
    assert Notes[59] == Phrase6[7] && Notes[60] == Phrase6[8];
    assert Notes[73] == Phrase7[7] && Notes[74] == Phrase7[8];
  }

  /**
   * With the in-order cursor, the accompaniment at index 60, due at 16000 ms,
   * is not reached before 18800 ms: every frame earlier than that stops the
   * trigger loop at index 59 or before.
   */
  lemma AccompanimentFiresLate(from: nat, elapsed: int)
    requires from <= 59 && elapsed < 18800
    ensures SongSchedule.TriggerEnd(Notes, from, elapsed) <= 59
  {
    NotSortedByTime();
    NotesFit();
  }

  /**
   * `playSong` shows 18 keys starting at 49 (D#3 to G#4), so the first note,
   * E5 (76), is outside the window.
   */
  lemma InitialWindow()
    ensures SongSchedule.PlayVisible(Range) == 18
    ensures KeyWindow.ClampStart(SongSchedule.PlayRequest(Range), 18) == 49
    ensures Notes[0].midi == 76 && !KeyWindow.InWindow(Notes[0].midi, 49, 18)
  {
  }

  /** So the first frame of the demo presses nothing. */
  lemma FirstFramePressesNothing(st: StoreModel.StoreState)
    requires StoreModel.Ready(st) && !st.isPlayingDemo
    ensures var s := StoreModel.PlaySong(st, Song);
      StoreModel.Frame(s, Notes, 0, 0).activeKeys == {}
  {
    var s := StoreModel.PlaySong(st, Song);
    InitialWindow();
    NotesFit();
    assert Notes[1] == Phrase0[1];
    SongSchedule.TriggerEndUnique(Notes, 0, 0, 1);
    TotalTimeIsLength();
    StoreModel.FramePresses(s, Notes, 0, 0);
  }
}
