/**
 * The piano store's state as a value and one transition function per store
 * action. The sampler is reduced to the flag `pianoReady` (a sampler is
 * loaded); sound output is not part of the state.
 */
module StoreModel {
  import opened Wrappers
  import KeyWindow
  import SongSchedule

  /** `pressKey`'s default velocity. */
  const DefaultVelocity: real := 0.7

  /** The C major keys the store suggests once the samples have loaded. */
  const LoadedSuggestion: seq<int> := [60, 62, 64, 65, 67, 69, 71, 72]

  datatype StoreState = StoreState(
    startKey: int,
    visibleKeys: int,
    activeKeys: set<int>,
    velocity: map<int, real>,
    pianoReady: bool,
    isLoading: bool,
    isPlayingDemo: bool,
    suggestedKeys: seq<int>,
    currentSong: Option<SongSchedule.Song>,
    songProgress: real)

  /** The store as created. */
  function Initial(): (st: StoreState)
    ensures Valid(st) && !Ready(st) && st.activeKeys == {}
  {
    StoreState(60, 13, {}, map[], false, false, false, [], None, 0.0)
  }

  /** The window is on the piano and every pressed or remembered key is a piano key. */
  predicate Valid(st: StoreState)
  {
    KeyWindow.WindowValid(st.startKey, st.visibleKeys)
    && (forall k | k in st.activeKeys :: 0 <= k <= KeyWindow.LastKey)
    && (forall k | k in st.velocity :: 0 <= k <= KeyWindow.LastKey)
  }

  /** `piano` is set and no load is in progress: the guard of `pressKey` and `releaseKey`. */
  predicate Ready(st: StoreState)
  {
    st.pianoReady && !st.isLoading
  }

  /** `setStartKey(key)`. */
  function SetStartKey(st: StoreState, key: int): (r: StoreState)
    ensures r == st.(startKey := r.startKey)
    ensures 1 <= st.visibleKeys <= KeyWindow.MaxVisible ==> KeyWindow.WindowValid(r.startKey, r.visibleKeys)
    ensures 0 <= key <= KeyWindow.MaxStart(st.visibleKeys) ==> r.startKey == key
    ensures r.startKey == KeyWindow.ClampStart(key, st.visibleKeys)
  {
    st.(startKey := KeyWindow.ClampStart(key, st.visibleKeys))
  }

  /** `setVisibleKeys(count)`. */
  function SetVisibleKeys(st: StoreState, count: int): (r: StoreState)
    ensures r == st.(startKey := r.startKey, visibleKeys := r.visibleKeys)
    ensures 1 <= r.visibleKeys <= KeyWindow.MaxVisible
    ensures 1 <= count <= KeyWindow.MaxVisible ==> r.visibleKeys == count
    ensures r.startKey == Min(st.startKey, KeyWindow.MaxStart(r.visibleKeys))
    ensures 0 <= st.startKey ==> KeyWindow.WindowValid(r.startKey, r.visibleKeys)
  {
    st.(visibleKeys := KeyWindow.ClampVisible(count), startKey := KeyWindow.ResizedStart(st.startKey, count))
  }

  /** `pressKey` acts only when the piano is ready and the key is visible. */
  predicate PressAccepted(st: StoreState, key: int)
  {
    Ready(st) && KeyWindow.InWindow(key, st.startKey, st.visibleKeys)
  }

  /** `pressKey(key, vel)`. */
  function PressKey(st: StoreState, key: int, vel: real): (r: StoreState)
    ensures !PressAccepted(st, key) ==> r == st
    ensures PressAccepted(st, key) ==>
      r == st.(activeKeys := r.activeKeys, velocity := r.velocity)
      && r.activeKeys == st.activeKeys + {key}
      && key in r.velocity && r.velocity[key] == vel
      && (forall k | k in st.velocity && k != key :: k in r.velocity && r.velocity[k] == st.velocity[k])
      && r.velocity.Keys == st.velocity.Keys + {key}
  {
    if !PressAccepted(st, key) then st
    else st.(activeKeys := st.activeKeys + {key}, velocity := st.velocity[key := vel])
  }

  /** `releaseKey(key)`: no window check, and the velocity map is kept. */
  function ReleaseKey(st: StoreState, key: int): (r: StoreState)
    ensures !Ready(st) ==> r == st
    ensures Ready(st) ==> r == st.(activeKeys := r.activeKeys) && r.activeKeys == st.activeKeys - {key}
  {
    if !Ready(st) then st else st.(activeKeys := st.activeKeys - {key})
  }

  /** The part of `playSong` that runs before the first frame: flags and window setup. */
  function PlaySong(st: StoreState, song: SongSchedule.Song): (r: StoreState)
    ensures !Ready(st) || st.isPlayingDemo ==> r == st
    ensures Ready(st) && !st.isPlayingDemo ==>
      r.isPlayingDemo && r.currentSong == Some(song) && r.songProgress == 0.0 && r.activeKeys == {}
      && r.visibleKeys == SongSchedule.PlayVisible(song.range)
      && r.startKey == KeyWindow.ClampStart(SongSchedule.PlayRequest(song.range), r.visibleKeys)
      && r == st.(isPlayingDemo := true, currentSong := Some(song), songProgress := 0.0,
                  activeKeys := {}, visibleKeys := r.visibleKeys, startKey := r.startKey)
  {
    if !Ready(st) || st.isPlayingDemo then st
    else
      var s1 := st.(isPlayingDemo := true, currentSong := Some(song), songProgress := 0.0, activeKeys := {});
      var s2 := SetVisibleKeys(s1, SongSchedule.PlayVisible(song.range));
      SetStartKey(s2, SongSchedule.PlayRequest(song.range))
  }

  /** `stopSong()`. */
  function StopSong(st: StoreState): (r: StoreState)
    ensures !st.isPlayingDemo ==> r == st
    ensures st.isPlayingDemo ==>
      !r.isPlayingDemo && r.activeKeys == {} && r.songProgress == 0.0 && r.currentSong == None
      && r == st.(isPlayingDemo := false, activeKeys := {}, songProgress := 0.0, currentSong := None)
  {
    if !st.isPlayingDemo then st
    else st.(isPlayingDemo := false, activeKeys := {}, songProgress := 0.0, currentSong := None)
  }

  /** `initAudio` up to its first `await`: a load is in progress. */
  function InitAudioStart(st: StoreState): (r: StoreState)
    ensures r == st.(isLoading := true) && !Ready(r)
  {
    st.(isLoading := true)
  }

  /** The sampler's `onload` callback. */
  function SamplesLoaded(st: StoreState): (r: StoreState)
    ensures Ready(r) && r.suggestedKeys == LoadedSuggestion
    ensures r == st.(isLoading := false, pianoReady := true, suggestedKeys := LoadedSuggestion)
  {
    st.(isLoading := false, pianoReady := true, suggestedKeys := LoadedSuggestion)
  }

  /** The sampler's `onerror` callback, and the `catch` branch of `initAudio`. */
  function SamplesFailed(st: StoreState): (r: StoreState)
    ensures !Ready(r) && !r.isLoading
    ensures r == st.(isLoading := false, pianoReady := false)
  {
    st.(isLoading := false, pianoReady := false)
  }

  /** `setSuggestedKeys(keys)`. */
  function SetSuggestedKeys(st: StoreState, keys: seq<int>): (r: StoreState)
    ensures r == st.(suggestedKeys := keys)
  {
    st.(suggestedKeys := keys)
  }

  /** The trigger loop: `pressKey` with the default velocity for the notes `from..to-1`, in order. */
  function PressRun(st: StoreState, notes: seq<SongSchedule.SongNote>, from: nat, to: nat): StoreState
    requires from <= to <= |notes|
  {
    if to == from then st
    else PressKey(PressRun(st, notes, from, to - 1), notes[to - 1].midi, DefaultVelocity)
  }

  /** The auto-scroll part of a frame. */
  function Follow(st: StoreState, notes: seq<SongSchedule.SongNote>, elapsed: int): (r: StoreState)
    ensures r == st.(startKey := r.startKey)
    ensures SongSchedule.FollowRequest(notes, elapsed, st.startKey, st.visibleKeys).None? ==> r == st
    ensures var req := SongSchedule.FollowRequest(notes, elapsed, st.startKey, st.visibleKeys);
      req.Some? ==> r.startKey == KeyWindow.ClampStart(req.value, st.visibleKeys)
  {
    match SongSchedule.FollowRequest(notes, elapsed, st.startKey, st.visibleKeys)
    case None => st
    case Some(req) => SetStartKey(st, req)
  }

  /** `songProgress` after a frame; a song of total length 0 leaves it unchanged. */
  function Progress(st: StoreState, elapsed: int, total: int): (r: StoreState)
    ensures r == st.(songProgress := r.songProgress)
    ensures total != 0 ==> r.songProgress * (total as real) == elapsed as real
  {
    if total == 0 then st else st.(songProgress := (elapsed as real) / (total as real))
  }

  /**
   * One call of the frame closure `update` on a non-empty song, with the
   * cursor at `from`: progress, the trigger loop, auto-scroll, and the stop
   * once the song is over.
   */
  function Frame(st: StoreState, notes: seq<SongSchedule.SongNote>, from: nat, elapsed: int): StoreState
    requires 0 < |notes| && from <= |notes|
  {
    var total := SongSchedule.TotalTime(notes);
    var s1 := Progress(st, elapsed, total);
    var s2 := PressRun(s1, notes, from, SongSchedule.TriggerEnd(notes, from, elapsed));
    var s3 := Follow(s2, notes, elapsed);
    if elapsed < total then s3 else StopSong(s3)
  }

  /** The store actions a user, a component or a callback can perform. */
  datatype Action =
    | SetStartKeyAction(key: int)
    | SetVisibleKeysAction(count: int)
    | PressKeyAction(key: int, vel: real)
    | ReleaseKeyAction(key: int)
    | PlaySongAction(song: SongSchedule.Song)
    | StopSongAction
    | InitAudioStartAction
    | SamplesLoadedAction
    | SamplesFailedAction
    | SetSuggestedKeysAction(keys: seq<int>)
    | FrameAction(notes: seq<SongSchedule.SongNote>, from: nat, elapsed: int)

  function Apply(st: StoreState, a: Action): StoreState
  {
    match a
    case SetStartKeyAction(key) => SetStartKey(st, key)
    case SetVisibleKeysAction(count) => SetVisibleKeys(st, count)
    case PressKeyAction(key, vel) => PressKey(st, key, vel)
    case ReleaseKeyAction(key) => ReleaseKey(st, key)
    case PlaySongAction(song) => PlaySong(st, song)
    case StopSongAction => StopSong(st)
    case InitAudioStartAction => InitAudioStart(st)
    case SamplesLoadedAction => SamplesLoaded(st)
    case SamplesFailedAction => SamplesFailed(st)
    case SetSuggestedKeysAction(keys) => SetSuggestedKeys(st, keys)
    case FrameAction(notes, from, elapsed) =>
      if 0 < |notes| && from <= |notes| then Frame(st, notes, from, elapsed) else st
  }

  function ApplyAll(st: StoreState, actions: seq<Action>): StoreState
    decreases |actions|
  {
    if |actions| == 0 then st else ApplyAll(Apply(st, actions[0]), actions[1..])
  }

  // ---------------------------------------------------------------------------
  // Properties

  /** `setStartKey` is idempotent. */
  lemma SetStartKeyIdempotent(st: StoreState, key: int)
    requires 1 <= st.visibleKeys <= KeyWindow.MaxVisible
    ensures SetStartKey(SetStartKey(st, key), key) == SetStartKey(st, key)
  {
  }

  /** `setVisibleKeys` is idempotent. */
  lemma SetVisibleKeysIdempotent(st: StoreState, count: int)
    ensures SetVisibleKeys(SetVisibleKeys(st, count), count) == SetVisibleKeys(st, count)
  {
  }

  /** Pressing a key that was not down and releasing it restores the active set. */
  lemma PressThenRelease(st: StoreState, key: int, vel: real)
    requires Ready(st) && key !in st.activeKeys
    ensures ReleaseKey(PressKey(st, key, vel), key).activeKeys == st.activeKeys
  {
  }

  /** Re-entering `initAudio` on a loaded piano refuses every key until the samples load again. */
  lemma InitAudioAgainBlocksPress(st: StoreState, key: int, vel: real)
    requires Ready(st)
    ensures PressKey(InitAudioStart(st), key, vel) == InitAudioStart(st)
    ensures ReleaseKey(InitAudioStart(st), key) == InitAudioStart(st)
  {
  }

  lemma PressKeyValid(st: StoreState, key: int, vel: real)
    requires Valid(st)
    ensures Valid(PressKey(st, key, vel))
    ensures key in PressKey(st, key, vel).activeKeys - st.activeKeys ==>
      KeyWindow.InWindow(key, st.startKey, st.visibleKeys)
  {
  }

  /**
   * Held keys are not kept inside the window: moving the window releases
   * nothing, so a key pressed at start 60 is still active at start 0.
   */
  lemma HeldKeyLeavesWindow(st: StoreState)
    requires Valid(st) && Ready(st) && st.startKey == 60 && st.visibleKeys == 13 && st.activeKeys == {}
    ensures var r := SetStartKey(PressKey(st, 60, DefaultVelocity), 0);
      Valid(r) && 60 in r.activeKeys && !KeyWindow.InWindow(60, r.startKey, r.visibleKeys)
  {
  }

  /**
   * The trigger loop leaves everything but the active set and the velocity
   * map alone, and adds exactly the accepted keys of the run.
   */
  lemma {:induction false} PressRunEffect(st: StoreState, notes: seq<SongSchedule.SongNote>, from: nat, to: nat)
    requires from <= to <= |notes|
    ensures var r := PressRun(st, notes, from, to);
      r == st.(activeKeys := r.activeKeys, velocity := r.velocity)
      && r.activeKeys == st.activeKeys + (if Ready(st) then SongSchedule.Accepted(notes, from, to, st.startKey, st.visibleKeys) else {})
  {
    if to > from {
      PressRunEffect(st, notes, from, to - 1);
    }
  }

  lemma {:induction false} PressRunValid(st: StoreState, notes: seq<SongSchedule.SongNote>, from: nat, to: nat)
    requires from <= to <= |notes| && Valid(st)
    ensures Valid(PressRun(st, notes, from, to))
  {
    if to > from {
      PressRunValid(st, notes, from, to - 1);
      PressKeyValid(PressRun(st, notes, from, to - 1), notes[to - 1].midi, DefaultVelocity);
    }
  }

  lemma FrameValid(st: StoreState, notes: seq<SongSchedule.SongNote>, from: nat, elapsed: int)
    requires 0 < |notes| && from <= |notes| && Valid(st)
    ensures Valid(Frame(st, notes, from, elapsed))
  {
    var total := SongSchedule.TotalTime(notes);
    var s1 := Progress(st, elapsed, total);
    PressRunValid(s1, notes, from, SongSchedule.TriggerEnd(notes, from, elapsed));
  }

  /** Every action keeps the store valid. */
  lemma ApplyValid(st: StoreState, a: Action)
    requires Valid(st)
    ensures Valid(Apply(st, a))
  {
    match a
    case FrameAction(notes, from, elapsed) =>
      if 0 < |notes| && from <= |notes| {
        FrameValid(st, notes, from, elapsed);
      }
    case _ =>
  }

  /** Any sequence of actions from the initial store keeps the window on the piano and every active key a piano key. */
  lemma {:induction false} ApplyAllValid(st: StoreState, actions: seq<Action>)
    requires Valid(st)
    ensures Valid(ApplyAll(st, actions))
    decreases |actions|
  {
    if |actions| > 0 {
      ApplyValid(st, actions[0]);
      ApplyAllValid(Apply(st, actions[0]), actions[1..]);
    }
  }

  lemma InitialReachesOnlyValid(actions: seq<Action>)
    ensures Valid(ApplyAll(Initial(), actions))
  {
    ApplyAllValid(Initial(), actions);
  }

  /** The last frame of a playing song ends the demo with no key down. */
  lemma FinalFrameStops(st: StoreState, notes: seq<SongSchedule.SongNote>, from: nat, elapsed: int)
    requires 0 < |notes| && from <= |notes| && st.isPlayingDemo
    requires elapsed >= SongSchedule.TotalTime(notes)
    ensures var r := Frame(st, notes, from, elapsed);
      !r.isPlayingDemo && r.activeKeys == {} && r.currentSong == None && r.songProgress == 0.0
  {
    var total := SongSchedule.TotalTime(notes);
    var s1 := Progress(st, elapsed, total);
    PressRunEffect(s1, notes, from, SongSchedule.TriggerEnd(notes, from, elapsed));
  }

  /**
   * A frame before the end keeps the demo running and presses every note
   * that has started since the cursor and lies in the window.
   */
  lemma FramePresses(st: StoreState, notes: seq<SongSchedule.SongNote>, from: nat, elapsed: int)
    requires 0 < |notes| && from <= |notes| && Ready(st)
    requires elapsed < SongSchedule.TotalTime(notes)
    ensures var r := Frame(st, notes, from, elapsed);
      r.isPlayingDemo == st.isPlayingDemo
      && r.activeKeys == st.activeKeys
           + SongSchedule.Accepted(notes, from, SongSchedule.TriggerEnd(notes, from, elapsed), st.startKey, st.visibleKeys)
  {
    var total := SongSchedule.TotalTime(notes);
    var s1 := Progress(st, elapsed, total);
    PressRunEffect(s1, notes, from, SongSchedule.TriggerEnd(notes, from, elapsed));
  }

  /**
   * A frame moves the window only by auto-scroll: the width stays, and the
   * start becomes `setStartKey`'s clamp of the follow request, if there is one.
   */
  lemma FrameScrolls(st: StoreState, notes: seq<SongSchedule.SongNote>, from: nat, elapsed: int)
    requires 0 < |notes| && from <= |notes|
    ensures var r := Frame(st, notes, from, elapsed);
      var req := SongSchedule.FollowRequest(notes, elapsed, st.startKey, st.visibleKeys);
      r.visibleKeys == st.visibleKeys
      && r.startKey == (if req.None? then st.startKey else KeyWindow.ClampStart(req.value, st.visibleKeys))
  {
    var s1 := Progress(st, elapsed, SongSchedule.TotalTime(notes));
    PressRunEffect(s1, notes, from, SongSchedule.TriggerEnd(notes, from, elapsed));
  }

  /** After a frame on a valid store, the centre of the sounding notes is on screen. */
  lemma FrameShowsCenter(st: StoreState, notes: seq<SongSchedule.SongNote>, from: nat, elapsed: int)
    requires 0 < |notes| && from <= |notes| && Valid(st)
    requires forall i | 0 <= i < |notes| :: 0 <= notes[i].midi <= KeyWindow.LastKey
    requires |SongSchedule.Sounding(notes, elapsed)| > 0
    ensures var cur := SongSchedule.Sounding(notes, elapsed);
      var r := Frame(st, notes, from, elapsed);
      KeyWindow.InWindow(SongSchedule.Middle(SongSchedule.MinMidi(cur), SongSchedule.MaxMidi(cur)), r.startKey, r.visibleKeys)
  {
    FrameScrolls(st, notes, from, elapsed);
    SongSchedule.SoundingCenterBounds(notes, elapsed);
    var cur := SongSchedule.Sounding(notes, elapsed);
    SongSchedule.FollowShowsCenter(SongSchedule.Middle(SongSchedule.MinMidi(cur), SongSchedule.MaxMidi(cur)), st.visibleKeys);
  }

  /**
   * With five or more keys and a request the clamp keeps, a second frame at
   * the same time does not scroll again.
   */
  lemma FrameSettles(st: StoreState, notes: seq<SongSchedule.SongNote>, from: nat, elapsed: int)
    requires 0 < |notes| && from <= |notes|
    requires 5 <= st.visibleKeys <= KeyWindow.MaxVisible
    requires var req := SongSchedule.FollowRequest(notes, elapsed, st.startKey, st.visibleKeys);
      req.Some? && 0 <= req.value <= KeyWindow.MaxStart(st.visibleKeys)
    ensures var r := Frame(st, notes, from, elapsed);
      SongSchedule.FollowRequest(notes, elapsed, r.startKey, r.visibleKeys).None?
  {
    FrameScrolls(st, notes, from, elapsed);
    var cur := SongSchedule.Sounding(notes, elapsed);
    SongSchedule.FollowSettles(SongSchedule.Middle(SongSchedule.MinMidi(cur), SongSchedule.MaxMidi(cur)), st.visibleKeys);
  }

  /**
   * `stopSong` does not stop the frames: a frame that runs after it still
   * presses the notes it reaches, with the demo flag off.
   */
  lemma FrameAfterStopStillPresses(st: StoreState, notes: seq<SongSchedule.SongNote>, from: nat, elapsed: int)
    requires 0 < |notes| && from <= |notes| && Ready(st)
    requires elapsed < SongSchedule.TotalTime(notes)
    ensures var r := Frame(StopSong(st), notes, from, elapsed);
      !r.isPlayingDemo
      && SongSchedule.Accepted(notes, from, SongSchedule.TriggerEnd(notes, from, elapsed), st.startKey, st.visibleKeys) <= r.activeKeys
  {
    FramePresses(StopSong(st), notes, from, elapsed);
  }
}
