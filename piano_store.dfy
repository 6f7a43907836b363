/**
 * The store as a mutable object, and the playback started by `playSong`:
 * an object holding the frame closure's cursor `noteIndex` and the release
 * timers it has scheduled. Every method is proved against the transition
 * functions of `StoreModel`.
 */
module PianoStore {
  import opened Wrappers
  import KeyWindow
  import SongSchedule
  import StoreModel

  class Store {
    var startKey: int
    var visibleKeys: int
    var activeKeys: set<int>
    var velocity: map<int, real>
    var pianoReady: bool
    var isLoading: bool
    var isPlayingDemo: bool
    var suggestedKeys: seq<int>
    var currentSong: Option<SongSchedule.Song>
    var songProgress: real

    /** The store's fields as one value. */
    function State(): StoreModel.StoreState
      reads this
    {
      StoreModel.StoreState(startKey, visibleKeys, activeKeys, velocity, pianoReady, isLoading,
                            isPlayingDemo, suggestedKeys, currentSong, songProgress)
    }

    constructor ()
      ensures State() == StoreModel.Initial()
    {
      startKey, visibleKeys, activeKeys, velocity := 60, 13, {}, map[];
      pianoReady, isLoading, isPlayingDemo := false, false, false;
      suggestedKeys, currentSong, songProgress := [], None, 0.0;
    }

    method SetStartKey(key: int)
      modifies this
      ensures State() == StoreModel.SetStartKey(old(State()), key)
    {
      var maxStart := KeyWindow.LastKey - visibleKeys + 1;
      startKey := Max(0, Min(key, maxStart));
    }

    method SetVisibleKeys(count: int)
      modifies this
      ensures State() == StoreModel.SetVisibleKeys(old(State()), count)
    {
      var newCount := Max(1, Min(KeyWindow.MaxVisible, count));
      var maxStart := KeyWindow.LastKey - newCount + 1;
      visibleKeys, startKey := newCount, Min(startKey, maxStart);
    }

    method PressKey(key: int, vel: real)
      modifies this
      ensures State() == StoreModel.PressKey(old(State()), key, vel)
    {
      if !pianoReady || isLoading {
        return;
      }
      if key < startKey || key >= startKey + visibleKeys {
        return;
      }
      activeKeys := activeKeys + {key};
      velocity := velocity[key := vel];
    }

    method ReleaseKey(key: int)
      modifies this
      ensures State() == StoreModel.ReleaseKey(old(State()), key)
    {
      if !pianoReady || isLoading {
        return;
      }
      activeKeys := activeKeys - {key};
    }

    /** `initAudio` before its first `await`. */
    method InitAudioStart()
      modifies this
      ensures State() == StoreModel.InitAudioStart(old(State()))
    {
      isLoading := true;
    }

    /** The sampler's `onload` callback. */
    method SamplesLoaded()
      modifies this
      ensures State() == StoreModel.SamplesLoaded(old(State()))
    {
      isLoading, pianoReady, suggestedKeys := false, true, StoreModel.LoadedSuggestion;
    }

    /** The sampler's `onerror` callback and the `catch` branch of `initAudio`. */
    method SamplesFailed()
      modifies this
      ensures State() == StoreModel.SamplesFailed(old(State()))
    {
      isLoading, pianoReady := false, false;
    }

    method SetSuggestedKeys(keys: seq<int>)
      modifies this
      ensures State() == StoreModel.SetSuggestedKeys(old(State()), keys)
    {
      suggestedKeys := keys;
    }

    method StopSong()
      modifies this
      ensures State() == StoreModel.StopSong(old(State()))
    {
      if !isPlayingDemo {
        return;
      }
      isPlayingDemo, activeKeys, songProgress, currentSong := false, {}, 0.0, None;
    }

    /**
     * `playSong(song)`: when the piano is ready and no demo plays, sets up the
     * store and returns the playback whose `Step` is the frame closure;
     * otherwise changes nothing and returns null.
     */
    method PlaySong(song: SongSchedule.Song) returns (p: Playback?)
      modifies this
      ensures State() == StoreModel.PlaySong(old(State()), song)
      ensures (p != null) == (StoreModel.Ready(old(State())) && !old(isPlayingDemo))
      ensures p != null ==> fresh(p) && p.store == this && p.song == song && p.Valid() && p.noteIndex == 0 && p.pending == []
    {
      if !pianoReady || isLoading || isPlayingDemo {
        return null;
      }
      isPlayingDemo, currentSong, songProgress, activeKeys := true, Some(song), 0.0, {};
      var visible := Min(Max(song.range.max - song.range.min + 1, 7), KeyWindow.MaxVisible);
      SetVisibleKeys(visible);
      var centerKey := (song.range.min + song.range.max) / 2;
      SetStartKey(centerKey - visible / 2);
      p := new Playback(this, song);
    }
  }

  /** The frame closure of one `playSong` call, with its cursor and its release timers. */
  class Playback {
    const store: Store
    const song: SongSchedule.Song
    var noteIndex: nat
    /** Releases scheduled with `setTimeout` and not yet fired. */
    var pending: seq<SongSchedule.ReleaseTimer>
    /** Every note index the trigger loop has passed, in the order it passed them. */
    ghost var passed: seq<nat>

    /** The cursor is in the list and has passed each index below it exactly once, in order. */
    ghost predicate Valid()
      reads this
    {
      noteIndex <= |song.notes| && passed == seq(noteIndex, i => i)
    }

    constructor (s: Store, sg: SongSchedule.Song)
      ensures store == s && song == sg && noteIndex == 0 && pending == [] && Valid()
    {
      store, song, noteIndex, pending, passed := s, sg, 0, [], [];
    }

    /**
     * One call of `update` at time `elapsed`; `again` tells whether the next
     * frame is requested. An empty song makes the closure throw at its second
     * statement, the one that reads the last note, before it changes anything.
     */
    method Step(elapsed: int) returns (again: bool)
      requires Valid()
      modifies this, store
      ensures Valid()
      ensures |song.notes| == 0 ==>
        !again && store.State() == old(store.State()) && noteIndex == old(noteIndex) && pending == old(pending)
      ensures |song.notes| > 0 ==>
        noteIndex == SongSchedule.TriggerEnd(song.notes, old(noteIndex), elapsed)
        && store.State() == StoreModel.Frame(old(store.State()), song.notes, old(noteIndex), elapsed)
        && pending == old(pending) + SongSchedule.ReleaseTimers(song.notes, old(noteIndex), noteIndex, elapsed)
        && again == (elapsed < SongSchedule.TotalTime(song.notes))
    {
      var notes := song.notes;
      if |notes| == 0 {
        return false;
      }
      var totalTime := notes[|notes| - 1].time + notes[|notes| - 1].duration;
      if totalTime != 0 {
        store.songProgress := (elapsed as real) / (totalTime as real);
      }
      TriggerNotes(elapsed);
      var request := SongSchedule.FollowRequest(notes, elapsed, store.startKey, store.visibleKeys);
      if request.Some? {
        store.SetStartKey(request.value);
      }
      if elapsed < totalTime {
        again := true;
      } else {
        store.StopSong();
        again := false;
      }
    }

    /** The trigger loop of `update`: presses, in list order, every note from the cursor on that has started. */
    method TriggerNotes(elapsed: int)
      requires Valid()
      modifies this, store
      ensures Valid()
      ensures noteIndex == SongSchedule.TriggerEnd(song.notes, old(noteIndex), elapsed)
      ensures store.State() == StoreModel.PressRun(old(store.State()), song.notes, old(noteIndex), noteIndex)
      ensures pending == old(pending) + SongSchedule.ReleaseTimers(song.notes, old(noteIndex), noteIndex, elapsed)
    {
      var notes := song.notes;
      ghost var from := noteIndex;
      while noteIndex < |notes| && notes[noteIndex].time <= elapsed
        invariant from <= noteIndex <= |notes|
        invariant forall j | from <= j < noteIndex :: notes[j].time <= elapsed
        invariant Valid()
        invariant store.State() == StoreModel.PressRun(old(store.State()), notes, from, noteIndex)
        invariant pending == old(pending) + SongSchedule.ReleaseTimers(notes, from, noteIndex, elapsed)
        decreases |notes| - noteIndex
      {
        var note := notes[noteIndex];
        store.PressKey(note.midi, StoreModel.DefaultVelocity);
        pending := pending + [SongSchedule.ReleaseTimer(note.midi, elapsed + note.duration)];
        assert seq(noteIndex + 1, i => i) == passed + [noteIndex];
        passed := passed + [noteIndex];
        noteIndex := noteIndex + 1;
      }
      SongSchedule.TriggerEndUnique(notes, from, elapsed, noteIndex);
    }

    /** The callback of the release timer at position `i` of `pending`. */
    method FireTimer(i: nat)
      requires i < |pending|
      modifies this, store
      ensures store.State() == StoreModel.ReleaseKey(old(store.State()), old(pending[i].key))
      ensures pending == old(pending[..i] + pending[i + 1..])
      ensures noteIndex == old(noteIndex) && passed == old(passed)
    {
      var key := pending[i].key;
      pending := pending[..i] + pending[i + 1..];
      store.ReleaseKey(key);
    }
  }
}
