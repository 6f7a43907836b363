# Beeth-It piano core in Dafny

This project models the logic of the Beeth-It virtual piano. It covers:
- the piano store: the visible window of keys, pressed keys, audio readiness, suggested keys and demo playback;
- the Für Elise song data;
- the on-screen keyboard and the computer-keyboard hook;
- the window buttons and the settings panel;
- the finger overlay;
- the scale picker.

Key indices follow the store's own numbering: 0 to 87, with 60 as C4. `keyToNote` spells a key as its pitch name followed by `floor(key / 12) - 1`. The finger overlay and the scale picker use a different numbering, where 39 is C4. The model keeps each numbering exactly as the source writes it.

Module layout:

- `Wrappers` holds `Option`, `Min` and `Max`.
- `JsNumbers` holds the JavaScript number semantics the code relies on:
  - `%`, which truncates toward zero;
  - the decimal text of an integer;
  - `parseInt`, where `None` stands for `NaN`.
- `JsStrings` holds `toLowerCase` on ASCII.
- `PianoKeys` holds black keys, runs of indices and white-key counts.
- `NoteNames` holds `keyToNote` and `noteToKey`.
- `KeyWindow` holds the store's clamps of start key and key count.
- `SongSchedule` holds the song records and the pure rules of the playback frame:
  - which notes fire;
  - which notes sound;
  - the follow request;
  - the total time;
  - the `playSong` window.
- `StoreModel` is the store's state as a value. It has one transition function per store action, plus a frame of playback.
- `PianoStore` holds class `Store`, whose fields are the store's fields. Each of its methods is proved to move its state exactly as the matching `StoreModel` function does. `PianoStore` also holds class `Playback`: the `update` closure of `playSong`, with its cursor `noteIndex` and its list `pending` of scheduled releases.
- `FurElise` holds the 132 notes of the demo and facts about them.
- The component modules are `PianoKeyboard`, `KeyboardInput`, `PianoControls`, `OptionsTab`, `FingerAnimations` and `KeySuggestions`.

Time is an integer number of milliseconds, passed in by the caller: `Playback.Step(elapsed)` is one animation frame. A `setTimeout` release is an entry `ReleaseTimer(key, dueAt)` of `pending`, and `Playback.FireTimer(i)` runs the callback of entry `i`.

## Model

| member | source | states |
|---|---|---|
| KeyWindow.ClampStart | src/store/piano-store.ts:50-54 | the start stays within 0..88-visibleKeys; it is the requested key when that fits, 0 below the range, and the last fitting start above it |
| KeyWindow.ClampVisible | src/store/piano-store.ts:57 | the count lies in 1..18; it is unchanged when it already lies there, and it is 1 or 18 at the two ends |
| KeyWindow.ResizedStart | src/store/piano-store.ts:56-61 | after a resize the start is the old start, unless the old start no longer fits; then it is the last fitting start |
| KeyWindow.ClampStartValid | src/store/piano-store.ts:50-54 | for a valid count, the clamped start always gives a valid window |
| KeyWindow.ResizedStartValid | src/store/piano-store.ts:56-61 | a non-negative start gives a valid window after any resize |
| KeyWindow.ClampStartIdempotent | src/store/piano-store.ts:50-54 | clamping twice is clamping once |
| KeyWindow.ResizedStartIdempotent | src/store/piano-store.ts:56-61 | resizing twice to one count is resizing once |
| KeyWindow.ClampStartShowsKey | src/store/piano-store.ts:50-54 | asking for a start at any key of the piano puts that key on screen, whatever the valid count |
| StoreModel.Initial | src/store/piano-store.ts:38-48 | the initial store is valid, not ready, and has no key down |
| StoreModel.SetStartKey | src/store/piano-store.ts:50-54 | only the start key changes, to the request clamped into 0..88-visibleKeys (below 0 gives 0, past the end gives the last fitting start); the window is valid for a valid count; a request that fits is kept exactly |
| StoreModel.SetVisibleKeys | src/store/piano-store.ts:56-61 | only the count and the start change; the count lies in 1..18 and the start is pulled back to fit |
| StoreModel.PressAccepted | src/store/piano-store.ts:63-70 | pressKey's guards: a piano is loaded, no load is running, and the key lies in the window; PressKey leaves the state unchanged exactly when this fails |
| StoreModel.PressKey | src/store/piano-store.ts:63-84 | without samples, while loading, or outside the window, nothing changes; otherwise the key is added to the active keys and its velocity is recorded, and nothing else changes |
| StoreModel.ReleaseKey | src/store/piano-store.ts:86-105 | when ready, the key is removed from the active keys and the velocities are kept; otherwise nothing changes |
| StoreModel.PlaySong | src/store/piano-store.ts:177-188 | refused when not ready or already playing; otherwise the demo is on, the song is current, progress is 0, no key is down, and the window is the song's window |
| StoreModel.StopSong | src/store/piano-store.ts:232-235 | does nothing unless a demo is playing; otherwise it clears the demo, the song, the progress and the active keys |
| StoreModel.InitAudioStart | src/store/piano-store.ts:107-109 | loading is set, so the piano is not ready |
| StoreModel.SamplesLoaded | src/store/piano-store.ts:155-162 | the piano becomes ready, loading ends, and the suggestion becomes C major from 60 |
| StoreModel.SamplesFailed | src/store/piano-store.ts:163-166 | loading ends with no piano |
| StoreModel.SetSuggestedKeys | src/store/piano-store.ts:237-239 | the suggestion is replaced by the given keys, and nothing else changes |
| StoreModel.Follow | src/store/piano-store.ts:209-221 | auto-scroll changes only the start key: when the follow rule asks for a start, the new start is setStartKey's clamp of centre − ⌊visible/2⌋, and otherwise the state is unchanged |
| StoreModel.Progress | src/store/piano-store.ts:196 | only the progress changes, and progress · totalTime = elapsed |
| StoreModel.SetStartKeyIdempotent | src/store/piano-store.ts:50-54 | setting the same start twice is setting it once |
| StoreModel.SetVisibleKeysIdempotent | src/store/piano-store.ts:56-61 | setting the same count twice is setting it once |
| StoreModel.PressThenRelease | src/store/piano-store.ts:63-105 | on a ready piano, pressing and then releasing a key that was up restores the active keys |
| StoreModel.InitAudioAgainBlocksPress | src/store/piano-store.ts:63-109 | once initAudio starts again, presses and releases are ignored until the samples load |
| StoreModel.PressKeyValid | src/store/piano-store.ts:63-84 | a press keeps the store valid, so active keys stay piano keys 0..87, and a key it adds was inside the window when pressed |
| StoreModel.HeldKeyLeavesWindow | src/store/piano-store.ts:50-54 | moving the window releases nothing: a key pressed at start 60 is still active, and outside the window, after setStartKey(0) |
| StoreModel.PressRun | src/store/piano-store.ts:199-206 | the trigger loop's pressKey calls, one per fired note in list order; PressRunEffect states that it adds exactly the accepted keys |
| StoreModel.PressRunEffect | src/store/piano-store.ts:199-206 | the trigger loop adds exactly the notes it accepts to the active keys, and changes no other field |
| StoreModel.PressRunValid | src/store/piano-store.ts:199-206 | the trigger loop keeps the store valid |
| StoreModel.Frame | src/store/piano-store.ts:193-228 | one run of update: the progress, the trigger loop, auto-scroll, then stopSong once elapsed reaches totalTime; its effect is stated by FrameValid, FrameScrolls, FramePresses and FinalFrameStops |
| StoreModel.FrameValid | src/store/piano-store.ts:193-228 | one animation frame keeps the store valid |
| StoreModel.ApplyValid | src/store/piano-store.ts:50-239 | every store action keeps the store valid: a valid window, and active keys that are piano keys 0..87 |
| StoreModel.Apply | src/store/piano-store.ts:50-239 | one store action of any kind: a setter, a press or release, playSong, stopSong, a step of initAudio, or a frame; ApplyValid states that each keeps the store valid |
| StoreModel.ApplyAll | src/store/piano-store.ts:50-239 | a sequence of store actions in order; ApplyAllValid and InitialReachesOnlyValid state that every reachable state is valid |
| StoreModel.ApplyAllValid | src/store/piano-store.ts:50-239 | any sequence of actions keeps the store valid |
| StoreModel.InitialReachesOnlyValid | src/store/piano-store.ts:38-239 | every state reachable from the initial store is valid |
| StoreModel.FinalFrameStops | src/store/piano-store.ts:223-227 | a frame at or after the total time ends the demo and leaves no key down |
| StoreModel.FrameScrolls | src/store/piano-store.ts:209-221 | a frame keeps the width, and its start is the clamp of the follow request when there is one, or the old start otherwise |
| StoreModel.FrameShowsCenter | src/store/piano-store.ts:209-221 | on a valid store with notes on the piano, the centre of the sounding notes is inside the window after the frame, whether or not it scrolled |
| StoreModel.FrameSettles | src/store/piano-store.ts:209-221 | with 5 or more keys and a request the clamp keeps, the state after the frame makes the follow rule ask for nothing on the same sounding notes |
| StoreModel.FramePresses | src/store/piano-store.ts:193-221 | a frame before the end presses exactly the accepted notes due by then, and keeps the demo on |
| StoreModel.FrameAfterStopStillPresses | src/store/piano-store.ts:193-235 | a frame that runs after stopSong still presses its due notes, because update never checks isPlayingDemo |
| PianoStore.Store.constructor | src/store/piano-store.ts:38-48 | the new store is in the initial state |
| PianoStore.Store.SetStartKey | src/store/piano-store.ts:50-54 | the new state is StoreModel.SetStartKey of the old one |
| PianoStore.Store.SetVisibleKeys | src/store/piano-store.ts:56-61 | the new state is StoreModel.SetVisibleKeys of the old one |
| PianoStore.Store.PressKey | src/store/piano-store.ts:63-84 | the new state is StoreModel.PressKey of the old one |
| PianoStore.Store.ReleaseKey | src/store/piano-store.ts:86-105 | the new state is StoreModel.ReleaseKey of the old one |
| PianoStore.Store.InitAudioStart | src/store/piano-store.ts:107-109 | the new state is StoreModel.InitAudioStart of the old one |
| PianoStore.Store.SamplesLoaded | src/store/piano-store.ts:155-162 | the new state is StoreModel.SamplesLoaded of the old one |
| PianoStore.Store.SamplesFailed | src/store/piano-store.ts:163-174 | the new state is StoreModel.SamplesFailed of the old one |
| PianoStore.Store.SetSuggestedKeys | src/store/piano-store.ts:237-239 | the new state is StoreModel.SetSuggestedKeys of the old one |
| PianoStore.Store.StopSong | src/store/piano-store.ts:232-235 | the new state is StoreModel.StopSong of the old one |
| PianoStore.Store.PlaySong | src/store/piano-store.ts:177-191 | the new state is StoreModel.PlaySong; a playback is returned exactly when the guard passes, with its cursor at 0 and nothing scheduled |
| PianoStore.Playback.constructor | src/store/piano-store.ts:190-191 | the playback starts with its cursor at 0 and nothing pending |
| PianoStore.Playback.Step | src/store/piano-store.ts:193-228 | an empty song changes nothing and stops the loop. Otherwise the cursor moves to the first note due later, the store takes one StoreModel.Frame, one release is scheduled per fired note, and the loop continues exactly while elapsed < totalTime |
| PianoStore.Playback.TriggerNotes | src/store/piano-store.ts:199-206 | the loop stops at the first note not yet due; the store is StoreModel.PressRun over the fired notes, which get one release each |
| PianoStore.Playback.FireTimer | src/store/piano-store.ts:202-204 | any pending release runs releaseKey on its key and leaves the cursor alone |
| SongSchedule.TriggerEnd | src/store/piano-store.ts:199 | the fired notes are the longest run from the cursor whose start times have all come; the next note, if any, is not yet due |
| SongSchedule.TriggerEndUnique | src/store/piano-store.ts:199 | that stopping point is the only index with those properties |
| SongSchedule.TriggerEndMonotone | src/store/piano-store.ts:199 | a later frame never fires fewer notes |
| SongSchedule.TriggerEndCompose | src/store/piano-store.ts:199-206 | two frames fire the same notes as one frame at the later time |
| SongSchedule.Accepted | src/store/piano-store.ts:199-201 | the keys the loop actually presses are the fired notes whose key is in the window |
| SongSchedule.ReleaseTimers | src/store/piano-store.ts:202-204 | one release per fired note, in order, due at elapsed plus that note's duration |
| SongSchedule.Sounding | src/store/piano-store.ts:209-211 | a note is kept exactly when it has started and has not yet ended, counting both ends |
| SongSchedule.MinMidi | src/store/piano-store.ts:213 | the lowest key among the notes, and it is attained |
| SongSchedule.MaxMidi | src/store/piano-store.ts:214 | the highest key among the notes, and it is attained |
| SongSchedule.Middle | src/store/piano-store.ts:215 | the floor of the midpoint, between the two keys |
| SongSchedule.FollowRequest | src/store/piano-store.ts:209-220 | asks for nothing exactly when nothing sounds or the center lies in [start+2, start+visible-3]; otherwise it asks for center minus half the window |
| SongSchedule.FollowShowsCenter | src/store/piano-store.ts:218-219 | after the store clamps the follow request, the center is on screen |
| SongSchedule.FollowSettles | src/store/piano-store.ts:218-219 | with 5 keys or more, once scrolled to an unclamped start, the same center asks for nothing more |
| SongSchedule.SoundingCenterBounds | src/store/piano-store.ts:213-215 | the center of the sounding notes lies between their lowest and highest key |
| SongSchedule.TotalTime | src/store/piano-store.ts:195 | the last listed note's start time plus its duration |
| SongSchedule.PlayVisible | src/store/piano-store.ts:184-185 | the demo window has 7 to 18 keys, and exactly the range's size when that lies between them |
| SongSchedule.PlayWindowShowsRange | src/store/piano-store.ts:184-188 | a range of at most 7 keys, or an odd range of at most 18, is fully on screen when the demo starts |
| SongSchedule.PlayWindowMissesTopOfEvenRange | src/store/piano-store.ts:184-188 | an even range of 8 to 18 keys starts one key low, so its top key is off screen |
| PianoKeys.IsBlackKey | src/components/piano-keyboard.tsx:103 | a key is black when its JavaScript remainder mod 12 is 1, 3, 6, 8 or 10 |
| PianoKeys.Span | src/components/piano-keyboard.tsx:101-102 | Array.from({ length: n }, (_, i) => lo + i): n entries, entry i being lo + i |
| PianoKeys.WhiteKeys | src/components/finger-animations.tsx:325-327 | the filter keeps exactly the white keys of the list, never more entries than the list |
| PianoKeys.WhiteCountStep | src/components/finger-animations.tsx:325-327 | one more key adds one to the white count exactly when that key is white |
| PianoKeys.WhiteCountMonotone | src/components/finger-animations.tsx:325-327 | a longer run never has fewer white keys, and no more extra white keys than extra keys |
| NoteNames.PitchNamesShape | src/store/piano-store.ts:243 | twelve distinct names of one or two characters |
| NoteNames.KeyToNote | src/store/piano-store.ts:242-247 | keyToNote: the pitch name at key % 12 followed by floor(key / 12) − 1; KeyToNoteOneDigit and NoteToKeyInvertsKeyToNote state what the text means |
| NoteNames.IndexOf | src/store/piano-store.ts:253 | -1 exactly when the name is absent; otherwise the first position holding it |
| NoteNames.NoteToKey | src/store/piano-store.ts:249-256 | -1 exactly when the text minus its last character is not a pitch name |
| NoteNames.KeyToNoteOneDigit | src/store/piano-store.ts:242-247 | keys 12..131 are spelled as a pitch name followed by one octave digit |
| NoteNames.NoteToKeyOfNameAndDigit | src/store/piano-store.ts:249-256 | a pitch name followed by digit d gives (d+1)·12 + its index |
| NoteNames.NoteToKeyInvertsKeyToNote | src/store/piano-store.ts:242-256 | noteToKey undoes keyToNote for keys 12..131 |
| NoteNames.NoteToKeyLowOctave | src/store/piano-store.ts:242-256 | keys 0..11 are spelled with octave "-1", and noteToKey returns -1 for them (see Findings) |
| NoteNames.OctaveStart | src/store/piano-store.ts:251 | the split point of the corrected parser: the longest leading run of pitch letters and '#' |
| NoteNames.NoteToKeyFullOfNameAndOctave | src/store/piano-store.ts:249-256 | the corrected parser reads a pitch name followed by any octave number |
| NoteNames.NoteToKeyFullInvertsKeyToNote | src/store/piano-store.ts:242-256 | the corrected parser undoes keyToNote for every key 0 and up |
| JsNumbers.ParseIntOfIntToString | src/components/options-tab.tsx:152 | parsing the decimal text of any integer gives that integer back (JavaScript writes this decimal text for integers below 10^21 in magnitude) |
| JsNumbers.ParseIntOfOneChar | src/components/options-tab.tsx:27 | a one-character text parses to its digit, or to NaN |
| JsNumbers.ParseInt | src/components/options-tab.tsx:27 | parseInt: NaN exactly when, after leading whitespace and a sign, the text does not start with a digit; otherwise the value of the leading digits, negated after a minus |
| JsNumbers.IntToString | src/components/options-tab.tsx:152 | the decimal text of an integer, as String(n) and toString() write it below 10^21: non-empty, starting with a digit or a minus sign, with no leading zeros; ParseIntOfIntToString states that parseInt reads it back |
| JsNumbers.Rem | src/store/piano-store.ts:245 | JavaScript's %: for a positive divisor, the Euclidean remainder on non-negative operands, and the negated remainder of the absolute value, in (−b, 0], on negative ones |
| JsStrings.ToLower | src/hooks/use-keyboard-input.ts:36 | toLowerCase on ASCII: the same length, each letter A..Z lowered and every other character kept |
| FurElise.NotesFit | src/store/fur-elise.ts:16-206 | 132 notes, each inside the declared range D2..G5, starting at 0 or later, lasting a positive time, and ending by 38800 ms |
| FurElise.MiddleSection | src/store/fur-elise.ts:93-128 | the middle section's two phrases occupy positions 52..79 |
| FurElise.RangeAttained | src/store/fur-elise.ts:99-108 | both ends of the declared range are played |
| FurElise.TotalTimeIsLength | src/store/fur-elise.ts:199-204 | the total time is 38800 ms, and no note ends later |
| FurElise.NotSortedByTime | src/store/fur-elise.ts:102-123 | the list is not in time order: 18800 ms comes before 16000 ms, and 22000 ms before 19200 ms |
| FurElise.AccompanimentFiresLate | src/store/fur-elise.ts:102-105 | so the accompaniment due at 16000 ms does not fire before 18800 ms |
| FurElise.InitialWindow | src/store/fur-elise.ts:19 | the demo shows 18 keys from 49, and the first note, 76, is outside them |
| FurElise.FirstFramePressesNothing | src/store/fur-elise.ts:19-20 | so the demo's first frame presses no key |
| PianoKeyboard.KeyMapByOffset | src/components/piano-keyboard.tsx:46-60 | the table sends the home-row letter at position r to offset r, for all 13 offsets |
| PianoKeyboard.KeyMapInjective | src/components/piano-keyboard.tsx:46-60 | no two letters share an offset |
| PianoKeyboard.KeyboardShortcut | src/components/piano-keyboard.tsx:265-284 | the label is empty exactly for offsets outside 0..12 |
| PianoKeyboard.ShortcutRoundTrip | src/components/piano-keyboard.tsx:265-284 | the label on each key, lowercased, is the letter that plays it |
| PianoKeyboard.KeyDownTarget | src/components/piano-keyboard.tsx:62-69 | presses only with focus, a mapped letter, no auto-repeat, and a key in 0..87; the key is the start plus the offset |
| PianoKeyboard.KeyUpTarget | src/components/piano-keyboard.tsx:71-78 | releases under the same conditions, auto-repeat aside |
| PianoKeyboard.KeyUpMatchesKeyDown | src/components/piano-keyboard.tsx:62-78 | the key-up of a letter releases the key its key-down pressed |
| PianoKeyboard.HandleKeyDown | src/components/piano-keyboard.tsx:62-69 | the store either is unchanged or takes the press of the target key |
| PianoKeyboard.HandleKeyUp | src/components/piano-keyboard.tsx:71-78 | the store either is unchanged or takes the release of the target key |
| PianoKeyboard.ReleaseEach | src/components/piano-keyboard.tsx:92 | releasing a set of keys, in any order, removes exactly them when ready |
| PianoKeyboard.ReleaseEachStep | src/components/piano-keyboard.tsx:92 | one more release extends the set of released keys by one |
| PianoKeyboard.HandleMouseUp | src/components/piano-keyboard.tsx:90-96 | releasing every active key, in the set's order, leaves no key down when ready |
| PianoKeyboard.MouseLeave | src/components/piano-keyboard.tsx:168-170 | leaving a key that is up changes nothing |
| PianoKeyboard.MouseLeaveIsRelease | src/components/piano-keyboard.tsx:231-233 | leaving a key has the same effect as releasing it |
| PianoKeyboard.HandleMouseLeave | src/components/piano-keyboard.tsx:168-170 | the new store state is MouseLeave of the old one |
| PianoKeyboard.Keys | src/components/piano-keyboard.tsx:99-110 | one entry per visible index from the start, each with its colour, whether it is active and whether it is suggested |
| PianoKeyboard.WhiteKeysBefore | src/components/piano-keyboard.tsx:209-211 | never more than the number of entries |
| PianoKeyboard.WhiteKeysBeforeIsWhiteCount | src/components/piano-keyboard.tsx:209-211 | for the key at offset r, the count is the number of white keys among the r keys to its left |
| KeyboardInput.KeyMapRows | src/hooks/use-keyboard-input.ts:12-28 | the table is exactly the lower row z..comma and the upper row s d g h j, with their offsets |
| KeyboardInput.KeyMapInjective | src/hooks/use-keyboard-input.ts:12-28 | thirteen letters on thirteen distinct offsets 0..12 |
| KeyboardInput.KeyMapCovers | src/hooks/use-keyboard-input.ts:12-28 | every offset 0..12 has a letter |
| KeyboardInput.RowsMatchKeyColours | src/hooks/use-keyboard-input.ts:13-27 | measured from a C, the lower row plays white keys and the upper row black keys |
| KeyboardInput.RowsFromC | src/hooks/use-keyboard-input.ts:13-38 | from a window starting on a C, the lower row presses white keys and the upper row black keys |
| KeyboardInput.KeyDownTarget | src/hooks/use-keyboard-input.ts:30-41 | presses only outside text fields, for a mapped letter without auto-repeat; there is no range check |
| KeyboardInput.KeyUpTarget | src/hooks/use-keyboard-input.ts:43-49 | releases for any mapped letter, even in a text field |
| KeyboardInput.KeyUpReleasesKeyDown | src/hooks/use-keyboard-input.ts:30-49 | the key-up of a letter releases the key its key-down pressed |
| KeyboardInput.OffsetBeyondWindowIgnored | src/hooks/use-keyboard-input.ts:38-39 | a letter whose offset reaches past the window presses nothing, because the store refuses the key |
| KeyboardInput.HandleKeyDown | src/hooks/use-keyboard-input.ts:30-41 | the store either is unchanged or takes the press of the target key |
| KeyboardInput.HandleKeyUp | src/hooks/use-keyboard-input.ts:43-49 | the store either is unchanged or takes the release of the target key |
| PianoControls.IncreaseRequest | src/components/piano-controls.tsx:21-25 | asks for one more key exactly below 18 keys |
| PianoControls.DecreaseRequest | src/components/piano-controls.tsx:27-31 | asks for one key fewer exactly above 1 key |
| PianoControls.SlideLeftRequest | src/components/piano-controls.tsx:33-35 | one key left, never below 0 |
| PianoControls.SlideRightRequest | src/components/piano-controls.tsx:37-40 | one key right, never past the last start that fits |
| PianoControls.SlidesStayInRange | src/components/piano-controls.tsx:33-40 | from a valid window, both slides ask for starts the store keeps as they are |
| PianoControls.LocalKeyToNote | src/components/piano-controls.tsx:42-47 | the component's own keyToNote with its own name table; LocalKeyToNoteAgrees states that it equals the store's |
| PianoControls.LocalKeyToNoteAgrees | src/components/piano-controls.tsx:42-47 | the component's own keyToNote names every key as the store's does |
| PianoControls.ShowDecrease | src/components/piano-controls.tsx:62 | the − button is shown when more than one key is visible |
| PianoControls.ShowIncrease | src/components/piano-controls.tsx:78 | the + button is shown when fewer than 18 keys are visible |
| PianoControls.ShowLeft | src/components/piano-controls.tsx:105 | the left button is shown when the start is above 0 |
| PianoControls.ShowRight | src/components/piano-controls.tsx:121 | the right button is shown when the start is below 88 − visibleKeys |
| PianoControls.ClickDecrease | src/components/piano-controls.tsx:27-31 | a click on −: setVisibleKeys(visible − 1) when visible > 1, otherwise nothing |
| PianoControls.ClickIncrease | src/components/piano-controls.tsx:21-25 | a click on +: setVisibleKeys(visible + 1) when visible < 18, otherwise nothing |
| PianoControls.ClickLeft | src/components/piano-controls.tsx:33-35 | a click on left: setStartKey of SlideLeftRequest |
| PianoControls.ClickRight | src/components/piano-controls.tsx:37-39 | a click on right: setStartKey of SlideRightRequest; ButtonShownIffEffective and ButtonStepsByOne state the four clicks' effects |
| PianoControls.ButtonShownIffEffective | src/components/piano-controls.tsx:62-121 | on a valid store, each button is shown exactly when clicking it changes the window |
| PianoControls.ButtonStepsByOne | src/components/piano-controls.tsx:21-40 | a shown button moves its value by exactly one |
| OptionsTab.ParsedOr | src/components/options-tab.tsx:19-27 | parseInt or the fallback: both NaN and 0 fall back, and any other number is kept |
| OptionsTab.KeysValue | src/components/options-tab.tsx:19 | the count lies in 12..88, and a parsed count in that range is kept |
| OptionsTab.StartValue | src/components/options-tab.tsx:27 | the start lies in 0..88-visibleKeys, and a parsed start in that range is kept |
| OptionsTab.KeysChange | src/components/options-tab.tsx:19-20 | the store after the size control calls setVisibleKeys with KeysValue of its text; KeysChangeRange states the 12..18 result |
| OptionsTab.StartChange | src/components/options-tab.tsx:27-28 | the store after the start control calls setStartKey with StartValue of its text; StartChangeKeepsValue states that the store keeps it |
| OptionsTab.KeysChangeRange | src/components/options-tab.tsx:19-20 | through the store's clamp, the panel can only set 12 to 18 visible keys |
| OptionsTab.StartChangeKeepsValue | src/components/options-tab.tsx:27-28 | on a valid store, the store keeps the panel's start unchanged |
| OptionsTab.KeysButtons | src/components/options-tab.tsx:118-137 | the ± buttons give the neighbour count, clamped, and 13 when that neighbour is 0 |
| OptionsTab.StartButtons | src/components/options-tab.tsx:152-171 | the ± buttons give the neighbour start, clamped, and 60 when that neighbour is 0 |
| OptionsTab.StartZeroFallsBack | src/components/options-tab.tsx:152 | asking for start 0 gives 60, so "-" at start 1 jumps to 60; only a negative text reaches 0 (see Findings) |
| OptionsTab.StartValueCorrected | src/components/options-tab.tsx:27 | the corrected start lies in 0..88-visibleKeys |
| OptionsTab.StartValueCorrectedReachesAll | src/components/options-tab.tsx:27 | with the correction, every start in the valid range, 0 included, is reached by its own text |
| FingerAnimations.VisibleActiveKeys | src/components/finger-animations.tsx:10-12 | exactly the active keys k with startKey ≤ k < startKey+visibleKeys |
| FingerAnimations.VisibleActiveKeysDistinct | src/components/finger-animations.tsx:10-17 | no key gets two fingers |
| FingerAnimations.FingerForKey | src/components/finger-animations.tsx:288-312 | the fixed table for keys 39..51, and otherwise the map at the offset modulo 12 |
| FingerAnimations.VisibleKeyHasFinger | src/components/finger-animations.tsx:17-20 | every key inside the window gets a finger 0..4 |
| FingerAnimations.TableExtendsMap | src/components/finger-animations.tsx:289-310 | the table is the map read from 39, except that C5 (51) gets the index finger instead of the thumb |
| FingerAnimations.TableAgreesFromItsC | src/components/finger-animations.tsx:288-312 | the table gives keys 39..50 the finger the map gives their offset from 39 |
| FingerAnimations.FingerPeriodic | src/components/finger-animations.tsx:310-311 | outside the table, the finger repeats every 12 keys of the window |
| FingerAnimations.TableNumberingDiffersFromStore | src/components/finger-animations.tsx:290 | the table's "C4" (39) is a black key of the store, and the store's C4 lies outside the table |
| FingerAnimations.FingerAngle | src/components/finger-animations.tsx:62-70 | the angle lies in [-15, 20] |
| FingerAnimations.FingerAngleOrder | src/components/finger-animations.tsx:62-70 | the angle falls from thumb to little finger, and a black key adds 5 degrees |
| FingerAnimations.FingerWidth | src/components/finger-animations.tsx:85-86 | the width lies in 24..32 |
| FingerAnimations.FingerLength | src/components/finger-animations.tsx:87 | the length lies in 75..95 |
| FingerAnimations.ThumbShape | src/components/finger-animations.tsx:85-87 | the thumb is the widest and the shortest finger, and the middle finger is the longest |
| FingerAnimations.Hue | src/components/finger-animations.tsx:90 | the hue lies in [0, 360) and is a multiple of 8 for key 0 and up |
| FingerAnimations.HuePeriod | src/components/finger-animations.tsx:90 | the hue repeats every 45 keys, and differs between any two keys fewer than 45 apart |
| FingerAnimations.WhiteKeysCountAsWritten | src/components/finger-animations.tsx:317-319 | the formula as written: between visibleKeys-5 and visibleKeys |
| FingerAnimations.WhiteKeysCountAsWrittenWide | src/components/finger-animations.tsx:317-319 | for 12 keys or more, the formula gives visibleKeys-5 wherever the window starts |
| FingerAnimations.WhiteKeysCountAsWrittenMiscounts | src/components/finger-animations.tsx:317-338 | for start 11 with 2 keys, the formula gives 1 where there are 2 white keys (see Findings) |
| FingerAnimations.WhiteKeysCount | src/components/finger-animations.tsx:317-319 | the corrected count of white keys in the window, never more than the window's size |
| FingerAnimations.WhiteKeyIndex | src/components/finger-animations.tsx:332-335 | a white key's slot: the white keys among the first relativeIndex + 1 keys, minus one; WhiteKeyIndexCountsLeft states that it counts the white keys to its left |
| FingerAnimations.WhiteKeyIndexCountsLeft | src/components/finger-animations.tsx:325-335 | for a white key, the index is the number of white keys to its left |
| FingerAnimations.WhiteKeysBeforeMatchesKeyboard | src/components/finger-animations.tsx:325-327 | the overlay counts the same white keys left of a key as the keyboard does |
| FingerAnimations.WhiteKeySlotInRange | src/components/finger-animations.tsx:333-338 | with the corrected count, every white key of the window has an index in 0..count-1 |
| KeySuggestions.ScalesShape | src/components/key-suggestions.tsx:12-17 | every scale is 8 strictly increasing keys spanning one octave |
| KeySuggestions.CMajorSteps | src/components/key-suggestions.tsx:13 | "C Major" has the major steps 2 2 1 2 2 2 1 |
| KeySuggestions.GMajorSteps | src/components/key-suggestions.tsx:14 | "G Major" has the major steps |
| KeySuggestions.AMinorSteps | src/components/key-suggestions.tsx:16 | "A Minor" has the minor steps 2 1 2 2 1 2 2 |
| KeySuggestions.FMajorSteps | src/components/key-suggestions.tsx:15 | "F Major" has the steps 2 2 2 1 2 2 1, which are neither the major nor the minor pattern |
| KeySuggestions.LoadedSuggestionIsCMajor | src/components/key-suggestions.tsx:13 | the store's suggestion after loading is "C Major" shifted by 21, into the store's numbering |
| KeySuggestions.ChangeScale | src/components/key-suggestions.tsx:20-23 | the selected name is the scale chosen, and the suggestion is exactly that scale's keys |
| KeySuggestions.ChangeScaleLastWins | src/components/key-suggestions.tsx:20-23 | only the last choice counts, and choosing the same scale again changes nothing |

## Left out

- Audio (Tone.js): the sampler, the reverb, `triggerAttack` and `triggerRelease`, and the volume. A loaded sampler is the flag `pianoReady`.
- initAudio is split into its three state changes. `InitAudioStart` sets loading. Then either `SamplesLoaded` runs (`onload`) or `SamplesFailed` runs (`onerror`, or the `catch`). The `await`s between them are not modelled.
- Clocks: `performance.now()` and `requestAnimationFrame`. The elapsed time is a parameter of `Playback.Step`, and the frame loop is the caller. The returned flag says whether `update` asks for another frame.
- `setTimeout` is not modelled as wall-clock scheduling. A release is an entry of `pending`, with its due time, and `FireTimer` runs whichever entry the caller picks.
- `Playback.Step` changes nothing for an empty song. The source throws at the second statement of `update` in that case, where it reads the last note.
- `StoreModel.Progress`: when totalTime is 0, the source stores Infinity or NaN. The model leaves the progress as it was, and states nothing for that case.
- Times, durations and keys are integers, and frames are modelled at whole milliseconds. The song data holds only integers, but the source's `elapsed` (`performance.now() - startTime`) has fractional milliseconds; a frame between two whole milliseconds, where for example a note ending at 400 is no longer sounding at 400.5, is not modelled. Float division is only used for the progress.
- The 100 ms debounce of the settings panel is left out. The model computes the value the handler would compute from its text.
- Focus and event targets (`document.activeElement`, `HTMLInputElement`) are left out; they are boolean parameters.
- `Array.from(set)` and `Set.prototype.forEach` visit keys in insertion order. The model takes that order as a sequence listing the set.
- `parseInt` is modelled for ASCII whitespace, a sign and decimal digits. Hex prefixes, radix arguments and Unicode whitespace are left out, because the texts here never contain them.
- `toLowerCase` is modelled for ASCII letters only. Keyboard event keys for the mapped letters are ASCII.
- Lookups such as `keyMap[key]` accept only the table's own keys. Inherited object properties are not modelled.
- KeySuggestions.ChangeScale requires the name to be one of the four scales. The source casts the name to the table's key type, and calls it only with those names.
- Float positions and all rendering are left out: the finger and key x/y percentages, the spring settings, the colours and the SVG shapes. Only the counts behind the positions are modelled.
- The double initAudio call is not modelled. The page calls it once when it mounts, and the keyboard calls it again on its first click or key press; each call is one `InitAudioStart`.
- PressKeyValid: bounds active keys to piano keys 0..87, not to the window, because the source releases nothing when setStartKey or setVisibleKeys moves the window (StoreModel.HeldKeyLeavesWindow).
- ApplyValid: the same bound, 0..87 and not the window, for the same reason.
- IntToString: the decimal text is JavaScript's `String(n)` only below 10^21 in magnitude; exponent notation beyond that is not modelled, and the values here are at most a few hundred.
- Other components are not part of this model: mini-map, note-trail, space-background, synth-controls, demo-player and the page layout.

## Findings

| source | as written | input that shows it | evidently intended | confidence | as-written member | corrected member |
|---|---|---|---|---|---|---|
| src/store/piano-store.ts:249-256 | `noteToKey` parses only the last character as the octave | keys 0..11: `keyToNote(5)` is "F-1", and noteToKey of it is -1 | noteToKey inverts keyToNote for every key | not executed | NoteNames.NoteToKeyLowOctave | NoteNames.NoteToKeyFullInvertsKeyToNote |
| src/components/finger-animations.tsx:317-319 | `whiteKeysCount` subtracts the black offsets whose shifted pitch class is below visibleKeys | start 11 with 2 keys (B, C): the count is 1, the C's index is 1, and its finger lands past the right edge | the number of white keys in the window, as the keyboard computes it | not executed | FingerAnimations.WhiteKeysCountAsWrittenMiscounts | FingerAnimations.WhiteKeySlotInRange |
| src/components/options-tab.tsx:27 | `parseInt(value) \|\| 60` treats 0 like NaN | "-" at start 1 sends "0", which gives start 60 | only non-numbers fall back to 60 | not executed | OptionsTab.StartZeroFallsBack | OptionsTab.StartValueCorrectedReachesAll |
