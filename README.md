# Thug step sequencer — a Dafny model of its bookkeeping

Thug is a small music workstation built from Unity scripts. It has two step sequencers and a
synthesizer.

- **Drum sequencer** (`DrumController` with `DrumMachineManager` and `DrumSampler`). One row
  per drum track.
- **Melodic sequencer** (`SequencerController` with `ScrollableGrid`, and a clear button
  `ClearSequencer`). One row per pitch.
- **Synthesizer** (`Synthesizer`), driven by a preset selector (`PresetSwitcher`).

Every grid cell is a `CustomToggle`. The grids keep their cells in one flat, row-major
child list: cell `(row, step)` is child `row * columns + step` when that child exists.

This project models the following and proves what the scripts promise about it:

- The transport state machine (`isInitialized`, `isPlaying`, `currentStep`), and what each
  tick does:
  - it repaints the off colours so the current column stands out;
  - it triggers the rows whose cell is on, in increasing row order, through the sound sink's
    bounds check;
  - it advances the cursor modulo the column count.
- The drum sequencer's `gridState` save format, with its round trip, and the BPM guard on
  loading.
- How the piano roll names its rows (reversed order, pitch and octave) and which rows it
  styles as black keys.
- The synthesizer's voice set: a set of sounding keys paired with a map from each key to its
  phase pair, kept with equal key sets. The interleaved-buffer structure of the audio
  callback. The tone presets.
- The preset selector's cyclic cursor, with its clamped load from, and save to, the
  preferences store.

Each script that updates objects in place is a Dafny `class` whose methods state the new
state. Value-level behaviour is captured by functions, with lemmas proved about them.

| file | module | models |
|---|---|---|
| `common.dfy` | `Common` | Option, abstract colours, `Mathf.Clamp`, quotient/remainder facts |
| `custom_toggle.dfy` | `CustomToggles` | `CustomToggle.cs` |
| `grid.dfy` | `Grid` | the row-major child-list bookkeeping shared by both grids |
| `scrollable_grid.dfy` | `PianoRoll` | `ScrollableGrid.cs` |
| `drum_machine.dfy` | `DrumMachine` | `DrumMachineManager.cs` |
| `drum_sampler.dfy` | `DrumSamplers` | `DrumSampler.cs` |
| `transport.dfy` | `Transport` | the state machine, cursor and trigger schedule of both controllers |
| `drum_sequencer_data.dfy` | `Snapshot` | `DrumSequencerData.cs` and the `gridState` codec |
| `drum_controller.dfy` | `DrumSequencer` | `DrumController.cs` |
| `sequencer_controller.dfy` | `Sequencer` | `SequencerController.cs` |
| `clear_sequencer.dfy` | `Clearing` | `ClearSequencer.cs` |
| `synthesizer.dfy` | `Synth` | `Synthesizer.cs` |
| `preset_switcher.dfy` | `Presets` | `PresetSwitcher.cs` |

Details of the modelled form:

- **Float fields** are `real`s.
- **Colours** are an abstract datatype.
- **Child lists:**
  - A grid's child list is a `seq<CustomToggle?>`.
  - A `null` entry is a child GameObject without a `CustomToggle` component.
  - `Pattern` takes a snapshot of the cells' states as a `seq<Option<bool>>`.
- **Sound sinks:** a controller's sink (the drum sampler's sources, the sequencer's audio
  source list) records the indices it started, oldest first.
- **Playback:** the coroutine `PlaySequence` is modelled as a given number of uninterrupted ticks over the pattern it starts with. Cell clicks, Pause and Stop between the `WaitForSeconds` yields are covered only by composing `Tick` with those methods.

## Model

| member | source | states |
|---|---|---|
| Common.Clamp | Assets/Scripts/PresetSwitcher.cs:170 | `Mathf.Clamp` on ints: the result lies in `[min, max]`, is the value when it is inside, and is the nearer bound otherwise |
| Common.ClampUnit | Assets/Scripts/Synthesizer.cs:95 | `Mathf.Clamp(sample, -1, 1)`: the result lies in `[-1, 1]` is the sample when it is already inside, and is `-1` below and `1` above the range |
| CustomToggles.Fresh | Assets/Scripts/CustomToggle.cs:10-17 | a toggle just instantiated is off and carries its prefab's style |
| CustomToggles.WithOffColor | Assets/Scripts/CustomToggle.cs:34-42 | `SetDefaultOffColor(c)` stores `c` and keeps the state; it repaints the background only when the toggle is off and has an Image; a correctly painted toggle stays correctly painted |
| CustomToggles.WithState | Assets/Scripts/CustomToggle.cs:82-89 | `SetState(s)` gives state `s` and keeps the off colour; the background then shows `onColor` or the off colour, and without an Image it is untouched |
| CustomToggles.Flipped | Assets/Scripts/CustomToggle.cs:67-76 | `ToggleState` negates the state, keeps the off colour and repaints to match |
| CustomToggles.Initialized | Assets/Scripts/CustomToggle.cs:24-28 | `Initialize` picks the black-key or white-key off colour from the flag and keeps the state |
| CustomToggles.FlipTwice | Assets/Scripts/CustomToggle.cs:67-76 | two clicks restore the state, and restore everything on a correctly painted toggle |
| CustomToggles.WithStateIdempotent | Assets/Scripts/CustomToggle.cs:82-89 | setting the same state twice has the effect of setting it once |
| CustomToggles.WithOffColorTwice | Assets/Scripts/CustomToggle.cs:34-42 | of two off-colour assignments in a row only the second is visible |
| CustomToggles.CustomToggle.Instantiate | Assets/Scripts/CustomToggle.cs:10-17 | a new toggle has the look `Fresh` gives its prefab, and the prefab's text child |
| CustomToggles.CustomToggle.Initialize | Assets/Scripts/CustomToggle.cs:24-28 | the new look is `Initialized` of the old one; the text is unchanged |
| CustomToggles.CustomToggle.SetDefaultOffColor | Assets/Scripts/CustomToggle.cs:34-42 | the new look is `WithOffColor` of the old one; the text is unchanged |
| CustomToggles.CustomToggle.ToggleState | Assets/Scripts/CustomToggle.cs:67-76 | the new look is `Flipped` of the old one; the text is unchanged |
| CustomToggles.CustomToggle.SetState | Assets/Scripts/CustomToggle.cs:82-89 | the new look is `WithState` of the old one; the text is unchanged |
| CustomToggles.CustomToggle.GetState | Assets/Scripts/CustomToggle.cs:95-98 | returns the current state |
| Grid.ChildIndexInRange | Assets/Scripts/ScrollableGrid.cs:237-238 | every cell inside `rows` x `columns` has a flat index in `[0, rows * columns)` |
| Grid.ChildIndexInjective | Assets/Scripts/ScrollableGrid.cs:237 | two cells with in-range steps share a flat index exactly when they are the same cell |
| Grid.ChildIndexCovers | Assets/Scripts/ScrollableGrid.cs:237 | every index below `rows * columns` is the cell `(k / columns, k % columns)` |
| Grid.ChildIndexAlias | Assets/Scripts/ScrollableGrid.cs:235-243 | the step is not bounds-checked: step `columns` of a row is step 0 of the next row |
| Grid.InstantiateCell | Assets/Scripts/ScrollableGrid.cs:139-161 | the new child has a toggle exactly when the prefab has one; that toggle is fresh, initialised with the row's black-key flag, and labelled when it has a text child |
| Grid.Pattern | Assets/Scripts/DrumController.cs:150-156 | the snapshot of the first `n` cells has length `n` |
| Grid.PaintGrid | Assets/Scripts/DrumController.cs:288-298 | the nested loops give cell `(row, col)` the off colour `colour(row, col)` through `SetDefaultOffColor` and leave every child past `rows * columns` and every text alone |
| Grid.PaintColumn | Assets/Scripts/DrumController.cs:273-280 | exactly the cells of column `c` get the given off colour; nothing else changes |
| PianoRoll.BlackKeysAreSharps | Assets/Scripts/ScrollableGrid.cs:223-227 | the black-key indices are exactly the pitch names with a sharp |
| PianoRoll.RowPitch | Assets/Scripts/ScrollableGrid.cs:79-83 | visual row `i` has a pitch index in `[0, 12)` and an octave `>= 1` that together give back its offset `rows - 1 - i` above C1 |
| PianoRoll.RowsDescend | Assets/Scripts/ScrollableGrid.cs:79-83 | a row higher on screen has a higher pitch, and no two rows share a pitch name and octave |
| PianoRoll.NatToString | Assets/Scripts/ScrollableGrid.cs:98 | the interpolated octave is a non-empty string of decimal digits, one digit exactly below 10, whose decimal value is the octave |
| PianoRoll.NatToStringInjective | Assets/Scripts/ScrollableGrid.cs:98 | two octaves get the same numeral exactly when they are equal |
| PianoRoll.LabelDeterminesPitch | Assets/Scripts/ScrollableGrid.cs:79-98 | a row's label gives back its pitch index and its octave |
| PianoRoll.LabelsDistinct | Assets/Scripts/ScrollableGrid.cs:79-98 | two rows carry the same label exactly when they are the same row |
| PianoRoll.LabelsFromBottom | Assets/Scripts/ScrollableGrid.cs:77-83 | the bottom row is labelled C1, and twelve rows up is the same pitch one octave higher |
| PianoRoll.PianoKeys | Assets/Scripts/ScrollableGrid.cs:79-120 | one piano key per row, built from the key prefab's text child, Image and Button |
| PianoRoll.PianoKeysShading | Assets/Scripts/ScrollableGrid.cs:79-120 | a key is labelled exactly when the prefab has a text child, and no two labels agree; it is styled exactly when the prefab has both an Image and a Button, black exactly when its pitch name has a sharp, and the styling repeats every twelve rows; with a text child the bottom key reads C1 |
| PianoRoll.ScrollableGrid.constructor | Assets/Scripts/ScrollableGrid.cs:13-23 | the inspector sizes and row colours, and two empty panels |
| PianoRoll.ScrollableGrid.PopulatePianoPanel | Assets/Scripts/ScrollableGrid.cs:75-121 | the piano panel receives the keys `PianoKeys(rows, prefab)`, top to bottom: each labelled with its pitch and octave only when the prefab has a text child, and styled black or white by its pitch only when it has both an Image and a Button |
| PianoRoll.ScrollableGrid.PopulateStepPanel | Assets/Scripts/ScrollableGrid.cs:124-164 | `rows * columns` new children are appended in row-major order; each has a toggle exactly when the prefab does, initialised with its row's black-key flag and labelled with its row's pitch name; the old children are kept |
| PianoRoll.ScrollableGrid.GetToggleAt | Assets/Scripts/ScrollableGrid.cs:235-243 | the toggle of child `row * columns + step` of the step panel when that index is a child, and null otherwise; a non-null result is always one of the panel's children |
| DrumMachine.DrumCaption | Assets/Scripts/DrumMachineManager.cs:63-67 | a drum cell is labelled exactly in column 0 of a row that has a track name, and the label is that name |
| DrumMachine.DrumMachineManager.constructor | Assets/Scripts/DrumMachineManager.cs:12-16 | the inspector values and an empty drum panel |
| DrumMachine.DrumMachineManager.PopulateDrumGrid | Assets/Scripts/DrumMachineManager.cs:41-70 | one cell per track and step in row-major order, each initialised as a white-key row and labelled only in column 0; reading a missing track name throws, so population finishes exactly when every row has a name, and otherwise stops after the named rows |
| DrumMachine.DrumMachineManager.RestoreScrollPosition | Assets/Scripts/DrumController.cs:134-138 | the scroll bar takes the stored position when there is a ScrollRect, and stays absent otherwise |
| DrumMachine.DrumMachineManager.GetToggleAt | Assets/Scripts/DrumMachineManager.cs:83-91 | the toggle of child `row * drumColumns + step` of the drum panel when that index is a child, and null otherwise; a non-null result is always one of the panel's children |
| DrumSamplers.DrumSampler.constructor | Assets/Scripts/DrumSampler.cs:12-34 | one audio source per sample, and nothing played yet |
| DrumSamplers.DrumSampler.PlayDrum | Assets/Scripts/DrumSampler.cs:40-50 | an index in `[0, sourceCount)` starts its source; any other index is rejected and changes nothing |
| Transport.Played | Assets/Scripts/SequencerController.cs:65-83 | `Play` is rejected with no change when not initialized or already playing; otherwise it plays from step 0 |
| Transport.Paused | Assets/Scripts/SequencerController.cs:85-96 | `Pause` stops playing and keeps the cursor; when not playing it changes nothing |
| Transport.Stopped | Assets/Scripts/SequencerController.cs:98-111 | `Stop` stops playing and rewinds to step 0; when not playing it changes nothing |
| Transport.PauseThenPlayRestarts | Assets/Scripts/SequencerController.cs:65-111 | Play after Pause restarts at step 0, and Stop after Pause is a no-op |
| Transport.PlayThenStop | Assets/Scripts/DrumController.cs:197-234 | a successful Play followed by Stop leaves the transport stopped at step 0 |
| Transport.Advance | Assets/Scripts/DrumController.cs:242 | the advanced cursor lies in `[0, columns)` |
| Transport.Cursor | Assets/Scripts/DrumController.cs:236-245 | after at least one tick the cursor lies in `[0, columns)` |
| Transport.CursorIsSum | Assets/Scripts/DrumController.cs:236-245 | after `n >= 1` ticks from a non-negative start the cursor is `(start + n) % columns` |
| Transport.CursorCycles | Assets/Scripts/DrumController.cs:242 | from a cursor in range, `columns` ticks return to the start |
| Transport.HitsMembers | Assets/Scripts/DrumController.cs:247-257 | a row is triggered at `step` exactly when it is below `rows` and its cell at `step` exists and is on |
| Transport.HitsIncreasing | Assets/Scripts/DrumController.cs:247-257 | the triggered rows are below `rows` and strictly increasing |
| Transport.Accepted | Assets/Scripts/DrumSampler.cs:42-48 | a sink never acts on more triggers than it receives |
| Transport.AcceptedMembers | Assets/Scripts/DrumSampler.cs:42-48 | a sink with `n` channels acts on exactly the triggers in `[0, n)` |
| Transport.AcceptedHits | Assets/Scripts/SequencerController.cs:124-144 | because rows are visited in increasing order, a sink with `n` channels plays exactly the hits among the first `n` rows |
| Transport.Schedule | Assets/Scripts/DrumController.cs:236-245 | no tick triggers nothing |
| Transport.ScheduleSplit | Assets/Scripts/DrumController.cs:236-245 | `a + b` ticks trigger what `a` ticks do, followed by what `b` ticks do from the cursor the first `a` left |
| Transport.ScheduleRepeats | Assets/Scripts/DrumController.cs:236-257 | over a fixed pattern the triggers repeat with period `columns` |
| Snapshot.Encode | Assets/Scripts/DrumController.cs:149-157 | `gridState` has one character per cell, every character is `'0'` or `'1'`, and it is `'1'` exactly where the cell exists and is on |
| Snapshot.EncodeUnique | Assets/Scripts/DrumController.cs:149-157 | any `'0'`/`'1'` string with a `'1'` exactly at the lit cells is the encoding |
| Snapshot.Decode | Assets/Scripts/DrumController.cs:108-125 | decoding keeps the number of cells |
| Snapshot.DecodeKeepsPresence | Assets/Scripts/DrumController.cs:115-122 | decoding never creates or removes a toggle |
| Snapshot.RoundTrip | Assets/Scripts/DrumController.cs:108-157 | loading a saved `gridState` into a grid with the same toggles reproduces the saved states |
| Snapshot.DecodeEmpty | Assets/Scripts/DrumController.cs:108-131 | an empty `gridState` leaves the grid unchanged |
| Snapshot.DecodeCells | Assets/Scripts/DrumController.cs:110-125 | a cell at or past the string's end is untouched; a cell before it with a toggle takes `gridState[k] == '1'` |
| Snapshot.DecodeIdempotent | Assets/Scripts/DrumController.cs:108-125 | loading the same string twice has the effect of loading it once |
| Snapshot.EncodeAfterDecode | Assets/Scripts/DrumController.cs:108-157 | saving right after loading a full-length `'0'`/`'1'` string gives the string back on every cell with a toggle, and `'0'` elsewhere |
| Snapshot.EncodeDeterminesOn | Assets/Scripts/DrumController.cs:149-157 | two snapshots with equal encodings agree on which cells are on |
| Snapshot.LoadedBpm | Assets/Scripts/DrumController.cs:97-105 | a stored BPM is taken exactly when it is positive; otherwise the current one is kept |
| Snapshot.LoadedBpmPositive | Assets/Scripts/DrumController.cs:97-105 | loading keeps a positive tempo positive |
| DrumSequencer.DrumController.constructor | Assets/Scripts/DrumController.cs:10-21 | 120 BPM, not initialized, not playing, at step 0, with no grid |
| DrumSequencer.DrumController.WaitForGridInitialization | Assets/Scripts/DrumController.cs:169-195 | the grid found is assigned (a grid already assigned is kept) and the controller is initialized |
| DrumSequencer.DrumController.Play | Assets/Scripts/DrumController.cs:197-215 | the transport becomes `Played` of the old one |
| DrumSequencer.DrumController.Stop | Assets/Scripts/DrumController.cs:217-234 | the transport becomes `Stopped` of the old one; when it was playing, every cell is repainted white, and otherwise no cell changes |
| DrumSequencer.DrumController.ResetAllColumns | Assets/Scripts/DrumController.cs:284-299 | with a grid, every cell gets off colour white and nothing else changes |
| DrumSequencer.DrumController.HighlightColumn | Assets/Scripts/DrumController.cs:270-282 | column `c` ends with the active colour and every other cell white; no cell's state changes |
| DrumSequencer.DrumController.PlayDrumSample | Assets/Scripts/DrumController.cs:259-268 | with a sampler the row goes to `PlayDrum` and is played when in range; without one nothing plays |
| DrumSequencer.DrumController.PlayStep | Assets/Scripts/DrumController.cs:247-257 | the sampler plays exactly the rows whose cell at `step` is on, in increasing order, restricted to its sources |
| DrumSequencer.DrumController.Tick | Assets/Scripts/DrumController.cs:238-244 | one loop iteration highlights the current column, plays its lit rows and advances the cursor modulo `drumColumns`; the cells' states do not change |
| DrumSequencer.DrumController.PlaySequence | Assets/Scripts/DrumController.cs:236-245 | when playing, `ticks` iterations move the cursor by `ticks`, play the schedule of the starting pattern, keep every cell's state, and leave the last column highlighted; when not playing nothing happens |
| DrumSequencer.DrumController.SaveData | Assets/Scripts/DrumController.cs:141-167 | nothing is saved before initialization; otherwise the record holds the BPM, the encoding of the `drumRows * drumColumns` cells and the scroll position, or 0 without a ScrollRect |
| DrumSequencer.DrumController.ApplyGridState | Assets/Scripts/DrumController.cs:107-131 | the grid-state block turns the snapshot into `Decode(gridState, old snapshot)`, changing cells only through `SetState` |
| DrumSequencer.DrumController.DecodeLoops | Assets/Scripts/DrumController.cs:110-125 | the `index`-th cell in row-major order takes `gridState[index] == '1'` while `index` is below the string's length; nothing else changes |
| DrumSequencer.DrumController.LoadSnapshot | Assets/Scripts/DrumController.cs:79-139 | without a record nothing changes; otherwise the BPM passes the positive guard, the grid state is decoded and the scroll position is restored when there is a ScrollRect |
| DrumSequencer.DrumController.UpdateBpm | Assets/Scripts/DrumController.cs:57-63 | the tempo becomes the slider value |
| Sequencer.RowBlackAsWrittenSwapsFs | Assets/Scripts/SequencerController.cs:171 | on the default 36-row grid the row shading as written paints F#3 as a white key and F3 as a black key |
| Sequencer.RowBlackAsWrittenMirrors | Assets/Scripts/SequencerController.cs:171 | on a whole number of octaves the shading as written mirrors the keys within each octave; it agrees with them except at positions 5 and 6 |
| Sequencer.RowBlackMatchesKeys | Assets/Scripts/ScrollableGrid.cs:101-135 | the corrected shading is the styling of the row's piano key whenever the key is styled, and the black-key flag its step cells were initialised with |
| Sequencer.AudioSourceList.constructor | Assets/Scripts/SequencerController.cs:17 | an empty source list with nothing played |
| Sequencer.AudioSourceList.Add | Assets/Scripts/SequencerController.cs:61 | one more source |
| Sequencer.AudioSourceList.Play | Assets/Scripts/SequencerController.cs:140-142 | the source at an existing index starts playing |
| Sequencer.SequencerController.constructor | Assets/Scripts/SequencerController.cs:7-19 | 120 BPM, not initialized, not playing, at step 0, no grid, no audio source |
| Sequencer.SequencerController.WaitForGridInitialization | Assets/Scripts/SequencerController.cs:38-54 | the grid found is assigned, one audio source per grid row is added, and the controller is initialized |
| Sequencer.SequencerController.InitializeAudioSources | Assets/Scripts/SequencerController.cs:56-63 | `grid.rows` sources are added |
| Sequencer.SequencerController.Play | Assets/Scripts/SequencerController.cs:65-83 | the transport becomes `Played` of the old one |
| Sequencer.SequencerController.Pause | Assets/Scripts/SequencerController.cs:85-96 | the transport becomes `Paused` of the old one |
| Sequencer.SequencerController.Stop | Assets/Scripts/SequencerController.cs:98-111 | the transport becomes `Stopped` of the old one; when it was playing, every cell gets the shading of `IsBlackKey(row % 12)` as written, and otherwise no cell changes |
| Sequencer.SequencerController.ResetAllColumns | Assets/Scripts/SequencerController.cs:160-176 | with a grid, every cell `(row, col)` gets the black-key row colour exactly when `IsBlackKey(row % 12)`, as written, and the white-key colour elsewhere, through `SetDefaultOffColor`; children past the grid are untouched |
| Sequencer.SequencerController.HighlightColumn | Assets/Scripts/SequencerController.cs:146-158 | column `c` ends with the active colour and every other cell with the as-written shading of `IsBlackKey(row % 12)`; no cell's state changes |
| Sequencer.SequencerController.PlayNote | Assets/Scripts/SequencerController.cs:136-144 | a row in `[0, noteClips.Length)` plays on its source; any other row is ignored |
| Sequencer.SequencerController.PlayStep | Assets/Scripts/SequencerController.cs:124-134 | exactly the rows whose cell at `step` is on and that have a clip play, in increasing order |
| Sequencer.SequencerController.Tick | Assets/Scripts/SequencerController.cs:115-121 | one loop iteration highlights the current column (the rest take the as-written `row % 12` shading), plays its lit rows that have a clip, and advances the cursor modulo `grid.columns`; no cell's state changes |
| Sequencer.SequencerController.PlaySequence | Assets/Scripts/SequencerController.cs:113-122 | when playing, `ticks` iterations move the cursor by `ticks`, play the schedule of the starting pattern and keep every cell's state; when not playing nothing happens |
| Sequencer.SequencerController.UpdateBpm | Assets/Scripts/SequencerController.cs:184-189 | the tempo becomes the slider value |
| Clearing.Cleared | Assets/Scripts/ClearSequencer.cs:22-32 | clearing keeps which cells exist and leaves none of them on |
| Clearing.ClearedUnique | Assets/Scripts/ClearSequencer.cs:22-32 | clearing is the only result that keeps the cells and leaves none on |
| Clearing.ClearedIdempotent | Assets/Scripts/ClearSequencer.cs:13-35 | clearing twice has the effect of clearing once |
| Clearing.ClearedHits | Assets/Scripts/ClearSequencer.cs:13-35 | a cleared grid triggers no row at any step |
| Clearing.ClearedSchedule | Assets/Scripts/ClearSequencer.cs:13-35 | playing a cleared grid triggers nothing, however many ticks it runs |
| Clearing.ClearSequencer.constructor | Assets/Scripts/ClearSequencer.cs:7 | the grid reference assigned in the inspector |
| Clearing.ClearSequencer.ClearAllCells | Assets/Scripts/ClearSequencer.cs:13-35 | without a grid nothing changes; otherwise every cell inside `rows` x `columns` that has a toggle is switched off through `SetState(false)`, the snapshot becomes `Cleared` of the old one, and children past the grid are untouched |
| Synth.PresetsInRange | Assets/Scripts/Synthesizer.cs:6-212 | the defaults and all six presets keep every volume and the filter cutoff in `[0, 1]`, the detune non-negative and the distortion positive |
| Synth.Started | Assets/Scripts/Synthesizer.cs:24-31 | `PlayNote(f)` adds `f` with zero phases when it is new; a sounding key keeps its phases; every other voice is untouched |
| Synth.Stopped | Assets/Scripts/Synthesizer.cs:36-43 | `StopNote(f)` removes `f` and leaves every other voice untouched |
| Synth.StartedIdempotent | Assets/Scripts/Synthesizer.cs:26-30 | pressing a key twice has the effect of pressing it once |
| Synth.StopAfterStart | Assets/Scripts/Synthesizer.cs:24-43 | releasing a key that was just pressed restores the voices that were sounding |
| Synth.StartAfterStop | Assets/Scripts/Synthesizer.cs:24-43 | releasing and pressing a sounding key again restarts its phases at zero |
| Synth.StartCommutes | Assets/Scripts/Synthesizer.cs:24-31 | the order in which two keys are pressed does not matter |
| Synth.Advanced | Assets/Scripts/Synthesizer.cs:65-84 | one frame moves every sounding voice's phases and keeps the set of voices |
| Synth.AdvancedBy | Assets/Scripts/Synthesizer.cs:61-84 | any number of frames keeps the set of voices |
| Synth.Synthesizer.constructor | Assets/Scripts/Synthesizer.cs:6-18 | the default tone, a 44100 Hz sample rate, and no voice |
| Synth.Synthesizer.PlayNote | Assets/Scripts/Synthesizer.cs:24-31 | the key set gains `freq` and the phase map becomes `Started`; the two key sets stay equal |
| Synth.Synthesizer.StopNote | Assets/Scripts/Synthesizer.cs:36-43 | the key set loses `freq` and the phase map becomes `Stopped`; the two key sets stay equal |
| Synth.Synthesizer.StopAllNotes | Assets/Scripts/Synthesizer.cs:48-52 | both the key set and the phase map are empty |
| Synth.Synthesizer.OnAudioFilterRead | Assets/Scripts/Synthesizer.cs:57-98 | with no voice the buffer and the phases are untouched; otherwise every slot of frame `f` holds the clamped sample of frame `f` on all channels, the voices advance once per frame, and the key sets stay equal |
| Synth.Synthesizer.WriteFrame | Assets/Scripts/Synthesizer.cs:93-96 | the channel loop writes the value into each slot of the frame and nowhere else |
| Synth.Synthesizer.DistortedSaw | Assets/Scripts/Synthesizer.cs:121-132 | sets exactly the preset's seven parameters; the voices are untouched |
| Synth.Synthesizer.FrenchHouseBass | Assets/Scripts/Synthesizer.cs:138-149 | as above, with the French house bass values |
| Synth.Synthesizer.TechnoBass | Assets/Scripts/Synthesizer.cs:154-165 | as above, with the techno bass values |
| Synth.Synthesizer.CrunchySquare | Assets/Scripts/Synthesizer.cs:171-182 | as above, with the crunchy square values |
| Synth.Synthesizer.DeepSubBass | Assets/Scripts/Synthesizer.cs:187-198 | as above, with the deep sub-bass values |
| Synth.Synthesizer.PluckyLead | Assets/Scripts/Synthesizer.cs:204-224 | as above, with the plucky lead values |
| Presets.EveryNameHasAction | Assets/Scripts/PresetSwitcher.cs:15-93 | eleven distinct names, each with an entry in the action dictionary and no other entry, so the "Unknown preset" branch is unreachable after initialisation |
| Presets.NextIndex | Assets/Scripts/PresetSwitcher.cs:137 | the next index stays in `[0, count)`, stepping up by one and wrapping from the last to the first |
| Presets.PrevIndex | Assets/Scripts/PresetSwitcher.cs:127 | the previous index stays in `[0, count)`, stepping down by one and wrapping from the first to the last |
| Presets.NextPrevInverse | Assets/Scripts/PresetSwitcher.cs:125-140 | Next then Previous, and Previous then Next, restore the index |
| Presets.Forward | Assets/Scripts/PresetSwitcher.cs:135-140 | after `n` presses of Next the index is `(i + n) % count` |
| Presets.ForwardCycles | Assets/Scripts/PresetSwitcher.cs:137 | `count` presses of Next return to the start |
| Presets.LoadedIndex | Assets/Scripts/PresetSwitcher.cs:165-179 | a stored index is clamped into `[0, count - 1]`; when nothing is stored the current index is kept |
| Presets.SaveThenLoad | Assets/Scripts/PresetSwitcher.cs:155-179 | loading what was saved gives the saved index back, whatever the current index |
| Presets.KnownTone | Assets/Scripts/PresetSwitcher.cs:80-93 | the tone of a modelled action belongs to a dictionary entry and is in range |
| Presets.PresetSwitcher.constructor | Assets/Scripts/PresetSwitcher.cs:8-31 | the inspector references, the stored preferences, index 0, and no action dictionary yet |
| Presets.PresetSwitcher.Start | Assets/Scripts/PresetSwitcher.cs:33-73 | a missing synthesizer, volume script or name label stops everything and leaves the tone alone; otherwise the actions are initialised and the loaded preset is applied, its name shown and its index saved; the synthesizer's sounding voices stay as they were |
| Presets.PresetSwitcher.Launch | Assets/Scripts/PresetSwitcher.cs:65-72 | with every reference present, the dictionary holds every action name, the index becomes `LoadedIndex` of the store, that preset's action runs, its name is shown and its index saved |
| Presets.PresetSwitcher.InitializePresets | Assets/Scripts/PresetSwitcher.cs:78-96 | the action dictionary holds the eleven names |
| Presets.PresetSwitcher.ApplyPreset | Assets/Scripts/PresetSwitcher.cs:101-120 | when the current name has an action: it runs, the label shows the name, and the index is saved under "SelectedPreset"; otherwise nothing changes |
| Presets.PresetSwitcher.Invoke | Assets/Scripts/PresetSwitcher.cs:105-107 | an action whose Synthesizer method is part of this model sets that preset's tone |
| Presets.PresetSwitcher.PreviousPreset | Assets/Scripts/PresetSwitcher.cs:125-130 | the index moves to `PrevIndex` and that preset is applied |
| Presets.PresetSwitcher.NextPreset | Assets/Scripts/PresetSwitcher.cs:135-140 | the index moves to `NextIndex` and that preset is applied |
| Presets.PresetSwitcher.UpdatePresetName | Assets/Scripts/PresetSwitcher.cs:145-150 | the label, when there is one, shows the current name |
| Presets.PresetSwitcher.SavePreset | Assets/Scripts/PresetSwitcher.cs:155-160 | the store holds exactly the current index under "SelectedPreset", and every other key is unchanged |
| Presets.PresetSwitcher.LoadPreset | Assets/Scripts/PresetSwitcher.cs:165-179 | the index becomes `LoadedIndex` of the store, and that preset is applied |

## Left out

- Sequencer.SequencerController.PlaySequence: does not state the highlight colours after the last tick. `Tick` and `HighlightColumn` state them for each tick.
- Sequencer.SequencerController.Tick: states the colours through `Highlighted`: column lit, other cells shaded by row, states unchanged. It does not restate the per-toggle `Repainted` relation that `HighlightColumn` gives.
- Presets.PresetSwitcher.ApplyPreset: says nothing about the tone for the six actions whose Synthesizer method is missing.
- Presets.PresetSwitcher.Invoke: says nothing about the tone for those six actions.
- Presets.PresetSwitcher.Start: says nothing about the tone when the loaded preset is one of those six.
- Presets.PresetSwitcher.Launch: says nothing about the tone when the loaded preset is one of those six.
- Presets.PresetSwitcher.PreviousPreset: says nothing about the tone when the new preset is one of those six.
- Presets.PresetSwitcher.NextPreset: says nothing about the tone when the new preset is one of those six.
- Presets.PresetSwitcher.LoadPreset: says nothing about the tone when the loaded preset is one of those six.
- DrumSequencer.DrumController.Tick: requires `drumColumns > 0`. On a grid with no columns the source highlights and plays once, and then `% drumGrid.drumColumns` throws `DivideByZeroException` (DrumController.cs:242). That exception path is not modelled.
- DrumSequencer.DrumController.PlaySequence: requires `drumColumns > 0` while playing, for the same reason. The coroutine ended by the exception is not modelled.
- Sequencer.SequencerController.Tick: requires `grid.columns > 0`. On a grid with no columns, `% grid.columns` throws after one highlight and one step (SequencerController.cs:119). That exception path is not modelled.
- Sequencer.SequencerController.PlaySequence: requires `grid.columns > 0` while playing, for the same reason.
- DrumSequencer.DrumController.LoadSnapshot: models `LoadDrumSequencerState`, not `LoadData`. `LoadData` differs in two ways. It also sets `bpmSlider.value = bpm` (DrumController.cs:331-334), and that slider's `UpdateBpm` listener (DrumController.cs:49) writes back the slider's clamped, possibly rounded value, so a stored BPM outside the slider's range does not survive. It is also public and dereferences `drumGrid` unconditionally (DrumController.cs:343, 358), so a call before initialization throws. The model's `data.Some? ==> isInitialized` excludes that case.
- DrumSamplers.DrumSampler.PlayDrum: with no samples assigned, `Awake` leaves `audioSources` null (DrumSampler.cs:15-19), so `PlayDrum` throws instead of rejecting. The model's sink always has a source list.
- Grid.InstantiateCell: a child without a `CustomToggle` still gets its text set by the source (ScrollableGrid.cs:157-161, DrumMachineManager.cs:63-67). Such a child is `null` in the model, so its text is not represented.
- Synth.Synthesizer.OnAudioFilterRead: runs on the audio thread, concurrently with `PlayNote` and `StopNote` and without synchronisation. The model treats each call as atomic.
- Synth.Synthesizer.OnAudioFilterRead: the frame samples and the per-frame phase update are parameters, not computed. These are the oscillators (`Mathf.PingPong`), the phase increments and wraps, the `Mathf.Tan` distortion and the low-pass filter with its `previousSample` state. They are floating-point signal processing. The filter's `filterResonance` is never read by that code.
- Synth.Synthesizer.OnAudioFilterRead: requires `channels > 0` and a whole number of frames in the buffer, as Unity's audio thread provides. In the source, a partial last frame would index past the buffer, and `channels <= 0` would loop forever.
- The missing preset methods: `PiercingLead`, `PunchyBass`, `MetallicPluck`, `DistortedSquareBass`, `PercussiveBlip` and `SmoothHouseBass` are named in the action dictionary but not defined in `Synthesizer.cs`. They are not part of this model, so their actions are modelled by name only.
- `SetEnvelope` only logs. `PluckyLead` is not in the switcher's list.
- `SynthVolume.OnPresetLoaded` is not modelled. It is the slider sync that `ApplyPreset` calls: it sets the UI slider to the master volume, and the slider's listener writes the slider's clamped value back into `masterVolume`. For the modelled presets on a [0, 1] slider this changes nothing, since `PresetsInRange` puts every volume in [0, 1].
- Button listeners are not modelled. `PresetSwitcher.Start` only wires two UI callbacks.
- Coroutines and timing are not modelled:
  - `WaitForSeconds` and `StopAllCoroutines` — a tick is one discrete step;
  - the step duration `60 / (bpm * 4)` (`UpdateStepDuration`) — floating-point arithmetic that only feeds the wait;
  - `InitializeAndLoadState` and the controllers' `Start` — slider wiring and start-up ordering.
- The polling loop that finds a grid is not modelled. The grid the tag lookup finally returns is a parameter of `WaitForGridInitialization`.
- File and JSON I/O are not modelled:
  - `SaveData` returns the record instead of writing JSON.
  - `LoadSnapshot` starts from the parsed record: `None` for a missing file or a parse failure.
  - `SaveSystem.LoadDrum` is not part of this model. `LoadSnapshot` models `LoadDrumSequencerState`.
  - `OnApplicationPause` and `OnApplicationQuit` only call `SaveData`.
- The BPM label and slider updates are not modelled.
- UI layout is not modelled:
  - RectTransform geometry and scroll synchronisation in `ScrollableGrid` (lines 166-221);
  - `AdjustScrollRectContentSize`;
  - the drum machine's piano-roll buttons (`CreatePianoRoll`, `PlayDrumSound` — log only);
  - the piano panel's actual colour values: a styled key is recorded as black or white, and its label colour follows that choice.
- `CustomToggle.OnDrag` only logs, and is not modelled. `OnPointerClick` calls `ToggleState`, which is modelled.
- The `AudioSource` objects are not modelled. The sequencer's `List<AudioSource>` is `AudioSourceList`: its count and the indices started on it. Each sink records the indices it started instead of playing audio.
- Debug logging is left out throughout.
- Float width and rounding are not modelled, and neither is 32-bit overflow of `row * columns`. The grids are far too small for it.

## Findings

| source | as written | input that shows it | evidently intended | confidence | as-written member | corrected member |
|---|---|---|---|---|---|---|
| Assets/Scripts/SequencerController.cs:171 | `ResetAllColumns` shades a row by `IsBlackKey(row % 12)`, counting visual rows from the top | the default 36-row grid: row 5 plays F#3, a black key, and gets the white-key colour; row 6 plays F3 and gets the black-key colour | shade by the row's pitch index `(rows - 1 - row) % 12`, as `PopulatePianoPanel` and `PopulateStepPanel` do (ScrollableGrid.cs:130-135) | not executed | Sequencer.RowBlackAsWrittenSwapsFs | Sequencer.RowBlackMatchesKeys |

The controller methods (`Stop`, `ResetAllColumns`, `HighlightColumn`, `Tick`) shade as written, through `RowBlackAsWritten`. The corrected shading `RowBlack` is proved equal to the piano keys' black-key flag by `RowBlackMatchesKeys`, and is related to the as-written shading by `RowBlackAsWrittenMirrors`.
