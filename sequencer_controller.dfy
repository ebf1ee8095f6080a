/** The melodic step sequencer (`SequencerController`): the transport over the piano-roll
    grid, one tick per step that highlights the current column and plays the note of every
    lit row, and the row shading that `Stop` restores. */
module Sequencer {
  import opened Common
  import opened CustomToggles
  import opened Grid
  import opened Transport
  import opened PianoRoll

  /** The shading `ResetAllColumns` picks as written: the key of `row % 12`, counting
      visual rows from the top (SequencerController.cs:171). */
  predicate RowBlackAsWritten(row: int) {
    IsBlackKey(row % 12)
  }

  /** The shading of the key the row plays: the pitch `PopulatePianoPanel` and
      `PopulateStepPanel` give visual row `row`, counted upwards from the bottom row. */
  predicate RowBlack(rows: int, row: int) {
    IsBlackKey(Semitone(rows, row) % 12)
  }

  /** On the default 36-row grid, row 5 plays F#3 (a black key) and row 6 plays F3 (a white
      key), but `row % 12` shades them the other way round. */
  lemma RowBlackAsWrittenSwapsFs()
    ensures PitchLabel(36, 5) == "F#3" && IsBlackKey(PitchIndex(36, 5)) && !RowBlackAsWritten(5)
    ensures PitchLabel(36, 6) == "F3" && !IsBlackKey(PitchIndex(36, 6)) && RowBlackAsWritten(6)
  {
    assert PitchIndex(36, 5) == 6 && Octave(36, 5) == 3;
    assert PitchIndex(36, 6) == 5 && Octave(36, 6) == 3;
    assert NatToString(3) == "3";
  }

  /** When the row count is a whole number of octaves, the as-written shading is the
      mirror image of the keys within each octave: it agrees with the keys on every row
      except those at positions 5 and 6 of their octave. */
  lemma RowBlackAsWrittenMirrors(rows: nat, row: int)
    requires rows % 12 == 0 && 0 <= row < rows
    ensures Semitone(rows, row) % 12 == 11 - row % 12
    ensures RowBlackAsWritten(row) == RowBlack(rows, row) <==> row % 12 != 5 && row % 12 != 6
  {
    var q, r := row / 12, row % 12;
    var o := rows / 12;
    assert rows == o * 12;
    assert row == q * 12 + r;
    assert Semitone(rows, row) == (o - q - 1) * 12 + (11 - r);
    assert o - q - 1 >= 0 by {
      Decompose(row, o, 12);
    }
    DivMod(o - q - 1, 11 - r, 12);
  }

  /** The corrected shading is the black-key flag of the row's piano key, which is also
      the flag every step cell of the row was initialised with. */
  lemma RowBlackMatchesKeys(rows: nat, row: int, prefab: KeyPrefab)
    requires 0 <= row < rows
    ensures prefab.hasImage && prefab.hasButton ==> PianoKeys(rows, prefab)[row].shade == Some(RowBlack(rows, row))
    ensures RowBlack(rows, row) <==> IsBlackKey(PitchIndex(rows, row))
  {
  }

  /** The off colours `ResetAllColumns` gives cell `(row, col)`, as written: the grid's
      black-key row colour when `row % 12` is a black-key index, its white-key row colour
      elsewhere. */
  function RowShade(black: Color, white: Color): (int, int) -> Color {
    (row, col) => if RowBlackAsWritten(row) then black else white
  }

  /** The off colours `HighlightColumn(c)` leaves: `lit` in column `c`, the row shading
      elsewhere. */
  function Highlight(c: int, lit: Color, black: Color, white: Color): (int, int) -> Color {
    (row, col) => if col == c then lit else if RowBlackAsWritten(row) then black else white
  }

  /** The cells of column `c` of the `rows` x `columns` grid hold off colour `lit`, every
      other cell the shading of its row. */
  predicate ColumnShaded(children: seq<CustomToggle?>, rows: int, columns: int, c: int, lit: Color, black: Color, white: Color)
    reads Toggles(children)
  {
    forall k :: 0 <= k < |children| && children[k] != null && k < rows * columns ==>
      children[k].currentOffColor ==
        (if k % columns == c then lit else if RowBlackAsWritten(k / columns) then black else white)
  }

  /** What a highlight of column `c` leaves in the cells: column `c` lit, every other cell
      shaded by its row, and no cell's state changed. */
  twostate predicate Highlighted(children: seq<CustomToggle?>, rows: int, columns: int, c: int, lit: Color, black: Color, white: Color)
    reads Toggles(children)
  {
    && ColumnShaded(children, rows, columns, c, lit, black, white)
    && Pattern(children, |children|) == old(Pattern(children, |children|))
  }

  /** `audioSources`: the audio sources the controller instantiates, one per grid row, and
      the rows whose clip has been started on its source, oldest first. */
  class AudioSourceList {
    /** `audioSources.Count`. */
    var count: nat
    var played: seq<int>

    constructor ()
      ensures count == 0 && played == []
    {
      count := 0;
      played := [];
    }

    /** `audioSources.Add(Instantiate(audioSourcePrefab, transform))`. */
    method Add()
      modifies this`count
      ensures count == old(count) + 1
    {
      count := count + 1;
    }

    /** `source.clip = noteClips[index]; source.Play()` on source `index`; the list index
        must exist. */
    method Play(index: int)
      requires 0 <= index < count
      modifies this`played
      ensures played == old(played) + [index]
    {
      played := played + [index];
    }
  }

  class SequencerController {
    /** `noteClips.Length`: the note clips assigned in the inspector, one per row. */
    const noteClipCount: nat
    const activeColumnColor: Color
    var bpm: real
    var isPlaying: bool
    var isInitialized: bool
    var grid: ScrollableGrid?
    var currentStep: int
    const audioSources: AudioSourceList

    /** The grid is found exactly when initialization finished, and then there is an audio
        source for each of its rows; only an initialized sequencer plays; the cursor is 0 or
        inside the grid's columns. */
    ghost predicate Valid()
      reads this, grid, audioSources`count
    {
      && (isInitialized <==> grid != null)
      && (isPlaying ==> isInitialized)
      && 0 <= currentStep
      && (grid == null ==> currentStep == 0)
      && (grid != null ==> grid.Valid() && audioSources.count >= grid.rows && (currentStep == 0 || currentStep < grid.columns))
    }

    function Status(): State
      reads this
    {
      State(isInitialized, isPlaying, currentStep)
    }

    /** The toggles of the grid, once it is found. */
    ghost function Cells(): set<CustomToggle>
      reads this, grid
    {
      if grid == null then {} else Toggles(grid.children)
    }

    /** The inspector values: 120 BPM, not initialized, not playing, at step 0, no audio
        sources and nothing played. */
    constructor (noteClipCount: nat, activeColumnColor: Color)
      ensures Valid() && Status() == State(false, false, 0)
      ensures bpm == 120.0 && grid == null && audioSources.count == 0 && audioSources.played == []
      ensures this.noteClipCount == noteClipCount && this.activeColumnColor == activeColumnColor
    {
      this.noteClipCount := noteClipCount;
      this.activeColumnColor := activeColumnColor;
      bpm := 120.0;
      isPlaying := false;
      isInitialized := false;
      grid := null;
      currentStep := 0;
      audioSources := new AudioSourceList();
    }

    /** The polling loop ends once a grid is assigned (`found` is the grid the tag lookup
        finally returns); then one audio source per row is created and the sequencer is
        initialized. */
    method WaitForGridInitialization(found: ScrollableGrid)
      requires Valid() && found.Valid()
      modifies this`grid, this`isInitialized, audioSources`count
      ensures Valid() && isInitialized
      ensures grid == (if old(grid) == null then found else old(grid))
      ensures audioSources.count == old(audioSources.count) + grid.rows
    {
      if grid == null {
        grid := found;
      }
      InitializeAudioSources();
      isInitialized := true;
    }

    method InitializeAudioSources()
      requires grid != null
      modifies audioSources`count
      ensures audioSources.count == old(audioSources.count) + grid.rows
    {
      for i := 0 to grid.rows
        invariant audioSources.count == old(audioSources.count) + i
      {
        audioSources.Add();
      }
    }

    method Play()
      requires Valid()
      modifies this`isPlaying, this`currentStep
      ensures Valid() && Status() == Played(old(Status()))
    {
      if !isInitialized {
        return;
      }
      if isPlaying {
        return;
      }
      isPlaying := true;
      currentStep := 0;
    }

    /** When playing: stop but keep the cursor and the colours. Otherwise nothing changes. */
    method Pause()
      requires Valid()
      modifies this`isPlaying
      ensures Valid() && Status() == Paused(old(Status()))
    {
      if !isPlaying {
        return;
      }
      isPlaying := false;
    }

    /** When playing: stop, restore every cell's row shading and rewind. Otherwise nothing
        changes. */
    method Stop()
      requires Valid()
      modifies this`isPlaying, this`currentStep, Cells()
      ensures Valid() && Status() == Stopped(old(Status()))
      ensures old(isPlaying) ==>
        Repainted(grid.children, grid.rows, grid.columns, RowShade(grid.blackKeyRowColor, grid.whiteKeyRowColor))
      ensures !old(isPlaying) ==> unchanged(Cells())
    {
      if !isPlaying {
        return;
      }
      isPlaying := false;
      ResetAllColumns();
      currentStep := 0;
    }

    /** Nothing without a grid; otherwise every cell gets the shading of its row. */
    method ResetAllColumns()
      requires grid != null ==> grid.Valid()
      modifies Cells()
      ensures grid != null ==>
        Repainted(grid.children, grid.rows, grid.columns, RowShade(grid.blackKeyRowColor, grid.whiteKeyRowColor))
    {
      if grid == null {
        return;
      }
      PaintGrid(grid.children, grid.rows, grid.columns, RowShade(grid.blackKeyRowColor, grid.whiteKeyRowColor));
    }

    /** Restore the row shading, then give column `columnIndex` the active colour. */
    method HighlightColumn(columnIndex: int)
      requires grid != null && grid.Valid() && 0 <= columnIndex < grid.columns
      modifies Cells()
      ensures Repainted(grid.children, grid.rows, grid.columns,
        Highlight(columnIndex, activeColumnColor, grid.blackKeyRowColor, grid.whiteKeyRowColor))
      ensures Highlighted(grid.children, grid.rows, grid.columns, columnIndex, activeColumnColor, grid.blackKeyRowColor, grid.whiteKeyRowColor)
    {
      var children, rows, columns := grid.children, grid.rows, grid.columns;
      PatternAt(children, |children|);
      ResetAllColumns();
      label Reset:
      PaintColumn(children, rows, columns, columnIndex, activeColumnColor);
      forall k | 0 <= k < |children| && children[k] != null && k < rows * columns && k % columns == columnIndex
        ensures children[k].View() == WithOffColor(old(children[k].View()), activeColumnColor)
      {
        WithOffColorTwice(old(children[k].View()), old@Reset(children[k].currentOffColor), activeColumnColor);
      }
      forall k | 0 <= k < |children|
        ensures StateAt(children, k) == old(StateAt(children, k))
      {
        if children[k] != null {
          assert children[k].View().isOn == old(children[k].View()).isOn;
        }
      }
      PatternAt(children, |children|);
      assert Pattern(children, |children|) == old(Pattern(children, |children|));
    }

    /** Start the clip of `row` on its audio source when `0 <= row < noteClips.Length`;
        any other row is ignored. The row's audio source must exist. */
    method PlayNote(row: int)
      requires 0 <= row < noteClipCount ==> row < audioSources.count
      modifies audioSources`played
      ensures audioSources.played == old(audioSources.played) + Accepted([row], noteClipCount)
    {
      assert Accepted([row], noteClipCount) == (if 0 <= row < noteClipCount then [row] else []);
      if row >= 0 && row < noteClipCount {
        audioSources.Play(row);
      }
    }

    /** Play the note of every row whose cell at `step` is on, in increasing row order. */
    method PlayStep(step: int)
      requires grid != null && grid.rows <= audioSources.count
      modifies audioSources`played
      ensures audioSources.played == old(audioSources.played)
        + Hits(old(Pattern(grid.children, |grid.children|)), Min(grid.rows, noteClipCount), grid.columns, step)
    {
      var children, rows, columns := grid.children, grid.rows, grid.columns;
      ghost var p := Pattern(children, |children|);
      PatternAt(children, |children|);
      ghost var log := audioSources.played;
      for row := 0 to rows
        invariant audioSources.played == log + Hits(p, Min(row, noteClipCount), columns, step)
      {
        var toggle := grid.GetToggleAt(row, step);
        var on := false;
        if toggle != null {
          on := toggle.GetState();
        }
        ghost var index := ChildIndex(row, step, columns);
        assert on <==> old(StateAt(children, index)) == Some(true);
        assert old(StateAt(children, index)) == At(p, index);
        HitsLog(log, p, row, columns, step, on, noteClipCount);
        if on {
          PlayNote(row);
        }
      }
    }

    /** One iteration of `PlaySequence`: highlight the current column, play its rows,
        advance the cursor. */
    method Tick()
      requires Valid() && isPlaying && grid.columns > 0
      modifies this`currentStep, Cells(), audioSources`played
      ensures Valid() && Status() == old(Status()).(step := Advance(old(currentStep), grid.columns))
      ensures Highlighted(grid.children, grid.rows, grid.columns, old(currentStep), activeColumnColor, grid.blackKeyRowColor, grid.whiteKeyRowColor)
      ensures audioSources.played == old(audioSources.played)
        + Hits(old(Pattern(grid.children, |grid.children|)), Min(grid.rows, noteClipCount), grid.columns, old(currentStep))
    {
      HighlightColumn(currentStep);
      assert Valid();
      label Lit:
      PlayStep(currentStep);
      assert unchanged@Lit(Cells());
      assert Valid();
      currentStep := (currentStep + 1) % grid.columns;
    }

    /** `ticks` iterations of the `while (isPlaying)` loop, or none when not playing. The
        cells' states do not change, so the notes are the schedule of the pattern the grid
        held at the start. */
    method PlaySequence(ticks: nat)
      requires Valid() && (isPlaying ==> grid.columns > 0)
      modifies this`currentStep, Cells(), audioSources`played
      ensures Valid()
      ensures !old(isPlaying) ==> Status() == old(Status()) && unchanged(Cells()) && audioSources.played == old(audioSources.played)
      ensures old(isPlaying) ==> Status() == old(Status()).(step := Cursor(old(currentStep), ticks, grid.columns))
      ensures old(isPlaying) ==>
        audioSources.played == old(audioSources.played)
          + Schedule(old(Pattern(grid.children, |grid.children|)), grid.rows, grid.columns, noteClipCount, old(currentStep), ticks)
      ensures old(isPlaying) ==> Pattern(grid.children, |grid.children|) == old(Pattern(grid.children, |grid.children|))
    {
      if !isPlaying {
        return;
      }
      ghost var children, rows, columns := grid.children, grid.rows, grid.columns;
      ghost var p0 := Pattern(children, |children|);
      ghost var start := currentStep;
      assert audioSources.played == audioSources.played + Schedule(p0, rows, columns, noteClipCount, start, 0);
      var i := 0;
      while isPlaying && i < ticks
        invariant 0 <= i <= ticks
        invariant Valid() && isPlaying && grid == old(grid) && grid.children == children
        invariant currentStep == Cursor(start, i, columns)
        invariant Pattern(children, |children|) == p0
        invariant audioSources.played == old(audioSources.played) + Schedule(p0, rows, columns, noteClipCount, start, i)
        decreases ticks - i
      {
        label Before:
        ghost var cursor := currentStep;
        assert Pattern(children, |children|) == p0;
        Tick();
        assert Pattern(children, |children|) == old@Before(Pattern(children, |children|));
        assert currentStep == Advance(cursor, columns) == Cursor(start, i + 1, columns);
        ScheduleLog(old(audioSources.played), p0, rows, columns, noteClipCount, start, i);
        i := i + 1;
      }
    }

    /** The BPM slider's listener; the step duration it recomputes is not modelled. */
    method UpdateBpm(newBpm: real)
      modifies this`bpm
      ensures bpm == newBpm
    {
      bpm := newBpm;
    }
  }
}
