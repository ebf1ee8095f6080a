/** The drum sequencer (`DrumController`): the transport over the drum grid, one tick per
    step that highlights the current column and sends every lit row to the drum sampler,
    and the save/load of the grid as a `gridState` string. */
module DrumSequencer {
  import opened Common
  import opened CustomToggles
  import opened Grid
  import opened Transport
  import opened Snapshot
  import opened DrumMachine
  import opened DrumSamplers

  /** The off colours `ResetAllColumns` gives every cell. */
  function AllWhite(): (int, int) -> Color {
    (row, col) => White
  }

  /** The off colours `HighlightColumn(c)` leaves: `active` in column `c`, white elsewhere. */
  function Highlight(c: int, active: Color): (int, int) -> Color {
    (row, col) => if col == c then active else White
  }

  class DrumController {
    const drumSampler: DrumSampler?
    const activeColumnColor: Color
    var bpm: real
    var isPlaying: bool
    var isInitialized: bool
    var drumGrid: DrumMachineManager?
    var currentStep: int

    /** The grid is found exactly when initialization finished; only an initialized
        sequencer plays; the cursor is 0 or inside the grid's columns. */
    ghost predicate Valid()
      reads this, drumGrid
    {
      && (isInitialized <==> drumGrid != null)
      && (isPlaying ==> isInitialized)
      && 0 <= currentStep
      && (drumGrid == null ==> currentStep == 0)
      && (drumGrid != null ==> drumGrid.Valid() && (currentStep == 0 || currentStep < drumGrid.drumColumns))
    }

    function Status(): State
      reads this
    {
      State(isInitialized, isPlaying, currentStep)
    }

    /** The toggles of the drum grid, once it is found. */
    ghost function Cells(): set<CustomToggle>
      reads this, drumGrid
    {
      if drumGrid == null then {} else Toggles(drumGrid.children)
    }

    /** The inspector values: 120 BPM, not initialized, not playing, at step 0. */
    constructor (drumSampler: DrumSampler?, activeColumnColor: Color)
      ensures Valid() && Status() == State(false, false, 0)
      ensures bpm == 120.0 && drumGrid == null
      ensures this.drumSampler == drumSampler && this.activeColumnColor == activeColumnColor
    {
      this.drumSampler := drumSampler;
      this.activeColumnColor := activeColumnColor;
      bpm := 120.0;
      isPlaying := false;
      isInitialized := false;
      drumGrid := null;
      currentStep := 0;
    }

    /** The polling loop ends once a grid is assigned (`found` is the grid the tag lookup
        finally returns); then the sequencer is initialized. */
    method WaitForGridInitialization(found: DrumMachineManager)
      requires Valid() && found.Valid()
      modifies this`drumGrid, this`isInitialized
      ensures Valid() && isInitialized
      ensures drumGrid == (if old(drumGrid) == null then found else old(drumGrid))
    {
      if drumGrid == null {
        drumGrid := found;
      }
      isInitialized := true;
    }

    method Play()
      requires Valid()
      modifies this`isPlaying, this`currentStep
      ensures Valid() && Status() == Played(old(Status()))
    {
      if !isInitialized {
        return;
      }
      if isPlaying {
        return;
      }
      isPlaying := true;
      currentStep := 0;
    }

    /** When playing: stop, repaint every cell white and rewind. Otherwise nothing changes. */
    method Stop()
      requires Valid()
      modifies this`isPlaying, this`currentStep, Cells()
      ensures Valid() && Status() == Stopped(old(Status()))
      ensures old(isPlaying) ==> Repainted(drumGrid.children, drumGrid.drumRows, drumGrid.drumColumns, AllWhite())
      ensures !old(isPlaying) ==> unchanged(Cells())
    {
      if !isPlaying {
        return;
      }
      isPlaying := false;
      ResetAllColumns();
      currentStep := 0;
    }

    method ResetAllColumns()
      requires Valid()
      modifies Cells()
      ensures drumGrid != null ==> Repainted(drumGrid.children, drumGrid.drumRows, drumGrid.drumColumns, AllWhite())
    {
      if drumGrid == null {
        return;
      }
      PaintGrid(drumGrid.children, drumGrid.drumRows, drumGrid.drumColumns, AllWhite());
    }

    /** Reset every cell to white, then give column `columnIndex` the active colour. */
    method HighlightColumn(columnIndex: int)
      requires Valid() && drumGrid != null && 0 <= columnIndex < drumGrid.drumColumns
      modifies Cells()
      ensures Repainted(drumGrid.children, drumGrid.drumRows, drumGrid.drumColumns, Highlight(columnIndex, activeColumnColor))
      ensures ColumnLit(drumGrid.children, drumGrid.drumRows, drumGrid.drumColumns, columnIndex, activeColumnColor, White)
      ensures Pattern(drumGrid.children, |drumGrid.children|) == old(Pattern(drumGrid.children, |drumGrid.children|))
    {
      var children, rows, columns := drumGrid.children, drumGrid.drumRows, drumGrid.drumColumns;
      PatternAt(children, |children|);
      ResetAllColumns();
      label Reset:
      PaintColumn(children, rows, columns, columnIndex, activeColumnColor);
      forall k | 0 <= k < |children| && children[k] != null && k < rows * columns && k % columns == columnIndex
        ensures children[k].View() == WithOffColor(old(children[k].View()), activeColumnColor)
      {
        WithOffColorTwice(old(children[k].View()), White, activeColumnColor);
      }
      forall k | 0 <= k < |children|
        ensures StateAt(children, k) == old(StateAt(children, k))
      {
        if children[k] != null {
          assert children[k].View().isOn == old(children[k].View()).isOn;
        }
      }
      PatternAt(children, |children|);
      assert Pattern(children, |children|) == old(Pattern(children, |children|));
    }

    method PlayDrumSample(row: int)
      modifies drumSampler
      ensures drumSampler != null ==> drumSampler.played == old(drumSampler.played) + Accepted([row], drumSampler.sourceCount)
    {
      if drumSampler == null {
        return;
      }
      drumSampler.PlayDrum(row);
      assert Accepted([row], drumSampler.sourceCount) == (if 0 <= row < drumSampler.sourceCount then [row] else []);
    }

    /** Trigger every drum row whose cell at `step` is on, in increasing row order. */
    method PlayStep(step: int)
      requires drumGrid != null
      modifies drumSampler
      ensures drumSampler != null ==>
        drumSampler.played == old(drumSampler.played)
          + Hits(old(Pattern(drumGrid.children, |drumGrid.children|)), Min(drumGrid.drumRows, drumSampler.sourceCount), drumGrid.drumColumns, step)
    {
      var children, rows, columns := drumGrid.children, drumGrid.drumRows, drumGrid.drumColumns;
      ghost var p := Pattern(children, |children|);
      PatternAt(children, |children|);
      ghost var n := if drumSampler != null then drumSampler.sourceCount else 0;
      ghost var log := if drumSampler != null then drumSampler.played else [];
      for row := 0 to rows
        invariant drumSampler != null ==> drumSampler.played == log + Hits(p, Min(row, n), columns, step)
      {
        var toggle := drumGrid.GetToggleAt(row, step);
        var on := false;
        if toggle != null {
          on := toggle.GetState();
        }
        ghost var index := ChildIndex(row, step, columns);
        assert on <==> old(StateAt(children, index)) == Some(true);
        assert old(StateAt(children, index)) == At(p, index);
        HitsLog(log, p, row, columns, step, on, n);
        if on {
          PlayDrumSample(row);
        }
      }
    }

    /** One iteration of `PlaySequence`: highlight the current column, trigger its rows,
        advance the cursor. */
    method Tick()
      requires Valid() && isPlaying && drumGrid.drumColumns > 0
      modifies this`currentStep, Cells(), drumSampler
      ensures Valid() && Status() == old(Status()).(step := Advance(old(currentStep), drumGrid.drumColumns))
      ensures Repainted(drumGrid.children, drumGrid.drumRows, drumGrid.drumColumns, Highlight(old(currentStep), activeColumnColor))
      ensures ColumnLit(drumGrid.children, drumGrid.drumRows, drumGrid.drumColumns, old(currentStep), activeColumnColor, White)
      ensures Pattern(drumGrid.children, |drumGrid.children|) == old(Pattern(drumGrid.children, |drumGrid.children|))
      ensures drumSampler != null ==>
        drumSampler.played == old(drumSampler.played)
          + Hits(old(Pattern(drumGrid.children, |drumGrid.children|)), Min(drumGrid.drumRows, drumSampler.sourceCount), drumGrid.drumColumns, old(currentStep))
    {
      HighlightColumn(currentStep);
      label Lit:
      PlayStep(currentStep);
      assert unchanged@Lit(Cells());
      currentStep := (currentStep + 1) % drumGrid.drumColumns;
    }

    /** `ticks` iterations of the `while (isPlaying)` loop, or none when not playing. The
        cells' states do not change, so the triggers are the schedule of the pattern the
        grid held at the start, and the last highlighted column stays highlighted. */
    method PlaySequence(ticks: nat)
      requires Valid() && (isPlaying ==> drumGrid.drumColumns > 0)
      modifies this`currentStep, Cells(), drumSampler
      ensures Valid()
      ensures !old(isPlaying) ==> Status() == old(Status()) && unchanged(Cells()) && (drumSampler != null ==> unchanged(drumSampler))
      ensures old(isPlaying) ==> Status() == old(Status()).(step := Cursor(old(currentStep), ticks, drumGrid.drumColumns))
      ensures old(isPlaying) && drumSampler != null ==>
        drumSampler.played == old(drumSampler.played)
          + Schedule(old(Pattern(drumGrid.children, |drumGrid.children|)), drumGrid.drumRows, drumGrid.drumColumns,
                     drumSampler.sourceCount, old(currentStep), ticks)
      ensures old(isPlaying) ==> Pattern(drumGrid.children, |drumGrid.children|) == old(Pattern(drumGrid.children, |drumGrid.children|))
      ensures old(isPlaying) && ticks > 0 ==> ColumnLit(drumGrid.children, drumGrid.drumRows, drumGrid.drumColumns,
        Cursor(old(currentStep), ticks - 1, drumGrid.drumColumns), activeColumnColor, White)
    {
      if !isPlaying {
        return;
      }
      ghost var children, rows, columns := drumGrid.children, drumGrid.drumRows, drumGrid.drumColumns;
      ghost var p0 := Pattern(children, |children|);
      ghost var start := currentStep;
      ghost var n := if drumSampler != null then drumSampler.sourceCount else 0;
      assert drumSampler != null ==> drumSampler.played == drumSampler.played + Schedule(p0, rows, columns, n, start, 0);
      var i := 0;
      while isPlaying && i < ticks
        invariant 0 <= i <= ticks
        invariant Valid() && isPlaying && drumGrid == old(drumGrid) && drumGrid.children == children
        invariant currentStep == Cursor(start, i, columns)
        invariant Pattern(children, |children|) == p0
        invariant drumSampler != null ==> drumSampler.played == old(drumSampler.played) + Schedule(p0, rows, columns, n, start, i)
        invariant i > 0 ==> ColumnLit(children, rows, columns, Cursor(start, i - 1, columns), activeColumnColor, White)
        decreases ticks - i
      {
        label Before:
        ghost var cursor := currentStep;
        assert Pattern(children, |children|) == p0;
        Tick();
        assert Pattern(children, |children|) == old@Before(Pattern(children, |children|));
        assert currentStep == Advance(cursor, columns) == Cursor(start, i + 1, columns);
        if drumSampler != null {
          ScheduleLog(old(drumSampler.played), p0, rows, columns, n, start, i);
        }
        i := i + 1;
      }
    }

    /** Nothing is written before initialization; otherwise the record holds the tempo, the
        encoded snapshot of the `drumRows * drumColumns` cells and the scroll position
        (0 without a ScrollRect). */
    method SaveData() returns (data: Option<DrumSequencerData>)
      requires Valid()
      ensures !isInitialized ==> data == None
      ensures isInitialized ==> data == Some(DrumSequencerData(bpm,
        Encode(Pattern(drumGrid.children, drumGrid.drumRows * drumGrid.drumColumns)),
        if drumGrid.scrollPosition.Some? then drumGrid.scrollPosition.value else 0.0))
    {
      if !isInitialized {
        return None;
      }
      var children, rows, columns := drumGrid.children, drumGrid.drumRows, drumGrid.drumColumns;
      var gridState := "";
      for row := 0 to rows
        invariant |gridState| == row * columns
        invariant forall k :: 0 <= k < |gridState| ==>
          (gridState[k] == '0' || gridState[k] == '1') && (gridState[k] == '1' <==> StateAt(children, k) == Some(true))
      {
        for col := 0 to columns
          invariant |gridState| == row * columns + col
          invariant forall k :: 0 <= k < |gridState| ==>
            (gridState[k] == '0' || gridState[k] == '1') && (gridState[k] == '1' <==> StateAt(children, k) == Some(true))
        {
          var toggle := drumGrid.GetToggleAt(row, col);
          var on := false;
          if toggle != null {
            on := toggle.GetState();
          }
          gridState := gridState + (if on then "1" else "0");
        }
        assert row * columns + columns == (row + 1) * columns;
      }
      PatternAt(children, rows * columns);
      EncodeUnique(gridState, Pattern(children, rows * columns));
      var scrollPosition := if drumGrid.scrollPosition.Some? then drumGrid.scrollPosition.value else 0.0;
      data := Some(DrumSequencerData(bpm, gridState, scrollPosition));
    }

    /** The grid-state block of both loaders: a non-empty `gridState` is decoded into the
        cells, the `index`-th cell in row-major order taking `gridState[index] == '1'`
        while `index` is below the string's length. */
    static method ApplyGridState(children: seq<CustomToggle?>, rows: nat, columns: nat, gridState: string)
      requires Distinct(children)
      modifies Toggles(children)
      ensures Restated(children, DecodeTarget(gridState, rows * columns))
      ensures Pattern(children, rows * columns) == Decode(gridState, old(Pattern(children, rows * columns)))
    {
      ghost var n := rows * columns;
      PatternAt(children, n);
      if gridState == "" {
        DecodeEmpty(Pattern(children, n));
        return;
      }
      DecodeLoops(children, rows, columns, gridState);
      ghost var p := old(Pattern(children, n));
      PatternAt(children, n);
      forall k | 0 <= k < n
        ensures Pattern(children, n)[k] == Decode(gridState, p)[k]
      {
        if 0 <= k < |children| && children[k] != null {
          assert children[k].View().isOn ==
            (if k < |gridState| then gridState[k] == '1' else old(children[k].View()).isOn);
        }
      }
    }

    /** The two loops of the grid-state block. */
    static method DecodeLoops(children: seq<CustomToggle?>, rows: nat, columns: nat, gridState: string)
      requires Distinct(children)
      modifies Toggles(children)
      ensures Restated(children, DecodeTarget(gridState, rows * columns))
    {
      var index := 0;
      for row := 0 to rows
        invariant index == Min(row * columns, |gridState|)
        invariant forall k :: 0 <= k < |children| && children[k] != null ==>
          children[k].View() ==
            (if k < row * columns && k < |gridState| then WithState(old(children[k].View()), gridState[k] == '1')
             else old(children[k].View()))
        invariant forall k :: 0 <= k < |children| && children[k] != null ==> children[k].text == old(children[k].text)
      {
        for col := 0 to columns
          invariant index == Min(row * columns + col, |gridState|)
          invariant forall k :: 0 <= k < |children| && children[k] != null ==>
            children[k].View() ==
              (if k < row * columns + col && k < |gridState| then WithState(old(children[k].View()), gridState[k] == '1')
               else old(children[k].View()))
          invariant forall k :: 0 <= k < |children| && children[k] != null ==> children[k].text == old(children[k].text)
        {
          if index < |gridState| {
            var toggle := Lookup(children, ChildIndex(row, col, columns));
            if toggle != null {
              toggle.SetState(gridState[index] == '1');
            }
            index := index + 1;
          }
        }
        assert row * columns + columns == (row + 1) * columns;
      }
    }

    /** `LoadDrumSequencerState` after the file was read and parsed: nothing happens
        without a record; otherwise a positive stored tempo replaces the current one, a
        non-empty `gridState` is decoded into the grid, and the scroll position is
        restored when the grid has a ScrollRect. */
    method LoadSnapshot(data: Option<DrumSequencerData>)
      requires Valid() && (data.Some? ==> isInitialized)
      modifies this`bpm, Cells(), drumGrid
      ensures Valid() && Status() == old(Status())
      ensures drumGrid != null ==> drumGrid.children == old(drumGrid.children)
      ensures data.None? ==> bpm == old(bpm) && unchanged(Cells()) && (drumGrid != null ==> unchanged(drumGrid))
      ensures data.Some? ==> bpm == LoadedBpm(old(bpm), data.value.bpm)
      ensures data.Some? ==> Restated(drumGrid.children, DecodeTarget(data.value.gridState, drumGrid.drumRows * drumGrid.drumColumns))
      ensures data.Some? ==>
        Pattern(drumGrid.children, drumGrid.drumRows * drumGrid.drumColumns)
          == Decode(data.value.gridState, old(Pattern(drumGrid.children, drumGrid.drumRows * drumGrid.drumColumns)))
      ensures data.Some? ==>
        drumGrid.scrollPosition == (if old(drumGrid.scrollPosition).Some? then Some(data.value.scrollPosition) else None)
    {
      if data.None? {
        return;
      }
      var d := data.value;
      if d.bpm > 0.0 {
        bpm := d.bpm;
      }
      ApplyGridState(drumGrid.children, drumGrid.drumRows, drumGrid.drumColumns, d.gridState);
      label Decoded:
      drumGrid.RestoreScrollPosition(d.scrollPosition);
      assert unchanged@Decoded(Cells());
    }

    /** The BPM slider's listener; the step duration and BPM label it refreshes are not
        modelled. */
    method UpdateBpm(newBpm: real)
      modifies this`bpm
      ensures bpm == newBpm
    {
      bpm := newBpm;
    }
  }
}
