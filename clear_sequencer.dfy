/** The clear button of the melodic sequencer (`ClearSequencer`): every cell of the
    piano-roll grid is switched off. */
module Clearing {
  import opened Common
  import opened CustomToggles
  import opened Grid
  import opened Transport
  import opened Snapshot
  import opened PianoRoll

  /** The state the clearing loops write into child `k` of an `n`-cell grid, if any. */
  function ClearTarget(n: int): (int -> Option<bool>) {
    k => if 0 <= k < n then Some(false) else None
  }

  /** A snapshot after clearing: the same cells exist, and none of them is on. */
  function Cleared(p: seq<Option<bool>>): (r: seq<Option<bool>>)
    ensures SamePresence(r, p)
    ensures forall k :: 0 <= k < |r| ==> r[k] != Some(true)
  {
    seq(|p|, k requires 0 <= k < |p| => if p[k].Some? then Some(false) else None)
  }

  /** Clearing is the only way to switch every cell off without adding or removing one. */
  lemma ClearedUnique(p: seq<Option<bool>>, q: seq<Option<bool>>)
    requires SamePresence(q, p)
    requires forall k :: 0 <= k < |q| ==> q[k] != Some(true)
    ensures q == Cleared(p)
  {
    forall k | 0 <= k < |q|
      ensures q[k] == Cleared(p)[k]
    {
      assert Cleared(p)[k] == if p[k].Some? then Some(false) else None;
      if q[k].Some? {
        assert q[k] == Some(q[k].value) && q[k].value != true;
      }
    }
  }

  /** Clearing twice has the effect of clearing once. */
  lemma ClearedIdempotent(p: seq<Option<bool>>)
    ensures Cleared(Cleared(p)) == Cleared(p)
  {
    ClearedUnique(Cleared(p), Cleared(Cleared(p)));
  }

  /** A cleared grid triggers nothing at any step. */
  lemma {:induction false} ClearedHits(p: seq<Option<bool>>, rows: int, columns: int, step: int)
    ensures Hits(Cleared(p), rows, columns, step) == []
    decreases rows
  {
    if rows > 0 {
      ClearedHits(p, rows - 1, columns, step);
      var k := ChildIndex(rows - 1, step, columns);
      assert At(Cleared(p), k) != Some(true);
    }
  }

  /** Playing a cleared grid triggers nothing, however many ticks it runs. */
  lemma {:induction false} ClearedSchedule(p: seq<Option<bool>>, rows: int, columns: int, n: int, start: int, ticks: nat)
    requires columns > 0
    ensures Schedule(Cleared(p), rows, columns, n, start, ticks) == []
    decreases ticks
  {
    if ticks > 0 {
      ClearedHits(p, Min(rows, n), columns, start);
      ClearedSchedule(p, rows, columns, n, Advance(start, columns), ticks - 1);
    }
  }

  class ClearSequencer {
    var grid: ScrollableGrid?

    /** The toggles of the assigned grid. */
    ghost function Cells(): set<CustomToggle>
      reads this, grid
    {
      if grid == null then {} else Toggles(grid.children)
    }

    constructor (grid: ScrollableGrid?)
      ensures this.grid == grid
    {
      this.grid := grid;
    }

    /** Nothing happens without a grid (`modifies` is empty then). Otherwise every cell
        inside `rows` x `columns` that has a toggle is switched off with `SetState(false)`,
        and no child past `rows * columns` is touched. */
    method ClearAllCells()
      requires grid != null ==> grid.Valid()
      modifies Cells()
      ensures grid != null ==> Restated(grid.children, ClearTarget(grid.rows * grid.columns))
      ensures grid != null ==>
        Pattern(grid.children, grid.rows * grid.columns) == Cleared(old(Pattern(grid.children, grid.rows * grid.columns)))
    {
      if grid == null {
        return;
      }
      var children, rows, columns := grid.children, grid.rows, grid.columns;
      PatternAt(children, rows * columns);
      for row := 0 to rows
        invariant forall k :: 0 <= k < |children| && children[k] != null ==>
          children[k].View() ==
            (if k < row * columns then WithState(old(children[k].View()), false) else old(children[k].View()))
        invariant forall k :: 0 <= k < |children| && children[k] != null ==> children[k].text == old(children[k].text)
      {
        for col := 0 to columns
          invariant forall k :: 0 <= k < |children| && children[k] != null ==>
            children[k].View() ==
              (if k < row * columns + col then WithState(old(children[k].View()), false) else old(children[k].View()))
          invariant forall k :: 0 <= k < |children| && children[k] != null ==> children[k].text == old(children[k].text)
        {
          var toggle := grid.GetToggleAt(row, col);
          if toggle != null {
            toggle.SetState(false);
          }
        }
        assert row * columns + columns == (row + 1) * columns;
      }
      PatternAt(children, rows * columns);
      ghost var p := old(Pattern(children, rows * columns));
      forall k | 0 <= k < rows * columns
        ensures Pattern(children, rows * columns)[k] == Cleared(p)[k]
      {
        if 0 <= k < |children| && children[k] != null {
          assert !children[k].View().isOn;
        }
      }
    }
  }
}
