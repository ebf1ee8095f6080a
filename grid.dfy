/** The bookkeeping both grid containers share (`ScrollableGrid` and `DrumMachineManager`):
    cells live in one flat, row-major child list of a panel, and cell `(row, step)` is
    child `row * columns + step` when that index exists. */
module Grid {
  import opened Common
  import opened CustomToggles

  /** The flat index `GetToggleAt` computes (ScrollableGrid.cs:237, DrumMachineManager.cs:85). */
  function ChildIndex(row: int, step: int, columns: int): int {
    row * columns + step
  }

  /** The bounds check of `GetToggleAt`: the child at `index`, or null outside `[0, childCount)`.
      A null child inside the range is a GameObject without a CustomToggle component. */
  function Lookup(children: seq<CustomToggle?>, index: int): CustomToggle? {
    if 0 <= index < |children| then children[index] else null
  }

  /** Every cell of the grid is a distinct child. */
  lemma ChildIndexInRange(row: int, step: int, rows: int, columns: int)
    requires 0 <= row < rows && 0 <= step < columns
    ensures 0 <= ChildIndex(row, step, columns) < rows * columns
  {
    MulAtLeast(rows - row, columns);
    assert (rows - row) * columns == rows * columns - row * columns;
  }

  lemma ChildIndexInjective(row1: int, step1: int, row2: int, step2: int, columns: int)
    requires 0 <= row1 && 0 <= row2 && 0 <= step1 < columns && 0 <= step2 < columns
    ensures ChildIndex(row1, step1, columns) == ChildIndex(row2, step2, columns) <==> row1 == row2 && step1 == step2
  {
    DivMod(row1, step1, columns);
    DivMod(row2, step2, columns);
  }

  /** Every child index below `rows * columns` is the cell `(k / columns, k % columns)`. */
  lemma ChildIndexCovers(k: int, rows: int, columns: int)
    requires 0 <= k < rows * columns && columns > 0
    ensures 0 <= k / columns < rows && 0 <= k % columns < columns
    ensures ChildIndex(k / columns, k % columns, columns) == k
  {
    Decompose(k, rows, columns);
  }

  /** `step` is not checked against `columns`: one past the last column of a row is the
      first cell of the next row. */
  lemma ChildIndexAlias(row: int, columns: int)
    ensures ChildIndex(row, columns, columns) == ChildIndex(row + 1, 0, columns)
  {
  }

  /** For `k >= 0`, the row `k / columns` is below `rows` exactly when `k < rows * columns`. */
  lemma {:induction false} QuotientBelow(k: int, rows: int, columns: int)
    requires 0 <= k && columns > 0
    ensures k / columns < rows <==> k < rows * columns
  {
    var q := k / columns;
    assert k == q * columns + k % columns;
    MulAtLeast(rows - q, columns);
    assert (rows - q) * columns == rows * columns - q * columns;
  }

  /** A toggle that a grid has just instantiated from `prefab` and initialised with
      `Initialize(_, isBlackKey)`; `caption`, when present, went to its text child. */
  twostate predicate Created(new t: CustomToggle, prefab: Prefab, isBlackKey: bool, caption: Option<string>)
    reads t
  {
    && fresh(t)
    && t.View() == Initialized(Fresh(prefab), isBlackKey)
    && t.hasText == prefab.hasText
    && t.text == (if prefab.hasText && caption.Some? then caption.value else prefab.text)
  }

  /** `Instantiate(prefab, panel)`, `GetComponent<CustomToggle>()` and, when there is a
      toggle, `Initialize` and the text assignment (ScrollableGrid.cs:139-161,
      DrumMachineManager.cs:48-67). The result is the child's toggle, or null. */
  method InstantiateCell(prefab: Prefab, rowIndex: int, isBlackKey: bool, caption: Option<string>) returns (cell: CustomToggle?)
    ensures (cell != null) == prefab.hasToggle
    ensures cell != null ==> Created(cell, prefab, isBlackKey, caption)
  {
    cell := null;
    if prefab.hasToggle {
      var toggle := new CustomToggle.Instantiate(prefab);
      toggle.Initialize(rowIndex, isBlackKey);
      if toggle.hasText && caption.Some? {
        toggle.text := caption.value;
      }
      cell := toggle;
    }
  }

  /** The toggles reachable from a child list. */
  ghost function Toggles(children: seq<CustomToggle?>): set<CustomToggle> {
    set t: CustomToggle | t in children
  }

  /** No toggle occupies two children (`Instantiate` always makes a new one). */
  ghost predicate Distinct(children: seq<CustomToggle?>) {
    forall i, j :: 0 <= i < |children| && 0 <= j < |children| && i != j && children[i] != null ==>
      children[i] != children[j]
  }

  /** The on/off state of child `k`, or None when there is no toggle there. */
  function StateAt(children: seq<CustomToggle?>, k: int): Option<bool>
    reads Toggles(children)
  {
    if 0 <= k < |children| && children[k] != null then Some(children[k].isOn) else None
  }

  /** The first `n` cells' states in row-major order: the pattern the scheduler plays and
      the snapshot codec stores. */
  function Pattern(children: seq<CustomToggle?>, n: nat): (p: seq<Option<bool>>)
    reads Toggles(children)
    ensures |p| == n
  {
    if n == 0 then [] else Pattern(children, n - 1) + [StateAt(children, n - 1)]
  }

  /** Cell `k` of the snapshot is the state of child `k`. */
  lemma {:induction false} PatternAt(children: seq<CustomToggle?>, n: nat)
    ensures forall k :: 0 <= k < n ==> Pattern(children, n)[k] == StateAt(children, k)
  {
    if n > 0 {
      PatternAt(children, n - 1);
    }
  }

  /** Every toggle of the list changed only by `SetDefaultOffColor(colour(row, col))` when it
      is cell `(row, col)` of the `rows` x `columns` grid, and not at all otherwise. */
  twostate predicate Repainted(children: seq<CustomToggle?>, rows: int, columns: int, colour: (int, int) -> Color)
    reads Toggles(children)
  {
    && (forall k :: 0 <= k < |children| && children[k] != null ==>
      children[k].View() ==
        (if k < rows * columns then WithOffColor(old(children[k].View()), colour(k / columns, k % columns))
         else old(children[k].View())))
    && (forall k :: 0 <= k < |children| && children[k] != null ==> children[k].text == old(children[k].text))
  }

  /** The cells of column `c` of the `rows` x `columns` grid hold off colour `lit`, every
      other cell `unlit`. */
  predicate ColumnLit(children: seq<CustomToggle?>, rows: int, columns: int, c: int, lit: Color, unlit: Color)
    reads Toggles(children)
  {
    forall k :: 0 <= k < |children| && children[k] != null && k < rows * columns ==>
      children[k].currentOffColor == (if k % columns == c then lit else unlit)
  }

  /** Every toggle of the list changed only by `SetState(target(k).value)` when `target(k)`
      is present, and not at all otherwise. */
  twostate predicate Restated(children: seq<CustomToggle?>, target: int -> Option<bool>)
    reads Toggles(children)
  {
    && (forall k :: 0 <= k < |children| && children[k] != null ==>
      children[k].View() ==
        (if target(k).Some? then WithState(old(children[k].View()), target(k).value) else old(children[k].View())))
    && (forall k :: 0 <= k < |children| && children[k] != null ==> children[k].text == old(children[k].text))
  }

  /** Give every cell `(row, col)` inside `rows` x `columns` the off colour `colour(row, col)`
      through `SetDefaultOffColor`, visiting them with the scripts' nested row/column loops
      (DrumController.cs:288-298, SequencerController.cs:164-175). Children past
      `rows * columns` are left alone. */
  method PaintGrid(children: seq<CustomToggle?>, rows: nat, columns: nat, colour: (int, int) -> Color)
    requires Distinct(children)
    modifies Toggles(children)
    ensures Repainted(children, rows, columns, colour)
  {
    for row := 0 to rows
      invariant forall k :: 0 <= k < |children| && children[k] != null ==>
        children[k].View() ==
          (if k < row * columns then WithOffColor(old(children[k].View()), colour(k / columns, k % columns))
           else old(children[k].View()))
      invariant forall k :: 0 <= k < |children| && children[k] != null ==> children[k].text == old(children[k].text)
    {
      for col := 0 to columns
        invariant forall k :: 0 <= k < |children| && children[k] != null ==>
          children[k].View() ==
            (if k < row * columns + col then WithOffColor(old(children[k].View()), colour(k / columns, k % columns))
             else old(children[k].View()))
        invariant forall k :: 0 <= k < |children| && children[k] != null ==> children[k].text == old(children[k].text)
      {
        var index := ChildIndex(row, col, columns);
        DivMod(row, col, columns);
        var toggle := Lookup(children, index);
        if toggle != null {
          toggle.SetDefaultOffColor(colour(row, col));
        }
      }
      assert row * columns + columns == (row + 1) * columns;
    }
  }

  /** A child in column `c` lies in the first `row + 1` rows exactly when it lies in the
      first `row` rows or is the cell `(row, c)`. */
  lemma ColumnStep(k: int, row: int, c: int, columns: int)
    requires 0 <= k && 0 <= row && 0 <= c < columns && k % columns == c
    ensures k < (row + 1) * columns <==> k < row * columns || k == ChildIndex(row, c, columns)
  {
    var q := k / columns;
    assert k == q * columns + c;
    QuotientBelow(k, row + 1, columns);
    QuotientBelow(k, row, columns);
    ChildIndexInjective(q, c, row, c, columns);
  }

  /** Give the cells of column `c` the off colour `color` (the second loop of
      `HighlightColumn`, DrumController.cs:273-280, SequencerController.cs:149-156). */
  method PaintColumn(children: seq<CustomToggle?>, rows: nat, columns: nat, c: int, color: Color)
    requires Distinct(children) && 0 <= c < columns
    modifies Toggles(children)
    ensures forall k :: 0 <= k < |children| && children[k] != null ==>
      children[k].View() ==
        (if k < rows * columns && k % columns == c then WithOffColor(old(children[k].View()), color)
         else old(children[k].View()))
    ensures forall k :: 0 <= k < |children| && children[k] != null ==> children[k].text == old(children[k].text)
  {
    for row := 0 to rows
      invariant forall k :: 0 <= k < |children| && children[k] != null ==>
        children[k].View() ==
          (if k < row * columns && k % columns == c then WithOffColor(old(children[k].View()), color)
           else old(children[k].View()))
      invariant forall k :: 0 <= k < |children| && children[k] != null ==> children[k].text == old(children[k].text)
    {
      var index := ChildIndex(row, c, columns);
      DivMod(row, c, columns);
      var toggle := Lookup(children, index);
      if toggle != null {
        toggle.SetDefaultOffColor(color);
      }
      forall k | 0 <= k < |children| && k % columns == c
        ensures k < (row + 1) * columns <==> k < row * columns || k == index
      {
        ColumnStep(k, row, c, columns);
      }
    }
  }
}
