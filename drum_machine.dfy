/** The drum machine's grid (`DrumMachineManager`): one row per drum track, `drumColumns`
    steps per row, all cells in one row-major child list of the drum panel. */
module DrumMachine {
  import opened Common
  import opened CustomToggles
  import opened Grid

  /** The default `drumTrackNames` of the inspector (DrumMachineManager.cs:17). */
  const DefaultTrackNames: seq<string> := ["Kick", "Snare", "Hi-Hat", "Clap", "Percussion"]

  /** The text a drum cell receives: the track name in column 0, nothing elsewhere. */
  function DrumCaption(trackNames: seq<string>, row: int, col: int): (c: Option<string>)
    ensures c.Some? <==> col == 0 && 0 <= row < |trackNames|
    ensures c.Some? ==> c.value == trackNames[row]
  {
    if col == 0 && 0 <= row < |trackNames| then Some(trackNames[row]) else None
  }

  class DrumMachineManager {
    const drumRows: nat
    const drumColumns: nat
    const drumTrackNames: seq<string>
    /** The children of `drumPanel`. */
    var children: seq<CustomToggle?>
    /** `drumScrollRect.verticalScrollbar.value`, or None when no ScrollRect is assigned. */
    var scrollPosition: Option<real>

    ghost predicate Valid()
      reads this
    {
      Distinct(children)
    }

    /** The inspector values and an empty drum panel (`CreateDrumGrid` before populating). */
    constructor (drumRows: nat, drumColumns: nat, drumTrackNames: seq<string>, scrollPosition: Option<real>)
      ensures Valid()
      ensures this.drumRows == drumRows && this.drumColumns == drumColumns
      ensures this.drumTrackNames == drumTrackNames && this.scrollPosition == scrollPosition
      ensures children == []
    {
      this.drumRows := drumRows;
      this.drumColumns := drumColumns;
      this.drumTrackNames := drumTrackNames;
      this.scrollPosition := scrollPosition;
      children := [];
    }

    /** One cell per track and step in row-major order, each initialised as a white-key
        row; only column 0 is labelled with the track name. Reading `drumTrackNames[row]`
        past the end of the array throws, which ends population after the rows that have
        a name: `completed` is false exactly then. */
    method PopulateDrumGrid(prefab: Prefab) returns (completed: bool)
      requires Valid()
      modifies this`children
      ensures Valid()
      ensures completed <==> drumRows <= |drumTrackNames|
      ensures |children| == |old(children)| + Min(drumRows, |drumTrackNames|) * drumColumns
      ensures children[..|old(children)|] == old(children)
      ensures forall k :: |old(children)| <= k < |children| ==>
        && (children[k] != null <==> prefab.hasToggle)
        && (children[k] != null ==> DrumCell(children[k], prefab, k - |old(children)|))
    {
      ghost var base := |children|;
      completed := true;
      for row := 0 to drumRows
        invariant Valid()
        invariant row <= |drumTrackNames|
        invariant |children| == base + row * drumColumns
        invariant children[..base] == old(children)
        invariant forall k :: base <= k < |children| ==>
          && (children[k] != null <==> prefab.hasToggle)
          && (children[k] != null ==> DrumCell(children[k], prefab, k - base))
      {
        if row >= |drumTrackNames| {
          completed := false;
          assert Min(drumRows, |drumTrackNames|) == row;
          return;
        }
        var trackName := drumTrackNames[row];
        for col := 0 to drumColumns
          invariant Valid()
          invariant |children| == base + row * drumColumns + col
          invariant children[..base] == old(children)
          invariant forall k :: base <= k < |children| ==>
            && (children[k] != null <==> prefab.hasToggle)
            && (children[k] != null ==> DrumCell(children[k], prefab, k - base))
        {
          var step := InstantiateCell(prefab, row, false, if col == 0 then Some(trackName) else None);
          DivMod(row, col, drumColumns);
          children := children + [step];
        }
        assert row * drumColumns + drumColumns == (row + 1) * drumColumns;
      }
    }

    /** A toggle as `PopulateDrumGrid` leaves the `n`-th cell it created. */
    twostate predicate DrumCell(new t: CustomToggle, prefab: Prefab, n: int)
      reads t
    {
      && drumColumns > 0
      && Created(t, prefab, false, DrumCaption(drumTrackNames, n / drumColumns, n % drumColumns))
    }

    /** `drumScrollRect.verticalScrollbar.value = value` when there is a ScrollRect. */
    method RestoreScrollPosition(value: real)
      modifies this`scrollPosition
      ensures scrollPosition == (if old(scrollPosition).Some? then Some(value) else None)
    {
      if scrollPosition.Some? {
        scrollPosition := Some(value);
      }
    }

    /** The toggle of drum track `row` at `step`, or null when the flat index is not a child. */
    function GetToggleAt(row: int, step: int): (t: CustomToggle?)
      reads this
      ensures t != null ==> t in children
      ensures 0 <= ChildIndex(row, step, drumColumns) < |children| ==> t == children[ChildIndex(row, step, drumColumns)]
      ensures !(0 <= ChildIndex(row, step, drumColumns) < |children|) ==> t == null
    {
      Lookup(children, ChildIndex(row, step, drumColumns))
    }
  }
}
