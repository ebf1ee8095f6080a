/** The melodic step sequencer's grid (`ScrollableGrid`): a piano panel with one key per
    row and a step panel holding `rows * columns` toggles in row-major order. Row 0 is the
    top of the screen and the highest pitch; the bottom row is C1. */
module PianoRoll {
  import opened Common
  import opened CustomToggles
  import opened Grid

  /** The default `pitchNames` of the inspector (ScrollableGrid.cs:18). */
  const PitchNames: seq<string> := ["C", "C#", "D", "D#", "E", "F", "F#", "G", "G#", "A", "A#", "B"]

  /** C#, D#, F#, G# and A# (ScrollableGrid.cs:223-227). */
  predicate IsBlackKey(pitchIndex: int) {
    pitchIndex == 1 || pitchIndex == 3 || pitchIndex == 6 || pitchIndex == 8 || pitchIndex == 10
  }

  /** The black keys are exactly the sharps among the twelve pitch names. */
  lemma BlackKeysAreSharps(p: int)
    requires 0 <= p < 12
    ensures IsBlackKey(p) <==> '#' in PitchNames[p]
  {
  }

  /** `reverseIndex`: visual row `i` is `rows - 1 - i` semitones above C1. */
  function Semitone(rows: int, i: int): int {
    rows - 1 - i
  }

  function PitchIndex(rows: int, i: int): int
    requires 0 <= i < rows
  {
    Semitone(rows, i) % 12
  }

  function Octave(rows: int, i: int): int
    requires 0 <= i < rows
  {
    1 + Semitone(rows, i) / 12
  }

  /** Row `i` carries pitch class `PitchIndex` of octave `Octave`, which together give back
      its semitone offset from C1. */
  lemma RowPitch(rows: int, i: int)
    requires 0 <= i < rows
    ensures 0 <= PitchIndex(rows, i) < 12 && Octave(rows, i) >= 1
    ensures (Octave(rows, i) - 1) * 12 + PitchIndex(rows, i) == Semitone(rows, i)
  {
  }

  /** Higher rows on screen are higher pitches, and no two rows share a pitch and octave. */
  lemma RowsDescend(rows: int, i: int, j: int)
    requires 0 <= i < j < rows
    ensures Semitone(rows, i) > Semitone(rows, j)
    ensures (PitchIndex(rows, i), Octave(rows, i)) != (PitchIndex(rows, j), Octave(rows, j))
  {
    DivMod(Semitone(rows, i) / 12, PitchIndex(rows, i), 12);
    DivMod(Semitone(rows, j) / 12, PitchIndex(rows, j), 12);
  }

  function Digit(d: int): (c: char)
    requires 0 <= d < 10
    ensures '0' <= c <= '9' && c as int - '0' as int == d
  {
    "0123456789"[d]
  }

  /** The number a string of decimal digits denotes, most significant digit first. */
  function DigitsValue(s: string): nat
    requires forall k :: 0 <= k < |s| ==> '0' <= s[k] <= '9'
  {
    if |s| == 0 then 0 else DigitsValue(s[..|s| - 1]) * 10 + (s[|s| - 1] as int - '0' as int)
  }

  /** Decimal rendering of a non-negative int, as string interpolation prints it. */
  function NatToString(n: nat): (s: string)
    ensures 1 <= |s|
    ensures forall k :: 0 <= k < |s| ==> '0' <= s[k] <= '9'
    ensures n < 10 <==> |s| == 1
    ensures DigitsValue(s) == n
  {
    if n < 10 then [Digit(n)] else
      var s := NatToString(n / 10) + [Digit(n % 10)];
      assert s[..|s| - 1] == NatToString(n / 10);
      s
  }

  /** Different octaves get different numerals. */
  lemma NatToStringInjective(a: nat, b: nat)
    ensures NatToString(a) == NatToString(b) <==> a == b
  {
    if NatToString(a) == NatToString(b) {
      assert DigitsValue(NatToString(a)) == DigitsValue(NatToString(b));
    }
  }

  /** The label of row `i`, e.g. "A#3" (ScrollableGrid.cs:98, 133). */
  function PitchLabel(rows: int, i: int): string
    requires 0 <= i < rows
  {
    RowPitch(rows, i);
    PitchNames[PitchIndex(rows, i)] + NatToString(Octave(rows, i))
  }

  /** The bottom row is C1; the row twelve rows above a row is the same pitch class one
      octave higher. */
  lemma LabelsFromBottom(rows: int, i: int)
    requires 0 <= i < rows
    ensures PitchLabel(rows, rows - 1) == "C1"
    ensures i >= 12 ==> PitchIndex(rows, i - 12) == PitchIndex(rows, i) && Octave(rows, i - 12) == Octave(rows, i) + 1
  {
    if i >= 12 {
      var s := Semitone(rows, i);
      DivMod(s / 12, s % 12, 12);
      DivMod(s / 12 + 1, s % 12, 12);
      assert Semitone(rows, i - 12) == (s / 12 + 1) * 12 + s % 12;
    }
  }

  /** A pitch name followed by a numeral splits in one way only: a name is one letter,
      with a second character exactly when it is a sharp, and no digit is a `'#'`. */
  lemma SplitLabel(a: string, x: string, b: string, y: string)
    requires 1 <= |a| <= 2 && (|a| == 2 <==> a[|a| - 1] == '#')
    requires 1 <= |b| <= 2 && (|b| == 2 <==> b[|b| - 1] == '#')
    requires 1 <= |x| && 1 <= |y|
    requires x[0] != '#' && y[0] != '#' && a[0] != '#' && b[0] != '#'
    requires a + x == b + y
    ensures a == b && x == y
  {
    var l := a + x;
    assert |a| == 2 <==> l[1] == '#';
    assert |b| == 2 <==> l[1] == '#';
    assert a == l[..|a|] && b == l[..|b|];
    assert x == l[|a|..] && y == l[|b|..];
  }

  /** Each pitch name is a letter, followed by `'#'` for a sharp; no two names are equal. */
  lemma PitchNameShape(p: int, q: int)
    requires 0 <= p < 12 && 0 <= q < 12
    ensures 1 <= |PitchNames[p]| <= 2 && PitchNames[p][0] != '#'
    ensures |PitchNames[p]| == 2 <==> PitchNames[p][|PitchNames[p]| - 1] == '#'
    ensures PitchNames[p] == PitchNames[q] ==> p == q
  {
  }

  /** A row's label gives back its pitch index and its octave. */
  lemma LabelDeterminesPitch(rows: int, i: int, j: int)
    requires 0 <= i < rows && 0 <= j < rows
    requires PitchLabel(rows, i) == PitchLabel(rows, j)
    ensures PitchIndex(rows, i) == PitchIndex(rows, j) && Octave(rows, i) == Octave(rows, j)
  {
    RowPitch(rows, i);
    RowPitch(rows, j);
    var p, q := PitchIndex(rows, i), PitchIndex(rows, j);
    PitchNameShape(p, q);
    PitchNameShape(q, p);
    SplitLabel(PitchNames[p], NatToString(Octave(rows, i)), PitchNames[q], NatToString(Octave(rows, j)));
    NatToStringInjective(Octave(rows, i), Octave(rows, j));
  }

  /** No two rows carry the same label. */
  lemma LabelsDistinct(rows: int, i: int, j: int)
    requires 0 <= i < rows && 0 <= j < rows
    ensures PitchLabel(rows, i) == PitchLabel(rows, j) <==> i == j
  {
    if PitchLabel(rows, i) == PitchLabel(rows, j) {
      LabelDeterminesPitch(rows, i, j);
      if i < j {
        RowsDescend(rows, i, j);
      } else if j < i {
        RowsDescend(rows, j, i);
      }
    }
  }

  /** The components of the piano-key prefab that `PopulatePianoPanel` looks up: a
      `TMP_Text` child, an `Image` and a `Button`. */
  datatype KeyPrefab = KeyPrefab(hasText: bool, hasImage: bool, hasButton: bool)

  /** One key of the piano panel: its label, None without a text child, and its styling,
      None when the key lacks an Image or a Button, otherwise whether it is styled as a
      black key (button and label colours). */
  datatype PianoKey = PianoKey(text: Option<string>, shade: Option<bool>)

  /** The keys `PopulatePianoPanel` creates from `prefab`, top to bottom. */
  function PianoKeys(rows: nat, prefab: KeyPrefab): (keys: seq<PianoKey>)
    ensures |keys| == rows
  {
    seq(rows, i requires 0 <= i < rows =>
      PianoKey(if prefab.hasText then Some(PitchLabel(rows, i)) else None,
               if prefab.hasImage && prefab.hasButton then Some(IsBlackKey(PitchIndex(rows, i))) else None))
  }

  /** A key is labelled exactly when the prefab has a text child, and no two labels agree;
      it is styled exactly when the prefab has an Image and a Button, black exactly on the
      sharps, with a period of twelve rows; the bottom label is C1. */
  lemma PianoKeysShading(rows: nat, prefab: KeyPrefab)
    ensures forall i :: 0 <= i < rows ==> (PianoKeys(rows, prefab)[i].text.Some? <==> prefab.hasText)
    ensures forall i, j :: 0 <= i < rows && 0 <= j < rows && PianoKeys(rows, prefab)[i].text.Some? ==>
      (PianoKeys(rows, prefab)[i].text == PianoKeys(rows, prefab)[j].text <==> i == j)
    ensures forall i :: 0 <= i < rows ==> (PianoKeys(rows, prefab)[i].shade.Some? <==> prefab.hasImage && prefab.hasButton)
    ensures forall i :: 0 <= i < rows ==>
      (PianoKeys(rows, prefab)[i].shade == Some(true) <==> prefab.hasImage && prefab.hasButton && '#' in PitchNames[PitchIndex(rows, i)])
    ensures forall i :: 12 <= i < rows ==> PianoKeys(rows, prefab)[i - 12].shade == PianoKeys(rows, prefab)[i].shade
    ensures rows > 0 && prefab.hasText ==> PianoKeys(rows, prefab)[rows - 1].text == Some("C1")
  {
    forall i | 0 <= i < rows
      ensures 0 <= PitchIndex(rows, i) < 12
      ensures IsBlackKey(PitchIndex(rows, i)) <==> '#' in PitchNames[PitchIndex(rows, i)]
      ensures i >= 12 ==> PitchIndex(rows, i - 12) == PitchIndex(rows, i)
    {
      RowPitch(rows, i);
      BlackKeysAreSharps(PitchIndex(rows, i));
      LabelsFromBottom(rows, i);
    }
    forall i, j | 0 <= i < rows && 0 <= j < rows && prefab.hasText
      ensures PitchLabel(rows, i) == PitchLabel(rows, j) <==> i == j
    {
      LabelsDistinct(rows, i, j);
    }
    if rows > 0 {
      LabelsFromBottom(rows, rows - 1);
      assert PianoKeys(rows, prefab)[rows - 1].text == if prefab.hasText then Some(PitchLabel(rows, rows - 1)) else None;
    }
  }

  class ScrollableGrid {
    const rows: nat
    const columns: nat
    const blackKeyRowColor: Color
    const whiteKeyRowColor: Color
    /** The children of `stepPanel`. */
    var children: seq<CustomToggle?>
    /** The children of `pianoPanel`. */
    var pianoKeys: seq<PianoKey>

    ghost predicate Valid()
      reads this
    {
      Distinct(children)
    }

    /** The inspector values, then `CreatePanels`: both panels exist and are empty. */
    constructor (rows: nat, columns: nat, blackKeyRowColor: Color, whiteKeyRowColor: Color)
      ensures Valid()
      ensures this.rows == rows && this.columns == columns
      ensures this.blackKeyRowColor == blackKeyRowColor && this.whiteKeyRowColor == whiteKeyRowColor
      ensures children == [] && pianoKeys == []
    {
      this.rows := rows;
      this.columns := columns;
      this.blackKeyRowColor := blackKeyRowColor;
      this.whiteKeyRowColor := whiteKeyRowColor;
      children := [];
      pianoKeys := [];
    }

    /** One key per row, top to bottom: labelled when the prefab has a text child, and
        styled black or white by its pitch when it has both an Image and a Button. */
    method PopulatePianoPanel(prefab: KeyPrefab)
      modifies this`pianoKeys
      ensures pianoKeys == old(pianoKeys) + PianoKeys(rows, prefab)
    {
      for i := 0 to rows
        invariant pianoKeys == old(pianoKeys) + PianoKeys(rows, prefab)[..i]
      {
        RowPitch(rows, i);
        var pitchIndex := PitchIndex(rows, i);
        var octave := Octave(rows, i);
        var text := None;
        if prefab.hasText {
          text := Some(PitchNames[pitchIndex] + NatToString(octave));
        }
        var shade := None;
        if prefab.hasImage && prefab.hasButton {
          shade := Some(IsBlackKey(pitchIndex));
        }
        var key := PianoKey(text, shade);
        assert PianoKeys(rows, prefab)[..i + 1] == PianoKeys(rows, prefab)[..i] + [key];
        pianoKeys := pianoKeys + [key];
      }
    }

    /** Instantiate one toggle per cell, row by row; each is initialised with its row's
        black-key flag and, when it has a text child, labelled with the row's pitch name. */
    method PopulateStepPanel(prefab: Prefab)
      requires Valid()
      modifies this`children
      ensures Valid()
      ensures |children| == |old(children)| + rows * columns
      ensures children[..|old(children)|] == old(children)
      ensures forall k :: |old(children)| <= k < |children| ==>
        && (children[k] != null <==> prefab.hasToggle)
        && (children[k] != null ==> StepCell(children[k], prefab, (k - |old(children)|) / columns))
    {
      ghost var base := |children|;
      for i := 0 to rows
        invariant Valid()
        invariant |children| == base + i * columns
        invariant children[..base] == old(children)
        invariant forall k :: base <= k < |children| ==>
          && (children[k] != null <==> prefab.hasToggle)
          && (children[k] != null ==> StepCell(children[k], prefab, (k - base) / columns))
      {
        RowPitch(rows, i);
        var pitchIndex := PitchIndex(rows, i);
        var octave := Octave(rows, i);
        var pitchName := PitchNames[pitchIndex] + NatToString(octave);
        var isBlackKey := IsBlackKey(pitchIndex);
        for j := 0 to columns
          invariant Valid()
          invariant |children| == base + i * columns + j
          invariant children[..base] == old(children)
          invariant forall k :: base <= k < |children| ==>
            && (children[k] != null <==> prefab.hasToggle)
            && (children[k] != null ==> StepCell(children[k], prefab, (k - base) / columns))
        {
          var step := InstantiateCell(prefab, Semitone(rows, i), isBlackKey, Some(pitchName));
          DivMod(i, j, columns);
          children := children + [step];
        }
        assert i * columns + columns == (i + 1) * columns;
      }
    }

    /** A toggle as `PopulateStepPanel` leaves the cell of visual row `row`. */
    twostate predicate StepCell(new t: CustomToggle, prefab: Prefab, row: int)
      reads t
    {
      && 0 <= row < rows
      && Created(t, prefab, IsBlackKey(PitchIndex(rows, row)), Some(PitchLabel(rows, row)))
    }

    /** The toggle of cell `(row, step)`, or null when the flat index is not a child. */
    function GetToggleAt(row: int, step: int): (t: CustomToggle?)
      reads this
      ensures t != null ==> t in children
      ensures 0 <= ChildIndex(row, step, columns) < |children| ==> t == children[ChildIndex(row, step, columns)]
      ensures !(0 <= ChildIndex(row, step, columns) < |children|) ==> t == null
    {
      Lookup(children, ChildIndex(row, step, columns))
    }
  }
}
