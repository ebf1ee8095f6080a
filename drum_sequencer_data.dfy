/** The drum sequencer's save record (`DrumSequencerData`) and the `gridState` string that
    stores a row-major snapshot of the drum grid: `'1'` for a cell that exists and is on,
    `'0'` otherwise. Floats are modelled as reals. */
module Snapshot {
  import opened Common

  /** The three fields the constructor stores verbatim (DrumSequencerData.cs:4-17). */
  datatype DrumSequencerData = DrumSequencerData(bpm: real, gridState: string, scrollPosition: real)

  /** `toggle != null && toggle.GetState() ? "1" : "0"` for every cell of a snapshot. */
  function Encode(p: seq<Option<bool>>): (gs: string)
    ensures |gs| == |p|
    ensures forall k :: 0 <= k < |p| ==> (gs[k] == '1' <==> p[k] == Some(true))
    ensures forall k :: 0 <= k < |p| ==> gs[k] == '0' || gs[k] == '1'
  {
    if p == [] then "" else Encode(p[..|p| - 1]) + (if p[|p| - 1] == Some(true) then "1" else "0")
  }

  /** A string of `'0'`s and `'1'`s with a `'1'` exactly at the cells that are on is the
      encoding of the snapshot. */
  lemma EncodeUnique(gs: string, p: seq<Option<bool>>)
    requires |gs| == |p|
    requires forall k :: 0 <= k < |p| ==> (gs[k] == '0' || gs[k] == '1') && (gs[k] == '1' <==> p[k] == Some(true))
    ensures gs == Encode(p)
  {
  }

  /** The decoding loops: cell `k` that has a toggle takes `gridState[k] == '1'` while `k`
      is below the string's length; cells without a toggle and cells past the end keep
      their state. */
  function Decode(gridState: string, p: seq<Option<bool>>): (r: seq<Option<bool>>)
    ensures |r| == |p|
  {
    seq(|p|, k requires 0 <= k < |p| =>
      if k < |gridState| && p[k].Some? then Some(gridState[k] == '1') else p[k])
  }

  /** The state the decoding loops write into child `k` of an `n`-cell grid, if any. */
  function DecodeTarget(gridState: string, n: int): (int -> Option<bool>) {
    k => if 0 <= k < n && k < |gridState| then Some(gridState[k] == '1') else None
  }

  /** Both cells exist or both do not. */
  predicate SamePresence(p: seq<Option<bool>>, q: seq<Option<bool>>) {
    |p| == |q| && forall k :: 0 <= k < |p| ==> (p[k].Some? <==> q[k].Some?)
  }

  /** Decoding never creates or removes a toggle. */
  lemma DecodeKeepsPresence(gridState: string, p: seq<Option<bool>>)
    ensures SamePresence(Decode(gridState, p), p)
  {
  }

  /** Decoding an encoded snapshot into a grid with the same toggles reproduces it. */
  lemma RoundTrip(p: seq<Option<bool>>, q: seq<Option<bool>>)
    requires SamePresence(p, q)
    ensures Decode(Encode(p), q) == p
  {
    var r := Decode(Encode(p), q);
    forall k | 0 <= k < |p|
      ensures r[k] == p[k]
    {
      if p[k].Some? {
        assert Encode(p)[k] == '1' <==> p[k].value;
      }
    }
  }

  /** An empty string leaves the grid as it was. */
  lemma DecodeEmpty(p: seq<Option<bool>>)
    ensures Decode("", p) == p
  {
  }

  /** Cells at or past the string's end are untouched; cells before it with a toggle take
      the stored character. */
  lemma DecodeCells(gridState: string, p: seq<Option<bool>>, k: int)
    requires 0 <= k < |p|
    ensures k >= |gridState| ==> Decode(gridState, p)[k] == p[k]
    ensures k < |gridState| && p[k].Some? ==> Decode(gridState, p)[k] == Some(gridState[k] == '1')
  {
  }

  /** Loading the same string twice has the effect of loading it once. */
  lemma DecodeIdempotent(gridState: string, p: seq<Option<bool>>)
    ensures Decode(gridState, Decode(gridState, p)) == Decode(gridState, p)
  {
  }

  /** Saving after loading a full-length string of `'0'`s and `'1'`s gives back that
      string on every cell that has a toggle; cells without one save as `'0'`. */
  lemma EncodeAfterDecode(gridState: string, p: seq<Option<bool>>)
    requires |gridState| == |p|
    requires forall k :: 0 <= k < |gridState| ==> gridState[k] == '0' || gridState[k] == '1'
    ensures forall k :: 0 <= k < |p| ==>
      Encode(Decode(gridState, p))[k] == (if p[k].Some? then gridState[k] else '0')
  {
  }

  /** Two snapshots with the same encoding agree on which cells are on. */
  lemma EncodeDeterminesOn(p: seq<Option<bool>>, q: seq<Option<bool>>, k: int)
    requires Encode(p) == Encode(q) && 0 <= k < |p|
    ensures (p[k] == Some(true)) <==> (q[k] == Some(true))
  {
  }

  /** The BPM guard of the loaders: a stored BPM is taken only when it is positive. */
  function LoadedBpm(current: real, stored: real): (bpm: real)
    ensures stored > 0.0 ==> bpm == stored
    ensures stored <= 0.0 ==> bpm == current
  {
    if stored > 0.0 then stored else current
  }

  /** Loading keeps a positive tempo positive. */
  lemma LoadedBpmPositive(current: real, stored: real)
    requires current > 0.0
    ensures LoadedBpm(current, stored) > 0.0
  {
  }
}
