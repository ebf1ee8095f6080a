/** The transport both sequencers share (`DrumController` and `SequencerController`): the
    `isInitialized` / `isPlaying` / `currentStep` state machine, the cursor a tick advances,
    and the rows one tick triggers. A tick is one discrete step; its duration is not modelled. */
module Transport {
  import opened Common
  import opened CustomToggles
  import opened Grid

  datatype State = State(initialized: bool, playing: bool, step: int)

  /** `Play`: rejected unless initialized and not already playing; otherwise start at step 0. */
  function Played(s: State): (r: State)
    ensures !s.initialized || s.playing ==> r == s
    ensures s.initialized && !s.playing ==> r == State(true, true, 0)
  {
    if !s.initialized || s.playing then s else s.(playing := true, step := 0)
  }

  /** `SequencerController.Pause`: stop playing but keep the cursor; a no-op unless playing. */
  function Paused(s: State): (r: State)
    ensures r.initialized == s.initialized && r.step == s.step && !r.playing
    ensures !s.playing ==> r == s
  {
    if !s.playing then s else s.(playing := false)
  }

  /** `Stop`: stop playing and rewind to step 0; a no-op unless playing. */
  function Stopped(s: State): (r: State)
    ensures r.initialized == s.initialized && !r.playing
    ensures !s.playing ==> r == s
    ensures s.playing ==> r.step == 0
  {
    if !s.playing then s else s.(playing := false, step := 0)
  }

  /** Play after Pause restarts at step 0, and Stop after Pause changes nothing. */
  lemma PauseThenPlayRestarts(s: State)
    requires s.initialized && s.playing
    ensures Played(Paused(s)) == State(true, true, 0)
    ensures Stopped(Paused(s)) == Paused(s)
  {
  }

  /** A successful Play followed by Stop leaves the transport stopped at step 0. */
  lemma PlayThenStop(s: State)
    requires s.initialized && !s.playing
    ensures Stopped(Played(s)) == State(true, false, 0)
  {
  }

  /** `currentStep = (currentStep + 1) % columns`. */
  function Advance(step: int, columns: int): (r: int)
    requires columns > 0
    ensures 0 <= r < columns
  {
    (step + 1) % columns
  }

  /** The cursor after `n` ticks from `start`. */
  function Cursor(start: int, n: nat, columns: int): (r: int)
    requires columns > 0
    ensures n > 0 ==> 0 <= r < columns
  {
    if n == 0 then start else Advance(Cursor(start, n - 1, columns), columns)
  }

  /** After `n >= 1` ticks the cursor is `(start + n) % columns`. */
  lemma {:induction false} CursorIsSum(start: int, n: nat, columns: int)
    requires columns > 0 && 0 <= start && n >= 1
    ensures Cursor(start, n, columns) == (start + n) % columns
  {
    if n > 1 {
      CursorIsSum(start, n - 1, columns);
      ModSucc(start + n - 1, columns);
    }
  }

  /** From a cursor in range, `columns` ticks return to the start. */
  lemma CursorCycles(start: int, columns: int)
    requires 0 <= start < columns
    ensures Cursor(start, columns, columns) == start
  {
    CursorIsSum(start, columns, columns);
    DivMod(1, start, columns);
  }

  /** The state of cell `k` of a row-major snapshot, None outside it. */
  function At(p: seq<Option<bool>>, k: int): Option<bool> {
    if 0 <= k < |p| then p[k] else None
  }

  /** A snapshot of every child reads each child's state. */
  lemma AtPattern(children: seq<CustomToggle?>, k: int)
    ensures At(Pattern(children, |children|), k) == StateAt(children, k)
  {
    PatternAt(children, |children|);
  }

  /** The rows below `rows` whose cell at `step` exists and is on, in increasing order: the
      rows one `PlayStep(step)` triggers (DrumController.cs:249-256,
      SequencerController.cs:126-133). */
  function Hits(p: seq<Option<bool>>, rows: int, columns: int, step: int): seq<int>
    decreases rows
  {
    if rows <= 0 then []
    else
      Hits(p, rows - 1, columns, step)
        + (if At(p, ChildIndex(rows - 1, step, columns)) == Some(true) then [rows - 1] else [])
  }

  /** A row is hit exactly when it is below `rows` and its cell at `step` is on. */
  lemma {:induction false} HitsMembers(p: seq<Option<bool>>, rows: int, columns: int, step: int, r: int)
    ensures r in Hits(p, rows, columns, step) <==> 0 <= r < rows && At(p, ChildIndex(r, step, columns)) == Some(true)
    decreases rows
  {
    if rows > 0 {
      HitsMembers(p, rows - 1, columns, step, r);
    }
  }

  /** The hits are rows below `rows`, strictly increasing. */
  lemma {:induction false} HitsIncreasing(p: seq<Option<bool>>, rows: int, columns: int, step: int)
    ensures forall i :: 0 <= i < |Hits(p, rows, columns, step)| ==> 0 <= Hits(p, rows, columns, step)[i] < rows
    ensures forall i, j :: 0 <= i < j < |Hits(p, rows, columns, step)| ==> Hits(p, rows, columns, step)[i] < Hits(p, rows, columns, step)[j]
    decreases rows
  {
    if rows > 0 {
      HitsIncreasing(p, rows - 1, columns, step);
    }
  }

  /** The triggers a sink with `n` channels acts on: the indices in `[0, n)`, in order
      (`DrumSampler.PlayDrum`, DrumSampler.cs:42-46; `SequencerController.PlayNote`,
      SequencerController.cs:138). */
  function Accepted(s: seq<int>, n: int): (r: seq<int>)
    ensures |r| <= |s|
  {
    if s == [] then []
    else (if 0 <= s[0] < n then [s[0]] else []) + Accepted(s[1..], n)
  }

  /** The sink acts on exactly the triggers inside its range. */
  lemma {:induction false} AcceptedMembers(s: seq<int>, n: int, x: int)
    ensures x in Accepted(s, n) <==> x in s && 0 <= x < n
  {
    if s != [] {
      AcceptedMembers(s[1..], n, x);
      assert s == [s[0]] + s[1..];
    }
  }

  /** Filtering distributes over concatenation. */
  lemma {:induction false} AcceptedAppend(s: seq<int>, t: seq<int>, n: int)
    ensures Accepted(s + t, n) == Accepted(s, n) + Accepted(t, n)
  {
    if s != [] {
      assert (s + t)[1..] == s[1..] + t;
      AcceptedAppend(s[1..], t, n);
    } else {
      assert s + t == t;
    }
  }

  /** The rows are hit in increasing order, so a sink with `n` channels plays exactly the
      hits among the first `n` rows. */
  lemma {:induction false} AcceptedHits(p: seq<Option<bool>>, rows: int, columns: int, step: int, n: int)
    ensures Accepted(Hits(p, rows, columns, step), n) == Hits(p, Min(rows, n), columns, step)
    decreases rows
  {
    if rows > 0 {
      var e := if At(p, ChildIndex(rows - 1, step, columns)) == Some(true) then [rows - 1] else [];
      AcceptedHits(p, rows - 1, columns, step, n);
      AcceptedAppend(Hits(p, rows - 1, columns, step), e, n);
      if rows <= n {
        assert Accepted(e, n) == e;
      } else {
        assert Accepted(e, n) == [];
      }
    }
  }

  /** Visiting row `row` of a step: when its cell is on, the trigger the sink accepts
      extends the log of the rows before it to the log of the rows up to it. */
  lemma HitsLog(log: seq<int>, p: seq<Option<bool>>, row: nat, columns: int, step: int, on: bool, n: int)
    requires on <==> At(p, ChildIndex(row, step, columns)) == Some(true)
    ensures on ==>
      (log + Hits(p, Min(row, n), columns, step)) + Accepted([row], n) == log + Hits(p, Min(row + 1, n), columns, step)
    ensures !on ==> log + Hits(p, Min(row, n), columns, step) == log + Hits(p, Min(row + 1, n), columns, step)
  {
    assert Accepted([row], n) == (if 0 <= row < n then [row] else []);
  }

  /** A sink with at least `rows` channels accepts every hit. */
  lemma {:induction false} AcceptedAll(s: seq<int>, n: int)
    requires forall x :: x in s ==> 0 <= x < n
    ensures Accepted(s, n) == s
  {
    if s != [] {
      assert s[0] in s;
      assert forall x :: x in s[1..] ==> x in s;
      AcceptedAll(s[1..], n);
      assert s == [s[0]] + s[1..];
    }
  }

  /** The triggers of `ticks` consecutive ticks from cursor `start` over a fixed pattern,
      played into a sink with `n` channels. */
  function Schedule(p: seq<Option<bool>>, rows: int, columns: int, n: int, start: int, ticks: nat): (r: seq<int>)
    requires columns > 0
    ensures ticks == 0 ==> r == []
    decreases ticks
  {
    if ticks == 0 then []
    else Hits(p, Min(rows, n), columns, start) + Schedule(p, rows, columns, n, Advance(start, columns), ticks - 1)
  }

  /** `a + b` ticks are `a` ticks followed by `b` ticks from where the first `a` left the cursor. */
  lemma {:induction false} ScheduleSplit(p: seq<Option<bool>>, rows: int, columns: int, n: int, start: int, a: nat, b: nat)
    requires columns > 0
    ensures Schedule(p, rows, columns, n, start, a + b)
      == Schedule(p, rows, columns, n, start, a) + Schedule(p, rows, columns, n, Cursor(start, a, columns), b)
    decreases a
  {
    if a > 0 {
      var next := Advance(start, columns);
      var head := Hits(p, Min(rows, n), columns, start);
      var x := Schedule(p, rows, columns, n, next, a - 1);
      var y := Schedule(p, rows, columns, n, Cursor(next, a - 1, columns), b);
      ScheduleSplit(p, rows, columns, n, next, a - 1, b);
      CursorShift(start, a, columns);
      assert Schedule(p, rows, columns, n, start, a + b) == head + (x + y);
      assert Schedule(p, rows, columns, n, start, a) == head + x;
      assert head + (x + y) == (head + x) + y;
    }
  }

  /** One more tick appends the triggers of the column the cursor has reached. */
  lemma ScheduleStep(p: seq<Option<bool>>, rows: int, columns: int, n: int, start: int, i: nat)
    requires columns > 0
    ensures Schedule(p, rows, columns, n, start, i + 1)
      == Schedule(p, rows, columns, n, start, i) + Hits(p, Min(rows, n), columns, Cursor(start, i, columns))
  {
    ScheduleSplit(p, rows, columns, n, start, i, 1);
    var fired := Hits(p, Min(rows, n), columns, Cursor(start, i, columns));
    assert Schedule(p, rows, columns, n, Cursor(start, i, columns), 1) == fired + [];
  }

  /** A log that held `log` followed by the first `i` ticks' triggers holds the first
      `i + 1` ticks' once the next column's triggers are appended. */
  lemma ScheduleLog(log: seq<int>, p: seq<Option<bool>>, rows: int, columns: int, n: int, start: int, i: nat)
    requires columns > 0
    ensures (log + Schedule(p, rows, columns, n, start, i)) + Hits(p, Min(rows, n), columns, Cursor(start, i, columns))
      == log + Schedule(p, rows, columns, n, start, i + 1)
  {
    ScheduleStep(p, rows, columns, n, start, i);
  }

  /** Ticking once and then `a - 1` times leaves the cursor where `a` ticks do. */
  lemma {:induction false} CursorShift(start: int, a: nat, columns: int)
    requires columns > 0 && a > 0
    ensures Cursor(Advance(start, columns), a - 1, columns) == Cursor(start, a, columns)
    decreases a
  {
    if a > 1 {
      CursorShift(start, a - 1, columns);
    }
  }

  /** The triggers repeat with period `columns`: a full cycle and then `t` more ticks
      replay the cycle's first `t` ticks. */
  lemma ScheduleRepeats(p: seq<Option<bool>>, rows: int, columns: int, n: int, start: int, t: nat)
    requires 0 <= start < columns
    ensures Schedule(p, rows, columns, n, start, columns + t)
      == Schedule(p, rows, columns, n, start, columns) + Schedule(p, rows, columns, n, start, t)
  {
    ScheduleSplit(p, rows, columns, n, start, columns, t);
    CursorCycles(start, columns);
  }
}
