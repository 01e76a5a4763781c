/** Soundness of the left sweep: whenever it returns positions, they are a
    valid placement of the blocks against the line's known cells (every
    block inside the line, blocks in order and at least one cell apart, no
    marked cell inside a block, no full cell outside the blocks). With at
    least one constraint, the left sweep never panics.

    The proof is an invariant of the machine, one clause per state. In the
    left direction the advanceblock loop never runs (its guard needs a
    negative position), so backtrack and advanceblock only walk back to
    block -1 and end in a contradiction; their invariant only keeps the
    indices in range. */
module LeftSweepProof {

  import opened Cells
  import opened Outcomes
  import opened Sweep
  import opened Placement

  /** Block j is placed validly: inside the line, after the previous
      block with a gap, consistent with the known cells. */
  predicate BlockOk(line: Line, c: seq<int>, p: seq<int>, j: int)
    requires |p| == |c| && 0 <= j < |c|
  {
    Inside(|line|, c, p, j) && Separated(c, p, j) && Consistent(line, c, p, j)
  }

  /** Blocks 0..k-1 are placed validly. */
  predicate Placed(line: Line, c: seq<int>, p: seq<int>, k: int)
    requires |p| == |c| && 0 <= k <= |c|
  {
    forall j :: 0 <= j < k ==> BlockOk(line, c, p, j)
  }

  /** Placing blocks 0..k-1 depends only on their own positions. */
  lemma PlacedFrame(line: Line, c: seq<int>, p: seq<int>, q: seq<int>, k: int)
    requires |p| == |c| && |q| == |c| && 0 <= k <= |c|
    requires forall j :: 0 <= j < k ==> p[j] == q[j]
    requires Placed(line, c, p, k)
    ensures Placed(line, c, q, k)
  {
    forall j | 0 <= j < k
      ensures BlockOk(line, c, q, j)
    {
      assert BlockOk(line, c, p, j);
      if j > 0 {
        assert p[j - 1] == q[j - 1];
      }
      assert GapStart(c, p, j) == GapStart(c, q, j);
    }
  }

  /** All blocks placed with a clean tail is what Fits says. */
  lemma PlacedAllFits(line: Line, c: seq<int>, p: seq<int>)
    requires |p| == |c|
    requires Placed(line, c, p, |c|)
    requires NoneIn(line, Full, TailStart(c, p), |line|)
    ensures Fits(line, c, p)
  {
    forall j | 0 <= j < |c|
      ensures Inside(|line|, c, p, j) && Separated(c, p, j) && Consistent(line, c, p, j)
    {
      assert BlockOk(line, c, p, j);
    }
  }

  /** Where the coverage entry of the current block may stand: -1 when no
      full cell lies in [lo, hi), else the first full cell there. */
  predicate CoverageOk(line: Line, v: int, lo: int, hi: int) {
    && (v == -1 ==> NoneIn(line, Full, lo, hi))
    && (v != -1 ==> lo <= v < hi && 0 <= v < |line| && line[v] == Full && NoneIn(line, Full, lo, v))
  }

  /** What every non-halted state of a left sweep satisfies. */
  predicate Base(s: Solver) {
    && s.WellFormed()
    && s.dir == Left
    && !s.backtracking
    && !s.contradiction
    && Positive(s.constraints)
    && (forall j :: 0 <= j < |s.positions| ==> s.positions[j] >= 0)
  }

  /** The current block sits after the previous one with a gap and has no
      full cell in front of it, and blocks before it are placed. */
  predicate Anchored(s: Solver)
    requires s.WellFormed() && s.BlockInRange()
  {
    var b := s.blockIndex;
    var p := s.positions;
    var c := s.constraints;
    && Placed(s.line, c, p, b)
    && Separated(c, p, b)
    && NoneIn(s.line, Full, GapStart(c, p, b), p[b])
  }

  predicate NewBlockInv(s: Solver)
    requires s.WellFormed()
  {
    var b := s.blockIndex;
    var c := s.constraints;
    && 0 <= b <= |c|
    && (b > 0 ==>
          && Placed(s.line, c, s.positions, b)
          && s.currentIndex == s.positions[b - 1] + c[b - 1]
          && (0 <= s.currentIndex < |s.line| ==> s.line[s.currentIndex] != Full)
          && (s.currentIndex >= |s.line| ==> b == |c|))
  }

  predicate PlaceInv(s: Solver)
    requires s.WellFormed()
  {
    && s.BlockInRange()
    && Anchored(s)
    && s.positions[s.blockIndex] < |s.line|
  }

  /** placeBlock's second loop: the block is being extended cell by cell. */
  predicate FillInv(s: Solver)
    requires s.WellFormed()
  {
    && s.BlockInRange()
    && Anchored(s)
    && var b := s.blockIndex;
       var p := s.positions[b];
       && p < s.currentIndex <= p + s.constraints[b]
       && s.currentIndex <= |s.line|
       && NoneIn(s.line, Marked, p, s.currentIndex)
       && CoverageOk(s.line, s.coverage[b], p, s.currentIndex)
  }

  /** finalSpace: the block has its full length. */
  predicate FinalInv(s: Solver)
    requires s.WellFormed()
  {
    && s.BlockInRange()
    && Anchored(s)
    && var b := s.blockIndex;
       var p := s.positions[b];
       && s.currentIndex == p + s.constraints[b]
       && s.currentIndex <= |s.line|
       && NoneIn(s.line, Marked, p, s.currentIndex)
       && CoverageOk(s.line, s.coverage[b], p, s.currentIndex)
  }

  predicate CheckRestInv(s: Solver)
    requires s.WellFormed()
  {
    var c := s.constraints;
    && s.blockIndex == |c| - 1
    && Placed(s.line, c, s.positions, |c|)
    && TailStart(c, s.positions) <= s.currentIndex
    && NoneIn(s.line, Full, TailStart(c, s.positions), s.currentIndex)
  }

  /** The invariant of a left sweep, by state. */
  predicate Inv(s: Solver) {
    && s.WellFormed()
    && s.dir == Left
    && match s.state
       case Halt => s.contradiction || Fits(s.line, s.constraints, s.positions)
       case NewBlock => Base(s) && NewBlockInv(s)
       case PlaceBlock => Base(s) && PlaceInv(s)
       case FinalSpace => Base(s) && FinalInv(s)
       case CheckRest => Base(s) && CheckRestInv(s)
       case Backtrack => Base(s) && 0 <= s.blockIndex <= |s.constraints|
       case AdvanceBlock => Base(s) && s.BlockInRange()
  }

  // ---------------------------------------------------------------------
  // One lemma per state method.
  // ---------------------------------------------------------------------

  lemma NewBlockKeeps(s: Solver)
    requires Inv(s) && s.state == NewBlock
    ensures NewBlockStep(s).Ok? && Inv(NewBlockStep(s).value)
  {
    var c := s.constraints;
    var b := s.blockIndex;
    if s.BlockIndexOutOfBounds() {
      var t := NewBlockStep(s).value;
      assert b == |c|;
      if b > 0 {
        assert TailStart(c, t.positions) == s.currentIndex;
      }
      assert CheckRestInv(t);
    } else {
      var p := if s.IsFirstBlockIndex() then 0 else s.currentIndex + 1;
      var t := s.SetPosition(p);
      if !t.BlockPositionOutOfBounds() {
        PlacedFrame(s.line, c, s.positions, t.positions, b);
        assert PlaceInv(t.(state := PlaceBlock));
      }
    }
  }

  lemma {:induction false} SkipMarkedKeeps(s: Solver)
    requires Base(s) && PlaceInv(s)
    ensures SkipMarked(s).Ok? && Inv(SkipMarked(s).value)
    decreases |s.line| - s.positions[s.blockIndex], 1
  {
    if s.line[s.positions[s.blockIndex]] != Marked {
      SkipOpenKeeps(s);
    } else {
      SkipPastMarkKeeps(s);
    }
  }

  /** A block starting on an unmarked cell p, extended to p + 1: it covers
      no marked cell, and p is its coverage exactly when p is full. */
  lemma StartCoverage(line: Line, p: int)
    requires 0 <= p < |line| && line[p] != Marked
    ensures NoneIn(line, Marked, p, p + 1)
    ensures CoverageOk(line, if line[p] != Full then -1 else p, p, p + 1)
  {
  }

  /** The block starts on an unmarked cell p: placeBlock's second loop
      begins at p + 1, with p as coverage when it is full. */
  lemma StartFill(s: Solver) returns (t: Solver)
    requires Base(s) && PlaceInv(s) && s.line[s.positions[s.blockIndex]] != Marked
    ensures var p := s.positions[s.blockIndex];
      t == s.(currentIndex := p + 1).SetCoverage(if s.line[p] != Full then -1 else p)
    ensures Base(t) && FillInv(t)
  {
    var b := s.blockIndex;
    var p := s.positions[b];
    t := s.(currentIndex := p + 1).SetCoverage(if s.line[p] != Full then -1 else p);
    assert t.positions == s.positions && t.line == s.line && t.blockIndex == b;
    assert Anchored(t);
    StartCoverage(s.line, p);
  }

  /** The block's first cell is not marked: the block starts there. */
  lemma SkipOpenKeeps(s: Solver)
    requires Base(s) && PlaceInv(s) && s.line[s.positions[s.blockIndex]] != Marked
    ensures SkipMarked(s).Ok? && Inv(SkipMarked(s).value)
  {
    var t := StartFill(s);
    assert SkipMarked(s) == FillBlock(t);
    FillBlockKeeps(t);
  }

  /** The block's first cell p is marked: the block moves to p + 1, which
      keeps it anchored unless it no longer fits. */
  lemma StepPastMark(s: Solver) returns (t: Solver)
    requires Base(s) && PlaceInv(s) && s.line[s.positions[s.blockIndex]] == Marked
    ensures t == s.SetPosition(s.positions[s.blockIndex] + 1)
    ensures !t.BlockPositionOverflow() ==> Base(t) && PlaceInv(t)
  {
    var b := s.blockIndex;
    var p := s.positions[b];
    var c := s.constraints;
    t := s.SetPosition(p + 1);
    if !t.BlockPositionOverflow() {
      PlacedFrame(s.line, c, s.positions, t.positions, b);
      assert GapStart(c, t.positions, b) == GapStart(c, s.positions, b);
    }
  }

  /** The block's first cell is marked: the block moves one cell on. */
  lemma {:induction false} SkipPastMarkKeeps(s: Solver)
    requires Base(s) && PlaceInv(s) && s.line[s.positions[s.blockIndex]] == Marked
    ensures SkipMarked(s).Ok? && Inv(SkipMarked(s).value)
    decreases |s.line| - s.positions[s.blockIndex], 0
  {
    var t := StepPastMark(s);
    if !t.BlockPositionOverflow() {
      assert SkipMarked(s) == SkipMarked(t);
      SkipMarkedKeeps(t);
    } else {
      assert SkipMarked(s) == Ok(t.Fail());
    }
  }

  lemma {:induction false} FillBlockKeeps(s: Solver)
    requires Base(s) && FillInv(s)
    ensures FillBlock(s).Ok? && Inv(FillBlock(s).value)
    decreases |s.line| - s.currentIndex
  {
    if s.BlockIsSmallerThanConstraint() && !s.CurrentIndexOutOfBounds() && s.line[s.currentIndex] != Marked {
      var t := ExtendKeepsFill(s);
      assert FillBlock(s) == FillBlock(t);
      FillBlockKeeps(t);
    } else {
      FillStopKeeps(s);
    }
  }

  /** Taking in one more unmarked cell keeps the second loop's invariant. */
  lemma ExtendKeepsFill(s: Solver) returns (t: Solver)
    requires Base(s) && FillInv(s)
    requires s.BlockIsSmallerThanConstraint() && !s.CurrentIndexOutOfBounds()
    requires s.line[s.currentIndex] != Marked
    ensures t == ExtendBlock(s) && Base(t) && FillInv(t)
  {
    t := ExtendBlock(s);
  }

  /** The second loop's exits: the block is long enough, the line ends, or
      a marked cell stops it. */
  lemma FillStopKeeps(s: Solver)
    requires Base(s) && FillInv(s)
    requires !(s.BlockIsSmallerThanConstraint() && !s.CurrentIndexOutOfBounds() && s.line[s.currentIndex] != Marked)
    ensures FillBlock(s).Ok? && Inv(FillBlock(s).value)
  {
    var b := s.blockIndex;
    var cur := s.currentIndex;
    var c := s.constraints;
    if !s.BlockIsSmallerThanConstraint() {
      assert FinalInv(s.(state := FinalSpace));
    } else if s.CurrentIndexOutOfBounds() {
    } else if s.coverage[b] == -1 {
      var t := s.SetPosition(cur).(state := PlaceBlock);
      PlacedFrame(s.line, c, s.positions, t.positions, b);
      assert GapStart(c, t.positions, b) == GapStart(c, s.positions, b);
      assert PlaceInv(t);
    }
  }

  lemma AfterBlockKeeps(s: Solver)
    requires Base(s) && FinalInv(s)
    requires s.currentIndex < |s.line| ==> s.line[s.currentIndex] != Full
    ensures AfterBlock(s).Ok? && Inv(AfterBlock(s).value)
  {
    var b := s.blockIndex;
    var c := s.constraints;
    var t := AfterBlock(s).value;
    if !(s.CurrentIndexOutOfBounds() && s.BlockIndexInBounds()) {
      assert t.blockIndex == b + 1;
      assert Placed(s.line, c, s.positions, b + 1) by {
        forall j | 0 <= j < b + 1
          ensures BlockOk(s.line, c, s.positions, j)
        {
          if j == b {
            assert Consistent(s.line, c, s.positions, j);
          }
        }
      }
      assert NewBlockInv(t);
    }
  }

  lemma {:induction false} ShiftPastFullKeeps(s: Solver)
    requires Base(s) && FinalInv(s)
    ensures ShiftPastFull(s).Ok? && Inv(ShiftPastFull(s).value)
    decreases |s.line| - s.currentIndex
  {
    var b := s.blockIndex;
    var cur := s.currentIndex;
    var p := s.positions[b];
    var c := s.constraints;
    if s.CurrentIndexOutOfBounds() || s.line[cur] != Full {
      AfterBlockKeeps(s);
    } else if s.coverage[b] == p {
    } else {
      ShiftBlockKeeps(s);
      ShiftPastFullKeeps(ShiftBlock(s));
    }
  }

  /** One pass of finalSpace's loop keeps the block valid: the cell it
      leaves behind is not full, the cell it takes in is. */
  lemma ShiftBlockKeeps(s: Solver)
    requires Base(s) && FinalInv(s)
    requires 0 <= s.currentIndex < |s.line| && s.line[s.currentIndex] == Full
    requires s.coverage[s.blockIndex] != s.positions[s.blockIndex]
    ensures Base(ShiftBlock(s)) && FinalInv(ShiftBlock(s))
  {
    var b := s.blockIndex;
    var p := s.positions[b];
    var c := s.constraints;
    var w := ShiftBlock(s);
    assert s.line[p] != Full;
    PlacedFrame(s.line, c, s.positions, w.positions, b);
    assert GapStart(c, w.positions, b) == GapStart(c, s.positions, b);
    assert NoneIn(s.line, Full, GapStart(c, w.positions, b), p + 1);
  }

  lemma {:induction false} CheckRestKeeps(s: Solver)
    requires Base(s) && CheckRestInv(s)
    ensures CheckRestStep(s) == Panic ==> |s.constraints| == 0
    ensures CheckRestStep(s).Ok? ==> Inv(CheckRestStep(s).value)
    decreases |s.line| - s.currentIndex
  {
    var cur := s.currentIndex;
    var c := s.constraints;
    if s.CurrentIndexOutOfBounds() {
      PlacedAllFits(s.line, c, s.positions);
    } else if s.line[cur] == Full {
    } else {
      CheckRestKeeps(s.(currentIndex := cur + 1));
    }
  }

  lemma BacktrackKeeps(s: Solver)
    requires Inv(s) && s.state == Backtrack
    ensures BacktrackStep(s).Ok? && Inv(BacktrackStep(s).value)
  {
  }

  lemma AdvanceBlockKeeps(s: Solver)
    requires Inv(s) && s.state == AdvanceBlock
    ensures AdvanceBlockStep(s).Ok? && Inv(AdvanceBlockStep(s).value)
  {
    assert s.positions[s.blockIndex] >= 0;
  }

  /** The guard of advanceblock's loop asks for coverage < 0 and a start
      before the coverage, so a start before 0, which a left sweep never
      has: the loop body never runs and the machine goes straight back to
      backtrack. */
  lemma AdvanceBlockNeverSlides(s: Solver)
    requires Inv(s) && s.state == AdvanceBlock
    ensures AdvanceBlockStep(s) == Ok(s.(state := Backtrack))
  {
    assert s.positions[s.blockIndex] >= 0;
  }

  /** Hence a left sweep that enters backtrack walks back over every block
      and reports a contradiction (or runs out of fuel on the way). */
  lemma {:induction false} BacktrackFails(fuel: nat, s: Solver)
    requires Inv(s) && (s.state == Backtrack || s.state == AdvanceBlock)
    ensures Run(fuel, s) == OutOfFuel || Run(fuel, s) == Ok(None)
    decreases fuel
  {
    if fuel > 0 {
      StepKeeps(s);
      var t := Step(s).value;
      if s.state == AdvanceBlock {
        AdvanceBlockNeverSlides(s);
        BacktrackFails(fuel - 1, t);
      } else if t.state == Halt {
        assert t.contradiction;
      } else {
        BacktrackFails(fuel - 1, t);
      }
    }
  }

  /** One transition keeps the invariant; only checkrest of an empty
      constraint list can panic. */
  lemma StepKeeps(s: Solver)
    requires Inv(s)
    ensures Step(s) == Panic ==> |s.constraints| == 0
    ensures Step(s).Ok? ==> Inv(Step(s).value)
  {
    match s.state
    case Halt =>
    case NewBlock => NewBlockKeeps(s);
    case PlaceBlock => SkipMarkedKeeps(s);
    case FinalSpace => ShiftPastFullKeeps(s);
    case CheckRest => CheckRestKeeps(s);
    case Backtrack => BacktrackKeeps(s);
    case AdvanceBlock => AdvanceBlockKeeps(s);
  }

  lemma {:induction false} RunKeeps(fuel: nat, s: Solver)
    requires Inv(s)
    ensures Run(fuel, s) == Panic ==> |s.constraints| == 0
    ensures Run(fuel, s).Ok? && Run(fuel, s).value.Some? ==> Fits(s.line, s.constraints, Run(fuel, s).value.value)
    decreases fuel
  {
    if s.state != Halt && fuel > 0 {
      StepKeeps(s);
      if Step(s).Ok? {
        RunKeeps(fuel - 1, Step(s).value);
      }
    }
  }

  /** A successful left sweep (of either text) returns a valid placement of
      the blocks, and with at least one constraint it never panics. */
  lemma LeftSweepSound(version: Version, fuel: nat, c: seq<int>, line: Line)
    requires Positive(c)
    ensures var r := Run(fuel, NewLeftLineSolver(version, c, line));
            && (r.Ok? && r.value.Some? ==> Fits(line, c, r.value.value))
            && (|c| > 0 ==> r != Panic)
  {
    RunKeeps(fuel, NewLeftLineSolver(version, c, line));
  }
}
