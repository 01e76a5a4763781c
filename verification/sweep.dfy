/** The directional sweep of the line solver: the seven-state machine of
    FastLineSolver (solver/linesolver.go), written once and parameterised by
    direction like the source's isLeftSolver helpers. With version
    `Legacy` the right branch of moveBlockForward subtracts the block
    length, as the hand-written RightSolve of the root package
    (linesolver.go) does; RootSweep transcribes LeftSolve and RightSolve on
    their own, and RootSweepProof shows that they are this machine.

    A left sweep packs the blocks toward index 0 and yields each block's
    start index; a right sweep packs them toward the end and yields each
    block's end index; either yields None (Go's nil) on a contradiction.
    Go runtime panics (an index out of range) are the outcome `Panic`. The
    outer loop of `solve` has no evident bound, so `Run` takes fuel. */
module Sweep {

  import opened Cells
  import opened Outcomes

  /** The machine's states, in the source's iota order. */
  datatype Phase = Halt | NewBlock | PlaceBlock | FinalSpace | CheckRest | Backtrack | AdvanceBlock

  /** Which end the blocks are packed toward (the source's isLeftSolver). */
  datatype Direction = Left | Right

  /** Which text of the machine: `Fast` is solver/linesolver.go, `Legacy` is
      the root package's LeftSolve/RightSolve, whose moveBlockForward
      subtracts on the right. */
  datatype Version = Fast | Legacy

  /** One index step toward the end the sweep moves to (nextIndex,
      nextBlock, nextBlockPosition). */
  function Forward(d: Direction, i: int): (j: int)
    ensures d == Left ==> j == i + 1
    ensures d == Right ==> j == i - 1
  {
    if d == Left then i + 1 else i - 1
  }

  /** One index step back (previousBlock). */
  function Backward(d: Direction, i: int): (j: int)
    ensures Forward(d, j) == i
  {
    if d == Left then i - 1 else i + 1
  }

  /** How many forward steps index i can take before it leaves [0, n); the
      inner loops of the machine terminate because this shrinks. */
  function Remaining(d: Direction, n: int, i: int): int {
    if d == Left then n - i else i + 1
  }

  /** The fields of the FastLineSolver struct. */
  datatype Solver = Solver(
    state: Phase,
    dir: Direction,
    version: Version,
    currentIndex: int,
    blockIndex: int,
    backtracking: bool,
    positions: seq<int>,
    coverage: seq<int>,
    contradiction: bool,
    constraints: seq<int>,
    line: Line)
  {
    /** The position and coverage slices have one entry per constraint, as
        the constructors make them. */
    predicate WellFormed() {
      |positions| == |constraints| && |coverage| == |constraints|
    }

    predicate BlockInRange() {
      0 <= blockIndex < |constraints|
    }

    predicate BlockIndexOutOfBounds() {
      if dir == Left then blockIndex >= |constraints| else blockIndex < 0
    }

    predicate BlockPositionOutOfBounds()
      requires WellFormed() && BlockInRange()
    {
      if dir == Left then positions[blockIndex] == |line|
      else positions[blockIndex] - constraints[blockIndex] + 1 < 0
    }

    predicate BlockPositionOverflow()
      requires WellFormed() && BlockInRange()
    {
      if dir == Left then positions[blockIndex] >= |line| else positions[blockIndex] < 0
    }

    predicate IsFirstBlockIndex() {
      if dir == Left then blockIndex == 0 else blockIndex == |constraints| - 1
    }

    function StartOfLine(): int {
      if dir == Left then 0 else |line| - 1
    }

    predicate BlockIsSmallerThanConstraint()
      requires WellFormed() && BlockInRange()
    {
      if dir == Left then currentIndex - positions[blockIndex] < constraints[blockIndex]
      else positions[blockIndex] - currentIndex < constraints[blockIndex]
    }

    predicate CurrentIndexOutOfBounds() {
      if dir == Left then currentIndex >= |line| else currentIndex < 0
    }

    predicate BlockIndexInBounds() {
      if dir == Left then blockIndex < |constraints| - 1 else blockIndex > 0
    }

    /** Cell i lies in the current block: from its start on for a left
        sweep, up to its end for a right one. */
    predicate Covers(i: int)
      requires WellFormed() && BlockInRange()
    {
      if dir == Left then positions[blockIndex] <= i < positions[blockIndex] + constraints[blockIndex]
      else positions[blockIndex] - constraints[blockIndex] < i <= positions[blockIndex]
    }

    /** The index where advanceblock resumes after the current block. The
        two texts disagree in the right branch: linesolver.go's is the first
        cell past the block in the sweep's direction, as on the left, while
        solver/linesolver.go's lands behind the block's end, among the cells
        the sweep has already passed. */
    function MoveBlockForward(): (k: int)
      requires WellFormed() && BlockInRange()
      ensures constraints[blockIndex] > 0 && (dir == Left || version == Legacy) ==> !Covers(k) && Covers(Backward(dir, k))
      ensures constraints[blockIndex] > 0 && dir == Right && version == Fast ==> !Covers(k) && k > positions[blockIndex]
    {
      if dir == Left then positions[blockIndex] + constraints[blockIndex]
      else if version == Fast then positions[blockIndex] + constraints[blockIndex]
      else positions[blockIndex] - constraints[blockIndex]
    }

    predicate BlockIndexBeforeBounds() {
      if dir == Left then blockIndex < 0 else blockIndex > |constraints| - 1
    }

    predicate IsPositionOfBlockNotCovered()
      requires WellFormed() && BlockInRange()
    {
      if dir == Left then positions[blockIndex] < coverage[blockIndex]
      else positions[blockIndex] > coverage[blockIndex]
    }

    /** The struct's fixed part: direction, version, constraints and line. */
    predicate SameProblem(t: Solver) {
      t.dir == dir && t.version == version && t.constraints == constraints && t.line == line
    }

    /** `state = halt; contradiction = true`. */
    function Fail(): (t: Solver)
      ensures t.state == Halt && t.contradiction
    {
      this.(state := Halt, contradiction := true)
    }

    function SetPosition(p: int): (t: Solver)
      requires WellFormed() && BlockInRange()
      ensures t.WellFormed() && t.BlockInRange() && SameProblem(t)
      ensures t.positions[blockIndex] == p
    {
      this.(positions := positions[blockIndex := p])
    }

    function SetCoverage(c: int): (t: Solver)
      requires WellFormed() && BlockInRange()
      ensures t.WellFormed() && t.BlockInRange() && SameProblem(t)
      ensures t.coverage[blockIndex] == c
    {
      this.(coverage := coverage[blockIndex := c])
    }
  }

  /** What one transition may lead to: the next machine, or a Go panic.
      The next machine has the slices' lengths and the problem of the last
      one, and a transition that raises `contradiction` also halts. */
  predicate Keeps(s: Solver, r: Outcome<Solver>) {
    r.Ok? ==> && r.value.WellFormed() && s.SameProblem(r.value)
              && (r.value.contradiction ==> r.value.state == Halt || s.contradiction)
  }

  /** newLeftLineSolver and LeftSolve's initial state. */
  function NewLeftLineSolver(version: Version, constraints: seq<int>, line: Line): (s: Solver)
    ensures s.WellFormed() && s.state == NewBlock && s.dir == Left
    ensures s.blockIndex == 0 && !s.contradiction
  {
    Solver(NewBlock, Left, version, 0, 0, false,
           seq(|constraints|, _ => 0), seq(|constraints|, _ => 0), false, constraints, line)
  }

  /** newRightLineSolver and RightSolve's initial state. */
  function NewRightLineSolver(version: Version, constraints: seq<int>, line: Line): (s: Solver)
    ensures s.WellFormed() && s.state == NewBlock && s.dir == Right
    ensures s.blockIndex == |constraints| - 1 && !s.contradiction
  {
    Solver(NewBlock, Right, version, 0, |constraints| - 1, false,
           seq(|constraints|, _ => 0), seq(|constraints|, _ => 0), false, constraints, line)
  }

  // ---------------------------------------------------------------------
  // The six state methods. Each returns the machine as the method leaves
  // it; an inner loop of a method is a recursive function.
  // ---------------------------------------------------------------------

  /** newBlock: start the next block, or go on to checkrest after the last. */
  function NewBlockStep(s: Solver): (r: Outcome<Solver>)
    requires s.WellFormed()
    ensures Keeps(s, r)
  {
    if s.BlockIndexOutOfBounds() then
      var cur := if s.IsFirstBlockIndex() then s.StartOfLine() else s.currentIndex;
      Ok(s.(currentIndex := cur, blockIndex := Backward(s.dir, s.blockIndex), state := CheckRest))
    else if !s.BlockInRange() then Panic
    else
      var p := if s.IsFirstBlockIndex() then s.StartOfLine() else Forward(s.dir, s.currentIndex);
      var t := s.SetPosition(p);
      if t.BlockPositionOutOfBounds() then Ok(t.Fail()) else Ok(t.(state := PlaceBlock))
  }

  /** placeBlock, first loop: move the block past marked cells. */
  function SkipMarked(s: Solver): (r: Outcome<Solver>)
    requires s.WellFormed() && s.BlockInRange()
    ensures Keeps(s, r)
    decreases Remaining(s.dir, |s.line|, s.positions[s.blockIndex])
  {
    var p := s.positions[s.blockIndex];
    if !(0 <= p < |s.line|) then Panic
    else if s.line[p] != Marked then
      var cov := if s.line[p] != Full then -1 else p;
      FillBlock(s.(currentIndex := Forward(s.dir, p)).SetCoverage(cov))
    else
      var t := s.SetPosition(Forward(s.dir, p));
      if t.BlockPositionOverflow() then Ok(t.Fail()) else SkipMarked(t)
  }

  /** placeBlock, second loop: extend the block to its full length,
      remembering in coverage the first full cell it covers. */
  function FillBlock(s: Solver): (r: Outcome<Solver>)
    requires s.WellFormed() && s.BlockInRange()
    ensures Keeps(s, r)
    decreases Remaining(s.dir, |s.line|, s.currentIndex)
  {
    var b := s.blockIndex;
    var cur := s.currentIndex;
    if !s.BlockIsSmallerThanConstraint() then Ok(s.(state := FinalSpace))
    else if s.CurrentIndexOutOfBounds() then Ok(s.Fail())
    else if !(0 <= cur < |s.line|) then Panic
    else if s.line[cur] == Marked then
      if s.coverage[b] == -1 then Ok(s.SetPosition(cur).(state := PlaceBlock))
      else Ok(s.(state := Backtrack))
    else FillBlock(ExtendBlock(s))
  }

  /** The body of placeBlock's second loop: the block takes in the cell at
      currentIndex, recording it as coverage if it is the first full one. */
  function ExtendBlock(s: Solver): (t: Solver)
    requires s.WellFormed() && s.BlockInRange() && 0 <= s.currentIndex < |s.line|
    ensures t.WellFormed() && t.BlockInRange() && s.SameProblem(t) && t.blockIndex == s.blockIndex
    ensures t.currentIndex == Forward(s.dir, s.currentIndex) && t.positions == s.positions
  {
    var b := s.blockIndex;
    var cur := s.currentIndex;
    var t := if s.coverage[b] == -1 && s.line[cur] == Full then s.SetCoverage(cur) else s;
    t.(currentIndex := Forward(s.dir, cur))
  }

  function PlaceBlockStep(s: Solver): (r: Outcome<Solver>)
    requires s.WellFormed()
    ensures Keeps(s, r)
  {
    if !s.BlockInRange() then Panic else SkipMarked(s)
  }

  /** finalSpace, its loop: while the cell after the block is full, shift
      the block forward by one, unless that uncovers its coverage cell. */
  function ShiftPastFull(s: Solver): (r: Outcome<Solver>)
    requires s.WellFormed() && s.BlockInRange()
    ensures Keeps(s, r)
    decreases Remaining(s.dir, |s.line|, s.currentIndex)
  {
    var b := s.blockIndex;
    var cur := s.currentIndex;
    if s.CurrentIndexOutOfBounds() then AfterBlock(s)
    else if !(0 <= cur < |s.line|) then Panic
    else if s.line[cur] != Full then AfterBlock(s)
    else if s.coverage[b] == s.positions[b] then Ok(s.(state := Backtrack))
    else ShiftPastFull(ShiftBlock(s))
  }

  /** The body of finalSpace's loop: the block moves forward by one cell
      onto the full cell at currentIndex, which it records as its coverage
      if it had none. */
  function ShiftBlock(s: Solver): (t: Solver)
    requires s.WellFormed() && s.BlockInRange() && 0 <= s.currentIndex < |s.line|
    ensures t.WellFormed() && t.BlockInRange() && s.SameProblem(t) && t.blockIndex == s.blockIndex
    ensures t.currentIndex == Forward(s.dir, s.currentIndex)
  {
    var b := s.blockIndex;
    var cur := s.currentIndex;
    var t := s.SetPosition(Forward(s.dir, s.positions[b]));
    var u := if t.coverage[b] == -1 && s.line[cur] == Full then t.SetCoverage(cur) else t;
    u.(currentIndex := Forward(s.dir, cur))
  }

  /** finalSpace, after its loop. */
  function AfterBlock(s: Solver): (r: Outcome<Solver>)
    requires s.WellFormed() && s.BlockInRange()
    ensures Keeps(s, r)
  {
    if s.backtracking && s.coverage[s.blockIndex] == -1 then
      Ok(s.(backtracking := false, state := AdvanceBlock))
    else if s.CurrentIndexOutOfBounds() && s.BlockIndexInBounds() then Ok(s.Fail())
    else Ok(s.(blockIndex := Forward(s.dir, s.blockIndex), backtracking := false, state := NewBlock))
  }

  function FinalSpaceStep(s: Solver): (r: Outcome<Solver>)
    requires s.WellFormed()
    ensures Keeps(s, r)
  {
    if !s.BlockInRange() then Panic else ShiftPastFull(s)
  }

  /** checkRest: the rest of the line must hold no full cell; one that is
      found sends the last block forward. */
  function CheckRestStep(s: Solver): (r: Outcome<Solver>)
    requires s.WellFormed()
    ensures Keeps(s, r)
    decreases Remaining(s.dir, |s.line|, s.currentIndex)
  {
    var cur := s.currentIndex;
    if s.CurrentIndexOutOfBounds() then Ok(s.(state := Halt))
    else if !(0 <= cur < |s.line|) then Panic
    else if s.line[cur] == Full then
      if !s.BlockInRange() then Panic
      else Ok(s.(currentIndex := s.MoveBlockForward(), state := AdvanceBlock))
    else CheckRestStep(s.(currentIndex := Forward(s.dir, cur)))
  }

  /** backtrack: go back one block and move it forward. */
  function BacktrackStep(s: Solver): (r: Outcome<Solver>)
    requires s.WellFormed()
    ensures Keeps(s, r)
  {
    var t := s.(blockIndex := Backward(s.dir, s.blockIndex));
    if t.BlockIndexBeforeBounds() then Ok(t.Fail())
    else if !t.BlockInRange() then Panic
    else Ok(t.(currentIndex := t.MoveBlockForward(), state := AdvanceBlock))
  }

  /** advanceBlock, its loop: slide the block forward toward an uncovered
      full cell, re-placing it after a marked cell. */
  function Slide(s: Solver): (r: Outcome<Solver>)
    requires s.WellFormed() && s.BlockInRange()
    ensures Keeps(s, r)
    decreases Remaining(s.dir, |s.line|, s.currentIndex)
  {
    var b := s.blockIndex;
    var cur := s.currentIndex;
    if !(s.coverage[b] < 0 && s.IsPositionOfBlockNotCovered()) then Ok(s.(state := Backtrack))
    else if !(0 <= cur < |s.line|) then Panic
    else if s.line[cur] == Marked then
      if s.coverage[b] > 0 then Ok(s.(state := Backtrack))
      else Ok(s.SetPosition(Forward(s.dir, cur)).(backtracking := true, state := PlaceBlock))
    else
      var t := s.SetPosition(Forward(s.dir, s.positions[b]));
      if s.line[cur] == Full then
        var u := t.(currentIndex := Forward(s.dir, cur));
        var w := if u.coverage[b] == -1 then u.SetCoverage(u.currentIndex - 1) else u;
        Ok(w.(state := FinalSpace))
      else
        var u := t.(currentIndex := Forward(s.dir, cur));
        if u.CurrentIndexOutOfBounds() then Ok(u.Fail()) else Slide(u)
  }

  function AdvanceBlockStep(s: Solver): (r: Outcome<Solver>)
    requires s.WellFormed()
    ensures Keeps(s, r)
  {
    if !s.BlockInRange() then Panic else Slide(s)
  }

  /** One iteration of the `for ls.state != halt` loop of solve. */
  function Step(s: Solver): (r: Outcome<Solver>)
    requires s.WellFormed()
    ensures Keeps(s, r)
  {
    match s.state
    case Halt => Ok(s)
    case NewBlock => NewBlockStep(s)
    case PlaceBlock => PlaceBlockStep(s)
    case FinalSpace => FinalSpaceStep(s)
    case CheckRest => CheckRestStep(s)
    case Backtrack => BacktrackStep(s)
    case AdvanceBlock => AdvanceBlockStep(s)
  }

  /** solve: run the machine until halt, then return the positions, or None
      (nil) when a contradiction was found. */
  function Run(fuel: nat, s: Solver): (r: Outcome<Option<seq<int>>>)
    requires s.WellFormed()
    ensures r.Ok? && r.value.Some? ==> |r.value.value| == |s.constraints|
    ensures s.state == Halt ==> r == Ok(if s.contradiction then None else Some(s.positions))
    decreases fuel
  {
    if s.state == Halt then (if s.contradiction then Ok(None) else Ok(Some(s.positions)))
    else if fuel == 0 then OutOfFuel
    else
      match Step(s)
      case Panic => Panic
      case OutOfFuel => OutOfFuel
      case Ok(t) => Run(fuel - 1, t)
  }

  /** The sweeps of solver/linesolver.go: newLeftLineSolver(...).solve()
      and newRightLineSolver(...).solve(). */
  function FastLeft(fuel: nat, constraints: seq<int>, line: Line): (r: Outcome<Option<seq<int>>>)
    ensures r.Ok? && r.value.Some? ==> |r.value.value| == |constraints|
  {
    Run(fuel, NewLeftLineSolver(Fast, constraints, line))
  }

  function FastRight(fuel: nat, constraints: seq<int>, line: Line): (r: Outcome<Option<seq<int>>>)
    ensures r.Ok? && r.value.Some? ==> |r.value.value| == |constraints|
  {
    Run(fuel, NewRightLineSolver(Fast, constraints, line))
  }
}
