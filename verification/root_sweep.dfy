/** LeftSolve and RightSolve of the root package (linesolver.go), written
    down as the Go text has them: the locals `i`, `block`, `backtracking`,
    `positions` and `coverage`, one `switch state` per pass of the labelled
    loop, `continue Loop` as the end of a pass and `return nil` as an early
    exit. Every slice or line index that Go would check at run time is
    checked here, and an index out of range is the outcome `Panic`. The loop
    has no evident bound, so the functions take fuel, like Sweep.Run. */
module RootSweep {

  import opened Cells
  import opened Outcomes
  import Sweep

  /** The local variables of LeftSolve and RightSolve. */
  datatype Locals = Locals(state: Sweep.Phase, i: int, block: int, backtracking: bool, positions: seq<int>, coverage: seq<int>)

  /** Where a pass of the loop body leaves the function: back at the top of
      the loop with new locals, or at a `return nil`. */
  datatype Exit = Next(l: Locals) | Nil

  /** positions and coverage are made with one entry per constraint, and
      only ever written at an index in range. */
  predicate Sized(c: seq<int>, l: Locals) {
    |l.positions| == |c| && |l.coverage| == |c|
  }

  /** A pass that goes on keeps the slices' lengths. */
  predicate Stays(c: seq<int>, r: Outcome<Exit>) {
    r.Ok? && r.value.Next? ==> Sized(c, r.value.l)
  }

  function SetPosition(l: Locals, p: int): (m: Locals)
    requires 0 <= l.block < |l.positions|
    ensures |m.positions| == |l.positions| && m.coverage == l.coverage && m.positions[l.block] == p
  {
    l.(positions := l.positions[l.block := p])
  }

  function SetCoverage(l: Locals, k: int): (m: Locals)
    requires 0 <= l.block < |l.coverage|
    ensures |m.coverage| == |l.coverage| && m.positions == l.positions && m.coverage[l.block] == k
  {
    l.(coverage := l.coverage[l.block := k])
  }

  // ---------------------------------------------------------------------
  // LeftSolve
  // ---------------------------------------------------------------------

  /** `case newblock`. */
  function LeftNewBlock(c: seq<int>, line: Line, l: Locals): (r: Outcome<Exit>)
    requires Sized(c, l)
    ensures Stays(c, r)
  {
    if l.block >= |c| then
      var i := if l.block == 0 then 0 else l.i;
      Ok(Next(l.(i := i, block := l.block - 1, state := Sweep.CheckRest)))
    else if l.block < 0 then Panic
    else
      var m := SetPosition(l, if l.block == 0 then 0 else l.i + 1);
      if m.positions[l.block] == |line| then Ok(Nil)
      else Ok(Next(m.(state := Sweep.PlaceBlock)))
  }

  /** `case placeblock`, its first loop: step the block past marked cells. */
  function LeftSkipMarked(c: seq<int>, line: Line, l: Locals): (r: Outcome<Exit>)
    requires Sized(c, l) && 0 <= l.block < |c|
    ensures Stays(c, r)
    decreases |line| - l.positions[l.block]
  {
    var p := l.positions[l.block];
    if !(0 <= p < |line|) then Panic
    else if line[p] == Marked then
      var m := SetPosition(l, p + 1);
      if m.positions[l.block] >= |line| then Ok(Nil) else LeftSkipMarked(c, line, m)
    else
      var m := SetCoverage(l.(i := p), if line[p] != Full then -1 else p);
      LeftPlace(c, line, m.(i := m.i + 1))
  }

  /** `case placeblock`, its second loop: grow the block to its length. */
  function LeftPlace(c: seq<int>, line: Line, l: Locals): (r: Outcome<Exit>)
    requires Sized(c, l) && 0 <= l.block < |c|
    ensures Stays(c, r)
    decreases |line| - l.i
  {
    var b := l.block;
    if !(l.i - l.positions[b] < c[b]) then Ok(Next(l.(state := Sweep.FinalSpace)))
    else if l.i >= |line| then Ok(Nil)
    else if l.i < 0 then Panic
    else if line[l.i] == Marked then
      if l.coverage[b] == -1 then Ok(Next(SetPosition(l, l.i).(state := Sweep.PlaceBlock)))
      else Ok(Next(l.(state := Sweep.Backtrack)))
    else
      var m := if l.coverage[b] == -1 && Code(line[l.i]) == 1 then SetCoverage(l, l.i) else l;
      LeftPlace(c, line, m.(i := m.i + 1))
  }

  /** `case finalspace`, its loop: while the next cell is full, shift the
      block onto it. */
  function LeftShift(c: seq<int>, line: Line, l: Locals): (r: Outcome<Exit>)
    requires Sized(c, l) && 0 <= l.block < |c|
    ensures Stays(c, r)
    decreases |line| - l.i
  {
    var b := l.block;
    if l.i < |line| && l.i < 0 then Panic
    else if l.i < |line| && line[l.i] == Full then
      if l.coverage[b] == l.positions[b] then Ok(Next(l.(state := Sweep.Backtrack)))
      else
        var m := SetPosition(l, l.positions[b] + 1);
        var n := if m.coverage[b] == -1 && line[l.i] == Full then SetCoverage(m, l.i) else m;
        LeftShift(c, line, n.(i := n.i + 1))
    else LeftFinal(c, line, l)
  }

  /** `case finalspace`, after its loop. */
  function LeftFinal(c: seq<int>, line: Line, l: Locals): (r: Outcome<Exit>)
    requires Sized(c, l) && 0 <= l.block < |c|
    ensures Stays(c, r)
  {
    if l.backtracking && l.coverage[l.block] == -1 then
      Ok(Next(l.(backtracking := false, state := Sweep.AdvanceBlock)))
    else if l.i >= |line| && l.block < |c| - 1 then Ok(Nil)
    else Ok(Next(l.(block := l.block + 1, backtracking := false, state := Sweep.NewBlock)))
  }

  /** `case checkrest`: a full cell after the last block sends that block
      forward. */
  function LeftCheckRest(c: seq<int>, line: Line, l: Locals): (r: Outcome<Exit>)
    requires Sized(c, l)
    ensures Stays(c, r)
    decreases |line| - l.i
  {
    if l.i >= |line| then Ok(Next(l.(state := Sweep.Halt)))
    else if l.i < 0 then Panic
    else if line[l.i] == Full then
      if !(0 <= l.block < |c|) then Panic
      else Ok(Next(l.(i := l.positions[l.block] + c[l.block], state := Sweep.AdvanceBlock)))
    else LeftCheckRest(c, line, l.(i := l.i + 1))
  }

  /** `case backtrack`. */
  function LeftBacktrack(c: seq<int>, line: Line, l: Locals): (r: Outcome<Exit>)
    requires Sized(c, l)
    ensures Stays(c, r)
  {
    var b := l.block - 1;
    if b < 0 then Ok(Nil)
    else if b >= |c| then Panic
    else Ok(Next(l.(block := b, i := l.positions[b] + c[b], state := Sweep.AdvanceBlock)))
  }

  /** `case advanceblock`, its loop: slide the block toward an uncovered
      full cell. */
  function LeftAdvance(c: seq<int>, line: Line, l: Locals): (r: Outcome<Exit>)
    requires Sized(c, l) && 0 <= l.block < |c|
    ensures Stays(c, r)
    decreases |line| - l.i
  {
    var b := l.block;
    if !(l.coverage[b] < 0 && l.positions[b] < l.coverage[b]) then Ok(Next(l.(state := Sweep.Backtrack)))
    else if !(0 <= l.i < |line|) then Panic
    else if line[l.i] == Marked then
      if l.coverage[b] > 0 then Ok(Next(l.(state := Sweep.Backtrack)))
      else Ok(Next(SetPosition(l, l.i + 1).(backtracking := true, state := Sweep.PlaceBlock)))
    else
      var m := SetPosition(l, l.positions[b] + 1);
      if line[l.i] == Full then
        var n := m.(i := m.i + 1);
        var o := if n.coverage[b] == -1 then SetCoverage(n, n.i - 1) else n;
        Ok(Next(o.(state := Sweep.FinalSpace)))
      else
        var n := m.(i := m.i + 1);
        if n.i >= |line| then Ok(Nil) else LeftAdvance(c, line, n)
  }

  /** One pass of the `switch state`. */
  function LeftPass(c: seq<int>, line: Line, l: Locals): (r: Outcome<Exit>)
    requires Sized(c, l)
    ensures Stays(c, r)
  {
    match l.state
    case Halt => Ok(Next(l))
    case NewBlock => LeftNewBlock(c, line, l)
    case PlaceBlock => if !(0 <= l.block < |c|) then Panic else LeftSkipMarked(c, line, l)
    case FinalSpace => if !(0 <= l.block < |c|) then Panic else LeftShift(c, line, l)
    case CheckRest => LeftCheckRest(c, line, l)
    case Backtrack => LeftBacktrack(c, line, l)
    case AdvanceBlock => if !(0 <= l.block < |c|) then Panic else LeftAdvance(c, line, l)
  }

  /** `Loop: for state != halt`, then `return positions`. */
  function LeftLoop(fuel: nat, c: seq<int>, line: Line, l: Locals): (r: Outcome<Option<seq<int>>>)
    requires Sized(c, l)
    ensures r.Ok? && r.value.Some? ==> |r.value.value| == |c|
    decreases fuel
  {
    if l.state == Sweep.Halt then Ok(Some(l.positions))
    else if fuel == 0 then OutOfFuel
    else
      match LeftPass(c, line, l)
      case Panic => Panic
      case OutOfFuel => OutOfFuel
      case Ok(Nil) => Ok(None)
      case Ok(Next(m)) => LeftLoop(fuel - 1, c, line, m)
  }

  /** LeftSolve: the starts of the blocks packed to the left, or None (nil). */
  function LeftSolve(fuel: nat, c: seq<int>, line: Line): (r: Outcome<Option<seq<int>>>)
    ensures r.Ok? && r.value.Some? ==> |r.value.value| == |c|
  {
    LeftLoop(fuel, c, line, Locals(Sweep.NewBlock, 0, 0, false, seq(|c|, _ => 0), seq(|c|, _ => 0)))
  }

  // ---------------------------------------------------------------------
  // RightSolve
  // ---------------------------------------------------------------------

  /** `case newblock`; maxblock is |c| - 1. */
  function RightNewBlock(c: seq<int>, line: Line, l: Locals): (r: Outcome<Exit>)
    requires Sized(c, l)
    ensures Stays(c, r)
  {
    if l.block < 0 then
      var i := if l.block == |c| - 1 then |line| - 1 else l.i;
      Ok(Next(l.(i := i, block := l.block + 1, state := Sweep.CheckRest)))
    else if l.block >= |c| then Panic
    else
      var m := SetPosition(l, if l.block == |c| - 1 then |line| - 1 else l.i - 1);
      if m.positions[l.block] - c[l.block] + 1 < 0 then Ok(Nil)
      else Ok(Next(m.(state := Sweep.PlaceBlock)))
  }

  /** `case placeblock`, its first loop. */
  function RightSkipMarked(c: seq<int>, line: Line, l: Locals): (r: Outcome<Exit>)
    requires Sized(c, l) && 0 <= l.block < |c|
    ensures Stays(c, r)
    decreases l.positions[l.block] + 1
  {
    var p := l.positions[l.block];
    if !(0 <= p < |line|) then Panic
    else if line[p] == Marked then
      var m := SetPosition(l, p - 1);
      if m.positions[l.block] < 0 then Ok(Nil) else RightSkipMarked(c, line, m)
    else
      var m := SetCoverage(l.(i := p), if line[p] != Full then -1 else p);
      RightPlace(c, line, m.(i := m.i - 1))
  }

  /** `case placeblock`, its second loop. */
  function RightPlace(c: seq<int>, line: Line, l: Locals): (r: Outcome<Exit>)
    requires Sized(c, l) && 0 <= l.block < |c|
    ensures Stays(c, r)
    decreases l.i + 1
  {
    var b := l.block;
    if !(l.positions[b] - l.i < c[b]) then Ok(Next(l.(state := Sweep.FinalSpace)))
    else if l.i < 0 then Ok(Nil)
    else if l.i >= |line| then Panic
    else if line[l.i] == Marked then
      if l.coverage[b] == -1 then Ok(Next(SetPosition(l, l.i).(state := Sweep.PlaceBlock)))
      else Ok(Next(l.(state := Sweep.Backtrack)))
    else
      var m := if l.coverage[b] == -1 && Code(line[l.i]) == 1 then SetCoverage(l, l.i) else l;
      RightPlace(c, line, m.(i := m.i - 1))
  }

  /** `case finalspace`, its loop. */
  function RightShift(c: seq<int>, line: Line, l: Locals): (r: Outcome<Exit>)
    requires Sized(c, l) && 0 <= l.block < |c|
    ensures Stays(c, r)
    decreases l.i + 1
  {
    var b := l.block;
    if l.i >= 0 && l.i >= |line| then Panic
    else if l.i >= 0 && line[l.i] == Full then
      if l.coverage[b] == l.positions[b] then Ok(Next(l.(state := Sweep.Backtrack)))
      else
        var m := SetPosition(l, l.positions[b] - 1);
        var n := if m.coverage[b] == -1 && line[l.i] == Full then SetCoverage(m, l.i) else m;
        RightShift(c, line, n.(i := n.i - 1))
    else RightFinal(c, line, l)
  }

  /** `case finalspace`, after its loop. */
  function RightFinal(c: seq<int>, line: Line, l: Locals): (r: Outcome<Exit>)
    requires Sized(c, l) && 0 <= l.block < |c|
    ensures Stays(c, r)
  {
    if l.backtracking && l.coverage[l.block] == -1 then
      Ok(Next(l.(backtracking := false, state := Sweep.AdvanceBlock)))
    else if l.i < 0 && l.block > 0 then Ok(Nil)
    else Ok(Next(l.(block := l.block - 1, backtracking := false, state := Sweep.NewBlock)))
  }

  /** `case checkrest`. */
  function RightCheckRest(c: seq<int>, line: Line, l: Locals): (r: Outcome<Exit>)
    requires Sized(c, l)
    ensures Stays(c, r)
    decreases l.i + 1
  {
    if l.i < 0 then Ok(Next(l.(state := Sweep.Halt)))
    else if l.i >= |line| then Panic
    else if line[l.i] == Full then
      if !(0 <= l.block < |c|) then Panic
      else Ok(Next(l.(i := l.positions[l.block] - c[l.block], state := Sweep.AdvanceBlock)))
    else RightCheckRest(c, line, l.(i := l.i - 1))
  }

  /** `case backtrack`. */
  function RightBacktrack(c: seq<int>, line: Line, l: Locals): (r: Outcome<Exit>)
    requires Sized(c, l)
    ensures Stays(c, r)
  {
    var b := l.block + 1;
    if b > |c| - 1 then Ok(Nil)
    else if b < 0 then Panic
    else Ok(Next(l.(block := b, i := l.positions[b] - c[b], state := Sweep.AdvanceBlock)))
  }

  /** `case advanceblock`, its loop. */
  function RightAdvance(c: seq<int>, line: Line, l: Locals): (r: Outcome<Exit>)
    requires Sized(c, l) && 0 <= l.block < |c|
    ensures Stays(c, r)
    decreases l.i + 1
  {
    var b := l.block;
    if !(l.coverage[b] < 0 && l.positions[b] > l.coverage[b]) then Ok(Next(l.(state := Sweep.Backtrack)))
    else if !(0 <= l.i < |line|) then Panic
    else if line[l.i] == Marked then
      if l.coverage[b] > 0 then Ok(Next(l.(state := Sweep.Backtrack)))
      else Ok(Next(SetPosition(l, l.i - 1).(backtracking := true, state := Sweep.PlaceBlock)))
    else
      var m := SetPosition(l, l.positions[b] - 1);
      if line[l.i] == Full then
        var n := m.(i := m.i - 1);
        var o := if n.coverage[b] == -1 then SetCoverage(n, n.i - 1) else n;
        Ok(Next(o.(state := Sweep.FinalSpace)))
      else
        var n := m.(i := m.i - 1);
        if n.i < 0 then Ok(Nil) else RightAdvance(c, line, n)
  }

  /** One pass of the `switch state`. */
  function RightPass(c: seq<int>, line: Line, l: Locals): (r: Outcome<Exit>)
    requires Sized(c, l)
    ensures Stays(c, r)
  {
    match l.state
    case Halt => Ok(Next(l))
    case NewBlock => RightNewBlock(c, line, l)
    case PlaceBlock => if !(0 <= l.block < |c|) then Panic else RightSkipMarked(c, line, l)
    case FinalSpace => if !(0 <= l.block < |c|) then Panic else RightShift(c, line, l)
    case CheckRest => RightCheckRest(c, line, l)
    case Backtrack => RightBacktrack(c, line, l)
    case AdvanceBlock => if !(0 <= l.block < |c|) then Panic else RightAdvance(c, line, l)
  }

  function RightLoop(fuel: nat, c: seq<int>, line: Line, l: Locals): (r: Outcome<Option<seq<int>>>)
    requires Sized(c, l)
    ensures r.Ok? && r.value.Some? ==> |r.value.value| == |c|
    decreases fuel
  {
    if l.state == Sweep.Halt then Ok(Some(l.positions))
    else if fuel == 0 then OutOfFuel
    else
      match RightPass(c, line, l)
      case Panic => Panic
      case OutOfFuel => OutOfFuel
      case Ok(Nil) => Ok(None)
      case Ok(Next(m)) => RightLoop(fuel - 1, c, line, m)
  }

  /** RightSolve: the ends of the blocks packed to the right, or None (nil). */
  function RightSolve(fuel: nat, c: seq<int>, line: Line): (r: Outcome<Option<seq<int>>>)
    ensures r.Ok? && r.value.Some? ==> |r.value.value| == |c|
  {
    RightLoop(fuel, c, line, Locals(Sweep.NewBlock, 0, |c| - 1, false, seq(|c|, _ => 0), seq(|c|, _ => 0)))
  }
}
