/** The root package's LeftSolve and RightSolve (RootSweep) against the
    direction-parameterised machine (Sweep): pass for pass, the Go locals
    and the fields of a FastLineSolver hold the same values, a `return nil`
    is a halt with `contradiction`, and a panic is a panic. So LeftSolve
    gives what the left FastLineSolver of solver/linesolver.go gives, and
    RightSolve is the right machine whose moveBlockForward subtracts. */
module RootSweepProof {

  import opened Cells
  import opened Outcomes
  import opened Sweep
  import RootSweep

  /** The Go locals l and the machine s hold the same values. */
  predicate Same(c: seq<int>, line: Line, l: RootSweep.Locals, s: Solver) {
    && s.WellFormed() && s.constraints == c && s.line == line && !s.contradiction
    && s.state == l.state && s.currentIndex == l.i && s.blockIndex == l.block
    && s.backtracking == l.backtracking && s.positions == l.positions && s.coverage == l.coverage
  }

  /** A pass of the Go loop and a machine transition end alike. */
  predicate Alike(c: seq<int>, line: Line, r: Outcome<RootSweep.Exit>, q: Outcome<Solver>) {
    match r
    case Panic => q.Panic?
    case OutOfFuel => q.OutOfFuel?
    case Ok(e) =>
      q.Ok? && match e
        case Nil => q.value.state == Halt && q.value.contradiction
        case Next(m) => Same(c, line, m, q.value)
  }

  // ---------------------------------------------------------------------
  // LeftSolve
  // ---------------------------------------------------------------------

  lemma LeftNewBlockAlike(c: seq<int>, line: Line, l: RootSweep.Locals, s: Solver)
    requires Same(c, line, l, s) && s.dir == Left
    ensures Alike(c, line, RootSweep.LeftNewBlock(c, line, l), NewBlockStep(s))
  {
  }

  lemma {:induction false} LeftPlaceAlike(c: seq<int>, line: Line, l: RootSweep.Locals, s: Solver)
    requires Same(c, line, l, s) && s.dir == Left && 0 <= l.block < |c|
    ensures Alike(c, line, RootSweep.LeftPlace(c, line, l), FillBlock(s))
    decreases |line| - l.i
  {
    var b := l.block;
    if l.i - l.positions[b] < c[b] && 0 <= l.i < |line| && line[l.i] != Marked {
      var m := if l.coverage[b] == -1 && Code(line[l.i]) == 1 then RootSweep.SetCoverage(l, l.i) else l;
      LeftPlaceAlike(c, line, m.(i := m.i + 1), ExtendBlock(s));
    }
  }

  lemma {:induction false} LeftSkipMarkedAlike(c: seq<int>, line: Line, l: RootSweep.Locals, s: Solver)
    requires Same(c, line, l, s) && s.dir == Left && 0 <= l.block < |c|
    ensures Alike(c, line, RootSweep.LeftSkipMarked(c, line, l), SkipMarked(s))
    decreases |line| - l.positions[l.block]
  {
    var p := l.positions[l.block];
    if 0 <= p < |line| {
      if line[p] == Marked {
        var m := RootSweep.SetPosition(l, p + 1);
        if m.positions[l.block] < |line| {
          LeftSkipMarkedAlike(c, line, m, s.SetPosition(p + 1));
        }
      } else {
        var m := RootSweep.SetCoverage(l.(i := p), if line[p] != Full then -1 else p);
        LeftPlaceAlike(c, line, m.(i := m.i + 1), s.(currentIndex := Forward(s.dir, p)).SetCoverage(if line[p] != Full then -1 else p));
      }
    }
  }

  lemma {:induction false} LeftShiftAlike(c: seq<int>, line: Line, l: RootSweep.Locals, s: Solver)
    requires Same(c, line, l, s) && s.dir == Left && 0 <= l.block < |c|
    ensures Alike(c, line, RootSweep.LeftShift(c, line, l), ShiftPastFull(s))
    decreases |line| - l.i
  {
    var b := l.block;
    if 0 <= l.i < |line| && line[l.i] == Full && l.coverage[b] != l.positions[b] {
      var m := RootSweep.SetPosition(l, l.positions[b] + 1);
      var n := if m.coverage[b] == -1 && line[l.i] == Full then RootSweep.SetCoverage(m, l.i) else m;
      LeftShiftAlike(c, line, n.(i := n.i + 1), ShiftBlock(s));
    }
  }

  lemma {:induction false} LeftCheckRestAlike(c: seq<int>, line: Line, l: RootSweep.Locals, s: Solver)
    requires Same(c, line, l, s) && s.dir == Left
    ensures Alike(c, line, RootSweep.LeftCheckRest(c, line, l), CheckRestStep(s))
    decreases |line| - l.i
  {
    if 0 <= l.i < |line| && line[l.i] != Full {
      LeftCheckRestAlike(c, line, l.(i := l.i + 1), s.(currentIndex := Forward(s.dir, s.currentIndex)));
    }
  }

  lemma LeftBacktrackAlike(c: seq<int>, line: Line, l: RootSweep.Locals, s: Solver)
    requires Same(c, line, l, s) && s.dir == Left
    ensures Alike(c, line, RootSweep.LeftBacktrack(c, line, l), BacktrackStep(s))
  {
  }

  lemma {:induction false} LeftAdvanceAlike(c: seq<int>, line: Line, l: RootSweep.Locals, s: Solver)
    requires Same(c, line, l, s) && s.dir == Left && 0 <= l.block < |c|
    ensures Alike(c, line, RootSweep.LeftAdvance(c, line, l), Slide(s))
    decreases |line| - l.i
  {
    var b := l.block;
    if l.coverage[b] < 0 && l.positions[b] < l.coverage[b] && 0 <= l.i < |line| && line[l.i] == Empty {
      var n := RootSweep.SetPosition(l, l.positions[b] + 1).(i := l.i + 1);
      if n.i < |line| {
        LeftAdvanceAlike(c, line, n, s.SetPosition(Forward(s.dir, s.positions[b])).(currentIndex := Forward(s.dir, s.currentIndex)));
      }
    }
  }

  /** A pass of LeftSolve's loop is a transition of the left machine. */
  lemma LeftPassAlike(c: seq<int>, line: Line, l: RootSweep.Locals, s: Solver)
    requires Same(c, line, l, s) && s.dir == Left && l.state != Halt
    ensures Alike(c, line, RootSweep.LeftPass(c, line, l), Step(s))
  {
    match l.state
    case NewBlock => LeftNewBlockAlike(c, line, l, s);
    case PlaceBlock => if 0 <= l.block < |c| { LeftSkipMarkedAlike(c, line, l, s); }
    case FinalSpace => if 0 <= l.block < |c| { LeftShiftAlike(c, line, l, s); }
    case CheckRest => LeftCheckRestAlike(c, line, l, s);
    case Backtrack => LeftBacktrackAlike(c, line, l, s);
    case AdvanceBlock => if 0 <= l.block < |c| { LeftAdvanceAlike(c, line, l, s); }
  }

  lemma {:induction false} LeftLoopAlike(fuel: nat, c: seq<int>, line: Line, l: RootSweep.Locals, s: Solver)
    requires Same(c, line, l, s) && s.dir == Left
    ensures RootSweep.LeftLoop(fuel, c, line, l) == Run(fuel, s)
    decreases fuel
  {
    if l.state != Halt && fuel > 0 {
      LeftPassAlike(c, line, l, s);
      var r := RootSweep.LeftPass(c, line, l);
      if r.Ok? && r.value.Next? {
        LeftLoopAlike(fuel - 1, c, line, r.value.l, Step(s).value);
      }
    }
  }

  /** linesolver.go's LeftSolve has, on every input, the outcome of the
      left machine of either text: the same starts, the same nil, the same
      panic. */
  lemma LeftSolveIsLeftSweep(fuel: nat, c: seq<int>, line: Line, v: Version)
    ensures RootSweep.LeftSolve(fuel, c, line) == Run(fuel, NewLeftLineSolver(v, c, line))
  {
    LeftLoopAlike(fuel, c, line, RootSweep.Locals(NewBlock, 0, 0, false, seq(|c|, _ => 0), seq(|c|, _ => 0)), NewLeftLineSolver(v, c, line));
  }

  /** Hence LeftSolve and the left FastLineSolver of solver/linesolver.go
      agree on every input. */
  lemma LeftSweepsAgree(fuel: nat, c: seq<int>, line: Line)
    ensures RootSweep.LeftSolve(fuel, c, line) == FastLeft(fuel, c, line)
  {
    LeftSolveIsLeftSweep(fuel, c, line, Fast);
  }

  // ---------------------------------------------------------------------
  // RightSolve
  // ---------------------------------------------------------------------

  lemma RightNewBlockAlike(c: seq<int>, line: Line, l: RootSweep.Locals, s: Solver)
    requires Same(c, line, l, s) && s.dir == Right
    ensures Alike(c, line, RootSweep.RightNewBlock(c, line, l), NewBlockStep(s))
  {
  }

  lemma {:induction false} RightPlaceAlike(c: seq<int>, line: Line, l: RootSweep.Locals, s: Solver)
    requires Same(c, line, l, s) && s.dir == Right && 0 <= l.block < |c|
    ensures Alike(c, line, RootSweep.RightPlace(c, line, l), FillBlock(s))
    decreases l.i + 1
  {
    var b := l.block;
    if l.positions[b] - l.i < c[b] && 0 <= l.i < |line| && line[l.i] != Marked {
      var m := if l.coverage[b] == -1 && Code(line[l.i]) == 1 then RootSweep.SetCoverage(l, l.i) else l;
      RightPlaceAlike(c, line, m.(i := m.i - 1), ExtendBlock(s));
    }
  }

  lemma {:induction false} RightSkipMarkedAlike(c: seq<int>, line: Line, l: RootSweep.Locals, s: Solver)
    requires Same(c, line, l, s) && s.dir == Right && 0 <= l.block < |c|
    ensures Alike(c, line, RootSweep.RightSkipMarked(c, line, l), SkipMarked(s))
    decreases l.positions[l.block] + 1
  {
    var p := l.positions[l.block];
    if 0 <= p < |line| {
      if line[p] == Marked {
        var m := RootSweep.SetPosition(l, p - 1);
        if m.positions[l.block] >= 0 {
          RightSkipMarkedAlike(c, line, m, s.SetPosition(p - 1));
        }
      } else {
        var m := RootSweep.SetCoverage(l.(i := p), if line[p] != Full then -1 else p);
        RightPlaceAlike(c, line, m.(i := m.i - 1), s.(currentIndex := Forward(s.dir, p)).SetCoverage(if line[p] != Full then -1 else p));
      }
    }
  }

  lemma {:induction false} RightShiftAlike(c: seq<int>, line: Line, l: RootSweep.Locals, s: Solver)
    requires Same(c, line, l, s) && s.dir == Right && 0 <= l.block < |c|
    ensures Alike(c, line, RootSweep.RightShift(c, line, l), ShiftPastFull(s))
    decreases l.i + 1
  {
    var b := l.block;
    if 0 <= l.i < |line| && line[l.i] == Full && l.coverage[b] != l.positions[b] {
      var m := RootSweep.SetPosition(l, l.positions[b] - 1);
      var n := if m.coverage[b] == -1 && line[l.i] == Full then RootSweep.SetCoverage(m, l.i) else m;
      RightShiftAlike(c, line, n.(i := n.i - 1), ShiftBlock(s));
    }
  }

  lemma {:induction false} RightCheckRestAlike(c: seq<int>, line: Line, l: RootSweep.Locals, s: Solver)
    requires Same(c, line, l, s) && s.dir == Right && s.version == Legacy
    ensures Alike(c, line, RootSweep.RightCheckRest(c, line, l), CheckRestStep(s))
    decreases l.i + 1
  {
    if 0 <= l.i < |line| && line[l.i] != Full {
      RightCheckRestAlike(c, line, l.(i := l.i - 1), s.(currentIndex := Forward(s.dir, s.currentIndex)));
    }
  }

  lemma RightBacktrackAlike(c: seq<int>, line: Line, l: RootSweep.Locals, s: Solver)
    requires Same(c, line, l, s) && s.dir == Right && s.version == Legacy
    ensures Alike(c, line, RootSweep.RightBacktrack(c, line, l), BacktrackStep(s))
  {
  }

  lemma {:induction false} RightAdvanceAlike(c: seq<int>, line: Line, l: RootSweep.Locals, s: Solver)
    requires Same(c, line, l, s) && s.dir == Right && 0 <= l.block < |c|
    ensures Alike(c, line, RootSweep.RightAdvance(c, line, l), Slide(s))
    decreases l.i + 1
  {
    var b := l.block;
    if l.coverage[b] < 0 && l.positions[b] > l.coverage[b] && 0 <= l.i < |line| && line[l.i] == Empty {
      var n := RootSweep.SetPosition(l, l.positions[b] - 1).(i := l.i - 1);
      if n.i >= 0 {
        RightAdvanceAlike(c, line, n, s.SetPosition(Forward(s.dir, s.positions[b])).(currentIndex := Forward(s.dir, s.currentIndex)));
      }
    }
  }

  /** A pass of RightSolve's loop is a transition of the right machine
      whose moveBlockForward subtracts. */
  lemma RightPassAlike(c: seq<int>, line: Line, l: RootSweep.Locals, s: Solver)
    requires Same(c, line, l, s) && s.dir == Right && s.version == Legacy && l.state != Halt
    ensures Alike(c, line, RootSweep.RightPass(c, line, l), Step(s))
  {
    match l.state
    case NewBlock => RightNewBlockAlike(c, line, l, s);
    case PlaceBlock => if 0 <= l.block < |c| { RightSkipMarkedAlike(c, line, l, s); }
    case FinalSpace => if 0 <= l.block < |c| { RightShiftAlike(c, line, l, s); }
    case CheckRest => RightCheckRestAlike(c, line, l, s);
    case Backtrack => RightBacktrackAlike(c, line, l, s);
    case AdvanceBlock => if 0 <= l.block < |c| { RightAdvanceAlike(c, line, l, s); }
  }

  lemma {:induction false} RightLoopAlike(fuel: nat, c: seq<int>, line: Line, l: RootSweep.Locals, s: Solver)
    requires Same(c, line, l, s) && s.dir == Right && s.version == Legacy
    ensures RootSweep.RightLoop(fuel, c, line, l) == Run(fuel, s)
    decreases fuel
  {
    if l.state != Halt && fuel > 0 {
      RightPassAlike(c, line, l, s);
      var r := RootSweep.RightPass(c, line, l);
      if r.Ok? && r.value.Next? {
        RightLoopAlike(fuel - 1, c, line, r.value.l, Step(s).value);
      }
    }
  }

  /** linesolver.go's RightSolve has, on every input, the outcome of the
      right machine with moveBlockForward's `-`. */
  lemma RightSolveIsRightSweep(fuel: nat, c: seq<int>, line: Line)
    ensures RootSweep.RightSolve(fuel, c, line) == Run(fuel, NewRightLineSolver(Legacy, c, line))
  {
    RightLoopAlike(fuel, c, line, RootSweep.Locals(NewBlock, 0, |c| - 1, false, seq(|c|, _ => 0), seq(|c|, _ => 0)), NewRightLineSolver(Legacy, c, line));
  }
}
