/** What the tree solver's loop establishes when its line rule is sound:
    run with the reference rule, logicSolve never reports a contradiction
    on a puzzle that has a solution, and every cell it decides is the
    cell of every solution. */
module TreeSound {

  import opened Cells
  import opened Outcomes
  import opened Puzzles
  import opened BoardLines
  import opened TreeSolver
  import Reference

  /** g solves the puzzle: every row and every column is decided and has
      exactly its clue's blocks. */
  ghost predicate PuzzleSolution(p: Puzzle, g: Board) {
    && Shaped(p, g)
    && forall lt, index :: ValidIndex(p, lt, index) ==>
         Reference.Solution(GetLine(g, p, lt, index), Clues(p, lt, index))
  }

  /** Every cell the board knows is the solution's cell. */
  predicate BoardAgrees(p: Puzzle, g: Board, b: Board)
    requires Shaped(p, g) && Shaped(p, b)
  {
    forall i, j :: 0 <= i < |p.rows| && 0 <= j < |p.cols| && b[i][j] != Empty ==> g[i][j] == b[i][j]
  }

  /** Every queued line snapshot keeps only cells of the solution. */
  predicate JobsAgree(p: Puzzle, g: Board, jobs: seq<Job>)
    requires Shaped(p, g)
  {
    forall y :: y in jobs && ValidIndex(p, y.ltype, y.index) ==>
      Reference.Agrees(GetLine(g, p, y.ltype, y.index), y.line)
  }

  /** The solver's state is consistent with the solution g. */
  ghost predicate Admits(t: Tree, g: Board) {
    && PuzzleSolution(t.puzzle, g)
    && Shaped(t.puzzle, t.board)
    && BoardAgrees(t.puzzle, g, t.board)
    && JobsAgree(t.puzzle, g, t.jobs)
  }

  /** A board that agrees with g agrees with it line by line. */
  lemma LineAgrees(p: Puzzle, g: Board, b: Board, lt: LineType, index: int)
    requires Shaped(p, g) && Shaped(p, b) && ValidIndex(p, lt, index)
    requires BoardAgrees(p, g, b)
    ensures Reference.Agrees(GetLine(g, p, lt, index), GetLine(b, p, lt, index))
  {
    var s, line := GetLine(g, p, lt, index), GetLine(b, p, lt, index);
    forall k | 0 <= k < |line| && line[k] != Empty ensures s[k] == line[k] {
      if lt == Row {
        assert line[k] == b[index][k];
      } else {
        assert line[k] == b[k][index] && s[k] == g[k][index];
      }
    }
  }

  /** Writing back a line that agrees with g keeps the board agreeing. */
  lemma SetLineAgrees(p: Puzzle, g: Board, b: Board, lt: LineType, index: int, line: Line)
    requires Shaped(p, g) && Shaped(p, b) && ValidIndex(p, lt, index) && |line| == LineLength(p, lt)
    requires BoardAgrees(p, g, b)
    requires Reference.Agrees(GetLine(g, p, lt, index), line)
    ensures BoardAgrees(p, g, SetLine(b, p, lt, index, line))
  {
    var r := SetLine(b, p, lt, index, line);
    var s := GetLine(g, p, lt, index);
    forall i, j | 0 <= i < |p.rows| && 0 <= j < |p.cols| && r[i][j] != Empty
      ensures g[i][j] == r[i][j]
    {
      if OnLine(lt, index, i, j) {
        var k := PosOnLine(lt, i, j);
        assert r[i][j] == line[k];
        if lt == Row {
          assert s[k] == g[i][j];
        } else {
          assert s[k] == g[i][j];
        }
      }
    }
  }

  /** The jobs updateJobs adds are read from a board agreeing with g. */
  lemma UpdateJobsAgree(p: Puzzle, g: Board, rest: seq<Job>, b: Board, lt: LineType, oldLine: Line, newLine: Line)
    requires Shaped(p, g) && Shaped(p, b) && |oldLine| == LineLength(p, lt) && |newLine| == LineLength(p, lt)
    requires BoardAgrees(p, g, b) && JobsAgree(p, g, rest)
    ensures JobsAgree(p, g, UpdateJobs(rest, b, p, lt, oldLine, newLine))
  {
    var jobs := UpdateJobs(rest, b, p, lt, oldLine, newLine);
    forall y | y in jobs && ValidIndex(p, y.ltype, y.index)
      ensures Reference.Agrees(GetLine(g, p, y.ltype, y.index), y.line)
    {
      var k :| 0 <= k < |jobs| && jobs[k] == y;
      if k < |rest| {
        assert jobs[..|rest|][k] == rest[k];
        assert rest[k] in rest;
      } else {
        assert Appended(jobs[k], rest, b, p, lt, oldLine, newLine, 0);
        LineAgrees(p, g, b, y.ltype, y.index);
      }
    }
  }

  /** Writing back a line that agrees with g keeps the state consistent
      with g. */
  lemma WriteBackAdmits(t: Tree, y: Job, rest: seq<Job>, line: Line, result: Line, g: Board)
    requires Shaped(t.puzzle, t.board) && JobOk(t.puzzle, y)
    requires (forall z :: z in rest ==> JobOk(t.puzzle, z)) && UniqueKeys(rest)
    requires |line| == LineLength(t.puzzle, y.ltype) && |result| == LineLength(t.puzzle, y.ltype)
    requires PuzzleSolution(t.puzzle, g) && BoardAgrees(t.puzzle, g, t.board) && JobsAgree(t.puzzle, g, rest)
    requires Reference.Agrees(GetLine(g, t.puzzle, y.ltype, y.index), result)
    ensures Admits(WriteBack(t, y, rest, line, result), g)
  {
    var p := t.puzzle;
    var u := WriteBack(t, y, rest, line, result);
    SetLineAgrees(p, g, t.board, y.ltype, y.index, result);
    var board := SetLine(t.board, p, y.ltype, y.index, result);
    UpdateJobsAgree(p, g, rest, board, y.ltype, line, result);
    var jobs := UpdateJobs(rest, board, p, y.ltype, line, result);
    assert u.jobs == SortByScore(jobs);
    forall z | z in u.jobs ensures z in jobs {
      assert z in multiset(u.jobs);
    }
  }

  /** The line a popped job works on keeps only cells of g. */
  lemma CurrentLineAgrees(t: Tree, y: Job, g: Board)
    requires Consistent(t) && y in t.jobs && Admits(t, g)
    ensures Reference.Agrees(GetLine(g, t.puzzle, y.ltype, y.index), CurrentLine(t.board, t.puzzle, y))
  {
    if y.ltype == Row {
      LineAgrees(t.puzzle, g, t.board, Row, y.index);
    }
  }

  /** A turn under the reference rule whose deduction succeeds: the popped
      line is written back when it changed, dropped when it did not. */
  lemma ExecuteDeduced(sweepFuel: nat, t: Tree) returns (y: Job, rest: seq<Job>, line: Line)
    requires Consistent(t) && |t.jobs| > 0
    requires Reference.Deduce(t.jobs[|t.jobs| - 1].constraints, CurrentLine(t.board, t.puzzle, t.jobs[|t.jobs| - 1])).ok
    ensures y == t.jobs[|t.jobs| - 1] && y in t.jobs && JobOk(t.puzzle, y)
    ensures rest == t.jobs[..|t.jobs| - 1] && (forall z :: z in rest ==> JobOk(t.puzzle, z)) && UniqueKeys(rest)
    ensures line == CurrentLine(t.board, t.puzzle, y)
    ensures var result := Reference.Deduce(y.constraints, line).result;
      Execute(Corrected, sweepFuel, t) ==
        if result == line then Ok(Turn(t.(jobs := rest), true))
        else Ok(Turn(WriteBack(t, y, rest, line, result), true))
  {
    y := t.jobs[|t.jobs| - 1];
    rest := t.jobs[..|t.jobs| - 1];
    assert y in t.jobs;
    assert forall z :: z in rest ==> z in t.jobs;
    line := CurrentLine(t.board, t.puzzle, y);
    assert ApplyRule(Corrected, sweepFuel, y.constraints, line) == Ok(Reference.Deduce(y.constraints, line));
  }

  /** One turn under the reference rule never fails and keeps the state
      consistent with every solution it was consistent with. */
  lemma ExecuteSound(sweepFuel: nat, t: Tree, g: Board)
    requires Consistent(t) && |t.jobs| > 0 && Admits(t, g)
    ensures Execute(Corrected, sweepFuel, t).Ok?
    ensures Execute(Corrected, sweepFuel, t).value.ok
    ensures Admits(Execute(Corrected, sweepFuel, t).value.tree, g)
  {
    var p := t.puzzle;
    var y0 := t.jobs[|t.jobs| - 1];
    assert y0 in t.jobs;
    var s := GetLine(g, p, y0.ltype, y0.index);
    CurrentLineAgrees(t, y0, g);
    Reference.DeduceSound(y0.constraints, CurrentLine(t.board, p, y0), s);
    var y, rest, line := ExecuteDeduced(sweepFuel, t);
    var result := Reference.Deduce(y.constraints, line).result;
    if result != line {
      WriteBackAdmits(t, y, rest, line, result, g);
    } else {
      assert JobsAgree(p, g, rest) by {
        forall z | z in rest ensures z in t.jobs {
          assert z in t.jobs[..|t.jobs| - 1];
        }
      }
    }
  }

  /** One turn under the reference rule succeeds and hands the rest of the
      loop to a state that is still consistent with g. */
  lemma TurnAdmits(sweepFuel: nat, fuel: nat, t: Tree, g: Board) returns (next: Tree)
    requires Consistent(t) && Admits(t, g) && |t.jobs| > 0 && fuel > 0
    ensures Consistent(next) && Admits(next, g)
    ensures Propagate(Corrected, sweepFuel, fuel, t) == Propagate(Corrected, sweepFuel, fuel - 1, next)
  {
    ExecuteSound(sweepFuel, t, g);
    next := Execute(Corrected, sweepFuel, t).value.tree;
    assert TakeTurn(Corrected, sweepFuel, fuel, t) == Propagate(Corrected, sweepFuel, fuel - 1, next);
    assert Propagate(Corrected, sweepFuel, fuel, t) == Continue(Corrected, sweepFuel, fuel, t);
  }

  /** logicSolve's loop under the reference rule: it runs out of fuel, or
      it ends with every job done and no contradiction, on a board whose
      every decided cell is the solution's. */
  lemma {:induction false} PropagateSound(sweepFuel: nat, fuel: nat, t: Tree, g: Board)
    requires Consistent(t) && Admits(t, g)
    ensures var r := Propagate(Corrected, sweepFuel, fuel, t);
      r.OutOfFuel? || (r.Ok? && r.value.ok && Admits(r.value.tree, g))
    decreases fuel
  {
    if |t.jobs| > 0 && fuel > 0 {
      var next := TurnAdmits(sweepFuel, fuel, t, g);
      PropagateSound(sweepFuel, fuel - 1, next, g);
    }
  }

  /** The fresh solver admits every solution of its puzzle. */
  lemma NewTreeSolverAdmits(p: Puzzle, g: Board)
    requires PuzzleSolution(p, g)
    ensures Admits(NewTreeSolver(p), g)
  {
    var t := NewTreeSolver(p);
    forall y | y in t.jobs && ValidIndex(p, y.ltype, y.index)
      ensures Reference.Agrees(GetLine(g, p, y.ltype, y.index), y.line)
    {
      var k :| 0 <= k < |t.jobs| && t.jobs[k] == y;
      LineAgrees(p, g, t.board, y.ltype, y.index);
    }
  }

  /** Solving a puzzle that has a solution g with the reference rule: the
      run is cut short by the fuel bound, or logicSolve finishes without a
      contradiction and the board returned keeps only cells of g. */
  lemma SolveSound(sweepFuel: nat, fuel: nat, p: Puzzle, g: Board)
    requires PuzzleSolution(p, g)
    ensures var t := NewTreeSolver(p);
      var r := LogicSolve(Corrected, sweepFuel, fuel, t);
      r.OutOfFuel? || (r.Ok? && r.value.ok && BoardAgrees(p, g, r.value.tree.board))
    ensures var r := Solve(Corrected, sweepFuel, fuel, NewTreeSolver(p));
      r.OutOfFuel? || (r.Ok? && BoardAgrees(p, g, r.value.board))
  {
    var t := NewTreeSolver(p);
    NewTreeSolverAdmits(p, g);
    PropagateSound(sweepFuel, fuel, t, g);
  }

  /** A finished run that leaves no cell unknown has found the puzzle's
      solution, which is then the only one. */
  lemma SolvedBoardIsSolution(sweepFuel: nat, fuel: nat, p: Puzzle, g: Board)
    requires PuzzleSolution(p, g)
    requires LogicSolve(Corrected, sweepFuel, fuel, NewTreeSolver(p)).Ok?
    requires LogicSolve(Corrected, sweepFuel, fuel, NewTreeSolver(p)).value.emptyCells == 0
    ensures LogicSolve(Corrected, sweepFuel, fuel, NewTreeSolver(p)).value.tree.board == g
  {
    SolveSound(sweepFuel, fuel, p, g);
    var b := LogicSolve(Corrected, sweepFuel, fuel, NewTreeSolver(p)).value.tree.board;
    EmptyCellsZero(b);
    forall i | 0 <= i < |b| ensures b[i] == g[i] {
      assert |b[i]| == |g[i]|;
    }
  }
}
