/** intersect evaluated on the inputs of TestIntersect
    (solver/linesolver_test.go:60-104, linesolver_test.go:56-77), on an
    input that shows a known cell being dropped, and on one where it
    deduces a cell that a solution of the line contradicts. */
module LineSolverVectors {

  import opened Cells
  import opened Outcomes
  import opened Sweep
  import opened Placement
  import opened LineSolver
  import opened SweepVectors
  import Reference

  /** solver/linesolver_test.go:61-70: a block as long as the line fills it. */
  lemma IntersectFullTest()
    ensures SolveLine(20, [5], [Empty, Empty, Empty, Empty, Empty]) == Ok(Solved([Full, Full, Full, Full, Full], true))
  {
    assert Fill(5, Full) == [Full, Full, Full, Full, Full];
  }

  /** solver/linesolver_test.go:72-81: a clue of 0 marks the whole line. */
  lemma IntersectEmptyTest()
    ensures SolveLine(20, [0], [Empty, Empty, Empty, Empty, Empty]) == Ok(Solved([Marked, Marked, Marked, Marked, Marked], true))
  {
    assert Fill(5, Marked) == [Marked, Marked, Marked, Marked, Marked];
  }

  /** linesolver.go's Intersect on the inputs of linesolver_test.go:57-77. */
  lemma LegacyIntersectTests()
    ensures Intersect(Legacy, 20, [5], [Empty, Empty, Empty, Empty, Empty]) == Ok(Solved([Full, Full, Full, Full, Full], true))
    ensures Intersect(Legacy, 20, [0], [Empty, Empty, Empty, Empty, Empty]) == Ok(Solved([Marked, Marked, Marked, Marked, Marked], true))
  {
    assert Fill(5, Full) == [Full, Full, Full, Full, Full];
    assert Fill(5, Marked) == [Marked, Marked, Marked, Marked, Marked];
  }

  /** The walk for a block of 3 starting at 0 on the left and at 2 on the
      right: only cell 2 lies in the block in both placements. */
  lemma MiddleWalk()
    ensures WalkLine(5, [3], [0], [2]) == [Empty, Empty, Full, Empty, Empty]
  {
    var c, ls, rs := [3], [0], [2];
    assert Walk(5, c, ls, rs, 5, Track(1, true), Track(0, false)) == [];
    assert Walk(5, c, ls, rs, 4, Track(1, true), Track(0, false)) == [Empty];
    assert Walk(5, c, ls, rs, 3, Track(0, false), Track(0, false)) == [Empty, Empty];
    assert Walk(5, c, ls, rs, 2, Track(0, false), Track(0, true)) == [Full, Empty, Empty];
    assert Walk(5, c, ls, rs, 1, Track(0, false), Track(0, true)) == [Empty, Full, Empty, Empty];
  }

  /** solver/linesolver_test.go:83-92: a block of 3 in 5 cells covers the
      middle cell whatever its place. */
  lemma IntersectMiddleTest()
    ensures SolveLine(20, [3], [Empty, Empty, Empty, Empty, Empty]) == Ok(Solved([Empty, Empty, Full, Empty, Empty], true))
  {
    var line := [Empty, Empty, Empty, Empty, Empty];
    FastLeftOpenLine();
    FastRightOpenLine();
    assert Run(20, NewLeftLineSolver(Fast, [3], line)) == Ok(Some([0]));
    assert Run(20, NewRightLineSolver(Fast, [3], line)) == Ok(Some([4]));
    assert StartsOfEnds([3], [4]) == [2];
    MiddleWalk();
    assert Intersect(Fast, 20, [3], line) == Ok(Solved([Empty, Empty, Full, Empty, Empty], true));
  }

  /** solver/linesolver_test.go:94-103 expects [Full, Full, Full, Marked,
      Marked]; the right sweep refuses to move its block, which already
      covers cell 2, over cell 0, reports a contradiction, and intersect
      returns an empty line and not ok. */
  lemma IntersectKnownTest()
    ensures SolveLine(20, [3], [Full, Empty, Full, Empty, Empty]) == Ok(Solved([Empty, Empty, Empty, Empty, Empty], false))
  {
    FastLeftKnownLine();
    FastRightKnownLine();
    assert Fill(5, Empty) == [Empty, Empty, Empty, Empty, Empty];
  }

  /** The walk for a block of 1 starting at 0 on the left and at 2 on the
      right: the placements share no cell, so no cell is decided. */
  lemma MarkWalk()
    ensures WalkLine(3, [1], [0], [2]) == [Empty, Empty, Empty]
  {
    var c, ls, rs := [1], [0], [2];
    assert Walk(3, c, ls, rs, 3, Track(1, true), Track(0, false)) == [];
    assert Walk(3, c, ls, rs, 2, Track(1, true), Track(0, true)) == [Empty];
    assert Walk(3, c, ls, rs, 1, Track(0, false), Track(0, true)) == [Empty, Empty];
  }

  /** A block of 1 on [Empty, Marked, Empty] may lie at 0 or at 2, so
      intersect deduces nothing, and it returns the marked cell 1 as
      Empty: the input's knowledge is not carried into the result. */
  lemma IntersectDropsMark()
    ensures SolveLine(20, [1], [Empty, Marked, Empty]) == Ok(Solved([Empty, Empty, Empty], true))
  {
    var line := [Empty, Marked, Empty];
    FastLeftAroundMark();
    FastRightAroundMark();
    assert StartsOfEnds([1], [2]) == [2];
    MarkWalk();
    assert Intersect(Fast, 20, [1], line) == Ok(Solved([Empty, Empty, Empty], true));
  }

  /** The last three cells of the walk for blocks of 1 starting at 0 and 2
      on the left and at 0 and 6 on the right. */
  lemma TwoOnesWalkTail()
    ensures Walk(7, [1, 1], [0, 2], [0, 6], 4, Track(2, true), Track(1, true)) == [Empty, Empty, Empty]
  {
    var c, ls, rs := [1, 1], [0, 2], [0, 6];
    assert Walk(7, c, ls, rs, 7, Track(2, true), Track(1, false)) == [];
    assert Walk(7, c, ls, rs, 6, Track(2, true), Track(1, true)) == [Empty];
    assert Walk(7, c, ls, rs, 5, Track(2, true), Track(1, true)) == [Empty, Empty];
  }

  /** Cells 2 and 3 of that walk: the second left block on cell 2. */
  lemma TwoOnesWalkMiddle()
    ensures Walk(7, [1, 1], [0, 2], [0, 6], 2, Track(1, true), Track(1, true)) == [Empty, Empty, Empty, Empty, Empty]
  {
    var c, ls, rs := [1, 1], [0, 2], [0, 6];
    TwoOnesWalkTail();
    assert Walk(7, c, ls, rs, 3, Track(1, false), Track(1, true)) == [Empty, Empty, Empty, Empty];
  }

  /** The whole walk: both placements put block 0 on cell 0 and leave cell
      1 in the gap after it. */
  lemma TwoOnesWalk()
    ensures WalkLine(7, [1, 1], [0, 2], [0, 6]) == [Full, Marked, Empty, Empty, Empty, Empty, Empty]
  {
    var c, ls, rs := [1, 1], [0, 2], [0, 6];
    TwoOnesWalkMiddle();
    assert Walk(7, c, ls, rs, 1, Track(0, false), Track(0, false)) == [Marked, Empty, Empty, Empty, Empty, Empty];
  }

  /** The runs of {marked, marked, full, marked, full, marked, marked}. */
  lemma TwoOnesRuns()
    ensures Reference.Runs([Marked, Marked, Full, Marked, Full, Marked, Marked]) == [1, 1]
  {
    var F, M := Full, Marked;
    var s := [M, M, F, M, F, M, M];
    assert s[1..] == [M, F, M, F, M, M] && s[2..] == [F, M, F, M, M] && s[3..] == [M, F, M, M];
    assert s[4..] == [F, M, M] && s[5..] == [M, M] && s[6..] == [M] && s[7..] == [];
    assert Reference.RunsFrom(s[6..], 0) == [];
    assert Reference.RunsFrom(s[5..], 1) == [1];
    assert Reference.RunsFrom(s[4..], 0) == [1];
    assert Reference.RunsFrom(s[3..], 1) == [1, 1];
    assert Reference.RunsFrom(s[2..], 0) == [1, 1];
    assert Reference.RunsFrom(s[1..], 0) == [1, 1];
  }

  /** {marked, marked, full, marked, full, marked, marked} solves [1, 1]
      and keeps the one known cell of {empty, empty, full, empty, empty,
      empty, empty}. */
  lemma TwoOnesSolution()
    ensures Reference.Solution([Marked, Marked, Full, Marked, Full, Marked, Marked], [1, 1])
    ensures Reference.Agrees([Marked, Marked, Full, Marked, Full, Marked, Marked], [Empty, Empty, Full, Empty, Empty, Empty, Empty])
  {
    TwoOnesRuns();
    assert Reference.Blocks([1, 1]) == [1, 1];
  }

  /** The two sweeps of [1, 1] on seven cells whose cell 2 is full, as
      intersect sees them. */
  lemma TwoOnesSweeps()
    ensures LeftSweep(Fast, 20, [1, 1], [Empty, Empty, Full, Empty, Empty, Empty, Empty]) == Ok(Some([0, 2]))
    ensures RightSweep(Fast, 20, [1, 1], [Empty, Empty, Full, Empty, Empty, Empty, Empty]) == Ok(Some([0, 6]))
  {
    FastLeftTwoOnes();
    FastRightTwoOnes();
  }

  /** What SolveLine returns on that line. */
  lemma TwoOnesIntersect()
    ensures SolveLine(20, [1, 1], [Empty, Empty, Full, Empty, Empty, Empty, Empty])
      == Ok(Solved([Full, Marked, Empty, Empty, Empty, Empty, Empty], true))
  {
    var c, line := [1, 1], [Empty, Empty, Full, Empty, Empty, Empty, Empty];
    TwoOnesSweeps();
    IntersectOfSweeps(c, line, [0, 2], [0, 6]);
    assert StartsOfEnds(c, [0, 6]) == [0, 6];
    TwoOnesWalk();
  }

  /** Outside the trivial cases, intersect of two sweeps that both return
      positions is the walk over them. */
  lemma IntersectOfSweeps(c: seq<int>, line: Line, ls: seq<int>, rs: seq<int>)
    requires |c| > 0 && c[0] != 0 && c[0] != |line| && |ls| == |c| && |rs| == |c|
    requires LeftSweep(Fast, 20, c, line) == Ok(Some(ls)) && RightSweep(Fast, 20, c, line) == Ok(Some(rs))
    ensures SolveLine(20, c, line) == Ok(Solved(WalkLine(|line|, c, ls, StartsOfEnds(c, rs)), true))
  {
  }

  /** [1, 1] on seven cells whose cell 2 is full. The left sweep gives
      starts 0 and 2; the right sweep gives ends 0 and 6, which leave cell 2
      uncovered; intersect reports cell 0 full and cell 1 marked, with ok.
      Yet {marked, marked, full, marked, full, marked, marked} solves the
      clue, keeps every known cell, and has cell 0 marked: the deduced full
      cell 0 is wrong. */
  lemma SolveLineWrongCell()
    ensures SolveLine(20, [1, 1], [Empty, Empty, Full, Empty, Empty, Empty, Empty])
      == Ok(Solved([Full, Marked, Empty, Empty, Empty, Empty, Empty], true))
    ensures Reference.Solution([Marked, Marked, Full, Marked, Full, Marked, Marked], [1, 1])
    ensures Reference.Agrees([Marked, Marked, Full, Marked, Full, Marked, Marked], [Empty, Empty, Full, Empty, Empty, Empty, Empty])
  {
    TwoOnesIntersect();
    TwoOnesSolution();
  }
}
