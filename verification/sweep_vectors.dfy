/** The sweeps evaluated on the inputs of the repository's tests
    (solver/linesolver_test.go, linesolver_test.go) and on inputs that show
    where they go wrong. Each lemma follows the machine one transition at a
    time; the transition lemmas (`...Step<k>`) give the state before and
    after, in the field order of `Sweep.Solver`. */
module SweepVectors {

  import opened Cells
  import opened Outcomes
  import opened Sweep
  import RootSweep
  import RootSweepProof
  import Placement

  lemma FastLeftFirstTestStep0(c: seq<int>, line: Line)
    requires c == [3, 3] && line == [Empty, Empty, Empty, Empty, Marked, Empty, Empty, Empty]
    ensures Step(Solver(NewBlock, Left, Fast, 0, 0, false, [0, 0], [0, 0], false, c, line)) == Ok(Solver(PlaceBlock, Left, Fast, 0, 0, false, [0, 0], [0, 0], false, c, line))
  {
    assert [0, 0][0 := 0] == [0, 0];
  }

  lemma FastLeftFirstTestStep1(c: seq<int>, line: Line)
    requires c == [3, 3] && line == [Empty, Empty, Empty, Empty, Marked, Empty, Empty, Empty]
    ensures Step(Solver(PlaceBlock, Left, Fast, 0, 0, false, [0, 0], [0, 0], false, c, line)) == Ok(Solver(FinalSpace, Left, Fast, 3, 0, false, [0, 0], [-1, 0], false, c, line))
  {
    assert [0, 0][0 := 0] == [0, 0];
    assert [0, 0][0 := -1] == [-1, 0];
    assert SkipMarked(Solver(PlaceBlock, Left, Fast, 0, 0, false, [0, 0], [0, 0], false, c, line)) == FillBlock(Solver(PlaceBlock, Left, Fast, 1, 0, false, [0, 0], [-1, 0], false, c, line));
    assert [-1, 0][0 := -1] == [-1, 0];
    assert FillBlock(Solver(PlaceBlock, Left, Fast, 1, 0, false, [0, 0], [-1, 0], false, c, line)) == FillBlock(Solver(PlaceBlock, Left, Fast, 2, 0, false, [0, 0], [-1, 0], false, c, line));
    assert FillBlock(Solver(PlaceBlock, Left, Fast, 2, 0, false, [0, 0], [-1, 0], false, c, line)) == FillBlock(Solver(PlaceBlock, Left, Fast, 3, 0, false, [0, 0], [-1, 0], false, c, line));
  }

  lemma FastLeftFirstTestStep2(c: seq<int>, line: Line)
    requires c == [3, 3] && line == [Empty, Empty, Empty, Empty, Marked, Empty, Empty, Empty]
    ensures Step(Solver(FinalSpace, Left, Fast, 3, 0, false, [0, 0], [-1, 0], false, c, line)) == Ok(Solver(NewBlock, Left, Fast, 3, 1, false, [0, 0], [-1, 0], false, c, line))
  {
    assert [0, 0][0 := 0] == [0, 0];
    assert [-1, 0][0 := -1] == [-1, 0];
    assert [0, 0][1 := 0] == [0, 0];
    assert [-1, 0][1 := 0] == [-1, 0];
  }

  lemma FastLeftFirstTestStep3(c: seq<int>, line: Line)
    requires c == [3, 3] && line == [Empty, Empty, Empty, Empty, Marked, Empty, Empty, Empty]
    ensures Step(Solver(NewBlock, Left, Fast, 3, 1, false, [0, 0], [-1, 0], false, c, line)) == Ok(Solver(PlaceBlock, Left, Fast, 3, 1, false, [0, 4], [-1, 0], false, c, line))
  {
    assert [0, 0][1 := 4] == [0, 4];
    assert [-1, 0][1 := 0] == [-1, 0];
  }

  lemma FastLeftFirstTestStep4(c: seq<int>, line: Line)
    requires c == [3, 3] && line == [Empty, Empty, Empty, Empty, Marked, Empty, Empty, Empty]
    ensures Step(Solver(PlaceBlock, Left, Fast, 3, 1, false, [0, 4], [-1, 0], false, c, line)) == Ok(Solver(FinalSpace, Left, Fast, 8, 1, false, [0, 5], [-1, -1], false, c, line))
  {
    assert [0, 4][1 := 5] == [0, 5];
    assert [-1, 0][1 := 0] == [-1, 0];
    assert SkipMarked(Solver(PlaceBlock, Left, Fast, 3, 1, false, [0, 4], [-1, 0], false, c, line)) == SkipMarked(Solver(PlaceBlock, Left, Fast, 3, 1, false, [0, 5], [-1, 0], false, c, line));
    assert [0, 5][1 := 5] == [0, 5];
    assert [-1, 0][1 := -1] == [-1, -1];
    assert SkipMarked(Solver(PlaceBlock, Left, Fast, 3, 1, false, [0, 5], [-1, 0], false, c, line)) == FillBlock(Solver(PlaceBlock, Left, Fast, 6, 1, false, [0, 5], [-1, -1], false, c, line));
    assert [-1, -1][1 := -1] == [-1, -1];
    assert FillBlock(Solver(PlaceBlock, Left, Fast, 6, 1, false, [0, 5], [-1, -1], false, c, line)) == FillBlock(Solver(PlaceBlock, Left, Fast, 7, 1, false, [0, 5], [-1, -1], false, c, line));
    assert FillBlock(Solver(PlaceBlock, Left, Fast, 7, 1, false, [0, 5], [-1, -1], false, c, line)) == FillBlock(Solver(PlaceBlock, Left, Fast, 8, 1, false, [0, 5], [-1, -1], false, c, line));
  }

  lemma FastLeftFirstTestStep5(c: seq<int>, line: Line)
    requires c == [3, 3] && line == [Empty, Empty, Empty, Empty, Marked, Empty, Empty, Empty]
    ensures Step(Solver(FinalSpace, Left, Fast, 8, 1, false, [0, 5], [-1, -1], false, c, line)) == Ok(Solver(NewBlock, Left, Fast, 8, 2, false, [0, 5], [-1, -1], false, c, line))
  {
    assert [0, 5][1 := 5] == [0, 5];
    assert [-1, -1][1 := -1] == [-1, -1];
  }

  lemma FastLeftFirstTestStep6(c: seq<int>, line: Line)
    requires c == [3, 3] && line == [Empty, Empty, Empty, Empty, Marked, Empty, Empty, Empty]
    ensures Step(Solver(NewBlock, Left, Fast, 8, 2, false, [0, 5], [-1, -1], false, c, line)) == Ok(Solver(CheckRest, Left, Fast, 8, 1, false, [0, 5], [-1, -1], false, c, line))
  {
    assert [0, 5][1 := 5] == [0, 5];
    assert [-1, -1][1 := -1] == [-1, -1];
  }

  lemma FastLeftFirstTestStep7(c: seq<int>, line: Line)
    requires c == [3, 3] && line == [Empty, Empty, Empty, Empty, Marked, Empty, Empty, Empty]
    ensures Step(Solver(CheckRest, Left, Fast, 8, 1, false, [0, 5], [-1, -1], false, c, line)) == Ok(Solver(Halt, Left, Fast, 8, 1, false, [0, 5], [-1, -1], false, c, line))
  {
    assert [0, 5][1 := 5] == [0, 5];
    assert [-1, -1][1 := -1] == [-1, -1];
  }

  /** solver/linesolver_test.go:9-19: blocks of 3 and 3 around the marked cell 4 start at 0 and 5. */
  lemma FastLeftFirstTest()
    ensures FastLeft(20, [3, 3], [Empty, Empty, Empty, Empty, Marked, Empty, Empty, Empty]) == Ok(Some([0, 5]))
  {
    var c := [3, 3];
    var line: Line := [Empty, Empty, Empty, Empty, Marked, Empty, Empty, Empty];
    assert seq(2, _ => 0) == [0, 0];
    assert FastLeft(20, c, line) == Run(20, Solver(NewBlock, Left, Fast, 0, 0, false, [0, 0], [0, 0], false, c, line));
    FastLeftFirstTestStep0(c, line);
    assert Run(20, Solver(NewBlock, Left, Fast, 0, 0, false, [0, 0], [0, 0], false, c, line)) == Run(19, Solver(PlaceBlock, Left, Fast, 0, 0, false, [0, 0], [0, 0], false, c, line));
    FastLeftFirstTestStep1(c, line);
    assert Run(19, Solver(PlaceBlock, Left, Fast, 0, 0, false, [0, 0], [0, 0], false, c, line)) == Run(18, Solver(FinalSpace, Left, Fast, 3, 0, false, [0, 0], [-1, 0], false, c, line));
    FastLeftFirstTestStep2(c, line);
    assert Run(18, Solver(FinalSpace, Left, Fast, 3, 0, false, [0, 0], [-1, 0], false, c, line)) == Run(17, Solver(NewBlock, Left, Fast, 3, 1, false, [0, 0], [-1, 0], false, c, line));
    FastLeftFirstTestStep3(c, line);
    assert Run(17, Solver(NewBlock, Left, Fast, 3, 1, false, [0, 0], [-1, 0], false, c, line)) == Run(16, Solver(PlaceBlock, Left, Fast, 3, 1, false, [0, 4], [-1, 0], false, c, line));
    FastLeftFirstTestStep4(c, line);
    assert Run(16, Solver(PlaceBlock, Left, Fast, 3, 1, false, [0, 4], [-1, 0], false, c, line)) == Run(15, Solver(FinalSpace, Left, Fast, 8, 1, false, [0, 5], [-1, -1], false, c, line));
    FastLeftFirstTestStep5(c, line);
    assert Run(15, Solver(FinalSpace, Left, Fast, 8, 1, false, [0, 5], [-1, -1], false, c, line)) == Run(14, Solver(NewBlock, Left, Fast, 8, 2, false, [0, 5], [-1, -1], false, c, line));
    FastLeftFirstTestStep6(c, line);
    assert Run(14, Solver(NewBlock, Left, Fast, 8, 2, false, [0, 5], [-1, -1], false, c, line)) == Run(13, Solver(CheckRest, Left, Fast, 8, 1, false, [0, 5], [-1, -1], false, c, line));
    FastLeftFirstTestStep7(c, line);
    assert Run(13, Solver(CheckRest, Left, Fast, 8, 1, false, [0, 5], [-1, -1], false, c, line)) == Run(12, Solver(Halt, Left, Fast, 8, 1, false, [0, 5], [-1, -1], false, c, line));
  }

  lemma FastLeftSecondTestStep0(c: seq<int>, line: Line)
    requires c == [1, 2] && line == [Empty, Full, Empty, Full, Empty, Marked, Empty, Empty]
    ensures Step(Solver(NewBlock, Left, Fast, 0, 0, false, [0, 0], [0, 0], false, c, line)) == Ok(Solver(PlaceBlock, Left, Fast, 0, 0, false, [0, 0], [0, 0], false, c, line))
  {
    assert [0, 0][0 := 0] == [0, 0];
  }

  lemma FastLeftSecondTestStep1(c: seq<int>, line: Line)
    requires c == [1, 2] && line == [Empty, Full, Empty, Full, Empty, Marked, Empty, Empty]
    ensures Step(Solver(PlaceBlock, Left, Fast, 0, 0, false, [0, 0], [0, 0], false, c, line)) == Ok(Solver(FinalSpace, Left, Fast, 1, 0, false, [0, 0], [-1, 0], false, c, line))
  {
    assert [0, 0][0 := 0] == [0, 0];
    assert [0, 0][0 := -1] == [-1, 0];
    assert SkipMarked(Solver(PlaceBlock, Left, Fast, 0, 0, false, [0, 0], [0, 0], false, c, line)) == FillBlock(Solver(PlaceBlock, Left, Fast, 1, 0, false, [0, 0], [-1, 0], false, c, line));
    assert [-1, 0][0 := -1] == [-1, 0];
  }

  lemma FastLeftSecondTestStep2(c: seq<int>, line: Line)
    requires c == [1, 2] && line == [Empty, Full, Empty, Full, Empty, Marked, Empty, Empty]
    ensures Step(Solver(FinalSpace, Left, Fast, 1, 0, false, [0, 0], [-1, 0], false, c, line)) == Ok(Solver(NewBlock, Left, Fast, 2, 1, false, [1, 0], [1, 0], false, c, line))
  {
    assert [0, 0][0 := 1] == [1, 0];
    assert [-1, 0][0 := 1] == [1, 0];
    assert ShiftPastFull(Solver(FinalSpace, Left, Fast, 1, 0, false, [0, 0], [-1, 0], false, c, line)) == ShiftPastFull(Solver(FinalSpace, Left, Fast, 2, 0, false, [1, 0], [1, 0], false, c, line));
    assert [1, 0][0 := 1] == [1, 0];
    assert [1, 0][1 := 0] == [1, 0];
  }

  lemma FastLeftSecondTestStep3(c: seq<int>, line: Line)
    requires c == [1, 2] && line == [Empty, Full, Empty, Full, Empty, Marked, Empty, Empty]
    ensures Step(Solver(NewBlock, Left, Fast, 2, 1, false, [1, 0], [1, 0], false, c, line)) == Ok(Solver(PlaceBlock, Left, Fast, 2, 1, false, [1, 3], [1, 0], false, c, line))
  {
    assert [1, 0][1 := 3] == [1, 3];
    assert [1, 0][1 := 0] == [1, 0];
  }

  lemma FastLeftSecondTestStep4(c: seq<int>, line: Line)
    requires c == [1, 2] && line == [Empty, Full, Empty, Full, Empty, Marked, Empty, Empty]
    ensures Step(Solver(PlaceBlock, Left, Fast, 2, 1, false, [1, 3], [1, 0], false, c, line)) == Ok(Solver(FinalSpace, Left, Fast, 5, 1, false, [1, 3], [1, 3], false, c, line))
  {
    assert [1, 3][1 := 3] == [1, 3];
    assert [1, 0][1 := 3] == [1, 3];
    assert SkipMarked(Solver(PlaceBlock, Left, Fast, 2, 1, false, [1, 3], [1, 0], false, c, line)) == FillBlock(Solver(PlaceBlock, Left, Fast, 4, 1, false, [1, 3], [1, 3], false, c, line));
    assert FillBlock(Solver(PlaceBlock, Left, Fast, 4, 1, false, [1, 3], [1, 3], false, c, line)) == FillBlock(Solver(PlaceBlock, Left, Fast, 5, 1, false, [1, 3], [1, 3], false, c, line));
  }

  lemma FastLeftSecondTestStep5(c: seq<int>, line: Line)
    requires c == [1, 2] && line == [Empty, Full, Empty, Full, Empty, Marked, Empty, Empty]
    ensures Step(Solver(FinalSpace, Left, Fast, 5, 1, false, [1, 3], [1, 3], false, c, line)) == Ok(Solver(NewBlock, Left, Fast, 5, 2, false, [1, 3], [1, 3], false, c, line))
  {
    assert [1, 3][1 := 3] == [1, 3];
  }

  lemma FastLeftSecondTestStep6(c: seq<int>, line: Line)
    requires c == [1, 2] && line == [Empty, Full, Empty, Full, Empty, Marked, Empty, Empty]
    ensures Step(Solver(NewBlock, Left, Fast, 5, 2, false, [1, 3], [1, 3], false, c, line)) == Ok(Solver(CheckRest, Left, Fast, 5, 1, false, [1, 3], [1, 3], false, c, line))
  {
    assert [1, 3][1 := 3] == [1, 3];
  }

  lemma FastLeftSecondTestStep7(c: seq<int>, line: Line)
    requires c == [1, 2] && line == [Empty, Full, Empty, Full, Empty, Marked, Empty, Empty]
    ensures Step(Solver(CheckRest, Left, Fast, 5, 1, false, [1, 3], [1, 3], false, c, line)) == Ok(Solver(Halt, Left, Fast, 8, 1, false, [1, 3], [1, 3], false, c, line))
  {
    assert [1, 3][1 := 3] == [1, 3];
    assert CheckRestStep(Solver(CheckRest, Left, Fast, 5, 1, false, [1, 3], [1, 3], false, c, line)) == CheckRestStep(Solver(CheckRest, Left, Fast, 6, 1, false, [1, 3], [1, 3], false, c, line));
    assert CheckRestStep(Solver(CheckRest, Left, Fast, 6, 1, false, [1, 3], [1, 3], false, c, line)) == CheckRestStep(Solver(CheckRest, Left, Fast, 7, 1, false, [1, 3], [1, 3], false, c, line));
    assert CheckRestStep(Solver(CheckRest, Left, Fast, 7, 1, false, [1, 3], [1, 3], false, c, line)) == CheckRestStep(Solver(CheckRest, Left, Fast, 8, 1, false, [1, 3], [1, 3], false, c, line));
  }

  /** solver/linesolver_test.go:21-31: blocks of 1 and 2 over the full cells 1 and 3 start at 1 and 3. */
  lemma FastLeftSecondTest()
    ensures FastLeft(20, [1, 2], [Empty, Full, Empty, Full, Empty, Marked, Empty, Empty]) == Ok(Some([1, 3]))
  {
    var c := [1, 2];
    var line: Line := [Empty, Full, Empty, Full, Empty, Marked, Empty, Empty];
    assert seq(2, _ => 0) == [0, 0];
    assert FastLeft(20, c, line) == Run(20, Solver(NewBlock, Left, Fast, 0, 0, false, [0, 0], [0, 0], false, c, line));
    FastLeftSecondTestStep0(c, line);
    assert Run(20, Solver(NewBlock, Left, Fast, 0, 0, false, [0, 0], [0, 0], false, c, line)) == Run(19, Solver(PlaceBlock, Left, Fast, 0, 0, false, [0, 0], [0, 0], false, c, line));
    FastLeftSecondTestStep1(c, line);
    assert Run(19, Solver(PlaceBlock, Left, Fast, 0, 0, false, [0, 0], [0, 0], false, c, line)) == Run(18, Solver(FinalSpace, Left, Fast, 1, 0, false, [0, 0], [-1, 0], false, c, line));
    FastLeftSecondTestStep2(c, line);
    assert Run(18, Solver(FinalSpace, Left, Fast, 1, 0, false, [0, 0], [-1, 0], false, c, line)) == Run(17, Solver(NewBlock, Left, Fast, 2, 1, false, [1, 0], [1, 0], false, c, line));
    FastLeftSecondTestStep3(c, line);
    assert Run(17, Solver(NewBlock, Left, Fast, 2, 1, false, [1, 0], [1, 0], false, c, line)) == Run(16, Solver(PlaceBlock, Left, Fast, 2, 1, false, [1, 3], [1, 0], false, c, line));
    FastLeftSecondTestStep4(c, line);
    assert Run(16, Solver(PlaceBlock, Left, Fast, 2, 1, false, [1, 3], [1, 0], false, c, line)) == Run(15, Solver(FinalSpace, Left, Fast, 5, 1, false, [1, 3], [1, 3], false, c, line));
    FastLeftSecondTestStep5(c, line);
    assert Run(15, Solver(FinalSpace, Left, Fast, 5, 1, false, [1, 3], [1, 3], false, c, line)) == Run(14, Solver(NewBlock, Left, Fast, 5, 2, false, [1, 3], [1, 3], false, c, line));
    FastLeftSecondTestStep6(c, line);
    assert Run(14, Solver(NewBlock, Left, Fast, 5, 2, false, [1, 3], [1, 3], false, c, line)) == Run(13, Solver(CheckRest, Left, Fast, 5, 1, false, [1, 3], [1, 3], false, c, line));
    FastLeftSecondTestStep7(c, line);
    assert Run(13, Solver(CheckRest, Left, Fast, 5, 1, false, [1, 3], [1, 3], false, c, line)) == Run(12, Solver(Halt, Left, Fast, 8, 1, false, [1, 3], [1, 3], false, c, line));
  }

  lemma FastRightFirstTestStep0(c: seq<int>, line: Line)
    requires c == [3, 3] && line == [Empty, Empty, Empty, Empty, Marked, Empty, Empty, Empty]
    ensures Step(Solver(NewBlock, Right, Fast, 0, 1, false, [0, 0], [0, 0], false, c, line)) == Ok(Solver(PlaceBlock, Right, Fast, 0, 1, false, [0, 7], [0, 0], false, c, line))
  {
    assert [0, 0][1 := 7] == [0, 7];
    assert [0, 0][1 := 0] == [0, 0];
  }

  lemma FastRightFirstTestStep1(c: seq<int>, line: Line)
    requires c == [3, 3] && line == [Empty, Empty, Empty, Empty, Marked, Empty, Empty, Empty]
    ensures Step(Solver(PlaceBlock, Right, Fast, 0, 1, false, [0, 7], [0, 0], false, c, line)) == Ok(Solver(FinalSpace, Right, Fast, 4, 1, false, [0, 7], [0, -1], false, c, line))
  {
    assert [0, 7][1 := 7] == [0, 7];
    assert [0, 0][1 := -1] == [0, -1];
    assert SkipMarked(Solver(PlaceBlock, Right, Fast, 0, 1, false, [0, 7], [0, 0], false, c, line)) == FillBlock(Solver(PlaceBlock, Right, Fast, 6, 1, false, [0, 7], [0, -1], false, c, line));
    assert [0, -1][1 := -1] == [0, -1];
    assert FillBlock(Solver(PlaceBlock, Right, Fast, 6, 1, false, [0, 7], [0, -1], false, c, line)) == FillBlock(Solver(PlaceBlock, Right, Fast, 5, 1, false, [0, 7], [0, -1], false, c, line));
    assert FillBlock(Solver(PlaceBlock, Right, Fast, 5, 1, false, [0, 7], [0, -1], false, c, line)) == FillBlock(Solver(PlaceBlock, Right, Fast, 4, 1, false, [0, 7], [0, -1], false, c, line));
  }

  lemma FastRightFirstTestStep2(c: seq<int>, line: Line)
    requires c == [3, 3] && line == [Empty, Empty, Empty, Empty, Marked, Empty, Empty, Empty]
    ensures Step(Solver(FinalSpace, Right, Fast, 4, 1, false, [0, 7], [0, -1], false, c, line)) == Ok(Solver(NewBlock, Right, Fast, 4, 0, false, [0, 7], [0, -1], false, c, line))
  {
    assert [0, 7][1 := 7] == [0, 7];
    assert [0, -1][1 := -1] == [0, -1];
    assert [0, 7][0 := 0] == [0, 7];
    assert [0, -1][0 := 0] == [0, -1];
  }

  lemma FastRightFirstTestStep3(c: seq<int>, line: Line)
    requires c == [3, 3] && line == [Empty, Empty, Empty, Empty, Marked, Empty, Empty, Empty]
    ensures Step(Solver(NewBlock, Right, Fast, 4, 0, false, [0, 7], [0, -1], false, c, line)) == Ok(Solver(PlaceBlock, Right, Fast, 4, 0, false, [3, 7], [0, -1], false, c, line))
  {
    assert [0, 7][0 := 3] == [3, 7];
    assert [0, -1][0 := 0] == [0, -1];
  }

  lemma FastRightFirstTestStep4(c: seq<int>, line: Line)
    requires c == [3, 3] && line == [Empty, Empty, Empty, Empty, Marked, Empty, Empty, Empty]
    ensures Step(Solver(PlaceBlock, Right, Fast, 4, 0, false, [3, 7], [0, -1], false, c, line)) == Ok(Solver(FinalSpace, Right, Fast, 0, 0, false, [3, 7], [-1, -1], false, c, line))
  {
    assert [3, 7][0 := 3] == [3, 7];
    assert [0, -1][0 := -1] == [-1, -1];
    assert SkipMarked(Solver(PlaceBlock, Right, Fast, 4, 0, false, [3, 7], [0, -1], false, c, line)) == FillBlock(Solver(PlaceBlock, Right, Fast, 2, 0, false, [3, 7], [-1, -1], false, c, line));
    assert [-1, -1][0 := -1] == [-1, -1];
    assert FillBlock(Solver(PlaceBlock, Right, Fast, 2, 0, false, [3, 7], [-1, -1], false, c, line)) == FillBlock(Solver(PlaceBlock, Right, Fast, 1, 0, false, [3, 7], [-1, -1], false, c, line));
    assert FillBlock(Solver(PlaceBlock, Right, Fast, 1, 0, false, [3, 7], [-1, -1], false, c, line)) == FillBlock(Solver(PlaceBlock, Right, Fast, 0, 0, false, [3, 7], [-1, -1], false, c, line));
  }

  lemma FastRightFirstTestStep5(c: seq<int>, line: Line)
    requires c == [3, 3] && line == [Empty, Empty, Empty, Empty, Marked, Empty, Empty, Empty]
    ensures Step(Solver(FinalSpace, Right, Fast, 0, 0, false, [3, 7], [-1, -1], false, c, line)) == Ok(Solver(NewBlock, Right, Fast, 0, -1, false, [3, 7], [-1, -1], false, c, line))
  {
    assert [3, 7][0 := 3] == [3, 7];
    assert [-1, -1][0 := -1] == [-1, -1];
  }

  lemma FastRightFirstTestStep6(c: seq<int>, line: Line)
    requires c == [3, 3] && line == [Empty, Empty, Empty, Empty, Marked, Empty, Empty, Empty]
    ensures Step(Solver(NewBlock, Right, Fast, 0, -1, false, [3, 7], [-1, -1], false, c, line)) == Ok(Solver(CheckRest, Right, Fast, 0, 0, false, [3, 7], [-1, -1], false, c, line))
  {
    assert [3, 7][0 := 3] == [3, 7];
    assert [-1, -1][0 := -1] == [-1, -1];
  }

  lemma FastRightFirstTestStep7(c: seq<int>, line: Line)
    requires c == [3, 3] && line == [Empty, Empty, Empty, Empty, Marked, Empty, Empty, Empty]
    ensures Step(Solver(CheckRest, Right, Fast, 0, 0, false, [3, 7], [-1, -1], false, c, line)) == Ok(Solver(Halt, Right, Fast, -1, 0, false, [3, 7], [-1, -1], false, c, line))
  {
    assert [3, 7][0 := 3] == [3, 7];
    assert [-1, -1][0 := -1] == [-1, -1];
    assert CheckRestStep(Solver(CheckRest, Right, Fast, 0, 0, false, [3, 7], [-1, -1], false, c, line)) == CheckRestStep(Solver(CheckRest, Right, Fast, -1, 0, false, [3, 7], [-1, -1], false, c, line));
  }

  /** solver/linesolver_test.go:35-45: packed right, the blocks of 3 and 3 end at 3 and 7. */
  lemma FastRightFirstTest()
    ensures FastRight(20, [3, 3], [Empty, Empty, Empty, Empty, Marked, Empty, Empty, Empty]) == Ok(Some([3, 7]))
  {
    var c := [3, 3];
    var line: Line := [Empty, Empty, Empty, Empty, Marked, Empty, Empty, Empty];
    assert seq(2, _ => 0) == [0, 0];
    assert FastRight(20, c, line) == Run(20, Solver(NewBlock, Right, Fast, 0, 1, false, [0, 0], [0, 0], false, c, line));
    FastRightFirstTestStep0(c, line);
    assert Run(20, Solver(NewBlock, Right, Fast, 0, 1, false, [0, 0], [0, 0], false, c, line)) == Run(19, Solver(PlaceBlock, Right, Fast, 0, 1, false, [0, 7], [0, 0], false, c, line));
    FastRightFirstTestStep1(c, line);
    assert Run(19, Solver(PlaceBlock, Right, Fast, 0, 1, false, [0, 7], [0, 0], false, c, line)) == Run(18, Solver(FinalSpace, Right, Fast, 4, 1, false, [0, 7], [0, -1], false, c, line));
    FastRightFirstTestStep2(c, line);
    assert Run(18, Solver(FinalSpace, Right, Fast, 4, 1, false, [0, 7], [0, -1], false, c, line)) == Run(17, Solver(NewBlock, Right, Fast, 4, 0, false, [0, 7], [0, -1], false, c, line));
    FastRightFirstTestStep3(c, line);
    assert Run(17, Solver(NewBlock, Right, Fast, 4, 0, false, [0, 7], [0, -1], false, c, line)) == Run(16, Solver(PlaceBlock, Right, Fast, 4, 0, false, [3, 7], [0, -1], false, c, line));
    FastRightFirstTestStep4(c, line);
    assert Run(16, Solver(PlaceBlock, Right, Fast, 4, 0, false, [3, 7], [0, -1], false, c, line)) == Run(15, Solver(FinalSpace, Right, Fast, 0, 0, false, [3, 7], [-1, -1], false, c, line));
    FastRightFirstTestStep5(c, line);
    assert Run(15, Solver(FinalSpace, Right, Fast, 0, 0, false, [3, 7], [-1, -1], false, c, line)) == Run(14, Solver(NewBlock, Right, Fast, 0, -1, false, [3, 7], [-1, -1], false, c, line));
    FastRightFirstTestStep6(c, line);
    assert Run(14, Solver(NewBlock, Right, Fast, 0, -1, false, [3, 7], [-1, -1], false, c, line)) == Run(13, Solver(CheckRest, Right, Fast, 0, 0, false, [3, 7], [-1, -1], false, c, line));
    FastRightFirstTestStep7(c, line);
    assert Run(13, Solver(CheckRest, Right, Fast, 0, 0, false, [3, 7], [-1, -1], false, c, line)) == Run(12, Solver(Halt, Right, Fast, -1, 0, false, [3, 7], [-1, -1], false, c, line));
  }

  lemma FastRightSecondTestStep0(c: seq<int>, line: Line)
    requires c == [1, 3] && line == [Empty, Empty, Empty, Empty, Empty, Marked, Empty, Empty]
    ensures Step(Solver(NewBlock, Right, Fast, 0, 1, false, [0, 0], [0, 0], false, c, line)) == Ok(Solver(PlaceBlock, Right, Fast, 0, 1, false, [0, 7], [0, 0], false, c, line))
  {
    assert [0, 0][1 := 7] == [0, 7];
    assert [0, 0][1 := 0] == [0, 0];
  }

  lemma FastRightSecondTestStep1(c: seq<int>, line: Line)
    requires c == [1, 3] && line == [Empty, Empty, Empty, Empty, Empty, Marked, Empty, Empty]
    ensures Step(Solver(PlaceBlock, Right, Fast, 0, 1, false, [0, 7], [0, 0], false, c, line)) == Ok(Solver(PlaceBlock, Right, Fast, 5, 1, false, [0, 5], [0, -1], false, c, line))
  {
    assert [0, 7][1 := 7] == [0, 7];
    assert [0, 0][1 := -1] == [0, -1];
    assert SkipMarked(Solver(PlaceBlock, Right, Fast, 0, 1, false, [0, 7], [0, 0], false, c, line)) == FillBlock(Solver(PlaceBlock, Right, Fast, 6, 1, false, [0, 7], [0, -1], false, c, line));
    assert [0, -1][1 := -1] == [0, -1];
    assert FillBlock(Solver(PlaceBlock, Right, Fast, 6, 1, false, [0, 7], [0, -1], false, c, line)) == FillBlock(Solver(PlaceBlock, Right, Fast, 5, 1, false, [0, 7], [0, -1], false, c, line));
    assert [0, 7][1 := 5] == [0, 5];
  }

  lemma FastRightSecondTestStep2(c: seq<int>, line: Line)
    requires c == [1, 3] && line == [Empty, Empty, Empty, Empty, Empty, Marked, Empty, Empty]
    ensures Step(Solver(PlaceBlock, Right, Fast, 5, 1, false, [0, 5], [0, -1], false, c, line)) == Ok(Solver(FinalSpace, Right, Fast, 1, 1, false, [0, 4], [0, -1], false, c, line))
  {
    assert [0, 5][1 := 4] == [0, 4];
    assert [0, -1][1 := -1] == [0, -1];
    assert SkipMarked(Solver(PlaceBlock, Right, Fast, 5, 1, false, [0, 5], [0, -1], false, c, line)) == SkipMarked(Solver(PlaceBlock, Right, Fast, 5, 1, false, [0, 4], [0, -1], false, c, line));
    assert [0, 4][1 := 4] == [0, 4];
    assert SkipMarked(Solver(PlaceBlock, Right, Fast, 5, 1, false, [0, 4], [0, -1], false, c, line)) == FillBlock(Solver(PlaceBlock, Right, Fast, 3, 1, false, [0, 4], [0, -1], false, c, line));
    assert FillBlock(Solver(PlaceBlock, Right, Fast, 3, 1, false, [0, 4], [0, -1], false, c, line)) == FillBlock(Solver(PlaceBlock, Right, Fast, 2, 1, false, [0, 4], [0, -1], false, c, line));
    assert FillBlock(Solver(PlaceBlock, Right, Fast, 2, 1, false, [0, 4], [0, -1], false, c, line)) == FillBlock(Solver(PlaceBlock, Right, Fast, 1, 1, false, [0, 4], [0, -1], false, c, line));
  }

  lemma FastRightSecondTestStep3(c: seq<int>, line: Line)
    requires c == [1, 3] && line == [Empty, Empty, Empty, Empty, Empty, Marked, Empty, Empty]
    ensures Step(Solver(FinalSpace, Right, Fast, 1, 1, false, [0, 4], [0, -1], false, c, line)) == Ok(Solver(NewBlock, Right, Fast, 1, 0, false, [0, 4], [0, -1], false, c, line))
  {
    assert [0, 4][1 := 4] == [0, 4];
    assert [0, -1][1 := -1] == [0, -1];
    assert [0, 4][0 := 0] == [0, 4];
    assert [0, -1][0 := 0] == [0, -1];
  }

  lemma FastRightSecondTestStep4(c: seq<int>, line: Line)
    requires c == [1, 3] && line == [Empty, Empty, Empty, Empty, Empty, Marked, Empty, Empty]
    ensures Step(Solver(NewBlock, Right, Fast, 1, 0, false, [0, 4], [0, -1], false, c, line)) == Ok(Solver(PlaceBlock, Right, Fast, 1, 0, false, [0, 4], [0, -1], false, c, line))
  {
    assert [0, 4][0 := 0] == [0, 4];
    assert [0, -1][0 := 0] == [0, -1];
  }

  lemma FastRightSecondTestStep5(c: seq<int>, line: Line)
    requires c == [1, 3] && line == [Empty, Empty, Empty, Empty, Empty, Marked, Empty, Empty]
    ensures Step(Solver(PlaceBlock, Right, Fast, 1, 0, false, [0, 4], [0, -1], false, c, line)) == Ok(Solver(FinalSpace, Right, Fast, -1, 0, false, [0, 4], [-1, -1], false, c, line))
  {
    assert [0, 4][0 := 0] == [0, 4];
    assert [0, -1][0 := -1] == [-1, -1];
    assert SkipMarked(Solver(PlaceBlock, Right, Fast, 1, 0, false, [0, 4], [0, -1], false, c, line)) == FillBlock(Solver(PlaceBlock, Right, Fast, -1, 0, false, [0, 4], [-1, -1], false, c, line));
    assert [-1, -1][0 := -1] == [-1, -1];
  }

  lemma FastRightSecondTestStep6(c: seq<int>, line: Line)
    requires c == [1, 3] && line == [Empty, Empty, Empty, Empty, Empty, Marked, Empty, Empty]
    ensures Step(Solver(FinalSpace, Right, Fast, -1, 0, false, [0, 4], [-1, -1], false, c, line)) == Ok(Solver(NewBlock, Right, Fast, -1, -1, false, [0, 4], [-1, -1], false, c, line))
  {
    assert [0, 4][0 := 0] == [0, 4];
    assert [-1, -1][0 := -1] == [-1, -1];
  }

  lemma FastRightSecondTestStep7(c: seq<int>, line: Line)
    requires c == [1, 3] && line == [Empty, Empty, Empty, Empty, Empty, Marked, Empty, Empty]
    ensures Step(Solver(NewBlock, Right, Fast, -1, -1, false, [0, 4], [-1, -1], false, c, line)) == Ok(Solver(CheckRest, Right, Fast, -1, 0, false, [0, 4], [-1, -1], false, c, line))
  {
    assert [0, 4][0 := 0] == [0, 4];
    assert [-1, -1][0 := -1] == [-1, -1];
  }

  lemma FastRightSecondTestStep8(c: seq<int>, line: Line)
    requires c == [1, 3] && line == [Empty, Empty, Empty, Empty, Empty, Marked, Empty, Empty]
    ensures Step(Solver(CheckRest, Right, Fast, -1, 0, false, [0, 4], [-1, -1], false, c, line)) == Ok(Solver(Halt, Right, Fast, -1, 0, false, [0, 4], [-1, -1], false, c, line))
  {
    assert [0, 4][0 := 0] == [0, 4];
    assert [-1, -1][0 := -1] == [-1, -1];
  }

  /** solver/linesolver_test.go:47-57: packed right past the marked cell 5, blocks of 1 and 3 end at 0 and 4. */
  lemma FastRightSecondTest()
    ensures FastRight(20, [1, 3], [Empty, Empty, Empty, Empty, Empty, Marked, Empty, Empty]) == Ok(Some([0, 4]))
  {
    var c := [1, 3];
    var line: Line := [Empty, Empty, Empty, Empty, Empty, Marked, Empty, Empty];
    assert seq(2, _ => 0) == [0, 0];
    assert FastRight(20, c, line) == Run(20, Solver(NewBlock, Right, Fast, 0, 1, false, [0, 0], [0, 0], false, c, line));
    FastRightSecondTestStep0(c, line);
    assert Run(20, Solver(NewBlock, Right, Fast, 0, 1, false, [0, 0], [0, 0], false, c, line)) == Run(19, Solver(PlaceBlock, Right, Fast, 0, 1, false, [0, 7], [0, 0], false, c, line));
    FastRightSecondTestStep1(c, line);
    assert Run(19, Solver(PlaceBlock, Right, Fast, 0, 1, false, [0, 7], [0, 0], false, c, line)) == Run(18, Solver(PlaceBlock, Right, Fast, 5, 1, false, [0, 5], [0, -1], false, c, line));
    FastRightSecondTestStep2(c, line);
    assert Run(18, Solver(PlaceBlock, Right, Fast, 5, 1, false, [0, 5], [0, -1], false, c, line)) == Run(17, Solver(FinalSpace, Right, Fast, 1, 1, false, [0, 4], [0, -1], false, c, line));
    FastRightSecondTestStep3(c, line);
    assert Run(17, Solver(FinalSpace, Right, Fast, 1, 1, false, [0, 4], [0, -1], false, c, line)) == Run(16, Solver(NewBlock, Right, Fast, 1, 0, false, [0, 4], [0, -1], false, c, line));
    FastRightSecondTestStep4(c, line);
    assert Run(16, Solver(NewBlock, Right, Fast, 1, 0, false, [0, 4], [0, -1], false, c, line)) == Run(15, Solver(PlaceBlock, Right, Fast, 1, 0, false, [0, 4], [0, -1], false, c, line));
    FastRightSecondTestStep5(c, line);
    assert Run(15, Solver(PlaceBlock, Right, Fast, 1, 0, false, [0, 4], [0, -1], false, c, line)) == Run(14, Solver(FinalSpace, Right, Fast, -1, 0, false, [0, 4], [-1, -1], false, c, line));
    FastRightSecondTestStep6(c, line);
    assert Run(14, Solver(FinalSpace, Right, Fast, -1, 0, false, [0, 4], [-1, -1], false, c, line)) == Run(13, Solver(NewBlock, Right, Fast, -1, -1, false, [0, 4], [-1, -1], false, c, line));
    FastRightSecondTestStep7(c, line);
    assert Run(13, Solver(NewBlock, Right, Fast, -1, -1, false, [0, 4], [-1, -1], false, c, line)) == Run(12, Solver(CheckRest, Right, Fast, -1, 0, false, [0, 4], [-1, -1], false, c, line));
    FastRightSecondTestStep8(c, line);
    assert Run(12, Solver(CheckRest, Right, Fast, -1, 0, false, [0, 4], [-1, -1], false, c, line)) == Run(11, Solver(Halt, Right, Fast, -1, 0, false, [0, 4], [-1, -1], false, c, line));
  }

  lemma RightSolveFirstTestStep0(c: seq<int>, line: Line)
    requires c == [3, 3] && line == [Empty, Empty, Empty, Empty, Marked, Empty, Empty, Empty]
    ensures Step(Solver(NewBlock, Right, Legacy, 0, 1, false, [0, 0], [0, 0], false, c, line)) == Ok(Solver(PlaceBlock, Right, Legacy, 0, 1, false, [0, 7], [0, 0], false, c, line))
  {
    assert [0, 0][1 := 7] == [0, 7];
    assert [0, 0][1 := 0] == [0, 0];
  }

  lemma RightSolveFirstTestStep1(c: seq<int>, line: Line)
    requires c == [3, 3] && line == [Empty, Empty, Empty, Empty, Marked, Empty, Empty, Empty]
    ensures Step(Solver(PlaceBlock, Right, Legacy, 0, 1, false, [0, 7], [0, 0], false, c, line)) == Ok(Solver(FinalSpace, Right, Legacy, 4, 1, false, [0, 7], [0, -1], false, c, line))
  {
    assert [0, 7][1 := 7] == [0, 7];
    assert [0, 0][1 := -1] == [0, -1];
    assert SkipMarked(Solver(PlaceBlock, Right, Legacy, 0, 1, false, [0, 7], [0, 0], false, c, line)) == FillBlock(Solver(PlaceBlock, Right, Legacy, 6, 1, false, [0, 7], [0, -1], false, c, line));
    assert [0, -1][1 := -1] == [0, -1];
    assert FillBlock(Solver(PlaceBlock, Right, Legacy, 6, 1, false, [0, 7], [0, -1], false, c, line)) == FillBlock(Solver(PlaceBlock, Right, Legacy, 5, 1, false, [0, 7], [0, -1], false, c, line));
    assert FillBlock(Solver(PlaceBlock, Right, Legacy, 5, 1, false, [0, 7], [0, -1], false, c, line)) == FillBlock(Solver(PlaceBlock, Right, Legacy, 4, 1, false, [0, 7], [0, -1], false, c, line));
  }

  lemma RightSolveFirstTestStep2(c: seq<int>, line: Line)
    requires c == [3, 3] && line == [Empty, Empty, Empty, Empty, Marked, Empty, Empty, Empty]
    ensures Step(Solver(FinalSpace, Right, Legacy, 4, 1, false, [0, 7], [0, -1], false, c, line)) == Ok(Solver(NewBlock, Right, Legacy, 4, 0, false, [0, 7], [0, -1], false, c, line))
  {
    assert [0, 7][1 := 7] == [0, 7];
    assert [0, -1][1 := -1] == [0, -1];
    assert [0, 7][0 := 0] == [0, 7];
    assert [0, -1][0 := 0] == [0, -1];
  }

  lemma RightSolveFirstTestStep3(c: seq<int>, line: Line)
    requires c == [3, 3] && line == [Empty, Empty, Empty, Empty, Marked, Empty, Empty, Empty]
    ensures Step(Solver(NewBlock, Right, Legacy, 4, 0, false, [0, 7], [0, -1], false, c, line)) == Ok(Solver(PlaceBlock, Right, Legacy, 4, 0, false, [3, 7], [0, -1], false, c, line))
  {
    assert [0, 7][0 := 3] == [3, 7];
    assert [0, -1][0 := 0] == [0, -1];
  }

  lemma RightSolveFirstTestStep4(c: seq<int>, line: Line)
    requires c == [3, 3] && line == [Empty, Empty, Empty, Empty, Marked, Empty, Empty, Empty]
    ensures Step(Solver(PlaceBlock, Right, Legacy, 4, 0, false, [3, 7], [0, -1], false, c, line)) == Ok(Solver(FinalSpace, Right, Legacy, 0, 0, false, [3, 7], [-1, -1], false, c, line))
  {
    assert [3, 7][0 := 3] == [3, 7];
    assert [0, -1][0 := -1] == [-1, -1];
    assert SkipMarked(Solver(PlaceBlock, Right, Legacy, 4, 0, false, [3, 7], [0, -1], false, c, line)) == FillBlock(Solver(PlaceBlock, Right, Legacy, 2, 0, false, [3, 7], [-1, -1], false, c, line));
    assert [-1, -1][0 := -1] == [-1, -1];
    assert FillBlock(Solver(PlaceBlock, Right, Legacy, 2, 0, false, [3, 7], [-1, -1], false, c, line)) == FillBlock(Solver(PlaceBlock, Right, Legacy, 1, 0, false, [3, 7], [-1, -1], false, c, line));
    assert FillBlock(Solver(PlaceBlock, Right, Legacy, 1, 0, false, [3, 7], [-1, -1], false, c, line)) == FillBlock(Solver(PlaceBlock, Right, Legacy, 0, 0, false, [3, 7], [-1, -1], false, c, line));
  }

  lemma RightSolveFirstTestStep5(c: seq<int>, line: Line)
    requires c == [3, 3] && line == [Empty, Empty, Empty, Empty, Marked, Empty, Empty, Empty]
    ensures Step(Solver(FinalSpace, Right, Legacy, 0, 0, false, [3, 7], [-1, -1], false, c, line)) == Ok(Solver(NewBlock, Right, Legacy, 0, -1, false, [3, 7], [-1, -1], false, c, line))
  {
    assert [3, 7][0 := 3] == [3, 7];
    assert [-1, -1][0 := -1] == [-1, -1];
  }

  lemma RightSolveFirstTestStep6(c: seq<int>, line: Line)
    requires c == [3, 3] && line == [Empty, Empty, Empty, Empty, Marked, Empty, Empty, Empty]
    ensures Step(Solver(NewBlock, Right, Legacy, 0, -1, false, [3, 7], [-1, -1], false, c, line)) == Ok(Solver(CheckRest, Right, Legacy, 0, 0, false, [3, 7], [-1, -1], false, c, line))
  {
    assert [3, 7][0 := 3] == [3, 7];
    assert [-1, -1][0 := -1] == [-1, -1];
  }

  lemma RightSolveFirstTestStep7(c: seq<int>, line: Line)
    requires c == [3, 3] && line == [Empty, Empty, Empty, Empty, Marked, Empty, Empty, Empty]
    ensures Step(Solver(CheckRest, Right, Legacy, 0, 0, false, [3, 7], [-1, -1], false, c, line)) == Ok(Solver(Halt, Right, Legacy, -1, 0, false, [3, 7], [-1, -1], false, c, line))
  {
    assert [3, 7][0 := 3] == [3, 7];
    assert [-1, -1][0 := -1] == [-1, -1];
    assert CheckRestStep(Solver(CheckRest, Right, Legacy, 0, 0, false, [3, 7], [-1, -1], false, c, line)) == CheckRestStep(Solver(CheckRest, Right, Legacy, -1, 0, false, [3, 7], [-1, -1], false, c, line));
  }

  /** linesolver.go's RightSolve on the input of linesolver_test.go:33-42: ends 3 and 7. */
  lemma RightSolveFirstTest()
    ensures RootSweep.RightSolve(20, [3, 3], [Empty, Empty, Empty, Empty, Marked, Empty, Empty, Empty]) == Ok(Some([3, 7]))
  {
    var c := [3, 3];
    var line: Line := [Empty, Empty, Empty, Empty, Marked, Empty, Empty, Empty];
    assert seq(2, _ => 0) == [0, 0];
    RootSweepProof.RightSolveIsRightSweep(20, c, line);
    assert RootSweep.RightSolve(20, c, line) == Run(20, Solver(NewBlock, Right, Legacy, 0, 1, false, [0, 0], [0, 0], false, c, line));
    RightSolveFirstTestStep0(c, line);
    assert Run(20, Solver(NewBlock, Right, Legacy, 0, 1, false, [0, 0], [0, 0], false, c, line)) == Run(19, Solver(PlaceBlock, Right, Legacy, 0, 1, false, [0, 7], [0, 0], false, c, line));
    RightSolveFirstTestStep1(c, line);
    assert Run(19, Solver(PlaceBlock, Right, Legacy, 0, 1, false, [0, 7], [0, 0], false, c, line)) == Run(18, Solver(FinalSpace, Right, Legacy, 4, 1, false, [0, 7], [0, -1], false, c, line));
    RightSolveFirstTestStep2(c, line);
    assert Run(18, Solver(FinalSpace, Right, Legacy, 4, 1, false, [0, 7], [0, -1], false, c, line)) == Run(17, Solver(NewBlock, Right, Legacy, 4, 0, false, [0, 7], [0, -1], false, c, line));
    RightSolveFirstTestStep3(c, line);
    assert Run(17, Solver(NewBlock, Right, Legacy, 4, 0, false, [0, 7], [0, -1], false, c, line)) == Run(16, Solver(PlaceBlock, Right, Legacy, 4, 0, false, [3, 7], [0, -1], false, c, line));
    RightSolveFirstTestStep4(c, line);
    assert Run(16, Solver(PlaceBlock, Right, Legacy, 4, 0, false, [3, 7], [0, -1], false, c, line)) == Run(15, Solver(FinalSpace, Right, Legacy, 0, 0, false, [3, 7], [-1, -1], false, c, line));
    RightSolveFirstTestStep5(c, line);
    assert Run(15, Solver(FinalSpace, Right, Legacy, 0, 0, false, [3, 7], [-1, -1], false, c, line)) == Run(14, Solver(NewBlock, Right, Legacy, 0, -1, false, [3, 7], [-1, -1], false, c, line));
    RightSolveFirstTestStep6(c, line);
    assert Run(14, Solver(NewBlock, Right, Legacy, 0, -1, false, [3, 7], [-1, -1], false, c, line)) == Run(13, Solver(CheckRest, Right, Legacy, 0, 0, false, [3, 7], [-1, -1], false, c, line));
    RightSolveFirstTestStep7(c, line);
    assert Run(13, Solver(CheckRest, Right, Legacy, 0, 0, false, [3, 7], [-1, -1], false, c, line)) == Run(12, Solver(Halt, Right, Legacy, -1, 0, false, [3, 7], [-1, -1], false, c, line));
  }

  lemma LeftSolveThirdTestStep0(c: seq<int>, line: Line)
    requires c == [1, 3] && line == [Empty, Empty, Empty, Empty, Empty, Marked, Empty, Empty]
    ensures Step(Solver(NewBlock, Left, Legacy, 0, 0, false, [0, 0], [0, 0], false, c, line)) == Ok(Solver(PlaceBlock, Left, Legacy, 0, 0, false, [0, 0], [0, 0], false, c, line))
  {
    assert [0, 0][0 := 0] == [0, 0];
  }

  lemma LeftSolveThirdTestStep1(c: seq<int>, line: Line)
    requires c == [1, 3] && line == [Empty, Empty, Empty, Empty, Empty, Marked, Empty, Empty]
    ensures Step(Solver(PlaceBlock, Left, Legacy, 0, 0, false, [0, 0], [0, 0], false, c, line)) == Ok(Solver(FinalSpace, Left, Legacy, 1, 0, false, [0, 0], [-1, 0], false, c, line))
  {
    assert [0, 0][0 := 0] == [0, 0];
    assert [0, 0][0 := -1] == [-1, 0];
    assert SkipMarked(Solver(PlaceBlock, Left, Legacy, 0, 0, false, [0, 0], [0, 0], false, c, line)) == FillBlock(Solver(PlaceBlock, Left, Legacy, 1, 0, false, [0, 0], [-1, 0], false, c, line));
    assert [-1, 0][0 := -1] == [-1, 0];
  }

  lemma LeftSolveThirdTestStep2(c: seq<int>, line: Line)
    requires c == [1, 3] && line == [Empty, Empty, Empty, Empty, Empty, Marked, Empty, Empty]
    ensures Step(Solver(FinalSpace, Left, Legacy, 1, 0, false, [0, 0], [-1, 0], false, c, line)) == Ok(Solver(NewBlock, Left, Legacy, 1, 1, false, [0, 0], [-1, 0], false, c, line))
  {
    assert [0, 0][0 := 0] == [0, 0];
    assert [-1, 0][0 := -1] == [-1, 0];
    assert [0, 0][1 := 0] == [0, 0];
    assert [-1, 0][1 := 0] == [-1, 0];
  }

  lemma LeftSolveThirdTestStep3(c: seq<int>, line: Line)
    requires c == [1, 3] && line == [Empty, Empty, Empty, Empty, Empty, Marked, Empty, Empty]
    ensures Step(Solver(NewBlock, Left, Legacy, 1, 1, false, [0, 0], [-1, 0], false, c, line)) == Ok(Solver(PlaceBlock, Left, Legacy, 1, 1, false, [0, 2], [-1, 0], false, c, line))
  {
    assert [0, 0][1 := 2] == [0, 2];
    assert [-1, 0][1 := 0] == [-1, 0];
  }

  lemma LeftSolveThirdTestStep4(c: seq<int>, line: Line)
    requires c == [1, 3] && line == [Empty, Empty, Empty, Empty, Empty, Marked, Empty, Empty]
    ensures Step(Solver(PlaceBlock, Left, Legacy, 1, 1, false, [0, 2], [-1, 0], false, c, line)) == Ok(Solver(FinalSpace, Left, Legacy, 5, 1, false, [0, 2], [-1, -1], false, c, line))
  {
    assert [0, 2][1 := 2] == [0, 2];
    assert [-1, 0][1 := -1] == [-1, -1];
    assert SkipMarked(Solver(PlaceBlock, Left, Legacy, 1, 1, false, [0, 2], [-1, 0], false, c, line)) == FillBlock(Solver(PlaceBlock, Left, Legacy, 3, 1, false, [0, 2], [-1, -1], false, c, line));
    assert [-1, -1][1 := -1] == [-1, -1];
    assert FillBlock(Solver(PlaceBlock, Left, Legacy, 3, 1, false, [0, 2], [-1, -1], false, c, line)) == FillBlock(Solver(PlaceBlock, Left, Legacy, 4, 1, false, [0, 2], [-1, -1], false, c, line));
    assert FillBlock(Solver(PlaceBlock, Left, Legacy, 4, 1, false, [0, 2], [-1, -1], false, c, line)) == FillBlock(Solver(PlaceBlock, Left, Legacy, 5, 1, false, [0, 2], [-1, -1], false, c, line));
  }

  lemma LeftSolveThirdTestStep5(c: seq<int>, line: Line)
    requires c == [1, 3] && line == [Empty, Empty, Empty, Empty, Empty, Marked, Empty, Empty]
    ensures Step(Solver(FinalSpace, Left, Legacy, 5, 1, false, [0, 2], [-1, -1], false, c, line)) == Ok(Solver(NewBlock, Left, Legacy, 5, 2, false, [0, 2], [-1, -1], false, c, line))
  {
    assert [0, 2][1 := 2] == [0, 2];
    assert [-1, -1][1 := -1] == [-1, -1];
  }

  lemma LeftSolveThirdTestStep6(c: seq<int>, line: Line)
    requires c == [1, 3] && line == [Empty, Empty, Empty, Empty, Empty, Marked, Empty, Empty]
    ensures Step(Solver(NewBlock, Left, Legacy, 5, 2, false, [0, 2], [-1, -1], false, c, line)) == Ok(Solver(CheckRest, Left, Legacy, 5, 1, false, [0, 2], [-1, -1], false, c, line))
  {
    assert [0, 2][1 := 2] == [0, 2];
    assert [-1, -1][1 := -1] == [-1, -1];
  }

  lemma LeftSolveThirdTestStep7(c: seq<int>, line: Line)
    requires c == [1, 3] && line == [Empty, Empty, Empty, Empty, Empty, Marked, Empty, Empty]
    ensures Step(Solver(CheckRest, Left, Legacy, 5, 1, false, [0, 2], [-1, -1], false, c, line)) == Ok(Solver(Halt, Left, Legacy, 8, 1, false, [0, 2], [-1, -1], false, c, line))
  {
    assert [0, 2][1 := 2] == [0, 2];
    assert [-1, -1][1 := -1] == [-1, -1];
    assert CheckRestStep(Solver(CheckRest, Left, Legacy, 5, 1, false, [0, 2], [-1, -1], false, c, line)) == CheckRestStep(Solver(CheckRest, Left, Legacy, 6, 1, false, [0, 2], [-1, -1], false, c, line));
    assert CheckRestStep(Solver(CheckRest, Left, Legacy, 6, 1, false, [0, 2], [-1, -1], false, c, line)) == CheckRestStep(Solver(CheckRest, Left, Legacy, 7, 1, false, [0, 2], [-1, -1], false, c, line));
    assert CheckRestStep(Solver(CheckRest, Left, Legacy, 7, 1, false, [0, 2], [-1, -1], false, c, line)) == CheckRestStep(Solver(CheckRest, Left, Legacy, 8, 1, false, [0, 2], [-1, -1], false, c, line));
  }

  /** linesolver_test.go:44-53 calls LeftSolve but expects [0, 4]: the leftmost placement starts at 0 and 2. */
  lemma LeftSolveThirdTest()
    ensures RootSweep.LeftSolve(20, [1, 3], [Empty, Empty, Empty, Empty, Empty, Marked, Empty, Empty]) == Ok(Some([0, 2]))
  {
    var c := [1, 3];
    var line: Line := [Empty, Empty, Empty, Empty, Empty, Marked, Empty, Empty];
    assert seq(2, _ => 0) == [0, 0];
    RootSweepProof.LeftSolveIsLeftSweep(20, c, line, Legacy);
    assert RootSweep.LeftSolve(20, c, line) == Run(20, Solver(NewBlock, Left, Legacy, 0, 0, false, [0, 0], [0, 0], false, c, line));
    LeftSolveThirdTestStep0(c, line);
    assert Run(20, Solver(NewBlock, Left, Legacy, 0, 0, false, [0, 0], [0, 0], false, c, line)) == Run(19, Solver(PlaceBlock, Left, Legacy, 0, 0, false, [0, 0], [0, 0], false, c, line));
    LeftSolveThirdTestStep1(c, line);
    assert Run(19, Solver(PlaceBlock, Left, Legacy, 0, 0, false, [0, 0], [0, 0], false, c, line)) == Run(18, Solver(FinalSpace, Left, Legacy, 1, 0, false, [0, 0], [-1, 0], false, c, line));
    LeftSolveThirdTestStep2(c, line);
    assert Run(18, Solver(FinalSpace, Left, Legacy, 1, 0, false, [0, 0], [-1, 0], false, c, line)) == Run(17, Solver(NewBlock, Left, Legacy, 1, 1, false, [0, 0], [-1, 0], false, c, line));
    LeftSolveThirdTestStep3(c, line);
    assert Run(17, Solver(NewBlock, Left, Legacy, 1, 1, false, [0, 0], [-1, 0], false, c, line)) == Run(16, Solver(PlaceBlock, Left, Legacy, 1, 1, false, [0, 2], [-1, 0], false, c, line));
    LeftSolveThirdTestStep4(c, line);
    assert Run(16, Solver(PlaceBlock, Left, Legacy, 1, 1, false, [0, 2], [-1, 0], false, c, line)) == Run(15, Solver(FinalSpace, Left, Legacy, 5, 1, false, [0, 2], [-1, -1], false, c, line));
    LeftSolveThirdTestStep5(c, line);
    assert Run(15, Solver(FinalSpace, Left, Legacy, 5, 1, false, [0, 2], [-1, -1], false, c, line)) == Run(14, Solver(NewBlock, Left, Legacy, 5, 2, false, [0, 2], [-1, -1], false, c, line));
    LeftSolveThirdTestStep6(c, line);
    assert Run(14, Solver(NewBlock, Left, Legacy, 5, 2, false, [0, 2], [-1, -1], false, c, line)) == Run(13, Solver(CheckRest, Left, Legacy, 5, 1, false, [0, 2], [-1, -1], false, c, line));
    LeftSolveThirdTestStep7(c, line);
    assert Run(13, Solver(CheckRest, Left, Legacy, 5, 1, false, [0, 2], [-1, -1], false, c, line)) == Run(12, Solver(Halt, Left, Legacy, 8, 1, false, [0, 2], [-1, -1], false, c, line));
  }

  lemma RightSolveThirdTestStep0(c: seq<int>, line: Line)
    requires c == [1, 3] && line == [Empty, Empty, Empty, Empty, Empty, Marked, Empty, Empty]
    ensures Step(Solver(NewBlock, Right, Legacy, 0, 1, false, [0, 0], [0, 0], false, c, line)) == Ok(Solver(PlaceBlock, Right, Legacy, 0, 1, false, [0, 7], [0, 0], false, c, line))
  {
    assert [0, 0][1 := 7] == [0, 7];
    assert [0, 0][1 := 0] == [0, 0];
  }

  lemma RightSolveThirdTestStep1(c: seq<int>, line: Line)
    requires c == [1, 3] && line == [Empty, Empty, Empty, Empty, Empty, Marked, Empty, Empty]
    ensures Step(Solver(PlaceBlock, Right, Legacy, 0, 1, false, [0, 7], [0, 0], false, c, line)) == Ok(Solver(PlaceBlock, Right, Legacy, 5, 1, false, [0, 5], [0, -1], false, c, line))
  {
    assert [0, 7][1 := 7] == [0, 7];
    assert [0, 0][1 := -1] == [0, -1];
    assert SkipMarked(Solver(PlaceBlock, Right, Legacy, 0, 1, false, [0, 7], [0, 0], false, c, line)) == FillBlock(Solver(PlaceBlock, Right, Legacy, 6, 1, false, [0, 7], [0, -1], false, c, line));
    assert [0, -1][1 := -1] == [0, -1];
    assert FillBlock(Solver(PlaceBlock, Right, Legacy, 6, 1, false, [0, 7], [0, -1], false, c, line)) == FillBlock(Solver(PlaceBlock, Right, Legacy, 5, 1, false, [0, 7], [0, -1], false, c, line));
    assert [0, 7][1 := 5] == [0, 5];
  }

  lemma RightSolveThirdTestStep2(c: seq<int>, line: Line)
    requires c == [1, 3] && line == [Empty, Empty, Empty, Empty, Empty, Marked, Empty, Empty]
    ensures Step(Solver(PlaceBlock, Right, Legacy, 5, 1, false, [0, 5], [0, -1], false, c, line)) == Ok(Solver(FinalSpace, Right, Legacy, 1, 1, false, [0, 4], [0, -1], false, c, line))
  {
    assert [0, 5][1 := 4] == [0, 4];
    assert [0, -1][1 := -1] == [0, -1];
    assert SkipMarked(Solver(PlaceBlock, Right, Legacy, 5, 1, false, [0, 5], [0, -1], false, c, line)) == SkipMarked(Solver(PlaceBlock, Right, Legacy, 5, 1, false, [0, 4], [0, -1], false, c, line));
    assert [0, 4][1 := 4] == [0, 4];
    assert SkipMarked(Solver(PlaceBlock, Right, Legacy, 5, 1, false, [0, 4], [0, -1], false, c, line)) == FillBlock(Solver(PlaceBlock, Right, Legacy, 3, 1, false, [0, 4], [0, -1], false, c, line));
    assert FillBlock(Solver(PlaceBlock, Right, Legacy, 3, 1, false, [0, 4], [0, -1], false, c, line)) == FillBlock(Solver(PlaceBlock, Right, Legacy, 2, 1, false, [0, 4], [0, -1], false, c, line));
    assert FillBlock(Solver(PlaceBlock, Right, Legacy, 2, 1, false, [0, 4], [0, -1], false, c, line)) == FillBlock(Solver(PlaceBlock, Right, Legacy, 1, 1, false, [0, 4], [0, -1], false, c, line));
  }

  lemma RightSolveThirdTestStep3(c: seq<int>, line: Line)
    requires c == [1, 3] && line == [Empty, Empty, Empty, Empty, Empty, Marked, Empty, Empty]
    ensures Step(Solver(FinalSpace, Right, Legacy, 1, 1, false, [0, 4], [0, -1], false, c, line)) == Ok(Solver(NewBlock, Right, Legacy, 1, 0, false, [0, 4], [0, -1], false, c, line))
  {
    assert [0, 4][1 := 4] == [0, 4];
    assert [0, -1][1 := -1] == [0, -1];
    assert [0, 4][0 := 0] == [0, 4];
    assert [0, -1][0 := 0] == [0, -1];
  }

  lemma RightSolveThirdTestStep4(c: seq<int>, line: Line)
    requires c == [1, 3] && line == [Empty, Empty, Empty, Empty, Empty, Marked, Empty, Empty]
    ensures Step(Solver(NewBlock, Right, Legacy, 1, 0, false, [0, 4], [0, -1], false, c, line)) == Ok(Solver(PlaceBlock, Right, Legacy, 1, 0, false, [0, 4], [0, -1], false, c, line))
  {
    assert [0, 4][0 := 0] == [0, 4];
    assert [0, -1][0 := 0] == [0, -1];
  }

  lemma RightSolveThirdTestStep5(c: seq<int>, line: Line)
    requires c == [1, 3] && line == [Empty, Empty, Empty, Empty, Empty, Marked, Empty, Empty]
    ensures Step(Solver(PlaceBlock, Right, Legacy, 1, 0, false, [0, 4], [0, -1], false, c, line)) == Ok(Solver(FinalSpace, Right, Legacy, -1, 0, false, [0, 4], [-1, -1], false, c, line))
  {
    assert [0, 4][0 := 0] == [0, 4];
    assert [0, -1][0 := -1] == [-1, -1];
    assert SkipMarked(Solver(PlaceBlock, Right, Legacy, 1, 0, false, [0, 4], [0, -1], false, c, line)) == FillBlock(Solver(PlaceBlock, Right, Legacy, -1, 0, false, [0, 4], [-1, -1], false, c, line));
    assert [-1, -1][0 := -1] == [-1, -1];
  }

  lemma RightSolveThirdTestStep6(c: seq<int>, line: Line)
    requires c == [1, 3] && line == [Empty, Empty, Empty, Empty, Empty, Marked, Empty, Empty]
    ensures Step(Solver(FinalSpace, Right, Legacy, -1, 0, false, [0, 4], [-1, -1], false, c, line)) == Ok(Solver(NewBlock, Right, Legacy, -1, -1, false, [0, 4], [-1, -1], false, c, line))
  {
    assert [0, 4][0 := 0] == [0, 4];
    assert [-1, -1][0 := -1] == [-1, -1];
  }

  lemma RightSolveThirdTestStep7(c: seq<int>, line: Line)
    requires c == [1, 3] && line == [Empty, Empty, Empty, Empty, Empty, Marked, Empty, Empty]
    ensures Step(Solver(NewBlock, Right, Legacy, -1, -1, false, [0, 4], [-1, -1], false, c, line)) == Ok(Solver(CheckRest, Right, Legacy, -1, 0, false, [0, 4], [-1, -1], false, c, line))
  {
    assert [0, 4][0 := 0] == [0, 4];
    assert [-1, -1][0 := -1] == [-1, -1];
  }

  lemma RightSolveThirdTestStep8(c: seq<int>, line: Line)
    requires c == [1, 3] && line == [Empty, Empty, Empty, Empty, Empty, Marked, Empty, Empty]
    ensures Step(Solver(CheckRest, Right, Legacy, -1, 0, false, [0, 4], [-1, -1], false, c, line)) == Ok(Solver(Halt, Right, Legacy, -1, 0, false, [0, 4], [-1, -1], false, c, line))
  {
    assert [0, 4][0 := 0] == [0, 4];
    assert [-1, -1][0 := -1] == [-1, -1];
  }

  /** The [0, 4] that linesolver_test.go:44-53 expects is what RightSolve gives. */
  lemma RightSolveThirdTest()
    ensures RootSweep.RightSolve(20, [1, 3], [Empty, Empty, Empty, Empty, Empty, Marked, Empty, Empty]) == Ok(Some([0, 4]))
  {
    var c := [1, 3];
    var line: Line := [Empty, Empty, Empty, Empty, Empty, Marked, Empty, Empty];
    assert seq(2, _ => 0) == [0, 0];
    RootSweepProof.RightSolveIsRightSweep(20, c, line);
    assert RootSweep.RightSolve(20, c, line) == Run(20, Solver(NewBlock, Right, Legacy, 0, 1, false, [0, 0], [0, 0], false, c, line));
    RightSolveThirdTestStep0(c, line);
    assert Run(20, Solver(NewBlock, Right, Legacy, 0, 1, false, [0, 0], [0, 0], false, c, line)) == Run(19, Solver(PlaceBlock, Right, Legacy, 0, 1, false, [0, 7], [0, 0], false, c, line));
    RightSolveThirdTestStep1(c, line);
    assert Run(19, Solver(PlaceBlock, Right, Legacy, 0, 1, false, [0, 7], [0, 0], false, c, line)) == Run(18, Solver(PlaceBlock, Right, Legacy, 5, 1, false, [0, 5], [0, -1], false, c, line));
    RightSolveThirdTestStep2(c, line);
    assert Run(18, Solver(PlaceBlock, Right, Legacy, 5, 1, false, [0, 5], [0, -1], false, c, line)) == Run(17, Solver(FinalSpace, Right, Legacy, 1, 1, false, [0, 4], [0, -1], false, c, line));
    RightSolveThirdTestStep3(c, line);
    assert Run(17, Solver(FinalSpace, Right, Legacy, 1, 1, false, [0, 4], [0, -1], false, c, line)) == Run(16, Solver(NewBlock, Right, Legacy, 1, 0, false, [0, 4], [0, -1], false, c, line));
    RightSolveThirdTestStep4(c, line);
    assert Run(16, Solver(NewBlock, Right, Legacy, 1, 0, false, [0, 4], [0, -1], false, c, line)) == Run(15, Solver(PlaceBlock, Right, Legacy, 1, 0, false, [0, 4], [0, -1], false, c, line));
    RightSolveThirdTestStep5(c, line);
    assert Run(15, Solver(PlaceBlock, Right, Legacy, 1, 0, false, [0, 4], [0, -1], false, c, line)) == Run(14, Solver(FinalSpace, Right, Legacy, -1, 0, false, [0, 4], [-1, -1], false, c, line));
    RightSolveThirdTestStep6(c, line);
    assert Run(14, Solver(FinalSpace, Right, Legacy, -1, 0, false, [0, 4], [-1, -1], false, c, line)) == Run(13, Solver(NewBlock, Right, Legacy, -1, -1, false, [0, 4], [-1, -1], false, c, line));
    RightSolveThirdTestStep7(c, line);
    assert Run(13, Solver(NewBlock, Right, Legacy, -1, -1, false, [0, 4], [-1, -1], false, c, line)) == Run(12, Solver(CheckRest, Right, Legacy, -1, 0, false, [0, 4], [-1, -1], false, c, line));
    RightSolveThirdTestStep8(c, line);
    assert Run(12, Solver(CheckRest, Right, Legacy, -1, 0, false, [0, 4], [-1, -1], false, c, line)) == Run(11, Solver(Halt, Right, Legacy, -1, 0, false, [0, 4], [-1, -1], false, c, line));
  }

  lemma FastRightOverrunStep0(c: seq<int>, line: Line)
    requires c == [1] && line == [Full, Empty, Empty]
    ensures Step(Solver(NewBlock, Right, Fast, 0, 0, false, [0], [0], false, c, line)) == Ok(Solver(PlaceBlock, Right, Fast, 0, 0, false, [2], [0], false, c, line))
  {
    assert [0][0 := 2] == [2];
    assert [0][0 := 0] == [0];
  }

  lemma FastRightOverrunStep1(c: seq<int>, line: Line)
    requires c == [1] && line == [Full, Empty, Empty]
    ensures Step(Solver(PlaceBlock, Right, Fast, 0, 0, false, [2], [0], false, c, line)) == Ok(Solver(FinalSpace, Right, Fast, 1, 0, false, [2], [-1], false, c, line))
  {
    assert [2][0 := 2] == [2];
    assert [0][0 := -1] == [-1];
    assert SkipMarked(Solver(PlaceBlock, Right, Fast, 0, 0, false, [2], [0], false, c, line)) == FillBlock(Solver(PlaceBlock, Right, Fast, 1, 0, false, [2], [-1], false, c, line));
    assert [-1][0 := -1] == [-1];
  }

  lemma FastRightOverrunStep2(c: seq<int>, line: Line)
    requires c == [1] && line == [Full, Empty, Empty]
    ensures Step(Solver(FinalSpace, Right, Fast, 1, 0, false, [2], [-1], false, c, line)) == Ok(Solver(NewBlock, Right, Fast, 1, -1, false, [2], [-1], false, c, line))
  {
    assert [2][0 := 2] == [2];
    assert [-1][0 := -1] == [-1];
  }

  lemma FastRightOverrunStep3(c: seq<int>, line: Line)
    requires c == [1] && line == [Full, Empty, Empty]
    ensures Step(Solver(NewBlock, Right, Fast, 1, -1, false, [2], [-1], false, c, line)) == Ok(Solver(CheckRest, Right, Fast, 1, 0, false, [2], [-1], false, c, line))
  {
    assert [2][0 := 2] == [2];
    assert [-1][0 := -1] == [-1];
  }

  lemma FastRightOverrunStep4(c: seq<int>, line: Line)
    requires c == [1] && line == [Full, Empty, Empty]
    ensures Step(Solver(CheckRest, Right, Fast, 1, 0, false, [2], [-1], false, c, line)) == Ok(Solver(AdvanceBlock, Right, Fast, 3, 0, false, [2], [-1], false, c, line))
  {
    assert [2][0 := 2] == [2];
    assert [-1][0 := -1] == [-1];
    assert CheckRestStep(Solver(CheckRest, Right, Fast, 1, 0, false, [2], [-1], false, c, line)) == CheckRestStep(Solver(CheckRest, Right, Fast, 0, 0, false, [2], [-1], false, c, line));
  }

  lemma FastRightOverrunStep5(c: seq<int>, line: Line)
    requires c == [1] && line == [Full, Empty, Empty]
    ensures Step(Solver(AdvanceBlock, Right, Fast, 3, 0, false, [2], [-1], false, c, line)).Panic?
  {
  }

  /** The right sweep of solver/linesolver.go sends a block past the end of the line and reads out of range. */
  lemma FastRightOverrun()
    ensures FastRight(20, [1], [Full, Empty, Empty]) == Panic
  {
    var c := [1];
    var line: Line := [Full, Empty, Empty];
    assert seq(1, _ => 0) == [0];
    assert FastRight(20, c, line) == Run(20, Solver(NewBlock, Right, Fast, 0, 0, false, [0], [0], false, c, line));
    FastRightOverrunStep0(c, line);
    assert Run(20, Solver(NewBlock, Right, Fast, 0, 0, false, [0], [0], false, c, line)) == Run(19, Solver(PlaceBlock, Right, Fast, 0, 0, false, [2], [0], false, c, line));
    FastRightOverrunStep1(c, line);
    assert Run(19, Solver(PlaceBlock, Right, Fast, 0, 0, false, [2], [0], false, c, line)) == Run(18, Solver(FinalSpace, Right, Fast, 1, 0, false, [2], [-1], false, c, line));
    FastRightOverrunStep2(c, line);
    assert Run(18, Solver(FinalSpace, Right, Fast, 1, 0, false, [2], [-1], false, c, line)) == Run(17, Solver(NewBlock, Right, Fast, 1, -1, false, [2], [-1], false, c, line));
    FastRightOverrunStep3(c, line);
    assert Run(17, Solver(NewBlock, Right, Fast, 1, -1, false, [2], [-1], false, c, line)) == Run(16, Solver(CheckRest, Right, Fast, 1, 0, false, [2], [-1], false, c, line));
    FastRightOverrunStep4(c, line);
    assert Run(16, Solver(CheckRest, Right, Fast, 1, 0, false, [2], [-1], false, c, line)) == Run(15, Solver(AdvanceBlock, Right, Fast, 3, 0, false, [2], [-1], false, c, line));
    FastRightOverrunStep5(c, line);
    assert Run(15, Solver(AdvanceBlock, Right, Fast, 3, 0, false, [2], [-1], false, c, line)) == Panic;
  }

  lemma RightSolveRecoversStep0(c: seq<int>, line: Line)
    requires c == [1] && line == [Full, Empty, Empty]
    ensures Step(Solver(NewBlock, Right, Legacy, 0, 0, false, [0], [0], false, c, line)) == Ok(Solver(PlaceBlock, Right, Legacy, 0, 0, false, [2], [0], false, c, line))
  {
    assert [0][0 := 2] == [2];
    assert [0][0 := 0] == [0];
  }

  lemma RightSolveRecoversStep1(c: seq<int>, line: Line)
    requires c == [1] && line == [Full, Empty, Empty]
    ensures Step(Solver(PlaceBlock, Right, Legacy, 0, 0, false, [2], [0], false, c, line)) == Ok(Solver(FinalSpace, Right, Legacy, 1, 0, false, [2], [-1], false, c, line))
  {
    assert [2][0 := 2] == [2];
    assert [0][0 := -1] == [-1];
    assert SkipMarked(Solver(PlaceBlock, Right, Legacy, 0, 0, false, [2], [0], false, c, line)) == FillBlock(Solver(PlaceBlock, Right, Legacy, 1, 0, false, [2], [-1], false, c, line));
    assert [-1][0 := -1] == [-1];
  }

  lemma RightSolveRecoversStep2(c: seq<int>, line: Line)
    requires c == [1] && line == [Full, Empty, Empty]
    ensures Step(Solver(FinalSpace, Right, Legacy, 1, 0, false, [2], [-1], false, c, line)) == Ok(Solver(NewBlock, Right, Legacy, 1, -1, false, [2], [-1], false, c, line))
  {
    assert [2][0 := 2] == [2];
    assert [-1][0 := -1] == [-1];
  }

  lemma RightSolveRecoversStep3(c: seq<int>, line: Line)
    requires c == [1] && line == [Full, Empty, Empty]
    ensures Step(Solver(NewBlock, Right, Legacy, 1, -1, false, [2], [-1], false, c, line)) == Ok(Solver(CheckRest, Right, Legacy, 1, 0, false, [2], [-1], false, c, line))
  {
    assert [2][0 := 2] == [2];
    assert [-1][0 := -1] == [-1];
  }

  lemma RightSolveRecoversStep4(c: seq<int>, line: Line)
    requires c == [1] && line == [Full, Empty, Empty]
    ensures Step(Solver(CheckRest, Right, Legacy, 1, 0, false, [2], [-1], false, c, line)) == Ok(Solver(AdvanceBlock, Right, Legacy, 1, 0, false, [2], [-1], false, c, line))
  {
    assert [2][0 := 2] == [2];
    assert [-1][0 := -1] == [-1];
    assert CheckRestStep(Solver(CheckRest, Right, Legacy, 1, 0, false, [2], [-1], false, c, line)) == CheckRestStep(Solver(CheckRest, Right, Legacy, 0, 0, false, [2], [-1], false, c, line));
  }

  lemma RightSolveRecoversStep5(c: seq<int>, line: Line)
    requires c == [1] && line == [Full, Empty, Empty]
    ensures Step(Solver(AdvanceBlock, Right, Legacy, 1, 0, false, [2], [-1], false, c, line)) == Ok(Solver(FinalSpace, Right, Legacy, -1, 0, false, [0], [-2], false, c, line))
  {
    assert [2][0 := 1] == [1];
    assert [-1][0 := -1] == [-1];
    assert Slide(Solver(AdvanceBlock, Right, Legacy, 1, 0, false, [2], [-1], false, c, line)) == Slide(Solver(AdvanceBlock, Right, Legacy, 0, 0, false, [1], [-1], false, c, line));
    assert [2][0 := 0] == [0];
    assert [-1][0 := -2] == [-2];
    assert [1][0 := 0] == [0];
  }

  lemma RightSolveRecoversStep6(c: seq<int>, line: Line)
    requires c == [1] && line == [Full, Empty, Empty]
    ensures Step(Solver(FinalSpace, Right, Legacy, -1, 0, false, [0], [-2], false, c, line)) == Ok(Solver(NewBlock, Right, Legacy, -1, -1, false, [0], [-2], false, c, line))
  {
    assert [0][0 := 0] == [0];
    assert [-2][0 := -2] == [-2];
  }

  lemma RightSolveRecoversStep7(c: seq<int>, line: Line)
    requires c == [1] && line == [Full, Empty, Empty]
    ensures Step(Solver(NewBlock, Right, Legacy, -1, -1, false, [0], [-2], false, c, line)) == Ok(Solver(CheckRest, Right, Legacy, -1, 0, false, [0], [-2], false, c, line))
  {
    assert [0][0 := 0] == [0];
    assert [-2][0 := -2] == [-2];
  }

  lemma RightSolveRecoversStep8(c: seq<int>, line: Line)
    requires c == [1] && line == [Full, Empty, Empty]
    ensures Step(Solver(CheckRest, Right, Legacy, -1, 0, false, [0], [-2], false, c, line)) == Ok(Solver(Halt, Right, Legacy, -1, 0, false, [0], [-2], false, c, line))
  {
    assert [0][0 := 0] == [0];
    assert [-2][0 := -2] == [-2];
  }

  /** On the same input RightSolve, which moves the block backward, finds the block at 0. */
  lemma RightSolveRecovers()
    ensures RootSweep.RightSolve(20, [1], [Full, Empty, Empty]) == Ok(Some([0]))
  {
    var c := [1];
    var line: Line := [Full, Empty, Empty];
    assert seq(1, _ => 0) == [0];
    RootSweepProof.RightSolveIsRightSweep(20, c, line);
    assert RootSweep.RightSolve(20, c, line) == Run(20, Solver(NewBlock, Right, Legacy, 0, 0, false, [0], [0], false, c, line));
    RightSolveRecoversStep0(c, line);
    assert Run(20, Solver(NewBlock, Right, Legacy, 0, 0, false, [0], [0], false, c, line)) == Run(19, Solver(PlaceBlock, Right, Legacy, 0, 0, false, [2], [0], false, c, line));
    RightSolveRecoversStep1(c, line);
    assert Run(19, Solver(PlaceBlock, Right, Legacy, 0, 0, false, [2], [0], false, c, line)) == Run(18, Solver(FinalSpace, Right, Legacy, 1, 0, false, [2], [-1], false, c, line));
    RightSolveRecoversStep2(c, line);
    assert Run(18, Solver(FinalSpace, Right, Legacy, 1, 0, false, [2], [-1], false, c, line)) == Run(17, Solver(NewBlock, Right, Legacy, 1, -1, false, [2], [-1], false, c, line));
    RightSolveRecoversStep3(c, line);
    assert Run(17, Solver(NewBlock, Right, Legacy, 1, -1, false, [2], [-1], false, c, line)) == Run(16, Solver(CheckRest, Right, Legacy, 1, 0, false, [2], [-1], false, c, line));
    RightSolveRecoversStep4(c, line);
    assert Run(16, Solver(CheckRest, Right, Legacy, 1, 0, false, [2], [-1], false, c, line)) == Run(15, Solver(AdvanceBlock, Right, Legacy, 1, 0, false, [2], [-1], false, c, line));
    RightSolveRecoversStep5(c, line);
    assert Run(15, Solver(AdvanceBlock, Right, Legacy, 1, 0, false, [2], [-1], false, c, line)) == Run(14, Solver(FinalSpace, Right, Legacy, -1, 0, false, [0], [-2], false, c, line));
    RightSolveRecoversStep6(c, line);
    assert Run(14, Solver(FinalSpace, Right, Legacy, -1, 0, false, [0], [-2], false, c, line)) == Run(13, Solver(NewBlock, Right, Legacy, -1, -1, false, [0], [-2], false, c, line));
    RightSolveRecoversStep7(c, line);
    assert Run(13, Solver(NewBlock, Right, Legacy, -1, -1, false, [0], [-2], false, c, line)) == Run(12, Solver(CheckRest, Right, Legacy, -1, 0, false, [0], [-2], false, c, line));
    RightSolveRecoversStep8(c, line);
    assert Run(12, Solver(CheckRest, Right, Legacy, -1, 0, false, [0], [-2], false, c, line)) == Run(11, Solver(Halt, Right, Legacy, -1, 0, false, [0], [-2], false, c, line));
  }

  lemma FastRightOutOfLineStep0(c: seq<int>, line: Line)
    requires c == [1, 1] && line == [Empty, Full, Empty, Empty, Empty, Empty]
    ensures Step(Solver(NewBlock, Right, Fast, 0, 1, false, [0, 0], [0, 0], false, c, line)) == Ok(Solver(PlaceBlock, Right, Fast, 0, 1, false, [0, 5], [0, 0], false, c, line))
  {
    assert [0, 0][1 := 5] == [0, 5];
    assert [0, 0][1 := 0] == [0, 0];
  }

  lemma FastRightOutOfLineStep1(c: seq<int>, line: Line)
    requires c == [1, 1] && line == [Empty, Full, Empty, Empty, Empty, Empty]
    ensures Step(Solver(PlaceBlock, Right, Fast, 0, 1, false, [0, 5], [0, 0], false, c, line)) == Ok(Solver(FinalSpace, Right, Fast, 4, 1, false, [0, 5], [0, -1], false, c, line))
  {
    assert [0, 5][1 := 5] == [0, 5];
    assert [0, 0][1 := -1] == [0, -1];
    assert SkipMarked(Solver(PlaceBlock, Right, Fast, 0, 1, false, [0, 5], [0, 0], false, c, line)) == FillBlock(Solver(PlaceBlock, Right, Fast, 4, 1, false, [0, 5], [0, -1], false, c, line));
    assert [0, -1][1 := -1] == [0, -1];
  }

  lemma FastRightOutOfLineStep2(c: seq<int>, line: Line)
    requires c == [1, 1] && line == [Empty, Full, Empty, Empty, Empty, Empty]
    ensures Step(Solver(FinalSpace, Right, Fast, 4, 1, false, [0, 5], [0, -1], false, c, line)) == Ok(Solver(NewBlock, Right, Fast, 4, 0, false, [0, 5], [0, -1], false, c, line))
  {
    assert [0, 5][1 := 5] == [0, 5];
    assert [0, -1][1 := -1] == [0, -1];
    assert [0, 5][0 := 0] == [0, 5];
    assert [0, -1][0 := 0] == [0, -1];
  }

  lemma FastRightOutOfLineStep3(c: seq<int>, line: Line)
    requires c == [1, 1] && line == [Empty, Full, Empty, Empty, Empty, Empty]
    ensures Step(Solver(NewBlock, Right, Fast, 4, 0, false, [0, 5], [0, -1], false, c, line)) == Ok(Solver(PlaceBlock, Right, Fast, 4, 0, false, [3, 5], [0, -1], false, c, line))
  {
    assert [0, 5][0 := 3] == [3, 5];
    assert [0, -1][0 := 0] == [0, -1];
  }

  lemma FastRightOutOfLineStep4(c: seq<int>, line: Line)
    requires c == [1, 1] && line == [Empty, Full, Empty, Empty, Empty, Empty]
    ensures Step(Solver(PlaceBlock, Right, Fast, 4, 0, false, [3, 5], [0, -1], false, c, line)) == Ok(Solver(FinalSpace, Right, Fast, 2, 0, false, [3, 5], [-1, -1], false, c, line))
  {
    assert [3, 5][0 := 3] == [3, 5];
    assert [0, -1][0 := -1] == [-1, -1];
    assert SkipMarked(Solver(PlaceBlock, Right, Fast, 4, 0, false, [3, 5], [0, -1], false, c, line)) == FillBlock(Solver(PlaceBlock, Right, Fast, 2, 0, false, [3, 5], [-1, -1], false, c, line));
    assert [-1, -1][0 := -1] == [-1, -1];
  }

  lemma FastRightOutOfLineStep5(c: seq<int>, line: Line)
    requires c == [1, 1] && line == [Empty, Full, Empty, Empty, Empty, Empty]
    ensures Step(Solver(FinalSpace, Right, Fast, 2, 0, false, [3, 5], [-1, -1], false, c, line)) == Ok(Solver(NewBlock, Right, Fast, 2, -1, false, [3, 5], [-1, -1], false, c, line))
  {
    assert [3, 5][0 := 3] == [3, 5];
    assert [-1, -1][0 := -1] == [-1, -1];
  }

  lemma FastRightOutOfLineStep6(c: seq<int>, line: Line)
    requires c == [1, 1] && line == [Empty, Full, Empty, Empty, Empty, Empty]
    ensures Step(Solver(NewBlock, Right, Fast, 2, -1, false, [3, 5], [-1, -1], false, c, line)) == Ok(Solver(CheckRest, Right, Fast, 2, 0, false, [3, 5], [-1, -1], false, c, line))
  {
    assert [3, 5][0 := 3] == [3, 5];
    assert [-1, -1][0 := -1] == [-1, -1];
  }

  lemma FastRightOutOfLineStep7(c: seq<int>, line: Line)
    requires c == [1, 1] && line == [Empty, Full, Empty, Empty, Empty, Empty]
    ensures Step(Solver(CheckRest, Right, Fast, 2, 0, false, [3, 5], [-1, -1], false, c, line)) == Ok(Solver(AdvanceBlock, Right, Fast, 4, 0, false, [3, 5], [-1, -1], false, c, line))
  {
    assert [3, 5][0 := 3] == [3, 5];
    assert [-1, -1][0 := -1] == [-1, -1];
    assert CheckRestStep(Solver(CheckRest, Right, Fast, 2, 0, false, [3, 5], [-1, -1], false, c, line)) == CheckRestStep(Solver(CheckRest, Right, Fast, 1, 0, false, [3, 5], [-1, -1], false, c, line));
  }

  lemma FastRightOutOfLineStep8(c: seq<int>, line: Line)
    requires c == [1, 1] && line == [Empty, Full, Empty, Empty, Empty, Empty]
    ensures Step(Solver(AdvanceBlock, Right, Fast, 4, 0, false, [3, 5], [-1, -1], false, c, line)) == Ok(Solver(FinalSpace, Right, Fast, 0, 0, false, [-1, 5], [-1, -1], false, c, line))
  {
    assert [3, 5][0 := 2] == [2, 5];
    assert [-1, -1][0 := -1] == [-1, -1];
    assert Slide(Solver(AdvanceBlock, Right, Fast, 4, 0, false, [3, 5], [-1, -1], false, c, line)) == Slide(Solver(AdvanceBlock, Right, Fast, 3, 0, false, [2, 5], [-1, -1], false, c, line));
    assert [2, 5][0 := 1] == [1, 5];
    assert Slide(Solver(AdvanceBlock, Right, Fast, 3, 0, false, [2, 5], [-1, -1], false, c, line)) == Slide(Solver(AdvanceBlock, Right, Fast, 2, 0, false, [1, 5], [-1, -1], false, c, line));
    assert [1, 5][0 := 0] == [0, 5];
    assert Slide(Solver(AdvanceBlock, Right, Fast, 2, 0, false, [1, 5], [-1, -1], false, c, line)) == Slide(Solver(AdvanceBlock, Right, Fast, 1, 0, false, [0, 5], [-1, -1], false, c, line));
    assert [3, 5][0 := -1] == [-1, 5];
    assert [0, 5][0 := -1] == [-1, 5];
  }

  lemma FastRightOutOfLineStep9(c: seq<int>, line: Line)
    requires c == [1, 1] && line == [Empty, Full, Empty, Empty, Empty, Empty]
    ensures Step(Solver(FinalSpace, Right, Fast, 0, 0, false, [-1, 5], [-1, -1], false, c, line)) == Ok(Solver(NewBlock, Right, Fast, 0, -1, false, [-1, 5], [-1, -1], false, c, line))
  {
    assert [-1, 5][0 := -1] == [-1, 5];
    assert [-1, -1][0 := -1] == [-1, -1];
  }

  lemma FastRightOutOfLineStep10(c: seq<int>, line: Line)
    requires c == [1, 1] && line == [Empty, Full, Empty, Empty, Empty, Empty]
    ensures Step(Solver(NewBlock, Right, Fast, 0, -1, false, [-1, 5], [-1, -1], false, c, line)) == Ok(Solver(CheckRest, Right, Fast, 0, 0, false, [-1, 5], [-1, -1], false, c, line))
  {
    assert [-1, 5][0 := -1] == [-1, 5];
    assert [-1, -1][0 := -1] == [-1, -1];
  }

  lemma FastRightOutOfLineStep11(c: seq<int>, line: Line)
    requires c == [1, 1] && line == [Empty, Full, Empty, Empty, Empty, Empty]
    ensures Step(Solver(CheckRest, Right, Fast, 0, 0, false, [-1, 5], [-1, -1], false, c, line)) == Ok(Solver(Halt, Right, Fast, -1, 0, false, [-1, 5], [-1, -1], false, c, line))
  {
    assert [-1, 5][0 := -1] == [-1, 5];
    assert [-1, -1][0 := -1] == [-1, -1];
    assert CheckRestStep(Solver(CheckRest, Right, Fast, 0, 0, false, [-1, 5], [-1, -1], false, c, line)) == CheckRestStep(Solver(CheckRest, Right, Fast, -1, 0, false, [-1, 5], [-1, -1], false, c, line));
  }

  /** The right sweep of solver/linesolver.go reports a block that ends at -1, outside the line. */
  lemma FastRightOutOfLine()
    ensures FastRight(20, [1, 1], [Empty, Full, Empty, Empty, Empty, Empty]) == Ok(Some([-1, 5]))
  {
    var c := [1, 1];
    var line: Line := [Empty, Full, Empty, Empty, Empty, Empty];
    assert seq(2, _ => 0) == [0, 0];
    assert FastRight(20, c, line) == Run(20, Solver(NewBlock, Right, Fast, 0, 1, false, [0, 0], [0, 0], false, c, line));
    FastRightOutOfLineStep0(c, line);
    assert Run(20, Solver(NewBlock, Right, Fast, 0, 1, false, [0, 0], [0, 0], false, c, line)) == Run(19, Solver(PlaceBlock, Right, Fast, 0, 1, false, [0, 5], [0, 0], false, c, line));
    FastRightOutOfLineStep1(c, line);
    assert Run(19, Solver(PlaceBlock, Right, Fast, 0, 1, false, [0, 5], [0, 0], false, c, line)) == Run(18, Solver(FinalSpace, Right, Fast, 4, 1, false, [0, 5], [0, -1], false, c, line));
    FastRightOutOfLineStep2(c, line);
    assert Run(18, Solver(FinalSpace, Right, Fast, 4, 1, false, [0, 5], [0, -1], false, c, line)) == Run(17, Solver(NewBlock, Right, Fast, 4, 0, false, [0, 5], [0, -1], false, c, line));
    FastRightOutOfLineStep3(c, line);
    assert Run(17, Solver(NewBlock, Right, Fast, 4, 0, false, [0, 5], [0, -1], false, c, line)) == Run(16, Solver(PlaceBlock, Right, Fast, 4, 0, false, [3, 5], [0, -1], false, c, line));
    FastRightOutOfLineStep4(c, line);
    assert Run(16, Solver(PlaceBlock, Right, Fast, 4, 0, false, [3, 5], [0, -1], false, c, line)) == Run(15, Solver(FinalSpace, Right, Fast, 2, 0, false, [3, 5], [-1, -1], false, c, line));
    FastRightOutOfLineStep5(c, line);
    assert Run(15, Solver(FinalSpace, Right, Fast, 2, 0, false, [3, 5], [-1, -1], false, c, line)) == Run(14, Solver(NewBlock, Right, Fast, 2, -1, false, [3, 5], [-1, -1], false, c, line));
    FastRightOutOfLineStep6(c, line);
    assert Run(14, Solver(NewBlock, Right, Fast, 2, -1, false, [3, 5], [-1, -1], false, c, line)) == Run(13, Solver(CheckRest, Right, Fast, 2, 0, false, [3, 5], [-1, -1], false, c, line));
    FastRightOutOfLineStep7(c, line);
    assert Run(13, Solver(CheckRest, Right, Fast, 2, 0, false, [3, 5], [-1, -1], false, c, line)) == Run(12, Solver(AdvanceBlock, Right, Fast, 4, 0, false, [3, 5], [-1, -1], false, c, line));
    FastRightOutOfLineStep8(c, line);
    assert Run(12, Solver(AdvanceBlock, Right, Fast, 4, 0, false, [3, 5], [-1, -1], false, c, line)) == Run(11, Solver(FinalSpace, Right, Fast, 0, 0, false, [-1, 5], [-1, -1], false, c, line));
    FastRightOutOfLineStep9(c, line);
    assert Run(11, Solver(FinalSpace, Right, Fast, 0, 0, false, [-1, 5], [-1, -1], false, c, line)) == Run(10, Solver(NewBlock, Right, Fast, 0, -1, false, [-1, 5], [-1, -1], false, c, line));
    FastRightOutOfLineStep10(c, line);
    assert Run(10, Solver(NewBlock, Right, Fast, 0, -1, false, [-1, 5], [-1, -1], false, c, line)) == Run(9, Solver(CheckRest, Right, Fast, 0, 0, false, [-1, 5], [-1, -1], false, c, line));
    FastRightOutOfLineStep11(c, line);
    assert Run(9, Solver(CheckRest, Right, Fast, 0, 0, false, [-1, 5], [-1, -1], false, c, line)) == Run(8, Solver(Halt, Right, Fast, -1, 0, false, [-1, 5], [-1, -1], false, c, line));
  }

  lemma RightSolveUncoveredStep0(c: seq<int>, line: Line)
    requires c == [1] && line == [Full, Full, Empty, Empty]
    ensures Step(Solver(NewBlock, Right, Legacy, 0, 0, false, [0], [0], false, c, line)) == Ok(Solver(PlaceBlock, Right, Legacy, 0, 0, false, [3], [0], false, c, line))
  {
    assert [0][0 := 3] == [3];
    assert [0][0 := 0] == [0];
  }

  lemma RightSolveUncoveredStep1(c: seq<int>, line: Line)
    requires c == [1] && line == [Full, Full, Empty, Empty]
    ensures Step(Solver(PlaceBlock, Right, Legacy, 0, 0, false, [3], [0], false, c, line)) == Ok(Solver(FinalSpace, Right, Legacy, 2, 0, false, [3], [-1], false, c, line))
  {
    assert [3][0 := 3] == [3];
    assert [0][0 := -1] == [-1];
    assert SkipMarked(Solver(PlaceBlock, Right, Legacy, 0, 0, false, [3], [0], false, c, line)) == FillBlock(Solver(PlaceBlock, Right, Legacy, 2, 0, false, [3], [-1], false, c, line));
    assert [-1][0 := -1] == [-1];
  }

  lemma RightSolveUncoveredStep2(c: seq<int>, line: Line)
    requires c == [1] && line == [Full, Full, Empty, Empty]
    ensures Step(Solver(FinalSpace, Right, Legacy, 2, 0, false, [3], [-1], false, c, line)) == Ok(Solver(NewBlock, Right, Legacy, 2, -1, false, [3], [-1], false, c, line))
  {
    assert [3][0 := 3] == [3];
    assert [-1][0 := -1] == [-1];
  }

  lemma RightSolveUncoveredStep3(c: seq<int>, line: Line)
    requires c == [1] && line == [Full, Full, Empty, Empty]
    ensures Step(Solver(NewBlock, Right, Legacy, 2, -1, false, [3], [-1], false, c, line)) == Ok(Solver(CheckRest, Right, Legacy, 2, 0, false, [3], [-1], false, c, line))
  {
    assert [3][0 := 3] == [3];
    assert [-1][0 := -1] == [-1];
  }

  lemma RightSolveUncoveredStep4(c: seq<int>, line: Line)
    requires c == [1] && line == [Full, Full, Empty, Empty]
    ensures Step(Solver(CheckRest, Right, Legacy, 2, 0, false, [3], [-1], false, c, line)) == Ok(Solver(AdvanceBlock, Right, Legacy, 2, 0, false, [3], [-1], false, c, line))
  {
    assert [3][0 := 3] == [3];
    assert [-1][0 := -1] == [-1];
    assert CheckRestStep(Solver(CheckRest, Right, Legacy, 2, 0, false, [3], [-1], false, c, line)) == CheckRestStep(Solver(CheckRest, Right, Legacy, 1, 0, false, [3], [-1], false, c, line));
  }

  lemma RightSolveUncoveredStep5(c: seq<int>, line: Line)
    requires c == [1] && line == [Full, Full, Empty, Empty]
    ensures Step(Solver(AdvanceBlock, Right, Legacy, 2, 0, false, [3], [-1], false, c, line)) == Ok(Solver(FinalSpace, Right, Legacy, 0, 0, false, [1], [-1], false, c, line))
  {
    assert [3][0 := 2] == [2];
    assert [-1][0 := -1] == [-1];
    assert Slide(Solver(AdvanceBlock, Right, Legacy, 2, 0, false, [3], [-1], false, c, line)) == Slide(Solver(AdvanceBlock, Right, Legacy, 1, 0, false, [2], [-1], false, c, line));
    assert [3][0 := 1] == [1];
    assert [2][0 := 1] == [1];
  }

  lemma RightSolveUncoveredStep6(c: seq<int>, line: Line)
    requires c == [1] && line == [Full, Full, Empty, Empty]
    ensures Step(Solver(FinalSpace, Right, Legacy, 0, 0, false, [1], [-1], false, c, line)) == Ok(Solver(NewBlock, Right, Legacy, -1, -1, false, [0], [0], false, c, line))
  {
    assert [1][0 := 0] == [0];
    assert [-1][0 := 0] == [0];
    assert ShiftPastFull(Solver(FinalSpace, Right, Legacy, 0, 0, false, [1], [-1], false, c, line)) == ShiftPastFull(Solver(FinalSpace, Right, Legacy, -1, 0, false, [0], [0], false, c, line));
    assert [0][0 := 0] == [0];
  }

  lemma RightSolveUncoveredStep7(c: seq<int>, line: Line)
    requires c == [1] && line == [Full, Full, Empty, Empty]
    ensures Step(Solver(NewBlock, Right, Legacy, -1, -1, false, [0], [0], false, c, line)) == Ok(Solver(CheckRest, Right, Legacy, -1, 0, false, [0], [0], false, c, line))
  {
    assert [0][0 := 0] == [0];
  }

  lemma RightSolveUncoveredStep8(c: seq<int>, line: Line)
    requires c == [1] && line == [Full, Full, Empty, Empty]
    ensures Step(Solver(CheckRest, Right, Legacy, -1, 0, false, [0], [0], false, c, line)) == Ok(Solver(Halt, Right, Legacy, -1, 0, false, [0], [0], false, c, line))
  {
    assert [0][0 := 0] == [0];
  }

  /** RightSolve reports a block at 0 that leaves the full cell 1 uncovered. */
  lemma RightSolveUncovered()
    ensures RootSweep.RightSolve(20, [1], [Full, Full, Empty, Empty]) == Ok(Some([0]))
  {
    var c := [1];
    var line: Line := [Full, Full, Empty, Empty];
    assert seq(1, _ => 0) == [0];
    RootSweepProof.RightSolveIsRightSweep(20, c, line);
    assert RootSweep.RightSolve(20, c, line) == Run(20, Solver(NewBlock, Right, Legacy, 0, 0, false, [0], [0], false, c, line));
    RightSolveUncoveredStep0(c, line);
    assert Run(20, Solver(NewBlock, Right, Legacy, 0, 0, false, [0], [0], false, c, line)) == Run(19, Solver(PlaceBlock, Right, Legacy, 0, 0, false, [3], [0], false, c, line));
    RightSolveUncoveredStep1(c, line);
    assert Run(19, Solver(PlaceBlock, Right, Legacy, 0, 0, false, [3], [0], false, c, line)) == Run(18, Solver(FinalSpace, Right, Legacy, 2, 0, false, [3], [-1], false, c, line));
    RightSolveUncoveredStep2(c, line);
    assert Run(18, Solver(FinalSpace, Right, Legacy, 2, 0, false, [3], [-1], false, c, line)) == Run(17, Solver(NewBlock, Right, Legacy, 2, -1, false, [3], [-1], false, c, line));
    RightSolveUncoveredStep3(c, line);
    assert Run(17, Solver(NewBlock, Right, Legacy, 2, -1, false, [3], [-1], false, c, line)) == Run(16, Solver(CheckRest, Right, Legacy, 2, 0, false, [3], [-1], false, c, line));
    RightSolveUncoveredStep4(c, line);
    assert Run(16, Solver(CheckRest, Right, Legacy, 2, 0, false, [3], [-1], false, c, line)) == Run(15, Solver(AdvanceBlock, Right, Legacy, 2, 0, false, [3], [-1], false, c, line));
    RightSolveUncoveredStep5(c, line);
    assert Run(15, Solver(AdvanceBlock, Right, Legacy, 2, 0, false, [3], [-1], false, c, line)) == Run(14, Solver(FinalSpace, Right, Legacy, 0, 0, false, [1], [-1], false, c, line));
    RightSolveUncoveredStep6(c, line);
    assert Run(14, Solver(FinalSpace, Right, Legacy, 0, 0, false, [1], [-1], false, c, line)) == Run(13, Solver(NewBlock, Right, Legacy, -1, -1, false, [0], [0], false, c, line));
    RightSolveUncoveredStep7(c, line);
    assert Run(13, Solver(NewBlock, Right, Legacy, -1, -1, false, [0], [0], false, c, line)) == Run(12, Solver(CheckRest, Right, Legacy, -1, 0, false, [0], [0], false, c, line));
    RightSolveUncoveredStep8(c, line);
    assert Run(12, Solver(CheckRest, Right, Legacy, -1, 0, false, [0], [0], false, c, line)) == Run(11, Solver(Halt, Right, Legacy, -1, 0, false, [0], [0], false, c, line));
  }

  lemma FastLeftMissesStep0(c: seq<int>, line: Line)
    requires c == [1] && line == [Empty, Empty, Full]
    ensures Step(Solver(NewBlock, Left, Fast, 0, 0, false, [0], [0], false, c, line)) == Ok(Solver(PlaceBlock, Left, Fast, 0, 0, false, [0], [0], false, c, line))
  {
    assert [0][0 := 0] == [0];
  }

  lemma FastLeftMissesStep1(c: seq<int>, line: Line)
    requires c == [1] && line == [Empty, Empty, Full]
    ensures Step(Solver(PlaceBlock, Left, Fast, 0, 0, false, [0], [0], false, c, line)) == Ok(Solver(FinalSpace, Left, Fast, 1, 0, false, [0], [-1], false, c, line))
  {
    assert [0][0 := 0] == [0];
    assert [0][0 := -1] == [-1];
    assert SkipMarked(Solver(PlaceBlock, Left, Fast, 0, 0, false, [0], [0], false, c, line)) == FillBlock(Solver(PlaceBlock, Left, Fast, 1, 0, false, [0], [-1], false, c, line));
    assert [-1][0 := -1] == [-1];
  }

  lemma FastLeftMissesStep2(c: seq<int>, line: Line)
    requires c == [1] && line == [Empty, Empty, Full]
    ensures Step(Solver(FinalSpace, Left, Fast, 1, 0, false, [0], [-1], false, c, line)) == Ok(Solver(NewBlock, Left, Fast, 1, 1, false, [0], [-1], false, c, line))
  {
    assert [0][0 := 0] == [0];
    assert [-1][0 := -1] == [-1];
  }

  lemma FastLeftMissesStep3(c: seq<int>, line: Line)
    requires c == [1] && line == [Empty, Empty, Full]
    ensures Step(Solver(NewBlock, Left, Fast, 1, 1, false, [0], [-1], false, c, line)) == Ok(Solver(CheckRest, Left, Fast, 1, 0, false, [0], [-1], false, c, line))
  {
    assert [0][0 := 0] == [0];
    assert [-1][0 := -1] == [-1];
  }

  lemma FastLeftMissesStep4(c: seq<int>, line: Line)
    requires c == [1] && line == [Empty, Empty, Full]
    ensures Step(Solver(CheckRest, Left, Fast, 1, 0, false, [0], [-1], false, c, line)) == Ok(Solver(AdvanceBlock, Left, Fast, 1, 0, false, [0], [-1], false, c, line))
  {
    assert [0][0 := 0] == [0];
    assert [-1][0 := -1] == [-1];
    assert CheckRestStep(Solver(CheckRest, Left, Fast, 1, 0, false, [0], [-1], false, c, line)) == CheckRestStep(Solver(CheckRest, Left, Fast, 2, 0, false, [0], [-1], false, c, line));
  }

  lemma FastLeftMissesStep5(c: seq<int>, line: Line)
    requires c == [1] && line == [Empty, Empty, Full]
    ensures Step(Solver(AdvanceBlock, Left, Fast, 1, 0, false, [0], [-1], false, c, line)) == Ok(Solver(Backtrack, Left, Fast, 1, 0, false, [0], [-1], false, c, line))
  {
    assert [0][0 := 0] == [0];
    assert [-1][0 := -1] == [-1];
  }

  lemma FastLeftMissesStep6(c: seq<int>, line: Line)
    requires c == [1] && line == [Empty, Empty, Full]
    ensures Step(Solver(Backtrack, Left, Fast, 1, 0, false, [0], [-1], false, c, line)) == Ok(Solver(Halt, Left, Fast, 1, -1, false, [0], [-1], true, c, line))
  {
    assert [0][0 := 0] == [0];
    assert [-1][0 := -1] == [-1];
  }

  /** The left sweep finds a contradiction although a block at 2 fits. */
  lemma FastLeftMisses()
    ensures FastLeft(20, [1], [Empty, Empty, Full]) == Ok(None)
  {
    var c := [1];
    var line: Line := [Empty, Empty, Full];
    assert seq(1, _ => 0) == [0];
    assert FastLeft(20, c, line) == Run(20, Solver(NewBlock, Left, Fast, 0, 0, false, [0], [0], false, c, line));
    FastLeftMissesStep0(c, line);
    assert Run(20, Solver(NewBlock, Left, Fast, 0, 0, false, [0], [0], false, c, line)) == Run(19, Solver(PlaceBlock, Left, Fast, 0, 0, false, [0], [0], false, c, line));
    FastLeftMissesStep1(c, line);
    assert Run(19, Solver(PlaceBlock, Left, Fast, 0, 0, false, [0], [0], false, c, line)) == Run(18, Solver(FinalSpace, Left, Fast, 1, 0, false, [0], [-1], false, c, line));
    FastLeftMissesStep2(c, line);
    assert Run(18, Solver(FinalSpace, Left, Fast, 1, 0, false, [0], [-1], false, c, line)) == Run(17, Solver(NewBlock, Left, Fast, 1, 1, false, [0], [-1], false, c, line));
    FastLeftMissesStep3(c, line);
    assert Run(17, Solver(NewBlock, Left, Fast, 1, 1, false, [0], [-1], false, c, line)) == Run(16, Solver(CheckRest, Left, Fast, 1, 0, false, [0], [-1], false, c, line));
    FastLeftMissesStep4(c, line);
    assert Run(16, Solver(CheckRest, Left, Fast, 1, 0, false, [0], [-1], false, c, line)) == Run(15, Solver(AdvanceBlock, Left, Fast, 1, 0, false, [0], [-1], false, c, line));
    FastLeftMissesStep5(c, line);
    assert Run(15, Solver(AdvanceBlock, Left, Fast, 1, 0, false, [0], [-1], false, c, line)) == Run(14, Solver(Backtrack, Left, Fast, 1, 0, false, [0], [-1], false, c, line));
    FastLeftMissesStep6(c, line);
    assert Run(14, Solver(Backtrack, Left, Fast, 1, 0, false, [0], [-1], false, c, line)) == Run(13, Solver(Halt, Left, Fast, 1, -1, false, [0], [-1], true, c, line));
  }

  lemma FastLeftOpenLineStep0(c: seq<int>, line: Line)
    requires c == [3] && line == [Empty, Empty, Empty, Empty, Empty]
    ensures Step(Solver(NewBlock, Left, Fast, 0, 0, false, [0], [0], false, c, line)) == Ok(Solver(PlaceBlock, Left, Fast, 0, 0, false, [0], [0], false, c, line))
  {
    assert [0][0 := 0] == [0];
  }

  lemma FastLeftOpenLineStep1(c: seq<int>, line: Line)
    requires c == [3] && line == [Empty, Empty, Empty, Empty, Empty]
    ensures Step(Solver(PlaceBlock, Left, Fast, 0, 0, false, [0], [0], false, c, line)) == Ok(Solver(FinalSpace, Left, Fast, 3, 0, false, [0], [-1], false, c, line))
  {
    assert [0][0 := 0] == [0];
    assert [0][0 := -1] == [-1];
    assert SkipMarked(Solver(PlaceBlock, Left, Fast, 0, 0, false, [0], [0], false, c, line)) == FillBlock(Solver(PlaceBlock, Left, Fast, 1, 0, false, [0], [-1], false, c, line));
    assert [-1][0 := -1] == [-1];
    assert FillBlock(Solver(PlaceBlock, Left, Fast, 1, 0, false, [0], [-1], false, c, line)) == FillBlock(Solver(PlaceBlock, Left, Fast, 2, 0, false, [0], [-1], false, c, line));
    assert FillBlock(Solver(PlaceBlock, Left, Fast, 2, 0, false, [0], [-1], false, c, line)) == FillBlock(Solver(PlaceBlock, Left, Fast, 3, 0, false, [0], [-1], false, c, line));
  }

  lemma FastLeftOpenLineStep2(c: seq<int>, line: Line)
    requires c == [3] && line == [Empty, Empty, Empty, Empty, Empty]
    ensures Step(Solver(FinalSpace, Left, Fast, 3, 0, false, [0], [-1], false, c, line)) == Ok(Solver(NewBlock, Left, Fast, 3, 1, false, [0], [-1], false, c, line))
  {
    assert [0][0 := 0] == [0];
    assert [-1][0 := -1] == [-1];
  }

  lemma FastLeftOpenLineStep3(c: seq<int>, line: Line)
    requires c == [3] && line == [Empty, Empty, Empty, Empty, Empty]
    ensures Step(Solver(NewBlock, Left, Fast, 3, 1, false, [0], [-1], false, c, line)) == Ok(Solver(CheckRest, Left, Fast, 3, 0, false, [0], [-1], false, c, line))
  {
    assert [0][0 := 0] == [0];
    assert [-1][0 := -1] == [-1];
  }

  lemma FastLeftOpenLineStep4(c: seq<int>, line: Line)
    requires c == [3] && line == [Empty, Empty, Empty, Empty, Empty]
    ensures Step(Solver(CheckRest, Left, Fast, 3, 0, false, [0], [-1], false, c, line)) == Ok(Solver(Halt, Left, Fast, 5, 0, false, [0], [-1], false, c, line))
  {
    assert [0][0 := 0] == [0];
    assert [-1][0 := -1] == [-1];
    assert CheckRestStep(Solver(CheckRest, Left, Fast, 3, 0, false, [0], [-1], false, c, line)) == CheckRestStep(Solver(CheckRest, Left, Fast, 4, 0, false, [0], [-1], false, c, line));
    assert CheckRestStep(Solver(CheckRest, Left, Fast, 4, 0, false, [0], [-1], false, c, line)) == CheckRestStep(Solver(CheckRest, Left, Fast, 5, 0, false, [0], [-1], false, c, line));
  }

  /** A block of 3 packed left on five unknown cells starts at 0. */
  lemma FastLeftOpenLine()
    ensures FastLeft(20, [3], [Empty, Empty, Empty, Empty, Empty]) == Ok(Some([0]))
  {
    var c := [3];
    var line: Line := [Empty, Empty, Empty, Empty, Empty];
    assert seq(1, _ => 0) == [0];
    assert FastLeft(20, c, line) == Run(20, Solver(NewBlock, Left, Fast, 0, 0, false, [0], [0], false, c, line));
    FastLeftOpenLineStep0(c, line);
    assert Run(20, Solver(NewBlock, Left, Fast, 0, 0, false, [0], [0], false, c, line)) == Run(19, Solver(PlaceBlock, Left, Fast, 0, 0, false, [0], [0], false, c, line));
    FastLeftOpenLineStep1(c, line);
    assert Run(19, Solver(PlaceBlock, Left, Fast, 0, 0, false, [0], [0], false, c, line)) == Run(18, Solver(FinalSpace, Left, Fast, 3, 0, false, [0], [-1], false, c, line));
    FastLeftOpenLineStep2(c, line);
    assert Run(18, Solver(FinalSpace, Left, Fast, 3, 0, false, [0], [-1], false, c, line)) == Run(17, Solver(NewBlock, Left, Fast, 3, 1, false, [0], [-1], false, c, line));
    FastLeftOpenLineStep3(c, line);
    assert Run(17, Solver(NewBlock, Left, Fast, 3, 1, false, [0], [-1], false, c, line)) == Run(16, Solver(CheckRest, Left, Fast, 3, 0, false, [0], [-1], false, c, line));
    FastLeftOpenLineStep4(c, line);
    assert Run(16, Solver(CheckRest, Left, Fast, 3, 0, false, [0], [-1], false, c, line)) == Run(15, Solver(Halt, Left, Fast, 5, 0, false, [0], [-1], false, c, line));
  }

  lemma FastRightOpenLineStep0(c: seq<int>, line: Line)
    requires c == [3] && line == [Empty, Empty, Empty, Empty, Empty]
    ensures Step(Solver(NewBlock, Right, Fast, 0, 0, false, [0], [0], false, c, line)) == Ok(Solver(PlaceBlock, Right, Fast, 0, 0, false, [4], [0], false, c, line))
  {
    assert [0][0 := 4] == [4];
    assert [0][0 := 0] == [0];
  }

  lemma FastRightOpenLineStep1(c: seq<int>, line: Line)
    requires c == [3] && line == [Empty, Empty, Empty, Empty, Empty]
    ensures Step(Solver(PlaceBlock, Right, Fast, 0, 0, false, [4], [0], false, c, line)) == Ok(Solver(FinalSpace, Right, Fast, 1, 0, false, [4], [-1], false, c, line))
  {
    assert [4][0 := 4] == [4];
    assert [0][0 := -1] == [-1];
    assert SkipMarked(Solver(PlaceBlock, Right, Fast, 0, 0, false, [4], [0], false, c, line)) == FillBlock(Solver(PlaceBlock, Right, Fast, 3, 0, false, [4], [-1], false, c, line));
    assert [-1][0 := -1] == [-1];
    assert FillBlock(Solver(PlaceBlock, Right, Fast, 3, 0, false, [4], [-1], false, c, line)) == FillBlock(Solver(PlaceBlock, Right, Fast, 2, 0, false, [4], [-1], false, c, line));
    assert FillBlock(Solver(PlaceBlock, Right, Fast, 2, 0, false, [4], [-1], false, c, line)) == FillBlock(Solver(PlaceBlock, Right, Fast, 1, 0, false, [4], [-1], false, c, line));
  }

  lemma FastRightOpenLineStep2(c: seq<int>, line: Line)
    requires c == [3] && line == [Empty, Empty, Empty, Empty, Empty]
    ensures Step(Solver(FinalSpace, Right, Fast, 1, 0, false, [4], [-1], false, c, line)) == Ok(Solver(NewBlock, Right, Fast, 1, -1, false, [4], [-1], false, c, line))
  {
    assert [4][0 := 4] == [4];
    assert [-1][0 := -1] == [-1];
  }

  lemma FastRightOpenLineStep3(c: seq<int>, line: Line)
    requires c == [3] && line == [Empty, Empty, Empty, Empty, Empty]
    ensures Step(Solver(NewBlock, Right, Fast, 1, -1, false, [4], [-1], false, c, line)) == Ok(Solver(CheckRest, Right, Fast, 1, 0, false, [4], [-1], false, c, line))
  {
    assert [4][0 := 4] == [4];
    assert [-1][0 := -1] == [-1];
  }

  lemma FastRightOpenLineStep4(c: seq<int>, line: Line)
    requires c == [3] && line == [Empty, Empty, Empty, Empty, Empty]
    ensures Step(Solver(CheckRest, Right, Fast, 1, 0, false, [4], [-1], false, c, line)) == Ok(Solver(Halt, Right, Fast, -1, 0, false, [4], [-1], false, c, line))
  {
    assert [4][0 := 4] == [4];
    assert [-1][0 := -1] == [-1];
    assert CheckRestStep(Solver(CheckRest, Right, Fast, 1, 0, false, [4], [-1], false, c, line)) == CheckRestStep(Solver(CheckRest, Right, Fast, 0, 0, false, [4], [-1], false, c, line));
    assert CheckRestStep(Solver(CheckRest, Right, Fast, 0, 0, false, [4], [-1], false, c, line)) == CheckRestStep(Solver(CheckRest, Right, Fast, -1, 0, false, [4], [-1], false, c, line));
  }

  /** A block of 3 packed right on five unknown cells ends at 4. */
  lemma FastRightOpenLine()
    ensures FastRight(20, [3], [Empty, Empty, Empty, Empty, Empty]) == Ok(Some([4]))
  {
    var c := [3];
    var line: Line := [Empty, Empty, Empty, Empty, Empty];
    assert seq(1, _ => 0) == [0];
    assert FastRight(20, c, line) == Run(20, Solver(NewBlock, Right, Fast, 0, 0, false, [0], [0], false, c, line));
    FastRightOpenLineStep0(c, line);
    assert Run(20, Solver(NewBlock, Right, Fast, 0, 0, false, [0], [0], false, c, line)) == Run(19, Solver(PlaceBlock, Right, Fast, 0, 0, false, [4], [0], false, c, line));
    FastRightOpenLineStep1(c, line);
    assert Run(19, Solver(PlaceBlock, Right, Fast, 0, 0, false, [4], [0], false, c, line)) == Run(18, Solver(FinalSpace, Right, Fast, 1, 0, false, [4], [-1], false, c, line));
    FastRightOpenLineStep2(c, line);
    assert Run(18, Solver(FinalSpace, Right, Fast, 1, 0, false, [4], [-1], false, c, line)) == Run(17, Solver(NewBlock, Right, Fast, 1, -1, false, [4], [-1], false, c, line));
    FastRightOpenLineStep3(c, line);
    assert Run(17, Solver(NewBlock, Right, Fast, 1, -1, false, [4], [-1], false, c, line)) == Run(16, Solver(CheckRest, Right, Fast, 1, 0, false, [4], [-1], false, c, line));
    FastRightOpenLineStep4(c, line);
    assert Run(16, Solver(CheckRest, Right, Fast, 1, 0, false, [4], [-1], false, c, line)) == Run(15, Solver(Halt, Right, Fast, -1, 0, false, [4], [-1], false, c, line));
  }

  lemma FastLeftKnownLineStep0(c: seq<int>, line: Line)
    requires c == [3] && line == [Full, Empty, Full, Empty, Empty]
    ensures Step(Solver(NewBlock, Left, Fast, 0, 0, false, [0], [0], false, c, line)) == Ok(Solver(PlaceBlock, Left, Fast, 0, 0, false, [0], [0], false, c, line))
  {
    assert [0][0 := 0] == [0];
  }

  lemma FastLeftKnownLineStep1(c: seq<int>, line: Line)
    requires c == [3] && line == [Full, Empty, Full, Empty, Empty]
    ensures Step(Solver(PlaceBlock, Left, Fast, 0, 0, false, [0], [0], false, c, line)) == Ok(Solver(FinalSpace, Left, Fast, 3, 0, false, [0], [0], false, c, line))
  {
    assert [0][0 := 0] == [0];
    assert SkipMarked(Solver(PlaceBlock, Left, Fast, 0, 0, false, [0], [0], false, c, line)) == FillBlock(Solver(PlaceBlock, Left, Fast, 1, 0, false, [0], [0], false, c, line));
    assert FillBlock(Solver(PlaceBlock, Left, Fast, 1, 0, false, [0], [0], false, c, line)) == FillBlock(Solver(PlaceBlock, Left, Fast, 2, 0, false, [0], [0], false, c, line));
    assert FillBlock(Solver(PlaceBlock, Left, Fast, 2, 0, false, [0], [0], false, c, line)) == FillBlock(Solver(PlaceBlock, Left, Fast, 3, 0, false, [0], [0], false, c, line));
  }

  lemma FastLeftKnownLineStep2(c: seq<int>, line: Line)
    requires c == [3] && line == [Full, Empty, Full, Empty, Empty]
    ensures Step(Solver(FinalSpace, Left, Fast, 3, 0, false, [0], [0], false, c, line)) == Ok(Solver(NewBlock, Left, Fast, 3, 1, false, [0], [0], false, c, line))
  {
    assert [0][0 := 0] == [0];
  }

  lemma FastLeftKnownLineStep3(c: seq<int>, line: Line)
    requires c == [3] && line == [Full, Empty, Full, Empty, Empty]
    ensures Step(Solver(NewBlock, Left, Fast, 3, 1, false, [0], [0], false, c, line)) == Ok(Solver(CheckRest, Left, Fast, 3, 0, false, [0], [0], false, c, line))
  {
    assert [0][0 := 0] == [0];
  }

  lemma FastLeftKnownLineStep4(c: seq<int>, line: Line)
    requires c == [3] && line == [Full, Empty, Full, Empty, Empty]
    ensures Step(Solver(CheckRest, Left, Fast, 3, 0, false, [0], [0], false, c, line)) == Ok(Solver(Halt, Left, Fast, 5, 0, false, [0], [0], false, c, line))
  {
    assert [0][0 := 0] == [0];
    assert CheckRestStep(Solver(CheckRest, Left, Fast, 3, 0, false, [0], [0], false, c, line)) == CheckRestStep(Solver(CheckRest, Left, Fast, 4, 0, false, [0], [0], false, c, line));
    assert CheckRestStep(Solver(CheckRest, Left, Fast, 4, 0, false, [0], [0], false, c, line)) == CheckRestStep(Solver(CheckRest, Left, Fast, 5, 0, false, [0], [0], false, c, line));
  }

  /** A block of 3 over the full cells 0 and 2 starts at 0. */
  lemma FastLeftKnownLine()
    ensures FastLeft(20, [3], [Full, Empty, Full, Empty, Empty]) == Ok(Some([0]))
  {
    var c := [3];
    var line: Line := [Full, Empty, Full, Empty, Empty];
    assert seq(1, _ => 0) == [0];
    assert FastLeft(20, c, line) == Run(20, Solver(NewBlock, Left, Fast, 0, 0, false, [0], [0], false, c, line));
    FastLeftKnownLineStep0(c, line);
    assert Run(20, Solver(NewBlock, Left, Fast, 0, 0, false, [0], [0], false, c, line)) == Run(19, Solver(PlaceBlock, Left, Fast, 0, 0, false, [0], [0], false, c, line));
    FastLeftKnownLineStep1(c, line);
    assert Run(19, Solver(PlaceBlock, Left, Fast, 0, 0, false, [0], [0], false, c, line)) == Run(18, Solver(FinalSpace, Left, Fast, 3, 0, false, [0], [0], false, c, line));
    FastLeftKnownLineStep2(c, line);
    assert Run(18, Solver(FinalSpace, Left, Fast, 3, 0, false, [0], [0], false, c, line)) == Run(17, Solver(NewBlock, Left, Fast, 3, 1, false, [0], [0], false, c, line));
    FastLeftKnownLineStep3(c, line);
    assert Run(17, Solver(NewBlock, Left, Fast, 3, 1, false, [0], [0], false, c, line)) == Run(16, Solver(CheckRest, Left, Fast, 3, 0, false, [0], [0], false, c, line));
    FastLeftKnownLineStep4(c, line);
    assert Run(16, Solver(CheckRest, Left, Fast, 3, 0, false, [0], [0], false, c, line)) == Run(15, Solver(Halt, Left, Fast, 5, 0, false, [0], [0], false, c, line));
  }

  lemma FastRightKnownLineStep0(c: seq<int>, line: Line)
    requires c == [3] && line == [Full, Empty, Full, Empty, Empty]
    ensures Step(Solver(NewBlock, Right, Fast, 0, 0, false, [0], [0], false, c, line)) == Ok(Solver(PlaceBlock, Right, Fast, 0, 0, false, [4], [0], false, c, line))
  {
    assert [0][0 := 4] == [4];
    assert [0][0 := 0] == [0];
  }

  lemma FastRightKnownLineStep1(c: seq<int>, line: Line)
    requires c == [3] && line == [Full, Empty, Full, Empty, Empty]
    ensures Step(Solver(PlaceBlock, Right, Fast, 0, 0, false, [4], [0], false, c, line)) == Ok(Solver(FinalSpace, Right, Fast, 1, 0, false, [4], [2], false, c, line))
  {
    assert [4][0 := 4] == [4];
    assert [0][0 := -1] == [-1];
    assert SkipMarked(Solver(PlaceBlock, Right, Fast, 0, 0, false, [4], [0], false, c, line)) == FillBlock(Solver(PlaceBlock, Right, Fast, 3, 0, false, [4], [-1], false, c, line));
    assert [-1][0 := -1] == [-1];
    assert FillBlock(Solver(PlaceBlock, Right, Fast, 3, 0, false, [4], [-1], false, c, line)) == FillBlock(Solver(PlaceBlock, Right, Fast, 2, 0, false, [4], [-1], false, c, line));
    assert [-1][0 := 2] == [2];
    assert FillBlock(Solver(PlaceBlock, Right, Fast, 2, 0, false, [4], [-1], false, c, line)) == FillBlock(Solver(PlaceBlock, Right, Fast, 1, 0, false, [4], [2], false, c, line));
    assert [0][0 := 2] == [2];
    assert [2][0 := 2] == [2];
  }

  lemma FastRightKnownLineStep2(c: seq<int>, line: Line)
    requires c == [3] && line == [Full, Empty, Full, Empty, Empty]
    ensures Step(Solver(FinalSpace, Right, Fast, 1, 0, false, [4], [2], false, c, line)) == Ok(Solver(NewBlock, Right, Fast, 1, -1, false, [4], [2], false, c, line))
  {
    assert [4][0 := 4] == [4];
    assert [2][0 := 2] == [2];
  }

  lemma FastRightKnownLineStep3(c: seq<int>, line: Line)
    requires c == [3] && line == [Full, Empty, Full, Empty, Empty]
    ensures Step(Solver(NewBlock, Right, Fast, 1, -1, false, [4], [2], false, c, line)) == Ok(Solver(CheckRest, Right, Fast, 1, 0, false, [4], [2], false, c, line))
  {
    assert [4][0 := 4] == [4];
    assert [2][0 := 2] == [2];
  }

  lemma FastRightKnownLineStep4(c: seq<int>, line: Line)
    requires c == [3] && line == [Full, Empty, Full, Empty, Empty]
    ensures Step(Solver(CheckRest, Right, Fast, 1, 0, false, [4], [2], false, c, line)) == Ok(Solver(AdvanceBlock, Right, Fast, 7, 0, false, [4], [2], false, c, line))
  {
    assert [4][0 := 4] == [4];
    assert [2][0 := 2] == [2];
    assert CheckRestStep(Solver(CheckRest, Right, Fast, 1, 0, false, [4], [2], false, c, line)) == CheckRestStep(Solver(CheckRest, Right, Fast, 0, 0, false, [4], [2], false, c, line));
  }

  lemma FastRightKnownLineStep5(c: seq<int>, line: Line)
    requires c == [3] && line == [Full, Empty, Full, Empty, Empty]
    ensures Step(Solver(AdvanceBlock, Right, Fast, 7, 0, false, [4], [2], false, c, line)) == Ok(Solver(Backtrack, Right, Fast, 7, 0, false, [4], [2], false, c, line))
  {
    assert [4][0 := 4] == [4];
    assert [2][0 := 2] == [2];
  }

  lemma FastRightKnownLineStep6(c: seq<int>, line: Line)
    requires c == [3] && line == [Full, Empty, Full, Empty, Empty]
    ensures Step(Solver(Backtrack, Right, Fast, 7, 0, false, [4], [2], false, c, line)) == Ok(Solver(Halt, Right, Fast, 7, 1, false, [4], [2], true, c, line))
  {
    assert [4][0 := 4] == [4];
    assert [2][0 := 2] == [2];
  }

  /** Packed right, the block of 3 ends at 4 and covers the full cell 2; checkrest then finds the
      full cell 0, but advanceblock does not move a block that covers a full cell, and backtrack
      finds no other block: the sweep reports a contradiction although a block over 0..2 fits. */
  lemma FastRightKnownLine()
    ensures FastRight(20, [3], [Full, Empty, Full, Empty, Empty]) == Ok(None)
  {
    var c := [3];
    var line: Line := [Full, Empty, Full, Empty, Empty];
    assert seq(1, _ => 0) == [0];
    assert FastRight(20, c, line) == Run(20, Solver(NewBlock, Right, Fast, 0, 0, false, [0], [0], false, c, line));
    FastRightKnownLineStep0(c, line);
    assert Run(20, Solver(NewBlock, Right, Fast, 0, 0, false, [0], [0], false, c, line)) == Run(19, Solver(PlaceBlock, Right, Fast, 0, 0, false, [4], [0], false, c, line));
    FastRightKnownLineStep1(c, line);
    assert Run(19, Solver(PlaceBlock, Right, Fast, 0, 0, false, [4], [0], false, c, line)) == Run(18, Solver(FinalSpace, Right, Fast, 1, 0, false, [4], [2], false, c, line));
    FastRightKnownLineStep2(c, line);
    assert Run(18, Solver(FinalSpace, Right, Fast, 1, 0, false, [4], [2], false, c, line)) == Run(17, Solver(NewBlock, Right, Fast, 1, -1, false, [4], [2], false, c, line));
    FastRightKnownLineStep3(c, line);
    assert Run(17, Solver(NewBlock, Right, Fast, 1, -1, false, [4], [2], false, c, line)) == Run(16, Solver(CheckRest, Right, Fast, 1, 0, false, [4], [2], false, c, line));
    FastRightKnownLineStep4(c, line);
    assert Run(16, Solver(CheckRest, Right, Fast, 1, 0, false, [4], [2], false, c, line)) == Run(15, Solver(AdvanceBlock, Right, Fast, 7, 0, false, [4], [2], false, c, line));
    FastRightKnownLineStep5(c, line);
    assert Run(15, Solver(AdvanceBlock, Right, Fast, 7, 0, false, [4], [2], false, c, line)) == Run(14, Solver(Backtrack, Right, Fast, 7, 0, false, [4], [2], false, c, line));
    FastRightKnownLineStep6(c, line);
    assert Run(14, Solver(Backtrack, Right, Fast, 7, 0, false, [4], [2], false, c, line)) == Run(13, Solver(Halt, Right, Fast, 7, 1, false, [4], [2], true, c, line));
  }

  lemma FastLeftAroundMarkStep0(c: seq<int>, line: Line)
    requires c == [1] && line == [Empty, Marked, Empty]
    ensures Step(Solver(NewBlock, Left, Fast, 0, 0, false, [0], [0], false, c, line)) == Ok(Solver(PlaceBlock, Left, Fast, 0, 0, false, [0], [0], false, c, line))
  {
    assert [0][0 := 0] == [0];
  }

  lemma FastLeftAroundMarkStep1(c: seq<int>, line: Line)
    requires c == [1] && line == [Empty, Marked, Empty]
    ensures Step(Solver(PlaceBlock, Left, Fast, 0, 0, false, [0], [0], false, c, line)) == Ok(Solver(FinalSpace, Left, Fast, 1, 0, false, [0], [-1], false, c, line))
  {
    assert [0][0 := 0] == [0];
    assert [0][0 := -1] == [-1];
    assert SkipMarked(Solver(PlaceBlock, Left, Fast, 0, 0, false, [0], [0], false, c, line)) == FillBlock(Solver(PlaceBlock, Left, Fast, 1, 0, false, [0], [-1], false, c, line));
    assert [-1][0 := -1] == [-1];
  }

  lemma FastLeftAroundMarkStep2(c: seq<int>, line: Line)
    requires c == [1] && line == [Empty, Marked, Empty]
    ensures Step(Solver(FinalSpace, Left, Fast, 1, 0, false, [0], [-1], false, c, line)) == Ok(Solver(NewBlock, Left, Fast, 1, 1, false, [0], [-1], false, c, line))
  {
    assert [0][0 := 0] == [0];
    assert [-1][0 := -1] == [-1];
  }

  lemma FastLeftAroundMarkStep3(c: seq<int>, line: Line)
    requires c == [1] && line == [Empty, Marked, Empty]
    ensures Step(Solver(NewBlock, Left, Fast, 1, 1, false, [0], [-1], false, c, line)) == Ok(Solver(CheckRest, Left, Fast, 1, 0, false, [0], [-1], false, c, line))
  {
    assert [0][0 := 0] == [0];
    assert [-1][0 := -1] == [-1];
  }

  lemma FastLeftAroundMarkStep4(c: seq<int>, line: Line)
    requires c == [1] && line == [Empty, Marked, Empty]
    ensures Step(Solver(CheckRest, Left, Fast, 1, 0, false, [0], [-1], false, c, line)) == Ok(Solver(Halt, Left, Fast, 3, 0, false, [0], [-1], false, c, line))
  {
    assert [0][0 := 0] == [0];
    assert [-1][0 := -1] == [-1];
    assert CheckRestStep(Solver(CheckRest, Left, Fast, 1, 0, false, [0], [-1], false, c, line)) == CheckRestStep(Solver(CheckRest, Left, Fast, 2, 0, false, [0], [-1], false, c, line));
    assert CheckRestStep(Solver(CheckRest, Left, Fast, 2, 0, false, [0], [-1], false, c, line)) == CheckRestStep(Solver(CheckRest, Left, Fast, 3, 0, false, [0], [-1], false, c, line));
  }

  /** A block of 1 packed left next to a marked cell starts at 0. */
  lemma FastLeftAroundMark()
    ensures FastLeft(20, [1], [Empty, Marked, Empty]) == Ok(Some([0]))
  {
    var c := [1];
    var line: Line := [Empty, Marked, Empty];
    assert seq(1, _ => 0) == [0];
    assert FastLeft(20, c, line) == Run(20, Solver(NewBlock, Left, Fast, 0, 0, false, [0], [0], false, c, line));
    FastLeftAroundMarkStep0(c, line);
    assert Run(20, Solver(NewBlock, Left, Fast, 0, 0, false, [0], [0], false, c, line)) == Run(19, Solver(PlaceBlock, Left, Fast, 0, 0, false, [0], [0], false, c, line));
    FastLeftAroundMarkStep1(c, line);
    assert Run(19, Solver(PlaceBlock, Left, Fast, 0, 0, false, [0], [0], false, c, line)) == Run(18, Solver(FinalSpace, Left, Fast, 1, 0, false, [0], [-1], false, c, line));
    FastLeftAroundMarkStep2(c, line);
    assert Run(18, Solver(FinalSpace, Left, Fast, 1, 0, false, [0], [-1], false, c, line)) == Run(17, Solver(NewBlock, Left, Fast, 1, 1, false, [0], [-1], false, c, line));
    FastLeftAroundMarkStep3(c, line);
    assert Run(17, Solver(NewBlock, Left, Fast, 1, 1, false, [0], [-1], false, c, line)) == Run(16, Solver(CheckRest, Left, Fast, 1, 0, false, [0], [-1], false, c, line));
    FastLeftAroundMarkStep4(c, line);
    assert Run(16, Solver(CheckRest, Left, Fast, 1, 0, false, [0], [-1], false, c, line)) == Run(15, Solver(Halt, Left, Fast, 3, 0, false, [0], [-1], false, c, line));
  }

  lemma FastRightAroundMarkStep0(c: seq<int>, line: Line)
    requires c == [1] && line == [Empty, Marked, Empty]
    ensures Step(Solver(NewBlock, Right, Fast, 0, 0, false, [0], [0], false, c, line)) == Ok(Solver(PlaceBlock, Right, Fast, 0, 0, false, [2], [0], false, c, line))
  {
    assert [0][0 := 2] == [2];
    assert [0][0 := 0] == [0];
  }

  lemma FastRightAroundMarkStep1(c: seq<int>, line: Line)
    requires c == [1] && line == [Empty, Marked, Empty]
    ensures Step(Solver(PlaceBlock, Right, Fast, 0, 0, false, [2], [0], false, c, line)) == Ok(Solver(FinalSpace, Right, Fast, 1, 0, false, [2], [-1], false, c, line))
  {
    assert [2][0 := 2] == [2];
    assert [0][0 := -1] == [-1];
    assert SkipMarked(Solver(PlaceBlock, Right, Fast, 0, 0, false, [2], [0], false, c, line)) == FillBlock(Solver(PlaceBlock, Right, Fast, 1, 0, false, [2], [-1], false, c, line));
    assert [-1][0 := -1] == [-1];
  }

  lemma FastRightAroundMarkStep2(c: seq<int>, line: Line)
    requires c == [1] && line == [Empty, Marked, Empty]
    ensures Step(Solver(FinalSpace, Right, Fast, 1, 0, false, [2], [-1], false, c, line)) == Ok(Solver(NewBlock, Right, Fast, 1, -1, false, [2], [-1], false, c, line))
  {
    assert [2][0 := 2] == [2];
    assert [-1][0 := -1] == [-1];
  }

  lemma FastRightAroundMarkStep3(c: seq<int>, line: Line)
    requires c == [1] && line == [Empty, Marked, Empty]
    ensures Step(Solver(NewBlock, Right, Fast, 1, -1, false, [2], [-1], false, c, line)) == Ok(Solver(CheckRest, Right, Fast, 1, 0, false, [2], [-1], false, c, line))
  {
    assert [2][0 := 2] == [2];
    assert [-1][0 := -1] == [-1];
  }

  lemma FastRightAroundMarkStep4(c: seq<int>, line: Line)
    requires c == [1] && line == [Empty, Marked, Empty]
    ensures Step(Solver(CheckRest, Right, Fast, 1, 0, false, [2], [-1], false, c, line)) == Ok(Solver(Halt, Right, Fast, -1, 0, false, [2], [-1], false, c, line))
  {
    assert [2][0 := 2] == [2];
    assert [-1][0 := -1] == [-1];
    assert CheckRestStep(Solver(CheckRest, Right, Fast, 1, 0, false, [2], [-1], false, c, line)) == CheckRestStep(Solver(CheckRest, Right, Fast, 0, 0, false, [2], [-1], false, c, line));
    assert CheckRestStep(Solver(CheckRest, Right, Fast, 0, 0, false, [2], [-1], false, c, line)) == CheckRestStep(Solver(CheckRest, Right, Fast, -1, 0, false, [2], [-1], false, c, line));
  }

  /** A block of 1 packed right next to a marked cell ends at 2. */
  lemma FastRightAroundMark()
    ensures FastRight(20, [1], [Empty, Marked, Empty]) == Ok(Some([2]))
  {
    var c := [1];
    var line: Line := [Empty, Marked, Empty];
    assert seq(1, _ => 0) == [0];
    assert FastRight(20, c, line) == Run(20, Solver(NewBlock, Right, Fast, 0, 0, false, [0], [0], false, c, line));
    FastRightAroundMarkStep0(c, line);
    assert Run(20, Solver(NewBlock, Right, Fast, 0, 0, false, [0], [0], false, c, line)) == Run(19, Solver(PlaceBlock, Right, Fast, 0, 0, false, [2], [0], false, c, line));
    FastRightAroundMarkStep1(c, line);
    assert Run(19, Solver(PlaceBlock, Right, Fast, 0, 0, false, [2], [0], false, c, line)) == Run(18, Solver(FinalSpace, Right, Fast, 1, 0, false, [2], [-1], false, c, line));
    FastRightAroundMarkStep2(c, line);
    assert Run(18, Solver(FinalSpace, Right, Fast, 1, 0, false, [2], [-1], false, c, line)) == Run(17, Solver(NewBlock, Right, Fast, 1, -1, false, [2], [-1], false, c, line));
    FastRightAroundMarkStep3(c, line);
    assert Run(17, Solver(NewBlock, Right, Fast, 1, -1, false, [2], [-1], false, c, line)) == Run(16, Solver(CheckRest, Right, Fast, 1, 0, false, [2], [-1], false, c, line));
    FastRightAroundMarkStep4(c, line);
    assert Run(16, Solver(CheckRest, Right, Fast, 1, 0, false, [2], [-1], false, c, line)) == Run(15, Solver(Halt, Right, Fast, -1, 0, false, [2], [-1], false, c, line));
  }

  /** linesolver_test.go:9-18: LeftSolve agrees with the left sweep of
      solver/linesolver.go. */
  lemma LeftSolveFirstTest()
    ensures RootSweep.LeftSolve(20, [3, 3], [Empty, Empty, Empty, Empty, Marked, Empty, Empty, Empty]) == Ok(Some([0, 5]))
  {
    FastLeftFirstTest();
    RootSweepProof.LeftSweepsAgree(20, [3, 3], [Empty, Empty, Empty, Empty, Marked, Empty, Empty, Empty]);
  }

  /** linesolver_test.go:20-29. */
  lemma LeftSolveSecondTest()
    ensures RootSweep.LeftSolve(20, [1, 2], [Empty, Full, Empty, Full, Empty, Marked, Empty, Empty]) == Ok(Some([1, 3]))
  {
    FastLeftSecondTest();
    RootSweepProof.LeftSweepsAgree(20, [1, 2], [Empty, Full, Empty, Full, Empty, Marked, Empty, Empty]);
  }

  lemma FastRightTwoOnesStep0(c: seq<int>, line: Line)
    requires c == [1, 1] && line == [Empty, Empty, Full, Empty, Empty, Empty, Empty]
    ensures Step(Solver(NewBlock, Right, Fast, 0, 1, false, [0, 0], [0, 0], false, c, line)) == Ok(Solver(PlaceBlock, Right, Fast, 0, 1, false, [0, 6], [0, 0], false, c, line))
  {
    assert [0, 0][1 := 6] == [0, 6];
  }

  lemma FastRightTwoOnesStep1(c: seq<int>, line: Line)
    requires c == [1, 1] && line == [Empty, Empty, Full, Empty, Empty, Empty, Empty]
    ensures Step(Solver(PlaceBlock, Right, Fast, 0, 1, false, [0, 6], [0, 0], false, c, line)) == Ok(Solver(FinalSpace, Right, Fast, 5, 1, false, [0, 6], [0, -1], false, c, line))
  {
    assert [0, 0][1 := -1] == [0, -1];
    assert SkipMarked(Solver(PlaceBlock, Right, Fast, 0, 1, false, [0, 6], [0, 0], false, c, line)) == FillBlock(Solver(PlaceBlock, Right, Fast, 5, 1, false, [0, 6], [0, -1], false, c, line));
    assert [0, 0][1 := -1] == [0, -1];
  }

  lemma FastRightTwoOnesStep2(c: seq<int>, line: Line)
    requires c == [1, 1] && line == [Empty, Empty, Full, Empty, Empty, Empty, Empty]
    ensures Step(Solver(FinalSpace, Right, Fast, 5, 1, false, [0, 6], [0, -1], false, c, line)) == Ok(Solver(NewBlock, Right, Fast, 5, 0, false, [0, 6], [0, -1], false, c, line))
  {
  }

  lemma FastRightTwoOnesStep3(c: seq<int>, line: Line)
    requires c == [1, 1] && line == [Empty, Empty, Full, Empty, Empty, Empty, Empty]
    ensures Step(Solver(NewBlock, Right, Fast, 5, 0, false, [0, 6], [0, -1], false, c, line)) == Ok(Solver(PlaceBlock, Right, Fast, 5, 0, false, [4, 6], [0, -1], false, c, line))
  {
    assert [0, 6][0 := 4] == [4, 6];
  }

  lemma FastRightTwoOnesStep4(c: seq<int>, line: Line)
    requires c == [1, 1] && line == [Empty, Empty, Full, Empty, Empty, Empty, Empty]
    ensures Step(Solver(PlaceBlock, Right, Fast, 5, 0, false, [4, 6], [0, -1], false, c, line)) == Ok(Solver(FinalSpace, Right, Fast, 3, 0, false, [4, 6], [-1, -1], false, c, line))
  {
    assert [0, -1][0 := -1] == [-1, -1];
    assert SkipMarked(Solver(PlaceBlock, Right, Fast, 5, 0, false, [4, 6], [0, -1], false, c, line)) == FillBlock(Solver(PlaceBlock, Right, Fast, 3, 0, false, [4, 6], [-1, -1], false, c, line));
  }

  lemma FastRightTwoOnesStep5(c: seq<int>, line: Line)
    requires c == [1, 1] && line == [Empty, Empty, Full, Empty, Empty, Empty, Empty]
    ensures Step(Solver(FinalSpace, Right, Fast, 3, 0, false, [4, 6], [-1, -1], false, c, line)) == Ok(Solver(NewBlock, Right, Fast, 3, -1, false, [4, 6], [-1, -1], false, c, line))
  {
  }

  lemma FastRightTwoOnesStep6(c: seq<int>, line: Line)
    requires c == [1, 1] && line == [Empty, Empty, Full, Empty, Empty, Empty, Empty]
    ensures Step(Solver(NewBlock, Right, Fast, 3, -1, false, [4, 6], [-1, -1], false, c, line)) == Ok(Solver(CheckRest, Right, Fast, 3, 0, false, [4, 6], [-1, -1], false, c, line))
  {
  }

  lemma FastRightTwoOnesStep7(c: seq<int>, line: Line)
    requires c == [1, 1] && line == [Empty, Empty, Full, Empty, Empty, Empty, Empty]
    ensures Step(Solver(CheckRest, Right, Fast, 3, 0, false, [4, 6], [-1, -1], false, c, line)) == Ok(Solver(AdvanceBlock, Right, Fast, 5, 0, false, [4, 6], [-1, -1], false, c, line))
  {
    assert CheckRestStep(Solver(CheckRest, Right, Fast, 3, 0, false, [4, 6], [-1, -1], false, c, line)) == CheckRestStep(Solver(CheckRest, Right, Fast, 2, 0, false, [4, 6], [-1, -1], false, c, line));
  }

  lemma FastRightTwoOnesStep8(c: seq<int>, line: Line)
    requires c == [1, 1] && line == [Empty, Empty, Full, Empty, Empty, Empty, Empty]
    ensures Step(Solver(AdvanceBlock, Right, Fast, 5, 0, false, [4, 6], [-1, -1], false, c, line)) == Ok(Solver(FinalSpace, Right, Fast, 1, 0, false, [0, 6], [0, -1], false, c, line))
  {
    assert [4, 6][0 := 3] == [3, 6];
    assert [3, 6][0 := 2] == [2, 6];
    assert [2, 6][0 := 1] == [1, 6];
    assert [1, 6][0 := 0] == [0, 6];
    assert [-1, -1][0 := 0] == [0, -1];
    assert Slide(Solver(AdvanceBlock, Right, Fast, 5, 0, false, [4, 6], [-1, -1], false, c, line)) == Slide(Solver(AdvanceBlock, Right, Fast, 4, 0, false, [3, 6], [-1, -1], false, c, line));
    assert Slide(Solver(AdvanceBlock, Right, Fast, 4, 0, false, [3, 6], [-1, -1], false, c, line)) == Slide(Solver(AdvanceBlock, Right, Fast, 3, 0, false, [2, 6], [-1, -1], false, c, line));
    assert Slide(Solver(AdvanceBlock, Right, Fast, 3, 0, false, [2, 6], [-1, -1], false, c, line)) == Slide(Solver(AdvanceBlock, Right, Fast, 2, 0, false, [1, 6], [-1, -1], false, c, line));
  }

  lemma FastRightTwoOnesStep9(c: seq<int>, line: Line)
    requires c == [1, 1] && line == [Empty, Empty, Full, Empty, Empty, Empty, Empty]
    ensures Step(Solver(FinalSpace, Right, Fast, 1, 0, false, [0, 6], [0, -1], false, c, line)) == Ok(Solver(NewBlock, Right, Fast, 1, -1, false, [0, 6], [0, -1], false, c, line))
  {
  }

  lemma FastRightTwoOnesStep10(c: seq<int>, line: Line)
    requires c == [1, 1] && line == [Empty, Empty, Full, Empty, Empty, Empty, Empty]
    ensures Step(Solver(NewBlock, Right, Fast, 1, -1, false, [0, 6], [0, -1], false, c, line)) == Ok(Solver(CheckRest, Right, Fast, 1, 0, false, [0, 6], [0, -1], false, c, line))
  {
  }

  lemma FastRightTwoOnesStep11(c: seq<int>, line: Line)
    requires c == [1, 1] && line == [Empty, Empty, Full, Empty, Empty, Empty, Empty]
    ensures Step(Solver(CheckRest, Right, Fast, 1, 0, false, [0, 6], [0, -1], false, c, line)) == Ok(Solver(Halt, Right, Fast, -1, 0, false, [0, 6], [0, -1], false, c, line))
  {
    assert CheckRestStep(Solver(CheckRest, Right, Fast, 0, 0, false, [0, 6], [0, -1], false, c, line)) == CheckRestStep(Solver(CheckRest, Right, Fast, -1, 0, false, [0, 6], [0, -1], false, c, line));
    assert CheckRestStep(Solver(CheckRest, Right, Fast, 1, 0, false, [0, 6], [0, -1], false, c, line)) == CheckRestStep(Solver(CheckRest, Right, Fast, 0, 0, false, [0, 6], [0, -1], false, c, line));
  }

  lemma FastRightTwoOnesRun(c: seq<int>, line: Line)
    requires c == [1, 1] && line == [Empty, Empty, Full, Empty, Empty, Empty, Empty]
    ensures Run(20, Solver(NewBlock, Right, Fast, 0, 1, false, [0, 0], [0, 0], false, c, line)) == Ok(Some([0, 6]))
  {
    FastRightTwoOnesStep0(c, line);
    assert Run(20, Solver(NewBlock, Right, Fast, 0, 1, false, [0, 0], [0, 0], false, c, line)) == Run(19, Solver(PlaceBlock, Right, Fast, 0, 1, false, [0, 6], [0, 0], false, c, line));
    FastRightTwoOnesStep1(c, line);
    assert Run(19, Solver(PlaceBlock, Right, Fast, 0, 1, false, [0, 6], [0, 0], false, c, line)) == Run(18, Solver(FinalSpace, Right, Fast, 5, 1, false, [0, 6], [0, -1], false, c, line));
    FastRightTwoOnesStep2(c, line);
    assert Run(18, Solver(FinalSpace, Right, Fast, 5, 1, false, [0, 6], [0, -1], false, c, line)) == Run(17, Solver(NewBlock, Right, Fast, 5, 0, false, [0, 6], [0, -1], false, c, line));
    FastRightTwoOnesStep3(c, line);
    assert Run(17, Solver(NewBlock, Right, Fast, 5, 0, false, [0, 6], [0, -1], false, c, line)) == Run(16, Solver(PlaceBlock, Right, Fast, 5, 0, false, [4, 6], [0, -1], false, c, line));
    FastRightTwoOnesStep4(c, line);
    assert Run(16, Solver(PlaceBlock, Right, Fast, 5, 0, false, [4, 6], [0, -1], false, c, line)) == Run(15, Solver(FinalSpace, Right, Fast, 3, 0, false, [4, 6], [-1, -1], false, c, line));
    FastRightTwoOnesStep5(c, line);
    assert Run(15, Solver(FinalSpace, Right, Fast, 3, 0, false, [4, 6], [-1, -1], false, c, line)) == Run(14, Solver(NewBlock, Right, Fast, 3, -1, false, [4, 6], [-1, -1], false, c, line));
    FastRightTwoOnesStep6(c, line);
    assert Run(14, Solver(NewBlock, Right, Fast, 3, -1, false, [4, 6], [-1, -1], false, c, line)) == Run(13, Solver(CheckRest, Right, Fast, 3, 0, false, [4, 6], [-1, -1], false, c, line));
    FastRightTwoOnesStep7(c, line);
    assert Run(13, Solver(CheckRest, Right, Fast, 3, 0, false, [4, 6], [-1, -1], false, c, line)) == Run(12, Solver(AdvanceBlock, Right, Fast, 5, 0, false, [4, 6], [-1, -1], false, c, line));
    FastRightTwoOnesStep8(c, line);
    assert Run(12, Solver(AdvanceBlock, Right, Fast, 5, 0, false, [4, 6], [-1, -1], false, c, line)) == Run(11, Solver(FinalSpace, Right, Fast, 1, 0, false, [0, 6], [0, -1], false, c, line));
    FastRightTwoOnesStep9(c, line);
    assert Run(11, Solver(FinalSpace, Right, Fast, 1, 0, false, [0, 6], [0, -1], false, c, line)) == Run(10, Solver(NewBlock, Right, Fast, 1, -1, false, [0, 6], [0, -1], false, c, line));
    FastRightTwoOnesStep10(c, line);
    assert Run(10, Solver(NewBlock, Right, Fast, 1, -1, false, [0, 6], [0, -1], false, c, line)) == Run(9, Solver(CheckRest, Right, Fast, 1, 0, false, [0, 6], [0, -1], false, c, line));
    FastRightTwoOnesStep11(c, line);
    assert Run(9, Solver(CheckRest, Right, Fast, 1, 0, false, [0, 6], [0, -1], false, c, line)) == Run(8, Solver(Halt, Right, Fast, -1, 0, false, [0, 6], [0, -1], false, c, line));
  }

  lemma FastLeftTwoOnesStep0(c: seq<int>, line: Line)
    requires c == [1, 1] && line == [Empty, Empty, Full, Empty, Empty, Empty, Empty]
    ensures Step(Solver(NewBlock, Left, Fast, 0, 0, false, [0, 0], [0, 0], false, c, line)) == Ok(Solver(PlaceBlock, Left, Fast, 0, 0, false, [0, 0], [0, 0], false, c, line))
  {
    assert [0, 0][0 := 0] == [0, 0];
  }

  lemma FastLeftTwoOnesStep1(c: seq<int>, line: Line)
    requires c == [1, 1] && line == [Empty, Empty, Full, Empty, Empty, Empty, Empty]
    ensures Step(Solver(PlaceBlock, Left, Fast, 0, 0, false, [0, 0], [0, 0], false, c, line)) == Ok(Solver(FinalSpace, Left, Fast, 1, 0, false, [0, 0], [-1, 0], false, c, line))
  {
    assert [0, 0][0 := -1] == [-1, 0];
    assert SkipMarked(Solver(PlaceBlock, Left, Fast, 0, 0, false, [0, 0], [0, 0], false, c, line)) == FillBlock(Solver(PlaceBlock, Left, Fast, 1, 0, false, [0, 0], [-1, 0], false, c, line));
  }

  lemma FastLeftTwoOnesStep2(c: seq<int>, line: Line)
    requires c == [1, 1] && line == [Empty, Empty, Full, Empty, Empty, Empty, Empty]
    ensures Step(Solver(FinalSpace, Left, Fast, 1, 0, false, [0, 0], [-1, 0], false, c, line)) == Ok(Solver(NewBlock, Left, Fast, 1, 1, false, [0, 0], [-1, 0], false, c, line))
  {
  }

  lemma FastLeftTwoOnesStep3(c: seq<int>, line: Line)
    requires c == [1, 1] && line == [Empty, Empty, Full, Empty, Empty, Empty, Empty]
    ensures Step(Solver(NewBlock, Left, Fast, 1, 1, false, [0, 0], [-1, 0], false, c, line)) == Ok(Solver(PlaceBlock, Left, Fast, 1, 1, false, [0, 2], [-1, 0], false, c, line))
  {
    assert [0, 0][1 := 2] == [0, 2];
  }

  lemma FastLeftTwoOnesStep4(c: seq<int>, line: Line)
    requires c == [1, 1] && line == [Empty, Empty, Full, Empty, Empty, Empty, Empty]
    ensures Step(Solver(PlaceBlock, Left, Fast, 1, 1, false, [0, 2], [-1, 0], false, c, line)) == Ok(Solver(FinalSpace, Left, Fast, 3, 1, false, [0, 2], [-1, 2], false, c, line))
  {
    assert [-1, 0][1 := 2] == [-1, 2];
    assert SkipMarked(Solver(PlaceBlock, Left, Fast, 1, 1, false, [0, 2], [-1, 0], false, c, line)) == FillBlock(Solver(PlaceBlock, Left, Fast, 3, 1, false, [0, 2], [-1, 2], false, c, line));
  }

  lemma FastLeftTwoOnesStep5(c: seq<int>, line: Line)
    requires c == [1, 1] && line == [Empty, Empty, Full, Empty, Empty, Empty, Empty]
    ensures Step(Solver(FinalSpace, Left, Fast, 3, 1, false, [0, 2], [-1, 2], false, c, line)) == Ok(Solver(NewBlock, Left, Fast, 3, 2, false, [0, 2], [-1, 2], false, c, line))
  {
  }

  lemma FastLeftTwoOnesStep6(c: seq<int>, line: Line)
    requires c == [1, 1] && line == [Empty, Empty, Full, Empty, Empty, Empty, Empty]
    ensures Step(Solver(NewBlock, Left, Fast, 3, 2, false, [0, 2], [-1, 2], false, c, line)) == Ok(Solver(CheckRest, Left, Fast, 3, 1, false, [0, 2], [-1, 2], false, c, line))
  {
  }

  lemma FastLeftTwoOnesStep7(c: seq<int>, line: Line)
    requires c == [1, 1] && line == [Empty, Empty, Full, Empty, Empty, Empty, Empty]
    ensures Step(Solver(CheckRest, Left, Fast, 3, 1, false, [0, 2], [-1, 2], false, c, line)) == Ok(Solver(Halt, Left, Fast, 7, 1, false, [0, 2], [-1, 2], false, c, line))
  {
    assert CheckRestStep(Solver(CheckRest, Left, Fast, 3, 1, false, [0, 2], [-1, 2], false, c, line)) == CheckRestStep(Solver(CheckRest, Left, Fast, 4, 1, false, [0, 2], [-1, 2], false, c, line));
    assert CheckRestStep(Solver(CheckRest, Left, Fast, 4, 1, false, [0, 2], [-1, 2], false, c, line)) == CheckRestStep(Solver(CheckRest, Left, Fast, 5, 1, false, [0, 2], [-1, 2], false, c, line));
    assert CheckRestStep(Solver(CheckRest, Left, Fast, 5, 1, false, [0, 2], [-1, 2], false, c, line)) == CheckRestStep(Solver(CheckRest, Left, Fast, 6, 1, false, [0, 2], [-1, 2], false, c, line));
    assert CheckRestStep(Solver(CheckRest, Left, Fast, 6, 1, false, [0, 2], [-1, 2], false, c, line)) == CheckRestStep(Solver(CheckRest, Left, Fast, 7, 1, false, [0, 2], [-1, 2], false, c, line));
  }

  lemma FastLeftTwoOnesRun(c: seq<int>, line: Line)
    requires c == [1, 1] && line == [Empty, Empty, Full, Empty, Empty, Empty, Empty]
    ensures Run(20, Solver(NewBlock, Left, Fast, 0, 0, false, [0, 0], [0, 0], false, c, line)) == Ok(Some([0, 2]))
  {
    FastLeftTwoOnesStep0(c, line);
    assert Run(20, Solver(NewBlock, Left, Fast, 0, 0, false, [0, 0], [0, 0], false, c, line)) == Run(19, Solver(PlaceBlock, Left, Fast, 0, 0, false, [0, 0], [0, 0], false, c, line));
    FastLeftTwoOnesStep1(c, line);
    assert Run(19, Solver(PlaceBlock, Left, Fast, 0, 0, false, [0, 0], [0, 0], false, c, line)) == Run(18, Solver(FinalSpace, Left, Fast, 1, 0, false, [0, 0], [-1, 0], false, c, line));
    FastLeftTwoOnesStep2(c, line);
    assert Run(18, Solver(FinalSpace, Left, Fast, 1, 0, false, [0, 0], [-1, 0], false, c, line)) == Run(17, Solver(NewBlock, Left, Fast, 1, 1, false, [0, 0], [-1, 0], false, c, line));
    FastLeftTwoOnesStep3(c, line);
    assert Run(17, Solver(NewBlock, Left, Fast, 1, 1, false, [0, 0], [-1, 0], false, c, line)) == Run(16, Solver(PlaceBlock, Left, Fast, 1, 1, false, [0, 2], [-1, 0], false, c, line));
    FastLeftTwoOnesStep4(c, line);
    assert Run(16, Solver(PlaceBlock, Left, Fast, 1, 1, false, [0, 2], [-1, 0], false, c, line)) == Run(15, Solver(FinalSpace, Left, Fast, 3, 1, false, [0, 2], [-1, 2], false, c, line));
    FastLeftTwoOnesStep5(c, line);
    assert Run(15, Solver(FinalSpace, Left, Fast, 3, 1, false, [0, 2], [-1, 2], false, c, line)) == Run(14, Solver(NewBlock, Left, Fast, 3, 2, false, [0, 2], [-1, 2], false, c, line));
    FastLeftTwoOnesStep6(c, line);
    assert Run(14, Solver(NewBlock, Left, Fast, 3, 2, false, [0, 2], [-1, 2], false, c, line)) == Run(13, Solver(CheckRest, Left, Fast, 3, 1, false, [0, 2], [-1, 2], false, c, line));
    FastLeftTwoOnesStep7(c, line);
    assert Run(13, Solver(CheckRest, Left, Fast, 3, 1, false, [0, 2], [-1, 2], false, c, line)) == Run(12, Solver(Halt, Left, Fast, 7, 1, false, [0, 2], [-1, 2], false, c, line));
  }

  /** Two blocks of 1 around the full cell 2 of seven cells, packed left:
      starts 0 and 2. */
  lemma FastLeftTwoOnes()
    ensures FastLeft(20, [1, 1], [Empty, Empty, Full, Empty, Empty, Empty, Empty]) == Ok(Some([0, 2]))
  {
    var c, line := [1, 1], [Empty, Empty, Full, Empty, Empty, Empty, Empty];
    assert NewLeftLineSolver(Fast, c, line) == Solver(NewBlock, Left, Fast, 0, 0, false, [0, 0], [0, 0], false, c, line);
    FastLeftTwoOnesRun(c, line);
  }

  /** The same line packed right: checkrest finds the full cell 2 and moves
      the first block with `+`, so advanceblock starts behind it and slides
      it to the end at 0. The ends 0 and 6 leave cell 2 uncovered: they are
      no placement of the clue on the line. */
  lemma FastRightTwoOnes()
    ensures FastRight(20, [1, 1], [Empty, Empty, Full, Empty, Empty, Empty, Empty]) == Ok(Some([0, 6]))
    ensures !Placement.Fits([Empty, Empty, Full, Empty, Empty, Empty, Empty], [1, 1], Placement.StartsOfEnds([1, 1], [0, 6]))
  {
    var c, line := [1, 1], [Empty, Empty, Full, Empty, Empty, Empty, Empty];
    assert NewRightLineSolver(Fast, c, line) == Solver(NewBlock, Right, Fast, 0, 1, false, [0, 0], [0, 0], false, c, line);
    FastRightTwoOnesRun(c, line);
    assert Placement.StartsOfEnds(c, [0, 6]) == [0, 6];
    assert Placement.GapStart(c, [0, 6], 1) <= 2 < 6 && line[2] == Full;
    assert !Placement.Consistent(line, c, [0, 6], 1);
  }
}
