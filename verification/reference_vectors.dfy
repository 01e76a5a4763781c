/** The reference rule evaluated on the inputs where the line solver of
    solver/linesolver.go falls short: it finds the block the sweeps miss,
    keeps the marked cell intersect drops, and gives the answer the test at
    solver/linesolver_test.go:94-103 expects. */
module ReferenceVectors {

  import opened Cells
  import opened LineSolver
  import opened Reference

  /** A block of 1 in three cells whose last cell is full lies on that cell. */
  lemma OneBlockEndingFull(s: Line)
    requires |s| == 3 && Decided(s) && s[2] == Full
    ensures Runs(s) == [1] ==> s == [Marked, Marked, Full]
  {
    var F, M := Full, Marked;
    if s[0] == F && s[1] == F {
      assert s == [F, F, F];
      assert s[1..] == [F, F] && s[2..] == [F] && s[3..] == [];
      assert RunsFrom(s[2..], 2) == [3];
      assert RunsFrom(s[1..], 1) == [3];
      assert Runs(s) == [3];
    } else if s[0] == F && s[1] == M {
      assert s == [F, M, F];
      assert s[1..] == [M, F] && s[2..] == [F] && s[3..] == [];
      assert RunsFrom(s[2..], 0) == [1];
      assert RunsFrom(s[1..], 1) == [1, 1];
      assert Runs(s) == [1, 1];
    } else if s[0] == M && s[1] == F {
      assert s == [M, F, F];
      assert s[1..] == [F, F] && s[2..] == [F] && s[3..] == [];
      assert RunsFrom(s[2..], 1) == [2];
      assert RunsFrom(s[1..], 0) == [2];
      assert Runs(s) == [2];
    }
  }

  /** A line with a single solution is deduced in full. */
  lemma DeduceUnique(c: seq<int>, line: Line, s0: Line)
    requires Solution(s0, c) && Agrees(s0, line)
    requires forall s :: s in Solutions(c, line) ==> s == s0
    ensures Deduce(c, line) == Solved(s0, true)
  {
    SolutionsComplete(c, line, s0);
    var ss := Solutions(c, line);
    var r := Deduce(c, line);
    forall i | 0 <= i < |line| ensures r.result[i] == s0[i] {
      assert AllSay(ss, i, s0[i]) by {
        forall k | 0 <= k < |ss| ensures 0 <= i < |ss[k]| && ss[k][i] == s0[i] {
          assert ss[k] in ss;
        }
      }
    }
  }

  /** [Marked, Marked, Full] has one block of 1. */
  lemma LateBlockRuns()
    ensures Runs([Marked, Marked, Full]) == [1]
  {
    var F, M := Full, Marked;
    var s0 := [M, M, F];
    assert s0[1..] == [M, F] && s0[2..] == [F] && s0[3..] == [];
    assert RunsFrom(s0[2..], 0) == [1];
    assert RunsFrom(s0[1..], 0) == [1];
  }

  /** Deduce on [1] and [Empty, Empty, Full], where the left sweep of
      solver/linesolver.go reports a contradiction: the block is on the
      full cell and the other two cells are marked. */
  lemma DeduceFindsLateBlock()
    ensures Deduce([1], [Empty, Empty, Full]) == Solved([Marked, Marked, Full], true)
  {
    var line := [Empty, Empty, Full];
    var s0 := [Marked, Marked, Full];
    LateBlockRuns();
    assert Blocks([1]) == [1];
    forall s | s in Solutions([1], line) ensures s == s0 {
      OneBlockEndingFull(s);
    }
    DeduceUnique([1], line, s0);
  }

  /** Two solutions that disagree on cell i leave it open. */
  lemma DeduceOpen(c: seq<int>, line: Line, s1: Line, s2: Line, i: int)
    requires Solution(s1, c) && Agrees(s1, line) && Solution(s2, c) && Agrees(s2, line)
    requires 0 <= i < |line| && s1[i] != s2[i]
    ensures Deduce(c, line).ok && Deduce(c, line).result[i] == Empty
  {
    SolutionsComplete(c, line, s1);
    SolutionsComplete(c, line, s2);
    var ss := Solutions(c, line);
    var k1 :| 0 <= k1 < |ss| && ss[k1] == s1;
    var k2 :| 0 <= k2 < |ss| && ss[k2] == s2;
    assert !AllSay(ss, i, Full) && !AllSay(ss, i, Marked);
  }

  /** [Full, Marked, Marked] has one block of 1. */
  lemma EarlyBlockRuns()
    ensures Runs([Full, Marked, Marked]) == [1]
  {
    var F, M := Full, Marked;
    var s1 := [F, M, M];
    assert s1[1..] == [M, M] && s1[2..] == [M] && s1[3..] == [];
    assert RunsFrom(s1[2..], 0) == [];
    assert RunsFrom(s1[1..], 1) == [1];
  }

  /** Deduce on [1] and [Empty, Marked, Empty]: the block may lie on either
      end, so the ends stay open, and the marked cell stays marked, where
      intersect returns it as Empty. */
  lemma DeduceKeepsMark()
    ensures Deduce([1], [Empty, Marked, Empty]) == Solved([Empty, Marked, Empty], true)
  {
    var line := [Empty, Marked, Empty];
    var s1, s2 := [Full, Marked, Marked], [Marked, Marked, Full];
    EarlyBlockRuns();
    LateBlockRuns();
    assert Blocks([1]) == [1];
    DeduceOpen([1], line, s1, s2, 0);
    DeduceOpen([1], line, s1, s2, 2);
    DeduceKeepsKnown([1], line);
    var r := Deduce([1], line);
    assert r.result[1] == Marked;
  }

  /** A block of 3 in five cells covering cells 0 and 2 is cells 0 to 2. */
  lemma ThreeOverFirstAndThird(s: Line)
    requires |s| == 5 && Decided(s) && s[0] == Full && s[2] == Full
    ensures Runs(s) == [3] ==> s == [Full, Full, Full, Marked, Marked]
  {
    var F, M := Full, Marked;
    if s[1] == F && s[3] == F && s[4] == F {
      assert s == [F, F, F, F, F];
      assert s[1..] == [F, F, F, F] && s[2..] == [F, F, F] && s[3..] == [F, F] && s[4..] == [F] && s[5..] == [];
      assert RunsFrom(s[4..], 4) == [5];
      assert RunsFrom(s[3..], 3) == [5];
      assert RunsFrom(s[2..], 2) == [5];
      assert RunsFrom(s[1..], 1) == [5];
      assert Runs(s) == [5];
    } else if s[1] == F && s[3] == F && s[4] == M {
      assert s == [F, F, F, F, M];
      assert s[1..] == [F, F, F, M] && s[2..] == [F, F, M] && s[3..] == [F, M] && s[4..] == [M] && s[5..] == [];
      assert RunsFrom(s[4..], 4) == [4];
      assert RunsFrom(s[3..], 3) == [4];
      assert RunsFrom(s[2..], 2) == [4];
      assert RunsFrom(s[1..], 1) == [4];
      assert Runs(s) == [4];
    } else if s[1] == F && s[3] == M && s[4] == F {
      assert s == [F, F, F, M, F];
      assert s[1..] == [F, F, M, F] && s[2..] == [F, M, F] && s[3..] == [M, F] && s[4..] == [F] && s[5..] == [];
      assert RunsFrom(s[4..], 0) == [1];
      assert RunsFrom(s[3..], 3) == [3, 1];
      assert RunsFrom(s[2..], 2) == [3, 1];
      assert RunsFrom(s[1..], 1) == [3, 1];
      assert Runs(s) == [3, 1];
    } else if s[1] == M && s[3] == F && s[4] == F {
      assert s == [F, M, F, F, F];
      assert s[1..] == [M, F, F, F] && s[2..] == [F, F, F] && s[3..] == [F, F] && s[4..] == [F] && s[5..] == [];
      assert RunsFrom(s[4..], 2) == [3];
      assert RunsFrom(s[3..], 1) == [3];
      assert RunsFrom(s[2..], 0) == [3];
      assert RunsFrom(s[1..], 1) == [1, 3];
      assert Runs(s) == [1, 3];
    } else if s[1] == M && s[3] == F && s[4] == M {
      assert s == [F, M, F, F, M];
      assert s[1..] == [M, F, F, M] && s[2..] == [F, F, M] && s[3..] == [F, M] && s[4..] == [M] && s[5..] == [];
      assert RunsFrom(s[4..], 2) == [2];
      assert RunsFrom(s[3..], 1) == [2];
      assert RunsFrom(s[2..], 0) == [2];
      assert RunsFrom(s[1..], 1) == [1, 2];
      assert Runs(s) == [1, 2];
    } else if s[1] == M && s[3] == M && s[4] == F {
      assert s == [F, M, F, M, F];
      assert s[1..] == [M, F, M, F] && s[2..] == [F, M, F] && s[3..] == [M, F] && s[4..] == [F] && s[5..] == [];
      assert RunsFrom(s[4..], 0) == [1];
      assert RunsFrom(s[3..], 1) == [1, 1];
      assert RunsFrom(s[2..], 0) == [1, 1];
      assert RunsFrom(s[1..], 1) == [1, 1, 1];
      assert Runs(s) == [1, 1, 1];
    } else if s[1] == M && s[3] == M && s[4] == M {
      assert s == [F, M, F, M, M];
      assert s[1..] == [M, F, M, M] && s[2..] == [F, M, M] && s[3..] == [M, M] && s[4..] == [M] && s[5..] == [];
      assert RunsFrom(s[4..], 0) == [];
      assert RunsFrom(s[3..], 1) == [1];
      assert RunsFrom(s[2..], 0) == [1];
      assert RunsFrom(s[1..], 1) == [1, 1];
      assert Runs(s) == [1, 1];
    }
  }

  /** [Full, Full, Full, Marked, Marked] has one block of 3. */
  lemma KnownTestRuns()
    ensures Runs([Full, Full, Full, Marked, Marked]) == [3]
  {
    var F, M := Full, Marked;
    var s0 := [F, F, F, M, M];
    assert s0[1..] == [F, F, M, M] && s0[2..] == [F, M, M] && s0[3..] == [M, M] && s0[4..] == [M] && s0[5..] == [];
    assert RunsFrom(s0[4..], 0) == [];
    assert RunsFrom(s0[3..], 3) == [3];
    assert RunsFrom(s0[2..], 2) == [3];
    assert RunsFrom(s0[1..], 1) == [3];
  }

  /** solver/linesolver_test.go:94-103: [3] on [Full, Empty, Full, Empty,
      Empty] gives [Full, Full, Full, Marked, Marked], the expected line. */
  lemma DeduceKnownTest()
    ensures Deduce([3], [Full, Empty, Full, Empty, Empty]) == Solved([Full, Full, Full, Marked, Marked], true)
  {
    var line := [Full, Empty, Full, Empty, Empty];
    var s0 := [Full, Full, Full, Marked, Marked];
    KnownTestRuns();
    assert Blocks([3]) == [3];
    forall s | s in Solutions([3], line) ensures s == s0 {
      ThreeOverFirstAndThird(s);
    }
    DeduceUnique([3], line, s0);
  }
}
