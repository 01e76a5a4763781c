/** A nonogram puzzle (the Puzzle struct of solver/util.go and util.go) and
    the root package's board constructor (solver.go). */
module Puzzles {

  import opened Cells

  /** A name and the clue lists of the rows and of the columns. */
  datatype Puzzle = Puzzle(name: string, rows: seq<seq<int>>, cols: seq<seq<int>>)

  /** A board has the puzzle's shape: one row per row clue, one cell per
      column clue in each row. */
  predicate Shaped(p: Puzzle, b: Board) {
    Rectangular(b, |p.rows|, |p.cols|)
  }

  /** NewBoard(p) of the root package: an all-empty board of the puzzle's
      shape. */
  function PuzzleBoard(p: Puzzle): (b: Board)
    ensures Shaped(p, b)
    ensures forall i, j :: 0 <= i < |p.rows| && 0 <= j < |p.cols| ==> b[i][j] == Empty
  {
    seq(|p.rows|, _ => seq(|p.cols|, _ => Empty))
  }

  /** The root package's NewBoard(p) and solver/solver.go's
      NewBoard(len(p.Rows), len(p.Cols)) build the same board. */
  lemma PuzzleBoardIsNewBoard(p: Puzzle)
    ensures PuzzleBoard(p) == NewBoard(|p.rows|, |p.cols|)
  {
    var a, b := PuzzleBoard(p), NewBoard(|p.rows|, |p.cols|);
    forall i | 0 <= i < |p.rows| ensures a[i] == b[i] {
      assert |a[i]| == |b[i]|;
    }
  }
}
