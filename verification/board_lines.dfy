/** The tree solver's views of the board and of the puzzle
    (solver/treesolver.go): a line is a row or a column, read and written
    through getLine and setLine, scored by score, and the board's unknown
    cells are counted by emptyCells. */
module BoardLines {

  import opened Cells
  import opened Outcomes
  import opened Puzzles

  /** LineType: a line of the board is a row or a column. */
  datatype LineType = Row | Column

  /** The line type a change on a line of type lt affects. */
  function Other(lt: LineType): (r: LineType)
    ensures r != lt
  {
    if lt == Row then Column else Row
  }

  /** How many lines of type lt the puzzle has. */
  function LineCount(p: Puzzle, lt: LineType): nat {
    if lt == Row then |p.rows| else |p.cols|
  }

  /** How many cells a line of type lt has: a row crosses every column. */
  function LineLength(p: Puzzle, lt: LineType): nat {
    if lt == Row then |p.cols| else |p.rows|
  }

  predicate ValidIndex(p: Puzzle, lt: LineType, index: int) {
    0 <= index < LineCount(p, lt)
  }

  /** The clue list of line `index` of type lt. */
  function Clues(p: Puzzle, lt: LineType, index: int): seq<int>
    requires ValidIndex(p, lt, index)
  {
    if lt == Row then p.rows[index] else p.cols[index]
  }

  /** Board cell (i, j) lies on line `index` of type lt ... */
  predicate OnLine(lt: LineType, index: int, i: int, j: int) {
    if lt == Row then i == index else j == index
  }

  /** ... at this position of the line. */
  function PosOnLine(lt: LineType, i: int, j: int): int {
    if lt == Row then j else i
  }

  // ---------------------------------------------------------------------
  // getLine and setLine
  // ---------------------------------------------------------------------

  /** getLine, as intended: row `index`, or column `index` read down the
      rows. */
  function GetLine(b: Board, p: Puzzle, lt: LineType, index: int): (line: Line)
    requires Shaped(p, b) && ValidIndex(p, lt, index)
    ensures |line| == LineLength(p, lt)
  {
    if lt == Row then b[index]
    else seq(|p.rows|, i requires 0 <= i < |p.rows| => b[i][index])
  }

  /** getLine as written: the column's slice is made len(Cols) long but
      filled for i < len(Rows), so it runs out of range when the puzzle has
      more rows than columns, and ends in unread empty cells when it has
      fewer. */
  function GetLineAsWritten(b: Board, p: Puzzle, lt: LineType, index: int): (r: Outcome<Line>)
    requires Shaped(p, b) && ValidIndex(p, lt, index)
    ensures r.Panic? <==> lt == Column && |p.rows| > |p.cols|
    ensures r.Ok? ==> |r.value| == |p.cols|
  {
    if lt == Row then Ok(b[index])
    else if |p.rows| > |p.cols| then Panic
    else Ok(seq(|p.cols|, i requires 0 <= i < |p.cols| => if i < |p.rows| then b[i][index] else Empty))
  }

  /** On a square puzzle getLine as written is getLine. */
  lemma GetLineAsWrittenOnSquare(b: Board, p: Puzzle, lt: LineType, index: int)
    requires Shaped(p, b) && ValidIndex(p, lt, index) && |p.rows| == |p.cols|
    ensures GetLineAsWritten(b, p, lt, index) == Ok(GetLine(b, p, lt, index))
  {
    if lt == Column {
      var x, y := GetLineAsWritten(b, p, lt, index).value, GetLine(b, p, lt, index);
      assert |x| == |y|;
      assert forall i :: 0 <= i < |y| ==> x[i] == y[i];
      assert x == y;
    }
  }

  /** Two small puzzles on which getLine as written goes wrong: a column of
      a 2 x 1 puzzle is read out of range, and a column of a 1 x 2 puzzle
      comes back with two cells where the column has one. */
  lemma GetLineAsWrittenMisreads()
    ensures GetLineAsWritten(NewBoard(2, 1), Puzzle("", [[1], [1]], [[2]]), Column, 0) == Panic
    ensures GetLineAsWritten(NewBoard(1, 2), Puzzle("", [[2]], [[1], [1]]), Column, 0) == Ok([Empty, Empty])
    ensures LineLength(Puzzle("", [[2]], [[1], [1]]), Column) == 1
  {
    var p := Puzzle("", [[2]], [[1], [1]]);
    var b := NewBoard(1, 2);
    assert GetLineAsWritten(b, p, Column, 0).value == [Empty, Empty];
  }

  /** setLine: a row is replaced, a column is written down the rows. */
  function SetLine(b: Board, p: Puzzle, lt: LineType, index: int, line: Line): (r: Board)
    requires Shaped(p, b) && ValidIndex(p, lt, index) && |line| == LineLength(p, lt)
    ensures Shaped(p, r)
    ensures forall i, j :: 0 <= i < |p.rows| && 0 <= j < |p.cols| ==>
      r[i][j] == (if OnLine(lt, index, i, j) then line[PosOnLine(lt, i, j)] else b[i][j])
  {
    if lt == Row then b[index := line]
    else seq(|b|, i requires 0 <= i < |b| => b[i][index := line[i]])
  }

  /** Reading back the line just written gives the line. */
  lemma GetSetRoundTrip(b: Board, p: Puzzle, lt: LineType, index: int, line: Line)
    requires Shaped(p, b) && ValidIndex(p, lt, index) && |line| == LineLength(p, lt)
    ensures GetLine(SetLine(b, p, lt, index, line), p, lt, index) == line
  {
    var r := SetLine(b, p, lt, index, line);
    var back := GetLine(r, p, lt, index);
    forall k | 0 <= k < |line| ensures back[k] == line[k] {
      if lt == Row {
        assert r[index][k] == line[k];
      } else {
        assert r[k][index] == line[k];
      }
    }
  }

  /** Writing back the line just read leaves the board as it was. */
  lemma SetGetIdentity(b: Board, p: Puzzle, lt: LineType, index: int)
    requires Shaped(p, b) && ValidIndex(p, lt, index)
    ensures SetLine(b, p, lt, index, GetLine(b, p, lt, index)) == b
  {
    var r := SetLine(b, p, lt, index, GetLine(b, p, lt, index));
    forall i | 0 <= i < |b| ensures r[i] == b[i] {
      forall j | 0 <= j < |p.cols| ensures r[i][j] == b[i][j] {
      }
    }
  }

  /** Writing a line leaves every other line of its type as it was. */
  lemma SetLineKeepsOthers(b: Board, p: Puzzle, lt: LineType, index: int, line: Line, k: int)
    requires Shaped(p, b) && ValidIndex(p, lt, index) && |line| == LineLength(p, lt)
    requires ValidIndex(p, lt, k) && k != index
    ensures GetLine(SetLine(b, p, lt, index, line), p, lt, k) == GetLine(b, p, lt, k)
  {
    var r := SetLine(b, p, lt, index, line);
    var x, y := GetLine(r, p, lt, k), GetLine(b, p, lt, k);
    forall m | 0 <= m < |y| ensures x[m] == y[m] {
      if lt == Row {
        assert r[k][m] == b[k][m];
      } else {
        assert r[m][k] == b[m][k];
      }
    }
  }

  // ---------------------------------------------------------------------
  // emptyCells
  // ---------------------------------------------------------------------

  /** The empty cells of one line. */
  function CountEmpty(line: Line): (k: nat)
    ensures k <= |line|
  {
    if line == [] then 0 else (if line[0] == Empty then 1 else 0) + CountEmpty(line[1..])
  }

  /** emptyCells: the empty cells of the whole board. */
  function EmptyCells(b: Board): nat {
    if b == [] then 0 else CountEmpty(b[0]) + EmptyCells(b[1..])
  }

  lemma {:induction false} CountEmptyZero(line: Line)
    ensures CountEmpty(line) == 0 <==> forall j :: 0 <= j < |line| ==> line[j] != Empty
  {
    if line != [] {
      CountEmptyZero(line[1..]);
      assert forall j :: 1 <= j < |line| ==> line[j] == line[1..][j - 1];
    }
  }

  /** emptyCells is 0 exactly when no cell of the board is empty. */
  lemma {:induction false} EmptyCellsZero(b: Board)
    ensures EmptyCells(b) == 0 <==> forall i, j :: 0 <= i < |b| && 0 <= j < |b[i]| ==> b[i][j] != Empty
  {
    if b != [] {
      CountEmptyZero(b[0]);
      EmptyCellsZero(b[1..]);
      assert forall i :: 1 <= i < |b| ==> b[i] == b[1..][i - 1];
    }
  }

  /** emptyCells counts at most every cell of the board. */
  lemma {:induction false} EmptyCellsBound(b: Board, rows: nat, cols: nat)
    requires Rectangular(b, rows, cols)
    ensures EmptyCells(b) <= rows * cols
  {
    if b != [] {
      assert Rectangular(b[1..], rows - 1, cols);
      EmptyCellsBound(b[1..], rows - 1, cols);
      assert (rows - 1) * cols + cols == rows * cols;
    }
  }

  lemma {:induction false} CountEmptyAllEmpty(n: nat)
    ensures CountEmpty(seq(n, _ => Empty)) == n
  {
    if n > 0 {
      assert seq(n, _ => Empty)[1..] == seq(n - 1, _ => Empty);
      CountEmptyAllEmpty(n - 1);
    }
  }

  /** On a new board every cell is empty: emptyCells is rows x columns. */
  lemma {:induction false} EmptyCellsOfNewBoard(rows: nat, cols: nat)
    ensures EmptyCells(NewBoard(rows, cols)) == rows * cols
  {
    if rows > 0 {
      var b := NewBoard(rows, cols);
      assert b[1..] == NewBoard(rows - 1, cols);
      assert b[0] == seq(cols, _ => Empty);
      CountEmptyAllEmpty(cols);
      EmptyCellsOfNewBoard(rows - 1, cols);
      assert EmptyCells(b) == cols + (rows - 1) * cols;
      assert (rows - 1) * cols + cols == rows * cols;
    }
  }

  // ---------------------------------------------------------------------
  // score
  // ---------------------------------------------------------------------

  function Sum(c: seq<int>): int {
    if c == [] then 0 else c[0] + Sum(c[1..])
  }

  /** score's formula for the clues c of a line taken to have l cells: l
      for a line the clues fill exactly, else b(n+1) + n(n-l-1) with b the
      sum and n the count of the clues. */
  function ScoreFor(c: seq<int>, l: int): (r: int)
    ensures Sum(c) == l ==> r == l
    ensures Sum(c) != l ==> r == OverlapCount(c, Slack(c, l))
  {
    var b := Sum(c);
    var n := |c|;
    OverlapCountIsSum(c, Slack(c, l));
    assert n * (l - (b + n - 1)) == n * l - n * b - n * n + n;
    assert b * (n + 1) + n * (n - l - 1) == b * n + b + n * n - n * l - n;
    if b == l then l else b * (n + 1) + n * (n - l - 1)
  }

  /** How far the blocks packed to one end, one cell apart, can slide. */
  function Slack(c: seq<int>, l: int): int {
    l - (Sum(c) + |c| - 1)
  }

  /** The sum over the blocks of c of (length - s): with s the slack, the
      cells of each block that every placement covers (when the block is
      longer than the slack), the count the simple-boxes rule fills. */
  function OverlapCount(c: seq<int>, s: int): int {
    if c == [] then 0 else (c[0] - s) + OverlapCount(c[1..], s)
  }

  lemma {:induction false} OverlapCountIsSum(c: seq<int>, s: int)
    ensures OverlapCount(c, s) == Sum(c) - |c| * s
  {
    if c != [] {
      OverlapCountIsSum(c[1..], s);
      assert |c| * s == s + (|c| - 1) * s;
    }
  }

  /** The score of line `index` of type lt, measured on the line's own
      length. */
  function Score(p: Puzzle, lt: LineType, index: int): (r: int)
    requires ValidIndex(p, lt, index)
    ensures Sum(Clues(p, lt, index)) == LineLength(p, lt) ==> r == LineLength(p, lt)
    ensures Sum(Clues(p, lt, index)) != LineLength(p, lt) ==> r == OverlapCount(Clues(p, lt, index), Slack(Clues(p, lt, index), LineLength(p, lt)))
  {
    ScoreFor(Clues(p, lt, index), LineLength(p, lt))
  }

  /** score as written: it takes len(Rows) as the length of a row and
      len(Cols) as the length of a column, the number of lines of the type
      rather than their length. */
  function ScoreAsWritten(p: Puzzle, lt: LineType, index: int): (r: int)
    requires ValidIndex(p, lt, index)
    ensures Sum(Clues(p, lt, index)) == LineCount(p, lt) ==> r == LineCount(p, lt)
    ensures Sum(Clues(p, lt, index)) != LineCount(p, lt) ==> r == OverlapCount(Clues(p, lt, index), Slack(Clues(p, lt, index), LineCount(p, lt)))
  {
    ScoreFor(Clues(p, lt, index), LineCount(p, lt))
  }

  /** On a square puzzle the two agree. */
  lemma ScoreAsWrittenOnSquare(p: Puzzle, lt: LineType, index: int)
    requires ValidIndex(p, lt, index) && |p.rows| == |p.cols|
    ensures ScoreAsWritten(p, lt, index) == Score(p, lt, index)
  {
  }

  /** For clues that fit their line the score never exceeds the line's
      length, since the slack is then not negative. */
  lemma ScoreAtMostLength(p: Puzzle, lt: LineType, index: int)
    requires ValidIndex(p, lt, index)
    requires Sum(Clues(p, lt, index)) + |Clues(p, lt, index)| - 1 <= LineLength(p, lt)
    ensures Score(p, lt, index) <= LineLength(p, lt)
  {
    var c, l := Clues(p, lt, index), LineLength(p, lt);
    OverlapCountIsSum(c, Slack(c, l));
    assert |c| * Slack(c, l) >= 0;
  }

  /** On the 1 x 2 puzzle whose row is [2], the row is fully determined
      and scores its length 2; score as written rates it 3, more cells than
      the line has. */
  lemma ScoreAsWrittenOvershoots()
    ensures Score(Puzzle("", [[2]], [[1], [1]]), Row, 0) == 2
    ensures ScoreAsWritten(Puzzle("", [[2]], [[1], [1]]), Row, 0) == 3
    ensures LineLength(Puzzle("", [[2]], [[1], [1]]), Row) == 2
  {
    assert Sum([2]) == 2;
  }
}
