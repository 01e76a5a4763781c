/** The tri-state cell, the board, and the board's textual rendering
    (solver/solver.go). The root package declares an identical enum in
    solver.go; both are modelled by this one datatype. */
module Cells {

  import opened Outcomes

  /** A cell is `Empty` until the solver knows something about it, `Full`
      when it is part of the picture and `Marked` when it certainly is not. */
  datatype Cell = Empty | Full | Marked

  /** A line (a row or a column) as a value. */
  type Line = seq<Cell>

  /** A board is a sequence of rows. */
  type Board = seq<seq<Cell>>

  /** The integer the Go enum assigns to each cell (declared with iota). */
  function Code(c: Cell): (k: int)
    ensures 0 <= k <= 2
    ensures k == 0 <==> c == Empty
  {
    match c
    case Empty => 0
    case Full => 1
    case Marked => 2
  }

  /** The cell a raw integer stands for, as the tests write lines as raw
      integers; integers outside the enum stand for no cell. */
  function FromCode(k: int): (r: Option<Cell>)
    ensures r.Some? <==> 0 <= k <= 2
  {
    if k == 0 then Some(Empty)
    else if k == 1 then Some(Full)
    else if k == 2 then Some(Marked)
    else None
  }

  /** Decoding the code of a cell gives the cell back, so the three codes
      are distinct. */
  lemma CodeRoundTrip(c: Cell)
    ensures FromCode(Code(c)) == Some(c)
  {
  }

  lemma CodesDistinct(a: Cell, b: Cell)
    ensures a != b ==> Code(a) != Code(b)
  {
    CodeRoundTrip(a);
    CodeRoundTrip(b);
  }

  /** Translates a line written with raw integers, as the tests write them. */
  function Cells(codes: seq<int>): (r: Option<Line>)
    ensures r.Some? ==> |r.value| == |codes|
    ensures r.Some? ==> forall i :: 0 <= i < |codes| ==> Code(r.value[i]) == codes[i]
    ensures r.None? ==> exists i :: 0 <= i < |codes| && !(0 <= codes[i] <= 2)
  {
    if codes == [] then Some([])
    else
      match FromCode(codes[0])
      case None => None
      case Some(c) =>
        match Cells(codes[1..])
        case None => None
        case Some(rest) => Some([c] + rest)
  }

  predicate Rectangular(b: Board, rows: nat, cols: nat) {
    |b| == rows && forall i :: 0 <= i < |b| ==> |b[i]| == cols
  }

  /** NewBoard(rows, columns): a rows x columns board of zero-valued cells. */
  function NewBoard(rows: nat, columns: nat): (b: Board)
    ensures Rectangular(b, rows, columns)
    ensures forall i, j :: 0 <= i < rows && 0 <= j < columns ==> b[i][j] == Empty
  {
    seq(rows, _ => seq(columns, _ => Empty))
  }

  /** The three characters Board.String writes for a cell. */
  function Glyph(c: Cell): string {
    match c
    case Full => " # "
    case Marked => " - "
    case Empty => "   "
  }

  function RenderRow(row: seq<Cell>): string
  {
    if row == [] then "" else Glyph(row[0]) + RenderRow(row[1..])
  }

  /** The text line Board.String writes for one row, framed by bars. */
  function FramedRow(row: seq<Cell>): string {
    "|" + RenderRow(row) + "|\n"
  }

  /** Board.String: one framed text line per row. */
  function Render(b: Board): string
  {
    if b == [] then "" else FramedRow(b[0]) + Render(b[1..])
  }

  /** Board.String writes one newline per row. */
  lemma {:induction false} RenderNewlines(b: Board)
    ensures Newlines(Render(b)) == |b|
  {
    if b != [] {
      FramedRowNewlines(b[0]);
      RenderNewlines(b[1..]);
      NewlinesAppend(FramedRow(b[0]), Render(b[1..]));
    }
  }

  /** The newline characters of a text. */
  function Newlines(s: string): nat {
    if s == "" then 0 else (if s[0] == '\n' then 1 else 0) + Newlines(s[1..])
  }

  lemma {:induction false} NewlinesAppend(s: string, t: string)
    ensures Newlines(s + t) == Newlines(s) + Newlines(t)
  {
    if s != "" {
      assert (s + t)[1..] == s[1..] + t;
      NewlinesAppend(s[1..], t);
    } else {
      assert s + t == t;
    }
  }

  lemma GlyphNewlines(c: Cell)
    ensures Newlines(Glyph(c)) == 0
  {
    match c
    case Full => assert Newlines(" # ") == 0;
    case Marked => assert Newlines(" - ") == 0;
    case Empty => assert Newlines("   ") == 0;
  }

  /** The glyphs of a row hold no newline: a row is one text line. */
  lemma {:induction false} RenderRowNewlines(row: seq<Cell>)
    ensures Newlines(RenderRow(row)) == 0
  {
    if row != [] {
      RenderRowNewlines(row[1..]);
      NewlinesAppend(Glyph(row[0]), RenderRow(row[1..]));
      GlyphNewlines(row[0]);
    }
  }

  /** A framed row is one text line. */
  lemma FramedRowNewlines(row: seq<Cell>)
    ensures Newlines(FramedRow(row)) == 1
  {
    RenderRowNewlines(row);
    NewlinesAppend("|", RenderRow(row));
    NewlinesAppend("|" + RenderRow(row), "|\n");
  }

  /** Reads a cell back from the middle character of its glyph. */
  function CellOfGlyph(ch: char): Option<Cell> {
    if ch == '#' then Some(Full)
    else if ch == '-' then Some(Marked)
    else if ch == ' ' then Some(Empty)
    else None
  }

  /** Reads a rendered row back, three characters per cell. */
  function ParseRow(s: string): Option<seq<Cell>>
    decreases |s|
  {
    if |s| < 3 then (if s == "" then Some([]) else None)
    else
      match CellOfGlyph(s[1])
      case None => None
      case Some(c) =>
        match ParseRow(s[3..])
        case None => None
        case Some(rest) => Some([c] + rest)
  }

  /** Every cell renders as exactly three characters. */
  lemma {:induction false} RenderRowLength(row: seq<Cell>)
    ensures |RenderRow(row)| == 3 * |row|
  {
    if row != [] {
      RenderRowLength(row[1..]);
    }
  }

  /** The middle character of a glyph names its cell. */
  lemma GlyphReads(c: Cell)
    ensures |Glyph(c)| == 3 && CellOfGlyph(Glyph(c)[1]) == Some(c)
  {
  }

  /** A rendered row can be read back: the rendering loses no cell. */
  lemma {:induction false} RenderRowRoundTrip(row: seq<Cell>)
    ensures ParseRow(RenderRow(row)) == Some(row)
  {
    if row != [] {
      RenderRowRoundTrip(row[1..]);
      GlyphReads(row[0]);
      var g, t := Glyph(row[0]), RenderRow(row[1..]);
      var s := RenderRow(row);
      assert s == g + t;
      assert s[1] == g[1] && s[3..] == t;
      assert ParseRow(s) == Some([row[0]] + row[1..]);
      assert [row[0]] + row[1..] == row;
    }
  }

  /** Board.String writes 3 * cols + 3 characters per row. */
  lemma {:induction false} RenderLength(b: Board, rows: nat, cols: nat)
    requires Rectangular(b, rows, cols)
    ensures |Render(b)| == rows * (3 * cols + 3)
  {
    if b != [] {
      var w := 3 * cols + 3;
      RenderRowLength(b[0]);
      RenderLength(b[1..], rows - 1, cols);
      assert |FramedRow(b[0])| == w;
      assert rows * w == w + (rows - 1) * w;
    }
  }

  /** Where the text of row i starts when every row is w characters long. */
  function RowOffset(i: nat, w: nat): nat
  {
    if i == 0 then 0 else w + RowOffset(i - 1, w)
  }

  lemma {:induction false} RowOffsetIsProduct(i: nat, w: nat)
    ensures RowOffset(i, w) == i * w
  {
    if i > 0 {
      RowOffsetIsProduct(i - 1, w);
    }
  }

  /** Rendering two boards one above the other puts their texts one after
      the other. */
  lemma {:induction false} RenderAppend(a: Board, c: Board)
    ensures Render(a + c) == Render(a) + Render(c)
  {
    if a != [] {
      assert (a + c)[0] == a[0];
      assert (a + c)[1..] == a[1..] + c;
      RenderAppend(a[1..], c);
      assert Render(a + c) == FramedRow(a[0]) + Render(a[1..] + c);
      assert Render(a) == FramedRow(a[0]) + Render(a[1..]);
    } else {
      assert a + c == c;
    }
  }

  /** The text of row i is the w = 3 * cols + 3 characters starting at
      offset i * w. */
  lemma RenderRowAt(b: Board, rows: nat, cols: nat, i: nat)
    requires Rectangular(b, rows, cols)
    requires i < rows
    ensures RowOffset(i, 3 * cols + 3) + 3 * cols + 3 <= |Render(b)|
    ensures Render(b)[RowOffset(i, 3 * cols + 3) .. RowOffset(i, 3 * cols + 3) + 3 * cols + 3] == FramedRow(b[i])
  {
    var w := 3 * cols + 3;
    var before, after := b[..i], b[i..];
    var a, m, z := Render(before), FramedRow(b[i]), Render(after[1..]);
    assert Render(b) == a + (m + z) by {
      assert b == before + after;
      RenderAppend(before, after);
      assert after[0] == b[i];
    }
    assert |a| == RowOffset(i, w) && |m| == w by {
      assert Rectangular(before, i, cols);
      RenderLength(before, i, cols);
      RowOffsetIsProduct(i, w);
      RenderRowLength(b[i]);
    }
    SliceInMiddle(Render(b), a, m, z);
  }

  /** The middle part of a + m + z sits right after a. */
  lemma SliceInMiddle<T>(text: seq<T>, a: seq<T>, m: seq<T>, z: seq<T>)
    requires text == a + (m + z)
    ensures |a| + |m| <= |text| && text[|a| .. |a| + |m|] == m
  {
  }

  lemma SliceOfSlice<T>(s: seq<T>, lo: nat, hi: nat, x: nat, y: nat)
    requires lo <= hi <= |s| && x <= y <= hi - lo
    ensures s[lo..hi][x..y] == s[lo + x .. lo + y]
  {
    var a := s[lo..hi][x..y];
    var b := s[lo + x .. lo + y];
    assert |a| == |b|;
    forall k | 0 <= k < |a|
      ensures a[k] == b[k]
    {
      assert a[k] == s[lo..hi][x + k] == s[lo + x + k];
    }
  }

  /** A framed row found anywhere in a text reads back as that row. */
  lemma FramedRowReadBack(text: string, o: nat, row: seq<Cell>)
    requires o + 3 * |row| + 3 <= |text|
    requires text[o .. o + 3 * |row| + 3] == FramedRow(row)
    ensures ParseRow(text[o + 1 .. o + 1 + 3 * |row|]) == Some(row)
  {
    var n := 3 * |row|;
    RenderRowLength(row);
    RenderRowRoundTrip(row);
    SliceOfSlice(text, o, o + n + 3, 1, 1 + n);
    assert FramedRow(row)[1 .. 1 + n] == RenderRow(row);
  }

  /** FramedRowReadBack for a row of cols cells. */
  lemma RowReadBack(text: string, o: nat, cols: nat, row: seq<Cell>)
    requires |row| == cols && o + 3 * cols + 3 <= |text| && text[o .. o + 3 * cols + 3] == FramedRow(row)
    ensures ParseRow(text[o + 1 .. o + 1 + 3 * cols]) == Some(row)
  {
    FramedRowReadBack(text, o, row);
  }

  /** The board can be read back from its rendering, row by row. */
  lemma RenderReadBack(b: Board, rows: nat, cols: nat, i: nat)
    requires Rectangular(b, rows, cols)
    requires i < rows
    ensures RowOffset(i, 3 * cols + 3) + 3 * cols + 3 <= |Render(b)|
    ensures ParseRow(Render(b)[RowOffset(i, 3 * cols + 3) + 1 .. RowOffset(i, 3 * cols + 3) + 1 + 3 * cols]) == Some(b[i])
  {
    RenderRowAt(b, rows, cols, i);
    RowReadBack(Render(b), RowOffset(i, 3 * cols + 3), cols, b[i]);
  }
}
