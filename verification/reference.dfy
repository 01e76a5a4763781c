/** A reference line rule: the deduction intersect sets out to make, defined
    without any sweep. The documentation of intersect (solver/linesolver.go)
    promises a line that is "at least the same" as the input and a failure
    only when the line cannot be solved. This module states that promise
    directly: it enumerates every decided line, keeps those whose runs of
    full cells are the clue's blocks and that keep the input's known cells,
    and fixes exactly the cells on which all of them agree. */
module Reference {

  import opened Cells
  import opened LineSolver

  /** Every cell of the line is decided. */
  predicate Decided(s: Line) {
    forall i :: 0 <= i < |s| ==> s[i] != Empty
  }

  /** The lengths of the runs of full cells of s, left to right; `run` is
      the length of the run the cells before s left open. */
  function RunsFrom(s: Line, run: nat): seq<int>
    decreases |s|
  {
    if s == [] then (if run > 0 then [run] else [])
    else if s[0] == Full then RunsFrom(s[1..], run + 1)
    else (if run > 0 then [run] else []) + RunsFrom(s[1..], 0)
  }

  function Runs(s: Line): seq<int> {
    RunsFrom(s, 0)
  }

  /** The blocks a clue list asks for: the puzzles write [0] for a line
      without any block, so zero entries name no block. */
  function Blocks(c: seq<int>): seq<int> {
    if c == [] then [] else (if c[0] == 0 then [] else [c[0]]) + Blocks(c[1..])
  }

  /** s is a solution of the clue c: decided, with exactly c's blocks. */
  predicate Solution(s: Line, c: seq<int>) {
    Decided(s) && Runs(s) == Blocks(c)
  }

  /** s has the line's length and keeps every cell the line knows. */
  predicate Agrees(s: Line, line: Line) {
    |s| == |line| && forall i :: 0 <= i < |line| && line[i] != Empty ==> s[i] == line[i]
  }

  /** Each line of ls with v put in front. */
  function Prepend(v: Cell, ls: seq<Line>): (r: seq<Line>)
    ensures |r| == |ls| && forall k :: 0 <= k < |ls| ==> r[k] == [v] + ls[k]
  {
    seq(|ls|, k requires 0 <= k < |ls| => [v] + ls[k])
  }

  /** The decided lines of n cells. */
  function AllLines(n: nat): (r: seq<Line>)
    ensures forall k :: 0 <= k < |r| ==> |r[k]| == n && Decided(r[k])
  {
    if n == 0 then [[]]
    else
      var shorter := AllLines(n - 1);
      Prepend(Full, shorter) + Prepend(Marked, shorter)
  }

  /** Prepend keeps every line of ls, with v in front. */
  lemma PrependHas(v: Cell, ls: seq<Line>, x: Line)
    requires x in ls
    ensures [v] + x in Prepend(v, ls)
  {
    var k :| 0 <= k < |ls| && ls[k] == x;
    assert Prepend(v, ls)[k] == [v] + x;
  }

  /** AllLines leaves no decided line out. */
  lemma {:induction false} AllLinesComplete(s: Line)
    requires Decided(s)
    ensures s in AllLines(|s|)
  {
    if |s| > 0 {
      var rest := AllLines(|s| - 1);
      assert Decided(s[1..]);
      AllLinesComplete(s[1..]);
      PrependHas(s[0], rest, s[1..]);
      assert s == [s[0]] + s[1..];
      assert AllLines(|s|) == Prepend(Full, rest) + Prepend(Marked, rest);
    }
  }

  /** The lines of ls that solve c and keep the known cells of line, in
      the order of ls. */
  function Candidates(ls: seq<Line>, c: seq<int>, line: Line): (r: seq<Line>)
    ensures forall s :: s in r <==> s in ls && Solution(s, c) && Agrees(s, line)
  {
    if ls == [] then []
    else
      assert ls == [ls[0]] + ls[1..];
      (if Solution(ls[0], c) && Agrees(ls[0], line) then [ls[0]] else []) + Candidates(ls[1..], c, line)
  }

  /** Every solution of c that keeps the known cells of line. */
  function Solutions(c: seq<int>, line: Line): (r: seq<Line>)
    ensures forall s :: s in r ==> Solution(s, c) && Agrees(s, line)
  {
    Candidates(AllLines(|line|), c, line)
  }

  /** Solutions leaves none out. */
  lemma SolutionsComplete(c: seq<int>, line: Line, s: Line)
    requires Solution(s, c) && Agrees(s, line)
    ensures s in Solutions(c, line)
  {
    AllLinesComplete(s);
  }

  /** Cell i of every line of ss is v. */
  predicate AllSay(ss: seq<Line>, i: int, v: Cell) {
    forall k :: 0 <= k < |ss| ==> 0 <= i < |ss[k]| && ss[k][i] == v
  }

  /** What the lines of ss agree on at cell i, or Empty. */
  function Consensus(ss: seq<Line>, i: int): Cell {
    if AllSay(ss, i, Full) then Full
    else if AllSay(ss, i, Marked) then Marked
    else Empty
  }

  /** The corrected intersect: not ok when no solution keeps the known
      cells (the result then all-empty, as intersect returns it);
      otherwise each cell is what every such solution makes it, or Empty
      where they differ. */
  function Deduce(c: seq<int>, line: Line): (r: Solved)
    ensures |r.result| == |line|
    ensures !r.ok ==> r.result == Fill(|line|, Empty)
  {
    var ss := Solutions(c, line);
    if ss == [] then Solved(Fill(|line|, Empty), false)
    else Solved(seq(|line|, i requires 0 <= i < |line| => Consensus(ss, i)), true)
  }

  /** Deduce fails exactly when the line has no solution. */
  lemma DeduceOkIff(c: seq<int>, line: Line)
    ensures Deduce(c, line).ok <==> exists s :: Solution(s, c) && Agrees(s, line)
  {
    var ss := Solutions(c, line);
    if ss != [] {
      assert ss[0] in ss;
    }
    if s :| Solution(s, c) && Agrees(s, line) {
      SolutionsComplete(c, line, s);
    }
  }

  /** Deduce is sound: a solution that keeps the input's known cells keeps
      the result's known cells too, so no deduced cell is wrong. */
  lemma DeduceSound(c: seq<int>, line: Line, s: Line)
    requires Solution(s, c) && Agrees(s, line)
    ensures Deduce(c, line).ok && Agrees(s, Deduce(c, line).result)
  {
    var ss := Solutions(c, line);
    SolutionsComplete(c, line, s);
    var k :| 0 <= k < |ss| && ss[k] == s;
    var r := Deduce(c, line);
    forall i | 0 <= i < |line| && r.result[i] != Empty
      ensures s[i] == r.result[i]
    {
      assert r.result[i] == Consensus(ss, i);
    }
  }

  /** Deduce keeps what the input line knows. */
  lemma DeduceKeepsKnown(c: seq<int>, line: Line)
    ensures Deduce(c, line).ok ==> Agrees(Deduce(c, line).result, line)
  {
    var r := Deduce(c, line);
    if r.ok {
      DeduceOkIff(c, line);
      var s :| Solution(s, c) && Agrees(s, line);
      DeduceSound(c, line, s);
      forall i | 0 <= i < |line| && line[i] != Empty
        ensures r.result[i] == line[i]
      {
        var ss := Solutions(c, line);
        assert r.result[i] == Consensus(ss, i);
        var v := line[i];
        assert AllSay(ss, i, v) by {
          forall k | 0 <= k < |ss| ensures 0 <= i < |ss[k]| && ss[k][i] == v {
            assert ss[k] in ss;
          }
        }
      }
    }
  }

  /** Deduce is complete: a cell it leaves Empty really is open, one
      solution keeping the known cells fills it and another marks it. */
  lemma DeduceComplete(c: seq<int>, line: Line, i: int)
    requires Deduce(c, line).ok && 0 <= i < |line| && Deduce(c, line).result[i] == Empty
    ensures exists s :: Solution(s, c) && Agrees(s, line) && s[i] == Full
    ensures exists s :: Solution(s, c) && Agrees(s, line) && s[i] == Marked
  {
    var ss := Solutions(c, line);
    assert Deduce(c, line).result[i] == Consensus(ss, i);
    assert !AllSay(ss, i, Full) && !AllSay(ss, i, Marked);
    var k1 :| 0 <= k1 < |ss| && !(0 <= i < |ss[k1]| && ss[k1][i] == Full);
    var k2 :| 0 <= k2 < |ss| && !(0 <= i < |ss[k2]| && ss[k2][i] == Marked);
    assert ss[k1] in ss && ss[k2] in ss;
    assert Solution(ss[k1], c) && ss[k1][i] == Marked;
    assert Solution(ss[k2], c) && ss[k2][i] == Full;
  }

  /** Candidates depends on the known cells only through which lines they
      admit. */
  lemma {:induction false} CandidatesSameAdmit(ls: seq<Line>, c: seq<int>, a: Line, b: Line)
    requires forall k :: 0 <= k < |ls| && Solution(ls[k], c) ==> (Agrees(ls[k], a) <==> Agrees(ls[k], b))
    ensures Candidates(ls, c, a) == Candidates(ls, c, b)
  {
    if ls != [] {
      assert Solution(ls[0], c) ==> (Agrees(ls[0], a) <==> Agrees(ls[0], b));
      CandidatesSameAdmit(ls[1..], c, a, b);
    }
  }

  /** Deducing again from the result changes nothing: the result admits
      exactly the solutions the input admits. */
  lemma DeduceIdempotent(c: seq<int>, line: Line)
    requires Deduce(c, line).ok
    ensures Deduce(c, Deduce(c, line).result) == Deduce(c, line)
  {
    var r := Deduce(c, line).result;
    DeduceKeepsKnown(c, line);
    var ls := AllLines(|line|);
    forall k | 0 <= k < |ls| && Solution(ls[k], c)
      ensures Agrees(ls[k], line) <==> Agrees(ls[k], r)
    {
      if Agrees(ls[k], line) {
        DeduceSound(c, line, ls[k]);
      }
    }
    CandidatesSameAdmit(ls, c, line, r);
  }
}
