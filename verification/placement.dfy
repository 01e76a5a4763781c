/** What a placement of a line's blocks is, independent of any algorithm:
    the reference against which the sweeps and the intersection are stated. */
module Placement {

  import opened Cells

  /** One past the last cell of block j when the blocks start at `starts`. */
  function BlockEnd(c: seq<int>, starts: seq<int>, j: int): int
    requires |starts| == |c| && 0 <= j < |c|
  {
    starts[j] + c[j]
  }

  /** Where the gap in front of block j begins: the line's start for the
      first block, else just past the previous block. */
  function GapStart(c: seq<int>, starts: seq<int>, j: int): int
    requires |starts| == |c| && 0 <= j < |c|
  {
    if j == 0 then 0 else BlockEnd(c, starts, j - 1)
  }

  /** Where the cells after the last block begin. */
  function TailStart(c: seq<int>, starts: seq<int>): int
    requires |starts| == |c|
  {
    if |c| == 0 then 0 else BlockEnd(c, starts, |c| - 1)
  }

  /** Block j lies inside a line of n cells. */
  predicate Inside(n: int, c: seq<int>, starts: seq<int>, j: int)
    requires |starts| == |c| && 0 <= j < |c|
  {
    0 <= starts[j] && BlockEnd(c, starts, j) <= n
  }

  /** Block j starts at least one cell after the previous block ends. */
  predicate Separated(c: seq<int>, starts: seq<int>, j: int)
    requires |starts| == |c| && 0 <= j < |c|
  {
    j == 0 || BlockEnd(c, starts, j - 1) < starts[j]
  }

  /** The blocks lie inside the line, in order, at least one cell apart. */
  predicate Ordered(n: int, c: seq<int>, starts: seq<int>) {
    && |starts| == |c|
    && forall j :: 0 <= j < |c| ==> Inside(n, c, starts, j) && Separated(c, starts, j)
  }

  /** No cell of value v in [lo, hi) (cells outside the line do not count). */
  predicate NoneIn(line: Line, v: Cell, lo: int, hi: int) {
    forall i :: lo <= i < hi && 0 <= i < |line| ==> line[i] != v
  }

  /** Block j covers no marked cell and leaves no full cell in the gap in
      front of it. */
  predicate Consistent(line: Line, c: seq<int>, starts: seq<int>, j: int)
    requires |starts| == |c| && 0 <= j < |c|
  {
    NoneIn(line, Marked, starts[j], BlockEnd(c, starts, j)) && NoneIn(line, Full, GapStart(c, starts, j), starts[j])
  }

  /** A valid placement against the known cells: the blocks are ordered,
      no block covers a marked cell, and every full cell is covered by a
      block, that is, no full cell lies in a gap or after the last block. */
  predicate Fits(line: Line, c: seq<int>, starts: seq<int>) {
    && Ordered(|line|, c, starts)
    && (forall j :: 0 <= j < |c| ==> Consistent(line, c, starts, j))
    && NoneIn(line, Full, TailStart(c, starts), |line|)
  }

  /** The start indices of blocks given by their end (last-cell) indices, as
      the right sweep reports them. */
  function StartsOfEnds(c: seq<int>, ends: seq<int>): (starts: seq<int>)
    requires |ends| == |c|
    ensures |starts| == |c|
    ensures forall j :: 0 <= j < |c| ==> starts[j] + c[j] - 1 == ends[j]
  {
    seq(|c|, j requires 0 <= j < |c| => ends[j] - c[j] + 1)
  }

  /** Every constraint names a real block. */
  predicate Positive(c: seq<int>) {
    forall j :: 0 <= j < |c| ==> c[j] >= 1
  }
}
