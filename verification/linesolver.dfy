/** The line solver proper: `intersect` and `SolveLine` of
    solver/linesolver.go and `Intersect` of linesolver.go. Both run the
    leftmost and the rightmost sweep and then walk the line once, marking a
    cell full where both placements put the same block on it and marked
    where both leave it in the same gap. The two texts differ only in the
    sweeps they call (`Version`): solver/linesolver.go's FastLineSolver,
    or linesolver.go's LeftSolve and RightSolve. */
module LineSolver {

  import opened Cells
  import opened Outcomes
  import opened Placement
  import opened Sweep
  import LeftSweepProof
  import RootSweep
  import RootSweepProof

  /** The two results of intersect: the deduced line and `ok`, false when a
      sweep found a contradiction. */
  datatype Solved = Solved(result: Line, ok: bool)

  /** Where the walk stands with one placement: the block it is in or waits
      for (lb, rb), and whether it is in a gap (lgap, rgap). */
  datatype Track = Track(block: int, gap: bool)

  /** A track never stands inside a block that does not exist. */
  predicate TrackOk(m: int, t: Track) {
    0 <= t.block <= m && (!t.gap ==> t.block < m)
  }

  /** The walk's update of one track at cell i: leave the block that ends
      here, then enter the block that starts here. The left placement is
      given by its starts; the right one by its ends, turned into starts
      (end - length + 1), which makes its two tests, `right[rb] + 1 == i`
      and `right[rb] - constraints[rb] + 1 == i`, the same as the left's. */
  function Follow(c: seq<int>, starts: seq<int>, t: Track, i: int): (u: Track)
    requires |starts| == |c| && TrackOk(|c|, t)
    ensures TrackOk(|c|, u)
  {
    var t1 := if !t.gap && starts[t.block] + c[t.block] == i then Track(t.block + 1, true) else t;
    if t1.gap && t1.block < |c| && starts[t1.block] == i then Track(t1.block, false) else t1
  }

  /** The cell the walk writes when the two tracks stand as given. */
  function Verdict(l: Track, r: Track): Cell {
    if l.gap == r.gap && l.block == r.block then (if l.gap then Marked else Full) else Empty
  }

  /** The loop of intersect from cell i on. */
  function Walk(n: int, c: seq<int>, ls: seq<int>, rs: seq<int>, i: int, l: Track, r: Track): (cells: Line)
    requires |ls| == |c| && |rs| == |c| && TrackOk(|c|, l) && TrackOk(|c|, r)
    requires i <= n
    ensures |cells| == n - i
    decreases n - i
  {
    if i == n then []
    else
      var l1 := Follow(c, ls, l, i);
      var r1 := Follow(c, rs, r, i);
      [Verdict(l1, r1)] + Walk(n, c, ls, rs, i + 1, l1, r1)
  }

  /** The walk over a whole line of n cells, from the first gap. */
  function WalkLine(n: nat, c: seq<int>, left: seq<int>, rightStarts: seq<int>): (cells: Line)
    requires |left| == |c| && |rightStarts| == |c|
    ensures |cells| == n
  {
    Walk(n, c, left, rightStarts, 0, Track(0, true), Track(0, true))
  }

  /** A line of n copies of one cell. */
  function Fill(n: nat, v: Cell): (cells: Line)
    ensures |cells| == n && forall i :: 0 <= i < n ==> cells[i] == v
  {
    seq(n, _ => v)
  }

  /** The left sweep each text calls: leftSolver.solve() in
      solver/linesolver.go, LeftSolve in linesolver.go. Both are the left
      machine (RootSweepProof.LeftSolveIsLeftSweep). */
  function LeftSweep(version: Version, fuel: nat, c: seq<int>, line: Line): (r: Outcome<Option<seq<int>>>)
    ensures r == Run(fuel, NewLeftLineSolver(version, c, line))
  {
    RootSweepProof.LeftSolveIsLeftSweep(fuel, c, line, Legacy);
    if version == Fast then FastLeft(fuel, c, line) else RootSweep.LeftSolve(fuel, c, line)
  }

  /** The right sweep each text calls: rightSolver.solve() in
      solver/linesolver.go, RightSolve in linesolver.go, the right machine
      with moveBlockForward's `-` (RootSweepProof.RightSolveIsRightSweep). */
  function RightSweep(version: Version, fuel: nat, c: seq<int>, line: Line): (r: Outcome<Option<seq<int>>>)
    ensures r == Run(fuel, NewRightLineSolver(version, c, line))
  {
    RootSweepProof.RightSolveIsRightSweep(fuel, c, line);
    if version == Fast then FastRight(fuel, c, line) else RootSweep.RightSolve(fuel, c, line)
  }

  /** intersect (solver/linesolver.go, version Fast) and Intersect
      (linesolver.go, version Legacy). A first constraint of 0 means an
      empty line, one equal to the line's length a full line; an empty
      constraint list is read out of range. Otherwise the result is not ok
      exactly when a sweep returns nil, and it is then all-empty. */
  function Intersect(version: Version, fuel: nat, c: seq<int>, line: Line): (r: Outcome<Solved>)
    ensures r.Ok? ==> |r.value.result| == |line|
    ensures |c| == 0 ==> r == Panic
    ensures |c| > 0 && c[0] == 0 ==> r == Ok(Solved(Fill(|line|, Marked), true))
    ensures |c| > 0 && c[0] != 0 && c[0] == |line| ==> r == Ok(Solved(Fill(|line|, Full), true))
    ensures r.Ok? && !r.value.ok ==> r.value.result == Fill(|line|, Empty)
    ensures |c| > 0 && c[0] != 0 && c[0] != |line| ==>
              (r.Ok? <==> LeftSweep(version, fuel, c, line).Ok? && RightSweep(version, fuel, c, line).Ok?)
    ensures |c| > 0 && c[0] != 0 && c[0] != |line| && r.Ok? ==>
              (r.value.ok <==> LeftSweep(version, fuel, c, line).value.Some? && RightSweep(version, fuel, c, line).value.Some?)
  {
    if |c| == 0 then Panic
    else if c[0] == 0 then Ok(Solved(Fill(|line|, Marked), true))
    else if c[0] == |line| then Ok(Solved(Fill(|line|, Full), true))
    else
      var left :- LeftSweep(version, fuel, c, line);
      var right :- RightSweep(version, fuel, c, line);
      if left.None? || right.None? then Ok(Solved(Fill(|line|, Empty), false))
      else Ok(Solved(WalkLine(|line|, c, left.value, StartsOfEnds(c, right.value)), true))
  }

  /** SolveLine: the exported entry of solver/linesolver.go, which hands
      its arguments to intersect. */
  function SolveLine(fuel: nat, c: seq<int>, line: Line): (r: Outcome<Solved>)
    ensures r.Ok? ==> |r.value.result| == |line|
    ensures |c| == 0 ==> r == Panic
    ensures |c| > 0 && c[0] == 0 ==> r == Ok(Solved(Fill(|line|, Marked), true))
    ensures |c| > 0 && c[0] != 0 && c[0] == |line| ==> r == Ok(Solved(Fill(|line|, Full), true))
    ensures r.Ok? && !r.value.ok ==> r.value.result == Fill(|line|, Empty)
    ensures |c| > 0 && c[0] != 0 && c[0] != |line| ==>
              (r.Ok? <==> LeftSweep(Fast, fuel, c, line).Ok? && RightSweep(Fast, fuel, c, line).Ok?)
    ensures |c| > 0 && c[0] != 0 && c[0] != |line| && r.Ok? ==>
              (r.value.ok <==> LeftSweep(Fast, fuel, c, line).value.Some? && RightSweep(Fast, fuel, c, line).value.Some?)
  {
    Intersect(Fast, fuel, c, line)
  }

  // ---------------------------------------------------------------------
  // What the walk computes, stated without the walk.
  // ---------------------------------------------------------------------

  /** Cell i lies in block j of the placement. */
  predicate InBlock(c: seq<int>, starts: seq<int>, j: int, i: int)
    requires |starts| == |c| && 0 <= j < |c|
  {
    starts[j] <= i < BlockEnd(c, starts, j)
  }

  /** Cell i lies in gap k: after block k - 1 (if any) and before block k
      (if any). */
  predicate InGap(c: seq<int>, starts: seq<int>, k: int, i: int)
    requires |starts| == |c| && 0 <= k <= |c|
  {
    (k == 0 || BlockEnd(c, starts, k - 1) <= i) && (k == |c| || i < starts[k])
  }

  /** The blocks follow each other without overlapping (they may touch),
      from index 0 on, and each has at least one cell: what the walk needs
      to see every block of a placement. */
  predicate Chain(c: seq<int>, starts: seq<int>) {
    && |starts| == |c|
    && Positive(c)
    && (|c| > 0 ==> starts[0] >= 0)
    && forall j :: 0 < j < |c| ==> BlockEnd(c, starts, j - 1) <= starts[j]
  }

  /** The deduction intersect is meant to make from two placements: a cell
      is full when both put the same block on it, marked when both leave it
      in the same gap, and unknown otherwise. */
  function Overlap(c: seq<int>, ls: seq<int>, rs: seq<int>, i: int): Cell
    requires |ls| == |c| && |rs| == |c|
  {
    if exists j :: 0 <= j < |c| && InBlock(c, ls, j, i) && InBlock(c, rs, j, i) then Full
    else if exists k :: 0 <= k <= |c| && InGap(c, ls, k, i) && InGap(c, rs, k, i) then Marked
    else Empty
  }

  /** A track stands where it should after the walk has passed cell i:
      every block before it has ended by i, its own block has not, and it is
      in a gap exactly when its block has not yet begun. */
  predicate Tracks(c: seq<int>, s: seq<int>, i: int, t: Track)
    requires |s| == |c|
  {
    && TrackOk(|c|, t)
    && (forall j :: 0 <= j < t.block ==> BlockEnd(c, s, j) <= i)
    && (t.block < |c| ==> i < BlockEnd(c, s, t.block))
    && (t.gap <==> !(t.block < |c| && s[t.block] <= i))
  }

  /** In a chain, a later block starts no earlier than an earlier one ends. */
  lemma {:induction false} ChainMonotone(c: seq<int>, s: seq<int>, k: int, j: int)
    requires Chain(c, s) && 0 <= k < j < |c|
    ensures BlockEnd(c, s, k) <= s[j]
    decreases j - k
  {
    if k < j - 1 {
      ChainMonotone(c, s, k, j - 1);
      assert s[j - 1] < BlockEnd(c, s, j - 1);
    }
  }

  /** Before the first cell the walk waits for block 0 in gap 0. */
  lemma TracksStart(c: seq<int>, s: seq<int>)
    requires Chain(c, s)
    ensures Tracks(c, s, -1, Track(0, true))
  {
  }

  /** One update of the walk keeps its track where it should be. */
  lemma FollowTracks(c: seq<int>, s: seq<int>, i: int, t: Track)
    requires Chain(c, s) && Tracks(c, s, i - 1, t)
    ensures Tracks(c, s, i, Follow(c, s, t, i))
  {
    var m := |c|;
    var b := t.block;
    if !t.gap && BlockEnd(c, s, b) == i && b + 1 < m {
      assert BlockEnd(c, s, b) <= s[b + 1];
    }
  }

  /** A track that stands where it should names the block or the gap that
      holds cell i, and only that one. */
  lemma TrackNames(c: seq<int>, s: seq<int>, i: int, t: Track)
    requires Chain(c, s) && Tracks(c, s, i, t)
    ensures forall j :: 0 <= j < |c| ==> (InBlock(c, s, j, i) <==> t.block == j && !t.gap)
    ensures forall k :: 0 <= k <= |c| ==> (InGap(c, s, k, i) <==> t.block == k && t.gap)
  {
    forall j | 0 <= j < |c|
      ensures InBlock(c, s, j, i) <==> t.block == j && !t.gap
    {
      if t.block < j {
        ChainMonotone(c, s, t.block, j);
      }
    }
    forall k | 0 <= k <= |c|
      ensures InGap(c, s, k, i) <==> t.block == k && t.gap
    {
      if t.block < k - 1 {
        ChainMonotone(c, s, t.block, k - 1);
        assert s[k - 1] < BlockEnd(c, s, k - 1);
      }
      if k < t.block {
        assert BlockEnd(c, s, k) <= i;
      }
    }
  }

  /** The verdict of two tracks that stand where they should is the overlap
      deduction. */
  lemma VerdictIsOverlap(c: seq<int>, ls: seq<int>, rs: seq<int>, i: int, l: Track, r: Track)
    requires Chain(c, ls) && Chain(c, rs) && Tracks(c, ls, i, l) && Tracks(c, rs, i, r)
    ensures Verdict(l, r) == Overlap(c, ls, rs, i)
  {
    TrackNames(c, ls, i, l);
    TrackNames(c, rs, i, r);
    if l.gap == r.gap && l.block == r.block {
      if l.gap {
        assert InGap(c, ls, l.block, i) && InGap(c, rs, l.block, i);
      } else {
        assert InBlock(c, ls, l.block, i) && InBlock(c, rs, l.block, i);
      }
    }
  }

  /** The walk from cell i writes the overlap deduction at every cell. */
  lemma {:induction false} WalkIsOverlap(n: int, c: seq<int>, ls: seq<int>, rs: seq<int>, i: int, l: Track, r: Track)
    requires Chain(c, ls) && Chain(c, rs) && i <= n
    requires Tracks(c, ls, i - 1, l) && Tracks(c, rs, i - 1, r)
    ensures forall k :: i <= k < n ==> Walk(n, c, ls, rs, i, l, r)[k - i] == Overlap(c, ls, rs, k)
    decreases n - i
  {
    if i < n {
      var l1 := Follow(c, ls, l, i);
      var r1 := Follow(c, rs, r, i);
      FollowTracks(c, ls, i, l);
      FollowTracks(c, rs, i, r);
      VerdictIsOverlap(c, ls, rs, i, l1, r1);
      WalkIsOverlap(n, c, ls, rs, i + 1, l1, r1);
    }
  }

  /** The walk of a whole line is the overlap deduction, cell by cell. */
  lemma WalkLineIsOverlap(n: nat, c: seq<int>, ls: seq<int>, rs: seq<int>)
    requires Chain(c, ls) && Chain(c, rs)
    ensures forall i :: 0 <= i < n ==> WalkLine(n, c, ls, rs)[i] == Overlap(c, ls, rs, i)
  {
    TracksStart(c, ls);
    TracksStart(c, rs);
    WalkIsOverlap(n, c, ls, rs, 0, Track(0, true), Track(0, true));
    var w := WalkLine(n, c, ls, rs);
    forall i | 0 <= i < n ensures w[i] == Overlap(c, ls, rs, i) {
      assert w[i - 0] == Overlap(c, ls, rs, i);
    }
  }

  /** A placement that fits a line is a chain. */
  lemma FitsIsChain(line: Line, c: seq<int>, starts: seq<int>)
    requires Positive(c) && Fits(line, c, starts)
    ensures Chain(c, starts)
  {
    if |c| > 0 {
      assert Inside(|line|, c, starts, 0);
    }
    forall j | 0 < j < |c|
      ensures BlockEnd(c, starts, j - 1) <= starts[j]
    {
      assert Separated(c, starts, j);
    }
  }

  /** What intersect computes when both sweeps succeed: when the right
      sweep's blocks form a chain (the left sweep's always do), every cell of
      the result is the overlap deduction from the two placements. */
  lemma IntersectIsOverlap(version: Version, fuel: nat, c: seq<int>, line: Line, left: seq<int>, right: seq<int>)
    requires Positive(c) && |c| > 0 && c[0] != |line|
    requires Run(fuel, NewLeftLineSolver(version, c, line)) == Ok(Some(left))
    requires Run(fuel, NewRightLineSolver(version, c, line)) == Ok(Some(right))
    requires |right| == |c| && Chain(c, StartsOfEnds(c, right))
    ensures Intersect(version, fuel, c, line).Ok?
    ensures Intersect(version, fuel, c, line).value.ok
    ensures forall i :: 0 <= i < |line| ==>
      Intersect(version, fuel, c, line).value.result[i] == Overlap(c, left, StartsOfEnds(c, right), i)
  {
    LeftSweepProof.LeftSweepSound(version, fuel, c, line);
    FitsIsChain(line, c, left);
    WalkLineIsOverlap(|line|, c, left, StartsOfEnds(c, right));
  }
}
