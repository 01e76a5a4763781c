/** The propagation driver of solver/treesolver.go: a list of jobs, one per
    row or column still to be run through the line solver, popped from its
    end; a line the solver changes is written back, the crossing lines it
    touched are queued again, and the list is re-sorted by score.

    Go shares memory where the model has values. A row job holds
    board[index] itself (getLine returns the row slice), so the column
    writes made after it was queued show through it; a column job holds a
    copy taken when it was queued. The model reads a row job's line from
    the board when the job is popped and keeps a column job's copy: the
    same lines Go reads, since at most one job per line is ever queued
    (UniqueKeys) and only popping that job replaces the row slice. */
module TreeSolver {

  import opened Cells
  import opened Outcomes
  import opened Puzzles
  import opened BoardLines
  import LineSolver
  import Reference

  /** treeSolverJob. */
  datatype Job = Job(ltype: LineType, index: int, line: Line, constraints: seq<int>, score: int)

  /** A job as the driver makes it: a line of the puzzle with the line's
      length, its clues and its score. */
  predicate JobOk(p: Puzzle, y: Job) {
    && ValidIndex(p, y.ltype, y.index)
    && y.constraints == Clues(p, y.ltype, y.index)
    && y.score == Score(p, y.ltype, y.index)
    && |y.line| == LineLength(p, y.ltype)
  }

  /** The job literal of initJobs and updateJobs, over board b. */
  function MakeJob(b: Board, p: Puzzle, lt: LineType, index: int): (y: Job)
    requires Shaped(p, b) && ValidIndex(p, lt, index)
    ensures JobOk(p, y) && y.ltype == lt && y.index == index
  {
    Job(lt, index, GetLine(b, p, lt, index), Clues(p, lt, index), Score(p, lt, index))
  }

  /** Some job of the list is for line `index` of type lt. */
  predicate HasJob(jobs: seq<Job>, lt: LineType, index: int) {
    exists y :: y in jobs && y.ltype == lt && y.index == index
  }

  /** No line has two jobs in the list. */
  predicate UniqueKeys(jobs: seq<Job>) {
    forall k, l :: 0 <= k < l < |jobs| ==> !(jobs[k].ltype == jobs[l].ltype && jobs[k].index == jobs[l].index)
  }

  // ---------------------------------------------------------------------
  // initJobs
  // ---------------------------------------------------------------------

  /** initJobs: a job for every row, in order, then one for every column,
      each over the board as it is. */
  function InitJobs(b: Board, p: Puzzle): (jobs: seq<Job>)
    requires Shaped(p, b)
    ensures |jobs| == |p.rows| + |p.cols|
    ensures forall k :: 0 <= k < |jobs| ==> JobOk(p, jobs[k]) && jobs[k].line == GetLine(b, p, jobs[k].ltype, jobs[k].index)
    ensures forall k :: 0 <= k < |p.rows| ==> jobs[k].ltype == Row && jobs[k].index == k
    ensures forall k :: |p.rows| <= k < |jobs| ==> jobs[k].ltype == Column && jobs[k].index == k - |p.rows|
  {
    seq(|p.rows|, i requires 0 <= i < |p.rows| => MakeJob(b, p, Row, i))
      + seq(|p.cols|, j requires 0 <= j < |p.cols| => MakeJob(b, p, Column, j))
  }

  /** initJobs queues every line of the puzzle exactly once. */
  lemma InitJobsCoverEveryLine(b: Board, p: Puzzle)
    requires Shaped(p, b)
    ensures UniqueKeys(InitJobs(b, p))
    ensures forall lt, index :: ValidIndex(p, lt, index) ==> HasJob(InitJobs(b, p), lt, index)
  {
    var jobs := InitJobs(b, p);
    forall lt, index | ValidIndex(p, lt, index) ensures HasJob(jobs, lt, index) {
      var k := if lt == Row then index else |p.rows| + index;
      assert jobs[k] in jobs;
      assert jobs[k].ltype == lt && jobs[k].index == index;
    }
  }

  /** The column jobs of initJobs from column j on, with getLine and score
      as written: the first column read that runs out of range panics. */
  function ColumnJobsAsWritten(b: Board, p: Puzzle, j: nat): (r: Outcome<seq<Job>>)
    requires Shaped(p, b) && j <= |p.cols|
    ensures r.Ok? || r.Panic?
    ensures r.Panic? <==> j < |p.cols| && |p.rows| > |p.cols|
    ensures r.Ok? ==> |r.value| == |p.cols| - j
    decreases |p.cols| - j
  {
    if j == |p.cols| then Ok([])
    else
      var line :- GetLineAsWritten(b, p, Column, j);
      match ColumnJobsAsWritten(b, p, j + 1)
      case Ok(rest) => Ok([Job(Column, j, line, Clues(p, Column, j), ScoreAsWritten(p, Column, j))] + rest)
      case _ => Panic
  }

  /** initJobs with getLine and score as written. It panics exactly on a
      puzzle with a column and more rows than columns, and otherwise queues
      a job for every line. */
  function InitJobsAsWritten(b: Board, p: Puzzle): (r: Outcome<seq<Job>>)
    requires Shaped(p, b)
    ensures r.Ok? || r.Panic?
    ensures r.Panic? <==> |p.cols| > 0 && |p.rows| > |p.cols|
    ensures r.Ok? ==> |r.value| == |p.rows| + |p.cols|
  {
    var rows := seq(|p.rows|, i requires 0 <= i < |p.rows| => Job(Row, i, b[i], Clues(p, Row, i), ScoreAsWritten(p, Row, i)));
    var cols :- ColumnJobsAsWritten(b, p, 0);
    Ok(rows + cols)
  }

  /** On a square puzzle the written column jobs are those of InitJobs. */
  lemma {:induction false} ColumnJobsOnSquare(b: Board, p: Puzzle, j: nat)
    requires Shaped(p, b) && |p.rows| == |p.cols| && j <= |p.cols|
    ensures ColumnJobsAsWritten(b, p, j) == Ok(InitJobs(b, p)[|p.rows| + j..])
    decreases |p.cols| - j
  {
    var jobs := InitJobs(b, p);
    if j < |p.cols| {
      ColumnJobsOnSquare(b, p, j + 1);
      GetLineAsWrittenOnSquare(b, p, Column, j);
      ScoreAsWrittenOnSquare(p, Column, j);
      assert jobs[|p.rows| + j..] == [jobs[|p.rows| + j]] + jobs[|p.rows| + j + 1..];
    }
  }

  /** On a square puzzle initJobs as written is InitJobs. */
  lemma InitJobsAsWrittenOnSquare(b: Board, p: Puzzle)
    requires Shaped(p, b) && |p.rows| == |p.cols|
    ensures InitJobsAsWritten(b, p) == Ok(InitJobs(b, p))
  {
    var jobs := InitJobs(b, p);
    var rows := seq(|p.rows|, i requires 0 <= i < |p.rows| => Job(Row, i, b[i], Clues(p, Row, i), ScoreAsWritten(p, Row, i)));
    ColumnJobsOnSquare(b, p, 0);
    forall i | 0 <= i < |p.rows| ensures rows[i] == jobs[i] {
      ScoreAsWrittenOnSquare(p, Row, i);
    }
    assert rows == jobs[..|p.rows|];
    assert jobs == jobs[..|p.rows|] + jobs[|p.rows|..];
  }

  // ---------------------------------------------------------------------
  // updateJobs
  // ---------------------------------------------------------------------

  /** A job updateJobs appends at or after cell `from`: for a crossing line
      whose cell changed and that had no job in `jobs`. */
  predicate Appended(y: Job, jobs: seq<Job>, b: Board, p: Puzzle, lt: LineType, oldLine: Line, newLine: Line, from: int)
    requires Shaped(p, b) && |oldLine| == |newLine|
  {
    && from <= y.index < |newLine|
    && ValidIndex(p, Other(lt), y.index)
    && y == MakeJob(b, p, Other(lt), y.index)
    && newLine[y.index] != oldLine[y.index]
    && !HasJob(jobs, Other(lt), y.index)
  }

  /** The loop of updateJobs from cell i on. The score refresh of line 152
      assigns to the loop's copy of the job, so existing jobs stay as they
      are: the list only grows, by at most one job per remaining cell. */
  function UpdateFrom(jobs: seq<Job>, b: Board, p: Puzzle, lt: LineType, oldLine: Line, newLine: Line, i: nat): (r: seq<Job>)
    requires Shaped(p, b) && |oldLine| == LineLength(p, lt) && |newLine| == LineLength(p, lt) && i <= |newLine|
    ensures |jobs| <= |r| <= |jobs| + (|newLine| - i) && r[..|jobs|] == jobs
    decreases |newLine| - i
  {
    if i == |newLine| then jobs
    else
      var add := newLine[i] != oldLine[i] && !HasJob(jobs, Other(lt), i);
      var next := if add then jobs + [MakeJob(b, p, Other(lt), i)] else jobs;
      var r := UpdateFrom(next, b, p, lt, oldLine, newLine, i + 1);
      assert r[..|jobs|] == r[..|next|][..|jobs|];
      r
  }

  /** A list with prefix a holds every job of a. */
  lemma PrefixMembers(a: seq<Job>, r: seq<Job>)
    requires |a| <= |r| && r[..|a|] == a
    ensures forall y :: y in a ==> y in r
  {
    forall y | y in a ensures y in r {
      var k :| 0 <= k < |a| && a[k] == y;
      assert r[k] == y;
    }
  }

  /** A job appended after cell i + 1 to a list that extends jobs was
      appended after cell i to jobs. */
  lemma AppendedEarlier(y: Job, next: seq<Job>, jobs: seq<Job>, b: Board, p: Puzzle, lt: LineType, oldLine: Line, newLine: Line, i: int)
    requires Shaped(p, b) && |oldLine| == |newLine|
    requires forall z :: z in jobs ==> z in next
    requires Appended(y, next, b, p, lt, oldLine, newLine, i + 1)
    ensures Appended(y, jobs, b, p, lt, oldLine, newLine, i)
  {
  }

  /** The job appended for cell i. */
  lemma AppendedHere(jobs: seq<Job>, b: Board, p: Puzzle, lt: LineType, oldLine: Line, newLine: Line, i: nat)
    requires Shaped(p, b) && |oldLine| == LineLength(p, lt) && |newLine| == LineLength(p, lt) && i < |newLine|
    requires newLine[i] != oldLine[i] && !HasJob(jobs, Other(lt), i)
    ensures Appended(MakeJob(b, p, Other(lt), i), jobs, b, p, lt, oldLine, newLine, i)
  {
  }

  /** Every job the loop appends is the crossing line of a changed cell
      that had no job: the job at position k of the result. */
  lemma {:induction false} UpdateFromAppendsAt(jobs: seq<Job>, b: Board, p: Puzzle, lt: LineType, oldLine: Line, newLine: Line, i: nat, r: seq<Job>, k: int)
    requires Shaped(p, b) && |oldLine| == LineLength(p, lt) && |newLine| == LineLength(p, lt) && i <= |newLine|
    requires r == UpdateFrom(jobs, b, p, lt, oldLine, newLine, i)
    requires |jobs| <= k < |r|
    ensures Appended(r[k], jobs, b, p, lt, oldLine, newLine, i)
    decreases |newLine| - i
  {
    var add := newLine[i] != oldLine[i] && !HasJob(jobs, Other(lt), i);
    var next := if add then jobs + [MakeJob(b, p, Other(lt), i)] else jobs;
    assert r == UpdateFrom(next, b, p, lt, oldLine, newLine, i + 1);
    if k < |next| {
      assert r[k] == r[..|next|][k] == next[k];
      AppendedHere(jobs, b, p, lt, oldLine, newLine, i);
    } else {
      UpdateFromAppendsAt(next, b, p, lt, oldLine, newLine, i + 1, r, k);
      PrefixMembers(jobs, next);
      AppendedEarlier(r[k], next, jobs, b, p, lt, oldLine, newLine, i);
    }
  }

  lemma UpdateFromAppends(jobs: seq<Job>, b: Board, p: Puzzle, lt: LineType, oldLine: Line, newLine: Line, i: nat)
    requires Shaped(p, b) && |oldLine| == LineLength(p, lt) && |newLine| == LineLength(p, lt) && i <= |newLine|
    ensures forall k :: |jobs| <= k < |UpdateFrom(jobs, b, p, lt, oldLine, newLine, i)| ==>
      Appended(UpdateFrom(jobs, b, p, lt, oldLine, newLine, i)[k], jobs, b, p, lt, oldLine, newLine, i)
  {
    var r := UpdateFrom(jobs, b, p, lt, oldLine, newLine, i);
    forall k | |jobs| <= k < |r| ensures Appended(r[k], jobs, b, p, lt, oldLine, newLine, i) {
      UpdateFromAppendsAt(jobs, b, p, lt, oldLine, newLine, i, r, k);
    }
  }

  /** Every changed cell from i on ends with a job for its crossing line. */
  lemma {:induction false} UpdateFromCovers(jobs: seq<Job>, b: Board, p: Puzzle, lt: LineType, oldLine: Line, newLine: Line, i: nat)
    requires Shaped(p, b) && |oldLine| == LineLength(p, lt) && |newLine| == LineLength(p, lt) && i <= |newLine|
    ensures var r := UpdateFrom(jobs, b, p, lt, oldLine, newLine, i);
      forall x :: i <= x < |newLine| && newLine[x] != oldLine[x] ==> HasJob(r, Other(lt), x)
    decreases |newLine| - i
  {
    if i < |newLine| {
      var add := newLine[i] != oldLine[i] && !HasJob(jobs, Other(lt), i);
      var next := if add then jobs + [MakeJob(b, p, Other(lt), i)] else jobs;
      var r := UpdateFrom(next, b, p, lt, oldLine, newLine, i + 1);
      assert r == UpdateFrom(jobs, b, p, lt, oldLine, newLine, i);
      UpdateFromCovers(next, b, p, lt, oldLine, newLine, i + 1);
      PrefixMembers(jobs, next);
      PrefixMembers(next, r);
      if add {
        assert next[|jobs|] in next;
      }
    }
  }

  /** The loop never queues a line twice. */
  lemma {:induction false} UpdateFromUnique(jobs: seq<Job>, b: Board, p: Puzzle, lt: LineType, oldLine: Line, newLine: Line, i: nat)
    requires Shaped(p, b) && |oldLine| == LineLength(p, lt) && |newLine| == LineLength(p, lt) && i <= |newLine|
    requires UniqueKeys(jobs)
    ensures UniqueKeys(UpdateFrom(jobs, b, p, lt, oldLine, newLine, i))
    decreases |newLine| - i
  {
    if i < |newLine| {
      var add := newLine[i] != oldLine[i] && !HasJob(jobs, Other(lt), i);
      var next := if add then jobs + [MakeJob(b, p, Other(lt), i)] else jobs;
      assert UpdateFrom(next, b, p, lt, oldLine, newLine, i + 1) == UpdateFrom(jobs, b, p, lt, oldLine, newLine, i);
      if add {
        forall k, l | 0 <= k < l < |next|
          ensures !(next[k].ltype == next[l].ltype && next[k].index == next[l].index)
        {
          if l == |jobs| {
            assert next[k] == jobs[k] && jobs[k] in jobs;
          }
        }
      }
      UpdateFromUnique(next, b, p, lt, oldLine, newLine, i + 1);
    }
  }

  /** updateJobs: queues the crossing line of every changed cell that has
      no job yet, built over the board as it now is; nothing else changes. */
  function UpdateJobs(jobs: seq<Job>, b: Board, p: Puzzle, lt: LineType, oldLine: Line, newLine: Line): (r: seq<Job>)
    requires Shaped(p, b) && |oldLine| == LineLength(p, lt) && |newLine| == LineLength(p, lt)
    ensures |jobs| <= |r| <= |jobs| + |newLine| && r[..|jobs|] == jobs
    ensures forall k :: |jobs| <= k < |r| ==> Appended(r[k], jobs, b, p, lt, oldLine, newLine, 0)
    ensures forall x :: 0 <= x < |newLine| && newLine[x] != oldLine[x] ==> HasJob(r, Other(lt), x)
    ensures UniqueKeys(jobs) ==> UniqueKeys(r)
  {
    UpdateFromAppends(jobs, b, p, lt, oldLine, newLine, 0);
    UpdateFromCovers(jobs, b, p, lt, oldLine, newLine, 0);
    if UniqueKeys(jobs) then
      UpdateFromUnique(jobs, b, p, lt, oldLine, newLine, 0);
      UpdateFrom(jobs, b, p, lt, oldLine, newLine, 0)
    else
      UpdateFrom(jobs, b, p, lt, oldLine, newLine, 0)
  }

  // ---------------------------------------------------------------------
  // The sort order: Less compares scores; the list is kept ascending, so
  // popping from the end takes a job of the highest score.
  // ---------------------------------------------------------------------

  predicate Sorted(jobs: seq<Job>) {
    forall k, l :: 0 <= k < l < |jobs| ==> jobs[k].score <= jobs[l].score
  }

  /** Puts x into the list s, after the jobs of no higher score. */
  function Insert(x: Job, s: seq<Job>): (r: seq<Job>)
    ensures |r| == |s| + 1 && multiset(r) == multiset(s) + multiset{x}
  {
    if s == [] || x.score <= s[0].score then [x] + s
    else
      assert s == [s[0]] + s[1..];
      [s[0]] + Insert(x, s[1..])
  }

  /** Insert keeps a lower bound that x and every job of s respect. */
  lemma {:induction false} InsertAbove(x: Job, s: seq<Job>, v: int)
    requires v <= x.score && forall k :: 0 <= k < |s| ==> v <= s[k].score
    ensures forall k :: 0 <= k < |Insert(x, s)| ==> v <= Insert(x, s)[k].score
  {
    if s != [] && x.score > s[0].score {
      InsertAbove(x, s[1..], v);
    }
  }

  lemma {:induction false} InsertSorted(x: Job, s: seq<Job>)
    requires Sorted(s)
    ensures Sorted(Insert(x, s))
  {
    if s != [] && x.score > s[0].score {
      var t := Insert(x, s[1..]);
      InsertSorted(x, s[1..]);
      InsertAbove(x, s[1..], s[0].score);
      assert Insert(x, s) == [s[0]] + t;
    }
  }

  /** A job whose line has no job in a list of unique lines can go in
      front of it. */
  lemma ConsUnique(a: Job, t: seq<Job>)
    requires UniqueKeys(t) && !HasJob(t, a.ltype, a.index)
    ensures UniqueKeys([a] + t)
  {
    var u := [a] + t;
    forall k, l | 0 <= k < l < |u| ensures !(u[k].ltype == u[l].ltype && u[k].index == u[l].index) {
      assert u[l] == t[l - 1];
      if k == 0 {
        assert t[l - 1] in t;
      } else {
        assert u[k] == t[k - 1];
      }
    }
  }

  lemma {:induction false} InsertUnique(x: Job, s: seq<Job>)
    requires UniqueKeys(s) && !HasJob(s, x.ltype, x.index)
    ensures UniqueKeys(Insert(x, s))
  {
    if s == [] || x.score <= s[0].score {
      ConsUnique(x, s);
    } else {
      assert s == [s[0]] + s[1..];
      PrefixTail(s);
      InsertUnique(x, s[1..]);
      var t := Insert(x, s[1..]);
      forall y | y in t ensures !(y.ltype == s[0].ltype && y.index == s[0].index) {
        assert y in multiset(t);
        if y != x {
          assert y in multiset(s[1..]);
          var m :| 0 <= m < |s[1..]| && s[1..][m] == y;
          assert s[m + 1] == y;
        } else {
          assert s[0] in s;
        }
      }
      ConsUnique(s[0], t);
    }
  }

  /** The tail of a list keeps its members and its uniqueness. */
  lemma PrefixTail(s: seq<Job>)
    requires |s| > 0
    ensures forall y :: y in s[1..] ==> y in s
    ensures UniqueKeys(s) ==> UniqueKeys(s[1..])
  {
    assert s == [s[0]] + s[1..];
  }

  /** sort.Sort(t.jobs) by insertion: a permutation of the list. */
  function InsertionSort(s: seq<Job>): (r: seq<Job>)
    ensures |r| == |s| && multiset(r) == multiset(s)
  {
    if s == [] then []
    else
      assert s == [s[0]] + s[1..];
      Insert(s[0], InsertionSort(s[1..]))
  }

  lemma {:induction false} InsertionSortSorted(s: seq<Job>)
    ensures Sorted(InsertionSort(s))
  {
    if s != [] {
      InsertionSortSorted(s[1..]);
      InsertSorted(s[0], InsertionSort(s[1..]));
    }
  }

  lemma {:induction false} InsertionSortUnique(s: seq<Job>)
    requires UniqueKeys(s)
    ensures UniqueKeys(InsertionSort(s))
  {
    if s != [] {
      assert s == [s[0]] + s[1..];
      PrefixTail(s);
      InsertionSortUnique(s[1..]);
      var t := InsertionSort(s[1..]);
      forall y | y in t ensures !(y.ltype == s[0].ltype && y.index == s[0].index) {
        assert y in multiset(t);
        assert y in multiset(s[1..]);
        var k :| 0 <= k < |s[1..]| && s[1..][k] == y;
        assert s[k + 1] == y;
      }
      InsertUnique(s[0], t);
    }
  }

  /** sort.Sort(t.jobs): the same jobs, ascending by score, still one per
      line. Go leaves the order of jobs of equal score unspecified; the
      model keeps them in list order. */
  function SortByScore(s: seq<Job>): (r: seq<Job>)
    ensures |r| == |s| && multiset(r) == multiset(s)
    ensures Sorted(r)
    ensures UniqueKeys(s) ==> UniqueKeys(r)
  {
    InsertionSortSorted(s);
    if UniqueKeys(s) then
      InsertionSortUnique(s);
      InsertionSort(s)
    else
      InsertionSort(s)
  }

  // ---------------------------------------------------------------------
  // The solver state, one job, and logicSolve.
  // ---------------------------------------------------------------------

  /** The TreeSolver struct. */
  datatype Tree = Tree(puzzle: Puzzle, board: Board, jobs: seq<Job>, activeJobs: int, guessCount: int)

  /** What every step keeps: the board has the puzzle's shape, every job
      is a well-made job of the puzzle, and no line is queued twice. */
  predicate Consistent(t: Tree) {
    && Shaped(t.puzzle, t.board)
    && (forall y :: y in t.jobs ==> JobOk(t.puzzle, y))
    && UniqueKeys(t.jobs)
  }

  /** The fields the driver never writes. */
  predicate SameSetup(t: Tree, u: Tree) {
    u.puzzle == t.puzzle && u.activeJobs == t.activeJobs && u.guessCount == t.guessCount
  }

  /** NewTreeSolver: an empty board of the puzzle's shape and a job for
      every line. */
  function NewTreeSolver(p: Puzzle): (t: Tree)
    ensures Consistent(t) && t.puzzle == p && t.guessCount == 0
    ensures |t.jobs| == t.activeJobs == |p.rows| + |p.cols|
    ensures forall i, j :: 0 <= i < |p.rows| && 0 <= j < |p.cols| ==> t.board[i][j] == Empty
  {
    var b := NewBoard(|p.rows|, |p.cols|);
    InitJobsCoverEveryLine(b, p);
    Tree(p, b, InitJobs(b, p), |p.rows| + |p.cols|, 0)
  }

  /** NewTreeSolver with initJobs as written: it panics exactly when the
      puzzle has a column and more rows than columns. */
  function NewTreeSolverAsWritten(p: Puzzle): (r: Outcome<Tree>)
    ensures r.Ok? || r.Panic?
    ensures r.Panic? <==> |p.cols| > 0 && |p.rows| > |p.cols|
    ensures r.Ok? ==> r.value.puzzle == p && r.value.activeJobs == |r.value.jobs| == |p.rows| + |p.cols|
  {
    var b := NewBoard(|p.rows|, |p.cols|);
    var jobs :- InitJobsAsWritten(b, p);
    Ok(Tree(p, b, jobs, |p.rows| + |p.cols|, 0))
  }

  /** On a square puzzle it is NewTreeSolver. */
  lemma NewTreeSolverAsWrittenOnSquare(p: Puzzle)
    requires |p.rows| == |p.cols|
    ensures NewTreeSolverAsWritten(p) == Ok(NewTreeSolver(p))
  {
    InitJobsAsWrittenOnSquare(NewBoard(|p.rows|, |p.cols|), p);
  }

  /** The 2 x 1 puzzle: the written constructor panics. */
  lemma NewTreeSolverAsWrittenPanics()
    ensures NewTreeSolverAsWritten(Puzzle("", [[1], [1]], [[2]])) == Panic
  {
  }

  /** The line rule the driver runs: intersect as the source has it, or
      the reference rule that keeps known cells and fails only on lines
      without a solution. */
  datatype LineRule = AsWritten | Corrected

  function ApplyRule(rule: LineRule, sweepFuel: nat, c: seq<int>, line: Line): (r: Outcome<LineSolver.Solved>)
    ensures r.Ok? ==> |r.value.result| == |line|
  {
    if rule == AsWritten then LineSolver.SolveLine(sweepFuel, c, line)
    else Ok(Reference.Deduce(c, line))
  }

  /** The line a popped job works on: for a row, the board's row as it now
      is; for a column, the copy taken when the job was queued. */
  function CurrentLine(b: Board, p: Puzzle, y: Job): (line: Line)
    requires Shaped(p, b) && JobOk(p, y)
    ensures |line| == LineLength(p, y.ltype)
  {
    if y.ltype == Row then b[y.index] else y.line
  }

  /** The outcome of one turn of the loop: the state after it, and false
      when the line solver found a contradiction. */
  datatype Turn = Turn(tree: Tree, ok: bool)

  /** The write-back of a changed line: setLine, updateJobs over the new
      board, then the sort. */
  function WriteBack(t: Tree, y: Job, rest: seq<Job>, line: Line, result: Line): (u: Tree)
    requires Shaped(t.puzzle, t.board) && JobOk(t.puzzle, y)
    requires (forall z :: z in rest ==> JobOk(t.puzzle, z)) && UniqueKeys(rest)
    requires |line| == LineLength(t.puzzle, y.ltype) && |result| == LineLength(t.puzzle, y.ltype)
    ensures Consistent(u) && SameSetup(t, u) && Sorted(u.jobs)
    ensures u.board == SetLine(t.board, t.puzzle, y.ltype, y.index, result)
  {
    var board := SetLine(t.board, t.puzzle, y.ltype, y.index, result);
    var jobs := UpdateJobs(rest, board, t.puzzle, y.ltype, line, result);
    assert forall z :: z in jobs ==> JobOk(t.puzzle, z) by {
      forall z | z in jobs ensures JobOk(t.puzzle, z) {
        var k :| 0 <= k < |jobs| && jobs[k] == z;
        if k < |rest| {
          assert jobs[..|rest|][k] == rest[k];
          assert rest[k] in rest;
        }
      }
    }
    var sorted := SortByScore(jobs);
    assert forall z :: z in sorted ==> z in jobs by {
      forall z | z in sorted ensures z in jobs {
        assert z in multiset(sorted);
      }
    }
    t.(board := board, jobs := sorted)
  }

  /** One turn of logicSolve's loop: pop the last job and solve its line;
      stop on a contradiction; write a changed line back, queue the
      crossing lines it changed and re-sort the list. */
  function Execute(rule: LineRule, sweepFuel: nat, t: Tree): (r: Outcome<Turn>)
    requires Consistent(t) && |t.jobs| > 0
    ensures r.Ok? ==> Consistent(r.value.tree) && SameSetup(t, r.value.tree)
    ensures r.Ok? && !r.value.ok ==> r.value.tree == t.(jobs := t.jobs[..|t.jobs| - 1])
    ensures r.Ok? && r.value.tree.jobs != t.jobs[..|t.jobs| - 1] ==> Sorted(r.value.tree.jobs)
    ensures r.Ok? ==> forall i, j ::
      (0 <= i < |t.puzzle.rows| && 0 <= j < |t.puzzle.cols| && !OnLine(t.jobs[|t.jobs| - 1].ltype, t.jobs[|t.jobs| - 1].index, i, j))
      ==> r.value.tree.board[i][j] == t.board[i][j]
  {
    var y := t.jobs[|t.jobs| - 1];
    var rest := t.jobs[..|t.jobs| - 1];
    assert y in t.jobs;
    assert forall z :: z in rest ==> z in t.jobs;
    var line := CurrentLine(t.board, t.puzzle, y);
    var solved :- ApplyRule(rule, sweepFuel, y.constraints, line);
    if !solved.ok then Ok(Turn(t.(jobs := rest), false))
    else if solved.result == line then Ok(Turn(t.(jobs := rest), true))
    else Ok(Turn(WriteBack(t, y, rest, line, solved.result), true))
  }

  /** What logicSolve returns: the solver afterwards, emptyCells and ok. */
  datatype Logic = Logic(tree: Tree, emptyCells: int, ok: bool)

  /** The loop of logicSolve, `for len(t.jobs) > 0`: its guard. */
  function Propagate(rule: LineRule, sweepFuel: nat, fuel: nat, t: Tree): (r: Outcome<Logic>)
    requires Consistent(t)
    ensures r.Ok? ==> Consistent(r.value.tree) && SameSetup(t, r.value.tree)
    ensures r.Ok? && r.value.ok ==> r.value.tree.jobs == [] && r.value.emptyCells == EmptyCells(r.value.tree.board)
    ensures r.Ok? && !r.value.ok ==> r.value.emptyCells == 0
    decreases fuel, 2
  {
    if |t.jobs| == 0 then Ok(Logic(t, EmptyCells(t.board), true))
    else Continue(rule, sweepFuel, fuel, t)
  }

  /** The model's bound on the loop: at most `fuel` more turns. */
  function Continue(rule: LineRule, sweepFuel: nat, fuel: nat, t: Tree): (r: Outcome<Logic>)
    requires Consistent(t) && |t.jobs| > 0
    ensures r.Ok? ==> Consistent(r.value.tree) && SameSetup(t, r.value.tree)
    ensures r.Ok? && r.value.ok ==> r.value.tree.jobs == [] && r.value.emptyCells == EmptyCells(r.value.tree.board)
    ensures r.Ok? && !r.value.ok ==> r.value.emptyCells == 0
    decreases fuel, 1
  {
    if fuel == 0 then OutOfFuel else TakeTurn(rule, sweepFuel, fuel, t)
  }

  /** The body of the loop: one turn, then the rest of the loop, unless the
      turn found a contradiction. */
  function TakeTurn(rule: LineRule, sweepFuel: nat, fuel: nat, t: Tree): (r: Outcome<Logic>)
    requires Consistent(t) && |t.jobs| > 0 && fuel > 0
    ensures r.Ok? ==> Consistent(r.value.tree) && SameSetup(t, r.value.tree)
    ensures r.Ok? && r.value.ok ==> r.value.tree.jobs == [] && r.value.emptyCells == EmptyCells(r.value.tree.board)
    ensures r.Ok? && !r.value.ok ==> r.value.emptyCells == 0
    decreases fuel, 0
  {
    var turn :- Execute(rule, sweepFuel, t);
    if !turn.ok then Ok(Logic(turn.tree, 0, false))
    else Propagate(rule, sweepFuel, fuel - 1, turn.tree)
  }

  /** logicSolve: (re)build the job list when it is empty, then run the
      loop. On success every job is done and the count of unknown cells is
      at most rows x columns. */
  function LogicSolve(rule: LineRule, sweepFuel: nat, fuel: nat, t: Tree): (r: Outcome<Logic>)
    requires Consistent(t)
    ensures r.Ok? ==> Consistent(r.value.tree) && SameSetup(t, r.value.tree)
    ensures r.Ok? && r.value.ok ==> r.value.tree.jobs == [] && r.value.emptyCells == EmptyCells(r.value.tree.board)
    ensures r.Ok? && r.value.ok ==> 0 <= r.value.emptyCells <= |t.puzzle.rows| * |t.puzzle.cols|
    ensures r.Ok? && !r.value.ok ==> r.value.emptyCells == 0
  {
    var start := if |t.jobs| == 0 then t.(jobs := InitJobs(t.board, t.puzzle)) else t;
    InitJobsCoverEveryLine(t.board, t.puzzle);
    var r := Propagate(rule, sweepFuel, fuel, start);
    if r.Ok? then
      EmptyCellsBound(r.value.tree.board, |t.puzzle.rows|, |t.puzzle.cols|);
      r
    else r
  }

  /** Solve: logicSolve, whose results are dropped, and then the board;
      there is no guessing, so GuessCount stays as it was. */
  function Solve(rule: LineRule, sweepFuel: nat, fuel: nat, t: Tree): (r: Outcome<Tree>)
    requires Consistent(t)
    ensures r.Ok? ==> Shaped(t.puzzle, r.value.board) && SameSetup(t, r.value)
  {
    var l :- LogicSolve(rule, sweepFuel, fuel, t);
    Ok(l.tree)
  }
}
