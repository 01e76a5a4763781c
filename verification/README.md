# A Dafny model of the gongram nonogram line solver and its propagation driver

gongram solves nonograms. A puzzle gives, for every row and every column, the
lengths of the blocks of full cells in it. The core is made of two parts.

**The line solver.** It takes the clue of one line and the cells known so far
(each `empty`, `full` or `marked`). It deduces every cell it can.

- Two sweeps run the same seven-state machine (`halt`, `newblock`,
  `placeblock`, `finalspace`, `checkrest`, `backtrack`, `advanceblock`). One
  packs the blocks to the left and reports their starts; the other packs them
  to the right and reports their ends.
- `intersect` then walks the line once. A cell becomes full where both
  placements put the same block on it. It becomes marked where both leave it
  in the same gap.

The line solver exists twice:

- `FastLineSolver` in `solver/linesolver.go`, written once with
  direction helpers.
- The hand-written `LeftSolve`/`RightSolve`/`Intersect` in the root
  `linesolver.go`.

**The tree solver (`solver/treesolver.go`).** It keeps a list of line jobs,
each with a score.

- It pops the last job of the list and solves its line. At first the list is
  in `initJobs` order (rows, then columns), so the last column goes first.
- It writes a changed line back to the board.
- It queues the crossing lines whose cells changed, and sorts the list
  ascending by score. From then on the job popped has the highest score.
- It stops when no job is left or when a line has no solution.

The model is functional.

- Cells, lines (`seq<Cell>`) and boards (`seq<seq<Cell>>`) are values.
- The sweep is one direction-parameterised machine (`Sweep`), written after
  `FastLineSolver`. Its `Version` parameter selects the right branch of
  `moveBlockForward`, the one place where the two texts' sweeps differ.
- The root `LeftSolve` and `RightSolve` are also transcribed on their own,
  with their Go locals (`RootSweep`). `RootSweepProof` proves, pass by pass,
  that each returns what the machine returns on every input.
- Each state method is a function that returns the next machine. Its inner
  loops are recursive functions.
- A Go index out of range is the outcome `Panic`.
- `solve`'s outer loop and `logicSolve`'s loop have no evident bound, so
  they take fuel. Running out is the outcome `OutOfFuel`.
- The tree solver is a state transformer over `Tree` (board, job list,
  counters).

Properties are stated against independent reference definitions:

- `Placement.Fits`: what a valid placement of the blocks is.
- `LineSolver.Overlap`: what the walk is meant to deduce from two
  placements.
- `Reference.Deduce`: the deduction `intersect` promises, obtained by
  enumerating every solution of the line.

The tree solver is parameterised by its line rule (`TreeSolver.LineRule`):

- `AsWritten` runs `SolveLine`.
- `Corrected` runs `Reference.Deduce`.

The driver reads lines with the intended `getLine` and scores them with the
intended `score` (`BoardLines.GetLine`, `BoardLines.Score`). As written, both
go wrong on puzzles that are not square (see Findings). They agree with the
intended ones on square puzzles. `TreeSolver.InitJobsAsWritten` and
`TreeSolver.NewTreeSolverAsWritten` model the written front end, which
panics on a puzzle with more rows than columns.

With the corrected rule and the intended helpers, `TreeSound` proves that
the driver never reports a contradiction on a puzzle that has a solution.
It also proves that every cell the driver decides is the solution's.

Go aliasing is modelled where it matters:

- A row job's `line` is the board's own row slice (`getLine` returns
  `t.board[index]`). Column writes update it in place, and a row write
  replaces the slice only when that row's job is popped. So a popped row job
  sees the board's current row.
- A column job holds a copy taken when it was queued, so it may be stale.

`TreeSolver.CurrentLine` states this. The invariant that no line is queued
twice (`TreeSolver.UniqueKeys`) is what makes it exact.

## Model

| member | source | states |
|---|---|---|
| Cells.Code | solver/solver.go:43-47 | The enum's integers: each cell's code is 0, 1 or 2, and it is 0 (the zero value) exactly for `empty` |
| Cells.CodeRoundTrip | solver.go:12-16 | Decoding a cell's code gives the cell back, so the root package's enum, declared in the same iota order, has the same three distinct codes |
| Cells.FromCode | solver/solver.go:43-47 | An integer names a cell exactly when it is 0, 1 or 2 |
| Cells.CodesDistinct | solver/solver.go:43-47 | Distinct cells have distinct codes |
| Cells.Cells | solver/linesolver_test.go:9-10 | A line written with raw integers, as the tests write it, translates to cells with exactly those codes, and fails only on an integer outside the enum |
| Cells.NewBoard | solver/solver.go:50-57 | `rows` rows of `columns` cells each, every cell `empty` |
| Cells.RenderRowNewlines | solver/solver.go:21-30 | The glyphs of a row contain no newline: a row is written on one text line |
| Cells.RenderNewlines | solver/solver.go:15-34 | `String` writes one newline per row of the board |
| Cells.RenderRowLength | solver/solver.go:21-30 | `String` writes every cell as three characters |
| Cells.RenderRowRoundTrip | solver/solver.go:21-30 | The three glyphs can be told apart: the text of a row reads back as that row |
| Cells.RenderLength | solver/solver.go:15-34 | The text of a rows x cols board has rows * (3 * cols + 3) characters |
| Cells.RenderRowAt | solver/solver.go:18-32 | Row i's framed text, bar, glyphs, bar and newline, stands at offset i * (3 * cols + 3) |
| Cells.RenderAppend | solver/solver.go:18-32 | The text of two boards stacked one above the other is the first board's text followed by the second's: rows are written top to bottom, each on its own |
| Cells.RenderReadBack | solver/solver.go:15-34 | Every row of the board can be read back from the board's text |
| Puzzles.PuzzleBoard | solver.go:18-26 | The root `NewBoard(p)`: len(Rows) rows of len(Cols) cells, all `empty` |
| Puzzles.PuzzleBoardIsNewBoard | solver.go:18-26 | The root constructor builds the same board as `NewBoard(len(Rows), len(Cols))` of solver/solver.go |
| Sweep.Backward | solver/linesolver.go:397-409 | `previousBlock` undoes the next-step helpers (`nextIndex`, `nextBlock`, `nextBlockPosition`), in both directions |
| Sweep.NewLeftLineSolver | solver/linesolver.go:124-137 | A left machine in `newblock` at block 0, no contradiction, one position and one coverage entry per constraint |
| Sweep.NewRightLineSolver | solver/linesolver.go:139-152 | A right machine in `newblock` at the last block, no contradiction, one entry per constraint |
| Sweep.NewBlockStep | solver/linesolver.go:181-203 | `newBlock` keeps the slices' lengths and the problem, and a contradiction it finds halts the machine |
| Sweep.SkipMarked | solver/linesolver.go:206-223 | The marked-cell loop of `placeBlock` keeps the slices and the problem, halting on a contradiction |
| Sweep.FillBlock | solver/linesolver.go:225-249 | The extension loop of `placeBlock`, likewise |
| Sweep.ExtendBlock | solver/linesolver.go:243-247 | One pass of that loop moves the index one step forward and leaves the positions alone |
| Sweep.PlaceBlockStep | solver/linesolver.go:205-250 | `placeBlock` keeps the slices and the problem, halting on a contradiction |
| Sweep.ShiftPastFull | solver/linesolver.go:253-266 | The loop of `finalSpace`, likewise |
| Sweep.ShiftBlock | solver/linesolver.go:259-265 | One pass of that loop moves the index one step forward |
| Sweep.AfterBlock | solver/linesolver.go:268-282 | The tail of `finalSpace`, likewise |
| Sweep.FinalSpaceStep | solver/linesolver.go:252-283 | `finalSpace`, likewise |
| Sweep.CheckRestStep | solver/linesolver.go:285-297 | `checkRest`, likewise |
| Sweep.BacktrackStep | solver/linesolver.go:299-308 | `backtrack`, likewise |
| Sweep.Slide | solver/linesolver.go:311-341 | The loop of `advanceBlock`, likewise |
| Sweep.AdvanceBlockStep | solver/linesolver.go:310-343 | `advanceBlock`, likewise |
| Sweep.Step | solver/linesolver.go:158-173 | One pass of `solve`'s loop keeps the slices and the problem, and a pass that raises `contradiction` leaves the machine in `halt` |
| Sweep.Run | solver/linesolver.go:157-179 | Once the machine halts, `solve` returns nil after a contradiction and the positions otherwise; a returned vector has one entry per constraint, never a partial one |
| LeftSweepProof.NewBlockKeeps | solver/linesolver.go:181-203 | On a left sweep, `newBlock` never panics and keeps the sweep invariant (blocks before the current one placed validly, no full cell skipped) |
| LeftSweepProof.SkipMarkedKeeps | solver/linesolver.go:206-223 | The marked-cell loop keeps the invariant, and never panics |
| LeftSweepProof.FillBlockKeeps | solver/linesolver.go:225-249 | The extension loop keeps the invariant: no marked cell inside the block, the first full cell recorded as coverage |
| LeftSweepProof.AfterBlockKeeps | solver/linesolver.go:268-282 | The tail of `finalSpace` keeps the invariant |
| LeftSweepProof.ShiftPastFullKeeps | solver/linesolver.go:253-266 | Shifting the block over following full cells keeps the invariant |
| LeftSweepProof.ShiftBlockKeeps | solver/linesolver.go:259-265 | One shift keeps the block of full length with its coverage |
| LeftSweepProof.CheckRestKeeps | solver/linesolver.go:285-297 | `checkRest` keeps the invariant; it can panic only with an empty clue list; on `halt` every block is placed and no full cell lies after the last one |
| LeftSweepProof.BacktrackKeeps | solver/linesolver.go:299-308 | `backtrack` keeps the invariant and never panics |
| LeftSweepProof.AdvanceBlockKeeps | solver/linesolver.go:310-343 | `advanceBlock` keeps the invariant and never panics |
| LeftSweepProof.AdvanceBlockNeverSlides | solver/linesolver.go:311 | On a left sweep the loop guard `coverage < 0 && position < coverage` is never true: `advanceBlock` goes straight back to `backtrack` |
| LeftSweepProof.BacktrackFails | solver/linesolver.go:299-343 | Hence a left sweep that reaches `backtrack` always ends in `nil` (or runs out of fuel) |
| LeftSweepProof.StepKeeps | solver/linesolver.go:158-173 | Every transition of a left sweep keeps the invariant; only `checkRest` with no constraints panics |
| LeftSweepProof.RunKeeps | solver/linesolver.go:157-179 | A left sweep that returns positions returns a valid placement (`Placement.Fits`) |
| LeftSweepProof.LeftSweepSound | solver/linesolver.go:124-179 | With positive clues a left sweep never panics, and its positions fit the line: blocks inside the line, in order with gaps, on no marked cell, and every full cell covered |
| Sweep.MoveBlockForward | solver/linesolver.go:446-452 | Where `advanceblock` resumes: on a left sweep, and on a right sweep of linesolver.go, the first cell past the current block in the sweep's direction; on a right sweep of solver/linesolver.go, a cell after the block's end, which that sweep has already passed |
| Sweep.FastLeft | solver/linesolver.go:124-179 | `newLeftLineSolver(...).solve()`: a returned vector has one start per constraint |
| Sweep.FastRight | solver/linesolver.go:139-179 | `newRightLineSolver(...).solve()`: a returned vector has one end per constraint |
| RootSweep.LeftNewBlock | linesolver.go:170-190 | `case newblock` of `LeftSolve` writes `positions` only at an index in range, keeping both slices one entry per constraint |
| RootSweep.LeftSkipMarked | linesolver.go:192-209 | The marked-cell loop of `case placeblock`, likewise |
| RootSweep.LeftPlace | linesolver.go:211-233 | The extension loop of `case placeblock`, likewise |
| RootSweep.LeftShift | linesolver.go:235-250 | The loop of `case finalspace`, likewise |
| RootSweep.LeftFinal | linesolver.go:252-265 | The tail of `case finalspace`, likewise |
| RootSweep.LeftCheckRest | linesolver.go:267-278 | `case checkrest`, likewise |
| RootSweep.LeftBacktrack | linesolver.go:280-286 | `case backtrack`, likewise |
| RootSweep.LeftAdvance | linesolver.go:288-319 | `case advanceblock`, likewise |
| RootSweep.LeftPass | linesolver.go:169-320 | One pass of the `switch state`, likewise |
| RootSweep.LeftLoop | linesolver.go:167-324 | The labelled loop returns a vector with one start per constraint |
| RootSweep.LeftSolve | linesolver.go:160-325 | `LeftSolve` returns `nil` or one start per constraint |
| RootSweep.RightNewBlock | linesolver.go:336-355 | `case newblock` of `RightSolve` keeps both slices one entry per constraint |
| RootSweep.RightSkipMarked | linesolver.go:357-372 | The marked-cell loop of `case placeblock`, likewise |
| RootSweep.RightPlace | linesolver.go:374-396 | The extension loop of `case placeblock`, likewise |
| RootSweep.RightShift | linesolver.go:398-413 | The loop of `case finalspace`, likewise |
| RootSweep.RightFinal | linesolver.go:415-427 | The tail of `case finalspace`, likewise |
| RootSweep.RightCheckRest | linesolver.go:429-438 | `case checkrest`, likewise |
| RootSweep.RightBacktrack | linesolver.go:440-446 | `case backtrack`, likewise |
| RootSweep.RightAdvance | linesolver.go:448-478 | `case advanceblock`, likewise |
| RootSweep.RightPass | linesolver.go:335-479 | One pass of the `switch state`, likewise |
| RootSweep.RightLoop | linesolver.go:333-481 | The labelled loop returns a vector with one end per constraint |
| RootSweep.RightSolve | linesolver.go:327-482 | `RightSolve` returns `nil` or one end per constraint |
| RootSweepProof.LeftNewBlockAlike | linesolver.go:170-190 | From locals equal to a left machine's fields, `case newblock` ends as `newBlock` does: the same next locals, `return nil` where the machine halts with a contradiction, a panic where it panics |
| RootSweepProof.LeftSkipMarkedAlike | linesolver.go:192-209 | The marked-cell loops of the two texts end alike |
| RootSweepProof.LeftPlaceAlike | linesolver.go:211-233 | The extension loops end alike |
| RootSweepProof.LeftShiftAlike | linesolver.go:235-265 | The `finalspace` cases end alike |
| RootSweepProof.LeftCheckRestAlike | linesolver.go:267-278 | The `checkrest` cases end alike |
| RootSweepProof.LeftBacktrackAlike | linesolver.go:280-286 | The `backtrack` cases end alike |
| RootSweepProof.LeftAdvanceAlike | linesolver.go:288-319 | The `advanceblock` cases end alike |
| RootSweepProof.LeftPassAlike | linesolver.go:169-320 | A pass of `LeftSolve`'s loop ends as one transition of the left machine |
| RootSweepProof.LeftLoopAlike | linesolver.go:167-325 | From equal states, `LeftSolve`'s loop and the left machine's `solve` return the same outcome |
| RootSweepProof.LeftSolveIsLeftSweep | linesolver.go:160-325 | On every input, `LeftSolve` returns what the left machine returns, with either `moveBlockForward` |
| RootSweepProof.LeftSweepsAgree | linesolver.go:160-325 | So `LeftSolve` returns exactly what the left `FastLineSolver` of solver/linesolver.go returns, on every input |
| RootSweepProof.RightNewBlockAlike | linesolver.go:336-355 | From locals equal to a right machine's fields, `case newblock` ends as `newBlock` does |
| RootSweepProof.RightSkipMarkedAlike | linesolver.go:357-372 | The marked-cell loops end alike |
| RootSweepProof.RightPlaceAlike | linesolver.go:374-396 | The extension loops end alike |
| RootSweepProof.RightShiftAlike | linesolver.go:398-427 | The `finalspace` cases end alike |
| RootSweepProof.RightCheckRestAlike | linesolver.go:429-438 | The `checkrest` cases end alike, against the machine whose `moveBlockForward` subtracts |
| RootSweepProof.RightBacktrackAlike | linesolver.go:440-446 | The `backtrack` cases end alike, likewise |
| RootSweepProof.RightAdvanceAlike | linesolver.go:448-478 | The `advanceblock` cases end alike |
| RootSweepProof.RightPassAlike | linesolver.go:335-479 | A pass of `RightSolve`'s loop ends as one transition of that right machine |
| RootSweepProof.RightLoopAlike | linesolver.go:333-482 | From equal states the loop and `solve` return the same outcome |
| RootSweepProof.RightSolveIsRightSweep | linesolver.go:327-482 | On every input, `RightSolve` returns what the right machine with the subtracting `moveBlockForward` returns |
| SweepVectors.FastLeftFirstTest | solver/linesolver_test.go:9-19 | [3,3] around the marked cell 4: starts [0,5] |
| SweepVectors.FastLeftSecondTest | solver/linesolver_test.go:21-31 | [1,2] over the full cells 1 and 3: starts [1,3] |
| SweepVectors.FastRightFirstTest | solver/linesolver_test.go:35-45 | [3,3] packed right: ends [3,7] |
| SweepVectors.FastRightSecondTest | solver/linesolver_test.go:47-57 | [1,3] with the marked cell 5: ends [0,4] |
| SweepVectors.LeftSolveFirstTest | linesolver_test.go:9-18 | `LeftSolve` [3,3]: starts [0,5] |
| SweepVectors.LeftSolveSecondTest | linesolver_test.go:20-29 | `LeftSolve` [1,2]: starts [1,3] |
| SweepVectors.RightSolveFirstTest | linesolver_test.go:33-42 | `RightSolve` [3,3]: ends [3,7] |
| SweepVectors.LeftSolveThirdTest | linesolver_test.go:44-53 | The test calls `LeftSolve` and expects [0,4]; `LeftSolve` gives [0,2] |
| SweepVectors.RightSolveThirdTest | linesolver_test.go:44-53 | The expected [0,4] is what `RightSolve` gives |
| SweepVectors.FastRightOverrun | solver/linesolver.go:446-452 | With `+` in the right branch of `moveBlockForward`, the right sweep of [1] on {full, empty, empty} reads out of range |
| SweepVectors.RightSolveRecovers | linesolver.go:440-446 | With `-`, `RightSolve` finds the block at 0 on the same line |
| SweepVectors.FastRightOutOfLine | solver/linesolver.go:446-452 | The right sweep of [1,1] on {empty, full, empty, empty, empty, empty} reports a block ending at -1 |
| SweepVectors.RightSolveUncovered | linesolver.go:327-482 | `RightSolve` of [1] on {full, full, empty, empty} reports a block at 0 that leaves the full cell 1 uncovered |
| SweepVectors.FastLeftMisses | solver/linesolver.go:311 | The left sweep of [1] on {empty, empty, full} reports a contradiction although a block at 2 fits |
| SweepVectors.FastLeftOpenLine | solver/linesolver.go:157-179 | [3] on five unknown cells starts at 0 |
| SweepVectors.FastRightOpenLine | solver/linesolver.go:157-179 | [3] on five unknown cells ends at 4 |
| SweepVectors.FastLeftKnownLine | solver/linesolver.go:157-179 | [3] on {full, empty, full, empty, empty} starts at 0 |
| SweepVectors.FastRightKnownLine | solver/linesolver.go:285-308 | Packed right on the same line, the sweep reports a contradiction |
| SweepVectors.FastLeftAroundMark | solver/linesolver.go:157-179 | [1] on {empty, marked, empty} starts at 0 |
| SweepVectors.FastRightAroundMark | solver/linesolver.go:157-179 | [1] on {empty, marked, empty} ends at 2 |
| SweepVectors.FastLeftTwoOnes | solver/linesolver.go:157-179 | [1,1] on seven cells with cell 2 full: starts [0,2] |
| SweepVectors.FastRightTwoOnes | solver/linesolver.go:446-452 | The right sweep on the same line gives ends [0,6], which are no valid placement: cell 2 is full and lies in the gap before the second block |
| LineSolver.Follow | solver/linesolver.go:96-109 | The walk's counters `lb`/`lgap` (`rb`/`rgap`) never name a block that does not exist |
| LineSolver.Walk | solver/linesolver.go:95-119 | The loop writes one cell per index |
| LineSolver.Fill | solver/linesolver.go:63-72 | The trivial results: n copies of one cell |
| LineSolver.Intersect | linesolver.go:31-86 | Result as long as the line; no clue panics; first clue 0 gives all marked and ok; first clue equal to the length gives all full and ok; otherwise the result is Ok exactly when both sweeps are, and ok exactly when neither sweep returns nil; not ok gives an all-empty line. That the deduced cells are correct is not claimed |
| LineSolver.SolveLine | solver/linesolver.go:54-122 | The same properties for `SolveLine`/`intersect`, with the left and right `FastLineSolver` sweeps: either sweep returning nil makes the result not ok (solver/linesolver.go:90-93), and only then. Correctness of the deduced cells, promised at solver/linesolver.go:6-7, is not claimed: it is false (LineSolverVectors.SolveLineWrongCell) |
| LineSolver.FollowTracks | solver/linesolver.go:96-109 | After cell i the walk's counters stand where the placement says: every earlier block ended, the current one not, in a gap exactly before it starts |
| LineSolver.TrackNames | solver/linesolver.go:95-109 | Counters that stand where they should name exactly the block or gap holding cell i |
| LineSolver.VerdictIsOverlap | solver/linesolver.go:110-117 | The cell written from the two counters is the overlap deduction |
| LineSolver.WalkIsOverlap | solver/linesolver.go:95-119 | The walk from cell i on writes the overlap deduction at every cell |
| LineSolver.WalkLineIsOverlap | solver/linesolver.go:95-119 | The whole walk is the overlap deduction, cell by cell |
| LineSolver.IntersectIsOverlap | solver/linesolver.go:84-119 | When both sweeps succeed (and the right one gives ordered blocks), `intersect` is ok and each cell is full iff both placements put the same block on it, marked iff both leave it in the same gap, else empty |
| LineSolverVectors.IntersectFullTest | solver/linesolver_test.go:61-70 | [5] on five cells: all full |
| LineSolverVectors.IntersectEmptyTest | solver/linesolver_test.go:72-81 | [0]: all marked |
| LineSolverVectors.LegacyIntersectTests | linesolver_test.go:56-77 | The same two cases for the root `Intersect` |
| LineSolverVectors.IntersectMiddleTest | solver/linesolver_test.go:83-92 | [3] on five unknown cells: the middle cell full |
| LineSolverVectors.IntersectKnownTest | solver/linesolver_test.go:94-103 | The test expects {full, full, full, marked, marked}; `intersect` returns an all-empty line and not ok |
| LineSolverVectors.IntersectDropsMark | solver/linesolver.go:59-60 | [1] on {empty, marked, empty}: the result forgets the marked cell |
| LineSolverVectors.SolveLineWrongCell | solver/linesolver.go:44-51 | [1,1] on seven cells with cell 2 full: `SolveLine` returns ok with cell 0 full and cell 1 marked, yet {marked, marked, full, marked, full, marked, marked} solves the clue, keeps the known cell, and has cell 0 marked: the deduced full cell 0 is wrong |
| Reference.AllLines | solver/linesolver.go:44-51 | Every enumerated line is decided and as long as asked |
| Reference.AllLinesComplete | solver/linesolver.go:44-51 | The enumeration misses no decided line |
| Reference.Candidates | solver/linesolver.go:44-51 | Keeps exactly the lines that solve the clue and keep the known cells |
| Reference.Solutions | solver/linesolver.go:44-51 | Every listed line solves the clue and keeps the known cells |
| Reference.SolutionsComplete | solver/linesolver.go:44-51 | Every such line is listed |
| Reference.Deduce | solver/linesolver.go:44-51 | The documented line rule: as long as the line, and all-empty when not ok |
| Reference.DeduceOkIff | solver/linesolver.go:50-51 | Fails exactly when no solution keeps the known cells |
| Reference.DeduceSound | solver/linesolver.go:44-51 | Every solution that keeps the input's known cells keeps the result's: no deduced cell is wrong |
| Reference.DeduceKeepsKnown | solver/linesolver.go:47-48 | The result keeps every known cell of the input |
| Reference.DeduceComplete | solver/linesolver.go:44-46 | A cell left empty really is open: one solution fills it, another marks it |
| Reference.CandidatesSameAdmit | solver/linesolver.go:44-51 | The candidates depend on the known cells only through which lines they admit |
| Reference.DeduceIdempotent | solver/linesolver.go:44-51 | Deducing again from the result changes nothing |
| ReferenceVectors.OneBlockEndingFull | solver/linesolver.go:44-51 | The only line of three cells with one block of 1 ending in a full cell is {marked, marked, full} |
| ReferenceVectors.DeduceFindsLateBlock | solver/linesolver.go:44-51 | [1] on {empty, empty, full}: {marked, marked, full}, ok |
| ReferenceVectors.DeduceKeepsMark | solver/linesolver.go:47-48 | [1] on {empty, marked, empty}: the marked cell is kept |
| ReferenceVectors.ThreeOverFirstAndThird | solver/linesolver_test.go:94-103 | The only line of five with one block of 3 over cells 0 and 2 is {full, full, full, marked, marked} |
| ReferenceVectors.DeduceKnownTest | solver/linesolver_test.go:94-103 | The corrected rule gives what the test expects |
| BoardLines.Other | solver/treesolver.go:150 | The crossing line type differs from the line's own |
| BoardLines.GetLine | solver/treesolver.go:73-82 | `getLine` as intended: a line of the line type's length |
| BoardLines.GetLineAsWritten | solver/treesolver.go:73-82 | `getLine` as written: a column panics exactly when there are more rows than columns, and is otherwise len(Cols) long |
| BoardLines.GetLineAsWrittenOnSquare | solver/treesolver.go:77-81 | On a square puzzle the written `getLine` is the intended one |
| BoardLines.GetLineAsWrittenMisreads | solver/treesolver.go:77-81 | A 2 x 1 puzzle panics; on a 1 x 2 puzzle a column of one cell comes back two cells long |
| BoardLines.SetLine | solver/treesolver.go:96-104 | `setLine` writes the line's cells onto its row or column and leaves every other cell alone, keeping the board's shape |
| BoardLines.GetSetRoundTrip | solver/treesolver.go:73-104 | Reading a line just written gives the line back |
| BoardLines.SetGetIdentity | solver/treesolver.go:73-104 | Writing back a line just read changes nothing |
| BoardLines.SetLineKeepsOthers | solver/treesolver.go:96-104 | Writing one line leaves every other line of the same type as it was |
| BoardLines.CountEmpty | solver/treesolver.go:87-91 | The count of a line is at most its length |
| BoardLines.CountEmptyZero | solver/treesolver.go:87-91 | A line counts 0 exactly when it has no empty cell |
| BoardLines.EmptyCellsZero | solver/treesolver.go:84-94 | `emptyCells` is 0 exactly when no cell of the board is empty |
| BoardLines.EmptyCellsBound | solver/treesolver.go:84-94 | `emptyCells` is at most rows * cols |
| BoardLines.CountEmptyAllEmpty | solver/treesolver.go:87-91 | A line of n empty cells counts n |
| BoardLines.EmptyCellsOfNewBoard | solver/treesolver.go:84-94 | A new board counts rows * cols |
| BoardLines.OverlapCountIsSum | solver/treesolver.go:118-127 | Summing per-block overlaps c - s gives sum - n * s |
| BoardLines.ScoreFor | solver/treesolver.go:118-127 | The score formula for a line of l cells is l when the clues sum to l, and otherwise the sum over the blocks of length minus slack: the cells the simple-boxes rule fills when no block is shorter than the slack |
| BoardLines.Score | solver/treesolver.go:106-128 | `score` as intended, on the line's own length: the line's length when its clues fill it, else that overlap count |
| BoardLines.ScoreAsWritten | solver/treesolver.go:106-128 | `score` as written: the same measure, taken on the number of lines of the type instead of the line's length |
| BoardLines.ScoreAsWrittenOnSquare | solver/treesolver.go:106-128 | On a square puzzle the written score is the intended one |
| BoardLines.ScoreAtMostLength | solver/treesolver.go:106-128 | For a clue that fits its line, the score is at most the line's length |
| BoardLines.ScoreAsWrittenOvershoots | solver/treesolver.go:110-116 | On a 1 x 2 puzzle with row clue [2], the written score is 3 for a row of 2 cells; the intended one is 2 |
| TreeSolver.MakeJob | solver/treesolver.go:134-138 | A job literal of `initJobs`/`updateJobs`: its line, the line's clues and score |
| TreeSolver.InitJobs | solver/treesolver.go:130-140 | len(Rows) + len(Cols) jobs, rows 0.. in order then columns 0.., each with the line read from the board, its clues and its score |
| TreeSolver.InitJobsCoverEveryLine | solver/treesolver.go:130-140 | Every line of the puzzle is queued, and none twice |
| TreeSolver.ColumnJobsAsWritten | solver/treesolver.go:136-139 | The column loop of `initJobs` with the written `getLine`: it panics exactly when a column is left and the puzzle has more rows than columns, and otherwise makes one job per column |
| TreeSolver.InitJobsAsWritten | solver/treesolver.go:130-140 | `initJobs` as written panics exactly on a puzzle with a column and more rows than columns, and otherwise queues len(Rows) + len(Cols) jobs |
| TreeSolver.ColumnJobsOnSquare | solver/treesolver.go:136-139 | On a square puzzle the written column jobs are the intended ones |
| TreeSolver.InitJobsAsWrittenOnSquare | solver/treesolver.go:130-140 | On a square puzzle `initJobs` as written gives exactly the intended jobs |
| TreeSolver.UpdateFrom | solver/treesolver.go:144-171 | The loop from cell i on only appends, at most one job per remaining cell |
| TreeSolver.UpdateFromAppendsAt | solver/treesolver.go:144-171 | Every appended job is for the crossing line of a changed cell that had no job, read from the current board |
| TreeSolver.UpdateFromAppends | solver/treesolver.go:144-171 | The same for all appended jobs at once |
| TreeSolver.UpdateFromCovers | solver/treesolver.go:144-171 | Every changed cell from i on ends up with a job for its crossing line |
| TreeSolver.UpdateFromUnique | solver/treesolver.go:144-171 | The loop never queues a line twice |
| TreeSolver.UpdateJobs | solver/treesolver.go:142-172 | Existing jobs are untouched (the score refresh writes a copy); each changed cell's crossing line has a job; every new job is such a line that had none; at most one job per cell is added; no line is queued twice |
| TreeSolver.Insert | solver/treesolver.go:29-39 | Insertion adds exactly the one job |
| TreeSolver.InsertSorted | solver/treesolver.go:33-35 | Insertion into a list ascending by score keeps it ascending |
| TreeSolver.InsertUnique | solver/treesolver.go:29-39 | Insertion of a new line keeps every line queued once |
| TreeSolver.ConsUnique | solver/treesolver.go:29-39 | A job whose line is not in a list of distinct lines can go in front |
| TreeSolver.PrefixTail | solver/treesolver.go:29-39 | The tail of a list keeps its members and its distinct lines |
| TreeSolver.InsertionSort | solver/treesolver.go:29-39 | The sort is a permutation |
| TreeSolver.InsertionSortSorted | solver/treesolver.go:33-35 | The sort orders ascending by score |
| TreeSolver.InsertionSortUnique | solver/treesolver.go:29-39 | The sort keeps every line queued once |
| TreeSolver.SortByScore | solver/treesolver.go:29-39 | `sort.Sort(t.jobs)`: a permutation, ascending by score, still one job per line |
| TreeSolver.NewTreeSolver | solver/treesolver.go:58-65 | An all-empty board of the puzzle's shape, a job for every line, `activeJobs` rows + columns, no guesses |
| TreeSolver.NewTreeSolverAsWritten | solver/treesolver.go:58-65 | With `initJobs` as written, the constructor panics exactly on a puzzle with a column and more rows than columns; otherwise it has the puzzle and one job per line |
| TreeSolver.NewTreeSolverAsWrittenOnSquare | solver/treesolver.go:58-65 | On a square puzzle it is the intended constructor |
| TreeSolver.NewTreeSolverAsWrittenPanics | solver/treesolver.go:58-65 | On the 2 x 1 puzzle it panics |
| TreeSolver.ApplyRule | solver/treesolver.go:186 | The chosen line rule returns a line as long as its input |
| TreeSolver.CurrentLine | solver/treesolver.go:75 | A popped job's line has its line type's length |
| TreeSolver.WriteBack | solver/treesolver.go:194-199 | After a changed line is written back, the board is `setLine`'s, the jobs are well made, sorted ascending by score, and each line is queued once |
| TreeSolver.Execute | solver/treesolver.go:181-199 | One turn pops the last job; on a contradiction only that job is gone; a changed line leaves the list sorted; no cell off the popped job's line changes |
| TreeSolver.Propagate | solver/treesolver.go:181-202 | When the loop ends with ok, the job list is empty and the count is `emptyCells` of the final board; with not ok the count is 0 |
| TreeSolver.TakeTurn | solver/treesolver.go:181-200 | One pass of the loop body keeps the state consistent, the setup untouched, and passes on the loop's end results: ok with no job left and the count of empty cells, or not ok with count 0 |
| TreeSolver.LogicSolve | solver/treesolver.go:174-203 | `logicSolve`, with an empty list rebuilt first; on ok the count of unknown cells is between 0 and rows * cols |
| TreeSolver.Solve | solver/treesolver.go:68-71 | The board of the puzzle's shape after `logicSolve` alone; puzzle, `activeJobs` and `GuessCount` untouched |
| TreeSound.LineAgrees | solver/treesolver.go:73-82 | A board consistent with a solution is consistent with it line by line |
| TreeSound.SetLineAgrees | solver/treesolver.go:96-104 | Writing back a line consistent with a solution keeps the board consistent with it |
| TreeSound.UpdateJobsAgree | solver/treesolver.go:142-172 | Jobs queued from a consistent board are consistent |
| TreeSound.WriteBackAdmits | solver/treesolver.go:194-199 | Write-back of a consistent line keeps the whole state consistent |
| TreeSound.CurrentLineAgrees | solver/treesolver.go:184-186 | The line a popped job works on keeps only cells of the solution |
| TreeSound.ExecuteSound | solver/treesolver.go:181-199 | Under the corrected rule a turn on a solvable puzzle never fails and keeps the state consistent with the solution |
| TreeSound.TurnAdmits | solver/treesolver.go:181-200 | Under the corrected rule, a turn from a state consistent with a solution succeeds, and the loop goes on from a state still consistent with it |
| TreeSound.PropagateSound | solver/treesolver.go:181-202 | The loop then ends (fuel allowing) with ok and a board consistent with the solution |
| TreeSound.NewTreeSolverAdmits | solver/treesolver.go:58-65 | A fresh solver is consistent with every solution |
| TreeSound.SolveSound | solver/treesolver.go:68-71 | On a puzzle with a solution, `logicSolve` and `Solve` with the corrected rule report no contradiction, and every decided cell is the solution's |
| TreeSound.SolvedBoardIsSolution | solver/treesolver.go:201-202 | A finished run with no empty cell returns the solution, which is then the only one |

## Left out

- `IntersectP` and the channels `OutL`/`OutR` (linesolver.go:88-158) are left out. They run the same two sweeps on goroutines; concurrency is not modelled, and the code after the join duplicates `Intersect`.
- JSON loading, puzzle listing and writing files (solver/util.go, util.go) are left out as file and console I/O. `StringifyBoard` (util.go:48-67) is presentation, and `Board.String` covers rendering. The command-line programs (main.go, main/main.go) are left out too.
- The root treesolver.go is left out. It does not compile, and its `score` and `Solve` are stubs.
- The guess-and-backtrack search that solver/treesolver.go:41-49 describes is not in the code, so it is not modelled. `Solve` only propagates.
- `sort.Sort` is not stable. The model uses one stable insertion sort. Every property stated about it holds for any sort: a permutation, ascending by score, one job per line. The order among jobs of equal score is not modelled.
- Sweep.Run: `solve`'s loop has no evident bound, so the model runs at most `fuel` transitions. A run that needs more ends in `OutOfFuel`, and no property claims what `solve` would return then. TreeSolver.Propagate bounds the turns of `logicSolve` the same way: its helper TreeSolver.Continue ends in `OutOfFuel` once `fuel` turns are spent.
- TreeSolver.MakeJob: builds a job with the intended `getLine` and `score`; the written ones give the same job only on square puzzles (BoardLines.GetLineAsWrittenOnSquare, BoardLines.ScoreAsWrittenOnSquare).
- TreeSolver.InitJobs: uses the intended `getLine` and `score`, so it matches solver/treesolver.go:130-140 only on square puzzles (TreeSolver.InitJobsAsWrittenOnSquare); the written text is TreeSolver.InitJobsAsWritten.
- TreeSolver.UpdateFrom: reads and scores queued lines with the intended helpers, so it matches the source only on square puzzles. On a 1 x 2 puzzle the written column line has two cells, and a change in its second cell makes `updateJobs` read Rows[1], out of range (solver/treesolver.go:165); that panic is not modelled.
- TreeSolver.UpdateJobs: the same as TreeSolver.UpdateFrom: it matches the source only on square puzzles.
- TreeSolver.NewTreeSolver: uses the intended `initJobs`, so it matches the source only on square puzzles (TreeSolver.NewTreeSolverAsWrittenOnSquare); on a puzzle with more rows than columns the source panics (TreeSolver.NewTreeSolverAsWritten).
- TreeSolver.CurrentLine: reads a row from the board and keeps a column copy of the intended length; it matches the source only on square puzzles.
- TreeSolver.WriteBack: sorts by the intended score; with the written score the order differs on puzzles that are not square.
- TreeSolver.Execute: runs on jobs made with the intended helpers; it matches the source only on square puzzles.
- TreeSolver.Propagate: the same: it matches the source only on square puzzles.
- TreeSolver.TakeTurn: the same: it matches the source only on square puzzles.
- TreeSolver.LogicSolve: the same: it matches the source only on square puzzles.
- TreeSolver.Solve: the same: it matches the source only on square puzzles, and the soundness results of TreeSound hold for the driver with the intended helpers.
- TreeSolver.UpdateJobs: the counter `count` (solver/treesolver.go:143-147) is never read, so it is not modelled.
- TreeSolver.UpdateJobs: the score refresh at solver/treesolver.go:152 assigns to the loop's copy of a job and has no effect, so it is not modelled.
- Sweep.Step: the sweep's intermediate states are compared only through their outcome. `previousIndex` and `previousBlockPosition` (solver/linesolver.go:390-423) are never called and are not modelled.
- LineSolver.IntersectIsOverlap: stated only when the right sweep's blocks are ordered. The right sweeps can return positions out of line or out of order (SweepVectors.FastRightOutOfLine), and then the walk's counters can skip blocks. It equates `intersect` with the overlap of the two placements the sweeps return, not with the overlap of two valid placements: even ordered right ends can be no placement of the line (SweepVectors.FastRightTwoOnes), and then deduced cells can be wrong (LineSolverVectors.SolveLineWrongCell).
- LineSolver.SolveLine: the promise of solver/linesolver.go:6-7 that the deduced cells are correct is not stated, because it is false (see Findings). The rule that keeps that promise is Reference.Deduce (Reference.DeduceSound).
- LeftSweepProof.LeftSweepSound: states that the left sweep's starts form a valid placement, not that they are the leftmost one. The leftmost property would need a second invariant over every skipped candidate start, and is not proved.
- Negative clue entries and negative board sizes are not modelled. Sizes are `nat`; clues are `int`. The left-sweep lemmas, LineSolver.IntersectIsOverlap and LineSolver.FitsIsChain require positive clues.
- Go integers are 64-bit. The model's integers are unbounded; every value involved is bounded by the line length or the clue sum.

## Findings

Five of the findings below are about the line solver, two about the tree solver, and one about a test. The corrected line rule is `Reference.Deduce`:

- `Reference.DeduceOkIff`: it fails exactly when the line has no solution.
- `Reference.DeduceSound`: it deduces only cells every solution shares.
- `Reference.DeduceKeepsKnown`: it keeps the known cells.
- `Reference.DeduceComplete`: it deduces every cell all solutions share.

Linesolver.go's `-` in `moveBlockForward` fixes the overrun on the input below (`SweepVectors.RightSolveRecovers`). It still lets `RightSolve` return a placement that leaves a full cell uncovered (`SweepVectors.RightSolveUncovered`). So the model's correction is the reference rule, not the other text.

| source | as written | input that shows it | evidently intended | confidence | as-written member | corrected member |
|---|---|---|---|---|---|---|
| solver/linesolver.go:446-452 | The right branch of `moveBlockForward` adds the block length, like the left one | [1] on {full, empty, empty}: the right sweep reads out of range; [1,1] on {empty, full, empty, empty, empty, empty}: a block ending at -1; [1,1] on {empty, empty, full, empty, empty, empty, empty}: ends [0,6], which leave the full cell 2 uncovered (`SweepVectors.FastRightTwoOnes`) | Move the index to the other side of the block: subtract, as linesolver.go:432 and 445 do, so that the sweep returns a valid placement or fails only on an impossible line | high (not executed) | SweepVectors.FastRightOverrun | Reference.DeduceOkIff |
| solver/linesolver.go:84-119 | `intersect` reports ok and deduces the cells on which the left placement and the returned right ends agree, but the right ends need not be a placement of the line, so a deduced cell can contradict a solution, against the promise at lines 6-7 | [1,1] on {empty, empty, full, empty, empty, empty, empty}: the right sweep gives ends [0,6], leaving the full cell 2 uncovered; the result has cell 0 full, yet {marked, marked, full, marked, full, marked, marked} solves the line with cell 0 marked | Deduce only cells that every solution of the line shares | high (not executed) | LineSolverVectors.SolveLineWrongCell | Reference.DeduceSound |
| solver/linesolver.go:311 | The `advanceblock` loop runs while `coverage < 0 && position < coverage`; for a left sweep positions are never negative, so the loop never runs and every backtrack ends in `nil` | [1] on {empty, empty, full}: not ok, though a block at 2 fits (`SweepVectors.FastLeftMisses`) | Slide the block forward to cover the full cell that forced the backtrack, failing only when no placement exists | high (not executed) | LeftSweepProof.BacktrackFails | Reference.DeduceOkIff |
| solver/linesolver_test.go:94-103 | The test expects [3] on {full, empty, full, empty, empty} to give {full, full, full, marked, marked}; `intersect` returns all empty and not ok | that line | The test's expectation | high (not executed) | LineSolverVectors.IntersectKnownTest | ReferenceVectors.DeduceKnownTest |
| solver/linesolver.go:59-60 | `intersect` rebuilds its result from an all-empty line, so cells known in the input and not re-deduced are lost, against the promise at lines 47-48 | [1] on {empty, marked, empty}: result all empty | The result keeps at least the input's known cells | high (not executed) | LineSolverVectors.IntersectDropsMark | Reference.DeduceKeepsKnown |
| solver/treesolver.go:77-81 | `getLine` of a column makes len(Cols) cells and fills len(Rows) of them | a 2 x 1 puzzle: index out of range; a 1 x 2 puzzle: a column of one cell read as two | A column of len(Rows) cells | high (not executed) | BoardLines.GetLineAsWrittenMisreads | BoardLines.GetSetRoundTrip |
| solver/treesolver.go:110-116 | `score` takes `l` as the number of lines of the type, not the length of the line | a 1 x 2 puzzle with row clue [2]: score 3 for a row of 2 cells, and the `b == l` case misses the filled row | `l` is the line's length, so that a filled line scores its length and no line scores more | high (not executed) | BoardLines.ScoreAsWrittenOvershoots | BoardLines.ScoreAtMostLength |
| linesolver_test.go:44-53 | The second right-sweep test calls `LeftSolve` | [1,3] with the marked cell 5: `LeftSolve` gives [0,2], the test expects [0,4] | Call `RightSolve`, which gives [0,4] | high (not executed) | SweepVectors.LeftSolveThirdTest | SweepVectors.RightSolveThirdTest |
