/**
  `placeRandomWord`: up to 1000 random starts for one word.

  Each attempt draws a start (row, col).  The start is rejected when, for
  some offset i of the word, both (row, col + i) and (row + i, col) are
  already occupied.  Otherwise the horizontal test `canPlaceWord(.., 0, 1, ..)`
  is asked, and it always holds, so the word is written left to right from
  the start, its cells are recorded as occupied, and one of its cells is
  swapped with a neighbour.  The vertical branch after it can never run.

  The source never checks that the run fits in the row; JavaScript then
  grows the row past `cols`.  The model stops instead and reports the start
  as `OutOfBounds`, with nothing written.  A 1 x 1 board leaves the swap
  without a neighbour, where the source throws; the model reports
  `NoNeighbour`, after the write, where the source stops.
*/
module Placement {
  import opened Draws
  import opened Text
  import opened Grids
  import opened GridOps

  const MaxAttempts: nat := 1000

  datatype Outcome =
    | Placed(attempt: nat, row: nat, col: nat)
    | Exhausted
    | OutOfBounds(attempt: nat, row: nat, col: nat)
    | NoNeighbour(attempt: nat, row: nat, col: nat)

  /** `Math.floor(Math.random() * rows)` of attempt `t`: the stream is read twice per rejected attempt. */
  function StartRow(rnd: Stream, pos: nat, t: nat, rows: nat): nat {
    Scaled(rnd(pos + 2 * t), rows)
  }

  /** `Math.floor(Math.random() * cols)` of attempt `t`. */
  function StartCol(rnd: Stream, pos: nat, t: nat, cols: nat): nat {
    Scaled(rnd(pos + 2 * t + 1), cols)
  }

  /**
    The occupancy test of one start: for some offset i < |word| (here the
    column j = c + i) both (r, c + i) and (r + i, c) are occupied.
  */
  predicate Blocked(occupied: set<Position>, word: string, r: int, c: int) {
    exists j :: c <= j < c + |word| && (r, j) in occupied && (r + (j - c), c) in occupied
  }

  /**
    The run of a start lies inside the board, and so does the start itself
    (which only matters for the empty word).
  */
  predicate Fits(word: string, r: int, c: int, rows: nat, cols: nat) {
    0 <= r < rows && 0 <= c < cols && c + |word| <= cols
  }

  /** `Math.floor(Math.random() * word.length)` after a successful attempt `t`: the run cell to swap. */
  function SwapOffset(rnd: Stream, pos: nat, t: nat, word: string): nat {
    Scaled(rnd(pos + 2 * t + 2), |word|)
  }

  /** The horizontal test holds for every drawn start, so a start that is not rejected is written horizontally. */
  lemma HorizontalBranchTaken(word: string, rnd: Stream, pos: nat, t: nat, rows: nat, cols: nat)
    ensures CanPlaceWord(word, StartRow(rnd, pos, t, rows), StartCol(rnd, pos, t, cols), 0, 1, rows, cols)
  {
    CanPlaceHorizontalIff(word, StartRow(rnd, pos, t, rows), StartCol(rnd, pos, t, cols), rows, cols);
  }

  /** What one call leaves behind: how it ended, the grid, the occupied cells and the next unused draw. */
  datatype Placement = Placement(outcome: Outcome, grid: Grid, occupied: set<Position>, next: nat)

  datatype Option<T> = None | Some(value: T)

  /**
    Attempt `t` on `g` and `occ` (the attempts before it changed nothing):
    `None` when its start is rejected, otherwise how the call ends there.
  */
  function Attempt(g: Grid, occ: set<Position>, word: string, rows: nat, cols: nat, rnd: Stream, pos: nat, t: nat)
    : Option<Placement>
  {
    var r := StartRow(rnd, pos, t, rows);
    var c := StartCol(rnd, pos, t, cols);
    if Blocked(occ, word, r, c) then None else Some(Settle(g, occ, word, rows, cols, rnd, pos, t, r, c))
  }

  /** How attempt `t` ends once its start (r, c) is accepted. */
  function Settle(g: Grid, occ: set<Position>, word: string, rows: nat, cols: nat, rnd: Stream, pos: nat, t: nat,
                  r: nat, c: nat): Placement
  {
    if !Fits(word, r, c, rows, cols) then Placement(OutOfBounds(t, r, c), g, occ, pos + 2 * t + 2)
    else Written(g, occ, word, rows, cols, r, c, SwapOffset(rnd, pos, t, word), rnd, t, pos + 2 * t + 3)
  }

  /**
    An accepted start whose run does not fit ends the call with nothing
    written; one that fits goes on to the write, with the offset of the
    camouflaged cell inside the row (and inside the run when the word is not
    empty).
  */
  lemma SettleCases(g: Grid, occ: set<Position>, word: string, rows: nat, cols: nat, rnd: Stream, pos: nat, t: nat,
                    r: nat, c: nat)
    ensures var s := Settle(g, occ, word, rows, cols, rnd, pos, t, r, c);
      var k := SwapOffset(rnd, pos, t, word);
      && (!Fits(word, r, c, rows, cols) ==> s == Placement(OutOfBounds(t, r, c), g, occ, pos + 2 * t + 2))
      && (Fits(word, r, c, rows, cols) ==>
            && s == Written(g, occ, word, rows, cols, r, c, k, rnd, t, pos + 2 * t + 3)
            && c + k < cols && (|word| > 0 ==> k < |word|))
  {
  }

  /** SettleCases for a run that fits, with the offset and the swap draw given by name. */
  lemma SettleFits(g: Grid, occ: set<Position>, word: string, rows: nat, cols: nat, rnd: Stream, pos: nat, t: nat,
                   r: nat, c: nat, k: nat, p: nat)
    requires Fits(word, r, c, rows, cols) && k == SwapOffset(rnd, pos, t, word) && p == pos + 2 * t + 3
    ensures Settle(g, occ, word, rows, cols, rnd, pos, t, r, c) == Written(g, occ, word, rows, cols, r, c, k, rnd, t, p)
    ensures c + k < cols
  {
    SettleCases(g, occ, word, rows, cols, rnd, pos, t, r, c);
  }

  /**
    The end of an accepted attempt `t` from (r, c) that fits, once the offset
    `k` of the cell to camouflage is drawn: the run is written and recorded,
    then that cell is swapped with the neighbour draw `p` picks.  Draw `p` is
    read even when there is no neighbour: `Math.random()` is called before
    the destructuring of `adjacentCells[randomIndex]` fails.
  */
  function Written(g: Grid, occ: set<Position>, word: string, rows: nat, cols: nat, r: nat, c: nat, k: nat,
                   rnd: Stream, t: nat, p: nat): Placement
  {
    var written := WriteRun(g, r, c, word);
    var cells := occ + RunCells(r, c, |word|);
    if |Neighbours(r, c + k, rows, cols)| == 0 then Placement(NoNeighbour(t, r, c), written, cells, p + 1)
    else Placement(Placed(t, r, c), SwapCells(written, (r, c + k), SwapTarget(r, c + k, rows, cols, rnd, p)), cells, p + 1)
  }

  /** The attempts from `t` on: the first one that is not rejected decides, and after the 1000th the call gives up. */
  function TryFrom(g: Grid, occ: set<Position>, word: string, rows: nat, cols: nat, rnd: Stream, pos: nat, t: nat)
    : Placement
    decreases MaxAttempts - t
  {
    if t >= MaxAttempts then Placement(Exhausted, g, occ, pos + 2 * MaxAttempts)
    else
      match Attempt(g, occ, word, rows, cols, rnd, pos, t)
      case None => TryFrom(g, occ, word, rows, cols, rnd, pos, t + 1)
      case Some(p) => p
  }

  /** `placeRandomWord` as a whole. */
  function PlaceWord(g: Grid, occ: set<Position>, word: string, rows: nat, cols: nat, rnd: Stream, pos: nat)
    : Placement
  {
    TryFrom(g, occ, word, rows, cols, rnd, pos, 0)
  }

  /** The `isOccupied` loop of one attempt, with its early `break`. */
  method IsOccupied(word: string, occupied: PositionSet, startRow: int, startCol: int) returns (isOccupied: bool)
    ensures isOccupied <==> Blocked(occupied.members, word, startRow, startCol)
  {
    ghost var occ := occupied.members;
    isOccupied := false;
    var i := 0;
    while i < |word|
      invariant 0 <= i <= |word|
      invariant isOccupied ==> Blocked(occ, word, startRow, startCol)
      invariant !isOccupied ==> forall j :: startCol <= j < startCol + i ==>
        !((startRow, j) in occ && (startRow + (j - startCol), startCol) in occ)
    {
      if occupied.Has((startRow, startCol + i)) && occupied.Has((startRow + i, startCol)) {
        isOccupied := true;
        break;
      }
      i := i + 1;
    }
  }

  /** The horizontal write loop: each letter upper-cased into its cell, each cell added to the set. */
  method WriteWord(word: string, board: Board, occupied: PositionSet, startRow: nat, startCol: nat)
    requires startRow < |board.grid| && startCol + |word| <= |board.grid[startRow]|
    modifies board, occupied
    ensures board.grid == WriteRun(old(board.grid), startRow, startCol, word)
    ensures occupied.members == old(occupied.members) + RunCells(startRow, startCol, |word|)
  {
    assert board.grid[startRow][..startCol] + LetterCells(word[..0]) + board.grid[startRow][startCol..] == board.grid[startRow];
    var i := 0;
    while i < |word|
      invariant 0 <= i <= |word|
      invariant board.grid == WriteRun(old(board.grid), startRow, startCol, word[..i])
      invariant occupied.members == old(occupied.members) + RunCells(startRow, startCol, i)
    {
      WriteRunStep(old(board.grid), startRow, startCol, word, i);
      board.grid := SetCell(board.grid, (startRow, startCol + i), Upper([word[i]]));
      occupied.Add((startRow, startCol + i));
      RunCellsGrow(startRow, startCol, i);
      i := i + 1;
    }
    assert word[..|word|] == word;
  }

  /**
    The rest of a successful attempt `t`, once the offset `k` of the cell to
    camouflage is drawn: write the run, then swap that cell with a
    neighbour.  Without a neighbour (a 1 x 1 board) the source throws after
    the write.
  */
  method WriteAndSwap(word: string, board: Board, occupied: PositionSet, startRow: nat, startCol: nat,
                      rows: nat, cols: nat, k: nat, rnd: Stream, t: nat, pos: nat, ghost g: Grid, ghost occ: set<Position>)
    returns (outcome: Outcome, next: nat)
    requires board.grid == g && occupied.members == occ
    requires IsGrid(g, rows, cols) && Fits(word, startRow, startCol, rows, cols) && startCol + k < cols
    modifies board, occupied
    ensures Placement(outcome, board.grid, occupied.members, next)
         == Written(g, occ, word, rows, cols, startRow, startCol, k, rnd, t, pos)
  {
    WriteWord(word, board, occupied, startRow, startCol);
    next := pos;
    if |Neighbours(startRow, startCol + k, rows, cols)| == 0 {
      // the swap's draw is read, then the destructuring of the undefined `adjacentCells[0]` throws
      outcome, next := NoNeighbour(t, startRow, startCol), next + 1;
      return;
    }
    ghost var written := board.grid;
    assert |written| == rows && |written[0]| == cols;
    var b;
    b, next := SwapAdjacentCells(startRow, startCol + k, board, rnd, next);
    outcome := Placed(t, startRow, startCol);
  }

  /** An accepted start (r, c) of attempt `t`: the horizontal branch of the `while` body. */
  method PlaceAt(word: string, board: Board, rows: nat, cols: nat, occupied: PositionSet, rnd: Stream, pos: nat, t: nat,
                 startRow: nat, startCol: nat, ghost g: Grid, ghost occ: set<Position>)
    returns (outcome: Outcome, next: nat)
    requires board.grid == g && occupied.members == occ && IsGrid(g, rows, cols)
    modifies board, occupied
    ensures Placement(outcome, board.grid, occupied.members, next)
         == Settle(g, occ, word, rows, cols, rnd, pos, t, startRow, startCol)
  {
    if !Fits(word, startRow, startCol, rows, cols) {
      // the source would write past the end of the row here
      SettleCases(g, occ, word, rows, cols, rnd, pos, t, startRow, startCol);
      outcome, next := OutOfBounds(t, startRow, startCol), pos + 2 * t + 2;
      return;
    }
    var randomIndex := SwapOffset(rnd, pos, t, word);
    var swapDraw := pos + 2 * t + 3;
    SettleFits(g, occ, word, rows, cols, rnd, pos, t, startRow, startCol, randomIndex, swapDraw);
    outcome, next := WriteAndSwap(word, board, occupied, startRow, startCol, rows, cols, randomIndex, rnd, t,
                                  swapDraw, g, occ);
  }

  /**
    One pass of the `while` body of `placeRandomWord`: draw a start, test it,
    and, when it is not rejected, place the word.  `done` is true when the
    call returns from this attempt.
  */
  method TryStart(word: string, board: Board, rows: nat, cols: nat, occupied: PositionSet, rnd: Stream, pos: nat, t: nat)
    returns (done: bool, outcome: Outcome, next: nat)
    requires IsGrid(board.grid, rows, cols)
    modifies board, occupied
    ensures var a := Attempt(old(board.grid), old(occupied.members), word, rows, cols, rnd, pos, t);
      && (a.None? ==>
            !done && board.grid == old(board.grid) && occupied.members == old(occupied.members) && next == pos + 2 * t + 2)
      && (a.Some? ==>
            done && Placement(outcome, board.grid, occupied.members, next) == a.value)
  {
    // `newBoard.slice()` copies only the outer array: both names reach the same rows.
    var horBoard := board;
    var startRow := StartRow(rnd, pos, t, rows);
    var startCol := StartCol(rnd, pos, t, cols);
    var isOccupied := IsOccupied(word, occupied, startRow, startCol);
    HorizontalBranchTaken(word, rnd, pos, t, rows, cols);
    if !isOccupied && CanPlaceWord(word, startRow, startCol, 0, 1, rows, cols) {
      done := true;
      outcome, next := PlaceAt(word, horBoard, rows, cols, occupied, rnd, pos, t, startRow, startCol,
                               old(board.grid), old(occupied.members));
      return;
    } else if !isOccupied && !CanPlaceWord(word, startRow, startCol, 1, 0, rows, cols) {
      // the vertical write: unreachable, since the horizontal test holds for every start
      assert false;
    }
    done, outcome, next := false, Exhausted, pos + 2 * t + 2;
  }

  /**
    `placeRandomWord(word, newBoard, rows, cols, occupiedPositions)`.  The
    board is changed in place and returned through the same object; the
    outcome says how the call ended.
  */
  method PlaceRandomWord(word: string, board: Board, rows: nat, cols: nat, occupied: PositionSet, rnd: Stream, pos: nat)
    returns (outcome: Outcome, next: nat)
    requires IsGrid(board.grid, rows, cols)
    modifies board, occupied
    ensures var p := PlaceWord(old(board.grid), old(occupied.members), word, rows, cols, rnd, pos);
      outcome == p.outcome && board.grid == p.grid && occupied.members == p.occupied && next == p.next
  {
    var attempts := 0;
    next := pos;
    while attempts < MaxAttempts
      invariant 0 <= attempts <= MaxAttempts
      invariant next == pos + 2 * attempts
      invariant board.grid == old(board.grid) && occupied.members == old(occupied.members)
      invariant TryFrom(board.grid, occupied.members, word, rows, cols, rnd, pos, attempts)
             == PlaceWord(old(board.grid), old(occupied.members), word, rows, cols, rnd, pos)
    {
      var done;
      done, outcome, next := TryStart(word, board, rows, cols, occupied, rnd, pos, attempts);
      if done {
        return;
      }
      attempts := attempts + 1;
    }
    outcome := Exhausted;
  }
}
