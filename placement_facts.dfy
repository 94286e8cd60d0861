/**
  What one call of `placeRandomWord` can do to the board and to the set of
  occupied cells, stated over the attempt-by-attempt description of the
  call in module Placement.
*/
module PlacementFacts {
  import opened Draws
  import opened Text
  import opened Grids
  import opened GridOps
  import opened Placement

  // ---------------------------------------------------------------------
  // The end of an accepted attempt whose run fits (`Written`)
  // ---------------------------------------------------------------------

  /**
    The run's cells are recorded; the cell it camouflages has no neighbour
    exactly on a 1 x 1 board, and otherwise it is swapped, after the write,
    with the in-board orthogonal neighbour that draw `p` picks.
  */
  lemma WrittenSwap(g: Grid, occ: set<Position>, word: string, rows: nat, cols: nat, r: nat, c: nat, k: nat,
                    rnd: Stream, t: nat, p: nat)
    requires r < rows && c + k < cols
    ensures var w := Written(g, occ, word, rows, cols, r, c, k, rnd, t, p);
      var q := SwapTarget(r, c + k, rows, cols, rnd, p);
      && w.occupied == occ + RunCells(r, c, |word|)
      && (w.outcome.Placed? || w.outcome.NoNeighbour?)
      && w.outcome.attempt == t && w.outcome.row == r && w.outcome.col == c
      && (w.outcome.NoNeighbour? <==> rows == 1 && cols == 1)
      && (w.outcome.NoNeighbour? ==> w.grid == WriteRun(g, r, c, word) && w.next == p + 1)
      && (w.outcome.Placed? ==>
            && InBounds(q, rows, cols) && Adjacent((r, c + k), q)
            && w.grid == SwapCells(WriteRun(g, r, c, word), (r, c + k), q)
            && w.next == p + 1)
  {
    var q := SwapTarget(r, c + k, rows, cols, rnd, p);
    NeighboursEmptyIff(r, c + k, rows, cols);
    if |Neighbours(r, c + k, rows, cols)| > 0 {
      NeighboursIff(r, c + k, rows, cols, q);
    }
  }

  /** The write and the swap keep the shape of the board. */
  lemma WrittenShape(g: Grid, occ: set<Position>, word: string, rows: nat, cols: nat, r: nat, c: nat, k: nat,
                     rnd: Stream, t: nat, p: nat)
    requires IsGrid(g, rows, cols)
    ensures IsGrid(Written(g, occ, word, rows, cols, r, c, k, rnd, t, p).grid, rows, cols)
  {
    assert IsGrid(WriteRun(g, r, c, word), rows, cols);
  }

  /** The camouflage only moves letters: the board holds the letters it held right after the write. */
  lemma WrittenKeepsCells(g: Grid, occ: set<Position>, word: string, rows: nat, cols: nat, r: nat, c: nat, k: nat,
                          rnd: Stream, t: nat, p: nat)
    requires IsGrid(g, rows, cols) && r < rows && c + k < cols
    ensures Cells(Written(g, occ, word, rows, cols, r, c, k, rnd, t, p).grid) == Cells(WriteRun(g, r, c, word))
  {
    WrittenSwap(g, occ, word, rows, cols, r, c, k, rnd, t, p);
    var wr := Written(g, occ, word, rows, cols, r, c, k, rnd, t, p);
    if wr.outcome.Placed? {
      var w := WriteRun(g, r, c, word);
      assert IsGrid(w, rows, cols);
      SwapCellsPermutes(w, (r, c + k), SwapTarget(r, c + k, rows, cols, rnd, p));
    }
  }

  /**
    The run holds the upper-cased letters of the word except where the
    camouflage moved them.
  */
  lemma WrittenRun(g: Grid, occ: set<Position>, word: string, rows: nat, cols: nat, r: nat, c: nat, k: nat,
                   rnd: Stream, t: nat, p: nat)
    requires IsGrid(g, rows, cols) && r < rows && c + |word| <= cols && c + k < cols
    ensures var w := Written(g, occ, word, rows, cols, r, c, k, rnd, t, p);
      var q := SwapTarget(r, c + k, rows, cols, rnd, p);
      forall i :: 0 <= i < |word| && (w.outcome.NoNeighbour? || (i != k && (r, c + i) != q)) ==>
        w.grid[r][c + i] == Upper([word[i]])
  {
    var wr := Written(g, occ, word, rows, cols, r, c, k, rnd, t, p);
    var q := SwapTarget(r, c + k, rows, cols, rnd, p);
    forall i | 0 <= i < |word| && (wr.outcome.NoNeighbour? || (i != k && (r, c + i) != q))
      ensures wr.grid[r][c + i] == Upper([word[i]])
    {
      WrittenRunCell(g, occ, word, rows, cols, r, c, k, rnd, t, p, i);
    }
  }

  /** One letter of the run, for WrittenRun. */
  lemma WrittenRunCell(g: Grid, occ: set<Position>, word: string, rows: nat, cols: nat, r: nat, c: nat, k: nat,
                       rnd: Stream, t: nat, p: nat, i: nat)
    requires IsGrid(g, rows, cols) && r < rows && c + |word| <= cols && c + k < cols && i < |word|
    requires var w := Written(g, occ, word, rows, cols, r, c, k, rnd, t, p);
      w.outcome.NoNeighbour? || (i != k && (r, c + i) != SwapTarget(r, c + k, rows, cols, rnd, p))
    ensures var w := Written(g, occ, word, rows, cols, r, c, k, rnd, t, p);
      |w.grid| == rows && |w.grid[r]| == cols && w.grid[r][c + i] == Upper([word[i]])
  {
    WrittenSwap(g, occ, word, rows, cols, r, c, k, rnd, t, p);
    var wr := Written(g, occ, word, rows, cols, r, c, k, rnd, t, p);
    var q := SwapTarget(r, c + k, rows, cols, rnd, p);
    var w := WriteRun(g, r, c, word);
    WriteRunAt(g, r, c, word);
    assert IsGrid(w, rows, cols);
    assert w[r][c + i] == Upper([word[i]]);
    if wr.outcome.Placed? {
      SwapCellsAt(w, (r, c + k), q);
      assert (r, c + i) != (r, c + k);
    }
  }

  /** Every cell outside the run and the swapped neighbour is as it was. */
  lemma WrittenElsewhere(g: Grid, occ: set<Position>, word: string, rows: nat, cols: nat, r: nat, c: nat, k: nat,
                         rnd: Stream, t: nat, p: nat)
    requires IsGrid(g, rows, cols) && r < rows && c + k < cols
    ensures var w := Written(g, occ, word, rows, cols, r, c, k, rnd, t, p);
      var q := SwapTarget(r, c + k, rows, cols, rnd, p);
      forall i, j ::
        && 0 <= i < rows && 0 <= j < cols && !(i == r && c <= j < c + |word|)
        && (w.outcome.NoNeighbour? || ((i, j) != (r, c + k) && (i, j) != q))
        ==> w.grid[i][j] == g[i][j]
  {
    WrittenSwap(g, occ, word, rows, cols, r, c, k, rnd, t, p);
    var wr := Written(g, occ, word, rows, cols, r, c, k, rnd, t, p);
    var q := SwapTarget(r, c + k, rows, cols, rnd, p);
    var w := WriteRun(g, r, c, word);
    WriteRunAt(g, r, c, word);
    assert IsGrid(w, rows, cols);
    forall i, j |
      && 0 <= i < rows && 0 <= j < cols && !(i == r && c <= j < c + |word|)
      && (wr.outcome.NoNeighbour? || ((i, j) != (r, c + k) && (i, j) != q))
      ensures wr.grid[i][j] == g[i][j]
    {
      assert w[i][j] == g[i][j];
      if wr.outcome.Placed? {
        SwapCellsAt(w, (r, c + k), q);
      }
    }
  }

  /** Writing a word of lower-case letters on a board of letters, then swapping, leaves a board of letters. */
  lemma WrittenKeepsLetters(g: Grid, occ: set<Position>, word: string, rows: nat, cols: nat, r: nat, c: nat, k: nat,
                            rnd: Stream, t: nat, p: nat)
    requires AllLetters(g) && IsWord(word)
    ensures AllLetters(Written(g, occ, word, rows, cols, r, c, k, rnd, t, p).grid)
  {
    WriteKeepsLetters(g, r, c, word);
    SwapKeepsLetters(WriteRun(g, r, c, word), (r, c + k), SwapTarget(r, c + k, rows, cols, rnd, p));
  }

  /** Writing a word of lower-case letters on a board of letters leaves a board of letters. */
  lemma WriteKeepsLetters(g: Grid, r: nat, c: nat, word: string)
    requires AllLetters(g) && IsWord(word)
    ensures AllLetters(WriteRun(g, r, c, word))
  {
    var w := WriteRun(g, r, c, word);
    WriteRunAt(g, r, c, word);
    forall i, j | 0 <= i < |w| && 0 <= j < |w[i]|
      ensures IsLetterCell(w[i][j])
    {
      if i == r && c <= j < c + |word| && r < |g| && c + |word| <= |g[r]| {
        UpperOfWordLetter(word, j - c);
        assert w[i][j] == Upper([word[j - c]]);
      }
    }
  }

  /** A swap of two cells keeps a board of letters a board of letters. */
  lemma SwapKeepsLetters(g: Grid, a: Position, b: Position)
    requires AllLetters(g)
    ensures AllLetters(SwapCells(g, a, b))
  {
    if InGrid(g, a) && InGrid(g, b) {
      SwapCellsAt(g, a, b);
    }
  }

  // ---------------------------------------------------------------------
  // One accepted attempt (`Settle`)
  // ---------------------------------------------------------------------

  /**
    What one accepted attempt does: it reports its own number and start; a
    run that does not fit changes nothing and reads no further draw; a run
    that fits is recorded in the set and reads the draw of the camouflaged
    cell and the draw of the swap (on a 1 x 1 board the swap fails after its
    draw).  The board keeps its shape.
  */
  lemma SettleEffect(g: Grid, occ: set<Position>, word: string, rows: nat, cols: nat, rnd: Stream, pos: nat, t: nat,
                     r: nat, c: nat)
    requires IsGrid(g, rows, cols)
    ensures var s := Settle(g, occ, word, rows, cols, rnd, pos, t, r, c);
      && IsGrid(s.grid, rows, cols)
      && !s.outcome.Exhausted? && s.outcome.attempt == t && s.outcome.row == r && s.outcome.col == c
      && (s.outcome.OutOfBounds? <==> !Fits(word, r, c, rows, cols))
      && (s.outcome.OutOfBounds? ==> s.grid == g && s.occupied == occ && s.next == pos + 2 * t + 2)
      && (!s.outcome.OutOfBounds? ==> s.occupied == occ + RunCells(r, c, |word|))
      && (s.outcome.NoNeighbour? <==> Fits(word, r, c, rows, cols) && rows == 1 && cols == 1)
      && (!s.outcome.OutOfBounds? ==> s.next == pos + 2 * t + 4)
  {
    SettleCases(g, occ, word, rows, cols, rnd, pos, t, r, c);
    if Fits(word, r, c, rows, cols) {
      var k, p := SwapOffset(rnd, pos, t, word), pos + 2 * t + 3;
      WrittenSwap(g, occ, word, rows, cols, r, c, k, rnd, t, p);
      WrittenShape(g, occ, word, rows, cols, r, c, k, rnd, t, p);
    }
  }

  /** An accepted attempt reports itself and its start, and never that it gave up. */
  lemma SettleOutcome(g: Grid, occ: set<Position>, word: string, rows: nat, cols: nat, rnd: Stream, pos: nat,
                      t: nat, r: nat, c: nat)
    ensures var s := Settle(g, occ, word, rows, cols, rnd, pos, t, r, c);
      !s.outcome.Exhausted? && s.outcome.attempt == t && s.outcome.row == r && s.outcome.col == c
  {
    SettleCases(g, occ, word, rows, cols, rnd, pos, t, r, c);
    if Fits(word, r, c, rows, cols) {
      var k, p := SwapOffset(rnd, pos, t, word), pos + 2 * t + 3;
      WrittenSwap(g, occ, word, rows, cols, r, c, k, rnd, t, p);
    }
  }

  /** An accepted attempt keeps a board of letters when its word is lower-case. */
  lemma SettleKeepsLetters(g: Grid, occ: set<Position>, word: string, rows: nat, cols: nat, rnd: Stream, pos: nat,
                           t: nat, r: nat, c: nat)
    requires AllLetters(g) && IsWord(word)
    ensures AllLetters(Settle(g, occ, word, rows, cols, rnd, pos, t, r, c).grid)
  {
    SettleCases(g, occ, word, rows, cols, rnd, pos, t, r, c);
    var s := Settle(g, occ, word, rows, cols, rnd, pos, t, r, c);
    if Fits(word, r, c, rows, cols) {
      var k, p := SwapOffset(rnd, pos, t, word), pos + 2 * t + 3;
      assert s == Written(g, occ, word, rows, cols, r, c, k, rnd, t, p);
      WrittenKeepsLetters(g, occ, word, rows, cols, r, c, k, rnd, t, p);
    } else {
      assert s.grid == g;
    }
  }

  // ---------------------------------------------------------------------
  // The retry loop (`TryFrom`, `PlaceWord`)
  // ---------------------------------------------------------------------

  /** Attempt `s` draws a start that the occupancy test rejects. */
  predicate Rejected(occ: set<Position>, word: string, rows: nat, cols: nat, rnd: Stream, pos: nat, s: nat) {
    Blocked(occ, word, StartRow(rnd, pos, s, rows), StartCol(rnd, pos, s, cols))
  }

  /** The first attempt from `t` on whose start is not rejected, or 1000 when there is none. */
  function FirstAccepted(occ: set<Position>, word: string, rows: nat, cols: nat, rnd: Stream, pos: nat, t: nat): (a: nat)
    decreases MaxAttempts - t
  {
    if t >= MaxAttempts then MaxAttempts
    else if !Rejected(occ, word, rows, cols, rnd, pos, t) then t
    else FirstAccepted(occ, word, rows, cols, rnd, pos, t + 1)
  }

  /** `FirstAccepted` is the first accepted attempt: every one before it is rejected, and it is not. */
  lemma {:induction false} FirstAcceptedIsFirst(occ: set<Position>, word: string, rows: nat, cols: nat, rnd: Stream,
                                                pos: nat, t: nat)
    requires t <= MaxAttempts
    ensures var a := FirstAccepted(occ, word, rows, cols, rnd, pos, t);
      && t <= a <= MaxAttempts
      && (forall s :: t <= s < a ==> Rejected(occ, word, rows, cols, rnd, pos, s))
      && (a < MaxAttempts ==> !Rejected(occ, word, rows, cols, rnd, pos, a))
    decreases MaxAttempts - t
  {
    if t < MaxAttempts && Rejected(occ, word, rows, cols, rnd, pos, t) {
      FirstAcceptedIsFirst(occ, word, rows, cols, rnd, pos, t + 1);
    }
  }

  /** How the call ends when attempt `a` is the first accepted one (no attempt at all when `a` is 1000). */
  function Decision(g: Grid, occ: set<Position>, word: string, rows: nat, cols: nat, rnd: Stream, pos: nat, a: nat)
    : Placement
  {
    if a >= MaxAttempts then Placement(Exhausted, g, occ, pos + 2 * MaxAttempts)
    else Settle(g, occ, word, rows, cols, rnd, pos, a, StartRow(rnd, pos, a, rows), StartCol(rnd, pos, a, cols))
  }

  /** The attempts from `t` on end as the first accepted one does. */
  lemma {:induction false} TryFromFirst(g: Grid, occ: set<Position>, word: string, rows: nat, cols: nat,
                                        rnd: Stream, pos: nat, t: nat)
    ensures TryFrom(g, occ, word, rows, cols, rnd, pos, t)
         == Decision(g, occ, word, rows, cols, rnd, pos, FirstAccepted(occ, word, rows, cols, rnd, pos, t))
    decreases MaxAttempts - t
  {
    if t < MaxAttempts && Rejected(occ, word, rows, cols, rnd, pos, t) {
      TryFromFirst(g, occ, word, rows, cols, rnd, pos, t + 1);
    }
  }

  /**
    `placeRandomWord` gives up exactly when all 1000 attempts are rejected,
    and then it leaves the board and the set as they were, having read two
    draws per attempt.  Otherwise it ends at the first accepted attempt,
    whose number and start the outcome reports.
  */
  lemma PlaceWordFirst(g: Grid, occ: set<Position>, word: string, rows: nat, cols: nat, rnd: Stream, pos: nat)
    ensures var p := PlaceWord(g, occ, word, rows, cols, rnd, pos);
      && (p.outcome.Exhausted? <==> forall s :: 0 <= s < MaxAttempts ==> Rejected(occ, word, rows, cols, rnd, pos, s))
      && (p.outcome.Exhausted? ==> p.grid == g && p.occupied == occ && p.next == pos + 2 * MaxAttempts)
      && (!p.outcome.Exhausted? ==>
            var a := p.outcome.attempt;
            && a < MaxAttempts
            && (forall s :: 0 <= s < a ==> Rejected(occ, word, rows, cols, rnd, pos, s))
            && !Rejected(occ, word, rows, cols, rnd, pos, a)
            && p.outcome.row == StartRow(rnd, pos, a, rows) && p.outcome.col == StartCol(rnd, pos, a, cols)
            && p == Settle(g, occ, word, rows, cols, rnd, pos, a, p.outcome.row, p.outcome.col))
  {
    var a := FirstAccepted(occ, word, rows, cols, rnd, pos, 0);
    TryFromFirst(g, occ, word, rows, cols, rnd, pos, 0);
    FirstAcceptedIsFirst(occ, word, rows, cols, rnd, pos, 0);
    if a < MaxAttempts {
      SettleOutcome(g, occ, word, rows, cols, rnd, pos, a, StartRow(rnd, pos, a, rows), StartCol(rnd, pos, a, cols));
    }
  }

  /**
    One call of `placeRandomWord`: giving up or meeting a run that does not
    fit leaves the board and the set as they were; otherwise the set grows by
    exactly the cells of the run at the drawn start.  The board keeps its
    shape either way, and the swap finds no neighbour only on a 1 x 1 board.
  */
  lemma PlaceWordEffect(g: Grid, occ: set<Position>, word: string, rows: nat, cols: nat, rnd: Stream, pos: nat)
    requires IsGrid(g, rows, cols)
    ensures var p := PlaceWord(g, occ, word, rows, cols, rnd, pos);
      && IsGrid(p.grid, rows, cols)
      && ((p.outcome.Exhausted? || p.outcome.OutOfBounds?) ==> p.grid == g && p.occupied == occ)
      && ((p.outcome.Placed? || p.outcome.NoNeighbour?) ==>
            p.occupied == occ + RunCells(p.outcome.row, p.outcome.col, |word|))
      && (p.outcome.OutOfBounds? <==> !p.outcome.Exhausted? && !Fits(word, p.outcome.row, p.outcome.col, rows, cols))
      && (p.outcome.NoNeighbour? ==> rows == 1 && cols == 1)
  {
    PlaceWordFirst(g, occ, word, rows, cols, rnd, pos);
    var p := PlaceWord(g, occ, word, rows, cols, rnd, pos);
    if !p.outcome.Exhausted? {
      SettleEffect(g, occ, word, rows, cols, rnd, pos, p.outcome.attempt, p.outcome.row, p.outcome.col);
    }
  }

  /**
    A call that places its word (with or without the swap) ends as the
    write of the attempt it reports: the run fits at the reported start, and
    the camouflaged cell and the swap are those of that attempt's draws.  What
    such a write does to each cell is stated by WrittenRun and WrittenElsewhere.
  */
  lemma PlaceWordWritten(g: Grid, occ: set<Position>, word: string, rows: nat, cols: nat, rnd: Stream, pos: nat)
    requires IsGrid(g, rows, cols)
    ensures var p := PlaceWord(g, occ, word, rows, cols, rnd, pos);
      (p.outcome.Placed? || p.outcome.NoNeighbour?) ==>
        var a, r, c := p.outcome.attempt, p.outcome.row, p.outcome.col;
        var k := SwapOffset(rnd, pos, a, word);
        && Fits(word, r, c, rows, cols) && c + k < cols
        && p == Written(g, occ, word, rows, cols, r, c, k, rnd, a, pos + 2 * a + 3)
  {
    PlaceWordFirst(g, occ, word, rows, cols, rnd, pos);
    var p := PlaceWord(g, occ, word, rows, cols, rnd, pos);
    if p.outcome.Placed? || p.outcome.NoNeighbour? {
      var a, r, c := p.outcome.attempt, p.outcome.row, p.outcome.col;
      SettleEffect(g, occ, word, rows, cols, rnd, pos, a, r, c);
      SettleCases(g, occ, word, rows, cols, rnd, pos, a, r, c);
    }
  }

  /** A call reads at least the two draws of its first attempt and at most 2000 plus the two of a swap. */
  lemma PlaceWordDraws(g: Grid, occ: set<Position>, word: string, rows: nat, cols: nat, rnd: Stream, pos: nat)
    requires IsGrid(g, rows, cols)
    ensures var p := PlaceWord(g, occ, word, rows, cols, rnd, pos);
      pos + 2 <= p.next <= pos + 2 * MaxAttempts + 2
  {
    PlaceWordFirst(g, occ, word, rows, cols, rnd, pos);
    var p := PlaceWord(g, occ, word, rows, cols, rnd, pos);
    if !p.outcome.Exhausted? {
      SettleEffect(g, occ, word, rows, cols, rnd, pos, p.outcome.attempt, p.outcome.row, p.outcome.col);
    }
  }

  /** Placing a word of lower-case letters on a board of letters leaves a board of letters. */
  lemma PlaceWordKeepsLetters(g: Grid, occ: set<Position>, word: string, rows: nat, cols: nat, rnd: Stream, pos: nat)
    requires AllLetters(g) && IsWord(word)
    ensures AllLetters(PlaceWord(g, occ, word, rows, cols, rnd, pos).grid)
  {
    PlaceWordFirst(g, occ, word, rows, cols, rnd, pos);
    var p := PlaceWord(g, occ, word, rows, cols, rnd, pos);
    if !p.outcome.Exhausted? {
      SettleKeepsLetters(g, occ, word, rows, cols, rnd, pos, p.outcome.attempt, p.outcome.row, p.outcome.col);
    }
  }
}
