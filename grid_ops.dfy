/**
  The grid operations of the board service: the fit check `canPlaceWord`,
  the camouflage swap `swapAdjacentCells` and the initial fill
  `createRandomBoard`.
*/
module GridOps {
  import opened Draws
  import opened Text
  import opened Grids
  import opened LetterSampler

  /** `canPlaceWord(word, row, col, dRow, dCol, rows, cols)`, with its `||`. */
  function CanPlaceWord(word: string, row: int, col: int, dRow: int, dCol: int, rows: int, cols: int): bool {
    col + |word| * dCol <= cols || row + |word| * dRow <= rows
  }

  /**
    Called for a horizontal run (dRow 0, dCol 1) the check holds exactly when
    the run fits in the row or the start row is at most `rows`: the second
    disjunct makes it true for every start row a draw can give.
  */
  lemma CanPlaceHorizontalIff(word: string, row: int, col: int, rows: int, cols: int)
    ensures CanPlaceWord(word, row, col, 0, 1, rows, cols) <==> col + |word| <= cols || row <= rows
  {
  }

  /** Called for a vertical run (dRow 1, dCol 0) it holds exactly when the run fits in the column or `col <= cols`. */
  lemma CanPlaceVerticalIff(word: string, row: int, col: int, rows: int, cols: int)
    ensures CanPlaceWord(word, row, col, 1, 0, rows, cols) <==> row + |word| <= rows || col <= cols
  {
  }

  /**
    The candidates of `swapAdjacentCells`: the orthogonal neighbours of
    (row, col) inside a rows x cols board, in the order up, down, left, right.
  */
  function Neighbours(row: int, col: int, rows: int, cols: int): (ns: seq<Position>)
    ensures |ns| <= 4
  {
    (if row > 0 then [(row - 1, col)] else []) +
    (if row < rows - 1 then [(row + 1, col)] else []) +
    (if col > 0 then [(row, col - 1)] else []) +
    (if col < cols - 1 then [(row, col + 1)] else [])
  }

  /** For a cell of the board the candidates are exactly its in-board orthogonal neighbours. */
  lemma NeighboursIff(row: int, col: int, rows: int, cols: int, q: Position)
    requires InBounds((row, col), rows, cols)
    ensures q in Neighbours(row, col, rows, cols) <==> InBounds(q, rows, cols) && Adjacent((row, col), q)
  {
  }

  /** Only the single cell of a 1 x 1 board has no candidate. */
  lemma NeighboursEmptyIff(row: int, col: int, rows: int, cols: int)
    requires InBounds((row, col), rows, cols)
    ensures |Neighbours(row, col, rows, cols)| == 0 <==> rows == 1 && cols == 1
  {
  }

  /** The neighbour `swapAdjacentCells` picks with draw `p` of `Math.random()` (when there is one). */
  function SwapTarget(row: int, col: int, rows: int, cols: int, rnd: Stream, p: nat): (q: Position)
    ensures |Neighbours(row, col, rows, cols)| > 0 ==> q in Neighbours(row, col, rows, cols)
  {
    var ns := Neighbours(row, col, rows, cols);
    if |ns| == 0 then (row, col) else ns[Scaled(rnd(p), |ns|)]
  }

  /**
    `swapAdjacentCells(row, col, newBoard)`: exchanges the cell at (row, col)
    with one of its in-board neighbours, and returns the same board.  The
    board size is read from the board itself (`newBoard.length`,
    `newBoard[0].length`).  Without any neighbour (a 1 x 1 board) the source
    fails on the destructuring of `adjacentCells[0]`, so a neighbour is required.
  */
  method SwapAdjacentCells(row: nat, col: nat, board: Board, rnd: Stream, pos: nat) returns (b: Board, next: nat)
    requires |board.grid| > 0 && IsGrid(board.grid, |board.grid|, |board.grid[0]|)
    requires InBounds((row, col), |board.grid|, |board.grid[0]|)
    requires |Neighbours(row, col, |board.grid|, |board.grid[0]|)| > 0
    modifies board
    ensures b == board && next == pos + 1
    ensures board.grid == SwapCells(old(board.grid), (row, col),
                                    SwapTarget(row, col, |old(board.grid)|, |old(board.grid)[0]|, rnd, pos))
  {
    var rows := |board.grid|;
    var cols := |board.grid[0]|;
    var adjacentCells: seq<Position> := [];
    if row > 0 { adjacentCells := adjacentCells + [(row - 1, col)]; }
    if row < rows - 1 { adjacentCells := adjacentCells + [(row + 1, col)]; }
    if col > 0 { adjacentCells := adjacentCells + [(row, col - 1)]; }
    if col < cols - 1 { adjacentCells := adjacentCells + [(row, col + 1)]; }
    assert adjacentCells == Neighbours(row, col, rows, cols);

    var randomIndex := Scaled(rnd(pos), |adjacentCells|);
    next := pos + 1;
    var (adjRow, adjCol) := adjacentCells[randomIndex];
    assert (adjRow, adjCol) == SwapTarget(row, col, rows, cols, rnd, pos);
    NeighboursIff(row, col, rows, cols, (adjRow, adjCol));
    assert InGrid(board.grid, (row, col)) && InGrid(board.grid, (adjRow, adjCol));
    var temp := board.grid[row][col];
    board.grid := SetCell(board.grid, (row, col), board.grid[adjRow][adjCol]);
    board.grid := SetCell(board.grid, (adjRow, adjCol), temp);
    b := board;
  }

  /** One row of the initial board: `cols` letters drawn from the stream at `p`, `p + 1`, ... */
  function RandomRow(cols: nat, rnd: Stream, p: nat): (row: seq<string>)
    ensures |row| == cols
  {
    seq(cols, j requires 0 <= j < cols => SampleLetter(rnd(p + j)))
  }

  /** The initial board: rows x cols letters drawn in row-major order from the stream at `p`. */
  function RandomGrid(rows: nat, cols: nat, rnd: Stream, p: nat): (g: Grid)
    ensures IsGrid(g, rows, cols)
  {
    seq(rows, i requires 0 <= i < rows => RandomRow(cols, rnd, p + i * cols))
  }

  /**
    Each cell of the initial board is the sampler's letter for its own draw,
    the draw at its row-major index, so each cell is one of the ten anchors.
  */
  lemma RandomGridCell(rows: nat, cols: nat, rnd: Stream, p: nat, i: nat, j: nat)
    requires i < rows && j < cols
    ensures RandomGrid(rows, cols, rnd, p)[i][j] == SampleLetter(rnd(p + i * cols + j))
    ensures |RandomGrid(rows, cols, rnd, p)[i][j]| == 1 && RandomGrid(rows, cols, rnd, p)[i][j][0] in Letters
  {
  }

  /** Every cell of the initial board is an upper-case letter. */
  lemma RandomGridLetters(rows: nat, cols: nat, rnd: Stream, p: nat)
    ensures AllLetters(RandomGrid(rows, cols, rnd, p))
  {
    var g := RandomGrid(rows, cols, rnd, p);
    forall i, j | 0 <= i < |g| && 0 <= j < |g[i]|
      ensures IsLetterCell(g[i][j])
    {
      RandomGridCell(rows, cols, rnd, p, i, j);
    }
  }

  /** A row drawn one letter longer ends with the letter of its next draw. */
  lemma RandomRowGrow(j: nat, rnd: Stream, p: nat)
    ensures RandomRow(j + 1, rnd, p) == RandomRow(j, rnd, p) + [SampleLetter(rnd(p + j))]
  {
    assert RandomRow(j + 1, rnd, p)[..j] == RandomRow(j, rnd, p);
  }

  /** A board drawn one row longer ends with the row drawn after the first `i` rows. */
  lemma RandomGridGrow(i: nat, cols: nat, rnd: Stream, p: nat)
    ensures RandomGrid(i + 1, cols, rnd, p) == RandomGrid(i, cols, rnd, p) + [RandomRow(cols, rnd, p + i * cols)]
    ensures p + i * cols + cols == p + (i + 1) * cols
  {
    assert RandomGrid(i + 1, cols, rnd, p)[..i] == RandomGrid(i, cols, rnd, p);
  }

  /** `newBoard[i][j] = ...` on the last row, one past its end, appends to that row. */
  lemma PushToLastRow(g: Grid, row: seq<string>, v: string)
    ensures (g + [row])[|g| := row + [v]] == g + [row + [v]]
  {
  }

  /** `createRandomBoard(rows, cols)`: a fresh board filled cell by cell with `generateRandomLetter()`. */
  method CreateRandomBoard(rows: nat, cols: nat, rnd: Stream, pos: nat) returns (board: Board, next: nat)
    ensures fresh(board)
    ensures board.grid == RandomGrid(rows, cols, rnd, pos)
    ensures next == pos + rows * cols
  {
    board := new Board();
    next := pos;
    for i := 0 to rows
      invariant board.grid == RandomGrid(i, cols, rnd, pos)
      invariant next == pos + i * cols
    {
      var rowStart := next;
      board.grid := board.grid + [[]];
      for j := 0 to cols
        invariant board.grid == RandomGrid(i, cols, rnd, pos) + [RandomRow(j, rnd, rowStart)]
        invariant next == rowStart + j
      {
        var letter;
        letter, next := GenerateRandomLetter(rnd, rowStart + j);
        RandomRowGrow(j, rnd, rowStart);
        PushToLastRow(RandomGrid(i, cols, rnd, pos), RandomRow(j, rnd, rowStart), letter);
        board.grid := board.grid[i := board.grid[i] + [letter]];
      }
      RandomGridGrow(i, cols, rnd, pos);
    }
  }
}
