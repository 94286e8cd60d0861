/**
  `generateBoard(rows, cols, wordList)` up to the point where the result is
  handed to the database: a random board, a random count of words for the
  first loop, a shuffled copy of the list, every word placed in turn on the
  one board and the one set of occupied cells, and a last pass that
  upper-cases each cell and gives an empty one a fresh letter.

  Where the source throws (a 1 x 1 board at the swap, an index past the end
  of the list) or writes past the end of a row, the model stops with a
  `GenError`.
*/
module Generation {
  import opened Draws
  import opened Text
  import opened Grids
  import opened GridOps
  import opened LetterSampler
  import opened Shuffle
  import opened Placement
  import opened PlacementFacts

  /** `Math.floor(Math.random() * 6)`: the first loop places between 0 and 5 words. */
  const HorizontalLimit: nat := 6

  /** Why a generation ends without a board. */
  datatype GenError =
    | WordOutOfBounds(word: string, row: nat, col: nat)     // the run passes the end of its row
    | NoNeighbourForSwap(word: string, row: nat, col: nat)  // the swap on a 1 x 1 board
    | MissingWord(index: nat)                               // `shuffledWords[index]` is undefined

  datatype GenResult = Generated(grid: Grid, next: nat) | Failed(error: GenError)

  /** The board, the set and the stream position after some words, and the error that stopped them, if any. */
  datatype Progress = Progress(grid: Grid, occupied: set<Position>, next: nat, error: Option<GenError>)

  /** The error a placement stands for.  Giving up after 1000 attempts is none: the source logs it and goes on. */
  function PlacementError(outcome: Outcome, word: string): (e: Option<GenError>)
    ensures e.None? <==> outcome.Placed? || outcome.Exhausted?
  {
    match outcome
    case OutOfBounds(_, r, c) => Some(WordOutOfBounds(word, r, c))
    case NoNeighbour(_, r, c) => Some(NoNeighbourForSwap(word, r, c))
    case _ => None
  }

  // ---------------------------------------------------------------------
  // The two placement loops
  // ---------------------------------------------------------------------

  /** A function that stands for `placeRandomWord`: board, set, word and stream position to the placement. */
  type Placer = (Grid, set<Position>, string, nat) -> Placement

  /**
    `step` is `placeRandomWord` on a rows x cols board reading the stream
    `rnd`.  The loops below are proved for any such `step`, which keeps the
    inside of one placement out of the loop proofs.
  */
  ghost predicate Places(step: Placer, rows: nat, cols: nat, rnd: Stream) {
    forall g, occ, w, p {:trigger PlaceWord(g, occ, w, rows, cols, rnd, p)} ::
      step(g, occ, w, p) == PlaceWord(g, occ, w, rows, cols, rnd, p)
  }

  /** `placeRandomWord` on a rows x cols board reading the stream `rnd`. */
  function Placing(rows: nat, cols: nat, rnd: Stream): (step: Placer)
    ensures Places(step, rows, cols, rnd)
  {
    (g: Grid, occ: set<Position>, w: string, p: nat) => PlaceWord(g, occ, w, rows, cols, rnd, p)
  }

  /** `step` for each of `words` in order, on one board and one set; the first error ends the run. */
  function PlaceWords(step: Placer, g: Grid, occ: set<Position>, words: seq<string>, p: nat): Progress
    decreases |words|
  {
    if words == [] then Progress(g, occ, p, None)
    else
      var pl := step(g, occ, words[0], p);
      match PlacementError(pl.outcome, words[0])
      case Some(e) => Progress(pl.grid, pl.occupied, pl.next, Some(e))
      case None => PlaceWords(step, pl.grid, pl.occupied, words[1..], pl.next)
  }

  /** Placing the words from index `i` on is placing word `i`, then the rest unless it failed. */
  lemma PlaceWordsFrom(step: Placer, g: Grid, occ: set<Position>, words: seq<string>, i: nat, p: nat)
    requires i < |words|
    ensures PlaceWords(step, g, occ, words[i..], p) ==
      var pl := step(g, occ, words[i], p);
      match PlacementError(pl.outcome, words[i])
      case Some(e) => Progress(pl.grid, pl.occupied, pl.next, Some(e))
      case None => PlaceWords(step, pl.grid, pl.occupied, words[i + 1..], pl.next)
  {
    assert words[i..][0] == words[i];
    assert words[i..][1..] == words[i + 1..];
  }

  /**
    The placements keep the shape of the board and only add occupied cells.
    They never report a missing word, and they report a swap without a
    neighbour only on a 1 x 1 board.
  */
  lemma {:induction false} PlaceWordsEffect(g: Grid, occ: set<Position>, words: seq<string>, rows: nat, cols: nat,
                                            rnd: Stream, p: nat)
    requires IsGrid(g, rows, cols)
    ensures var pr := PlaceWords(Placing(rows, cols, rnd), g, occ, words, p);
      && IsGrid(pr.grid, rows, cols)
      && occ <= pr.occupied
      && (pr.error.Some? ==> !pr.error.value.MissingWord?)
      && (pr.error.Some? && pr.error.value.NoNeighbourForSwap? ==> rows == 1 && cols == 1)
    decreases |words|
  {
    if words != [] {
      var pl := PlaceWord(g, occ, words[0], rows, cols, rnd, p);
      PlaceWordEffect(g, occ, words[0], rows, cols, rnd, p);
      assert occ <= pl.occupied;
      if PlacementError(pl.outcome, words[0]).None? {
        PlaceWordsEffect(pl.grid, pl.occupied, words[1..], rows, cols, rnd, pl.next);
      }
    }
  }

  /** Placing lower-case words on a board of letters leaves a board of letters. */
  lemma {:induction false} PlaceWordsKeepsLetters(g: Grid, occ: set<Position>, words: seq<string>, rows: nat,
                                                  cols: nat, rnd: Stream, p: nat)
    requires AllLetters(g)
    requires forall i :: 0 <= i < |words| ==> IsWord(words[i])
    ensures AllLetters(PlaceWords(Placing(rows, cols, rnd), g, occ, words, p).grid)
    decreases |words|
  {
    if words != [] {
      var pl := PlaceWord(g, occ, words[0], rows, cols, rnd, p);
      PlaceWordKeepsLetters(g, occ, words[0], rows, cols, rnd, p);
      if PlacementError(pl.outcome, words[0]).None? {
        PlaceWordsKeepsLetters(pl.grid, pl.occupied, words[1..], rows, cols, rnd, pl.next);
      }
    }
  }

  // ---------------------------------------------------------------------
  // The last pass over the cells
  // ---------------------------------------------------------------------

  /** `generateRandomLetter().toUpperCase()` on draw `p`, for each `p`. */
  function FreshLetters(rnd: Stream): nat -> string {
    (p: nat) => Upper(SampleLetter(rnd(p)))
  }

  /** A fresh letter is the sampler's letter for its draw, and so an upper-case letter. */
  lemma FreshLetter(rnd: Stream, p: nat)
    ensures FreshLetters(rnd)(p) == SampleLetter(rnd(p)) && IsLetterCell(FreshLetters(rnd)(p))
  {
    UpperOfLetterCell(SampleLetter(rnd(p)));
  }

  /**
    `letter ? letter.toUpperCase() : generateRandomLetter().toUpperCase()`,
    an empty cell taking the fresh letter of draw `p`. In the source the
    falsy cell is an `undefined` swapped in from past the end of a grown
    row; the model stops before a row grows, so its cells are never empty.
  */
  function FillCell(cell: string, letters: nat -> string, p: nat): string {
    if cell != "" then Upper(cell) else letters(p)
  }

  /** The number of empty cells of a row: the draws its pass reads. */
  function EmptyCount(row: seq<string>): nat {
    if row == [] then 0 else (if row[0] == "" then 1 else 0) + EmptyCount(row[1..])
  }

  /** The pass over one row, its empty cells reading the stream from `p` on, left to right. */
  function FillRow(row: seq<string>, letters: nat -> string, p: nat): (cells: seq<string>)
    ensures |cells| == |row|
  {
    if row == [] then [] else [FillCell(row[0], letters, p)] + FillRow(row[1..], letters, p + (if row[0] == "" then 1 else 0))
  }

  /** The number of empty cells of a board. */
  function GridEmptyCount(g: Grid): nat {
    if g == [] then 0 else EmptyCount(g[0]) + GridEmptyCount(g[1..])
  }

  /** The pass over the whole board, row by row. */
  function FillGrid(g: Grid, letters: nat -> string, p: nat): (h: Grid)
    ensures |h| == |g|
  {
    if g == [] then [] else [FillRow(g[0], letters, p)] + FillGrid(g[1..], letters, p + EmptyCount(g[0]))
  }

  /**
    Cell `j` of a row is upper-cased when it holds something; when it is
    empty it gets the letter of its own draw, which comes after the draws of
    the empty cells to its left.
  */
  lemma {:induction false} FillRowAt(row: seq<string>, letters: nat -> string, p: nat, j: nat)
    requires j < |row|
    ensures FillRow(row, letters, p)[j] == FillCell(row[j], letters, p + EmptyCount(row[..j]))
    decreases j
  {
    if j > 0 {
      var d := if row[0] == "" then 1 else 0;
      var e := EmptyCount(row[1..][..j - 1]);
      FillRowAt(row[1..], letters, p + d, j - 1);
      assert row[..j][1..] == row[1..][..j - 1];
      assert p + d + e == p + EmptyCount(row[..j]);
      assert row[1..][j - 1] == row[j];
    }
  }

  /** Row `i` of the finished board is the pass over row `i`, after the draws of the rows above it. */
  lemma {:induction false} FillGridAt(g: Grid, letters: nat -> string, p: nat, i: nat)
    requires i < |g|
    ensures FillGrid(g, letters, p)[i] == FillRow(g[i], letters, p + GridEmptyCount(g[..i]))
    decreases i
  {
    if i > 0 {
      FillGridAt(g[1..], letters, p + EmptyCount(g[0]), i - 1);
      assert g[..i][1..] == g[1..][..i - 1];
      assert g[..i][0] == g[0];
    }
  }

  /**
    Each cell of the finished board: a cell holding something is
    upper-cased, an empty one gets the sampler's letter of its own draw (the
    draws go to the empty cells in row-major order), so it holds an
    upper-case letter.
  */
  lemma FillGridCell(g: Grid, rnd: Stream, p: nat, i: nat, j: nat)
    requires i < |g| && j < |g[i]|
    ensures var h := FillGrid(g, FreshLetters(rnd), p);
      && |h[i]| == |g[i]|
      && (g[i][j] != "" ==> h[i][j] == Upper(g[i][j]))
      && (g[i][j] == "" ==>
            var q := p + GridEmptyCount(g[..i]) + EmptyCount(g[i][..j]);
            h[i][j] == SampleLetter(rnd(q)) && IsLetterCell(h[i][j]))
  {
    var q0 := p + GridEmptyCount(g[..i]);
    FillGridAt(g, FreshLetters(rnd), p, i);
    FillRowAt(g[i], FreshLetters(rnd), q0, j);
    FreshLetter(rnd, q0 + EmptyCount(g[i][..j]));
  }

  /** On a row of letters the pass changes nothing and reads no draw. */
  lemma {:induction false} FillRowOfLetters(row: seq<string>, letters: nat -> string, p: nat)
    requires forall j :: 0 <= j < |row| ==> IsLetterCell(row[j])
    ensures FillRow(row, letters, p) == row && EmptyCount(row) == 0
    decreases |row|
  {
    if row != [] {
      UpperOfLetterCell(row[0]);
      FillRowOfLetters(row[1..], letters, p);
    }
  }

  /** On a board of letters the last pass changes nothing and reads no draw. */
  lemma {:induction false} FillGridOfLetters(g: Grid, letters: nat -> string, p: nat)
    requires AllLetters(g)
    ensures FillGrid(g, letters, p) == g && GridEmptyCount(g) == 0
    decreases |g|
  {
    if g != [] {
      FillRowOfLetters(g[0], letters, p);
      assert AllLetters(g[1..]) by {
        forall i, j | 0 <= i < |g[1..]| && 0 <= j < |g[1..][i]|
          ensures IsLetterCell(g[1..][i][j])
        {
          assert g[1..][i] == g[i + 1];
        }
      }
      FillGridOfLetters(g[1..], letters, p);
    }
  }

  // ---------------------------------------------------------------------
  // The whole generation
  // ---------------------------------------------------------------------

  /** How the generation ends once the placements have run: their error, a missing word, or the filled board. */
  function Conclude(pr: Progress, horizontal: nat, n: nat, rnd: Stream): GenResult {
    if pr.error.Some? then Failed(pr.error.value)
    else if horizontal > n then Failed(MissingWord(n))
    else Generated(FillGrid(pr.grid, FreshLetters(rnd), pr.next), pr.next + GridEmptyCount(pr.grid))
  }

  /** The draw of the word count: the first one after the rows x cols letters of the initial board. */
  function CountDraw(rows: nat, cols: nat, pos: nat): nat {
    pos + rows * cols
  }

  /**
    `generateBoard(rows, cols, wordList)` on the stream from `pos`: the
    board's rows x cols draws, the draw of the word count, the draws of the
    shuffle, the placements and the last pass, in this order.
  */
  function Generate(rows: nat, cols: nat, words: seq<string>, rnd: Stream, pos: nat): GenResult {
    Conclude(Placements(rows, cols, words, rnd, pos), Scaled(rnd(CountDraw(rows, cols, pos)), HorizontalLimit), |words|, rnd)
  }

  /**
    After the placements: a board is produced exactly when they raised no
    error and the first loop did not run past the list; it has the shape of
    the placed board, and on a board of letters it is that board, with no
    further draw.  A missing word is the index just past a list shorter
    than the word count, so of fewer than five words.
  */
  lemma ConcludeFacts(pr: Progress, h: nat, n: nat, rnd: Stream, rows: nat, cols: nat)
    requires IsGrid(pr.grid, rows, cols) && h < HorizontalLimit
    requires pr.error.Some? ==> !pr.error.value.MissingWord?
    ensures var r := Conclude(pr, h, n, rnd);
      && (r.Generated? <==> pr.error.None? && h <= n)
      && (r.Generated? ==> IsGrid(r.grid, rows, cols))
      && (r.Generated? && AllLetters(pr.grid) ==> r.grid == pr.grid && r.next == pr.next)
      && (r.Failed? && r.error.MissingWord? <==> pr.error.None? && h > n)
      && (r.Failed? && r.error.MissingWord? ==> r.error.index == n && n < HorizontalLimit - 1)
      && (r.Failed? && !r.error.MissingWord? ==> pr.error == Some(r.error))
  {
    FillGridShape(pr.grid, FreshLetters(rnd), pr.next, rows, cols);
    if AllLetters(pr.grid) {
      FillGridOfLetters(pr.grid, FreshLetters(rnd), pr.next);
    }
  }

  /** The last pass keeps the shape of the board. */
  lemma FillGridShape(g: Grid, letters: nat -> string, p: nat, rows: nat, cols: nat)
    requires IsGrid(g, rows, cols)
    ensures IsGrid(FillGrid(g, letters, p), rows, cols)
  {
    forall i | 0 <= i < rows
      ensures |FillGrid(g, letters, p)[i]| == cols
    {
      FillGridAt(g, letters, p, i);
    }
  }

  /** The placements of a generation, on the initial board with the shuffled list. */
  function Placements(rows: nat, cols: nat, words: seq<string>, rnd: Stream, pos: nat): Progress {
    var p1 := CountDraw(rows, cols, pos);
    PlaceWords(Placing(rows, cols, rnd), RandomGrid(rows, cols, rnd, pos), {}, Shuffled(words, rnd, p1 + 1),
               p1 + 1 + ShuffleDraws(|words|))
  }

  /** The placements of a generation keep the shape and raise no missing word. */
  lemma PlacementsEffect(rows: nat, cols: nat, words: seq<string>, rnd: Stream, pos: nat)
    ensures var pr := Placements(rows, cols, words, rnd, pos);
      && IsGrid(pr.grid, rows, cols)
      && (pr.error.Some? ==> !pr.error.value.MissingWord?)
      && (pr.error.Some? && pr.error.value.NoNeighbourForSwap? ==> rows == 1 && cols == 1)
  {
    var p1 := CountDraw(rows, cols, pos);
    PlaceWordsEffect(RandomGrid(rows, cols, rnd, pos), {}, Shuffled(words, rnd, p1 + 1), rows, cols, rnd,
                     p1 + 1 + ShuffleDraws(|words|));
  }

  /** Lower-case words leave the placements a board of letters. */
  lemma PlacementsLetters(rows: nat, cols: nat, words: seq<string>, rnd: Stream, pos: nat)
    requires forall i :: 0 <= i < |words| ==> IsWord(words[i])
    ensures AllLetters(Placements(rows, cols, words, rnd, pos).grid)
  {
    var p1 := CountDraw(rows, cols, pos);
    var shuffled := Shuffled(words, rnd, p1 + 1);
    ShuffledPermutes(words, rnd, p1 + 1);
    forall i | 0 <= i < |shuffled|
      ensures IsWord(shuffled[i])
    {
      assert shuffled[i] in multiset(words);
    }
    RandomGridLetters(rows, cols, rnd, pos);
    PlaceWordsKeepsLetters(RandomGrid(rows, cols, rnd, pos), {}, shuffled, rows, cols, rnd,
                           p1 + 1 + ShuffleDraws(|words|));
  }

  /**
    A generation produces a board exactly when the placements raised no
    error and the word count drawn is at most the length of the list.
  */
  lemma GenerateSucceedsIff(rows: nat, cols: nat, words: seq<string>, rnd: Stream, pos: nat)
    ensures Generate(rows, cols, words, rnd, pos).Generated? <==>
      Placements(rows, cols, words, rnd, pos).error.None? && Scaled(rnd(CountDraw(rows, cols, pos)), HorizontalLimit) <= |words|
  {
    PlacementsEffect(rows, cols, words, rnd, pos);
    ConcludeFacts(Placements(rows, cols, words, rnd, pos), Scaled(rnd(CountDraw(rows, cols, pos)), HorizontalLimit),
                  |words|, rnd, rows, cols);
  }

  /**
    A generation fails on a missing word exactly when the placements raised
    no error but the word count drawn exceeds the list; the word missing is
    the one just past the end of a list of fewer than five words.
  */
  lemma GenerateMissingWordIff(rows: nat, cols: nat, words: seq<string>, rnd: Stream, pos: nat)
    ensures var r := Generate(rows, cols, words, rnd, pos);
      r.Failed? && r.error.MissingWord? <==>
      Placements(rows, cols, words, rnd, pos).error.None? && Scaled(rnd(CountDraw(rows, cols, pos)), HorizontalLimit) > |words|
    ensures var r := Generate(rows, cols, words, rnd, pos);
      r.Failed? && r.error.MissingWord? ==> r.error.index == |words| && |words| < HorizontalLimit - 1
  {
    PlacementsEffect(rows, cols, words, rnd, pos);
    ConcludeFacts(Placements(rows, cols, words, rnd, pos), Scaled(rnd(CountDraw(rows, cols, pos)), HorizontalLimit),
                  |words|, rnd, rows, cols);
  }

  /**
    Every other failure is the error the placements raised, and a swap
    without a neighbour happens only on a 1 x 1 board.
  */
  lemma GeneratePlacementErrors(rows: nat, cols: nat, words: seq<string>, rnd: Stream, pos: nat)
    ensures var r := Generate(rows, cols, words, rnd, pos);
      r.Failed? && !r.error.MissingWord? ==> Placements(rows, cols, words, rnd, pos).error == Some(r.error)
    ensures var r := Generate(rows, cols, words, rnd, pos);
      r.Failed? && r.error.NoNeighbourForSwap? ==> rows == 1 && cols == 1
  {
    PlacementsEffect(rows, cols, words, rnd, pos);
    ConcludeFacts(Placements(rows, cols, words, rnd, pos), Scaled(rnd(CountDraw(rows, cols, pos)), HorizontalLimit),
                  |words|, rnd, rows, cols);
  }

  /**
    A finished board has the requested shape; when every word is lower-case,
    every cell holds one upper-case letter, and the last pass found nothing
    to fill, so it is the board the placements left.
  */
  lemma GenerateBoardLetters(rows: nat, cols: nat, words: seq<string>, rnd: Stream, pos: nat)
    ensures var r := Generate(rows, cols, words, rnd, pos);
      r.Generated? ==> IsGrid(r.grid, rows, cols)
    ensures var r := Generate(rows, cols, words, rnd, pos);
      var pr := Placements(rows, cols, words, rnd, pos);
      r.Generated? && (forall i :: 0 <= i < |words| ==> IsWord(words[i])) ==>
        AllLetters(r.grid) && r.grid == pr.grid && r.next == pr.next
  {
    PlacementsEffect(rows, cols, words, rnd, pos);
    if forall i :: 0 <= i < |words| ==> IsWord(words[i]) {
      PlacementsLetters(rows, cols, words, rnd, pos);
    }
    ConcludeFacts(Placements(rows, cols, words, rnd, pos), Scaled(rnd(CountDraw(rows, cols, pos)), HorizontalLimit),
                  |words|, rnd, rows, cols);
  }

  // ---------------------------------------------------------------------
  // The method
  // ---------------------------------------------------------------------

  /** One `placeRandomWord` call of either loop, with the error it stands for. */
  method PlaceNext(word: string, board: Board, rows: nat, cols: nat, occupied: PositionSet, rnd: Stream, pos: nat)
    returns (error: Option<GenError>, next: nat)
    requires IsGrid(board.grid, rows, cols)
    modifies board, occupied
    ensures var pl := PlaceWord(old(board.grid), old(occupied.members), word, rows, cols, rnd, pos);
      && board.grid == pl.grid && occupied.members == pl.occupied && next == pl.next
      && error == PlacementError(pl.outcome, word)
    ensures IsGrid(board.grid, rows, cols)
  {
    PlaceWordEffect(board.grid, occupied.members, word, rows, cols, rnd, pos);
    var outcome;
    outcome, next := PlaceRandomWord(word, board, rows, cols, occupied, rnd, pos);
    error := PlacementError(outcome, word);
  }

  /**
    Word `i` of either loop: on success what is left to place is the list
    after it; an error is the error of placing the list from `i` on.
  */
  method PlaceStep(words: array<string>, i: nat, board: Board, rows: nat, cols: nat, occupied: PositionSet,
                   rnd: Stream, pos: nat, ghost step: Placer)
    returns (error: Option<GenError>, next: nat)
    requires i < words.Length && IsGrid(board.grid, rows, cols)
    requires Places(step, rows, cols, rnd)
    modifies board, occupied
    ensures IsGrid(board.grid, rows, cols)
    ensures var goal := PlaceWords(step, old(board.grid), old(occupied.members), words[i..], pos);
      && (error.None? ==> PlaceWords(step, board.grid, occupied.members, words[i + 1..], next) == goal)
      && (error.Some? ==> goal == Progress(board.grid, occupied.members, next, error) && !error.value.MissingWord?)
  {
    PlaceWordsFrom(step, board.grid, occupied.members, words[..], i, pos);
    assert words[..][i..] == words[i..] && words[..][i + 1..] == words[i + 1..];
    error, next := PlaceNext(words[i], board, rows, cols, occupied, rnd, pos);
  }

  /**
    The first half of `generateBoard`: the initial board, the word count and
    the shuffled copy of the list (`wordList.slice()`), with the position of
    the draw that follows them.
  */
  method Prepare(rows: nat, cols: nat, wordList: array<string>, rnd: Stream, pos: nat)
    returns (board: Board, horizontal: nat, shuffledWords: array<string>, next: nat)
    ensures fresh(board) && fresh(shuffledWords)
    ensures board.grid == RandomGrid(rows, cols, rnd, pos)
    ensures horizontal == Scaled(rnd(CountDraw(rows, cols, pos)), HorizontalLimit) && horizontal < HorizontalLimit
    ensures shuffledWords[..] == Shuffled(wordList[..], rnd, CountDraw(rows, cols, pos) + 1)
    ensures next == CountDraw(rows, cols, pos) + 1 + ShuffleDraws(wordList.Length)
  {
    board, next := CreateRandomBoard(rows, cols, rnd, pos);
    assert next == CountDraw(rows, cols, pos);
    horizontal := Scaled(rnd(next), HorizontalLimit);
    next := next + 1;
    var n := wordList.Length;
    var copy := new string[n](i requires 0 <= i < n reads wordList => wordList[i]);
    assert copy[..] == wordList[..];
    shuffledWords, next := ShuffleArray(copy, rnd, next);
  }

  /** A generation is the end of the placements of the prepared words on the prepared board. */
  lemma GenerateFromPrepared(rows: nat, cols: nat, words: seq<string>, rnd: Stream, pos: nat,
                             g: Grid, horizontal: nat, shuffled: seq<string>, next: nat)
    requires g == RandomGrid(rows, cols, rnd, pos)
    requires horizontal == Scaled(rnd(CountDraw(rows, cols, pos)), HorizontalLimit)
    requires shuffled == Shuffled(words, rnd, CountDraw(rows, cols, pos) + 1)
    requires next == CountDraw(rows, cols, pos) + 1 + ShuffleDraws(|words|)
    ensures Generate(rows, cols, words, rnd, pos) ==
      Conclude(PlaceWords(Placing(rows, cols, rnd), g, {}, shuffled, next), horizontal, |words|, rnd)
    ensures |shuffled| == |words|
  {
    ShuffledPermutes(words, rnd, CountDraw(rows, cols, pos) + 1);
    assert Placements(rows, cols, words, rnd, pos) == PlaceWords(Placing(rows, cols, rnd), g, {}, shuffled, next);
  }

  /**
    The first loop, `for (let i = 0; i < horizontalWordsCount; i++)`.  When
    it runs to its end, what is left to place is the list from
    `horizontalWordsCount` on.  An error of a placement is the error of
    placing the whole list; reading past the end of a list whose placements
    all succeeded is a missing word, after the two draws of one more start.
  */
  method PlaceFirstWords(words: array<string>, horizontal: nat, board: Board, rows: nat, cols: nat,
                         occupied: PositionSet, rnd: Stream, pos: nat, ghost step: Placer)
    returns (error: Option<GenError>, next: nat)
    requires IsGrid(board.grid, rows, cols)
    requires Places(step, rows, cols, rnd)
    modifies board, occupied
    ensures IsGrid(board.grid, rows, cols)
    ensures var goal := PlaceWords(step, old(board.grid), old(occupied.members), words[..], pos);
      && (error.None? ==>
            horizontal <= words.Length &&
            PlaceWords(step, board.grid, occupied.members, words[horizontal..], next) == goal)
      && (error.Some? && error.value.MissingWord? ==>
            error.value.index == words.Length && horizontal > words.Length && goal.error.None? &&
            next == goal.next + 2)
      && (error.Some? && !error.value.MissingWord? ==>
            goal == Progress(board.grid, occupied.members, next, error))
  {
    ghost var goal := PlaceWords(step, board.grid, occupied.members, words[..], pos);
    assert words[0..] == words[..];
    next := pos;
    for i := 0 to horizontal
      invariant i <= words.Length
      invariant IsGrid(board.grid, rows, cols)
      invariant PlaceWords(step, board.grid, occupied.members, words[i..], next) == goal
    {
      if i >= words.Length {
        // `shuffledWords[i]` is undefined: `placeRandomWord` draws a start, then throws on `word.length`
        assert words[i..] == [];
        error, next := Some(MissingWord(words.Length)), next + 2;
        return;
      }
      error, next := PlaceStep(words, i, board, rows, cols, occupied, rnd, next, step);
      if error.Some? {
        return;
      }
    }
    error := None;
  }

  /**
    The second loop, `for (let i = horizontalWordsCount; i < wordList.length; i++)`:
    it ends where placing the list from `from` on ends.
  */
  method PlaceRestWords(words: array<string>, from: nat, board: Board, rows: nat, cols: nat,
                        occupied: PositionSet, rnd: Stream, pos: nat, ghost step: Placer)
    returns (error: Option<GenError>, next: nat)
    requires from <= words.Length
    requires IsGrid(board.grid, rows, cols)
    requires Places(step, rows, cols, rnd)
    modifies board, occupied
    ensures IsGrid(board.grid, rows, cols)
    ensures PlaceWords(step, old(board.grid), old(occupied.members), words[from..], pos) ==
      Progress(board.grid, occupied.members, next, error)
  {
    ghost var goal := PlaceWords(step, board.grid, occupied.members, words[from..], pos);
    next := pos;
    for i := from to words.Length
      invariant IsGrid(board.grid, rows, cols)
      invariant PlaceWords(step, board.grid, occupied.members, words[i..], next) == goal
    {
      error, next := PlaceStep(words, i, board, rows, cols, occupied, rnd, next, step);
      if error.Some? {
        return;
      }
    }
    assert words[words.Length..] == [];
    error := None;
  }

  /**
    `generateBoard(rows, cols, wordList)`: the list itself is only read (the
    source shuffles a `slice()` of it), and the result is the one `Generate`
    describes.
  */
  method GenerateBoard(rows: nat, cols: nat, wordList: array<string>, rnd: Stream, pos: nat) returns (result: GenResult)
    ensures result == Generate(rows, cols, wordList[..], rnd, pos)
  {
    var newBoard, horizontalWordsCount, shuffledWords, next := Prepare(rows, cols, wordList, rnd, pos);
    GenerateFromPrepared(rows, cols, wordList[..], rnd, pos, newBoard.grid, horizontalWordsCount,
                         shuffledWords[..], next);
    ghost var goal := PlaceWords(Placing(rows, cols, rnd), newBoard.grid, {}, shuffledWords[..], next);
    var occupiedPositions := new PositionSet();
    var error;
    error, next := PlaceFirstWords(shuffledWords, horizontalWordsCount, newBoard, rows, cols,
                                   occupiedPositions, rnd, next, Placing(rows, cols, rnd));
    if error.Some? {
      result := Failed(error.value);
      return;
    }
    error, next := PlaceRestWords(shuffledWords, horizontalWordsCount, newBoard, rows, cols,
                                  occupiedPositions, rnd, next, Placing(rows, cols, rnd));
    if error.Some? {
      result := Failed(error.value);
      return;
    }
    var grid := FillGrid(newBoard.grid, FreshLetters(rnd), next);
    result := Generated(grid, next + GridEmptyCount(newBoard.grid));
  }
}
