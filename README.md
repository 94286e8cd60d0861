# Word-search board generator, modelled in Dafny

This project models the board generator of the Wrunch backend, the
`BoardService` class in `src/boards/board.service.ts`, and proves
properties of that model.
`generateBoard(rows, cols, wordList)` works in five steps:

1. It fills a rows x cols grid with letters from a weighted sampler
   (`generateRandomLetter`, `createRandomBoard`).
2. It draws a word count `horizontalWordsCount` in [0, 6).
3. It shuffles a copy of the word list with Fisher-Yates (`shuffleArray`).
4. It places every word in turn (`placeRandomWord`). Each placement makes
   up to 1000 random attempts, and `canPlaceWord` is the fit check. A
   placed word is written upper-cased, its cells join a shared set of
   occupied `"row-col"` keys, and one of its letters is swapped with an
   orthogonal neighbour (`swapAdjacentCells`).
5. It upper-cases every cell and gives each empty cell a fresh letter.

`Math.random()` becomes an explicit stream of reals in [0, 1) plus a
position (module `Draws`). Each method that reads draws takes the
position of its first unused draw and returns the position after its last
one. So a whole
generation is a function of the stream, `Generation.Generate`, and the
method `Generation.GenerateBoard` is proved to compute exactly that
function.

Modules, in dependency order:

| module | file | contents |
|---|---|---|
| `Draws` | `draws.dfy` | the draw stream; `Math.floor(Math.random() * n)` |
| `Text` | `text.dfy` | ASCII `toUpperCase` |
| `LetterSampler` | `letter_sampler.dfy` | `generateRandomLetter` |
| `Shuffle` | `shuffle.dfy` | `shuffleArray` |
| `Grids` | `grids.dfy` | the grid, cell writes and the swap; classes `Board` (the row array) and `PositionSet` (the occupied keys) |
| `GridOps` | `grid_ops.dfy` | `canPlaceWord`, `swapAdjacentCells`, `createRandomBoard` |
| `Placement` | `placement.dfy` | `placeRandomWord` as a function and as a method |
| `PlacementFacts` | `placement_facts.dfy` | what one placement does |
| `Generation` | `generation.dfy` | `generateBoard`, up to persistence |

The model follows the code as written, including its quirks:

- **The fit check is vacuous.** `canPlaceWord` joins its two tests with
  `||`. For the horizontal call, the row test holds for every start the
  loop can draw. So every start that is not rejected is written
  horizontally, and the vertical branch (lines 144-159) can never run.
  The model proves this (`Placement.HorizontalBranchTaken`) and has no
  vertical write.
- **The occupancy test is weak.** A start is rejected only when, for some
  offset i, both (row, col + i) and (row + i, col) are already occupied,
  because the test uses `&&`.
- **The swap ignores occupancy.** It may move a letter of an earlier word,
  and it does not add the neighbour to the occupied set.
- **The copy is shallow.** `newBoard.slice()` shares its row arrays, so
  `horBoard` and `newBoard` are one board (one `Grids.Board` object).
- **The first loop can run past the list.** It runs to
  `horizontalWordsCount` even when the list is shorter. The
  `shuffledWords[i]` it then passes is `undefined`, and `placeRandomWord`
  throws on `word.length`. The model ends with `MissingWord`.
- **`verticalWordsCount` is computed and never used.**
- **The sampler never uses its placeholders.** Its 16 placeholder entries,
  and its `return ''`, are unreachable: the scaled draw stays below
  `totalBias`, and the running sum reaches `totalBias` at the tenth entry.

`board.service.ts` has no reachable vertical placement, no bounds or
camouflage-eligibility check on a start, no swap that looks at occupancy
or at the letters involved, no placement table and no dictionary scan for
unwanted words. None of these is modelled.

Three things the source cannot do safely are reported as errors:

- **A run that does not fit in its row.** JavaScript would silently extend
  the row past `cols`. If `rows` is 0 it would throw on the missing row.
  The placement outcome is `OutOfBounds` and the generation ends with
  `WordOutOfBounds`. Nothing is written.
- **A swap with no neighbour.** This happens only on a 1 x 1 board, where
  the source throws on `adjacentCells[0]`. The outcome is `NoNeighbour`,
  reported after the write and the swap's draw, and the generation error is
  `NoNeighbourForSwap`.
- **A missing word.** The generation error is `MissingWord`.

Giving up after 1000 attempts is not an error: the source logs it and goes on.

## Model

| member | source | states |
|---|---|---|
| Draws.Scaled | src/boards/board.service.ts:115-116 | `Math.floor(Math.random() * n)` is an index below `n`, and 0 when `n` is 0 |
| Draws.ScaledIsFloor | src/boards/board.service.ts:85 | the index is the floor of the real product of the draw and `n` |
| Text.UpperChar | src/boards/board.service.ts:132 | `a`..`z` map to `A`..`Z` (code point minus 32); every other character is kept |
| Text.Upper | src/boards/board.service.ts:197 | `toUpperCase` keeps the length and upper-cases each character on its own |
| Text.UpperOfLetterCell | src/boards/board.service.ts:197 | upper-casing a cell that already holds one upper-case letter leaves it unchanged |
| Text.UpperOfWordLetter | src/boards/board.service.ts:132 | upper-casing one letter of a lower-case word gives a one-letter upper-case cell |
| LetterSampler.CumValues | src/boards/board.service.ts:21 | the ten biases add up, left to right, to `totalBias` = 71.3150 |
| LetterSampler.CumMonotone | src/boards/board.service.ts:40-46 | the running sums of the bias table never decrease |
| LetterSampler.ScaledDraw | src/boards/board.service.ts:37 | `Math.random() * totalBias` lies in [0, totalBias) |
| LetterSampler.SearchFrom | src/boards/board.service.ts:40-46 | the cumulative walk stops at one of the ten letter entries, never at a placeholder |
| LetterSampler.SearchFromInterval | src/boards/board.service.ts:40-46 | the walk stops at the first entry whose running sum reaches the draw |
| LetterSampler.SampleIndex | src/boards/board.service.ts:40-46 | the entry chosen is one of the ten letters |
| LetterSampler.SampleIndexIff | src/boards/board.service.ts:40-46 | entry i is chosen if and only if the scaled draw lies in (cum(i), cum(i + 1)], with 0 included for the first entry |
| LetterSampler.SampleLetter | src/boards/board.service.ts:37-46 | the letter returned is one of E, A, R, I, O, T, N, S, L, C, so one upper-case letter |
| LetterSampler.SampleLetterIff | src/boards/board.service.ts:37-46 | the sampler returns the i-th letter if and only if the scaled draw lies in that letter's interval |
| LetterSampler.LettersDistinct | src/boards/board.service.ts:14 | the ten letters are pairwise different |
| LetterSampler.GenerateRandomLetter | src/boards/board.service.ts:13-50 | the loops that build the table and walk it return the sampler's letter for the one draw read; the fall-through `''` is unreachable |
| Shuffle.Swap | src/boards/board.service.ts:55 | the destructuring swap keeps the length |
| Shuffle.SwapAt | src/boards/board.service.ts:55 | the destructuring swap exchanges entries i and j and keeps every other entry |
| Shuffle.ShuffleStepsPermutes | src/boards/board.service.ts:53-56 | the steps from index i down to 1 keep the length and the multiset of entries |
| Shuffle.ShuffledPermutes | src/boards/board.service.ts:52-58 | the whole shuffle is a permutation of its input |
| Shuffle.Step | src/boards/board.service.ts:54-55 | one pass leaves the array equal to its old contents with index i swapped with j = floor(random * (i + 1)), and j lies in [0, i]; what is left is the rest of the specified shuffle |
| Shuffle.ShuffleArray | src/boards/board.service.ts:52-58 | the array is shuffled in place and returned: the same array, holding the specified shuffle of its old contents, a permutation of them, after n - 1 draws |
| Grids.SetCell | src/boards/board.service.ts:88 | an assignment to one cell keeps the shape of the grid |
| Grids.SetCellAt | src/boards/board.service.ts:88 | the assignment writes its cell and no other |
| Grids.SwapCells | src/boards/board.service.ts:87-89 | the swap through a temporary keeps the shape of the grid |
| Grids.SwapCellsAt | src/boards/board.service.ts:87-89 | the two cells change places and every other cell is unchanged |
| Grids.SetCellMultiset | src/boards/board.service.ts:88 | one assignment takes the old cell out of the multiset of cells and puts the new one in |
| Grids.CellInCells | src/boards/board.service.ts:87 | every cell of the grid is in its multiset of cells |
| Grids.SwapCellsPermutes | src/boards/board.service.ts:87-89 | the swap keeps the multiset of letters on the board |
| Grids.LetterCells | src/boards/board.service.ts:132 | the cells of a word are its letters, each upper-cased on its own |
| Grids.WriteRun | src/boards/board.service.ts:131-132 | writing a run keeps the shape of the grid |
| Grids.WriteRunAt | src/boards/board.service.ts:131-132 | a run that fits holds the upper-cased letters of the word, and every cell outside it is unchanged |
| Grids.WriteRunStep | src/boards/board.service.ts:131-132 | one more turn of the write loop is one more cell assignment |
| Grids.RunCells | src/boards/board.service.ts:133 | the keys recorded for a run are exactly (r, c + i) for i below the word's length |
| Grids.RunCellsGrow | src/boards/board.service.ts:133 | one more turn of the loop adds exactly the next key |
| Grids.Board.constructor | src/boards/board.service.ts:95 | `const newBoard = []` is a new, empty board |
| Grids.PositionSet.constructor | src/boards/board.service.ts:174 | `new Set<string>()` is empty |
| Grids.PositionSet.Add | src/boards/board.service.ts:133 | `occupiedPositions.add(key)` adds that key and nothing else |
| GridOps.CanPlaceHorizontalIff | src/boards/board.service.ts:69 | for a horizontal run the check holds if and only if the run fits in the row or the start row is at most `rows` |
| GridOps.CanPlaceVerticalIff | src/boards/board.service.ts:69 | for a vertical run it holds if and only if the run fits in the column or the start column is at most `cols` |
| GridOps.Neighbours | src/boards/board.service.ts:80-83 | there are at most four candidates |
| GridOps.NeighboursIff | src/boards/board.service.ts:80-83 | for a cell of the board the candidates are exactly its in-board orthogonal neighbours |
| GridOps.NeighboursEmptyIff | src/boards/board.service.ts:80-86 | a cell has no candidate if and only if the board is 1 x 1 |
| GridOps.SwapTarget | src/boards/board.service.ts:85-86 | the neighbour picked is one of the candidates |
| GridOps.SwapAdjacentCells | src/boards/board.service.ts:72-92 | the method builds the candidates in the order up, down, left, right, reads one draw, swaps the cell with the picked neighbour in place and returns the same board |
| GridOps.RandomRow | src/boards/board.service.ts:98-100 | one row of the initial board has `cols` cells |
| GridOps.RandomGrid | src/boards/board.service.ts:94-103 | the initial board has `rows` rows of `cols` cells |
| GridOps.RandomGridCell | src/boards/board.service.ts:94-103 | cell (i, j) is the sampler's letter for draw i * cols + j, so one of the ten letters |
| GridOps.RandomGridLetters | src/boards/board.service.ts:94-103 | every cell of the initial board is one upper-case letter |
| GridOps.RandomRowGrow | src/boards/board.service.ts:98-100 | a row one letter longer ends with the letter of its next draw |
| GridOps.RandomGridGrow | src/boards/board.service.ts:96-101 | a board one row longer ends with the row drawn after the rows above it |
| GridOps.PushToLastRow | src/boards/board.service.ts:99 | replacing the last row of `g + [row]` by `row + [v]` gives `g + [row + [v]]`, the sequence identity the loop uses for the assignment one past the end of the last row |
| GridOps.CreateRandomBoard | src/boards/board.service.ts:94-103 | the nested loops build a new board equal to the specified initial board, after rows * cols draws |
| Placement.HorizontalBranchTaken | src/boards/board.service.ts:127-130 | the horizontal test holds for every start the loop can draw |
| Placement.SettleCases | src/boards/board.service.ts:127-143 | an accepted start whose run does not fit ends with nothing written; one that fits is written and swapped, and the swapped cell is inside the row and the run |
| Placement.SettleFits | src/boards/board.service.ts:131-143 | the same, for a run that fits, with the swap offset and the swap draw given |
| Placement.IsOccupied | src/boards/board.service.ts:117-126 | the loop with its early `break` flags a start exactly when some offset i has both (r, c + i) and (r + i, c) occupied |
| Placement.WriteWord | src/boards/board.service.ts:131-134 | the write loop leaves the board holding the written run and adds exactly the run's keys to the set |
| Placement.WriteAndSwap | src/boards/board.service.ts:131-143 | writing the run and then swapping gives the specified end of an accepted attempt |
| Placement.PlaceAt | src/boards/board.service.ts:127-143 | an accepted start ends the call as specified: nothing written when the run does not fit, otherwise the write and the swap |
| Placement.TryStart | src/boards/board.service.ts:115-159 | one attempt draws its start, changes nothing and reads two draws when the start is rejected, and otherwise ends the call as specified; the vertical branch is never entered |
| Placement.PlaceRandomWord | src/boards/board.service.ts:105-165 | the retry loop leaves the board, the set and the stream position as `PlaceWord` specifies |
| PlacementFacts.WrittenSwap | src/boards/board.service.ts:136-143 | after the write, the swap exchanges the run cell at the drawn offset with the neighbour picked by the next draw; it finds no neighbour only on a 1 x 1 board; the set grows by exactly the run's keys |
| PlacementFacts.WrittenShape | src/boards/board.service.ts:131-143 | the write and the swap keep the shape of the board |
| PlacementFacts.WrittenKeepsCells | src/boards/board.service.ts:136-141 | the swap keeps the multiset of letters the write left |
| PlacementFacts.WrittenRun | src/boards/board.service.ts:131-143 | after the write and the swap, every run cell (r, c + i) that the swap did not touch holds `word[i]` upper-cased; on a 1 x 1 board, where the swap fails, every run cell does |
| PlacementFacts.WrittenRunCell | src/boards/board.service.ts:131-143 | the same, for one offset i |
| PlacementFacts.WrittenElsewhere | src/boards/board.service.ts:131-143 | only the run and the swapped neighbour can differ from the old board |
| PlacementFacts.WrittenKeepsLetters | src/boards/board.service.ts:131-143 | writing a lower-case word on a board of letters, then swapping, leaves a board of letters |
| PlacementFacts.WriteKeepsLetters | src/boards/board.service.ts:131-132 | writing a lower-case word on a board of letters leaves a board of letters |
| PlacementFacts.SwapKeepsLetters | src/boards/board.service.ts:87-89 | a swap on a board of letters leaves a board of letters |
| PlacementFacts.SettleEffect | src/boards/board.service.ts:127-143 | an accepted attempt keeps the shape of the board; it is `OutOfBounds` exactly when the run does not fit, and then nothing changes and no further draw is read; otherwise the set grows by the run's keys and the offset and swap draws are read, also on a 1 x 1 board where the swap then fails |
| PlacementFacts.SettleOutcome | src/boards/board.service.ts:127-143 | an accepted attempt reports its own attempt number and start |
| PlacementFacts.SettleKeepsLetters | src/boards/board.service.ts:127-143 | an accepted attempt keeps a board of letters |
| PlacementFacts.FirstAcceptedIsFirst | src/boards/board.service.ts:114-126 | every attempt before the first accepted one is rejected, and that one is not |
| PlacementFacts.TryFromFirst | src/boards/board.service.ts:114-161 | the retry loop ends as its first accepted attempt does |
| PlacementFacts.PlaceWordFirst | src/boards/board.service.ts:112-164 | the call gives up if and only if all 1000 attempts are rejected, and then the board and the set are unchanged after 2000 draws; otherwise it ends at the first accepted attempt, whose number and start it reports |
| PlacementFacts.PlaceWordEffect | src/boards/board.service.ts:112-164 | giving up or a run that does not fit leaves the board and the set unchanged; a placed word grows the set by exactly its run's keys; the shape is kept; `NoNeighbour` only on a 1 x 1 board |
| PlacementFacts.PlaceWordWritten | src/boards/board.service.ts:127-143 | a placed word is the write of its reported attempt, at a start where the run fits, swapped at that attempt's offset |
| PlacementFacts.PlaceWordDraws | src/boards/board.service.ts:114-143 | a call reads at least two and at most 2002 draws |
| PlacementFacts.PlaceWordKeepsLetters | src/boards/board.service.ts:112-164 | placing a lower-case word on a board of letters leaves a board of letters |
| Generation.PlacementError | src/boards/board.service.ts:176-182 | a placement is an error of the generation exactly when it is neither placed nor given up |
| Generation.PlaceWordsFrom | src/boards/board.service.ts:175-193 | placing the list from index i is placing word i, then the rest unless that failed |
| Generation.PlaceWordsEffect | src/boards/board.service.ts:175-193 | the placements keep the shape and only add occupied keys; they never report a missing word; a failed swap happens only on a 1 x 1 board |
| Generation.PlaceWordsKeepsLetters | src/boards/board.service.ts:175-193 | placing lower-case words on a board of letters leaves a board of letters |
| Generation.FreshLetter | src/boards/board.service.ts:197 | `generateRandomLetter().toUpperCase()` is the sampler's letter for its draw |
| Generation.FillRow | src/boards/board.service.ts:196-199 | the pass over a row keeps its length |
| Generation.FillGrid | src/boards/board.service.ts:195-200 | the pass over the board keeps its number of rows |
| Generation.FillRowAt | src/boards/board.service.ts:196-198 | cell j of a row is upper-cased when it holds something; an empty cell gets the letter of its own draw, after the draws of the empty cells to its left |
| Generation.FillGridAt | src/boards/board.service.ts:195-200 | row i of the result is the pass over row i, after the draws of the rows above |
| Generation.FillGridCell | src/boards/board.service.ts:195-200 | each cell of the finished board: a non-empty cell is upper-cased; an empty cell gets the sampler's letter of its own draw, in row-major order over the empty cells, so an upper-case letter |
| Generation.FillRowOfLetters | src/boards/board.service.ts:196-198 | on a row of letters the pass changes nothing and reads no draw |
| Generation.FillGridOfLetters | src/boards/board.service.ts:195-200 | on a board of letters the last pass changes nothing and reads no draw |
| Generation.FillGridShape | src/boards/board.service.ts:195-200 | the last pass keeps the shape of the board |
| Generation.ConcludeFacts | src/boards/board.service.ts:175-200 | after the placements, a board comes out if and only if there was no error and the word count was at most the list length; a missing word is the index just past the list; every other error is the placements' own |
| Generation.PlacementsEffect | src/boards/board.service.ts:168-193 | the placements of a generation keep the rows x cols shape and never report a missing word |
| Generation.PlacementsLetters | src/boards/board.service.ts:168-193 | with lower-case words the placements leave a board of letters |
| Generation.GenerateSucceedsIff | src/boards/board.service.ts:167-200 | a generation yields a board if and only if no placement failed and `horizontalWordsCount` is at most the list length |
| Generation.GenerateMissingWordIff | src/boards/board.service.ts:170-177 | a generation fails on a missing word if and only if the placements succeeded but the count exceeds the list; the missing index is the list length, which is below 5 |
| Generation.GeneratePlacementErrors | src/boards/board.service.ts:175-193 | every other failure is the error a placement raised; a failed swap only on a 1 x 1 board |
| Generation.GenerateBoardLetters | src/boards/board.service.ts:195-200 | the finished board has the rows x cols shape; with lower-case words every cell is one upper-case letter, and the board is the one the placements left |
| Generation.PlaceNext | src/boards/board.service.ts:176-182 | one call of `placeRandomWord` in a loop changes the board, the set and the position as specified, and its error is the placement's error |
| Generation.PlaceStep | src/boards/board.service.ts:176-192 | word i of either loop: on success what is left is the list after i; an error, never a missing word, is the error of placing the list from i |
| Generation.Prepare | src/boards/board.service.ts:168-172 | the new board is the initial board, the count is below 6, the copy holds the shuffled list and the caller's list is untouched, with the draw position after them |
| Generation.GenerateFromPrepared | src/boards/board.service.ts:168-193 | a generation is the conclusion of placing the prepared words on the prepared board |
| Generation.PlaceFirstWords | src/boards/board.service.ts:175-183 | the first loop: when it completes, what is left is the list from `horizontalWordsCount` on; reading past a list whose words all placed is a missing word at index equal to the list length, after the two start draws `placeRandomWord` reads before it throws; any other error is that of the whole list |
| Generation.PlaceRestWords | src/boards/board.service.ts:185-193 | the second loop ends where placing the list from `horizontalWordsCount` ends |
| Generation.GenerateBoard | src/boards/board.service.ts:167-200 | the method returns exactly the result `Generate` specifies; the caller's list is only read |

## Left out

- Persistence: `new this.boardModel(...)`, `save()` and the returned
  document (`src/boards/board.service.ts:206-208`), and the schema in
  `src/boards/board.model.ts`. The model returns the grid and the next
  stream position.
- Logging (`console.error` and `console.log` at lines 162-163 and
  201-204): it has no effect on the result.
- The NestJS wiring (the controller, the module files and the injected
  model): it is dependency injection and routing only.
- `Math.random()` itself: it is replaced by the stream parameter. No
  pseudo-random generator is modelled.
- Floating point. The biases and all products are exact reals, so
  rounding at the edges of the sampler's intervals and of `Math.floor` is
  not captured.
- `toUpperCase` beyond ASCII `a`..`z`. The letter-board lemmas assume
  words of lower-case ASCII letters.
- Placement.PlaceRandomWord: it does not model JavaScript growing a row
  past `cols` when a run does not fit, nor the throw on a missing row
  when `rows` is 0. The model stops with `OutOfBounds` and writes nothing.
  This fires on every accepted start with `startCol > cols - |word|`. For
  a four-letter word on an 11 x 11 board that is 3 starts in 11, so with a
  long word list almost every modelled generation ends in
  `WordOutOfBounds`, and the success-path lemmas describe a rare path.
- Placement.PlaceRandomWord: it does not model the throw of
  `swapAdjacentCells` on a 1 x 1 board separately. It is reported as
  `NoNeighbour` after the write.
- Generation.GenerateBoard: it does not model the `TypeError` for an
  `undefined` word; it ends with `MissingWord`. The words before it stay
  placed on the board, but the result carries only the error.
- Generation.GenerateBoard: in the source an `undefined` cell arises
  only after a row has grown past `cols`. `swapAdjacentCells` then reads
  the grown length of row 0 as `cols` and may swap `undefined` in from one
  past the end of another row, and the falsy test of the last pass refills
  that cell. That is the path the model stops at with `OutOfBounds`. The
  model never holds an empty cell, so the empty branch of
  `Generation.FillCell` never fires in it (`Generation.FillGridOfLetters`).
- The vertical write (lines 148-158) has no model: it is unreachable
  (`Placement.HorizontalBranchTaken`), and `Placement.TryStart` marks it
  with `assert false`.
- `verticalWordsCount` (line 171) is computed and never used, so it has
  no model.
