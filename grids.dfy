/**
  The board as the service holds it: a `string[][]` grid of one-letter
  strings, and the set of occupied `"row-col"` keys.

  `Board` stands for the array of rows.  `placeRandomWord` copies it with
  `slice()`, which shares the row arrays, so the copy and the original are one
  board here.  `PositionSet` stands for the `Set<string>` of keys; as the key
  `${r}-${c}` is injective on non-negative integers, a key is kept as the pair
  (r, c).
*/
module Grids {
  import opened Text

  type Grid = seq<seq<string>>
  type Position = (int, int)

  /** `g` has `rows` rows of `cols` cells each. */
  predicate IsGrid(g: Grid, rows: nat, cols: nat) {
    |g| == rows && forall i :: 0 <= i < |g| ==> |g[i]| == cols
  }

  predicate InGrid(g: Grid, p: Position) {
    0 <= p.0 < |g| && 0 <= p.1 < |g[p.0]|
  }

  predicate InBounds(p: Position, rows: int, cols: int) {
    0 <= p.0 < rows && 0 <= p.1 < cols
  }

  /** Every cell of `g` holds exactly one upper-case letter. */
  predicate AllLetters(g: Grid) {
    forall i, j :: 0 <= i < |g| && 0 <= j < |g[i]| ==> IsLetterCell(g[i][j])
  }

  /** `p` and `q` are orthogonal neighbours. */
  predicate Adjacent(p: Position, q: Position) {
    (p.0 == q.0 && (p.1 == q.1 + 1 || q.1 == p.1 + 1)) ||
    (p.1 == q.1 && (p.0 == q.0 + 1 || q.0 == p.0 + 1))
  }

  /** The assignment `g[r][c] = v`; a position outside the grid leaves it as it is. */
  function SetCell(g: Grid, p: Position, v: string): (h: Grid)
    ensures |h| == |g| && forall i :: 0 <= i < |g| ==> |h[i]| == |g[i]|
  {
    if InGrid(g, p) then g[p.0 := g[p.0][p.1 := v]] else g
  }

  /** The assignment writes its cell and no other. */
  lemma SetCellAt(g: Grid, p: Position, v: string)
    ensures InGrid(g, p) ==> SetCell(g, p, v)[p.0][p.1] == v
    ensures forall i, j :: 0 <= i < |g| && 0 <= j < |g[i]| && (i, j) != p ==> SetCell(g, p, v)[i][j] == g[i][j]
  {
  }

  /**
    `g` with the cells at `a` and `b` exchanged, written as the service writes
    it (through a temporary); both positions are inside the grid where it is used.
  */
  function SwapCells(g: Grid, a: Position, b: Position): (h: Grid)
    ensures |h| == |g| && forall i :: 0 <= i < |g| ==> |h[i]| == |g[i]|
  {
    if InGrid(g, a) && InGrid(g, b) then SetCell(SetCell(g, a, g[b.0][b.1]), b, g[a.0][a.1]) else g
  }

  /** The cells of two positions inside the grid change places, and no other cell changes. */
  lemma SwapCellsAt(g: Grid, a: Position, b: Position)
    requires InGrid(g, a) && InGrid(g, b)
    ensures SwapCells(g, a, b)[a.0][a.1] == g[b.0][b.1] && SwapCells(g, a, b)[b.0][b.1] == g[a.0][a.1]
    ensures forall i, j :: 0 <= i < |g| && 0 <= j < |g[i]| && (i, j) != a && (i, j) != b ==>
      SwapCells(g, a, b)[i][j] == g[i][j]
  {
  }

  /** The cells of `w`, each letter upper-cased on its own (`word[i].toUpperCase()`). */
  function LetterCells(w: string): (cells: seq<string>)
    ensures |cells| == |w|
    ensures forall i :: 0 <= i < |w| ==> cells[i] == Upper([w[i]])
  {
    if w == [] then [] else [Upper([w[0]])] + LetterCells(w[1..])
  }

  /**
    `g` with the upper-cased letters of `w` written left to right from (r, c).
    A run that does not fit in its row leaves the grid as it is.
  */
  function WriteRun(g: Grid, r: nat, c: nat, w: string): (h: Grid)
    ensures |h| == |g| && forall i :: 0 <= i < |g| ==> |h[i]| == |g[i]|
  {
    if r < |g| && c + |w| <= |g[r]| then g[r := g[r][..c] + LetterCells(w) + g[r][c + |w|..]] else g
  }

  /** The run holds the upper-cased letters of `w`, and every other cell is unchanged. */
  lemma WriteRunAt(g: Grid, r: nat, c: nat, w: string)
    ensures r < |g| && c + |w| <= |g[r]| ==> forall i :: 0 <= i < |w| ==> WriteRun(g, r, c, w)[r][c + i] == Upper([w[i]])
    ensures forall i, j :: 0 <= i < |g| && 0 <= j < |g[i]| && !(i == r && c <= j < c + |w|) ==>
      WriteRun(g, r, c, w)[i][j] == g[i][j]
  {
  }

  /** Writing one more letter of the run is one more `SetCell`. */
  lemma WriteRunStep(g: Grid, r: nat, c: nat, w: string, k: nat)
    requires r < |g| && c + |w| <= |g[r]| && k < |w|
    ensures WriteRun(g, r, c, w[..k + 1]) == SetCell(WriteRun(g, r, c, w[..k]), (r, c + k), Upper([w[k]]))
  {
    var lhs := WriteRun(g, r, c, w[..k + 1]);
    var rhs := SetCell(WriteRun(g, r, c, w[..k]), (r, c + k), Upper([w[k]]));
    assert lhs[r] == rhs[r];
  }

  /** The positions (r, c), (r, c + 1), ..., (r, c + n - 1). */
  function RunCells(r: int, c: int, n: nat): (cells: set<Position>)
    ensures forall p :: p in cells <==> p.0 == r && c <= p.1 < c + n
  {
    set j | c <= j < c + n :: (r, j)
  }

  /** A run one cell longer adds exactly its last cell. */
  lemma RunCellsGrow(r: int, c: int, n: nat)
    ensures RunCells(r, c, n + 1) == RunCells(r, c, n) + {(r, c + n)}
  {
    var a, b := RunCells(r, c, n + 1), RunCells(r, c, n) + {(r, c + n)};
    assert forall p :: p in a ==> p in b;
    assert forall p :: p in b ==> p in a;
  }

  /** The multiset of all cells of `g`. */
  function Cells(g: Grid): multiset<string> {
    if g == [] then multiset{} else multiset(g[0]) + Cells(g[1..])
  }

  /** One assignment takes the old cell out of the multiset of cells and puts the new one in. */
  lemma {:induction false} SetCellMultiset(g: Grid, p: Position, v: string)
    requires InGrid(g, p)
    ensures Cells(SetCell(g, p, v)) == Cells(g) - multiset{g[p.0][p.1]} + multiset{v}
  {
    var h := SetCell(g, p, v);
    var x := g[p.0][p.1];
    assert Cells(h) == multiset(h[0]) + Cells(h[1..]);
    assert Cells(g) == multiset(g[0]) + Cells(g[1..]);
    if p.0 == 0 {
      assert h[1..] == g[1..];
      assert h[0] == g[0][p.1 := v];
      assert multiset(h[0]) == multiset(g[0]) - multiset{x} + multiset{v};
      assert x in multiset(g[0]);
    } else {
      var p' := (p.0 - 1, p.1);
      assert h[0] == g[0];
      assert h[1..] == SetCell(g[1..], p', v);
      assert g[1..][p'.0][p'.1] == x;
      SetCellMultiset(g[1..], p', v);
      CellInCells(g[1..], p');
      assert Cells(h[1..]) == Cells(g[1..]) - multiset{x} + multiset{v};
    }
  }

  /** Every cell of `g` is in its multiset of cells. */
  lemma {:induction false} CellInCells(g: Grid, p: Position)
    requires InGrid(g, p)
    ensures g[p.0][p.1] in Cells(g)
  {
    if p.0 > 0 {
      CellInCells(g[1..], (p.0 - 1, p.1));
      assert g[1..][p.0 - 1] == g[p.0];
    } else {
      assert g[0][p.1] in multiset(g[0]);
    }
  }

  /** A swap of two cells keeps the multiset of letters on the board. */
  lemma SwapCellsPermutes(g: Grid, a: Position, b: Position)
    requires InGrid(g, a) && InGrid(g, b)
    ensures Cells(SwapCells(g, a, b)) == Cells(g)
  {
    var x, y := g[a.0][a.1], g[b.0][b.1];
    var g1 := SetCell(g, a, y);
    assert SwapCells(g, a, b) == SetCell(g1, b, x);
    SetCellMultiset(g, a, y);
    SetCellAt(g, a, y);
    assert InGrid(g1, b) && g1[b.0][b.1] == y;
    SetCellMultiset(g1, b, x);
    CellInCells(g, a);
  }

  /** The `string[][]` grid, shared by every name the service gives it. */
  class Board {
    var grid: Grid

    /** `const newBoard: string[][] = []`. */
    constructor ()
      ensures grid == []
    {
      grid := [];
    }
  }

  /** The `Set<string>` of occupied `"row-col"` keys. */
  class PositionSet {
    var members: set<Position>

    /** `new Set<string>()`. */
    constructor ()
      ensures members == {}
    {
      members := {};
    }

    /** `occupiedPositions.has(key)`. */
    predicate Has(p: Position)
      reads this
    {
      p in members
    }

    /** `occupiedPositions.add(key)`. */
    method Add(p: Position)
      modifies this
      ensures members == old(members) + {p}
    {
      members := members + {p};
    }
  }
}
