/**
 * The 4x4 game board of mini2048.c (the array m) as a value, and the
 * queries the game asks of it: the empty cells in row-major order, equal
 * neighbours, the total of the tiles and the shape of a tile.
 */
module Grid {

  /** A cell of the board: m[row][col]. */
  datatype Cell = Cell(row: int, col: int)

  predicate InBounds(c: Cell)
  {
    0 <= c.row < 4 && 0 <= c.col < 4
  }

  /** The board, one sequence per row. */
  type Board = seq<seq<int>>

  predicate IsBoard(g: Board)
  {
    |g| == 4 && forall i :: 0 <= i < 4 ==> |g[i]| == 4
  }

  function Get(g: Board, c: Cell): int
    requires IsBoard(g) && InBounds(c)
  {
    g[c.row][c.col]
  }

  /** The board with cell c set to v; no other cell changes. */
  function Set(g: Board, c: Cell, v: int): (g': Board)
    requires IsBoard(g) && InBounds(c)
    ensures IsBoard(g')
    ensures forall d :: InBounds(d) ==> Get(g', d) == if d == c then v else Get(g, d)
  {
    g[c.row := g[c.row][c.col := v]]
  }

  /** Two boards with the same cells are the same board. */
  lemma BoardExt(g: Board, h: Board)
    requires IsBoard(g) && IsBoard(h)
    requires forall c :: InBounds(c) ==> Get(g, c) == Get(h, c)
    ensures g == h
  {
    forall i | 0 <= i < 4
      ensures g[i] == h[i]
    {
      forall j | 0 <= j < 4
        ensures g[i][j] == h[i][j]
      {
        assert Get(g, Cell(i, j)) == Get(h, Cell(i, j));
      }
    }
  }

  /** The empty board mini2048.c starts from. */
  function EmptyBoard(): (g: Board)
    ensures IsBoard(g)
  {
    seq(4, _ => seq(4, _ => 0))
  }

  // ---------------------------------------------------------------------
  // Row-major order

  /** The p-th cell in row-major order (the order of two nested for loops). */
  function CellAt(p: int): (c: Cell)
    requires 0 <= p < 16
    ensures InBounds(c) && p == 4 * c.row + c.col
  {
    var row := if p < 4 then 0 else if p < 8 then 1 else if p < 12 then 2 else 3;
    Cell(row, p - 4 * row)
  }

  /** Row-major positions, below p, of the empty cells, in increasing order. */
  function EmptyBefore(g: Board, p: int): (e: seq<int>)
    requires IsBoard(g) && 0 <= p <= 16
    ensures |e| <= p
    ensures forall i :: 0 <= i < |e| ==> 0 <= e[i] < p && Get(g, CellAt(e[i])) == 0
    ensures forall i, j :: 0 <= i < j < |e| ==> e[i] < e[j]
  {
    if p == 0 then []
    else EmptyBefore(g, p - 1) + (if Get(g, CellAt(p - 1)) == 0 then [p - 1] else [])
  }

  /** Row-major positions of all empty cells, in increasing order. */
  function EmptyCells(g: Board): (e: seq<int>)
    requires IsBoard(g)
    ensures forall i :: 0 <= i < |e| ==> 0 <= e[i] < 16 && Get(g, CellAt(e[i])) == 0
    ensures forall i, j :: 0 <= i < j < |e| ==> e[i] < e[j]
  {
    EmptyBefore(g, 16)
  }

  /** The number of empty cells (n_empty_tiles). */
  function EmptyCount(g: Board): (n: int)
    requires IsBoard(g)
    ensures 0 <= n <= 16
  {
    |EmptyCells(g)|
  }

  /** One more cell of the scan adds one to the count iff it is empty. */
  lemma EmptyBeforeNext(g: Board, p: int, i: int, j: int)
    requires IsBoard(g) && 0 <= i < 4 && 0 <= j < 4 && p == 4 * i + j
    ensures |EmptyBefore(g, p + 1)| == |EmptyBefore(g, p)| + (if g[i][j] == 0 then 1 else 0)
  {
    assert CellAt(p) == Cell(i, j);
  }

  /** Every empty cell is listed by EmptyBefore. */
  lemma {:induction false} EmptyBeforeComplete(g: Board, p: int, q: int)
    requires IsBoard(g) && 0 <= q < p <= 16 && Get(g, CellAt(q)) == 0
    ensures q in EmptyBefore(g, p)
  {
    if q < p - 1 {
      EmptyBeforeComplete(g, p - 1, q);
    }
  }

  /** EmptyCells lists exactly the positions of the empty cells. */
  lemma EmptyCellsExact(g: Board, q: int)
    requires IsBoard(g)
    ensures q in EmptyCells(g) <==> 0 <= q < 16 && Get(g, CellAt(q)) == 0
  {
    if 0 <= q < 16 && Get(g, CellAt(q)) == 0 {
      EmptyBeforeComplete(g, 16, q);
    }
  }

  /** A shorter scan lists a prefix of the empty cells. */
  lemma {:induction false} EmptyBeforePrefix(g: Board, p: int, p': int)
    requires IsBoard(g) && 0 <= p <= p' <= 16
    ensures EmptyBefore(g, p) <= EmptyBefore(g, p')
  {
    if p < p' {
      EmptyBeforePrefix(g, p, p' - 1);
    }
  }

  /**
   * The r-th empty cell in row-major order is the empty cell with exactly
   * r empty cells before it.
   */
  lemma NthEmpty(g: Board, r: int, q: int)
    requires IsBoard(g) && 0 <= r < EmptyCount(g) && 0 <= q < 16
    ensures EmptyCells(g)[r] == q <==> Get(g, CellAt(q)) == 0 && |EmptyBefore(g, q)| == r
  {
    var e := EmptyCells(g);
    EmptyBeforePrefix(g, q, 16);
    EmptyBeforePrefix(g, q + 1, 16);
    var before := EmptyBefore(g, q);
    if Get(g, CellAt(q)) == 0 {
      assert EmptyBefore(g, q + 1) == before + [q];
      assert e[|before|] == q;
    }
  }

  /**
   * The r-th empty cell in row-major order (the cell add_tiles fills when
   * its draw is r): an empty cell with exactly r empty cells before it.
   */
  function SpawnCell(g: Board, r: int): (c: Cell)
    requires IsBoard(g) && 0 <= r < EmptyCount(g)
    ensures InBounds(c) && Get(g, c) == 0
    ensures 0 <= 4 * c.row + c.col < 16 && |EmptyBefore(g, 4 * c.row + c.col)| == r
  {
    var q := EmptyCells(g)[r];
    NthEmpty(g, r, q);
    CellAtOnto(CellAt(q));
    CellAt(q)
  }

  /** Filling an empty cell removes exactly that cell from the scan. */
  lemma {:induction false} FillEmptyBefore(g: Board, q: int, v: int, p: int)
    requires IsBoard(g) && 0 <= q < 16 && Get(g, CellAt(q)) == 0 && v != 0 && 0 <= p <= 16
    ensures |EmptyBefore(Set(g, CellAt(q), v), p)| == |EmptyBefore(g, p)| - (if q < p then 1 else 0)
  {
    if p > 0 {
      FillEmptyBefore(g, q, v, p - 1);
      CellAtInjective(p - 1, q);
    }
  }

  /** Filling an empty cell lowers the number of empty cells by one. */
  lemma FillEmpty(g: Board, c: Cell, v: int)
    requires IsBoard(g) && InBounds(c) && Get(g, c) == 0 && v != 0
    ensures EmptyCount(Set(g, c, v)) == EmptyCount(g) - 1
  {
    CellAtOnto(c);
    FillEmptyBefore(g, 4 * c.row + c.col, v, 16);
  }

  /** On the empty board every cell scanned so far is empty. */
  lemma {:induction false} EmptyBoardBefore(p: int)
    requires 0 <= p <= 16
    ensures |EmptyBefore(EmptyBoard(), p)| == p
  {
    if p > 0 {
      EmptyBoardBefore(p - 1);
    }
  }

  /** The empty board has sixteen empty cells. */
  lemma EmptyBoardCount()
    ensures EmptyCount(EmptyBoard()) == 16
  {
    EmptyBoardBefore(16);
  }

  /** Whether the scan at cell (i, j) has seen exactly r empty cells. */
  lemma SpawnScan(g: Board, r: int, p: int, i: int, j: int)
    requires IsBoard(g) && 0 <= r < EmptyCount(g) && 0 <= i < 4 && 0 <= j < 4 && p == 4 * i + j
    requires g[i][j] == 0
    ensures |EmptyBefore(g, p)| == r <==> SpawnCell(g, r) == Cell(i, j)
  {
    NthEmpty(g, r, 4 * i + j);
    CellAtOnto(Cell(i, j));
    var c := SpawnCell(g, r);
    CellAtOnto(c);
    CellAtInjective(EmptyCells(g)[r], 4 * i + j);
  }

  /**
   * One step of the scan of add_tiles at cell (i, j), with r the draw minus
   * the empty cells seen before (i, j): an empty cell is the cell SpawnCell
   * picks iff r is 0 there, and r drops by one for every empty cell.
   */
  lemma SpawnStep(g: Board, r0: int, p: int, i: int, j: int, r: int)
    requires IsBoard(g) && 0 <= r0 < EmptyCount(g) && 0 <= i < 4 && 0 <= j < 4 && p == 4 * i + j
    requires r == r0 - |EmptyBefore(g, p)|
    ensures g[i][j] == 0 ==> (r == 0 <==> SpawnCell(g, r0) == Cell(i, j)) && r - 1 == r0 - |EmptyBefore(g, p + 1)|
    ensures g[i][j] != 0 ==> r == r0 - |EmptyBefore(g, p + 1)|
  {
    EmptyBeforeNext(g, p, i, j);
    if g[i][j] == 0 {
      SpawnScan(g, r0, p, i, j);
    }
  }

  /**
   * While the scan of add_tiles is at cell (i, j), the board it has written
   * so far still holds the old value at (i, j), and (i, j) is the cell c
   * iff the scan has reached c's position.
   */
  lemma ScanAhead(g: Board, c: Cell, v: int, p: int, i: int, j: int)
    requires IsBoard(g) && InBounds(c) && 0 <= i < 4 && 0 <= j < 4 && p == 4 * i + j
    ensures (if 4 * c.row + c.col < p then Set(g, c, v) else g)[i][j] == g[i][j]
    ensures 4 * c.row + c.col == p <==> Cell(i, j) == c
  {
    if 4 * c.row + c.col < p {
      assert Get(Set(g, c, v), Cell(i, j)) == g[i][j];
    }
  }

  /** An empty cell is counted by n_empty_tiles. */
  lemma EmptyCellCounted(g: Board, c: Cell)
    requires IsBoard(g) && InBounds(c)
    ensures Get(g, c) == 0 ==> EmptyCount(g) > 0
  {
    CellAtOnto(c);
    if Get(g, c) == 0 {
      EmptyBeforeComplete(g, 16, 4 * c.row + c.col);
    }
  }

  /** A board without empty cells holds a tile in every cell. */
  lemma FullBoard(g: Board)
    requires IsBoard(g) && EmptyCount(g) == 0
    ensures forall c :: InBounds(c) ==> Get(g, c) != 0
  {
    forall c | InBounds(c)
      ensures Get(g, c) != 0
    {
      EmptyCellCounted(g, c);
    }
  }

  /** Cells lie in one row-major position each. */
  lemma CellAtInjective(p: int, q: int)
    requires 0 <= p < 16 && 0 <= q < 16
    ensures CellAt(p) == CellAt(q) <==> p == q
  {
  }

  lemma CellAtOnto(c: Cell)
    requires InBounds(c)
    ensures 0 <= 4 * c.row + c.col < 16 && CellAt(4 * c.row + c.col) == c
  {
  }

  // ---------------------------------------------------------------------
  // Neighbours, totals, tiles

  /** Cells (i, j) and (i + 1, j) hold the same tile. */
  predicate EqualBelow(g: Board, i: int, j: int)
    requires IsBoard(g) && 0 <= i < 3 && 0 <= j < 4
  {
    g[i][j] != 0 && g[i][j] == g[i + 1][j]
  }

  /** Cells (i, j) and (i, j + 1) hold the same tile. */
  predicate EqualRight(g: Board, i: int, j: int)
    requires IsBoard(g) && 0 <= i < 4 && 0 <= j < 3
  {
    g[i][j] != 0 && g[i][j] == g[i][j + 1]
  }

  /** Some cell has an equal, non-empty neighbour below it. */
  ghost predicate VerticalPair(g: Board)
    requires IsBoard(g)
  {
    exists i, j :: 0 <= i < 3 && 0 <= j < 4 && EqualBelow(g, i, j)
  }

  /** Some cell has an equal, non-empty neighbour to its right. */
  ghost predicate HorizontalPair(g: Board)
    requires IsBoard(g)
  {
    exists i, j :: 0 <= i < 4 && 0 <= j < 3 && EqualRight(g, i, j)
  }

  /** Some two horizontally or vertically adjacent cells hold equal tiles. */
  ghost predicate MergePossible(g: Board)
    requires IsBoard(g)
  {
    VerticalPair(g) || HorizontalPair(g)
  }

  /** The game can go on: an empty cell or an equal pair of neighbours. */
  ghost predicate MovePossible(g: Board)
    requires IsBoard(g)
  {
    EmptyCount(g) != 0 || MergePossible(g)
  }

  function RowTotal(row: seq<int>): int
  {
    if row == [] then 0 else row[0] + RowTotal(row[1..])
  }

  /** The sum of all cells. */
  function Total(g: Board): int
  {
    if g == [] then 0 else RowTotal(g[0]) + Total(g[1..])
  }

  lemma {:induction false} RowTotalUpdate(row: seq<int>, j: int, v: int)
    requires 0 <= j < |row|
    ensures RowTotal(row[j := v]) == RowTotal(row) - row[j] + v
  {
    if j > 0 {
      assert row[j := v][1..] == row[1..][j - 1 := v];
      RowTotalUpdate(row[1..], j - 1, v);
    } else {
      assert row[j := v][1..] == row[1..];
    }
  }

  lemma {:induction false} TotalUpdate(g: Board, i: int, row: seq<int>)
    requires 0 <= i < |g|
    ensures Total(g[i := row]) == Total(g) - RowTotal(g[i]) + RowTotal(row)
  {
    if i > 0 {
      assert g[i := row][1..] == g[1..][i - 1 := row];
      TotalUpdate(g[1..], i - 1, row);
    } else {
      assert g[i := row][1..] == g[1..];
    }
  }

  /** Setting a cell changes the total by the difference of the values. */
  lemma TotalSet(g: Board, c: Cell, v: int)
    requires IsBoard(g) && InBounds(c)
    ensures Total(Set(g, c, v)) == Total(g) - Get(g, c) + v
  {
    RowTotalUpdate(g[c.row], c.col, v);
    TotalUpdate(g, c.row, g[c.row][c.col := v]);
  }

  predicate IsPowerOfTwo(v: int)
    decreases if v < 0 then 0 else v
  {
    v == 1 || (v > 1 && v % 2 == 0 && IsPowerOfTwo(v / 2))
  }

  /** What a cell may hold: empty, or a power of two from 2 up. */
  predicate IsTile(v: int)
  {
    v == 0 || (v >= 2 && IsPowerOfTwo(v))
  }

  ghost predicate AllTiles(g: Board)
    requires IsBoard(g)
  {
    forall c :: InBounds(c) ==> IsTile(Get(g, c))
  }

  /** Two equal tiles merge into a tile. */
  lemma DoubleTile(v: int)
    requires IsTile(v) && v != 0
    ensures IsTile(v + v)
  {
    assert (v + v) / 2 == v;
  }
}
