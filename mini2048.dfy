/**
 * The game of mini2048.c as an object: the board m and the globals
 * nmoves, won, score and is_sum_possible are fields, and every function
 * of the program that changes them is a method that changes them in
 * place.  Each method is proved against the value-level model of module
 * Traversal (Model() is the state as a value), and the lemmas of module
 * Moves then say what a move, the queries and a spawn mean.
 */
module Mini2048 {
  import opened Grid
  import opened Lines
  import opened Traversal
  import opened Moves
  import opened Draws

  /** The four moves, with the arguments main passes to shift. */
  datatype Direction = Up | Left | Down | Right
  {
    /** The axis of the move: 0 moves along columns, 1 along rows. */
    function Dim(): int
    {
      if this == Up || this == Down then 0 else 1
    }

    /** Whether the tiles move towards index 3 instead of index 0. */
    function Lr(): int
    {
      if this == Up || this == Left then 0 else 1
    }
  }

  /** How a turn of the main loop ends. */
  datatype Outcome = Win | Lose | Continue

  class Game {
    /** The board m[4][4]. */
    const m: array2<int>
    /** Tiles moved, merged or added by the previous move. */
    var nmoves: int
    /** Some merge produced 2048. */
    var won: bool
    var score: int
    /** The flag sum_possible_impl raises. */
    var isSumPossible: bool
    /** The contents of m as a value. */
    ghost var board: Grid.Board

    ghost predicate Valid()
      reads this, m
    {
      m.Length0 == 4 && m.Length1 == 4 && IsBoard(board) &&
      forall i, j :: 0 <= i < 4 && 0 <= j < 4 ==> m[i, j] == board[i][j]
    }

    /** The whole game state as a value. */
    ghost function Model(): (s: State)
      reads this
    {
      State(board, nmoves, won, score, isSumPossible)
    }

    /** The statics of mini2048.c start out zero: an empty board, no score. */
    constructor ()
      ensures Valid() && fresh(m)
      ensures Valid() && Model() == State(EmptyBoard(), 0, false, 0, false)
    {
      m := new int[4, 4]((i, j) => 0);
      nmoves, won, score, isSumPossible := 0, false, 0, false;
      board := EmptyBoard();
    }

    /** An assignment to one cell of m. */
    method Put(c: Cell, v: int)
      requires Valid() && InBounds(c)
      modifies this, m
      ensures Valid() && Model() == old(Model()).(board := Set(old(board), c, v))
    {
      m[c.row, c.col] := v;
      board := Set(board, c, v);
    }

    /** tile_swap(a, b): move the tile in b into a when a is empty. */
    method TileSwap(a: Cell, b: Cell)
      requires Valid() && InBounds(a) && InBounds(b)
      modifies this, m
      ensures Valid() && Model() == PairStep(Swap, old(Model()), a, b)
    {
      if m[a.row, a.col] == 0 && m[b.row, b.col] != 0 {
        Put(a, m[b.row, b.col]);
        Put(b, 0);
        nmoves := nmoves + 1;
      }
    }

    /** tile_sum(a, b): merge two equal tiles into a. */
    method TileSum(a: Cell, b: Cell)
      requires Valid() && InBounds(a) && InBounds(b)
      modifies this, m
      ensures Valid() && Model() == PairStep(Sum, old(Model()), a, b)
    {
      if m[a.row, a.col] != 0 && m[a.row, a.col] == m[b.row, b.col] {
        Put(a, m[a.row, a.col] + m[b.row, b.col]);
        Put(b, 0);
        if m[a.row, a.col] == 2048 {
          won := true;
        }
        nmoves := nmoves + 1;
        score := score + m[a.row, a.col];
      }
    }

    /** sum_possible_impl(a, b): note that a and b could merge. */
    method SumPossibleImpl(a: Cell, b: Cell)
      requires Valid() && InBounds(a) && InBounds(b)
      modifies this
      ensures Valid() && Model() == PairStep(Probe, old(Model()), a, b)
    {
      if m[a.row, a.col] != 0 && m[a.row, a.col] == m[b.row, b.col] {
        isSumPossible := true;
      }
    }

    /** The call fn(left, right) through the function pointer. */
    method Apply(op: PairOp, a: Cell, b: Cell)
      requires Valid() && InBounds(a) && InBounds(b)
      modifies this, m
      ensures Valid() && Model() == PairStep(op, old(Model()), a, b)
    {
      match op
      case Swap => TileSwap(a, b);
      case Sum => TileSum(a, b);
      case Probe => SumPossibleImpl(a, b);
    }

    /**
     * pair_iterator(dim, lr, fn): for i[dim] = 0, 1, 2 and i[odim] = 0..3
     * call fn on the cells IteratorCells(dim, lr, i[dim], i[odim]).
     */
    method PairIterator(dim: int, lr: int, op: PairOp)
      requires Valid() && (dim == 0 || dim == 1)
      modifies this, m
      ensures Valid() && Model() == Pass(op, old(Model()), dim, lr)
    {
      ghost var s0 := Model();
      var k := 0;  // i[dim]
      while k < 3
        invariant Valid() && 0 <= k <= 3 && Model() == PassPrefix(op, s0, dim, lr, k, 0)
      {
        var t := 0;  // i[odim]
        while t < 4
          invariant Valid() && 0 <= t <= 4 && Model() == PassPrefix(op, s0, dim, lr, k, t)
        {
          var (left, right) := IteratorCells(dim, lr, k, t);
          ghost var before := Model();
          Apply(op, left, right);
          PrefixNext(op, s0, dim, lr, k, t, before, Model());
          t := t + 1;
        }
        PrefixRound(op, s0, dim, lr, k + 1);
        k := k + 1;
      }
    }

    /**
     * shift(dim, lr): swap, swap, sum, swap.  Every line in the direction
     * of the move becomes its reference line (module Lines), the total is
     * kept, tiles stay tiles, the score grows by the merged values, won is
     * raised iff a merge made 2048, nmoves grows iff the board changed, and
     * a changed board has an empty cell.
     */
    method Shift(dim: int, lr: int)
      requires Valid() && (dim == 0 || dim == 1)
      modifies this, m
      ensures Valid() && Model() == ShiftState(old(Model()), dim, lr)
      ensures forall t :: 0 <= t < 4 ==> LineOf(board, dim, lr, t) == RefLine(LineOf(old(board), dim, lr, t))
      ensures Total(board) == Total(old(board))
      ensures AllTiles(old(board)) ==> AllTiles(board)
      ensures score == old(score) + ShiftGain(old(board), dim, lr)
      ensures won == (old(won) || ShiftWins(old(board), dim, lr))
      ensures isSumPossible == old(isSumPossible)
      ensures nmoves >= old(nmoves) && (nmoves == old(nmoves) <==> board == old(board))
      ensures nmoves > old(nmoves) ==> EmptyCount(board) > 0
    {
      PairIterator(dim, lr, Swap);
      PairIterator(dim, lr, Swap);
      PairIterator(dim, lr, Sum);
      PairIterator(dim, lr, Swap);
      ShiftIsReference(old(Model()), dim, lr);
      ShiftConserves(old(Model()), dim, lr);
      ShiftCounter(old(Model()), dim, lr);
    }

    /** A move in direction d (the key dispatch of main). */
    method Move(d: Direction)
      requires Valid()
      modifies this, m
      ensures Valid() && Model() == ShiftState(old(Model()), d.Dim(), d.Lr())
      ensures nmoves > old(nmoves) ==> EmptyCount(board) > 0
    {
      Shift(d.Dim(), d.Lr());
    }

    /** n_empty_tiles(): the number of empty cells. */
    method NEmptyTiles() returns (n: int)
      requires Valid()
      ensures n == EmptyCount(board)
      ensures 0 <= n <= 16
    {
      ghost var g := board;
      ghost var p := 0;  // 4 * i + j
      n := 0;
      var i := 0;
      while i < 4
        invariant 0 <= i <= 4 && p == 4 * i && n == |EmptyBefore(g, p)|
      {
        var j := 0;
        while j < 4
          invariant 0 <= j <= 4 && p == 4 * i + j && n == |EmptyBefore(g, p)|
        {
          EmptyBeforeNext(g, p, i, j);
          var v := m[i, j];
          assert v == g[i][j];
          if v == 0 {
            n := n + 1;
          }
          j, p := j + 1, p + 1;
        }
        i := i + 1;
      }
    }

    /**
     * sum_possible(): run sum_possible_impl over all vertical, then all
     * horizontal neighbours; the result is whether some two neighbours
     * hold equal tiles.
     */
    method SumPossible() returns (r: bool)
      requires Valid()
      modifies this, m
      ensures Valid() && Model() == old(Model()).(sumPossible := MergePossible(old(board)))
      ensures r == isSumPossible
    {
      isSumPossible := false;
      PairIterator(0, 0, Probe);
      PairIterator(1, 0, Probe);
      r := isSumPossible;
      SumPossibleMeaning(old(Model()));
      assert Model() == SumPossibleScan(old(Model()));
    }

    /** move_possible(): an empty cell, or else two equal neighbours. */
    method MovePossible() returns (r: bool)
      requires Valid()
      modifies this, m
      ensures Valid() && board == old(board) && nmoves == old(nmoves)
      ensures won == old(won) && score == old(score)
      ensures r == Grid.MovePossible(board)
      ensures isSumPossible == (if EmptyCount(board) != 0 then old(isSumPossible) else MergePossible(board))
    {
      var n := NEmptyTiles();
      if n != 0 {
        r := true;
      } else {
        r := SumPossible();
      }
    }

    /**
     * add_tiles(): draw r in [0, n_empty_tiles()) and put a 2 into the
     * r-th empty cell in row-major order; used is the number of draws
     * uniform_random took.  n_empty_tiles() must be positive: the bound
     * of uniform_random is its divisor.
     */
    method AddTiles(draws: seq<int>) returns (used: int)
      requires Valid() && EmptyCount(board) > 0 && AreDraws(draws) && Accepts(EmptyCount(board), draws)
      modifies this, m
      ensures Valid() && 0 < used <= |draws|
      ensures draws[used - 1] < Limit(EmptyCount(old(board)))
      ensures forall i :: 0 <= i < used - 1 ==> draws[i] >= Limit(EmptyCount(old(board)))
      ensures Model() == old(Model()).(board := Set(old(board), SpawnCell(old(board), draws[used - 1] % EmptyCount(old(board))), 2))
      ensures EmptyCount(board) == EmptyCount(old(board)) - 1
      ensures Total(board) == Total(old(board)) + 2
      ensures AllTiles(old(board)) ==> AllTiles(board)
    {
      var n := NEmptyTiles();
      var r;
      r, used := UniformRandom(n, draws);
      ghost var g, r0 := board, r;
      ghost var c := SpawnCell(g, r0);
      ghost var q := 4 * c.row + c.col;
      ghost var p := 0;  // 4 * i + j
      var i := 0;
      while i < 4
        invariant Valid() && 0 <= i <= 4 && p == 4 * i && r == r0 - |EmptyBefore(g, p)|
        invariant board == (if q < p then Set(g, c, 2) else g)
        invariant Model() == old(Model()).(board := board)
      {
        var j := 0;
        while j < 4
          invariant Valid() && 0 <= j <= 4 && p == 4 * i + j && r == r0 - |EmptyBefore(g, p)|
          invariant board == (if q < p then Set(g, c, 2) else g)
          invariant Model() == old(Model()).(board := board)
        {
          SpawnStep(g, r0, p, i, j, r);
          ScanAhead(g, c, 2, p, i, j);
          var v := m[i, j];
          if v == 0 {
            var hit := r == 0;
            r := r - 1;
            if hit {
              assert board == g;
              Put(Cell(i, j), 2);
            }
          }
          j, p := j + 1, p + 1;
        }
        i := i + 1;
      }
      FillEmpty(g, c, 2);
      TotalSet(g, c, 2);
      assert IsTile(2);
    }

    /**
     * One round of the main loop before the key is read: stop if the
     * game is won; spawn a tile if the previous move changed the board;
     * clear nmoves; stop if no move is possible.  A lost game is one on
     * which every move leaves the whole state as it is.
     */
    method Turn(draws: seq<int>) returns (outcome: Outcome, used: int)
      requires Valid() && AreDraws(draws)
      requires nmoves != 0 ==> EmptyCount(board) > 0
      requires !won && nmoves != 0 ==> Accepts(EmptyCount(board), draws)
      modifies this, m
      ensures Valid()
      ensures old(won) ==> outcome == Win && used == 0 && Model() == old(Model())
      ensures !old(won) && old(nmoves) == 0 ==> used == 0 && board == old(board)
      ensures !old(won) && old(nmoves) != 0 ==>
        0 < used <= |draws| && draws[used - 1] < Limit(EmptyCount(old(board))) &&
        (forall i :: 0 <= i < used - 1 ==> draws[i] >= Limit(EmptyCount(old(board)))) &&
        board == Set(old(board), SpawnCell(old(board), draws[used - 1] % EmptyCount(old(board))), 2)
      ensures !old(won) ==> nmoves == 0 && !won && score == old(score) && outcome != Win
      ensures !old(won) ==>
        isSumPossible == (if EmptyCount(board) != 0 then old(isSumPossible) else MergePossible(board))
      ensures outcome == Lose <==> !old(won) && !Grid.MovePossible(board)
      ensures outcome == Lose ==> forall d: Direction :: ShiftState(Model(), d.Dim(), d.Lr()) == Model()
    {
      if won {
        return Win, 0;
      }
      used := 0;
      if nmoves != 0 {
        used := AddTiles(draws);
      }
      nmoves := 0;
      var possible := MovePossible();
      if !possible {
        outcome := Lose;
        forall d: Direction
          ensures ShiftState(Model(), d.Dim(), d.Lr()) == Model()
        {
          StuckShift(Model(), d.Dim(), d.Lr());
        }
      } else {
        outcome := Continue;
      }
    }
  }
}
