/**
 * What shift(dim, lr) does to the whole game state: every line moves as
 * the reference move of module Lines says, the score grows by the merged
 * tiles, the move counter stays put exactly when nothing moved, the tiles
 * keep their total and their shape, and a board on which no move is
 * possible is left as it is.  Also the two probe passes of sum_possible.
 *
 * The proofs go through module Traversal: a pass is a line run on each
 * line (Coupled), and the facts about one line come from module Lines.
 */
module Moves {
  import opened Grid
  import opened Lines
  import opened Traversal

  /** The score the merges of a move along (dim, lr) earn. */
  function ShiftGain(g: Board, dim: int, lr: int): int
    requires IsBoard(g)
  {
    MergeGain(NonZeros(LineOf(g, dim, lr, 0))) + MergeGain(NonZeros(LineOf(g, dim, lr, 1))) +
    MergeGain(NonZeros(LineOf(g, dim, lr, 2))) + MergeGain(NonZeros(LineOf(g, dim, lr, 3)))
  }

  /** Whether a merge of a move along (dim, lr) creates a 2048 tile. */
  predicate ShiftWins(g: Board, dim: int, lr: int)
    requires IsBoard(g)
  {
    MergeWins(NonZeros(LineOf(g, dim, lr, 0))) || MergeWins(NonZeros(LineOf(g, dim, lr, 1))) ||
    MergeWins(NonZeros(LineOf(g, dim, lr, 2))) || MergeWins(NonZeros(LineOf(g, dim, lr, 3)))
  }

  // ---------------------------------------------------------------------
  // The move on every line

  /** Run r is what shift does to line: the reference move and its counters. */
  ghost predicate ReferenceRun(line: seq<int>, r: Run)
  {
    r.cells == RefLine(line) && r.gain == MergeGain(NonZeros(line)) &&
    r.wins == MergeWins(NonZeros(line)) && !r.found
  }

  /** Run r counted a move exactly when it changed line, and then left an empty cell. */
  ghost predicate CountedRun(line: seq<int>, r: Run)
  {
    r.moves >= 0 && (r.moves == 0 <==> r.cells == line) && (r.moves > 0 ==> 0 in r.cells)
  }

  ghost predicate CountedRuns(g: Board, dim: int, lr: int, rs: seq<Run>)
    requires IsBoard(g) && |rs| == 4
  {
    forall t :: 0 <= t < 4 ==> CountedRun(LineOf(g, dim, lr, t), rs[t])
  }

  ghost predicate ReferenceRuns(g: Board, dim: int, lr: int, rs: seq<Run>)
    requires IsBoard(g) && |rs| == 4
  {
    forall t :: 0 <= t < 4 ==> ReferenceRun(LineOf(g, dim, lr, t), rs[t])
  }

  lemma LineReference(line: seq<int>)
    requires |line| == 4
    ensures ReferenceRun(line, ShiftLine(line)) && CountedRun(line, ShiftLine(line))
  {
    ShiftLineIsReference(line);
    ShiftLineFindsNothing(line);
    ShiftLineMoves(line);
  }

  lemma ShiftRunsReference(g: Board, dim: int, lr: int)
    requires IsBoard(g)
    ensures ReferenceRuns(g, dim, lr, ShiftRuns(g, dim, lr))
    ensures CountedRuns(g, dim, lr, ShiftRuns(g, dim, lr))
  {
    forall t | 0 <= t < 4
      ensures ReferenceRun(LineOf(g, dim, lr, t), ShiftRuns(g, dim, lr)[t])
      ensures CountedRun(LineOf(g, dim, lr, t), ShiftRuns(g, dim, lr)[t])
    {
      LineReference(LineOf(g, dim, lr, t));
    }
  }

  /** The conclusions of ShiftIsReference for any state coupled by reference runs. */
  lemma CoupledReference(s: State, s': State, dim: int, lr: int, rs: seq<Run>)
    requires IsBoard(s.board) && IsBoard(s'.board) && |rs| == 4
    requires Coupled(s, s', dim, lr, rs) && ReferenceRuns(s.board, dim, lr, rs)
    ensures forall t :: 0 <= t < 4 ==> LineOf(s'.board, dim, lr, t) == RefLine(LineOf(s.board, dim, lr, t))
    ensures s'.score == s.score + ShiftGain(s.board, dim, lr)
    ensures s'.won == (s.won || ShiftWins(s.board, dim, lr))
    ensures s'.sumPossible == s.sumPossible
  {
    assert ReferenceRun(LineOf(s.board, dim, lr, 0), rs[0]);
    assert ReferenceRun(LineOf(s.board, dim, lr, 1), rs[1]);
    assert ReferenceRun(LineOf(s.board, dim, lr, 2), rs[2]);
    assert ReferenceRun(LineOf(s.board, dim, lr, 3), rs[3]);
  }

  /**
   * shift(dim, lr) moves every line as the reference move does (compact,
   * merge once from the leading edge, compact, pad), adds exactly the
   * merged tiles to the score, sets won exactly when a merge makes 2048
   * and leaves is_sum_possible alone.
   */
  lemma ShiftIsReference(s: State, dim: int, lr: int)
    requires IsBoard(s.board)
    ensures forall t :: 0 <= t < 4 ==>
      LineOf(ShiftState(s, dim, lr).board, dim, lr, t) == RefLine(LineOf(s.board, dim, lr, t))
    ensures ShiftState(s, dim, lr).score == s.score + ShiftGain(s.board, dim, lr)
    ensures ShiftState(s, dim, lr).won == (s.won || ShiftWins(s.board, dim, lr))
    ensures ShiftState(s, dim, lr).sumPossible == s.sumPossible
  {
    ShiftLines(s, dim, lr);
    ShiftRunsReference(s.board, dim, lr);
    CoupledReference(s, ShiftState(s, dim, lr), dim, lr, ShiftRuns(s.board, dim, lr));
  }

  // ---------------------------------------------------------------------
  // The move counter

  /** The counter part of ShiftCounter for any state coupled by reference runs. */
  lemma CoupledCounter(s: State, s': State, dim: int, lr: int, rs: seq<Run>)
    requires IsBoard(s.board) && IsBoard(s'.board) && |rs| == 4
    requires Coupled(s, s', dim, lr, rs) && CountedRuns(s.board, dim, lr, rs)
    ensures s'.nmoves >= s.nmoves
    ensures s'.nmoves == s.nmoves <==> s'.board == s.board
    ensures s'.nmoves > s.nmoves ==> EmptyCount(s'.board) > 0
  {
    var g, g' := s.board, s'.board;
    assert CountedRun(LineOf(g, dim, lr, 0), rs[0]);
    assert CountedRun(LineOf(g, dim, lr, 1), rs[1]);
    assert CountedRun(LineOf(g, dim, lr, 2), rs[2]);
    assert CountedRun(LineOf(g, dim, lr, 3), rs[3]);
    if s'.nmoves == s.nmoves {
      LinesDetermineBoard(g', g, dim, lr);
    }
    if s'.nmoves > s.nmoves {
      var t :| 0 <= t < 4 && rs[t].moves > 0;
      EmptyOnLine(g', dim, lr, t);
    }
  }

  /** A line with an empty cell makes an empty cell of the board. */
  lemma EmptyOnLine(g: Board, dim: int, lr: int, t: int)
    requires IsBoard(g) && 0 <= t < 4
    ensures 0 in LineOf(g, dim, lr, t) ==> EmptyCount(g) > 0
  {
    if 0 in LineOf(g, dim, lr, t) {
      var k :| 0 <= k < 4 && LineOf(g, dim, lr, t)[k] == 0;
      EmptyCellCounted(g, LineCell(dim, lr, t, k));
    }
  }

  /**
   * The counter nmoves grows by what shift moved: it stays put exactly
   * when the board is unchanged, and after a counted move some cell is
   * empty (so add_tiles has room).
   */
  lemma ShiftCounter(s: State, dim: int, lr: int)
    requires IsBoard(s.board)
    ensures ShiftState(s, dim, lr).nmoves >= s.nmoves
    ensures ShiftState(s, dim, lr).nmoves == s.nmoves <==> ShiftState(s, dim, lr).board == s.board
    ensures ShiftState(s, dim, lr).nmoves > s.nmoves ==> EmptyCount(ShiftState(s, dim, lr).board) > 0
  {
    ShiftLines(s, dim, lr);
    ShiftRunsReference(s.board, dim, lr);
    CoupledCounter(s, ShiftState(s, dim, lr), dim, lr, ShiftRuns(s.board, dim, lr));
  }

  // ---------------------------------------------------------------------
  // Conservation of the tiles

  /** A callback on two distinct cells keeps the total and the shape of the tiles. */
  lemma PairStepConserves(op: PairOp, s: State, a: Cell, b: Cell)
    requires IsBoard(s.board) && InBounds(a) && InBounds(b) && a != b
    ensures Total(PairStep(op, s, a, b).board) == Total(s.board)
    ensures AllTiles(s.board) ==> AllTiles(PairStep(op, s, a, b).board)
  {
    var g := s.board;
    var x, y := Get(g, a), Get(g, b);
    var e := PairEffect(op, x, y);
    PairStepEffect(op, s, a, b, e);
    var g1 := Set(g, a, e.lead);
    var g2 := Set(g1, b, e.next);
    TotalSet(g, a, e.lead);
    TotalSet(g1, b, e.next);
    assert Get(g1, b) == y;
    if AllTiles(g) {
      assert IsTile(x) && IsTile(y);
      if op == Sum && Fires(op, x, y) {
        DoubleTile(x);
      }
      forall c | InBounds(c)
        ensures IsTile(Get(g2, c))
      {
      }
    }
  }

  /** s has the total of s0, and tiles wherever s0 had tiles. */
  ghost predicate Conserved(s0: State, s: State)
    requires IsBoard(s0.board) && IsBoard(s.board)
  {
    Total(s.board) == Total(s0.board) && (AllTiles(s0.board) ==> AllTiles(s.board))
  }

  lemma ConservedStep(op: PairOp, s0: State, p: State, dim: int, lr: int, t0: int, k: int)
    requires IsBoard(s0.board) && IsBoard(p.board) && 0 <= t0 < 4 && 0 <= k <= 2
    requires Conserved(s0, p)
    ensures Conserved(s0, PairStep(op, p, LineCell(dim, lr, t0, k), LineCell(dim, lr, t0, k + 1)))
  {
    LineCellInjective(dim, lr, t0, k, t0, k + 1);
    PairStepConserves(op, p, LineCell(dim, lr, t0, k), LineCell(dim, lr, t0, k + 1));
  }

  /** The first (k, t) iterations of a pass keep the total and the tiles. */
  ghost predicate PrefixConserved(op: PairOp, s: State, dim: int, lr: int, k: int, t: int)
    requires IsBoard(s.board) && Progress(k, t)
  {
    Conserved(s, PassPrefix(op, s, dim, lr, k, t))
  }

  /** One more callback of the pass keeps what the prefix before it kept. */
  lemma ConservedPrefixStep(op: PairOp, s: State, dim: int, lr: int, k: int, t: int)
    requires IsBoard(s.board) && 0 <= k <= 2 && 0 < t <= 4
    requires PrefixConserved(op, s, dim, lr, k, t - 1)
    ensures PrefixConserved(op, s, dim, lr, k, t)
  {
    ConservedStep(op, s, PassPrefix(op, s, dim, lr, k, t - 1), dim, lr, t - 1, k);
    PrefixStep(op, s, dim, lr, k, t);
  }

  lemma ConservedPrefixRound(op: PairOp, s: State, dim: int, lr: int, k: int)
    requires IsBoard(s.board) && 0 < k <= 3
    requires PrefixConserved(op, s, dim, lr, k - 1, 4)
    ensures PrefixConserved(op, s, dim, lr, k, 0)
  {
    PrefixRound(op, s, dim, lr, k);
  }

  lemma ConservedPrefixStart(op: PairOp, s: State, dim: int, lr: int)
    requires IsBoard(s.board)
    ensures PrefixConserved(op, s, dim, lr, 0, 0)
  {
    assert PassPrefix(op, s, dim, lr, 0, 0) == s;
  }

  lemma {:induction false} PrefixConserves(op: PairOp, s: State, dim: int, lr: int, k: int, t: int)
    requires IsBoard(s.board) && Progress(k, t)
    ensures PrefixConserved(op, s, dim, lr, k, t)
    decreases k, t, 1
  {
    if t == 0 {
      if k > 0 {
        RoundConserves(op, s, dim, lr, k);
      } else {
        ConservedPrefixStart(op, s, dim, lr);
      }
    } else {
      StepConserves(op, s, dim, lr, k, t);
    }
  }

  lemma {:induction false} StepConserves(op: PairOp, s: State, dim: int, lr: int, k: int, t: int)
    requires IsBoard(s.board) && 0 <= k <= 2 && 0 < t <= 4
    ensures PrefixConserved(op, s, dim, lr, k, t)
    decreases k, t, 0
  {
    PrefixConserves(op, s, dim, lr, k, t - 1);
    ConservedPrefixStep(op, s, dim, lr, k, t);
  }

  lemma {:induction false} RoundConserves(op: PairOp, s: State, dim: int, lr: int, k: int)
    requires IsBoard(s.board) && 0 < k <= 3
    ensures PrefixConserved(op, s, dim, lr, k, 0)
    decreases k, 0, 0
  {
    PrefixConserves(op, s, dim, lr, k - 1, 4);
    ConservedPrefixRound(op, s, dim, lr, k);
  }

  lemma PassConserves(op: PairOp, s0: State, s: State, dim: int, lr: int)
    requires IsBoard(s0.board) && IsBoard(s.board) && Conserved(s0, s)
    ensures Conserved(s0, Pass(op, s, dim, lr))
  {
    PrefixConserves(op, s, dim, lr, 3, 0);
  }

  /**
   * shift keeps the sum of all tiles (a merge turns two tiles into one
   * of their sum, a swap only moves a tile), and every tile stays empty
   * or a power of two from 2 up.
   */
  lemma ShiftConserves(s: State, dim: int, lr: int)
    requires IsBoard(s.board)
    ensures Total(ShiftState(s, dim, lr).board) == Total(s.board)
    ensures AllTiles(s.board) ==> AllTiles(ShiftState(s, dim, lr).board)
  {
    var s1 := Pass(Swap, s, dim, lr);
    var s2 := Pass(Swap, s1, dim, lr);
    var s3 := Pass(Sum, s2, dim, lr);
    PassConserves(Swap, s, s, dim, lr);
    PassConserves(Swap, s, s1, dim, lr);
    PassConserves(Sum, s, s2, dim, lr);
    PassConserves(Swap, s, s3, dim, lr);
  }

  // ---------------------------------------------------------------------
  // A board on which no move is possible

  /** Neighbours on a line are neighbours on the board. */
  lemma LineNeighbours(g: Board, dim: int, lr: int, t: int)
    requires IsBoard(g) && 0 <= t < 4
    ensures HasEqualNeighbours(LineOf(g, dim, lr, t)) ==> MergePossible(g)
  {
    var line := LineOf(g, dim, lr, t);
    if HasEqualNeighbours(line) {
      var k :| 0 <= k < 3 && line[k] != 0 && line[k] == line[k + 1];
      var a, b := LineCell(dim, lr, t, k), LineCell(dim, lr, t, k + 1);
      assert Get(g, a) == line[k] && Get(g, b) == line[k + 1];
      if dim == 0 {
        if lr != 0 {
          assert EqualBelow(g, b.row, b.col);
        } else {
          assert EqualBelow(g, a.row, a.col);
        }
      } else {
        if lr != 0 {
          assert EqualRight(g, b.row, b.col);
        } else {
          assert EqualRight(g, a.row, a.col);
        }
      }
    }
  }

  /** On a stuck board every line is full and has no equal neighbours, so shift leaves it. */
  lemma StuckRuns(g: Board, dim: int, lr: int)
    requires IsBoard(g) && !MovePossible(g)
    ensures ShiftRuns(g, dim, lr) == StartRuns(g, dim, lr)
  {
    FullBoard(g);
    forall t | 0 <= t < 4
      ensures ShiftRuns(g, dim, lr)[t] == StartRuns(g, dim, lr)[t]
    {
      var line := LineOf(g, dim, lr, t);
      assert forall k :: 0 <= k < 4 ==> line[k] == Get(g, LineCell(dim, lr, t, k));
      LineNeighbours(g, dim, lr, t);
      StuckLine(line);
      ShiftLineFindsNothing(line);
    }
  }

  /** A state coupled to itself by the unstarted runs is itself. */
  lemma CoupledStart(s: State, s': State, dim: int, lr: int)
    requires IsBoard(s.board) && IsBoard(s'.board)
    requires Coupled(s, s', dim, lr, StartRuns(s.board, dim, lr))
    ensures s' == s
  {
    LinesDetermineBoard(s'.board, s.board, dim, lr);
  }

  /**
   * When move_possible fails (no empty cell, no equal neighbours) every
   * shift leaves board, counter, score and won as they were.
   */
  lemma StuckShift(s: State, dim: int, lr: int)
    requires IsBoard(s.board) && !MovePossible(s.board)
    ensures ShiftState(s, dim, lr) == s
  {
    ShiftLines(s, dim, lr);
    StuckRuns(s.board, dim, lr);
    CoupledStart(s, ShiftState(s, dim, lr), dim, lr);
  }

  // ---------------------------------------------------------------------
  // sum_possible

  /** Some line of a pass along (dim, lr) has equal neighbours. */
  ghost predicate ProbeFinds(g: Board, dim: int, lr: int)
    requires IsBoard(g)
  {
    HasEqualNeighbours(LineOf(g, dim, lr, 0)) || HasEqualNeighbours(LineOf(g, dim, lr, 1)) ||
    HasEqualNeighbours(LineOf(g, dim, lr, 2)) || HasEqualNeighbours(LineOf(g, dim, lr, 3))
  }

  /** The runs of a probe pass: nothing moves, and found marks equal neighbours. */
  lemma ProbeRuns(g: Board, dim: int, lr: int)
    requires IsBoard(g)
    ensures forall t :: 0 <= t < 4 ==>
      PassRuns(Probe, g, dim, lr)[t] == StartRuns(g, dim, lr)[t].(found := HasEqualNeighbours(LineOf(g, dim, lr, t)))
  {
    forall t | 0 <= t < 4
      ensures PassRuns(Probe, g, dim, lr)[t] == StartRuns(g, dim, lr)[t].(found := HasEqualNeighbours(LineOf(g, dim, lr, t)))
    {
      ProbePass(LineOf(g, dim, lr, t));
    }
  }

  lemma CoupledProbe(s: State, s': State, dim: int, lr: int, rs: seq<Run>)
    requires IsBoard(s.board) && IsBoard(s'.board) && |rs| == 4
    requires forall t :: 0 <= t < 4 ==>
      rs[t] == StartRuns(s.board, dim, lr)[t].(found := HasEqualNeighbours(LineOf(s.board, dim, lr, t)))
    requires Coupled(s, s', dim, lr, rs)
    ensures s' == s.(sumPossible := s.sumPossible || ProbeFinds(s.board, dim, lr))
  {
    LinesDetermineBoard(s'.board, s.board, dim, lr);
  }

  /** A pass of sum_possible_impl changes nothing but is_sum_possible. */
  lemma ProbePassState(s: State, dim: int, lr: int)
    requires IsBoard(s.board)
    ensures Pass(Probe, s, dim, lr) == s.(sumPossible := s.sumPossible || ProbeFinds(s.board, dim, lr))
  {
    PassLines(Probe, s, dim, lr);
    ProbeRuns(s.board, dim, lr);
    CoupledProbe(s, Pass(Probe, s, dim, lr), dim, lr, PassRuns(Probe, s.board, dim, lr));
  }

  /** The probe down the columns finds exactly the vertical pairs. */
  lemma ColumnsProbe(g: Board)
    requires IsBoard(g)
    ensures ProbeFinds(g, 0, 0) <==> VerticalPair(g)
  {
    if VerticalPair(g) {
      var i, j :| 0 <= i < 3 && 0 <= j < 4 && EqualBelow(g, i, j);
      assert LineOf(g, 0, 0, j)[i] == g[i][j] && LineOf(g, 0, 0, j)[i + 1] == g[i + 1][j];
      assert HasEqualNeighbours(LineOf(g, 0, 0, j));
    }
    forall t | 0 <= t < 4 && HasEqualNeighbours(LineOf(g, 0, 0, t))
      ensures VerticalPair(g)
    {
      var line := LineOf(g, 0, 0, t);
      var k :| 0 <= k < 3 && line[k] != 0 && line[k] == line[k + 1];
      assert line[k] == g[k][t] && line[k + 1] == g[k + 1][t];
      assert EqualBelow(g, k, t);
    }
  }

  /** The probe along the rows finds exactly the horizontal pairs. */
  lemma RowsProbe(g: Board)
    requires IsBoard(g)
    ensures ProbeFinds(g, 1, 0) <==> HorizontalPair(g)
  {
    if HorizontalPair(g) {
      var i, j :| 0 <= i < 4 && 0 <= j < 3 && EqualRight(g, i, j);
      assert LineOf(g, 1, 0, i)[j] == g[i][j] && LineOf(g, 1, 0, i)[j + 1] == g[i][j + 1];
      assert HasEqualNeighbours(LineOf(g, 1, 0, i));
    }
    forall t | 0 <= t < 4 && HasEqualNeighbours(LineOf(g, 1, 0, t))
      ensures HorizontalPair(g)
    {
      var line := LineOf(g, 1, 0, t);
      var k :| 0 <= k < 3 && line[k] != 0 && line[k] == line[k + 1];
      assert line[k] == g[t][k] && line[k + 1] == g[t][k + 1];
      assert EqualRight(g, t, k);
    }
  }

  /** sum_possible: clear the flag, probe the columns, probe the rows. */
  function SumPossibleScan(s: State): (s': State)
    requires IsBoard(s.board)
    ensures IsBoard(s'.board) && s' == s.(sumPossible := s'.sumPossible)
  {
    Pass(Probe, Pass(Probe, s.(sumPossible := false), 0, 0), 1, 0)
  }

  /**
   * sum_possible leaves the board and the other globals alone and sets
   * is_sum_possible exactly when two neighbours hold equal tiles.
   */
  lemma SumPossibleMeaning(s: State)
    requires IsBoard(s.board)
    ensures SumPossibleScan(s) == s.(sumPossible := MergePossible(s.board))
  {
    var s0 := s.(sumPossible := false);
    ProbePassState(s0, 0, 0);
    var s1 := Pass(Probe, s0, 0, 0);
    ProbePassState(s1, 1, 0);
    ColumnsProbe(s.board);
    RowsProbe(s.board);
  }
}
