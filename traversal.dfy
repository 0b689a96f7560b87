/**
 * pair_iterator and shift of mini2048.c on a value of the whole game
 * state, and the proof that a shift acts on every line of the board as
 * the line semantics of module Lines says.
 *
 * A pass along axis dim visits, for k = 0, 1, 2 (outer loop, i[dim]) and
 * every line t = 0..3 (inner loop, i[odim]), the pair of cells at
 * positions k and k + 1 of line t.  With lr set both indices are
 * reflected by 3 - i, so position 0 of a line is always the edge the
 * tiles move towards.
 */
module Traversal {
  import opened Grid
  import opened Lines

  /** The board and the globals nmoves, won, score and is_sum_possible. */
  datatype State = State(board: Board, nmoves: int, won: bool, score: int, sumPossible: bool)

  /** i when lr is 0, 3 - i otherwise (the ii[] indices of pair_iterator). */
  function Reflect(lr: int, x: int): int
  {
    if lr != 0 then 3 - x else x
  }

  /** The cell at position k of line t of a pass along axis dim. */
  function LineCell(dim: int, lr: int, t: int, k: int): (c: Cell)
    requires 0 <= t < 4 && 0 <= k < 4
    ensures InBounds(c)
  {
    if dim == 0 then Cell(Reflect(lr, k), Reflect(lr, t)) else Cell(Reflect(lr, t), Reflect(lr, k))
  }

  /** Line t of a pass along axis dim, read from its leading cell. */
  function LineOf(g: Board, dim: int, lr: int, t: int): (line: seq<int>)
    requires IsBoard(g) && 0 <= t < 4
    ensures |line| == 4
  {
    [Get(g, LineCell(dim, lr, t, 0)), Get(g, LineCell(dim, lr, t, 1)),
     Get(g, LineCell(dim, lr, t, 2)), Get(g, LineCell(dim, lr, t, 3))]
  }

  /**
   * Every pair pair_iterator visits lies on the board, and its second cell
   * is the neighbour of the first along axis dim, one step away from the
   * edge the tiles move towards (row or column 0 when lr is 0, 3 otherwise);
   * the first cell is k steps from that edge.
   */
  lemma PairCells(dim: int, lr: int, t: int, k: int)
    requires dim == 0 || dim == 1
    requires 0 <= t < 4 && 0 <= k < 3
    ensures var a, b := LineCell(dim, lr, t, k), LineCell(dim, lr, t, k + 1);
      var step := if lr != 0 then -1 else 1;
      var edge := if lr != 0 then 3 else 0;
      InBounds(a) && InBounds(b) &&
      (dim == 0 ==> a.col == b.col && b.row == a.row + step && a.row == edge + step * k) &&
      (dim == 1 ==> a.row == b.row && b.col == a.col + step && a.col == edge + step * k)
  {
  }

  /**
   * The pointers left and right of pair_iterator when i[dim] is k and
   * i[odim] is t: left is i with both indices reflected when lr is set,
   * right is left plus r_offset.  They are the cells at positions k and
   * k + 1 of line t.
   */
  function IteratorCells(dim: int, lr: int, k: int, t: int): (cells: (Cell, Cell))
    requires (dim == 0 || dim == 1) && 0 <= k < 3 && 0 <= t < 4
    ensures cells.0 == LineCell(dim, lr, t, k) && cells.1 == LineCell(dim, lr, t, k + 1)
  {
    var neg := if lr != 0 then -1 else 1;
    var r0, r1 := neg * (if dim == 0 then 1 else 0), neg * (if dim == 1 then 1 else 0);
    var i0, i1 := if dim == 0 then k else t, if dim == 0 then t else k;
    var ii0, ii1 := if lr != 0 then 3 - i0 else i0, if lr != 0 then 3 - i1 else i1;
    (Cell(ii0, ii1), Cell(ii0 + r0, ii1 + r1))
  }

  /** Distinct positions of distinct lines are distinct cells. */
  lemma LineCellInjective(dim: int, lr: int, t: int, k: int, t': int, k': int)
    requires 0 <= t < 4 && 0 <= k < 4 && 0 <= t' < 4 && 0 <= k' < 4
    ensures LineCell(dim, lr, t, k) == LineCell(dim, lr, t', k') <==> t == t' && k == k'
  {
  }

  /** Every cell lies on some line of a pass. */
  lemma LineCellOnto(dim: int, lr: int, c: Cell)
    requires InBounds(c)
    ensures var t := Reflect(lr, if dim == 0 then c.col else c.row);
      var k := Reflect(lr, if dim == 0 then c.row else c.col);
      0 <= t < 4 && 0 <= k < 4 && LineCell(dim, lr, t, k) == c
  {
  }

  /** The lines of a pass determine the board. */
  lemma LinesDetermineBoard(g: Board, h: Board, dim: int, lr: int)
    requires IsBoard(g) && IsBoard(h)
    requires forall t :: 0 <= t < 4 ==> LineOf(g, dim, lr, t) == LineOf(h, dim, lr, t)
    ensures g == h
  {
    forall c | InBounds(c)
      ensures Get(g, c) == Get(h, c)
    {
      LineCellOnto(dim, lr, c);
      var t := Reflect(lr, if dim == 0 then c.col else c.row);
      var k := Reflect(lr, if dim == 0 then c.row else c.col);
      assert LineOf(g, dim, lr, t)[k] == LineOf(h, dim, lr, t)[k];
    }
    BoardExt(g, h);
  }

  // ---------------------------------------------------------------------
  // The callbacks and the passes on the whole state

  /**
   * One callback on the cells a (leading) and b: tile_swap, tile_sum or
   * sum_possible_impl.  The writes happen in the order of the source, and
   * tile_sum reads the leading cell back after clearing b.
   */
  function PairStep(op: PairOp, s: State, a: Cell, b: Cell): (s': State)
    requires IsBoard(s.board) && InBounds(a) && InBounds(b)
    ensures IsBoard(s'.board) && Counts(s, s', 1)
    ensures op != Probe ==> s'.sumPossible == s.sumPossible
    ensures op == Probe ==> s' == s.(sumPossible := s'.sumPossible)
  {
    var x, y := Get(s.board, a), Get(s.board, b);
    if !Fires(op, x, y) then s
    else match op
      case Swap => s.(board := Set(Set(s.board, a, y), b, 0), nmoves := s.nmoves + 1)
      case Sum =>
        var g := Set(Set(s.board, a, x + y), b, 0);
        var v := Get(g, a);
        s.(board := g, won := s.won || v == 2048, nmoves := s.nmoves + 1, score := s.score + v)
      case Probe => s.(sumPossible := true)
  }

  /**
   * From s to s' the callbacks counted at most n moves, and won and
   * is_sum_possible were only ever raised.
   */
  predicate Counts(s: State, s': State, n: int)
  {
    s.nmoves <= s'.nmoves <= s.nmoves + n && (s.won ==> s'.won) && (s.sumPossible ==> s'.sumPossible)
  }

  /** Which (k, t) iterations of a pass have run. */
  predicate Progress(k: int, t: int)
  {
    (0 <= k <= 2 && 0 <= t <= 4) || (k == 3 && t == 0)
  }

  /**
   * The state after pair_iterator has run the callback for all pairs of
   * positions below k on every line, and for position k on lines below t.
   */
  function PassPrefix(op: PairOp, s: State, dim: int, lr: int, k: int, t: int): (s': State)
    requires IsBoard(s.board) && Progress(k, t)
    ensures IsBoard(s'.board) && Counts(s, s', 4 * k + t)
    ensures op != Probe ==> s'.sumPossible == s.sumPossible
    ensures op == Probe ==> s' == s.(sumPossible := s'.sumPossible)
    decreases k, t
  {
    if t == 0 then
      (if k == 0 then s else PassPrefix(op, s, dim, lr, k - 1, 4))
    else
      PairStep(op, PassPrefix(op, s, dim, lr, k, t - 1),
               LineCell(dim, lr, t - 1, k), LineCell(dim, lr, t - 1, k + 1))
  }

  /** The end of one round of the outer loop is the start of the next. */
  lemma PrefixRound(op: PairOp, s: State, dim: int, lr: int, k: int)
    requires IsBoard(s.board) && 0 < k <= 3
    ensures PassPrefix(op, s, dim, lr, k, 0) == PassPrefix(op, s, dim, lr, k - 1, 4)
  {
  }

  /** One iteration of the inner loop is one more callback. */
  lemma PrefixStep(op: PairOp, s: State, dim: int, lr: int, k: int, t: int)
    requires IsBoard(s.board) && 0 <= k <= 2 && 0 < t <= 4
    ensures PassPrefix(op, s, dim, lr, k, t) ==
      PairStep(op, PassPrefix(op, s, dim, lr, k, t - 1), LineCell(dim, lr, t - 1, k), LineCell(dim, lr, t - 1, k + 1))
  {
  }

  /** A state one callback after the prefix (k, t) is the prefix (k, t + 1). */
  lemma PrefixNext(op: PairOp, s: State, dim: int, lr: int, k: int, t: int, p: State, p': State)
    requires IsBoard(s.board) && 0 <= k <= 2 && 0 <= t < 4
    requires p == PassPrefix(op, s, dim, lr, k, t) && IsBoard(p.board)
    requires p' == PairStep(op, p, LineCell(dim, lr, t, k), LineCell(dim, lr, t, k + 1))
    ensures p' == PassPrefix(op, s, dim, lr, k, t + 1)
  {
    PrefixStep(op, s, dim, lr, k, t + 1);
  }

  /** pair_iterator(dim, lr, op): the whole pass. */
  function Pass(op: PairOp, s: State, dim: int, lr: int): (s': State)
    requires IsBoard(s.board)
    ensures IsBoard(s'.board) && Counts(s, s', 12)
    ensures op != Probe ==> s'.sumPossible == s.sumPossible
    ensures op == Probe ==> s' == s.(sumPossible := s'.sumPossible)
  {
    PassPrefix(op, s, dim, lr, 3, 0)
  }

  /** shift(dim, lr): swap, swap, sum, swap. */
  function ShiftState(s: State, dim: int, lr: int): (s': State)
    requires IsBoard(s.board)
    ensures IsBoard(s'.board) && Counts(s, s', 48) && s'.sumPossible == s.sumPossible
  {
    Pass(Swap, Pass(Sum, Pass(Swap, Pass(Swap, s, dim, lr), dim, lr), dim, lr), dim, lr)
  }

  // ---------------------------------------------------------------------
  // A pass acts on each line separately

  /** What one callback writes into its two cells and what it counts. */
  datatype Effect = Effect(lead: int, next: int, moves: int, gain: int, wins: bool, found: bool)

  function PairEffect(op: PairOp, x: int, y: int): Effect
  {
    if !Fires(op, x, y) then Effect(x, y, 0, 0, false, false)
    else match op
      case Swap => Effect(y, 0, 1, 0, false, false)
      case Sum => Effect(x + y, 0, 1, x + y, x + y == 2048, false)
      case Probe => Effect(x, y, 0, 0, false, true)
  }

  /** A line step writes and counts the effect of its callback. */
  lemma LineStepEffect(op: PairOp, r: Run, k: nat, e: Effect)
    requires k + 1 < |r.cells| && e == PairEffect(op, r.cells[k], r.cells[k + 1])
    ensures LineStep(op, r, k) ==
      Run(r.cells[k := e.lead][k + 1 := e.next], r.moves + e.moves, r.gain + e.gain,
          r.wins || e.wins, r.found || e.found)
  {
    assert r.cells[k := r.cells[k]][k + 1 := r.cells[k + 1]] == r.cells;
  }

  /**
   * On two distinct cells a callback on the state writes and counts the
   * same effect; in particular tile_sum reads back the merged tile.
   */
  lemma PairStepEffect(op: PairOp, s: State, a: Cell, b: Cell, e: Effect)
    requires IsBoard(s.board) && InBounds(a) && InBounds(b) && a != b
    requires e == PairEffect(op, Get(s.board, a), Get(s.board, b))
    ensures PairStep(op, s, a, b) ==
      State(Set(Set(s.board, a, e.lead), b, e.next), s.nmoves + e.moves, s.won || e.wins,
            s.score + e.gain, s.sumPossible || e.found)
  {
    var x, y := Get(s.board, a), Get(s.board, b);
    if e.lead == x && e.next == y {
      BoardExt(Set(Set(s.board, a, x), b, y), s.board);
    }
  }

  /** Writing two cells of line t0 at positions k and k + 1. */
  lemma WriteThisLine(g: Board, dim: int, lr: int, t0: int, k: int, u: int, w: int)
    requires IsBoard(g) && 0 <= t0 < 4 && 0 <= k <= 2
    ensures LineOf(Set(Set(g, LineCell(dim, lr, t0, k), u), LineCell(dim, lr, t0, k + 1), w), dim, lr, t0)
         == LineOf(g, dim, lr, t0)[k := u][k + 1 := w]
  {
    forall j | 0 <= j < 4
      ensures LineCell(dim, lr, t0, j) == LineCell(dim, lr, t0, k) <==> j == k
      ensures LineCell(dim, lr, t0, j) == LineCell(dim, lr, t0, k + 1) <==> j == k + 1
    {
      LineCellInjective(dim, lr, t0, j, t0, k);
      LineCellInjective(dim, lr, t0, j, t0, k + 1);
    }
  }

  /** Writing two cells of line t0 leaves line t alone. */
  lemma WriteOtherLine(g: Board, dim: int, lr: int, t0: int, k: int, u: int, w: int, t: int)
    requires IsBoard(g) && 0 <= t0 < 4 && 0 <= k <= 2 && 0 <= t < 4 && t != t0
    ensures LineOf(Set(Set(g, LineCell(dim, lr, t0, k), u), LineCell(dim, lr, t0, k + 1), w), dim, lr, t)
         == LineOf(g, dim, lr, t)
  {
    forall j | 0 <= j < 4
      ensures LineCell(dim, lr, t, j) != LineCell(dim, lr, t0, k)
      ensures LineCell(dim, lr, t, j) != LineCell(dim, lr, t0, k + 1)
    {
      LineCellInjective(dim, lr, t, j, t0, k);
      LineCellInjective(dim, lr, t, j, t0, k + 1);
    }
  }

  /** How many callbacks of line i have run at iteration (k, t). */
  function Done(k: int, t: int, i: int): int
  {
    if i < t then k + 1 else k
  }

  /** The line runs that match the pass prefix up to iteration (k, t). */
  function RunsAt(op: PairOp, g: Board, dim: int, lr: int, k: int, t: int): (rs: seq<Run>)
    requires IsBoard(g) && Progress(k, t)
    ensures |rs| == 4 && forall i :: 0 <= i < 4 ==> |rs[i].cells| == 4
  {
    seq(4, i requires 0 <= i < 4 => LineRun(op, LineOf(g, dim, lr, i), Done(k, t, i)))
  }

  function MovesOf(rs: seq<Run>): int
    requires |rs| == 4
  {
    rs[0].moves + rs[1].moves + rs[2].moves + rs[3].moves
  }

  function GainOf(rs: seq<Run>): int
    requires |rs| == 4
  {
    rs[0].gain + rs[1].gain + rs[2].gain + rs[3].gain
  }

  predicate WinsOf(rs: seq<Run>)
    requires |rs| == 4
  {
    rs[0].wins || rs[1].wins || rs[2].wins || rs[3].wins
  }

  predicate FoundOf(rs: seq<Run>)
    requires |rs| == 4
  {
    rs[0].found || rs[1].found || rs[2].found || rs[3].found
  }

  /** State s is state s0 after the line runs rs. */
  ghost predicate Coupled(s0: State, s: State, dim: int, lr: int, rs: seq<Run>)
    requires IsBoard(s.board) && |rs| == 4
  {
    (forall i :: 0 <= i < 4 ==> LineOf(s.board, dim, lr, i) == rs[i].cells) &&
    s.nmoves == s0.nmoves + MovesOf(rs) && s.score == s0.score + GainOf(rs) &&
    s.won == (s0.won || WinsOf(rs)) && s.sumPossible == (s0.sumPossible || FoundOf(rs))
  }

  /**
   * Coupling survives a change of the state that runs line t0 from rs[t0]
   * to r' and leaves the other lines alone.
   */
  lemma CoupledUpdate(s0: State, s: State, s': State, dim: int, lr: int, rs: seq<Run>, t0: int,
                      r': Run, w: bool, f: bool)
    requires IsBoard(s.board) && IsBoard(s'.board) && |rs| == 4 && 0 <= t0 < 4
    requires Coupled(s0, s, dim, lr, rs)
    requires LineOf(s'.board, dim, lr, t0) == r'.cells
    requires forall t :: 0 <= t < 4 && t != t0 ==> LineOf(s'.board, dim, lr, t) == LineOf(s.board, dim, lr, t)
    requires s'.nmoves - s.nmoves == r'.moves - rs[t0].moves && s'.score - s.score == r'.gain - rs[t0].gain
    requires s'.won == (s.won || w) && r'.wins == (rs[t0].wins || w)
    requires s'.sumPossible == (s.sumPossible || f) && r'.found == (rs[t0].found || f)
    ensures Coupled(s0, s', dim, lr, rs[t0 := r'])
  {
    var rs' := rs[t0 := r'];
    forall i | 0 <= i < 4
      ensures LineOf(s'.board, dim, lr, i) == rs'[i].cells
    {
    }
    CountersUpdate(rs, t0, r', w, f);
  }

  /** Replacing one run changes the totals by what that run adds. */
  lemma CountersUpdate(rs: seq<Run>, t0: int, r': Run, w: bool, f: bool)
    requires |rs| == 4 && 0 <= t0 < 4
    requires r'.wins == (rs[t0].wins || w) && r'.found == (rs[t0].found || f)
    ensures MovesOf(rs[t0 := r']) == MovesOf(rs) - rs[t0].moves + r'.moves
    ensures GainOf(rs[t0 := r']) == GainOf(rs) - rs[t0].gain + r'.gain
    ensures WinsOf(rs[t0 := r']) == (WinsOf(rs) || w)
    ensures FoundOf(rs[t0 := r']) == (FoundOf(rs) || f)
  {
  }

  /** One callback keeps the state coupled to the line runs. */
  lemma CoupledStep(op: PairOp, s0: State, s: State, dim: int, lr: int, rs: seq<Run>, t0: int, k: int)
    requires IsBoard(s.board) && |rs| == 4 && 0 <= t0 < 4 && 0 <= k <= 2
    requires Coupled(s0, s, dim, lr, rs)
    ensures Coupled(s0, PairStep(op, s, LineCell(dim, lr, t0, k), LineCell(dim, lr, t0, k + 1)),
                    dim, lr, rs[t0 := LineStep(op, rs[t0], k)])
  {
    var g := s.board;
    var a, b := LineCell(dim, lr, t0, k), LineCell(dim, lr, t0, k + 1);
    var r := rs[t0];
    assert LineOf(g, dim, lr, t0) == r.cells;
    var x, y := r.cells[k], r.cells[k + 1];
    assert Get(g, a) == x && Get(g, b) == y;
    var e := PairEffect(op, x, y);
    LineCellInjective(dim, lr, t0, k, t0, k + 1);
    PairStepEffect(op, s, a, b, e);
    LineStepEffect(op, r, k, e);
    var g' := Set(Set(g, a, e.lead), b, e.next);
    var s' := State(g', s.nmoves + e.moves, s.won || e.wins, s.score + e.gain, s.sumPossible || e.found);
    var r' := Run(r.cells[k := e.lead][k + 1 := e.next], r.moves + e.moves, r.gain + e.gain,
                  r.wins || e.wins, r.found || e.found);
    WriteThisLine(g, dim, lr, t0, k, e.lead, e.next);
    forall t | 0 <= t < 4 && t != t0
      ensures LineOf(g', dim, lr, t) == LineOf(g, dim, lr, t)
    {
      WriteOtherLine(g, dim, lr, t0, k, e.lead, e.next, t);
    }
    CoupledUpdate(s0, s, s', dim, lr, rs, t0, r', e.wins, e.found);
    CoupledTransport(s0, s', PairStep(op, s, a, b), dim, lr, rs[t0 := r'], rs[t0 := LineStep(op, r, k)]);
  }

  /** Coupling is about values: equal states and equal runs stay coupled. */
  lemma CoupledTransport(s0: State, p: State, p': State, dim: int, lr: int, rs: seq<Run>, rs': seq<Run>)
    requires IsBoard(p.board) && |rs| == 4 && p' == p && rs' == rs
    requires Coupled(s0, p, dim, lr, rs)
    ensures IsBoard(p'.board) && |rs'| == 4 && Coupled(s0, p', dim, lr, rs')
  {
  }

  /** The state after iteration (k, t) of a pass is coupled to the line runs so far. */
  ghost predicate PrefixCoupled(op: PairOp, s: State, dim: int, lr: int, k: int, t: int)
    requires IsBoard(s.board) && Progress(k, t)
  {
    Coupled(s, PassPrefix(op, s, dim, lr, k, t), dim, lr, RunsAt(op, s.board, dim, lr, k, t))
  }

  /** One more callback of a pass keeps the state coupled to the line runs. */
  lemma PassPrefixStep(op: PairOp, s: State, dim: int, lr: int, k: int, t: int)
    requires IsBoard(s.board) && 0 <= k <= 2 && 0 < t <= 4
    requires PrefixCoupled(op, s, dim, lr, k, t - 1)
    ensures PrefixCoupled(op, s, dim, lr, k, t)
  {
    var p := PassPrefix(op, s, dim, lr, k, t - 1);
    var rs := RunsAt(op, s.board, dim, lr, k, t - 1);
    CoupledStep(op, s, p, dim, lr, rs, t - 1, k);
    RunsAtStep(op, s.board, dim, lr, k, t);
    CoupledTransport(s, PairStep(op, p, LineCell(dim, lr, t - 1, k), LineCell(dim, lr, t - 1, k + 1)),
                     PassPrefix(op, s, dim, lr, k, t), dim, lr,
                     rs[t - 1 := LineStep(op, rs[t - 1], k)], RunsAt(op, s.board, dim, lr, k, t));
  }

  /** Iteration (k, t - 1) runs callback k on line t - 1 and on no other line. */
  lemma RunsAtStep(op: PairOp, g: Board, dim: int, lr: int, k: int, t: int)
    requires IsBoard(g) && 0 <= k <= 2 && 0 < t <= 4
    ensures var rs := RunsAt(op, g, dim, lr, k, t - 1);
      RunsAt(op, g, dim, lr, k, t) == rs[t - 1 := LineStep(op, rs[t - 1], k)]
  {
  }

  /** The end of one round of the outer loop is the start of the next. */
  lemma PassPrefixRound(op: PairOp, s: State, dim: int, lr: int, k: int)
    requires IsBoard(s.board) && 0 < k <= 3
    requires PrefixCoupled(op, s, dim, lr, k - 1, 4)
    ensures PrefixCoupled(op, s, dim, lr, k, 0)
  {
    PrefixRound(op, s, dim, lr, k);
    RunsAtRound(op, s.board, dim, lr, k);
    CoupledTransport(s, PassPrefix(op, s, dim, lr, k - 1, 4), PassPrefix(op, s, dim, lr, k, 0), dim, lr,
                     RunsAt(op, s.board, dim, lr, k - 1, 4), RunsAt(op, s.board, dim, lr, k, 0));
  }

  lemma RunsAtRound(op: PairOp, g: Board, dim: int, lr: int, k: int)
    requires IsBoard(g) && 0 < k <= 3
    ensures RunsAt(op, g, dim, lr, k, 0) == RunsAt(op, g, dim, lr, k - 1, 4)
  {
    forall i | 0 <= i < 4
      ensures RunsAt(op, g, dim, lr, k, 0)[i] == RunsAt(op, g, dim, lr, k - 1, 4)[i]
    {
      assert Done(k, 0, i) == Done(k - 1, 4, i);
    }
  }

  /** The unstarted runs of the lines of a pass. */
  function StartRuns(g: Board, dim: int, lr: int): (rs: seq<Run>)
    requires IsBoard(g)
    ensures |rs| == 4 && forall i :: 0 <= i < 4 ==> |rs[i].cells| == 4
  {
    seq(4, i requires 0 <= i < 4 => Start(LineOf(g, dim, lr, i)))
  }

  /** A state is coupled to itself by the unstarted runs. */
  lemma StartCoupled(s: State, dim: int, lr: int)
    requires IsBoard(s.board)
    ensures Coupled(s, s, dim, lr, StartRuns(s.board, dim, lr))
  {
  }

  lemma RunsAtStart(op: PairOp, g: Board, dim: int, lr: int)
    requires IsBoard(g)
    ensures RunsAt(op, g, dim, lr, 0, 0) == StartRuns(g, dim, lr)
  {
  }

  /** Before the first callback the state is coupled to the unstarted runs. */
  lemma PassPrefixStart(op: PairOp, s: State, dim: int, lr: int)
    requires IsBoard(s.board)
    ensures PrefixCoupled(op, s, dim, lr, 0, 0)
  {
    StartCoupled(s, dim, lr);
    RunsAtStart(op, s.board, dim, lr);
    CoupledTransport(s, s, PassPrefix(op, s, dim, lr, 0, 0), dim, lr,
                     StartRuns(s.board, dim, lr), RunsAt(op, s.board, dim, lr, 0, 0));
  }

  /** Every prefix of a pass is coupled to the line runs so far. */
  lemma {:induction false} PassPrefixLines(op: PairOp, s: State, dim: int, lr: int, k: int, t: int)
    requires IsBoard(s.board) && Progress(k, t)
    ensures PrefixCoupled(op, s, dim, lr, k, t)
    decreases k, t, 1
  {
    if t == 0 {
      if k > 0 {
        RoundLines(op, s, dim, lr, k);
      } else {
        PassPrefixStart(op, s, dim, lr);
      }
    } else {
      PassPrefixLines(op, s, dim, lr, k, t - 1);
      PassPrefixStep(op, s, dim, lr, k, t);
    }
  }

  lemma {:induction false} RoundLines(op: PairOp, s: State, dim: int, lr: int, k: int)
    requires IsBoard(s.board) && 0 < k <= 3
    ensures PrefixCoupled(op, s, dim, lr, k, 0)
    decreases k, 0, 0
  {
    PassPrefixLines(op, s, dim, lr, k - 1, 4);
    PassPrefixRound(op, s, dim, lr, k);
  }

  /** The line passes of a whole pass. */
  function PassRuns(op: PairOp, g: Board, dim: int, lr: int): (rs: seq<Run>)
    requires IsBoard(g)
    ensures |rs| == 4 && forall i :: 0 <= i < 4 ==> |rs[i].cells| == 4
  {
    seq(4, i requires 0 <= i < 4 => LinePass(op, LineOf(g, dim, lr, i)))
  }

  /** pair_iterator runs one pass of the callback over each line. */
  lemma PassLines(op: PairOp, s: State, dim: int, lr: int)
    requires IsBoard(s.board)
    ensures Coupled(s, Pass(op, s, dim, lr), dim, lr, PassRuns(op, s.board, dim, lr))
  {
    PassPrefixLines(op, s, dim, lr, 3, 0);
    RunsAtEnd(op, s.board, dim, lr);
    CoupledTransport(s, PassPrefix(op, s, dim, lr, 3, 0), Pass(op, s, dim, lr), dim, lr,
                     RunsAt(op, s.board, dim, lr, 3, 0), PassRuns(op, s.board, dim, lr));
  }

  lemma RunsAtEnd(op: PairOp, g: Board, dim: int, lr: int)
    requires IsBoard(g)
    ensures RunsAt(op, g, dim, lr, 3, 0) == PassRuns(op, g, dim, lr)
  {
    forall i | 0 <= i < 4
      ensures RunsAt(op, g, dim, lr, 3, 0)[i] == PassRuns(op, g, dim, lr)[i]
    {
      assert Done(3, 0, i) == 3;
    }
  }

  // ---------------------------------------------------------------------
  // shift on every line

  /** One more pass on every line run. */
  function ThenAll(rs: seq<Run>, op: PairOp): (rs': seq<Run>)
    requires |rs| == 4 && forall i :: 0 <= i < 4 ==> |rs[i].cells| == 4
    ensures |rs'| == 4 && forall i :: 0 <= i < 4 ==> |rs'[i].cells| == 4
  {
    seq(4, i requires 0 <= i < 4 => Then(rs[i], op))
  }

  /** Runs ps after runs rs, counter by counter. */
  predicate Continues(rs: seq<Run>, ps: seq<Run>, qs: seq<Run>)
    requires |rs| == 4 && |ps| == 4 && |qs| == 4
  {
    forall i :: 0 <= i < 4 ==>
      qs[i] == Run(ps[i].cells, rs[i].moves + ps[i].moves, rs[i].gain + ps[i].gain,
                   rs[i].wins || ps[i].wins, rs[i].found || ps[i].found)
  }

  /** Coupling composes: s0 to s by rs, then s to s' by ps. */
  lemma CoupledCompose(s0: State, s: State, s': State, dim: int, lr: int, rs: seq<Run>, ps: seq<Run>, qs: seq<Run>)
    requires IsBoard(s.board) && IsBoard(s'.board) && |rs| == 4 && |ps| == 4 && |qs| == 4
    requires Continues(rs, ps, qs)
    requires Coupled(s0, s, dim, lr, rs) && Coupled(s, s', dim, lr, ps)
    ensures Coupled(s0, s', dim, lr, qs)
  {
  }

  /** One more pass on each run is that pass's run continuing it. */
  lemma ThenAllContinues(rs: seq<Run>, op: PairOp, ps: seq<Run>)
    requires |rs| == 4 && forall i :: 0 <= i < 4 ==> |rs[i].cells| == 4
    requires |ps| == 4 && forall i :: 0 <= i < 4 ==> ps[i] == LinePass(op, rs[i].cells)
    ensures Continues(rs, ps, ThenAll(rs, op))
  {
  }

  /** A pass after line runs rs continues each of them by one line pass. */
  lemma CoupledThen(s0: State, s: State, dim: int, lr: int, rs: seq<Run>, op: PairOp)
    requires IsBoard(s.board)
    requires |rs| == 4 && forall i :: 0 <= i < 4 ==> |rs[i].cells| == 4
    requires Coupled(s0, s, dim, lr, rs)
    ensures Coupled(s0, Pass(op, s, dim, lr), dim, lr, ThenAll(rs, op))
  {
    var ps := PassRuns(op, s.board, dim, lr);
    PassLines(op, s, dim, lr);
    PassRunsOfCoupled(s0, s, dim, lr, rs, op);
    ThenAllContinues(rs, op, ps);
    CoupledCompose(s0, s, Pass(op, s, dim, lr), dim, lr, rs, ps, ThenAll(rs, op));
  }

  lemma PassRunsOfCoupled(s0: State, s: State, dim: int, lr: int, rs: seq<Run>, op: PairOp)
    requires IsBoard(s.board)
    requires |rs| == 4 && forall i :: 0 <= i < 4 ==> |rs[i].cells| == 4
    requires Coupled(s0, s, dim, lr, rs)
    ensures forall i :: 0 <= i < 4 ==> PassRuns(op, s.board, dim, lr)[i] == LinePass(op, rs[i].cells)
  {
  }

  /** ShiftLine of every line of a pass. */
  function ShiftRuns(g: Board, dim: int, lr: int): (rs: seq<Run>)
    requires IsBoard(g)
    ensures |rs| == 4
  {
    seq(4, t requires 0 <= t < 4 => ShiftLine(LineOf(g, dim, lr, t)))
  }

  /** The four passes of shift, continued on the unstarted runs, are ShiftLine on every line. */
  lemma ShiftRunsChain(g: Board, dim: int, lr: int)
    requires IsBoard(g)
    ensures ThenAll(ThenAll(ThenAll(ThenAll(StartRuns(g, dim, lr), Swap), Swap), Sum), Swap) == ShiftRuns(g, dim, lr)
  {
    var rs := ThenAll(ThenAll(ThenAll(ThenAll(StartRuns(g, dim, lr), Swap), Swap), Sum), Swap);
    forall t | 0 <= t < 4
      ensures rs[t] == ShiftRuns(g, dim, lr)[t]
    {
      ShiftLinePasses(LineOf(g, dim, lr, t));
    }
  }

  /** shift(dim, lr) runs the four passes of ShiftLine on every line. */
  lemma ShiftLines(s: State, dim: int, lr: int)
    requires IsBoard(s.board)
    ensures Coupled(s, ShiftState(s, dim, lr), dim, lr, ShiftRuns(s.board, dim, lr))
  {
    var g := s.board;
    var rs0 := StartRuns(g, dim, lr);
    StartCoupled(s, dim, lr);
    var s1 := Pass(Swap, s, dim, lr);
    var rs1 := ThenAll(rs0, Swap);
    CoupledThen(s, s, dim, lr, rs0, Swap);
    var s2 := Pass(Swap, s1, dim, lr);
    var rs2 := ThenAll(rs1, Swap);
    CoupledThen(s, s1, dim, lr, rs1, Swap);
    var s3 := Pass(Sum, s2, dim, lr);
    var rs3 := ThenAll(rs2, Sum);
    CoupledThen(s, s2, dim, lr, rs2, Sum);
    CoupledThen(s, s3, dim, lr, rs3, Swap);
    ShiftRunsChain(g, dim, lr);
    CoupledTransport(s, Pass(Swap, s3, dim, lr), ShiftState(s, dim, lr), dim, lr,
                     ThenAll(rs3, Swap), ShiftRuns(g, dim, lr));
  }
}
