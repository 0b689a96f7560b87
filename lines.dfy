/**
 * One line of the board (a row or a column, read from the edge the tiles
 * move towards) and what a move does to it.
 *
 * A line is a sequence whose position 0 is the leading cell.  The pair
 * callbacks of mini2048.c act on positions k and k + 1; one pass of the
 * pair iterator over a line applies them at k = 0, 1, 2 in that order,
 * and a shift is four passes: swap, swap, sum, swap.  The second half of
 * the module is the reference semantics of a move (compact, merge once
 * from the leading edge, compact, pad) and the proof that the four passes
 * compute it.
 */
module Lines {

  /** The three callbacks that mini2048.c hands to pair_iterator. */
  datatype PairOp =
    | Swap   // tile_swap: slide the next tile into an empty leading cell
    | Sum    // tile_sum: merge two equal tiles into the leading cell
    | Probe  // sum_possible_impl: only record that a merge is possible

  /** Whether the callback acts on leading value x and next value y. */
  predicate Fires(op: PairOp, x: int, y: int)
  {
    match op
    case Swap => x == 0 && y != 0
    case Sum => x != 0 && x == y
    case Probe => x != 0 && x == y
  }

  /**
   * A line together with what the callbacks have counted while running on
   * it: moves (nmoves), gain (score), wins (a merge produced 2048) and
   * found (is_sum_possible).
   */
  datatype Run = Run(cells: seq<int>, moves: int, gain: int, wins: bool, found: bool)

  function Start(line: seq<int>): (r: Run)
    ensures r.cells == line && r.moves == 0 && r.gain == 0 && !r.wins && !r.found
  {
    Run(line, 0, 0, false, false)
  }

  /** One callback on positions k (leading) and k + 1 of the line. */
  function LineStep(op: PairOp, r: Run, k: nat): (r': Run)
    requires k + 1 < |r.cells|
    ensures |r'.cells| == |r.cells| && r.moves <= r'.moves <= r.moves + 1
    ensures r'.cells[k] + r'.cells[k + 1] == r.cells[k] + r.cells[k + 1]
    ensures forall i :: 0 <= i < |r.cells| && i != k && i != k + 1 ==> r'.cells[i] == r.cells[i]
    ensures op != Probe ==> r'.found == r.found
  {
    var x, y := r.cells[k], r.cells[k + 1];
    if !Fires(op, x, y) then r
    else match op
      case Swap => r.(cells := r.cells[k := y][k + 1 := 0], moves := r.moves + 1)
      case Sum =>
        r.(cells := r.cells[k := x + y][k + 1 := 0], moves := r.moves + 1,
           gain := r.gain + (x + y), wins := r.wins || x + y == 2048)
      case Probe => r.(found := true)
  }

  /** The first j callbacks of one pass over a line of four cells. */
  function LineRun(op: PairOp, line: seq<int>, j: nat): (r: Run)
    requires |line| == 4 && j <= 3
    ensures |r.cells| == 4 && 0 <= r.moves <= j
    ensures op != Probe ==> !r.found
  {
    if j == 0 then Start(line) else LineStep(op, LineRun(op, line, j - 1), j - 1)
  }

  /** A whole pass of one callback over a line. */
  function LinePass(op: PairOp, line: seq<int>): (r: Run)
    requires |line| == 4
    ensures |r.cells| == 4 && 0 <= r.moves <= 3
    ensures op != Probe ==> !r.found
  {
    LineRun(op, line, |line| - 1)
  }

  /** Runs one more pass on the cells of r and adds up what it counts. */
  function Then(r: Run, op: PairOp): (r': Run)
    requires |r.cells| == 4
    ensures |r'.cells| == 4 && r.moves <= r'.moves <= r.moves + 3
    ensures op != Probe ==> r'.found == r.found
  {
    var n := LinePass(op, r.cells);
    Run(n.cells, r.moves + n.moves, r.gain + n.gain, r.wins || n.wins, r.found || n.found)
  }

  /** The callback of pass n (counting from 1) of shift: swap, swap, sum, swap. */
  function StageOp(n: int): PairOp
  {
    if n == 3 then Sum else Swap
  }

  /** The first n passes of shift on a line. */
  function Stages(line: seq<int>, n: nat): (r: Run)
    requires |line| == 4 && n <= 4
    ensures |r.cells| == 4 && 0 <= r.moves <= 3 * n && !r.found
  {
    if n == 0 then Start(line) else Then(Stages(line, n - 1), StageOp(n))
  }

  /**
   * What shift does to one line: swap, swap, sum, swap.  Each pass counts
   * at most three moves and none of them probes.
   */
  function ShiftLine(line: seq<int>): (r: Run)
    requires |line| == 4
    ensures |r.cells| == 4 && 0 <= r.moves <= 12 && !r.found
  {
    Stages(line, |line|)
  }

  /** The four passes of shift written out. */
  lemma ShiftLinePasses(line: seq<int>)
    requires |line| == 4
    ensures ShiftLine(line) == Then(Then(Then(Then(Start(line), Swap), Swap), Sum), Swap)
  {
    assert Stages(line, 1) == Then(Start(line), Swap);
    assert Stages(line, 2) == Then(Stages(line, 1), Swap);
    assert Stages(line, 3) == Then(Stages(line, 2), Sum);
  }

  // ---------------------------------------------------------------------
  // Reference semantics of a move on one line

  /** The tiles of a line in order, without the empty cells. */
  function NonZeros(s: seq<int>): (r: seq<int>)
    ensures |r| <= |s|
    ensures forall i :: 0 <= i < |r| ==> r[i] != 0
  {
    if s == [] then [] else (if s[0] == 0 then [] else [s[0]]) + NonZeros(s[1..])
  }

  /**
   * Greedy merge from the leading edge: two equal neighbours become one
   * tile of their sum, and the new tile does not merge again.
   */
  function Merge(s: seq<int>): (r: seq<int>)
    ensures |r| <= |s|
    decreases |s|
  {
    if |s| >= 2 && s[0] == s[1] then [s[0] + s[1]] + Merge(s[2..])
    else if s == [] then []
    else [s[0]] + Merge(s[1..])
  }

  /** The sum of the tiles Merge creates. */
  function MergeGain(s: seq<int>): int
    decreases |s|
  {
    if |s| >= 2 && s[0] == s[1] then (s[0] + s[1]) + MergeGain(s[2..])
    else if s == [] then 0
    else MergeGain(s[1..])
  }

  /** Whether Merge creates a tile of 2048. */
  predicate MergeWins(s: seq<int>)
    decreases |s|
  {
    if |s| >= 2 && s[0] == s[1] then s[0] + s[1] == 2048 || MergeWins(s[2..])
    else if s == [] then false
    else MergeWins(s[1..])
  }

  /** s followed by empty cells up to length n. */
  function Pad(s: seq<int>, n: nat): (r: seq<int>)
    requires |s| <= n
    ensures |r| == n
  {
    s + seq(n - |s|, _ => 0)
  }

  /** The line as a move should leave it: compact, merge, compact, pad. */
  function RefLine(line: seq<int>): (r: seq<int>)
  {
    var tiles := NonZeros(line);
    Pad(NonZeros(Merge(tiles)), |line|)
  }

  // ---------------------------------------------------------------------
  // Closed forms of one pass on a line of four cells

  lemma PassSteps(op: PairOp, line: seq<int>)
    requires |line| == 4
    ensures LinePass(op, line) == LineStep(op, LineStep(op, LineStep(op, Start(line), 0), 1), 2)
  {
    assert LineRun(op, line, 1) == LineStep(op, Start(line), 0);
    assert LineRun(op, line, 2) == LineStep(op, LineRun(op, line, 1), 1);
  }

  /** tile_swap on two values. */
  function SwapAt(x: int, y: int): (int, int)
  {
    if x == 0 && y != 0 then (y, 0) else (x, y)
  }

  /** tile_sum on two values. */
  function SumAt(x: int, y: int): (int, int)
  {
    if x != 0 && x == y then (x + y, 0) else (x, y)
  }

  lemma SwapPass4(a: int, b: int, c: int, d: int)
    ensures var (a1, b1) := SwapAt(a, b); var (b2, c1) := SwapAt(b1, c); var (c2, d1) := SwapAt(c1, d);
      LinePass(Swap, [a, b, c, d]).cells == [a1, b2, c2, d1]
  {
    PassSteps(Swap, [a, b, c, d]);
    var (a1, b1) := SwapAt(a, b); var (b2, c1) := SwapAt(b1, c); var (c2, d1) := SwapAt(c1, d);
    var r0 := LineStep(Swap, Start([a, b, c, d]), 0);
    assert r0.cells == [a1, b1, c, d];
    var r1 := LineStep(Swap, r0, 1);
    assert r1.cells == [a1, b2, c1, d];
    var r2 := LineStep(Swap, r1, 2);
    assert r2.cells == [a1, b2, c2, d1];
  }

  lemma SumPass4(a: int, b: int, c: int, d: int)
    ensures var (a1, b1) := SumAt(a, b); var (b2, c1) := SumAt(b1, c); var (c2, d1) := SumAt(c1, d);
      var r := LinePass(Sum, [a, b, c, d]);
      r.cells == [a1, b2, c2, d1] &&
      r.gain == (if a != 0 && a == b then a1 else 0) + (if b1 != 0 && b1 == c then b2 else 0)
                + (if c1 != 0 && c1 == d then c2 else 0) &&
      r.wins == ((a != 0 && a == b && a1 == 2048) || (b1 != 0 && b1 == c && b2 == 2048)
                 || (c1 != 0 && c1 == d && c2 == 2048))
  {
    PassSteps(Sum, [a, b, c, d]);
    var (a1, b1) := SumAt(a, b); var (b2, c1) := SumAt(b1, c); var (c2, d1) := SumAt(c1, d);
    var r0 := LineStep(Sum, Start([a, b, c, d]), 0);
    assert r0.cells == [a1, b1, c, d];
    var r1 := LineStep(Sum, r0, 1);
    assert r1.cells == [a1, b2, c1, d];
    var r2 := LineStep(Sum, r1, 2);
    assert r2.cells == [a1, b2, c2, d1];
  }

  lemma NonZeros4(a: int, b: int, c: int, d: int)
    ensures NonZeros([a, b, c, d]) == (if a == 0 then [] else [a]) + (if b == 0 then [] else [b])
                                      + (if c == 0 then [] else [c]) + (if d == 0 then [] else [d])
  {
    assert [a, b, c, d][1..] == [b, c, d];
    assert [b, c, d][1..] == [c, d];
    assert [c, d][1..] == [d];
    assert [d][1..] == [];
    assert NonZeros([d]) == (if d == 0 then [] else [d]);
    assert NonZeros([c, d]) == (if c == 0 then [] else [c]) + NonZeros([d]);
    assert NonZeros([b, c, d]) == (if b == 0 then [] else [b]) + NonZeros([c, d]);
  }

  /**
   * The first two swap passes compact a line that holds two tiles or more;
   * a line with at most one tile has it in one of the two leading cells.
   */
  lemma TwoSwaps(a: int, b: int, c: int, d: int)
    ensures var C := LinePass(Swap, LinePass(Swap, [a, b, c, d]).cells).cells;
      var t := NonZeros([a, b, c, d]);
      (|t| >= 2 ==> C == Pad(t, 4)) && (|t| <= 1 ==> C[2] == 0 && C[3] == 0 && NonZeros(C) == t)
  {
    NonZeros4(a, b, c, d);
    SwapPass4(a, b, c, d);
    var B := LinePass(Swap, [a, b, c, d]).cells;
    SwapPass4(B[0], B[1], B[2], B[3]);
    assert B == [B[0], B[1], B[2], B[3]];
    var C := LinePass(Swap, B).cells;
    NonZeros4(C[0], C[1], C[2], C[3]);
    assert C == [C[0], C[1], C[2], C[3]];
    if a == 0 {
      if b == 0 {
        if c == 0 {
          if d == 0 {} else {}
        } else {
          if d == 0 {} else {}
        }
      } else {
        if c == 0 {
          if d == 0 {} else {}
        } else {
          if d == 0 {} else {}
        }
      }
    } else {
      if b == 0 {
        if c == 0 {
          if d == 0 {} else {}
        } else {
          if d == 0 {} else {}
        }
      } else {
        if c == 0 {
          if d == 0 {} else {}
        } else {
          if d == 0 {} else {}
        }
      }
    }
  }

  lemma MergeTwo(ys: seq<int>)
    requires |ys| == 2
    ensures Merge(ys) == (if ys[0] == ys[1] then [ys[0] + ys[1]] else ys)
    ensures MergeGain(ys) == (if ys[0] == ys[1] then ys[0] + ys[1] else 0)
    ensures MergeWins(ys) == (ys[0] == ys[1] && ys[0] + ys[1] == 2048)
  {
    assert ys[1..][1..] == [];
    assert ys[2..] == [];
    assert MergeGain(ys[1..]) == MergeGain([]) == 0;
    assert !MergeWins(ys[1..]);
  }

  lemma MergeThree(ys: seq<int>)
    requires |ys| == 3
    ensures Merge(ys) == (if ys[0] == ys[1] then [ys[0] + ys[1], ys[2]] else [ys[0]] + Merge(ys[1..]))
    ensures MergeGain(ys) == (if ys[0] == ys[1] then ys[0] + ys[1] else MergeGain(ys[1..]))
    ensures MergeWins(ys) == (if ys[0] == ys[1] then ys[0] + ys[1] == 2048 else MergeWins(ys[1..]))
  {
    assert ys[2..][1..] == [];
    assert MergeGain(ys[2..]) == MergeGain([]) == 0;
    assert !MergeWins(ys[2..]);
  }

  /**
   * On a compacted line of two, three or four tiles the sum pass merges
   * greedily from the leading edge and the last swap pass closes the gaps
   * it leaves.
   */
  lemma SumThenSwap4(a: int, b: int, c: int, d: int)
    requires a != 0 && b != 0 && c != 0 && d != 0
    ensures var xs := [a, b, c, d]; var S := LinePass(Sum, xs);
      LinePass(Swap, S.cells).cells == Pad(Merge(xs), 4) &&
      S.gain == MergeGain(xs) && S.wins == MergeWins(xs)
  {
    var xs := [a, b, c, d];
    SumPass4(a, b, c, d);
    var S := LinePass(Sum, xs).cells;
    assert S == [S[0], S[1], S[2], S[3]];
    SwapPass4(S[0], S[1], S[2], S[3]);
    assert xs[1..] == [b, c, d];
    assert xs[2..] == [c, d];
    MergeTwo(xs[2..]);
    MergeThree(xs[1..]);
    if a == b {
      if c == d {
        assert Merge(xs) == [a + b, c + d];
      } else {
        assert Merge(xs) == [a + b, c, d];
      }
    } else if b == c {
      assert Merge(xs) == [a, b + c, d];
    } else if c == d {
      assert Merge(xs) == [a, b, c + d];
    } else {
      assert Merge(xs) == xs;
    }
  }

  lemma SumThenSwap3(a: int, b: int, c: int)
    requires a != 0 && b != 0 && c != 0
    ensures var xs := [a, b, c]; var S := LinePass(Sum, [a, b, c, 0]);
      LinePass(Swap, S.cells).cells == Pad(Merge(xs), 4) &&
      S.gain == MergeGain(xs) && S.wins == MergeWins(xs)
  {
    var xs := [a, b, c];
    SumPass4(a, b, c, 0);
    var S := LinePass(Sum, [a, b, c, 0]).cells;
    assert S == [S[0], S[1], S[2], S[3]];
    SwapPass4(S[0], S[1], S[2], S[3]);
    assert xs[1..] == [b, c];
    MergeTwo(xs[1..]);
    MergeThree(xs);
  }

  lemma SumThenSwap2(a: int, b: int)
    requires a != 0 && b != 0
    ensures var xs := [a, b]; var S := LinePass(Sum, [a, b, 0, 0]);
      LinePass(Swap, S.cells).cells == Pad(Merge(xs), 4) &&
      S.gain == MergeGain(xs) && S.wins == MergeWins(xs)
  {
    SumPass4(a, b, 0, 0);
    var S := LinePass(Sum, [a, b, 0, 0]).cells;
    assert S == [S[0], S[1], S[2], S[3]];
    SwapPass4(S[0], S[1], S[2], S[3]);
    MergeTwo([a, b]);
  }

  /**
   * With at most one tile the sum pass finds nothing to merge and the last
   * swap pass moves the tile to the leading cell.
   */
  lemma SumThenSwapSingle(C: seq<int>)
    requires |C| == 4 && C[2] == 0 && C[3] == 0 && |NonZeros(C)| <= 1
    ensures var S := LinePass(Sum, C);
      LinePass(Swap, S.cells).cells == Pad(NonZeros(C), 4) && S.gain == 0 && !S.wins
  {
    assert C == [C[0], C[1], 0, 0];
    NonZeros4(C[0], C[1], 0, 0);
    SumPass4(C[0], C[1], 0, 0);
    var S := LinePass(Sum, C).cells;
    assert S == [S[0], S[1], S[2], S[3]];
    SwapPass4(S[0], S[1], S[2], S[3]);
  }

  /** Swap passes neither score nor win. */
  lemma SwapPassCountsOnlyMoves(line: seq<int>)
    requires |line| == 4
    ensures var r := LinePass(Swap, line); r.gain == 0 && !r.wins && !r.found
  {
    PassSteps(Swap, line);
  }

  lemma {:induction false} NonZerosOfTiles(s: seq<int>)
    requires forall i :: 0 <= i < |s| ==> s[i] != 0
    ensures NonZeros(s) == s
  {
    if s != [] {
      NonZerosOfTiles(s[1..]);
    }
  }

  /** Merging tiles yields tiles: the sum of two equal non-zero values is non-zero. */
  lemma {:induction false} MergeOfTiles(s: seq<int>)
    requires forall i :: 0 <= i < |s| ==> s[i] != 0
    ensures forall i :: 0 <= i < |Merge(s)| ==> Merge(s)[i] != 0
    decreases |s|
  {
    if |s| >= 2 && s[0] == s[1] {
      MergeOfTiles(s[2..]);
    } else if s != [] {
      MergeOfTiles(s[1..]);
    }
  }

  lemma CompactLine(line: seq<int>)
    requires |line| == 4
    ensures var C := LinePass(Swap, LinePass(Swap, line).cells).cells;
      var t := NonZeros(line);
      (|t| >= 2 ==> C == Pad(t, 4)) && (|t| <= 1 ==> C[2] == 0 && C[3] == 0 && NonZeros(C) == t)
  {
    assert line == [line[0], line[1], line[2], line[3]];
    TwoSwaps(line[0], line[1], line[2], line[3]);
  }

  /** The last two passes of shift, on a line the first two have compacted. */
  lemma MergePhase(C: seq<int>, t: seq<int>)
    requires |C| == 4 && |t| <= 4 && forall i :: 0 <= i < |t| ==> t[i] != 0
    requires |t| >= 2 ==> C == Pad(t, 4)
    requires |t| <= 1 ==> C[2] == 0 && C[3] == 0 && NonZeros(C) == t
    ensures var S := LinePass(Sum, C);
      LinePass(Swap, S.cells).cells == Pad(Merge(t), 4) &&
      S.gain == MergeGain(t) && S.wins == MergeWins(t)
  {
    if |t| <= 1 {
      SumThenSwapSingle(C);
    } else if |t| == 2 {
      assert t == [t[0], t[1]] && C == [t[0], t[1], 0, 0];
      SumThenSwap2(t[0], t[1]);
    } else if |t| == 3 {
      assert t == [t[0], t[1], t[2]] && C == [t[0], t[1], t[2], 0];
      SumThenSwap3(t[0], t[1], t[2]);
    } else {
      assert t == [t[0], t[1], t[2], t[3]] && C == t;
      SumThenSwap4(t[0], t[1], t[2], t[3]);
    }
  }

  /**
   * The four passes of shift on one line compute the reference move, score
   * exactly the tiles the merges create, and win exactly when one of them is
   * 2048.
   */
  lemma ShiftLineIsReference(line: seq<int>)
    requires |line| == 4
    ensures ShiftLine(line).cells == RefLine(line)
    ensures ShiftLine(line).gain == MergeGain(NonZeros(line))
    ensures ShiftLine(line).wins == MergeWins(NonZeros(line))
  {
    var t := NonZeros(line);
    var C := LinePass(Swap, LinePass(Swap, line).cells).cells;
    CompactLine(line);
    MergePhase(C, t);
    ShiftLineStages(line);
    MergeOfTiles(t);
    NonZerosOfTiles(Merge(t));
  }

  /** Four equal tiles become two merged tiles, not one: 2 2 2 2 gives 4 4 0 0. */
  lemma FourEqual(v: int)
    requires v != 0
    ensures ShiftLine([v, v, v, v]).cells == [v + v, v + v, 0, 0]
    ensures ShiftLine([v, v, v, v]).gain == 4 * v
  {
    var line := [v, v, v, v];
    ShiftLineIsReference(line);
    NonZeros4(v, v, v, v);
    assert NonZeros(line) == [v] + [v] + [v] + [v] == line;
    assert Merge(line) == [v + v, v + v] by {
      assert line[2..] == [v, v];
      assert [v, v][2..] == [];
    }
    assert MergeGain(line) == 4 * v by {
      assert line[2..] == [v, v];
      assert [v, v][2..] == [];
      assert MergeGain([v, v]) == v + v + MergeGain([]);
    }
    assert NonZeros([v + v, v + v]) == [v + v, v + v] by {
      assert [v + v, v + v][1..] == [v + v];
      assert [v + v][1..] == [];
    }
    assert Pad([v + v, v + v], 4) == [v + v, v + v, 0, 0];
  }

  /** A merged tile does not merge again in the same move: 0 4 2 2 gives 4 4 0 0. */
  lemma MergedOnce(v: int)
    requires v != 0
    ensures ShiftLine([0, v + v, v, v]).cells == [v + v, v + v, 0, 0]
    ensures ShiftLine([0, v + v, v, v]).gain == v + v
  {
    var line := [0, v + v, v, v];
    ShiftLineIsReference(line);
    NonZeros4(0, v + v, v, v);
    var t := [v + v, v, v];
    assert NonZeros(line) == t;
    assert Merge(t) == [v + v, v + v] && MergeGain(t) == v + v by {
      assert t[1..] == [v, v];
      assert [v, v][2..] == [];
      assert MergeGain(t) == MergeGain([v, v]);
      assert MergeGain([v, v]) == v + v + MergeGain([]);
    }
    assert NonZeros([v + v, v + v]) == [v + v, v + v] by {
      assert [v + v, v + v][1..] == [v + v];
      assert [v + v][1..] == [];
    }
    assert Pad([v + v, v + v], 4) == [v + v, v + v, 0, 0];
  }

  /** Only the sum pass of shift scores or wins. */
  lemma ShiftLineStages(line: seq<int>)
    requires |line| == 4
    ensures var C := LinePass(Swap, LinePass(Swap, line).cells).cells;
      var S := LinePass(Sum, C); var r := ShiftLine(line);
      r.cells == LinePass(Swap, S.cells).cells && r.gain == S.gain && r.wins == S.wins
  {
    var B := LinePass(Swap, line).cells;
    var C := LinePass(Swap, B).cells;
    var S := LinePass(Sum, C);
    ShiftLinePasses(line);
    SwapPassCountsOnlyMoves(line);
    SwapPassCountsOnlyMoves(B);
    SwapPassCountsOnlyMoves(S.cells);
  }

  // ---------------------------------------------------------------------
  // The move counter

  /**
   * Sum of the positions of the tiles of a line.  Every swap moves a tile
   * one position towards the leading edge and every merge removes the tile
   * at position k + 1, so each counted move lowers this weight.
   */
  function Weight(line: seq<int>): nat
    requires |line| == 4
  {
    (if line[1] != 0 then 1 else 0) + (if line[2] != 0 then 2 else 0) + (if line[3] != 0 then 3 else 0)
  }

  /** What one swap or sum callback does to the counter. */
  lemma StepMoves(op: PairOp, r: Run, k: nat)
    requires |r.cells| == 4 && k <= 2 && op != Probe
    ensures var r' := LineStep(op, r, k);
      (r'.moves == r.moves && r'.cells == r.cells) ||
      (r'.moves == r.moves + 1 && Weight(r'.cells) < Weight(r.cells) && 0 in r'.cells)
  {
    var r' := LineStep(op, r, k);
    if Fires(op, r.cells[k], r.cells[k + 1]) {
      assert r'.cells[k + 1] == 0;
    }
  }

  lemma {:induction false} RunMoves(op: PairOp, line: seq<int>, j: nat)
    requires |line| == 4 && j <= 3 && op != Probe
    ensures var r := LineRun(op, line, j);
      0 <= r.moves && Weight(r.cells) + r.moves <= Weight(line) &&
      (r.moves == 0 ==> r.cells == line) && (r.moves > 0 ==> 0 in r.cells)
  {
    if j > 0 {
      RunMoves(op, line, j - 1);
      StepMoves(op, LineRun(op, line, j - 1), j - 1);
    }
  }

  /** Moves counted so far stay within the weight lost, and leave an empty cell. */
  ghost predicate MovesAccounted(start: seq<int>, r: Run)
    requires |start| == 4 && |r.cells| == 4
  {
    0 <= r.moves && Weight(r.cells) + r.moves <= Weight(start) &&
    (r.moves == 0 ==> r.cells == start) && (r.moves > 0 ==> 0 in r.cells)
  }

  lemma ThenMoves(start: seq<int>, r: Run, op: PairOp)
    requires |start| == 4 && |r.cells| == 4 && op != Probe
    requires MovesAccounted(start, r)
    ensures MovesAccounted(start, Then(r, op))
  {
    RunMoves(op, r.cells, 3);
  }

  /**
   * shift counts no move exactly when it leaves the line as it was, and
   * a line on which it counted a move has an empty cell afterwards.
   */
  lemma ShiftLineMoves(line: seq<int>)
    requires |line| == 4
    ensures ShiftLine(line).moves >= 0
    ensures ShiftLine(line).moves == 0 <==> ShiftLine(line).cells == line
    ensures ShiftLine(line).moves > 0 ==> 0 in ShiftLine(line).cells
  {
    ShiftLinePasses(line);
    var r0 := Start(line);
    var r1 := Then(r0, Swap);
    var r2 := Then(r1, Swap);
    var r3 := Then(r2, Sum);
    ThenMoves(line, r0, Swap);
    ThenMoves(line, r1, Swap);
    ThenMoves(line, r2, Sum);
    ThenMoves(line, r3, Swap);
  }

  // ---------------------------------------------------------------------
  // The probe pass of sum_possible

  /** Some two neighbours of the line are equal tiles. */
  ghost predicate HasEqualNeighbours(line: seq<int>)
  {
    exists k :: 0 <= k < |line| - 1 && line[k] != 0 && line[k] == line[k + 1]
  }

  /** The probe pass changes nothing and finds exactly the equal neighbours. */
  lemma ProbePass(line: seq<int>)
    requires |line| == 4
    ensures LinePass(Probe, line).cells == line
    ensures LinePass(Probe, line).moves == 0 && LinePass(Probe, line).gain == 0
    ensures !LinePass(Probe, line).wins
    ensures LinePass(Probe, line).found <==> HasEqualNeighbours(line)
  {
    PassSteps(Probe, line);
    if HasEqualNeighbours(line) {
      var k :| 0 <= k < 3 && line[k] != 0 && line[k] == line[k + 1];
      assert k == 0 || k == 1 || k == 2;
    }
  }

  // ---------------------------------------------------------------------
  // A full line without equal neighbours

  lemma {:induction false} MergeWithoutPairs(s: seq<int>)
    requires forall k :: 0 <= k < |s| - 1 ==> s[k] != s[k + 1]
    ensures Merge(s) == s && MergeGain(s) == 0 && !MergeWins(s)
  {
    if s != [] {
      MergeWithoutPairs(s[1..]);
    }
  }

  /** A move leaves a full line without equal neighbours as it is. */
  lemma StuckLine(line: seq<int>)
    requires |line| == 4 && 0 !in line && !HasEqualNeighbours(line)
    ensures ShiftLine(line).cells == line
    ensures ShiftLine(line).moves == 0 && ShiftLine(line).gain == 0 && !ShiftLine(line).wins
  {
    assert forall i :: 0 <= i < |line| ==> line[i] != 0;
    NonZerosOfTiles(line);
    MergeWithoutPairs(line);
    ShiftLineIsReference(line);
    ShiftLineMoves(line);
  }

  /** Only the probe callback records a possible merge. */
  lemma ShiftLineFindsNothing(line: seq<int>)
    requires |line| == 4
    ensures !ShiftLine(line).found
  {
    ShiftLinePasses(line);
    var r1 := Then(Start(line), Swap);
    var r2 := Then(r1, Swap);
    var r3 := Then(r2, Sum);
    PassSteps(Swap, line);
    PassSteps(Swap, r1.cells);
    PassSteps(Sum, r2.cells);
    PassSteps(Swap, r3.cells);
  }
}
