/**
 * uniform_random of mini2048.c, with the C library's rand() replaced by a
 * sequence of draws: the values rand() would return, in order.
 *
 * The rejection loop throws away every draw at or above the largest
 * multiple of ub that is at most RAND_MAX, so that each residue modulo ub
 * is hit by the same number of accepted draws.
 */
module Draws {

  /** RAND_MAX of the GNU C library. */
  const RAND_MAX: int := 0x7fff_ffff

  /** lim of uniform_random: draws below it are accepted. */
  function Limit(ub: int): (lim: int)
    requires 0 < ub <= RAND_MAX
    ensures 0 < lim <= RAND_MAX && lim % ub == 0 && RAND_MAX - lim < ub
  {
    LimitMultiple(ub);
    RAND_MAX - RAND_MAX % ub
  }

  /** A positive multiple of ub is at least ub. */
  lemma {:induction false} MulAtLeast(ub: int, d: int)
    requires 0 < ub && 1 <= d
    ensures ub * d >= ub
    decreases d
  {
    if d > 1 {
      MulAtLeast(ub, d - 1);
      assert ub * d == ub * (d - 1) + ub;
    }
  }

  /** Euclidean division by ub is unique. */
  lemma DivUnique(ub: int, n: int, q: int, j: int)
    requires 0 < ub && 0 <= j < ub && n == ub * q + j
    ensures n / ub == q && n % ub == j
  {
    var d := n / ub - q;
    assert ub * d == j - n % ub by {
      assert n == ub * (n / ub) + n % ub;
      assert ub * (n / ub) - ub * q == ub * d;
    }
    if d >= 1 {
      MulAtLeast(ub, d);
    } else if d <= -1 {
      MulAtLeast(ub, -d);
    }
  }

  lemma LimitMultiple(ub: int)
    requires 0 < ub <= RAND_MAX
    ensures 0 <= RAND_MAX % ub < ub && (RAND_MAX - RAND_MAX % ub) % ub == 0
    ensures RAND_MAX - RAND_MAX % ub >= ub
  {
    var q := RAND_MAX / ub;
    assert RAND_MAX == ub * q + RAND_MAX % ub;
    DivUnique(ub, ub * q, q, 0);
    MulAtLeast(ub, q);
  }

  /** Values rand() can return. */
  predicate AreDraws(draws: seq<int>)
  {
    forall i :: 0 <= i < |draws| ==> 0 <= draws[i] <= RAND_MAX
  }

  /** The draw sequence holds a draw that the rejection loop accepts. */
  ghost predicate Accepts(ub: int, draws: seq<int>)
    requires 0 < ub <= RAND_MAX
  {
    exists i :: 0 <= i < |draws| && draws[i] < Limit(ub)
  }

  /**
   * uniform_random(ub): draw until a draw falls below Limit(ub), and
   * return that draw modulo ub.  used is the number of draws taken.
   */
  method UniformRandom(ub: int, draws: seq<int>) returns (r: int, used: int)
    requires 0 < ub <= RAND_MAX && AreDraws(draws) && Accepts(ub, draws)
    ensures 0 < used <= |draws|
    ensures forall i :: 0 <= i < used - 1 ==> draws[i] >= Limit(ub)
    ensures draws[used - 1] < Limit(ub) && r == draws[used - 1] % ub
    ensures 0 <= r < ub
  {
    var lim := RAND_MAX - RAND_MAX % ub;
    ghost var w :| 0 <= w < |draws| && draws[w] < lim;
    r := draws[0];
    used := 1;
    while r >= lim
      invariant 0 < used <= w + 1 && r == draws[used - 1]
      invariant forall i :: 0 <= i < used - 1 ==> draws[i] >= lim
      decreases w + 1 - used
    {
      r := draws[used];
      used := used + 1;
    }
    r := r % ub;
  }

  /** The number of values x in [0, n) with x % ub == v. */
  function Hits(v: int, ub: int, n: nat): nat
    requires 0 < ub
  {
    if n == 0 then 0 else Hits(v, ub, n - 1) + (if (n - 1) % ub == v then 1 else 0)
  }

  lemma BlockResidue(ub: int, q: nat, j: int)
    requires 0 < ub && 0 <= j < ub
    ensures (q * ub + j) % ub == j
  {
    assert q * ub + j == ub * q + j;
    DivUnique(ub, q * ub + j, q, j);
  }

  /** Hits over q whole blocks of ub values and j more values. */
  lemma {:induction false} HitsBlocks(v: int, ub: int, q: nat, j: int)
    requires 0 <= v < ub && 0 <= j <= ub
    ensures Hits(v, ub, q * ub + j) == q + (if v < j then 1 else 0)
    decreases q, j
  {
    if j == 0 {
      if q > 0 {
        HitsBlocks(v, ub, q - 1, ub);
        assert (q - 1) * ub + ub == q * ub;
      }
    } else {
      HitsBlocks(v, ub, q, j - 1);
      BlockResidue(ub, q, j - 1);
      assert q * ub + j - 1 == q * ub + (j - 1);
    }
  }

  /**
   * Every result in [0, ub) is produced by the same number of accepted
   * draws, Limit(ub) / ub: the accepted draw determines a uniformly
   * distributed result when the draws are uniform.
   */
  lemma Uniform(ub: int, v: int)
    requires 0 < ub <= RAND_MAX && 0 <= v < ub
    ensures Hits(v, ub, Limit(ub)) == Limit(ub) / ub
  {
    var q := (RAND_MAX - RAND_MAX % ub) / ub;
    LimitMultiple(ub);
    assert Limit(ub) == ub * q + Limit(ub) % ub;
    assert Limit(ub) == q * ub + 0;
    HitsBlocks(v, ub, q, 0);
  }
}
