/**
 * The number of wavelet scales: `int(np.round(np.log2(n_samples)))`, stated
 * over the integers. For n >= 1, round(log2 n) = k exactly when
 * 2^(2k-1) < n^2 < 2^(2k+1); the bounds are never met with equality, because
 * an odd power of two is not a perfect square, so rounding never meets a tie.
 */
module Scales {

  function Pow2(k: nat): (r: nat)
    ensures r >= 1
  {
    if k == 0 then 1 else 2 * Pow2(k - 1)
  }

  lemma {:induction false} Pow2Add(a: nat, b: nat)
    ensures Pow2(a + b) == Pow2(a) * Pow2(b)
  {
    if a > 0 {
      Pow2Add(a - 1, b);
      assert Pow2(a + b) == 2 * Pow2(a - 1 + b);
    }
  }

  lemma {:induction false} Pow2Monotone(a: nat, b: nat)
    requires a <= b
    ensures Pow2(a) <= Pow2(b)
  {
    if a < b {
      Pow2Monotone(a, b - 1);
    }
  }

  /** floor(log2 n). */
  function FloorLog2(n: nat): (k: nat)
    requires n >= 1
    ensures Pow2(k) <= n < Pow2(k + 1)
  {
    if n == 1 then 0 else 1 + FloorLog2(n / 2)
  }

  lemma SquareOfEven(m: nat)
    ensures (2 * m) * (2 * m) == 4 * (m * m)
  {
  }

  lemma SquareOfOdd(m: nat)
    ensures (2 * m + 1) * (2 * m + 1) == 4 * (m * m) + 4 * m + 1
  {
  }

  /** `2 * 4^k` is never the square of an integer. */
  lemma {:induction false} OddPowerNotSquare(n: nat, k: nat)
    ensures n * n != 2 * Pow2(2 * k)
  {
    var p := Pow2(2 * k);
    var m := n / 2;
    if n % 2 == 1 {
      SquareOfOdd(m);
      assert n == 2 * m + 1;
      var q := m * m;
      assert n * n == 4 * q + 4 * m + 1;
    } else {
      SquareOfEven(m);
      assert n == 2 * m;
      var q := m * m;
      assert n * n == 4 * q;
      if k > 0 {
        assert p == 2 * Pow2(2 * k - 1);
        assert Pow2(2 * k - 1) == 2 * Pow2(2 * (k - 1));
        OddPowerNotSquare(m, k - 1);
        assert q != 2 * Pow2(2 * (k - 1));
      }
    }
  }

  /** `n <= m` implies `n * n <= m * m`. */
  lemma SquareMonotone(n: nat, m: nat)
    requires n <= m
    ensures n * n <= m * m
  {
    assert n * n <= n * m <= m * m;
  }

  /** With f = floor(log2 n): 4^f <= n^2 < 4^(f+1), and n^2 is not 2 * 4^f. */
  lemma SquareBetweenPowers(n: nat)
    requires n >= 1
    ensures Pow2(2 * FloorLog2(n)) <= n * n < 4 * Pow2(2 * FloorLog2(n))
    ensures n * n != 2 * Pow2(2 * FloorLog2(n))
  {
    var f := FloorLog2(n);
    var lo, hi := Pow2(f), Pow2(f + 1);
    assert lo <= n && n + 1 <= hi;
    Pow2Add(f, f);
    assert Pow2(2 * f) == lo * lo;
    Pow2Add(f + 1, f + 1);
    assert Pow2(2 * f + 2) == hi * hi;
    assert Pow2(2 * f + 2) == 4 * Pow2(2 * f);
    SquareMonotone(lo, n);
    SquareMonotone(n + 1, hi);
    SquareMonotone(n, n + 1);
    assert n * n < (n + 1) * (n + 1) by {
      assert (n + 1) * (n + 1) == n * n + 2 * n + 1;
    }
    OddPowerNotSquare(n, f);
  }

  /**
   * The number of wavelet scales for a series of `n` samples, round(log2 n),
   * characterised by 2^(2k-1) < n^2 < 2^(2k+1) (both sides doubled: there is
   * no 2^-1 over the integers). It is floor(log2 n) or one more.
   */
  function MaxScale(n: nat): (k: nat)
    requires n >= 1
    ensures Pow2(2 * k) < 2 * (n * n) && n * n < 2 * Pow2(2 * k)
    ensures FloorLog2(n) <= k <= FloorLog2(n) + 1
  {
    var f := FloorLog2(n);
    SquareBetweenPowers(n);
    assert Pow2(2 * (f + 1)) == 4 * Pow2(2 * f);
    if n * n < 2 * Pow2(2 * f) then f else f + 1
  }

  /** The characterisation of round(log2 n) admits exactly one k. */
  lemma {:induction false} MaxScaleUnique(n: nat, k: nat)
    requires n >= 1
    requires Pow2(2 * k) < 2 * (n * n) && n * n < 2 * Pow2(2 * k)
    ensures k == MaxScale(n)
  {
    var m := MaxScale(n);
    Pow2Add(2, 2 * k);
    Pow2Add(2, 2 * m);
    assert Pow2(2) == 4;
    if k < m {
      Pow2Monotone(2 + 2 * k, 2 * m);
      assert false;
    } else if m < k {
      Pow2Monotone(2 + 2 * m, 2 * k);
      assert false;
    }
  }

  /** Rounding differs from floor: three samples give two scales, floor(log2 3) is one. */
  lemma MaxScaleExceedsFloor()
    ensures MaxScale(3) == 2 && FloorLog2(3) == 1
  {
    assert Pow2(4) == 16;
    MaxScaleUnique(3, 2);
  }
}
