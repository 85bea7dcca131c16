/**
 * Facts about Euclidean division and remainder by a positive divisor that
 * the cursor arithmetic of the ring readers and the segment scheduler rely on.
 * The divisors here are run-time lengths (a file's sample count), so the
 * solver's linear arithmetic does not see them on its own.
 */
module ModArith {

  /** Division and remainder are determined by any decomposition a == q * d + r with 0 <= r < d. */
  lemma DivModUnique(a: int, d: int, q: int, r: int)
    requires d > 0 && 0 <= r < d && a == q * d + r
    ensures a / d == q && a % d == r
  {
    var q0, r0 := a / d, a % d;
    assert a == q0 * d + r0;
    assert (q0 - q) * d == r - r0;
    if q0 - q >= 1 {
      MulAtLeast(q0 - q, d);
    } else if q0 - q <= -1 {
      MulAtLeast(q - q0, d);
    }
  }

  /** One more multiple of d. */
  lemma MulSucc(r: int, d: int)
    ensures (r + 1) * d == r * d + d
  {
  }

  /** A natural factor of a positive product is positive. */
  lemma PositiveFactor(r: nat, d: int)
    requires r * d > 0
    ensures r >= 1
  {
  }

  /** A multiple of a positive d by a positive factor is at least d. */
  lemma MulAtLeast(x: int, d: int)
    requires x >= 1 && d > 0
    ensures x * d >= d
  {
    assert x * d == (x - 1) * d + d;
  }

  /** A value already in [0, d) is its own remainder. */
  lemma ModSmall(a: int, d: int)
    requires 0 <= a < d
    ensures a % d == a && a / d == 0
  {
    DivModUnique(a, d, 0, a);
  }

  /** A value in [d, 2d) wraps exactly once. */
  lemma ModWrapOnce(a: int, d: int)
    requires d > 0 && d <= a < 2 * d
    ensures a % d == a - d
  {
    DivModUnique(a, d, 1, a - d);
  }

  /** Reducing an addend first does not change the remainder of a sum. */
  lemma ModAddMod(a: int, b: int, d: int)
    requires d > 0
    ensures (a % d + b) % d == (a + b) % d
  {
    var q1, r1 := a / d, a % d;
    var q2, r2 := (r1 + b) / d, (r1 + b) % d;
    assert a + b == (q1 + q2) * d + r2 by {
      assert a == q1 * d + r1;
      assert r1 + b == q2 * d + r2;
      assert (q1 + q2) * d == q1 * d + q2 * d;
    }
    DivModUnique(a + b, d, q1 + q2, r2);
  }

  /** Moving a position by `a` and wrapping, then by `b` and wrapping, is moving it by `a + b` and wrapping. */
  lemma ModShift(p: int, a: int, b: int, d: int)
    requires d > 0
    ensures ((p + a) % d + b) % d == (p + (a + b)) % d
  {
    ModAddMod(p + a, b, d);
    assert p + a + b == p + (a + b);
  }

  /** Adding a multiple of d does not change the remainder. */
  lemma ModAddMultiple(a: int, k: int, d: int)
    requires d > 0
    ensures (a + k * d) % d == a % d
  {
    var q, r := a / d, a % d;
    assert a + k * d == (q + k) * d + r by {
      assert (q + k) * d == q * d + k * d;
    }
    DivModUnique(a + k * d, d, q + k, r);
  }

  /** Two integers closer than d to each other, and different, have different remainders. */
  lemma ModDistinct(a: int, b: int, d: int)
    requires d > 0 && b < a < b + d
    ensures a % d != b % d
  {
    if a % d == b % d {
      var qa, qb := a / d, b / d;
      assert a == qa * d + a % d;
      assert b == qb * d + b % d;
      assert (qa - qb) * d == a - b;
      if qa - qb >= 1 {
        MulAtLeast(qa - qb, d);
      } else {
        assert (qb - qa) * d == b - a;
        if qb - qa >= 1 {
          MulAtLeast(qb - qa, d);
        }
      }
    }
  }
}
