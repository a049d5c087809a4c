/** `Arith`: the few facts about integer division that the rounding rules need. */
module Arith {
  /** One more row of `b`. */
  lemma MulSucc(a: int, b: int)
    ensures (a + 1) * b == a * b + b
  {
  }

  lemma {:induction false} AtLeastOnce(k: int, d: int)
    requires k >= 1 && d > 0
    ensures k * d >= d
  {
    if k > 1 {
      AtLeastOnce(k - 1, d);
      assert k * d == (k - 1) * d + d;
    }
  }

  /** Division undoes `q·d + r` for a remainder below the divisor. */
  lemma DivOfParts(q: int, d: int, r: int)
    requires d > 0 && 0 <= r < d
    ensures (q * d + r) / d == q
  {
    var a := q * d + r;
    var x, m := a / d, a % d;
    assert a == x * d + m;
    if q > x {
      AtLeastOnce(q - x, d);
    } else if q < x {
      AtLeastOnce(x - q, d);
    }
  }

  /** A quotient is at least `k` once the dividend reaches `k` times the divisor. */
  lemma DivAtLeast(a: int, d: int, k: int)
    requires d > 0 && k * d <= a
    ensures k <= a / d
  {
    var x, m := a / d, a % d;
    assert a == x * d + m;
    if x < k {
      AtLeastOnce(k - x, d);
    }
  }

  /** A quotient is at most `k` while the dividend stays below `k + 1` times the divisor. */
  lemma DivAtMost(a: int, d: int, k: int)
    requires d > 0 && a < (k + 1) * d
    ensures a / d <= k
  {
    var x, m := a / d, a % d;
    assert a == x * d + m;
    if x > k {
      AtLeastOnce(x - k, d);
    }
  }
}
