/** Bounds on integer quotients, proved without nonlinear search. */
module Division {

  lemma Positive(z: int, d: int)
    requires d > 0 && z * d > 0
    ensures z > 0
  {}

  lemma Cancel(a: int, b: int, d: int)
    requires d > 0 && a * d < b * d
    ensures a < b
  {
    assert (b - a) * d == b * d - a * d;
    Positive(b - a, d);
  }

  lemma AtLeast(y: int, q: int, d: int)
    requires d > 0 && q * d <= y
    ensures q <= y / d
  {
    var f := y / d;
    assert y < (f + 1) * d by { assert y == d * f + y % d; assert (f + 1) * d == f * d + d; }
    Cancel(q, f + 1, d);
  }

  lemma AtMost(y: int, q: int, d: int)
    requires d > 0 && y < (q + 1) * d
    ensures y / d <= q
  {
    var f := y / d;
    assert f * d <= y by { assert y == d * f + y % d; }
    Cancel(f, q + 1, d);
  }

  /** Adding at most k divisors adds at most k to the quotient. */
  lemma Steps(x: nat, y: nat, k: nat, d: nat)
    requires d > 0 && x <= y <= x + k * d
    ensures x / d <= y / d <= x / d + k
  {
    var q := x / d;
    assert q * d <= x < (q + 1) * d;
    AtLeast(y, q, d);
    assert (q + k + 1) * d == (q + 1) * d + k * d;
    AtMost(y, q + k, d);
  }
}
