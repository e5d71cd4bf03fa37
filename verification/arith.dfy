/** Remainders and powers. */
module Arith {
  lemma MulBounds(d: int, m: int)
    requires m > 0
    ensures d >= 1 ==> d * m >= m
    ensures d == 0 ==> d * m == 0
    ensures d <= -1 ==> d * m <= -m
  {
  }

  lemma ModUnique(x: int, m: int, q: int, r: int)
    requires m > 0 && x == q * m + r && 0 <= r < m
    ensures x % m == r
  {
    var d := x / m - q;
    assert x == (x / m) * m + x % m && (x / m) * m == q * m + d * m;
    MulBounds(d, m);
  }

  /** Two numbers less than m apart leave different remainders. */
  lemma ModApart(x: int, y: int, m: int)
    requires m > 0 && x < y < x + m
    ensures x % m != y % m
  {
    var d := y / m - x / m;
    assert y == (y / m) * m + y % m && x == (x / m) * m + x % m && (y / m) * m == (x / m) * m + d * m;
    MulBounds(d, m);
  }

  function Pow10(k: nat): (p: nat)
    ensures p > 0
  {
    if k == 0 then 1 else 10 * Pow10(k - 1)
  }

  lemma {:induction false} Pow10Grows(a: nat, b: nat)
    requires a <= b
    ensures Pow10(a) <= Pow10(b)
    decreases b
  {
    if a < b { Pow10Grows(a, b - 1); }
  }
}
