/** JavaScript's rounding and clamping on exact reals. */
module Numbers {
  /** `Math.round`: the floor of `x + 0.5`, so halves round up. */
  function Round(x: real): int {
    (x + 0.5).Floor
  }

  /** `Math.round` lands within a half of its argument. */
  lemma RoundNear(x: real)
    ensures x - 0.5 < Round(x) as real <= x + 0.5
  {
  }

  lemma RoundMonotone(x: real, y: real)
    requires x <= y
    ensures Round(x) <= Round(y)
  {
  }

  /** Whole numbers round to themselves. */
  lemma RoundWhole(n: int)
    ensures Round(n as real) == n
  {
  }

  /** Comparing a quotient by a positive number is comparing the dividend
      with the product. */
  lemma DivCompare(a: real, d: real, b: real)
    requires d > 0.0
    ensures a / d > b <==> a > b * d
    ensures a / d < b <==> a < b * d
    ensures a / d == b <==> a == b * d
  {
    var q := a / d;
    assert q * d == a;
    if q > b { assert q * d > b * d; }
    if q < b { assert q * d < b * d; }
    if a > b * d { assert q * d > b * d; }
    if a < b * d { assert q * d < b * d; }
  }

  /** A larger divisor gives a smaller quotient of the same non-negative number. */
  lemma DivAntitone(n: real, a: real, b: real)
    requires n >= 0.0 && 0.0 < a <= b
    ensures n / b <= n / a
  {
    var q := n / a;
    assert q * a == n;
    assert q >= 0.0;
    assert q * b >= q * a;
    DivCompare(n, b, q);
  }

  /** Scaling by a non-negative factor keeps an order. */
  lemma ScaleMonotone(x: real, y: real, w: real)
    requires x <= y && w >= 0.0
    ensures x * w <= y * w
  {
  }

  /** A mix of two numbers between common bounds, against the weights' sum. */
  lemma MixBounds(x: real, y: real, a: real, b: real, lo: real, hi: real)
    requires lo <= x <= hi && lo <= y <= hi
    requires a >= 0.0 && b >= 0.0
    ensures lo * (a + b) <= x * a + y * b <= hi * (a + b)
  {
    ScaleMonotone(lo, x, a);
    ScaleMonotone(lo, y, b);
    ScaleMonotone(x, hi, a);
    ScaleMonotone(y, hi, b);
    Distribute(lo, a, b);
    Distribute(hi, a, b);
    assert x * a <= hi * a;
    assert y * b <= hi * b;
    assert x * a + y * b <= hi * a + hi * b;
  }

  lemma Distribute(x: real, a: real, b: real)
    ensures x * (a + b) == x * a + x * b
  {
  }

  /** A mix with weights summing to one stays between common bounds. */
  lemma MixBetween(x: real, y: real, a: real, b: real, lo: real, hi: real)
    requires lo <= x <= hi && lo <= y <= hi
    requires a >= 0.0 && b >= 0.0 && a + b == 1.0
    ensures lo <= x * a + y * b <= hi
  {
    MixBounds(x, y, a, b, lo, hi);
  }

  function MinReal(a: real, b: real): real {
    if a <= b then a else b
  }

  function MaxReal(a: real, b: real): real {
    if a >= b then a else b
  }

  function MinNat(a: nat, b: nat): nat {
    if a <= b then a else b
  }

  function MinInt(a: int, b: int): int {
    if a <= b then a else b
  }

  function MaxInt(a: int, b: int): int {
    if a >= b then a else b
  }

  function Abs(x: real): real {
    if x < 0.0 then -x else x
  }
}
