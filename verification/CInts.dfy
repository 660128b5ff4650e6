/** C's integers: long has 64 bits and int has 32, both in two's complement. */
module CInts {
  const LONG_MAX: int := 0x7fff_ffff_ffff_ffff
  const INT_MAX: int := 0x7fff_ffff

  predicate IsInt(n: int) {
    -INT_MAX - 1 <= n <= INT_MAX
  }

  /** The 32 low bits of n, as an int. */
  function ToInt(n: int): (r: int)
    ensures IsInt(r) && (r == n <==> IsInt(n))
  {
    var low := n % 0x1_0000_0000;
    if low > INT_MAX then low - 0x1_0000_0000 else low
  }

  lemma ToIntKeepsLowBits(n: int)
    ensures (n - ToInt(n)) % 0x1_0000_0000 == 0
  {
  }

  /** C's integer division, which drops the fraction. */
  function CDiv(a: int, b: int): int
    requires b != 0
  {
    if a >= 0 then (if b > 0 then a / b else -(a / -b))
    else if b > 0 then -(-a / b) else -a / -b
  }

  lemma CDivTruncates(a: int, b: int)
    requires b != 0
    ensures var r := a - CDiv(a, b) * b;
      && (if b > 0 then -b < r < b else b < r < -b)
      && (a >= 0 ==> r >= 0) && (a <= 0 ==> r <= 0)
  {
    var m, d := if a >= 0 then a else -a, if b > 0 then b else -b;
    assert m == m / d * d + m % d;
    assert CDiv(a, b) == m / d || CDiv(a, b) == -(m / d);
    assert -(m / d) * d == -(m / d * d) && m / d * -d == -(m / d * d) && -(m / d) * -d == m / d * d;
  }
}
