/** Go's int64: wrap-around addition and the truncating quotient of math/big. */
module Int64 {
  const MAX: int := 0x7FFF_FFFF_FFFF_FFFF
  const MIN: int := -0x8000_0000_0000_0000
  const MODULUS: int := 0x1_0000_0000_0000_0000

  predicate Fits(x: int) {
    MIN <= x <= MAX
  }

  /** The value an int64 expression has when its mathematical value is x. */
  function Wrap(x: int): (r: int)
    ensures Fits(r)
    ensures Fits(x) <==> r == x
    ensures (x - r) % MODULUS == 0
  {
    var r := (x - MIN) % MODULUS + MIN;
    assert x - r == MODULUS * ((x - MIN) / MODULUS);
    r
  }

  /** Accumulating in an int64 wraps once, whatever was wrapped on the way. */
  lemma WrapAdd(a: int, b: int)
    ensures Wrap(Wrap(a) + b) == Wrap(a + b)
  {
  }

  lemma QuotientBounds(n: nat, d: nat, q: int)
    requires d > 0 && q == n / d
    ensures q >= 0 && d * q <= n < d * (q + 1)
  {
    assert n == d * q + n % d;
    assert d * (q + 1) == d * q + d;
  }

  lemma NegatedBounds(n: int, d: int, q: int)
    requires d * q <= n < d * (q + 1)
    ensures d * (-q - 1) < -n <= d * (-q)
  {
    assert d * (-q - 1) == -(d * (q + 1));
    assert d * (-q) == -(d * q);
  }

  /** big.Int.Quo: division truncating toward zero. */
  function Quo(n: int, d: int): (q: int)
    requires d > 0
    ensures n >= 0 ==> q >= 0 && d * q <= n < d * (q + 1)
    ensures n < 0 ==> q <= 0 && d * (q - 1) < n <= d * q
  {
    if n >= 0 then
      QuotientBounds(n, d, n / d);
      n / d
    else
      QuotientBounds(-n, d, (-n) / d);
      NegatedBounds(-n, d, (-n) / d);
      -((-n) / d)
  }
}
