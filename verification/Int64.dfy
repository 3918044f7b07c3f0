/** Two's-complement 64-bit arithmetic, as Go's int64 and time.Duration perform it. */
module Int64 {

  const TWO_63: int := 0x8000_0000_0000_0000
  const TWO_64: int := 0x1_0000_0000_0000_0000

  predicate Fits(x: int) {
    -TWO_63 <= x < TWO_63
  }

  /** The 64-bit value that x becomes when its high bits are dropped. */
  function Wrap(x: int): (r: int)
    ensures Fits(r)
    ensures Fits(x) ==> r == x
  {
    (x + TWO_63) % TWO_64 - TWO_63
  }

  /** Adding in 64 bits step by step gives the same as wrapping the exact sum once. */
  lemma WrapAdd(a: int, b: int)
    ensures Wrap(Wrap(a) + b) == Wrap(a + b)
  {
    var k := (a + TWO_63) / TWO_64;
    assert Wrap(a) == a - k * TWO_64;
    WrapPeriod(Wrap(a) + b, k);
  }

  lemma WrapPeriod(x: int, k: int)
    ensures Wrap(x + k * TWO_64) == Wrap(x)
  {
    ModPeriod(x + TWO_63, k, TWO_64);
    assert x + k * TWO_64 + TWO_63 == x + TWO_63 + k * TWO_64;
  }

  lemma ModPeriod(x: int, k: int, m: int)
    requires m > 0
    ensures (x + k * m) % m == x % m
  {
    var q := x / m;
    assert x == q * m + x % m;
    assert x + k * m == (q + k) * m + x % m;
    DivUnique(x + k * m, q + k, x % m, m);
  }

  lemma DivUnique(x: int, q: int, r: int, m: int)
    requires 0 <= r < m && x == q * m + r
    ensures x % m == r
  {
    var p := x / m;
    var s := x % m;
    assert p * m + s == q * m + r;
    assert (p - q) * m == r - s;
    SmallMultiple(p - q, m);
  }

  lemma SmallMultiple(d: int, m: int)
    requires m > 0 && -m < d * m < m
    ensures d == 0
  {
    if d > 0 {
      MulAtLeast(d, m);
    } else if d < 0 {
      MulAtLeast(-d, m);
    }
  }

  lemma MulAtLeast(d: int, m: int)
    requires d >= 1 && m > 0
    ensures d * m >= m
  {
    assert d * m == (d - 1) * m + m;
  }

  function Pow2(n: nat): (r: nat)
    ensures r >= 1
  {
    if n == 0 then 1 else 2 * Pow2(n - 1)
  }

  lemma {:induction false} Pow2Adds(m: nat, n: nat)
    ensures Pow2(m + n) == Pow2(m) * Pow2(n)
  {
    if m > 0 {
      Pow2Adds(m - 1, n);
      assert Pow2(m + n) == 2 * Pow2(m - 1 + n);
    }
  }

  lemma Pow2Eight()
    ensures Pow2(8) == 0x100
  {
  }

  lemma Pow2Powers()
    ensures Pow2(16) == 0x1_0000 && Pow2(32) == 0x1_0000_0000
  {
    hide Pow2;
    Pow2Eight();
    Pow2Adds(8, 8);
    Pow2Adds(16, 16);
  }

  lemma Pow2SixtyFour()
    ensures Pow2(64) == TWO_64
  {
    hide Pow2;
    Pow2Powers();
    Pow2Adds(32, 32);
  }
}
