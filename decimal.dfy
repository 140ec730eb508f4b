/** The two roundings the point-of-sale screen applies to quantities:
    `Math.round(x * 100) / 100` (cart increment/decrement) and `x.toFixed(1)` (quantity dialog). */
module Decimal {

  /** `x` lies on the hundredths grid. */
  predicate OnCents(x: real)
  {
    (x * 100.0).Floor as real == x * 100.0
  }

  /** `x` lies on the tenths grid. */
  predicate OnTenths(x: real)
  {
    (x * 10.0).Floor as real == x * 10.0
  }

  /** `Math.round(x * 100) / 100`. JavaScript's `Math.round` rounds halves toward +infinity,
      so `Math.round(v)` is the floor of `v + 1/2`. */
  function RoundCents(x: real): (r: real)
    ensures OnCents(r)
    ensures x - 0.005 < r <= x + 0.005
  {
    var n := (x * 100.0 + 0.5).Floor;
    assert (n as real / 100.0) * 100.0 == n as real;
    n as real / 100.0
  }

  /** Rounding a value that is already on the hundredths grid gives it back unchanged. */
  lemma RoundCentsKeepsGrid(x: real)
    requires OnCents(x)
    ensures RoundCents(x) == x
  {
    var k := (x * 100.0).Floor;
    assert x * 100.0 + 0.5 == k as real + 0.5;
    assert (x * 100.0 + 0.5).Floor == k;
  }

  /** Sums and differences of hundredths stay on the hundredths grid. */
  lemma OnCentsAddSub(a: real, b: real)
    requires OnCents(a) && OnCents(b)
    ensures OnCents(a + b) && OnCents(a - b)
  {
    var ka, kb := (a * 100.0).Floor, (b * 100.0).Floor;
    assert a * 100.0 == ka as real && b * 100.0 == kb as real;
    assert (a + b) * 100.0 == (ka + kb) as real;
    assert ((ka + kb) as real).Floor == ka + kb;
    assert (a - b) * 100.0 == (ka - kb) as real;
    assert ((ka - kb) as real).Floor == ka - kb;
  }

  /** `x.toFixed(1)`, read back by `Number.parseFloat`: the nearest tenth, halves away from zero. */
  function ToFixed1(x: real): (r: real)
    ensures OnTenths(r)
    ensures x - 0.05 <= r <= x + 0.05
    ensures x >= 0.0 ==> r >= 0.0
  {
    if x >= 0.0 then
      var n := (x * 10.0 + 0.5).Floor;
      assert (n as real / 10.0) * 10.0 == n as real;
      n as real / 10.0
    else
      var n := (-x * 10.0 + 0.5).Floor;
      assert (-(n as real) / 10.0) * 10.0 == -(n as real);
      assert (-(n as real)).Floor == -n;
      -(n as real) / 10.0
  }

  /** Sums and differences of tenths stay on the tenths grid. */
  lemma OnTenthsAddSub(a: real, b: real)
    requires OnTenths(a) && OnTenths(b)
    ensures OnTenths(a + b) && OnTenths(a - b)
  {
    var ka, kb := (a * 10.0).Floor, (b * 10.0).Floor;
    assert a * 10.0 == ka as real && b * 10.0 == kb as real;
    assert (a + b) * 10.0 == (ka + kb) as real;
    assert ((ka + kb) as real).Floor == ka + kb;
    assert (a - b) * 10.0 == (ka - kb) as real;
    assert ((ka - kb) as real).Floor == ka - kb;
  }

  /** A value on the tenths grid survives `toFixed(1)` unchanged. */
  lemma ToFixed1KeepsGrid(x: real)
    requires OnTenths(x)
    ensures ToFixed1(x) == x
  {
    var k := (x * 10.0).Floor;
    if x >= 0.0 {
      assert x * 10.0 + 0.5 == k as real + 0.5;
      assert (x * 10.0 + 0.5).Floor == k;
    } else {
      assert -x * 10.0 + 0.5 == (-k) as real + 0.5;
      assert (-x * 10.0 + 0.5).Floor == -k;
    }
  }

  /** `toFixed(1)` never rounds a value past a bound that lies on the tenths grid. */
  lemma ToFixed1AtMost(y: real, m: real)
    requires y <= m && OnTenths(m)
    ensures ToFixed1(y) <= m
  {
    var k := (m * 10.0).Floor;
    assert m * 10.0 == k as real;
    if y >= 0.0 {
      assert y * 10.0 + 0.5 <= k as real + 0.5;
      assert (y * 10.0 + 0.5).Floor <= k;
    } else {
      assert -y * 10.0 + 0.5 >= (-k) as real + 0.5;
      assert (-y * 10.0 + 0.5).Floor >= -k;
    }
  }

  /** Whole numbers (batch quantities) lie on both grids. */
  lemma IntegersOnGrids(n: int)
    ensures OnTenths(n as real) && OnCents(n as real)
  {
    assert (n as real * 10.0) == (n * 10) as real;
    assert (n as real * 100.0) == (n * 100) as real;
  }
}
