/** The two ways DuckDB turns a number into an INTEGER: a DOUBLE operand
    rounds to the nearest integer with halves to even, a DECIMAL operand
    rounds to the nearest integer with halves away from zero. They differ
    only on halves. */
module DuckDbCasts {

  /** Whether `x` lies exactly half-way between two integers. */
  predicate IsHalf(x: real)
  {
    x - x.Floor as real == 0.5
  }

  /** `CAST(x AS INTEGER)` for a DOUBLE `x`: nearest integer, halves to even. */
  function CastDoubleToInteger(x: real): (n: int)
    ensures n as real - 0.5 <= x <= n as real + 0.5
    ensures !IsHalf(x) ==> n as real - 0.5 < x < n as real + 0.5
    ensures IsHalf(x) ==> n % 2 == 0
  {
    var f := x.Floor;
    var d := x - f as real;
    if d < 0.5 then f
    else if d > 0.5 then f + 1
    else if f % 2 == 0 then f
    else f + 1
  }

  /** `CAST(x AS INTEGER)` for a DECIMAL `x`: nearest integer, halves away
      from zero. */
  function CastDecimalToInteger(x: real): (n: int)
    ensures x >= 0.0 ==> n >= 0 && n as real - 0.5 <= x < n as real + 0.5
    ensures x < 0.0 ==> n <= 0 && n as real - 0.5 < x <= n as real + 0.5
  {
    if x >= 0.0 then (x + 0.5).Floor else -((-x + 0.5).Floor)
  }

  /** The DOUBLE cast is the only integer within half a unit of `x` that is
      even on a tie. */
  lemma CastDoubleToIntegerUnique(x: real, n: int)
    requires n as real - 0.5 <= x <= n as real + 0.5
    requires IsHalf(x) ==> n % 2 == 0
    ensures n == CastDoubleToInteger(x)
  {
    var m := CastDoubleToInteger(x);
    if IsHalf(x) {
      var f := x.Floor;
      assert (n - f) as real <= 1.0 && (n - f) as real >= 0.0;
      assert (m - f) as real <= 1.0 && (m - f) as real >= 0.0;
    } else {
      assert m as real - 0.5 < x < m as real + 0.5;
      assert -1.0 < (n - m) as real < 1.0;
    }
  }

  /** An integral value casts to itself under either rule. */
  lemma CastOfInteger(k: int)
    ensures CastDoubleToInteger(k as real) == k
    ensures CastDecimalToInteger(k as real) == k
  {
    assert (k as real).Floor == k;
  }

  /** Off the halves the two casts agree. */
  lemma CastsAgreeOffHalves(x: real)
    requires !IsHalf(x)
    ensures CastDoubleToInteger(x) == CastDecimalToInteger(x)
  {
    var n, m := CastDoubleToInteger(x), CastDecimalToInteger(x);
    assert n as real - 0.5 < x < n as real + 0.5;
    assert m as real - 0.5 <= x <= m as real + 0.5;
  }

  /** On a half they differ: 86.5 becomes 86 as a DOUBLE and 87 as a DECIMAL. */
  lemma CastsDifferOnHalves()
    ensures CastDoubleToInteger(86.5) == 86
    ensures CastDecimalToInteger(86.5) == 87
  {
    assert (86.5).Floor == 86;
    assert (87.0).Floor == 87;
  }
}
