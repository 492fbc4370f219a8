/**
 * Scalar JSON values as Python's `json` module decodes them, and the conversions the
 * integration applies to them: `int(v)`, `float(v)`, truth testing and `round(x, 1)`.
 * Numbers are exact: a Python float is modelled as a real.
 */
module Values {
  import opened Wrappers

  datatype Scalar = Null | Bool(b: bool) | Int(i: int) | Float(f: real) | Str(s: string)

  /** Conversion of a real to an integer by truncation toward zero, as Python's `int(x)` does. */
  function Trunc(x: real): (r: int)
    ensures x >= 0.0 ==> r as real <= x < r as real + 1.0
    ensures x < 0.0 ==> r as real - 1.0 < x <= r as real
  {
    if x >= 0.0 then x.Floor else -((-x).Floor)
  }

  /** `int(v)`: None where Python raises TypeError or ValueError. Numeric strings are not parsed. */
  function IntOf(v: Scalar): Option<int> {
    match v
    case Null => None
    case Bool(b) => Some(if b then 1 else 0)
    case Int(i) => Some(i)
    case Float(f) => Some(Trunc(f))
    case Str(_) => None
  }

  /** `float(v)`: None where Python raises TypeError or ValueError. Numeric strings are not parsed. */
  function FloatOf(v: Scalar): Option<real> {
    match v
    case Null => None
    case Bool(b) => Some(if b then 1.0 else 0.0)
    case Int(i) => Some(i as real)
    case Float(f) => Some(f)
    case Str(_) => None
  }

  /** Python's truth value of a scalar (`if v:`). */
  predicate Truthy(v: Scalar) {
    match v
    case Null => false
    case Bool(b) => b
    case Int(i) => i != 0
    case Float(f) => f != 0.0
    case Str(s) => s != []
  }

  /** A real that is a whole number of tenths. */
  predicate IsTenths(x: real) { (x * 10.0).Floor as real == x * 10.0 }

  /**
   * `round(x, 1)`: the nearest multiple of 0.1, a tie going to the even number of tenths.
   */
  function Round1(x: real): (r: real)
    ensures IsTenths(r)
    ensures -0.05 <= r - x <= 0.05
  {
    var y := x * 10.0;
    var f := y.Floor;
    var frac := y - f as real;
    var n := if frac < 0.5 then f else if frac > 0.5 then f + 1 else if f % 2 == 0 then f else f + 1;
    assert (n as real / 10.0) * 10.0 == n as real;
    n as real / 10.0
  }

  /** Rounding a whole number of tenths changes nothing. */
  lemma Round1OfTenths(x: real)
    requires IsTenths(x)
    ensures Round1(x) == x
  {
  }

  /** The difference of two whole numbers of tenths is one too, so rounding it is exact. */
  lemma Round1OfTenthsDifference(a: real, b: real)
    requires IsTenths(a) && IsTenths(b)
    ensures Round1(a - b) == a - b
  {
    var ka, kb := (a * 10.0).Floor, (b * 10.0).Floor;
    assert (a - b) * 10.0 == (ka - kb) as real;
    Round1OfTenths(a - b);
  }

  /** Rounding is monotone. */
  lemma {:induction false} Round1Monotone(x: real, y: real)
    requires x <= y
    ensures Round1(x) <= Round1(y)
  {
    var fx, fy := (x * 10.0).Floor, (y * 10.0).Floor;
    assert fx <= fy;
  }
}
