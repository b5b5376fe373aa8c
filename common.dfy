/** Values shared by every scanner: optional values (a pandas NaN or a Python
    None is `None`) and the result of a numpy float64 division, which never
    raises but yields an infinity or NaN when the divisor is zero. */
module Common {

  datatype Option<+T> = None | Some(value: T)

  /** The outcome of code that may raise: `Failure` carries the exception's
      name and stops the whole scan. */
  datatype Result<+T> = Success(value: T) | Failure(error: string)

  /** A float64 as produced by numpy arithmetic on finite operands. */
  datatype Float = Finite(val: real) | Infinite(positive: bool) | NaN

  /** `a / b` on numpy scalars: a zero divisor gives +inf, -inf or NaN
      according to the sign of the dividend (the sign of a negative zero
      divisor is not modelled). */
  function Div(a: real, b: real): (r: Float)
    ensures b != 0.0 ==> r.Finite? && r.val * b == a
    ensures b == 0.0 ==> (r.NaN? <==> a == 0.0)
    ensures r.Infinite? ==> b == 0.0 && (r.positive <==> a > 0.0)
  {
    if b != 0.0 then Finite(a / b)
    else if a > 0.0 then Infinite(true)
    else if a < 0.0 then Infinite(false)
    else NaN
  }

  /** `part / whole * 100 if whole > 0 else 0`, the guarded percentage the
      scanners report. */
  function PercentOf(part: real, whole: real): real
  {
    if whole > 0.0 then part / whole * 100.0 else 0.0
  }

  /** `x * k` for a positive constant k. */
  function Scale(x: Float, k: real): Float
    requires k > 0.0
  {
    match x
    case Finite(v) => Finite(v * k)
    case _ => x
  }

  /** `x + c` for a finite constant c. */
  function Shift(x: Float, c: real): Float
  {
    match x
    case Finite(v) => Finite(v + c)
    case _ => x
  }

  /** `x > c`: NaN compares false, infinities compare by sign. */
  predicate Above(x: Float, c: real)
  {
    match x
    case Finite(v) => v > c
    case Infinite(p) => p
    case NaN => false
  }

  /** `x < c`: NaN compares false, infinities compare by sign. */
  predicate Below(x: Float, c: real)
  {
    match x
    case Finite(v) => v < c
    case Infinite(p) => !p
    case NaN => false
  }

  /** `x <= c`: NaN compares false, infinities compare by sign. */
  predicate AtMost(x: Float, c: real)
  {
    match x
    case Finite(v) => v <= c
    case Infinite(p) => !p
    case NaN => false
  }

  function FromOption(o: Option<real>): (r: Float)
    ensures r.NaN? <==> o.None?
  {
    match o
    case Some(v) => Finite(v)
    case None => NaN
  }

  /** Comparisons in which a missing value (NaN) makes the result false. */
  predicate Lt(a: Option<real>, b: Option<real>)
  {
    a.Some? && b.Some? && a.value < b.value
  }

  predicate Le(a: Option<real>, b: Option<real>)
  {
    a.Some? && b.Some? && a.value <= b.value
  }

  predicate Gt(a: Option<real>, b: Option<real>)
  {
    Lt(b, a)
  }

  predicate Ge(a: Option<real>, b: Option<real>)
  {
    Le(b, a)
  }

  /** A ratio exceeds a threshold exactly when the dividend exceeds the
      threshold times a positive divisor. */
  lemma DivAboveIff(a: real, b: real, c: real)
    requires b > 0.0
    ensures Above(Div(a, b), c) <==> a > c * b
  {
    var q := a / b;
    assert q * b == a;
    if q > c {
      assert q * b > c * b;
    } else {
      assert q * b <= c * b;
    }
  }

  /** A ratio is at most a threshold exactly when the dividend is at most
      the threshold times a positive divisor. */
  lemma DivAtMostIff(a: real, b: real, c: real)
    requires b > 0.0
    ensures AtMost(Div(a, b), c) <==> a <= c * b
  {
    var q := a / b;
    assert q * b == a;
    if q <= c {
      assert q * b <= c * b;
    } else {
      assert q * b > c * b;
    }
  }
}
