/**
 The floating-point library the weather calculations call into (Python's
 `math` module and the built-in `round`), modelled over exact reals.

 Dafny has no transcendental functions. Rather than declaring them with axioms,
 the library is a value: a record of arrow-typed fields that every calculation
 takes as a parameter. No axiom is assumed about these fields; each fact about
 the library (a square root is never negative, `acos` lands in [0, pi], ...) is
 a hypothesis of the lemma that needs it, written with one of the predicates
 below, so every result states exactly what it depends on.
 */
module Numerics {

  /** Python's `math.pi`: the double nearest to pi, written out exactly, so that a library whose
      `acos(-1.0)` returns `math.pi` meets `AcosInRange` */
  const Pi: real := 3.141592653589793115997963468544185161590576171875

  datatype Numerics = Numerics(
    exp: real -> real,
    log: real -> real,
    sqrt: real -> real,
    sin: real -> real,
    cos: real -> real,
    tan: real -> real,
    asin: real -> real,
    acos: real -> real,
    /** `pow(x, e)` is Python's `x ** e` for a non-integral exponent */
    pow: (real, real) -> real,
    /** `round(x, digits)` is Python's built-in `round` */
    round: (real, int) -> real
  )

  /** Python's `math.radians` */
  function Radians(degrees: real): real
  {
    degrees * Pi / 180.0
  }

  function Abs(x: real): (r: real)
    ensures 0.0 <= r && (r == x || r == -x)
  {
    if x < 0.0 then -x else x
  }

  function Max(x: real, y: real): (r: real)
    ensures x <= r && y <= r && (r == x || r == y)
  {
    if x < y then y else x
  }

  function Min(x: real, y: real): (r: real)
    ensures r <= x && r <= y && (r == x || r == y)
  {
    if y < x then y else x
  }

  /** Python's `int(x)` on a float: truncation toward zero */
  function Trunc(x: real): (k: int)
    ensures Abs(k as real) <= Abs(x) < Abs(k as real) + 1.0
    ensures 0.0 <= x ==> 0 <= k
    ensures x <= 0.0 ==> k <= 0
  {
    if 0.0 <= x then x.Floor else -((-x).Floor)
  }

  // ---- facts about the library, each asked for only where a proof needs it ----

  ghost predicate SqrtNonNegative(n: Numerics)
  {
    forall x :: 0.0 <= x ==> 0.0 <= n.sqrt(x)
  }

  /** the principal value of `acos` on its domain */
  ghost predicate AcosInRange(n: Numerics)
  {
    forall x :: -1.0 <= x <= 1.0 ==> 0.0 <= n.acos(x) <= Pi
  }

  ghost predicate ExpPositive(n: Numerics)
  {
    forall x :: 0.0 < n.exp(x)
  }

  /** `exp` is 1 at 0 and on either side of 0 stays on that side of 1 */
  ghost predicate ExpAroundZero(n: Numerics)
  {
    && n.exp(0.0) == 1.0
    && (forall x :: 0.0 <= x ==> 1.0 <= n.exp(x))
    && (forall x :: x <= 0.0 ==> n.exp(x) <= 1.0)
  }

  /** `log` of a number in (0, 1] is at most 0, and `log(1) == 0` */
  ghost predicate LogAtMostZeroBelowOne(n: Numerics)
  {
    && n.log(1.0) == 0.0
    && forall x :: 0.0 < x <= 1.0 ==> n.log(x) <= 0.0
  }

  /** `sin` is non-negative on [0, pi] */
  ghost predicate SinNonNegative(n: Numerics)
  {
    forall x :: 0.0 <= x <= Pi ==> 0.0 <= n.sin(x)
  }

  /** the wind-speed power `v ** 0.16` is at least `3 ** 0.16` (about 1.192) from 3 mph up */
  ghost predicate WindPowerBound(n: Numerics)
  {
    forall v :: 3.0 <= v ==> 1.19 <= n.pow(v, 0.16)
  }
}
