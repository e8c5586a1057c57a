/** The floating-point library the engine calls (`math.log10`, `10 ** x`,
    `x ** y`, `math.sqrt`, `math.pi` and the built-in `round`).

    Their values cannot be computed in Dafny's `real`, so the engine takes them
    as a parameter, and `Sound` states the only facts about them that the
    properties of the engine rely on. */
module RealMath {

  datatype MathLib = MathLib(
    log10: real -> real,          // math.log10
    pow10: real -> real,          // 10 ** x
    pow: (real, real) -> real,    // x ** y
    sqrt: real -> real,           // math.sqrt
    pi: real,                     // math.pi
    round: (real, int) -> real)   // round(x, ndigits)

  /** What the model assumes of the library: pi is positive; 10 ** x is
      positive and strictly increasing; x ** 1.0 is x; x ** 2.0 is positive
      for x other than 0; the square root of a non-negative number is a
      non-negative number whose square is that number, and the square root is
      strictly increasing. */
  ghost predicate Sound(m: MathLib) {
    && m.pi > 0.0
    && (forall x :: m.pow10(x) > 0.0)
    && (forall x, y :: x < y ==> m.pow10(x) < m.pow10(y))
    && (forall x :: m.pow(x, 1.0) == x)
    && (forall x :: x != 0.0 ==> 0.0 < m.pow(x, 2.0))
    && (forall x :: 0.0 <= x ==> 0.0 <= m.sqrt(x) && m.pow(m.sqrt(x), 2.0) == x)
    && (forall x, y :: 0.0 <= x < y ==> m.sqrt(x) < m.sqrt(y))
  }

  /** The square root of a positive number is positive. */
  lemma SqrtPositive(m: MathLib, x: real)
    requires Sound(m) && 0.0 < x
    ensures 0.0 < m.sqrt(x)
  {
    assert 0.0 <= m.sqrt(0.0) < m.sqrt(x);
  }

  /** Multiplying by a positive number keeps a strict order. */
  lemma MultiplyStrict(c: real, x: real, y: real)
    requires 0.0 < c && x < y
    ensures c * x < c * y && x * c < y * c
  {
  }

  /** Dividing by a positive number keeps a strict order. */
  lemma DivideStrict(x: real, y: real, d: real)
    requires x < y && 0.0 < d
    ensures x / d < y / d
  {
  }

  /** Equal numerators over one non-zero denominator give equal quotients. */
  lemma SameQuotient(a: real, b: real, c: real)
    requires a == b && c != 0.0
    ensures a / c == b / c
  {
  }

  /** Equal non-zero denominators under one numerator give equal quotients. */
  lemma SameDenominator(a: real, c: real, d: real)
    requires c == d && c != 0.0
    ensures a / c == a / d
  {
  }

  /** Equal middle factors give equal products. */
  lemma SameMiddleFactor(k: real, x: real, y: real, t: real)
    requires x == y
    ensures k * x * t == k * y * t
  {
  }

  /** Dividing `a` by `k` times the quotient `a / (k * e)` gives back `e`. */
  lemma SolveQuotient(a: real, k: real, e: real)
    requires 0.0 < a && 0.0 < k && 0.0 < e
    ensures k * (a / (k * e)) == a / e
    ensures a / (k * (a / (k * e))) == e
  {
    assert k * (a / (k * e)) == a / e;
  }

  /** A product of two positive numbers is positive. */
  lemma ProductPositive(a: real, b: real)
    ensures 0.0 < a && 0.0 < b ==> 0.0 < a * b
  {
  }

  /** A quotient of two positive numbers is positive. */
  lemma QuotientPositive(a: real, b: real)
    ensures 0.0 < a && 0.0 < b ==> 0.0 < a / b
  {
  }
}
