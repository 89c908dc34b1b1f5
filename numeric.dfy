/** Shared numeric vocabulary of the analysis engine.

    The engine computes with IEEE doubles; this model computes with exact `real`s.
    Two things the engine takes from its numeric library are not computable here:
    the square root and the constant pi. They are passed in as a `Numerics` record
    whose `Valid()` states exactly what the model relies on.

    The engine also uses `float('inf')` as a sentinel for degenerate ratios; here it
    is the `Infinite` case of `Ratio`. */
module Numeric {

  datatype Option<T> = None | Some(value: T)

  /** A ratio that is either a finite value or the +infinity sentinel. */
  datatype Ratio = Finite(value: real) | Infinite {

    /** `self >= t` as the engine evaluates it: +infinity is above every threshold. */
    predicate AtLeast(t: real) {
      match this
      case Finite(v) => v >= t
      case Infinite => true
    }

    /** `self <= t` as the engine evaluates it: +infinity is below no threshold. */
    predicate AtMost(t: real) {
      match this
      case Finite(v) => v <= t
      case Infinite => false
    }

    /** `lo <= self <= hi` as a chained comparison: false for +infinity. */
    predicate Within(lo: real, hi: real) {
      match this
      case Finite(v) => lo <= v <= hi
      case Infinite => false
    }
  }

  /** The square root and pi of the numeric library, supplied by the caller. */
  datatype Numerics = Numerics(sqrt: real -> real, pi: real) {

    /** `sqrt` is the non-negative square root on the non-negative reals, and
        `pi` lies in a narrow interval around the true constant. */
    ghost predicate Valid() {
      && 3.14159 < pi < 3.1416
      && forall x: real :: 0.0 <= x ==> 0.0 <= sqrt(x) && sqrt(x) * sqrt(x) == x
    }
  }

  function Abs(x: real): (r: real)
    ensures 0.0 <= r && (r == x || r == -x)
  {
    if x < 0.0 then -x else x
  }

  lemma SquareMonotone(a: real, b: real)
    requires 0.0 <= a <= b
    ensures a * a <= b * b
  {
    assert a * a <= a * b;
  }

  /** Squares of non-negative numbers are ordered as the numbers are. */
  lemma SquareBelow(a: real, b: real)
    requires 0.0 <= a && 0.0 <= b && a * a < b * b
    ensures a < b
  {
    if b <= a {
      SquareMonotone(b, a);
    }
  }

  /** Dividing the square roots of two numbers and squaring gives their quotient,
      stated without division: `(n / q)^2 * qq == nn` for `n^2 == nn`, `q^2 == qq`. */
  lemma QuotientOfRoots(n: real, q: real, nn: real, qq: real)
    requires n * n == nn && q * q == qq && 0.0 < q
    ensures (n / q) * (n / q) * qq == nn
  {
    var t := n / q;
    assert t * q == n;
    calc {
      t * t * qq;
      t * t * (q * q);
      (t * q) * (t * q);
      n * n;
    }
  }

  /** The square root of a positive number is positive. */
  lemma SqrtPositive(num: Numerics, x: real)
    requires num.Valid()
    requires 0.0 < x
    ensures 0.0 < num.sqrt(x)
  {
    var s := num.sqrt(x);
    assert s * s == x;
  }
}
