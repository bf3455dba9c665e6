/** The parts of <cmath> the simulation uses: the square root behind every
    magnitude, the arc cosine behind the field-of-view bearing, and M_PI.
    They are given as a value of type MathLib that the operations take as a
    parameter; MathLib.Valid() states the only facts the proofs rely on. */
module CMath {

  datatype MathLib = MathLib(sqrt: real -> real, acos: real -> real, pi: real) {

    /** sqrt is the non-negative square root; acos maps [-1, 1] into [0, pi],
        strictly decreasing, with its values at 1, 0, -1/2 and -1. */
    ghost predicate Valid() {
      && (forall x :: 0.0 <= x ==> 0.0 <= sqrt(x) && sqrt(x) * sqrt(x) == x)
      && 0.0 < pi
      && (forall c :: -1.0 <= c <= 1.0 ==> 0.0 <= acos(c) <= pi)
      && (forall a, b :: -1.0 <= a < b <= 1.0 ==> acos(b) < acos(a))
      && acos(1.0) == 0.0
      && acos(0.0) == pi / 2.0
      && acos(-0.5) == 2.0 / 3.0 * pi
      && acos(-1.0) == pi
    }
  }

  function Abs(x: real): real {
    if x < 0.0 then -x else x
  }

  /** std::max(lo, std::min(hi, x)) */
  function Clamp(lo: real, hi: real, x: real): real {
    if x > hi then hi else if x < lo then lo else x
  }

  // Sign rules for products, from which the facts below are built.

  lemma MulNonneg(a: real, b: real)
    requires 0.0 <= a && 0.0 <= b
    ensures 0.0 <= a * b
  {
  }

  lemma MulMonotone(a: real, b: real, c: real)
    requires 0.0 <= a && b <= c
    ensures a * b <= a * c
  {
    assert a * c - a * b == a * (c - b);
    MulNonneg(a, c - b);
  }

  lemma MulStrictMonotone(a: real, b: real, c: real)
    requires 0.0 < a && b < c
    ensures a * b < a * c
  {
    assert a * c - a * b == a * (c - b);
  }

  /** A quotient by a positive number lies between lo and hi when the
      dividend lies between n * lo and n * hi. */
  lemma QuotientBounds(s: real, n: real, lo: real, hi: real)
    requires 0.0 < n && n * lo <= s <= n * hi
    ensures lo <= s / n <= hi
  {
    var q := s / n;
    assert q * n == s;
    if q < lo {
      MulStrictMonotone(n, q, lo);
    }
    if hi < q {
      MulStrictMonotone(n, hi, q);
    }
  }

  lemma QuotientNonnegative(s: real, n: real)
    requires 0.0 < n && 0.0 <= s
    ensures 0.0 <= s / n
  {
    var q := s / n;
    assert q * n == s;
    if q < 0.0 {
      MulStrictMonotone(n, q, 0.0);
    }
  }

  /** Squaring is strictly monotone on the non-negative reals. */
  lemma SquareStrictMonotone(s: real, x: real)
    requires 0.0 <= s < x
    ensures s * s < x * x
  {
    calc {
      s * s;
    <= { MulMonotone(s, s, x); }
      s * x;
    < { assert x * x - s * x == x * (x - s); MulStrictMonotone(x, 0.0, x - s); }
      x * x;
    }
  }

  /** Only zero squares to zero. */
  lemma SquareIsZero(a: real)
    ensures a * a == 0.0 <==> a == 0.0
  {
    if 0.0 < a {
      SquareStrictMonotone(0.0, a);
    } else if a < 0.0 {
      SquareStrictMonotone(0.0, -a);
      assert (-a) * (-a) == a * a;
    }
  }

  lemma SqrtZero(m: MathLib)
    requires m.Valid()
    ensures m.sqrt(0.0) == 0.0
  {
    var s := m.sqrt(0.0);
    assert 0.0 <= s && s * s == 0.0;
    if 0.0 < s {
      SquareStrictMonotone(0.0, s);
    }
  }

  /** The root of a square is the number itself. */
  lemma SqrtOfSquare(m: MathLib, x: real)
    requires m.Valid() && 0.0 <= x
    ensures m.sqrt(x * x) == x
  {
    MulNonneg(x, x);
    var s := m.sqrt(x * x);
    assert 0.0 <= s && s * s == x * x;
    if s < x {
      SquareStrictMonotone(s, x);
    } else if x < s {
      SquareStrictMonotone(x, s);
    }
  }

  /** The root vanishes exactly on zero. */
  lemma SqrtIsZero(m: MathLib, x: real)
    requires m.Valid() && 0.0 <= x
    ensures m.sqrt(x) == 0.0 <==> x == 0.0
  {
    SqrtZero(m);
    var s := m.sqrt(x);
    assert 0.0 <= s && s * s == x;
  }

  /** Comparing a root with a positive bound is comparing the radicand with
      the bound's square; this is how a distance threshold can be read. */
  lemma SqrtBelow(m: MathLib, x: real, bound: real)
    requires m.Valid() && 0.0 <= x && 0.0 < bound
    ensures m.sqrt(x) < bound <==> x < bound * bound
  {
    var s := m.sqrt(x);
    assert 0.0 <= s && s * s == x;
    if s < bound {
      SquareStrictMonotone(s, bound);
    } else if bound < s {
      SquareStrictMonotone(bound, s);
    }
  }

  /** The root is monotone. */
  lemma SqrtMonotone(m: MathLib, x: real, y: real)
    requires m.Valid() && 0.0 <= x <= y
    ensures m.sqrt(x) <= m.sqrt(y)
  {
    var s, t := m.sqrt(x), m.sqrt(y);
    assert 0.0 <= s && s * s == x && 0.0 <= t && t * t == y;
    if t < s {
      SquareStrictMonotone(t, s);
    }
  }

  /** Since acos is strictly decreasing, comparing acos(c) with the angle
      acos(k) is comparing k with c. */
  lemma AcosBelow(m: MathLib, c: real, k: real)
    requires m.Valid() && -1.0 <= c <= 1.0 && -1.0 <= k <= 1.0
    ensures m.acos(c) < m.acos(k) <==> k < c
  {
    if k < c {
    } else if c < k {
    } else {
    }
  }
}
