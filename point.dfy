/** The 2D vector of src/point.cpp: component-wise arithmetic, magnitudes,
    and the shortest displacement between two points of the wrap-around
    window together with its length. */
module Points {
  import opened CMath
  import opened Constants

  datatype Point = Point(x: real, y: real)

  const Zero: Point := Point(0.0, 0.0)

  function Add(a: Point, b: Point): Point {
    Point(a.x + b.x, a.y + b.y)
  }

  function Sub(a: Point, b: Point): Point {
    Point(a.x - b.x, a.y - b.y)
  }

  /** operator*(Point, double) */
  function Scale(p: Point, c: real): Point {
    Point(p.x * c, p.y * c)
  }

  /** operator/(Point, double) asserts a non-zero divisor. */
  function Div(p: Point, c: real): Point
    requires c != 0.0
  {
    Point(p.x / c, p.y / c)
  }

  /** operator==: both coordinates compare equal. */
  function Equals(p: Point, q: Point): bool {
    p.x == q.x && p.y == q.y
  }

  function Dot(a: Point, b: Point): real {
    a.x * b.x + a.y * b.y
  }

  function NormSq(p: Point): real {
    p.x * p.x + p.y * p.y
  }

  /** Point::distance(): the distance from the origin. */
  function Magnitude(m: MathLib, p: Point): real {
    m.sqrt(NormSq(p))
  }

  /** Point::distance(other): the Euclidean distance, ignoring the wrap. */
  function DistanceTo(m: MathLib, p: Point, other: Point): real {
    m.sqrt(NormSq(Sub(p, other)))
  }

  /** One axis of relative_position: a raw difference beyond half the extent
      is brought back by one extent. */
  function WrapDelta(delta: real, extent: real): real {
    if delta > extent / 2.0 then delta - extent
    else if delta < -(extent / 2.0) then delta + extent
    else delta
  }

  /** relative_position(p1, p2): the displacement p2 - p1 on the torus. */
  function RelativePosition(p1: Point, p2: Point): Point {
    Point(WrapDelta(p2.x - p1.x, WindowWidth), WrapDelta(p2.y - p1.y, WindowHeight))
  }

  /** The region toroidal_distance asserts its arguments lie in. */
  predicate InWindow(p: Point) {
    0.0 <= p.x <= WindowWidth && 0.0 <= p.y <= WindowHeight
  }

  /** toroidal_distance(p): the wrap-around distance from the origin. */
  function ToroidalDistanceFromOrigin(m: MathLib, p: Point): real
    requires InWindow(p)
  {
    Magnitude(m, RelativePosition(Zero, p))
  }

  /** toroidal_distance(p, q) */
  function ToroidalDistance(m: MathLib, p: Point, q: Point): real
    requires InWindow(p) && InWindow(q)
  {
    Magnitude(m, RelativePosition(p, q))
  }

  // ---------------------------------------------------------------------
  // Arithmetic

  lemma AddCommutes(a: Point, b: Point)
    ensures Add(a, b) == Add(b, a)
  {
  }

  lemma ScaleByZero(p: Point)
    ensures Scale(p, 0.0) == Zero
  {
  }

  /** Division by c undoes multiplication by c. */
  lemma DivUndoesScale(p: Point, c: real)
    requires c != 0.0
    ensures Div(Scale(p, c), c) == p
  {
  }

  lemma EqualsIsEquality(p: Point, q: Point)
    ensures Equals(p, q) <==> p == q
  {
  }

  lemma NormSqNonnegative(p: Point)
    ensures 0.0 <= NormSq(p)
  {
    MulNonneg(Abs(p.x), Abs(p.x));
    MulNonneg(Abs(p.y), Abs(p.y));
    assert p.x * p.x == Abs(p.x) * Abs(p.x) && p.y * p.y == Abs(p.y) * Abs(p.y);
  }

  /** Scaling a vector by c scales its squared length by c * c, and its
      length by |c|. */
  lemma MagnitudeOfScale(m: MathLib, p: Point, c: real)
    requires m.Valid()
    ensures NormSq(Scale(p, c)) == c * c * NormSq(p)
    ensures Magnitude(m, Scale(p, c)) == Abs(c) * Magnitude(m, p)
  {
    NormSqNonnegative(p);
    var s := Magnitude(m, p);
    assert 0.0 <= s && s * s == NormSq(p);
    var k := Abs(c) * s;
    MulNonneg(Abs(c), s);
    assert c * c == Abs(c) * Abs(c);
    assert NormSq(Scale(p, c)) == c * c * NormSq(p);
    calc {
      c * c * NormSq(p);
      Abs(c) * Abs(c) * (s * s);
      k * k;
    }
    SqrtOfSquare(m, k);
  }

  lemma MagnitudeIsZero(m: MathLib, p: Point)
    requires m.Valid()
    ensures Magnitude(m, p) == 0.0 <==> p == Zero
  {
    MulNonneg(Abs(p.x), Abs(p.x));
    MulNonneg(Abs(p.y), Abs(p.y));
    assert p.x * p.x == Abs(p.x) * Abs(p.x) && p.y * p.y == Abs(p.y) * Abs(p.y);
    SqrtIsZero(m, NormSq(p));
    SquareIsZero(p.x);
    SquareIsZero(p.y);
  }

  /** Point::distance(other) is the magnitude of the difference, and does
      not depend on the order of its arguments. */
  lemma DistanceToIsMagnitudeOfDifference(m: MathLib, p: Point, q: Point)
    ensures DistanceTo(m, p, q) == Magnitude(m, Sub(p, q))
    ensures DistanceTo(m, p, q) == DistanceTo(m, q, p)
  {
    assert (p.x - q.x) * (p.x - q.x) == (q.x - p.x) * (q.x - p.x);
    assert (p.y - q.y) * (p.y - q.y) == (q.y - p.y) * (q.y - p.y);
    assert NormSq(Sub(p, q)) == NormSq(Sub(q, p));
  }

  // ---------------------------------------------------------------------
  // Toroidal displacement

  lemma RelativePositionToSelf(m: MathLib, p: Point)
    ensures RelativePosition(p, p) == Zero
    ensures m.Valid() && InWindow(p) ==> ToroidalDistance(m, p, p) == 0.0
  {
    if m.Valid() {
      SqrtZero(m);
    }
  }

  /** Each axis of the displacement is the raw difference corrected by 0, +extent
      or -extent, and never longer than the raw difference. */
  lemma WrapDeltaShift(delta: real, extent: real)
    requires 0.0 < extent
    ensures var r := WrapDelta(delta, extent);
      (r == delta || r == delta - extent || r == delta + extent) && Abs(r) <= Abs(delta)
  {
  }

  lemma RelativePositionShift(p: Point, q: Point)
    ensures var r := RelativePosition(p, q);
      && (r.x == q.x - p.x || r.x == q.x - p.x - WindowWidth || r.x == q.x - p.x + WindowWidth)
      && (r.y == q.y - p.y || r.y == q.y - p.y - WindowHeight || r.y == q.y - p.y + WindowHeight)
      && Abs(r.x) <= Abs(q.x - p.x) && Abs(r.y) <= Abs(q.y - p.y)
  {
    WrapDeltaShift(q.x - p.x, WindowWidth);
    WrapDeltaShift(q.y - p.y, WindowHeight);
  }

  /** For points of the window, the displacement lies within half an extent
      on each axis. */
  lemma RelativePositionBounds(p: Point, q: Point)
    requires InWindow(p) && InWindow(q)
    ensures var r := RelativePosition(p, q);
      && -(WindowWidth / 2.0) <= r.x <= WindowWidth / 2.0
      && -(WindowHeight / 2.0) <= r.y <= WindowHeight / 2.0
  {
  }

  /** Swapping the endpoints negates the displacement, on every pair of
      points; the tie at exactly half an extent keeps its sign on both sides. */
  lemma RelativePositionAntisymmetric(p: Point, q: Point)
    ensures RelativePosition(q, p) == Scale(RelativePosition(p, q), -1.0)
  {
  }

  lemma ToroidalDistanceSymmetric(m: MathLib, p: Point, q: Point)
    requires InWindow(p) && InWindow(q)
    ensures ToroidalDistance(m, p, q) == ToroidalDistance(m, q, p)
  {
    RelativePositionAntisymmetric(p, q);
    var r := RelativePosition(p, q);
    assert NormSq(Scale(r, -1.0)) == NormSq(r);
  }

  /** The one-argument form measures from the origin. */
  lemma ToroidalDistanceFromOriginIsDistanceToZero(m: MathLib, p: Point)
    requires InWindow(p)
    ensures InWindow(Zero)
    ensures ToroidalDistanceFromOrigin(m, p) == ToroidalDistance(m, Zero, p)
  {
  }

  /** The wrap-around distance never exceeds the plain distance. */
  lemma ToroidalDistanceAtMostPlain(m: MathLib, p: Point, q: Point)
    requires m.Valid() && InWindow(p) && InWindow(q)
    ensures 0.0 <= ToroidalDistance(m, p, q) <= DistanceTo(m, q, p)
  {
    var r := RelativePosition(p, q);
    var d := Sub(q, p);
    RelativePositionShift(p, q);
    SquareMonotone(r.x, d.x);
    SquareMonotone(r.y, d.y);
    SumMonotone(r.x * r.x, d.x * d.x, r.y * r.y, d.y * d.y);
    NormSqNonnegative(r);
    SqrtMonotone(m, NormSq(r), NormSq(d));
  }

  /** Nor does it exceed the half-diagonal of the window. */
  lemma ToroidalDistanceAtMostHalfDiagonal(m: MathLib, p: Point, q: Point)
    requires m.Valid() && InWindow(p) && InWindow(q)
    ensures ToroidalDistance(m, p, q) <= Magnitude(m, Point(WindowWidth / 2.0, WindowHeight / 2.0))
  {
    var r := RelativePosition(p, q);
    var h := Point(WindowWidth / 2.0, WindowHeight / 2.0);
    RelativePositionBounds(p, q);
    SquareMonotone(r.x, h.x);
    SquareMonotone(r.y, h.y);
    SumMonotone(r.x * r.x, h.x * h.x, r.y * r.y, h.y * h.y);
    NormSqNonnegative(r);
    SqrtMonotone(m, NormSq(r), NormSq(h));
  }

  lemma SumMonotone(a: real, b: real, c: real, d: real)
    requires a <= b && c <= d
    ensures a + c <= b + d
  {
  }

  lemma SquareMonotone(a: real, b: real)
    requires Abs(a) <= Abs(b)
    ensures a * a <= b * b
  {
    assert a * a == Abs(a) * Abs(a) && b * b == Abs(b) * Abs(b);
    assert Abs(a) * Abs(a) <= Abs(a) * Abs(b) <= Abs(b) * Abs(b);
  }

  /** Figures of src/test.cpp, as squared distances: (1010, 250) is 190 to the
      left of the origin across the edge, and (330, 120) to (1010, 250) is
      520 across the edge. */
  lemma ToroidalTestFigures()
    ensures NormSq(RelativePosition(Zero, Point(1010.0, 250.0))) == 190.0 * 190.0 + 250.0 * 250.0
    ensures NormSq(RelativePosition(Point(330.0, 120.0), Point(1010.0, 250.0))) == 520.0 * 520.0 + 130.0 * 130.0
    ensures NormSq(RelativePosition(Point(330.0, 120.0), Point(940.0, 730.0))) == 590.0 * 590.0 + 190.0 * 190.0
  {
  }
}
