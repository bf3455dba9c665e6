/** A single agent of src/boid.cpp: its field-of-view bearing to another
    agent, the three classic steering forces over a neighbour list, the speed
    cap and the wrap-around move of Boid::update. */
module Boids {
  import opened CMath
  import opened Constants
  import opened Points

  datatype Species = Prey | Predator

  /** The value of an agent: what a copy of a Boid holds. */
  datatype BoidState = BoidState(position: Point, velocity: Point)

  // ---------------------------------------------------------------------
  // Bearing (Boid::angle)

  /** The bearing has no direction to measure when the agent stands still or
      the other agent sits at toroidal offset zero. */
  predicate Degenerate(m: MathLib, me: BoidState, other: BoidState) {
    Magnitude(m, me.velocity) == 0.0
    || Magnitude(m, RelativePosition(me.position, other.position)) == 0.0
  }

  /** The cosine of the angle between the velocity and the offset to the other
      agent, clamped to [-1, 1] against rounding. */
  function ClampedCosine(m: MathLib, me: BoidState, other: BoidState): real
    requires !Degenerate(m, me, other)
  {
    var delta := RelativePosition(me.position, other.position);
    var velMag := Magnitude(m, me.velocity);
    var deltaMag := Magnitude(m, delta);
    assert velMag * deltaMag != 0.0 by {
      if velMag * deltaMag == 0.0 { ProductIsZero(velMag, deltaMag); }
    }
    Clamp(-1.0, 1.0, Dot(me.velocity, delta) / (velMag * deltaMag))
  }

  /** Boid::angle: the unsigned angle between this agent's heading and the
      direction to the other agent. */
  function Angle(m: MathLib, me: BoidState, other: BoidState): real {
    if Degenerate(m, me, other) then 0.0 else m.acos(ClampedCosine(m, me, other))
  }

  lemma ProductIsZero(a: real, b: real)
    requires a * b == 0.0
    ensures a == 0.0 || b == 0.0
  {
    if a != 0.0 {
      assert b == (a * b) / a;
    }
  }

  /** The angle is 0 when the agent stands still or the other agent sits at
      offset zero, and otherwise lies in [0, pi]. */
  lemma AngleRange(m: MathLib, me: BoidState, other: BoidState)
    requires m.Valid()
    ensures me.velocity == Zero ==> Angle(m, me, other) == 0.0
    ensures RelativePosition(me.position, other.position) == Zero ==> Angle(m, me, other) == 0.0
    ensures 0.0 <= Angle(m, me, other) <= m.pi
  {
    MagnitudeIsZero(m, me.velocity);
    MagnitudeIsZero(m, RelativePosition(me.position, other.position));
    if !Degenerate(m, me, other) {
      var c := ClampedCosine(m, me, other);
      assert -1.0 <= c <= 1.0;
    }
  }

  /** Since acos is strictly decreasing, an angle below acos(k) is a clamped
      cosine above k; the two sight angles of the flock are acos(-1/2) = 2pi/3
      and acos(0) = pi/2. */
  lemma AngleBelowSight(m: MathLib, me: BoidState, other: BoidState)
    requires m.Valid() && !Degenerate(m, me, other)
    ensures Angle(m, me, other) < 2.0 / 3.0 * m.pi <==> ClampedCosine(m, me, other) > -0.5
    ensures Angle(m, me, other) < 0.5 * m.pi <==> ClampedCosine(m, me, other) > 0.0
  {
    var c := ClampedCosine(m, me, other);
    AcosBelow(m, c, -0.5);
    AcosBelow(m, c, 0.0);
  }

  /** A degenerate bearing is inside every positive sight angle. */
  lemma DegenerateAngleIsVisible(m: MathLib, me: BoidState, other: BoidState)
    requires m.Valid() && Degenerate(m, me, other)
    ensures Angle(m, me, other) < 0.5 * m.pi && Angle(m, me, other) < 2.0 / 3.0 * m.pi
  {
  }

  /** The clamped cosine is positive exactly when the other agent lies ahead,
      that is, its offset has a positive dot product with the velocity. */
  lemma ClampedCosinePositive(m: MathLib, me: BoidState, other: BoidState)
    requires m.Valid() && !Degenerate(m, me, other)
    ensures ClampedCosine(m, me, other) > 0.0 <==> Dot(me.velocity, RelativePosition(me.position, other.position)) > 0.0
  {
    var delta := RelativePosition(me.position, other.position);
    var a, b := Magnitude(m, me.velocity), Magnitude(m, delta);
    NormSqNonnegative(me.velocity);
    NormSqNonnegative(delta);
    assert 0.0 <= a && 0.0 <= b;
    var ab := a * b;
    assert 0.0 < ab by {
      MulNonneg(a, b);
      if ab == 0.0 { ProductIsZero(a, b); }
    }
    var d := Dot(me.velocity, delta);
    QuotientSign(d, ab);
  }

  lemma QuotientSign(d: real, q: real)
    requires 0.0 < q
    ensures d / q > 0.0 <==> d > 0.0
  {
    assert d == (d / q) * q;
    if d / q > 0.0 {
      MulStrictMonotone(q, 0.0, d / q);
    } else {
      MulMonotone(q, d / q, 0.0);
    }
  }

  // ---------------------------------------------------------------------
  // Steering forces over a neighbour list (the loop of Boid::update)

  /** Sum of relative_position(neighbour, self) over the neighbours at
      distance strictly below dist. */
  function SeparationSum(m: MathLib, self: Point, ns: seq<BoidState>, dist: real): Point
    decreases |ns|
  {
    if ns == [] then Zero
    else
      var rest := SeparationSum(m, self, ns[..|ns| - 1], dist);
      var away := RelativePosition(ns[|ns| - 1].position, self);
      if Magnitude(m, away) < dist then Add(rest, away) else rest
  }

  /** Sum of relative_position(self, neighbour). */
  function CohesionSum(self: Point, ns: seq<BoidState>): Point
    decreases |ns|
  {
    if ns == [] then Zero
    else Add(CohesionSum(self, ns[..|ns| - 1]), RelativePosition(self, ns[|ns| - 1].position))
  }

  /** Sum of the neighbours' velocities. */
  function VelocitySum(ns: seq<BoidState>): Point
    decreases |ns|
  {
    if ns == [] then Zero else Add(VelocitySum(ns[..|ns| - 1]), ns[|ns| - 1].velocity)
  }

  function Separation(m: MathLib, me: BoidState, ns: seq<BoidState>, dist: real, coeff: real): Point {
    if ns == [] then Zero else Scale(SeparationSum(m, me.position, ns, dist), coeff)
  }

  function Cohesion(me: BoidState, ns: seq<BoidState>, coeff: real): Point {
    if ns == [] then Zero else Scale(Div(CohesionSum(me.position, ns), |ns| as real), coeff)
  }

  function Alignment(me: BoidState, ns: seq<BoidState>, coeff: real): Point {
    if ns == [] then Zero
    else Scale(Sub(Div(VelocitySum(ns), |ns| as real), me.velocity), coeff)
  }

  /** The velocity of Boid::update before the speed cap. */
  function Steered(m: MathLib, me: BoidState, ns: seq<BoidState>,
                   sepDist: real, sepCoeff: real, cohCoeff: real, aliCoeff: real): Point
  {
    Add(Add(Add(me.velocity, Separation(m, me, ns, sepDist, sepCoeff)),
            Cohesion(me, ns, cohCoeff)),
        Alignment(me, ns, aliCoeff))
  }

  /** The speed cap: a velocity longer than MaxVelocity is rescaled to it. */
  function CapSpeed(m: MathLib, v: Point): Point {
    if Magnitude(m, v) > MaxVelocity then Scale(v, MaxVelocity / Magnitude(m, v)) else v
  }

  /** One wrap on one axis: below 0 gains an extent, at or past it loses one. */
  function WrapAxis(a: real, extent: real): real {
    if a < 0.0 then a + extent else if a >= extent then a - extent else a
  }

  function Wrap(p: Point): Point {
    Point(WrapAxis(p.x, WindowWidth), WrapAxis(p.y, WindowHeight))
  }

  /** The state Boid::update leaves behind. */
  function Updated(m: MathLib, me: BoidState, deltaT: real, ns: seq<BoidState>,
                   sepDist: real, sepCoeff: real, cohCoeff: real, aliCoeff: real): BoidState
  {
    var v := CapSpeed(m, Steered(m, me, ns, sepDist, sepCoeff, cohCoeff, aliCoeff));
    BoidState(Wrap(Add(me.position, Scale(v, deltaT))), v)
  }

  /** The half-open window the wrap keeps positions in. */
  predicate InsideWindow(p: Point) {
    0.0 <= p.x < WindowWidth && 0.0 <= p.y < WindowHeight
  }

  // ---------------------------------------------------------------------
  // Properties of the forces

  /** With no neighbours every force is zero and the velocity before the cap
      is the old velocity. */
  lemma EmptyNeighbourhood(m: MathLib, me: BoidState, sepDist: real, sepCoeff: real, cohCoeff: real, aliCoeff: real)
    ensures Separation(m, me, [], sepDist, sepCoeff) == Zero
    ensures Cohesion(me, [], cohCoeff) == Zero
    ensures Alignment(me, [], aliCoeff) == Zero
    ensures Steered(m, me, [], sepDist, sepCoeff, cohCoeff, aliCoeff) == me.velocity
  {
  }

  /** Separation sums are additive over concatenation. */
  lemma {:induction false} SeparationSumConcat(m: MathLib, self: Point, a: seq<BoidState>, b: seq<BoidState>, dist: real)
    ensures SeparationSum(m, self, a + b, dist) == Add(SeparationSum(m, self, a, dist), SeparationSum(m, self, b, dist))
    decreases |b|
  {
    if b == [] {
      assert a + b == a;
    } else {
      var b' := b[..|b| - 1];
      assert (a + b)[..|a + b| - 1] == a + b';
      assert (a + b)[|a + b| - 1] == b[|b| - 1];
      SeparationSumConcat(m, self, a, b', dist);
    }
  }

  /** A neighbour at distance dist or more contributes nothing, wherever it
      stands in the list. */
  lemma SeparationIgnoresDistant(m: MathLib, self: Point, a: seq<BoidState>, n: BoidState, b: seq<BoidState>, dist: real)
    requires Magnitude(m, RelativePosition(n.position, self)) >= dist
    ensures SeparationSum(m, self, a + [n] + b, dist) == SeparationSum(m, self, a + b, dist)
  {
    SeparationSumConcat(m, self, a + [n], b, dist);
    SeparationSumConcat(m, self, a, [n], dist);
    SeparationSumConcat(m, self, a, b, dist);
    assert [n][..0] == [];
  }

  /** When every neighbour is within the separation distance, separation pushes
      exactly against where cohesion pulls. */
  lemma {:induction false} SeparationOpposesCohesion(m: MathLib, self: Point, ns: seq<BoidState>, dist: real)
    requires forall k :: 0 <= k < |ns| ==> Magnitude(m, RelativePosition(ns[k].position, self)) < dist
    ensures SeparationSum(m, self, ns, dist) == Scale(CohesionSum(self, ns), -1.0)
    decreases |ns|
  {
    if ns != [] {
      var last := ns[|ns| - 1];
      SeparationOpposesCohesion(m, self, ns[..|ns| - 1], dist);
      RelativePositionAntisymmetric(self, last.position);
    }
  }

  lemma {:induction false} VelocitySumOfMatched(ns: seq<BoidState>, v: Point)
    requires forall k :: 0 <= k < |ns| ==> ns[k].velocity == v
    ensures VelocitySum(ns) == Scale(v, |ns| as real)
    decreases |ns|
  {
    if ns != [] {
      VelocitySumOfMatched(ns[..|ns| - 1], v);
    }
  }

  /** Neighbours that already fly with the agent's own velocity exert no
      alignment. */
  lemma AlignmentOfMatchedFlock(me: BoidState, ns: seq<BoidState>, coeff: real)
    requires forall k :: 0 <= k < |ns| ==> ns[k].velocity == me.velocity
    ensures Alignment(me, ns, coeff) == Zero
  {
    if ns != [] {
      VelocitySumOfMatched(ns, me.velocity);
      DivUndoesScale(me.velocity, |ns| as real);
    }
  }

  lemma {:induction false} CohesionSumOfCommonOffset(self: Point, ns: seq<BoidState>, d: Point)
    requires forall k :: 0 <= k < |ns| ==> RelativePosition(self, ns[k].position) == d
    ensures CohesionSum(self, ns) == Scale(d, |ns| as real)
    decreases |ns|
  {
    if ns != [] {
      CohesionSumOfCommonOffset(self, ns[..|ns| - 1], d);
    }
  }

  /** Cohesion steers toward the mean offset: neighbours all at offset d give
      coeff times d. */
  lemma CohesionOfCommonOffset(me: BoidState, ns: seq<BoidState>, d: Point, coeff: real)
    requires ns != []
    requires forall k :: 0 <= k < |ns| ==> RelativePosition(me.position, ns[k].position) == d
    ensures Cohesion(me, ns, coeff) == Scale(d, coeff)
  {
    CohesionSumOfCommonOffset(me.position, ns, d);
    DivUndoesScale(d, |ns| as real);
  }

  // ---------------------------------------------------------------------
  // Speed cap and wrap

  /** After the cap the speed is at most MaxVelocity, and the capped velocity
      is the old one scaled by a factor in (0, 1], so its heading is kept. */
  lemma CapSpeedBound(m: MathLib, v: Point)
    requires m.Valid()
    ensures Magnitude(m, CapSpeed(m, v)) <= MaxVelocity
    ensures exists k :: 0.0 < k <= 1.0 && CapSpeed(m, v) == Scale(v, k)
  {
    var s := Magnitude(m, v);
    if s > MaxVelocity {
      var k := MaxVelocity / s;
      assert k * s == MaxVelocity;
      assert 0.0 < k < 1.0 by {
        if k >= 1.0 { MulMonotone(s, 1.0, k); }
      }
      MagnitudeOfScale(m, v, k);
      assert CapSpeed(m, v) == Scale(v, k);
    } else {
      assert CapSpeed(m, v) == Scale(v, 1.0);
    }
  }

  /** Capping twice is capping once. */
  lemma CapSpeedIdempotent(m: MathLib, v: Point)
    requires m.Valid()
    ensures CapSpeed(m, CapSpeed(m, v)) == CapSpeed(m, v)
  {
    CapSpeedBound(m, v);
  }

  /** A coordinate at most one extent outside [0, extent) is brought inside by
      one wrap, which moves it by 0 or one extent. */
  lemma WrapAxisRange(a: real, extent: real)
    requires 0.0 < extent && -extent <= a < 2.0 * extent
    ensures 0.0 <= WrapAxis(a, extent) < extent
    ensures var r := WrapAxis(a, extent); r == a || r == a + extent || r == a - extent
  {
  }

  /** Boid::update keeps an agent in the window when its step is shorter than
      the window on each axis; each coordinate moves by the step, corrected by
      at most one extent. */
  lemma UpdatedStaysInWindow(m: MathLib, me: BoidState, deltaT: real, ns: seq<BoidState>,
                             sepDist: real, sepCoeff: real, cohCoeff: real, aliCoeff: real)
    requires InsideWindow(me.position)
    requires var step := Scale(Updated(m, me, deltaT, ns, sepDist, sepCoeff, cohCoeff, aliCoeff).velocity, deltaT);
      Abs(step.x) < WindowWidth && Abs(step.y) < WindowHeight
    ensures var r := Updated(m, me, deltaT, ns, sepDist, sepCoeff, cohCoeff, aliCoeff);
      InsideWindow(r.position)
    ensures var r := Updated(m, me, deltaT, ns, sepDist, sepCoeff, cohCoeff, aliCoeff);
      var moved := Add(me.position, Scale(r.velocity, deltaT));
      && (r.position.x == moved.x || r.position.x == moved.x + WindowWidth || r.position.x == moved.x - WindowWidth)
      && (r.position.y == moved.y || r.position.y == moved.y + WindowHeight || r.position.y == moved.y - WindowHeight)
  {
    var r := Updated(m, me, deltaT, ns, sepDist, sepCoeff, cohCoeff, aliCoeff);
    var moved := Add(me.position, Scale(r.velocity, deltaT));
    WrapAxisRange(moved.x, WindowWidth);
    WrapAxisRange(moved.y, WindowHeight);
  }

  /** Boid::update with no neighbours moves in a straight line at the capped
      old velocity. */
  lemma UpdatedAlone(m: MathLib, me: BoidState, deltaT: real, sepDist: real, sepCoeff: real, cohCoeff: real, aliCoeff: real)
    ensures var r := Updated(m, me, deltaT, [], sepDist, sepCoeff, cohCoeff, aliCoeff);
      r.velocity == CapSpeed(m, me.velocity) && r.position == Wrap(Add(me.position, Scale(r.velocity, deltaT)))
  {
    EmptyNeighbourhood(m, me, sepDist, sepCoeff, cohCoeff, aliCoeff);
  }

  // ---------------------------------------------------------------------
  // The agent object

  class Boid {
    const species: Species
    var position: Point
    var velocity: Point

    constructor (species: Species, position: Point, velocity: Point)
      ensures this.species == species && this.position == position && this.velocity == velocity
    {
      this.species := species;
      this.position := position;
      this.velocity := velocity;
    }

    function State(): BoidState
      reads this
    {
      BoidState(position, velocity)
    }

    /** Overwrites both fields, as the flock's commit step does. */
    method SetBoid(p: Point, v: Point)
      modifies this
      ensures position == p && velocity == v
    {
      position := p;
      velocity := v;
    }

    /** Boid::update: accumulate the three forces over the neighbours, cap the
        speed, move by velocity * deltaT and wrap once per axis. */
    method Update(m: MathLib, deltaT: real, neighbors: seq<BoidState>,
                  sepDist: real, sepCoeff: real, cohCoeff: real, aliCoeff: real)
      requires deltaT >= 0.0
      modifies this
      ensures State() == Updated(m, old(State()), deltaT, neighbors, sepDist, sepCoeff, cohCoeff, aliCoeff)
    {
      ghost var me := State();
      var separationForce := Zero;
      var cohesionForce := Zero;
      var alignmentForce := Zero;

      if neighbors != [] {
        var k := 0;
        while k < |neighbors|
          invariant 0 <= k <= |neighbors|
          invariant separationForce == SeparationSum(m, position, neighbors[..k], sepDist)
          invariant cohesionForce == CohesionSum(position, neighbors[..k])
          invariant alignmentForce == VelocitySum(neighbors[..k])
        {
          var neighbor := neighbors[k];
          assert neighbors[..k + 1][..k] == neighbors[..k];
          var dist := Magnitude(m, RelativePosition(neighbor.position, position));
          if dist < sepDist {
            separationForce := Add(separationForce, RelativePosition(neighbor.position, position));
          }
          cohesionForce := Add(cohesionForce, RelativePosition(position, neighbor.position));
          alignmentForce := Add(alignmentForce, neighbor.velocity);
          k := k + 1;
        }
        assert neighbors[..k] == neighbors;
        cohesionForce := Scale(Div(cohesionForce, |neighbors| as real), cohCoeff);
        alignmentForce := Scale(Sub(Div(alignmentForce, |neighbors| as real), velocity), aliCoeff);
        separationForce := Scale(separationForce, sepCoeff);
      }

      velocity := Add(Add(Add(velocity, separationForce), cohesionForce), alignmentForce);

      if Magnitude(m, velocity) > MaxVelocity {
        velocity := Scale(velocity, MaxVelocity / Magnitude(m, velocity));
      }

      position := Add(position, Scale(velocity, deltaT));

      if position.x < 0.0 {
        position := position.(x := position.x + WindowWidth);
      } else if position.x >= WindowWidth {
        position := position.(x := position.x - WindowWidth);
      }

      if position.y < 0.0 {
        position := position.(y := position.y + WindowHeight);
      } else if position.y >= WindowHeight {
        position := position.(y := position.y - WindowHeight);
      }
    }

    /** Prey::update delegates to Boid::update. */
    method UpdateAsPrey(m: MathLib, deltaT: real, neighbors: seq<BoidState>,
                        sepDist: real, sepCoeff: real, cohCoeff: real, aliCoeff: real)
      requires species == Prey && deltaT >= 0.0
      modifies this
      ensures State() == Updated(m, old(State()), deltaT, neighbors, sepDist, sepCoeff, cohCoeff, aliCoeff)
    {
      Update(m, deltaT, neighbors, sepDist, sepCoeff, cohCoeff, aliCoeff);
    }

    /** Predator::update delegates to Boid::update. */
    method UpdateAsPredator(m: MathLib, deltaT: real, neighbors: seq<BoidState>,
                            sepDist: real, sepCoeff: real, cohCoeff: real, aliCoeff: real)
      requires species == Predator && deltaT >= 0.0
      modifies this
      ensures State() == Updated(m, old(State()), deltaT, neighbors, sepDist, sepCoeff, cohCoeff, aliCoeff)
    {
      Update(m, deltaT, neighbors, sepDist, sepCoeff, cohCoeff, aliCoeff);
    }
  }
}
