/** The flock engine of src/flock.cpp: two populations of agents, prey and
    predators, the neighbour queries that filter them by radius and field of
    view, the per-agent velocity rule, the two-phase tick that computes every
    new state before writing any, population generation, statistics and the
    flight-parameter rule.

    The specification layer works on a World snapshot of values; the Flock
    class holds the agents as Boid objects (the shared pointers of the
    source) and its methods are proved against that layer. */
module Flocks {
  import opened CMath
  import opened Constants
  import opened Points
  import opened Boids
  import opened FlockStatistics

  /** The steering coefficients of a flock: separation, alignment and
      cohesion weights, and the prey's repulsion and the predators' chase. */
  datatype FlightParameters = FlightParameters(separation: real, alignment: real, cohesion: real, repulsion: real, chase: real)

  /** The minimum and maximum speeds that boost and friction hold each
      species to. */
  datatype SpeedLimits = SpeedLimits(preyMin: real, preyMax: real, predatorMin: real, predatorMax: real)

  const DefaultFlightParameters: FlightParameters := FlightParameters(0.1, 0.1, 0.004, 0.6, 0.008)
  const DefaultSpeedLimits: SpeedLimits := SpeedLimits(7.0, 12.0, 5.0, 8.0)

  /** Radius within which agents are neighbours, and the separation radii. */
  const BoidsDis: real := 75.0
  const PreySep: real := 20.0
  const PredatorSep: real := BoidsDis * 0.5

  /** The margin factor a predator passes to its border rule. */
  const BorderFactor: real := 0.05

  /** Half-width of the field of view: 2 pi / 3 for prey, pi / 2 for predators. */
  function SightAngle(m: MathLib, isPrey: bool): real {
    if isPrey then 2.0 / 3.0 * m.pi else 0.5 * m.pi
  }

  /** The steering rules flock.cpp calls on an agent but whose definitions
      are not part of this model: each is a function of the agent's own state
      and of the arguments it is given. */
  datatype Rules = Rules(
    repel: (BoidState, real, seq<BoidState>) -> Point,
    chase: (BoidState, real, seq<BoidState>) -> Point,
    boost: (BoidState, real, Point) -> Point,
    friction: (BoidState, real, Point) -> Point,
    border: (BoidState, real, real) -> Point)

  datatype Result<T> = Ok(value: T) | DomainError

  // ---------------------------------------------------------------------
  // Snapshots

  /** The states of both populations at one instant. */
  datatype World = World(prey: seq<BoidState>, predators: seq<BoidState>)

  function Population(w: World, isPrey: bool): seq<BoidState> {
    if isPrey then w.prey else w.predators
  }

  predicate AllInWindow(s: seq<BoidState>) {
    forall k :: 0 <= k < |s| ==> InWindow(s[k].position)
  }

  /** Where toroidal_distance's asserts hold for every pair of agents. */
  predicate WorldInWindow(w: World) {
    AllInWindow(w.prey) && AllInWindow(w.predators)
  }

  /** What toroidal_distance's asserts demand of one neighbour query: the
      querier me and every candidate but the skipped one are in the window.
      A query that compares me with nobody demands nothing. */
  predicate Comparable(me: BoidState, targets: seq<BoidState>, skip: int) {
    forall k :: 0 <= k < |targets| && k != skip ==> InWindow(me.position) && InWindow(targets[k].position)
  }

  /** What a tick's queries demand of a snapshot: every agent in the window,
      unless the world holds a single agent, which is compared with nobody. */
  predicate QueriesInWindow(w: World) {
    |w.prey| + |w.predators| >= 2 ==> WorldInWindow(w)
  }

  /** The states of a list of agents, in order. */
  function States(bs: seq<Boid>): (r: seq<BoidState>)
    reads bs
    ensures |r| == |bs|
    ensures forall k :: 0 <= k < |bs| ==> r[k] == bs[k].State()
  {
    seq(|bs|, k requires 0 <= k < |bs| reads bs => bs[k].State())
  }

  /** The elements of s at the positions idx, in the order of idx. */
  function Select<T>(s: seq<T>, idx: seq<nat>): (r: seq<T>)
    requires forall k :: 0 <= k < |idx| ==> idx[k] < |s|
    ensures |r| == |idx| && forall k :: 0 <= k < |idx| ==> r[k] == s[idx[k]]
  {
    seq(|idx|, k requires 0 <= k < |idx| => s[idx[k]])
  }

  lemma SelectAppend<T>(s: seq<T>, idx: seq<nat>, j: nat)
    requires forall k :: 0 <= k < |idx| ==> idx[k] < |s|
    requires j < |s|
    ensures Select(s, idx + [j]) == Select(s, idx) + [s[j]]
  {
    assert forall k :: 0 <= k < |idx| ==> (idx + [j])[k] == idx[k];
  }

  lemma StatesOfSelect(bs: seq<Boid>, idx: seq<nat>)
    requires forall k :: 0 <= k < |idx| ==> idx[k] < |bs|
    ensures States(Select(bs, idx)) == Select(States(bs), idx)
  {
  }

  // ---------------------------------------------------------------------
  // Neighbour queries

  /** The test nearPrey and nearPredators apply to each candidate: within
      the radius on the torus, and inside the field of view. */
  predicate Sees(m: MathLib, me: BoidState, other: BoidState, sight: real)
    requires InWindow(me.position) && InWindow(other.position)
  {
    ToroidalDistance(m, me.position, other.position) < BoidsDis && Abs(Angle(m, me, other)) < sight
  }

  /** For each target, whether me sees it; the skipped target is never
      compared. */
  function Seen(m: MathLib, me: BoidState, targets: seq<BoidState>, skip: int, sight: real): (r: seq<bool>)
    requires Comparable(me, targets, skip)
    ensures |r| == |targets|
  {
    seq(|targets|, k requires 0 <= k < |targets| => k != skip && Sees(m, me, targets[k], sight))
  }

  /** The indices j < n, other than skip, with seen[j], in increasing order. */
  function Scan(seen: seq<bool>, skip: int, n: nat): (r: seq<nat>)
    requires n <= |seen|
    ensures forall k :: 0 <= k < |r| ==> r[k] < n
    decreases n, 0
  {
    if n == 0 then [] else Extend(seen, skip, n - 1)
  }

  /** Scan over the first j candidates, followed by j itself when j is not
      skipped and is seen. */
  function Extend(seen: seq<bool>, skip: int, j: nat): (r: seq<nat>)
    requires j < |seen|
    ensures forall k :: 0 <= k < |r| ==> r[k] <= j
    decreases j, 1
  {
    var r := Scan(seen, skip, j);
    if j != skip && seen[j] then r + [j] else r
  }

  /** One more candidate: Scan over n + 1 candidates extends Scan over n by n
      exactly when n is not skipped and is seen. */
  lemma ScanStep(seen: seq<bool>, skip: int, n: nat)
    requires n < |seen|
    ensures Scan(seen, skip, n + 1) ==
      if n != skip && seen[n] then Scan(seen, skip, n) + [n] else Scan(seen, skip, n)
  {
  }

  /** Everything Scan returns is below n, not skip, and seen. */
  lemma {:induction false} ScanSound(seen: seq<bool>, skip: int, n: nat)
    requires n <= |seen|
    ensures var r := Scan(seen, skip, n);
      forall k :: 0 <= k < |r| ==> r[k] != skip && seen[r[k]]
  {
    if n > 0 {
      ScanSound(seen, skip, n - 1);
      ScanStep(seen, skip, n - 1);
      var r := Scan(seen, skip, n - 1);
      assert forall k :: 0 <= k < |r| ==> (r + [n - 1])[k] == r[k];
    }
  }

  /** Scan keeps the order of the candidates. */
  lemma {:induction false} ScanIncreasing(seen: seq<bool>, skip: int, n: nat)
    requires n <= |seen|
    ensures var r := Scan(seen, skip, n);
      forall k, l :: 0 <= k < l < |r| ==> r[k] < r[l]
  {
    if n > 0 {
      ScanIncreasing(seen, skip, n - 1);
      ScanStep(seen, skip, n - 1);
      var r := Scan(seen, skip, n - 1);
      assert forall k :: 0 <= k < |r| ==> (r + [n - 1])[k] == r[k];
    }
  }

  /** Scan misses no seen, unskipped index below n. */
  lemma {:induction false} ScanComplete(seen: seq<bool>, skip: int, n: nat)
    requires n <= |seen|
    ensures var r := Scan(seen, skip, n);
      forall j :: 0 <= j < n && j != skip && seen[j] ==> j in r
  {
    if n > 0 {
      ScanComplete(seen, skip, n - 1);
    }
  }

  /** Scan returns at most n indices, one fewer when skip is below n. */
  lemma {:induction false} ScanLength(seen: seq<bool>, skip: int, n: nat)
    requires n <= |seen|
    ensures |Scan(seen, skip, n)| <= if 0 <= skip < n then n - 1 else n
  {
    if n > 0 {
      ScanLength(seen, skip, n - 1);
    }
  }

  /** Scan returns exactly the seen, unskipped indices below n, in strictly
      increasing order: an order-preserving sub-list of the candidates. */
  lemma ScanIsFilter(seen: seq<bool>, skip: int, n: nat)
    requires n <= |seen|
    ensures var r := Scan(seen, skip, n);
      && (forall k :: 0 <= k < |r| ==> r[k] != skip && seen[r[k]])
      && (forall k, l :: 0 <= k < l < |r| ==> r[k] < r[l])
      && (forall j :: 0 <= j < n && j != skip && seen[j] ==> j in r)
      && |r| <= if 0 <= skip < n then n - 1 else n
  {
    ScanSound(seen, skip, n);
    ScanIncreasing(seen, skip, n);
    ScanComplete(seen, skip, n);
    ScanLength(seen, skip, n);
  }

  /** The prey agent i of the given species sees: flock.cpp nearPrey. A prey
      skips itself; a predator scans every prey. */
  function NearPreyIndices(m: MathLib, w: World, i: nat, isPrey: bool): (r: seq<nat>)
    requires i < |Population(w, isPrey)| && Comparable(Population(w, isPrey)[i], w.prey, if isPrey then i else -1)
    ensures forall k :: 0 <= k < |r| ==> r[k] < |w.prey|
  {
    Scan(Seen(m, Population(w, isPrey)[i], w.prey, if isPrey then i else -1, SightAngle(m, isPrey)), if isPrey then i else -1, |w.prey|)
  }

  /** The predators agent i sees: flock.cpp nearPredators. A predator skips
      itself; a prey scans every predator. */
  function NearPredatorIndices(m: MathLib, w: World, i: nat, isPrey: bool): (r: seq<nat>)
    requires i < |Population(w, isPrey)| && Comparable(Population(w, isPrey)[i], w.predators, if isPrey then -1 else i)
    ensures forall k :: 0 <= k < |r| ==> r[k] < |w.predators|
  {
    Scan(Seen(m, Population(w, isPrey)[i], w.predators, if isPrey then -1 else i, SightAngle(m, isPrey)), if isPrey then -1 else i, |w.predators|)
  }

  /** nearPrey(i, true) never returns prey i while nearPrey(i, false) scans
      every prey; every returned neighbour is seen with the querying
      species' sight angle; the indices are increasing. */
  lemma NearPreyIsFilter(m: MathLib, w: World, i: nat, isPrey: bool)
    requires i < |Population(w, isPrey)| && Comparable(Population(w, isPrey)[i], w.prey, if isPrey then i else -1)
    ensures var r := NearPreyIndices(m, w, i, isPrey);
      var me := Population(w, isPrey)[i];
      && (forall k :: 0 <= k < |r| ==> !(isPrey && r[k] == i) && Sees(m, me, w.prey[r[k]], SightAngle(m, isPrey)))
      && (forall k, l :: 0 <= k < l < |r| ==> r[k] < r[l])
      && (isPrey ==> i !in r && |r| <= |w.prey| - 1)
      && (forall j :: 0 <= j < |w.prey| && !(isPrey && j == i) && Sees(m, me, w.prey[j], SightAngle(m, isPrey)) ==> j in r)
  {
    ScanIsFilter(Seen(m, Population(w, isPrey)[i], w.prey, if isPrey then i else -1, SightAngle(m, isPrey)), if isPrey then i else -1, |w.prey|);
  }

  /** The same for nearPredators, with the roles of the species swapped. */
  lemma NearPredatorsIsFilter(m: MathLib, w: World, i: nat, isPrey: bool)
    requires i < |Population(w, isPrey)| && Comparable(Population(w, isPrey)[i], w.predators, if isPrey then -1 else i)
    ensures var r := NearPredatorIndices(m, w, i, isPrey);
      var me := Population(w, isPrey)[i];
      && (forall k :: 0 <= k < |r| ==> !(!isPrey && r[k] == i) && Sees(m, me, w.predators[r[k]], SightAngle(m, isPrey)))
      && (forall k, l :: 0 <= k < l < |r| ==> r[k] < r[l])
      && (!isPrey ==> i !in r && |r| <= |w.predators| - 1)
      && (forall j :: 0 <= j < |w.predators| && !(!isPrey && j == i) && Sees(m, me, w.predators[j], SightAngle(m, isPrey)) ==> j in r)
  {
    ScanIsFilter(Seen(m, Population(w, isPrey)[i], w.predators, if isPrey then -1 else i, SightAngle(m, isPrey)), if isPrey then -1 else i, |w.predators|);
  }

  /** What seeing means in coordinates: the squared wrap-around displacement
      is below 75 * 75, and the other agent is either at a degenerate bearing
      or less than 120 degrees off the heading (prey), strictly ahead of the
      heading (predators). */
  lemma SeesCharacterised(m: MathLib, me: BoidState, other: BoidState, isPrey: bool)
    requires m.Valid() && InWindow(me.position) && InWindow(other.position)
    ensures var d := RelativePosition(me.position, other.position);
      Sees(m, me, other, SightAngle(m, isPrey)) <==>
        && NormSq(d) < BoidsDis * BoidsDis
        && (|| Degenerate(m, me, other)
            || (isPrey && ClampedCosine(m, me, other) > -0.5)
            || (!isPrey && Dot(me.velocity, d) > 0.0))
  {
    var d := RelativePosition(me.position, other.position);
    NormSqNonnegative(d);
    SqrtBelow(m, NormSq(d), BoidsDis);
    AngleRange(m, me, other);
    if Degenerate(m, me, other) {
      DegenerateAngleIsVisible(m, me, other);
    } else {
      AngleBelowSight(m, me, other);
      ClampedCosinePositive(m, me, other);
    }
  }

  /** A query compares me with each unskipped candidate k. */
  lemma ComparableAt(me: BoidState, targets: seq<BoidState>, skip: int, k: nat)
    requires Comparable(me, targets, skip) && k < |targets| && k != skip
    ensures InWindow(me.position) && InWindow(targets[k].position)
  {
  }

  /** A snapshot that meets QueriesInWindow lets every agent run both of
      its neighbour queries. */
  lemma QueriesComparable(w: World, i: nat, isPrey: bool)
    requires QueriesInWindow(w) && i < |Population(w, isPrey)|
    ensures Comparable(Population(w, isPrey)[i], w.prey, if isPrey then i else -1)
    ensures Comparable(Population(w, isPrey)[i], w.predators, if isPrey then -1 else i)
  {
  }

  /** Conversely, when every agent can run both of its queries the snapshot
      meets QueriesInWindow: it asks no more than the queries do. */
  lemma QueriesInWindowIsExact(w: World)
    requires forall i :: 0 <= i < |w.prey| ==>
      Comparable(w.prey[i], w.prey, i) && Comparable(w.prey[i], w.predators, -1)
    requires forall i :: 0 <= i < |w.predators| ==>
      Comparable(w.predators[i], w.prey, -1) && Comparable(w.predators[i], w.predators, i)
    ensures QueriesInWindow(w)
  {
    if |w.prey| + |w.predators| >= 2 {
      forall j | 0 <= j < |w.prey|
        ensures InWindow(w.prey[j].position)
      {
        if |w.predators| > 0 {
          ComparableAt(w.prey[j], w.predators, -1, 0);
        } else {
          var k := if j == 0 then 1 else 0;
          ComparableAt(w.prey[k], w.prey, k, j);
        }
      }
      forall j | 0 <= j < |w.predators|
        ensures InWindow(w.predators[j].position)
      {
        if |w.prey| > 0 {
          ComparableAt(w.predators[j], w.prey, -1, 0);
        } else {
          var k := if j == 0 then 1 else 0;
          ComparableAt(w.predators[k], w.predators, k, j);
        }
      }
    }
  }

  // ---------------------------------------------------------------------
  // One agent's next state (updateBoid)

  /** A prey's velocity: repulsion if any predator is near, then separation,
      alignment and cohesion if any prey is near, then boost and friction. */
  function PreyVelocity(m: MathLib, rules: Rules, fp: FlightParameters, sl: SpeedLimits,
                        me: BoidState, nearPrey: seq<BoidState>, nearPredators: seq<BoidState>): Point
  {
    var v1 := if nearPredators != [] then Add(me.velocity, rules.repel(me, fp.repulsion, nearPredators)) else me.velocity;
    var v2 := if nearPrey != []
      then Add(v1, Add(Add(Separation(m, me, nearPrey, PreySep, fp.separation), Alignment(me, nearPrey, fp.alignment)),
                       Cohesion(me, nearPrey, fp.cohesion)))
      else v1;
    rules.friction(me, sl.preyMax, rules.boost(me, sl.preyMin, v2))
  }

  /** A predator's velocity: its border rule, then separation from near
      predators, then the chase of near prey, then boost and friction. */
  function PredatorVelocity(m: MathLib, rules: Rules, fp: FlightParameters, sl: SpeedLimits,
                            me: BoidState, nearPrey: seq<BoidState>, nearPredators: seq<BoidState>): Point
  {
    var v0 := rules.border(me, BoidsDis, BorderFactor);
    var v1 := if nearPredators != [] then Add(v0, Separation(m, me, nearPredators, PredatorSep, fp.separation)) else v0;
    var v2 := if nearPrey != [] then Add(v1, rules.chase(me, fp.chase, nearPrey)) else v1;
    rules.friction(me, sl.predatorMax, rules.boost(me, sl.predatorMin, v2))
  }

  /** updateBoid(i, isPrey) evaluated on the snapshot w. */
  function NextState(m: MathLib, rules: Rules, fp: FlightParameters, sl: SpeedLimits,
                     w: World, i: nat, isPrey: bool, dt: real): (r: BoidState)
    requires QueriesInWindow(w) && i < |Population(w, isPrey)|
  {
    QueriesComparable(w, i, isPrey);
    var me := Population(w, isPrey)[i];
    var nearPrey := Select(w.prey, NearPreyIndices(m, w, i, isPrey));
    var nearPredators := Select(w.predators, NearPredatorIndices(m, w, i, isPrey));
    var v := if isPrey then PreyVelocity(m, rules, fp, sl, me, nearPrey, nearPredators)
             else PredatorVelocity(m, rules, fp, sl, me, nearPrey, nearPredators);
    BoidState(Add(me.position, Scale(v, dt)), v)
  }

  /** The new position is the old one moved by dt times the new velocity,
      with no wrap; and the forces a prey feels come only from what it sees. */
  lemma NextStateMoves(m: MathLib, rules: Rules, fp: FlightParameters, sl: SpeedLimits,
                       w: World, i: nat, isPrey: bool, dt: real)
    requires QueriesInWindow(w) && i < |Population(w, isPrey)|
    ensures var r := NextState(m, rules, fp, sl, w, i, isPrey, dt);
      r.position == Add(Population(w, isPrey)[i].position, Scale(r.velocity, dt))
    ensures isPrey && NearPreyIndices(m, w, i, true) == [] && NearPredatorIndices(m, w, i, true) == [] ==>
      var me := w.prey[i];
      NextState(m, rules, fp, sl, w, i, true, dt).velocity == rules.friction(me, sl.preyMax, rules.boost(me, sl.preyMin, me.velocity))
  {
  }

  /** A prey alone in the world feels no force: its velocity is only boosted
      and braked. */
  lemma {:induction false} LonePrey(m: MathLib, rules: Rules, fp: FlightParameters, sl: SpeedLimits, me: BoidState, dt: real)
    ensures var w := World([me], []);
      QueriesInWindow(w) &&
      NextState(m, rules, fp, sl, w, 0, true, dt) ==
        var v := rules.friction(me, sl.preyMax, rules.boost(me, sl.preyMin, me.velocity));
        BoidState(Add(me.position, Scale(v, dt)), v)
  {
    var w := World([me], []);
    var a := NearPreyIndices(m, w, 0, true);
    var b := NearPredatorIndices(m, w, 0, true);
    NearPreyIsFilter(m, w, 0, true);
    assert |a| <= 0;
    assert |b| <= 0;
  }

  /** One tick: every agent's next state, all evaluated on the same snapshot. */
  function Tick(m: MathLib, rules: Rules, fp: FlightParameters, sl: SpeedLimits, w: World, dt: real): (r: World)
    requires QueriesInWindow(w)
    ensures |r.prey| == |w.prey| && |r.predators| == |w.predators|
  {
    World(seq(|w.prey|, k requires 0 <= k < |w.prey| => NextState(m, rules, fp, sl, w, k, true, dt)),
          seq(|w.predators|, k requires 0 <= k < |w.predators| => NextState(m, rules, fp, sl, w, k, false, dt)))
  }

  /** A world of at most one agent compares nobody, so it may tick again
      and again wherever the agent has drifted: updateBoid never wraps. */
  lemma LoneAgentTicksOn(m: MathLib, rules: Rules, fp: FlightParameters, sl: SpeedLimits, w: World, dt: real)
    requires |w.prey| + |w.predators| <= 1
    ensures QueriesInWindow(w)
    ensures var t := Tick(m, rules, fp, sl, w, dt);
      |t.prey| + |t.predators| <= 1 && QueriesInWindow(t)
  {
  }

  // ---------------------------------------------------------------------
  // Flight parameters

  /** The coefficients the default parameters and every customisation share:
      repulsion six times separation, chase twice cohesion. */
  predicate DerivedRatios(fp: FlightParameters) {
    fp.repulsion == 6.0 * fp.separation && fp.chase == 2.0 * fp.cohesion
  }

  /** setFlightParameters without its stream I/O: Y or y takes the entered
      coefficients and derives repulsion and chase from them, N or n keeps
      the current parameters, any other answer is a domain error. */
  function ChooseFlightParameters(answer: char, s: real, a: real, c: real, current: FlightParameters): (r: Result<FlightParameters>)
    ensures r.Ok? <==> answer in {'Y', 'y', 'N', 'n'}
    ensures (answer == 'Y' || answer == 'y') ==>
      r.value.separation == s && r.value.alignment == a && r.value.cohesion == c && DerivedRatios(r.value)
    ensures (answer == 'N' || answer == 'n') ==> r.value == current
  {
    if answer == 'Y' || answer == 'y' then Ok(FlightParameters(s, a, c, s * 6.0, c * 2.0))
    else if answer == 'N' || answer == 'n' then Ok(current)
    else DomainError
  }

  /** The defaults have the derived ratios, and choosing parameters keeps
      them. */
  lemma DerivedRatiosKept(answer: char, s: real, a: real, c: real, current: FlightParameters)
    requires DerivedRatios(current)
    ensures DerivedRatios(DefaultFlightParameters)
    ensures ChooseFlightParameters(answer, s, a, c, current).Ok? ==> DerivedRatios(ChooseFlightParameters(answer, s, a, c, current).value)
  {
  }

  // ---------------------------------------------------------------------
  // The flock

  /** One of generateBoids' two loops: a fresh agent of the given species
      for each drawn state, in order. */
  method MakeAgents(species: Species, draws: seq<BoidState>) returns (bs: seq<Boid>)
    ensures |bs| == |draws|
    ensures forall k :: 0 <= k < |bs| ==> fresh(bs[k]) && bs[k].species == species
    ensures forall j, k :: 0 <= j < k < |bs| ==> bs[j] != bs[k]
    ensures States(bs) == draws
  {
    bs := [];
    var i := 0;
    while i < |draws|
      invariant 0 <= i <= |draws| && |bs| == i
      invariant forall k :: 0 <= k < i ==> fresh(bs[k]) && bs[k].species == species
      invariant forall k :: 0 <= k < i ==> bs[k].State() == draws[k]
      invariant forall j, k :: 0 <= j < k < i ==> bs[j] != bs[k]
    {
      var b := new Boid(species, draws[i].position, draws[i].velocity);
      bs := bs + [b];
      i := i + 1;
    }
  }

  /** The loop shared by nearPrey and nearPredators: every agent of bs but
      the one at index skip (-1 for none) that me sees, in order. */
  method Neighbours(m: MathLib, me: BoidState, bs: seq<Boid>, skip: int, sight: real) returns (near: seq<Boid>)
    requires Comparable(me, States(bs), skip)
    ensures var idx := Scan(Seen(m, me, States(bs), skip, sight), skip, |bs|);
      (forall k :: 0 <= k < |idx| ==> idx[k] < |bs|) && near == Select(bs, idx)
  {
    ghost var seen := Seen(m, me, States(bs), skip, sight);
    ghost var idx: seq<nat> := [];
    near := [];
    var j := 0;
    while j < |bs|
      invariant 0 <= j <= |bs|
      invariant idx == Scan(seen, skip, j)
      invariant (forall k :: 0 <= k < |idx| ==> idx[k] < |bs|) && near == Select(bs, idx)
    {
      ScanStep(seen, skip, j);
      if j != skip {
        var other := bs[j];
        ComparableAt(me, States(bs), skip, j);
        if Sees(m, me, other.State(), sight) {
          SelectAppend(bs, idx, j);
          near := near + [other];
          idx := idx + [j];
        }
      }
      j := j + 1;
    }
  }

  /** One of updateFlock's write-back loops: setBoid on every agent, with
      the buffered position and velocity of the same index. */
  method WriteBack(bs: seq<Boid>, pos: seq<Point>, vel: seq<Point>)
    requires |pos| == |bs| && |vel| == |bs|
    requires forall j, k :: 0 <= j < k < |bs| ==> bs[j] != bs[k]
    modifies bs
    ensures forall k :: 0 <= k < |bs| ==> bs[k].State() == BoidState(pos[k], vel[k])
  {
    var i := 0;
    while i < |bs|
      invariant 0 <= i <= |bs|
      invariant forall k :: 0 <= k < i ==> bs[k].State() == BoidState(pos[k], vel[k])
    {
      bs[i].SetBoid(pos[i], vel[i]);
      i := i + 1;
    }
  }

  /** The accumulate of statistics over the agents from bs[i] on: their
      distances to bs[i], and the squares of those distances. */
  method AccumulateRow(m: MathLib, bs: seq<Boid>, i: nat) returns (sum: real, sum2: real)
    requires i < |bs|
    ensures sum == RowSum(m, States(bs), i, |bs|) && sum2 == RowSqSum(m, States(bs), i, |bs|)
  {
    ghost var ps := States(bs);
    var it := bs[i].position;
    assert it == ps[i].position;
    sum, sum2 := 0.0, 0.0;
    var j := i;
    while j < |bs|
      invariant i <= j <= |bs|
      invariant sum == RowSum(m, ps, i, j) && sum2 == RowSqSum(m, ps, i, j)
    {
      assert bs[j].position == ps[j].position;
      var d := DistanceTo(m, bs[j].position, it);
      sum := sum + d;
      sum2 := sum2 + d * d;
      j := j + 1;
    }
  }

  /** The accumulate of statistics over the speeds: their sum and the sum of
      their squares. */
  method AccumulateSpeeds(m: MathLib, bs: seq<Boid>) returns (sum: real, sum2: real)
    ensures sum == SpeedSum(m, States(bs), |bs|) && sum2 == SpeedSqSum(m, States(bs), |bs|)
  {
    ghost var ps := States(bs);
    sum, sum2 := 0.0, 0.0;
    var j := 0;
    while j < |bs|
      invariant 0 <= j <= |bs|
      invariant sum == SpeedSum(m, ps, j) && sum2 == SpeedSqSum(m, ps, j)
    {
      assert bs[j].velocity == ps[j].velocity;
      var v := Magnitude(m, bs[j].velocity);
      sum := sum + v;
      sum2 := sum2 + v * v;
      j := j + 1;
    }
  }

  class Flock {
    var nPrey: nat
    var nPredators: nat
    var prey: seq<Boid>
    var predators: seq<Boid>
    var flightParams: FlightParameters
    var speedLimits: SpeedLimits

    /** The collections hold the announced number of agents. */
    predicate Sized()
      reads this
    {
      |prey| == nPrey && |predators| == nPredators
    }

    /** The collections hold the announced number of agents, every agent
        once, each of its own species. */
    ghost predicate Populated()
      reads this
    {
      && Sized()
      && (forall j, k :: 0 <= j < k < |prey| ==> prey[j] != prey[k])
      && (forall j, k :: 0 <= j < k < |predators| ==> predators[j] != predators[k])
      && (forall j, k :: 0 <= j < |prey| && 0 <= k < |predators| ==> prey[j] != predators[k])
      && (forall k :: 0 <= k < |prey| ==> prey[k].species == Prey)
      && (forall k :: 0 <= k < |predators| ==> predators[k].species == Predator)
    }

    function Snapshot(): World
      reads this, prey, predators
    {
      World(States(prey), States(predators))
    }

    ghost predicate AgentsInWindow()
      reads this, prey, predators
    {
      WorldInWindow(Snapshot())
    }

    /** What a tick's neighbour queries demand of the flock. */
    ghost predicate Queryable()
      reads this, prey, predators
    {
      QueriesInWindow(Snapshot())
    }

    /** Flock(nPrey, nPredators): default parameters, empty collections. */
    constructor (nPrey: nat, nPredators: nat)
      ensures this.nPrey == nPrey && this.nPredators == nPredators
      ensures prey == [] && predators == []
      ensures flightParams == DefaultFlightParameters && speedLimits == DefaultSpeedLimits
    {
      this.nPrey := nPrey;
      this.nPredators := nPredators;
      prey := [];
      predators := [];
      flightParams := DefaultFlightParameters;
      speedLimits := DefaultSpeedLimits;
    }

    /** The flight-parameter prompt, given the answer and the coefficients
        entered after it. */
    method SetFlightParameters(answer: char, s: real, a: real, c: real) returns (r: Result<FlightParameters>)
      modifies this
      ensures r == ChooseFlightParameters(answer, s, a, c, old(flightParams))
      ensures flightParams == if r.Ok? then r.value else old(flightParams)
      ensures nPrey == old(nPrey) && nPredators == old(nPredators) && prey == old(prey) && predators == old(predators)
      ensures speedLimits == old(speedLimits)
    {
      if answer == 'Y' || answer == 'y' {
        flightParams := flightParams.(separation := s, alignment := a, cohesion := c);
        flightParams := flightParams.(repulsion := s * 6.0, chase := c * 2.0);
        r := Ok(flightParams);
      } else if answer == 'N' || answer == 'n' {
        r := Ok(flightParams);
      } else {
        r := DomainError;
      }
    }

    /** generateBoids, with the random draws as inputs: each collection is
        replaced by fresh agents with exactly the drawn states. */
    method GenerateBoids(preyDraws: seq<BoidState>, predatorDraws: seq<BoidState>)
      requires |preyDraws| == nPrey && |predatorDraws| == nPredators
      requires nPrey > 0
      requires forall k :: 0 <= k < |preyDraws| ==> InsideWindow(preyDraws[k].position)
      requires forall k :: 0 <= k < |predatorDraws| ==> InsideWindow(predatorDraws[k].position)
      modifies this
      ensures Populated() && AgentsInWindow()
      ensures Snapshot() == World(preyDraws, predatorDraws)
      ensures forall k :: 0 <= k < |prey| ==> fresh(prey[k])
      ensures forall k :: 0 <= k < |predators| ==> fresh(predators[k])
      ensures nPrey == old(nPrey) && nPredators == old(nPredators)
      ensures flightParams == old(flightParams) && speedLimits == old(speedLimits)
    {
      var newPrey := MakeAgents(Prey, preyDraws);
      var newPredators := MakeAgents(Predator, predatorDraws);
      assert States(newPrey) == preyDraws;
      prey := newPrey;
      predators := newPredators;
      assert States(prey) == preyDraws && States(predators) == predatorDraws;
    }

    /** nearPrey(i, isPrey): the prey agent i of its species sees. */
    method NearPrey(m: MathLib, i: nat, isPrey: bool) returns (near: seq<Boid>)
      requires Sized() && (i < if isPrey then nPrey else nPredators)
      requires Comparable((if isPrey then prey[i] else predators[i]).State(), States(prey), if isPrey then i else -1)
      ensures var idx := NearPreyIndices(m, Snapshot(), i, isPrey);
        (forall k :: 0 <= k < |idx| ==> idx[k] < |prey|) && near == Select(prey, idx)
    {
      var me := if isPrey then prey[i].State() else predators[i].State();
      near := Neighbours(m, me, prey, if isPrey then i else -1, SightAngle(m, isPrey));
    }

    /** nearPredators(i, isPrey): the predators agent i of its species sees. */
    method NearPredators(m: MathLib, i: nat, isPrey: bool) returns (near: seq<Boid>)
      requires Sized() && (i < if isPrey then nPrey else nPredators)
      requires Comparable((if isPrey then prey[i] else predators[i]).State(), States(predators), if isPrey then -1 else i)
      ensures var idx := NearPredatorIndices(m, Snapshot(), i, isPrey);
        (forall k :: 0 <= k < |idx| ==> idx[k] < |predators|) && near == Select(predators, idx)
    {
      var me := if isPrey then prey[i].State() else predators[i].State();
      near := Neighbours(m, me, predators, if isPrey then -1 else i, SightAngle(m, isPrey));
    }

    /** updateBoid(i, isPrey): the next position and velocity of agent i,
        changing nothing. */
    method UpdateBoid(m: MathLib, rules: Rules, i: nat, isPrey: bool, dt: real) returns (p: Point, v: Point)
      requires Sized() && Queryable()
      requires i < if isPrey then nPrey else nPredators
      ensures BoidState(p, v) == NextState(m, rules, flightParams, speedLimits, Snapshot(), i, isPrey, dt)
    {
      ghost var w := Snapshot();
      QueriesComparable(w, i, isPrey);
      var me := if isPrey then prey[i].State() else predators[i].State();
      var nearPrey := NearPrey(m, i, isPrey);
      var nearPredators := NearPredators(m, i, isPrey);
      StatesOfSelect(prey, NearPreyIndices(m, w, i, isPrey));
      StatesOfSelect(predators, NearPredatorIndices(m, w, i, isPrey));
      var preyStates := States(nearPrey);
      var predatorStates := States(nearPredators);
      assert me == Population(w, isPrey)[i];
      assert preyStates == Select(w.prey, NearPreyIndices(m, w, i, isPrey));
      assert predatorStates == Select(w.predators, NearPredatorIndices(m, w, i, isPrey));
      if isPrey {
        p := me.position;
        v := me.velocity;
        if nearPredators != [] {
          v := Add(v, rules.repel(me, flightParams.repulsion, predatorStates));
        }
        if nearPrey != [] {
          v := Add(v, Add(Add(Separation(m, me, preyStates, PreySep, flightParams.separation),
                              Alignment(me, preyStates, flightParams.alignment)),
                          Cohesion(me, preyStates, flightParams.cohesion)));
        }
        v := rules.boost(me, speedLimits.preyMin, v);
        v := rules.friction(me, speedLimits.preyMax, v);
        assert v == PreyVelocity(m, rules, flightParams, speedLimits, me, preyStates, predatorStates);
      } else {
        p := me.position;
        v := rules.border(me, BoidsDis, BorderFactor);
        if nearPredators != [] {
          v := Add(v, Separation(m, me, predatorStates, PredatorSep, flightParams.separation));
        }
        if nearPrey != [] {
          v := Add(v, rules.chase(me, flightParams.chase, preyStates));
        }
        v := rules.boost(me, speedLimits.predatorMin, v);
        v := rules.friction(me, speedLimits.predatorMax, v);
        assert v == PredatorVelocity(m, rules, flightParams, speedLimits, me, preyStates, predatorStates);
      }
      p := Add(p, Scale(v, dt));
    }

    /** One of updateFlock's buffer loops: updateBoid for every agent of a
        species, in order, on the unchanged flock. */
    method NextStates(m: MathLib, rules: Rules, isPrey: bool, dt: real) returns (pos: seq<Point>, vel: seq<Point>)
      requires Sized() && Queryable()
      ensures |pos| == |Population(Snapshot(), isPrey)| && |vel| == |pos|
      ensures forall k :: 0 <= k < |pos| ==>
        BoidState(pos[k], vel[k]) == NextState(m, rules, flightParams, speedLimits, Snapshot(), k, isPrey, dt)
    {
      var n := if isPrey then nPrey else nPredators;
      pos, vel := [], [];
      var i := 0;
      while i < n
        invariant 0 <= i <= n && |pos| == i && |vel| == i
        invariant forall k :: 0 <= k < i ==>
          BoidState(pos[k], vel[k]) == NextState(m, rules, flightParams, speedLimits, Snapshot(), k, isPrey, dt)
      {
        var p, v := UpdateBoid(m, rules, i, isPrey, dt);
        pos := pos + [p];
        vel := vel + [v];
        i := i + 1;
      }
    }

    /** updateFlock: every new state is computed into buffers from the
        unchanged flock, and only then written back, predators first. */
    method UpdateFlock(m: MathLib, rules: Rules, dt: real)
      requires Populated() && Queryable()
      modifies prey, predators
      ensures Populated()
      ensures Snapshot() == Tick(m, rules, flightParams, speedLimits, old(Snapshot()), dt)
    {
      ghost var w := Snapshot();
      ghost var t := Tick(m, rules, flightParams, speedLimits, w, dt);
      var preyPos, preyVel := NextStates(m, rules, true, dt);
      if nPredators > 0 {
        var predatorPos, predatorVel := NextStates(m, rules, false, dt);
        WriteBack(predators, predatorPos, predatorVel);
      }
      WriteBack(prey, preyPos, preyVel);
      assert States(prey) == t.prey;
      assert States(predators) == t.predators;
    }

    /** statistics(): mean and deviation of the pairwise prey distances and
        of the prey speeds. */
    method Statistics(m: MathLib) returns (s: FlockStatistics.Statistics)
      requires Sized() && nPrey > 0
      ensures s == StatisticsOf(m, Snapshot().prey)
    {
      ghost var ps := Snapshot().prey;
      var n := nPrey;
      var meanDist, meanDist2, devDist := 0.0, 0.0, 0.0;
      if n > 1 {
        var i := 0;
        while i < n
          invariant 0 <= i <= n
          invariant meanDist + DistanceSum(m, ps, i) == DistanceSum(m, ps, 0)
          invariant meanDist2 + DistanceSqSum(m, ps, i) == DistanceSqSum(m, ps, 0)
        {
          var sum, sum2 := AccumulateRow(m, prey, i);
          meanDist := meanDist + sum;
          meanDist2 := meanDist2 + sum2;
          i := i + 1;
        }
        var denominator := PairCount(n);
        meanDist := meanDist / denominator;
        meanDist2 := meanDist2 / denominator;
        devDist := Deviation(m, meanDist, meanDist2);
      }
      var speed, speed2 := AccumulateSpeeds(m, prey);
      var meanSpeed := speed / (n as real);
      var meanSpeed2 := speed2 / (n as real);
      s := FlockStatistics.Statistics(meanDist, devDist, meanSpeed, Deviation(m, meanSpeed, meanSpeed2));
    }
  }
}
