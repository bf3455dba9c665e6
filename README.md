# Predator/prey boids on a torus, modelled in Dafny

This project models the simulation step of a predator/prey boids program.
Two populations of agents, prey and predators, fly over a 1200 × 800 plane
that wraps around at its edges (a torus). The model has six modules, one per
concern of the program:

- `CMath` (`cmath.dfy`): the parts of `<cmath>` the program uses. `sqrt`,
  `acos` and `M_PI` are a value `MathLib` passed to the operations.
  `MathLib.Valid()` lists the only facts the proofs use:
  - `sqrt` is the non-negative square root;
  - `acos` maps [-1, 1] into [0, π] and is strictly decreasing;
  - the values of `acos` at 1, 0, -1/2 and -1.
- `Constants` (`constants.dfy`): the window size and the speed cap of
  `include/constants.hpp`.
- `Points` (`point.dfy`): the 2D vector of `src/point.cpp`:
  - component-wise arithmetic;
  - `Point::distance`;
  - `relative_position` (the shortest displacement on the torus);
  - both `toroidal_distance` overloads.
- `Boids` (`boid.dfy`): one agent of `src/boid.cpp`:
  - the field-of-view bearing `Boid::angle`;
  - separation, cohesion and alignment over a neighbour list;
  - the speed cap and the once-per-axis wrap of `Boid::update`.

  The `Boid` class holds the fields that `update` overwrites. Its `Update` method
  runs the program's loop and is proved equal to the function `Updated`.
- `FlockStatistics` (`statistics.dfy`): the mean and deviation of the
  pairwise prey distances and of the prey speeds, as `Flock::statistics`
  computes them.
- `Flocks` (`flock.dfy`): the flock engine of `src/flock.cpp`.
  - A value layer describes each part:
    - a `World` snapshot of both populations;
    - the neighbour index filter `Scan`;
    - one agent's `NextState`;
    - a whole `Tick`.
  - The `Flock` class holds the agents as `Boid` objects, as the program's shared
    pointers do. Its methods `NearPrey`, `NearPredators`, `UpdateBoid`,
    `UpdateFlock`, `GenerateBoids`, `SetFlightParameters` and `Statistics` run
    the program's loops and are proved against the value layer.
  - The main result is `UpdateFlock`'s postcondition. After a tick, the flock's
    snapshot is `Tick` of the snapshot before it: every agent's new state is a
    function of the pre-tick state only.

Doubles are read as Dafny `real`. Sizes are `nat`.

## Model

| member | source | states |
|---|---|---|
| Points.Add | src/point.cpp:27-30 | `operator+`: the component-wise sum (commutative by `AddCommutes`) |
| Points.Sub | src/point.cpp:32-35 | `operator-`: the component-wise difference |
| Points.Scale | src/point.cpp:37-40 | `operator*`: both components times `c` (`ScaleByZero`, `MagnitudeOfScale`) |
| Points.Div | src/point.cpp:42-46 | `operator/`: requires a non-zero divisor, as the assert does; both components divided by `c` (`DivUndoesScale`) |
| Points.Equals | src/point.cpp:48-50 | `operator==`: both coordinates equal (`EqualsIsEquality`) |
| Points.Magnitude | src/point.cpp:20 | `distance()`: the square root of `x*x + y*y` (`MagnitudeIsZero`) |
| Points.DistanceTo | src/point.cpp:21-24 | `distance(other)`: the square root of the squared coordinate differences (`DistanceToIsMagnitudeOfDifference`) |
| Points.RelativePosition | src/point.cpp:55-77 | `relative_position`: per axis, the raw difference less one extent above half the extent and plus one below minus half (`RelativePositionShift`, `RelativePositionBounds`, `RelativePositionAntisymmetric`) |
| Points.ToroidalDistanceFromOrigin | src/point.cpp:79-84 | requires the point in the closed window, as the asserts do; the length of its displacement from the origin |
| Points.ToroidalDistance | src/point.cpp:86-93 | requires both points in the closed window, as the asserts do; the length of `relative_position(p, q)` (`ToroidalDistanceSymmetric`, `ToroidalDistanceAtMostPlain`) |
| Points.AddCommutes | src/point.cpp:27-30 | `a + b == b + a` |
| Points.ScaleByZero | src/point.cpp:37-40 | `p * 0` is the zero vector |
| Points.DivUndoesScale | src/point.cpp:37-46 | for a non-zero `c`, `(p * c) / c == p`; division requires `c != 0` |
| Points.EqualsIsEquality | src/point.cpp:48-50 | `operator==` holds exactly when the two points are equal |
| Points.MagnitudeOfScale | src/point.cpp:37-40 | scaling by `c` multiplies the squared length by `c*c` and the length by `abs(c)` |
| Points.MagnitudeIsZero | src/point.cpp:20 | `distance()` is 0 exactly for the zero vector |
| Points.DistanceToIsMagnitudeOfDifference | src/point.cpp:20-24 | `p.distance(q)` is the length of `p - q` and is symmetric |
| Points.RelativePositionToSelf | src/point.cpp:55-93 | `relative_position(p, p)` is zero, so `toroidal_distance(p, p) == 0` |
| Points.WrapDeltaShift | src/point.cpp:64-68 | one axis of the correction adds 0, +extent or -extent, and never enlarges the absolute value |
| Points.RelativePositionShift | src/point.cpp:55-77 | each component is the raw difference `q - p` plus 0, ±extent, and is no longer than the raw difference |
| Points.RelativePositionBounds | src/point.cpp:55-77 | for points in the window, the components lie in [-W/2, W/2] and [-H/2, H/2] |
| Points.RelativePositionAntisymmetric | src/point.cpp:55-77 | `relative_position(q, p) == -relative_position(p, q)` for every pair of points |
| Points.ToroidalDistanceSymmetric | src/point.cpp:86-93 | `toroidal_distance(p, q) == toroidal_distance(q, p)` |
| Points.ToroidalDistanceFromOriginIsDistanceToZero | src/point.cpp:79-93 | the one-argument form is the two-argument form from the origin, and the origin is in the window |
| Points.ToroidalDistanceAtMostPlain | src/point.cpp:86-93 | the wrap-around distance is non-negative and never exceeds the plain distance |
| Points.ToroidalDistanceAtMostHalfDiagonal | src/point.cpp:86-93 | the wrap-around distance never exceeds the half-diagonal of the window |
| Points.ToroidalTestFigures | src/test.cpp:40-53 | the squared displacements behind three figures of the test suite, across the edges |
| Boids.Angle | src/boid.cpp:22-36 | `Boid::angle`: 0 on a zero velocity or zero offset, otherwise `acos` of the clamped cosine (`AngleRange`, `AngleBelowSight`) |
| Boids.Separation | src/boid.cpp:48-55 | `separation_coeff` times the sum of `relative_position(neighbor, self)` over the neighbours closer than `separation_dist`, zero with no neighbours (`SeparationIgnoresDistant`, `SeparationOpposesCohesion`) |
| Boids.Cohesion | src/boid.cpp:56-62 | `cohesion_coeff` times the mean of `relative_position(self, neighbor)`, zero with no neighbours (`CohesionOfCommonOffset`) |
| Boids.Alignment | src/boid.cpp:58-66 | `alignment_coeff` times the mean neighbour velocity minus the own velocity, zero with no neighbours (`AlignmentOfMatchedFlock`) |
| Boids.Steered | src/boid.cpp:68-70 | the velocity before the cap: the old velocity plus the three forces (`EmptyNeighbourhood`) |
| Boids.CapSpeed | src/boid.cpp:72-74 | the speed cap: a velocity longer than `max_velocity` rescaled to it (`CapSpeedBound`, `CapSpeedIdempotent`) |
| Boids.Wrap | src/boid.cpp:78-87 | the once-per-axis wrap: below 0 gains an extent, at or past it loses one (`WrapAxisRange`) |
| Boids.Updated | src/boid.cpp:38-88 | the state `Boid::update` leaves: velocity plus the three forces, capped, then the position moved by `velocity * delta_t` and wrapped (`UpdatedStaysInWindow`, `UpdatedAlone`) |
| Boids.AngleRange | src/boid.cpp:22-36 | the angle is 0 when the velocity is zero or the toroidal offset is zero, and otherwise lies in [0, π] |
| Boids.AngleBelowSight | src/boid.cpp:30-35 | an angle below 2π/3 (resp. π/2) is a clamped cosine above -1/2 (resp. 0), in both directions |
| Boids.DegenerateAngleIsVisible | src/boid.cpp:28 | a degenerate bearing (angle 0) is inside both sight angles |
| Boids.ClampedCosinePositive | src/boid.cpp:30-33 | the clamped cosine is positive exactly when the offset has a positive dot product with the velocity |
| Boids.EmptyNeighbourhood | src/boid.cpp:43-70 | with no neighbours the three forces are zero and the velocity before the cap is the old one |
| Boids.SeparationSumConcat | src/boid.cpp:48-55 | the separation sum is additive over concatenated neighbour lists |
| Boids.SeparationIgnoresDistant | src/boid.cpp:49-55 | a neighbour at distance `separation_dist` or more adds nothing, wherever it is in the list |
| Boids.SeparationOpposesCohesion | src/boid.cpp:49-57 | when every neighbour is closer than `separation_dist`, the separation sum is minus the cohesion sum |
| Boids.AlignmentOfMatchedFlock | src/boid.cpp:58-66 | neighbours flying with the agent's own velocity give zero alignment |
| Boids.CohesionOfCommonOffset | src/boid.cpp:56-62 | cohesion is `coeff` times the mean offset: neighbours all at offset `d` give `d * coeff` |
| Boids.CapSpeedBound | src/boid.cpp:72-74 | after the cap the speed is at most `max_velocity`, and the velocity is the old one scaled by a factor in (0, 1] |
| Boids.CapSpeedIdempotent | src/boid.cpp:72-74 | capping twice is capping once |
| Boids.WrapAxisRange | src/boid.cpp:79-87 | a coordinate within one extent of the window is brought into [0, extent) by one wrap, which moves it by 0 or ±extent |
| Boids.UpdatedStaysInWindow | src/boid.cpp:76-87 | from a position in [0, W) × [0, H), with a step shorter than the window on each axis, the new position is in [0, W) × [0, H) and each coordinate moved by the step plus 0 or ±extent |
| Boids.UpdatedAlone | src/boid.cpp:43-87 | with no neighbours the agent moves at its capped old velocity |
| Boids.Boid.constructor | src/boid.cpp:13-14 | the new agent has the given species, position and velocity |
| Boids.Boid.SetBoid | src/flock.cpp:264-271 | both fields are overwritten with the given position and velocity |
| Boids.Boid.Update | src/boid.cpp:38-88 | requires `delta_t >= 0`; the force loop, cap, move and wrap leave exactly the state `Updated` of the old state |
| Boids.Boid.UpdateAsPrey | src/boid.cpp:92-98 | `Prey::update` leaves the same state as `Boid::update` |
| Boids.Boid.UpdateAsPredator | src/boid.cpp:102-109 | `Predator::update` leaves the same state as `Boid::update` |
| FlockStatistics.StatisticsOf | src/flock.cpp:274-320 | the four figures `statistics()` returns for the prey: distance figures 0 below two prey, speed figures over all prey (`MeanDistanceOverPairs`, `MeanSpeedBounded`) |
| FlockStatistics.PairCount | src/flock.cpp:294 | the pair count `n(n-1)/2` is positive for two or more agents |
| FlockStatistics.RowSumSkipsSelf | src/flock.cpp:282-290 | the accumulate that starts at `it` itself adds nothing for the agent's distance to itself |
| FlockStatistics.DistanceSumIsPairSum | src/flock.cpp:281-293 | the nested accumulation equals the sum over unordered pairs |
| FlockStatistics.MeanDistanceOverPairs | src/flock.cpp:280-299 | below two prey both distance figures are 0; otherwise the mean distance is the sum over unordered pairs divided by `n(n-1)/2` (a positive number) |
| FlockStatistics.SpeedSumBounded | src/flock.cpp:304-311 | the speed sum over `j` agents lies in [0, j * bound] when every speed is at most `bound` |
| FlockStatistics.MeanSpeedBounded | src/flock.cpp:301-314 | the mean speed is non-negative and within any bound every speed respects |
| FlockStatistics.MeanDistanceNonnegative | src/flock.cpp:280-297 | the mean distance is never negative |
| Flocks.Sees | src/flock.cpp:156-162 | the test of the loop body: toroidal distance below 75 and `abs(angle)` below the sight angle (`SeesCharacterised`) |
| Flocks.NearPreyIndices | src/flock.cpp:143-168 | requires the querier and each prey other than the skipped one in the window, and nothing when there is no such prey; the prey indices `nearPrey` returns, each a valid index (`NearPreyIsFilter`) |
| Flocks.NearPredatorIndices | src/flock.cpp:170-195 | requires the querier and each predator other than the skipped one in the window, and nothing when there is no such predator; the predator indices `nearPredators` returns, each a valid index (`NearPredatorsIsFilter`) |
| Flocks.ScanStep | src/flock.cpp:150-165 | one more loop iteration appends index `n` exactly when it is not skipped and is seen |
| Flocks.ScanIsFilter | src/flock.cpp:145-167 | the loop's result holds exactly the seen, unskipped indices, in strictly increasing order, and at most `n` of them (`n - 1` when the skipped index is below `n`) |
| Flocks.NearPreyIsFilter | src/flock.cpp:143-168 | `nearPrey(i, true)` never returns prey `i`; `nearPrey(i, false)` scans every prey; each result is seen with the querier's sight angle; no seen candidate is missed; the order is kept; a prey gets at most `n_prey - 1` results |
| Flocks.NearPredatorsIsFilter | src/flock.cpp:170-195 | the same for `nearPredators`, with predator `i` skipped when the querier is a predator |
| Flocks.SeesCharacterised | src/flock.cpp:156-162 | seeing is: squared wrap-around displacement below 75², and either a degenerate bearing, or (prey) clamped cosine above -1/2, or (predator) positive dot product with the heading |
| Flocks.QueriesComparable | src/flock.cpp:143-206 | in a world with two agents or more all in the window, or with a single agent anywhere, every agent's `nearPrey` and `nearPredators` meet the asserts of `toroidal_distance` |
| Flocks.QueriesInWindowIsExact | src/point.cpp:86-93 | conversely, if every agent's two queries meet those asserts, the world has a single agent or has every agent in the window |
| Flocks.PreyVelocity | src/flock.cpp:201-219 | a prey's velocity: repulsion only if some predator is near, then separation + alignment + cohesion only if some prey is near, then boost, then friction |
| Flocks.PredatorVelocity | src/flock.cpp:220-237 | a predator's velocity: the border rule, separation only if some predator is near, the chase only if some prey is near, then boost, then friction |
| Flocks.NextState | src/flock.cpp:197-241 | requires what that agent's two queries demand; `updateBoid(i, isPrey)` on a snapshot: the species' velocity over the near lists, and the position moved by `dt` times it, with no wrap (`NextStateMoves`, `LonePrey`) |
| Flocks.NextStateMoves | src/flock.cpp:201-240 | the new position is the old one plus `dt` times the new velocity, with no wrap; a prey that sees nobody keeps its velocity, only boosted then braked |
| Flocks.LonePrey | src/flock.cpp:197-240 | a prey alone in the world, wherever it is, gets no force: its next state is boost and friction of its velocity, moved by `dt` |
| Flocks.Tick | src/flock.cpp:243-272 | a tick keeps both population sizes |
| Flocks.LoneAgentTicksOn | src/flock.cpp:143-272 | a world of at most one agent may tick, and its next world may tick again, wherever the agent has drifted |
| Flocks.ChooseFlightParameters | src/flock.cpp:74-96 | the answer succeeds exactly for Y, y, N, n; Y/y takes the entered coefficients with repulsion = 6 · separation and chase = 2 · cohesion; N/n keeps the current parameters |
| Flocks.DerivedRatiosKept | src/flock.cpp:26-87 | the defaults have the derived ratios, and choosing parameters keeps them |
| Flocks.MakeAgents | src/flock.cpp:114-137 | one fresh, distinct agent of the species per draw, whose states are exactly the draws, in order |
| Flocks.Neighbours | src/flock.cpp:145-194 | the loop returns the agents at the indices of `Scan` over the seen flags, in order |
| Flocks.WriteBack | src/flock.cpp:264-271 | after the loop every agent holds the buffered position and velocity of its index |
| Flocks.AccumulateRow | src/flock.cpp:282-290 | the inner accumulate returns the row sums of distances and squared distances to `*it` |
| Flocks.AccumulateSpeeds | src/flock.cpp:304-311 | the speed accumulate returns the sum of the speeds and of their squares |
| Flocks.Flock.constructor | src/flock.cpp:23-30 | the counts are stored, the collections are empty, and the default flight parameters and speed limits are set |
| Flocks.Flock.SetFlightParameters | src/flock.cpp:64-97 | the new parameters are those the choice rule gives, and a domain error leaves them unchanged; nothing else changes |
| Flocks.Flock.GenerateBoids | src/flock.cpp:99-141 | requires at least one prey and draws in the window; both collections are replaced by exactly `n_prey` fresh, distinct prey and `n_predators` predators with the drawn states |
| Flocks.Flock.NearPrey | src/flock.cpp:143-168 | requires the querier and each unskipped prey in the window, and nothing with no such prey; returns the prey at `NearPreyIndices` of the snapshot, in order |
| Flocks.Flock.NearPredators | src/flock.cpp:170-195 | requires the querier and each unskipped predator in the window, and nothing with no such predator; returns the predators at `NearPredatorIndices` of the snapshot, in order |
| Flocks.Flock.UpdateBoid | src/flock.cpp:197-241 | changes nothing and returns `NextState` of agent `i` on the current snapshot |
| Flocks.Flock.NextStates | src/flock.cpp:247-262 | the buffers hold `NextState` of every agent of the species on the unchanged snapshot |
| Flocks.Flock.UpdateFlock | src/flock.cpp:243-272 | requires every agent in the window once the flock has two agents or more; the flock after the tick is `Tick` of the flock before it; population sizes and the agent objects are kept |
| Flocks.Flock.Statistics | src/flock.cpp:274-320 | requires at least one prey; returns `StatisticsOf` the prey snapshot |

## Left out

- Stream I/O of `setFlightParameters`: the prompts, the `in.fail()` error at
  src/flock.cpp:70-72, and `graphic_par::getPositiveDouble`, which is not part
  of this model. The answer character and the three coefficients are
  parameters.
- Random generation in `generateBoids`: `std::mt19937`, the uniform
  distributions, and the `cos`/`sin` that build velocities from an angle and
  a speed. The drawn states are inputs that lie in [0, W) × [0, H). The
  ranges use `graphic_par::window_width` and `window_height`, whose header is
  not part of this model; they are read as the 1200 × 800 of `Constants`,
  the values include/graphics.hpp:12-13 gives.
- Floating point: doubles are reals, with no rounding and no NaN.
- `std::sqrt` and `std::acos` are the abstract `MathLib` described above.
  The deviations are `sqrt` of the computed differences; nothing about them is
  proved beyond what `Valid()` gives.
- `repel`, `chase`, `boost`, `friction` and `border` are called by
  `updateBoid` but defined nowhere in the source. They are total function
  values in a `Rules` datatype.
- The `separation`, `alignment` and `cohesion` methods `updateBoid` calls exist only as
  commented-out code (src/boid.cpp:154-197). They are modelled by the force
  loop of `Boid::update`, which does the same sums; the argument order (coefficient
  before distance) is read as the same parameters.
- `graphic_par::dt`, which is not part of this model: `dt` is a parameter.
- `findNearPrey`/`findNearPredators` (src/flock.cpp:205-206,224-225) are read
  as `nearPrey`/`nearPredators`. `flight_parameters_` and `flight_params_` are
  one field.
- `statistics` and `updateFlock` name `n_boids_` and `b_flock_`, which are
  not members of the class; they are read as `n_prey_` and `prey_flock_`. Integer
  widths are not modelled: neither the `static_cast<int>` of the count nor the
  signed `int` product `nBoids * (nBoids - 1)` of src/flock.cpp:294, which
  overflows (undefined behaviour) once the count passes about 46341, long
  before the count itself does; nor `size_t` overflow generally.
- Flocks.Flock.Statistics: the distances are plain Euclidean
  `Point::distance`, as the code computes them, not toroidal. `module()` is
  read as `Point::distance()`.
- Boids.Boid.SetBoid: `setBoid` is called at src/flock.cpp:265 and 270 but
  defined in no file of the program that this model covers (include/boid.hpp
  declares an older Boid without it). Its body is assumed to be a plain overwrite of both
  fields, with no wrap of its own.
- Flocks.Flock.UpdateFlock: `updateBoid` applies no wrap (src/flock.cpp:239).
  Under the plain-overwrite reading of `setBoid` above, a tick therefore does
  not re-establish the in-window condition that `toroidal_distance` asserts.
  `UpdateFlock` requires it of the current state, where it is needed: every
  agent in the window once the flock has two agents, nothing for a single
  agent, which `LoneAgentTicksOn` lets tick forever. It does not promise the
  condition of the next state; if `setBoid` wrapped, that promise would be
  missing here.
- Flocks.Flock.NearPrey and Flocks.Flock.NearPredators: the distance test
  and the angle test of the loop body are one predicate `Sees`, evaluated
  on the agents' states; `std::abs` of the angle is kept.
- The loops of `updateFlock` and `statistics` are split into helper methods
  (`NextStates`, `WriteBack`, `AccumulateRow`, `AccumulateSpeeds`) that run
  the same iterations in the same order.
- The second `Flock` constructor (src/flock.cpp:33-43), the getters
  (src/flock.cpp:45-57) and `getDistancesParameters` (src/flock.cpp:61-63)
  only copy or return fields.
- Graphics, the SFML window, the event loop and both `main` files are not
  modelled.
