# Drone simulator and geo-locator, in Dafny

This project models the two computational parts of DroneControlCore, a
drone ground-control backend:

- **The drone simulator** (`app/core/drone_state.py`, class `DroneState`).
  Each call to `update_position` advances simulated time by 0.1 and does one of three things:
  - **Idle.** With no target, the drone turns one degree on the spot.
  - **Transit.** When the target is farther than `max_radius`, the drone flies one `speed` step
    straight toward it and resets the loiter radius.
  - **Spiral loiter.** Otherwise, the loiter radius decays by `spiral_decay` toward `min_radius`,
    and the drone is placed on the circle of that radius around the target.

  `set_speed` clamps a factor into [1, 100] and sets `speed` to factor × 0.00001.
  The model is the class `Drone.DroneState`, whose methods update its fields in place.
  `UpdatePosition` is proved to leave the fields equal to the pure function `Drone.Step` of
  the old fields. `SetSpeed` is proved to change only `speed`, to `Drone.SpeedFor(factor)`;
  `SetTarget` to change only the two target fields; and the constructor to build
  `Drone.Initial()`. The properties are lemmas
  about `Step` and about `Drone.Run`, which is `n` consecutive ticks as the telemetry loop
  drives them.
- **The geo-locator** (`app/infrastructure/vision/geo_math.py`, class `GeoLocator`).
  It turns a pixel and the drone's pose into a ground GPS fix:
  - a linear pixel-to-angle map about the image centre;
  - a ground distance `alt · tan(angle)`, guarded at the tangent's pole and clamped to [0, 1000] m;
  - a bearing `heading + alpha_x`;
  - the spherical-earth destination-point formula with an earth radius of 6 371 000 m.

  These are pure functions over the immutable camera geometry `GeoMath.GeoLocator`. Its
  default arguments are `GeoMath.DefaultLocator()`.

Arithmetic is over Dafny's `real`. `sin`, `cos`, `tan`, `asin`, `atan2` and `sqrt` are
the fields of a record `PyMath.Trig`, which is passed as a parameter. The predicate
`PyMath.Lawful` lists the only facts assumed about them:
- sine and cosine lie in [-1, 1];
- sin 0 = 0, cos 0 = 1, tan 0 = 0 and sqrt 0 = 0;
- asin inverts sin on [-π/2, π/2];
- sin lies strictly inside (-1, 1) on (-π/2, π/2);
- atan2(0, x) = 0 for x > 0.

A property that needs one of these facts says so in its `requires`. `math.radians` and
`math.degrees` are exact scalings. Python's float `x % 360` is `x - 360·floor(x/360)`.

`drone_state.py` keeps no waypoint queue, mission setter or spiral-angle state: the target
is two attributes assigned directly. The loiter position is `target + r·sin(tick)` (and
`r·cos(tick)` for longitude), the loiter heading adds 5° per tick, and `set_speed` changes
only `speed`.

## Model

| member | source | states |
|---|---|---|
| `Drone.Initial` | app/core/drone_state.py:4-23 | power-on state: no target, heading 0, tick 0, loiter radius `max_radius`, speed 0.00005 |
| `Drone.DroneState.constructor` | app/core/drone_state.py:4-23 | the fields equal `Initial()` and satisfy the simulator invariant |
| `Drone.DroneState.SetTarget` | app/core/drone_state.py:12-13 | the target-attribute writes: sets both target coordinates, changes nothing else, keeps the invariant |
| `Drone.DistanceToCenter` | app/core/drone_state.py:34-36 | the Euclidean distance from the drone to its target; a drone on its target is at distance sqrt 0 |
| `Drone.ModeOf` | app/core/drone_state.py:29-50 | idle exactly when `target_lat` is None; transit exactly when the distance is strictly greater than `max_radius`; spiral exactly when it is at most `max_radius` |
| `Drone.DecayedRadius` | app/core/drone_state.py:54-57 | above `min_radius` the radius drops by exactly `spiral_decay`, otherwise it becomes exactly `min_radius`; the result stays in [`min_radius − spiral_decay`, `max_radius`] |
| `Drone.Step` | app/core/drone_state.py:25-65 | one `update_position`: tick grows by exactly 0.1, the heading lands in [0, 360), and altitude, speed and both target coordinates are unchanged, in every mode |
| `Drone.DroneState.UpdatePosition` | app/core/drone_state.py:25-65 | the in-place update leaves the fields equal to `Step` of the old fields and keeps the invariant |
| `Drone.Run` | app/api/routers/telemetry.py:16-18 | n consecutive `update_position` calls, as the telemetry loop makes them; the target coordinates never change, so the target stays consistent |
| `Drone.IdleStep` | app/core/drone_state.py:29-31 | with no target only the tick and the heading change; the heading becomes `(heading + 1) % 360` |
| `Drone.BoundaryDistanceSpirals` | app/core/drone_state.py:40-57 | a distance exactly equal to `max_radius` spirals: the step decays the radius rather than resetting it |
| `Drone.AtTargetSpirals` | app/core/drone_state.py:34-40 | a drone sitting on its target loiters, given sqrt 0 = 0 |
| `Drone.TransitStep` | app/core/drone_state.py:42-48 | a transit step resets the radius to `max_radius`; with `a = atan2(lon_diff, lat_diff)` it adds `speed·cos a` to lat and `speed·sin a` to lon, and sets the heading to `degrees(a) % 360` |
| `Drone.TransitStepLength` | app/core/drone_state.py:44-47 | a transit step moves lat and lon each by at most `speed` |
| `Drone.SpiralStep` | app/core/drone_state.py:54-65 | a spiral step applies the decay rule to the radius and keeps it positive; it places the drone at target lat + radius·sin(tick) and target lon + radius·cos(tick), with the new tick as the loiter angle, so within the new radius of the target on each axis, and turns the heading by 5 degrees mod 360 |
| `Drone.StepKeepsInv` | app/core/drone_state.py:25-65 | every step preserves the invariant: heading in [0, 360), radius in [`min_radius − spiral_decay`, `max_radius`], speed in [0.00001, 0.001], and a target longitude whenever there is a target latitude |
| `Drone.RunKeepsInv` | app/core/drone_state.py:25-65 | the invariant holds after any number of ticks |
| `Drone.HeadingAlwaysNormalised` | app/core/drone_state.py:9-65 | from power-on the heading is in [0, 360) after every tick |
| `Drone.RunAdvancesClock` | app/core/drone_state.py:16-26 | after n ticks the tick has grown by exactly n·0.1; altitude, speed and target are unchanged |
| `Drone.IdleRun` | app/core/drone_state.py:29-31 | with no target, n ticks leave position, altitude and radius alone and set the heading to `(heading + n) % 360` |
| `Drone.SpiralRadiusMonotone` | app/core/drone_state.py:54-57 | over exact arithmetic, from a radius `min_radius + k·spiral_decay` (k a whole number from 0 to 200), a spiral step keeps that form, never increases the radius and never goes below `min_radius` |
| `Drone.RunRadiusOnGrid` | app/core/drone_state.py:22-57 | over exact arithmetic the loiter radius stays in [`min_radius`, `max_radius`] after any number of ticks from a radius of that form, including power-on |
| `Drone.ClampFactor` | app/core/drone_state.py:72-73 | the factor is clamped into [1, 100]: unchanged inside, 1 below, 100 above |
| `Drone.SpeedFor` | app/core/drone_state.py:72-74 | the installed speed lies in [0.00001, 0.001] and equals factor·0.00001 for factors in [1, 100] |
| `Drone.DroneState.SetSpeed` | app/core/drone_state.py:67-74 | only `speed` changes, to `SpeedFor(factor)`, and it lies in [0.00001, 0.001] |
| `PyMath.Mod360` | app/core/drone_state.py:30 | Python's float `% 360` lies in [0, 360); it is the identity on [0, 360) and subtracts one turn on [360, 720) |
| `PyMath.Mod360AddReduced` | app/core/drone_state.py:30 | reducing before adding gives the same result as reducing after |
| `PyMath.Radians` | app/infrastructure/vision/geo_math.py:47 | 0° is 0 rad and 90° is π/2; (−90°, 90°) maps exactly onto (−π/2, π/2) |
| `PyMath.Degrees` | app/core/drone_state.py:48 | `math.degrees`: 0 rad is 0°, π/2 is 90°, and the sign is kept |
| `PyMath.DegreesOfRadians` | app/infrastructure/vision/geo_math.py:65-81 | converting degrees to radians and back is the identity |
| `GeoMath.DefaultLocator` | app/infrastructure/vision/geo_math.py:4-9 | the default 80° × 60° camera on a 640 × 480 frame: positive width, height and fields of view, and the centre pixel (320, 240) maps to (0, 0) |
| `GeoMath.PixelToAngle` | app/infrastructure/vision/geo_math.py:11-29 | the image centre maps to exactly (0, 0) |
| `GeoMath.PixelAngleRoundTrip` | app/infrastructure/vision/geo_math.py:17-27 | pixel → angles → pixel is the identity when both fields of view are non-zero |
| `GeoMath.AnglePixelRoundTrip` | app/infrastructure/vision/geo_math.py:17-27 | angles → pixel → angles is the identity, so every angle pair is seen at some pixel |
| `GeoMath.AlphaXAtEdges` | app/infrastructure/vision/geo_math.py:17-21 | u = 0 gives −fov_h/2 and u = width gives +fov_h/2 |
| `GeoMath.AlphaYAtEdges` | app/infrastructure/vision/geo_math.py:18-27 | v = 0 gives +fov_v/2 and v = height gives −fov_v/2 |
| `GeoMath.AlphaXIncreasing` | app/infrastructure/vision/geo_math.py:17-21 | for width > 0 and fov_h > 0, alpha_x strictly increases with u and is within fov_h/2 in absolute value for u in [0, width] |
| `GeoMath.AlphaYDecreasing` | app/infrastructure/vision/geo_math.py:18-27 | for height > 0 and fov_v > 0, alpha_y strictly decreases with v and is within fov_v/2 in absolute value for v in [0, height] |
| `GeoMath.ClampDistance` | app/infrastructure/vision/geo_math.py:56-57 | the result is in [0, 1000]: unchanged inside, 0 for negatives, 1000 above |
| `GeoMath.RawDistance` | app/infrastructure/vision/geo_math.py:50-53 | within 0.001 rad of π/2 the distance is the 10000 sentinel |
| `GeoMath.GroundDistance` | app/infrastructure/vision/geo_math.py:47-57 | the distance is always in [0, 1000], and exactly 1000 near the pole |
| `GeoMath.NadirDistanceIsZero` | app/infrastructure/vision/geo_math.py:44-57 | looking straight down gives distance 0 at any altitude |
| `GeoMath.Destination` | app/infrastructure/vision/geo_math.py:64-81 | the spherical-earth destination formula; it has no contract of its own, and `GeoMath.DestinationOfZeroDistance` is the property proved about it |
| `GeoMath.DestinationOfZeroDistance` | app/infrastructure/vision/geo_math.py:64-81 | zero distance returns the starting lat/lon in any direction, for latitudes strictly inside (−90, 90) |
| `GeoMath.CalculateGpsLocation` | app/infrastructure/vision/geo_math.py:31-84 | the distance is in [0, 1000]; the bearing is exactly `heading + alpha_x`, not normalised; the distance is 1000 when the view angle is within 0.001 of π/2 |
| `GeoMath.CentrePixelIsBelowDrone` | app/infrastructure/vision/geo_math.py:44-84 | the centre pixel's fix is the drone's own lat/lon, at distance 0, with bearing equal to the heading |
| `GeoMath.DefaultCentreFix` | tests/unit/test_geo_math.py:11-31 | the unit test's case: the default locator at (0, 0), 100 m, heading 0, pixel (320, 240) gives (0, 0), distance 0 |
| `GeoMath.DefaultFrameAvoidsPole` | app/infrastructure/vision/geo_math.py:50-57 | with the default 60° vertical field of view, no in-frame pixel reaches the pole guard, so its distance is `alt·tan(angle)` clamped |

## Left out

- IEEE-754 behaviour is not modelled. This covers rounding, NaN and infinity propagation, and
  Python's float `%` returning 360.0 for tiny negative inputs. In floats the loiter radius can
  drift below `min_radius`, for example 0.005 − 200·0.00002 need not equal 0.001 exactly. The
  grid lemmas hold over exact reals only, and the [`min_radius − spiral_decay`, `max_radius`]
  bound is the one that does not depend on exact arithmetic.
- The transcendental functions are parameters. Only the facts in `Lawful` are assumed, so the
  numeric accuracy of the destination formula is not stated.
- Drone.Step: requires a target longitude whenever a target latitude is set. Python would raise
  a TypeError on the subtraction in the other case; the model does not represent the exception.
- GeoMath.PixelToAngle: requires a non-zero image width and height. The source raises
  ZeroDivisionError for a zero width or height; the model does not represent the exception.
- The module-level singleton `drone_state` is not modelled; the model uses one class instance.
- The telemetry loop, with its 20 Hz sleep and WebSocket sends, is not modelled. `Drone.Run`
  models only its repeated `update_position` calls.
- YOLO inference, the thread pool, HTTP routers, MAVSDK upload, path planning and persistence
  are foreign libraries or I/O. The bounding-box centre average in the detector is not modelled.
- Python's dynamic typing is not modelled: targets, factors and pixel coordinates of types
  other than numbers.
