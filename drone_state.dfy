/** The drone simulator of app/core/drone_state.py: a tick-stepped state
    machine that idles (turns on the spot) while it has no target, flies
    straight toward a target that is farther than `MaxRadius`, and otherwise
    loiters on a circle around the target whose radius decays toward
    `MinRadius`.

    `Step` is the value-level specification of one `update_position` call;
    the class `DroneState` updates its fields in place and is proved to
    follow `Step`. Every property of the simulator is proved about `Step`
    (one call) and `Run` (a sequence of calls, as the telemetry loop makes). */
module Drone {
  import opened PyMath

  datatype Option<T> = None | Some(value: T)

  // Initial pose (Chengdu) and physics constants, as set by `__init__`.
  const HomeLat: real := 30.598
  const HomeLon: real := 103.991
  const HomeAlt: real := 100.0
  const InitialSpeed: real := 0.00005
  /** Spiralling starts within this distance of the target (about 550 m). */
  const MaxRadius: real := 0.005
  /** The final holding radius (about 110 m). */
  const MinRadius: real := 0.001
  /** How much the loiter radius shrinks per tick. */
  const SpiralDecay: real := 0.00002
  /** Simulated time that passes per `update_position` call. */
  const TickLength: real := 0.1
  // Bounds on `speed` that `set_speed` establishes.
  const MinSpeed: real := 0.00001
  const MaxSpeed: real := 0.001

  /** Everything `update_position` and `set_speed` read or write. */
  datatype Snapshot = Snapshot(
    lat: real,
    lon: real,
    alt: real,
    heading: real,
    targetLat: Option<real>,
    targetLon: Option<real>,
    speed: real,
    currentRadius: real,
    tick: real
  )

  /** The three behaviours `update_position` chooses between. */
  datatype Mode = Idle | Transit | Spiral

  /** The state `__init__` builds. */
  function Initial(): (s: Snapshot)
    ensures s.targetLat.None? && s.targetLon.None?
    ensures s.heading == 0.0 && s.tick == 0.0
    ensures s.currentRadius == MaxRadius && s.speed == InitialSpeed
  {
    Snapshot(HomeLat, HomeLon, HomeAlt, 0.0, None, None, InitialSpeed, MaxRadius, 0.0)
  }

  /** A target latitude without a target longitude makes `update_position`
      raise a TypeError; the model only steps states where both are set or
      the latitude is unset. */
  predicate TargetConsistent(s: Snapshot) {
    s.targetLat.Some? ==> s.targetLon.Some?
  }

  /** `x**2 + y**2`. */
  function SumOfSquares(x: real, y: real): real {
    x * x + y * y
  }

  /** `base` moved by `length` times the unit component `u` (a sine or
      cosine): how every position update is written. */
  function Offset(base: real, length: real, u: real): real {
    base + length * u
  }

  /** Euclidean distance, in degrees, from the drone to its target; a drone
      sitting on its target is at distance sqrt(0). */
  function DistanceToCenter(t: Trig, s: Snapshot): (d: real)
    requires s.targetLat.Some? && s.targetLon.Some?
    ensures s.targetLat.value == s.lat && s.targetLon.value == s.lon ==> d == Sqrt(t, 0.0)
  {
    var latDiff := s.targetLat.value - s.lat;
    var lonDiff := s.targetLon.value - s.lon;
    Sqrt(t, SumOfSquares(latDiff, lonDiff))
  }

  /** The mode `update_position` runs in from state `s`. */
  function ModeOf(t: Trig, s: Snapshot): (m: Mode)
    requires TargetConsistent(s)
    ensures m == Idle <==> s.targetLat.None?
    ensures m == Transit <==> s.targetLat.Some? && DistanceToCenter(t, s) > MaxRadius
    ensures m == Spiral <==> s.targetLat.Some? && DistanceToCenter(t, s) <= MaxRadius
  {
    if s.targetLat.None? then Idle
    else if DistanceToCenter(t, s) > MaxRadius then Transit
    else Spiral
  }

  /** The loiter radius after one spiral tick: one `SpiralDecay` less while
      above `MinRadius`, otherwise exactly `MinRadius`. */
  function DecayedRadius(radius: real): (r: real)
    ensures radius > MinRadius ==> r == radius - SpiralDecay
    ensures radius <= MinRadius ==> r == MinRadius
    ensures MinRadius - SpiralDecay <= r
    ensures MinRadius - SpiralDecay <= radius <= MaxRadius ==> r <= MaxRadius
  {
    if radius > MinRadius then radius - SpiralDecay else MinRadius
  }

  /** One `update_position` call. */
  function Step(t: Trig, s: Snapshot): (r: Snapshot)
    requires TargetConsistent(s)
    ensures r.tick == s.tick + TickLength
    ensures 0.0 <= r.heading < 360.0
    ensures r.alt == s.alt && r.speed == s.speed
    ensures r.targetLat == s.targetLat && r.targetLon == s.targetLon
  {
    var tick := s.tick + TickLength;
    match ModeOf(t, s)
    case Idle =>
      s.(tick := tick, heading := Mod360(s.heading + 1.0))
    case Transit =>
      var angle := Atan2(t, s.targetLon.value - s.lon, s.targetLat.value - s.lat);
      s.(tick := tick,
         currentRadius := MaxRadius,
         lat := Offset(s.lat, s.speed, Cos(t, angle)),
         lon := Offset(s.lon, s.speed, Sin(t, angle)),
         heading := Mod360(Degrees(angle)))
    case Spiral =>
      var radius := DecayedRadius(s.currentRadius);
      s.(tick := tick,
         currentRadius := radius,
         lat := Offset(s.targetLat.value, radius, Sin(t, tick)),
         lon := Offset(s.targetLon.value, radius, Cos(t, tick)),
         heading := Mod360(s.heading + 5.0))
  }

  /** `n` consecutive `update_position` calls, as the telemetry loop makes. */
  function Run(t: Trig, s: Snapshot, n: nat): (r: Snapshot)
    requires TargetConsistent(s)
    ensures r.targetLat == s.targetLat && r.targetLon == s.targetLon
    ensures TargetConsistent(r)
    decreases n
  {
    if n == 0 then s else Run(t, Step(t, s), n - 1)
  }

  /** `set_speed`'s clamp of the requested factor into [1, 100]. */
  function ClampFactor(factor: real): (f: real)
    ensures 1.0 <= f <= 100.0
    ensures 1.0 <= factor <= 100.0 ==> f == factor
    ensures factor < 1.0 ==> f == 1.0
    ensures factor > 100.0 ==> f == 100.0
  {
    if 100.0 < factor then 100.0 else if factor < 1.0 then 1.0 else factor
  }

  /** The speed `set_speed(factor)` installs. */
  function SpeedFor(factor: real): (speed: real)
    ensures MinSpeed <= speed <= MaxSpeed
    ensures 1.0 <= factor <= 100.0 ==> speed == factor * MinSpeed
  {
    ClampFactor(factor) * 0.00001
  }

  /** What the simulator keeps true of its state: a normalised heading, the
      loiter radius within [MinRadius - SpiralDecay, MaxRadius], a speed that
      `set_speed` could have set, and a consistent target. */
  predicate Inv(s: Snapshot) {
    && 0.0 <= s.heading < 360.0
    && MinRadius - SpiralDecay <= s.currentRadius <= MaxRadius
    && MinSpeed <= s.speed <= MaxSpeed
    && TargetConsistent(s)
  }

  // ---------------------------------------------------------------------
  // One step, mode by mode
  // ---------------------------------------------------------------------

  /** With no target the drone only turns one degree; position, altitude and
      loiter radius are untouched. */
  lemma IdleStep(t: Trig, s: Snapshot)
    requires TargetConsistent(s) && s.targetLat.None?
    ensures Step(t, s) == s.(tick := s.tick + TickLength, heading := Mod360(s.heading + 1.0))
  {
  }

  /** The mode test is strict: a target exactly `MaxRadius` away is already
      loitered around, not flown toward. */
  lemma BoundaryDistanceSpirals(t: Trig, s: Snapshot)
    requires TargetConsistent(s) && s.targetLat.Some?
    requires DistanceToCenter(t, s) == MaxRadius
    ensures ModeOf(t, s) == Spiral
    ensures Step(t, s).currentRadius == DecayedRadius(s.currentRadius)
  {
  }

  /** Sitting on the target (with sqrt(0) = 0) the drone loiters. */
  lemma AtTargetSpirals(t: Trig, s: Snapshot)
    requires Lawful(t) && TargetConsistent(s)
    requires s.targetLat == Some(s.lat) && s.targetLon == Some(s.lon)
    ensures ModeOf(t, s) == Spiral
  {
    assert SumOfSquares(0.0, 0.0) == 0.0;
  }

  /** A transit step resets the loiter radius, moves `speed` along the
      bearing `atan2(lon_diff, lat_diff)` and faces along it. */
  lemma TransitStep(t: Trig, s: Snapshot)
    requires TargetConsistent(s) && ModeOf(t, s) == Transit
    ensures var a := Atan2(t, s.targetLon.value - s.lon, s.targetLat.value - s.lat);
      var r := Step(t, s);
      && r.currentRadius == MaxRadius
      && r.lat - s.lat == s.speed * Cos(t, a)
      && r.lon - s.lon == s.speed * Sin(t, a)
      && r.heading == Mod360(Degrees(a))
  {
  }

  /** In transit the drone moves at most `speed` along each axis. */
  lemma TransitStepLength(t: Trig, s: Snapshot)
    requires Lawful(t) && Inv(s) && ModeOf(t, s) == Transit
    ensures -s.speed <= Step(t, s).lat - s.lat <= s.speed
    ensures -s.speed <= Step(t, s).lon - s.lon <= s.speed
  {
    var a := Atan2(t, s.targetLon.value - s.lon, s.targetLat.value - s.lat);
    var r := Step(t, s);
    assert r.lat == s.lat + s.speed * Cos(t, a);
    assert r.lon == s.lon + s.speed * Sin(t, a);
    OffsetWithin(s.lat, s.speed, Cos(t, a), r.lat);
    OffsetWithin(s.lon, s.speed, Sin(t, a), r.lon);
  }

  /** A loiter step decays the radius, places the drone at the target offset
      by the new radius times sin and cos of the new simulated clock, so
      within the radius of the target on each axis, and turns five degrees. */
  lemma SpiralStep(t: Trig, s: Snapshot)
    requires Lawful(t) && Inv(s) && ModeOf(t, s) == Spiral
    ensures var r := Step(t, s);
      && r.currentRadius == DecayedRadius(s.currentRadius)
      && 0.0 < r.currentRadius
      && r.lat == Offset(s.targetLat.value, r.currentRadius, Sin(t, s.tick + TickLength))
      && r.lon == Offset(s.targetLon.value, r.currentRadius, Cos(t, s.tick + TickLength))
      && -r.currentRadius <= r.lat - s.targetLat.value <= r.currentRadius
      && -r.currentRadius <= r.lon - s.targetLon.value <= r.currentRadius
      && r.heading == Mod360(s.heading + 5.0)
  {
    var r := Step(t, s);
    var radius := DecayedRadius(s.currentRadius);
    assert r.currentRadius == radius;
    assert r.lat == s.targetLat.value + radius * Sin(t, r.tick);
    assert r.lon == s.targetLon.value + radius * Cos(t, r.tick);
    OffsetWithin(s.targetLat.value, radius, Sin(t, r.tick), r.lat);
    OffsetWithin(s.targetLon.value, radius, Cos(t, r.tick), r.lon);
  }

  /** Moving from `base` by `c * u`, with |u| <= 1 and c >= 0, stays within
      `c` of `base`. */
  lemma OffsetWithin(base: real, c: real, u: real, moved: real)
    requires 0.0 <= c && -1.0 <= u <= 1.0
    requires moved == base + c * u
    ensures -c <= moved - base <= c
  {
    if u >= 0.0 {
      assert c * u <= c * 1.0;
    } else {
      assert c * u >= c * -1.0;
    }
  }

  /** Every step keeps the simulator's invariant. */
  lemma StepKeepsInv(t: Trig, s: Snapshot)
    requires Inv(s)
    ensures Inv(Step(t, s))
  {
  }

  // ---------------------------------------------------------------------
  // Many steps
  // ---------------------------------------------------------------------

  /** However many ticks run, the invariant holds; in particular the heading
      stays in [0, 360) and the radius within its bounds. */
  lemma {:induction false} RunKeepsInv(t: Trig, s: Snapshot, n: nat)
    requires Inv(s)
    ensures Inv(Run(t, s, n))
    decreases n
  {
    if n > 0 {
      StepKeepsInv(t, s);
      RunKeepsInv(t, Step(t, s), n - 1);
    }
  }

  /** From power-on, the heading is in [0, 360) after every tick. */
  lemma HeadingAlwaysNormalised(t: Trig, n: nat)
    ensures 0.0 <= Run(t, Initial(), n).heading < 360.0
  {
    RunKeepsInv(t, Initial(), n);
  }

  /** After `n` ticks the clock has advanced by exactly `n * 0.1`, and the
      altitude, target and speed are what they were. */
  lemma {:induction false} RunAdvancesClock(t: Trig, s: Snapshot, n: nat)
    requires TargetConsistent(s)
    ensures Run(t, s, n).tick == s.tick + n as real * TickLength
    ensures Run(t, s, n).alt == s.alt && Run(t, s, n).speed == s.speed
    ensures Run(t, s, n).targetLat == s.targetLat && Run(t, s, n).targetLon == s.targetLon
    decreases n
  {
    if n > 0 {
      RunAdvancesClock(t, Step(t, s), n - 1);
    }
  }

  /** Without a target the drone stays where it is and turns one degree per
      tick: after `n` ticks its heading is `(heading + n) % 360`. */
  lemma {:induction false} IdleRun(t: Trig, s: Snapshot, n: nat)
    requires s.targetLat.None? && 0.0 <= s.heading < 360.0
    ensures var r := Run(t, s, n);
      && r.lat == s.lat && r.lon == s.lon && r.alt == s.alt
      && r.currentRadius == s.currentRadius
      && r.heading == Mod360(s.heading + n as real)
    decreases n
  {
    if n > 0 {
      IdleRun(t, Step(t, s), n - 1);
      Mod360AddReduced(s.heading + 1.0, (n - 1) as real);
    }
  }

  // ---------------------------------------------------------------------
  // The loiter radius over exact arithmetic
  // ---------------------------------------------------------------------

  /** The number of decay steps between `radius` and `MinRadius`. */
  function DecaySteps(radius: real): real {
    (radius - MinRadius) / SpiralDecay
  }

  /** `radius` is `MinRadius` plus a whole number (at most 200) of decay
      steps: the radii reachable from `MaxRadius`. */
  predicate OnGrid(radius: real) {
    var k := DecaySteps(radius);
    0.0 <= k <= 200.0 && k == k.Floor as real
  }

  /** Over exact arithmetic a spiral step never lets the radius fall below
      `MinRadius` and never increases it: the radius decays monotonically to
      the holding radius and stays there. */
  lemma SpiralRadiusMonotone(radius: real)
    requires OnGrid(radius)
    ensures OnGrid(DecayedRadius(radius))
    ensures MinRadius <= DecayedRadius(radius) <= radius
    ensures radius == MinRadius ==> DecayedRadius(radius) == MinRadius
  {
    var k := DecaySteps(radius);
    if radius > MinRadius {
      assert k > 0.0;
      assert k >= 1.0;
      assert DecaySteps(radius - SpiralDecay) == k - 1.0;
      assert (k - 1.0).Floor == k.Floor - 1;
    } else {
      assert DecaySteps(MinRadius) == 0.0;
    }
  }

  /** The loiter radius after any number of ticks from power-on is on the
      grid, hence at least `MinRadius`. */
  lemma {:induction false} RunRadiusOnGrid(t: Trig, s: Snapshot, n: nat)
    requires TargetConsistent(s) && OnGrid(s.currentRadius)
    ensures OnGrid(Run(t, s, n).currentRadius)
    ensures MinRadius <= Run(t, s, n).currentRadius <= MaxRadius
    decreases n
  {
    if n == 0 {
      GridBounds(s.currentRadius);
    } else {
      assert DecaySteps(MaxRadius) == 200.0;
      if ModeOf(t, s) == Spiral {
        SpiralRadiusMonotone(s.currentRadius);
      }
      RunRadiusOnGrid(t, Step(t, s), n - 1);
    }
  }

  /** Radii on the grid lie in [MinRadius, MaxRadius]. */
  lemma GridBounds(radius: real)
    requires OnGrid(radius)
    ensures MinRadius <= radius <= MaxRadius
  {
    assert radius == MinRadius + DecaySteps(radius) * SpiralDecay;
  }

  // ---------------------------------------------------------------------
  // The simulator object
  // ---------------------------------------------------------------------

  /** The mutable simulator state; the physics constants are the module's
      constants above, which no method can change. */
  class DroneState {
    var lat: real
    var lon: real
    var alt: real
    var heading: real
    var targetLat: Option<real>
    var targetLon: Option<real>
    var speed: real
    var currentRadius: real
    var tick: real

    /** The fields, as a value. */
    ghost function State(): Snapshot
      reads this
    {
      Snapshot(lat, lon, alt, heading, targetLat, targetLon, speed, currentRadius, tick)
    }

    ghost predicate Valid()
      reads this
    {
      Inv(State())
    }

    constructor ()
      ensures Valid()
      ensures State() == Initial()
    {
      lat := HomeLat;
      lon := HomeLon;
      alt := HomeAlt;
      heading := 0.0;
      targetLat := None;
      targetLon := None;
      speed := InitialSpeed;
      currentRadius := MaxRadius;
      tick := 0.0;
    }

    /** The attribute writes `target_lat = ...; target_lon = ...` that give
        the drone a target. */
    method SetTarget(newLat: real, newLon: real)
      requires Valid()
      modifies this
      ensures Valid()
      ensures State() == old(State()).(targetLat := Some(newLat), targetLon := Some(newLon))
    {
      targetLat := Some(newLat);
      targetLon := Some(newLon);
    }

    /** One simulation tick. */
    method UpdatePosition(t: Trig)
      requires Valid()
      modifies this
      ensures Valid()
      ensures State() == Step(t, old(State()))
    {
      ghost var before := State();
      StepKeepsInv(t, before);
      tick := tick + TickLength;

      if targetLat.None? {
        heading := Mod360(heading + 1.0);
        return;
      }

      var latDiff := targetLat.value - lat;
      var lonDiff := targetLon.value - lon;
      var distanceToCenter := Sqrt(t, SumOfSquares(latDiff, lonDiff));

      if distanceToCenter > MaxRadius {
        currentRadius := MaxRadius;
        var angle := Atan2(t, lonDiff, latDiff);
        lat := Offset(lat, speed, Cos(t, angle));
        lon := Offset(lon, speed, Sin(t, angle));
        heading := Mod360(Degrees(angle));
      } else {
        if currentRadius > MinRadius {
          currentRadius := currentRadius - SpiralDecay;
        } else {
          currentRadius := MinRadius;
        }
        lat := Offset(targetLat.value, currentRadius, Sin(t, tick));
        lon := Offset(targetLon.value, currentRadius, Cos(t, tick));
        heading := Mod360(heading + 5.0);
      }
    }

    /** `set_speed`: clamp the factor into [1, 100] and scale the base speed. */
    method SetSpeed(factor: real)
      requires Valid()
      modifies this
      ensures Valid()
      ensures State() == old(State()).(speed := SpeedFor(factor))
      ensures MinSpeed <= speed <= MaxSpeed
    {
      var clamped := if 100.0 < factor then 100.0 else factor;
      clamped := if clamped < 1.0 then 1.0 else clamped;
      speed := clamped * 0.00001;
    }
  }
}
