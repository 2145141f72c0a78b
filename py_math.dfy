/** The parts of Python's `math` module and float arithmetic that the drone
    simulator and the geo-locator use, over mathematical reals.

    The transcendental functions are not defined here: they are the fields of
    a `Trig` record that every caller receives as a parameter, so nothing is
    assumed about them except what the predicate `Lawful` states, and a
    property that needs such a fact says so in its `requires`.
    `radians` and `degrees` are plain scalings and are defined exactly. */
module PyMath {

  /** Python's `math.pi`. */
  const Pi: real := 3.141592653589793

  /** An implementation of the `math` functions the core calls. */
  datatype Trig = Trig(
    sin: real -> real,
    cos: real -> real,
    tan: real -> real,
    asin: real -> real,
    atan2: (real, real) -> real,
    sqrt: real -> real
  )

  // The `math` functions, applied through the record.
  function Sin(t: Trig, x: real): real { t.sin(x) }
  function Cos(t: Trig, x: real): real { t.cos(x) }
  function Tan(t: Trig, x: real): real { t.tan(x) }
  function Asin(t: Trig, x: real): real { t.asin(x) }
  function Atan2(t: Trig, y: real, x: real): real { t.atan2(y, x) }
  function Sqrt(t: Trig, x: real): real { t.sqrt(x) }

  /** The facts about the transcendental functions that the proofs rely on;
      every one of them holds of the real sine, cosine, etc. */
  ghost predicate Lawful(t: Trig) {
    && (forall x :: -1.0 <= Sin(t, x) <= 1.0)
    && (forall x :: -1.0 <= Cos(t, x) <= 1.0)
    && Sin(t, 0.0) == 0.0
    && Cos(t, 0.0) == 1.0
    && Tan(t, 0.0) == 0.0
    && Sqrt(t, 0.0) == 0.0
    // asin is a left inverse of sin on [-pi/2, pi/2] ...
    && (forall x :: -Pi / 2.0 <= x <= Pi / 2.0 ==> Asin(t, Sin(t, x)) == x)
    // ... and sin stays strictly inside (-1, 1) on the open interval
    && (forall x :: -Pi / 2.0 < x < Pi / 2.0 ==> -1.0 < Sin(t, x) < 1.0)
    // the angle of a point on the positive x axis is 0
    && (forall x :: x > 0.0 ==> Atan2(t, 0.0, x) == 0.0)
  }

  /** `math.radians`: degrees to radians. */
  function Radians(deg: real): (rad: real)
    ensures deg == 0.0 ==> rad == 0.0
    ensures deg == 90.0 ==> rad == Pi / 2.0
    ensures -90.0 < deg < 90.0 <==> -Pi / 2.0 < rad < Pi / 2.0
  {
    deg * (Pi / 180.0)
  }

  /** `math.degrees`: radians to degrees. */
  function Degrees(rad: real): (deg: real)
    ensures rad == 0.0 ==> deg == 0.0
    ensures rad == Pi / 2.0 ==> deg == 90.0
    ensures rad < 0.0 <==> deg < 0.0
  {
    rad * (180.0 / Pi)
  }

  /** Converting to radians and back gives back the angle. */
  lemma DegreesOfRadians(deg: real)
    ensures Degrees(Radians(deg)) == deg
  {
    assert (Pi / 180.0) * (180.0 / Pi) == 1.0;
  }

  /** Python's `x % 360` on floats: the remainder takes the sign of the
      divisor, so it always lies in [0, 360). */
  function Mod360(x: real): (r: real)
    ensures 0.0 <= r < 360.0
    ensures 0.0 <= x < 360.0 ==> r == x
    ensures 360.0 <= x < 720.0 ==> r == x - 360.0
  {
    x - 360.0 * (x / 360.0).Floor as real
  }

  /** `% 360` forgets whole turns: shifting the argument by k turns does not
      change the result. */
  lemma Mod360Periodic(x: real, k: int)
    ensures Mod360(x + 360.0 * k as real) == Mod360(x)
  {
    assert (x + 360.0 * k as real) / 360.0 == x / 360.0 + k as real;
    assert ((x + 360.0 * k as real) / 360.0).Floor == (x / 360.0).Floor + k;
  }

  /** Adding to a reduced angle is the same as adding before reducing. */
  lemma Mod360AddReduced(x: real, y: real)
    ensures Mod360(Mod360(x) + y) == Mod360(x + y)
  {
    var k := (x / 360.0).Floor;
    assert Mod360(x) + y == (x + y) + 360.0 * (-k) as real;
    Mod360Periodic(x + y, -k);
  }
}
