/** The geo-locator of app/infrastructure/vision/geo_math.py: from a pixel in
    a camera frame and the drone's pose, an estimate of the ground position
    of what the pixel shows.

    The pixel is mapped linearly to two angles off the image centre; the
    vertical angle gives a ground distance `alt * tan(angle)`, guarded
    against the tangent's pole and clamped to [0, 1000] m; the horizontal
    angle added to the heading gives a bearing; and the spherical-earth
    destination formula moves the drone's position by that distance along
    that bearing. */
module GeoMath {
  import opened PyMath

  /** Mean earth radius in metres. */
  const EarthRadius: real := 6371000.0
  /** Distance used when the view angle is at the tangent's pole. */
  const SingularDistance: real := 10000.0
  /** Largest distance reported (1 km usable range). */
  const MaxDistance: real := 1000.0
  /** How close to pi/2 radians counts as the pole. */
  const PoleEpsilon: real := 0.001
  /** The camera is taken to point straight down. */
  const Pitch: real := 0.0

  /** Camera geometry, fixed when the locator is built. */
  datatype GeoLocator = GeoLocator(
    cameraFovH: real,
    cameraFovV: real,
    imageWidth: real,
    imageHeight: real
  )

  /** The locator built with the default arguments: a 640 x 480 frame whose
      centre pixel (320, 240) looks straight ahead, and whose geometry meets
      the conditions of the monotonicity lemmas below. */
  function DefaultLocator(): (g: GeoLocator)
    ensures HasArea(g) && g.imageWidth > 0.0 && g.imageHeight > 0.0
    ensures g.cameraFovH > 0.0 && g.cameraFovV > 0.0
    ensures PixelToAngle(g, 320.0, 240.0) == (0.0, 0.0)
  {
    GeoLocator(80.0, 60.0, 640.0, 480.0)
  }

  /** The result of `calculate_gps_location`. */
  datatype GeoFix = GeoFix(lat: real, lon: real, distanceM: real, bearingDeg: real)

  /** A zero width or height would make the pixel map divide by zero. */
  predicate HasArea(g: GeoLocator) {
    g.imageWidth != 0.0 && g.imageHeight != 0.0
  }

  function Abs(x: real): real {
    if x < 0.0 then -x else x
  }

  // -------------------------------------------------------------------
  // Pixel to angle
  // -------------------------------------------------------------------

  /** `pixel_to_angle`: degrees right of and above the image centre. The
      image centre maps to exactly (0, 0). */
  function PixelToAngle(g: GeoLocator, u: real, v: real): (angles: (real, real))
    requires HasArea(g)
    ensures u == g.imageWidth / 2.0 ==> angles.0 == 0.0
    ensures v == g.imageHeight / 2.0 ==> angles.1 == 0.0
  {
    var centerU := g.imageWidth / 2.0;
    var centerV := g.imageHeight / 2.0;
    var alphaX := (u - centerU) / centerU * (g.cameraFovH / 2.0);
    var alphaY := (centerV - v) / centerV * (g.cameraFovV / 2.0);
    (alphaX, alphaY)
  }

  /** The pixel that `PixelToAngle` sends to the given angles: the inverse
      of the pixel map when both fields of view are non-zero. */
  function AngleToPixel(g: GeoLocator, alphaX: real, alphaY: real): (pixel: (real, real))
    requires HasArea(g) && g.cameraFovH != 0.0 && g.cameraFovV != 0.0
  {
    var centerU := g.imageWidth / 2.0;
    var centerV := g.imageHeight / 2.0;
    (centerU + alphaX / (g.cameraFovH / 2.0) * centerU,
     centerV - alphaY / (g.cameraFovV / 2.0) * centerV)
  }

  /** Mapping a pixel to angles and back gives the pixel: the pixel map is
      one-to-one when both fields of view are non-zero. */
  lemma PixelAngleRoundTrip(g: GeoLocator, u: real, v: real)
    requires HasArea(g) && g.cameraFovH != 0.0 && g.cameraFovV != 0.0
    ensures var a := PixelToAngle(g, u, v); AngleToPixel(g, a.0, a.1) == (u, v)
  {
    var cu, cv := g.imageWidth / 2.0, g.imageHeight / 2.0;
    var hx, hy := g.cameraFovH / 2.0, g.cameraFovV / 2.0;
    var a := PixelToAngle(g, u, v);
    assert a.0 == (u - cu) / cu * hx && a.1 == (cv - v) / cv * hy;
    ScaleRoundTrip(u - cu, cu, hx, a.0);
    ScaleRoundTrip(cv - v, cv, hy, a.1);
    var p := AngleToPixel(g, a.0, a.1);
    assert p.0 == cu + a.0 / hx * cu && p.1 == cv - a.1 / hy * cv;
    assert p.0 == u;
    assert p.1 == v;
  }

  /** Mapping angles to a pixel and back gives the angles: every pair of
      angles is seen at some pixel. */
  lemma AnglePixelRoundTrip(g: GeoLocator, alphaX: real, alphaY: real)
    requires HasArea(g) && g.cameraFovH != 0.0 && g.cameraFovV != 0.0
    ensures var p := AngleToPixel(g, alphaX, alphaY); PixelToAngle(g, p.0, p.1) == (alphaX, alphaY)
  {
    var cu, cv := g.imageWidth / 2.0, g.imageHeight / 2.0;
    var hx, hy := g.cameraFovH / 2.0, g.cameraFovV / 2.0;
    var p := AngleToPixel(g, alphaX, alphaY);
    assert p.0 - cu == alphaX / hx * cu && cv - p.1 == alphaY / hy * cv;
    var a := PixelToAngle(g, p.0, p.1);
    ScaleRoundTrip(alphaX, hx, cu, p.0 - cu);
    ScaleRoundTrip(alphaY, hy, cv, cv - p.1);
    assert a.0 == (p.0 - cu) / cu * hx && a.1 == (cv - p.1) / cv * hy;
    assert a.0 == alphaX;
    assert a.1 == alphaY;
  }

  /** Dividing by `c` and multiplying by `h` is undone by dividing by `h`
      and multiplying by `c`. */
  lemma ScaleRoundTrip(x: real, c: real, h: real, y: real)
    requires c != 0.0 && h != 0.0
    requires y == x / c * h
    ensures y / h * c == x
  {
    assert y / h == x / c;
  }

  /** The horizontal angle runs from -fov_h/2 at the left edge to +fov_h/2 at
      the right edge. */
  lemma AlphaXAtEdges(g: GeoLocator, v: real)
    requires HasArea(g)
    ensures PixelToAngle(g, 0.0, v).0 == -g.cameraFovH / 2.0
    ensures PixelToAngle(g, g.imageWidth, v).0 == g.cameraFovH / 2.0
  {
    var cu := g.imageWidth / 2.0;
    assert (0.0 - cu) / cu == -1.0;
    assert (g.imageWidth - cu) / cu == 1.0;
  }

  /** The vertical angle runs from +fov_v/2 at the top edge to -fov_v/2 at the
      bottom edge. */
  lemma AlphaYAtEdges(g: GeoLocator, u: real)
    requires HasArea(g)
    ensures PixelToAngle(g, u, 0.0).1 == g.cameraFovV / 2.0
    ensures PixelToAngle(g, u, g.imageHeight).1 == -g.cameraFovV / 2.0
  {
    var cv := g.imageHeight / 2.0;
    assert (cv - 0.0) / cv == 1.0;
    assert (cv - g.imageHeight) / cv == -1.0;
  }

  /** With a positive width and field of view, the horizontal angle increases
      strictly with `u` and stays within half the field of view inside the
      frame. */
  lemma AlphaXIncreasing(g: GeoLocator, u1: real, u2: real, v: real)
    requires HasArea(g) && g.imageWidth > 0.0 && g.cameraFovH > 0.0
    ensures u1 < u2 ==> PixelToAngle(g, u1, v).0 < PixelToAngle(g, u2, v).0
    ensures 0.0 <= u1 <= g.imageWidth ==> Abs(PixelToAngle(g, u1, v).0) <= g.cameraFovH / 2.0
  {
    var cu, h := g.imageWidth / 2.0, g.cameraFovH / 2.0;
    var a1, a2 := PixelToAngle(g, u1, v).0, PixelToAngle(g, u2, v).0;
    assert a1 == (u1 - cu) / cu * h;
    assert a2 == (u2 - cu) / cu * h;
    if u1 < u2 {
      RatioScaleMonotone(u1 - cu, u2 - cu, cu, h, a1, a2);
    }
    if 0.0 <= u1 <= g.imageWidth {
      RatioScaleBound(u1 - cu, cu, h, a1);
    }
  }

  /** With a positive height and field of view, the vertical angle decreases
      strictly with `v` (it is positive above the centre) and stays within
      half the field of view inside the frame. */
  lemma AlphaYDecreasing(g: GeoLocator, u: real, v1: real, v2: real)
    requires HasArea(g) && g.imageHeight > 0.0 && g.cameraFovV > 0.0
    ensures v1 < v2 ==> PixelToAngle(g, u, v1).1 > PixelToAngle(g, u, v2).1
    ensures 0.0 <= v1 <= g.imageHeight ==> Abs(PixelToAngle(g, u, v1).1) <= g.cameraFovV / 2.0
  {
    var cv, h := g.imageHeight / 2.0, g.cameraFovV / 2.0;
    var a1, a2 := PixelToAngle(g, u, v1).1, PixelToAngle(g, u, v2).1;
    assert a1 == (cv - v1) / cv * h;
    assert a2 == (cv - v2) / cv * h;
    if v1 < v2 {
      RatioScaleMonotone(cv - v2, cv - v1, cv, h, a2, a1);
    }
    if 0.0 <= v1 <= g.imageHeight {
      RatioScaleBound(cv - v1, cv, h, a1);
    }
  }

  /** x / c * h is strictly increasing in x for positive c and h. */
  lemma RatioScaleMonotone(x1: real, x2: real, c: real, h: real, y1: real, y2: real)
    requires x1 < x2 && 0.0 < c && 0.0 < h
    requires y1 == x1 / c * h && y2 == x2 / c * h
    ensures y1 < y2
  {
    assert x1 / c < x2 / c;
  }

  /** x / c * h lies within h of 0 when x lies within c of 0. */
  lemma RatioScaleBound(x: real, c: real, h: real, y: real)
    requires 0.0 < c && -c <= x <= c && 0.0 <= h
    requires y == x / c * h
    ensures Abs(y) <= h
  {
    UnitRatio(x, c);
    OffsetBound(x / c, h);
  }

  /** a / c lies in [-1, 1] when a lies in [-c, c]. */
  lemma UnitRatio(a: real, c: real)
    requires 0.0 < c && -c <= a <= c
    ensures -1.0 <= a / c <= 1.0
  {
    assert a / c * c == a;
  }

  /** |x * h| <= h when |x| <= 1 and h >= 0. */
  lemma OffsetBound(x: real, h: real)
    requires -1.0 <= x <= 1.0 && 0.0 <= h
    ensures Abs(x * h) <= h
  {
    if x >= 0.0 {
      assert x * h <= 1.0 * h;
    } else {
      assert x * h >= -1.0 * h;
    }
  }

  // -------------------------------------------------------------------
  // Ground distance
  // -------------------------------------------------------------------

  /** The two sequential clamps on the distance: negative to 0, then above
      1000 to 1000. */
  function ClampDistance(distance: real): (d: real)
    ensures 0.0 <= d <= MaxDistance
    ensures 0.0 <= distance <= MaxDistance ==> d == distance
    ensures distance < 0.0 ==> d == 0.0
    ensures distance > MaxDistance ==> d == MaxDistance
  {
    var nonNegative := if distance < 0.0 then 0.0 else distance;
    if nonNegative > MaxDistance then MaxDistance else nonNegative
  }

  /** Ground distance seen at `angleRad` below the horizon from `alt`,
      before clamping: the pole of the tangent gives the 10 km sentinel. */
  function RawDistance(t: Trig, alt: real, angleRad: real): (d: real)
    ensures Abs(angleRad - Pi / 2.0) < PoleEpsilon ==> d == SingularDistance
  {
    if Abs(angleRad - Pi / 2.0) < PoleEpsilon then SingularDistance
    else alt * Tan(t, angleRad)
  }

  /** The distance `calculate_gps_location` reports. */
  function GroundDistance(t: Trig, alt: real, angleRad: real): (d: real)
    ensures 0.0 <= d <= MaxDistance
    ensures Abs(angleRad - Pi / 2.0) < PoleEpsilon ==> d == MaxDistance
  {
    ClampDistance(RawDistance(t, alt, angleRad))
  }

  /** Looking straight down (angle 0, tan 0 = 0) the distance is 0, whatever
      the altitude. */
  lemma NadirDistanceIsZero(t: Trig, alt: real)
    requires Lawful(t)
    ensures GroundDistance(t, alt, 0.0) == 0.0
  {
    assert Abs(0.0 - Pi / 2.0) >= PoleEpsilon;
    assert RawDistance(t, alt, 0.0) == alt * 0.0;
  }

  // -------------------------------------------------------------------
  // Destination
  // -------------------------------------------------------------------

  /** The spherical-earth destination point, in degrees, reached from
      (`latDeg`, `lonDeg`) by travelling `distance` metres along
      `bearingDeg`. */
  function Destination(t: Trig, latDeg: real, lonDeg: real, distance: real, bearingDeg: real): (r: (real, real))
  {
    var bearingRad := Radians(bearingDeg);
    var latRad := Radians(latDeg);
    var lonRad := Radians(lonDeg);
    var angularDistance := distance / EarthRadius;
    var newLatRad := Asin(t,
      Sin(t, latRad) * Cos(t, angularDistance) +
      Cos(t, latRad) * Sin(t, angularDistance) * Cos(t, bearingRad));
    var newLonRad := lonRad + Atan2(t,
      Sin(t, bearingRad) * Sin(t, angularDistance) * Cos(t, latRad),
      Cos(t, angularDistance) - Sin(t, latRad) * Sin(t, newLatRad));
    (Degrees(newLatRad), Degrees(newLonRad))
  }

  /** Travelling no distance lands where one started, in any direction, for
      any latitude strictly between the poles. */
  lemma DestinationOfZeroDistance(t: Trig, latDeg: real, lonDeg: real, bearingDeg: real)
    requires Lawful(t) && -90.0 < latDeg < 90.0
    ensures Destination(t, latDeg, lonDeg, 0.0, bearingDeg) == (latDeg, lonDeg)
  {
    var latRad := Radians(latDeg);
    var bearingRad := Radians(bearingDeg);
    var s := Sin(t, latRad);
    assert 0.0 / EarthRadius == 0.0;
    assert -1.0 < s < 1.0;
    assert s * 1.0 + Cos(t, latRad) * 0.0 * Cos(t, bearingRad) == s;
    assert Asin(t, s) == latRad;
    assert Sin(t, bearingRad) * 0.0 * Cos(t, latRad) == 0.0;
    assert 1.0 - s * s > 0.0;
    assert Atan2(t, 0.0, 1.0 - s * s) == 0.0;
    DegreesOfRadians(latDeg);
    DegreesOfRadians(lonDeg);
  }

  // -------------------------------------------------------------------
  // The whole transform
  // -------------------------------------------------------------------

  /** `calculate_gps_location`: the ground fix of pixel (`u`, `v`) seen from
      the given pose. The distance is always within [0, 1000] m, the bearing
      is the heading plus the horizontal angle, not reduced modulo 360. */
  function CalculateGpsLocation(
    g: GeoLocator, t: Trig,
    droneLat: real, droneLon: real, droneAlt: real, droneHeading: real,
    u: real, v: real): (fix: GeoFix)
    requires HasArea(g)
    ensures 0.0 <= fix.distanceM <= MaxDistance
    ensures fix.bearingDeg == droneHeading + PixelToAngle(g, u, v).0
    ensures Abs(Radians(Pitch + PixelToAngle(g, u, v).1) - Pi / 2.0) < PoleEpsilon ==>
      fix.distanceM == MaxDistance
  {
    var (alphaX, alphaY) := PixelToAngle(g, u, v);
    var distance := GroundDistance(t, droneAlt, Radians(Pitch + alphaY));
    var bearingDeg := droneHeading + alphaX;
    var (lat, lon) := Destination(t, droneLat, droneLon, distance, bearingDeg);
    GeoFix(lat, lon, distance, bearingDeg)
  }

  /** The image centre is straight below the drone: its fix is the drone's
      own position at distance 0, bearing the drone's heading. */
  lemma CentrePixelIsBelowDrone(
    g: GeoLocator, t: Trig,
    droneLat: real, droneLon: real, droneAlt: real, droneHeading: real)
    requires HasArea(g) && Lawful(t) && -90.0 < droneLat < 90.0
    ensures CalculateGpsLocation(g, t, droneLat, droneLon, droneAlt, droneHeading,
              g.imageWidth / 2.0, g.imageHeight / 2.0)
            == GeoFix(droneLat, droneLon, 0.0, droneHeading)
  {
    NadirDistanceIsZero(t, droneAlt);
    DestinationOfZeroDistance(t, droneLat, droneLon, droneHeading);
  }

  /** The unit test's case: the default locator, the drone at (0, 0) at
      100 m heading north, the centre pixel (320, 240). */
  lemma DefaultCentreFix(t: Trig)
    requires Lawful(t)
    ensures CalculateGpsLocation(DefaultLocator(), t, 0.0, 0.0, 100.0, 0.0, 320.0, 240.0)
            == GeoFix(0.0, 0.0, 0.0, 0.0)
  {
    CentrePixelIsBelowDrone(DefaultLocator(), t, 0.0, 0.0, 100.0, 0.0);
  }

  /** With the default camera, no pixel inside the frame looks at the
      tangent's pole, so its distance is `alt * tan(angle)` clamped. */
  lemma DefaultFrameAvoidsPole(t: Trig, alt: real, u: real, v: real)
    requires 0.0 <= v <= DefaultLocator().imageHeight
    ensures var angle := Radians(Pitch + PixelToAngle(DefaultLocator(), u, v).1);
      GroundDistance(t, alt, angle) == ClampDistance(alt * Tan(t, angle))
  {
    var alphaY := PixelToAngle(DefaultLocator(), u, v).1;
    AlphaYDecreasing(DefaultLocator(), u, v, v);
    assert -30.0 <= alphaY <= 30.0;
    var angle := Radians(Pitch + alphaY);
    assert angle <= 30.0 * (Pi / 180.0);
    assert Abs(angle - Pi / 2.0) >= PoleEpsilon;
  }
}
