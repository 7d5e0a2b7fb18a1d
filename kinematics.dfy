/**
 * Closed-form kinematics of the projectile without drag (script.js:24-61).
 *
 * The source derives the launch velocity components from the speed and the
 * angle with Math.cos and Math.sin; here they are given as the inputs v0x and
 * v0y, together with the gravity, in a Launch value.
 */
module Kinematics {

  /** A point in the plane: metres in physical space, pixels in display space. */
  datatype Point = Point(x: real, y: real)

  /** The live launch parameters: velocity components (m/s) and gravity (m/s²). */
  datatype Launch = Launch(v0x: real, v0y: real, gravity: real)

  function Max(a: real, b: real): (m: real)
    ensures m >= a && m >= b && (m == a || m == b)
  {
    if a > b then a else b
  }

  /** Position t seconds after launch: uniform motion horizontally,
      uniformly accelerated motion vertically (script.js:24-36). */
  function TrajectoryPoint(l: Launch, t: real): (p: Point)
    ensures t == 0.0 ==> p == Point(0.0, 0.0)
  {
    Point(l.v0x * t, l.v0y * t - 0.5 * l.gravity * t * t)
  }

  /** Time until the projectile is back at launch height (script.js:38-44). */
  function TimeOfFlight(l: Launch): (t: real)
    requires l.gravity > 0.0
    ensures l.v0y >= 0.0 <==> t >= 0.0
  {
    (2.0 * l.v0y) / l.gravity
  }

  /** Horizontal distance covered during the flight (script.js:46-53). */
  function Distance(l: Launch): (d: real)
    requires l.gravity > 0.0
    ensures l.v0x >= 0.0 && l.v0y >= 0.0 ==> d >= 0.0
  {
    l.v0x * TimeOfFlight(l)
  }

  /** Height of the apex above launch height (script.js:55-61). */
  function MaxHeight(l: Launch): (h: real)
    requires l.gravity > 0.0
    ensures h >= 0.0
  {
    (l.v0y * l.v0y) / (2.0 * l.gravity)
  }

  /** The moment the vertical velocity is zero; not computed by the source,
      but the point at which MaxHeight is attained. */
  function ApexTime(l: Launch): real
    requires l.gravity > 0.0
  {
    l.v0y / l.gravity
  }

  /** At the time of flight the projectile is back on the ground, at the
      distance calculateDistance reports. */
  lemma LandsAtTimeOfFlight(l: Launch)
    requires l.gravity > 0.0
    ensures TrajectoryPoint(l, TimeOfFlight(l)) == Point(Distance(l), 0.0)
  {
    // with g·T = 2·v0y, the height v0y·T − ½·g·T² is T·(v0y − v0y) = 0
  }

  /** The height misses the apex height by (g/2)(t - v0y/g)². */
  lemma HeightGap(l: Launch, t: real)
    requires l.gravity > 0.0
    ensures MaxHeight(l) - TrajectoryPoint(l, t).y
         == 0.5 * l.gravity * (t - ApexTime(l)) * (t - ApexTime(l))
  {
    // with a = v0y/g, H = ½·g·a² and v0y·t = g·a·t, so the gap is ½·g·(a² − 2at + t²)
  }

  /** No point of the trajectory is higher than calculateMaxHeight, and the
      apex reaches it. */
  lemma HeightBounded(l: Launch, t: real)
    requires l.gravity > 0.0
    ensures TrajectoryPoint(l, t).y <= MaxHeight(l)
    ensures TrajectoryPoint(l, ApexTime(l)).y == MaxHeight(l)
  {
    HeightGap(l, t);
    HeightGap(l, ApexTime(l));
    var d := t - ApexTime(l);
    assert d * d >= 0.0;
    assert 0.5 * l.gravity * d * d >= 0.0 by {
      assert 0.5 * l.gravity * d * d == (0.5 * l.gravity) * (d * d);
    }
  }

  /** For a launch that does not point downwards, the projectile is on or
      above the ground exactly until the time of flight: the time test of
      the playback loop is the ground-crossing test. */
  lemma AboveGroundUntilLanding(l: Launch, t: real)
    requires l.gravity > 0.0 && l.v0y >= 0.0 && t >= 0.0
    ensures TrajectoryPoint(l, t).y >= 0.0 <==> t <= TimeOfFlight(l)
  {
    var g, v := l.gravity, l.v0y;
    var y := TrajectoryPoint(l, t).y;
    assert y == t * (v - 0.5 * g * t);
    if t <= TimeOfFlight(l) {
      assert g * t <= 2.0 * v by {
        assert g * TimeOfFlight(l) == 2.0 * v;
      }
      assert v - 0.5 * g * t >= 0.0;
    } else {
      assert g * t > 2.0 * v by {
        assert g * TimeOfFlight(l) == 2.0 * v;
      }
      assert t > 0.0;
      assert v - 0.5 * g * t < 0.0;
      assert y < 0.0;
    }
  }
}
