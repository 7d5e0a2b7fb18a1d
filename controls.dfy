/**
 * The arrow buttons beside each slider (script.js:261-278): decrease moves
 * the value one step down but not below the minimum, increase one step up
 * but not above the maximum.
 */
module Controls {

  /** The configuration of one pair of arrow buttons. */
  datatype Arrow = Arrow(step: real, min: real, max: real)

  /** The four pairs the page creates (script.js:275-278). */
  const MASS_ARROW: Arrow := Arrow(0.01, 1.0, 31.0)
  const GRAVITY_ARROW: Arrow := Arrow(0.01, 0.0, 20.0)
  const ANGLE_ARROW: Arrow := Arrow(1.0, 0.0, 90.0)
  const SPEED_ARROW: Arrow := Arrow(0.1, 0.0, 30.0)

  predicate WellFormed(a: Arrow) {
    a.step > 0.0 && a.min <= a.max
  }

  /** Math.max(v - step, min), script.js:264. */
  function Decrease(a: Arrow, v: real): (r: real)
    ensures r >= a.min
    ensures r >= v - a.step
    ensures r == v - a.step || r == a.min
  {
    if v - a.step > a.min then v - a.step else a.min
  }

  /** Math.min(v + step, max), script.js:270. */
  function Increase(a: Arrow, v: real): (r: real)
    ensures r <= a.max
    ensures r <= v + a.step
    ensures r == v + a.step || r == a.max
  {
    if v + a.step < a.max then v + a.step else a.max
  }

  lemma ConfiguredArrowsWellFormed()
    ensures WellFormed(MASS_ARROW) && WellFormed(GRAVITY_ARROW)
    ensures WellFormed(ANGLE_ARROW) && WellFormed(SPEED_ARROW)
  {
  }

  /** Within range, decrease never raises the value and increase never
      lowers it, and both keep it within range. */
  lemma ArrowsStayInRange(a: Arrow, v: real)
    requires WellFormed(a) && a.min <= v <= a.max
    ensures a.min <= Decrease(a, v) <= v
    ensures v <= Increase(a, v) <= a.max
  {
  }

  /** Away from the bounds, one press of each button undoes the other. */
  lemma ArrowsUndoEachOther(a: Arrow, v: real)
    requires WellFormed(a)
    ensures a.min <= v && v + a.step <= a.max ==> Decrease(a, Increase(a, v)) == v
    ensures v <= a.max && a.min <= v - a.step ==> Increase(a, Decrease(a, v)) == v
  {
  }

  /** Holding increase: n presses from an in-range value land in range,
      and move the value up by n steps unless the maximum was hit. */
  function PressIncrease(a: Arrow, v: real, n: nat): real
  {
    if n == 0 then v else Increase(a, PressIncrease(a, v, n - 1))
  }

  lemma {:induction false} PressIncreaseBounded(a: Arrow, v: real, n: nat)
    requires WellFormed(a) && a.min <= v <= a.max
    ensures v <= PressIncrease(a, v, n) <= a.max
    ensures PressIncrease(a, v, n) == v + n as real * a.step
         || PressIncrease(a, v, n) == a.max
    ensures v + n as real * a.step <= a.max ==> PressIncrease(a, v, n) == v + n as real * a.step
    ensures v + n as real * a.step > a.max ==> PressIncrease(a, v, n) == a.max
  {
    if n > 0 {
      PressIncreaseBounded(a, v, n - 1);
      ArrowsStayInRange(a, PressIncrease(a, v, n - 1));
    }
  }
}
