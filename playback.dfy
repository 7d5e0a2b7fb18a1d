/**
 * The playback engine of script.js as a pure state machine: the
 * module-level globals (script.js:6-14) form a State, and each command
 * (one animation frame, fire, pause, play, reset) is a function from the
 * state before to the state after. The Controller module's class runs
 * these same transitions in place.
 *
 * The launch parameters and the cannon tip are read live at every command,
 * as the source does; a caller may change them between commands.
 */
module Playback {
  import opened Kinematics
  import opened Display

  datatype Option<T> = None | Some(value: T)

  /** The simulated seconds one animation frame advances (script.js:148). */
  const DT: real := 0.05

  /** The playback globals; trajectory and projectilePos are in pixels,
      landingPoint and maxHeight in metres. */
  datatype State = State(
    time: real,
    isAnimating: bool,
    isPaused: bool,
    landingPoint: Option<Point>,
    maxHeight: real,
    trajectory: seq<Point>,
    projectilePos: Point)

  /** The state at page load (script.js:6-14, 280-283). */
  function Initial(tip: Point): State {
    State(0.0, false, false, None, 0.0, [], tip)
  }

  /** One animation frame, animate() at script.js:146-183. */
  function Animate(s: State, l: Launch, tip: Point): (r: State)
    requires l.gravity > 0.0
    ensures s.isPaused || !s.isAnimating ==> r == s
    ensures r.maxHeight >= s.maxHeight
    ensures s.trajectory <= r.trajectory && |r.trajectory| <= |s.trajectory| + 1
  {
    if !s.isPaused && s.isAnimating then
      var t := s.time + DT;
      if t <= TimeOfFlight(l) then
        var pos := TrajectoryPoint(l, t);
        var px := ToPixel(tip, pos);
        s.(time := t,
           projectilePos := px,
           trajectory := s.trajectory + [px],
           maxHeight := if pos.y > s.maxHeight then pos.y else s.maxHeight)
      else
        s.(time := t,
           isAnimating := false,
           landingPoint := Some(Point(Distance(l), 0.0)))
    else
      s
  }

  /** The state the fire button sets up before its first frame
      (script.js:187-195). */
  function Armed(tip: Point): State {
    State(0.0, true, false, None, 0.0, [], tip)
  }

  /** The fire button (script.js:185-200): ignored while a flight is in
      progress, otherwise a fresh flight whose first frame runs at once. */
  function Fire(s: State, l: Launch, tip: Point): (r: State)
    requires l.gravity > 0.0
    ensures s.isAnimating ==> r == s
    ensures !s.isAnimating ==> r.time == DT && !r.isPaused && |r.trajectory| <= 1
  {
    if s.isAnimating then s else Animate(Armed(tip), l, tip)
  }

  /** The pause button (script.js:202-204), accepted in every state. */
  function Pause(s: State): (r: State)
    ensures r.isPaused && r.(isPaused := s.isPaused) == s
  {
    s.(isPaused := true)
  }

  /** The play button (script.js:206-211): during a flight it clears the
      pause and runs a frame at once; otherwise it is ignored. */
  function Play(s: State, l: Launch, tip: Point): (r: State)
    requires l.gravity > 0.0
    ensures !s.isAnimating ==> r == s
    ensures s.isAnimating ==> !r.isPaused && r.time == s.time + DT
  {
    if s.isAnimating then Animate(s.(isPaused := false), l, tip) else s
  }

  /** The reset button (script.js:213-229); tip is the recomputed cannon tip. */
  function Reset(tip: Point): (r: State)
    ensures !r.isAnimating && !r.isPaused && r.landingPoint == None
    ensures r.time == 0.0 && r.maxHeight == 0.0 && r.trajectory == []
    ensures r.projectilePos == tip
  {
    Initial(tip)
  }

  //
  // The invariant every reachable state keeps.
  //

  /** A landing ends the flight; the clock counts one frame per recorded
      sample, plus the landing frame; between reset and fire nothing is
      recorded. */
  ghost predicate Consistent(s: State) {
    && (s.landingPoint.Some? ==> !s.isAnimating)
    && s.time == (|s.trajectory| + (if s.landingPoint.Some? then 1 else 0)) as real * DT
    && (!s.isAnimating && s.landingPoint.None? ==> s.trajectory == [] && s.maxHeight == 0.0)
    && s.maxHeight >= 0.0
  }

  lemma InitialConsistent(tip: Point)
    ensures Consistent(Initial(tip)) && Consistent(Armed(tip))
  {
  }

  lemma AnimateConsistent(s: State, l: Launch, tip: Point)
    requires l.gravity > 0.0 && Consistent(s)
    ensures Consistent(Animate(s, l, tip))
  {
  }

  lemma CommandsConsistent(s: State, l: Launch, tip: Point)
    requires l.gravity > 0.0 && Consistent(s)
    ensures Consistent(Fire(s, l, tip))
    ensures Consistent(Pause(s))
    ensures Consistent(Play(s, l, tip))
    ensures Consistent(Reset(tip))
  {
    InitialConsistent(tip);
    AnimateConsistent(Armed(tip), l, tip);
    AnimateConsistent(s.(isPaused := false), l, tip);
  }

  //
  // One frame, case by case.
  //

  /** A frame that stays within the time of flight advances the clock by
      exactly DT, appends exactly the drawn point and keeps the earlier
      ones, and raises maxHeight to the new height if that is higher. */
  lemma FlightFrame(s: State, l: Launch, tip: Point)
    requires l.gravity > 0.0 && s.isAnimating && !s.isPaused
    requires s.time + DT <= TimeOfFlight(l)
    ensures var r := Animate(s, l, tip);
            var pos := TrajectoryPoint(l, s.time + DT);
            && r.time == s.time + DT
            && r.trajectory == s.trajectory + [ToPixel(tip, pos)]
            && r.projectilePos == ToPixel(tip, pos)
            && r.maxHeight == Max(s.maxHeight, pos.y)
            && r.isAnimating && !r.isPaused && r.landingPoint == s.landingPoint
  {
  }

  /** The frame that passes the time of flight ends the flight on the
      ground at calculateDistance and records nothing. */
  lemma LandingFrame(s: State, l: Launch, tip: Point)
    requires l.gravity > 0.0 && s.isAnimating && !s.isPaused
    requires s.time + DT > TimeOfFlight(l)
    ensures var r := Animate(s, l, tip);
            && !r.isAnimating
            && r.landingPoint == Some(Point(Distance(l), 0.0))
            && r.trajectory == s.trajectory && r.maxHeight == s.maxHeight
            && r.projectilePos == s.projectilePos
            && r.isPaused == s.isPaused
            && r.time == s.time + DT
  {
  }

  /** n animation frames with the parameters held fixed. */
  function Frames(s: State, l: Launch, tip: Point, n: nat): State
    requires l.gravity > 0.0
  {
    if n == 0 then s else Animate(Frames(s, l, tip, n - 1), l, tip)
  }

  /** Once a flight has ended (landed or reset), further frames change
      nothing until fire: the landing happens once. */
  lemma {:induction false} StoppedStaysStopped(s: State, l: Launch, tip: Point, n: nat)
    requires l.gravity > 0.0 && !s.isAnimating
    ensures Frames(s, l, tip, n) == s
  {
    if n > 0 {
      StoppedStaysStopped(s, l, tip, n - 1);
    }
  }

  /** While paused, frames change nothing. */
  lemma {:induction false} PausedStaysPut(s: State, l: Launch, tip: Point, n: nat)
    requires l.gravity > 0.0 && s.isPaused
    ensures Frames(s, l, tip, n) == s
  {
    if n > 0 {
      PausedStaysPut(s, l, tip, n - 1);
    }
  }

  /** Pausing a running flight, letting any number of frames pass, and
      pressing play gives exactly the state the next uninterrupted frame
      would have given. */
  lemma PauseThenPlay(s: State, l: Launch, tip: Point, n: nat)
    requires l.gravity > 0.0 && s.isAnimating && !s.isPaused
    ensures Play(Frames(Pause(s), l, tip, n), l, tip) == Animate(s, l, tip)
  {
    PausedStaysPut(Pause(s), l, tip, n);
    assert Pause(s).(isPaused := false) == s;
  }

  /** Across any number of frames maxHeight never decreases and the
      recorded trajectory only grows at its end. */
  lemma {:induction false} FramesOnlyExtend(s: State, l: Launch, tip: Point, n: nat)
    requires l.gravity > 0.0
    ensures Frames(s, l, tip, n).maxHeight >= s.maxHeight
    ensures s.trajectory <= Frames(s, l, tip, n).trajectory
    ensures |Frames(s, l, tip, n).trajectory| <= |s.trajectory| + n
  {
    if n > 0 {
      FramesOnlyExtend(s, l, tip, n - 1);
    }
  }

  //
  // A whole flight with fixed parameters follows the closed-form trajectory.
  //

  /** The first k drawn points of a flight: sample i is the trajectory
      point at (i + 1) frames. */
  function Course(l: Launch, tip: Point, k: nat): (c: seq<Point>)
    ensures |c| == k
  {
    seq(k, i => ToPixel(tip, TrajectoryPoint(l, (i + 1) as real * DT)))
  }

  /** The running maximum maxHeight holds after k recorded samples. */
  function Peak(l: Launch, k: nat): real {
    if k == 0 then 0.0 else Max(Peak(l, k - 1), TrajectoryPoint(l, k as real * DT).y)
  }

  /** A flight in progress that has drawn exactly the closed-form samples. */
  ghost predicate OnCourse(s: State, l: Launch, tip: Point)
    requires l.gravity > 0.0
  {
    && s.isAnimating && !s.isPaused && s.landingPoint.None?
    && s.time == |s.trajectory| as real * DT
    && s.time <= TimeOfFlight(l)
    && s.trajectory == Course(l, tip, |s.trajectory|)
    && s.maxHeight == Peak(l, |s.trajectory|)
  }

  /** Firing when the first frame is within the time of flight starts a
      flight on course with one sample. */
  lemma FireOnCourse(s: State, l: Launch, tip: Point)
    requires l.gravity > 0.0 && !s.isAnimating && DT <= TimeOfFlight(l)
    ensures OnCourse(Fire(s, l, tip), l, tip)
    ensures |Fire(s, l, tip).trajectory| == 1
  {
  }

  /** Firing when even the first frame passes the time of flight lands at
      once, with nothing drawn. */
  lemma FireLandsAtOnce(s: State, l: Launch, tip: Point)
    requires l.gravity > 0.0 && !s.isAnimating && DT > TimeOfFlight(l)
    ensures var r := Fire(s, l, tip);
            !r.isAnimating && r.landingPoint == Some(Point(Distance(l), 0.0))
            && r.trajectory == [] && r.maxHeight == 0.0
  {
  }

  /** A frame from a state on course either draws the next closed-form
      sample and stays on course, or lands with the trajectory intact. */
  lemma AnimateOnCourse(s: State, l: Launch, tip: Point)
    requires l.gravity > 0.0 && OnCourse(s, l, tip)
    ensures var k := |s.trajectory|;
            var r := Animate(s, l, tip);
            if (k + 1) as real * DT <= TimeOfFlight(l) then
              OnCourse(r, l, tip) && |r.trajectory| == k + 1
            else
              !r.isAnimating && r.landingPoint == Some(Point(Distance(l), 0.0))
              && r.trajectory == s.trajectory && r.maxHeight == s.maxHeight
  {
  }

  /** The running maximum never exceeds calculateMaxHeight. */
  lemma {:induction false} PeakBelowMaxHeight(l: Launch, k: nat)
    requires l.gravity > 0.0
    ensures 0.0 <= Peak(l, k) <= MaxHeight(l)
  {
    if k > 0 {
      PeakBelowMaxHeight(l, k - 1);
      HeightBounded(l, k as real * DT);
    }
  }

  /** On course, the height shown is at most calculateMaxHeight and every
      drawn point is at or above the muzzle's height on the canvas. */
  lemma OnCourseAboveGround(s: State, l: Launch, tip: Point)
    requires l.gravity > 0.0 && OnCourse(s, l, tip)
    ensures s.maxHeight <= MaxHeight(l)
    ensures forall i :: 0 <= i < |s.trajectory| ==> s.trajectory[i].y <= tip.y
  {
    PeakBelowMaxHeight(l, |s.trajectory|);
    forall i | 0 <= i < |s.trajectory|
      ensures s.trajectory[i].y <= tip.y
    {
      var t := (i + 1) as real * DT;
      assert 0.0 <= t <= s.time;
      AboveGroundBeforeLanding(l, t);
      ToPixelOrder(tip, TrajectoryPoint(l, t), TrajectoryPoint(l, t));
    }
  }

  /** Up to the time of flight the height is not negative (whatever the
      sign of v0y, since t <= TimeOfFlight already forces v0y >= 0). */
  lemma AboveGroundBeforeLanding(l: Launch, t: real)
    requires l.gravity > 0.0 && 0.0 <= t <= TimeOfFlight(l)
    ensures TrajectoryPoint(l, t).y >= 0.0
  {
    AboveGroundUntilLanding(l, t);
  }
}
