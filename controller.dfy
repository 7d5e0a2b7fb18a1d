/**
 * The playback globals of script.js (lines 6-14) as the fields of one
 * object, with one method per command. Each method updates the fields in
 * place, as the event handlers do, and its contract ties the new fields to
 * the matching Playback function of the old ones.
 *
 * launch and cannonTip hold the live slider values: the velocity components
 * and the muzzle position, which the source computes from the speed and
 * angle with Math.cos and Math.sin (script.js:25-27, 63-71).
 */
module Controller {
  import opened Kinematics
  import opened Display
  import opened Playback

  class Simulation {
    var time: real
    var isAnimating: bool
    var isPaused: bool
    var landingPoint: Option<Point>
    var maxHeight: real
    var trajectory: seq<Point>
    var projectilePos: Point
    var cannonTip: Point
    var launch: Launch

    /** The playback globals as one value. */
    function Snapshot(): State
      reads this
    {
      State(time, isAnimating, isPaused, landingPoint, maxHeight, trajectory, projectilePos)
    }

    ghost predicate Valid()
      reads this
    {
      launch.gravity > 0.0 && Consistent(Snapshot())
    }

    /** Page load (script.js:6-14, 280-283). */
    constructor (l: Launch, tip: Point)
      requires l.gravity > 0.0
      ensures Valid()
      ensures Snapshot() == Initial(tip) && launch == l && cannonTip == tip
    {
      time := 0.0;
      isAnimating := false;
      isPaused := false;
      landingPoint := None;
      maxHeight := 0.0;
      trajectory := [];
      projectilePos := tip;
      cannonTip := tip;
      launch := l;
      new;
      InitialConsistent(tip);
    }

    /** A slider change (script.js:236-259): the parameters are replaced
        and nothing else, also in mid-flight. */
    method Adjust(l: Launch, tip: Point)
      requires Valid() && l.gravity > 0.0
      modifies this
      ensures Valid()
      ensures Snapshot() == old(Snapshot()) && launch == l && cannonTip == tip
    {
      launch := l;
      cannonTip := tip;
    }

    /** One animation frame, animate() (script.js:146-183). */
    method Tick()
      requires Valid()
      modifies this
      ensures Valid()
      ensures Snapshot() == Animate(old(Snapshot()), launch, cannonTip)
      ensures launch == old(launch) && cannonTip == old(cannonTip)
    {
      AnimateConsistent(Snapshot(), launch, cannonTip);
      if !isPaused && isAnimating {
        time := time + DT;
        var totalTime := TimeOfFlight(launch);
        var totalDistance := Distance(launch);
        if time <= totalTime {
          var pos := TrajectoryPoint(launch, time);
          projectilePos := ToPixel(cannonTip, pos);
          trajectory := trajectory + [projectilePos];
          var currentHeight := pos.y;
          if currentHeight > maxHeight {
            maxHeight := currentHeight;
          }
        } else {
          isAnimating := false;
          landingPoint := Some(Point(totalDistance, 0.0));
        }
      }
    }

    /** The fire button (script.js:185-200). */
    method Fire()
      requires Valid()
      modifies this
      ensures Valid()
      ensures Snapshot() == Playback.Fire(old(Snapshot()), launch, cannonTip)
      ensures launch == old(launch) && cannonTip == old(cannonTip)
    {
      if !isAnimating {
        time := 0.0;
        isAnimating := true;
        isPaused := false;
        landingPoint := None;
        maxHeight := 0.0;
        trajectory := [];
        projectilePos := cannonTip;
        InitialConsistent(cannonTip);
        Tick();
      }
    }

    /** The pause button (script.js:202-204). */
    method Pause()
      requires Valid()
      modifies this
      ensures Valid()
      ensures Snapshot() == Playback.Pause(old(Snapshot()))
      ensures launch == old(launch) && cannonTip == old(cannonTip)
    {
      isPaused := true;
    }

    /** The play button (script.js:206-211). */
    method Play()
      requires Valid()
      modifies this
      ensures Valid()
      ensures Snapshot() == Playback.Play(old(Snapshot()), launch, cannonTip)
      ensures launch == old(launch) && cannonTip == old(cannonTip)
    {
      if isAnimating {
        isPaused := false;
        Tick();
      }
    }

    /** The reset button (script.js:213-229). */
    method Reset()
      requires Valid()
      modifies this
      ensures Valid()
      ensures Snapshot() == Playback.Reset(cannonTip)
      ensures launch == old(launch) && cannonTip == old(cannonTip)
    {
      isAnimating := false;
      isPaused := false;
      time := 0.0;
      landingPoint := None;
      maxHeight := 0.0;
      trajectory := [];
      projectilePos := cannonTip;
      InitialConsistent(cannonTip);
    }
  }

  /** A client of the class: when two frames fit in the time of flight,
      fire, pause, a frame while paused and play draw two closed-form
      samples and the paused frame draws nothing. */
  method FirePausePlay(l: Launch, tip: Point)
    requires l.gravity > 0.0 && 2.0 * DT <= TimeOfFlight(l)
  {
    var sim := new Simulation(l, tip);
    sim.Fire();
    FireOnCourse(Initial(tip), l, tip);
    assert sim.trajectory == [ToPixel(tip, TrajectoryPoint(l, DT))];
    sim.Pause();
    sim.Tick();
    assert |sim.trajectory| == 1;
    sim.Play();
    assert sim.time == 2.0 * DT;
    assert sim.trajectory[1] == ToPixel(tip, TrajectoryPoint(l, 2.0 * DT));
  }
}
