/**
 * The two cars (AbstractCar, PlayerCar and ComputerCar in CarGame.py). The shared base class is
 * the class Car; each kind of car holds its Car and adds its own operations.
 */
module Cars {
  import opened Kinematics
  import opened Steering

  /** `PlayerCar.START_POSITION`. */
  const PlayerStart: (real, real) := (180.0, 200.0)

  /** `ComputerCar.START_POSITION`. */
  const ComputerStart: (real, real) := (150.0, 200.0)

  /** The state and operations every car has. */
  class Car {
    const maxSpeed: real
    const turnSpeed: real
    const start: (real, real)
    var x: real
    var y: real
    var heading: real
    var speed: real

    function State(): Motion
      reads this
    {
      Motion(x, y, heading, speed)
    }

    constructor (maxSpeed: real, turnSpeed: real, start: (real, real))
      ensures this.maxSpeed == maxSpeed && this.turnSpeed == turnSpeed && this.start == start
      ensures State() == AtStart(start)
    {
      this.maxSpeed := maxSpeed;
      this.turnSpeed := turnSpeed;
      this.start := start;
      x, y := start.0, start.1;
      heading := 0.0;
      speed := 0.0;
    }

    /** Turns by turnSpeed degrees: left wins when both are asked for. Position is not updated. */
    method Rotate(left: bool, right: bool)
      modifies this
      ensures heading == old(heading) + (if left then turnSpeed else if right then -turnSpeed else 0.0)
      ensures x == old(x) && y == old(y) && speed == old(speed)
    {
      if left {
        heading := heading + turnSpeed;
      } else if right {
        heading := heading - turnSpeed;
      }
    }

    /** Moves the car one tick along its heading at its speed. */
    method UpdateMotion(trig: Trig)
      modifies this
      ensures State() == Moved(old(State()), trig)
    {
      var vert := trig.cosDeg(heading) * speed;
      var horiz := trig.sinDeg(heading) * speed;
      y := y - vert;
      x := x - horiz;
    }

    method AccelerateForward(trig: Trig)
      modifies this
      ensures speed <= maxSpeed
      ensures State() == Moved(old(State()).(speed := Forward(old(speed), maxSpeed)), trig)
    {
      speed := Min(speed + Acceleration, maxSpeed);
      UpdateMotion(trig);
    }

    method AccelerateBackward(trig: Trig)
      modifies this
      ensures speed >= -maxSpeed / 2.0
      ensures State() == Moved(old(State()).(speed := Backward(old(speed), maxSpeed)), trig)
    {
      speed := Max(speed - Acceleration, -maxSpeed / 2.0);
      UpdateMotion(trig);
    }

    /** Back to the start coordinate, facing up, at rest, whatever the previous state. */
    method ResetState()
      modifies this
      ensures State() == AtStart(start)
    {
      x, y := start.0, start.1;
      heading := 0.0;
      speed := 0.0;
    }
  }

  /** The human-driven car. */
  class PlayerCar {
    const car: Car

    constructor (maxSpeed: real, turnSpeed: real)
      ensures fresh(car)
      ensures car.maxSpeed == maxSpeed && car.turnSpeed == turnSpeed && car.start == PlayerStart
      ensures car.State() == AtStart(PlayerStart)
    {
      car := new Car(maxSpeed, turnSpeed, PlayerStart);
    }

    /** Slows the car when no drive key is held; it never ends up moving backwards. */
    method ApplyFriction(trig: Trig)
      modifies car
      ensures car.speed >= 0.0
      ensures car.State() == Moved(old(car.State()).(speed := Friction(old(car.speed))), trig)
    {
      car.speed := Max(car.speed - Acceleration / 2.0, 0.0);
      car.UpdateMotion(trig);
    }

    /** Reverses the car for one tick after it touches the track border. */
    method Bounce(trig: Trig)
      modifies car
      ensures car.speed == -old(car.speed)
      ensures car.State() == Bounced(old(car.State()), trig)
    {
      car.speed := -car.speed;
      car.UpdateMotion(trig);
    }
  }

  /** The AI car, which follows a fixed list of waypoints. */
  class ComputerCar {
    const car: Car
    const waypoints: seq<(int, int)>
    var waypointIndex: nat

    /** Unlike the player, the AI car starts at its maximum speed. */
    constructor (maxSpeed: real, turnSpeed: real, waypoints: seq<(int, int)>)
      ensures fresh(car)
      ensures car.maxSpeed == maxSpeed && car.turnSpeed == turnSpeed && car.start == ComputerStart
      ensures car.State() == AtStart(ComputerStart).(speed := maxSpeed)
      ensures this.waypoints == waypoints && waypointIndex == 0
    {
      car := new Car(maxSpeed, turnSpeed, ComputerStart);
      this.waypoints := waypoints;
      waypointIndex := 0;
      new;
      car.speed := maxSpeed;
    }

    /** Turns towards the current waypoint by at most turnSpeed degrees. */
    method ComputeAngle(trig: Trig)
      requires waypointIndex < |waypoints|
      modifies car
      ensures car.State() == old(car.State()).(heading :=
        Steer(old(car.heading), DesiredAngle(trig, old(car.x), old(car.y), waypoints[waypointIndex]), car.turnSpeed))
    {
      var desired := DesiredAngle(trig, car.x, car.y, waypoints[waypointIndex]);
      var angleDelta := car.heading - desired;
      if angleDelta >= 180.0 {
        angleDelta := angleDelta - 360.0;
      }
      if angleDelta > 0.0 {
        car.heading := car.heading - Min(car.turnSpeed, Abs(angleDelta));
      } else {
        car.heading := car.heading + Min(car.turnSpeed, Abs(angleDelta));
      }
    }

    /**
     * Targets the next waypoint once the car's sprite rectangle contains the current one;
     * `containsTarget` is the result of that containment test.
     */
    method AdvanceWaypoint(containsTarget: bool)
      requires waypointIndex < |waypoints|
      modifies this
      ensures waypointIndex == old(waypointIndex) + (if containsTarget then 1 else 0)
    {
      if containsTarget {
        waypointIndex := waypointIndex + 1;
      }
    }

    /** One AI tick: steer, maybe move to the next waypoint, then move; nothing once the waypoints are used up. */
    method UpdateMotion(trig: Trig, containsTarget: bool)
      modifies this, car
      ensures waypointIndex == NextIndex(old(waypointIndex), |waypoints|, containsTarget)
      ensures old(waypointIndex) >= |waypoints| ==> car.State() == old(car.State())
      ensures old(waypointIndex) < |waypoints| ==>
        car.State() == Moved(old(car.State()).(heading :=
          Steer(old(car.heading), DesiredAngle(trig, old(car.x), old(car.y), waypoints[old(waypointIndex)]),
                car.turnSpeed)), trig)
    {
      if waypointIndex >= |waypoints| {
        return;
      }
      ComputeAngle(trig);
      AdvanceWaypoint(containsTarget);
      car.UpdateMotion(trig);
    }

    /** Puts the AI car back at the start with the given stage's speed, targeting the first waypoint. */
    method AdvanceLevel(stage: int)
      modifies this, car
      ensures car.State() == AtStart(car.start).(speed := AiStageSpeed(car.maxSpeed, stage))
      ensures waypointIndex == 0
    {
      car.ResetState();
      car.speed := car.maxSpeed + (stage - 1) as real * StageSpeedStep;
      waypointIndex := 0;
    }
  }
}
