/**
 * Speed and position rules shared by both cars (AbstractCar and PlayerCar in CarGame.py).
 * Speeds and coordinates are exact reals; trigonometry is supplied by the caller as a Trig value.
 */
module Kinematics {

  /** `self.acceleration`: the per-tick change of speed when accelerating. */
  const Acceleration: real := 0.1

  /** Friction removes half the acceleration per tick. */
  const FrictionStep: real := Acceleration / 2.0

  /**
   * The trigonometry the game takes from Python's math module, in degrees:
   * sinDeg(h) is math.sin(math.radians(h)), cosDeg(h) is math.cos(math.radians(h)),
   * atanDeg(v) is math.degrees(math.atan(v)).
   */
  datatype Trig = Trig(sinDeg: real -> real, cosDeg: real -> real, atanDeg: real -> real)

  /** The kinematic state of one car: position, heading in degrees, and signed speed. */
  datatype Motion = Motion(x: real, y: real, heading: real, speed: real)

  function Min(a: real, b: real): real { if a <= b then a else b }

  function Max(a: real, b: real): real { if a >= b then a else b }

  /** The state `reset_state` restores: the car's start coordinate, heading 0, speed 0. */
  function AtStart(start: (real, real)): (m: Motion)
    ensures m.x == start.0 && m.y == start.1
    ensures m.heading == 0.0 && m.speed == 0.0
  {
    Motion(start.0, start.1, 0.0, 0.0)
  }

  /** One positional update: heading 0 faces up the screen, positive headings turn left. */
  function Moved(m: Motion, trig: Trig): (r: Motion)
    ensures r.heading == m.heading && r.speed == m.speed
    ensures m.speed == 0.0 ==> r == m
  {
    m.(x := m.x - trig.sinDeg(m.heading) * m.speed,
       y := m.y - trig.cosDeg(m.heading) * m.speed)
  }

  /** Speed after `accelerate_forward`: one acceleration step, capped at the maximum. */
  function Forward(speed: real, maxSpeed: real): (r: real)
    ensures r <= maxSpeed && r <= speed + Acceleration
    ensures r == maxSpeed || r == speed + Acceleration
  {
    Min(speed + Acceleration, maxSpeed)
  }

  /** Speed after `accelerate_backward`: one step down, floored at minus half the maximum. */
  function Backward(speed: real, maxSpeed: real): (r: real)
    ensures r >= -maxSpeed / 2.0 && r >= speed - Acceleration
    ensures r == -maxSpeed / 2.0 || r == speed - Acceleration
  {
    Max(speed - Acceleration, -maxSpeed / 2.0)
  }

  /** Speed after `apply_friction`: half a step down, floored at zero. */
  function Friction(speed: real): (r: real)
    ensures r >= 0.0 && r >= speed - FrictionStep
    ensures r == 0.0 || r == speed - FrictionStep
    ensures speed >= 0.0 ==> r <= speed
  {
    Max(speed - FrictionStep, 0.0)
  }

  /** The state after `bounce`: speed negated, then one positional update. */
  function Bounced(m: Motion, trig: Trig): (r: Motion)
    ensures r.speed == -m.speed && r.heading == m.heading
  {
    Moved(m.(speed := -m.speed), trig)
  }

  /** The speed band that accelerating and friction keep. */
  predicate InRange(speed: real, maxSpeed: real)
  {
    -maxSpeed / 2.0 <= speed <= maxSpeed
  }

  lemma SpeedRulesStayInRange(speed: real, maxSpeed: real)
    requires maxSpeed >= 0.0 && InRange(speed, maxSpeed)
    ensures InRange(Forward(speed, maxSpeed), maxSpeed)
    ensures InRange(Backward(speed, maxSpeed), maxSpeed)
    ensures InRange(Friction(speed), maxSpeed)
  {
  }

  /** Bouncing is not bounded by the band: any speed above half the maximum leaves it. */
  lemma BounceLeavesRange(speed: real, maxSpeed: real)
    requires maxSpeed / 2.0 < speed <= maxSpeed
    ensures InRange(speed, maxSpeed) && !InRange(-speed, maxSpeed)
  {
  }

  /** With exact arithmetic, bouncing twice restores speed and position. */
  lemma BounceTwiceRestores(m: Motion, trig: Trig)
    ensures Bounced(Bounced(m, trig), trig) == m
  {
  }

  /** Speed after n consecutive ticks of friction. */
  function FrictionIter(speed: real, n: nat): real
    decreases n
  {
    if n == 0 then speed else FrictionIter(Friction(speed), n - 1)
  }

  lemma {:induction false} FrictionIterClosedForm(speed: real, n: nat)
    requires speed >= 0.0
    ensures FrictionIter(speed, n) == Max(speed - n as real * FrictionStep, 0.0)
    decreases n
  {
    if n > 0 {
      FrictionIterClosedForm(Friction(speed), n - 1);
    }
  }

  /** Repeated friction from a non-negative speed never increases it and never goes below zero. */
  lemma FrictionNonIncreasing(speed: real, n: nat)
    requires speed >= 0.0
    ensures 0.0 <= FrictionIter(speed, n + 1) <= FrictionIter(speed, n)
  {
    FrictionIterClosedForm(speed, n);
    FrictionIterClosedForm(speed, n + 1);
  }

  /** A number of friction ticks after which any non-negative speed is certainly zero. */
  function StepsToRest(speed: real): nat
    requires speed >= 0.0
  {
    (speed / FrictionStep).Floor + 1
  }

  lemma FrictionComesToRest(speed: real, n: nat)
    requires speed >= 0.0 && n >= StepsToRest(speed)
    ensures FrictionIter(speed, n) == 0.0
  {
    FrictionIterClosedForm(speed, n);
  }
}
