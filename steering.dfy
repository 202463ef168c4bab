/**
 * The AI car's decisions (ComputerCar in CarGame.py): the heading it turns towards,
 * how far it turns per tick, which waypoint it targets, and its speed per stage.
 */
module Steering {
  import opened Kinematics

  /** Speed added to the AI car for every stage after the first. */
  const StageSpeedStep: real := 0.2

  function Abs(x: real): real { if x < 0.0 then -x else x }

  /**
   * The heading (degrees) that points from (x, y) at the target, as `compute_angle` derives it:
   * the arctangent of dx/dy, 90 when dy is zero, and half a turn more when the target lies below.
   */
  function DesiredAngle(trig: Trig, x: real, y: real, target: (int, int)): (a: real)
    ensures target.1 as real == y ==> a == 90.0
    ensures target.1 as real > y ==> a == trig.atanDeg((target.0 as real - x) / (target.1 as real - y)) + 180.0
    ensures target.1 as real < y ==> a == trig.atanDeg((target.0 as real - x) / (target.1 as real - y))
  {
    var dx := target.0 as real - x;
    var dy := target.1 as real - y;
    var base := if dy == 0.0 then 90.0 else trig.atanDeg(dx / dy);
    if target.1 as real > y then base + 180.0 else base
  }

  /**
   * The signed difference between the heading and the desired heading, with a difference of 180 or
   * more folded down by one full turn (a difference below -180 is left as it is).
   */
  function AngleDelta(heading: real, desired: real): (d: real)
    ensures d == heading - desired || d == heading - desired - 360.0
    ensures heading - desired < 180.0 ==> d == heading - desired
    ensures heading - desired >= 180.0 ==> d == heading - desired - 360.0
    ensures 180.0 <= heading - desired < 540.0 ==> -180.0 <= d < 180.0
  {
    var d := heading - desired;
    if d >= 180.0 then d - 360.0 else d
  }

  /** The heading after one `compute_angle`: a turn towards the desired heading of at most turnSpeed. */
  function Steer(heading: real, desired: real, turnSpeed: real): (h: real)
    ensures turnSpeed >= 0.0 ==> Abs(h - heading) <= turnSpeed
    ensures Abs(AngleDelta(heading, desired)) <= turnSpeed ==> h == desired || h == desired + 360.0
    ensures turnSpeed >= 0.0 && Abs(AngleDelta(heading, desired)) > turnSpeed ==> Abs(h - heading) == turnSpeed
    ensures turnSpeed >= 0.0 && AngleDelta(heading, desired) > 0.0 ==> h <= heading
    ensures turnSpeed >= 0.0 && AngleDelta(heading, desired) <= 0.0 ==> h >= heading
  {
    var delta := AngleDelta(heading, desired);
    if delta > 0.0 then heading - Min(turnSpeed, Abs(delta))
    else heading + Min(turnSpeed, Abs(delta))
  }

  /** The waypoint index after one AI `update_motion`, given whether the car's rectangle holds the target. */
  function NextIndex(index: nat, count: nat, reached: bool): (r: nat)
    ensures index <= r <= index + 1
    ensures index >= count ==> r == index
    ensures r == index + 1 <==> index < count && reached
  {
    if index < count && reached then index + 1 else index
  }

  /** The waypoint index after one AI `update_motion` per entry of `reached`. */
  function RunIndex(index: nat, count: nat, reached: seq<bool>): nat
    decreases |reached|
  {
    if reached == [] then index
    else RunIndex(NextIndex(index, count, reached[0]), count, reached[1..])
  }

  /**
   * Over any run of ticks the index never decreases, grows by at most one per tick,
   * never passes the number of waypoints, and stays put once the waypoints are used up.
   */
  lemma {:induction false} RunIndexBounds(index: nat, count: nat, reached: seq<bool>)
    ensures index <= RunIndex(index, count, reached) <= index + |reached|
    ensures index <= count ==> RunIndex(index, count, reached) <= count
    ensures index >= count ==> RunIndex(index, count, reached) == index
    decreases |reached|
  {
    if reached != [] {
      RunIndexBounds(NextIndex(index, count, reached[0]), count, reached[1..]);
    }
  }

  /** The AI car's speed for a stage, as `advance_level` sets it: the maximum plus 0.2 per later stage. */
  function AiStageSpeed(maxSpeed: real, stage: int): (r: real)
    ensures stage == 1 ==> r == maxSpeed
    ensures stage > 1 ==> r > maxSpeed
    ensures stage < 1 ==> r < maxSpeed
  {
    maxSpeed + (stage - 1) as real * StageSpeedStep
  }

  /** The ramp is linear: each later stage adds exactly 0.2. */
  lemma AiStageSpeedRamp(maxSpeed: real, stage: int)
    ensures AiStageSpeed(maxSpeed, stage + 1) == AiStageSpeed(maxSpeed, stage) + StageSpeedStep
  {
  }
}
