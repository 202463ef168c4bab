# Car game: stage, speed, waypoint and collision rules

A Dafny model of the game logic of a top-down racing game (`CarGame.py`). A human-driven car races an
AI car around a fixed track for ten stages. The model covers:

- the stage state machine `GameInfo`: stage counter, in-progress flag, stage clock;
- the car speed rules: clamped forward and reverse acceleration, friction that floors speed at zero,
  `bounce`, and `reset_state`;
- the AI car: bounded-rate steering towards the current waypoint, waypoint-index progression, and
  the per-stage speed ramp of `advance_level`;
- the collision and progression decision of `handle_collision`.

Each Python class that updates its fields becomes a Dafny class whose methods have `modifies` clauses.
The car methods' `ensures` tie the new state to pure functions in `Kinematics` and `Steering`; `GameInfo`'s methods state their new fields directly. Lemmas
prove the properties of those functions. The Python base class `AbstractCar` becomes the class
`Cars.Car`. `PlayerCar` and `ComputerCar` each hold a `Car` and add their own operations; Dafny
has no inheritance here, so composition takes its place. One consequence: `accelerate_forward` and
`accelerate_backward` call `self.update_motion()` (CarGame.py:86, 91), which on an AI car would
dispatch to the AI override (CarGame.py:181-187). `Car.AccelerateForward` and `Car.AccelerateBackward`
always do the plain positional update. The program only accelerates the player's car, so nothing
observable is lost.

Things the game gets from outside are inputs to the model:

- Trigonometry (`math.sin`, `math.cos`, `math.atan` in degrees) is a `Kinematics.Trig` value of three
  functions that the caller supplies.
- The pixel-mask overlap queries are `Option<(int, int)>` inputs: the first overlapping point, or none.
- The `pygame.Rect.collidepoint` test in `advance_waypoint` is a boolean input.
- The wall clock `time.time()` is a `now: real` input.

Two things the code does not do, which a reader might expect:

- Speed is not always inside `[-max_speed/2, max_speed]`. That band is the one that forward and
  backward acceleration and friction keep (`Kinematics.SpeedRulesStayInRange`). A bounce at a speed
  above half the maximum leaves it (`Kinematics.BounceLeavesRange`). After `advance_level` at stage 2
  or later the AI car also runs faster than its `max_speed`.
- When the AI car finishes first, the code calls the shared `reset_state` on it
  (CarGame.py:248, defined at CarGame.py:109-112). That sets its speed to 0 and keeps its waypoint
  index. Its initial configuration, as `ComputerCar.__init__` sets it (CarGame.py:136-138), is
  maximum speed and waypoint index 0, which `opponent.advance_level(1)` would restore (see Findings).

## Model

| member | source | states |
|---|---|---|
| `Kinematics.AtStart` | CarGame.py:109-112 | the reset state is the start coordinate, heading 0 and speed 0 |
| `Kinematics.Moved` | CarGame.py:94-99 | a positional update keeps heading and speed; it does not move a car whose speed is 0 |
| `Kinematics.Forward` | CarGame.py:84-86 | the new speed is never above the maximum or above old + 0.1, and it equals one of the two (the minimum) |
| `Kinematics.Backward` | CarGame.py:89-91 | the new speed is never below -max/2 or below old - 0.1, and it equals one of the two (the maximum) |
| `Kinematics.Friction` | CarGame.py:120-122 | the new speed is never negative and never below old - 0.05; it is 0 or old - 0.05; it never increases a non-negative speed |
| `Kinematics.Bounced` | CarGame.py:125-127 | a bounce negates the speed and keeps the heading |
| `Kinematics.SpeedRulesStayInRange` | CarGame.py:84-91 | starting inside `[-max/2, max]`, forward, backward and friction all stay inside it |
| `Kinematics.BounceLeavesRange` | CarGame.py:125-127 | for any speed in (max/2, max], the bounced speed lies outside `[-max/2, max]` |
| `Kinematics.BounceTwiceRestores` | CarGame.py:125-127 | two bounces in a row restore speed and position exactly |
| `Kinematics.FrictionIterClosedForm` | CarGame.py:120-122 | n friction ticks from a speed s >= 0 give max(s - 0.05 n, 0) |
| `Kinematics.FrictionNonIncreasing` | CarGame.py:120-122 | repeated friction from s >= 0 never increases the speed and never makes it negative |
| `Kinematics.FrictionComesToRest` | CarGame.py:120-122 | from any s >= 0, the speed is 0 after floor(s / 0.05) + 1 friction ticks and at every later tick |
| `Steering.DesiredAngle` | CarGame.py:151-161 | the desired heading is 90 when the target is level with the car; otherwise it is the arctangent of dx/dy in degrees, plus 180 when the target lies below the car |
| `Steering.AngleDelta` | CarGame.py:162-165 | the heading difference is kept when it is below 180 and lowered by exactly one full turn when it is 180 or more, so a difference in [180, 540) ends up in [-180, 180) |
| `Steering.Steer` | CarGame.py:167-170 | the heading moves by at most turn_speed, towards the target side of the difference; within reach it lands exactly on the desired heading (mod 360); otherwise it moves by exactly turn_speed |
| `Steering.NextIndex` | CarGame.py:173-187 | one AI tick raises the waypoint index by 0 or 1. It rises exactly when waypoints remain and the target was reached, and it never changes once they are used up |
| `Steering.RunIndexBounds` | CarGame.py:173-187 | over any run of ticks the index never decreases, grows by at most one per tick and never passes the number of waypoints |
| `Steering.AiStageSpeed` | CarGame.py:190-193 | the AI stage speed equals max_speed at stage 1, is above it at later stages and below it at stages smaller than 1 |
| `Steering.AiStageSpeedRamp` | CarGame.py:192 | each later stage adds exactly 0.2 to the AI speed |
| `Race.RoundHalfEven` | CarGame.py:59 | Python's `round`: the result is within 0.5 of the argument, and a tie goes to the even integer |
| `Race.RoundingIsUnique` | CarGame.py:59 | those two conditions determine the rounded value uniquely |
| `Race.GameInfo.constructor` | CarGame.py:33-36 | a new race state is at the given stage, not in progress, and has start time 0 |
| `Race.GameInfo.AdvanceLevel` | CarGame.py:39-41 | the stage increases by exactly 1, the stage is no longer in progress, and the start time is unchanged |
| `Race.GameInfo.ResetState` | CarGame.py:44-47 | whatever the prior state: stage 1, not in progress, start time 0 |
| `Race.GameInfo.IsGameFinished` | CarGame.py:49-50 | the game is finished if and only if the stage is above 10 |
| `Race.GameInfo.StartStage` | CarGame.py:52-54 | the stage is in progress, its start time is `now`, and the stage number is unchanged |
| `Race.GameInfo.StageTime` | CarGame.py:56-59 | 0 whenever no stage is in progress; otherwise the elapsed time rounded to whole seconds with ties to the even second, which is never negative for a clock that does not run backwards |
| `Cars.Car.constructor` | CarGame.py:63-70 | a new car is at its start coordinate with heading 0 and speed 0, and holds the given maximum speed and turn rate |
| `Cars.Car.Rotate` | CarGame.py:73-77 | the heading changes by +turn_speed (left, which takes precedence), by -turn_speed (right), or not at all; position and speed are unchanged |
| `Cars.Car.UpdateMotion` | CarGame.py:94-99 | the new state is one positional update of the old one |
| `Cars.Car.AccelerateForward` | CarGame.py:84-86 | the speed is `Forward` of the old speed and never above the maximum, followed by one positional update |
| `Cars.Car.AccelerateBackward` | CarGame.py:89-91 | the speed is `Backward` of the old speed and never below -max/2, followed by one positional update |
| `Cars.Car.ResetState` | CarGame.py:109-112 | whatever the prior state: the start coordinate, heading 0, speed 0 |
| `Cars.PlayerCar.constructor` | CarGame.py:115-117 | the player car starts at (180, 200) at rest |
| `Cars.PlayerCar.ApplyFriction` | CarGame.py:120-122 | the speed is `Friction` of the old speed, never negative, followed by one positional update |
| `Cars.PlayerCar.Bounce` | CarGame.py:125-127 | the speed is the negation of the old speed, followed by one positional update |
| `Cars.ComputerCar.constructor` | CarGame.py:130-138 | the AI car starts at (150, 200) at its maximum speed, with the given waypoints and index 0 |
| `Cars.ComputerCar.ComputeAngle` | CarGame.py:150-170 | only the heading changes, to `Steer` towards the desired angle of the current waypoint |
| `Cars.ComputerCar.AdvanceWaypoint` | CarGame.py:173-178 | the index rises by one exactly when the car's rectangle contains the target |
| `Cars.ComputerCar.UpdateMotion` | CarGame.py:181-187 | the index follows `NextIndex`. Once the waypoints are used up nothing changes; otherwise the car steers, then moves once |
| `Cars.ComputerCar.AdvanceLevel` | CarGame.py:190-193 | the AI car is at its start with heading 0, speed max + (stage - 1) * 0.2, and waypoint index 0 |
| `Collision.Contact` | CarGame.py:250-252 | no overlap means no contact; an overlap at row 0 is the wrong side; any other overlap is a crossing, each in both directions |
| `Collision.StageAfter` | CarGame.py:241-257 | without an AI finish the stage rises by one exactly when the player crosses, else stays; with one it is 2 exactly when the player crosses, else 1 |
| `Collision.StageRunBounds` | CarGame.py:238-257 | over any run of ticks starting at a stage >= 1, the stage stays >= 1 and rises by at most one per tick |
| `Collision.UninterruptedWins` | CarGame.py:250-257 | every tick with a player crossing and no AI finish credits exactly one stage |
| `Collision.GameNeedsTenStages` | CarGame.py:49-50 | from stage 1, the game can be finished only after at least ten ticks; with clean crossings it is finished exactly once there have been ten |
| `Collision.HandleCollision` | CarGame.py:238-257 | It states the new stage, clock and both cars' states for each combination of border overlap, AI finish, and player no-contact, wrong side or crossing. A wrong-side touch leaves the stage unchanged and bounces the player. A crossing advances the stage, resets the player, and sets the AI to the new stage's speed |
| `Collision.LossStallsOpponent` | CarGame.py:241-248 | for any stage, cars with any settings (AI maximum speed above 0), any border input and any player overlap that is not a crossing: after an AI finish the AI car is at its start at speed 0, below its maximum speed, and a following AI tick does not move it |
| `Collision.HandleCollisionIntended` | CarGame.py:241-248 | the same decision, except that after an AI finish (and no crossing) the AI car is back in its initial configuration: start, maximum speed, waypoint 0 |
| `Collision.WinningStageOne` | CarGame.py:250-257 | for cars with any settings, any border input and any player overlap off the strip's top row: a crossing on stage 1 gives stage 2, a stage not in progress, the player at its start, and the AI at waypoint 0 with speed max + 0.2 |

## Left out

- Floating point: speeds, positions and headings are exact reals, so the rounding of `0.1` and of
  repeated additions in IEEE doubles is not modelled (for instance, `BounceTwiceRestores` is exact only in reals).
- Trigonometry: `sin`, `cos`, `atan` and the radian/degree conversions are caller-supplied functions
  in `Trig`; no property of them is assumed.
- Pixel-mask collision (`collides_with`, pygame's `mask.overlap`): its results are inputs. Each input
  stands for the query's result at the moment `handle_collision` asks, after any earlier bounce or reset in the same call.
- `pygame.Rect.collidepoint` in `advance_waypoint`: its result is the boolean `containsTarget`.
- Wall-clock time: `time.time()` is the `now` parameter of `StartStage` and `StageTime`.
- Rendering, image loading and scaling, HUD text, `draw_points`, `render`, key polling (`move_player`),
  the event and quit loop, the frame clock and the 5-second waits: these are I/O and UI.
- The main loop (the start-of-stage key wait and the game-won reset after `is_game_finished`):
  `StageAfterRun` composes `handle_collision` ticks without the main loop's reset.
- Speed clamping is not a global invariant of the code (bouncing and the AI stage ramp exceed the
  band), so it is stated per operation and not as a class invariant.

## Findings

| source | as written | input that shows it | evidently intended | confidence | as-written member | corrected member |
|---|---|---|---|---|---|---|
| CarGame.py:246-248 | after the AI car finishes, `opponent.reset_state()` (the shared car reset) sets its speed to 0 and keeps its waypoint index | an AI finish overlap at any stage, with no player crossing: AI speed becomes 0 and later AI ticks only turn it, so it stays at the start until the player wins a stage. The game-won reset in the main loop (CarGame.py:303-305, not part of this model) does the same after `advance_level(11)`, so the next game also starts with the AI car at speed 0 | restarting the race puts the AI car back in its initial configuration: start position, maximum speed, first waypoint (as `opponent.advance_level(1)` would) | medium, not executed | `Collision.HandleCollision`, shown by `Collision.LossStallsOpponent` | `Collision.HandleCollisionIntended` |
