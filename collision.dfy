/**
 * The per-tick collision and stage-progression decision (`handle_collision` in CarGame.py).
 * The three pixel-mask overlap queries are inputs: each is the first overlapping point, if any,
 * as the query returns it at the moment the handler asks.
 */
module Collision {
  import opened Wrappers
  import opened Kinematics
  import opened Steering
  import opened Race
  import opened Cars

  /** A pixel coordinate inside a mask. */
  type Point = (int, int)

  /** How the player's car meets the finish line in one tick. */
  datatype FinishContact = NoContact | WrongSide | Crossed

  /** An overlap at the finish strip's top row (y == 0) is a touch from the wrong side. */
  function Contact(poi: Option<Point>): (c: FinishContact)
    ensures c == NoContact <==> poi == None
    ensures c == WrongSide <==> poi.Some? && poi.value.1 == 0
    ensures c == Crossed <==> poi.Some? && poi.value.1 != 0
  {
    match poi
    case None => NoContact
    case Some(p) => if p.1 == 0 then WrongSide else Crossed
  }

  /** The stage after one tick: an AI finish restarts at 1, then a crossing by the player adds one. */
  function StageAfter(stage: int, aiFinished: bool, contact: FinishContact): (s: int)
    ensures !aiFinished ==> stage <= s <= stage + 1
    ensures aiFinished ==> 1 <= s <= 2
    ensures s == (if aiFinished then 2 else stage + 1) <==> contact == Crossed
  {
    var afterAi := if aiFinished then 1 else stage;
    if contact == Crossed then afterAi + 1 else afterAi
  }

  /** What a tick's finish-line queries report. */
  datatype Tick = Tick(aiFinished: bool, contact: FinishContact)

  /** The stage after consecutive ticks. */
  function StageAfterRun(stage: int, ticks: seq<Tick>): int
    decreases |ticks|
  {
    if ticks == [] then stage
    else StageAfterRun(StageAfter(stage, ticks[0].aiFinished, ticks[0].contact), ticks[1..])
  }

  /** Over any run of ticks the stage stays at least 1 and rises by at most one per tick. */
  lemma {:induction false} StageRunBounds(stage: int, ticks: seq<Tick>)
    requires stage >= 1
    ensures 1 <= StageAfterRun(stage, ticks) <= stage + |ticks|
    decreases |ticks|
  {
    if ticks != [] {
      StageRunBounds(StageAfter(stage, ticks[0].aiFinished, ticks[0].contact), ticks[1..]);
    }
  }

  /** Every crossing without an AI finish credits exactly one stage. */
  lemma {:induction false} UninterruptedWins(stage: int, ticks: seq<Tick>)
    requires forall i :: 0 <= i < |ticks| ==> ticks[i] == Tick(false, Crossed)
    ensures StageAfterRun(stage, ticks) == stage + |ticks|
    decreases |ticks|
  {
    if ticks != [] {
      UninterruptedWins(stage + 1, ticks[1..]);
    }
  }

  /** From stage 1 the game is finished only after ten ticks or more, and ten clean crossings finish it. */
  lemma GameNeedsTenStages(ticks: seq<Tick>)
    ensures StageAfterRun(1, ticks) > Levels ==> |ticks| >= Levels
    ensures (forall i :: 0 <= i < |ticks| ==> ticks[i] == Tick(false, Crossed)) ==>
      (StageAfterRun(1, ticks) > Levels <==> |ticks| >= Levels)
  {
    StageRunBounds(1, ticks);
    if forall i :: 0 <= i < |ticks| ==> ticks[i] == Tick(false, Crossed) {
      UninterruptedWins(1, ticks);
    }
  }

  /**
   * `handle_collision` as written: a border overlap bounces the player; an AI finish resets the race and
   * both cars with the shared `reset_state`; a player finish at the strip's top row bounces the player,
   * any other player finish credits the stage. The opponent's waypoint index survives an AI finish and its
   * speed drops to 0.
   */
  method HandleCollision(player: PlayerCar, opponent: ComputerCar, race: GameInfo, trig: Trig,
                         borderPoi: Option<Point>, aiPoi: Option<Point>, playerPoi: Option<Point>)
    requires player.car != opponent.car
    modifies player.car, opponent, opponent.car, race
    ensures race.stage == StageAfter(old(race.stage), aiPoi.Some?, Contact(playerPoi))
    ensures race.inProgress == (old(race.inProgress) && aiPoi == None && Contact(playerPoi) != Crossed)
    ensures race.stageStartTime == if aiPoi.Some? then 0.0 else old(race.stageStartTime)
    ensures var afterBorder := if borderPoi.Some? then Bounced(old(player.car.State()), trig)
                               else old(player.car.State());
            var afterAi := if aiPoi.Some? then AtStart(player.car.start) else afterBorder;
            player.car.State() == match Contact(playerPoi)
                                  case NoContact => afterAi
                                  case WrongSide => Bounced(afterAi, trig)
                                  case Crossed => AtStart(player.car.start)
    ensures Contact(playerPoi) == Crossed ==>
      opponent.car.State() == AtStart(opponent.car.start).(speed := AiStageSpeed(opponent.car.maxSpeed, race.stage)) &&
      opponent.waypointIndex == 0
    ensures Contact(playerPoi) != Crossed ==>
      opponent.car.State() == (if aiPoi.Some? then AtStart(opponent.car.start) else old(opponent.car.State())) &&
      opponent.waypointIndex == old(opponent.waypointIndex)
  {
    if borderPoi.Some? {
      player.Bounce(trig);
    }
    if aiPoi.Some? {
      race.ResetState();
      player.car.ResetState();
      opponent.car.ResetState();
    }
    match Contact(playerPoi)
    case NoContact =>
    case WrongSide =>
      player.Bounce(trig);
    case Crossed =>
      race.AdvanceLevel();
      player.car.ResetState();
      opponent.AdvanceLevel(race.stage);
  }

  /**
   * After an AI finish (and no player crossing), on any stage and for any cars, the opponent sits at its
   * start at speed 0, below the positive maximum speed it was built with, and a following AI tick leaves
   * it where it is.
   */
  method LossStallsOpponent(trig: Trig, stage: int, playerMax: real, playerTurn: real,
                            aiMax: real, aiTurn: real, waypoints: seq<(int, int)>,
                            borderPoi: Option<Point>, p: Point, playerPoi: Option<Point>, containsTarget: bool)
    returns (afterLoss: Motion, afterTick: Motion)
    requires aiMax > 0.0 && Contact(playerPoi) != Crossed
    ensures afterLoss == AtStart(ComputerStart) && afterLoss.speed < aiMax
    ensures afterTick.x == afterLoss.x && afterTick.y == afterLoss.y && afterTick.speed == 0.0
  {
    var race := new GameInfo(stage);
    var player := new PlayerCar(playerMax, playerTurn);
    var opponent := new ComputerCar(aiMax, aiTurn, waypoints);
    HandleCollision(player, opponent, race, trig, borderPoi, Some(p), playerPoi);
    afterLoss := opponent.car.State();
    opponent.UpdateMotion(trig, containsTarget);
    afterTick := opponent.car.State();
  }

  /**
   * `handle_collision` with the AI-finish branch putting the opponent back in its initial configuration
   * (start position, maximum speed, first waypoint), which is what restarting the race implies.
   */
  method HandleCollisionIntended(player: PlayerCar, opponent: ComputerCar, race: GameInfo, trig: Trig,
                                 borderPoi: Option<Point>, aiPoi: Option<Point>, playerPoi: Option<Point>)
    requires player.car != opponent.car
    modifies player.car, opponent, opponent.car, race
    ensures race.stage == StageAfter(old(race.stage), aiPoi.Some?, Contact(playerPoi))
    ensures race.inProgress == (old(race.inProgress) && aiPoi == None && Contact(playerPoi) != Crossed)
    ensures race.stageStartTime == if aiPoi.Some? then 0.0 else old(race.stageStartTime)
    ensures var afterBorder := if borderPoi.Some? then Bounced(old(player.car.State()), trig)
                               else old(player.car.State());
            var afterAi := if aiPoi.Some? then AtStart(player.car.start) else afterBorder;
            player.car.State() == match Contact(playerPoi)
                                  case NoContact => afterAi
                                  case WrongSide => Bounced(afterAi, trig)
                                  case Crossed => AtStart(player.car.start)
    ensures Contact(playerPoi) == Crossed ==>
      opponent.car.State() == AtStart(opponent.car.start).(speed := AiStageSpeed(opponent.car.maxSpeed, race.stage)) &&
      opponent.waypointIndex == 0
    ensures Contact(playerPoi) != Crossed && aiPoi.Some? ==>
      opponent.car.State() == AtStart(opponent.car.start).(speed := opponent.car.maxSpeed) &&
      opponent.waypointIndex == 0
    ensures Contact(playerPoi) != Crossed && aiPoi == None ==>
      opponent.car.State() == old(opponent.car.State()) && opponent.waypointIndex == old(opponent.waypointIndex)
  {
    if borderPoi.Some? {
      player.Bounce(trig);
    }
    if aiPoi.Some? {
      race.ResetState();
      player.car.ResetState();
      opponent.AdvanceLevel(1);
    }
    match Contact(playerPoi)
    case NoContact =>
    case WrongSide =>
      player.Bounce(trig);
    case Crossed =>
      race.AdvanceLevel();
      player.car.ResetState();
      opponent.AdvanceLevel(race.stage);
  }

  /**
   * Crossing the finish on stage 1 (any overlap point off the strip's top row), for any cars, border input
   * and earlier acceleration, moves to stage 2 with the AI 0.2 faster than its maximum.
   */
  method WinningStageOne(trig: Trig, now: real, playerMax: real, playerTurn: real,
                         aiMax: real, aiTurn: real, waypoints: seq<(int, int)>,
                         borderPoi: Option<Point>, p: Point)
    returns (stage: int, inProgress: bool, aiSpeed: real, aiIndex: nat, playerAt: Motion)
    requires p.1 != 0
    ensures stage == 2 && !inProgress
    ensures aiSpeed == aiMax + StageSpeedStep && aiIndex == 0
    ensures playerAt == AtStart(PlayerStart)
  {
    var race := new GameInfo(1);
    race.StartStage(now);
    var player := new PlayerCar(playerMax, playerTurn);
    var opponent := new ComputerCar(aiMax, aiTurn, waypoints);
    player.car.AccelerateForward(trig);
    HandleCollision(player, opponent, race, trig, borderPoi, None, Some(p));
    stage, inProgress := race.stage, race.inProgress;
    aiSpeed := opponent.car.speed;
    aiIndex := opponent.waypointIndex;
    playerAt := player.car.State();
  }
}
