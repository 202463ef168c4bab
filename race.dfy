/** The stage state machine (GameInfo in CarGame.py). The wall clock is passed in as `now`. */
module Race {

  /** `GameInfo.LEVELS`: the number of stages in a game. */
  const Levels: int := 10

  /** Python's `round` on a number: the nearest integer, ties going to the even one. */
  function RoundHalfEven(x: real): (n: int)
    ensures n as real - 0.5 <= x <= n as real + 0.5
    ensures x == n as real - 0.5 || x == n as real + 0.5 ==> n % 2 == 0
  {
    var f := x.Floor;
    var frac := x - f as real;
    if frac < 0.5 then f
    else if frac > 0.5 then f + 1
    else if f % 2 == 0 then f
    else f + 1
  }

  /** The two clauses of RoundHalfEven's contract determine its result. */
  lemma RoundingIsUnique(x: real, n: int)
    requires n as real - 0.5 <= x <= n as real + 0.5
    requires x == n as real - 0.5 || x == n as real + 0.5 ==> n % 2 == 0
    ensures n == RoundHalfEven(x)
  {
  }

  class GameInfo {
    var stage: int
    var inProgress: bool
    var stageStartTime: real

    constructor (stage: int)
      ensures this.stage == stage && !inProgress && stageStartTime == 0.0
    {
      this.stage := stage;
      inProgress := false;
      stageStartTime := 0.0;
    }

    /** Moves to the next stage and stops its clock, so the next stage waits for a key press. */
    method AdvanceLevel()
      modifies this
      ensures stage == old(stage) + 1 && !inProgress
      ensures stageStartTime == old(stageStartTime)
    {
      stage := stage + 1;
      inProgress := false;
    }

    /** Back to the first stage, whatever the previous state. */
    method ResetState()
      modifies this
      ensures stage == 1 && !inProgress && stageStartTime == 0.0
    {
      stage := 1;
      inProgress := false;
      stageStartTime := 0.0;
    }

    function IsGameFinished(): (finished: bool)
      reads this
      ensures finished <==> stage > Levels
    {
      stage > Levels
    }

    /** Starts the stage clock at `now`. */
    method StartStage(now: real)
      modifies this
      ensures inProgress && stageStartTime == now && stage == old(stage)
    {
      inProgress := true;
      stageStartTime := now;
    }

    /** Whole seconds since the stage started, or 0 while no stage is running. */
    function StageTime(now: real): (t: int)
      reads this
      ensures !inProgress ==> t == 0
      ensures inProgress ==> t as real - 0.5 <= now - stageStartTime <= t as real + 0.5
      ensures inProgress && (now - stageStartTime == t as real - 0.5 || now - stageStartTime == t as real + 0.5) ==>
        t % 2 == 0
      ensures inProgress && now >= stageStartTime ==> t >= 0
    {
      if !inProgress then 0 else RoundHalfEven(now - stageStartTime)
    }
  }
}
