/** When Gen's scripted timer survives. His effect arms a timer (10 s when
    idle) and clears it whenever the effect re-runs, which happens whenever
    one of its dependencies differs between renders. The movement interval
    fires every 8 s of play. */
module Timers {
  import opened GameModel
  import Movement

  /** The dependencies of Gen's effect as written: the phase, the night, the
      robots array and Gen's stage. An array is compared by identity, which the
      model writes as the number of robot arrays built so far, `robotsId`. */
  datatype WrittenDeps = WrittenDeps(phase: Phase, night: int, robotsId: nat, stage: GenStage)

  /** The movement handler as written: while playing, `map` builds a new array
      on every firing, whether or not a robot moved. */
  function RobotsIdAfterMovement(s: GameState, robotsId: nat): (id: nat)
    ensures s.phase == Playing ==> id != robotsId
    ensures s.phase != Playing ==> id == robotsId
  {
    if s.phase == Playing then robotsId + 1 else robotsId
  }

  /** As written, every movement firing during play re-runs Gen's effect,
      even when the draws move nobody. */
  lemma MovementRerunsGenEffect(s: GameState, robotsId: nat, stage: GenStage, draws: seq<Movement.MoveDraw>)
    requires s.phase == Playing && |draws| == |s.robots|
    ensures var t := Movement.RobotMovement(s, draws);
      WrittenDeps(t.phase, t.currentNight, RobotsIdAfterMovement(s, robotsId), stage)
        != WrittenDeps(s.phase, s.currentNight, robotsId, stage)
  {
  }

  /** Second `t` of play is one at which the movement interval fires. */
  predicate MovementFiresAt(t: int) {
    t > 0 && t % 8 == 0
  }

  /** As written, an idle timer armed at any second of play is cleared by a
      movement firing strictly before its 10 s are up, so Gen never leaves
      the stage while the movement interval runs. */
  lemma IdleTimerCleared(armed: nat)
    ensures exists t :: MovementFiresAt(t) && armed < t < armed + 10
  {
    var t := (armed / 8 + 1) * 8;
    assert MovementFiresAt(t) && armed < t < armed + 10;
  }

  /** The dependencies the script evidently needs: the phase, the night, Gen
      himself (found by id, compared by value) and his stage. */
  datatype IntendedDeps = IntendedDeps(phase: Phase, night: int, gen: Option<Robot>, stage: GenStage)

  function Intended(s: GameState, stage: GenStage): IntendedDeps {
    IntendedDeps(s.phase, s.currentNight, FindGen(s.robots), stage)
  }

  /** With these dependencies no movement firing re-runs Gen's effect, so his
      timer runs its full delay and fires as `GenScript.GenAdvance` models. */
  lemma MovementKeepsIntendedDeps(s: GameState, stage: GenStage, draws: seq<Movement.MoveDraw>)
    requires |draws| == |s.robots|
    ensures Intended(Movement.RobotMovement(s, draws), stage) == Intended(s, stage)
  {
    Movement.MovementLeavesGen(s, draws);
  }
}
