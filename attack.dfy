/** The threat check that fires every three seconds (handleAttackCheck). */
module Attack {
  import opened GameModel

  /** Why the player died. */
  datatype Death = YouDied | BossGotYou

  /** A robot that counts as attacking: at the Living Room and active this night. Gen is not excluded. */
  predicate AtThreshold(r: Robot, night: int) {
    r.currentCam == LivingRoom && r.moveNight <= night
  }

  /** The robots that count as attacking, in list order. */
  function RobotsAtDoor(robots: seq<Robot>, night: int): (r: seq<Robot>)
    ensures forall x :: x in r ==> x in robots && AtThreshold(x, night)
    ensures forall i :: 0 <= i < |robots| && AtThreshold(robots[i], night) ==> robots[i] in r
    ensures r == [] <==> forall i :: 0 <= i < |robots| ==> !AtThreshold(robots[i], night)
    ensures |r| <= |robots|
  {
    if robots == [] then []
    else (if AtThreshold(robots[0], night) then [robots[0]] else []) + RobotsAtDoor(robots[1..], night)
  }

  /** The reason the check ends the game, if any: a robot in the Living Room with
      both doors open wins first; otherwise the active boss attacks (the 10% draw
      `bossRoll`) while at least one door is open. */
  function AttackReason(s: GameState, bossRoll: bool): (d: Option<Death>)
    ensures d == Some(YouDied) <==>
      (exists i :: 0 <= i < |s.robots| && AtThreshold(s.robots[i], s.currentNight)) &&
      !s.leftDoorClosed && !s.rightDoorClosed
    ensures d == Some(BossGotYou) ==> s.bossActive && bossRoll && (!s.leftDoorClosed || !s.rightDoorClosed)
    ensures d.None? && s.bossActive && bossRoll ==> s.leftDoorClosed && s.rightDoorClosed
    ensures s.leftDoorClosed && s.rightDoorClosed ==> d.None?
  {
    if |RobotsAtDoor(s.robots, s.currentNight)| > 0 && !s.leftDoorClosed && !s.rightDoorClosed then Some(YouDied)
    else if s.bossActive && bossRoll && (!s.leftDoorClosed || !s.rightDoorClosed) then Some(BossGotYou)
    else None
  }

  /** The check: end the game when there is a reason, otherwise leave the state as it is. */
  function AttackCheck(s: GameState, bossRoll: bool): (t: GameState)
    ensures s.phase != Playing ==> t == s
    ensures s.phase == Playing && AttackReason(s, bossRoll).Some? ==> t == s.(gameOver := true, phase := GameOver)
    ensures AttackReason(s, bossRoll).None? ==> t == s
  {
    if s.phase != Playing then s
    else if AttackReason(s, bossRoll).Some? then s.(gameOver := true, phase := GameOver)
    else s
  }

  /** With both doors closed the check never ends the game, whatever the draw. */
  lemma BothDoorsClosedIsSafe(s: GameState, bossRoll: bool)
    requires s.leftDoorClosed && s.rightDoorClosed
    ensures AttackCheck(s, bossRoll) == s
  {
  }

  /** A robot active this night in the Living Room while both doors are open always kills. */
  lemma ThresholdRobotKills(s: GameState, i: int, bossRoll: bool)
    requires s.phase == Playing && 0 <= i < |s.robots| && AtThreshold(s.robots[i], s.currentNight)
    requires !s.leftDoorClosed && !s.rightDoorClosed
    ensures AttackCheck(s, bossRoll).gameOver && AttackCheck(s, bossRoll).phase == GameOver
  {
  }

  lemma AttackPreservesValid(s: GameState, bossRoll: bool)
    requires Valid(s)
    ensures Valid(AttackCheck(s, bossRoll))
  {
  }
}
