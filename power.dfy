/** The power drain that fires every two seconds (handlePowerDrain). */
module Power {
  import opened GameModel

  /** Power used per drain: 1, plus 2 for each closed door, plus 1 while the camera view is open. */
  function Drain(s: GameState, showCameras: bool): (d: int)
    ensures 1 <= d <= 6
    ensures s.leftDoorClosed && s.rightDoorClosed && showCameras ==> d == 6
    ensures !s.leftDoorClosed && !s.rightDoorClosed && !showCameras ==> d == 1
  {
    1 + (if s.leftDoorClosed then 2 else 0) + (if s.rightDoorClosed then 2 else 0) + (if showCameras then 1 else 0)
  }

  function Max(a: int, b: int): int {
    if a < b then b else a
  }

  /** One drain: power drops by the current rate, clamped at 0; reaching 0 ends the game. */
  function PowerDrain(s: GameState, showCameras: bool): (t: GameState)
    ensures s.phase != Playing ==> t == s
    ensures s.phase == Playing ==> t.powerLevel == Max(0, s.powerLevel - Drain(s, showCameras))
    ensures s.powerLevel >= 0 ==> 0 <= t.powerLevel <= s.powerLevel
    ensures s.phase == Playing && t.powerLevel == 0 ==>
      t.gameOver && t.phase == GameOver && t.(powerLevel := s.powerLevel, gameOver := s.gameOver, phase := s.phase) == s
    ensures s.phase == Playing && t.powerLevel != 0 ==>
      t.powerLevel <= s.powerLevel - 1 && t.(powerLevel := s.powerLevel) == s
  {
    if s.phase != Playing then s
    else
      var newPower := Max(0, s.powerLevel - Drain(s, showCameras));
      if newPower == 0 then s.(powerLevel := 0, gameOver := true, phase := GameOver)
      else s.(powerLevel := newPower)
  }

  lemma DrainPreservesValid(s: GameState, showCameras: bool)
    requires Valid(s)
    ensures Valid(PowerDrain(s, showCameras))
  {
  }
}
