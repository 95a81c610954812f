/** The once-a-second night clock (handleGameTick). */
module Clock {
  import opened GameModel

  /** One clock tick: count the night down, or at its end start the next
      night or, on night 5 with the boss active, declare victory. */
  function GameTick(s: GameState): (t: GameState)
    ensures s.phase != Playing ==> t == s
    ensures s.phase == Playing && s.timeRemaining > 0 ==>
      t.timeRemaining == s.timeRemaining - 1 && t.(timeRemaining := s.timeRemaining) == s
    ensures s.phase == Playing && s.timeRemaining <= 0 && s.currentNight == BossNight && s.bossActive ==>
      t.victory && t.phase == GameOver && t.(victory := s.victory, phase := s.phase) == s
    ensures s.phase == Playing && s.timeRemaining <= 0 && !(s.currentNight == BossNight && s.bossActive) ==>
      t.currentNight == s.currentNight + 1 && t.timeRemaining == NightSeconds && t.powerLevel == FullPower &&
      t.(currentNight := s.currentNight, timeRemaining := s.timeRemaining, powerLevel := s.powerLevel) == s
  {
    if s.phase != Playing then s
    else if s.timeRemaining <= 0 then
      if s.currentNight == BossNight && s.bossActive then s.(victory := true, phase := GameOver)
      else s.(currentNight := s.currentNight + 1, timeRemaining := NightSeconds, powerLevel := FullPower)
    else s.(timeRemaining := s.timeRemaining - 1)
  }

  /** The night number never goes down and rises by at most one per tick;
      the robots, doors and boss flag are never touched. */
  lemma TickMonotone(s: GameState)
    ensures var t := GameTick(s);
      (t.currentNight == s.currentNight || t.currentNight == s.currentNight + 1) &&
      t.robots == s.robots && t.leftDoorClosed == s.leftDoorClosed &&
      t.rightDoorClosed == s.rightDoorClosed && t.bossActive == s.bossActive
  {
  }

  lemma TickPreservesValid(s: GameState)
    requires Valid(s)
    ensures Valid(GameTick(s))
  {
  }
}
