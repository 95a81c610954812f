/** The boss becomes active as soon as night 5 is reached (the effect watching the night number). */
module Boss {
  import opened GameModel
  import Clock

  /** Set the boss flag once night 5 is reached; a later application changes nothing. */
  function ActivateBoss(s: GameState): (t: GameState)
    ensures t.bossActive <==> s.bossActive || s.currentNight == BossNight
    ensures t.(bossActive := s.bossActive) == s
  {
    if s.currentNight == BossNight && !s.bossActive then s.(bossActive := true) else s
  }

  lemma ActivateBossIdempotent(s: GameState)
    ensures ActivateBoss(ActivateBoss(s)) == ActivateBoss(s)
  {
  }

  lemma ActivateBossPreservesValid(s: GameState)
    requires Valid(s)
    ensures Valid(ActivateBoss(s))
  {
  }

  /** A state is settled when the boss effect has already run for it. */
  predicate Settled(s: GameState) {
    1 <= s.currentNight <= BossNight && (s.currentNight == BossNight ==> s.bossActive)
  }

  /** When the boss effect runs after every tick, the night number stays in 1..5:
      a night-5 tick either counts down or ends in victory. */
  lemma TickThenBossStaysSettled(s: GameState)
    requires Valid(s) && Settled(s)
    ensures Settled(ActivateBoss(Clock.GameTick(s)))
  {
  }
}
