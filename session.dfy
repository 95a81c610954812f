/** Leaving the menu (startGame) and starting over (restartGame). */
module Session {
  import opened GameModel

  /** Start only switches to Playing; nothing else is reset. */
  function StartGame(s: GameState): (t: GameState)
    ensures t.phase == Playing && t.(phase := s.phase) == s
  {
    s.(phase := Playing)
  }

  /** The start button is only offered on the menu screen, where neither end flag is set. */
  lemma StartPreservesValid(s: GameState)
    requires Valid(s) && s.phase == Menu
    ensures Valid(StartGame(s)) && !StartGame(s).gameOver && !StartGame(s).victory
  {
  }

  /** Restart rebuilds the whole state: night 1, a full clock and full power,
      doors open, no end flag, no boss, every robot back on the Main Stage. */
  function RestartGame(): (t: GameState)
    ensures Valid(t) && t.phase == Menu
    ensures t.currentNight == 1 && t.timeRemaining == NightSeconds && t.powerLevel == FullPower
    ensures !t.leftDoorClosed && !t.rightDoorClosed && !t.gameOver && !t.victory && !t.bossActive
    ensures t.robots == InitialRobots
    ensures forall i :: 0 <= i < |t.robots| ==> t.robots[i].currentCam == MainStage
  {
    InitialState
  }
}
