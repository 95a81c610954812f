/** Gen's scripted walk from the Main Stage to a door: idle at 4, to3 at 3,
    to1 at 1, toDoor at 100 or 101, and back to idle whenever he is home. */
module GenScript {
  import opened GameModel

  /** The game state together with Gen's stage, after one script step. */
  datatype GenStep = GenStep(state: GameState, stage: GenStage)

  /** Gen waits at `cam` during a timed stage; toDoor has no timer. */
  predicate WaitsAt(stage: GenStage, cam: int) {
    match stage
    case Idle => cam == MainStage
    case To3 => cam == PartyRoom
    case To1 => cam == LivingRoom
    case ToDoor => false
  }

  /** The effect has a timer pending: the game is playing, Gen is present and
      stands where his stage says. A change to either cancels the timer. */
  predicate TimerPending(s: GameState, stage: GenStage) {
    s.phase == Playing && s.currentNight >= 1 && FindGen(s.robots).Some? &&
    WaitsAt(stage, FindGen(s.robots).value.currentCam)
  }

  function NextStage(stage: GenStage): GenStage {
    match stage
    case Idle => To3
    case To3 => To1
    case To1 => ToDoor
    case ToDoor => ToDoor
  }

  /** Where the timer of each stage sends Gen; `door` is the 50% door draw. */
  function TargetCam(stage: GenStage, door: Side): int {
    match stage
    case Idle => PartyRoom
    case To3 => LivingRoom
    case To1 => DoorCam(door)
    case ToDoor => DoorCam(door)
  }

  /** The pending timer fires: Gen moves one step along his path and his stage advances. */
  function GenAdvance(s: GameState, stage: GenStage, door: Side): (r: GenStep)
    ensures !TimerPending(s, stage) ==> r == GenStep(s, stage)
    ensures r.state.(robots := s.robots) == s
    ensures r.stage == stage || r.stage == NextStage(stage)
    ensures TimerPending(s, stage) ==> FindGen(r.state.robots).Some?
    ensures TimerPending(s, stage) && stage == Idle ==>
      r.stage == To3 && FindGen(r.state.robots).value.currentCam == PartyRoom
    ensures TimerPending(s, stage) && stage == To3 ==>
      r.stage == To1 && FindGen(r.state.robots).value.currentCam == LivingRoom
    ensures TimerPending(s, stage) && stage == To1 ==>
      r.stage == ToDoor && FindGen(r.state.robots).value.currentCam == DoorCam(door)
    ensures SameRoster(r.state.robots, s.robots)
    ensures forall i :: 0 <= i < |s.robots| && s.robots[i].id != GenId ==> r.state.robots[i] == s.robots[i]
  {
    if TimerPending(s, stage) then
      SetGenCamFindsGen(s.robots, TargetCam(stage, door));
      GenStep(s.(robots := SetGenCam(s.robots, TargetCam(stage, door))), NextStage(stage))
    else GenStep(s, stage)
  }

  /** The second effect: once Gen is back on the Main Stage his stage is idle again. */
  function GenSettle(s: GameState, stage: GenStage): (next: GenStage)
    ensures s.phase == Playing && FindGen(s.robots).Some? && FindGen(s.robots).value.currentCam == MainStage ==>
      next == Idle
    ensures !(s.phase == Playing && FindGen(s.robots).Some? && FindGen(s.robots).value.currentCam == MainStage) ==>
      next == stage
  {
    if s.phase == Playing && FindGen(s.robots).Some? && FindGen(s.robots).value.currentCam == MainStage && stage != Idle
    then Idle else stage
  }

  /** Gen's cam agrees with his stage: he is home, or where the stage puts him. */
  predicate InSync(stage: GenStage, cam: int) {
    cam == MainStage ||
    (stage == To3 && cam == PartyRoom) ||
    (stage == To1 && cam == LivingRoom) ||
    (stage == ToDoor && (cam == LeftDoorCam || cam == RightDoorCam))
  }

  /** The invariant of the game state together with Gen's stage. */
  predicate Consistent(s: GameState, stage: GenStage) {
    Valid(s) && (FindGen(s.robots).Some? ==> InSync(stage, FindGen(s.robots).value.currentCam))
  }

  lemma GenAdvancePreservesConsistent(s: GameState, stage: GenStage, door: Side)
    requires Consistent(s, stage)
    ensures Consistent(GenAdvance(s, stage, door).state, GenAdvance(s, stage, door).stage)
  {
    if TimerPending(s, stage) {
      SetGenCamValid(s, TargetCam(stage, door));
    }
  }

  lemma GenSettlePreservesConsistent(s: GameState, stage: GenStage)
    requires Consistent(s, stage)
    ensures Consistent(s, GenSettle(s, stage))
  {
  }

  /** Gen's path visits the stages in order and never skips one: from idle
      three firings of the timer bring him to a door. */
  lemma {:induction false} ScriptReachesDoor(s: GameState, door: Side)
    requires s.phase == Playing && s.currentNight >= 1
    requires FindGen(s.robots).Some? && FindGen(s.robots).value.currentCam == MainStage
    ensures var a := GenAdvance(s, Idle, door);
            var b := GenAdvance(a.state, a.stage, door);
            var c := GenAdvance(b.state, b.stage, door);
            a.stage == To3 && b.stage == To1 && c.stage == ToDoor &&
            FindGen(c.state.robots).value.currentCam == DoorCam(door) &&
            GenAdvance(c.state, c.stage, door) == c
  {
    var a := GenAdvance(s, Idle, door);
    AdvanceOnce(s, Idle, door);
    var b := GenAdvance(a.state, a.stage, door);
    AdvanceOnce(a.state, a.stage, door);
    AdvanceOnce(b.state, b.stage, door);
  }

  /** One firing of a pending timer, in the terms the next firing needs. */
  lemma AdvanceOnce(s: GameState, stage: GenStage, door: Side)
    requires TimerPending(s, stage)
    ensures var r := GenAdvance(s, stage, door);
      r.state.phase == s.phase && r.state.currentNight == s.currentNight &&
      r.stage == NextStage(stage) && FindGen(r.state.robots).Some? &&
      FindGen(r.state.robots).value.currentCam == TargetCam(stage, door)
  {
  }
}
