/** The single game-state record of the night-cycle simulation, the robot
    roster it starts from, and the invariant every transition keeps. */
module GameModel {

  datatype Option<+T> = None | Some(value: T)

  /** Which screen the game is on; the simulation drivers act only in Playing. */
  datatype Phase = Menu | Playing | GameOver

  datatype Side = Left | Right

  /** Gen's scripted stage, kept beside the game state rather than inside it. */
  datatype GenStage = Idle | To3 | To1 | ToDoor

  /** A robot; its on-screen position is presentation only and is not kept. */
  datatype Robot = Robot(id: string, name: string, currentCam: int, isActive: bool, moveNight: int)

  datatype GameState = GameState(
    currentNight: int,
    timeRemaining: int,
    powerLevel: int,
    leftDoorClosed: bool,
    rightDoorClosed: bool,
    selectedCam: int,
    robots: seq<Robot>,
    gameOver: bool,
    victory: bool,
    phase: Phase,
    bossActive: bool)

  const NightSeconds := 300
  const FullPower := 100
  const BossNight := 5
  const GenId := "gen"

  /** Camera numbers: 1 is the Living Room (the threshold cam), 3 the Party
      Room, 4 the Main Stage; 100 and 101 stand for Gen at the left and right door. */
  const LivingRoom := 1
  const PartyRoom := 3
  const MainStage := 4
  const LeftDoorCam := 100
  const RightDoorCam := 101

  function DoorCam(side: Side): int {
    if side == Left then LeftDoorCam else RightDoorCam
  }

  predicate IsRoamCam(c: int) {
    c == LivingRoom || c == PartyRoom || c == MainStage
  }

  predicate IsGenCam(c: int) {
    IsRoamCam(c) || c == LeftDoorCam || c == RightDoorCam
  }

  const InitialRobots: seq<Robot> := [
    Robot("gen", "Gen", 4, false, 1),
    Robot("deddy", "Deddy", 4, false, 2),
    Robot("poppy", "Poppy", 4, false, 4)
  ]

  /** The state the game is created with, and the one restart returns to. */
  const InitialState := GameState(1, NightSeconds, FullPower, false, false, 1, InitialRobots,
                                  false, false, Menu, false)

  /** Two robot lists name the same robots in the same order; only the cams may differ. */
  predicate SameRoster(a: seq<Robot>, b: seq<Robot>) {
    |a| == |b| &&
    forall i :: 0 <= i < |a| ==>
      a[i].id == b[i].id && a[i].name == b[i].name &&
      a[i].isActive == b[i].isActive && a[i].moveNight == b[i].moveNight
  }

  /** Gen may be at any camera or at a door; every other robot only at cams 1, 3 and 4. */
  predicate CamsValid(robots: seq<Robot>) {
    forall i :: 0 <= i < |robots| ==>
      if robots[i].id == GenId then IsGenCam(robots[i].currentCam) else IsRoamCam(robots[i].currentCam)
  }

  /** The invariant of the game state. */
  predicate Valid(s: GameState) {
    0 <= s.timeRemaining <= NightSeconds &&
    0 <= s.powerLevel <= FullPower &&
    s.currentNight >= 1 &&
    (s.bossActive ==> s.currentNight >= BossNight) &&
    !(s.gameOver && s.victory) &&
    (s.phase == GameOver <==> s.gameOver || s.victory) &&
    SameRoster(s.robots, InitialRobots) &&
    CamsValid(s.robots)
  }

  lemma InitialStateValid()
    ensures Valid(InitialState) && InitialState.phase == Menu
  {
  }

  /** The first robot whose id is Gen's, as `find` returns it. */
  function FindGen(robots: seq<Robot>): (g: Option<Robot>)
    ensures g.None? <==> forall i :: 0 <= i < |robots| ==> robots[i].id != GenId
    ensures g.Some? ==> g.value in robots && g.value.id == GenId
  {
    if robots == [] then None
    else if robots[0].id == GenId then Some(robots[0])
    else FindGen(robots[1..])
  }

  /** `find` returns the robot at the first index holding Gen's id. */
  lemma {:induction false} FindGenFirst(robots: seq<Robot>, i: int)
    requires 0 <= i < |robots| && robots[i].id == GenId
    requires forall j :: 0 <= j < i ==> robots[j].id != GenId
    ensures FindGen(robots) == Some(robots[i])
  {
    if i > 0 {
      FindGenFirst(robots[1..], i - 1);
    }
  }

  /** Two lists with the same roster and the same Gen robots have the same Gen. */
  lemma {:induction false} FindGenSameGen(a: seq<Robot>, b: seq<Robot>)
    requires SameRoster(a, b)
    requires forall i :: 0 <= i < |a| && a[i].id == GenId ==> a[i] == b[i]
    ensures FindGen(a) == FindGen(b)
  {
    if a != [] && a[0].id != GenId {
      FindGenSameGen(a[1..], b[1..]);
    }
  }

  /** Every robot with Gen's id moved to `cam`; every other robot as it was. */
  function SetGenCam(robots: seq<Robot>, cam: int): (r: seq<Robot>)
    ensures SameRoster(r, robots)
    ensures forall i :: 0 <= i < |r| ==>
      if robots[i].id == GenId then r[i].currentCam == cam else r[i] == robots[i]
  {
    if robots == [] then []
    else [if robots[0].id == GenId then robots[0].(currentCam := cam) else robots[0]]
         + SetGenCam(robots[1..], cam)
  }

  lemma {:induction false} SetGenCamFindsGen(robots: seq<Robot>, cam: int)
    ensures FindGen(robots).Some? ==> FindGen(SetGenCam(robots, cam)) == Some(FindGen(robots).value.(currentCam := cam))
    ensures FindGen(robots).None? ==> SetGenCam(robots, cam) == robots
  {
    if robots != [] {
      SetGenCamFindsGen(robots[1..], cam);
    }
  }

  /** Moving Gen keeps the roster and, when the new cam is one of his, the cams valid. */
  lemma SetGenCamValid(s: GameState, cam: int)
    requires Valid(s) && IsGenCam(cam)
    ensures Valid(s.(robots := SetGenCam(s.robots, cam)))
  {
  }
}
