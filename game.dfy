/** The component that owns the game: the state record, Gen's stage, the door
    Gen last went to and whether the camera view is open. Every driver is a
    method that replaces the state by one pure transition. */
module Game {
  import opened GameModel
  import Clock
  import Power
  import Movement
  import Attack
  import Doors
  import GenScript
  import Boss
  import Session

  class Simulation {
    var state: GameState
    var genStage: GenStage
    var genDoor: Option<Side>
    var showCameras: bool

    ghost predicate Valid()
      reads this
    {
      GenScript.Consistent(state, genStage)
    }

    /** The game as the page first shows it: the menu, night 1, Gen idle. */
    constructor ()
      ensures Valid()
      ensures state == InitialState && genStage == Idle && genDoor == None && !showCameras
    {
      state := InitialState;
      genStage := Idle;
      genDoor := None;
      showCameras := false;
    }

    /** The one-second clock. */
    method Tick()
      requires Valid()
      modifies this
      ensures Valid() && state == Clock.GameTick(old(state))
      ensures genStage == old(genStage) && genDoor == old(genDoor) && showCameras == old(showCameras)
    {
      Clock.TickPreservesValid(state);
      Clock.TickMonotone(state);
      state := Clock.GameTick(state);
    }

    /** The two-second drain, at the rate the current doors and camera view give. */
    method DrainPower()
      requires Valid()
      modifies this
      ensures Valid() && state == Power.PowerDrain(old(state), old(showCameras))
      ensures genStage == old(genStage) && genDoor == old(genDoor) && showCameras == old(showCameras)
    {
      Power.DrainPreservesValid(state, showCameras);
      state := Power.PowerDrain(state, showCameras);
    }

    /** The eight-second movement of the roaming robots; returns the names of
        the robots that moved, for the notifications. */
    method MoveRobots(draws: seq<Movement.MoveDraw>) returns (moved: seq<string>)
      requires Valid() && |draws| == |state.robots|
      modifies this
      ensures Valid() && state == Movement.RobotMovement(old(state), draws)
      ensures moved == Movement.ChangedNames(old(state).robots, state.robots)
      ensures genStage == old(genStage) && genDoor == old(genDoor) && showCameras == old(showCameras)
    {
      Movement.MovementPreservesValid(state, draws);
      Movement.MovementLeavesGen(state, draws);
      if state.phase != Playing {
        Movement.ChangedNamesExact(state.robots, state.robots);
        moved := [];
        return;
      }
      var updated;
      updated, moved := Movement.MoveRobots(state.robots, state.currentNight, draws);
      state := state.(robots := updated);
    }

    /** The three-second threat check; returns why the player died, if they did. */
    method CheckAttack(bossRoll: bool) returns (reason: Option<Attack.Death>)
      requires Valid()
      modifies this
      ensures Valid() && state == Attack.AttackCheck(old(state), bossRoll)
      ensures reason == if old(state).phase == Playing then Attack.AttackReason(old(state), bossRoll) else None
      ensures genStage == old(genStage) && genDoor == old(genDoor) && showCameras == old(showCameras)
    {
      Attack.AttackPreservesValid(state, bossRoll);
      reason := if state.phase == Playing then Attack.AttackReason(state, bossRoll) else None;
      state := Attack.AttackCheck(state, bossRoll);
    }

    /** A door button; returns whether Gen was blocked and sent home. */
    method ToggleDoor(side: Side) returns (blocked: bool)
      requires Valid()
      modifies this
      ensures Valid() && state == Doors.ToggleDoor(old(state), side)
      ensures blocked == Doors.GenAtDoor(old(state), side)
      ensures genStage == Doors.StageAfterToggle(old(state), old(genStage), side)
      ensures genDoor == old(genDoor) && showCameras == old(showCameras)
    {
      blocked := Doors.GenAtDoor(state, side);
      Doors.TogglePreservesValid(state, side);
      if blocked {
        Doors.ToggleSendsGenHome(state, side);
      }
      genStage := Doors.StageAfterToggle(state, genStage, side);
      state := Doors.ToggleDoor(state, side);
    }

    /** The camera-view button; it only changes the drain rate. */
    method ToggleCameras()
      requires Valid()
      modifies this
      ensures Valid() && showCameras == !old(showCameras)
      ensures state == old(state) && genStage == old(genStage) && genDoor == old(genDoor)
    {
      showCameras := !showCameras;
    }

    /** Gen's pending timer fires; `door` is the door draw used by the last stage. */
    method AdvanceGen(door: Side)
      requires Valid()
      modifies this
      ensures Valid()
      ensures GenScript.GenStep(state, genStage) == GenScript.GenAdvance(old(state), old(genStage), door)
      ensures genDoor == if GenScript.TimerPending(old(state), old(genStage)) && old(genStage) == To1
                         then Some(door) else old(genDoor)
      ensures showCameras == old(showCameras)
    {
      GenScript.GenAdvancePreservesConsistent(state, genStage, door);
      if GenScript.TimerPending(state, genStage) && genStage == To1 {
        genDoor := Some(door);
      }
      var step := GenScript.GenAdvance(state, genStage, door);
      state, genStage := step.state, step.stage;
    }

    /** The effect that puts Gen's stage back to idle once he is home. */
    method SettleGen()
      requires Valid()
      modifies this
      ensures Valid() && genStage == GenScript.GenSettle(old(state), old(genStage))
      ensures state == old(state) && genDoor == old(genDoor) && showCameras == old(showCameras)
    {
      GenScript.GenSettlePreservesConsistent(state, genStage);
      genStage := GenScript.GenSettle(state, genStage);
    }

    /** The effect that activates the boss on night 5. */
    method ActivateBoss()
      requires Valid()
      modifies this
      ensures Valid() && state == Boss.ActivateBoss(old(state))
      ensures genStage == old(genStage) && genDoor == old(genDoor) && showCameras == old(showCameras)
    {
      Boss.ActivateBossPreservesValid(state);
      state := Boss.ActivateBoss(state);
    }

    /** The start button of the menu screen. */
    method Start()
      requires Valid() && state.phase == Menu
      modifies this
      ensures Valid() && state == Session.StartGame(old(state))
      ensures genStage == old(genStage) && genDoor == old(genDoor) && showCameras == old(showCameras)
    {
      Session.StartPreservesValid(state);
      state := Session.StartGame(state);
    }

    /** The restart button: a fresh state and the camera view closed; Gen's stage
        and last door are kept as they were. */
    method Restart()
      requires Valid()
      modifies this
      ensures Valid() && state == Session.RestartGame() && !showCameras
      ensures genStage == old(genStage) && genDoor == old(genDoor)
    {
      state := Session.RestartGame();
      showCameras := false;
    }
  }

  /** Once the phase has left Playing, no driver changes the state or Gen's stage. */
  lemma DriversStopOutsidePlay(s: GameState, stage: GenStage, cams: bool, roll: bool, door: Side,
                               draws: seq<Movement.MoveDraw>)
    requires s.phase != Playing && |draws| == |s.robots|
    ensures Clock.GameTick(s) == s && Power.PowerDrain(s, cams) == s
    ensures Movement.RobotMovement(s, draws) == s && Attack.AttackCheck(s, roll) == s
    ensures GenScript.GenAdvance(s, stage, door) == GenScript.GenStep(s, stage)
    ensures GenScript.GenSettle(s, stage) == stage
  {
  }

  /** A whole night's walk of Gen: start, three timer firings, then the player
      closes the door he is at; he is home and idle again. */
  method BlockGenAtDoor(door: Side) returns (cam: int, stage: GenStage, blocked: bool)
    ensures blocked && cam == MainStage && stage == Idle
  {
    var g := new Simulation();
    g.Start();
    assert g.state.robots[0] == Robot("gen", "Gen", MainStage, false, 1);
    assert FindGen(g.state.robots) == Some(g.state.robots[0]);
    GenScript.ScriptReachesDoor(g.state, door);
    g.AdvanceGen(door);
    g.AdvanceGen(door);
    g.AdvanceGen(door);
    ghost var atDoor := g.state;
    blocked := g.ToggleDoor(door);
    Doors.ToggleSendsGenHome(atDoor, door);
    cam := FindGen(g.state.robots).value.currentCam;
    stage := g.genStage;
  }
}
