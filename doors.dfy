/** The two doors (toggleDoor). */
module Doors {
  import opened GameModel

  function Other(side: Side): Side {
    if side == Left then Right else Left
  }

  function DoorClosed(s: GameState, side: Side): bool {
    if side == Left then s.leftDoorClosed else s.rightDoorClosed
  }

  /** Gen is standing at this side's door. */
  predicate GenAtDoor(s: GameState, side: Side) {
    FindGen(s.robots).Some? && FindGen(s.robots).value.currentCam == DoorCam(side)
  }

  /** Flip one door; if Gen is at that door he is sent back to the Main Stage. */
  function ToggleDoor(s: GameState, side: Side): (t: GameState)
    ensures DoorClosed(t, side) == !DoorClosed(s, side)
    ensures DoorClosed(t, Other(side)) == DoorClosed(s, Other(side))
    ensures GenAtDoor(s, side) ==> t.robots == SetGenCam(s.robots, MainStage)
    ensures !GenAtDoor(s, side) ==> t.robots == s.robots
    ensures t.(leftDoorClosed := s.leftDoorClosed, rightDoorClosed := s.rightDoorClosed, robots := s.robots) == s
  {
    var robots := if GenAtDoor(s, side) then SetGenCam(s.robots, MainStage) else s.robots;
    if side == Left then s.(leftDoorClosed := !s.leftDoorClosed, robots := robots)
    else s.(rightDoorClosed := !s.rightDoorClosed, robots := robots)
  }

  /** Gen's stage after the toggle: blocking him resets it to idle. */
  function StageAfterToggle(s: GameState, stage: GenStage, side: Side): (next: GenStage)
    ensures GenAtDoor(s, side) ==> next == Idle
    ensures !GenAtDoor(s, side) ==> next == stage
  {
    if GenAtDoor(s, side) then Idle else stage
  }

  /** Blocking Gen leaves him on the Main Stage and no other robot moves. */
  lemma ToggleSendsGenHome(s: GameState, side: Side)
    requires GenAtDoor(s, side)
    ensures FindGen(ToggleDoor(s, side).robots) == Some(FindGen(s.robots).value.(currentCam := MainStage))
    ensures forall i :: 0 <= i < |s.robots| && s.robots[i].id != GenId ==> ToggleDoor(s, side).robots[i] == s.robots[i]
  {
    SetGenCamFindsGen(s.robots, MainStage);
  }

  /** Toggling twice gives the door back its flag. When Gen was not at that
      door the whole state comes back; when he was, only his move home remains. */
  lemma ToggleTwice(s: GameState, side: Side)
    ensures DoorClosed(ToggleDoor(ToggleDoor(s, side), side), side) == DoorClosed(s, side)
    ensures !GenAtDoor(s, side) ==> ToggleDoor(ToggleDoor(s, side), side) == s
    ensures GenAtDoor(s, side) ==>
      ToggleDoor(ToggleDoor(s, side), side) == s.(robots := SetGenCam(s.robots, MainStage))
  {
    if GenAtDoor(s, side) {
      SetGenCamFindsGen(s.robots, MainStage);
      assert !GenAtDoor(ToggleDoor(s, side), side);
    }
  }

  lemma TogglePreservesValid(s: GameState, side: Side)
    requires Valid(s)
    ensures Valid(ToggleDoor(s, side))
  {
  }
}
