/** The roaming-robot movement that fires every eight seconds (handleRobotMovement). */
module Movement {
  import opened GameModel

  /** An index into the three cams a roaming robot may pick. */
  type CamPick = p: int | 0 <= p < 3

  /** The random draws one robot would make: whether it tries to move (the 30% draw)
      and which of the possible cams it picks. */
  datatype MoveDraw = MoveDraw(attempt: bool, pick: CamPick)

  const PossibleCams: seq<int> := [LivingRoom, PartyRoom, MainStage]

  /** What happens to one robot: Gen and robots not yet active this night stay;
      an attempt to a different cam relocates the robot. */
  function StepRobot(r: Robot, night: int, d: MoveDraw): (q: Robot)
    ensures r.id == GenId || r.moveNight > night || !d.attempt ==> q == r
    ensures q.(currentCam := r.currentCam) == r
    ensures q.currentCam != r.currentCam <==>
      r.id != GenId && r.moveNight <= night && d.attempt && PossibleCams[d.pick] != r.currentCam
    ensures q.currentCam != r.currentCam ==> IsRoamCam(q.currentCam) && q.currentCam == PossibleCams[d.pick]
  {
    if r.id == GenId then r
    else if r.moveNight > night then r
    else if d.attempt && PossibleCams[d.pick] != r.currentCam then r.(currentCam := PossibleCams[d.pick])
    else r
  }

  /** Every robot stepped with its own draws. */
  function MoveAll(robots: seq<Robot>, night: int, draws: seq<MoveDraw>): (r: seq<Robot>)
    requires |draws| == |robots|
    ensures SameRoster(r, robots)
    ensures forall i :: 0 <= i < |r| && (robots[i].id == GenId || robots[i].moveNight > night) ==> r[i] == robots[i]
    ensures forall i :: 0 <= i < |r| && r[i].currentCam != robots[i].currentCam ==>
      IsRoamCam(r[i].currentCam) && robots[i].id != GenId
    ensures CamsValid(robots) ==> CamsValid(r)
  {
    seq(|robots|, i requires 0 <= i < |robots| => StepRobot(robots[i], night, draws[i]))
  }

  /** The names of the robots whose cam differs between the two lists, in list order. */
  function ChangedNames(before: seq<Robot>, after: seq<Robot>): (names: seq<string>)
    requires |before| == |after|
    ensures |names| <= |before|
  {
    if before == [] then []
    else
      var k := |before| - 1;
      ChangedNames(before[..k], after[..k])
      + (if before[k].currentCam != after[k].currentCam then [before[k].name] else [])
  }

  /** The list holds exactly the robots that changed cam: each of them is named,
      and every name belongs to one of them. */
  lemma {:induction false} ChangedNamesExact(before: seq<Robot>, after: seq<Robot>)
    requires |before| == |after|
    ensures forall i :: 0 <= i < |before| && before[i].currentCam != after[i].currentCam ==>
      before[i].name in ChangedNames(before, after)
    ensures forall n :: n in ChangedNames(before, after) ==>
      exists i :: 0 <= i < |before| && before[i].name == n && before[i].currentCam != after[i].currentCam
    ensures (forall i :: 0 <= i < |before| ==> before[i].currentCam == after[i].currentCam) ==>
      ChangedNames(before, after) == []
  {
    if before != [] {
      var k := |before| - 1;
      ChangedNamesExact(before[..k], after[..k]);
    }
  }

  /** The loop of the movement handler: step each robot and push the name of
      every robot that actually moved. */
  method MoveRobots(robots: seq<Robot>, night: int, draws: seq<MoveDraw>)
    returns (updated: seq<Robot>, moved: seq<string>)
    requires |draws| == |robots|
    ensures updated == MoveAll(robots, night, draws)
    ensures moved == ChangedNames(robots, updated)
  {
    updated, moved := [], [];
    var i := 0;
    while i < |robots|
      invariant 0 <= i <= |robots|
      invariant |updated| == i
      invariant forall k :: 0 <= k < i ==> updated[k] == StepRobot(robots[k], night, draws[k])
      invariant moved == ChangedNames(robots[..i], updated)
    {
      var r := StepRobot(robots[i], night, draws[i]);
      assert robots[..i + 1][..i] == robots[..i];
      assert (updated + [r])[..i] == updated;
      if r.currentCam != robots[i].currentCam {
        moved := moved + [robots[i].name];
      }
      updated := updated + [r];
      i := i + 1;
    }
    assert robots[..i] == robots;
  }

  /** The handler on the whole state: only the robots change, and only while playing. */
  function RobotMovement(s: GameState, draws: seq<MoveDraw>): (t: GameState)
    requires |draws| == |s.robots|
    ensures s.phase != Playing ==> t == s
    ensures s.phase == Playing ==> t == s.(robots := MoveAll(s.robots, s.currentNight, draws))
  {
    if s.phase != Playing then s else s.(robots := MoveAll(s.robots, s.currentNight, draws))
  }

  /** Movement never touches Gen. */
  lemma MovementLeavesGen(s: GameState, draws: seq<MoveDraw>)
    requires |draws| == |s.robots|
    ensures FindGen(RobotMovement(s, draws).robots) == FindGen(s.robots)
  {
    FindGenSameGen(RobotMovement(s, draws).robots, s.robots);
  }

  lemma MovementPreservesValid(s: GameState, draws: seq<MoveDraw>)
    requires Valid(s) && |draws| == |s.robots|
    ensures Valid(RobotMovement(s, draws))
  {
  }
}
