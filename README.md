# Night-cycle simulation of the security-camera survival game

This project models the simulation core of a browser game. The player guards an
office with two doors and a camera panel. Robots roam between cameras, and a
power budget drains while a 300-second night counts down, for five nights.
The whole game lives in one `GameState` record plus Gen's script stage. Each
handler in `src/App.tsx` is a `prev => next` update of that record, and those
updates are the model.

- `state.dfy` (module `GameModel`): the `Robot` and `GameState` records, the
  initial roster (Gen, Deddy, Poppy), the camera numbers (1 Living Room, 3
  Party Room, 4 Main Stage, 100/101 Gen at the left/right door), and `Valid`.
  `Valid` is the state invariant: time in 0..300, power in 0..100, night at
  least 1, the boss only from night 5, at most one end flag (and either one
  exactly when the phase is game over), the roster unchanged, and every robot
  at a camera it may occupy.
- `clock.dfy`, `power.dfy`, `movement.dfy`, `attack.dfy`, `doors.dfy`,
  `gen.dfy`, `boss.dfy`, `camera.dfy`, `session.dfy`: one module per handler,
  each a pure transition with its contract and the lemmas about it.
- `game.dfy` (module `Game`): class `Simulation`. It owns the state, Gen's
  stage, the door Gen last chose (`genDoorRef`) and the camera-view flag
  (`showCameras`). Each driver is a method that replaces the state by one
  transition and keeps `GenScript.Consistent`, meaning the invariant plus Gen's
  camera agreeing with his stage.
- `schedule.dfy` (module `Schedule`): the 1 s clock and the 2 s drain composed
  over the first seconds of a night.
- `timers.dfy` (module `Timers`): what Gen's timer effect compares between
  renders, as written and as evidently intended (see "## Findings").

Every random draw is an explicit input:
- `MoveDraw(attempt, pick)` is the 30% move draw and the camera index.
- `bossRoll` is the 10% boss draw.
- `door: Side` is Gen's 50% door draw.

In a few places the code behaves differently from what the game's rules
suggest. The model follows the code each time:
- `startGame` (`src/App.tsx:308-318`) only sets the phase to `playing`. It does
  not re-initialise the state; `restartGame` does that.
- The threat check tests only the phase, not the `gameOver`/`victory` flags.
  The flags still stay exclusive, because every driver that sets one also
  leaves `playing`.
- The attack filter counts every robot at cam 1 that is active this night,
  Gen included. Gen at a door cam (100/101) never counts.
- With the camera view never toggled, the clock and the drain alone end a
  fresh night in a power outage by second 200, before its 300 s clock runs
  out (`Schedule.NightEndsInOutage`): each drain takes at least 1 power, and
  at that view it fires every 2 s. This leaves out two things. Toggling the
  view restarts the drain period, so a player who toggles it often enough
  drains less. And from night 2 on, a roaming robot at cam 1 can end the
  night earlier through the threat check.
- The night number is not bounded by 5 on its own. It stays in 1..5 when the
  boss effect runs after every tick (`Boss.TickThenBossStaysSettled`).

## Model

| member | source | states |
|---|---|---|
| GameModel.InitialStateValid | src/App.tsx:47-59 | the initial state (night 1, 300 s, power 100, doors open, all robots on stage, menu) satisfies the invariant |
| GameModel.FindGen | src/App.tsx:155 | `find` by id: none iff no robot has Gen's id, otherwise a robot of the list with Gen's id |
| GameModel.FindGenFirst | src/App.tsx:155 | the robot found is the one at the first index holding Gen's id |
| GameModel.SetGenCam | src/App.tsx:162-164 | the map that moves Gen: same roster, Gen's entries at the new cam, every other robot unchanged |
| Clock.GameTick | src/App.tsx:63-83 | not playing: unchanged; time left: only the time changes, down by 1; at 0 on night 5 with the boss: victory and game over, nothing else; otherwise night + 1, time 300, power 100, nothing else |
| Clock.TickMonotone | src/App.tsx:63-82 | a tick raises the night by 0 or 1 and never touches robots, doors or the boss flag |
| Clock.TickPreservesValid | src/App.tsx:63-82 | a tick keeps the state invariant |
| Power.Drain | src/App.tsx:237-240 | the drain rate lies in 1..6: 1 with everything open and the view shut, 6 with both doors closed and the view open |
| Power.PowerDrain | src/App.tsx:234-253 | not playing: unchanged; otherwise power becomes max(0, power − rate), never rises and never goes below 0; a result of 0 sets game over, any other result changes only the power (down by at least 1) |
| Power.DrainPreservesValid | src/App.tsx:234-252 | a drain keeps the state invariant |
| Boss.ActivateBoss | src/App.tsx:290-299 | afterwards the boss is active iff it was or the night is 5; nothing else changes |
| Boss.ActivateBossIdempotent | src/App.tsx:291-292 | activating again is a no-op |
| Boss.ActivateBossPreservesValid | src/App.tsx:290-292 | activation keeps the invariant (the boss appears only from night 5) |
| Boss.TickThenBossStaysSettled | src/App.tsx:67-79 | with the boss effect after each tick the night stays in 1..5 |
| Movement.StepRobot | src/App.tsx:91-108 | Gen, a robot not yet active this night, or one without a move attempt is unchanged; only the cam can change; it changes iff the robot is eligible, attempts and picks another cam, and then it is the picked cam of {1,3,4} |
| Movement.MoveAll | src/App.tsx:91-108 | the roster and its order are kept; Gen and ineligible robots are unchanged; a changed robot is not Gen and sits at 1, 3 or 4; valid cams stay valid |
| Movement.ChangedNames | src/App.tsx:86-99 | the `movedRobotNames` list, in list order: at most one name per robot (its exactness is `ChangedNamesExact`) |
| Movement.ChangedNamesExact | src/App.tsx:98-99 | exactly the names of the robots whose cam changed: each one is listed, and every listed name belongs to one |
| Movement.MoveRobots | src/App.tsx:86-110 | the loop with `push` returns the stepped list and exactly the names of the robots that moved |
| Movement.RobotMovement | src/App.tsx:88-110 | not playing: unchanged; otherwise only the robot list is replaced by the stepped list |
| Movement.MovementLeavesGen | src/App.tsx:92 | after movement Gen is found exactly as before |
| Movement.MovementPreservesValid | src/App.tsx:86-110 | movement keeps the state invariant |
| Attack.RobotsAtDoor | src/App.tsx:124-126 | the filter holds exactly the robots at cam 1 that are active this night, Gen not excluded; it is empty iff there are none |
| Attack.AttackReason | src/App.tsx:128-134 | "YOU DIED" iff some active robot is at cam 1 and both doors are open; the boss reason only with the boss active, a hit roll and a door open; no reason whenever both doors are closed |
| Attack.AttackCheck | src/App.tsx:120-147 | not playing or no reason: unchanged; a reason while playing: game over with nothing else changed |
| Attack.BothDoorsClosedIsSafe | src/App.tsx:130-134 | with both doors closed the check never changes the state |
| Attack.ThresholdRobotKills | src/App.tsx:124-131 | an active robot at cam 1 with both doors open always ends the game |
| Attack.AttackPreservesValid | src/App.tsx:120-147 | the check keeps the state invariant |
| Doors.ToggleDoor | src/App.tsx:210-232 | the named door flips, the other door keeps its flag; Gen at that door goes to cam 4, otherwise the robots are untouched; nothing else changes |
| Doors.StageAfterToggle | src/App.tsx:214-219 | blocking Gen at that door makes his stage idle; otherwise the stage is kept |
| Doors.ToggleSendsGenHome | src/App.tsx:214-218 | a blocked Gen is found at cam 4 and no other robot moves |
| Doors.ToggleTwice | src/App.tsx:226-229 | toggling twice restores the flag; without Gen at that door the whole state comes back, with him only his move home remains |
| Doors.TogglePreservesValid | src/App.tsx:210-232 | a toggle keeps the state invariant |
| GenScript.GenAdvance | src/App.tsx:152-200 | no timer pending: nothing changes; idle at 4 leads to cam 3 and to3, to3 at 3 to cam 1 and to1, to1 at 1 to door 100 or 101 per the draw and toDoor; the stage only advances by one; only Gen moves |
| GenScript.GenSettle | src/App.tsx:202-208 | while playing with Gen at cam 4 the stage becomes idle; otherwise it is kept |
| GenScript.GenAdvancePreservesConsistent | src/App.tsx:152-200 | a script step keeps the invariant and Gen's cam in sync with his stage (Gen stays within 1, 3, 4, 100, 101) |
| GenScript.GenSettlePreservesConsistent | src/App.tsx:202-208 | the reset effect keeps the invariant and the sync |
| GenScript.ScriptReachesDoor | src/App.tsx:158-197 | from idle on the stage, three firings give to3, to1, toDoor in that order with Gen at the drawn door, after which nothing more fires |
| Camera.RobotsInCam | src/App.tsx:255-266 | Gen is listed only at a cam of 1, 3, 4 equal to his own, never at 100/101; another robot is listed iff it is at that cam and active this night |
| Camera.GetRobotsInCam | src/App.tsx:255-266 | the query on the state: every robot listed is one of the state's robots at that cam, any non-Gen one active this night; every active non-Gen robot at the cam is listed |
| Camera.GenHiddenAtDoors | src/App.tsx:257-262 | the door cams never show Gen |
| Camera.Decimal | src/App.tsx:353 | `toString` of the minutes: at least one digit, one digit iff below 10, and a leading '0' only for 0 |
| Camera.PadTwo | src/App.tsx:353 | `padStart(2, '0')`: length at least 2, the input as the suffix, and only '0's in front of it |
| Camera.FormatTime | src/App.tsx:350-354 | the display is digits, a colon and exactly two digits, and starts with '0' iff it is under a minute (the minutes have no leading zero) |
| Camera.FormatTimeRoundTrip | src/App.tsx:350-354 | reading the display back as minutes × 60 + seconds gives the original seconds |
| Camera.FormatTimeInjective | src/App.tsx:350-354 | different times never show the same display |
| Session.StartGame | src/App.tsx:308-318 | only the phase changes, to playing |
| Session.StartPreservesValid | src/App.tsx:308-309 | starting from the menu keeps the invariant with no end flag set |
| Session.RestartGame | src/App.tsx:320-335 | restart gives a valid menu state: night 1, 300 s, power 100, doors open, no flags, every robot on stage |
| Schedule.RunFromNightStart | src/App.tsx:268-280 | with the view flag fixed, for 200 seconds of clock and drain from a fresh night the night does not change, the time counts down, and power is at most 100 − n/2 until an outage ends the game |
| Schedule.NightEndsInOutage | src/App.tsx:234-252 | with the camera view never toggled, the clock and drain alone end a fresh night in a power outage by second 200, before its clock runs out |
| Schedule.ClosedDoorsCostFive | src/App.tsx:237-242 | two seconds with both doors closed cost 5 power |
| Timers.RobotsIdAfterMovement | src/App.tsx:88-109 | as written, every movement firing during play builds a new robots array; outside play it keeps the old one |
| Timers.MovementRerunsGenEffect | src/App.tsx:88-109 | as written, Gen's effect dependencies (line 200) after a movement firing differ from before, for every draw |
| Timers.IdleTimerCleared | src/App.tsx:158-168 | an idle timer armed at any second of play meets a firing of the 8 s movement interval (lines 282-287) before its 10 s are up |
| Timers.MovementKeepsIntendedDeps | src/App.tsx:152-200 | with Gen himself as the dependency instead of the array, movement never re-runs his effect |
| Game.Simulation.constructor | src/App.tsx:47-61 | the owner starts in the initial state with Gen idle, no door chosen and the view shut |
| Game.Simulation.Tick | src/App.tsx:268-273 | the clock driver applies one tick and keeps the invariant |
| Game.Simulation.DrainPower | src/App.tsx:275-280 | the drain driver applies one drain at the current view flag and keeps the invariant |
| Game.Simulation.MoveRobots | src/App.tsx:282-287 | the movement driver applies one movement and returns the names of the robots that moved |
| Game.Simulation.CheckAttack | src/App.tsx:301-306 | the threat driver applies one check and returns its reason |
| Game.Simulation.ToggleDoor | src/App.tsx:210-232 | toggles the door, resets Gen's stage when he is blocked, reports whether he was |
| Game.Simulation.ToggleCameras | src/App.tsx:513 | flips the view flag only |
| Game.Simulation.AdvanceGen | src/App.tsx:152-200 | applies a script step and records the drawn door when Gen goes to a door |
| Game.Simulation.SettleGen | src/App.tsx:202-208 | applies the reset effect to the stage |
| Game.Simulation.ActivateBoss | src/App.tsx:289-299 | applies the boss activation |
| Game.Simulation.Start | src/App.tsx:308-318 | from the menu, switches to playing |
| Game.Simulation.Restart | src/App.tsx:320-335 | resets the state, shuts the view, keeps Gen's stage |
| Game.DriversStopOutsidePlay | src/App.tsx:65 | outside playing, the clock, drain, movement, threat check and Gen's script change nothing |
| Game.BlockGenAtDoor | src/App.tsx:152-232 | start, three timer firings, then closing Gen's door: Gen is blocked, back on the stage and idle |

## Left out

- Timers and scheduling (`setInterval`, `setTimeout`, effect cleanup) are not
  modelled, apart from the dependency comparison of Gen's effect in `Timers`
  (see "## Findings"). A driver is a method you can call in any order. Gen's
  timer is modelled as able to fire whenever its effect's condition holds,
  which is the intended behaviour. `GenScript.ScriptReachesDoor` and
  `Game.BlockGenAtDoor` therefore describe a path the page as written does
  not take while the movement interval runs.
- The drain period restart is left out. `handlePowerDrain` is rebuilt
  whenever `showCameras` changes (`src/App.tsx:253`), and that re-creates the
  drain interval (`src/App.tsx:276-280`). So every toggle of the camera view
  starts a new 2 s period, and a player toggling faster than every 2 s stops
  the drain. `Schedule` holds the view flag fixed and does not cover this.
- Notifications (`toast`), all JSX, animations and UI components are left
  out. The model returns only the data the notifications carry: moved names,
  the death reason, and whether Gen was blocked.
- A robot's `position` is dropped. It is presentation only, and floating
  point for roaming robots.
- `Math.random()` is left out; each draw is an input. Movement takes one draw
  per robot, and the draws of robots that never move are ignored.
- The tab handling for `selectedCam` is left out (UI only). The field is kept
  in the record and no transition changes it.
- `getRobotsInCam` is declared twice in the source, and `useRef` is used
  without being imported. The model has one `RobotsInCam`. The missing import
  is not reproduced.
- Camera.FormatTime: takes a natural number. Negative seconds would print
  differently under JavaScript's truncating `%`, but the only caller passes
  `timeRemaining`, which `Valid` keeps non-negative.
- Game.Simulation.Start: requires the menu phase, because the start button is
  only rendered on the menu screen (`src/App.tsx:356-382`).
- Which robot ids exist is not checked beyond the roster. `Valid` fixes it to
  the three initial robots, whose ids are unique.

## Findings

| source | as written | input that shows it | evidently intended | confidence | as-written member | corrected member |
|---|---|---|---|---|---|---|
| src/App.tsx:88-109,158-168,200 | Gen's effect depends on the `robots` array. The movement handler builds a new array with `map` every 8 s, even when nobody moves, so the effect re-runs and clears Gen's 10 s idle timer before it is due | start a night and do nothing: the idle timer armed at second 0 is cleared at 8, the one armed at 8 is cleared at 16, and so on; Gen never leaves the stage | Gen leaves the stage 10 s after he settles there, so the effect should depend on Gen himself rather than on the array | not executed; found by reading | Timers.MovementRerunsGenEffect, Timers.IdleTimerCleared | Timers.MovementKeepsIntendedDeps (with `GenScript.GenAdvance` firing whenever the timer is pending) |
