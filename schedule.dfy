/** The clock and the drain run side by side, once a second and once every two
    seconds, with the camera view held fixed (toggling it restarts the drain's
    two-second period) and the threat check left out. Composed this way the
    drain takes at least 1 every two seconds, so 100 power lasts at most 200
    of the night's 300 seconds. */
module Schedule {
  import opened GameModel
  import Clock
  import Power

  /** Second `k` of play: the clock fires, and on even seconds the drain fires
      as well, before the clock when `drainFirst` holds and after it otherwise. */
  function Second(s: GameState, k: nat, showCameras: bool, drainFirst: bool): GameState {
    if k % 2 != 0 then Clock.GameTick(s)
    else if drainFirst then Clock.GameTick(Power.PowerDrain(s, showCameras))
    else Power.PowerDrain(Clock.GameTick(s), showCameras)
  }

  /** The first `n` seconds of play with no player action; `order[k - 1]` decides
      which of the two timers fires first in second `k`. */
  function Run(s: GameState, n: nat, showCameras: bool, order: seq<bool>): GameState
    requires n <= |order|
  {
    if n == 0 then s else Second(Run(s, n - 1, showCameras, order), n, showCameras, order[n - 1])
  }

  /** Where a quiet night stands after `n` seconds from its start `s`: same
      night, no victory, and either still playing with the clock at 300 − n and
      at most 100 − n/2 power left, or ended by a power outage. */
  predicate Progress(s: GameState, t: GameState, n: nat) {
    t.currentNight == s.currentNight && !t.victory &&
    (t.phase == Playing ==> t.timeRemaining == NightSeconds - n && 0 < t.powerLevel <= FullPower - n / 2) &&
    (t.phase != Playing ==> t.gameOver && t.phase == GameOver && t.powerLevel == 0)
  }

  /** One more second keeps the night on course. */
  lemma SecondKeepsProgress(s: GameState, t: GameState, k: nat, showCameras: bool, drainFirst: bool)
    requires 1 <= k <= 200 && Progress(s, t, k - 1)
    ensures Progress(s, Second(t, k, showCameras, drainFirst), k)
  {
    if t.phase == Playing {
      if k % 2 != 0 {
        assert (k - 1) / 2 == k / 2;
      } else {
        assert (k - 1) / 2 == k / 2 - 1;
        if drainFirst {
          var u := Power.PowerDrain(t, showCameras);
          assert u.phase == Playing ==> u.timeRemaining == t.timeRemaining && u.powerLevel <= t.powerLevel - 1;
        } else {
          var u := Clock.GameTick(t);
          assert u.phase == Playing && u.powerLevel == t.powerLevel && u.timeRemaining == t.timeRemaining - 1;
        }
      }
    }
  }

  /** During the first 200 seconds of a fresh night the clock counts down and the
      power drops by at least one every other second, until the power runs out. */
  lemma {:induction false} RunFromNightStart(s: GameState, n: nat, showCameras: bool, order: seq<bool>)
    requires Valid(s) && s.phase == Playing && s.timeRemaining == NightSeconds && s.powerLevel == FullPower
    requires n <= 200 && n <= |order|
    ensures Progress(s, Run(s, n, showCameras, order), n)
  {
    if n > 0 {
      RunFromNightStart(s, n - 1, showCameras, order);
      SecondKeepsProgress(s, Run(s, n - 1, showCameras, order), n, showCameras, order[n - 1]);
    }
  }

  /** With the camera view never toggled, the clock and the drain alone end a
      fresh night in a power outage by second 200, before its clock runs out. */
  lemma NightEndsInOutage(s: GameState, showCameras: bool, order: seq<bool>)
    requires Valid(s) && s.phase == Playing && s.timeRemaining == NightSeconds && s.powerLevel == FullPower
    requires |order| >= 200
    ensures var t := Run(s, 200, showCameras, order);
      t.gameOver && t.phase == GameOver && t.powerLevel == 0 && t.currentNight == s.currentNight && !t.victory
  {
    RunFromNightStart(s, 200, showCameras, order);
  }

  /** With both doors closed and the camera view shut, two seconds cost 1 + 2 + 2 = 5 power. */
  lemma ClosedDoorsCostFive(s: GameState, order: seq<bool>)
    requires Valid(s) && s.phase == Playing && s.timeRemaining == NightSeconds && s.powerLevel == FullPower
    requires s.leftDoorClosed && s.rightDoorClosed && |order| >= 2
    ensures Run(s, 2, false, order).powerLevel == 95
    ensures Run(s, 2, false, order).timeRemaining == NightSeconds - 2
  {
    assert Run(s, 0, false, order) == s;
    var one := Run(s, 1, false, order);
    assert one == Clock.GameTick(s);
    assert one.timeRemaining == NightSeconds - 1 && one.phase == Playing && one.powerLevel == FullPower;
  }
}
