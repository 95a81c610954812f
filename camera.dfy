/** What the camera panel shows (getRobotsInCam) and the clock display (formatTime). */
module Camera {
  import opened GameModel

  /** The robots shown on camera `cam`, in list order: Gen whenever he stands at
      that cam and it is one of 1, 3, 4 (never at the door cams 100 and 101);
      any other robot when it stands there and is active this night. */
  function RobotsInCam(robots: seq<Robot>, night: int, cam: int): (r: seq<Robot>)
    ensures forall x :: x in r ==> x in robots
    ensures forall x :: x in r && x.id == GenId ==> IsRoamCam(cam) && x.currentCam == cam
    ensures forall x :: x in r && x.id != GenId ==> x.currentCam == cam && x.moveNight <= night
    ensures forall i :: 0 <= i < |robots| && robots[i].id == GenId && IsRoamCam(cam) && robots[i].currentCam == cam ==>
      robots[i] in r
    ensures forall i :: 0 <= i < |robots| && robots[i].id != GenId &&
                        robots[i].currentCam == cam && robots[i].moveNight <= night ==>
      robots[i] in r
    ensures |r| <= |robots|
  {
    if robots == [] then []
    else
      var x := robots[0];
      var shown := if x.id == GenId then
                     (cam == LivingRoom && x.currentCam == LivingRoom) ||
                     (cam == PartyRoom && x.currentCam == PartyRoom) ||
                     (cam == MainStage && x.currentCam == MainStage)
                   else x.currentCam == cam && x.moveNight <= night;
      (if shown then [x] else []) + RobotsInCam(robots[1..], night, cam)
  }

  /** The camera panel's query on the state: robots of the state at `cam`,
      any robot other than Gen only once it is active this night. */
  function GetRobotsInCam(s: GameState, cam: int): (r: seq<Robot>)
    ensures forall x :: x in r ==> x in s.robots && x.currentCam == cam
    ensures forall x :: x in r && x.id != GenId ==> x.moveNight <= s.currentNight
    ensures forall i :: 0 <= i < |s.robots| && s.robots[i].id != GenId &&
                        s.robots[i].currentCam == cam && s.robots[i].moveNight <= s.currentNight ==>
      s.robots[i] in r
  {
    RobotsInCam(s.robots, s.currentNight, cam)
  }

  /** At a door cam the panel never shows Gen, even when he is standing there. */
  lemma GenHiddenAtDoors(s: GameState, side: Side)
    ensures forall x :: x in GetRobotsInCam(s, DoorCam(side)) ==> x.id != GenId
  {
  }

  predicate IsDigit(c: char) {
    '0' <= c <= '9'
  }

  predicate AllDigits(s: seq<char>) {
    forall i :: 0 <= i < |s| ==> IsDigit(s[i])
  }

  function DigitChar(d: int): (c: char)
    requires 0 <= d < 10
    ensures IsDigit(c) && c as int - '0' as int == d
  {
    ('0' as int + d) as char
  }

  /** A natural number written in decimal without leading zeros, as `toString` writes it. */
  function Decimal(n: nat): (s: seq<char>)
    ensures 1 <= |s| && AllDigits(s)
    ensures |s| == 1 <==> n < 10
    ensures s[0] == '0' <==> n == 0
  {
    if n < 10 then [DigitChar(n)] else Decimal(n / 10) + [DigitChar(n % 10)]
  }

  /** Pad on the left with '0' up to two characters, as `padStart(2, '0')` does. */
  function PadTwo(s: seq<char>): (p: seq<char>)
    ensures |p| == if |s| < 2 then 2 else |s|
    ensures p[|p| - |s|..] == s
    ensures p[..|p| - |s|] == ['0', '0'][..|p| - |s|]
  {
    if |s| >= 2 then s else if |s| == 1 then ['0'] + s else ['0', '0']
  }

  /** The clock display: whole minutes, a colon, two digits of seconds. */
  function FormatTime(seconds: nat): (r: string)
    ensures |r| >= 4 && r[|r| - 3] == ':'
    ensures AllDigits(r[..|r| - 3]) && IsDigit(r[|r| - 2]) && IsDigit(r[|r| - 1])
    ensures r[0] == '0' <==> seconds < 60
  {
    Decimal(seconds / 60) + [':'] + PadTwo(Decimal(seconds % 60))
  }

  /** The value of a string of decimal digits. */
  function ParseDecimal(s: seq<char>): nat
    requires AllDigits(s)
  {
    if s == [] then 0
    else ParseDecimal(s[..|s| - 1]) * 10 + (s[|s| - 1] as int - '0' as int)
  }

  /** Reads a clock display back: minutes, a colon and two digits of seconds below 60. */
  function ParseTime(t: string): Option<nat> {
    if |t| >= 4 && t[|t| - 3] == ':' && AllDigits(t[..|t| - 3]) && IsDigit(t[|t| - 2]) && IsDigit(t[|t| - 1]) then
      var secs := ParseDecimal(t[|t| - 2..]);
      if secs < 60 then Some(ParseDecimal(t[..|t| - 3]) * 60 + secs) else None
    else None
  }

  lemma {:induction false} ParseDecimalOfDecimal(n: nat)
    ensures ParseDecimal(Decimal(n)) == n
  {
    if n >= 10 {
      var s := Decimal(n);
      assert s[..|s| - 1] == Decimal(n / 10);
      ParseDecimalOfDecimal(n / 10);
    }
  }

  lemma ParseDecimalPadTwo(n: nat)
    requires n < 60
    ensures PadTwo(Decimal(n)) == Decimal(n) || PadTwo(Decimal(n)) == ['0'] + Decimal(n)
    ensures |PadTwo(Decimal(n))| == 2
    ensures ParseDecimal(PadTwo(Decimal(n))) == n
  {
    ParseDecimalOfDecimal(n);
    if n < 10 {
      var p := PadTwo(Decimal(n));
      assert p[..1] == ['0'];
    }
  }

  /** Minutes, a colon and two digits of seconds below 60 read back as their value. */
  lemma ParseTimeOfParts(m: seq<char>, p: seq<char>)
    requires 1 <= |m| && AllDigits(m) && |p| == 2 && AllDigits(p) && ParseDecimal(p) < 60
    ensures ParseTime(m + [':'] + p) == Some(ParseDecimal(m) * 60 + ParseDecimal(p))
  {
    var t := m + [':'] + p;
    assert t[..|t| - 3] == m;
    assert t[|t| - 2..] == p;
  }

  /** Reading the display back gives the seconds that were formatted. */
  lemma FormatTimeRoundTrip(seconds: nat)
    ensures ParseTime(FormatTime(seconds)) == Some(seconds)
  {
    var m, p := Decimal(seconds / 60), PadTwo(Decimal(seconds % 60));
    ParseDecimalOfDecimal(seconds / 60);
    ParseDecimalPadTwo(seconds % 60);
    ParseTimeOfParts(m, p);
  }

  /** Different times never show the same display. */
  lemma FormatTimeInjective(a: nat, b: nat)
    ensures FormatTime(a) == FormatTime(b) ==> a == b
  {
    FormatTimeRoundTrip(a);
    FormatTimeRoundTrip(b);
  }
}
