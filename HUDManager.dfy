/** The HUD's two formatting rules: the text shown for each game phase,
    and the remaining time as mm:ss, in red during the last 30 seconds.
    The time is a real number of seconds. */
module Hud {
  /** The phases the HUD knows by name; any other value of the game's
      state enumeration is `Other`. */
  datatype GameState =
    | WaitingForPlayers
    | PreparationPhase
    | GamePhase
    | RoundEnd
    | GameEnd
    | Other(code: int)

  function GetPhaseText(state: GameState): (text: string)
    ensures text == "Unknown" <==> state.Other?
  {
    match state
    case WaitingForPlayers => "Waiting for players..."
    case PreparationPhase => "Preparation Phase"
    case GamePhase => "Game Phase"
    case RoundEnd => "Round Ended"
    case GameEnd => "Game Over"
    case Other(_) => "Unknown"
  }

  /** Each named phase has its own text, and only unnamed states read
      "Unknown": the text tells the phase back. */
  lemma PhaseTextIdentifiesPhase(a: GameState, b: GameState)
    ensures GetPhaseText(a) == "Unknown" <==> a.Other?
    ensures !a.Other? && GetPhaseText(a) == GetPhaseText(b) ==> a == b
  {
  }

  function DigitChar(d: nat): char
    requires d < 10
  {
    "0123456789"[d]
  }

  predicate IsDigit(c: char)
  {
    '0' <= c <= '9'
  }

  function DigitValue(c: char): nat
    requires IsDigit(c)
  {
    (c as int - '0' as int) as nat
  }

  /** The decimal digits of n, without leading zeros. */
  function Digits(n: nat): (s: string)
    ensures |s| >= 1 && forall i :: 0 <= i < |s| ==> IsDigit(s[i])
    ensures n < 10 <==> |s| == 1
    ensures 10 <= n < 100 ==> |s| == 2
  {
    if n < 10 then [DigitChar(n)] else Digits(n / 10) + [DigitChar(n % 10)]
  }

  /** Reads a string of digits back as a number. */
  function ParseDecimal(s: string): nat
    requires forall i :: 0 <= i < |s| ==> IsDigit(s[i])
    decreases |s|
  {
    if s == [] then 0 else ParseDecimal(s[..|s| - 1]) * 10 + DigitValue(s[|s| - 1])
  }

  lemma {:induction false} DecimalRoundTrip(n: nat)
    ensures ParseDecimal(Digits(n)) == n
    decreases n
  {
    if n >= 10 {
      var s := Digits(n);
      assert s[..|s| - 1] == Digits(n / 10);
      DecimalRoundTrip(n / 10);
    }
  }

  /** A number as at least two digits, zero-padded ({0:00}). */
  function Pad2(n: nat): (s: string)
    ensures |s| >= 2 && forall i :: 0 <= i < |s| ==> IsDigit(s[i])
    ensures n < 100 ==> |s| == 2
  {
    if n < 10 then ['0', DigitChar(n)] else Digits(n)
  }

  lemma Pad2RoundTrip(n: nat)
    ensures ParseDecimal(Pad2(n)) == n
  {
    if n < 10 {
      var s := Pad2(n);
      assert s[..1] == ['0'] && s[..1][..0] == [];
      assert ParseDecimal(s[..1]) == 0;
      DecimalRoundTrip(n);
      assert [s[1]] == Digits(n);
    } else {
      DecimalRoundTrip(n);
    }
  }

  function Clock(minutes: nat, seconds: nat): string
  {
    Pad2(minutes) + ":" + Pad2(seconds)
  }

  const RedOpen := "<color=red>"
  const RedClose := "</color>"

  /** The text carries the red colour tag. */
  predicate IsRed(r: string)
  {
    |r| >= |RedOpen| + |RedClose| && r[..|RedOpen|] == RedOpen && r[|r| - |RedClose|..] == RedClose
  }

  /** The clock inside a possibly red text. */
  function Unwrap(r: string): string
  {
    if IsRed(r) then r[|RedOpen|..|r| - |RedClose|] else r
  }

  /** The minutes and seconds fields of a positive time: the floor of
      t / 60 and the floor of t % 60, where the remainder of a positive
      float is t less its whole minutes. Together they are the whole
      seconds of t. */
  function ClockFields(t: real): (f: (nat, nat))
    requires t > 0.0
    ensures f.1 < 60
    ensures f.0 * 60 + f.1 == t.Floor
  {
    var minutes := (t / 60.0).Floor;
    var rest := t - 60.0 * minutes as real;
    assert 0.0 <= rest < 60.0;
    (minutes, rest.Floor)
  }

  /** "00:00" once the time is up, the red tag while the time is positive
      and at most 30 seconds; the tests are on the unrounded time. */
  function FormatTime(timeInSeconds: real): (r: string)
    ensures timeInSeconds <= 0.0 ==> r == "00:00"
    ensures IsRed(r) <==> 0.0 < timeInSeconds <= 30.0
  {
    if timeInSeconds <= 0.0 then "00:00"
    else
      var (minutes, seconds) := ClockFields(timeInSeconds);
      var clock := Clock(minutes, seconds);
      assert clock[0] != '<';
      if timeInSeconds <= 30.0 then RedOpen + clock + RedClose
      else clock
  }

  /** Reads the minutes and the two-digit seconds of a clock back as a
      number of seconds. */
  function ParseClock(c: string): int
  {
    if |c| < 5 || c[|c| - 3] != ':' then -1
    else if !(forall i :: 0 <= i < |c| - 3 ==> IsDigit(c[i])) then -1
    else if !(IsDigit(c[|c| - 2]) && IsDigit(c[|c| - 1])) then -1
    else
      var minutes, seconds := c[..|c| - 3], c[|c| - 2..];
      assert forall i :: 0 <= i < |seconds| ==> IsDigit(seconds[i]);
      ParseDecimal(minutes) * 60 + ParseDecimal(seconds)
  }

  /** The shown time determines the remaining whole seconds: for any
      positive time, reading minutes and seconds back gives its floor, and
      the seconds field is two digits below 60. */
  lemma FormatTimeRoundTrip(t: real)
    requires t > 0.0
    ensures ParseClock(Unwrap(FormatTime(t))) == t.Floor
    ensures var c := Unwrap(FormatTime(t));
      |c| >= 5 && c[|c| - 3] == ':' && ParseDecimal(c[|c| - 2..]) < 60
  {
    var (minutes, seconds) := ClockFields(t);
    var c := Clock(minutes, seconds);
    var r := FormatTime(t);
    if t <= 30.0 {
      assert r == RedOpen + c + RedClose;
      assert r[|RedOpen|..|r| - |RedClose|] == c;
    }
    assert Unwrap(r) == c;
    assert c[..|c| - 3] == Pad2(minutes);
    assert c[|c| - 2..] == Pad2(seconds);
    Pad2RoundTrip(minutes);
    Pad2RoundTrip(seconds);
  }

  /** Under one second left the clock already reads zero but is red; just
      over 30 seconds it reads 00:30 without the tag. */
  lemma FormatTimeEdges()
    ensures FormatTime(0.5) == RedOpen + "00:00" + RedClose
    ensures FormatTime(30.5) == "00:30"
  {
    assert ClockFields(0.5) == (0, 0);
    assert ClockFields(30.5) == (0, 30);
    assert Pad2(30) == "30";
  }
}
