/** LeaderboardEntry: one immutable leaderboard record and the way its time is
    displayed. Java `long` arithmetic truncates toward zero, so it is written
    out explicitly. */
module Entries {
  import opened Common

  /** Every field is final in the source, so the entry is a value. */
  datatype LeaderboardEntry = LeaderboardEntry(playerId: Uuid, playerName: string, time: int, timestamp: int)

  /** Java's `/` on `long`, which truncates toward zero. */
  function JavaDiv(a: int, b: int): int
    requires b > 0
  {
    if a >= 0 then a / b else -((-a) / b)
  }

  /** Java's `%` on `long`: the remainder takes the sign of the dividend. */
  function JavaRem(a: int, b: int): int
    requires b > 0
  {
    a - b * JavaDiv(a, b)
  }

  /** The three numbers the clock display is made of. */
  datatype Clock = Clock(minutes: int, seconds: int, centis: int)

  /** The milliseconds a clock reading stands for. */
  function ClockMillis(c: Clock): int {
    c.minutes * 60000 + c.seconds * 1000 + c.centis * 10
  }

  lemma DivModSplit(a: nat, b: nat)
    requires b > 0
    ensures a == b * (a / b) + a % b && 0 <= a % b < b
  {
  }

  /** minutes = time/1000/60, seconds = time/1000 % 60, centiseconds =
      (time % 1000)/10. For a non-negative time the reading truncates it to
      the centisecond. */
  function ClockOf(time: int): (c: Clock)
    ensures time >= 0 ==> c.minutes >= 0 && 0 <= c.seconds < 60 && 0 <= c.centis < 100
    ensures time >= 0 ==> ClockMillis(c) <= time < ClockMillis(c) + 10
  {
    var totalSeconds := JavaDiv(time, 1000);
    var c := Clock(JavaDiv(totalSeconds, 60), JavaRem(totalSeconds, 60), JavaDiv(JavaRem(time, 1000), 10));
    if time >= 0 then
      DivModSplit(time, 1000);
      DivModSplit(time / 1000, 60);
      DivModSplit(time % 1000, 10);
      assert ClockMillis(c) == 1000 * (time / 1000) + 10 * ((time % 1000) / 10);
      c
    else c
  }

  function DigitChar(d: int): char
    requires 0 <= d < 10
  {
    ('0' as int + d) as char
  }

  /** Decimal digits of a natural number, most significant first. */
  function NatToString(n: nat): (s: string)
    ensures 1 <= |s|
    ensures n < 10 ==> |s| == 1
    ensures n < 100 ==> |s| <= 2
    decreases n
  {
    if n < 10 then [DigitChar(n)] else NatToString(n / 10) + [DigitChar(n % 10)]
  }

  /** `%d`: a non-negative number reads back as itself, a negative one
      starts with a minus sign. */
  function IntToString(n: int): (s: string)
    ensures n >= 0 ==> ParseNat(s) == Some(n)
    ensures n < 0 ==> |s| >= 2 && s[0] == '-'
  {
    if n < 0 then "-" + NatToString(-n)
    else
      ParseNatToString(n);
      NatToString(n)
  }

  /** `%02d`: zero-padded to width two (a negative number already has two
      characters or more). */
  function Pad2(n: int): (s: string)
    ensures 0 <= n < 100 ==> |s| == 2
  {
    if 0 <= n < 10 then "0" + NatToString(n) else IntToString(n)
  }

  /** `"%d:%02d.%02d"` when there are whole minutes, else `"%d.%02d"`. */
  function Render(c: Clock): (s: string)
    ensures 0 <= c.centis < 100 ==> |s| >= 4 && s[|s| - 3] == '.' && s[|s| - 2..] == Pad2(c.centis)
    ensures c.minutes > 0 && 0 <= c.seconds < 100 && 0 <= c.centis < 100 ==> |s| >= 7 && s[|s| - 6] == ':'
  {
    if c.minutes > 0 then IntToString(c.minutes) + ":" + Pad2(c.seconds) + "." + Pad2(c.centis)
    else IntToString(c.seconds) + "." + Pad2(c.centis)
  }

  /** `getFormattedTime` */
  function FormattedTime(e: LeaderboardEntry): (s: string)
    ensures e.time >= 0 ==> |s| >= 4 && s[|s| - 3] == '.'
    ensures e.time >= 60000 ==> |s| >= 7 && s[|s| - 6] == ':'
  {
    Render(ClockOf(e.time))
  }

  predicate IsDigit(ch: char) {
    '0' <= ch <= '9'
  }

  /** The value of a non-empty run of decimal digits. */
  function ParseNat(s: string): Option<nat>
    decreases |s|
  {
    if s == [] || !IsDigit(s[|s| - 1]) then None
    else
      var d := s[|s| - 1] as int - '0' as int;
      if |s| == 1 then Some(d)
      else match ParseNat(s[..|s| - 1])
        case None => None
        case Some(v) => Some(v * 10 + d)
  }

  /** How a reader takes a displayed time: `M:SS.CC` or `S.CC`, in milliseconds. */
  function ReadClock(s: string): Option<int> {
    var n := |s|;
    if n < 4 || s[n - 3] != '.' then None
    else
      var centis := ParseNat(s[n - 2..]);
      if n >= 7 && s[n - 6] == ':' then
        var minutes := ParseNat(s[..n - 6]);
        var seconds := ParseNat(s[n - 5..n - 3]);
        if minutes.None? || seconds.None? || centis.None? then None
        else Some(minutes.value * 60000 + seconds.value * 1000 + centis.value * 10)
      else
        var seconds := ParseNat(s[..n - 3]);
        if seconds.None? || centis.None? then None
        else Some(seconds.value * 1000 + centis.value * 10)
  }

  lemma {:induction false} ParseNatToString(n: nat)
    ensures ParseNat(NatToString(n)) == Some(n)
    decreases n
  {
    if n >= 10 {
      var s := NatToString(n);
      ParseNatToString(n / 10);
      assert s[..|s| - 1] == NatToString(n / 10);
    }
  }

  lemma ParsePad2(n: int)
    requires 0 <= n < 100
    ensures ParseNat(Pad2(n)) == Some(n)
  {
    ParseNatToString(n);
    if n < 10 {
      var s := Pad2(n);
      assert s[..1] == "0";
    }
  }

  /** The display of a non-negative time reads back as that time truncated to
      the centisecond: what the player sees is never more than the true time
      and less than 10 ms below it. */
  lemma {:induction false} FormattedTimeReadsBack(e: LeaderboardEntry)
    requires e.time >= 0
    ensures ReadClock(FormattedTime(e)).Some?
    ensures ReadClock(FormattedTime(e)).value <= e.time < ReadClock(FormattedTime(e)).value + 10
  {
    RenderReadsBack(ClockOf(e.time));
  }

  /** Where the fields of `M:SS.CC` sit in the text. */
  lemma MinutesLayout(a: string, b: string, d: string)
    requires |b| == 2 && |d| == 2
    ensures var s := a + ":" + b + "." + d; var n := |s|;
      n == |a| + 6 && s[n - 3] == '.' && s[n - 6] == ':' &&
      s[n - 2..] == d && s[..n - 6] == a && s[n - 5..n - 3] == b
  {
    var s := a + ":" + b + "." + d;
    var n := |s|;
    assert s[n - 2..] == d;
    assert s[..n - 6] == a;
    assert s[n - 5..n - 3] == b;
  }

  /** `M:SS.CC` reads back field by field. */
  lemma ReadMinutesForm(a: string, b: string, d: string, m: nat, sec: nat, cs: nat)
    requires 1 <= |a| && |b| == 2 && |d| == 2
    requires ParseNat(a) == Some(m) && ParseNat(b) == Some(sec) && ParseNat(d) == Some(cs)
    ensures ReadClock(a + ":" + b + "." + d) == Some(m * 60000 + sec * 1000 + cs * 10)
  {
    MinutesLayout(a, b, d);
  }

  /** `S.CC` with at most three characters before the point reads back. */
  lemma ReadSecondsForm(a: string, d: string, sec: nat, cs: nat)
    requires 1 <= |a| <= 3 && |d| == 2
    requires ParseNat(a) == Some(sec) && ParseNat(d) == Some(cs)
    ensures ReadClock(a + "." + d) == Some(sec * 1000 + cs * 10)
  {
    var s := a + "." + d;
    var n := |s|;
    assert s[n - 3] == '.' && n < 7;
    assert s[n - 2..] == d && s[..n - 3] == a;
  }

  lemma RenderMinutesReadsBack(c: Clock)
    requires c.minutes > 0 && 0 <= c.seconds < 60 && 0 <= c.centis < 100
    ensures ReadClock(Render(c)) == Some(ClockMillis(c))
  {
    var a, b, d := IntToString(c.minutes), Pad2(c.seconds), Pad2(c.centis);
    assert Render(c) == a + ":" + b + "." + d;
    ParsePad2(c.centis);
    ParsePad2(c.seconds);
    ParseNatToString(c.minutes);
    ReadMinutesForm(a, b, d, c.minutes, c.seconds, c.centis);
  }

  lemma RenderSecondsReadsBack(c: Clock)
    requires c.minutes == 0 && 0 <= c.seconds < 60 && 0 <= c.centis < 100
    ensures ReadClock(Render(c)) == Some(ClockMillis(c))
  {
    var a, d := IntToString(c.seconds), Pad2(c.centis);
    assert Render(c) == a + "." + d;
    ParsePad2(c.centis);
    ParseNatToString(c.seconds);
    ReadSecondsForm(a, d, c.seconds, c.centis);
  }

  lemma RenderReadsBack(c: Clock)
    requires c.minutes >= 0 && 0 <= c.seconds < 60 && 0 <= c.centis < 100
    ensures ReadClock(Render(c)) == Some(ClockMillis(c))
  {
    if c.minutes > 0 {
      RenderMinutesReadsBack(c);
    } else {
      RenderSecondsReadsBack(c);
    }
  }
}
