/**
 * The countdown's display format.  Times are whole hundredths of a second
 * (the countdown rounds to two decimals after every step), so the
 * formatter is an integer function:
 *   below one minute   "SS.ss"
 *   below one hour     "MM:SS.ss"
 *   otherwise          "H:MM:SS.ss" with the hours unpadded.
 */
module TimeFormat {
  import opened Wrappers

  /** Hundredths of a second in a second, a minute and an hour. */
  const PerSecond: nat := 100
  const PerMinute: nat := 6000
  const PerHour: nat := 360000

  predicate IsDigit(ch: char) { '0' <= ch <= '9' }

  predicate AllDigits(s: string) { forall i :: 0 <= i < |s| ==> IsDigit(s[i]) }

  function DigitValue(ch: char): (d: nat)
    requires IsDigit(ch)
    ensures d < 10
  {
    ch as int - '0' as int
  }

  function Digit(d: nat): (ch: char)
    requires d < 10
    ensures IsDigit(ch) && DigitValue(ch) == d
  {
    (d + '0' as int) as char
  }

  /** The number a string of decimal digits denotes. */
  function DigitsValue(s: string): nat
    requires AllDigits(s)
    decreases |s|
  {
    if s == [] then 0 else 10 * DigitsValue(s[..|s| - 1]) + DigitValue(s[|s| - 1])
  }

  /** Decimal rendering without padding (`{n}`). */
  function NatStr(n: nat): (r: string)
    ensures 1 <= |r| && AllDigits(r)
    decreases n
  {
    if n < 10 then [Digit(n)] else NatStr(n / 10) + [Digit(n % 10)]
  }

  /** Two digits, zero-padded (`{n:02d}`). */
  function Pad2(n: nat): (r: string)
    requires n < 100
    ensures |r| == 2 && AllDigits(r) && DigitsValue(r) == n
  {
    var r := [Digit(n / 10), Digit(n % 10)];
    assert r[..1] == [Digit(n / 10)] && r[..1][..0] == [];
    assert DigitsValue(r[..1]) == n / 10;
    r
  }

  /** Seconds with two decimals, zero-padded to width five (`{s:05.2f}`). */
  function SecondsField(centis: nat): (r: string)
    requires centis < PerMinute
  {
    Pad2(centis / PerSecond) + "." + Pad2(centis % PerSecond)
  }

  /** The fields the display shows: hours, minutes and the hundredths within the minute. */
  datatype Clock = Clock(hours: nat, minutes: nat, centis: nat)

  /** The decomposition as each branch of the formatter computes it. */
  function Split(c: nat): (f: Clock)
    ensures f.hours * PerHour + f.minutes * PerMinute + f.centis == c
    ensures f.minutes < 60 && f.centis < PerMinute
    ensures c < PerHour ==> f.hours == 0
    ensures PerHour <= c ==> 1 <= f.hours
    ensures PerMinute <= c < PerHour ==> 1 <= f.minutes
    ensures c < PerMinute ==> f.minutes == 0 && f.centis == c
  {
    if c >= PerHour then
      var h := c / PerHour;
      var m := c / PerMinute - h * 60;
      Clock(h, m, c - h * PerHour - m * PerMinute)
    else if c >= PerMinute then
      var m := c / PerMinute;
      Clock(0, m, c - m * PerMinute)
    else
      Clock(0, 0, c)
  }

  /**
   * The label text for `c` hundredths of a second: whatever the branch, it
   * ends in two digits of seconds, a point and two digits of hundredths.
   */
  function Format(c: nat): (r: string)
    ensures 5 <= |r| && r[|r| - 3] == '.'
  {
    var f := Split(c);
    if c >= PerHour then
      NatStr(f.hours) + ":" + Pad2(f.minutes) + ":" + SecondsField(f.centis)
    else if c >= PerMinute then
      Pad2(f.minutes) + ":" + SecondsField(f.centis)
    else
      SecondsField(c)
  }

  /** Reads back a five-character "SS.ss" field. */
  function ParseSeconds(s: string): Option<nat>
    requires |s| == 5
  {
    if AllDigits(s[..2]) && s[2] == '.' && AllDigits(s[3..]) then
      Some(DigitsValue(s[..2]) * PerSecond + DigitsValue(s[3..]))
    else
      None
  }

  /** Reads back a label produced by Format; the inverse that specifies it. */
  function ParseTime(s: string): Option<nat> {
    if |s| == 5 then ParseSeconds(s)
    else if |s| == 8 then ParseMinutes(s)
    else if |s| >= 10 then ParseHours(s)
    else None
  }

  /** Reads back an "MM:SS.ss" label. */
  function ParseMinutes(s: string): Option<nat>
    requires |s| == 8
  {
    var sec := ParseSeconds(s[3..]);
    if s[2] == ':' && AllDigits(s[..2]) && sec.Some? then
      Some(DigitsValue(s[..2]) * PerMinute + sec.value)
    else
      None
  }

  /** Reads back an "H:MM:SS.ss" label. */
  function ParseHours(s: string): Option<nat>
    requires |s| >= 10
  {
    var n := |s|;
    var sec := ParseSeconds(s[n - 5..]);
    if s[n - 9] == ':' && s[n - 6] == ':' && AllDigits(s[..n - 9]) && AllDigits(s[n - 8..n - 6]) && sec.Some? then
      Some(DigitsValue(s[..n - 9]) * PerHour + DigitsValue(s[n - 8..n - 6]) * PerMinute + sec.value)
    else
      None
  }

  /** The unpadded rendering denotes its number. */
  lemma {:induction false} NatStrValue(n: nat)
    ensures DigitsValue(NatStr(n)) == n
    decreases n
  {
    if n >= 10 {
      var r := NatStr(n);
      assert r[..|r| - 1] == NatStr(n / 10);
      NatStrValue(n / 10);
    }
  }

  /** Hours are unpadded: no leading zero. */
  lemma {:induction false} NatStrNoLeadingZero(n: nat)
    requires n > 0
    ensures NatStr(n)[0] != '0'
    decreases n
  {
    if n >= 10 {
      NatStrNoLeadingZero(n / 10);
    }
  }

  lemma SecondsFieldRoundTrip(centis: nat)
    requires centis < PerMinute
    ensures |SecondsField(centis)| == 5 && SecondsField(centis)[2] == '.'
    ensures ParseSeconds(SecondsField(centis)) == Some(centis)
  {
    var r := SecondsField(centis);
    assert r[..2] == Pad2(centis / PerSecond);
    assert r[3..] == Pad2(centis % PerSecond);
  }

  /**
   * The label keeps its shape per branch: five characters below a minute,
   * eight below an hour, and the hours' digits plus nine from an hour on,
   * with a point before the hundredths and the colons in place.
   */
  lemma FormatLayout(c: nat)
    ensures var r := Format(c); r[|r| - 5..] == SecondsField(c % PerMinute)
    ensures c < PerMinute ==> |Format(c)| == 5
    ensures PerMinute <= c < PerHour ==> |Format(c)| == 8 && Format(c)[2] == ':'
    ensures PerHour <= c ==> var n := |NatStr(c / PerHour)|;
      |Format(c)| == n + 9 && Format(c)[n] == ':' && Format(c)[n + 3] == ':'
  {
    var f := Split(c);
    assert f.centis == c % PerMinute;
    SecondsFieldRoundTrip(f.centis);
    assert PerHour <= c ==> f.hours == c / PerHour;
  }

  /** Number of colons: none below a minute, one below an hour, two from an hour on. */
  lemma FormatColons(c: nat)
    ensures multiset(Format(c))[':'] == if c < PerMinute then 0 else if c < PerHour then 1 else 2
  {
    var f := Split(c);
    var sec := SecondsField(f.centis);
    SecondsFieldNoColon(f.centis);
    if c >= PerHour {
      var mm := Pad2(f.minutes) + ":" + sec;
      ColonAfterDigits(Pad2(f.minutes), sec);
      ColonAfterDigits(NatStr(f.hours), mm);
    } else if c >= PerMinute {
      ColonAfterDigits(Pad2(f.minutes), sec);
    }
  }

  /** Digits, a colon, then the rest: one colon more than the rest has. */
  lemma ColonAfterDigits(digits: string, rest: string)
    requires AllDigits(digits)
    ensures multiset(digits + ":" + rest)[':'] == multiset(rest)[':'] + 1
  {
    NoColonInDigits(digits);
    assert digits + ":" + rest == digits + (":" + rest);
  }

  lemma SecondsFieldNoColon(centis: nat)
    requires centis < PerMinute
    ensures multiset(SecondsField(centis))[':'] == 0
  {
    var a, b := Pad2(centis / PerSecond), Pad2(centis % PerSecond);
    NoColonInDigits(a);
    NoColonInDigits(b);
    assert SecondsField(centis) == a + "." + b;
  }


  lemma NoColonInDigits(s: string)
    requires AllDigits(s)
    ensures multiset(s)[':'] == 0
  {
    assert ':' !in s;
  }

  /** Reads back the "MM:SS.ss" shape. */
  lemma ParseMinutesShape(mm: string, sec: string)
    requires |mm| == 2 && AllDigits(mm) && |sec| == 5 && ParseSeconds(sec).Some?
    ensures ParseTime(mm + ":" + sec) == Some(DigitsValue(mm) * PerMinute + ParseSeconds(sec).value)
  {
    var r := mm + ":" + sec;
    assert r[..2] == mm && r[2] == ':' && r[3..] == sec;
  }

  /** Reads back the "H:MM:SS.ss" shape. */
  lemma ParseHoursShape(hs: string, mm: string, sec: string)
    requires 1 <= |hs| && AllDigits(hs) && |mm| == 2 && AllDigits(mm)
    requires |sec| == 5 && ParseSeconds(sec).Some?
    ensures ParseTime(hs + ":" + mm + ":" + sec)
      == Some(DigitsValue(hs) * PerHour + DigitsValue(mm) * PerMinute + ParseSeconds(sec).value)
  {
    var r := hs + ":" + mm + ":" + sec;
    var n := |r|;
    assert n == |hs| + 9;
    assert r[..n - 9] == hs && r[n - 9] == ':';
    assert r[n - 8..n - 6] == mm && r[n - 6] == ':';
    assert r[n - 5..] == sec;
  }

  /** Every label reads back as the time it shows. */
  lemma ParseFormat(c: nat)
    ensures ParseTime(Format(c)) == Some(c)
  {
    var f := Split(c);
    SecondsFieldRoundTrip(f.centis);
    if c >= PerHour {
      NatStrValue(f.hours);
      ParseHoursShape(NatStr(f.hours), Pad2(f.minutes), SecondsField(f.centis));
    } else if c >= PerMinute {
      ParseMinutesShape(Pad2(f.minutes), SecondsField(f.centis));
    }
  }

  /** Distinct times never share a label. */
  lemma FormatInjective(a: nat, b: nat)
    requires Format(a) == Format(b)
    ensures a == b
  {
    ParseFormat(a);
    ParseFormat(b);
  }

  /** 5.20 s: the seconds shape. */
  lemma FormatSecondsExample()
    ensures Format(520) == "05.20"
  {
    assert Pad2(5) == "05" && Pad2(20) == "20";
  }

  /** 65.30 s: the minutes shape. */
  lemma FormatMinutesExample()
    ensures Format(6530) == "01:05.30"
  {
    assert Split(6530) == Clock(0, 1, 530);
    assert Pad2(1) == "01" && Pad2(5) == "05" && Pad2(30) == "30";
    assert SecondsField(530) == "05.30";
  }

  /** 3661 s: the hours shape, hours unpadded. */
  lemma FormatHoursExample()
    ensures Format(366100) == "1:01:01.00"
  {
    assert Split(366100) == Clock(1, 1, 100);
    assert NatStr(1) == "1";
    assert Pad2(1) == "01" && Pad2(0) == "00";
    assert SecondsField(100) == "01.00";
  }
}
