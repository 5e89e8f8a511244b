/** `convertTimestamptoTime(unixTimestamp, timezone)`: the wall-clock time `HH:MM:SS`
    (24-hour, zero-padded) at a place whose UTC offset is `timezone` seconds, at the
    instant `unixTimestamp` (seconds since the epoch).

    The source builds `new Date((unixTimestamp + timezone) * 1000)` and reads its UTC
    hours, minutes and seconds. Those getters are modelled as ECMAScript defines them
    (HourFromTime, MinFromTime and SecFromTime in section 21.4.1 of ECMA-262): floor
    division of the millisecond time value followed by a non-negative remainder, which is
    what Dafny's `/` and `%` compute for a positive divisor, also before 1970. A time value
    beyond 8.64e15 ms on either side is NaN, and every getter then yields NaN. */
module Clock {
  import opened Js

  /** The largest magnitude of a valid `Date` time value, in milliseconds. */
  const MaxTimeValue: int := 8_640_000_000_000_000

  /** `new Date(ms)` holds a number rather than NaN. */
  predicate IsValidTimeValue(ms: int) {
    -MaxTimeValue <= ms <= MaxTimeValue
  }

  /** The instant `seconds` (already shifted by the offset) is a valid `Date`. */
  predicate InDateRange(seconds: int) {
    IsValidTimeValue(seconds * 1000)
  }

  /** `getUTCHours()` of a valid time value. */
  function UtcHours(ms: int): (h: nat)
    ensures h < 24
  {
    (ms / 3_600_000) % 24
  }

  /** `getUTCMinutes()` of a valid time value. */
  function UtcMinutes(ms: int): (m: nat)
    ensures m < 60
  {
    (ms / 60_000) % 60
  }

  /** `getUTCSeconds()` of a valid time value. */
  function UtcSeconds(ms: int): (s: nat)
    ensures s < 60
  {
    (ms / 1000) % 60
  }

  /** What the source returns for an invalid `Date`: each getter is NaN, and
      `"NaN".padStart(2, "0")` is `"NaN"`. */
  const InvalidTime: string := "NaN:NaN:NaN"

  /** Each valid getter's result is written with `toString().padStart(2, "0")`, which for
      a number below 100 is its two decimal digits (lemma Js.TwoDigitField). */
  function ConvertTimestampToTime(unixTimestamp: int, timezone: int): (r: string)
    ensures !InDateRange(unixTimestamp + timezone) ==> r == InvalidTime
    ensures InDateRange(unixTimestamp + timezone) ==> |r| == 8 && r[2] == ':' && r[5] == ':'
  {
    var ms := (unixTimestamp + timezone) * 1000;
    if !IsValidTimeValue(ms) then InvalidTime
    else TwoDigits(UtcHours(ms)) + ":" + TwoDigits(UtcMinutes(ms)) + ":" + TwoDigits(UtcSeconds(ms))
  }

  /** Within the `Date` range the result is the three getters, each written with
      `toString().padStart(2, "0")`, joined by colons. */
  lemma ConvertAsWritten(unixTimestamp: int, timezone: int)
    ensures var ms := (unixTimestamp + timezone) * 1000;
      IsValidTimeValue(ms) ==>
        ConvertTimestampToTime(unixTimestamp, timezone) ==
          PadStart(DecimalString(UtcHours(ms)), 2, '0') + ":" +
          PadStart(DecimalString(UtcMinutes(ms)), 2, '0') + ":" +
          PadStart(DecimalString(UtcSeconds(ms)), 2, '0')
  {
    var ms := (unixTimestamp + timezone) * 1000;
    TwoDigitField(UtcHours(ms));
    TwoDigitField(UtcMinutes(ms));
    TwoDigitField(UtcSeconds(ms));
  }

  // ----- An independent description of the result -----

  /** The `HH:MM:SS` text of the given hours, minutes and seconds. */
  function ClockTextOf(h: nat, m: nat, sec: nat): (r: string)
    requires h < 24 && m < 60 && sec < 60
  {
    [DigitChar(h / 10), DigitChar(h % 10), ':',
     DigitChar(m / 10), DigitChar(m % 10), ':',
     DigitChar(sec / 10), DigitChar(sec % 10)]
  }

  /** The `HH:MM:SS` text of the second `s` of a day. */
  function ClockText(s: nat): (r: string)
    requires s < 86400
  {
    ClockTextOf(s / 3600, (s % 3600) / 60, s % 60)
  }

  /** Eight characters `DD:DD:DD`. */
  predicate IsClockShape(s: string) {
    |s| == 8 && IsDigit(s[0]) && IsDigit(s[1]) && s[2] == ':' &&
    IsDigit(s[3]) && IsDigit(s[4]) && s[5] == ':' && IsDigit(s[6]) && IsDigit(s[7])
  }

  /** The number written by the two digits at `i` and `i + 1`. */
  function FieldAt(s: string, i: nat): (n: nat)
    requires i + 1 < |s| && IsDigit(s[i]) && IsDigit(s[i + 1])
    ensures n < 100
  {
    DigitValue(s[i]) * 10 + DigitValue(s[i + 1])
  }

  /** The hours, minutes and seconds fields of a clock text. */
  function HoursOf(s: string): nat
    requires IsClockShape(s)
  {
    FieldAt(s, 0)
  }

  function MinutesOf(s: string): nat
    requires IsClockShape(s)
  {
    FieldAt(s, 3)
  }

  function SecondsOf(s: string): nat
    requires IsClockShape(s)
  {
    FieldAt(s, 6)
  }

  /** A clock shape whose hours are at most 23 and whose minutes and seconds are at most 59. */
  predicate IsValidClockText(s: string) {
    IsClockShape(s) && FieldAt(s, 0) < 24 && FieldAt(s, 3) < 60 && FieldAt(s, 6) < 60
  }

  /** Reads `HH:MM:SS` back as a number of seconds `HH*3600 + MM*60 + SS`. */
  function ParseClockText(s: string): Option<nat> {
    if IsClockShape(s) then Some(FieldAt(s, 0) * 3600 + FieldAt(s, 3) * 60 + FieldAt(s, 6))
    else None
  }

  // ----- Arithmetic -----

  lemma MulAtLeast(d: int, k: int)
    requires 0 < d && 1 <= k
    ensures d <= d * k
  {
  }

  /** Euclidean division is determined by its defining equation. */
  lemma DivModUnique(a: int, d: int, q: int, r: int)
    requires 0 < d && 0 <= r < d && a == d * q + r
    ensures a / d == q && a % d == r
  {
    var q', r' := a / d, a % d;
    assert d * (q' - q) == r - r' by {
      assert d * (q' - q) == d * q' - d * q;
    }
    if q' > q {
      MulAtLeast(d, q' - q);
    } else if q' < q {
      MulAtLeast(d, q - q');
    }
  }

  /** The three getters read the hours, minutes and seconds of the second of the day. */
  lemma GettersOfSecondOfDay(x: int)
    ensures UtcHours(x * 1000) == (x % 86400) / 3600
    ensures UtcMinutes(x * 1000) == (x % 86400 % 3600) / 60
    ensures UtcSeconds(x * 1000) == x % 86400 % 60
  {
    var ms := x * 1000;
    var days, s := x / 86400, x % 86400;
    var h, r := s / 3600, s % 3600;
    var m, sec := r / 60, r % 60;
    assert x == 86400 * days + 3600 * h + 60 * m + sec;
    assert h < 24 && m < 60;
    DivModUnique(ms, 3_600_000, 24 * days + h, 1000 * (60 * m + sec));
    DivModUnique(24 * days + h, 24, days, h);
    DivModUnique(ms, 60_000, 1440 * days + 60 * h + m, 1000 * sec);
    DivModUnique(1440 * days + 60 * h + m, 60, 24 * days + h, m);
    DivModUnique(ms, 1000, x, 0);
    DivModUnique(x, 60, 1440 * days + 60 * h + m, sec);
  }

  // ----- Properties of the formatter -----

  /** Within the `Date` range the result is the three getters' two-digit fields. */
  lemma ConvertFields(unixTimestamp: int, timezone: int)
    requires InDateRange(unixTimestamp + timezone)
    ensures var ms := (unixTimestamp + timezone) * 1000;
      ConvertTimestampToTime(unixTimestamp, timezone)
      == TwoDigits(UtcHours(ms)) + ":" + TwoDigits(UtcMinutes(ms)) + ":" + TwoDigits(UtcSeconds(ms))
  {
  }

  lemma ClockTextFields(s: nat)
    requires s < 86400
    ensures ClockText(s)
      == TwoDigits(s / 3600) + ":" + TwoDigits((s % 3600) / 60) + ":" + TwoDigits(s % 60)
  {
  }

  /** Within the `Date` range the formatter writes the shifted instant's second of the day,
      two digits per field. */
  lemma ConvertIsClockText(unixTimestamp: int, timezone: int)
    requires InDateRange(unixTimestamp + timezone)
    ensures ConvertTimestampToTime(unixTimestamp, timezone) == ClockText((unixTimestamp + timezone) % 86400)
  {
    var x := unixTimestamp + timezone;
    ConvertFields(unixTimestamp, timezone);
    GettersOfSecondOfDay(x);
    ClockTextFields(x % 86400);
  }

  /** Outside the `Date` range every field is NaN. */
  lemma ConvertOutOfRange(unixTimestamp: int, timezone: int)
    requires !InDateRange(unixTimestamp + timezone)
    ensures ConvertTimestampToTime(unixTimestamp, timezone) == InvalidTime
  {
  }

  /** The fields of a clock text read back as the numbers they were written for. */
  lemma ClockTextOfFields(h: nat, m: nat, sec: nat)
    requires h < 24 && m < 60 && sec < 60
    ensures IsClockShape(ClockTextOf(h, m, sec))
    ensures FieldAt(ClockTextOf(h, m, sec), 0) == h
    ensures FieldAt(ClockTextOf(h, m, sec), 3) == m
    ensures FieldAt(ClockTextOf(h, m, sec), 6) == sec
  {
  }

  /** A clock text reads back as the second of the day it was written for. */
  lemma ClockTextParses(s: nat)
    requires s < 86400
    ensures IsValidClockText(ClockText(s))
    ensures ParseClockText(ClockText(s)) == Some(s)
  {
    var h, m, sec := s / 3600, (s % 3600) / 60, s % 60;
    ClockTextOfFields(h, m, sec);
    assert s == h * 3600 + m * 60 + sec;
  }

  /** Every valid result is `DD:DD:DD` with hours 0..23 and minutes and seconds 0..59,
      negative instants included. */
  lemma ConvertShape(unixTimestamp: int, timezone: int)
    requires InDateRange(unixTimestamp + timezone)
    ensures |ConvertTimestampToTime(unixTimestamp, timezone)| == 8
    ensures IsValidClockText(ConvertTimestampToTime(unixTimestamp, timezone))
  {
    ConvertIsClockText(unixTimestamp, timezone);
    ClockTextParses((unixTimestamp + timezone) % 86400);
  }

  /** Reading the result back as `HH*3600 + MM*60 + SS` gives `(t + tz) mod 86400`. */
  lemma ParseConvertRoundTrip(unixTimestamp: int, timezone: int)
    requires InDateRange(unixTimestamp + timezone)
    ensures ParseClockText(ConvertTimestampToTime(unixTimestamp, timezone))
         == Some((unixTimestamp + timezone) % 86400)
  {
    ConvertIsClockText(unixTimestamp, timezone);
    ClockTextParses((unixTimestamp + timezone) % 86400);
  }

  /** The number of seconds a valid clock text denotes is a second of the day whose
      clock text is that text. */
  lemma ParsedClockText(s: string)
    requires IsValidClockText(s)
    ensures ParseClockText(s).Some? && ParseClockText(s).value < 86400
    ensures ClockText(ParseClockText(s).value) == s
  {
    var h, m, sec := FieldAt(s, 0), FieldAt(s, 3), FieldAt(s, 6);
    var v := h * 3600 + m * 60 + sec;
    DivModUnique(v, 3600, h, m * 60 + sec);
    DivModUnique(m * 60 + sec, 60, m, sec);
    DivModUnique(h, 10, DigitValue(s[0]), DigitValue(s[1]));
    DivModUnique(m, 10, DigitValue(s[3]), DigitValue(s[4]));
    DivModUnique(sec, 10, DigitValue(s[6]), DigitValue(s[7]));
    assert v % 60 == sec;
  }

  /** Every valid clock text is what the formatter writes, at offset 0, for the second it
      denotes: parsing loses nothing. */
  lemma ConvertParseRoundTrip(s: string)
    requires IsValidClockText(s)
    ensures ParseClockText(s).Some?
    ensures ConvertTimestampToTime(ParseClockText(s).value, 0) == s
  {
    ParsedClockText(s);
    var v := ParseClockText(s).value;
    DivModUnique(v, 86400, 0, v);
    ConvertIsClockText(v, 0);
    calc {
      ConvertTimestampToTime(v, 0);
      ClockText((v + 0) % 86400);
      { assert (v + 0) % 86400 == v; }
      ClockText(v);
      s;
    }
  }

  /** Only the shifted instant matters: the offset may as well be added to the timestamp. */
  lemma DependsOnlyOnSum(unixTimestamp: int, timezone: int)
    ensures ConvertTimestampToTime(unixTimestamp, timezone)
         == ConvertTimestampToTime(unixTimestamp + timezone, 0)
  {
  }

  /** A day later the clock reads the same. */
  lemma ConvertPeriodic(unixTimestamp: int, timezone: int)
    requires InDateRange(unixTimestamp + timezone)
    requires InDateRange(unixTimestamp + 86400 + timezone)
    ensures ConvertTimestampToTime(unixTimestamp + 86400, timezone)
         == ConvertTimestampToTime(unixTimestamp, timezone)
  {
    var x := unixTimestamp + timezone;
    ConvertIsClockText(unixTimestamp, timezone);
    ConvertIsClockText(unixTimestamp + 86400, timezone);
    DivModUnique(x + 86400, 86400, x / 86400 + 1, x % 86400);
  }

  /** `b` is the clock text an hour after `a`: the hours field has moved on by one (from
      23 to 00 at midnight) and the minutes and seconds are unchanged. */
  predicate IsHourLater(a: string, b: string) {
    IsClockShape(a) && IsClockShape(b) && HoursOf(b) == (HoursOf(a) + 1) % 24 &&
    MinutesOf(b) == MinutesOf(a) && SecondsOf(b) == SecondsOf(a)
  }

  /** An hour after second `s` of the day the clock text is an hour later. */
  lemma ClockTextNextHour(s: nat, s': nat)
    requires s < 86400 && s' == (s + 3600) % 86400
    ensures IsHourLater(ClockText(s), ClockText(s'))
  {
    NextHourArithmetic(s);
    var h, m, sec := s / 3600, (s % 3600) / 60, s % 60;
    assert ClockText(s') == ClockTextOf((h + 1) % 24, m, sec);
    ClockTextOfFields(h, m, sec);
    ClockTextOfFields((h + 1) % 24, m, sec);
  }

  lemma NextHourArithmetic(s: nat)
    requires s < 86400
    ensures ((s + 3600) % 86400) / 3600 == (s / 3600 + 1) % 24
    ensures ((s + 3600) % 86400) % 3600 == s % 3600
    ensures ((s + 3600) % 86400) % 60 == s % 60
  {
    var s' := (s + 3600) % 86400;
    var h, r := s / 3600, s % 3600;
    if s + 3600 < 86400 {
      DivModUnique(s + 3600, 86400, 0, s + 3600);
      DivModUnique(s', 3600, h + 1, r);
    } else {
      DivModUnique(s + 3600, 86400, 1, s + 3600 - 86400);
      DivModUnique(s', 3600, 0, r);
    }
    DivModUnique(s', 60, s' / 3600 * 60 + r / 60, r % 60);
    DivModUnique(s, 60, h * 60 + r / 60, r % 60);
  }

  lemma ShiftedSecondOfDay(x: int)
    ensures (x + 3600) % 86400 == (x % 86400 + 3600) % 86400
  {
    var s := x % 86400;
    DivModUnique(x + 3600, 86400, x / 86400 + (s + 3600) / 86400, (s + 3600) % 86400);
  }

  /** An hour after any instant `x` the second of the day's clock text is an hour later. */
  lemma InstantHourLater(x: int)
    ensures IsHourLater(ClockText(x % 86400), ClockText((x + 3600) % 86400))
  {
    var s, s' := x % 86400, (x + 3600) % 86400;
    ShiftedSecondOfDay(x);
    ClockTextNextHour(s, s');
  }

  /** One more hour of offset moves the hours field on by one, wrapping from 23 to 00,
      and leaves the minutes and seconds as they were. */
  lemma OffsetHourLater(unixTimestamp: int, timezone: int)
    requires InDateRange(unixTimestamp + timezone)
    requires InDateRange(unixTimestamp + timezone + 3600)
    ensures IsHourLater(ConvertTimestampToTime(unixTimestamp, timezone),
                        ConvertTimestampToTime(unixTimestamp, timezone + 3600))
  {
    var x := unixTimestamp + timezone;
    InstantHourLater(x);
    ConvertIsClockText(unixTimestamp, timezone);
    ConvertIsClockText(unixTimestamp, timezone + 3600);
    assert unixTimestamp + (timezone + 3600) == x + 3600;
  }

  /** The first case of src/convertTimestampToTime.test.js: at offset 0. */
  lemma ConvertExampleUtc()
    ensures ConvertTimestampToTime(1621620000, 0) == "18:00:00"
  {
    DivModUnique(1621620000, 86400, 18768, 64800);
    ConvertIsClockText(1621620000, 0);
    assert ClockText(64800) == "18:00:00";
  }

  /** The second case: an hour of offset added. */
  lemma ConvertExampleHourAdded()
    ensures ConvertTimestampToTime(1621620000, 3600) == "19:00:00"
  {
    DivModUnique(1621623600, 86400, 18768, 68400);
    ConvertIsClockText(1621620000, 3600);
    assert ClockText(68400) == "19:00:00";
  }

  /** The third case: an hour of offset subtracted. */
  lemma ConvertExampleHourSubtracted()
    ensures ConvertTimestampToTime(1621620000, -3600) == "17:00:00"
  {
    DivModUnique(1621616400, 86400, 18768, 61200);
    ConvertIsClockText(1621620000, -3600);
    assert ClockText(61200) == "17:00:00";
  }
}
