/**
  Instants as fitbit/main.go handles them, without time zones: a local
  calendar date and clock time to the millisecond.

  - `ParseFitbitTime` is `time.Parse("2006-01-02T15:04:05.000", s)`, the form
    of the start and end of a sleep log entry;
  - `DateKey` is `Format("2006-01-02")`, the key under which a day's summary
    is sent;
  - `WaitUntilFive` is the wait before the day loop starts polling.
 */
module SleepTime {
  import opened Wrappers

  datatype Timestamp = Timestamp(year: int, month: int, day: int,
                                 hour: int, minute: int, second: int, millis: int)

  function IsLeap(year: int): bool {
    year % 4 == 0 && (year % 100 != 0 || year % 400 == 0)
  }

  /** The number of days of a month of the Gregorian calendar. */
  function DaysIn(month: int, year: int): int
    requires 1 <= month <= 12
  {
    if month == 2 then (if IsLeap(year) then 29 else 28)
    else if month == 4 || month == 6 || month == 9 || month == 11 then 30
    else 31
  }

  /** A date and clock time that exists, with a year of four digits. */
  predicate ValidTimestamp(t: Timestamp) {
    0 <= t.year <= 9999 && 1 <= t.month <= 12 && 1 <= t.day <= DaysIn(t.month, t.year) &&
    0 <= t.hour < 24 && 0 <= t.minute < 60 && 0 <= t.second < 60 && 0 <= t.millis < 1000
  }

  // ---- Digits ----

  predicate IsDigit(c: char) {
    '0' <= c <= '9'
  }

  predicate AllDigits(s: string) {
    forall i :: 0 <= i < |s| ==> IsDigit(s[i])
  }

  /** The decimal value of a string of digits. */
  function Number(s: string): (n: int)
    requires AllDigits(s)
    ensures 0 <= n
    decreases |s|
  {
    if s == [] then 0 else Number(s[..|s| - 1]) * 10 + (s[|s| - 1] as int - '0' as int)
  }

  function DigitChar(d: int): (c: char)
    requires 0 <= d < 10
    ensures IsDigit(c)
  {
    ('0' as int + d) as char
  }

  /** `n` written with exactly `width` digits, zero padded on the left. */
  function Padded(n: int, width: nat): (s: string)
    requires 0 <= n
    ensures |s| == width && AllDigits(s)
    decreases width
  {
    if width == 0 then "" else Padded(n / 10, width - 1) + [DigitChar(n % 10)]
  }

  function Power10(k: nat): (p: nat)
    ensures p >= 1
  {
    if k == 0 then 1 else 10 * Power10(k - 1)
  }

  /** Reading back a number written with enough digits gives the number. */
  lemma {:induction false} NumberPadded(n: int, width: nat)
    requires 0 <= n < Power10(width)
    ensures Number(Padded(n, width)) == n
    decreases width
  {
    if width > 0 {
      var s := Padded(n, width);
      assert s[..|s| - 1] == Padded(n / 10, width - 1);
      NumberPadded(n / 10, width - 1);
    }
  }

  // ---- The layout "2006-01-02T15:04:05.000" ----

  /**
    The clock part "15:04:05.000" after the `T`: the hour has one or two
    digits (Go's `getnum` for the non-padded hour), the minute and the second
    exactly two, a `.` or a `,` and exactly three digits of fraction.
   */
  function ParseClock(rest: string): Option<(int, int, int, int)> {
    var hd := if |rest| >= 2 && IsDigit(rest[1]) then 2 else 1;
    if |rest| != hd + 10 || !AllDigits(rest[..hd]) || rest[hd] != ':' ||
       !AllDigits(rest[hd + 1..hd + 3]) || rest[hd + 3] != ':' ||
       !AllDigits(rest[hd + 4..hd + 6]) || (rest[hd + 6] != '.' && rest[hd + 6] != ',') ||
       !AllDigits(rest[hd + 7..])
    then None
    else Some((Number(rest[..hd]), Number(rest[hd + 1..hd + 3]),
               Number(rest[hd + 4..hd + 6]), Number(rest[hd + 7..])))
  }

  /**
    `time.Parse` with the layout of the provider's timestamps. Fails on any
    other shape, and on a month, day, hour, minute or second out of range.
   */
  function ParseFitbitTime(s: string): (r: Option<Timestamp>)
    ensures r.Some? ==> ValidTimestamp(r.value)
  {
    if |s| < 11 || !AllDigits(s[..4]) || s[4] != '-' || !AllDigits(s[5..7]) || s[7] != '-' ||
       !AllDigits(s[8..10]) || s[10] != 'T'
    then None
    else match ParseClock(s[11..])
      case None => None
      case Some((hour, minute, second, millis)) =>
        var t := Timestamp(Number(s[..4]), Number(s[5..7]), Number(s[8..10]), hour, minute, second, millis);
        if ValidTimestamp(t) then Some(t) else None
  }

  /** The date as `Format("2006-01-02")` writes it. */
  function DateKey(t: Timestamp): (key: string)
    requires ValidTimestamp(t)
    ensures |key| == 10 && key[4] == '-' && key[7] == '-'
  {
    Padded(t.year, 4) + "-" + Padded(t.month, 2) + "-" + Padded(t.day, 2)
  }

  /** The provider's own rendering of an instant, with a two-digit hour. */
  function FormatFitbitTime(t: Timestamp): (s: string)
    requires ValidTimestamp(t)
    ensures |s| == 23
  {
    DateKey(t) + "T" + FitbitClock(t)
  }

  /** The time of day as `Format("15:04:05.000")` writes it. */
  function FitbitClock(t: Timestamp): (clock: string)
    requires ValidTimestamp(t)
    ensures |clock| == 12
  {
    Padded(t.hour, 2) + ":" + Padded(t.minute, 2) + ":" + Padded(t.second, 2) + "." + Padded(t.millis, 3)
  }

  /** The pieces on either side of a separator read back from the joined sequence. */
  lemma JoinedParts<T>(a: seq<T>, sep: T, b: seq<T>)
    ensures (a + [sep] + b)[..|a|] == a && (a + [sep] + b)[|a|] == sep &&
            (a + [sep] + b)[|a| + 1..] == b
  {
  }

  /** A slice inside a prefix is the same slice of the prefix. */
  lemma SliceOfPrefix<T>(s: seq<T>, n: nat, i: nat, j: nat)
    requires i <= j <= n <= |s|
    ensures s[i..j] == s[..n][i..j]
  {
  }

  lemma ClockRoundTrip(t: Timestamp)
    requires ValidTimestamp(t)
    ensures ParseClock(FitbitClock(t)) == Some((t.hour, t.minute, t.second, t.millis))
  {
    ClockFields(Padded(t.hour, 2), Padded(t.minute, 2), Padded(t.second, 2), Padded(t.millis, 3));
    NumberPadded(t.hour, 2);
    NumberPadded(t.minute, 2);
    NumberPadded(t.second, 2);
    NumberPadded(t.millis, 3);
  }

  /** Where the fields of a clock reading sit between its separators. */
  lemma ClockFields(h: string, m: string, sec: string, ms: string)
    requires |h| == 2 && |m| == 2 && |sec| == 2 && |ms| == 3
    ensures var rest := h + ":" + m + ":" + sec + "." + ms;
      |rest| == 12 && rest[..2] == h && rest[2] == ':' && rest[3..5] == m && rest[5] == ':' &&
      rest[6..8] == sec && rest[8] == '.' && rest[9..] == ms
  {
  }

  /** Parsing what the provider writes gives back the instant. */
  lemma FormatParseRoundTrip(t: Timestamp)
    requires ValidTimestamp(t)
    ensures ParseFitbitTime(FormatFitbitTime(t)) == Some(t)
  {
    var key, clock := DateKey(t), FitbitClock(t);
    var s := key + ['T'] + clock;
    assert FormatFitbitTime(t) == s;
    JoinedParts(key, 'T', clock);
    SliceOfPrefix(s, 10, 0, 4);
    SliceOfPrefix(s, 10, 5, 7);
    SliceOfPrefix(s, 10, 8, 10);
    DateKeyParts(t);
    ClockRoundTrip(t);
  }

  /** The fields of a date key, read back. */
  lemma DateKeyParts(t: Timestamp)
    requires ValidTimestamp(t)
    ensures var key := DateKey(t);
      AllDigits(key[..4]) && AllDigits(key[5..7]) && AllDigits(key[8..]) &&
      Number(key[..4]) == t.year && Number(key[5..7]) == t.month && Number(key[8..]) == t.day
  {
    var key := DateKey(t);
    assert key[..4] == Padded(t.year, 4);
    assert key[5..7] == Padded(t.month, 2);
    assert key[8..] == Padded(t.day, 2);
    NumberPadded(t.year, 4);
    NumberPadded(t.month, 2);
    NumberPadded(t.day, 2);
  }

  /** Two instants on different dates have different keys. */
  lemma DateKeyInjective(t: Timestamp, u: Timestamp)
    requires ValidTimestamp(t) && ValidTimestamp(u)
    requires DateKey(t) == DateKey(u)
    ensures t.year == u.year && t.month == u.month && t.day == u.day
  {
    DateKeyParts(t);
    DateKeyParts(u);
  }

  // ---- The wait until 05:00 ----

  const MillisPerHour := 3600000
  const MillisPerDay := 24 * MillisPerHour
  /** 05:00, the time of day at which polling starts. */
  const DayStart := 5 * MillisPerHour

  /** The clock time of `t` in milliseconds since midnight. */
  function MillisOfDay(t: Timestamp): (ms: int)
    requires ValidTimestamp(t)
    ensures 0 <= ms < MillisPerDay
  {
    ((t.hour * 60 + t.minute) * 60 + t.second) * 1000 + t.millis
  }

  /**
    How long runBot sleeps before polling: until today's 05:00, or tomorrow's
    when `now` is strictly after today's (`time.After` is strict, so at
    05:00:00.000 exactly the wait is zero). Days are taken to be 24 hours long.
   */
  function WaitUntilFive(now: int): (wait: int)
    requires 0 <= now < MillisPerDay
    ensures 0 <= wait < MillisPerDay
    ensures wait == 0 <==> now == DayStart
    ensures now + wait == DayStart || (now > DayStart && now + wait == DayStart + MillisPerDay)
  {
    var next := if now > DayStart then DayStart + MillisPerDay else DayStart;
    next - now
  }

  /** The wait ends at the first 05:00 that is not before `now`. */
  lemma WaitEndsAtNextFive(now: int, w: int)
    requires 0 <= now < MillisPerDay
    requires 0 <= w < WaitUntilFive(now)
    ensures (now + w) % MillisPerDay != DayStart
    ensures (now + WaitUntilFive(now)) % MillisPerDay == DayStart
  {
  }
}
