/**
  The school-day announcements of skolengo/main.go: for every day of the
  timetable that has lessons, three Slack messages are planned around the
  first and the last lesson, and `scheduleMessage` drops any message whose
  time has already come.

  Instants and durations are integers counting nanoseconds, as Go's
  `time.Duration` does. An instant is local time: zero is a local midnight,
  so the local clock time of an instant `t` is `t % DayLength` (days are
  taken to be 24 hours long). The clock is an input: each round of the main
  loop receives the instant it read and the outcome of the timetable fetch.
 */
module SchoolDay {
  import opened Wrappers
  import opened SleepTime

  const Second := 1000000000
  const Minute := 60 * Second
  const Hour := 60 * Minute
  const DayLength := 24 * Hour

  /** A lesson of the timetable: when it starts and ends, and its subject's label. */
  datatype Lesson = Lesson(start: int, end: int, subject: string)

  /** A day of the timetable, its lessons in the order the service lists them. */
  datatype Day = Day(lessons: seq<Lesson>)

  datatype Message =
    | StartingSchool(subject: string)                     // the first lesson is about to start
    | HoursToday(duration: int, emoji: EmojiName, endsAt: int) // how long the day is and when it ends
    | Done                                                // the last lesson is over
    | TimetableError                                      // the fetch failed

  /** A message and the instant at which a goroutine will post it. */
  datatype Scheduled = Scheduled(at: int, message: Message)

  // ---- The emoji of the lesson count ----

  /** The emoji of the table of skolengo/main.go, and ":ten:" for the counts it lacks. */
  datatype EmojiName =
    | Fire | Goat | Yay | ThumbUp | UpDownVote | HeavySob | HeaviestSob | HeaviesterSob | Skulley | Ten

  /** The Slack shortcode of each emoji. */
  function EmojiText(e: EmojiName): string {
    match e
    case Fire => ":fire:"
    case Goat => ":goat:"
    case Yay => ":yay:"
    case ThumbUp => ":thumbup:"
    case UpDownVote => ":updownvote:"
    case HeavySob => ":heavysob:"
    case HeaviestSob => ":heaviestsob:"
    case HeaviesterSob => ":heaviestersob:"
    case Skulley => ":skulley:"
    case Ten => ":ten:"
  }

  /** The emoji of a day with `count` lessons: the table's entry, `Ten` for a count it lacks. */
  function Emoji(count: int): EmojiName
  {
    match count
    case 1 => Fire
    case 2 => Goat
    case 3 => Yay
    case 4 => ThumbUp
    case 5 => UpDownVote
    case 6 => HeavySob
    case 7 => HeaviestSob
    case 8 => HeaviesterSob
    case 9 => Skulley
    case _ => Ten
  }

  /** The emoji is `Ten` exactly for the counts the table lacks. */
  lemma EmojiTen(count: int)
    ensures Emoji(count) == Ten <==> count < 1 || count > 9
  {
  }

  /** The table entry by entry; ten lessons or more, and none, give ":ten:". */
  lemma EmojiTable()
    ensures EmojiText(Emoji(1)) == ":fire:" && EmojiText(Emoji(2)) == ":goat:"
    ensures EmojiText(Emoji(3)) == ":yay:" && EmojiText(Emoji(4)) == ":thumbup:"
    ensures EmojiText(Emoji(5)) == ":updownvote:" && EmojiText(Emoji(6)) == ":heavysob:"
    ensures EmojiText(Emoji(7)) == ":heaviestsob:" && EmojiText(Emoji(8)) == ":heaviestersob:"
    ensures EmojiText(Emoji(9)) == ":skulley:"
    ensures EmojiText(Emoji(0)) == ":ten:" && EmojiText(Emoji(10)) == ":ten:" && EmojiText(Emoji(11)) == ":ten:"
  {
  }

  /** Days of one to ten lessons each get a shortcode of their own. */
  lemma EmojiDistinct(a: int, b: int)
    requires 1 <= a <= 10 && 1 <= b <= 10 && a != b
    ensures EmojiText(Emoji(a)) != EmojiText(Emoji(b))
  {
  }

  // ---- The sum of the lesson durations ----

  /** The length of a lesson, `EndDateTime.Sub(StartDateTime)`. */
  function LessonLength(l: Lesson): int {
    l.end - l.start
  }

  /** The lengths of the lessons added up in list order. */
  function TotalDuration(lessons: seq<Lesson>): int
    decreases |lessons|
  {
    if lessons == [] then 0
    else TotalDuration(lessons[..|lessons| - 1]) + LessonLength(lessons[|lessons| - 1])
  }

  /** The loop of skolengo/main.go that adds the lesson durations up. */
  method SumDurations(lessons: seq<Lesson>) returns (total: int)
    ensures total == TotalDuration(lessons)
  {
    total := 0;
    var i := 0;
    while i < |lessons|
      invariant 0 <= i <= |lessons|
      invariant total == TotalDuration(lessons[..i])
    {
      assert lessons[..i + 1][..i] == lessons[..i];
      total := total + LessonLength(lessons[i]);
      i := i + 1;
    }
    assert lessons[..i] == lessons;
  }

  /** The total of two lists of lessons one after the other is the sum of their totals. */
  lemma {:induction false} TotalAppend(a: seq<Lesson>, b: seq<Lesson>)
    ensures TotalDuration(a + b) == TotalDuration(a) + TotalDuration(b)
    decreases |b|
  {
    if b == [] {
      assert a + b == a;
    } else {
      var c := b[..|b| - 1];
      assert (a + b)[..|a + b| - 1] == a + c;
      assert (a + b)[|a + b| - 1] == b[|b| - 1];
      TotalAppend(a, c);
    }
  }

  /**
    The lessons of a well-formed day: each ends no earlier than it starts, and
    none starts before the one listed ahead of it has ended.
   */
  predicate InOrder(lessons: seq<Lesson>) {
    (forall i :: 0 <= i < |lessons| ==> lessons[i].start <= lessons[i].end) &&
    (forall i :: 0 < i < |lessons| ==> lessons[i - 1].end <= lessons[i].start)
  }

  /**
    On a well-formed day the time spent in lessons is not negative and does
    not exceed the span from the first lesson's start to the last one's end.
   */
  lemma {:induction false} TotalWithinSpan(lessons: seq<Lesson>)
    requires lessons != [] && InOrder(lessons)
    ensures 0 <= TotalDuration(lessons) <= lessons[|lessons| - 1].end - lessons[0].start
    decreases |lessons|
  {
    var n := |lessons|;
    var init := lessons[..n - 1];
    assert LessonLength(lessons[n - 1]) >= 0;
    if n == 1 {
      assert init == [];
    } else {
      assert init[0] == lessons[0] && init[|init| - 1] == lessons[n - 2];
      assert InOrder(init);
      TotalWithinSpan(init);
      assert lessons[n - 2].end <= lessons[n - 1].start;
    }
  }

  // ---- Rounding and rendering ----

  /**
    `Duration.Truncate(time.Minute)`: `d` rounded toward zero to whole minutes
    (Go's `%` keeps the sign of `d`, so a negative duration rounds up).
   */
  function TruncateToMinute(d: int): int {
    if d >= 0 then d - d % Minute else d + (-d) % Minute
  }

  /**
    The truncated duration is a whole number of minutes, of the sign of `d`,
    and less than a minute closer to zero than `d`.
   */
  lemma TruncateToMinuteBounds(d: int)
    ensures TruncateToMinute(d) % Minute == 0
    ensures d >= 0 ==> 0 <= TruncateToMinute(d) <= d < TruncateToMinute(d) + Minute
    ensures d < 0 ==> TruncateToMinute(d) - Minute < d <= TruncateToMinute(d) <= 0
  {
  }

  /** `n` in decimal, without leading zeros. */
  function Decimal(n: nat): (s: string)
    ensures |s| >= 1 && AllDigits(s)
    decreases n
  {
    if n < 10 then [DigitChar(n)] else Decimal(n / 10) + [DigitChar(n % 10)]
  }

  /** Reading a number's decimal form back gives the number. */
  lemma {:induction false} DecimalRoundTrip(n: nat)
    ensures Number(Decimal(n)) == n
    decreases n
  {
    var s := Decimal(n);
    if n < 10 {
      assert s[..|s| - 1] == [];
    } else {
      assert s[..|s| - 1] == Decimal(n / 10);
      DecimalRoundTrip(n / 10);
    }
  }

  /**
    `Duration.String()` of a whole number of minutes: "0s" for zero, else an
    optional sign, the hours followed by "h" when there are any, the minutes
    left over followed by "m", and "0s" for the seconds.
   */
  function MinutesText(minutes: int): (s: string)
    ensures minutes == 0 <==> s == "0s"
    ensures minutes < 0 <==> |s| > 0 && s[0] == '-'
    ensures minutes != 0 ==> |s| >= 4 && s[|s| - 3..] == "m0s"
  {
    if minutes == 0 then "0s"
    else
      var u := if minutes < 0 then -minutes else minutes;
      var sign := if minutes < 0 then "-" else "";
      var hours := if u >= 60 then Decimal(u / 60) + "h" else "";
      sign + hours + Decimal(u % 60) + "m0s"
  }

  /** `Format("15:04")`: the local hour and minute of an instant, two digits each. */
  function ClockText(t: int): (s: string)
    ensures |s| == 5 && s[2] == ':' && AllDigits(s[..2]) && AllDigits(s[3..])
  {
    Padded((t % DayLength) / Hour, 2) + ":" + Padded((t % Hour) / Minute, 2)
  }

  /** The clock text reads back as the hour of the day and the minute of the hour. */
  lemma ClockTextReadsBack(t: int)
    ensures Number(ClockText(t)[..2]) == (t % DayLength) / Hour < 24
    ensures Number(ClockText(t)[3..]) == (t % Hour) / Minute < 60
  {
    var h, m := (t % DayLength) / Hour, (t % Hour) / Minute;
    ClockFieldsInRange(t);
    JoinedParts(Padded(h, 2), ':', Padded(m, 2));
    NumberPadded(h, 2);
    NumberPadded(m, 2);
  }

  /** The hour of the day is below 24 and the minute of the hour below 60. */
  lemma ClockFieldsInRange(t: int)
    ensures 0 <= (t % DayLength) / Hour < 24 && 0 <= (t % Hour) / Minute < 60
  {
  }

  /** The text Go posts for each message. */
  function Text(m: Message): string {
    match m
    case StartingSchool(subject) => "i'm starting school now with " + subject + " :3d-sad-emoji:"
    case HoursToday(duration, emoji, endsAt) =>
      "i have " + MinutesText(duration / Minute) + " hours of school today " + EmojiText(emoji) +
      " and should be done at " + ClockText(endsAt)
    case Done => "i'm done with school for today :yay:"
    case TimetableError =>
      "there was an error fetching the timetable, there is probably a problem with the token " +
      "or skolengo did an update/is down :heavysob:"
  }

  /** Six and a half hours read "6h30m0s". */
  lemma MinutesTextExample()
    ensures MinutesText(390) == "6h30m0s"
  {
    assert Decimal(6) == "6";
    assert Decimal(3) == "3";
    assert Decimal(30) == Decimal(3) + "0";
  }

  /** A lesson ending at half past three reads "15:30". */
  lemma ClockTextExample()
    ensures ClockText(15 * Hour + 30 * Minute) == "15:30"
  {
    var t := 15 * Hour + 30 * Minute;
    assert (t % DayLength) / Hour == 15 && (t % Hour) / Minute == 30;
    assert Padded(15, 2) == "15";
    assert Padded(30, 2) == "30";
  }

  // ---- Planning ----

  /**
    `scheduleMessage`: a message whose time is not strictly after `now` is
    dropped; any other is handed to a goroutine that posts it at that time.
   */
  function ScheduleMessage(now: int, at: int, m: Message): (s: seq<Scheduled>)
    ensures s == [] <==> at - now <= 0
    ensures s != [] ==> s == [Scheduled(at, m)] && at > now
  {
    if at - now <= 0 then [] else [Scheduled(at, m)]
  }

  /**
    The three messages the loop body asks `scheduleMessage` for on a day with
    lessons: one minute before the first lesson, two seconds after it starts,
    and one minute after the last lesson ends, "first" and "last" being
    positions in the list.
   */
  function DayMessages(day: Day): (all: seq<Scheduled>)
    requires day.lessons != []
    ensures |all| == 3
  {
    var first, last := day.lessons[0], day.lessons[|day.lessons| - 1];
    var duration := TruncateToMinute(TotalDuration(day.lessons));
    [Scheduled(first.start - Minute, StartingSchool(first.subject)),
     Scheduled(first.start + 2 * Second, HoursToday(duration, Emoji(|day.lessons|), last.end)),
     Scheduled(last.end + Minute, Done)]
  }

  /** What a day plans: nothing without lessons, otherwise each of its three messages not yet due. */
  function PlanDay(now: int, day: Day): (plans: seq<Scheduled>)
    ensures day.lessons == [] ==> plans == []
    ensures |plans| <= 3
  {
    if day.lessons == [] then []
    else
      var all := DayMessages(day);
      ScheduleMessage(now, all[0].at, all[0].message) +
      ScheduleMessage(now, all[1].at, all[1].message) +
      ScheduleMessage(now, all[2].at, all[2].message)
  }

  /** Whatever is planned for a day is due strictly after now. */
  lemma PlanDayAhead(now: int, day: Day)
    ensures forall p :: p in PlanDay(now, day) ==> p.at > now
  {
  }

  /**
    When the last lesson ends no earlier than the first starts, the three
    messages are due in strictly increasing order of time, so
    `scheduleMessage` drops a prefix of them: exactly those that are due by
    now, and the rest are planned, still in that order.
   */
  lemma PlanDayDropsDue(now: int, day: Day)
    requires day.lessons != [] && day.lessons[|day.lessons| - 1].end >= day.lessons[0].start
    ensures DayMessages(day)[0].at < DayMessages(day)[1].at < DayMessages(day)[2].at
    ensures var all, plans := DayMessages(day), PlanDay(now, day);
      plans == all[3 - |plans|..] &&
      (forall k :: 0 <= k < 3 - |plans| ==> all[k].at <= now)
  {
    var all, plans := DayMessages(day), PlanDay(now, day);
    var a := ScheduleMessage(now, all[0].at, all[0].message);
    var b := ScheduleMessage(now, all[1].at, all[1].message);
    var c := ScheduleMessage(now, all[2].at, all[2].message);
    assert plans == a + b + c;
    if all[0].at > now {
      assert plans == all;
    } else if all[1].at > now {
      assert plans == all[1..];
    } else if all[2].at > now {
      assert plans == all[2..];
    } else {
      assert plans == [];
    }
  }

  /** A day whose first lesson starts more than a minute from now gets all three messages. */
  lemma FutureDayPlansThree(now: int, day: Day)
    requires day.lessons != [] && day.lessons[|day.lessons| - 1].end >= day.lessons[0].start
    requires day.lessons[0].start - Minute > now
    ensures PlanDay(now, day) == DayMessages(day)
  {
    PlanDayDropsDue(now, day);
  }

  /** The plans of a timetable: the plans of its days, day after day. */
  function PlanTimetable(now: int, days: seq<Day>): (plans: seq<Scheduled>)
    decreases |days|
  {
    if days == [] then []
    else PlanTimetable(now, days[..|days| - 1]) + PlanDay(now, days[|days| - 1])
  }

  /** Everything planned for a timetable lies strictly in the future, at most three messages a day. */
  lemma {:induction false} TimetablePlansAhead(now: int, days: seq<Day>)
    ensures forall p :: p in PlanTimetable(now, days) ==> p.at > now
    ensures |PlanTimetable(now, days)| <= 3 * |days|
    decreases |days|
  {
    if days != [] {
      TimetablePlansAhead(now, days[..|days| - 1]);
      PlanDayAhead(now, days[|days| - 1]);
    }
  }

  /** A day without lessons, wherever it stands in the timetable, changes nothing. */
  lemma {:induction false} EmptyDaysSkipped(now: int, before: seq<Day>, after: seq<Day>)
    ensures PlanTimetable(now, before + [Day([])] + after) == PlanTimetable(now, before + after)
    decreases |after|
  {
    if after == [] {
      assert before + [Day([])] + after == before + [Day([])];
      assert (before + [Day([])])[..|before|] == before;
      assert before + after == before;
    } else {
      var init, last := after[..|after| - 1], after[|after| - 1];
      assert before + [Day([])] + after == (before + [Day([])] + init) + [last];
      assert before + after == (before + init) + [last];
      EmptyDaysSkipped(now, before, init);
    }
  }

  /**
    The body of the loop over the days in skolengo/main.go: skip a day
    without lessons, otherwise add its lesson durations up and schedule its
    three messages.
   */
  method PlanOneDay(now: int, day: Day) returns (plans: seq<Scheduled>)
    ensures plans == PlanDay(now, day)
  {
    plans := [];
    var lessons := day.lessons;
    if lessons == [] {
      return;
    }
    var first, last := lessons[0], lessons[|lessons| - 1];
    var emoji := Emoji(|lessons|);
    var total := SumDurations(lessons);
    var duration := TruncateToMinute(total);
    plans := plans + ScheduleMessage(now, first.start - Minute, StartingSchool(first.subject));
    plans := plans + ScheduleMessage(now, first.start + 2 * Second, HoursToday(duration, emoji, last.end));
    plans := plans + ScheduleMessage(now, last.end + Minute, Done);
  }

  /** The loop over the days of the timetable in skolengo/main.go. */
  method PlanDays(now: int, days: seq<Day>) returns (plans: seq<Scheduled>)
    ensures plans == PlanTimetable(now, days)
  {
    plans := [];
    var d := 0;
    while d < |days|
      invariant 0 <= d <= |days|
      invariant plans == PlanTimetable(now, days[..d])
    {
      assert days[..d + 1][..d] == days[..d];
      var more := PlanOneDay(now, days[d]);
      plans := plans + more;
      d := d + 1;
    }
    assert days[..d] == days;
  }

  // ---- The main loop ----

  /**
    The local midnight that starts the day after `now`'s, when the loop
    fetches the timetable again.
   */
  function NextMidnight(now: int): int {
    (now / DayLength + 1) * DayLength
  }

  /** The next midnight is a midnight, strictly after `now` and at most a day later. */
  lemma NextMidnightBounds(now: int)
    ensures now < NextMidnight(now) <= now + DayLength
    ensures NextMidnight(now) % DayLength == 0
  {
  }

  /** No midnight lies strictly between `now` and the next one. */
  lemma NoMidnightBefore(now: int, t: int)
    requires now < t < NextMidnight(now)
    ensures t % DayLength != 0
  {
  }

  /** What one round of the main loop leads to. */
  datatype Outcome =
    | Continue(plans: seq<Scheduled>, wakeAt: int)  // planned, then sleeps until `wakeAt`
    | Panic(plans: seq<Scheduled>, at: int)          // reported the error, slept, and stopped at `at`

  /**
    One round: on a failed fetch, report it ten seconds from now, sleep a
    minute and stop; otherwise plan the timetable and sleep until the next
    local midnight.
   */
  function Round(now: int, fetched: Result<seq<Day>, string>): (o: Outcome)
    ensures fetched.Failure? <==> o.Panic?
  {
    match fetched
    case Failure(_) => Panic(ScheduleMessage(now, now + 10 * Second, TimetableError), now + Minute)
    case Success(days) => Continue(PlanTimetable(now, days), NextMidnight(now))
  }

  /**
    A failed fetch stops the process a minute later. Its report, ten seconds
    from the round's reading of the clock, is scheduled and due before the
    stop when the clock has not moved on by ten seconds since that reading.
   */
  lemma FetchErrorReported(now: int, error: string)
    ensures Round(now, Failure(error)) == Panic([Scheduled(now + 10 * Second, TimetableError)], now + Minute)
    ensures ScheduleMessage(now, now + 10 * Second, TimetableError) == [Scheduled(now + 10 * Second, TimetableError)]
    ensures now < now + 10 * Second < Round(now, Failure(error)).at
  {
  }

  /** A round that fetched the timetable wakes after `now`, at a midnight, within a day. */
  lemma RoundWakesAtMidnight(now: int, days: seq<Day>)
    ensures var o := Round(now, Success(days));
      now < o.wakeAt <= now + DayLength && o.wakeAt % DayLength == 0
  {
    NextMidnightBounds(now);
  }

  /** The instant each round reads and the outcome of its fetch. */
  datatype Tick = Tick(now: int, fetched: Result<seq<Day>, string>)

  /** The outcome of the round of each tick, were it to run. */
  function Rounds(ticks: seq<Tick>): (outcomes: seq<Outcome>)
    ensures |outcomes| == |ticks|
    ensures forall i :: 0 <= i < |ticks| ==> outcomes[i] == Round(ticks[i].now, ticks[i].fetched)
    ensures forall i :: 0 <= i < |ticks| ==> (outcomes[i].Panic? <==> ticks[i].fetched.Failure?)
    decreases |ticks|
  {
    if ticks == [] then []
    else Rounds(ticks[..|ticks| - 1]) + [Round(ticks[|ticks| - 1].now, ticks[|ticks| - 1].fetched)]
  }

  /** What the rounds run so far have planned, and whether one of them stopped the process. */
  datatype Served = Served(plans: seq<Scheduled>, stopped: bool)

  /**
    The main loop over the outcomes of its first `k` rounds: the plans of
    each are added up to and including the first that stops the process.
   */
  function RunRounds(outcomes: seq<Outcome>, k: nat): (r: Served)
    requires k <= |outcomes|
    decreases k
  {
    if k == 0 then Served([], false)
    else
      var prev := RunRounds(outcomes, k - 1);
      if prev.stopped then prev
      else Served(prev.plans + outcomes[k - 1].plans, outcomes[k - 1].Panic?)
  }

  /**
    The `for` loop of skolengo/main.go over the ticks it is given: it plans
    round after round and ends at the first failed fetch.
   */
  method Serve(ticks: seq<Tick>) returns (plans: seq<Scheduled>, stopped: bool)
    ensures Served(plans, stopped) == RunRounds(Rounds(ticks), |ticks|)
  {
    ghost var outcomes := Rounds(ticks);
    plans, stopped := [], false;
    var k := 0;
    while k < |ticks|
      invariant 0 <= k <= |ticks|
      invariant Served(plans, stopped) == RunRounds(outcomes, k) && !stopped
    {
      var t := ticks[k];
      assert outcomes[k] == Round(t.now, t.fetched);
      if t.fetched.Failure? {
        FetchErrorReported(t.now, t.fetched.error);
        plans := plans + ScheduleMessage(t.now, t.now + 10 * Second, TimetableError);
        stopped := true;
        StoppedStays(outcomes, k + 1, |ticks|);
        return;
      }
      var more := PlanDays(t.now, t.fetched.value);
      plans := plans + more;
      k := k + 1;
    }
  }

  /** Once a round has stopped the process, later rounds change nothing. */
  lemma {:induction false} StoppedStays(outcomes: seq<Outcome>, k: nat, n: nat)
    requires k <= n <= |outcomes|
    requires RunRounds(outcomes, k).stopped
    ensures RunRounds(outcomes, n) == RunRounds(outcomes, k)
    decreases n - k
  {
    if k < n {
      StoppedStays(outcomes, k, n - 1);
    }
  }

  /**
    The process stops at the first failed fetch: if round `i` panics, the
    final plans are exactly those of the rounds up to and including `i`.
    (The round of a tick panics exactly when its fetch failed; see `Rounds`.)
   */
  lemma FirstFailureStops(outcomes: seq<Outcome>, i: nat)
    requires i < |outcomes| && outcomes[i].Panic?
    ensures RunRounds(outcomes, |outcomes|).stopped
    ensures RunRounds(outcomes, |outcomes|).plans == RunRounds(outcomes, i + 1).plans
  {
    assert RunRounds(outcomes, i + 1).stopped;
    StoppedStays(outcomes, i + 1, |outcomes|);
  }
}
