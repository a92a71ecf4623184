/**
  The day loop of `runBot` (fitbit/main.go): wait for 05:00, then poll the
  sleep endpoint for today's date about once an hour until data arrives,
  send the two-message summary for a date that has not been marked yet, and
  after 22:59 go back to waiting for the next 05:00. The only state carried
  from pass to pass is the local `lastSentDate`.

  There is no real clock. The environment is a trace of `Tick`s, one per
  pass of the inner loop: today's date as the pass formats it, the time the
  pass reads for its hour check, the provider's answer to the sleep request,
  and whether each of the two chat sends goes through. Every time the code
  sleeps, fetches or sends, the model records an `Effect`.
 */
module DayLoop {
  import opened Wrappers
  import opened SleepTime
  import opened SleepSummary
  import opened FitbitApi

  /**
    One pass of the inner loop. The pass reads the clock twice: once for
    today's date, already formatted as `DateKey` writes it (`today`), once
    for the hour (`now`); the two may fall on either side of midnight.
    `now` is also the time shown when an entry's time does not parse, and
    the time from which the outer loop computes its wait after a break.
   */
  datatype Tick = Tick(today: string, now: Timestamp, reply: Reply<seq<SleepEntry>>,
                       textDelivered: bool, barDelivered: bool)

  datatype Message =
    | SummaryText(date: string, shownStart: Timestamp, shownEnd: Timestamp, hours: real)
    | BarText(date: string, bar: string, hours: real, goalHours: real)

  datatype Effect =
    | Sleep(millis: int)
    | Fetch(request: HttpRequest)
    | Send(message: Message, delivered: bool)

  /** The client's tokens as the loop reads them, the sleep goal, and the test-mode switch. */
  datatype Config = Config(tokens: TokenResponse, goalHours: real, testMode: bool)

  datatype LoopState = LoopState(lastSentDate: string, effects: seq<Effect>)

  /** The inner loop stops at the first pass whose hour is later than this. */
  const LastPollingHour := 22
  /** The back-off between two polls. */
  const PollInterval := MillisPerHour

  predicate ValidTrace(ticks: seq<Tick>) {
    forall i :: 0 <= i < |ticks| ==> ValidTimestamp(ticks[i].now)
  }

  /** The dates the passes work on, in order. */
  function Dates(ticks: seq<Tick>): (dates: seq<string>)
    ensures |dates| == |ticks| && forall i :: 0 <= i < |ticks| ==> dates[i] == ticks[i].today
  {
    seq(|ticks|, i requires 0 <= i < |ticks| => ticks[i].today)
  }

  /**
    What a wall clock guarantees of the dates it shows: once the date has
    moved on from a day, that day does not come back.
   */
  predicate Contiguous(dates: seq<string>) {
    forall i, j, k :: 0 <= i < j < k < |dates| && dates[i] == dates[k] ==> dates[j] == dates[i]
  }

  /** The wait at the top of the outer loop; test mode skips it. */
  function DayStartWait(cfg: Config, now: Timestamp): (es: seq<Effect>)
    requires ValidTimestamp(now)
    ensures cfg.testMode <==> es == []
  {
    if cfg.testMode then [] else [Sleep(WaitUntilFive(MillisOfDay(now)))]
  }

  /** A timestamp field as the summary shows it: parsed, or the current time when it does not parse. */
  function ShownTime(field: string, now: Timestamp): (t: Timestamp)
    requires ValidTimestamp(now)
    ensures ValidTimestamp(t)
    ensures ParseFitbitTime(field).Some? ==> t == ParseFitbitTime(field).value
  {
    match ParseFitbitTime(field)
    case Some(t) => t
    case None => now
  }

  function Hours(millis: int): real {
    millis as real / MillisPerHour as real
  }

  /** The two messages of a dispatch: the text, then the bar. */
  function Dispatch(cfg: Config, today: string, t: Tick, entries: seq<SleepEntry>): seq<Effect>
    requires cfg.goalHours > 0.0 && ValidTimestamp(t.now) && entries != []
  {
    var total := TotalDuration(entries);
    PercentNonNegative(total, cfg.goalHours);
    [Send(SummaryText(today, ShownTime(entries[0].startTime, t.now), ShownTime(entries[0].endTime, t.now), Hours(total)),
          t.textDelivered),
     Send(BarText(today, SleepBar(total, cfg.goalHours), Hours(total), cfg.goalHours), t.barDelivered)]
  }

  /**
    One pass of the inner loop, followed by the outer loop's wait when the
    pass breaks out. Returns the new `lastSentDate` and the effects.
   */
  function Step(cfg: Config, lastSentDate: string, t: Tick): LoopState
    requires cfg.goalHours > 0.0 && ValidTimestamp(t.now)
  {
    var today := t.today;
    if t.now.hour > LastPollingHour then
      LoopState(lastSentDate, DayStartWait(cfg, t.now))
    else
      var fetch := Fetch(SleepRequest(cfg.tokens.userId, cfg.tokens.accessToken, today));
      match SleepResult(t.reply)
      case Failure(_) =>
        LoopState(today, [fetch])
      case Success(entries) =>
        if entries == [] then
          LoopState(lastSentDate, [fetch, Sleep(PollInterval)])
        else if today != lastSentDate then
          LoopState(today, [fetch] + Dispatch(cfg, today, t, entries) + [Sleep(PollInterval)])
        else
          LoopState(lastSentDate, [fetch, Sleep(PollInterval)])
  }

  /** The marker and the effects after the first `k` passes of a trace, starting with no date marked. */
  function RunUpTo(cfg: Config, ticks: seq<Tick>, k: nat): LoopState
    requires cfg.goalHours > 0.0 && ValidTrace(ticks) && k <= |ticks|
  {
    if k == 0 then LoopState("", [])
    else
      var before := RunUpTo(cfg, ticks, k - 1);
      var step := Step(cfg, before.lastSentDate, ticks[k - 1]);
      LoopState(step.lastSentDate, before.effects + step.effects)
  }

  function Run(cfg: Config, ticks: seq<Tick>): LoopState
    requires cfg.goalHours > 0.0 && ValidTrace(ticks)
  {
    RunUpTo(cfg, ticks, |ticks|)
  }

  /**
    The dispatch of runBot: aggregate the entries, send the text with the
    start and end of the first entry (the current time for a field that does
    not parse), then the bar. Both sends are attempted whatever the first
    one's outcome.
   */
  method SendSummary(cfg: Config, today: string, t: Tick, entries: seq<SleepEntry>) returns (effects: seq<Effect>)
    requires cfg.goalHours > 0.0 && ValidTimestamp(t.now) && entries != []
    ensures effects == Dispatch(cfg, today, t, entries)
  {
    var total, earliest, latest := Aggregate(entries);
    var shownStart, shownEnd := t.now, t.now;
    var parsed := ParseFitbitTime(entries[0].startTime);
    if parsed.Some? {
      shownStart := parsed.value;
    }
    parsed := ParseFitbitTime(entries[0].endTime);
    if parsed.Some? {
      shownEnd := parsed.value;
    }
    var hours := Hours(total);
    effects := [Send(SummaryText(today, shownStart, shownEnd, hours), t.textDelivered)];
    PercentNonNegative(total, cfg.goalHours);
    var bar := SleepBar(total, cfg.goalHours);
    effects := effects + [Send(BarText(today, bar, hours, cfg.goalHours), t.barDelivered)];
  }

  /**
    One pass of runBot's inner loop: break out after 22:59, otherwise fetch
    today's sleep, and on data for a date that is not marked send the text
    and the bar and mark the date. A fetch error marks the date and skips
    the back-off (`continue`). This is pass `k` of the trace, and the result
    is the run extended by that pass.
   */
  method Poll(cfg: Config, ticks: seq<Tick>, k: nat, lastSentDate: string)
      returns (marked: string, effects: seq<Effect>, breaks: bool)
    requires cfg.goalHours > 0.0 && ValidTrace(ticks) && k < |ticks|
    requires lastSentDate == RunUpTo(cfg, ticks, k).lastSentDate
    ensures breaks <==> ticks[k].now.hour > LastPollingHour
    ensures marked == RunUpTo(cfg, ticks, k + 1).lastSentDate
    ensures breaks ==> marked == lastSentDate && effects == []
    ensures breaks ==> RunUpTo(cfg, ticks, k + 1).effects == RunUpTo(cfg, ticks, k).effects + DayStartWait(cfg, ticks[k].now)
    ensures !breaks ==> RunUpTo(cfg, ticks, k + 1).effects == RunUpTo(cfg, ticks, k).effects + effects
  {
    var t := ticks[k];
    marked, effects, breaks := lastSentDate, [], false;
    var today := t.today;
    if t.now.hour > LastPollingHour {
      breaks := true;
      return;
    }
    effects := [Fetch(SleepRequest(cfg.tokens.userId, cfg.tokens.accessToken, today))];
    var result := SleepResult(t.reply);
    if result.Failure? {
      marked := today;
      return;
    }
    var entries := result.value;
    if entries == [] {
      effects := effects + [Sleep(PollInterval)];
      return;
    }
    if today != lastSentDate {
      var messages := SendSummary(cfg, today, t, entries);
      effects := effects + messages;
      marked := today;
    }
    effects := effects + [Sleep(PollInterval)];
  }

  /**
    runBot's inner loop from pass `k` of the trace: poll until a pass breaks
    out after 22:59 (`breaks`) or the trace ends. `next` is the first pass not
    consumed; on a break, the pass before it is the one that broke out.
   */
  method PollDay(cfg: Config, ticks: seq<Tick>, k: nat, lastSentDate: string)
      returns (marked: string, effects: seq<Effect>, next: nat, breaks: bool)
    requires cfg.goalHours > 0.0 && ValidTrace(ticks) && k <= |ticks|
    requires lastSentDate == RunUpTo(cfg, ticks, k).lastSentDate
    ensures k <= next <= |ticks|
    ensures marked == RunUpTo(cfg, ticks, next).lastSentDate
    ensures breaks ==> k < next
    ensures breaks ==> RunUpTo(cfg, ticks, k).effects + effects + DayStartWait(cfg, ticks[next - 1].now) == RunUpTo(cfg, ticks, next).effects
    ensures !breaks ==> next == |ticks| && RunUpTo(cfg, ticks, k).effects + effects == RunUpTo(cfg, ticks, next).effects
  {
    marked, effects, next, breaks := lastSentDate, [], k, false;
    while next < |ticks|
      invariant k <= next <= |ticks| && !breaks
      invariant marked == RunUpTo(cfg, ticks, next).lastSentDate
      invariant RunUpTo(cfg, ticks, k).effects + effects == RunUpTo(cfg, ticks, next).effects
      decreases |ticks| - next
    {
      var passEffects;
      marked, passEffects, breaks := Poll(cfg, ticks, next, marked);
      next := next + 1;
      if breaks {
        return;
      }
      AppendAssociative(RunUpTo(cfg, ticks, k).effects, effects, passEffects);
      effects := effects + passEffects;
    }
  }

  lemma AppendAssociative<T>(a: seq<T>, b: seq<T>, c: seq<T>)
    ensures (a + b) + c == a + (b + c)
  {
  }

  /**
    runBot, driven by a trace. The outer loop waits for 05:00, then polls
    until a pass after 22:59 breaks out. The Go loops never end; here they
    end with the trace.
   */
  method RunBot(cfg: Config, start: Timestamp, ticks: seq<Tick>) returns (lastSentDate: string, effects: seq<Effect>)
    requires cfg.goalHours > 0.0 && ValidTimestamp(start) && ValidTrace(ticks)
    ensures lastSentDate == Run(cfg, ticks).lastSentDate
    ensures effects == DayStartWait(cfg, start) + Run(cfg, ticks).effects
  {
    lastSentDate, effects := "", [];
    var clock := start;
    var k := 0;
    var running := true;
    while running
      invariant 0 <= k <= |ticks| && ValidTimestamp(clock)
      invariant lastSentDate == RunUpTo(cfg, ticks, k).lastSentDate
      invariant running ==> effects + DayStartWait(cfg, clock) == DayStartWait(cfg, start) + RunUpTo(cfg, ticks, k).effects
      invariant !running ==> k == |ticks| && effects == DayStartWait(cfg, start) + RunUpTo(cfg, ticks, k).effects
      decreases |ticks| - k, running
    {
      ghost var done := RunUpTo(cfg, ticks, k).effects;
      if !cfg.testMode {
        effects := effects + [Sleep(WaitUntilFive(MillisOfDay(clock)))];
      }
      assert effects == DayStartWait(cfg, start) + done;
      var dayEffects, breaks;
      lastSentDate, dayEffects, k, breaks := PollDay(cfg, ticks, k, lastSentDate);
      if breaks {
        clock := ticks[k - 1].now;
      }
      effects := effects + dayEffects;
      ghost var polled := done + dayEffects;
      AppendAssociative(DayStartWait(cfg, start), done, dayEffects);
      if breaks {
        AppendAssociative(DayStartWait(cfg, start), polled, DayStartWait(cfg, clock));
      }
      running := breaks;
    }
  }

  // ---- What the loop promises ----

  datatype Kind = Text | Bar

  /** The date of a send of the given kind, as a sequence of zero or one dates. */
  function DateOf(e: Effect, kind: Kind): (ds: seq<string>)
    ensures |ds| <= 1
  {
    match e
    case Send(SummaryText(date, _, _, _), _) => if kind == Text then [date] else []
    case Send(BarText(date, _, _, _), _) => if kind == Bar then [date] else []
    case _ => []
  }

  /** The dates of the messages of one kind that the effects send, in order. */
  function SentDates(effects: seq<Effect>, kind: Kind): (ds: seq<string>)
    ensures |ds| <= |effects|
  {
    if effects == [] then [] else DateOf(effects[0], kind) + SentDates(effects[1..], kind)
  }

  lemma {:induction false} SentDatesAppend(a: seq<Effect>, b: seq<Effect>, kind: Kind)
    ensures SentDates(a + b, kind) == SentDates(a, kind) + SentDates(b, kind)
  {
    if a == [] {
      assert a + b == b;
    } else {
      assert (a + b)[0] == a[0] && (a + b)[1..] == a[1..] + b;
      SentDatesAppend(a[1..], b, kind);
      AppendAssociative(DateOf(a[0], kind), SentDates(a[1..], kind), SentDates(b, kind));
    }
  }

  predicate NoDuplicates(ds: seq<string>) {
    forall i, j :: 0 <= i < j < |ds| ==> ds[i] != ds[j]
  }

  /** A pass before 23:00 whose fetch brought a non-empty sleep list. */
  predicate DataReady(t: Tick) {
    t.now.hour <= LastPollingHour && SleepResult(t.reply).Success? && SleepResult(t.reply).value != []
  }

  /** A pass before 23:00 whose fetch failed. */
  predicate FetchFailed(t: Tick) {
    t.now.hour <= LastPollingHour && SleepResult(t.reply).Failure?
  }

  lemma {:induction false} NoSendNoDates(es: seq<Effect>, kind: Kind)
    requires forall i :: 0 <= i < |es| ==> !es[i].Send?
    ensures SentDates(es, kind) == []
  {
    if es != [] {
      NoSendNoDates(es[1..], kind);
    }
  }

  lemma DispatchDates(cfg: Config, today: string, t: Tick, entries: seq<SleepEntry>, kind: Kind)
    requires cfg.goalHours > 0.0 && ValidTimestamp(t.now) && entries != []
    ensures SentDates(Dispatch(cfg, today, t, entries), kind) == [today]
  {
    var d := Dispatch(cfg, today, t, entries);
    assert d[1..][1..] == [];
  }

  // ---- The marker alone ----

  /** The state the loop keeps about dates: the marked date, and the dates whose summary went out. */
  datatype Marker = Marker(lastSentDate: string, sent: seq<string>)

  /**
    How one pass moves the marker, given its date and whether its fetch
    brought data or failed: data for an unmarked date is sent and marked, a
    failure marks the date without sending, anything else changes nothing.
   */
  function MarkerStep(m: Marker, date: string, ready: bool, failed: bool): Marker {
    if ready && date != m.lastSentDate then Marker(date, m.sent + [date])
    else if failed then Marker(date, m.sent)
    else m
  }

  /** A step adds to the dates already sent what it would send from an empty record. */
  lemma MarkerStepAppends(m: Marker, date: string, ready: bool, failed: bool)
    ensures var one := MarkerStep(Marker(m.lastSentDate, []), date, ready, failed);
      MarkerStep(m, date, ready, failed) == Marker(one.lastSentDate, m.sent + one.sent)
  {
    assert m.sent + [] == m.sent;
  }

  function MarkerRun(dates: seq<string>, ready: seq<bool>, failed: seq<bool>, k: nat): Marker
    requires |ready| == |dates| && |failed| == |dates| && k <= |dates|
  {
    if k == 0 then Marker("", [])
    else MarkerStep(MarkerRun(dates, ready, failed, k - 1), dates[k - 1], ready[k - 1], failed[k - 1])
  }

  function Readiness(ticks: seq<Tick>): (r: seq<bool>)
    ensures |r| == |ticks| && forall i :: 0 <= i < |ticks| ==> r[i] == DataReady(ticks[i])
  {
    seq(|ticks|, i requires 0 <= i < |ticks| => DataReady(ticks[i]))
  }

  function Failures(ticks: seq<Tick>): (r: seq<bool>)
    ensures |r| == |ticks| && forall i :: 0 <= i < |ticks| ==> r[i] == FetchFailed(ticks[i])
  {
    seq(|ticks|, i requires 0 <= i < |ticks| => FetchFailed(ticks[i]))
  }

  /**
    What one pass sends and how it moves the marker: a dispatch sends exactly
    one text and one bar, both for today, and marks today; a failed fetch
    marks today and sends nothing; every other pass sends nothing and leaves
    the marker alone.
   */
  lemma StepSends(cfg: Config, lastSentDate: string, t: Tick, kind: Kind)
    requires cfg.goalHours > 0.0 && ValidTimestamp(t.now)
    ensures var m := MarkerStep(Marker(lastSentDate, []), t.today, DataReady(t), FetchFailed(t));
      SentDates(Step(cfg, lastSentDate, t).effects, kind) == m.sent &&
      Step(cfg, lastSentDate, t).lastSentDate == m.lastSentDate
  {
    var today := t.today;
    var es := Step(cfg, lastSentDate, t).effects;
    if DataReady(t) && today != lastSentDate {
      var fetch := Fetch(SleepRequest(cfg.tokens.userId, cfg.tokens.accessToken, today));
      var d := Dispatch(cfg, today, t, SleepResult(t.reply).value);
      assert es == [fetch] + d + [Sleep(PollInterval)];
      NoSendNoDates([fetch], kind);
      NoSendNoDates([Sleep(PollInterval)], kind);
      DispatchDates(cfg, today, t, SleepResult(t.reply).value, kind);
      SentDatesAppend([fetch], d, kind);
      SentDatesAppend([fetch] + d, [Sleep(PollInterval)], kind);
    } else {
      NoSendNoDates(es, kind);
    }
  }

  /**
    The day loop's marker is the marker machine run on the passes' dates and
    fetch outcomes, and the loop sends a text, and a bar, for exactly the
    dates the machine records as sent, in that order.
   */
  lemma {:induction false} RunFollowsMarker(cfg: Config, ticks: seq<Tick>, k: nat, kind: Kind)
    requires cfg.goalHours > 0.0 && ValidTrace(ticks) && k <= |ticks|
    ensures var m := MarkerRun(Dates(ticks), Readiness(ticks), Failures(ticks), k);
      RunUpTo(cfg, ticks, k).lastSentDate == m.lastSentDate &&
      SentDates(RunUpTo(cfg, ticks, k).effects, kind) == m.sent
  {
    if k > 0 {
      RunFollowsMarker(cfg, ticks, k - 1, kind);
      PassFollowsMarker(cfg, ticks, k, kind);
    }
  }

  /** The step of `RunFollowsMarker`: pass `k - 1` keeps the run and the marker machine in agreement. */
  lemma PassFollowsMarker(cfg: Config, ticks: seq<Tick>, k: nat, kind: Kind)
    requires cfg.goalHours > 0.0 && ValidTrace(ticks) && 0 < k <= |ticks|
    requires var m := MarkerRun(Dates(ticks), Readiness(ticks), Failures(ticks), k - 1);
      RunUpTo(cfg, ticks, k - 1).lastSentDate == m.lastSentDate &&
      SentDates(RunUpTo(cfg, ticks, k - 1).effects, kind) == m.sent
    ensures var m := MarkerRun(Dates(ticks), Readiness(ticks), Failures(ticks), k);
      RunUpTo(cfg, ticks, k).lastSentDate == m.lastSentDate &&
      SentDates(RunUpTo(cfg, ticks, k).effects, kind) == m.sent
  {
    var before := RunUpTo(cfg, ticks, k - 1);
    var t := ticks[k - 1];
    var step := Step(cfg, before.lastSentDate, t);
    assert RunUpTo(cfg, ticks, k) == LoopState(step.lastSentDate, before.effects + step.effects);
    var dates, ready, failed := Dates(ticks), Readiness(ticks), Failures(ticks);
    var m := MarkerRun(dates, ready, failed, k - 1);
    assert dates[k - 1] == t.today && ready[k - 1] == DataReady(t) && failed[k - 1] == FetchFailed(t);
    MarkerStepAppends(m, dates[k - 1], ready[k - 1], failed[k - 1]);
    var one := MarkerStep(Marker(before.lastSentDate, []), t.today, DataReady(t), FetchFailed(t));
    StepSends(cfg, before.lastSentDate, t, kind);
    assert SentDates(step.effects, kind) == one.sent && step.lastSentDate == one.lastSentDate;
    assert MarkerRun(dates, ready, failed, k) == Marker(one.lastSentDate, m.sent + one.sent);
    SentDatesAppend(before.effects, step.effects, kind);
  }

  /** A date the clock has left is not shown again. */
  lemma DateLeft(dates: seq<string>, j: nat, k: nat)
    requires Contiguous(dates) && j < k < |dates| && dates[j] != dates[k]
    ensures forall m :: k < m < |dates| ==> dates[m] != dates[j]
  {
  }

  /**
    The invariant behind the once-per-date promise, after the first `k`
    passes of a loop whose passes show `dates`: no date has been sent twice,
    and every date sent so far is either the marked one, taken from a pass
    already made, or one that no later pass shows.
   */
  predicate Settled(dates: seq<string>, k: nat, m: Marker)
    requires k <= |dates|
  {
    NoDuplicates(m.sent) &&
    forall d :: d in m.sent ==>
      (d == m.lastSentDate && d in dates[..k]) || (forall j :: k <= j < |dates| ==> dates[j] != d)
  }

  lemma SettledStep(dates: seq<string>, n: nat, m: Marker, ready: bool, failed: bool)
    requires Contiguous(dates) && n < |dates| && Settled(dates, n, m)
    ensures Settled(dates, n + 1, MarkerStep(m, dates[n], ready, failed))
  {
    var today := dates[n];
    var m' := MarkerStep(m, today, ready, failed);
    assert dates[..n + 1] == dates[..n] + [today];
    forall d | d in m.sent
      ensures (d == m'.lastSentDate && d in dates[..n + 1]) || (forall j :: n + 1 <= j < |dates| ==> dates[j] != d)
    {
      if d == m.lastSentDate && d in dates[..n] && d != m'.lastSentDate {
        var j :| 0 <= j < n && dates[..n][j] == d;
        DateLeft(dates, j, n);
      }
    }
    if ready && today != m.lastSentDate {
      assert today !in m.sent;
      assert m'.sent[|m.sent|] == today;
    }
  }

  lemma {:induction false} MarkerSettled(dates: seq<string>, ready: seq<bool>, failed: seq<bool>, k: nat)
    requires |ready| == |dates| && |failed| == |dates| && k <= |dates| && Contiguous(dates)
    ensures Settled(dates, k, MarkerRun(dates, ready, failed, k))
  {
    if k > 0 {
      MarkerSettled(dates, ready, failed, k - 1);
      SettledStep(dates, k - 1, MarkerRun(dates, ready, failed, k - 1), ready[k - 1], failed[k - 1]);
    }
  }

  /**
    Each date's summary is sent at most once: whatever the provider answers
    and whether or not the sends go through, no date appears twice among the
    texts, nor among the bars, as long as the clock never goes back to a date
    it has left.
   */
  lemma AtMostOncePerDate(cfg: Config, ticks: seq<Tick>)
    requires cfg.goalHours > 0.0 && ValidTrace(ticks) && Contiguous(Dates(ticks))
    ensures NoDuplicates(SentDates(Run(cfg, ticks).effects, Text))
    ensures NoDuplicates(SentDates(Run(cfg, ticks).effects, Bar))
  {
    RunFollowsMarker(cfg, ticks, |ticks|, Text);
    RunFollowsMarker(cfg, ticks, |ticks|, Bar);
    MarkerSettled(Dates(ticks), Readiness(ticks), Failures(ticks), |ticks|);
  }

  /**
    `k` passes in, after pass `i` marked its date: no date sent since then
    (`newer`) is pass `i`'s, and that date is still marked or no later pass
    shows it.
   */
  predicate Closed(dates: seq<string>, i: nat, k: nat, m: Marker, newer: seq<string>)
    requires i < k <= |dates|
  {
    dates[i] !in newer &&
    (m.lastSentDate == dates[i] || forall j :: k <= j < |dates| ==> dates[j] != dates[i])
  }

  lemma {:induction false} MarkerClosed(dates: seq<string>, ready: seq<bool>, failed: seq<bool>, i: nat, k: nat)
      returns (newer: seq<string>)
    requires |ready| == |dates| && |failed| == |dates| && Contiguous(dates) && i < k <= |dates|
    requires MarkerRun(dates, ready, failed, i + 1).lastSentDate == dates[i]
    ensures MarkerRun(dates, ready, failed, k).sent == MarkerRun(dates, ready, failed, i + 1).sent + newer
    ensures Closed(dates, i, k, MarkerRun(dates, ready, failed, k), newer)
    decreases k
  {
    if k == i + 1 {
      newer := [];
    } else {
      var older := MarkerClosed(dates, ready, failed, i, k - 1);
      var before := MarkerRun(dates, ready, failed, k - 1);
      var today := dates[k - 1];
      var sends := ready[k - 1] && today != before.lastSentDate;
      newer := older + if sends then [today] else [];
      AppendAssociative(MarkerRun(dates, ready, failed, i + 1).sent, older, if sends then [today] else []);
      if MarkerRun(dates, ready, failed, k).lastSentDate != before.lastSentDate && today != dates[i] &&
         before.lastSentDate == dates[i] {
        DateLeft(dates, i, k - 1);
      }
    }
  }

  /**
    A failed fetch closes the day: once the sleep request of pass `i` fails,
    that date is marked as if its summary had gone out, and no summary for
    it is sent afterwards, even when a later fetch for the same date
    succeeds.
   */
  lemma FetchErrorClosesDate(cfg: Config, ticks: seq<Tick>, i: nat)
    requires cfg.goalHours > 0.0 && ValidTrace(ticks) && Contiguous(Dates(ticks)) && i < |ticks|
    requires FetchFailed(ticks[i])
    ensures RunUpTo(cfg, ticks, i + 1).lastSentDate == ticks[i].today
    ensures ticks[i].today in SentDates(Run(cfg, ticks).effects, Text) ==>
            ticks[i].today in SentDates(RunUpTo(cfg, ticks, i).effects, Text)
    ensures ticks[i].today in SentDates(Run(cfg, ticks).effects, Bar) ==>
            ticks[i].today in SentDates(RunUpTo(cfg, ticks, i).effects, Bar)
  {
    var dates, ready, failed := Dates(ticks), Readiness(ticks), Failures(ticks);
    RunFollowsMarker(cfg, ticks, i, Text);
    RunFollowsMarker(cfg, ticks, |ticks|, Text);
    RunFollowsMarker(cfg, ticks, i, Bar);
    RunFollowsMarker(cfg, ticks, |ticks|, Bar);
    RunFollowsMarker(cfg, ticks, i + 1, Text);
    assert MarkerRun(dates, ready, failed, i + 1).sent == MarkerRun(dates, ready, failed, i).sent;
    var newer := MarkerClosed(dates, ready, failed, i, |ticks|);
  }

  // ---- Delivery does not steer the loop ----

  /** An effect with the outcome of a send forgotten. */
  function Attempted(e: Effect): (a: Effect)
    ensures a.Send? <==> e.Send?
    ensures a.Send? ==> a.message == e.message && !a.delivered
    ensures !a.Send? ==> a == e
  {
    match e
    case Send(m, _) => Send(m, false)
    case _ => e
  }

  /** The same effects, up to the outcome of the sends. */
  predicate SameAttempts(a: seq<Effect>, b: seq<Effect>) {
    |a| == |b| && forall i :: 0 <= i < |a| ==> Attempted(a[i]) == Attempted(b[i])
  }

  /** Two traces that differ at most in which sends go through. */
  predicate SameButDelivery(ticks: seq<Tick>, others: seq<Tick>) {
    |ticks| == |others| &&
    forall i :: 0 <= i < |ticks| ==>
      ticks[i].today == others[i].today && ticks[i].now == others[i].now && ticks[i].reply == others[i].reply
  }

  lemma StepIgnoresDelivery(cfg: Config, lastSentDate: string, t: Tick, u: Tick)
    requires cfg.goalHours > 0.0 && ValidTimestamp(t.now)
    requires t.today == u.today && t.now == u.now && t.reply == u.reply
    ensures Step(cfg, lastSentDate, t).lastSentDate == Step(cfg, lastSentDate, u).lastSentDate
    ensures SameAttempts(Step(cfg, lastSentDate, t).effects, Step(cfg, lastSentDate, u).effects)
  {
    var today := t.today;
    var st, su := Step(cfg, lastSentDate, t), Step(cfg, lastSentDate, u);
    if DataReady(t) && today != lastSentDate {
      var fetch := Fetch(SleepRequest(cfg.tokens.userId, cfg.tokens.accessToken, today));
      var entries := SleepResult(t.reply).value;
      var dt, du := Dispatch(cfg, today, t, entries), Dispatch(cfg, today, u, entries);
      assert st.effects == [fetch] + dt + [Sleep(PollInterval)];
      assert su.effects == [fetch] + du + [Sleep(PollInterval)];
      assert Attempted(dt[0]) == Attempted(du[0]) && Attempted(dt[1]) == Attempted(du[1]);
    } else {
      assert st == su;
    }
  }

  /**
    Whether a send goes through changes nothing that follows: the marker is
    the same and the loop fetches, sleeps and sends the same messages.
   */
  lemma {:induction false} DeliveryIgnored(cfg: Config, ticks: seq<Tick>, others: seq<Tick>, k: nat)
    requires cfg.goalHours > 0.0 && ValidTrace(ticks) && ValidTrace(others) && SameButDelivery(ticks, others)
    requires k <= |ticks|
    ensures RunUpTo(cfg, ticks, k).lastSentDate == RunUpTo(cfg, others, k).lastSentDate
    ensures SameAttempts(RunUpTo(cfg, ticks, k).effects, RunUpTo(cfg, others, k).effects)
  {
    if k > 0 {
      DeliveryIgnored(cfg, ticks, others, k - 1);
      var a, b := RunUpTo(cfg, ticks, k - 1), RunUpTo(cfg, others, k - 1);
      StepIgnoresDelivery(cfg, a.lastSentDate, ticks[k - 1], others[k - 1]);
      var sa, sb := Step(cfg, a.lastSentDate, ticks[k - 1]).effects, Step(cfg, b.lastSentDate, others[k - 1]).effects;
      assert RunUpTo(cfg, ticks, k).effects == a.effects + sa;
      assert RunUpTo(cfg, others, k).effects == b.effects + sb;
      forall j | 0 <= j < |a.effects + sa|
        ensures Attempted((a.effects + sa)[j]) == Attempted((b.effects + sb)[j])
      {
        if j >= |a.effects| {
          assert (a.effects + sa)[j] == sa[j - |a.effects|];
          assert (b.effects + sb)[j] == sb[j - |a.effects|];
        }
      }
    }
  }

  // ---- One pass ----

  /**
    The polling window: a pass fetches exactly when its hour is 22 or
    earlier, and it asks for today's sleep with the client's tokens. A pass
    after 22:59 fetches nothing, keeps the marker and goes back to waiting
    for 05:00.
   */
  lemma PollingWindow(cfg: Config, lastSentDate: string, t: Tick)
    requires cfg.goalHours > 0.0 && ValidTimestamp(t.now)
    ensures var es := Step(cfg, lastSentDate, t).effects;
      (es != [] && es[0].Fetch?) <==> t.now.hour <= LastPollingHour
    ensures t.now.hour <= LastPollingHour ==>
      Step(cfg, lastSentDate, t).effects[0] ==
        Fetch(SleepRequest(cfg.tokens.userId, cfg.tokens.accessToken, t.today))
    ensures t.now.hour > LastPollingHour ==>
      Step(cfg, lastSentDate, t) == LoopState(lastSentDate, DayStartWait(cfg, t.now))
  {
  }

  /**
    The back-off: a pass before 23:00 ends with the hourly sleep exactly
    when its fetch succeeded; after a failed fetch the loop polls again at
    once. A pass with an empty sleep list keeps the marker.
   */
  lemma BackOff(cfg: Config, lastSentDate: string, t: Tick)
    requires cfg.goalHours > 0.0 && ValidTimestamp(t.now) && t.now.hour <= LastPollingHour
    ensures var es := Step(cfg, lastSentDate, t).effects;
      es[|es| - 1] == Sleep(PollInterval) <==> SleepResult(t.reply).Success?
    ensures SleepResult(t.reply) == Success([]) ==> Step(cfg, lastSentDate, t).lastSentDate == lastSentDate
  {
  }
}
