/**
  The numbers behind the daily sleep summary of fitbit/main.go: the
  aggregation over the day's sleep log entries and the ten-cell bar.
 */
module SleepSummary {
  import opened SleepTime

  /**
    The fields of one entry of the provider's `sleep` array that the summary
    reads. `duration` is in milliseconds; the provider never reports a
    negative one.
   */
  datatype SleepEntry = SleepEntry(startTime: string, endTime: string, duration: nat)

  // ---- Go's `<` on strings ----

  /**
    Lexicographic order, as Go compares strings. Go compares UTF-8 bytes; the
    byte order of UTF-8 agrees with the order of the code points compared here.
   */
  predicate LexLess(a: string, b: string)
    decreases |a|
  {
    if a == [] then b != []
    else if b == [] then false
    else if a[0] != b[0] then a[0] < b[0]
    else LexLess(a[1..], b[1..])
  }

  predicate LexLessEq(a: string, b: string) {
    LexLess(a, b) || a == b
  }

  lemma {:induction false} LexLessIrreflexive(a: string)
    ensures !LexLess(a, a)
    decreases |a|
  {
    if a != [] { LexLessIrreflexive(a[1..]); }
  }

  lemma {:induction false} LexLessTotal(a: string, b: string)
    ensures LexLess(a, b) || a == b || LexLess(b, a)
    decreases |a|
  {
    if a != [] && b != [] && a[0] == b[0] {
      LexLessTotal(a[1..], b[1..]);
      if a[1..] == b[1..] { assert a == [a[0]] + a[1..] && b == [b[0]] + b[1..]; }
    }
  }

  lemma {:induction false} LexLessTransitive(a: string, b: string, c: string)
    requires LexLess(a, b) && LexLess(b, c)
    ensures LexLess(a, c)
    decreases |a|
  {
    if a != [] && a[0] == b[0] && b[0] == c[0] {
      LexLessTransitive(a[1..], b[1..], c[1..]);
    }
  }

  lemma LexLessAsymmetric(a: string, b: string)
    requires LexLess(a, b)
    ensures !LexLess(b, a)
  {
    if LexLess(b, a) {
      LexLessTransitive(a, b, a);
      LexLessIrreflexive(a);
    }
  }

  // ---- The aggregation loop ----

  function Starts(entries: seq<SleepEntry>): set<string> {
    set e | e in entries :: e.startTime
  }

  function Ends(entries: seq<SleepEntry>): set<string> {
    set e | e in entries :: e.endTime
  }

  /** The sum of the durations of all entries, in milliseconds. */
  function TotalDuration(entries: seq<SleepEntry>): nat
    decreases |entries|
  {
    if entries == [] then 0
    else TotalDuration(entries[..|entries| - 1]) + entries[|entries| - 1].duration
  }

  /** No single entry lasts longer than the total. */
  lemma {:induction false} EntryWithinTotal(entries: seq<SleepEntry>)
    ensures forall e :: e in entries ==> e.duration <= TotalDuration(entries)
    decreases |entries|
  {
    if entries != [] {
      var front := entries[..|entries| - 1];
      EntryWithinTotal(front);
      forall e | e in entries ensures e.duration <= TotalDuration(entries) {
        if e != entries[|entries| - 1] {
          var k :| 0 <= k < |entries| && entries[k] == e;
          assert front[k] == e;
        }
      }
    }
  }

  /**
    The start the loop keeps: begin with the first entry's start and replace
    it by any start that is strictly smaller. It is the lexicographic
    minimum of all starts.
   */
  function EarliestStart(entries: seq<SleepEntry>): (start: string)
    requires entries != []
    ensures start in Starts(entries)
    ensures forall e :: e in entries ==> LexLessEq(start, e.startTime)
    decreases |entries|
  {
    if |entries| == 1 then entries[0].startTime
    else
      var front := entries[..|entries| - 1];
      var m := EarliestStart(front);
      var x := entries[|entries| - 1].startTime;
      assert forall e :: e in entries ==> e in front || e == entries[|entries| - 1];
      if LexLess(x, m) then
        LexLessBelow(x, m, front);
        x
      else
        LexLessTotal(x, m);
        m
  }

  /** A start below the minimum of `front` is below every start of `front`. */
  lemma LexLessBelow(x: string, m: string, front: seq<SleepEntry>)
    requires LexLess(x, m)
    requires forall e :: e in front ==> LexLessEq(m, e.startTime)
    ensures forall e :: e in front ==> LexLessEq(x, e.startTime)
  {
    forall e | e in front ensures LexLessEq(x, e.startTime) {
      if LexLess(m, e.startTime) { LexLessTransitive(x, m, e.startTime); }
    }
  }

  /** The end the loop keeps: the lexicographic maximum of all ends. */
  function LatestEnd(entries: seq<SleepEntry>): (end: string)
    requires entries != []
    ensures end in Ends(entries)
    ensures forall e :: e in entries ==> LexLessEq(e.endTime, end)
    decreases |entries|
  {
    if |entries| == 1 then entries[0].endTime
    else
      var front := entries[..|entries| - 1];
      var m := LatestEnd(front);
      var x := entries[|entries| - 1].endTime;
      assert forall e :: e in entries ==> e in front || e == entries[|entries| - 1];
      if LexLess(m, x) then
        LexLessAbove(x, m, front);
        x
      else
        LexLessTotal(x, m);
        m
  }

  lemma LexLessAbove(x: string, m: string, front: seq<SleepEntry>)
    requires LexLess(m, x)
    requires forall e :: e in front ==> LexLessEq(e.endTime, m)
    ensures forall e :: e in front ==> LexLessEq(e.endTime, x)
  {
    forall e | e in front ensures LexLessEq(e.endTime, x) {
      if LexLess(e.endTime, m) { LexLessTransitive(e.endTime, m, x); }
    }
  }

  /**
    The loop of runBot over the day's entries: it sums the durations and
    keeps the smallest start and the largest end seen so far.
   */
  method Aggregate(entries: seq<SleepEntry>) returns (total: nat, start: string, end: string)
    requires entries != []
    ensures total == TotalDuration(entries)
    ensures start == EarliestStart(entries) && end == LatestEnd(entries)
  {
    total, start, end := 0, entries[0].startTime, entries[0].endTime;
    for i := 0 to |entries|
      invariant total == TotalDuration(entries[..i])
      invariant start == if i == 0 then entries[0].startTime else EarliestStart(entries[..i])
      invariant end == if i == 0 then entries[0].endTime else LatestEnd(entries[..i])
    {
      var s := entries[i];
      assert entries[..i + 1][..i] == entries[..i];
      total := total + s.duration;
      if i == 0 {
        LexLessIrreflexive(start);
        LexLessIrreflexive(end);
      }
      if LexLess(s.startTime, start) {
        start := s.startTime;
      }
      if LexLess(end, s.endTime) {
        end := s.endTime;
      }
    }
    assert entries[..|entries|] == entries;
  }

  /** The least element of a set of strings is determined by the set alone. */
  lemma LeastIsUnique(a: string, b: string, xs: set<string>)
    requires a in xs && b in xs
    requires forall x :: x in xs ==> LexLessEq(a, x)
    requires forall x :: x in xs ==> LexLessEq(b, x)
    ensures a == b
  {
    if a != b {
      assert LexLess(a, b) && LexLess(b, a);
      LexLessAsymmetric(a, b);
    }
  }

  /** Removing the entry at position `j` takes its duration off the total. */
  lemma {:induction false} TotalWithout(entries: seq<SleepEntry>, j: nat)
    requires j < |entries|
    ensures TotalDuration(entries) == TotalDuration(entries[..j] + entries[j + 1..]) + entries[j].duration
    decreases |entries|
  {
    var n := |entries|;
    if j < n - 1 {
      var front := entries[..n - 1];
      TotalWithout(front, j);
      var shorter := front[..j] + front[j + 1..];
      var rest := entries[..j] + entries[j + 1..];
      RemoveBeforeLast(entries, j);
      assert rest[..|rest| - 1] == shorter && rest[|rest| - 1] == entries[n - 1];
      assert front[j] == entries[j];
      TotalStep(entries);
      TotalStep(rest);
    } else {
      assert entries[..j] + entries[j + 1..] == entries[..n - 1];
      TotalStep(entries);
    }
  }

  /** The total of a non-empty list is the total of its front plus its last entry. */
  lemma TotalStep(entries: seq<SleepEntry>)
    requires entries != []
    ensures TotalDuration(entries) ==
            TotalDuration(entries[..|entries| - 1]) + entries[|entries| - 1].duration
  {
  }

  /** Removing a position before the last one keeps the last element last. */
  lemma RemoveBeforeLast<T>(s: seq<T>, j: nat)
    requires j < |s| - 1
    ensures s[..j] + s[j + 1..] == (s[..|s| - 1][..j] + s[..|s| - 1][j + 1..]) + [s[|s| - 1]]
  {
    var n := |s|;
    assert s[j + 1..] == s[j + 1..n - 1] + [s[n - 1]];
    assert s[..n - 1][..j] == s[..j];
    assert s[..n - 1][j + 1..] == s[j + 1..n - 1];
  }

  /** The total does not depend on the order of the entries. */
  lemma {:induction false} TotalOrderFree(a: seq<SleepEntry>, b: seq<SleepEntry>)
    requires multiset(a) == multiset(b)
    ensures TotalDuration(a) == TotalDuration(b)
    decreases |a|
  {
    if a != [] {
      var n := |a|;
      var x := a[n - 1];
      assert x in multiset(b);
      var j :| 0 <= j < |b| && b[j] == x;
      var b' := b[..j] + b[j + 1..];
      assert b == b[..j] + [x] + b[j + 1..];
      assert a == a[..n - 1] + [x];
      assert multiset(a) == multiset(a[..n - 1]) + multiset{x};
      assert multiset(b) == multiset(b[..j]) + multiset{x} + multiset(b[j + 1..]);
      assert multiset(b') == multiset(b[..j]) + multiset(b[j + 1..]);
      assert multiset(a[..n - 1]) == multiset(a) - multiset{x};
      assert multiset(b') == multiset(b) - multiset{x};
      TotalOrderFree(a[..n - 1], b');
      TotalWithout(b, j);
    } else {
      assert b == [];
    }
  }

  /**
    Total, earliest start and latest end are independent of the order in
    which the provider lists the entries.
   */
  lemma AggregateOrderFree(a: seq<SleepEntry>, b: seq<SleepEntry>)
    requires a != [] && multiset(a) == multiset(b)
    ensures b != []
    ensures TotalDuration(a) == TotalDuration(b)
    ensures EarliestStart(a) == EarliestStart(b)
    ensures LatestEnd(a) == LatestEnd(b)
  {
    assert a[0] in multiset(b);
    TotalOrderFree(a, b);
    assert forall e :: e in a <==> e in b by {
      forall e ensures e in a <==> e in b {
        assert e in a <==> e in multiset(a);
        assert e in b <==> e in multiset(b);
      }
    }
    assert Starts(a) == Starts(b);
    assert Ends(a) == Ends(b);
    LeastIsUnique(EarliestStart(a), EarliestStart(b), Starts(a));
    var ea, eb := LatestEnd(a), LatestEnd(b);
    if ea != eb {
      assert LexLess(ea, eb) && LexLess(eb, ea);
      LexLessAsymmetric(ea, eb);
    }
  }

  // ---- The ten-cell bar ----

  const BarCells := 10
  /** U+2588 FULL BLOCK and U+2591 LIGHT SHADE. */
  const FullCell: char := '\U{2588}'
  const EmptyCell: char := '\U{2591}'

  /** `c` repeated `n` times (Go's `strings.Repeat`). */
  function Repeat(c: char, n: nat): (s: string)
    ensures |s| == n && forall i :: 0 <= i < n ==> s[i] == c
  {
    seq(n, _ => c)
  }

  /** Go's `int(x)` of a float: truncation toward zero. */
  function Truncate(x: real): int {
    if x >= 0.0 then x.Floor else -((-x).Floor)
  }

  /** The share of the goal that was slept, in percent, computed in exact arithmetic. */
  function Percent(sleptMillis: int, goalHours: real): real
    requires goalHours > 0.0
  {
    (sleptMillis as real / MillisPerHour as real) / goalHours * 100.0
  }

  /**
    generateSleepBar: the percentage is capped at 100, tenths of it are
    truncated to whole cells, and the count is capped at ten again.
   */
  function FilledCells(sleptMillis: int, goalHours: real): int
    requires goalHours > 0.0
  {
    var percent := Percent(sleptMillis, goalHours);
    var capped := if percent > 100.0 then 100.0 else percent;
    var filled := Truncate(capped / 10.0);
    if filled > BarCells then BarCells else filled
  }

  /**
    generateSleepBar. `strings.Repeat` panics on a negative count, which a
    total below minus a tenth of the goal would cause; the callers never
    pass a negative total.
   */
  function SleepBar(sleptMillis: int, goalHours: real): (bar: string)
    requires goalHours > 0.0
    requires Percent(sleptMillis, goalHours) > -10.0
    ensures |bar| == BarCells
  {
    var filled := FilledCells(sleptMillis, goalHours);
    Repeat(FullCell, filled) + Repeat(EmptyCell, BarCells - filled)
  }

  /** A total that is not negative is not a negative share of the goal. */
  lemma PercentNonNegative(sleptMillis: int, goalHours: real)
    requires goalHours > 0.0 && sleptMillis >= 0
    ensures Percent(sleptMillis, goalHours) >= 0.0
  {
    var x := sleptMillis as real / MillisPerHour as real;
    assert x >= 0.0;
    assert x / goalHours >= 0.0;
  }

  /**
    The bar as a reference definition: for a non-negative total it has
    min(10, floor(10 * slept / goal)) full cells followed by empty ones.
   */
  lemma {:induction false} SleepBarCells(sleptMillis: int, goalHours: real)
    requires goalHours > 0.0 && sleptMillis >= 0
    ensures Percent(sleptMillis, goalHours) >= 0.0
    ensures var tenths := ((10 * sleptMillis) as real / (goalHours * MillisPerHour as real)).Floor;
      var filled := if tenths > BarCells then BarCells else tenths;
      0 <= filled <= BarCells &&
      SleepBar(sleptMillis, goalHours) == Repeat(FullCell, filled) + Repeat(EmptyCell, BarCells - filled)
  {
    var x := sleptMillis as real;
    var g := goalHours * MillisPerHour as real;
    var percent := Percent(sleptMillis, goalHours);
    assert percent == x / g * 100.0;
    assert percent / 10.0 == (10 * sleptMillis) as real / g;
    assert percent >= 0.0;
  }

  /** With the default goal of eight hours: eight hours fill the bar, four fill half, twelve are capped. */
  lemma SleepBarExamples()
    ensures SleepBar(8 * MillisPerHour, 8.0) == Repeat(FullCell, 10)
    ensures SleepBar(4 * MillisPerHour, 8.0) == Repeat(FullCell, 5) + Repeat(EmptyCell, 5)
    ensures SleepBar(12 * MillisPerHour, 8.0) == Repeat(FullCell, 10)
    ensures SleepBar(0, 8.0) == Repeat(EmptyCell, 10)
  {
    SleepBarCells(8 * MillisPerHour, 8.0);
    SleepBarCells(4 * MillisPerHour, 8.0);
    SleepBarCells(12 * MillisPerHour, 8.0);
    SleepBarCells(0, 8.0);
  }
}
