/** The backfill driver: splitting a date range into consecutive windows of
    at most `window_days` days, and the execution name and input built for
    each window, with the requested end date counted as inclusive. Starting
    the execution and printing are not part of this model. */
module Backfill {
  import opened Wrappers
  import opened Json
  import Calendar
  import Timezones

  /** One window as `iter_windows` yields it: its index and its bounds, in
      seconds since the epoch (UTC). */
  datatype Window = Window(index: nat, start: int, end: int)

  /** The length of a window of `days` days, in seconds. */
  function Span(days: int): int
  {
    days * Timezones.SecondsPerDay
  }

  /** `min(current + timedelta(days=window_days), end)`. */
  function NextEnd(current: int, windowDays: int, end: int): (r: int)
    ensures r <= end
    ensures r <= current + Span(windowDays)
    ensures r == end || r == current + Span(windowDays)
  {
    if current + Span(windowDays) < end then current + Span(windowDays) else end
  }

  /** The windows yielded from index `index` on, starting at `current`. */
  function WindowsFrom(index: nat, current: int, end: int, windowDays: int): seq<Window>
    requires windowDays > 0
    decreases end - current
  {
    if current >= end then []
    else
      var next := NextEnd(current, windowDays, end);
      [Window(index, current, next)] + WindowsFrom(index + 1, next, end, windowDays)
  }

  /** What `iter_windows(start, end, window_days)` yields. */
  function Windows(start: int, end: int, windowDays: int): seq<Window>
    requires windowDays > 0
  {
    WindowsFrom(0, start, end, windowDays)
  }

  /** The windows tile `[current, end)`: none when `current >= end`;
      otherwise consecutive indices from `index`, the first starting at
      `current`, each starting where the previous ended, each non-empty, no
      longer than the window and not past `end`, every one but the last
      exactly one window long, and the last ending at `end`. */
  lemma {:induction false} WindowsTile(index: nat, current: int, end: int, windowDays: int)
    requires windowDays > 0
    ensures var ws := WindowsFrom(index, current, end, windowDays);
      && (ws == [] <==> current >= end)
      && (forall k | 0 <= k < |ws| :: ws[k].index == index + k)
      && (ws != [] ==> ws[0].start == current && ws[|ws| - 1].end == end)
      && (forall k | 0 < k < |ws| :: ws[k].start == ws[k - 1].end)
      && (forall k | 0 <= k < |ws| ::
            ws[k].start < ws[k].end <= end && ws[k].end - ws[k].start <= Span(windowDays))
      && (forall k | 0 <= k < |ws| - 1 :: ws[k].end - ws[k].start == Span(windowDays))
    decreases end - current
  {
    if current < end {
      var next := NextEnd(current, windowDays, end);
      var rest := WindowsFrom(index + 1, next, end, windowDays);
      WindowsTile(index + 1, next, end, windowDays);
      var ws := WindowsFrom(index, current, end, windowDays);
      assert ws == [Window(index, current, next)] + rest;
      forall k | 0 < k < |ws| ensures ws[k] == rest[k - 1] { }
    }
  }

  /** With a window of zero days or fewer, the next window ends no later
      than the current one starts, so a loop that has started never reaches
      `end`: `iter_windows` only terminates for positive windows. */
  lemma NoProgressWithoutPositiveWindow(current: int, end: int, windowDays: int)
    requires windowDays <= 0 && current < end
    ensures NextEnd(current, windowDays, end) <= current < end
    ensures windowDays == 0 ==> NextEnd(current, windowDays, end) == current
  {
  }

  /** `iter_windows`: a loop advancing `current` to the end of each window
      and counting `idx`, collecting the yielded windows. */
  method IterWindows(start: int, end: int, windowDays: int) returns (ws: seq<Window>)
    requires windowDays > 0 || start >= end
    ensures start >= end ==> ws == []
    ensures windowDays > 0 ==> ws == Windows(start, end, windowDays)
  {
    ws := [];
    var idx := 0;
    var current := start;
    while current < end
      invariant windowDays > 0 || current >= end
      invariant idx == |ws|
      invariant windowDays > 0 ==>
        ws + WindowsFrom(idx, current, end, windowDays) == Windows(start, end, windowDays)
      invariant start >= end ==> ws == []
      decreases end - current
    {
      var next := NextEnd(current, windowDays, end);
      assert WindowsFrom(idx, current, end, windowDays)
        == [Window(idx, current, next)] + WindowsFrom(idx + 1, next, end, windowDays);
      ws := ws + [Window(idx, current, next)];
      idx := idx + 1;
      current := next;
    }
  }

  // ---------------------------------------------------------------------
  // main
  // ---------------------------------------------------------------------

  /** The execution started for one window; its name and JSON input are
      computed from the window. */
  datatype Execution = Execution(prefix: string, window: Window)
  {
    /** `prefix-YYYYMMDD-YYYYMMDD` from the window's start and end dates. */
    function Name(): string
    {
      prefix + "-" + Calendar.CompactDate(DateOf(window.start)) + "-"
        + Calendar.CompactDate(DateOf(window.end))
    }

    /** The input: the export type and the window's bounds. */
    function Input(): Value
    {
      Dict([
        ("export_type", Str("orders")),
        ("start_date", Str(IsoInstant(window.start))),
        ("end_date", Str(IsoInstant(window.end)))])
    }
  }

  /** The calendar date of an instant. */
  function DateOf(t: int): Calendar.Date
  {
    Calendar.CivilFromDays(t / Timezones.SecondsPerDay)
  }

  /** `t.isoformat()` of an aware UTC datetime with `+00:00` replaced by `Z`. */
  function IsoInstant(t: int): string
  {
    var s := t % Timezones.SecondsPerDay;
    Calendar.IsoDate(DateOf(t)) + "T" + Calendar.Pad(s / 3600, 2) + ":"
      + Calendar.Pad(s % 3600 / 60, 2) + ":" + Calendar.Pad(s % 60, 2) + "Z"
  }

  /** The input of an execution is a dict of exactly three keys: the export
      type "orders" and the window's start and end as ISO instants. */
  lemma ExecutionInput(e: Execution)
    ensures e.Input().Dict? && |e.Input().fields| == 3 && DistinctKeys(e.Input().fields)
    ensures Get(e.Input().fields, "export_type") == Some(Str("orders"))
    ensures Get(e.Input().fields, "start_date") == Some(Str(IsoInstant(e.window.start)))
    ensures Get(e.Input().fields, "end_date") == Some(Str(IsoInstant(e.window.end)))
  {
    var fields := e.Input().fields;
    assert KeyAt(fields, 0) == "export_type";
    assert KeyAt(fields, 1) == "start_date" && KeyAt(fields, 0) != "start_date";
    assert KeyAt(fields, 2) == "end_date" && KeyAt(fields, 0) != "end_date" && KeyAt(fields, 1) != "end_date";
  }

  /** The first instant of a day and the instant ending it: the start date
      at midnight, and midnight of the day after the end date, since the end
      date is inclusive. */
  function RangeStart(startDay: int): int { startDay * Timezones.SecondsPerDay }
  function RangeEnd(endDay: int): int { (endDay + 1) * Timezones.SecondsPerDay }

  /** The executions `main` starts, in order. */
  function Executions(prefix: string, startDay: int, endDay: int, windowDays: int): (r: seq<Execution>)
    requires windowDays > 0
    ensures var ws := Windows(RangeStart(startDay), RangeEnd(endDay), windowDays);
      |r| == |ws| && forall k | 0 <= k < |ws| :: r[k] == Execution(prefix, ws[k])
  {
    var ws := Windows(RangeStart(startDay), RangeEnd(endDay), windowDays);
    seq(|ws|, k requires 0 <= k < |ws| => Execution(prefix, ws[k]))
  }

  /** `main` after argument parsing: one execution per window of the
      inclusive date range. */
  method RunBackfill(prefix: string, startDay: int, endDay: int, windowDays: int)
    returns (started: seq<Execution>)
    requires windowDays > 0 || startDay > endDay
    ensures startDay > endDay ==> started == []
    ensures windowDays > 0 ==> started == Executions(prefix, startDay, endDay, windowDays)
  {
    var ws := IterWindows(RangeStart(startDay), RangeEnd(endDay), windowDays);
    started := [];
    var k := 0;
    while k < |ws|
      invariant 0 <= k <= |ws| && |started| == k
      invariant forall j | 0 <= j < k :: started[j] == Execution(prefix, ws[j])
    {
      started := started + [Execution(prefix, ws[k])];
      k := k + 1;
    }
  }

  /** The executions cover the requested dates with the end date included:
      there is at least one when start <= end, the first begins at midnight
      of the start date, the last ends at midnight after the end date, and
      consecutive windows meet. */
  lemma ExecutionsCoverRange(prefix: string, startDay: int, endDay: int, windowDays: int)
    requires windowDays > 0 && startDay <= endDay
    ensures var es := Executions(prefix, startDay, endDay, windowDays);
      && es != []
      && es[0].window.start == startDay * Timezones.SecondsPerDay
      && es[|es| - 1].window.end == (endDay + 1) * Timezones.SecondsPerDay
      && forall k | 0 < k < |es| :: es[k].window.start == es[k - 1].window.end
  {
    WindowsTile(0, RangeStart(startDay), RangeEnd(endDay), windowDays);
  }

  /** Backfilling the single date 2024-10-13 (day 20009) with the default
      seven-day window starts one execution, covering that whole day. */
  lemma SingleDayExample()
    ensures Executions("backfill", 20009, 20009, 7)
      == [Execution("backfill", Window(0, 20009 * 86400, 20010 * 86400))]
  {
    var w := Window(0, 20009 * 86400, 20010 * 86400);
    assert NextEnd(20009 * 86400, 7, 20010 * 86400) == 20010 * 86400;
    assert WindowsFrom(1, 20010 * 86400, 20010 * 86400, 7) == [];
    assert Windows(RangeStart(20009), RangeEnd(20009), 7) == [w];
  }

  /** Day 20010 is 2024-10-14. */
  lemma DayAfterExample()
    ensures DateOf(20010 * 86400) == Calendar.Date(2024, 10, 14)
  {
    assert 20010 * 86400 / Timezones.SecondsPerDay == 20010;
    assert 739478 / 146097 == 5;
    assert 8993 / 1460 == 6 && 8993 / 36524 == 0 && 8993 / 146096 == 0;
    assert 8987 / 365 == 24;
    assert 24 / 4 == 6 && 24 / 100 == 0;
    assert 1137 / 153 == 7 && 1073 / 5 == 214;
  }

  /** The execution of that single day is named after the start date and
      the following date, the exclusive end of its window. */
  lemma SingleDayName()
    ensures Execution("backfill", Window(0, 20009 * 86400, 20010 * 86400)).Name()
      == "backfill-20241013-20241014"
  {
    assert 20009 * 86400 / Timezones.SecondsPerDay == 20009;
    Calendar.ExampleDay();
    DayAfterExample();
    CompactExamples();
  }

  /** The compact dates of 2024-10-13 and 2024-10-14. */
  lemma CompactExamples()
    ensures Calendar.CompactDate(Calendar.Date(2024, 10, 13)) == "20241013"
    ensures Calendar.CompactDate(Calendar.Date(2024, 10, 14)) == "20241014"
  {
    Calendar.ExamplePads();
    assert Calendar.Digits(14) == "14";
    assert Calendar.Pad(14, 2) == "14";
  }
}
