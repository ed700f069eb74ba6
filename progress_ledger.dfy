/**
 * The dashboard's progress bookkeeping, stated on values: the stored progress
 * document and its commit rule (at most one commit per date, streak
 * increment-or-reset), the 30-day series, the month grid, and the
 * consistency and weekday-intensity figures derived from the series.
 *
 * Dates are day numbers; `date - 1` is the previous calendar day.
 */
module ProgressLedger {
  import opened Wrappers
  import RoutineCatalog

  /** The stored progress document `{days, streak, totalCompleted, level}`;
      `days` is an array used with set semantics (`includes`, `arrayUnion`). */
  datatype ProgressDoc = ProgressDoc(days: set<int>, streak: int, totalCompleted: int, level: string)

  /** The document written for a user who has none yet. */
  const EmptyDoc: ProgressDoc := ProgressDoc({}, 0, 0, "beginner")

  /** The update both completion paths apply to the stored document: nothing
      when `date` is already recorded; otherwise the date is added, the streak
      grows by one when the previous day is recorded and restarts at 1 when it
      is not, the total grows by one, and the current level is written. */
  function CommitDay(doc: ProgressDoc, date: int, level: string): ProgressDoc {
    if date in doc.days then doc
    else
      ProgressDoc(
        doc.days + {date},
        if date - 1 in doc.days then doc.streak + 1 else 1,
        doc.totalCompleted + 1,
        level)
  }

  /** Committing an already recorded date changes nothing, so a second commit is a no-op. */
  lemma CommitIsIdempotent(doc: ProgressDoc, date: int, level: string, level': string)
    ensures date in doc.days ==> CommitDay(doc, date, level) == doc
    ensures CommitDay(CommitDay(doc, date, level), date, level') == CommitDay(doc, date, level)
  {
  }

  /** On a new date the document records it, and one more completion. */
  lemma CommitNewDate(doc: ProgressDoc, date: int, level: string)
    requires date !in doc.days
    ensures var r := CommitDay(doc, date, level);
      && r.days == doc.days + {date} && |r.days| == |doc.days| + 1
      && r.totalCompleted == doc.totalCompleted + 1
      && r.streak == (if date - 1 in doc.days then doc.streak + 1 else 1)
      && r.level == level
  {
  }

  /** A document whose total counts its dates keeps that property. */
  lemma CommitKeepsTally(doc: ProgressDoc, date: int, level: string)
    requires doc.totalCompleted == |doc.days|
    ensures CommitDay(doc, date, level).totalCompleted == |CommitDay(doc, date, level).days|
  {
  }

  /** The number of consecutive recorded days ending at `d` (0 when `d` is not recorded). */
  function RunEndingAt(days: set<int>, d: int): nat
    decreases |days|
  {
    if d in days then 1 + RunEndingAt(days - {d}, d - 1) else 0
  }

  /** `RunEndingAt` counts exactly the unbroken run of days that ends at `d`. */
  lemma {:induction false} RunEndingAtMeaning(days: set<int>, d: int)
    ensures forall x :: d - RunEndingAt(days, d) < x <= d ==> x in days
    ensures d - RunEndingAt(days, d) !in days
    decreases |days|
  {
    if d in days {
      var rest := days - {d};
      RunEndingAtMeaning(rest, d - 1);
      var n := RunEndingAt(rest, d - 1);
      assert RunEndingAt(days, d) == 1 + n;
      assert (d - 1) - n !in rest;
      forall x | d - (1 + n) < x <= d ensures x in days {
        if x < d { assert x in rest; }
      }
    }
  }

  /** The stored streak is the run ending at the latest recorded day. */
  ghost predicate StreakIsCurrentRun(doc: ProgressDoc, latest: int) {
    && latest in doc.days
    && (forall d :: d in doc.days ==> d <= latest)
    && doc.streak == RunEndingAt(doc.days, latest)
  }

  /** Adding `date` just after a run puts the new date one further along it. */
  lemma RunAfterAdding(days: set<int>, date: int)
    requires date !in days
    ensures RunEndingAt(days + {date}, date) == 1 + RunEndingAt(days, date - 1)
  {
    assert (days + {date}) - {date} == days;
  }

  /** While dates are completed in calendar order, the increment-or-reset rule
      keeps the streak equal to the run ending at the latest date. */
  lemma InOrderCommitKeepsStreak(doc: ProgressDoc, latest: int, date: int, level: string)
    requires StreakIsCurrentRun(doc, latest)
    requires date > latest
    ensures StreakIsCurrentRun(CommitDay(doc, date, level), date)
  {
    RunAfterAdding(doc.days, date);
    if date - 1 !in doc.days {
      assert RunEndingAt(doc.days, date - 1) == 0;
    }
  }

  /** The first commit of a fresh document starts a streak of one. */
  lemma FirstCommitStartsStreak(date: int, level: string)
    ensures StreakIsCurrentRun(CommitDay(EmptyDoc, date, level), date)
    ensures CommitDay(EmptyDoc, date, level).totalCompleted == 1
  {
    RunAfterAdding({}, date);
  }

  /** Completing an earlier day (a backfill) does not recount the run that ends
      at the latest day: with days 2 and 3 recorded and a streak of 2,
      completing day 1 stores a streak of 1, while days 1..3 now form a run of 3. */
  lemma BackfillKeepsRuleNotRun()
    ensures var r := CommitDay(ProgressDoc({2, 3}, 2, 2, "beginner"), 1, "beginner");
      r.streak == 1 && r.days == {1, 2, 3} && RunEndingAt(r.days, 3) == 3
  {
    var days: set<int> := {1, 2, 3};
    assert days - {3} == {1, 2};
    assert {1, 2} - {2} == {1};
    assert {1} - {1} == {};
    assert RunEndingAt({}, 0) == 0;
  }

  /** One point of the 30-day chart. */
  datatype DayEntry = DayEntry(date: int, completed: int)

  /** The chart point for `date`: 1 when the date is recorded, 0 otherwise. */
  function EntryFor(days: set<int>, date: int): DayEntry {
    DayEntry(date, if date in days then 1 else 0)
  }

  /** The 30 chart points from `today - 29` to `today`. */
  function Last30(days: set<int>, today: int): (r: seq<DayEntry>)
    ensures |r| == 30 && forall k :: 0 <= k < 30 ==> r[k] == EntryFor(days, today - 29 + k)
  {
    seq(30, k => EntryFor(days, today - 29 + k))
  }

  /** `generateLast30DaysData`: 30 entries, ascending by one day, ending today,
      each marked 1 exactly when its date is recorded. */
  method GenerateLast30DaysData(completedDays: set<int>, today: int) returns (data: seq<DayEntry>)
    ensures |data| == 30
    ensures forall k :: 0 <= k < 30 ==> data[k].date == today - 29 + k
    ensures forall k :: 0 <= k < 30 ==>
      (data[k].completed == 1 <==> data[k].date in completedDays) && 0 <= data[k].completed <= 1
    ensures data[29].date == today
    ensures data == Last30(completedDays, today)
  {
    data := [];
    var i := 29;
    while i >= 0
      invariant -1 <= i <= 29
      invariant |data| == 29 - i
      invariant forall k :: 0 <= k < |data| ==> data[k] == EntryFor(completedDays, today - 29 + k)
    {
      var date := today - i;
      data := data + [DayEntry(date, if date in completedDays then 1 else 0)];
      i := i - 1;
    }
  }

  /** Dates strictly increase along the sequence. */
  ghost predicate Ascending(series: seq<DayEntry>) {
    forall i, j :: 0 <= i < j < |series| ==> series[i].date < series[j].date
  }

  lemma Last30Ascending(days: set<int>, today: int)
    ensures Ascending(Last30(days, today))
  {
    var s := Last30(days, today);
    forall i, j | 0 <= i < j < |s| ensures s[i].date < s[j].date {
      assert s[i].date == today - 29 + i && s[j].date == today - 29 + j;
    }
  }

  /** `findIndex` on the date, then `completed = 1` on that entry when found. */
  function MarkCompleted(series: seq<DayEntry>, date: int): (r: seq<DayEntry>)
    ensures |r| == |series|
  {
    if series == [] then []
    else if series[0].date == date then [series[0].(completed := 1)] + series[1..]
    else [series[0]] + MarkCompleted(series[1..], date)
  }

  /** On ascending dates, marking changes the one entry with that date and no other. */
  lemma {:induction false} MarkCompletedAt(series: seq<DayEntry>, date: int, k: int)
    requires Ascending(series)
    requires 0 <= k < |series|
    ensures MarkCompleted(series, date)[k] ==
      if series[k].date == date then series[k].(completed := 1) else series[k]
  {
    if k > 0 {
      if series[0].date == date {
        assert series[0].date < series[k].date;
      } else {
        MarkCompletedAt(series[1..], date, k - 1);
      }
    }
  }

  /** Marking the chart in place gives the chart of the enlarged set of days. */
  lemma MarkKeepsSeriesInSync(days: set<int>, today: int, date: int)
    ensures MarkCompleted(Last30(days, today), date) == Last30(days + {date}, today)
  {
    var s := Last30(days, today);
    Last30Ascending(days, today);
    forall k | 0 <= k < 30 ensures MarkCompleted(s, date)[k] == Last30(days + {date}, today)[k] {
      MarkCompletedAt(s, date, k);
    }
  }

  /** `series.find(d => d.date === date)` */
  function FindByDate(series: seq<DayEntry>, date: int): (r: Option<DayEntry>)
    ensures r.Some? ==> r.value in series && r.value.date == date
    ensures r.None? <==> forall k :: 0 <= k < |series| ==> series[k].date != date
  {
    if series == [] then None
    else if series[0].date == date then Some(series[0])
    else FindByDate(series[1..], date)
  }

  /** The 30-day chart holds an entry for `date` exactly inside its window. */
  lemma FindInLast30(days: set<int>, today: int, date: int)
    ensures FindByDate(Last30(days, today), date) ==
      if today - 29 <= date <= today then Some(EntryFor(days, date)) else None
  {
    var s := Last30(days, today);
    Last30Ascending(days, today);
    if today - 29 <= date <= today {
      FindAscending(s, date, date - (today - 29));
    }
  }

  lemma {:induction false} FindAscending(series: seq<DayEntry>, date: int, k: int)
    requires Ascending(series)
    requires 0 <= k < |series| && series[k].date == date
    ensures FindByDate(series, date) == Some(series[k])
  {
    if k > 0 {
      FindAscending(series[1..], date, k - 1);
    }
  }

  /** A calendar cell: padding before the first, or a day of the month. */
  datatype Cell = Blank | DayCell(day: int, date: int, completed: bool)

  /** `dayData ? dayData.completed === 1 : false` */
  function CellCompleted(series: seq<DayEntry>, date: int): (b: bool)
    ensures b ==> exists j :: 0 <= j < |series| && series[j].date == date && series[j].completed == 1
  {
    match FindByDate(series, date)
    case Some(e) => e.completed == 1
    case None => false
  }

  /** The month grid: as many blanks as the weekday of the 1st, then days 1..daysInMonth. */
  function CalendarGrid(series: seq<DayEntry>, monthStart: int, daysInMonth: nat): seq<Cell> {
    seq(RoutineCatalog.DayOfWeek(monthStart), _ => Blank)
    + seq(daysInMonth, k => DayCell(k + 1, monthStart + k, CellCompleted(series, monthStart + k)))
  }

  /** The body of the calendar effect: two loops pushing cells. `monthStart` is
      the day number of the 1st of the shown month. */
  method BuildCalendar(series: seq<DayEntry>, monthStart: int, daysInMonth: nat) returns (cells: seq<Cell>)
    ensures |cells| == RoutineCatalog.DayOfWeek(monthStart) + daysInMonth
    ensures forall k :: 0 <= k < RoutineCatalog.DayOfWeek(monthStart) ==> cells[k] == Blank
    ensures forall j :: RoutineCatalog.DayOfWeek(monthStart) <= j < |cells| ==>
      var date := monthStart + j - RoutineCatalog.DayOfWeek(monthStart);
      cells[j] == DayCell(j - RoutineCatalog.DayOfWeek(monthStart) + 1, date, CellCompleted(series, date))
    ensures forall k :: 0 <= k < |cells| && cells[k].DayCell? && cells[k].completed ==>
      exists j :: 0 <= j < |series| && series[j].date == cells[k].date && series[j].completed == 1
    ensures cells == CalendarGrid(series, monthStart, daysInMonth)
  {
    var firstDayOfMonth := RoutineCatalog.DayOfWeek(monthStart);
    cells := [];
    var i := 0;
    while i < firstDayOfMonth
      invariant 0 <= i <= firstDayOfMonth
      invariant cells == seq(i, _ => Blank)
    {
      cells := cells + [Blank];
      i := i + 1;
    }
    var day := 1;
    while day <= daysInMonth
      invariant 1 <= day <= daysInMonth + 1
      invariant |cells| == firstDayOfMonth + day - 1
      invariant cells[..firstDayOfMonth] == seq(firstDayOfMonth, _ => Blank)
      invariant forall j :: firstDayOfMonth <= j < |cells| ==>
        cells[j] == DayCell(j - firstDayOfMonth + 1, monthStart + j - firstDayOfMonth, CellCompleted(series, monthStart + j - firstDayOfMonth))
    {
      var date := monthStart + day - 1;
      cells := cells + [DayCell(day, date, CellCompleted(series, date))];
      day := day + 1;
    }
  }

  /** Over the 30-day chart, a day of the grid is shown completed exactly when it
      is recorded and lies in the chart's window. */
  lemma GridShowsRecentDays(days: set<int>, today: int, monthStart: int, daysInMonth: nat, d: int)
    requires 1 <= d <= daysInMonth
    ensures var g := CalendarGrid(Last30(days, today), monthStart, daysInMonth);
      var date := monthStart + d - 1;
      g[RoutineCatalog.DayOfWeek(monthStart) + d - 1].completed <==> date in days && today - 29 <= date <= today
  {
    var g := CalendarGrid(Last30(days, today), monthStart, daysInMonth);
    var date := monthStart + d - 1;
    assert g[RoutineCatalog.DayOfWeek(monthStart) + d - 1] == DayCell(d, date, CellCompleted(Last30(days, today), date));
    FindInLast30(days, today, date);
  }

  /** The number of chart points marked 1. */
  function CountCompleted(series: seq<DayEntry>): (n: nat)
    ensures n <= |series|
  {
    if series == [] then 0
    else (if series[0].completed == 1 then 1 else 0) + CountCompleted(series[1..])
  }

  /** `Math.round(completed / length * 100)`; `None` stands for the `NaN` an empty chart gives. */
  function Consistency(series: seq<DayEntry>): (r: Option<int>)
    ensures r.None? <==> series == []
    ensures r.Some? ==> 0 <= r.value <= 100
    ensures r.Some? ==>
      2 * |series| * r.value - |series| <= 200 * CountCompleted(series) < 2 * |series| * r.value + |series|
  {
    if series == [] then None
    else
      var n, c := |series|, CountCompleted(series);
      RoundHalfUp(c, n);
      Some((200 * c + n) / (2 * n))
  }

  /** `(200c + n) div 2n` is `100c / n` rounded half up, and lies in 0..100. */
  lemma RoundHalfUp(c: nat, n: nat)
    requires 0 < n && c <= n
    ensures var q := (200 * c + n) / (2 * n);
      0 <= q <= 100 && 2 * n * q - n <= 200 * c < 2 * n * q + n
  {
    var q := (200 * c + n) / (2 * n);
    RoundingBounds(200 * c + n, 2 * n, q);
    assert 2 * n * q == q * (2 * n);
    if q > 100 {
      MulMono(101, q, 2 * n);
      assert false;
    }
  }

  lemma MulMono(a: int, b: int, m: int)
    requires a <= b && m >= 0
    ensures a * m <= b * m
  {
  }

  lemma RoundingBounds(x: int, m: int, q: int)
    requires m > 0 && x >= 0 && q == x / m
    ensures q * m <= x < q * m + m
  {
  }

  /** The number of completed chart points that fall on weekday `w`. */
  function WeekdayCount(series: seq<DayEntry>, w: RoutineCatalog.Weekday): (n: nat)
    ensures n <= CountCompleted(series)
  {
    if series == [] then 0
    else
      (if RoutineCatalog.DayOfWeek(series[0].date) == w && series[0].completed == 1 then 1 else 0)
      + WeekdayCount(series[1..], w)
  }

  /** `Math.max` over the seven weekday counts. */
  function MaxWeekdayCount(series: seq<DayEntry>): (m: nat)
    ensures forall w: RoutineCatalog.Weekday :: WeekdayCount(series, w) <= m
    ensures exists w: RoutineCatalog.Weekday :: WeekdayCount(series, w) == m
  {
    var c0, c1, c2, c3 := WeekdayCount(series, 0), WeekdayCount(series, 1), WeekdayCount(series, 2), WeekdayCount(series, 3);
    var c4, c5, c6 := WeekdayCount(series, 4), WeekdayCount(series, 5), WeekdayCount(series, 6);
    Max(Max(Max(c0, c1), Max(c2, c3)), Max(Max(c4, c5), c6))
  }

  function Max(a: nat, b: nat): nat {
    if a < b then b else a
  }

  /** The 0..4 shade of weekday `w`: 0 when no weekday has a completion,
      otherwise `ceil(4 * count / max)`. */
  function Intensity(series: seq<DayEntry>, w: RoutineCatalog.Weekday): (r: int)
    ensures 0 <= r <= 4
    ensures r == 0 <==> WeekdayCount(series, w) == 0
    ensures WeekdayCount(series, w) == MaxWeekdayCount(series) > 0 ==> r == 4
    ensures MaxWeekdayCount(series) > 0 ==>
      (r - 1) * MaxWeekdayCount(series) < 4 * WeekdayCount(series, w) <= r * MaxWeekdayCount(series)
  {
    var m := MaxWeekdayCount(series);
    if m == 0 then 0
    else
      var c := WeekdayCount(series, w);
      var r := (4 * c + m - 1) / m;
      RoundingBounds(4 * c + m - 1, m, r);
      CeilingBounds(c, m, r);
      r
  }

  lemma CeilingBounds(c: nat, m: nat, r: int)
    requires 0 < m && c <= m
    requires r * m <= 4 * c + m - 1 < r * m + m
    ensures (r - 1) * m < 4 * c <= r * m
    ensures 0 <= r <= 4 && (r == 0 <==> c == 0) && (c == m ==> r == 4)
  {
  }

  /** The completion goal shown beside the level: 20, 40, and 60 for every
      other level name, including ones the routine lookup treats as beginner. */
  function LevelTarget(level: string): (t: nat)
    ensures t == 20 || t == 40 || t == 60
    ensures t == 20 <==> level == "beginner"
    ensures t == 40 <==> level == "intermediate"
  {
    if level == "beginner" then 20 else if level == "intermediate" then 40 else 60
  }
}
