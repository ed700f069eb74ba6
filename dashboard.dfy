/**
 * The dashboard's state and the operations that change it: loading the stored
 * progress document, ticking routine steps, committing a completed day (from
 * the routine or from a calendar cell), changing level, day or month.
 *
 * The stored document is the field `doc`; each commit reads it, applies
 * `ProgressLedger.CommitDay` and writes it back. `today` is fixed for the
 * lifetime of the page, as the page computes it once.
 */
module Dashboard {
  import opened Wrappers
  import RoutineCatalog
  import opened ProgressLedger

  /** `completed[i]` is truthy: the key is present and holds `true`. */
  predicate Ticked(completed: map<int, bool>, i: int) {
    i in completed && completed[i]
  }

  /** `routine.every((_, idx) => completed[idx])` for a routine of `n` steps. */
  predicate AllDone(completed: map<int, bool>, n: nat) {
    forall idx :: 0 <= idx < n ==> Ticked(completed, idx)
  }

  /** The indices of a routine of `n` steps. */
  function Indices(n: nat): (s: set<int>)
    ensures forall i :: i in s <==> 0 <= i < n
    ensures |s| == n
  {
    if n == 0 then {} else Indices(n - 1) + {n - 1}
  }

  /** The map the load step builds: keys `0..n-1`, all `true`. */
  function AllTicked(n: nat): (m: map<int, bool>)
    ensures AllDone(m, n)
    ensures m.Keys == Indices(n)
  {
    map i | i in Indices(n) :: true
  }

  /** The congratulation banner: `Object.keys(completed).length === routine.length`
      and every step ticked. */
  predicate BannerShown(completed: map<int, bool>, n: nat) {
    |completed.Keys| == n && AllDone(completed, n)
  }

  /** The banner shows exactly when the ticked steps are precisely the routine's
      indices, each holding `true`. */
  lemma BannerShownIff(completed: map<int, bool>, n: nat)
    ensures BannerShown(completed, n) <==>
      completed.Keys == Indices(n) && forall i :: i in completed ==> completed[i]
  {
    if BannerShown(completed, n) {
      forall i | i in Indices(n) ensures i in completed.Keys {
        assert Ticked(completed, i);
      }
      SubsetOfSameSize(Indices(n), completed.Keys);
      forall i | i in completed ensures completed[i] {
        assert Ticked(completed, i);
      }
    }
  }

  lemma SubsetOfSameSize(a: set<int>, b: set<int>)
    requires a <= b && |a| == |b|
    ensures a == b
  {
    assert b == a + (b - a);
    assert |b - a| == 0;
  }

  /** The tick map the load step builds, AS WRITTEN: the load callback was
      created during the first render, when the level was still "beginner",
      so it ticks as many steps as today's beginner routine has. */
  function LoadedTicksAsWritten(today: int): map<int, bool> {
    AllTicked(|RoutineCatalog.GetDailyRoutine("beginner", today).exercises|)
  }

  /** The tick map the load step is meant to build: every step of today's
      routine at the loaded level. */
  function LoadedTicks(level: string, today: int): (m: map<int, bool>)
    ensures BannerShown(m, |RoutineCatalog.GetDailyRoutine(level, today).exercises|)
  {
    AllTicked(|RoutineCatalog.GetDailyRoutine(level, today).exercises|)
  }

  /** Counterexample to the as-written load step: an advanced user who already
      completed Monday 5 January 1970 (day 4) reloads the page and finds only
      four of the six steps ticked, and no banner. */
  lemma StaleLoadLeavesStepsUnticked()
    ensures var n := |RoutineCatalog.GetDailyRoutine("advanced", 4).exercises|;
      n == 6 && !AllDone(LoadedTicksAsWritten(4), n) && !BannerShown(LoadedTicksAsWritten(4), n)
  {
    var m := LoadedTicksAsWritten(4);
    assert m.Keys == Indices(4);
    assert 4 !in m;
    assert !Ticked(m, 4);
  }

  class Dashboard {
    const today: int
    /** The stored progress document of the signed-in user. */
    var doc: ProgressDoc
    var level: string
    var selectedDay: int
    /** The per-step checkboxes of the routine shown. */
    var completed: map<int, bool>
    var streak: int
    var totalCompleted: int
    /** The 30-day chart. */
    var progressData: seq<DayEntry>
    /** The shown month: day number of its 1st and its length. */
    var monthStart: int
    var daysInMonth: nat
    var calendarDays: seq<Cell>

    /** `getDailyRoutine(level, selectedDay).exercises` */
    function Routine(): seq<string>
      reads this
    {
      RoutineCatalog.GetDailyRoutine(level, selectedDay).exercises
    }

    /** The counters shown mirror the stored document, the chart is either not
        built yet or the 30-day view of the stored days, and the month grid is
        built from the chart whenever there is one. */
    ghost predicate Valid()
      reads this
    {
      && streak == doc.streak
      && totalCompleted == doc.totalCompleted
      && (progressData == [] || progressData == Last30(doc.days, today))
      && (progressData != [] ==> calendarDays == CalendarGrid(progressData, monthStart, daysInMonth))
    }

    /** The page's initial state followed by the sign-in callback: a missing
        document is created empty and nothing else is loaded; an existing one
        supplies the level, streak and total when they are truthy, ticks every
        step of today's routine at the loaded level when today is recorded (the
        corrected load step `LoadedTicks`; the page as written ticks
        `LoadedTicksAsWritten`), and builds the chart. */
    constructor (today: int, stored: Option<ProgressDoc>, monthStart: int, daysInMonth: nat)
      ensures Valid()
      ensures this.today == today && selectedDay == today
      ensures this.monthStart == monthStart && this.daysInMonth == daysInMonth
      ensures stored.None? ==>
        doc == EmptyDoc && level == "beginner" && completed == map[] && progressData == []
      ensures stored.Some? ==>
        && doc == stored.value
        && level == (if stored.value.level != "" then stored.value.level else "beginner")
        && completed == (if today in stored.value.days then LoadedTicks(level, today) else map[])
        && progressData == Last30(stored.value.days, today)
      ensures stored.Some? && today in stored.value.days ==> BannerShown(completed, |Routine()|)
    {
      this.today := today;
      this.monthStart := monthStart;
      this.daysInMonth := daysInMonth;
      selectedDay := today;
      if stored.None? {
        doc := EmptyDoc;
        level := "beginner";
        completed := map[];
        streak := 0;
        totalCompleted := 0;
        progressData := [];
        calendarDays := [];
      } else {
        var userData := stored.value;
        var lvl := if userData.level != "" then userData.level else "beginner";
        doc := userData;
        level := lvl;
        streak := if userData.streak != 0 then userData.streak else 0;
        totalCompleted := if userData.totalCompleted != 0 then userData.totalCompleted else 0;
        completed := if today in userData.days then LoadedTicks(lvl, today) else map[];
        var series := GenerateLast30DaysData(userData.days, today);
        var grid := BuildCalendar(series, monthStart, daysInMonth);
        progressData := series;
        calendarDays := grid;
      }
    }

    /** The calendar effect: rebuild the month grid unless there is no chart yet. */
    method RefreshCalendar()
      modifies this`calendarDays
      ensures progressData == [] ==> calendarDays == old(calendarDays)
      ensures progressData != [] ==> calendarDays == CalendarGrid(progressData, monthStart, daysInMonth)
    {
      if |progressData| == 0 { return; }
      calendarDays := BuildCalendar(progressData, monthStart, daysInMonth);
    }

    /** The commit both completion paths perform for `date`: read the stored
        document, and unless `date` is recorded already, write the new streak,
        total, date and level, mirror streak and total locally, and mark the
        chart point of `date`. */
    method CommitDate(date: int)
      requires Valid()
      modifies this`doc, this`streak, this`totalCompleted, this`progressData, this`calendarDays
      ensures Valid()
      ensures doc == CommitDay(old(doc), date, level)
      ensures date in old(doc.days) ==> progressData == old(progressData) && calendarDays == old(calendarDays)
      ensures old(progressData) == [] ==> progressData == [] && calendarDays == old(calendarDays)
      ensures old(progressData) != [] ==> progressData == Last30(doc.days, today)
      ensures level == old(level) && selectedDay == old(selectedDay) && completed == old(completed)
      ensures monthStart == old(monthStart) && daysInMonth == old(daysInMonth)
    {
      var userData := doc;
      if date !in userData.days {
        var newStreak := 1;
        if date - 1 in userData.days {
          newStreak := userData.streak + 1;
        }
        doc := ProgressDoc(userData.days + {date}, newStreak, userData.totalCompleted + 1, level);
        streak := newStreak;
        totalCompleted := totalCompleted + 1;
        if progressData != [] {
          MarkKeepsSeriesInSync(userData.days, today, date);
        }
        progressData := MarkCompleted(progressData, date);
        RefreshCalendar();
      }
    }

    /** `toggleComplete(i)`: flip checkbox `i`; once every step of the shown
        routine is ticked, commit TODAY, whichever day is shown. */
    method ToggleComplete(i: int)
      requires Valid()
      modifies this`completed, this`doc, this`streak, this`totalCompleted, this`progressData, this`calendarDays
      ensures Valid()
      ensures completed == old(completed)[i := !Ticked(old(completed), i)]
      ensures forall j :: j != i ==> (Ticked(completed, j) <==> Ticked(old(completed), j))
      ensures level == old(level) && selectedDay == old(selectedDay)
      ensures monthStart == old(monthStart) && daysInMonth == old(daysInMonth)
      ensures AllDone(completed, |Routine()|) ==> doc == CommitDay(old(doc), today, level)
      ensures AllDone(completed, |Routine()|) && old(progressData) != [] ==>
        progressData == Last30(doc.days, today)
      ensures old(progressData) == [] ==> progressData == [] && calendarDays == old(calendarDays)
      ensures !AllDone(completed, |Routine()|) ==>
        doc == old(doc) && progressData == old(progressData) && calendarDays == old(calendarDays)
        && streak == old(streak) && totalCompleted == old(totalCompleted)
    {
      completed := completed[i := !Ticked(completed, i)];
      if AllDone(completed, |Routine()|) {
        CommitDate(today);
      }
    }

    /** `markDayComplete(date)`: a calendar cell commits its own date. */
    method MarkDayComplete(date: int)
      requires Valid()
      modifies this`doc, this`streak, this`totalCompleted, this`progressData, this`calendarDays
      ensures Valid()
      ensures doc == CommitDay(old(doc), date, level)
      ensures old(progressData) == [] ==> progressData == [] && calendarDays == old(calendarDays)
      ensures old(progressData) != [] ==> progressData == Last30(doc.days, today)
      ensures completed == old(completed) && level == old(level) && selectedDay == old(selectedDay)
      ensures monthStart == old(monthStart) && daysInMonth == old(daysInMonth)
    {
      CommitDate(date);
    }

    /** `handleLevelChange`: new level, all checkboxes cleared, level stored. */
    method ChangeLevel(newLevel: string)
      requires Valid()
      modifies this`level, this`completed, this`doc
      ensures Valid()
      ensures level == newLevel && completed == map[]
      ensures doc == old(doc).(level := newLevel)
      ensures selectedDay == old(selectedDay) && streak == old(streak) && totalCompleted == old(totalCompleted)
      ensures progressData == old(progressData) && calendarDays == old(calendarDays)
      ensures monthStart == old(monthStart) && daysInMonth == old(daysInMonth)
      ensures !AllDone(completed, |Routine()|)
    {
      level := newLevel;
      completed := map[];
      doc := doc.(level := newLevel);
      assert !Ticked(completed, 0);
    }

    /** `handleDayChange`: show another day's routine with all checkboxes cleared. */
    method ChangeDay(date: int)
      requires Valid()
      modifies this`selectedDay, this`completed
      ensures Valid()
      ensures selectedDay == date && completed == map[]
      ensures level == old(level) && doc == old(doc) && streak == old(streak) && totalCompleted == old(totalCompleted)
      ensures progressData == old(progressData) && calendarDays == old(calendarDays)
      ensures monthStart == old(monthStart) && daysInMonth == old(daysInMonth)
      ensures !AllDone(completed, |Routine()|)
    {
      selectedDay := date;
      completed := map[];
      assert !Ticked(completed, 0);
    }

    /** `handleMonthChange` followed by the calendar effect. */
    method ChangeMonth(newMonthStart: int, newDaysInMonth: nat)
      requires Valid()
      modifies this`monthStart, this`daysInMonth, this`calendarDays
      ensures Valid()
      ensures monthStart == newMonthStart && daysInMonth == newDaysInMonth
      ensures progressData != [] ==> calendarDays == CalendarGrid(progressData, newMonthStart, newDaysInMonth)
      ensures progressData == [] ==> calendarDays == old(calendarDays)
      ensures doc == old(doc) && progressData == old(progressData) && completed == old(completed)
      ensures level == old(level) && selectedDay == old(selectedDay)
      ensures streak == old(streak) && totalCompleted == old(totalCompleted)
    {
      monthStart := newMonthStart;
      daysInMonth := newDaysInMonth;
      RefreshCalendar();
    }
  }
}
