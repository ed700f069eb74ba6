/**
 * The weekly routine catalogue: a constant table giving, for every weekday,
 * its name, focus, description and one list of steps per skill level, and the
 * lookup that picks today's routine from a date and a level.
 *
 * Dates are day numbers (day 0 is Thursday 1 January 1970); only their
 * weekday is read.
 */
module RoutineCatalog {

  /** 0 = Sunday .. 6 = Saturday, as `Date.prototype.getDay` counts. */
  type Weekday = d: int | 0 <= d < 7

  datatype WeekdayPlan = WeekdayPlan(
    name: string,
    focus: string,
    description: string,
    beginner: seq<string>,
    intermediate: seq<string>,
    advanced: seq<string>)

  /** What `getDailyRoutine` returns. */
  datatype DailyRoutine = DailyRoutine(
    dayName: string,
    focus: string,
    description: string,
    exercises: seq<string>)

  const DayNames: seq<string> :=
    ["Sunday", "Monday", "Tuesday", "Wednesday", "Thursday", "Friday", "Saturday"]

  /** The three level names the catalogue knows. */
  predicate IsKnownLevel(level: string) {
    level == "beginner" || level == "intermediate" || level == "advanced"
  }

  /** `WEEKLY_PLAN`, indexed by weekday. */
  const WeeklyPlan: seq<WeekdayPlan> := [
      // 0: Sunday
      WeekdayPlan(
        "Sunday", "Rest or Light Yoga", "Let body recover fully",
        beginner := [
          "🧘‍♂️ 5 min Simple Stretching",
          "💆 Self-massage for Tension Release",
          "🌬️ 2 min Deep Breathing"
        ],
        intermediate := [
          "🧘‍♂️ 10 min Gentle Yoga Flow",
          "💆 Progressive Muscle Relaxation",
          "🌬️ 5 min Mindfulness Breathing",
          "🔄 Light Joint Mobility Work"
        ],
        advanced := [
          "🧘‍♂️ 15 min Restorative Yoga",
          "💆 Full Body Self-massage Routine",
          "🌬️ 10 min Meditation Practice",
          "🔄 Dynamic Stretching Sequence",
          "🧠 Body Scan Meditation"
        ]),
      // 1: Monday
      WeekdayPlan(
        "Monday", "Full Routine", "Core + Kegels heavy",
        beginner := [
          "🟢 10 Kegel Squeezes (5 sec hold)",
          "💪 10 Glute Bridges",
          "🧠 Core Engagement Practice (30 sec)",
          "💨 3 Rounds Box Breathing (4-4-4-4)"
        ],
        intermediate := [
          "🟢 20 Kegels (mix of quick and 5-10 sec holds)",
          "💪 15 Glute Bridges with 5 sec hold",
          "🧠 Core Activation Sequence (60 sec)",
          "💨 5 Rounds of Deep Diaphragmatic Breathing",
          "🪑 3 sets of Pelvic Tilts (10 reps)"
        ],
        advanced := [
          "🟢 3 sets of 15 Kegels (10 sec hold)",
          "💪 20 Glute Bridges with leg extensions",
          "🧠 Comprehensive Core Circuit (90 sec)",
          "💨 10 min Alternate Nostril Breathing",
          "🪑 4 sets of Pelvic Floor Elevations",
          "⚡️ Advanced Tension/Release Practice"
        ]),
      // 2: Tuesday
      WeekdayPlan(
        "Tuesday", "Cardio + Light Core", "20 min brisk walk + Kegels",
        beginner := [
          "🚶 15 min Walk (moderately paced)",
          "🟢 5 Kegel Squeezes during walk",
          "💨 3 min Deep Breathing post-walk",
          "🧠 Light Core Activation (5 reps)"
        ],
        intermediate := [
          "🚶 20 min Brisk Walk with Interval Speed-ups",
          "🟢 10 Kegel Sets during walk (5 sec each)",
          "💨 5 min Controlled Breathing Recovery",
          "🧠 Standing Core Exercises (2 sets of 10 reps)",
          "🔄 5 min Cool Down Stretches"
        ],
        advanced := [
          "🚶 25 min Power Walk or Light Jog with Intervals",
          "🟢 15 Kegel Sequences during cardio (varying intensity)",
          "💨 7 min Respiratory Control Practice",
          "🧠 Dynamic Core Series (3 sets of 12 reps)",
          "🔄 10 min Comprehensive Cooldown",
          "⚡️ Tension Recognition & Release Exercise"
        ]),
      // 3: Wednesday
      WeekdayPlan(
        "Wednesday", "Strength Focus", "Glutes + Upper Body",
        beginner := [
          "💪 10 Bodyweight Squats",
          "🏋️ 5 Wall Push-ups",
          "🟢 5 Kegels with Glute Engagement",
          "🪑 Hip Hinges (5 reps)"
        ],
        intermediate := [
          "💪 15 Bodyweight Squats with Pause",
          "🏋️ 10 Incline Push-ups",
          "🟢 10 Kegels with Glute Squeeze Combination",
          "🪑 Hip Bridges with Single Leg Extension (8 each side)",
          "🧠 Core Bracing Practice (30 sec)"
        ],
        advanced := [
          "💪 20 Squat Variations (standard, pulsing, wide stance)",
          "🏋️ 15 Standard Push-ups or Variations",
          "🟢 Advanced Kegel Circuit with Movement Integration",
          "🪑 Single-leg Deadlift Movements (12 each side)",
          "🧠 Full Core Engagement with Extremity Movement",
          "⚡️ Standing Hip Stability Work"
        ]),
      // 4: Thursday
      WeekdayPlan(
        "Thursday", "Yoga + Stretch + Kegels", "Full body release",
        beginner := [
          "🧘‍♂️ Simple Standing Flow (5 min)",
          "🟢 5 Kegels in Yogic Postures",
          "🌬️ Mindful Breathing with Movement",
          "💆 Gentle Hip Openers"
        ],
        intermediate := [
          "🧘‍♂️ 15 min Yoga Flow with Focus on Hips",
          "🟢 10 Kegels Integrated into Various Poses",
          "🌬️ Breath-synchronized Movement Practice",
          "💆 Deep Hip and Lower Back Release Sequence",
          "🧠 Body Awareness Meditation (3 min)"
        ],
        advanced := [
          "🧘‍♂️ 25 min Comprehensive Yoga Sequence",
          "🟢 Advanced Pelvic Floor Work in Multiple Positions",
          "🌬️ Full Pranayama Practice",
          "💆 Targeted Fascia Release for Hips and Pelvic Region",
          "🧠 Moving Meditation with Pelvic Awareness",
          "⚡️ Advanced Balance Poses with Pelvic Floor Engagement"
        ]),
      // 5: Friday
      WeekdayPlan(
        "Friday", "Full Routine", "Repeat Monday",
        beginner := [
          "🟢 10 Kegel Squeezes (5 sec hold)",
          "💪 10 Glute Bridges",
          "🧠 Core Engagement Practice (30 sec)",
          "💨 3 Rounds Box Breathing (4-4-4-4)"
        ],
        intermediate := [
          "🟢 20 Kegels (mix of quick and 5-10 sec holds)",
          "💪 15 Glute Bridges with 5 sec hold",
          "🧠 Core Activation Sequence (60 sec)",
          "💨 5 Rounds of Deep Diaphragmatic Breathing",
          "🪑 3 sets of Pelvic Tilts (10 reps)"
        ],
        advanced := [
          "🟢 3 sets of 15 Kegels (10 sec hold)",
          "💪 20 Glute Bridges with leg extensions",
          "🧠 Comprehensive Core Circuit (90 sec)",
          "💨 10 min Alternate Nostril Breathing",
          "🪑 4 sets of Pelvic Floor Elevations",
          "⚡️ Advanced Tension/Release Practice"
        ]),
      // 6: Saturday
      WeekdayPlan(
        "Saturday", "Core + Mind", "Add breathwork, go slow",
        beginner := [
          "🧠 Core Activation (3 sets of 5)",
          "🟢 Slow Kegels with Breath (5 reps)",
          "🌬️ 5 min Mindful Breathing",
          "💆 Progressive Relaxation"
        ],
        intermediate := [
          "🧠 Complete Core Series (3 sets of 10)",
          "🟢 Kegel Variations with Visualization (10 reps)",
          "🌬️ 8 min Breath Control Practice",
          "💆 Body Scanning Meditation",
          "💪 Slow-motion Movement with Awareness"
        ],
        advanced := [
          "🧠 Advanced Core Integration (4 sets of 12)",
          "🟢 Full Pelvic Floor Control Sequence",
          "🌬️ 12 min Advanced Breathwork",
          "💆 Deep Somatic Awareness Practice",
          "💪 Mind-Muscle Connection Enhancement Drills",
          "⚡️ Integrated Movement with Breath Synchronization"
        ])
  ]

  /** The weekday of a day number. */
  function DayOfWeek(date: int): Weekday {
    (date + 4) % 7
  }

  /** Consecutive day numbers fall on consecutive weekdays, Saturday wrapping to Sunday. */
  lemma DayOfWeekAdvances(date: int)
    ensures DayOfWeek(date + 1) == (DayOfWeek(date) + 1) % 7
    ensures DayOfWeek(0) == 4
  {
  }

  /** `routines[level] || routines.beginner`: an unknown level falls back to the beginner list. */
  function StepsForLevel(plan: WeekdayPlan, level: string): seq<string> {
    if level == "intermediate" then plan.intermediate
    else if level == "advanced" then plan.advanced
    else plan.beginner
  }

  /** The routine for the weekday of `date` at `level`. */
  function GetDailyRoutine(level: string, date: int): (r: DailyRoutine)
    ensures r.dayName == DayNames[DayOfWeek(date)]
    ensures r.exercises != []
    ensures |r.exercises| == (if DayOfWeek(date) == 0 then 3 else 4)
                             + (if level == "intermediate" then 1 else if level == "advanced" then 2 else 0)
  {
    var plan := WeeklyPlan[DayOfWeek(date)];
    DailyRoutine(plan.name, plan.focus, plan.description, StepsForLevel(plan, level))
  }

  /** `getWeeklyPlan`: the table itself, which agrees with every daily lookup. */
  function GetWeeklyPlan(): (plan: seq<WeekdayPlan>)
    ensures |plan| == 7
    ensures forall w :: 0 <= w < 7 ==> plan[w].name == DayNames[w]
    ensures forall level, date {:trigger GetDailyRoutine(level, date)} ::
      var p := plan[DayOfWeek(date)];
      GetDailyRoutine(level, date) == DailyRoutine(p.name, p.focus, p.description, StepsForLevel(p, level))
  {
    WeeklyPlan
  }

  /** The routine depends only on the weekday of the date and on the level. */
  lemma SameWeekdaySameRoutine(level: string, d1: int, d2: int)
    requires DayOfWeek(d1) == DayOfWeek(d2)
    ensures GetDailyRoutine(level, d1) == GetDailyRoutine(level, d2)
  {
  }

  /** A week later the same routine comes round again. */
  lemma WeeklyRepeat(level: string, date: int, weeks: int)
    ensures GetDailyRoutine(level, date + 7 * weeks) == GetDailyRoutine(level, date)
  {
    assert DayOfWeek(date + 7 * weeks) == DayOfWeek(date);
  }

  /** An unrecognised level yields the beginner routine of that weekday. */
  lemma UnknownLevelIsBeginner(level: string, date: int)
    requires !IsKnownLevel(level)
    ensures GetDailyRoutine(level, date) == GetDailyRoutine("beginner", date)
  {
  }

  /** The table is total and no list is empty. */
  lemma TableIsTotal()
    ensures |WeeklyPlan| == 7
    ensures forall w :: 0 <= w < 7 ==>
      WeeklyPlan[w].beginner != [] && WeeklyPlan[w].intermediate != [] && WeeklyPlan[w].advanced != []
  {
  }

  /** Every weekday offers strictly more steps at each higher level. */
  lemma LevelsGrowLonger()
    ensures forall w :: 0 <= w < 7 ==>
      |WeeklyPlan[w].beginner| < |WeeklyPlan[w].intermediate| < |WeeklyPlan[w].advanced|
  {
  }

  /** Friday repeats Monday's lists at every level. */
  lemma FridayRepeatsMonday()
    ensures WeeklyPlan[5].beginner == WeeklyPlan[1].beginner
    ensures WeeklyPlan[5].intermediate == WeeklyPlan[1].intermediate
    ensures WeeklyPlan[5].advanced == WeeklyPlan[1].advanced
  {
  }
}
