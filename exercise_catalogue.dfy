/**
 * The exercise catalogue: the `exerciseData` records, in declaration order,
 * and the two queries over them, all exercises sorted by name and the
 * exercises of one category.
 *
 * `localeCompare` is locale dependent; the sort takes the comparison as a
 * parameter `le` (`le(a, b)` stands for `a.localeCompare(b) <= 0`) and asks
 * only that it be a total preorder.
 */
module ExerciseCatalogue {
  import opened Wrappers
  import opened Subsequences

  /** One record of `exerciseData`, every field kept. */
  datatype ExerciseRecord = ExerciseRecord(
    description: string,
    instructions: seq<string>,
    tips: seq<string>,
    image: string,
    categories: seq<string>,
    difficulty: string,
    timeToComplete: string,
    targetMuscles: seq<string>,
    benefits: seq<string>)

  /** `{ name, ...exerciseData[name] }`: a record together with its key. */
  datatype Exercise = Exercise(name: string, record: ExerciseRecord)

  /** An entry of `exerciseCategories`. */
  datatype Category = Category(id: string, name: string)

  const ExerciseCategories: seq<Category> := [
    Category("all", "All Exercises"),
    Category("pelvic", "Pelvic Floor"),
    Category("breathing", "Breathing"),
    Category("core", "Core"),
    Category("strength", "Strength"),
    Category("mobility", "Mobility & Stretching"),
    Category("relaxation", "Relaxation")
  ]

  /** `Object.keys(exerciseData)` */
  function Keys(): (keys: seq<string>)
    ensures |keys| == |ExerciseData|
    ensures forall i :: 0 <= i < |keys| ==> keys[i] == ExerciseData[i].name
    ensures forall k :: k in keys <==> HasName(ExerciseData, k)
  {
    seq(|ExerciseData|, i requires 0 <= i < |ExerciseData| => ExerciseData[i].name)
  }

  /** `exerciseData[name]`, or `None` for a name that is not a key. */
  function Lookup(name: string): (r: Option<ExerciseRecord>)
    ensures r.Some? <==> name in Keys()
    ensures r.Some? ==> Exercise(name, r.value) in ExerciseData
  {
    LookupIn(ExerciseData, name)
  }

  function LookupIn(entries: seq<Exercise>, name: string): (r: Option<ExerciseRecord>)
    ensures r.Some? <==> HasName(entries, name)
    ensures r.Some? ==> Exercise(name, r.value) in entries
  {
    if entries == [] then None
    else if entries[0].name == name then Some(entries[0].record)
    else LookupIn(entries[1..], name)
  }

  /** Some entry of `s` is named `k`. */
  ghost predicate HasName(s: seq<Exercise>, k: string) {
    exists i :: 0 <= i < |s| && s[i].name == k
  }

  ghost predicate DistinctNames(s: seq<Exercise>) {
    forall i, j :: 0 <= i < j < |s| ==> s[i].name != s[j].name
  }

  /** No two records share a key, as in any object literal. */
  lemma KeysAreDistinct()
    ensures DistinctNames(ExerciseData)
  {
    NamesDistinctBelow6();
    NamesDistinctBelow12();
    NamesDistinctFrom12();
  }

  lemma NamesDistinctBelow6()
    ensures forall i, j :: 0 <= i < 6 && i < j < |ExerciseData| ==> ExerciseData[i].name != ExerciseData[j].name
  {
  }

  lemma NamesDistinctBelow12()
    ensures forall i, j :: 6 <= i < 12 && i < j < |ExerciseData| ==> ExerciseData[i].name != ExerciseData[j].name
  {
  }

  lemma NamesDistinctFrom12()
    ensures forall i, j :: 12 <= i < j < |ExerciseData| ==> ExerciseData[i].name != ExerciseData[j].name
  {
  }

  /** `le` is total and transitive: what `Array.prototype.sort` needs of a comparator. */
  ghost predicate TotalPreorder(le: (string, string) -> bool) {
    && (forall a, b :: le(a, b) || le(b, a))
    && (forall a, b, c :: le(a, b) && le(b, c) ==> le(a, c))
  }

  ghost predicate SortedByName(s: seq<Exercise>, le: (string, string) -> bool) {
    forall i, j :: 0 <= i < j < |s| ==> le(s[i].name, s[j].name)
  }

  /** Inserts `x` in front of the first entry it does not follow. */
  function InsertByName(x: Exercise, s: seq<Exercise>, le: (string, string) -> bool): (r: seq<Exercise>)
    ensures multiset(r) == multiset(s) + multiset{x}
    ensures forall e :: e in r <==> e == x || e in s
  {
    if s == [] then [x]
    else if le(x.name, s[0].name) then [x] + s
    else
      assert s == [s[0]] + s[1..];
      [s[0]] + InsertByName(x, s[1..], le)
  }

  lemma {:induction false} InsertKeepsSorted(x: Exercise, s: seq<Exercise>, le: (string, string) -> bool)
    requires TotalPreorder(le) && SortedByName(s, le)
    ensures SortedByName(InsertByName(x, s, le), le)
  {
    if s == [] {
    } else if le(x.name, s[0].name) {
      forall j | 0 <= j < |s| ensures le(x.name, s[j].name) {
        if j > 0 { assert le(s[0].name, s[j].name); }
      }
    } else {
      var t := InsertByName(x, s[1..], le);
      InsertKeepsSorted(x, s[1..], le);
      assert le(s[0].name, x.name);
      forall e | e in t ensures le(s[0].name, e.name) {
        if e != x {
          var j :| 1 <= j < |s| && s[j] == e;
        }
      }
    }
  }

  lemma {:induction false} InsertKeepsDistinct(x: Exercise, s: seq<Exercise>, le: (string, string) -> bool)
    requires DistinctNames(s) && forall e :: e in s ==> e.name != x.name
    ensures DistinctNames(InsertByName(x, s, le))
  {
    if s != [] && !le(x.name, s[0].name) {
      InsertKeepsDistinct(x, s[1..], le);
      var t := InsertByName(x, s[1..], le);
      forall e | e in t ensures e.name != s[0].name {
        if e != x {
          var j :| 1 <= j < |s| && s[j] == e;
        }
      }
    }
  }

  /** A stable sort by name (insertion sort). */
  function SortByName(s: seq<Exercise>, le: (string, string) -> bool): (r: seq<Exercise>)
    ensures multiset(r) == multiset(s)
    ensures forall e :: e in r <==> e in s
  {
    if s == [] then [] else
      assert s == [s[0]] + s[1..];
      InsertByName(s[0], SortByName(s[1..], le), le)
  }

  lemma {:induction false} SortIsSorted(s: seq<Exercise>, le: (string, string) -> bool)
    requires TotalPreorder(le)
    ensures SortedByName(SortByName(s, le), le)
  {
    if s != [] {
      SortIsSorted(s[1..], le);
      InsertKeepsSorted(s[0], SortByName(s[1..], le), le);
    }
  }

  lemma {:induction false} SortKeepsDistinct(s: seq<Exercise>, le: (string, string) -> bool)
    requires DistinctNames(s)
    ensures DistinctNames(SortByName(s, le))
  {
    if s != [] {
      SortKeepsDistinct(s[1..], le);
      forall e | e in SortByName(s[1..], le) ensures e.name != s[0].name {
        var j :| 1 <= j < |s| && s[j] == e;
      }
      InsertKeepsDistinct(s[0], SortByName(s[1..], le), le);
    }
  }

  /** Entries with distinct names sorted by name: `getAllExercises()` over `data`. */
  function SortedEntries(data: seq<Exercise>, le: (string, string) -> bool): (r: seq<Exercise>)
    requires TotalPreorder(le) && DistinctNames(data)
    ensures SortedByName(r, le)
    ensures multiset(r) == multiset(data)
    ensures DistinctNames(r)
  {
    SortIsSorted(data, le);
    SortKeepsDistinct(data, le);
    SortByName(data, le)
  }

  /** `getAllExercises()`: every record with its key, sorted by name. */
  function GetAllExercises(le: (string, string) -> bool): (r: seq<Exercise>)
    requires TotalPreorder(le)
    ensures SortedByName(r, le)
    ensures multiset(r) == multiset(ExerciseData)
    ensures DistinctNames(r)
  {
    KeysAreDistinct();
    SortedEntries(ExerciseData, le)
  }

  /** A reordering of entries with distinct names has an entry for exactly
      the same names, and each carries the record its name looks up. */
  lemma PermutationKeepsEntries(r: seq<Exercise>, entries: seq<Exercise>)
    requires multiset(r) == multiset(entries) && DistinctNames(entries)
    ensures forall k :: HasName(entries, k) <==> HasName(r, k)
    ensures forall i :: 0 <= i < |r| ==> LookupIn(entries, r[i].name) == Some(r[i].record)
  {
    forall k | HasName(entries, k) ensures HasName(r, k) {
      var j :| 0 <= j < |entries| && entries[j].name == k;
      assert entries[j] in multiset(r);
      var i :| 0 <= i < |r| && r[i] == entries[j];
    }
    forall i | 0 <= i < |r|
      ensures HasName(entries, r[i].name)
      ensures LookupIn(entries, r[i].name) == Some(r[i].record)
    {
      assert r[i] in multiset(entries);
      var j :| 0 <= j < |entries| && entries[j] == r[i];
      var found := LookupIn(entries, r[i].name);
      var j2 :| 0 <= j2 < |entries| && entries[j2] == Exercise(r[i].name, found.value);
      assert j2 == j;
    }
  }

  /** Every key (a name of `ExerciseData`, see `Keys`) has an entry, and
      every entry is named by a key; with `DistinctNames`, exactly one entry
      per key. */
  lemma AllExercisesOnePerKey(le: (string, string) -> bool)
    requires TotalPreorder(le)
    ensures forall k :: HasName(ExerciseData, k) <==> HasName(GetAllExercises(le), k)
  {
    KeysAreDistinct();
    PermutationKeepsEntries(GetAllExercises(le), ExerciseData);
  }

  /** Each entry carries the record of its key unchanged. */
  lemma AllExercisesCarryRecords(le: (string, string) -> bool)
    requires TotalPreorder(le)
    ensures var r := GetAllExercises(le);
      forall i :: 0 <= i < |r| ==> Lookup(r[i].name) == Some(r[i].record)
  {
    KeysAreDistinct();
    PermutationKeepsEntries(GetAllExercises(le), ExerciseData);
  }

  /** `exercises.filter(e => e.categories.includes(category))` */
  function FilterByCategory(s: seq<Exercise>, category: string): (r: seq<Exercise>)
    ensures SubsequenceOf(r, s)
    ensures forall e :: e in r ==> category in e.record.categories
    ensures forall e :: e in s && category in e.record.categories ==> e in r
  {
    if s == [] then []
    else if category in s[0].record.categories then [s[0]] + FilterByCategory(s[1..], category)
    else FilterByCategory(s[1..], category)
  }

  /** `getExercisesByCategory(category)` over `data`: every entry for "all",
      otherwise, in sorted order, exactly the entries that list the category. */
  function EntriesInCategory(data: seq<Exercise>, category: string, le: (string, string) -> bool): (r: seq<Exercise>)
    requires TotalPreorder(le) && DistinctNames(data)
    ensures category == "all" ==> r == SortedEntries(data, le)
    ensures category != "all" ==>
      && SubsequenceOf(r, SortedEntries(data, le))
      && (forall e :: e in r ==> category in e.record.categories)
      && (forall e :: e in data && category in e.record.categories ==> e in r)
  {
    var all := SortedEntries(data, le);
    if category == "all" then all
    else
      assert forall e :: e in data ==> e in all by {
        forall e | e in data ensures e in all {
          assert e in multiset(data);
        }
      }
      FilterByCategory(all, category)
  }

  /** `getExercisesByCategory(category)` */
  function GetExercisesByCategory(category: string, le: (string, string) -> bool): (r: seq<Exercise>)
    requires TotalPreorder(le)
    ensures category == "all" ==> r == GetAllExercises(le)
    ensures category != "all" ==> SubsequenceOf(r, GetAllExercises(le))
    ensures forall e :: e in r && category != "all" ==> category in e.record.categories
  {
    KeysAreDistinct();
    EntriesInCategory(ExerciseData, category, le)
  }

  /** A category no entry lists yields nothing. */
  lemma UnlistedCategoryIsEmpty(data: seq<Exercise>, category: string, le: (string, string) -> bool)
    requires TotalPreorder(le) && DistinctNames(data)
    requires category != "all"
    requires forall e :: e in data ==> category !in e.record.categories
    ensures EntriesInCategory(data, category, le) == []
  {
    var all := SortedEntries(data, le);
    forall e | e in all ensures e in data {
      assert e in multiset(all);
    }
    FilterOfUnlisted(all, category);
  }

  lemma {:induction false} FilterOfUnlisted(s: seq<Exercise>, category: string)
    requires forall e :: e in s ==> category !in e.record.categories
    ensures FilterByCategory(s, category) == []
  {
    if s != [] {
      assert s[0] in s;
      FilterOfUnlisted(s[1..], category);
    }
  }

  /** A category some entry lists yields at least that entry. */
  lemma ListedCategoryIsNonEmpty(data: seq<Exercise>, category: string, k: nat, le: (string, string) -> bool)
    requires TotalPreorder(le) && DistinctNames(data)
    requires k < |data| && category in data[k].record.categories
    ensures data[k] in EntriesInCategory(data, category, le)
  {
    if category == "all" {
      assert data[k] in multiset(data);
      assert data[k] in multiset(SortedEntries(data, le));
    }
  }

  /** Every category the exercises page offers, other than "all", has exercises. */
  lemma OfferedCategoriesAreNonEmpty(le: (string, string) -> bool)
    requires TotalPreorder(le)
    ensures forall i :: 1 <= i < |ExerciseCategories| ==>
      GetExercisesByCategory(ExerciseCategories[i].id, le) != []
  {
    KeysAreDistinct();
    forall i | 1 <= i < |ExerciseCategories|
      ensures GetExercisesByCategory(ExerciseCategories[i].id, le) != []
    {
      var id := ExerciseCategories[i].id;
      // A record that lists the category: Kegel Squeezes, Box Breathing,
      // Glute Bridge or Hip Hinges.
      var k := if i == 1 then 0 else if i == 2 || i == 6 then 3 else if i == 5 then 5 else 4;
      assert id in ExerciseData[k].record.categories;
      ListedCategoryIsNonEmpty(ExerciseData, id, k, le);
    }
  }

  /** `exerciseData`, as `Object.keys` lists it: in declaration order. */
  const ExerciseData: seq<Exercise> := [
    Exercise("Kegel Squeezes", KegelSqueezes),
    Exercise("Kegel", Kegel),
    Exercise("Kegels", Kegels),
    Exercise("Box Breathing", BoxBreathing),
    Exercise("Glute Bridge", GluteBridge),
    Exercise("Hip Hinges", HipHinges),
    Exercise("Pelvic Tilt", PelvicTilt),
    Exercise("Mindful Relaxation", MindfulRelaxation),
    Exercise("Core Tuck", CoreTuck),
    Exercise("Hip Thrust", HipThrust),
    Exercise("Alternate Nostril Breathing", AlternateNostrilBreathing),
    Exercise("Diaphragmatic Breathing", DiaphragmaticBreathing),
    Exercise("Core Engagement", CoreEngagement),
    Exercise("Simple Stretching", SimpleStretching),
    Exercise("Self Massage", SelfMassage),
    Exercise("Progressive Relaxation", ProgressiveRelaxation),
    Exercise("Yoga Flow", YogaFlow),
    Exercise("Bodyweight Squats", BodyweightSquats),
    Exercise("Wall Pushup", WallPushup)
  ]

  // utils/exerciseData.js:16
  const KegelSqueezes: ExerciseRecord := ExerciseRecord(
      /* description */ "Kegel exercises strengthen the pelvic floor muscles that support the bladder, uterus, and bowels.",
      /* instructions */ [
        "Start by identifying your pelvic floor muscles (the ones you use to stop urination mid-flow)",
        "Tighten these muscles, hold the contraction for 5 seconds, then relax for 5 seconds",
        "Repeat this 10 times, 3 times daily",
        "Gradually work up to holding the contractions for 10 seconds at a time"
      ],
      /* tips */ [
        "Make sure you're not contracting your abdomen, thighs, or buttocks",
        "Breathe normally during the exercises",
        "Can be done sitting, standing, or lying down"
      ],
      /* image */ "/images/exercises/kegel-exercise.svg",
      /* categories */ [
        "pelvic"
      ],
      /* difficulty */ "beginner",
      /* timeToComplete */ "5-10 minutes",
      /* targetMuscles */ [
        "Pelvic floor"
      ],
      /* benefits */ [
        "Stronger pelvic floor muscles",
        "Better bladder control",
        "Improved sexual function"
      ])

  // utils/exerciseData.js:40
  const Kegel: ExerciseRecord := ExerciseRecord(
      /* description */ "Kegel exercises strengthen the pelvic floor muscles that support the bladder, uterus, and bowels.",
      /* instructions */ [
        "Start by identifying your pelvic floor muscles (the ones you use to stop urination mid-flow)",
        "Tighten these muscles, hold the contraction for the specified time, then relax for an equal time",
        "For quick flicks, rapidly contract and release the muscles",
        "For holds, maintain the contraction for the specified duration"
      ],
      /* tips */ [
        "Make sure you're not contracting your abdomen, thighs, or buttocks",
        "Breathe normally during the exercises",
        "Can be done sitting, standing, or lying down"
      ],
      /* image */ "/images/exercises/kegel-exercise.svg",
      /* categories */ [
        "pelvic"
      ],
      /* difficulty */ "beginner",
      /* timeToComplete */ "5-10 minutes",
      /* targetMuscles */ [
        "Pelvic floor"
      ],
      /* benefits */ [
        "Stronger pelvic floor muscles",
        "Better bladder control",
        "Improved sexual function"
      ])

  // utils/exerciseData.js:64
  const Kegels: ExerciseRecord := ExerciseRecord(
      /* description */ "Kegel exercises strengthen the pelvic floor muscles that support the bladder, uterus, and bowels.",
      /* instructions */ [
        "Start by identifying your pelvic floor muscles (the ones you use to stop urination mid-flow)",
        "Tighten these muscles, hold the contraction for the specified time, then relax for an equal time",
        "For quick flicks, rapidly contract and release the muscles",
        "For holds, maintain the contraction for the specified duration"
      ],
      /* tips */ [
        "Make sure you're not contracting your abdomen, thighs, or buttocks",
        "Breathe normally during the exercises",
        "Can be done sitting, standing, or lying down"
      ],
      /* image */ "/images/exercises/kegel-exercise.svg",
      /* categories */ [
        "pelvic"
      ],
      /* difficulty */ "beginner",
      /* timeToComplete */ "5-10 minutes",
      /* targetMuscles */ [
        "Pelvic floor"
      ],
      /* benefits */ [
        "Stronger pelvic floor muscles",
        "Better bladder control",
        "Improved sexual function"
      ])

  // utils/exerciseData.js:88
  const BoxBreathing: ExerciseRecord := ExerciseRecord(
      /* description */ "Box breathing (also called square breathing) is a powerful stress-relieving technique that helps regulate the autonomic nervous system.",
      /* instructions */ [
        "Sit upright in a comfortable position",
        "Inhale slowly through your nose for 4 seconds",
        "Hold your breath for 4 seconds",
        "Exhale slowly through your mouth for 4 seconds",
        "Hold your breath for 4 seconds before inhaling again",
        "Repeat for several minutes"
      ],
      /* tips */ [
        "Focus on keeping each phase equal in duration",
        "Visualize drawing the four sides of a square as you breathe",
        "Start with shorter durations if 4 seconds is too challenging"
      ],
      /* image */ "/images/exercises/box-breathing.svg",
      /* categories */ [
        "breathing",
        "relaxation"
      ],
      /* difficulty */ "beginner",
      /* timeToComplete */ "3-10 minutes",
      /* targetMuscles */ [
        "Diaphragm",
        "Respiratory muscles"
      ],
      /* benefits */ [
        "Reduced stress and anxiety",
        "Improved focus and concentration",
        "Regulated nervous system",
        "Better sleep quality"
      ])

  // utils/exerciseData.js:116
  const GluteBridge: ExerciseRecord := ExerciseRecord(
      /* description */ "The glute bridge strengthens your gluteal muscles and activates the pelvic floor, enhancing core stability.",
      /* instructions */ [
        "Lie on your back with knees bent and feet flat on the floor, hip-width apart",
        "Contract your abdominal muscles and glutes",
        "Press through your heels to lift your hips off the floor until your body forms a straight line from shoulders to knees",
        "Hold this position for the recommended time (30-90 seconds)",
        "Lower your hips back to the starting position in a controlled manner"
      ],
      /* tips */ [
        "Keep your core engaged throughout the exercise",
        "Avoid arching your lower back",
        "Focus on using your glutes to power the movement"
      ],
      /* image */ "/images/exercises/glute-bridge.svg",
      /* categories */ [
        "strength",
        "core",
        "pelvic"
      ],
      /* difficulty */ "beginner",
      /* timeToComplete */ "3-5 minutes",
      /* targetMuscles */ [
        "Gluteus maximus",
        "Hamstrings",
        "Lower back",
        "Core",
        "Pelvic floor"
      ],
      /* benefits */ [
        "Increased hip stability",
        "Improved posture",
        "Stronger glutes and core",
        "Enhanced pelvic floor engagement"
      ])

  // utils/exerciseData.js:143
  const HipHinges: ExerciseRecord := ExerciseRecord(
      /* description */ "Hip hinges teach proper hip movement pattern while strengthening the posterior chain muscles.",
      /* instructions */ [
        "Stand with feet hip-width apart",
        "Maintain a slight bend in the knees",
        "Hinge at the hips by sending your butt backward",
        "Keep your back flat and core engaged",
        "Lower until you feel a stretch in your hamstrings",
        "Return to standing by squeezing your glutes",
        "Repeat for the recommended repetitions"
      ],
      /* tips */ [
        "Think of pushing your hips back rather than bending forward",
        "Keep your weight centered over the middle of your foot",
        "Maintain a neutral spine throughout the movement"
      ],
      /* image */ "/images/exercises/hip-hinge.svg",
      /* categories */ [
        "mobility",
        "strength"
      ],
      /* difficulty */ "intermediate",
      /* timeToComplete */ "5 minutes",
      /* targetMuscles */ [
        "Gluteus maximus",
        "Hamstrings",
        "Lower back"
      ],
      /* benefits */ [
        "Improved hip mobility",
        "Proper movement patterns for daily activities",
        "Reduced risk of lower back injury",
        "Stronger posterior chain"
      ])

  // utils/exerciseData.js:171
  const PelvicTilt: ExerciseRecord := ExerciseRecord(
      /* description */ "Pelvic tilts strengthen abdominal and pelvic floor muscles while improving spinal mobility.",
      /* instructions */ [
        "Lie on your back with knees bent and feet flat on the floor",
        "Engage your abdominal muscles and flatten your lower back against the floor",
        "Tilt your pelvis upward gently, hold for a few seconds, then release",
        "Repeat the movement in a controlled, rhythmic manner"
      ],
      /* tips */ [
        "Keep your shoulders and upper body relaxed",
        "Avoid pressing with your feet; the motion should come from your pelvis",
        "Breathe deeply throughout the movement"
      ],
      /* image */ "/images/exercises/pelvic-tilt.svg",
      /* categories */ [
        "core",
        "pelvic"
      ],
      /* difficulty */ "beginner",
      /* timeToComplete */ "3-5 minutes",
      /* targetMuscles */ [
        "Abdominals",
        "Pelvic floor",
        "Lower back"
      ],
      /* benefits */ [
        "Improved pelvic mobility",
        "Strengthened lower abdominal and pelvic muscles",
        "Relieved lower back tension"
      ])

  // utils/exerciseData.js:195
  const MindfulRelaxation: ExerciseRecord := ExerciseRecord(
      /* description */ "Mindful relaxation helps release physical and mental tension through focused awareness and body scanning.",
      /* instructions */ [
        "Lie down or sit comfortably in a quiet place",
        "Close your eyes and take slow, deep breaths",
        "Mentally scan your body from head to toe, noticing areas of tension",
        "As you exhale, imagine releasing the tension from each area",
        "Continue for 5 to 10 minutes, maintaining your focus on bodily sensations"
      ],
      /* tips */ [
        "If your mind wanders, gently bring your focus back to your breath or body",
        "Try doing this before bed or during breaks for added calm",
        "You can combine this with soft background music or guided audio"
      ],
      /* image */ "/images/exercises/mindful-relaxation.svg",
      /* categories */ [
        "relaxation",
        "mindfulness"
      ],
      /* difficulty */ "beginner",
      /* timeToComplete */ "5-10 minutes",
      /* targetMuscles */ [
        "Nervous system",
        "Mind-body connection"
      ],
      /* benefits */ [
        "Reduced stress and anxiety",
        "Enhanced body awareness",
        "Improved mental clarity and calm"
      ])

  // utils/exerciseData.js:220
  const CoreTuck: ExerciseRecord := ExerciseRecord(
      /* description */ "The core tuck activates the deep abdominal muscles and supports overall core strength.",
      /* instructions */ [
        "Lie on your back with your arms by your sides and legs extended",
        "Lift your legs, bend your knees toward your chest, and curl your upper body slightly",
        "Hold briefly at the top, then extend your legs and return to the starting position",
        "Repeat for the recommended repetitions"
      ],
      /* tips */ [
        "Keep your lower back pressed into the floor throughout the movement",
        "Move slowly to engage your core muscles more effectively",
        "Avoid using momentum or pulling on your neck"
      ],
      /* image */ "/images/exercises/core-tuck.svg",
      /* categories */ [
        "core",
        "strength"
      ],
      /* difficulty */ "intermediate",
      /* timeToComplete */ "5 minutes",
      /* targetMuscles */ [
        "Rectus abdominis",
        "Obliques",
        "Hip flexors"
      ],
      /* benefits */ [
        "Stronger and more defined abdominal muscles",
        "Improved core stability",
        "Better posture and spinal support"
      ])

  // utils/exerciseData.js:244
  const HipThrust: ExerciseRecord := ExerciseRecord(
      /* description */ "Hip thrusts strengthen the glutes and core, improve pelvic control, and support proper posture.",
      /* instructions */ [
        "Sit on the floor with your upper back against a bench and a cushion under your shoulders",
        "Bend your knees and plant your feet firmly on the floor, hip-width apart",
        "Press through your heels and thrust your hips upward until your torso is parallel to the floor",
        "Hold for a moment, then lower your hips back down with control"
      ],
      /* tips */ [
        "Engage your glutes at the top of the movement",
        "Keep your chin tucked to maintain a neutral spine",
        "Avoid arching your back or overextending your hips"
      ],
      /* image */ "/images/exercises/hip-thrust.svg",
      /* categories */ [
        "strength",
        "pelvic",
        "core"
      ],
      /* difficulty */ "intermediate",
      /* timeToComplete */ "5-7 minutes",
      /* targetMuscles */ [
        "Gluteus maximus",
        "Hamstrings",
        "Core"
      ],
      /* benefits */ [
        "Increased glute strength and power",
        "Enhanced pelvic and hip control",
        "Improved athletic performance and posture"
      ])

  // utils/exerciseData.js:268
  const AlternateNostrilBreathing: ExerciseRecord := ExerciseRecord(
      /* description */ "Alternate nostril breathing (Nadi Shodhana) is a yogic practice that balances the nervous system and calms the mind.",
      /* instructions */ [
        "Sit comfortably with your spine straight and shoulders relaxed",
        "Use your right thumb to close your right nostril and inhale slowly through your left nostril",
        "Close your left nostril with your ring finger and release your thumb to exhale through your right nostril",
        "Inhale through the right nostril, then switch and exhale through the left",
        "Continue alternating for 2–5 minutes"
      ],
      /* tips */ [
        "Breathe gently and naturally without forcing the airflow",
        "Keep your eyes closed and focus on the sensation of the breath",
        "If feeling dizzy, stop and resume normal breathing"
      ],
      /* image */ "/images/exercises/alternate-nostril.svg",
      /* categories */ [
        "breathing",
        "relaxation"
      ],
      /* difficulty */ "beginner",
      /* timeToComplete */ "2-5 minutes",
      /* targetMuscles */ [
        "Diaphragm",
        "Respiratory system"
      ],
      /* benefits */ [
        "Balanced energy flow",
        "Reduced stress and anxiety",
        "Improved focus and mental clarity"
      ])

  // utils/exerciseData.js:293
  const DiaphragmaticBreathing: ExerciseRecord := ExerciseRecord(
      /* description */ "Diaphragmatic (or belly) breathing strengthens the diaphragm and promotes deep, efficient respiration.",
      /* instructions */ [
        "Lie on your back with one hand on your chest and the other on your belly",
        "Inhale deeply through your nose, allowing your belly to rise as you fill your lungs",
        "Exhale slowly through pursed lips, letting your belly fall",
        "Repeat slowly and rhythmically for several minutes"
      ],
      /* tips */ [
        "Focus on moving your belly more than your chest",
        "Practice daily to make it a natural habit",
        "Great to do before bed for relaxation"
      ],
      /* image */ "/images/exercises/diaphragmatic-breathing.svg",
      /* categories */ [
        "breathing",
        "relaxation"
      ],
      /* difficulty */ "beginner",
      /* timeToComplete */ "3-5 minutes",
      /* targetMuscles */ [
        "Diaphragm",
        "Respiratory muscles"
      ],
      /* benefits */ [
        "Improved breathing efficiency",
        "Reduced anxiety and stress",
        "Enhanced oxygen flow and relaxation"
      ])

  // utils/exerciseData.js:317
  const CoreEngagement: ExerciseRecord := ExerciseRecord(
      /* description */ "Core engagement activates deep abdominal muscles to support posture, stability, and strength during movement.",
      /* instructions */ [
        "Lie on your back with knees bent and feet flat on the floor",
        "Draw your belly button gently toward your spine without moving your pelvis",
        "Hold the contraction for a few seconds while breathing normally",
        "Release and repeat for several cycles"
      ],
      /* tips */ [
        "Avoid holding your breath during the contraction",
        "Focus on a subtle, controlled engagement—not a forceful squeeze",
        "Can also be done seated or standing once mastered"
      ],
      /* image */ "/images/exercises/core-engagement.svg",
      /* categories */ [
        "core",
        "posture"
      ],
      /* difficulty */ "beginner",
      /* timeToComplete */ "3-5 minutes",
      /* targetMuscles */ [
        "Transverse abdominis",
        "Pelvic floor",
        "Core"
      ],
      /* benefits */ [
        "Better core stability and posture",
        "Improved body awareness",
        "Foundation for safe movement in other exercises"
      ])

  // utils/exerciseData.js:341
  const SimpleStretching: ExerciseRecord := ExerciseRecord(
      /* description */ "A basic full-body stretching routine that improves flexibility, circulation, and overall relaxation.",
      /* instructions */ [
        "Begin with neck rolls, shoulder rolls, and gentle spinal twists",
        "Stretch arms overhead, then reach side to side",
        "Perform hamstring, quadriceps, and calf stretches",
        "Hold each stretch for 15-30 seconds, breathing deeply throughout"
      ],
      /* tips */ [
        "Never stretch to the point of pain—mild tension is enough",
        "Breathe steadily and avoid bouncing",
        "Make it a daily habit to stay limber and energized"
      ],
      /* image */ "/images/exercises/simple-stretching.svg",
      /* categories */ [
        "mobility",
        "relaxation"
      ],
      /* difficulty */ "beginner",
      /* timeToComplete */ "5-10 minutes",
      /* targetMuscles */ [
        "Full body"
      ],
      /* benefits */ [
        "Improved flexibility and joint range of motion",
        "Reduced muscle stiffness",
        "Calmer mind and better circulation"
      ])

  // utils/exerciseData.js:365
  const SelfMassage: ExerciseRecord := ExerciseRecord(
      /* description */ "Self-massage techniques release muscle tension, promote relaxation, and enhance body awareness.",
      /* instructions */ [
        "Use your hands, foam roller, or massage ball on tight or sore areas",
        "Apply gentle pressure in slow circular or back-and-forth motions",
        "Focus on areas like the neck, shoulders, lower back, thighs, and feet",
        "Spend 30 seconds to 1 minute on each area as needed"
      ],
      /* tips */ [
        "Use lotion or oil for smoother gliding",
        "Breathe deeply to enhance relaxation",
        "If an area feels too tender, reduce pressure or skip it"
      ],
      /* image */ "/images/exercises/self-massage.svg",
      /* categories */ [
        "relaxation",
        "recovery"
      ],
      /* difficulty */ "beginner",
      /* timeToComplete */ "5-10 minutes",
      /* targetMuscles */ [
        "Various muscle groups"
      ],
      /* benefits */ [
        "Reduced muscle soreness and tension",
        "Improved circulation and lymphatic flow",
        "Enhanced recovery and relaxation"
      ])

  // utils/exerciseData.js:389
  const ProgressiveRelaxation: ExerciseRecord := ExerciseRecord(
      /* description */ "Progressive muscle relaxation involves tensing and relaxing muscle groups to reduce stress and promote awareness of physical tension.",
      /* instructions */ [
        "Find a quiet space and sit or lie down comfortably",
        "Start by tensing the muscles in your feet for 5 seconds, then slowly release",
        "Move upward through the body: legs, abdomen, arms, shoulders, neck, and face",
        "Tense each muscle group for a few seconds, then relax completely",
        "Finish with several deep breaths and notice the overall sense of calm"
      ],
      /* tips */ [
        "Breathe deeply between each muscle group",
        "Avoid holding tension if it causes discomfort or pain",
        "Practice regularly for cumulative benefits"
      ],
      /* image */ "/images/exercises/progressive-relaxation.svg",
      /* categories */ [
        "relaxation",
        "mindfulness"
      ],
      /* difficulty */ "beginner",
      /* timeToComplete */ "10-15 minutes",
      /* targetMuscles */ [
        "Full body"
      ],
      /* benefits */ [
        "Reduced physical and mental stress",
        "Increased body awareness",
        "Improved relaxation response and sleep quality"
      ])

  // utils/exerciseData.js:414
  const YogaFlow: ExerciseRecord := ExerciseRecord(
      /* description */ "A gentle yoga flow improves flexibility, balance, and relaxation through a series of mindful postures and breathing.",
      /* instructions */ [
        "Begin with a few deep breaths in mountain pose",
        "Move through poses such as cat-cow, downward dog, cobra, and child’s pose",
        "Hold each posture for several breaths, flowing smoothly from one to the next",
        "End in a seated meditation or savasana to absorb the benefits"
      ],
      /* tips */ [
        "Move with your breath and listen to your body",
        "Modify poses as needed for comfort or accessibility",
        "Use a yoga mat or soft surface for support"
      ],
      /* image */ "/images/exercises/yoga-flow.svg",
      /* categories */ [
        "mobility",
        "relaxation",
        "mindfulness"
      ],
      /* difficulty */ "beginner",
      /* timeToComplete */ "10-15 minutes",
      /* targetMuscles */ [
        "Full body",
        "Core",
        "Spine"
      ],
      /* benefits */ [
        "Enhanced flexibility and mobility",
        "Calmer nervous system and improved breath control",
        "Better balance, posture, and stress management"
      ])

  // utils/exerciseData.js:438
  const BodyweightSquats: ExerciseRecord := ExerciseRecord(
      /* description */ "Bodyweight squats build lower body strength, improve posture, and support daily movement patterns.",
      /* instructions */ [
        "Stand with feet shoulder-width apart and toes slightly turned out",
        "Lower your body by bending at the hips and knees as if sitting back into a chair",
        "Keep your chest upright and knees in line with your toes",
        "Lower until thighs are parallel to the floor, then push through your heels to return to standing"
      ],
      /* tips */ [
        "Engage your core and avoid rounding your back",
        "Don’t let your knees cave inward",
        "Use a chair behind you for guidance if needed"
      ],
      /* image */ "/images/exercises/bodyweight-squats.svg",
      /* categories */ [
        "strength",
        "mobility"
      ],
      /* difficulty */ "beginner",
      /* timeToComplete */ "3-5 minutes",
      /* targetMuscles */ [
        "Quadriceps",
        "Glutes",
        "Hamstrings",
        "Core"
      ],
      /* benefits */ [
        "Improved lower body strength and power",
        "Better mobility and joint health",
        "Supports balance and functional movement"
      ])

  // utils/exerciseData.js:462
  const WallPushup: ExerciseRecord := ExerciseRecord(
      /* description */ "Wall pushups are a modified version of the traditional pushup that builds upper body strength with less strain.",
      /* instructions */ [
        "Stand facing a wall, arms extended so your palms rest on the wall at shoulder height",
        "Step back slightly to create a diagonal body line",
        "Bend your elbows and lean in toward the wall until your nose almost touches it",
        "Push through your palms to return to the starting position",
        "Repeat for the desired number of reps"
      ],
      /* tips */ [
        "Keep your core tight and body in a straight line",
        "Avoid shrugging your shoulders during the movement",
        "As you get stronger, increase the distance from the wall for more challenge"
      ],
      /* image */ "/images/exercises/wall-pushups.svg",
      /* categories */ [
        "strength",
        "upper body"
      ],
      /* difficulty */ "beginner",
      /* timeToComplete */ "3-5 minutes",
      /* targetMuscles */ [
        "Chest",
        "Shoulders",
        "Triceps",
        "Core"
      ],
      /* benefits */ [
        "Upper body strength without floor pressure",
        "Improved shoulder stability and control",
        "Gentle intro to pushup form for all levels"
      ])
}
