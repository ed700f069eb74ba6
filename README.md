# stamina-x core, modelled in Dafny

stamina-x is a Next.js pelvic-floor training app. This project models the bookkeeping at its core and proves properties of it:

- the weekly routine table and the daily lookup (`RoutineCatalog`);
- the completion and streak ledger, with the views derived from it: the 30-day chart, the month grid, the consistency percentage and the weekday intensity (`ProgressLedger`);
- the dashboard state that ticks steps and commits completed days (`Dashboard`, a class);
- the exercise catalogue queries (`ExerciseCatalogue`) and the exercises page filter (`ExerciseFilter`);
- the exercise-name recovery of the details modal (`ExerciseName`);
- the profile form check (`ProfileForm`);
- the countdown timer (`Timer`, a class plus the `mm:ss` display);
- the card description shortener (`ExerciseCard`).

Conventions used throughout:

- Dates are integer day numbers. Day 0 is Thursday 1 January 1970, so the weekday of `d` is `(d + 4) % 7`, and `d - 1` is the previous calendar day.
- `localeCompare` is a parameter `le` that is only assumed to be a total preorder.
- `toLowerCase` lowers ASCII letters only.
- Strings are sequences of code points.
- `Text` holds the JavaScript string operations the core relies on: `trim`, `\s`, `toLowerCase`, `includes` and `substring`.
- `Wrappers` holds `Option`.
- `Subsequences` holds the order-preserving subsequence relation.

## Model

| member | source | states |
|---|---|---|
| RoutineCatalog.GetDailyRoutine | utils/WeeklyRoutineGenerator.js:209-220 | The day name is the table's name for the weekday of the date. The step list is never empty. Beginner has 3 steps on Sunday and 4 on other days, intermediate one more, and advanced two more. |
| RoutineCatalog.DayOfWeekAdvances | utils/WeeklyRoutineGenerator.js:210 | Consecutive day numbers fall on consecutive weekdays, Saturday wrapping to Sunday. Day 0 is a Thursday. |
| RoutineCatalog.GetWeeklyPlan | utils/WeeklyRoutineGenerator.js:225-227 | Seven weekday entries named Sunday..Saturday. Every daily lookup reads its name, focus and description from the entry of its weekday. |
| RoutineCatalog.SameWeekdaySameRoutine | utils/WeeklyRoutineGenerator.js:209-218 | Two dates with the same weekday give the same routine at every level. |
| RoutineCatalog.WeeklyRepeat | utils/WeeklyRoutineGenerator.js:210-211 | The routine of a date comes round again any whole number of weeks later. |
| RoutineCatalog.UnknownLevelIsBeginner | utils/WeeklyRoutineGenerator.js:217 | A level other than beginner, intermediate or advanced gives that weekday's beginner routine. |
| RoutineCatalog.TableIsTotal | utils/WeeklyRoutineGenerator.js:7-201 | All seven weekdays are present, and each of the three lists of each weekday is non-empty. |
| RoutineCatalog.LevelsGrowLonger | utils/WeeklyRoutineGenerator.js:7-201 | On every weekday: beginner list < intermediate list < advanced list, in length. |
| RoutineCatalog.FridayRepeatsMonday | utils/WeeklyRoutineGenerator.js:37-59 | Friday's three lists equal Monday's. |
| ProgressLedger.CommitIsIdempotent | app/dashboard/page.js:150-151 | Committing a date already in `days` changes nothing, so a second commit of the same date is a no-op. |
| ProgressLedger.CommitNewDate | app/dashboard/page.js:151-168 | On a new date, the date joins `days` and the total grows by one. The streak becomes old + 1 when the previous day is recorded, and 1 otherwise. The current level is written. |
| ProgressLedger.CommitKeepsTally | app/dashboard/page.js:163-168 | A document whose total equals its number of days keeps that equality after a commit. |
| ProgressLedger.RunEndingAtMeaning | app/dashboard/page.js:157-160 | The run counter counts exactly the unbroken run of recorded days ending at a day. |
| ProgressLedger.RunAfterAdding | app/dashboard/page.js:157-160 | Adding a date extends the run ending the day before by one. |
| ProgressLedger.InOrderCommitKeepsStreak | app/dashboard/page.js:152-168 | While days are committed in calendar order, the stored streak stays the length of the current run of days. |
| ProgressLedger.FirstCommitStartsStreak | app/dashboard/page.js:53-58 | The first commit to a fresh document gives streak 1 and total 1. |
| ProgressLedger.BackfillKeepsRuleNotRun | app/dashboard/page.js:259-267 | Completing an earlier day from the calendar applies the increment rule. It does not recount the run, so the streak can differ from the run length. |
| ProgressLedger.Last30 | app/dashboard/page.js:121-137 | Exactly 30 points, the k-th for day today - 29 + k, each marked 1 iff that day is recorded. |
| ProgressLedger.GenerateLast30DaysData | app/dashboard/page.js:121-137 | The loop builds 30 ascending entries ending today, each marked 1 iff its date is recorded. |
| ProgressLedger.Last30Ascending | app/dashboard/page.js:125-128 | The chart dates strictly increase. |
| ProgressLedger.MarkCompletedAt | app/dashboard/page.js:175-180 | On ascending dates, marking a date sets the one entry with that date to 1 and changes no other entry. |
| ProgressLedger.MarkKeepsSeriesInSync | app/dashboard/page.js:174-180 | Marking today's chart entry in place gives the chart of the enlarged set of days. |
| ProgressLedger.FindByDate | app/dashboard/page.js:212 | The result has the requested date and is an entry of the series. It is absent iff no entry has that date. |
| ProgressLedger.FindInLast30 | app/dashboard/page.js:212 | The 30-day chart has an entry for a date exactly when the date lies in its window. |
| ProgressLedger.CellCompleted | app/dashboard/page.js:212-216 | A cell shows completed only if the series holds that date marked 1. |
| ProgressLedger.BuildCalendar | app/dashboard/page.js:197-221 | First as many blanks as the weekday of the 1st. Then one cell per day 1..daysInMonth, in order, with its date. A cell is completed only if the series marks its date. |
| ProgressLedger.GridShowsRecentDays | app/dashboard/page.js:210-218 | Over the 30-day chart, a day cell is completed iff its date is recorded and lies within the last 30 days. |
| ProgressLedger.CountCompleted | app/dashboard/page.js:899 | At most the series length. |
| ProgressLedger.Consistency | app/dashboard/page.js:899 | Undefined exactly for an empty series. Otherwise it lies in 0..100 and is 100 × completed / length rounded half up (exact arithmetic; see "## Left out"). |
| ProgressLedger.RoundHalfUp | app/dashboard/page.js:899 | The integer formula is 100 × completed / length rounded half up, exactly, and lies in 0..100. For the 30-point chart, the only non-empty series the page builds, this is the value `Math.round((c / 30) * 100)` shows. |
| ProgressLedger.WeekdayCount | app/dashboard/page.js:930-933 | At most the number of completed points. |
| ProgressLedger.MaxWeekdayCount | app/dashboard/page.js:938-943 | At least every weekday's count, and equal to one of them. |
| ProgressLedger.Intensity | app/dashboard/page.js:938-945 | Lies in 0..4. It is 0 iff the weekday has no completion, the busiest weekday gets 4, and otherwise the value is `ceil(4 × count / max)`. |
| ProgressLedger.CeilingBounds | app/dashboard/page.js:945 | The integer ceiling brackets 4 × count / max and lies in 0..4. |
| ProgressLedger.LevelTarget | app/dashboard/page.js:977-978 | The goal is 20 for beginner, 40 for intermediate, and 60 for every other level. |
| Dashboard.Indices | app/dashboard/page.js:70 | The routine indices 0..n-1, n of them. |
| Dashboard.AllTicked | app/dashboard/page.js:69-72 | A tick map with exactly the keys 0..n-1, all ticked. |
| Dashboard.BannerShownIff | app/dashboard/page.js:573-574 | The banner shows iff the tick map has exactly the routine's keys and all of them are ticked. |
| Dashboard.LoadedTicks | app/dashboard/page.js:66-74 | Loading a record whose days contain today ticks every step of today's routine at the loaded level, so the banner shows. |
| Dashboard.StaleLoadLeavesStepsUnticked | app/dashboard/page.js:40-41 | An advanced user with Monday recorded reloads and gets only 4 of 6 steps ticked, and no banner. |
| Dashboard.Dashboard.constructor | app/dashboard/page.js:43-80 | The load: a missing record becomes the empty document. A stored record's level, streak, total and 30-day chart are taken over. Today already recorded ticks every step of today's routine at the loaded level, so the banner shows; this is the corrected load of the first Findings row. |
| Dashboard.Dashboard.RefreshCalendar | app/dashboard/page.js:197-221 | With no chart, nothing happens. Otherwise the grid is rebuilt for the selected month. |
| Dashboard.Dashboard.CommitDate | app/dashboard/page.js:147-181 | The document becomes `CommitDay` of the old one, and the shown streak and total mirror it. An unbuilt chart stays empty and the grid stays as it was. A built chart becomes the 30-day chart of the new days, and the grid is rebuilt from it. An already recorded date leaves chart and grid alone. Level, day, ticks and month do not change. |
| Dashboard.Dashboard.ToggleComplete | app/dashboard/page.js:139-183 | Only tick i flips. When every step is ticked, today is committed, whichever day is selected: the document becomes `CommitDay` for today, and a built chart becomes the 30-day chart of the new days. Otherwise the document, counters, chart and grid are unchanged. An unbuilt chart stays empty. Level, day and month never change. |
| Dashboard.Dashboard.MarkDayComplete | app/dashboard/page.js:251-289 | The document becomes `CommitDay` of the old one for the given date. An unbuilt chart stays empty; a built one becomes the 30-day chart of the new days. The ticks, level, selected day and month are unchanged. |
| Dashboard.Dashboard.ChangeLevel | app/dashboard/page.js:185-194 | The level is set and written to the document, and nothing else in it changes. All ticks are cleared, so the routine is not done. Day, counters, chart, grid and month are unchanged. |
| Dashboard.Dashboard.ChangeDay | app/dashboard/page.js:298-301 | The selected day is set and all ticks are cleared. Level, document, counters, chart, grid and month are unchanged. |
| Dashboard.Dashboard.ChangeMonth | app/dashboard/page.js:244-248 | The month shown is set, and a built chart's grid is rebuilt for it; with no chart the grid stays. The document, counters, chart, ticks, level and selected day are unchanged. |
| ExerciseCatalogue.Keys | utils/exerciseData.js:493 | The keys of the table in declaration order; a name is a key iff some entry has it. |
| ExerciseCatalogue.Lookup | utils/exerciseData.js:493-495 | A record is found iff the name is a key. The entry built from it is in the table. |
| ExerciseCatalogue.KeysAreDistinct | utils/exerciseData.js:15-487 | No two table entries share a name. |
| ExerciseCatalogue.SortByName | utils/exerciseData.js:496 | The sort returns a permutation of its input. |
| ExerciseCatalogue.SortIsSorted | utils/exerciseData.js:496 | The sort output is ordered by name under any total preorder. |
| ExerciseCatalogue.GetAllExercises | utils/exerciseData.js:492-497 | Sorted by name, a permutation of the table, and names stay distinct. |
| ExerciseCatalogue.AllExercisesOnePerKey | utils/exerciseData.js:493-495 | A name appears in the result iff it is a key of the table. |
| ExerciseCatalogue.AllExercisesCarryRecords | utils/exerciseData.js:494-495 | Every result entry carries its key's record unchanged. |
| ExerciseCatalogue.FilterByCategory | utils/exerciseData.js:507-509 | An order-preserving subsequence holding exactly the entries that list the category. |
| ExerciseCatalogue.EntriesInCategory | utils/exerciseData.js:502-510 | "all" gives the sorted list. Any other category gives the subsequence of the sorted list made of exactly the entries that list it. |
| ExerciseCatalogue.GetExercisesByCategory | utils/exerciseData.js:502-510 | "all" equals `getAllExercises()`. Otherwise the result is a subsequence of it whose entries all list the category. |
| ExerciseCatalogue.UnlistedCategoryIsEmpty | utils/exerciseData.js:507-509 | A category no entry lists gives an empty list. |
| ExerciseCatalogue.ListedCategoryIsNonEmpty | utils/exerciseData.js:507-509 | Every entry that lists a category appears in that category's list. |
| ExerciseCatalogue.OfferedCategoriesAreNonEmpty | utils/exerciseData.js:5-13 | Every category the page offers, other than "all", has at least one exercise. |
| ExerciseFilter.KeepMatching | app/exercises/page.js:32-38 | An order-preserving subsequence holding exactly the entries whose lower-cased name or description contains the lower-cased query. |
| ExerciseFilter.FilterExercises | app/exercises/page.js:26-41 | "all" and an empty query give the list unchanged. The result is an order-preserving subsequence. Results list the category and match the query, and every entry that does both is kept. |
| ExerciseFilter.FilterIsIdempotent | app/exercises/page.js:28-38 | Filtering the result again with the same category and query returns it unchanged. |
| ExerciseName.FirstKey | components/ExerciseDetailsModal.jsx:376-380 | Absent iff no key qualifies. Otherwise it is the first qualifying key in declaration order. |
| ExerciseName.DirectMatchAt | components/ExerciseDetailsModal.jsx:376-380 | When key i is the first key contained in the text, the direct match returns it. |
| ExerciseName.DirectMatchWins | components/ExerciseDetailsModal.jsx:375-380 | When some key is contained in the text, the result is the first such key, whatever the later steps would give. |
| ExerciseName.DirectMatchDecides | components/ExerciseDetailsModal.jsx:375-380 | A direct match decides the result. |
| ExerciseName.GluteBridgesExample | components/ExerciseDetailsModal.jsx:376-380 | "10 Glute Bridges" matches "Glute Bridge" directly. |
| ExerciseName.KegelsExample | components/ExerciseDetailsModal.jsx:376-380 | "20 Kegels" matches "Kegel" directly. |
| ExerciseName.RemoveParenGroups | components/ExerciseDetailsModal.jsx:388 | Removing `(...)` groups never lengthens the name or introduces a character. |
| ExerciseName.NoParenUnchanged | components/ExerciseDetailsModal.jsx:388 | A name with no '(' is left unchanged. |
| ExerciseName.NoGroupLeft | components/ExerciseDetailsModal.jsx:388 | No '(' with a ')' after it survives the removal. |
| ExerciseName.PartialMatch | components/ExerciseDetailsModal.jsx:390-396 | The corrected step 2 of Findings row 2 (its as-written half is PartialMatchAsWritten): present iff the name is non-empty and some key, lower-cased, contains the lower-cased name or is contained in it. Then it is the first such key in declaration order. |
| ExerciseName.EmptyNamePartialMatch | components/ExerciseDetailsModal.jsx:391-395 | As written, an empty name matches the first key, because every key includes "". |
| ExerciseName.LowerRun | components/ExerciseDetailsModal.jsx:401 | The length of the leading run of lower-case letters. |
| ExerciseName.CapitalizedWords | components/ExerciseDetailsModal.jsx:401 | Every word found is a capital followed by lower-case letters and occurs in the text. |
| ExerciseName.CapitalizedWordsNone | components/ExerciseDetailsModal.jsx:401 | No word is found iff no upper-case letter in the text is followed by a lower-case one. |
| ExerciseName.CapitalizedWordsFirst | components/ExerciseDetailsModal.jsx:401 | Otherwise the first word is the capital at the leftmost such position with the whole lower-case run after it, and the search resumes just past it. |
| ExerciseName.CapitalizedWordsResume | components/ExerciseDetailsModal.jsx:401 | For the leftmost start k, the words are the match at k followed by the words after it. |
| ExerciseName.WordMatch | components/ExerciseDetailsModal.jsx:402-410 | Absent iff no key contains any word. Otherwise it is the first key containing the first word that some key contains. |
| ExerciseName.KeywordFallbackIgnoresCase | components/ExerciseDetailsModal.jsx:413-417 | The keyword fallback gives the same answer on the lower-cased text. |
| ExerciseName.KeywordFallbackNames | components/ExerciseDetailsModal.jsx:413-418 | The keyword fallback returns nothing or one of its five names. |
| ExerciseName.FallbackNamesAreKeys | components/ExerciseDetailsModal.jsx:37-232 | The five fallback names are keys of the table. |
| ExerciseName.ResultIsKeyOrNone | components/ExerciseDetailsModal.jsx:369-419 | Both as written and corrected: missing or empty text gives nothing, and any answer is a key of the table. |
| ExerciseName.PatternStepDecides | components/ExerciseDetailsModal.jsx:375-397 | When the text contains no key and the extracted name is non-empty and related to some key, the result is the first key related to it. |
| ExerciseName.LaterStepsDecide | components/ExerciseDetailsModal.jsx:375-419 | When the text contains no key and step 2 finds nothing (the pattern did not match, or no key relates to its extracted name): if some capitalised word is contained in a key, the result is the first key containing the first such word; otherwise the result is the keyword fallback. |
| ExerciseName.NoCapitalsNoDirectMatch | components/ExerciseDetailsModal.jsx:376-380 | Text with no capital letter contains no key, since every key starts with a capital. |
| ExerciseName.NoLettersNoKeyword | components/ExerciseDetailsModal.jsx:413-419 | Text without ASCII letters triggers no keyword fallback. |
| ExerciseName.SpaceCaptureGivesEmptyName | components/ExerciseDetailsModal.jsx:388 | A blank group trims to the empty name. |
| ExerciseName.SpaceCaptureMatchesFirstKey | components/ExerciseDetailsModal.jsx:386-397 | When nothing else matches, a blank group gives the first key as written and nothing when corrected. |
| ExerciseName.EmptyNameMatchesFirstKey | components/ExerciseDetailsModal.jsx:386-397 | For letterless text such as "💪 10 × 3" with a blank group, as written gives "Kegel Squeezes" and corrected gives nothing. |
| ExerciseName.EmptyNameIsSkipped | components/ExerciseDetailsModal.jsx:387-397 | When corrected, an empty extracted name is treated as if the pattern had not matched. |
| ExerciseName.NonEmptyNameAsWritten | components/ExerciseDetailsModal.jsx:387-397 | With a non-empty extracted name, the corrected and as-written versions agree. |
| ProfileForm.ValidateForm | app/profile/page.js:124-151 | Profile section: a name error iff the name is blank. The email error is "Email is required" iff the email is blank, else "Email is invalid" iff it has no `\S+@\S+\.\S+` match. Password section: a length error iff the password is non-empty and under 6 characters, a mismatch error iff it differs from the confirmation. The result is true iff no error was recorded, and other sections always pass. |
| ProfileForm.BlankIsNotEmailShaped | app/profile/page.js:132-136 | A blank email never matches the pattern, so it only gets "Email is required". |
| ProfileForm.EmailShapedParts | app/profile/page.js:134 | A matching email has an '@' before a '.' and at least five characters. |
| ProfileForm.EmailInsideTextIsShaped | app/profile/page.js:134 | The pattern is not anchored: an address inside other text matches. |
| ProfileForm.SpaceBeforeAtIsNotShaped | app/profile/page.js:134 | "a @b.c" does not match. |
| ProfileForm.NoDotIsNotShaped | app/profile/page.js:134 | "name@host" does not match. |
| Timer.Initial | components/Timer.jsx:6-8 | Step 0, the first duration, not running. |
| Timer.NextInRange | components/Timer.jsx:11-22 | A tick keeps the step inside the list of durations. |
| Timer.IdleTicksChangeNothing | components/Timer.jsx:12-14 | Ticks of a stopped timer change nothing. |
| Timer.RunningTickCountsDown | components/Timer.jsx:12-21 | Each tick of a running timer lowers the remaining-ticks measure by exactly one. |
| Timer.StopsOnlyAtEnd | components/Timer.jsx:18-20 | A tick stops a running timer only on the last step with 0 seconds left. |
| Timer.StopsWithin | components/Timer.jsx:10-24 | A running timer has stopped, on its last step at 0 seconds, after as many ticks as the measure counts. |
| Timer.Timer.constructor | components/Timer.jsx:5-8 | A new timer is at step 0 with the first duration, not running. |
| Timer.Timer.Tick | components/Timer.jsx:10-24 | Running with seconds left: the seconds drop by exactly 1 and nothing else changes. At 0 with a further step: the next step starts with its duration. At 0 on the last step: the timer stops. Not running: no change. |
| Timer.Timer.Reset | components/Timer.jsx:26-30 | Stopped, step 0, the first duration. |
| Timer.Timer.Start | components/Timer.jsx:44 | Only `running` changes, to true. |
| Timer.Timer.Pause | components/Timer.jsx:51 | Only `running` changes, to false. |
| Timer.NatToString | components/Timer.jsx:32 | Decimal digits without a leading zero; one digit below 10, two below 100. |
| Timer.NatToStringValue | components/Timer.jsx:32 | The digits read back as the number. |
| Timer.PadStart | components/Timer.jsx:32 | At least the width long, ending with the input and padded in front with the pad character. |
| Timer.LeadingZerosValue | components/Timer.jsx:32 | Leading zeros do not change the value read. |
| Timer.FormatReadsBack | components/Timer.jsx:32 | The display is digits, ':', two digits. Before the ':' reads back as `floor(s / 60)`, after it as `s mod 60`. |
| Timer.FormatInjective | components/Timer.jsx:32 | Different times never show the same display. |
| Timer.FormatWidth | components/Timer.jsx:32 | Under 100 minutes the display is exactly five characters. |
| ExerciseCard.Truncate | components/ExerciseCard.jsx:15-17 | Text no longer than the limit is unchanged. Longer text becomes its first `maxLength` characters followed by "...". The output is at most `maxLength + 3` long and starts with a prefix of the input. |
| ExerciseCard.TruncateIdempotent | components/ExerciseCard.jsx:16 | Shortening a shortened text again with the same limit changes nothing. |
| ExerciseCard.SamePrefixSameCard | components/ExerciseCard.jsx:16 | Long texts agreeing on their first `maxLength` characters show the same card text. |
| Text.TrimEmptyIffAllSpace | app/profile/page.js:128 | `trim()` gives the empty string iff every character is white space. |
| Text.IncludesIff | components/ExerciseDetailsModal.jsx:377 | `includes` is true iff the pattern occurs at some position. |
| Text.LowerIdempotent | app/exercises/page.js:33-36 | Lower-casing twice is lower-casing once. |

## Left out

- Firebase: reads, writes, `arrayUnion`, the snapshot listener and the auth listener. The stored progress document is the `doc` field of `Dashboard`, and read-modify-write races between tabs are not modelled.
- Dates and time zones: the page mixes UTC `toISOString` dates with local-time constructors. Dates are day numbers here, and the month grid takes the first day and the length of the month as inputs.
- `getMonthOptions` and `toLocaleDateString`: locale-dependent display.
- `localeCompare`: an abstract total preorder `le`. The sort is insertion by name. Its stability and the exact tie order of the engine's sort are not stated.
- Lower-casing and `\s` cover ASCII letters and JavaScript's white-space set, with no other Unicode case mapping.
- Lengths are in code points, while JavaScript counts UTF-16 units. This matters for astral characters in `Truncate` and in the password length check.
- The emoji regular expression of `extractExerciseName` is not modelled. Its first capture group is a parameter.
- ProgressLedger.Consistency: computed with exact rounding half up. The page computes `(c / n) * 100` in floating point, so for some lengths other than 30 an exact .5 comes out just below it and rounds down (23 of 40 gives 57.49999999999999, shown as 57, where the model gives 58). For the 30-point chart the two agree on every count.
- The level progress bar width is a floating-point percentage and is not modelled; only the numeric goal (`LevelTarget`) is.
- The "This Month" count and the display-only "Best Streak" (`Math.max(streak, 5)`) are not modelled.
- Timer scheduling: `setTimeout`, `clearTimeout` and React's rule that an effect re-runs only when `running` or `secondsLeft` changes. `Tick` is one run of the effect. A later step of duration 0 would not re-trigger the effect in the browser, while the model's next tick moves on.
- Timer.Timer.constructor: requires a non-empty list of durations, whose entries are natural numbers; the component does not check either.
- `Timer.Format` takes a natural number; the timer only ever shows `secondsLeft`, which stays non-negative.
- `components/ExerciseLink.jsx` imports a function that `utils/exerciseData.js` does not export, and is not part of this model.
- The profile page's Firebase updates, photo upload and account deletion are not modelled. `ValidateForm` returns the error map the page stores with `setFormErrors`.
- JavaScript's `routines[level]` also finds inherited properties such as `"toString"`. The model treats only the three level names as known.
- Dashboard.Dashboard.constructor: ticks today's steps with the corrected load `LoadedTicks` of the first Findings row. The page as written ticks `LoadedTicksAsWritten`, today's beginner count, because its load callback keeps the first render's routine.
- ExerciseName.GluteBridgesExample and ExerciseName.KegelsExample: state the direct-match step, which `DirectMatchDecides` then carries to the whole extraction.

## Findings

| source | as written | input that shows it | evidently intended | confidence | as-written member | corrected member |
|---|---|---|---|---|---|---|
| app/dashboard/page.js:67-74 | The load callback is created during the first render, when `routine` is today's beginner routine. It ticks only that many steps whatever level the record stores. | An advanced user who completed Monday reloads on Monday: 4 of 6 steps are ticked and the completion banner stays hidden. | Tick every step of today's routine at the loaded level. | not executed | Dashboard.StaleLoadLeavesStepsUnticked | Dashboard.LoadedTicks |
| components/ExerciseDetailsModal.jsx:386-397 | An extracted name that is empty after trimming still goes through the partial match. Every key includes "", so the first key wins. | "💪 10 × 3": without the `u` flag the emoji class can match the trailing surrogate and the group is " ". The result is "Kegel Squeezes" instead of falling through to the later steps and null. | Skip the partial match when the extracted name is empty. | not executed | ExerciseName.EmptyNameMatchesFirstKey | ExerciseName.EmptyNameIsSkipped |
