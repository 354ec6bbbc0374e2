# Gym companion: a verified model of its core

The app is a React Native workout tracker. Its core is modelled here:

- **Storage layer** (`src/storage/store.js`):
  - saved workouts, kept by id and by name;
  - a weekly schedule of days with entries;
  - the unit, theme and default-rest settings;
  - a log of performed sets, with a per-exercise weight history.
- **Log queries**: weight suggestions, personal records, per-workout statistics, and the weekly, ISO-week and monthly reports.
- **Screens** built on the storage layer:
  - the workout session (set walk, rest countdown, per-set weights, the exercise editor);
  - the workout builder;
  - the schedule;
  - the report screen with its exports;
  - the rule-based and AI-assisted planner;
  - the rest timer.
- **Translation layer**.

## Modelling conventions

- **Store.** The persisted state is a class (`Storage.Store`), one field per storage key. Each storage function is a method that reassigns the field it writes and states the rest unchanged.
- **Screens.** A screen's React state becomes the fields of a class. Its handlers become methods. Effects are methods the caller runs after the change that triggers them (`ReportScreen.Load`, `Session.Refresh`).
- **Pure rules.** What a handler computes is a function, and the lemmas beside it state what it promises.
- **Time.**
  - Timestamps are integers (milliseconds since the epoch).
  - Calendar days are integers (days since 1970-01-01, UTC).
  - `Date.now()`/`new Date()` readings and the ids made from them are parameters (`now`, `freshId`, `ids`).
- **Numbers.**
  - Weights are reals. Counts are naturals.
  - A numeric text input is held as what `parseInt`/`parseFloat` reads from it: `None` when it reads no number.
  - `Number(x) || d` is `Js.NatOr`, `Js.IntOr` or `Js.RealOr`.
- **Nulls.** `null`/`undefined` are `Option.None`.
- **Objects.** A JavaScript object used as a dictionary (`byDay`, `exercises`, `byExercise`) is a sequence of keyed records in insertion order. That is the order JavaScript enumerates string keys in, but integer-like keys come first (see "## Left out").
- **Dictionaries.** The translation catalogues are a parameter. Only the lookup rules are modelled, not the texts.

## Model

| member | source | states |
|---|---|---|
| Js.Trim | src/storage/store.js:21 | `trim` never lengthens a string |
| Js.TrimSpec | src/storage/store.js:21 | the trimmed string is what follows the leading white space, only white space follows it, and it neither starts nor ends with white space |
| Js.TrimIdempotent | src/screens/WorkoutBuilder.js:55 | trimming a trimmed name changes nothing |
| Js.TrimEmptyIffBlank | src/screens/WorkoutBuilder.js:33 | a name trims to "" exactly when it is empty or all white space, which is when `addExercise` refuses it |
| Js.LowerChar | src/storage/store.js:33 | `toLowerCase` maps A-Z to a-z and leaves other ASCII characters alone |
| Js.ToLower | src/storage/store.js:33 | lower-casing keeps the length and lowers character by character |
| Js.NatOr | src/storage/store.js:145-146 | `Number(x) \|\| d`: a missing, non-numeric or zero count gives `d`, any other count is kept |
| Js.IntOr | src/storage/store.js:145 | the same rule on integers |
| Js.RealOr | src/storage/store.js:147 | the same rule on weights |
| Js.Round | src/storage/store.js:262 | `Math.round` is within half a unit, halves rounded up |
| Js.Round1 | src/screens/WorkoutDetail.js:173 | rounding to one decimal moves a value by at most 0.05 |
| Js.Clamp | src/screens/WorkoutDetail.js:157 | the clamped index is within the bounds, and an index already inside is kept |
| Js.SliceStart | src/storage/store.js:130 | where `slice(start)` begins, for non-negative and for negative starts |
| Js.SliceLast | src/storage/store.js:130 | `slice(-limit)` keeps the last `limit` elements, and the whole list when `limit` is 0 |
| Js.SpliceOne | src/storage/store.js:95 | `splice(index, 1)` removes the element at the index, counting from the end for a negative index; an index past the end removes nothing |
| Js.Filter | src/storage/store.js:59 | `filter` keeps exactly the elements that pass, and nothing else |
| Js.FilterOne | src/storage/store.js:59 | one element is kept exactly when it passes |
| Js.CeilDiv | src/storage/store.js:302 | `Math.ceil(a / b)` is the least integer whose multiple of `b` reaches `a` |
| Js.Reverse | src/storage/store.js:130 | `reverse` puts element `i` at position `n - 1 - i` |
| Units.KgToUnit | src/screens/WorkoutBuilder.js:29 | a stored weight is shown unchanged in kg and scaled in lb, and keeps its sign |
| Units.UnitToKg | src/screens/WorkoutBuilder.js:30 | a typed weight is stored unchanged in kg and scaled in lb, and keeps its sign |
| Units.UnitRoundTrip | src/screens/WorkoutDetail.js:82-83 | showing a stored weight and reading it back gives the stored weight, and the other way round |
| Calendar.YearStep | src/storage/store.js:301 | consecutive years are one year length apart |
| Calendar.YearStartMonotonic | src/storage/store.js:301 | later years start at least 365 days per year later |
| Calendar.DaysBeforeMonth | src/storage/store.js:339 | the days before a month fit in a year |
| Calendar.MonthLength | src/storage/store.js:340 | every month has 28 to 31 days |
| Calendar.DaysBeforeMonthStep | src/storage/store.js:339-340 | the months tile the year |
| Calendar.Utc | src/storage/store.js:309 | `Date.UTC(y, m, d)` is the day number of the year's start plus the days before the month plus `d - 1`, with the 0-99 year quirk |
| Calendar.Weekday | src/storage/store.js:310 | `getUTCDay` is within 0..6 |
| Calendar.WeekdayShift | src/storage/store.js:310-313 | moving `k` days moves the weekday by `k` mod 7 |
| Calendar.YearFrom | src/storage/store.js:301 | the upward search finds the year holding the day |
| Calendar.YearUntil | src/storage/store.js:301 | the downward search finds the year holding the day |
| Calendar.YearOf | src/storage/store.js:301 | `getUTCFullYear` is the year whose days include the day |
| Calendar.YearOfUnique | src/storage/store.js:301 | that year is unique |
| Calendar.SameYear | src/storage/store.js:301 | two years whose spans both hold a day are the same year |
| Calendar.IsoWeekday | src/storage/store.js:299 | `getUTCDay() \|\| 7` is within 1..7 |
| Calendar.WeekThursday | src/storage/store.js:300 | the moved date is a Thursday within three days, at the offset the ISO weekday gives |
| Calendar.WeekNumberOfDay | src/storage/store.js:297-304 | the week's year is that of its Thursday; outside the years 0-99 the week is 1..53 and the Thursday lies in that week of its year, while for the years 0-99, whose `Date.UTC(year, 0, 1)` falls in 1900-1999, the week comes out at most 0 |
| Calendar.GetWeekNumber | src/storage/store.js:297-304 | `getWeekNumber` of a local date gives a week 1..53, except in the years 0-99 where it gives one at most 0 |
| Calendar.IsoWeekStart | src/storage/store.js:309-313 | the day `getWeeklyReportFor` starts from is a Monday |
| Calendar.IsoWeekStartOffset | src/storage/store.js:309-313 | that Monday is within three days of `week - 1` whole weeks after 1 January, and week 1's Thursday lies in the first seven days |
| Calendar.FirstWeekHoldsFirstThursday | src/storage/store.js:309-313 | ISO week 1 holds the year's first Thursday |
| Calendar.IsoWeekRoundTrip | src/storage/store.js:297-313 | numbering the Monday of week `w` of year `y` gives back (`y`, `w`), for weeks 1..52 |
| Calendar.IsoWeek2024Week1 | src/storage/store.js:309-316 | ISO week 1 of 2024 runs from Monday 1 January to Sunday 7 January |
| Calendar.MonthWindow | src/storage/store.js:339-340 | the monthly window runs from the month's first day to its last day, within the year |
| Storage.NormalizedName | src/storage/store.js:21 | an empty name becomes "Treino", and the stored name is trimmed |
| Storage.IndexOfId | src/storage/store.js:26-28 | `findIndex` on the id gives the first workout with that id, or none when no workout has it |
| Storage.IndexOfName | src/storage/store.js:31-35 | `findIndex` on the trimmed, lower-cased name gives the first match, or none |
| Storage.Upsert | src/storage/store.js:19-55 | a matched workout is replaced in place: it keeps its id, gets the normalised name, and its exercises are replaced (truthy id) or extended (name match); otherwise one new workout with the fresh id is appended; no other workout changes |
| Storage.UpsertById | src/storage/store.js:26-28 | saving with a stored id edits that workout at its position and keeps the list's length |
| Storage.UpsertByName | src/storage/store.js:31-43 | saving by name appends the new exercises to the first workout with that name |
| Storage.UpsertKeepsIdsUnique | src/storage/store.js:37-54 | ids stay unique when the fresh id is unused, and only the fresh id can be new |
| Storage.UpsertByNameTwice | src/storage/store.js:31-54 | saving twice under one name without an id adds at most one workout |
| Storage.WithoutWorkout | src/storage/store.js:57-61 | `deleteWorkout` keeps only workouts with other ids, and keeps every one of them |
| Storage.WithoutWorkoutAppend | src/storage/store.js:59 | deletion works piecewise over a concatenation and keeps one workout exactly when its id differs, so what stays keeps its order and multiplicity |
| Storage.DefaultSchedule | src/storage/store.js:65-73 | the default schedule is the seven days, Monday first, each with no entries |
| Storage.DayIndex | src/storage/store.js:83 | `findIndex` on the day name gives the first day with that name, or none |
| Storage.AddEntry | src/storage/store.js:81-89 | the entry is appended to the first day with that name; an unknown day changes nothing; the day names are kept |
| Storage.RemoveEntry | src/storage/store.js:91-99 | `splice` removes one entry from the first day with that name; an unknown day changes nothing |
| Storage.AddThenRemoveRestores | src/storage/store.js:81-99 | removing the entry just added restores the schedule |
| Storage.NormalizeUnit | src/storage/store.js:107-111 | the stored unit is "lb" exactly when "lb" was asked for, else "kg" |
| Storage.NormalizeTheme | src/storage/store.js:248-252 | the stored theme is "dark" exactly when "dark" was asked for, else "light" |
| Storage.SafeRestSeconds | src/storage/store.js:261-265 | a positive rest is rounded, anything else becomes 60, and the result is 0 exactly for a positive value below 0.5 |
| Storage.ReadRestSeconds | src/storage/store.js:255-259 | the read-back rest is positive: the stored value when positive, else 60 |
| Storage.RestSecondsRoundTrip | src/storage/store.js:255-265 | reading back what the setter returned gives it back, except for a positive value below 0.5 |
| Storage.LogWeight | src/storage/store.js:114-123 | a blank name logs nothing; otherwise one point (given date or `now`, weight or 0) is appended under the trimmed name, and other names are unchanged |
| Storage.LoggedWeightSuggestedFirst | src/storage/store.js:114-131 | the weight just logged is the first suggestion for that name |
| Storage.NormalizeSet | src/storage/store.js:141-148 | the stored set has the date or `now`, the workout id when truthy, set index 1 when zero or missing, and reps and weight defaulted to 0 |
| Storage.Store.constructor | src/storage/store.js:14-17 | empty storage: no workouts, the default schedule, no sets, no history, "kg", "light", no rest setting |
| Storage.Store.DefaultRestSeconds | src/storage/store.js:255-259 | the default rest is positive |
| Storage.Store.SaveWorkout | src/storage/store.js:19-55 | the new list and the returned workout are those of `Upsert`; nothing else changes |
| Storage.Store.DeleteWorkout | src/storage/store.js:57-61 | the list becomes `WithoutWorkout`; nothing else changes |
| Storage.Store.AddEntryToDay | src/storage/store.js:81-89 | the schedule becomes `AddEntry` and is returned |
| Storage.Store.RemoveEntryFromDay | src/storage/store.js:91-99 | the schedule becomes `RemoveEntry` and is returned |
| Storage.Store.SetUnit | src/storage/store.js:107-111 | the normalised unit is stored and returned |
| Storage.Store.SetThemeName | src/storage/store.js:248-252 | the normalised theme is stored and returned |
| Storage.Store.SetDefaultRestSeconds | src/storage/store.js:261-265 | the safe rest is stored and returned |
| Storage.Store.LogWeightForExercise | src/storage/store.js:114-123 | the history becomes `LogWeight` of the old history |
| Storage.Store.LogSessionSet | src/storage/store.js:139-154 | exactly one normalised set is appended to the log, and its weight is logged under its exercise |
| Analytics.SuggestionCandidates | src/storage/store.js:270-279 | every candidate is a log set of that workout and exercise within the rep range, and every such set is a candidate |
| Analytics.SuggestionCandidatesAppend | src/storage/store.js:270-279 | an empty log has no candidates, and one more set is appended to the candidates exactly when it matches, so they are the matching sets in log order |
| Analytics.WeightSuggestionsByWorkout | src/storage/store.js:268-282 | the suggestions are the last `limit` candidates, most recent first, as (date, weight) |
| Analytics.WeightSuggestions | src/storage/store.js:125-131 | an unknown name has no suggestions; otherwise the last `limit` points under the trimmed name, most recent first, and every point for a `limit` of 0 as `slice(-0)` gives |
| Analytics.SuggestionsMostRecentFirst | src/storage/store.js:268-282 | sets logged at 60, 65 and 70 kg are suggested back as 70, 65, 60 |
| Analytics.RecordIndex | src/storage/store.js:286-293 | the record's position is inside the log |
| Analytics.RecordIsEarliestMax | src/storage/store.js:284-295 | there is no record exactly when no set is in scope; otherwise the record is the earliest heaviest set in scope |
| Analytics.RecordAfterAppend | src/storage/store.js:287-292 | a new set keeps the record or becomes it, and the record's weight never drops |
| Analytics.PRForExercise | src/storage/store.js:284-295 | the loop's result is the earliest heaviest set in scope |
| Analytics.StatsIndex | src/storage/store.js:233-234 | the lookup finds the exercise's statistics or shows there are none |
| Analytics.SumsOfAppend | src/storage/store.js:235-237 | one more set adds its reps, its weight x reps and one count for its name, and raises the running maximum to its weight when heavier |
| Analytics.HeaviestIsMax | src/storage/store.js:235 | the running `Math.max` from 0 is at least 0 and every weight, and is 0 or one of the weights |
| Analytics.SetsOfAppend | src/storage/store.js:230 | one more set joins exactly its own workout and exercise's sets, at the end |
| Analytics.AbsentNameHasNoSets | src/storage/store.js:234 | a name without statistics has no sets in the workout |
| Analytics.AddToStatsSound | src/storage/store.js:232-238 | adding one of the workout's sets keeps the statistics sound |
| Analytics.AddToStatsDistinct | src/storage/store.js:232-238 | adding a set keeps one statistics row per exercise name |
| Analytics.BumpedTracks | src/storage/store.js:235-237 | a row that holds a list of sets holds that list plus the new set after the update |
| Analytics.FirstRowTracks | src/storage/store.js:234-237 | a new row `{prKg: 0, totalVolumeKg: 0, sets: 0}` updated by a set holds exactly that set |
| Analytics.AddToStatsTrack | src/storage/store.js:232-238 | adding one of the workout's sets updates its exercise's row and no other, so each row keeps holding its exercise's sets |
| Analytics.AddToStatsCover | src/storage/store.js:232-238 | after adding a set, every set of the workout, the new one included, has a row for its exercise |
| Analytics.OtherWorkoutSound | src/storage/store.js:230 | sets of other workouts do not touch the statistics |
| Analytics.StatsOfSound | src/storage/store.js:228-240 | one row per exercise name; each row's `sets` is the number (at least 1) of that exercise's sets in the workout, `prKg` is `max(0, heaviest of their weights)` and `totalVolumeKg` is the sum of their weight x reps; every exercise of the workout has a row |
| Analytics.WorkoutStats | src/storage/store.js:228-240 | the loop builds exactly the statistics that `StatsOfSound` describes |
| Analytics.KeyIndex | src/storage/store.js:323 | the bucket lookup finds the day's bucket or shows there is none |
| Analytics.NameIndex | src/storage/store.js:327 | the per-exercise lookup finds the name's count or shows there is none |
| Analytics.SumsUpdate | src/storage/store.js:324-326 | replacing a bucket changes the sums by the difference |
| Analytics.SumsAppend | src/storage/store.js:323 | a new bucket adds its sets, reps and volume to the sums |
| Analytics.CountsUpdate | src/storage/store.js:327 | replacing a per-exercise count changes their sum by the difference |
| Analytics.CountsAppend | src/storage/store.js:327 | a new per-exercise count adds to their sum |
| Analytics.CountExerciseSound | src/storage/store.js:327 | counting an exercise adds exactly one, keeps one count per name, and the name has a count |
| Analytics.CountExerciseTracks | src/storage/store.js:327 | counting one more set's exercise keeps each name's count equal to the day's sets of that name, and no other name gets a count |
| Analytics.TallyTracks | src/storage/store.js:324-327 | tallying one more set keeps a bucket equal to its day's sets, reps, weight x reps and per-name counts |
| Analytics.WindowAppendOne | src/storage/store.js:321 | a set joins the window's sets, and its day's, exactly when start <= date <= end |
| Analytics.TallyTotalsSound | src/storage/store.js:324-331 | a set inside the window keeps the totals equal to the window's set count, reps and weight x reps, and to the buckets' sums |
| Analytics.TallyExistingSound | src/storage/store.js:323-327 | a set for a day that has a bucket keeps the buckets sound |
| Analytics.TallyNewSound | src/storage/store.js:323-327 | a set for a new day opens a bucket and keeps the buckets sound |
| Analytics.TallyExistingEach | src/storage/store.js:323-327 | a set for a day that has a bucket keeps every bucket equal to its day's sets |
| Analytics.TallyNewEach | src/storage/store.js:323-327 | a set for a new day keeps the old buckets sound and its new bucket holds that one set |
| Analytics.NewBucketSound | src/storage/store.js:323-327 | a day's first set opens a bucket of one set with that set's reps, volume and exercise |
| Analytics.TallyNewMissing | src/storage/store.js:323-327 | after a set opens a bucket, a day still without a bucket has no sets in the window |
| Analytics.TallyBucketsSound | src/storage/store.js:323-327 | every set inside the window keeps the buckets sound |
| Analytics.SkipSound | src/storage/store.js:321 | a set outside the window changes nothing |
| Analytics.AccumulateSound | src/storage/store.js:317-334 | every report keeps its window. The totals count the window's sets, add up their reps and their weight x reps, and equal the sums over the buckets. There is one non-empty bucket per day, holding that day's set count, reps, weight x reps and, per exercise name, the number of its sets; a day without a bucket and a name without a count have no sets. |
| Analytics.BuildReport | src/storage/store.js:317-333 | the report loop builds exactly the report `AccumulateSound` describes |
| Analytics.WeeklyReportWithOffset | src/storage/store.js:182-209 | the window is the seven days ending `weekOffset` weeks from `now`, both ends included; the report is the one `AccumulateSound` describes for it |
| Analytics.WeeklyReport | src/storage/store.js:156-179 | the window is the seven days ending at `now`; the report is the one `AccumulateSound` describes for it |
| Analytics.WeeklyReportFor | src/storage/store.js:306-335 | the window starts at 00:00 UTC of a Monday (that of the ISO week, which numbers back to the week asked for) and ends six days later; the report is the one `AccumulateSound` describes for it |
| Analytics.DateBucketInWindow | src/storage/store.js:345-346 | every dated bucket lies between the window's first and last day |
| Analytics.MonthlyReport | src/storage/store.js:337-359 | the window is the month's first to last day, every bucket is a date of that month, and the report is the one `AccumulateSound` describes for it |
| Analytics.KeyIsDate | src/storage/store.js:346 | the monthly report's keys are calendar dates |
| Analytics.TwoSetsScenario | src/storage/store.js:319-333 | two sets of 10 x 50 kg and 8 x 55 kg give 2 sets, 18 reps and 940 kg, counted twice for the exercise |
| Clock.DigitChar | src/components/Timer.js:58-63 | a digit value renders as that digit |
| Clock.Digits | src/components/Timer.js:58-63 | `toString` renders at least one character, all digits |
| Clock.DigitsLength | src/components/Timer.js:58-63 | one digit for numbers below 10, two from 10 to 99 |
| Clock.ValueOfDigits | src/components/Timer.js:58-63 | the rendered number reads back as the number |
| Clock.ValueOfLeadingZero | src/components/Timer.js:60 | a leading zero does not change the value |
| Clock.PadStart2 | src/components/Timer.js:60 | `padStart(2, '0')` puts zeros in front up to length 2 |
| Clock.PadDigits | src/components/Timer.js:60 | padding digits gives digits |
| Clock.Parts | src/components/Timer.js:58-63 | the padded minutes have at least two digits, exactly two below 100 minutes, and the padded seconds exactly two |
| Clock.Format | src/components/Timer.js:57-65 | the clock text is minutes, a colon and two-digit seconds, five characters under 100 minutes |
| Clock.FormatRoundTrip | src/screens/WorkoutDetail.js:178-186 | the clock text reads back as the seconds it shows, so minutes and seconds are both kept |
| Clock.MinutesAndSeconds | src/components/Timer.js:58-63 | a padded part reads back as its number |
| WorkoutDetail.TotalSets | src/screens/WorkoutDetail.js:131 | the walk covers `Number(sets) \|\| 1` sets, at least one |
| WorkoutDetail.Repaired | src/screens/WorkoutDetail.js:146-152 | a well-sized per-set array is kept; any other is replaced by one slot per set holding the base weight; nothing else changes |
| WorkoutDetail.RepairIdempotent | src/screens/WorkoutDetail.js:146-152 | repairing twice is repairing once |
| WorkoutDetail.SetSlot | src/screens/WorkoutDetail.js:157 | the current set's slot is always in range, and is `currentSet - 1` when the set is in range |
| WorkoutDetail.CurrentSetWeight | src/screens/WorkoutDetail.js:154-159 | the weight is that of the current slot, or the base weight when the array needed repair |
| WorkoutDetail.AdjustedWeight | src/screens/WorkoutDetail.js:172-173 | the adjusted weight is never negative and is within 0.05 of weight plus delta unless clamped to 0 |
| WorkoutDetail.WithCurrentSlot | src/screens/WorkoutDetail.js:162-175 | only the current slot of the current (repaired) exercise changes |
| WorkoutDetail.Adjusted | src/screens/WorkoutDetail.js:161-176 | only the current slot of the current exercise changes, to the adjusted weight |
| WorkoutDetail.Picked | src/screens/WorkoutDetail.js:384-396 | picking a suggestion sets only the current slot of the current exercise |
| WorkoutDetail.Resized | src/screens/WorkoutDetail.js:241-252 | the per-set array becomes exactly `newSets` long, keeping its prefix and filling new slots with the base weight |
| WorkoutDetail.ResizeUpThenDown | src/screens/WorkoutDetail.js:241-252 | growing the set count and shrinking it back restores the per-set weights |
| WorkoutDetail.Distributed | src/screens/WorkoutDetail.js:307-312 | every set gets the base weight, one slot per set |
| WorkoutDetail.DistributeIdempotent | src/screens/WorkoutDetail.js:307-312 | distributing twice is distributing once |
| WorkoutDetail.SuggestionFilled | src/screens/WorkoutDetail.js:320-325 | the weight and every slot take the suggestion's weight |
| WorkoutDetail.DistributeAfterFill | src/screens/WorkoutDetail.js:307-325 | distributing after a suggestion fill changes nothing |
| WorkoutDetail.MapAt | src/screens/WorkoutDetail.js:261 | the edit handlers change only the edited exercise |
| WorkoutDetail.WithoutAt | src/screens/WorkoutDetail.js:334 | removing an edited exercise drops exactly that one |
| WorkoutDetail.Start | src/screens/WorkoutDetail.js:85-92 | with no exercises nothing happens; otherwise the first set of the first exercise, with no rest |
| WorkoutDetail.AdvanceForward | src/screens/WorkoutDetail.js:129-144 | the cursor moves strictly forward and stays on a set; the session ends only after the last set of the last exercise |
| WorkoutDetail.EndRest | src/screens/WorkoutDetail.js:122-127 | skipping stops the rest and advances once |
| WorkoutDetail.TickRest | src/screens/WorkoutDetail.js:109-119 | a tick counts down, and the last tick ends the rest like a skip |
| WorkoutDetail.CountdownEndsLikeSkip | src/screens/WorkoutDetail.js:109-127 | a rest of `r` seconds keeps the cursor for `r - 1` ticks and then ends exactly as a skip would |
| WorkoutDetail.SetsBetween | src/screens/WorkoutDetail.js:132-133 | one position per set from `s` to `n` of one exercise |
| WorkoutDetail.SetsBetweenAt | src/screens/WorkoutDetail.js:132-133 | the `k`-th of them is set `s + k`, so they come in order |
| WorkoutDetail.RunFollowsPlan | src/screens/WorkoutDetail.js:129-144 | finishing every set walks through the rest of the exercise's sets, then every later set in order |
| WorkoutDetail.AdvanceDoesOneSet | src/screens/WorkoutDetail.js:129-144 | each advance from a set leaves exactly one set fewer to do |
| WorkoutDetail.AdvancePlan | src/screens/WorkoutDetail.js:129-144 | after an advance that does not end the session, the plan goes on with the sets after the current one |
| WorkoutDetail.RunStep | src/screens/WorkoutDetail.js:129-144 | if the walk from the next cursor follows the plan, so does the walk from this one |
| WorkoutDetail.LastSetStep | src/screens/WorkoutDetail.js:140-142 | the last set of the last exercise ends the walk |
| WorkoutDetail.FullRun | src/screens/WorkoutDetail.js:85-144 | a whole workout visits the sets in plan order |
| WorkoutDetail.PlanIncreasing | src/screens/WorkoutDetail.js:129-144 | no set is visited twice |
| WorkoutDetail.PlanComplete | src/screens/WorkoutDetail.js:129-144 | every set of every exercise is visited, and nothing else |
| WorkoutDetail.PlanLength | src/screens/WorkoutDetail.js:129-144 | the walk has one step per set |
| WorkoutDetail.RestOf | src/screens/WorkoutDetail.js:96 | the rest is `Number(rest) \|\| 60`, always positive |
| WorkoutDetail.RecordAfterSet | src/screens/WorkoutDetail.js:102-105 | after logging a set in scope, the stored record is that set when it is strictly heavier, or there was none; otherwise the old record |
| WorkoutDetail.Session.constructor | src/screens/WorkoutDetail.js:11-45 | no session, first set, both lists copied from the workout, edit mode as asked, rep range "6-12" |
| WorkoutDetail.Session.StartWorkout | src/screens/WorkoutDetail.js:85-92 | the cursor becomes `Start` of the old one |
| WorkoutDetail.Session.NextSetOrExercise | src/screens/WorkoutDetail.js:129-144 | the cursor becomes `Advance` of the old one |
| WorkoutDetail.Session.GetCurrentSetWeight | src/screens/WorkoutDetail.js:154-159 | the current exercise is repaired in place and the current slot's weight returned; no exercise gives 0 |
| WorkoutDetail.FinishedSetRecord | src/screens/WorkoutDetail.js:97-105 | after the set `startRest` logs, the stored record is that set exactly when there was none or it is strictly heavier |
| WorkoutDetail.Session.RaiseRecord | src/screens/WorkoutDetail.js:102-105 | the record shown becomes the set, flagged as new, exactly when there was none or the set is strictly heavier |
| WorkoutDetail.Session.LogFinishedSet | src/screens/WorkoutDetail.js:97-101 | the store gains exactly the finished set and logs its weight in the history; its record follows the rule above; nothing else in the store changes |
| WorkoutDetail.Session.StartRest | src/screens/WorkoutDetail.js:94-120 | exactly one set is logged with the current weight, and that weight is logged in the history; the new-record flag and record follow the rule; the rest starts at `RestOf` |
| WorkoutDetail.Session.Tick | src/screens/WorkoutDetail.js:109-119 | the cursor becomes `TickRest` of the old one |
| WorkoutDetail.Session.SkipRest | src/screens/WorkoutDetail.js:122-127 | the cursor becomes `EndRest` of the old one |
| WorkoutDetail.Session.AdjustCurrentSetWeight | src/screens/WorkoutDetail.js:161-176 | the exercises become `Adjusted` of the old ones |
| WorkoutDetail.Session.ApplySuggestion | src/screens/WorkoutDetail.js:384-396 | the exercises become `Picked` of the old ones |
| WorkoutDetail.Session.SetRepRange | src/screens/WorkoutDetail.js:407 | the rep range becomes the chosen one |
| WorkoutDetail.Session.Refresh | src/screens/WorkoutDetail.js:65-80 | the suggestions and record are those of the named current exercise in this workout, or both cleared; the new-record flag is lowered |
| WorkoutDetail.Session.ToggleEditMode | src/screens/WorkoutDetail.js:59-63 | edit mode flips, and entering it copies the session's exercises into the editor |
| WorkoutDetail.Session.EditSets | src/screens/WorkoutDetail.js:241-252 | only the edited exercise is resized |
| WorkoutDetail.Session.DistributeWeight | src/screens/WorkoutDetail.js:307-312 | only the edited exercise is distributed |
| WorkoutDetail.Session.FillFromSuggestion | src/screens/WorkoutDetail.js:320-325 | only the edited exercise is filled |
| WorkoutDetail.Session.RemoveEdited | src/screens/WorkoutDetail.js:334 | the edited list loses exactly that exercise |
| WorkoutDetail.Session.SaveChanges | src/screens/WorkoutDetail.js:342-347 | the edited exercises are saved under this workout's id and name, edit mode ends, and the session takes the edited list |
| TimerView.RestInput | src/components/Timer.js:98-101 | the typed rest is the parsed number, 0 when unreadable, negatives raised to 0 |
| TimerView.CountdownTick | src/components/Timer.js:26 | the countdown goes down by one and never below 0 |
| TimerView.CountdownValue | src/components/Timer.js:20-33 | after `n` seconds a countdown from `r` shows `r - n`, then 0 |
| TimerView.Timer.constructor | src/components/Timer.js:9-41 | a stopped rest countdown set to the stored default rest |
| TimerView.Timer.Display | src/components/Timer.js:67 | the clock text reads back as the stopwatch's elapsed time or the rest left |
| TimerView.Timer.Start | src/components/Timer.js:43-45 | the clock runs |
| TimerView.Timer.Pause | src/components/Timer.js:47-49 | the clock stops |
| TimerView.Timer.Reset | src/components/Timer.js:51-55 | the clock stops, the stopwatch clears and the countdown refills |
| TimerView.Timer.Tick | src/components/Timer.js:20-33 | a running stopwatch counts up, a running countdown down; a stopped clock is unchanged; the countdown never exceeds the rest |
| TimerView.Timer.SetRestInput | src/components/Timer.js:98-101 | the typed rest becomes the rest and refills the countdown |
| TimerView.Timer.CommitRest | src/components/Timer.js:102 | the stored rest setting becomes `SafeRestSeconds` of the typed rest, so the default rest reads back as that rest, or 60 for 0; no other store key changes |
| TimerView.Timer.SwitchMode | src/components/Timer.js:79-82 | choosing a mode sets it and resets the clock |
| ScheduleView.DayEntries | src/screens/Schedule.js:48 | a day's entries are those of the first stored day with that name, none when missing |
| ScheduleView.LinkedFrom | src/screens/Schedule.js:49-51 | the linked entries from a position on, each with its stored position, in order, and all of them |
| ScheduleView.WorkoutEntries | src/screens/Schedule.js:49-51 | exactly the entries that link a workout, in stored order, each with its position among all entries |
| ScheduleView.RemoveShownEntry | src/screens/Schedule.js:63 | removing a shown entry removes exactly that entry from its day and changes no other day |
| ScheduleView.Rendered | src/screens/Schedule.js:47-51 | the screen shows the seven days, Monday first, whatever the stored order |
| ScheduleView.FindWorkout | src/screens/Schedule.js:38 | `find` gives a workout with that id, and none only when no workout has it |
| ScheduleView.Toggled | src/screens/Schedule.js:73 | the add panel closes for the open day and opens for any other |
| ScheduleView.ToggleTwice | src/screens/Schedule.js:73 | pressing a day's button twice closes the panel, unless it was open for that day |
| ScheduleView.ScheduleScreen.constructor | src/screens/Schedule.js:17-24 | the stored schedule and workouts, no panel open |
| ScheduleView.ScheduleScreen.AddWorkoutEntry | src/screens/Schedule.js:26-29 | an entry titled with the workout's name and linking its id is added to the day |
| ScheduleView.ScheduleScreen.RemoveEntry | src/screens/Schedule.js:31-34 | the entry at the stored position is removed from the day |
| ScheduleView.ScheduleScreen.OpenEntry | src/screens/Schedule.js:36-40 | an entry without a workout opens nothing; a linked entry opens the workout with its id whenever one exists |
| ScheduleView.ScheduleScreen.ToggleAddPanel | src/screens/Schedule.js:73 | the panel becomes `Toggled` of the old one |
| ReportView.JumpToWeekAsWritten | src/screens/Report.js:158-166 | invalid input changes nothing; a valid jump sets the offset to 0 and, from a non-zero offset, the reload shows the current week |
| ReportView.JumpFromPreviousWeekShowsCurrentWeek | src/screens/Report.js:158-166 | a jump to ISO week 1 of 2024 from the previous week shows the seven days ending at `now` |
| ReportView.JumpToWeek | src/screens/Report.js:158-166 | a valid jump shows the ISO week asked for, from a Monday, over seven days, at offset 0; the week numbers back to the one asked for |
| ReportView.JumpToMonthAsWritten | src/screens/Report.js:174-182 | like the week jump, the reload from a non-zero offset replaces the month |
| ReportView.JumpFromNextWeekShowsNoMonth | src/screens/Report.js:174-182 | a jump to February 2024 from the next week shows a six-day weekly window, not the 28 days of February |
| ReportView.JumpToMonth | src/screens/Report.js:174-182 | a valid jump shows the month asked for at offset 0; anything else changes nothing |
| ReportView.MonthReportRange | src/storage/store.js:337-340 | a month's report starts at 00:00 UTC of its first day and, from year 100 on, ends as many days later as the month has days minus one |
| ReportView.OffsetReportRange | src/storage/store.js:182-190 | a week's report ends seven days per offset after now and spans six days |
| ReportView.IsoWeekReportRange | src/storage/store.js:306-317 | an ISO week's report starts at 00:00 UTC of its Monday and spans six days |
| ReportView.BackToCurrentAsWritten | src/screens/Report.js:137 | at offset 0 "back to current" changes nothing |
| ReportView.BackToCurrentAfterJumpKeepsJump | src/screens/Report.js:137 | after a jump, "back to current" keeps showing the jumped-to week |
| ReportView.BackToCurrent | src/screens/Report.js:137 | "back to current" shows the seven days ending at `now`, at offset 0, from any state |
| ReportView.ExerciseRows | src/screens/Report.js:80-82 | one CSV row per exercise of the day, in first-seen order |
| ReportView.ExerciseLines | src/screens/Report.js:42-44 | one text line per exercise of the day, in first-seen order |
| ReportView.ShareBody | src/screens/Report.js:109-111 | one line per day, in order |
| ReportView.CsvRowCount | src/screens/Report.js:70-83 | the CSV has a header, one row per day and one per exercise of each day |
| ReportView.TextLineCount | src/screens/Report.js:36-45 | the text body has one line per day and one per exercise of each day |
| ReportView.DayRowSetsAppend | src/screens/Report.js:73-83 | the day rows' sets add over concatenation |
| ReportView.ExerciseRowsHaveNoSets | src/screens/Report.js:81 | exercise rows carry no day sets |
| ReportView.CsvDaySetsAddUp | src/screens/Report.js:73-83 | the CSV's day rows add up to the buckets' total sets |
| ReportView.CsvMatchesTotal | src/screens/Report.js:70-83 | for a sound report, the CSV's day rows add up to the summary's total sets |
| ReportView.ReportScreen.constructor | src/screens/Report.js:9-24 | this week's report at offset 0, in weekly mode, with the stored unit |
| ReportView.ReportScreen.Load | src/screens/Report.js:17-24 | the report of the current offset and the stored unit |
| ReportView.ReportScreen.PreviousWeek | src/screens/Report.js:134 | the offset goes down by one and the report is reloaded for it |
| ReportView.ReportScreen.NextWeek | src/screens/Report.js:140 | the offset goes up by one and the report is reloaded for it |
| ReportView.ReportScreen.ShowCurrentWeek | src/screens/Report.js:137 | the screen becomes `BackToCurrent` of the old one |
| ReportView.ReportScreen.SetMonthly | src/screens/Report.js:146-149 | the mode becomes the chosen one |
| ReportView.ReportScreen.GoToWeek | src/screens/Report.js:158-166 | the screen becomes `JumpToWeek` of the old one |
| ReportView.ReportScreen.GoToMonth | src/screens/Report.js:174-182 | the screen becomes `JumpToMonth` of the old one |
| ReportView.ReportScreen.ExportCsv | src/screens/Report.js:70-84 | the rows are the header followed by each day's row and its exercise rows |
| ReportView.CsvBodyStep | src/screens/Report.js:72-83 | each pass of the outer loop adds the day's row and then its exercise rows |
| ReportView.AppendExerciseRows | src/screens/Report.js:80-82 | the inner loop appends exactly the day's exercise rows, in order |
| ReportView.ReportScreen.ExportText | src/screens/Report.js:35-46 | the lines are the period, the summary, then each day's line and its exercise lines |
| ReportView.TextBodyStep | src/screens/Report.js:40-45 | each pass of the outer loop adds the day's line and then its exercise lines |
| ReportView.AppendExerciseLines | src/screens/Report.js:42-44 | the inner loop appends exactly the day's exercise lines, in order |
| ReportView.ReportScreen.ShareSummary | src/screens/Report.js:104-112 | the lines are the period, the summary and one line per day: two more lines than days |
| AIPlanner.BaseExercises | src/screens/AIPlanner.js:36-43 | every muscle group has three prescribed exercises |
| AIPlanner.Toggle | src/screens/AIPlanner.js:25-31 | a toggled item's membership flips, other items' membership is kept, and an absent item is appended |
| AIPlanner.ToggleTwice | src/screens/AIPlanner.js:25-31 | toggling twice restores membership, and restores the list exactly when the item was absent |
| AIPlanner.GoalDose | src/screens/AIPlanner.js:53 | strength is 5 x 5 with 120 s, any other goal 3 x 10 with 60 s |
| AIPlanner.Targets | src/screens/AIPlanner.js:46 | the days always cycle through at least one muscle group |
| AIPlanner.DayNames | src/screens/AIPlanner.js:47 | a plan always covers at least one day |
| AIPlanner.LocalPlanUnique | src/screens/AIPlanner.js:33-56 | the local rules determine the plan |
| AIPlanner.MuscleOf | src/screens/AIPlanner.js:49 | the muscle of day `d` is always one of the targets |
| AIPlanner.Dosed | src/screens/AIPlanner.js:53 | each exercise name, in order, with the dose's sets, reps and rest |
| AIPlanner.LocalDay | src/screens/AIPlanner.js:49-54 | day `d` is the `d`-th day name, the muscle the targets cycle to, and its three base exercises with the goal's dose |
| AIPlanner.LocalSplit | src/screens/AIPlanner.js:48-55 | the loop's first `n` days give `n` plan days |
| AIPlanner.LocalSplitAt | src/screens/AIPlanner.js:48-55 | day `e` of the loop's split is `LocalDay` of `e` |
| AIPlanner.LocalPlan | src/screens/AIPlanner.js:35-56 | the plan keeps the goal, equipment and restrictions and has one day per chosen day (seven when none is chosen) |
| AIPlanner.LocalPlanFollowsRules | src/screens/AIPlanner.js:35-56 | the local plan satisfies every local rule, day by day and exercise by exercise |
| AIPlanner.GeneratePlan | src/screens/AIPlanner.js:35-56 | the loop builds exactly the local plan |
| AIPlanner.StripOpening | src/screens/AIPlanner.js:65 | a leading "```json" fence and its line break are removed |
| AIPlanner.CleanJsonText | src/screens/AIPlanner.js:62-66 | no text gives "", and the result is trimmed |
| AIPlanner.FencedAnswer | src/screens/AIPlanner.js:62-66 | a fenced answer gives back its trimmed body |
| AIPlanner.UnfencedAnswer | src/screens/AIPlanner.js:62-66 | an answer without fences is only trimmed |
| AIPlanner.AiPlanExercise | src/screens/AIPlanner.js:112-117 | for natural answered counts: each count is the answer's when positive, else the goal's default; all counts are then positive |
| AIPlanner.AiSplit | src/screens/AIPlanner.js:109-118 | one plan day per answered day, keeping day, muscle and exercise order |
| AIPlanner.StoredExercises | src/screens/AIPlanner.js:146-151 | one stored exercise per plan exercise, counts defaulting to 3, 10 and 60 s, with no id and no weights |
| AIPlanner.SavedCountsAreThePlans | src/screens/AIPlanner.js:146-151 | plans with positive counts (the local plan's, and the AI plan's for natural answered counts) save their own counts |
| AIPlanner.SaveAll | src/screens/AIPlanner.js:144-156 | one saved workout per plan day; the schedule keeps its day names |
| AIPlanner.SaveAllPrefix | src/screens/AIPlanner.js:144-156 | saving the first `k + 1` days is saving the first `k` days and then day `k` |
| AIPlanner.SaveAllLast | src/screens/AIPlanner.js:145-152 | the last day's workout takes "day • muscle" as its name, the earlier days' saved workouts stay, and the list grows by at most one |
| AIPlanner.UpsertByNameShape | src/screens/AIPlanner.js:152 | saving by name returns a workout with the normalised name and adds at most one workout |
| AIPlanner.SavedNames | src/screens/AIPlanner.js:144-156 | each day's workout is saved under "day • muscle", and saving adds at most one workout per day |
| AIPlanner.LinksFor | src/screens/AIPlanner.js:153 | every link added to a day comes from a plan day on that day |
| AIPlanner.DayIndexSameDays | src/screens/AIPlanner.js:153 | schedules with the same day names find a day at the same position |
| AIPlanner.AddEntryAt | src/screens/AIPlanner.js:153 | adding to a day extends exactly the first stored day of that name |
| AIPlanner.LinkAt | src/screens/AIPlanner.js:153 | after one more day is saved, a stored day that held the earlier days' links holds the links of all the days |
| AIPlanner.SaveLinksEachDay | src/screens/AIPlanner.js:144-156 | after saving, each stored day holds its old entries and then one link per plan day on it, in plan order, titled "day • muscle"; other days are unchanged |
| AIPlanner.PlannerScreen.constructor | src/screens/AIPlanner.js:13-23 | aesthetics, a full gym, no restrictions, nothing chosen, no plan |
| AIPlanner.PlannerScreen.SetGoal | src/screens/AIPlanner.js:13 | the goal becomes the chosen one |
| AIPlanner.PlannerScreen.ToggleFocus | src/screens/AIPlanner.js:25-27 | the focus becomes `Toggle` of the old one and holds only offered muscle groups |
| AIPlanner.PlannerScreen.ToggleDay | src/screens/AIPlanner.js:29-31 | the days become `Toggle` of the old ones |
| AIPlanner.PlannerScreen.SavePlan | src/screens/AIPlanner.js:137-170 | no plan or an empty split changes nothing; otherwise the store becomes `SaveAll`, the count is the number of days and the first saved workout is kept |
| AIPlanner.PlannerScreen.PressSaveAsWritten | src/screens/AIPlanner.js:222 | the button as written: the press event is taken as the plan, so the workouts, the schedule, the count and the first saved workout stay as they were |
| AIPlanner.PlannerScreen.PressSave | src/screens/AIPlanner.js:137-170 | the button as intended: a plan with days is saved as `SaveAll` gives it; sessions, weights and settings are untouched |
| AIPlanner.PlannerScreen.SaveSplit | src/screens/AIPlanner.js:144-156 | the loop leaves the store as `SaveAll` gives it, counts every day and keeps the first saved workout; sessions, weights and settings are untouched |
| AIPlanner.PlannerScreen.SaveDayToStore | src/screens/AIPlanner.js:145-153 | one day saved: the store moves by exactly `SaveDay`, and the saved workout is the one appended |
| AIPlanner.PlannerScreen.Generate | src/screens/AIPlanner.js:33-60 | the screen's plan becomes `LocalPlan` of its choices and the store holds that plan saved |
| AIPlanner.PlannerScreen.GenerateFromAnswer | src/screens/AIPlanner.js:109-131 | an answer without days falls back to the local plan; otherwise the answer's split becomes the plan and is saved |
| WorkoutBuilder.NewExercise | src/screens/WorkoutBuilder.js:34-44 | the trimmed name and counts (0 when unreadable); the weight shown back in the screen's unit is the one typed; one per-set slot per set holding it |
| WorkoutBuilder.NewExerciseInSession | src/screens/WorkoutBuilder.js:43 | a built exercise with sets needs no repair in the session; one with no sets gets one slot |
| WorkoutBuilder.WithoutExercise | src/screens/WorkoutBuilder.js:50-52 | only exercises with other ids stay, and every one of them stays |
| WorkoutBuilder.WithoutExerciseAppend | src/screens/WorkoutBuilder.js:51 | removal works piecewise over a concatenation and keeps one exercise exactly when its id differs, so the rest keep their order and multiplicity |
| WorkoutBuilder.AddThenRemove | src/screens/WorkoutBuilder.js:32-52 | removing the exercise just added gives back the list before it |
| WorkoutBuilder.RemoveAbsentId | src/screens/WorkoutBuilder.js:50-52 | removing an unused id changes nothing |
| WorkoutBuilder.SavedName | src/screens/WorkoutBuilder.js:55 | the trimmed name, "Treino" when blank, is a name the store keeps as it is |
| WorkoutBuilder.SaveAgainReplaces | src/screens/WorkoutBuilder.js:54-60 | a second save of the workout returned by the first replaces it: same id, same count |
| WorkoutBuilder.Builder.constructor | src/screens/WorkoutBuilder.js:9-27 | the stored workouts and unit, a leg-day name, 3 x 10 with 60 s, nothing else |
| WorkoutBuilder.Builder.EditInputs | src/screens/WorkoutBuilder.js:10-16 | the inputs take the typed values |
| WorkoutBuilder.Builder.RenameWorkout | src/screens/WorkoutBuilder.js:9 | the workout name becomes the typed one |
| WorkoutBuilder.Builder.AddExercise | src/screens/WorkoutBuilder.js:32-48 | a blank name adds nothing; otherwise the new exercise is appended and the name and weight are cleared |
| WorkoutBuilder.Builder.RemoveExercise | src/screens/WorkoutBuilder.js:50-52 | the list becomes `WithoutExercise` of the old one |
| WorkoutBuilder.Builder.Save | src/screens/WorkoutBuilder.js:54-60 | the store saves under the edited id (if any) and the saved name; the list is reloaded and the saved workout becomes the edited one |
| WorkoutBuilder.Builder.LoadWorkout | src/screens/WorkoutBuilder.js:62-66 | the editor takes the workout's id, name and exercises |
| WorkoutBuilder.Builder.RemoveWorkout | src/screens/WorkoutBuilder.js:68-77 | the workout is deleted and the list reloaded; the editor clears only if it was editing that workout |
| WorkoutBuilder.Builder.NewWorkout | src/screens/WorkoutBuilder.js:79-88 | nothing edited, no name or exercises, inputs back to 3 x 10 with 60 s |
| WorkoutBuilder.Builder.ChooseUnit | src/screens/WorkoutBuilder.js:108-119 | the store and the editor take the normalised unit |
| I18n.Dictionary | src/i18n/index.js:395 | "en" reads the English catalogue, any other language the Portuguese one |
| I18n.Translate | src/i18n/index.js:394-403 | the language's text, else the Portuguese text, else the key |
| I18n.UnknownLanguageReadsAsPortuguese | src/i18n/index.js:395-401 | a language without a catalogue reads as Portuguese, and English falls back to Portuguese key by key |
| I18n.TranslateComesFromCatalogues | src/i18n/index.js:394-403 | every text is the key or an entry of a catalogue |
| I18n.SafeLang | src/i18n/index.js:389 | exactly "en" stays English, anything else becomes "pt" |
| I18n.SafeLangIdempotent | src/i18n/index.js:389 | normalising twice is normalising once |
| I18n.LocaleOf | src/i18n/index.js:363-368 | the reported locale, "pt-BR" when none is reported |
| I18n.DetectLanguage | src/i18n/index.js:361-373 | "pt" exactly when the lower-cased locale starts with "pt" or the lookup throws, else "en" |
| I18n.DetectionExamples | src/i18n/index.js:361-373 | no locale and "PT-pt" detect as Portuguese, "en-US" as English |
| I18n.Visible | src/i18n/index.js:5-9 | before the provider is ready screens see the keys, afterwards the lookup |
| I18n.LoadAsWritten | src/i18n/index.js:379-386 | as written, the first load leaves the language and readiness as they were |
| I18n.LoadAsWrittenShowsKeys | src/i18n/index.js:407 | as written, screens show "settings.title" instead of its text |
| I18n.Provider.constructor | src/i18n/index.js:376-377 | Portuguese, not ready |
| I18n.Provider.T | src/i18n/index.js:394-407 | `t` as screens see it: the lookup once ready |
| I18n.Provider.Load | src/i18n/index.js:379-386 | the stored language if there is one, else the detected one; then ready, so every key reads through the lookup |
| I18n.Provider.SetLang | src/i18n/index.js:388-392 | the normalised language is stored and used |

## Left out

- Persistence: AsyncStorage and the JSON encoding of each key. The store's fields are the decoded values. `setSchedule` is modelled only as the write inside `addEntryToDay`/`removeEntryFromDay`. The "save schedule" button (src/screens/Schedule.js:101) writes back what was read.
- Local time: `toLocaleDateString` weekday labels and `setDate` in local time. The weekday label is a parameter. The local-date input of `getWeekNumber` is taken as given. Daylight-saving shifts in `setDate(getDate() - 6)` are not modelled: a week is 7 x 86 400 000 ms.
- Floating point: weights are exact reals. The lb factor 2.20462 is exact, so the unit round trip holds exactly. `toFixed(1)` and the text formatting of export rows and dates are not modelled; rows are structured values.
- `getSessionIncrements` / `setSessionIncrements` (src/storage/store.js:212-225): the session's increments only feed the adjust buttons. Those are modelled with the delta as a parameter.
- `exportJson`, `printPDF` and the clipboard, `Share`, alerts and downloads of the report screen: these are I/O.
- The Gemini request, its prompt and the `JSON.parse` of the answer (src/screens/AIPlanner.js:68-107): the parsed answer is a parameter (`None` for a failed request or parse). A missing or falsy `exercises` is read as an empty list; a non-array `exercises` that would throw makes the whole answer `None`. Answered counts are naturals (see `AIPlanner.AiPlanExercise` below). The loading and saving flags and the save message are left out.
- Saving failures in `savePlanToWorkoutsAndSchedule`: storage writes do not fail in the model.
- Navigation callbacks (`onOpenWorkout`, `onOpenFirstSavedWorkout`, `onUpdateWorkout`, `onCreateNewWorkout`) and rendering.
- Timers: `setInterval` is explicit `Tick` calls. Stale closures and overlapping intervals are not modelled.
- Aliasing: the session's exercises are values. The in-place mutation of the current exercise by `ensureWeightArrayForExercise` is stated as an update of that element only. Sharing of exercise objects between the session and editor lists is not modelled.
- The editor's reps, rest, weight and single-slot edits (src/screens/WorkoutDetail.js:261-300) and the banner message: plain field writes, not separately modelled.
- Negative parsed counts: `parseInt` can read a negative set count, which makes `Array(n)` throw. Counts are naturals here, so that path is not modelled.
- AIPlanner.AiPlanExercise: the answer's counts are taken as naturals. `Number(e.sets) || (goal === 'Força' ? 5 : 3)` (src/screens/AIPlanner.js:114-116) keeps an answered -2 or 2.5, and saving keeps it too (src/screens/AIPlanner.js:147-149). Such counts are not modelled, so "all counts are positive" holds only for natural answered counts. Modelling them would make every saved exercise count an integer or a real, in the workout session as well.
- Equal fresh ids: two saves in the same millisecond would get the same `Date.now()` id. `Storage.UpsertKeepsIdsUnique` assumes the fresh id is unused.
- Catalogue texts: the translation catalogues are a parameter. The stored language is a parameter of `I18n.Provider.Load`.
- Unicode case mapping: `Js.ToLower` lowers Basic Latin and Latin-1 only.
- Calendar.IsoWeekRoundTrip: proved for weeks 1 to 52 and years from 100. Week 53 and two-digit years, which `Date.UTC` maps to 1900-1999, are not covered.
- Calendar.GetWeekNumber: states only the week's range. The report header's week label is not modelled.
- ReportView.ExerciseRows: keeps every exercise name in first-seen order. `Object.entries` lists integer-like names (such as "21") first, in ascending numeric order, and only then the other names in insertion order. Sorting those keys is not modelled.
- ReportView.ExerciseLines: the same key-order simplification as `ExerciseRows`.
- Analytics.WorkoutStats: the rows are in first-seen order, without the integer-like-first key order of the `byExercise` object.
- Timer mode effect: `TimerView.Timer.SetRestInput` requires rest mode, because the rest input is only rendered in that mode (src/components/Timer.js:91).

## Findings

| source | as written | input that shows it | evidently intended | confidence | as-written member | corrected member |
|---|---|---|---|---|---|---|
| src/screens/Report.js:158-166 | The jump calls `setWeekOffset(0)` after showing the requested week. From a non-zero offset, this re-runs the offset effect (src/screens/Report.js:17-24), which replaces the jump with the current week. | From the previous week (offset -1), jump to year 2024, week 1: the screen shows the seven days ending now. | Show ISO week 1 of 2024, 2024-01-01 to 2024-01-07. | not executed; depends on the effect's load finishing after the jump's | ReportView.JumpToWeekAsWritten, ReportView.JumpFromPreviousWeekShowsCurrentWeek | ReportView.JumpToWeek |
| src/screens/Report.js:174-182 | Same pattern for the month jump. | From the next week (offset 1), jump to 2024, month 2: a six-day weekly window is shown. | Show February 2024, day by day. | not executed; same race | ReportView.JumpToMonthAsWritten, ReportView.JumpFromNextWeekShowsNoMonth | ReportView.JumpToMonth |
| src/screens/Report.js:137 | "Back to current" sets the offset to 0. After a jump the offset is already 0, so nothing reloads. | Jump to 2024, week 1, then press "back to current": week 1 of 2024 is still shown. | Show the seven days ending now. | not executed | ReportView.BackToCurrentAsWritten, ReportView.BackToCurrentAfterJumpKeepsJump | ReportView.BackToCurrent |
| src/screens/AIPlanner.js:222 | `onPress={savePlanToWorkoutsAndSchedule}` passes the press event as `thePlan`. The event has no `split`, so the early return at src/screens/AIPlanner.js:138 is taken. | Generate a plan, then press "save plan": nothing new is saved. | Save the screen's plan, i.e. `onPress={() => savePlanToWorkoutsAndSchedule()}`. | not executed | AIPlanner.PlannerScreen.PressSaveAsWritten | AIPlanner.PlannerScreen.PressSave |
| src/i18n/index.js:3 | `getLanguageName` and `setLanguageName` are imported from the store, which does not export them. The first load's call throws, so the provider is never ready and `t` stays the identity. `setLang` throws before it sets the language. | Any launch: "settings.title" is shown instead of "Configurações". | Load the stored or detected language, become ready, and translate. | not executed; depends on the bundler leaving a missing named import undefined | I18n.LoadAsWritten, I18n.LoadAsWrittenShowsKeys | I18n.Provider.Load |
