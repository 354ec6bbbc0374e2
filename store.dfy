/**
 * The persistence layer of store.js, held in memory: the workout list, the
 * weekly schedule, the append-only set log, the weight history per exercise
 * name and the three settings. Each operation reads the current value of a
 * key, changes it and writes it back; here that is a method of `Store`
 * that reassigns the field, specified by a pure function of the old value.
 * The read-only queries over the set log are in the Analytics module.
 */
module Storage {
  import opened Wrappers
  import opened Js
  import opened Domain
  import Analytics

  // ---------------------------------------------------------------- workouts

  /** `(workout.name || 'Treino').trim()`: the default applies only to the empty name, so a name of blanks
      is saved as the empty name. */
  function NormalizedName(name: string): (r: string)
    ensures name == "" ==> r == "Treino"
    ensures r == [] || (!IsSpace(r[0]) && !IsSpace(r[|r| - 1]))
    ensures Trim(r) == r
  {
    var n := Trim(if name == "" then "Treino" else name);
    TrimSpec(if name == "" then "Treino" else name);
    TrimIdempotent(if name == "" then "Treino" else name);
    n
  }

  /** What stored names are compared on: trimmed, then lower-cased. */
  function MatchKey(name: string): string {
    ToLower(Trim(name))
  }

  /** `findIndex` on the workout id. */
  function IndexOfId(list: seq<Workout>, id: string): (r: Option<nat>)
    ensures r.Some? ==> r.value < |list| && list[r.value].id == id && forall j :: 0 <= j < r.value ==> list[j].id != id
    ensures r.None? ==> forall j :: 0 <= j < |list| ==> list[j].id != id
  {
    if list == [] then None
    else if list[0].id == id then Some(0)
    else match IndexOfId(list[1..], id)
      case None => None
      case Some(j) => Some(j + 1)
  }

  /** `findIndex` on the trimmed, lower-cased name. */
  function IndexOfName(list: seq<Workout>, key: string): (r: Option<nat>)
    ensures r.Some? ==> r.value < |list| && MatchKey(list[r.value].name) == key
                        && forall j :: 0 <= j < r.value ==> MatchKey(list[j].name) != key
    ensures r.None? ==> forall j :: 0 <= j < |list| ==> MatchKey(list[j].name) != key
  {
    if list == [] then None
    else if MatchKey(list[0].name) == key then Some(0)
    else match IndexOfName(list[1..], key)
      case None => None
      case Some(j) => Some(j + 1)
  }

  /** Where `saveWorkout` writes: the first workout with the id when the id is truthy and known, else the
      first workout whose name matches the normalised name case-insensitively, else nowhere. */
  function SaveTarget(list: seq<Workout>, id: Option<string>, name: string): Option<nat> {
    var byId := if IsTruthy(id) then IndexOfId(list, id.value) else None;
    if byId.Some? then byId else IndexOfName(list, ToLower(NormalizedName(name)))
  }

  datatype Upserted = Upserted(list: seq<Workout>, saved: Workout)

  /** The workout list after `saveWorkout`, and the workout it returns. A matched workout keeps its id and
      takes the normalised name; its exercises are replaced when the call carried a truthy id, and the new
      ones are appended after the old ones otherwise. Without a match a new workout with `freshId` is
      appended. */
  function Upsert(list: seq<Workout>, id: Option<string>, name: string, exercises: seq<Exercise>, freshId: string)
    : (r: Upserted)
    ensures SaveTarget(list, id, name).Some? ==>
              var t := SaveTarget(list, id, name).value;
              && t < |list| && r.list == list[t := r.saved]
              && r.saved == Workout(list[t].id, NormalizedName(name),
                                    if IsTruthy(id) then exercises else list[t].exercises + exercises)
    ensures SaveTarget(list, id, name).None? ==>
              r.list == list + [r.saved] && r.saved == Workout(freshId, NormalizedName(name), exercises)
  {
    var normalized := NormalizedName(name);
    match SaveTarget(list, id, name)
    case Some(t) =>
      var existing := list[t];
      var updated := Workout(existing.id, normalized, if IsTruthy(id) then exercises else existing.exercises + exercises);
      Upserted(list[t := updated], updated)
    case None =>
      var item := Workout(freshId, normalized, exercises);
      Upserted(list + [item], item)
  }

  /** Saving with the id of a stored workout edits that workout in place: same position, same id, the new
      name and exactly the new exercises; every other workout is untouched. */
  lemma UpsertById(list: seq<Workout>, id: string, name: string, exercises: seq<Exercise>, freshId: string, i: nat)
    requires id != "" && i < |list| && list[i].id == id
    requires forall j :: 0 <= j < i ==> list[j].id != id
    ensures var r := Upsert(list, Some(id), name, exercises, freshId);
            && |r.list| == |list|
            && r.list[i] == Workout(id, NormalizedName(name), exercises)
            && forall j :: 0 <= j < |list| && j != i ==> r.list[j] == list[j]
  {
    var k := IndexOfId(list, id);
    assert k == Some(i);
  }

  /** Saving without an id under the name of a stored workout appends the new exercises to it. */
  lemma UpsertByName(list: seq<Workout>, name: string, exercises: seq<Exercise>, freshId: string, i: nat)
    requires i < |list| && MatchKey(list[i].name) == ToLower(NormalizedName(name))
    requires forall j :: 0 <= j < i ==> MatchKey(list[j].name) != ToLower(NormalizedName(name))
    ensures var r := Upsert(list, None, name, exercises, freshId);
            && |r.list| == |list|
            && r.list[i] == Workout(list[i].id, NormalizedName(name), list[i].exercises + exercises)
            && forall j :: 0 <= j < |list| && j != i ==> r.list[j] == list[j]
  {
    var k := IndexOfName(list, ToLower(NormalizedName(name)));
    assert k == Some(i);
  }

  predicate UniqueIds(list: seq<Workout>) {
    forall i, j :: 0 <= i < j < |list| ==> list[i].id != list[j].id
  }

  /** Ids stay unique as long as the fresh id is not in use; the set of ids only grows by the fresh id. */
  lemma UpsertKeepsIdsUnique(list: seq<Workout>, id: Option<string>, name: string, exercises: seq<Exercise>, freshId: string)
    requires UniqueIds(list)
    requires forall j :: 0 <= j < |list| ==> list[j].id != freshId
    ensures var r := Upsert(list, id, name, exercises, freshId);
            && UniqueIds(r.list)
            && (forall j :: 0 <= j < |list| ==> r.list[j].id == list[j].id)
            && (|r.list| == |list| || (|r.list| == |list| + 1 && r.list[|list|].id == freshId))
  {
  }

  /** Saving twice under the same name without an id does not create a second workout. */
  lemma UpsertByNameTwice(list: seq<Workout>, name: string, e1: seq<Exercise>, e2: seq<Exercise>, f1: string, f2: string)
    ensures var once := Upsert(list, None, name, e1, f1).list;
            |Upsert(once, None, name, e2, f2).list| == |once|
  {
    var key := ToLower(NormalizedName(name));
    var r := Upsert(list, None, name, e1, f1);
    assert MatchKey(r.saved.name) == key;
    match IndexOfName(list, key)
    case Some(t) =>
      assert IndexOfName(r.list, key).Some? by {
        assert MatchKey(r.list[t].name) == key;
      }
    case None =>
      assert IndexOfName(r.list, key).Some? by {
        assert MatchKey(r.list[|list|].name) == key;
      }
  }

  /** The test `w => w.id !== id` of `deleteWorkout`. */
  function OtherWorkout(id: string): Workout -> bool {
    (w: Workout) => w.id != id
  }

  /** `deleteWorkout`: every workout without that id, in order. */
  function WithoutWorkout(list: seq<Workout>, id: string): (r: seq<Workout>)
    ensures forall i :: 0 <= i < |r| ==> r[i].id != id && r[i] in list
    ensures forall w :: w in list && w.id != id ==> w in r
    ensures |r| <= |list|
  {
    Filter(list, OtherWorkout(id))
  }

  /** Deletion keeps the order of what stays: on a concatenation it deletes from each part and keeps the parts
      in order, and one workout stays exactly when its id differs. */
  lemma WithoutWorkoutAppend(a: seq<Workout>, b: seq<Workout>, id: string)
    ensures WithoutWorkout(a + b, id) == WithoutWorkout(a, id) + WithoutWorkout(b, id)
    ensures WithoutWorkout([], id) == []
    ensures forall w :: WithoutWorkout([w], id) == if w.id != id then [w] else []
  {
    FilterAppend(a, b, OtherWorkout(id));
    forall w: Workout
      ensures WithoutWorkout([w], id) == if w.id != id then [w] else []
    {
      FilterOne(w, OtherWorkout(id));
    }
  }

  // ---------------------------------------------------------------- schedule

  /** The schedule before anything was stored: the seven days, Monday first, without entries. */
  function DefaultSchedule(): (r: seq<ScheduleDay>)
    ensures |r| == |Days| == 7
    ensures forall i :: 0 <= i < 7 ==> r[i] == ScheduleDay(Days[i], [])
  {
    seq(7, i requires 0 <= i < 7 => ScheduleDay(Days[i], []))
  }

  /** `findIndex` on the day name. */
  function DayIndex(schedule: seq<ScheduleDay>, day: string): (r: Option<nat>)
    ensures r.Some? ==> r.value < |schedule| && schedule[r.value].day == day
                        && forall j :: 0 <= j < r.value ==> schedule[j].day != day
    ensures r.None? ==> forall j :: 0 <= j < |schedule| ==> schedule[j].day != day
  {
    if schedule == [] then None
    else if schedule[0].day == day then Some(0)
    else match DayIndex(schedule[1..], day)
      case None => None
      case Some(j) => Some(j + 1)
  }

  /** `addEntryToDay`: the entry goes at the end of the first day with that name; an unknown day leaves
      the schedule as it was. */
  function AddEntry(schedule: seq<ScheduleDay>, day: string, entry: ScheduleEntry): (r: seq<ScheduleDay>)
    ensures |r| == |schedule| && forall j :: 0 <= j < |r| ==> r[j].day == schedule[j].day
    ensures DayIndex(schedule, day).None? ==> r == schedule
    ensures DayIndex(schedule, day).Some? ==>
              var i := DayIndex(schedule, day).value;
              && r[i].entries == schedule[i].entries + [entry]
              && forall j :: 0 <= j < |r| && j != i ==> r[j] == schedule[j]
  {
    match DayIndex(schedule, day)
    case None => schedule
    case Some(i) => schedule[i := ScheduleDay(day, schedule[i].entries + [entry])]
  }

  /** `removeEntryFromDay`: `splice(index, 1)` on the entries of the first day with that name; an unknown
      day leaves the schedule as it was. */
  function RemoveEntry(schedule: seq<ScheduleDay>, day: string, index: int): (r: seq<ScheduleDay>)
    ensures |r| == |schedule| && forall j :: 0 <= j < |r| ==> r[j].day == schedule[j].day
    ensures DayIndex(schedule, day).None? ==> r == schedule
    ensures DayIndex(schedule, day).Some? ==>
              var i := DayIndex(schedule, day).value;
              var es := schedule[i].entries;
              && (0 <= index < |es| ==> r[i].entries == es[..index] + es[index + 1..])
              && (index >= |es| ==> r[i].entries == es)
              && forall j :: 0 <= j < |r| && j != i ==> r[j] == schedule[j]
  {
    match DayIndex(schedule, day)
    case None => schedule
    case Some(i) => schedule[i := ScheduleDay(day, SpliceOne(schedule[i].entries, index))]
  }

  /** Removing the entry just added to a day restores the schedule. */
  lemma AddThenRemoveRestores(schedule: seq<ScheduleDay>, day: string, entry: ScheduleEntry)
    requires DayIndex(schedule, day).Some?
    ensures RemoveEntry(AddEntry(schedule, day, entry), day, |schedule[DayIndex(schedule, day).value].entries|) == schedule
  {
    var i := DayIndex(schedule, day).value;
    var added := AddEntry(schedule, day, entry);
    assert DayIndex(added, day) == Some(i) by {
      assert forall j :: 0 <= j < |added| ==> added[j].day == schedule[j].day;
    }
    var es := schedule[i].entries;
    assert (es + [entry])[..|es|] == es;
    var r := RemoveEntry(added, day, |es|);
    assert r[i] == schedule[i];
  }

  // ---------------------------------------------------------------- settings

  /** `setUnit`: only "lb" is kept; anything else becomes "kg". */
  function NormalizeUnit(unit: string): (r: string)
    ensures r == "lb" || r == "kg"
    ensures r == "lb" <==> unit == "lb"
  {
    if unit == "lb" then "lb" else "kg"
  }

  /** `setThemeName`: only "dark" is kept; anything else becomes "light". */
  function NormalizeTheme(name: string): (r: string)
    ensures r == "dark" || r == "light"
    ensures r == "dark" <==> name == "dark"
  {
    if name == "dark" then "dark" else "light"
  }

  /** `setDefaultRestSeconds`: a finite positive number is rounded, anything else (`None`: not a finite
      number) becomes 60. A positive value below one half rounds to 0. */
  function SafeRestSeconds(v: Option<real>): (r: int)
    ensures r >= 0
    ensures v.None? || v.value <= 0.0 ==> r == 60
    ensures v.Some? && v.value > 0.0 ==> v.value - 0.5 < r as real <= v.value + 0.5
    ensures r == 0 <==> v.Some? && 0.0 < v.value < 0.5
  {
    if v.Some? && v.value > 0.0 then Round(v.value) else 60
  }

  /** `getDefaultRestSeconds`: the stored whole number when it is positive, 60 when it is missing or not. */
  function ReadRestSeconds(stored: Option<int>): (r: int)
    ensures r > 0
    ensures stored.Some? && stored.value > 0 ==> r == stored.value
  {
    if stored.Some? && stored.value > 0 then stored.value else 60
  }

  /** Reading the setting back returns what the setter returned, except after a positive value below one
      half: the setter then answers 0 while the stored 0 reads back as 60. */
  lemma RestSecondsRoundTrip(v: Option<real>)
    ensures ReadRestSeconds(Some(SafeRestSeconds(v))) == SafeRestSeconds(v) <==> !(v.Some? && 0.0 < v.value < 0.5)
  {
  }

  // ---------------------------------------------------------------- weight history and the set log

  /** `logWeightForExercise`: a point is appended under the trimmed name, with the given date or `now`
      and the weight or 0; a blank name changes nothing. */
  function LogWeight(history: map<string, seq<WeightPoint>>, name: string, weight: Option<real>, date: Option<int>,
                     now: int): (r: map<string, seq<WeightPoint>>)
    ensures Trim(name) == "" ==> r == history
    ensures Trim(name) != "" ==>
              var key := Trim(name);
              && r.Keys == history.Keys + {key}
              && r[key] == (if key in history then history[key] else [])
                           + [WeightPoint(if date.Some? then date.value else now, RealOr(weight, 0.0))]
              && forall k :: k in history && k != key ==> r[k] == history[k]
  {
    var key := Trim(name);
    if key == "" then history
    else
      var point := WeightPoint(if date.Some? then date.value else now, RealOr(weight, 0.0));
      history[key := (if key in history then history[key] else []) + [point]]
  }

  /** The weight just logged under a name is the first suggestion for that name. */
  lemma LoggedWeightSuggestedFirst(history: map<string, seq<WeightPoint>>, name: string, weight: Option<real>,
                                   date: Option<int>, now: int, limit: int)
    requires Trim(name) != "" && limit > 0
    ensures var s := Analytics.WeightSuggestions(LogWeight(history, name, weight, date, now), name, limit);
            |s| > 0 && s[0] == WeightPoint(if date.Some? then date.value else now, RealOr(weight, 0.0))
  {
  }

  /** The raw fields handed to `logSessionSet`; `None` stands for a missing or non-numeric value. */
  datatype SetInput = SetInput(
    date: Option<int>,
    workoutId: Option<string>,
    exerciseName: string,
    setIndex: Option<int>,
    reps: Option<int>,
    weightKg: Option<real>)

  /** The entry `logSessionSet` stores: date defaults to `now`, a falsy workout id to none, and set index,
      reps and weight, when missing or 0, to 1, 0 and 0. */
  function NormalizeSet(input: SetInput, now: int): (e: SetLog)
    ensures e.date == if input.date.Some? then input.date.value else now
    ensures e.workoutId.Some? <==> IsTruthy(input.workoutId)
    ensures e.workoutId.Some? ==> e.workoutId == input.workoutId
    ensures e.exerciseName == input.exerciseName
    ensures e.setIndex == (if input.setIndex.Some? && input.setIndex.value != 0 then input.setIndex.value else 1)
    ensures e.reps == (if input.reps.Some? then input.reps.value else 0)
    ensures e.weightKg == (if input.weightKg.Some? then input.weightKg.value else 0.0)
  {
    SetLog(if input.date.Some? then input.date.value else now,
           if IsTruthy(input.workoutId) then input.workoutId else None,
           input.exerciseName,
           IntOr(input.setIndex, 1),
           IntOr(input.reps, 0),
           RealOr(input.weightKg, 0.0))
  }

  /** The persisted state of the app. */
  class Store {
    var workouts: seq<Workout>
    var schedule: seq<ScheduleDay>
    var sessions: seq<SetLog>
    var weightHistory: map<string, seq<WeightPoint>>
    var unit: string
    var themeName: string
    /** The stored default rest, as `parseInt` reads it back; `None` when never set. */
    var restSetting: Option<int>

    /** Empty storage: every getter answers its default. */
    constructor ()
      ensures workouts == [] && schedule == DefaultSchedule() && sessions == [] && weightHistory == map[]
      ensures unit == "kg" && themeName == "light" && restSetting == None
    {
      workouts := [];
      schedule := DefaultSchedule();
      sessions := [];
      weightHistory := map[];
      unit := "kg";
      themeName := "light";
      restSetting := None;
    }

    /** `getDefaultRestSeconds`. */
    function DefaultRestSeconds(): (r: int)
      reads this
      ensures r > 0
    {
      ReadRestSeconds(restSetting)
    }

    method SaveWorkout(id: Option<string>, name: string, exercises: seq<Exercise>, freshId: string) returns (saved: Workout)
      modifies this
      ensures Upsert(old(workouts), id, name, exercises, freshId) == Upserted(workouts, saved)
      ensures unchanged(this`schedule, this`sessions, this`weightHistory, this`unit, this`themeName, this`restSetting)
    {
      var normalized := NormalizedName(name);
      var idx := None;
      if IsTruthy(id) {
        idx := IndexOfId(workouts, id.value);
      }
      if idx.None? {
        idx := IndexOfName(workouts, ToLower(normalized));
      }
      if idx.Some? {
        var existing := workouts[idx.value];
        saved := Workout(existing.id, normalized, if IsTruthy(id) then exercises else existing.exercises + exercises);
        workouts := workouts[idx.value := saved];
      } else {
        saved := Workout(freshId, normalized, exercises);
        workouts := workouts + [saved];
      }
    }

    method DeleteWorkout(id: string)
      modifies this
      ensures workouts == WithoutWorkout(old(workouts), id)
      ensures unchanged(this`schedule, this`sessions, this`weightHistory, this`unit, this`themeName, this`restSetting)
    {
      workouts := Filter(workouts, OtherWorkout(id));
    }

    method AddEntryToDay(day: string, entry: ScheduleEntry) returns (r: seq<ScheduleDay>)
      modifies this
      ensures schedule == AddEntry(old(schedule), day, entry) && r == schedule
      ensures unchanged(this`workouts, this`sessions, this`weightHistory, this`unit, this`themeName, this`restSetting)
    {
      var idx := DayIndex(schedule, day);
      if idx.Some? {
        schedule := schedule[idx.value := ScheduleDay(day, schedule[idx.value].entries + [entry])];
      }
      r := schedule;
    }

    method RemoveEntryFromDay(day: string, index: int) returns (r: seq<ScheduleDay>)
      modifies this
      ensures schedule == RemoveEntry(old(schedule), day, index) && r == schedule
      ensures unchanged(this`workouts, this`sessions, this`weightHistory, this`unit, this`themeName, this`restSetting)
    {
      var idx := DayIndex(schedule, day);
      if idx.Some? {
        schedule := schedule[idx.value := ScheduleDay(day, SpliceOne(schedule[idx.value].entries, index))];
      }
      r := schedule;
    }

    method SetUnit(u: string) returns (v: string)
      modifies this
      ensures v == NormalizeUnit(u) && unit == v
      ensures unchanged(this`workouts, this`schedule, this`sessions, this`weightHistory, this`themeName, this`restSetting)
    {
      v := if u == "lb" then "lb" else "kg";
      unit := v;
    }

    method SetThemeName(name: string) returns (v: string)
      modifies this
      ensures v == NormalizeTheme(name) && themeName == v
      ensures unchanged(this`workouts, this`schedule, this`sessions, this`weightHistory, this`unit, this`restSetting)
    {
      v := if name == "dark" then "dark" else "light";
      themeName := v;
    }

    method SetDefaultRestSeconds(v: Option<real>) returns (safe: int)
      modifies this
      ensures safe == SafeRestSeconds(v) && restSetting == Some(safe)
      ensures unchanged(this`workouts, this`schedule, this`sessions, this`weightHistory, this`unit, this`themeName)
    {
      safe := if v.Some? && v.value > 0.0 then Round(v.value) else 60;
      restSetting := Some(safe);
    }

    method LogWeightForExercise(name: string, weight: Option<real>, date: Option<int>, now: int)
      modifies this
      ensures weightHistory == LogWeight(old(weightHistory), name, weight, date, now)
      ensures unchanged(this`workouts, this`schedule, this`sessions, this`unit, this`themeName, this`restSetting)
    {
      var key := Trim(name);
      if key == "" {
        return;
      }
      var point := WeightPoint(if date.Some? then date.value else now, RealOr(weight, 0.0));
      var list := if key in weightHistory then weightHistory[key] else [];
      weightHistory := weightHistory[key := list + [point]];
    }

    /** `logSessionSet`: appends exactly one normalised entry to the log and logs its weight under its
        exercise name. */
    method LogSessionSet(input: SetInput, now: int) returns (entry: SetLog)
      modifies this
      ensures entry == NormalizeSet(input, now)
      ensures sessions == old(sessions) + [entry]
      ensures weightHistory == LogWeight(old(weightHistory), entry.exerciseName, Some(entry.weightKg), Some(entry.date), now)
      ensures unchanged(this`workouts, this`schedule, this`unit, this`themeName, this`restSetting)
    {
      entry := NormalizeSet(input, now);
      sessions := sessions + [entry];
      LogWeightForExercise(entry.exerciseName, Some(entry.weightKg), Some(entry.date), now);
    }
  }
}
