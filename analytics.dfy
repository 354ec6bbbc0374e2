/**
 * The read-only queries over the performance log (the `sessions` list of
 * store.js): weight suggestions, personal records, per-workout statistics and
 * the weekly, ISO-week and monthly reports. The log is scanned in append order,
 * which the "earliest record wins" and "most recent first" rules depend on.
 */
module Analytics {
  import opened Wrappers
  import opened Js
  import opened Domain
  import Calendar

  // ---------------------------------------------------------------- suggestions

  /** `s.workoutId === workoutId && s.exerciseName === exerciseName` (`None` is `null`). */
  predicate SameWorkoutAndExercise(s: SetLog, name: string, workoutId: Option<string>) {
    s.workoutId == workoutId && s.exerciseName == name
  }

  /** The rep-range buckets 1-5, 6-12 and 13+; any other bucket string keeps every entry. */
  predicate InRepRange(repRange: string, reps: int) {
    if repRange == "1-5" then 1 <= reps <= 5
    else if repRange == "6-12" then 6 <= reps <= 12
    else if repRange == "13+" then reps >= 13
    else true
  }

  /** The entries `getWeightSuggestionsByWorkout` draws from, in log order: same workout and exercise,
      and inside the rep range when one is given (a falsy range filters nothing). */
  function SuggestionCandidates(log: seq<SetLog>, name: string, workoutId: Option<string>, repRange: Option<string>)
    : (c: seq<SetLog>)
    ensures forall i :: 0 <= i < |c| ==>
              c[i] in log && SameWorkoutAndExercise(c[i], name, workoutId)
              && (IsTruthy(repRange) ==> InRepRange(repRange.value, c[i].reps))
    ensures forall s :: (s in log && SameWorkoutAndExercise(s, name, workoutId)
                         && (IsTruthy(repRange) ==> InRepRange(repRange.value, s.reps))) ==> s in c
  {
    var forExercise := Filter(log, ForExercise(name, workoutId));
    if IsTruthy(repRange) then Filter(forExercise, InRange(repRange.value)) else forExercise
  }

  function ForExercise(name: string, workoutId: Option<string>): SetLog -> bool {
    (s: SetLog) => SameWorkoutAndExercise(s, name, workoutId)
  }

  function InRange(repRange: string): SetLog -> bool {
    (s: SetLog) => InRepRange(repRange, s.reps)
  }

  /** Whether `getWeightSuggestionsByWorkout` draws from entry `s`. */
  predicate IsCandidate(s: SetLog, name: string, workoutId: Option<string>, repRange: Option<string>) {
    SameWorkoutAndExercise(s, name, workoutId) && (IsTruthy(repRange) ==> InRepRange(repRange.value, s.reps))
  }

  /** The candidates are the log's candidate entries in log order: none for an empty log, and one more entry
      is appended exactly when it is a candidate. */
  lemma SuggestionCandidatesAppend(log: seq<SetLog>, s: SetLog, name: string, workoutId: Option<string>,
                                   repRange: Option<string>)
    ensures SuggestionCandidates([], name, workoutId, repRange) == []
    ensures SuggestionCandidates(log + [s], name, workoutId, repRange)
            == if IsCandidate(s, name, workoutId, repRange) then SuggestionCandidates(log, name, workoutId, repRange) + [s]
               else SuggestionCandidates(log, name, workoutId, repRange)
  {
    var forExercise := Filter(log, ForExercise(name, workoutId));
    FilterAppend(log, [s], ForExercise(name, workoutId));
    FilterOne(s, ForExercise(name, workoutId));
    if SameWorkoutAndExercise(s, name, workoutId) {
      if IsTruthy(repRange) {
        FilterAppend(forExercise, [s], InRange(repRange.value));
        FilterOne(s, InRange(repRange.value));
        assert Filter(forExercise, InRange(repRange.value)) + [] == Filter(forExercise, InRange(repRange.value));
      }
    } else {
      assert forExercise + [] == forExercise;
    }
  }

  function PointOf(s: SetLog): WeightPoint {
    WeightPoint(s.date, s.weightKg)
  }

  /** `getWeightSuggestionsByWorkout`: the last `limit` candidates, most recent first, as `{date, weightKg}`.
      A `limit` of 0 returns every candidate, as `slice(-0)` does. */
  function WeightSuggestionsByWorkout(log: seq<SetLog>, name: string, workoutId: Option<string>, limit: int,
                                      repRange: Option<string>): (r: seq<WeightPoint>)
    ensures var c := SuggestionCandidates(log, name, workoutId, repRange);
            && |r| <= |c|
            && (limit > 0 ==> |r| == if limit < |c| then limit else |c|)
            && (limit == 0 ==> |r| == |c|)
            && forall i :: 0 <= i < |r| ==> r[i] == PointOf(c[|c| - 1 - i])
  {
    var recent := Reverse(SliceLast(SuggestionCandidates(log, name, workoutId, repRange), limit));
    seq(|recent|, i requires 0 <= i < |recent| => PointOf(recent[i]))
  }

  /** `getWeightSuggestions`: the last `limit` points of the weight history kept under the trimmed name,
      most recent first, every point for a `limit` of 0; a name with no history yields nothing. */
  function WeightSuggestions(history: map<string, seq<WeightPoint>>, name: string, limit: int): (r: seq<WeightPoint>)
    ensures Trim(name) !in history ==> r == []
    ensures Trim(name) in history ==>
              var h := history[Trim(name)];
              && |r| <= |h|
              && (limit > 0 ==> |r| == if limit < |h| then limit else |h|)
              && (limit == 0 ==> |r| == |h|)
              && forall i :: 0 <= i < |r| ==> r[i] == h[|h| - 1 - i]
  {
    var key := Trim(name);
    var list := if key in history then history[key] else [];
    Reverse(SliceLast(list, limit))
  }

  /** Three sets of one exercise logged at 60, 65 and 70 kg, in that order, are suggested back as 70, 65, 60. */
  lemma SuggestionsMostRecentFirst(d1: int, d2: int, d3: int)
    ensures var log := [SetLog(d1, Some("w"), "Supino", 1, 10, 60.0),
                        SetLog(d2, Some("w"), "Supino", 2, 10, 65.0),
                        SetLog(d3, Some("w"), "Supino", 3, 10, 70.0)];
            WeightSuggestionsByWorkout(log, "Supino", Some("w"), 3, Some("6-12"))
              == [WeightPoint(d3, 70.0), WeightPoint(d2, 65.0), WeightPoint(d1, 60.0)]
  {
    var a := SetLog(d1, Some("w"), "Supino", 1, 10, 60.0);
    var b := SetLog(d2, Some("w"), "Supino", 2, 10, 65.0);
    var c := SetLog(d3, Some("w"), "Supino", 3, 10, 70.0);
    var log := [a, b, c];
    FilterKeepsAll(log, ForExercise("Supino", Some("w")));
    FilterKeepsAll(log, InRange("6-12"));
    assert SuggestionCandidates(log, "Supino", Some("w"), Some("6-12")) == log;
  }

  // ---------------------------------------------------------------- personal records

  /** The scope of `getPRForExercise`: the exercise name, and the workout unless `workoutId` is falsy. */
  predicate InRecordScope(s: SetLog, name: string, workoutId: Option<string>) {
    s.exerciseName == name && (!IsTruthy(workoutId) || s.workoutId == workoutId)
  }

  /** Entry `i` is in scope, at least as heavy as every in-scope entry, and strictly heavier than every
      in-scope entry before it. */
  predicate IsEarliestMax(log: seq<SetLog>, i: nat, name: string, workoutId: Option<string>) {
    && i < |log| && InRecordScope(log[i], name, workoutId)
    && (forall j :: 0 <= j < |log| && InRecordScope(log[j], name, workoutId) ==> log[j].weightKg <= log[i].weightKg)
    && (forall j :: 0 <= j < i && InRecordScope(log[j], name, workoutId) ==> log[j].weightKg < log[i].weightKg)
  }

  /** Where the record sits after scanning `log` in order: a later in-scope entry takes over only when it is
      strictly heavier. */
  function RecordIndex(log: seq<SetLog>, name: string, workoutId: Option<string>): (r: Option<nat>)
    ensures r.Some? ==> r.value < |log|
  {
    if log == [] then None
    else
      var prev := RecordIndex(log[..|log| - 1], name, workoutId);
      var last := |log| - 1;
      if InRecordScope(log[last], name, workoutId) && (prev.None? || log[last].weightKg > log[prev.value].weightKg)
      then Some(last)
      else prev
  }

  function RecordOf(s: SetLog): Record {
    Record(s.weightKg, s.reps, s.date)
  }

  /** The personal record `getPRForExercise` returns, `None` standing for `null`. */
  function BestRecord(log: seq<SetLog>, name: string, workoutId: Option<string>): Option<Record> {
    match RecordIndex(log, name, workoutId)
    case None => None
    case Some(i) => Some(RecordOf(log[i]))
  }

  /** There is no record exactly when no entry is in scope; otherwise the record is the earliest heaviest
      in-scope entry, and no other entry is. */
  lemma {:induction false} RecordIsEarliestMax(log: seq<SetLog>, name: string, workoutId: Option<string>)
    ensures RecordIndex(log, name, workoutId).None? <==>
            forall j :: 0 <= j < |log| ==> !InRecordScope(log[j], name, workoutId)
    ensures forall i: nat :: IsEarliestMax(log, i, name, workoutId) <==> RecordIndex(log, name, workoutId) == Some(i)
  {
    if log != [] {
      var init := log[..|log| - 1];
      RecordIsEarliestMax(init, name, workoutId);
      assert forall j :: 0 <= j < |init| ==> init[j] == log[j];
    }
  }

  /** Appending an entry leaves the record as it was or makes that entry the record, and the record's weight
      never goes down. */
  lemma RecordAfterAppend(log: seq<SetLog>, e: SetLog, name: string, workoutId: Option<string>)
    ensures var before := BestRecord(log, name, workoutId);
            var after := BestRecord(log + [e], name, workoutId);
            && (after == before || (InRecordScope(e, name, workoutId) && after == Some(RecordOf(e))))
            && (before.Some? ==> after.Some? && after.value.weightKg >= before.value.weightKg)
            && (after != before ==> before.None? || e.weightKg > before.value.weightKg)
  {
    assert (log + [e])[..|log|] == log;
    var prev := RecordIndex(log, name, workoutId);
    if prev.Some? {
      assert (log + [e])[prev.value] == log[prev.value];
    }
  }

  /** `getPRForExercise`: one pass over the log keeping the first strictly heaviest in-scope entry. */
  method PRForExercise(log: seq<SetLog>, name: string, workoutId: Option<string>) returns (pr: Option<Record>)
    ensures pr == BestRecord(log, name, workoutId)
  {
    pr := None;
    ghost var at: Option<nat> := None;
    for i := 0 to |log|
      invariant at == RecordIndex(log[..i], name, workoutId)
      invariant at.Some? ==> at.value < i && pr == Some(RecordOf(log[at.value]))
      invariant at.None? ==> pr.None?
    {
      assert log[..i + 1][..i] == log[..i];
      var s := log[i];
      if InRecordScope(s, name, workoutId) && (pr.None? || s.weightKg > pr.value.weightKg) {
        pr := Some(RecordOf(s));
        at := Some(i);
      }
    }
    assert log[..|log|] == log;
  }

  // ---------------------------------------------------------------- sums over logged sets

  /** What one logged set adds to a volume: weight times repetitions. */
  function Volume(s: SetLog): real {
    s.weightKg * s.reps as real
  }

  /** The repetitions of `xs` added up. */
  function TotalReps(xs: seq<SetLog>): int {
    if xs == [] then 0 else TotalReps(xs[..|xs| - 1]) + xs[|xs| - 1].reps
  }

  /** The volumes of `xs` added up: the sum of weight times repetitions. */
  function TotalVolume(xs: seq<SetLog>): real {
    if xs == [] then 0.0 else TotalVolume(xs[..|xs| - 1]) + Volume(xs[|xs| - 1])
  }

  /** How many sets of `xs` are of exercise `name`. */
  function NameCount(xs: seq<SetLog>, name: string): nat {
    if xs == [] then 0 else NameCount(xs[..|xs| - 1], name) + if xs[|xs| - 1].exerciseName == name then 1 else 0
  }

  /** `Math.max` over the weights of `xs`, starting from 0. */
  function Heaviest(xs: seq<SetLog>): real {
    if xs == [] then 0.0
    else
      var prev := Heaviest(xs[..|xs| - 1]);
      if xs[|xs| - 1].weightKg > prev then xs[|xs| - 1].weightKg else prev
  }

  /** What one more set adds to each of the sums. */
  lemma SumsOfAppend(xs: seq<SetLog>, s: SetLog)
    ensures TotalReps(xs + [s]) == TotalReps(xs) + s.reps
    ensures TotalVolume(xs + [s]) == TotalVolume(xs) + Volume(s)
    ensures Heaviest(xs + [s]) == if s.weightKg > Heaviest(xs) then s.weightKg else Heaviest(xs)
    ensures forall name :: NameCount(xs + [s], name) == NameCount(xs, name) + if s.exerciseName == name then 1 else 0
  {
    assert (xs + [s])[..|xs|] == xs;
  }

  /** The heaviest weight is never below 0, is at least every weight of `xs`, and is either 0 or one of
      those weights. */
  lemma {:induction false} HeaviestIsMax(xs: seq<SetLog>)
    ensures Heaviest(xs) >= 0.0
    ensures forall i :: 0 <= i < |xs| ==> xs[i].weightKg <= Heaviest(xs)
    ensures Heaviest(xs) == 0.0 || exists i :: 0 <= i < |xs| && xs[i].weightKg == Heaviest(xs)
  {
    if xs != [] {
      var init := xs[..|xs| - 1];
      HeaviestIsMax(init);
      assert forall i :: 0 <= i < |init| ==> init[i] == xs[i];
      if Heaviest(xs) == Heaviest(init) && Heaviest(init) != 0.0 {
        var i :| 0 <= i < |init| && init[i].weightKg == Heaviest(init);
        assert xs[i].weightKg == Heaviest(xs);
      }
    }
  }

  // ---------------------------------------------------------------- workout statistics

  /** The position of the statistics for `name`, if there are any yet. */
  function StatsIndex(stats: seq<ExerciseStats>, name: string): (r: Option<nat>)
    ensures r.Some? ==> r.value < |stats| && stats[r.value].name == name
    ensures r.None? ==> forall j :: 0 <= j < |stats| ==> stats[j].name != name
  {
    if stats == [] then None
    else if stats[0].name == name then Some(0)
    else match StatsIndex(stats[1..], name)
      case None => None
      case Some(j) => Some(j + 1)
  }

  /** A row after one more of its sets: the running maximum, the volume sum and the set count. */
  function Bumped(st: ExerciseStats, s: SetLog): ExerciseStats {
    ExerciseStats(st.name, if s.weightKg > st.prKg then s.weightKg else st.prKg, st.totalVolumeKg + Volume(s), st.sets + 1)
  }

  /** The row a name starts with, `{ prKg: 0, totalVolumeKg: 0, sets: 0 }`. */
  function EmptyRow(name: string): ExerciseStats {
    ExerciseStats(name, 0.0, 0.0, 0)
  }

  /** One entry's contribution to the row of its exercise, which is created empty when missing. */
  function AddToStats(stats: seq<ExerciseStats>, s: SetLog): seq<ExerciseStats> {
    var j := StatsIndex(stats, s.exerciseName);
    if j.Some? then stats[j.value := Bumped(stats[j.value], s)]
    else stats + [Bumped(EmptyRow(s.exerciseName), s)]
  }

  /** The statistics after scanning the entries of workout `workoutId` in log order. */
  function StatsOf(log: seq<SetLog>, workoutId: Option<string>): seq<ExerciseStats> {
    if log == [] then []
    else
      var prev := StatsOf(log[..|log| - 1], workoutId);
      var s := log[|log| - 1];
      if s.workoutId == workoutId then AddToStats(prev, s) else prev
  }

  function OfExercise(workoutId: Option<string>, name: string): SetLog -> bool {
    (s: SetLog) => s.workoutId == workoutId && s.exerciseName == name
  }

  /** The entries of `log` that belong to workout `workoutId` and exercise `name`, in log order. */
  function SetsOf(log: seq<SetLog>, workoutId: Option<string>, name: string): seq<SetLog> {
    Filter(log, OfExercise(workoutId, name))
  }

  /** What the statistics promise: one row per exercise name; each row holds that workout's entries of its
      exercise (how many, at least one; the heaviest weight, never below 0; the total volume); and every
      entry of the workout has the row of its exercise. */
  predicate StatsSound(stats: seq<ExerciseStats>, log: seq<SetLog>, workoutId: Option<string>) {
    && DistinctStats(stats)
    && StatsTrack(stats, log, workoutId)
    && NamesCovered(stats, log, workoutId)
  }

  predicate DistinctStats(stats: seq<ExerciseStats>) {
    forall i, j :: 0 <= i < j < |stats| ==> stats[i].name != stats[j].name
  }

  /** A row holds the sets `xs` of its exercise. */
  predicate RowTracks(st: ExerciseStats, xs: seq<SetLog>) {
    && st.sets == |xs|
    && st.sets > 0
    && st.prKg == Heaviest(xs)
    && st.totalVolumeKg == TotalVolume(xs)
  }

  predicate StatsTrack(stats: seq<ExerciseStats>, log: seq<SetLog>, workoutId: Option<string>) {
    forall i :: 0 <= i < |stats| ==> RowTracks(stats[i], SetsOf(log, workoutId, stats[i].name))
  }

  predicate NamesCovered(stats: seq<ExerciseStats>, log: seq<SetLog>, workoutId: Option<string>) {
    forall k :: 0 <= k < |log| && log[k].workoutId == workoutId ==>
      exists i :: 0 <= i < |stats| && stats[i].name == log[k].exerciseName
  }

  /** One more entry of the log adds itself to its exercise's entries and to no other's. */
  lemma SetsOfAppend(init: seq<SetLog>, s: SetLog, workoutId: Option<string>, name: string)
    ensures SetsOf(init + [s], workoutId, name)
            == if s.workoutId == workoutId && s.exerciseName == name then SetsOf(init, workoutId, name) + [s]
               else SetsOf(init, workoutId, name)
  {
    FilterAppend(init, [s], OfExercise(workoutId, name));
    assert [s][1..] == [];
    assert SetsOf(init, workoutId, name) + [] == SetsOf(init, workoutId, name);
  }

  /** A name without statistics has no entries yet. */
  lemma AbsentNameHasNoSets(stats: seq<ExerciseStats>, log: seq<SetLog>, workoutId: Option<string>, name: string)
    requires NamesCovered(stats, log, workoutId)
    requires forall j :: 0 <= j < |stats| ==> stats[j].name != name
    ensures SetsOf(log, workoutId, name) == []
  {
    forall k | 0 <= k < |log|
      ensures !OfExercise(workoutId, name)(log[k])
    {
      if log[k].workoutId == workoutId {
        var i :| 0 <= i < |stats| && stats[i].name == log[k].exerciseName;
      }
    }
    FilterKeepsNone(log, OfExercise(workoutId, name));
  }

  /** Adding one of the workout's entries keeps the statistics sound. */
  lemma AddToStatsSound(prev: seq<ExerciseStats>, init: seq<SetLog>, s: SetLog, workoutId: Option<string>)
    requires StatsSound(prev, init, workoutId) && s.workoutId == workoutId
    ensures StatsSound(AddToStats(prev, s), init + [s], workoutId)
  {
    AddToStatsDistinct(prev, s);
    AddToStatsTrack(prev, init, s, workoutId);
    AddToStatsCover(prev, init, s, workoutId);
  }

  /** An entry keeps one row per name. */
  lemma AddToStatsDistinct(prev: seq<ExerciseStats>, s: SetLog)
    requires DistinctStats(prev)
    ensures DistinctStats(AddToStats(prev, s))
  {
    var stats := AddToStats(prev, s);
    forall i, j | 0 <= i < j < |stats|
      ensures stats[i].name != stats[j].name
    {
      if j == |prev| {
        assert stats[i].name == prev[i].name;
      } else {
        assert stats[i].name == prev[i].name && stats[j].name == prev[j].name;
      }
    }
  }

  /** A row that holds `xs` holds `xs + [s]` once bumped by `s`. */
  lemma BumpedTracks(st: ExerciseStats, xs: seq<SetLog>, s: SetLog)
    requires RowTracks(st, xs)
    ensures RowTracks(Bumped(st, s), xs + [s])
  {
    SumsOfAppend(xs, s);
  }

  /** The empty row bumped by `s` holds `[s]`. */
  lemma FirstRowTracks(s: SetLog)
    ensures RowTracks(Bumped(EmptyRow(s.exerciseName), s), [s])
  {
    SumsOfAppend([], s);
    assert [] + [s] == [s];
  }

  /** An entry of the workout goes to its exercise's row and to no other. */
  lemma AddToStatsTrack(prev: seq<ExerciseStats>, init: seq<SetLog>, s: SetLog, workoutId: Option<string>)
    requires StatsSound(prev, init, workoutId) && s.workoutId == workoutId
    ensures StatsTrack(AddToStats(prev, s), init + [s], workoutId)
  {
    var stats := AddToStats(prev, s);
    var idx := StatsIndex(prev, s.exerciseName);
    if idx.None? {
      AbsentNameHasNoSets(prev, init, workoutId, s.exerciseName);
    }
    forall i | 0 <= i < |stats|
      ensures RowTracks(stats[i], SetsOf(init + [s], workoutId, stats[i].name))
    {
      SetsOfAppend(init, s, workoutId, stats[i].name);
      if i == |prev| {
        FirstRowTracks(s);
      } else if idx == Some(i) {
        BumpedTracks(prev[i], SetsOf(init, workoutId, prev[i].name), s);
      } else {
        assert stats[i] == prev[i] && prev[i].name != s.exerciseName;
      }
    }
  }

  /** Every entry of the workout, the new one included, keeps a row for its exercise. */
  lemma AddToStatsCover(prev: seq<ExerciseStats>, init: seq<SetLog>, s: SetLog, workoutId: Option<string>)
    requires NamesCovered(prev, init, workoutId) && s.workoutId == workoutId
    ensures NamesCovered(AddToStats(prev, s), init + [s], workoutId)
  {
    var log := init + [s];
    var stats := AddToStats(prev, s);
    var idx := StatsIndex(prev, s.exerciseName);
    forall k | 0 <= k < |log| && log[k].workoutId == workoutId
      ensures exists i :: 0 <= i < |stats| && stats[i].name == log[k].exerciseName
    {
      if k < |init| {
        assert log[k] == init[k];
        var i :| 0 <= i < |prev| && prev[i].name == init[k].exerciseName;
        assert stats[i].name == prev[i].name;
      } else if idx.Some? {
        assert stats[idx.value].name == s.exerciseName;
      } else {
        assert stats[|prev|].name == s.exerciseName;
      }
    }
  }

  /** An entry of another workout changes nothing the statistics promise. */
  lemma OtherWorkoutSound(prev: seq<ExerciseStats>, init: seq<SetLog>, s: SetLog, workoutId: Option<string>)
    requires StatsSound(prev, init, workoutId) && s.workoutId != workoutId
    ensures StatsSound(prev, init + [s], workoutId)
  {
    var log := init + [s];
    forall name: string
      ensures SetsOf(log, workoutId, name) == SetsOf(init, workoutId, name)
    {
      SetsOfAppend(init, s, workoutId, name);
    }
    forall k | 0 <= k < |log| && log[k].workoutId == workoutId
      ensures exists i :: 0 <= i < |prev| && prev[i].name == log[k].exerciseName
    {
      assert k < |init| && log[k] == init[k];
    }
  }

  lemma {:induction false} StatsOfSound(log: seq<SetLog>, workoutId: Option<string>)
    ensures StatsSound(StatsOf(log, workoutId), log, workoutId)
  {
    if log != [] {
      var init := log[..|log| - 1];
      var s := log[|log| - 1];
      assert log == init + [s];
      StatsOfSound(init, workoutId);
      if s.workoutId == workoutId {
        AddToStatsSound(StatsOf(init, workoutId), init, s, workoutId);
      } else {
        OtherWorkoutSound(StatsOf(init, workoutId), init, s, workoutId);
      }
    }
  }

  /** `getWorkoutStats`: one pass over the workout's entries, grouping by exercise name. */
  method WorkoutStats(log: seq<SetLog>, workoutId: Option<string>) returns (stats: seq<ExerciseStats>)
    ensures stats == StatsOf(log, workoutId)
    ensures StatsSound(stats, log, workoutId)
  {
    stats := [];
    for i := 0 to |log|
      invariant stats == StatsOf(log[..i], workoutId)
    {
      assert log[..i + 1][..i] == log[..i];
      var s := log[i];
      if s.workoutId == workoutId {
        var j := StatsIndex(stats, s.exerciseName);
        if j.Some? {
          stats := stats[j.value := Bumped(stats[j.value], s)];
        } else {
          stats := stats + [Bumped(EmptyRow(s.exerciseName), s)];
        }
      }
    }
    assert log[..|log|] == log;
    StatsOfSound(log, workoutId);
  }

  // ---------------------------------------------------------------- reports

  /** The position of the bucket with `key`, if the report has one yet. */
  function KeyIndex(bs: seq<Bucket>, key: DayKey): (r: Option<nat>)
    ensures r.Some? ==> r.value < |bs| && bs[r.value].key == key
    ensures r.None? ==> forall j :: 0 <= j < |bs| ==> bs[j].key != key
  {
    if bs == [] then None
    else if bs[0].key == key then Some(0)
    else match KeyIndex(bs[1..], key)
      case None => None
      case Some(j) => Some(j + 1)
  }

  /** The position of the per-exercise count for `name`, if there is one yet. */
  function NameIndex(ex: seq<ExerciseCount>, name: string): (r: Option<nat>)
    ensures r.Some? ==> r.value < |ex| && ex[r.value].name == name
    ensures r.None? ==> forall j :: 0 <= j < |ex| ==> ex[j].name != name
  {
    if ex == [] then None
    else if ex[0].name == name then Some(0)
    else match NameIndex(ex[1..], name)
      case None => None
      case Some(j) => Some(j + 1)
  }

  /** `exercises[name] = (exercises[name] || 0) + 1`. */
  function CountExercise(ex: seq<ExerciseCount>, name: string): seq<ExerciseCount> {
    var j := NameIndex(ex, name);
    if j.Some? then ex[j.value := ExerciseCount(name, ex[j.value].count + 1)]
    else ex + [ExerciseCount(name, 1)]
  }

  /** One set added to a day bucket. */
  function Tally(b: Bucket, s: SetLog): Bucket {
    Bucket(b.key, b.sets + 1, b.reps + s.reps, b.volumeKg + Volume(s), CountExercise(b.exercises, s.exerciseName))
  }

  /** One set added to the bucket of its day, which is created empty when missing. */
  function AddToBuckets(bs: seq<Bucket>, key: DayKey, s: SetLog): seq<Bucket> {
    var j := KeyIndex(bs, key);
    if j.Some? then bs[j.value := Tally(bs[j.value], s)]
    else bs + [Tally(Bucket(key, 0, 0, 0.0, []), s)]
  }

  /** One set added to the totals; every set also counts as a session moment. */
  function AddToTotals(t: Totals, s: SetLog): Totals {
    Totals(t.sessions + 1, t.sets + 1, t.reps + s.reps, t.volumeKg + Volume(s))
  }

  /** The sets of `log` inside `[start, end]`, in log order; both ends are included, as in
      `d >= start && d <= end`. */
  function WindowSets(log: seq<SetLog>, start: int, end: int): seq<SetLog> {
    if log == [] then []
    else
      var s := log[|log| - 1];
      if start <= s.date <= end then WindowSets(log[..|log| - 1], start, end) + [s]
      else WindowSets(log[..|log| - 1], start, end)
  }

  /** The sets of `log` inside `[start, end]` that `keyOf` puts on the day `key`, in log order. */
  function DaySets(log: seq<SetLog>, start: int, end: int, keyOf: int -> DayKey, key: DayKey): seq<SetLog> {
    if log == [] then []
    else
      var s := log[|log| - 1];
      if start <= s.date <= end && keyOf(s.date) == key then DaySets(log[..|log| - 1], start, end, keyOf, key) + [s]
      else DaySets(log[..|log| - 1], start, end, keyOf, key)
  }

  /** The report after scanning `log` in order, tallying each entry inside `[start, end]` under the key
      `keyOf` gives its date. */
  function Accumulate(log: seq<SetLog>, start: int, end: int, keyOf: int -> DayKey): Report {
    if log == [] then Report([], NoTotals, start, end)
    else
      var r := Accumulate(log[..|log| - 1], start, end, keyOf);
      var s := log[|log| - 1];
      if start <= s.date <= end then Report(AddToBuckets(r.byDay, keyOf(s.date), s), AddToTotals(r.total, s), start, end)
      else r
  }

  function SumSets(bs: seq<Bucket>): nat {
    if bs == [] then 0 else bs[0].sets + SumSets(bs[1..])
  }

  function SumReps(bs: seq<Bucket>): int {
    if bs == [] then 0 else bs[0].reps + SumReps(bs[1..])
  }

  function SumVolume(bs: seq<Bucket>): real {
    if bs == [] then 0.0 else bs[0].volumeKg + SumVolume(bs[1..])
  }

  function SumCounts(ex: seq<ExerciseCount>): nat {
    if ex == [] then 0 else ex[0].count + SumCounts(ex[1..])
  }

  lemma {:induction false} SumsUpdate(bs: seq<Bucket>, j: nat, b: Bucket)
    requires j < |bs|
    ensures SumSets(bs[j := b]) == SumSets(bs) - bs[j].sets + b.sets
    ensures SumReps(bs[j := b]) == SumReps(bs) - bs[j].reps + b.reps
    ensures SumVolume(bs[j := b]) == SumVolume(bs) - bs[j].volumeKg + b.volumeKg
  {
    if j == 0 {
      assert bs[j := b][1..] == bs[1..];
    } else {
      assert bs[j := b][1..] == bs[1..][j - 1 := b];
      SumsUpdate(bs[1..], j - 1, b);
    }
  }

  lemma {:induction false} SumsAppend(bs: seq<Bucket>, b: Bucket)
    ensures SumSets(bs + [b]) == SumSets(bs) + b.sets
    ensures SumReps(bs + [b]) == SumReps(bs) + b.reps
    ensures SumVolume(bs + [b]) == SumVolume(bs) + b.volumeKg
  {
    if bs == [] {
      assert bs + [b] == [b];
      assert [b][1..] == [];
    } else {
      assert (bs + [b])[1..] == bs[1..] + [b];
      SumsAppend(bs[1..], b);
    }
  }

  lemma {:induction false} CountsUpdate(ex: seq<ExerciseCount>, j: nat, c: ExerciseCount)
    requires j < |ex|
    ensures SumCounts(ex[j := c]) == SumCounts(ex) - ex[j].count + c.count
  {
    if j == 0 {
      assert ex[j := c][1..] == ex[1..];
    } else {
      assert ex[j := c][1..] == ex[1..][j - 1 := c];
      CountsUpdate(ex[1..], j - 1, c);
    }
  }

  lemma {:induction false} CountsAppend(ex: seq<ExerciseCount>, c: ExerciseCount)
    ensures SumCounts(ex + [c]) == SumCounts(ex) + c.count
  {
    if ex == [] {
      assert ex + [c] == [c];
      assert [c][1..] == [];
    } else {
      assert (ex + [c])[1..] == ex[1..] + [c];
      CountsAppend(ex[1..], c);
    }
  }

  predicate DistinctNames(ex: seq<ExerciseCount>) {
    forall a, b :: 0 <= a < b < |ex| ==> ex[a].name != ex[b].name
  }

  /** Counting an exercise adds exactly one to the per-exercise counts and keeps one count per name. */
  lemma CountExerciseSound(ex: seq<ExerciseCount>, name: string)
    requires DistinctNames(ex)
    ensures SumCounts(CountExercise(ex, name)) == SumCounts(ex) + 1
    ensures DistinctNames(CountExercise(ex, name))
    ensures exists k :: 0 <= k < |CountExercise(ex, name)| && CountExercise(ex, name)[k].name == name
  {
    var j := NameIndex(ex, name);
    var ex' := CountExercise(ex, name);
    if j.Some? {
      CountsUpdate(ex, j.value, ExerciseCount(name, ex[j.value].count + 1));
      assert ex'[j.value].name == name;
    } else {
      CountsAppend(ex, ExerciseCount(name, 1));
      assert ex'[|ex|].name == name;
    }
    assert DistinctNames(ex') by {
      forall a, b | 0 <= a < b < |ex'|
        ensures ex'[a].name != ex'[b].name
      {
        if b == |ex| {
          assert ex'[a] == ex[a];
        } else {
          assert ex'[a].name == ex[a].name && ex'[b].name == ex[b].name;
        }
      }
    }
  }

  /** The per-exercise counts of a day whose sets are `d`: one count per name, each name that occurs in `d`
      counted as often as it occurs, and no other name. */
  ghost predicate CountsTrack(ex: seq<ExerciseCount>, d: seq<SetLog>) {
    && DistinctNames(ex)
    && (forall k :: 0 <= k < |ex| ==> ex[k].count > 0 && ex[k].count == NameCount(d, ex[k].name))
    && (forall name :: (forall k :: 0 <= k < |ex| ==> ex[k].name != name) ==> NameCount(d, name) == 0)
  }

  /** Counting the exercise of one more set keeps the counts true to the day's sets. */
  lemma CountExerciseTracks(ex: seq<ExerciseCount>, d: seq<SetLog>, s: SetLog)
    requires CountsTrack(ex, d)
    ensures CountsTrack(CountExercise(ex, s.exerciseName), d + [s])
  {
    var n := s.exerciseName;
    var ex' := CountExercise(ex, n);
    SumsOfAppend(d, s);
    CountExerciseSound(ex, n);
    var j := NameIndex(ex, n);
    forall k | 0 <= k < |ex'|
      ensures ex'[k].count > 0 && ex'[k].count == NameCount(d + [s], ex'[k].name)
    {
      if k == |ex| {
        assert ex'[k] == ExerciseCount(n, 1);
      } else if j == Some(k) {
        assert ex'[k] == ExerciseCount(n, ex[k].count + 1);
      } else {
        assert ex'[k] == ex[k] && ex[k].name != n;
      }
    }
    forall name | forall k :: 0 <= k < |ex'| ==> ex'[k].name != name
      ensures NameCount(d + [s], name) == 0
    {
      forall k | 0 <= k < |ex|
        ensures ex[k].name != name
      {
        assert ex'[k].name == ex[k].name;
      }
    }
  }

  /** A bucket that holds the sets `d` of its day: how many, their repetitions and volume, and the
      per-exercise counts. */
  ghost predicate BucketTracks(b: Bucket, d: seq<SetLog>) {
    && b.sets == |d|
    && b.reps == TotalReps(d)
    && b.volumeKg == TotalVolume(d)
    && SumCounts(b.exercises) == b.sets
    && CountsTrack(b.exercises, d)
  }

  /** Tallying one more set keeps a bucket true to its day's sets. */
  lemma TallyTracks(b: Bucket, d: seq<SetLog>, s: SetLog)
    requires BucketTracks(b, d)
    ensures BucketTracks(Tally(b, s), d + [s])
  {
    SumsOfAppend(d, s);
    CountExerciseSound(b.exercises, s.exerciseName);
    CountExerciseTracks(b.exercises, d, s);
  }

  /** The totals hold the window's sets, their repetitions and volume, and agree with the buckets. */
  predicate TotalsSound(r: Report, log: seq<SetLog>) {
    var w := WindowSets(log, r.rangeStart, r.rangeEnd);
    && r.total.sessions == r.total.sets
    && r.total.sets == |w|
    && r.total.reps == TotalReps(w)
    && r.total.volumeKg == TotalVolume(w)
    && SumSets(r.byDay) == r.total.sets
    && SumReps(r.byDay) == r.total.reps
    && SumVolume(r.byDay) == r.total.volumeKg
  }

  /** A bucket holds the window's sets on its day, of which there is at least one. */
  ghost predicate BucketSound(b: Bucket, log: seq<SetLog>, start: int, end: int, keyOf: int -> DayKey) {
    b.sets > 0 && BucketTracks(b, DaySets(log, start, end, keyOf, b.key))
  }

  /** One sound bucket per day key, and a day without a bucket has no sets in the window. */
  ghost predicate BucketsSound(r: Report, log: seq<SetLog>, keyOf: int -> DayKey) {
    && DistinctKeys(r.byDay)
    && EachBucketSound(r.byDay, log, r.rangeStart, r.rangeEnd, keyOf)
    && MissingDaysEmpty(r.byDay, log, r.rangeStart, r.rangeEnd, keyOf)
  }

  predicate DistinctKeys(bs: seq<Bucket>) {
    forall i, j :: 0 <= i < j < |bs| ==> bs[i].key != bs[j].key
  }

  ghost predicate EachBucketSound(bs: seq<Bucket>, log: seq<SetLog>, start: int, end: int, keyOf: int -> DayKey) {
    forall i :: 0 <= i < |bs| ==> BucketSound(bs[i], log, start, end, keyOf)
  }

  ghost predicate MissingDaysEmpty(bs: seq<Bucket>, log: seq<SetLog>, start: int, end: int, keyOf: int -> DayKey) {
    forall key :: (forall i :: 0 <= i < |bs| ==> bs[i].key != key) ==> DaySets(log, start, end, keyOf, key) == []
  }

  ghost predicate ReportSound(r: Report, log: seq<SetLog>, keyOf: int -> DayKey) {
    TotalsSound(r, log) && BucketsSound(r, log, keyOf)
  }

  /** One more entry of the log joins the window's sets, and its day's, exactly when it falls inside. */
  lemma WindowAppendOne(log: seq<SetLog>, s: SetLog, start: int, end: int, keyOf: int -> DayKey)
    ensures WindowSets(log + [s], start, end)
            == if start <= s.date <= end then WindowSets(log, start, end) + [s] else WindowSets(log, start, end)
    ensures forall k :: DaySets(log + [s], start, end, keyOf, k)
                        == if start <= s.date <= end && keyOf(s.date) == k then DaySets(log, start, end, keyOf, k) + [s]
                           else DaySets(log, start, end, keyOf, k)
  {
    assert (log + [s])[..|log|] == log;
  }

  /** A set inside the window keeps the totals sound. */
  lemma TallyTotalsSound(r: Report, log: seq<SetLog>, s: SetLog, keyOf: int -> DayKey)
    requires TotalsSound(r, log) && r.rangeStart <= s.date <= r.rangeEnd
    ensures TotalsSound(Report(AddToBuckets(r.byDay, keyOf(s.date), s), AddToTotals(r.total, s), r.rangeStart, r.rangeEnd),
                        log + [s])
  {
    WindowAppendOne(log, s, r.rangeStart, r.rangeEnd, keyOf);
    SumsOfAppend(WindowSets(log, r.rangeStart, r.rangeEnd), s);
    var key := keyOf(s.date);
    var j := KeyIndex(r.byDay, key);
    if j.Some? {
      SumsUpdate(r.byDay, j.value, Tally(r.byDay[j.value], s));
    } else {
      SumsAppend(r.byDay, Tally(Bucket(key, 0, 0, 0.0, []), s));
    }
  }

  /** A set for a day that already has a bucket keeps the buckets sound. */
  lemma TallyExistingSound(r: Report, log: seq<SetLog>, s: SetLog, keyOf: int -> DayKey, j: nat)
    requires BucketsSound(r, log, keyOf) && r.rangeStart <= s.date <= r.rangeEnd
    requires KeyIndex(r.byDay, keyOf(s.date)) == Some(j)
    ensures BucketsSound(Report(r.byDay[j := Tally(r.byDay[j], s)], AddToTotals(r.total, s), r.rangeStart, r.rangeEnd),
                         log + [s], keyOf)
  {
    var bs := r.byDay[j := Tally(r.byDay[j], s)];
    WindowAppendOne(log, s, r.rangeStart, r.rangeEnd, keyOf);
    assert DistinctKeys(bs) by {
      forall a, b | 0 <= a < b < |bs|
        ensures bs[a].key != bs[b].key
      {
        assert bs[a].key == r.byDay[a].key && bs[b].key == r.byDay[b].key;
      }
    }
    TallyExistingEach(r, log, s, keyOf, j);
    assert MissingDaysEmpty(bs, log + [s], r.rangeStart, r.rangeEnd, keyOf) by {
      forall key | forall i :: 0 <= i < |bs| ==> bs[i].key != key
        ensures DaySets(log + [s], r.rangeStart, r.rangeEnd, keyOf, key) == []
      {
        forall i | 0 <= i < |r.byDay|
          ensures r.byDay[i].key != key
        {
          assert bs[i].key == r.byDay[i].key;
        }
      }
    }
  }

  /** Each bucket stays sound when the set goes to the bucket of its day. */
  lemma TallyExistingEach(r: Report, log: seq<SetLog>, s: SetLog, keyOf: int -> DayKey, j: nat)
    requires BucketsSound(r, log, keyOf) && r.rangeStart <= s.date <= r.rangeEnd
    requires KeyIndex(r.byDay, keyOf(s.date)) == Some(j)
    ensures EachBucketSound(r.byDay[j := Tally(r.byDay[j], s)], log + [s], r.rangeStart, r.rangeEnd, keyOf)
  {
    var bs := r.byDay[j := Tally(r.byDay[j], s)];
    WindowAppendOne(log, s, r.rangeStart, r.rangeEnd, keyOf);
    forall i | 0 <= i < |bs|
      ensures BucketSound(bs[i], log + [s], r.rangeStart, r.rangeEnd, keyOf)
    {
      assert BucketSound(r.byDay[i], log, r.rangeStart, r.rangeEnd, keyOf);
      if i == j {
        TallyTracks(r.byDay[j], DaySets(log, r.rangeStart, r.rangeEnd, keyOf, r.byDay[j].key), s);
      } else {
        assert bs[i] == r.byDay[i] && r.byDay[i].key != keyOf(s.date);
      }
    }
  }

  /** A set for a day without a bucket opens one and keeps the buckets sound. */
  lemma TallyNewSound(r: Report, log: seq<SetLog>, s: SetLog, keyOf: int -> DayKey)
    requires BucketsSound(r, log, keyOf) && r.rangeStart <= s.date <= r.rangeEnd
    requires KeyIndex(r.byDay, keyOf(s.date)).None?
    ensures BucketsSound(Report(r.byDay + [Tally(Bucket(keyOf(s.date), 0, 0, 0.0, []), s)], AddToTotals(r.total, s),
                                r.rangeStart, r.rangeEnd), log + [s], keyOf)
  {
    var bs := r.byDay + [Tally(Bucket(keyOf(s.date), 0, 0, 0.0, []), s)];
    assert DistinctKeys(bs) by {
      forall a, b | 0 <= a < b < |bs|
        ensures bs[a].key != bs[b].key
      {
        assert bs[a] == r.byDay[a];
      }
    }
    TallyNewEach(r, log, s, keyOf);
    TallyNewMissing(r, log, s, keyOf);
  }

  /** The old buckets stay sound and the new bucket holds the one set of its day. */
  lemma TallyNewEach(r: Report, log: seq<SetLog>, s: SetLog, keyOf: int -> DayKey)
    requires BucketsSound(r, log, keyOf) && r.rangeStart <= s.date <= r.rangeEnd
    requires KeyIndex(r.byDay, keyOf(s.date)).None?
    ensures EachBucketSound(r.byDay + [Tally(Bucket(keyOf(s.date), 0, 0, 0.0, []), s)], log + [s],
                            r.rangeStart, r.rangeEnd, keyOf)
  {
    var key := keyOf(s.date);
    var bs := r.byDay + [Tally(Bucket(key, 0, 0, 0.0, []), s)];
    assert DaySets(log, r.rangeStart, r.rangeEnd, keyOf, key) == [];
    NewBucketSound(log, s, r.rangeStart, r.rangeEnd, keyOf);
    WindowAppendOne(log, s, r.rangeStart, r.rangeEnd, keyOf);
    forall i | 0 <= i < |r.byDay|
      ensures BucketSound(bs[i], log + [s], r.rangeStart, r.rangeEnd, keyOf)
    {
      assert bs[i] == r.byDay[i];
      assert BucketSound(r.byDay[i], log, r.rangeStart, r.rangeEnd, keyOf);
    }
  }

  /** The first set of a day opens a bucket that holds exactly that set. */
  lemma NewBucketSound(log: seq<SetLog>, s: SetLog, start: int, end: int, keyOf: int -> DayKey)
    requires start <= s.date <= end && DaySets(log, start, end, keyOf, keyOf(s.date)) == []
    ensures BucketSound(Tally(Bucket(keyOf(s.date), 0, 0, 0.0, []), s), log + [s], start, end, keyOf)
  {
    var empty := Bucket(keyOf(s.date), 0, 0, 0.0, []);
    WindowAppendOne(log, s, start, end, keyOf);
    assert BucketTracks(empty, []);
    TallyTracks(empty, [], s);
    assert DaySets(log + [s], start, end, keyOf, keyOf(s.date)) == [] + [s];
  }

  /** A day still without a bucket had no sets before and gets none from this one. */
  lemma TallyNewMissing(r: Report, log: seq<SetLog>, s: SetLog, keyOf: int -> DayKey)
    requires BucketsSound(r, log, keyOf)
    ensures MissingDaysEmpty(r.byDay + [Tally(Bucket(keyOf(s.date), 0, 0, 0.0, []), s)], log + [s],
                             r.rangeStart, r.rangeEnd, keyOf)
  {
    var bs := r.byDay + [Tally(Bucket(keyOf(s.date), 0, 0, 0.0, []), s)];
    WindowAppendOne(log, s, r.rangeStart, r.rangeEnd, keyOf);
    forall k: DayKey | forall i :: 0 <= i < |bs| ==> bs[i].key != k
      ensures DaySets(log + [s], r.rangeStart, r.rangeEnd, keyOf, k) == []
    {
      assert bs[|r.byDay|].key != k;
      forall i | 0 <= i < |r.byDay|
        ensures r.byDay[i].key != k
      {
        assert bs[i] == r.byDay[i];
      }
    }
  }

  /** A set inside the window keeps the buckets sound. */
  lemma TallyBucketsSound(r: Report, log: seq<SetLog>, s: SetLog, keyOf: int -> DayKey)
    requires BucketsSound(r, log, keyOf) && r.rangeStart <= s.date <= r.rangeEnd
    ensures BucketsSound(Report(AddToBuckets(r.byDay, keyOf(s.date), s), AddToTotals(r.total, s), r.rangeStart, r.rangeEnd),
                         log + [s], keyOf)
  {
    var j := KeyIndex(r.byDay, keyOf(s.date));
    if j.Some? {
      TallyExistingSound(r, log, s, keyOf, j.value);
    } else {
      TallyNewSound(r, log, s, keyOf);
    }
  }

  /** A set outside the window changes nothing. */
  lemma SkipSound(r: Report, log: seq<SetLog>, s: SetLog, keyOf: int -> DayKey)
    requires ReportSound(r, log, keyOf) && !(r.rangeStart <= s.date <= r.rangeEnd)
    ensures ReportSound(r, log + [s], keyOf)
  {
    WindowAppendOne(log, s, r.rangeStart, r.rangeEnd, keyOf);
    forall i | 0 <= i < |r.byDay|
      ensures BucketSound(r.byDay[i], log + [s], r.rangeStart, r.rangeEnd, keyOf)
    {
      assert BucketSound(r.byDay[i], log, r.rangeStart, r.rangeEnd, keyOf);
    }
  }

  /** Every report the scan builds is sound for the log it scanned, and keeps the window it was given. */
  lemma {:induction false} AccumulateSound(log: seq<SetLog>, start: int, end: int, keyOf: int -> DayKey)
    ensures var r := Accumulate(log, start, end, keyOf);
            r.rangeStart == start && r.rangeEnd == end && ReportSound(r, log, keyOf)
  {
    if log != [] {
      var init := log[..|log| - 1];
      var s := log[|log| - 1];
      assert log == init + [s];
      AccumulateSound(init, start, end, keyOf);
      var r := Accumulate(init, start, end, keyOf);
      if start <= s.date <= end {
        TallyTotalsSound(r, init, s, keyOf);
        TallyBucketsSound(r, init, s, keyOf);
      } else {
        SkipSound(r, init, s, keyOf);
      }
    }
  }

  /** The loop shared by the four report queries of store.js. */
  method BuildReport(log: seq<SetLog>, start: int, end: int, keyOf: int -> DayKey) returns (r: Report)
    ensures r == Accumulate(log, start, end, keyOf)
    ensures ReportSound(r, log, keyOf)
  {
    var byDay: seq<Bucket> := [];
    var total := NoTotals;
    for i := 0 to |log|
      invariant Report(byDay, total, start, end) == Accumulate(log[..i], start, end, keyOf)
    {
      assert log[..i + 1][..i] == log[..i];
      var s := log[i];
      if start <= s.date <= end {
        var key := keyOf(s.date);
        ghost var before := byDay;
        var j := KeyIndex(byDay, key);
        if j.None? {
          byDay := byDay + [Bucket(key, 0, 0, 0.0, [])];
          j := Some(|byDay| - 1);
        }
        byDay := byDay[j.value := Tally(byDay[j.value], s)];
        total := AddToTotals(total, s);
        if KeyIndex(before, key).None? {
          assert AddToBuckets(before, key, s)[|before|] == byDay[|before|];
          assert byDay == AddToBuckets(before, key, s);
        }
      }
    }
    assert log[..|log|] == log;
    r := Report(byDay, total, start, end);
    AccumulateSound(log, start, end, keyOf);
  }

  // ---------------------------------------------------------------- the four report queries

  /** The UTC calendar date of a timestamp, as `toISOString().split('T')[0]` gives it. */
  function DateKey(t: int): DayKey {
    UtcDate(t / Calendar.MsPerDay)
  }

  /** The key of the weekly reports: the local weekday name of the timestamp, from a time-zone dependent
      naming function. */
  function WeekdayKey(weekdayName: int -> string): int -> DayKey {
    t => WeekdayLabel(weekdayName(t))
  }

  /** `getWeeklyReportWithOffset`: the seven days ending at `now` moved by `weekOffset` weeks, both ends at the
      time of day of `now`. */
  method WeeklyReportWithOffset(log: seq<SetLog>, now: int, weekOffset: int, weekdayName: int -> string)
    returns (r: Report)
    ensures r.rangeEnd == now + 7 * weekOffset * Calendar.MsPerDay
    ensures r.rangeStart == r.rangeEnd - 6 * Calendar.MsPerDay
    ensures r == Accumulate(log, r.rangeStart, r.rangeEnd, WeekdayKey(weekdayName))
    ensures ReportSound(r, log, WeekdayKey(weekdayName))
  {
    var end := now + weekOffset * 7 * Calendar.MsPerDay;
    var start := end - 6 * Calendar.MsPerDay;
    r := BuildReport(log, start, end, WeekdayKey(weekdayName));
    AccumulateSound(log, start, end, WeekdayKey(weekdayName));
  }

  /** `getWeeklyReport`: the last seven days up to `now`, which is the offset query at offset 0. */
  method WeeklyReport(log: seq<SetLog>, now: int, weekdayName: int -> string) returns (r: Report)
    ensures r.rangeEnd == now && r.rangeStart == now - 6 * Calendar.MsPerDay
    ensures r == Accumulate(log, r.rangeStart, r.rangeEnd, WeekdayKey(weekdayName))
    ensures ReportSound(r, log, WeekdayKey(weekdayName))
  {
    var start := now - 6 * Calendar.MsPerDay;
    r := BuildReport(log, start, now, WeekdayKey(weekdayName));
    AccumulateSound(log, start, now, WeekdayKey(weekdayName));
  }

  /** `getWeeklyReportFor`: the ISO week `week` of `year`, from 00:00 UTC of its Monday to 00:00 UTC of its
      Sunday (sets logged later on that Sunday fall outside). */
  method WeeklyReportFor(log: seq<SetLog>, year: int, week: int, weekdayName: int -> string) returns (r: Report)
    ensures r.rangeStart == Calendar.IsoWeekStart(year, week) * Calendar.MsPerDay
    ensures r.rangeStart % Calendar.MsPerDay == 0 && Calendar.Weekday(r.rangeStart / Calendar.MsPerDay) == 1
    ensures r.rangeEnd == r.rangeStart + 6 * Calendar.MsPerDay
    ensures !(0 <= year <= 99) && 1 <= week <= 52 ==>
              Calendar.WeekNumberOfDay(r.rangeStart / Calendar.MsPerDay) == Calendar.YearWeek(year, week)
    ensures r == Accumulate(log, r.rangeStart, r.rangeEnd, WeekdayKey(weekdayName))
    ensures ReportSound(r, log, WeekdayKey(weekdayName))
  {
    var monday := Calendar.IsoWeekStart(year, week);
    var start := monday * Calendar.MsPerDay;
    var end := (monday + 6) * Calendar.MsPerDay;
    assert start / Calendar.MsPerDay == monday;
    if !(0 <= year <= 99) && 1 <= week <= 52 {
      Calendar.IsoWeekRoundTrip(year, week);
    }
    r := BuildReport(log, start, end, WeekdayKey(weekdayName));
    AccumulateSound(log, start, end, WeekdayKey(weekdayName));
  }

  /** Every day that has a bucket in a report keyed by UTC date lies between the window's first and last day. */
  lemma {:induction false} DateBucketInWindow(log: seq<SetLog>, start: int, end: int, day: int)
    requires DaySets(log, start, end, DateKey, UtcDate(day)) != []
    ensures start / Calendar.MsPerDay <= day <= end / Calendar.MsPerDay
  {
    var s := log[|log| - 1];
    if !(start <= s.date <= end && DateKey(s.date) == UtcDate(day)) {
      DateBucketInWindow(log[..|log| - 1], start, end, day);
    }
  }

  /** `getMonthlyReport`: from 00:00 UTC of the first day of `month` (1 to 12) to 00:00 UTC of its last day,
      bucketed by UTC date. */
  method MonthlyReport(log: seq<SetLog>, year: int, month: int) returns (r: Report)
    ensures r.rangeStart == Calendar.Utc(year, month - 1, 1) * Calendar.MsPerDay
    ensures r.rangeEnd == Calendar.Utc(year, month, 0) * Calendar.MsPerDay
    ensures !(0 <= year <= 99) && 1 <= month <= 12 ==>
              && r.rangeEnd - r.rangeStart == (Calendar.MonthLength(year, month - 1) - 1) * Calendar.MsPerDay
              && forall i :: 0 <= i < |r.byDay| ==>
                   r.byDay[i].key.UtcDate?
                   && Calendar.Utc(year, month - 1, 1) <= r.byDay[i].key.day <= Calendar.Utc(year, month, 0)
                   && Calendar.YearOf(r.byDay[i].key.day) == year
    ensures r == Accumulate(log, r.rangeStart, r.rangeEnd, DateKey)
    ensures ReportSound(r, log, DateKey)
  {
    var first := Calendar.Utc(year, month - 1, 1);
    var last := Calendar.Utc(year, month, 0);
    var start := first * Calendar.MsPerDay;
    var end := last * Calendar.MsPerDay;
    r := BuildReport(log, start, end, DateKey);
    AccumulateSound(log, start, end, DateKey);
    assert start / Calendar.MsPerDay == first && end / Calendar.MsPerDay == last;
    forall i | 0 <= i < |r.byDay|
      ensures r.byDay[i].key.UtcDate? && first <= r.byDay[i].key.day <= last
    {
      var b := r.byDay[i];
      assert BucketSound(b, log, start, end, DateKey);
      KeyIsDate(log, start, end, b.key);
      DateBucketInWindow(log, start, end, b.key.day);
    }
    if !(0 <= year <= 99) && 1 <= month <= 12 {
      Calendar.MonthWindow(year, month);
      forall i | 0 <= i < |r.byDay|
        ensures Calendar.YearOf(r.byDay[i].key.day) == year
      {
        Calendar.YearOfUnique(year, r.byDay[i].key.day);
      }
    }
  }

  /** A report keyed by UTC date has only date keys. */
  lemma {:induction false} KeyIsDate(log: seq<SetLog>, start: int, end: int, key: DayKey)
    requires DaySets(log, start, end, DateKey, key) != []
    ensures key.UtcDate?
  {
    var s := log[|log| - 1];
    if !(start <= s.date <= end && DateKey(s.date) == key) {
      KeyIsDate(log[..|log| - 1], start, end, key);
    }
  }

  /** Two sets of 10 x 50 kg and 8 x 55 kg inside the window give 2 sets, 18 reps and 940 kg of volume, and
      the 55 kg set is the record. */
  lemma TwoSetsScenario(d1: int, d2: int, start: int, end: int, keyOf: int -> DayKey)
    requires start <= d1 <= end && start <= d2 <= end
    ensures var log := [SetLog(d1, Some("w"), "Agachamento", 1, 10, 50.0), SetLog(d2, Some("w"), "Agachamento", 2, 8, 55.0)];
            && Accumulate(log, start, end, keyOf).total == Totals(2, 2, 18, 940.0)
            && BestRecord(log, "Agachamento", Some("w")) == Some(Record(55.0, 8, d2))
            && BestRecord(log, "Agachamento", None) == Some(Record(55.0, 8, d2))
  {
    var log := [SetLog(d1, Some("w"), "Agachamento", 1, 10, 50.0), SetLog(d2, Some("w"), "Agachamento", 2, 8, 55.0)];
    assert log[..1] == [log[0]];
    assert log[..1][..0] == [];
    assert Accumulate(log[..1], start, end, keyOf).total == Totals(1, 1, 10, 500.0);
  }
}
