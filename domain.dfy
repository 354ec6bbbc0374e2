/**
 * The records the app keeps: exercises, workouts, the weekly schedule, the
 * append-only log of performed sets, the per-name weight history, and the
 * derived report shapes. Weights are kilograms as reals; instants are
 * milliseconds since the epoch.
 */
module Domain {
  import opened Wrappers

  /** An exercise of a workout. A count of 0 stands for 0 or a missing field alike, as `Number(x) || d`
      treats both the same; `weight` is `None` when the field is undefined and `weightPerSet` is `None`
      when it is not an array. */
  datatype Exercise = Exercise(
    id: Option<string>,
    name: string,
    sets: nat,
    reps: nat,
    rest: nat,
    weight: Option<real>,
    weightPerSet: Option<seq<real>>)

  datatype Workout = Workout(id: string, name: string, exercises: seq<Exercise>)

  /** A schedule entry: a plain label, or a link to a saved workout when `workoutId` is set. */
  datatype ScheduleEntry = ScheduleEntry(title: string, workoutId: Option<string>)

  datatype ScheduleDay = ScheduleDay(day: string, entries: seq<ScheduleEntry>)

  /** The seven weekday names, Monday first, as the schedule stores them. */
  const Days: seq<string> := ["Segunda", "Terça", "Quarta", "Quinta", "Sexta", "Sábado", "Domingo"]

  /** One performed set, as `logSessionSet` stores it (already normalised). */
  datatype SetLog = SetLog(
    date: int,
    workoutId: Option<string>,
    exerciseName: string,
    setIndex: int,
    reps: int,
    weightKg: real)

  /** A point of weight history, and the `{date, weightKg}` shape of a weight suggestion. */
  datatype WeightPoint = WeightPoint(date: int, weightKg: real)

  /** A personal record: the weight, the reps and the date of the set that set it. */
  datatype Record = Record(weightKg: real, reps: int, date: int)

  /** Per-exercise statistics of one workout: heaviest weight (never below 0), total volume, set count. */
  datatype ExerciseStats = ExerciseStats(name: string, prKg: real, totalVolumeKg: real, sets: nat)

  /** A report bucket key: a local weekday label for weekly reports, a UTC calendar day for monthly ones. */
  datatype DayKey = WeekdayLabel(text: string) | UtcDate(day: int)

  datatype ExerciseCount = ExerciseCount(name: string, count: nat)

  /** One bucket of a report; `exercises` keeps the exercise names in first-seen order. */
  datatype Bucket = Bucket(key: DayKey, sets: nat, reps: int, volumeKg: real, exercises: seq<ExerciseCount>)

  datatype Totals = Totals(sessions: nat, sets: nat, reps: int, volumeKg: real)

  /** A report: the buckets in first-seen order (the key order of the `byDay` object), the grand total,
      and the window `[rangeStart, rangeEnd]` in milliseconds. */
  datatype Report = Report(byDay: seq<Bucket>, total: Totals, rangeStart: int, rangeEnd: int)

  const NoTotals: Totals := Totals(0, 0, 0, 0.0)

  /** The report shown before any report is loaded. */
  const EmptyReport: Report := Report([], NoTotals, 0, 0)
}
