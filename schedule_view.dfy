/**
 * The weekly schedule screen: the seven days in a fixed order, each with the
 * entries that link a saved workout, a panel for adding one, and removal of a
 * shown entry by its position in the stored day.
 */
module ScheduleView {
  import opened Wrappers
  import opened Js
  import opened Domain
  import Storage

  /** A day's entries as the screen finds them: those of the first stored day with that name, none when the
      day is missing. */
  function DayEntries(schedule: seq<ScheduleDay>, day: string): (r: seq<ScheduleEntry>)
    ensures (forall j :: 0 <= j < |schedule| ==> schedule[j].day != day) ==> r == []
    ensures forall i :: 0 <= i < |schedule| && schedule[i].day == day && (forall j :: 0 <= j < i ==> schedule[j].day != day)
                        ==> r == schedule[i].entries
  {
    match Storage.DayIndex(schedule, day)
    case None => []
    case Some(i) => schedule[i].entries
  }

  /** A shown entry together with its position among the day's stored entries. */
  datatype Shown = Shown(entry: ScheduleEntry, index: nat)

  /** The entries from position `from` on that link a workout, each with its position, in stored order. */
  function LinkedFrom(entries: seq<ScheduleEntry>, from: nat): (r: seq<Shown>)
    requires from <= |entries|
    ensures forall k :: 0 <= k < |r| ==>
              from <= r[k].index < |entries| && entries[r[k].index] == r[k].entry && IsTruthy(r[k].entry.workoutId)
    ensures forall k, l :: 0 <= k < l < |r| ==> r[k].index < r[l].index
    ensures forall i :: from <= i < |entries| && IsTruthy(entries[i].workoutId) ==> Shown(entries[i], i) in r
    decreases |entries| - from
  {
    if from == |entries| then []
    else (if IsTruthy(entries[from].workoutId) then [Shown(entries[from], from)] else []) + LinkedFrom(entries, from + 1)
  }

  /** `workoutEntries`: the entries that link a workout, in their stored order, each paired with its
      position among all the day's entries. */
  function WorkoutEntries(entries: seq<ScheduleEntry>): (r: seq<Shown>)
    ensures forall k :: 0 <= k < |r| ==>
              r[k].index < |entries| && entries[r[k].index] == r[k].entry && IsTruthy(r[k].entry.workoutId)
    ensures forall k, l :: 0 <= k < l < |r| ==> r[k].index < r[l].index
    ensures forall i :: 0 <= i < |entries| && IsTruthy(entries[i].workoutId) ==> Shown(entries[i], i) in r
  {
    LinkedFrom(entries, 0)
  }

  /** Removing a shown entry removes exactly that entry from its day, keeping the others in order. */
  lemma RemoveShownEntry(schedule: seq<ScheduleDay>, day: string, x: Shown)
    requires x in WorkoutEntries(DayEntries(schedule, day))
    ensures Storage.DayIndex(schedule, day).Some?
    ensures var i := Storage.DayIndex(schedule, day).value;
            var es := schedule[i].entries;
            var r := Storage.RemoveEntry(schedule, day, x.index);
            && x.index < |es| && es[x.index] == x.entry
            && r[i].entries == es[..x.index] + es[x.index + 1..]
            && forall j :: 0 <= j < |r| && j != i ==> r[j] == schedule[j]
  {
    var shown := WorkoutEntries(DayEntries(schedule, day));
    var k :| 0 <= k < |shown| && shown[k] == x;
  }

  /** What one day of the screen shows. */
  datatype DayView = DayView(day: string, shown: seq<Shown>)

  /** The screen's days: the seven day names in their fixed order, Monday first, whatever the stored order. */
  function Rendered(schedule: seq<ScheduleDay>): (r: seq<DayView>)
    ensures |r| == 7
    ensures forall i :: 0 <= i < 7 ==> r[i].day == Days[i] && r[i].shown == WorkoutEntries(DayEntries(schedule, Days[i]))
  {
    seq(7, i requires 0 <= i < 7 => DayView(Days[i], WorkoutEntries(DayEntries(schedule, Days[i]))))
  }

  /** `workouts.find(x => x.id === id)`. */
  function FindWorkout(workouts: seq<Workout>, id: string): (r: Option<Workout>)
    ensures r.Some? ==> r.value in workouts && r.value.id == id
    ensures r.None? <==> forall j :: 0 <= j < |workouts| ==> workouts[j].id != id
  {
    if workouts == [] then None
    else if workouts[0].id == id then Some(workouts[0])
    else FindWorkout(workouts[1..], id)
  }

  /** The add panel is open for at most one day; pressing the open day's button closes it. */
  function Toggled(open: Option<string>, day: string): (r: Option<string>)
    ensures open == Some(day) ==> r == None
    ensures open != Some(day) ==> r == Some(day)
  {
    if open == Some(day) then None else Some(day)
  }

  /** Pressing the same day's button twice leaves the panel as it was, unless it was open for that day. */
  lemma ToggleTwice(open: Option<string>, day: string)
    ensures Toggled(Toggled(open, day), day) == if open == Some(day) then Some(day) else None
  {
  }

  class ScheduleScreen {
    const store: Storage.Store
    var schedule: seq<ScheduleDay>
    var workouts: seq<Workout>
    var showAddForDay: Option<string>

    /** The screen after loading: the stored schedule and workouts, no add panel open. */
    constructor (store: Storage.Store)
      ensures this.store == store && schedule == store.schedule && workouts == store.workouts
      ensures showAddForDay == None
    {
      this.store := store;
      schedule := store.schedule;
      workouts := store.workouts;
      showAddForDay := None;
    }

    /** Linking a saved workout to a day: an entry titled with the workout's name and carrying its id. */
    method AddWorkoutEntry(day: string, w: Workout)
      modifies this`schedule, store
      ensures schedule == store.schedule
      ensures store.schedule == Storage.AddEntry(old(store.schedule), day, ScheduleEntry(w.name, Some(w.id)))
      ensures unchanged(store`workouts, store`sessions, store`weightHistory, store`unit, store`themeName, store`restSetting)
    {
      schedule := store.AddEntryToDay(day, ScheduleEntry(w.name, Some(w.id)));
    }

    /** Removing a shown entry by its stored position. */
    method RemoveEntry(day: string, index: int)
      modifies this`schedule, store
      ensures schedule == store.schedule
      ensures store.schedule == Storage.RemoveEntry(old(store.schedule), day, index)
      ensures unchanged(store`workouts, store`sessions, store`weightHistory, store`unit, store`themeName, store`restSetting)
    {
      schedule := store.RemoveEntryFromDay(day, index);
    }

    /** `openEntry`: the workout an entry links to, when it links one and that workout exists. */
    function OpenEntry(entry: ScheduleEntry): (r: Option<Workout>)
      reads this
      ensures !IsTruthy(entry.workoutId) ==> r == None
      ensures r.Some? ==> r.value in workouts && Some(r.value.id) == entry.workoutId
      ensures IsTruthy(entry.workoutId) && (exists w :: w in workouts && Some(w.id) == entry.workoutId) ==> r.Some?
    {
      if !IsTruthy(entry.workoutId) then None else FindWorkout(workouts, entry.workoutId.value)
    }

    method ToggleAddPanel(day: string)
      modifies this`showAddForDay
      ensures showAddForDay == Toggled(old(showAddForDay), day)
    {
      showAddForDay := if showAddForDay == Some(day) then None else Some(day);
    }
  }
}
