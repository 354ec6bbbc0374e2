/**
 * The workout editor: a list of exercises put together from the input
 * fields, saved as a workout (new, or the one being edited), and the saved
 * workouts loaded, deleted or started afresh. Each numeric input is held as
 * the value `parseInt`/`parseFloat` reads from it, `None` when it reads no
 * number.
 */
module WorkoutBuilder {
  import opened Wrappers
  import opened Js
  import opened Domain
  import Storage
  import Units
  import WorkoutDetail

  /** The exercise `addExercise` builds: the trimmed name, the counts (0 when unreadable), the weight read in
      the screen's unit and stored in kilograms (0 when unreadable), and one per-set slot per set, each
      holding that weight. */
  function NewExercise(id: string, name: string, sets: Option<nat>, reps: Option<nat>, rest: Option<nat>,
                       weight: Option<real>, unit: string): (e: Exercise)
    ensures e.id == Some(id) && e.name == Trim(name)
    ensures e.sets == NatOr(sets, 0) && e.reps == NatOr(reps, 0) && e.rest == NatOr(rest, 0)
    ensures e.weight.Some? && Units.KgToUnit(unit, e.weight.value) == RealOr(weight, 0.0)
    ensures e.weightPerSet.Some? && |e.weightPerSet.value| == e.sets
    ensures forall k :: 0 <= k < e.sets ==> e.weightPerSet.value[k] == e.weight.value
  {
    var baseKg := Units.UnitToKg(unit, RealOr(weight, 0.0));
    Units.UnitRoundTrip(unit, RealOr(weight, 0.0));
    var n := NatOr(sets, 0);
    Exercise(Some(id), Trim(name), n, NatOr(reps, 0), NatOr(rest, 0), Some(baseKg), Some(seq(n, _ => baseKg)))
  }

  /** An exercise built with at least one set already has the per-set weights the session screen expects, so
      the session leaves it as it is; one built with no sets gets a single slot with its weight. */
  lemma NewExerciseInSession(id: string, name: string, sets: Option<nat>, reps: Option<nat>, rest: Option<nat>,
                             weight: Option<real>, unit: string)
    ensures var e := NewExercise(id, name, sets, reps, rest, weight, unit);
            && (e.sets > 0 ==> WorkoutDetail.Repaired(e) == e)
            && (e.sets == 0 ==> WorkoutDetail.Repaired(e).weightPerSet == Some([e.weight.value]))
  {
    var e := NewExercise(id, name, sets, reps, rest, weight, unit);
    if e.sets == 0 {
      assert !WorkoutDetail.WellSized(e);
      assert WorkoutDetail.Repaired(e).weightPerSet.value == [e.weight.value];
    }
  }

  /** The test `e => e.id !== id` of `removeExercise`. */
  function OtherId(id: Option<string>): Exercise -> bool {
    (e: Exercise) => e.id != id
  }

  /** `removeExercise`: every exercise with that id goes, the others stay in order. */
  function WithoutExercise(exercises: seq<Exercise>, id: Option<string>): (r: seq<Exercise>)
    ensures forall k :: 0 <= k < |r| ==> r[k].id != id && r[k] in exercises
    ensures forall e :: e in exercises && e.id != id ==> e in r
  {
    Filter(exercises, OtherId(id))
  }

  /** Removal keeps the order of what stays: on a concatenation it removes from each part and keeps the parts
      in order, and one exercise stays exactly when its id differs. */
  lemma WithoutExerciseAppend(a: seq<Exercise>, b: seq<Exercise>, id: Option<string>)
    ensures WithoutExercise(a + b, id) == WithoutExercise(a, id) + WithoutExercise(b, id)
    ensures WithoutExercise([], id) == []
    ensures forall e :: WithoutExercise([e], id) == if e.id != id then [e] else []
  {
    FilterAppend(a, b, OtherId(id));
    forall e: Exercise
      ensures WithoutExercise([e], id) == if e.id != id then [e] else []
    {
      FilterOne(e, OtherId(id));
    }
  }

  /** Removing the exercise just added, by its id, gives back the list before the addition when no earlier
      exercise had that id. */
  lemma AddThenRemove(exercises: seq<Exercise>, e: Exercise)
    requires forall k :: 0 <= k < |exercises| ==> exercises[k].id != e.id
    ensures WithoutExercise(exercises + [e], e.id) == exercises
  {
    FilterAppend(exercises, [e], OtherId(e.id));
    FilterKeepsAll(exercises, OtherId(e.id));
    FilterKeepsNone([e], OtherId(e.id));
    assert exercises + [] == exercises;
  }

  /** Removing an id no exercise has changes nothing. */
  lemma RemoveAbsentId(exercises: seq<Exercise>, id: Option<string>)
    requires forall k :: 0 <= k < |exercises| ==> exercises[k].id != id
    ensures WithoutExercise(exercises, id) == exercises
  {
    FilterKeepsAll(exercises, OtherId(id));
  }

  /** The name `save` sends: the trimmed workout name, "Treino" when that is empty. */
  function SavedName(workoutName: string): (r: string)
    ensures Trim(workoutName) == "" ==> r == "Treino"
    ensures Trim(workoutName) != "" ==> r == Trim(workoutName)
    ensures Storage.NormalizedName(r) == r
  {
    var n := Trim(workoutName);
    TrimIdempotent(workoutName);
    if n == "" then "Treino" else n
  }

  /** A second save of the workout the editor got back from the first one replaces that workout: its id
      and the number of workouts stay, and its exercises become the editor's. */
  lemma SaveAgainReplaces(list: seq<Workout>, editing: Option<string>, name: string, exercises: seq<Exercise>,
                          name2: string, exercises2: seq<Exercise>, freshId: string, freshId2: string)
    requires Storage.UniqueIds(list) && forall j :: 0 <= j < |list| ==> list[j].id != "" && list[j].id != freshId
    requires freshId != ""
    ensures var first := Storage.Upsert(list, editing, name, exercises, freshId);
            var second := Storage.Upsert(first.list, Some(first.saved.id), name2, exercises2, freshId2);
            && |second.list| == |first.list|
            && second.saved == Workout(first.saved.id, Storage.NormalizedName(name2), exercises2)
  {
    var first := Storage.Upsert(list, editing, name, exercises, freshId);
    Storage.UpsertKeepsIdsUnique(list, editing, name, exercises, freshId);
    var i: nat;
    match Storage.SaveTarget(list, editing, name)
    case Some(t) =>
      i := t;
    case None =>
      i := |list|;
    assert first.list[i] == first.saved && first.saved.id != "";
    forall j | 0 <= j < i
      ensures first.list[j].id != first.saved.id
    {
      assert first.list[j].id != first.list[i].id;
    }
    Storage.UpsertById(first.list, first.saved.id, name2, exercises2, freshId2, i);
  }

  class Builder {
    const store: Storage.Store
    var workoutName: string
    var sets: Option<nat>
    var reps: Option<nat>
    var rest: Option<nat>
    var weight: Option<real>
    var unit: string
    var exercises: seq<Exercise>
    var name: string
    var list: seq<Workout>
    var editingId: Option<string>

    /** The editor after its first load: the stored workouts and unit, a leg-day name, 3 x 10 with 60 s rest,
        no weight, no exercises, nothing being edited. */
    constructor (store: Storage.Store)
      ensures this.store == store && list == store.workouts && unit == store.unit
      ensures workoutName == "Treino de Perna" && sets == Some(3) && reps == Some(10) && rest == Some(60)
      ensures weight == None && exercises == [] && name == "" && editingId == None
    {
      this.store := store;
      workoutName := "Treino de Perna";
      sets, reps, rest := Some(3), Some(10), Some(60);
      weight := None;
      unit := store.unit;
      exercises := [];
      name := "";
      list := store.workouts;
      editingId := None;
    }

    /** Typing into the exercise inputs. */
    method EditInputs(name: string, sets: Option<nat>, reps: Option<nat>, rest: Option<nat>, weight: Option<real>)
      modifies this`name, this`sets, this`reps, this`rest, this`weight
      ensures this.name == name && this.sets == sets && this.reps == reps && this.rest == rest && this.weight == weight
    {
      this.name, this.sets, this.reps, this.rest, this.weight := name, sets, reps, rest, weight;
    }

    method RenameWorkout(n: string)
      modifies this`workoutName
      ensures workoutName == n
    {
      workoutName := n;
    }

    /** `addExercise`: a blank name adds nothing; otherwise the new exercise goes to the end of the list and
        the name and weight inputs are cleared. `freshId` stands for the clock reading that names it. */
    method AddExercise(freshId: string)
      modifies this`exercises, this`name, this`weight
      ensures Trim(old(name)) == "" ==> exercises == old(exercises) && name == old(name) && weight == old(weight)
      ensures Trim(old(name)) != "" ==>
                && exercises == old(exercises) + [NewExercise(freshId, old(name), sets, reps, rest, old(weight), unit)]
                && name == "" && weight == None
    {
      if Trim(name) == "" {
        return;
      }
      var item := NewExercise(freshId, name, sets, reps, rest, weight, unit);
      exercises := exercises + [item];
      name := "";
      weight := None;
    }

    method RemoveExercise(id: Option<string>)
      modifies this`exercises
      ensures exercises == WithoutExercise(old(exercises), id)
    {
      exercises := Filter(exercises, OtherId(id));
    }

    /** `save`: the editor's exercises are saved under the edited workout's id (none when nothing is being
        edited, or the id is empty) and the editor's name; the list is reloaded and the saved workout becomes
        the one being edited. */
    method Save(freshId: string)
      modifies this`list, this`editingId, store
      ensures var payloadId := if IsTruthy(old(editingId)) then old(editingId) else None;
              var u := Storage.Upsert(old(store.workouts), payloadId, SavedName(workoutName), exercises, freshId);
              store.workouts == u.list && list == store.workouts && editingId == Some(u.saved.id)
      ensures unchanged(store`schedule, store`sessions, store`weightHistory, store`unit, store`themeName, store`restSetting)
    {
      var payloadId := if IsTruthy(editingId) then editingId else None;
      var saved := store.SaveWorkout(payloadId, SavedName(workoutName), exercises, freshId);
      list := store.workouts;
      editingId := Some(saved.id);
    }

    method LoadWorkout(w: Workout)
      modifies this`editingId, this`workoutName, this`exercises
      ensures editingId == Some(w.id) && workoutName == w.name && exercises == w.exercises
    {
      editingId := Some(w.id);
      workoutName := w.name;
      exercises := w.exercises;
    }

    /** `removeWorkout`: the workout is deleted and the list reloaded; the editor is cleared only when it was
        editing that workout. */
    method RemoveWorkout(id: string)
      modifies this`list, this`editingId, this`workoutName, this`exercises, store
      ensures store.workouts == Storage.WithoutWorkout(old(store.workouts), id) && list == store.workouts
      ensures old(editingId) == Some(id) ==> editingId == None && workoutName == "" && exercises == []
      ensures old(editingId) != Some(id) ==>
                editingId == old(editingId) && workoutName == old(workoutName) && exercises == old(exercises)
      ensures unchanged(store`schedule, store`sessions, store`weightHistory, store`unit, store`themeName, store`restSetting)
    {
      store.DeleteWorkout(id);
      list := store.workouts;
      if editingId == Some(id) {
        editingId := None;
        workoutName := "";
        exercises := [];
      }
    }

    /** `newWorkout`: nothing being edited, no name, no exercises, and the inputs back to 3 x 10 with 60 s. */
    method NewWorkout()
      modifies this`editingId, this`workoutName, this`exercises, this`sets, this`reps, this`rest, this`name, this`weight
      ensures editingId == None && workoutName == "" && exercises == []
      ensures sets == Some(3) && reps == Some(10) && rest == Some(60) && name == "" && weight == None
    {
      editingId := None;
      workoutName := "";
      exercises := [];
      sets, reps, rest := Some(3), Some(10), Some(60);
      name := "";
      weight := None;
    }

    /** The unit buttons: the store keeps "lb" or "kg" and the editor takes what was stored. */
    method ChooseUnit(u: string)
      modifies this`unit, store
      ensures unit == store.unit == Storage.NormalizeUnit(u)
      ensures unchanged(store`workouts, store`schedule, store`sessions, store`weightHistory, store`themeName, store`restSetting)
    {
      var v := store.SetUnit(u);
      unit := v;
    }
  }
}
