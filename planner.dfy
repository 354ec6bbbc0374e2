/**
 * The plan generator: a goal, a set of training days and a muscle focus
 * become a weekly split of workouts, either by the local rules or from an
 * AI answer normalised to the same shape, and a plan is saved as one workout
 * per day, each linked from that day of the schedule.
 */
module AIPlanner {
  import opened Wrappers
  import opened Js
  import opened Domain
  import Storage

  /** The muscle groups the focus can be chosen from, in the order the screen offers them. */
  const Muscles: seq<string> := ["Peito", "Costas", "Pernas", "Ombros", "Braços", "Core"]

  /** Every muscle group listed is one the screen offers. */
  predicate AllMuscles(ms: seq<string>) {
    forall m :: m in ms ==> m in Muscles
  }

  /** The three exercises the local rules prescribe for each muscle group. */
  function BaseExercises(muscle: string): (r: seq<string>)
    requires muscle in Muscles
    ensures |r| == 3
  {
    if muscle == "Peito" then ["Supino Reto", "Crucifixo", "Supino Inclinado"]
    else if muscle == "Costas" then ["Barra Fixa", "Remada Curvada", "Puxada Frente"]
    else if muscle == "Pernas" then ["Agachamento Livre", "Leg Press", "Levantamento Terra"]
    else if muscle == "Ombros" then ["Desenvolvimento", "Elevação Lateral", "Remada Alta"]
    else if muscle == "Braços" then ["Rosca Direta", "Tríceps Testa", "Rosca Martelo"]
    else ["Prancha", "Elevação de Pernas", "Abdominal Crunch"]
  }

  // ---------------------------------------------------------------- toggling tags

  /** The test `x => x !== m` the toggles filter with. */
  function Differs(m: string): string -> bool {
    (x: string) => x != m
  }

  /** `toggleFocus` and `toggleDay`: a present item is removed (every copy of it), an absent one appended. */
  function Toggle(s: seq<string>, m: string): (r: seq<string>)
    ensures m in r <==> m !in s
    ensures forall x :: x != m ==> (x in r <==> x in s)
    ensures m !in s ==> r == s + [m]
  {
    if m in s then Filter(s, Differs(m)) else s + [m]
  }

  /** Toggling the same item twice restores the list when the item was absent; when it was present, every
      other item keeps its place and the item moves to the end. Either way membership is as before. */
  lemma ToggleTwice(s: seq<string>, m: string)
    ensures forall x :: x in Toggle(Toggle(s, m), m) <==> x in s
    ensures m !in s ==> Toggle(Toggle(s, m), m) == s
    ensures m in s ==> Toggle(Toggle(s, m), m) == Filter(s, Differs(m)) + [m]
  {
    if m !in s {
      FilterAppend(s, [m], Differs(m));
      FilterKeepsAll(s, Differs(m));
      FilterKeepsNone([m], Differs(m));
      assert s + [] == s;
    }
  }

  // ---------------------------------------------------------------- plans

  /** One prescribed exercise of a plan day. */
  datatype PlanExercise = PlanExercise(ex: string, sets: nat, reps: nat, rest: nat)

  datatype PlanDay = PlanDay(day: string, muscle: string, exercises: seq<PlanExercise>)

  datatype Plan = Plan(goal: string, days: nat, equipment: string, issues: string, split: seq<PlanDay>)

  /** Sets, reps and rest seconds for a goal. */
  datatype Dose = Dose(sets: nat, reps: nat, rest: nat)

  /** Strength ("Força") work is 5 sets of 5 with 120 s rest; any other goal 3 sets of 10 with 60 s. */
  function GoalDose(goal: string): (d: Dose)
    ensures d.sets > 0 && d.reps > 0 && d.rest > 0
    ensures goal == "Força" <==> d == Dose(5, 5, 120)
    ensures goal != "Força" <==> d == Dose(3, 10, 60)
  {
    if goal == "Força" then Dose(5, 5, 120) else Dose(3, 10, 60)
  }

  /** The muscle groups the days cycle through: the focus, or all of them when none is chosen. */
  function Targets(focus: seq<string>): (r: seq<string>)
    ensures |r| > 0
  {
    if |focus| > 0 then focus else Muscles
  }

  /** The days a plan covers: the chosen ones in the order they were chosen, or the whole week. */
  function DayNames(trainingDays: seq<string>): (r: seq<string>)
    ensures |r| > 0
  {
    if |trainingDays| > 0 then trainingDays else Days
  }

  /** What the local rules produce: day `d` is the `d`-th day name, trains the muscle the targets cycle to
      at `d`, and holds that muscle's three exercises dosed for the goal. */
  predicate IsLocalPlan(p: Plan, goal: string, equipment: string, issues: string, focus: seq<string>,
                        trainingDays: seq<string>)
    requires AllMuscles(focus)
  {
    var targets := Targets(focus);
    var dayNames := DayNames(trainingDays);
    && p.goal == goal && p.equipment == equipment && p.issues == issues
    && p.days == |p.split| == |dayNames|
    && forall d :: 0 <= d < |p.split| ==>
         && p.split[d].day == dayNames[d]
         && p.split[d].muscle == MuscleOf(targets, d)
         && |p.split[d].exercises| == 3
         && forall k :: 0 <= k < 3 ==>
              p.split[d].exercises[k]
              == PlanExercise(BaseExercises(MuscleOf(targets, d))[k], GoalDose(goal).sets, GoalDose(goal).reps,
                              GoalDose(goal).rest)
  }

  /** The `map` that turns exercise names into prescribed exercises: each name, in order, with the dose. */
  function Dosed(names: seq<string>, dose: Dose): (r: seq<PlanExercise>)
    ensures |r| == |names|
    ensures forall k :: 0 <= k < |names| ==> r[k] == PlanExercise(names[k], dose.sets, dose.reps, dose.rest)
  {
    seq(|names|, k requires 0 <= k < |names| => PlanExercise(names[k], dose.sets, dose.reps, dose.rest))
  }

  /** The muscle group day `d` trains: the targets in turn, starting over after the last. */
  function MuscleOf(targets: seq<string>, d: nat): (m: string)
    requires |targets| > 0
    ensures m in targets
  {
    targets[d % |targets|]
  }

  /** The day the local loop pushes for index `d`: the `d`-th day name, the muscle the targets cycle to, and
      that muscle's three exercises dosed for the goal. */
  function LocalDay(dayNames: seq<string>, targets: seq<string>, dose: Dose, d: nat): (r: PlanDay)
    requires d < |dayNames| && |targets| > 0 && AllMuscles(targets)
    ensures r.day == dayNames[d] && r.muscle == MuscleOf(targets, d) && |r.exercises| == 3
    ensures forall k :: 0 <= k < 3 ==>
              r.exercises[k] == PlanExercise(BaseExercises(MuscleOf(targets, d))[k], dose.sets, dose.reps, dose.rest)
  {
    var muscle := MuscleOf(targets, d);
    PlanDay(dayNames[d], muscle, Dosed(BaseExercises(muscle), dose))
  }

  /** The local rules determine the plan: two plans that both follow them are the same plan. */
  lemma LocalPlanUnique(p: Plan, q: Plan, goal: string, equipment: string, issues: string, focus: seq<string>,
                        trainingDays: seq<string>)
    requires AllMuscles(focus)
    requires IsLocalPlan(p, goal, equipment, issues, focus, trainingDays)
    requires IsLocalPlan(q, goal, equipment, issues, focus, trainingDays)
    ensures p == q
  {
    forall d | 0 <= d < |p.split|
      ensures p.split[d] == q.split[d]
    {
      assert p.split[d].exercises == q.split[d].exercises;
    }
    assert p.split == q.split;
  }

  /** The first `n` days the local loop pushes. */
  function LocalSplit(dayNames: seq<string>, targets: seq<string>, dose: Dose, n: nat): (r: seq<PlanDay>)
    requires n <= |dayNames| && |targets| > 0 && AllMuscles(targets)
    ensures |r| == n
  {
    if n == 0 then [] else LocalSplit(dayNames, targets, dose, n - 1) + [LocalDay(dayNames, targets, dose, n - 1)]
  }

  /** Day `e` of the split is the day the loop pushed at `e`. */
  lemma {:induction false} LocalSplitAt(dayNames: seq<string>, targets: seq<string>, dose: Dose, n: nat, e: nat)
    requires n <= |dayNames| && |targets| > 0 && AllMuscles(targets) && e < n
    ensures LocalSplit(dayNames, targets, dose, n)[e] == LocalDay(dayNames, targets, dose, e)
  {
    if e < n - 1 {
      LocalSplitAt(dayNames, targets, dose, n - 1, e);
    }
  }

  /** The plan `generatePlan` builds: the local split over the chosen (or all) days and muscle groups. */
  function LocalPlan(goal: string, equipment: string, issues: string, focus: seq<string>, trainingDays: seq<string>)
    : (p: Plan)
    requires AllMuscles(focus)
    ensures p.goal == goal && p.equipment == equipment && p.issues == issues
    ensures p.days == |p.split| == |DayNames(trainingDays)|
  {
    var dayNames := DayNames(trainingDays);
    Plan(goal, |dayNames|, equipment, issues, LocalSplit(dayNames, Targets(focus), GoalDose(goal), |dayNames|))
  }

  /** The local plan follows the local rules. */
  lemma LocalPlanFollowsRules(goal: string, equipment: string, issues: string, focus: seq<string>,
                              trainingDays: seq<string>)
    requires AllMuscles(focus)
    ensures IsLocalPlan(LocalPlan(goal, equipment, issues, focus, trainingDays), goal, equipment, issues, focus,
                        trainingDays)
  {
    var dayNames, targets := DayNames(trainingDays), Targets(focus);
    forall e | 0 <= e < |dayNames|
      ensures LocalSplit(dayNames, targets, GoalDose(goal), |dayNames|)[e] == LocalDay(dayNames, targets, GoalDose(goal), e)
    {
      LocalSplitAt(dayNames, targets, GoalDose(goal), |dayNames|, e);
    }
  }

  /** `generatePlan`'s loop over the days. */
  method GeneratePlan(goal: string, equipment: string, issues: string, focus: seq<string>, trainingDays: seq<string>)
    returns (plan: Plan)
    requires AllMuscles(focus)
    ensures plan == LocalPlan(goal, equipment, issues, focus, trainingDays)
  {
    var days := if |trainingDays| > 0 then |trainingDays| else 7;
    var targets := if |focus| > 0 then focus else Muscles;
    var dayNames := if |trainingDays| > 0 then trainingDays else Days;
    var dose := GoalDose(goal);
    assert AllMuscles(targets) && |dayNames| == days;
    var split: seq<PlanDay> := [];
    for d := 0 to days
      invariant split == LocalSplit(dayNames, targets, dose, d)
    {
      split := split + [LocalDay(dayNames, targets, dose, d)];
    }
    plan := Plan(goal, days, equipment, issues, split);
  }

  // ---------------------------------------------------------------- the AI answer

  /** `cleanJSONText`'s opening fence: "```json", with the line break after it when there is one. */
  function StripOpening(s: string): (r: string)
    ensures StartsWith(s, "```json\n") ==> r == s[8..]
    ensures !StartsWith(s, "```json\n") && StartsWith(s, "```json") ==> r == s[7..]
    ensures !StartsWith(s, "```json") ==> r == s
  {
    if StartsWith(s, "```json\n") then s[8..] else if StartsWith(s, "```json") then s[7..] else s
  }

  predicate EndsWith(s: string, suffix: string) {
    |suffix| <= |s| && s[|s| - |suffix|..] == suffix
  }

  /** `cleanJSONText`: a missing or empty text gives ""; otherwise a leading "```json" fence (and the line
      break after it) and a trailing "```" are removed, and the rest trimmed. The trailing fence is looked for
      after the leading one only; as the leading fence ends in a letter or a line break, the two never
      overlap. */
  function CleanJsonText(txt: Option<string>): (r: string)
    ensures txt.None? || txt.value == "" ==> r == ""
    ensures Trim(r) == r
  {
    if txt.None? || txt.value == "" then ""
    else
      var unfenced := StripOpening(txt.value);
      var body := if EndsWith(unfenced, "```") then unfenced[..|unfenced| - 3] else unfenced;
      TrimIdempotent(body);
      Trim(body)
  }

  /** A fenced answer gives back its trimmed body. */
  lemma FencedAnswer(body: string)
    ensures CleanJsonText(Some("```json\n" + body + "```")) == Trim(body)
  {
    var s := "```json\n" + body + "```";
    assert s[..8] == "```json\n";
    assert s[8..] == body + "```";
    var unfenced := body + "```";
    assert unfenced[|unfenced| - 3..] == "```";
    assert unfenced[..|unfenced| - 3] == body;
  }

  /** An answer without fences is only trimmed. */
  lemma UnfencedAnswer(text: string)
    requires text != "" && !StartsWith(text, "```json") && !EndsWith(text, "```")
    ensures CleanJsonText(Some(text)) == Trim(text)
  {
  }

  /** An exercise of the parsed answer; a count is `None` when it is missing or not a number. Answered counts
      are naturals here: a negative or fractional count is not modelled. */
  datatype AiExercise = AiExercise(name: string, sets: Option<nat>, reps: Option<nat>, rest: Option<nat>)

  /** A day of the parsed answer; `exercises` is `None` when it is missing or falsy there (a non-array value
      there makes the whole answer `None`). */
  datatype AiDay = AiDay(day: string, muscle: string, exercises: Option<seq<AiExercise>>)

  function AiPlanExercise(goal: string, e: AiExercise): (r: PlanExercise)
    ensures r.ex == e.name && r.sets > 0 && r.reps > 0 && r.rest > 0
    ensures e.sets.Some? && e.sets.value > 0 ==> r.sets == e.sets.value
    ensures e.sets.None? || e.sets.value == 0 ==> r.sets == GoalDose(goal).sets
    ensures e.reps.Some? && e.reps.value > 0 ==> r.reps == e.reps.value
    ensures e.reps.None? || e.reps.value == 0 ==> r.reps == GoalDose(goal).reps
    ensures e.rest.Some? && e.rest.value > 0 ==> r.rest == e.rest.value
    ensures e.rest.None? || e.rest.value == 0 ==> r.rest == GoalDose(goal).rest
  {
    var dose := GoalDose(goal);
    PlanExercise(e.name, NatOr(e.sets, dose.sets), NatOr(e.reps, dose.reps), NatOr(e.rest, dose.rest))
  }

  function OrEmpty<T>(s: Option<seq<T>>): seq<T> {
    if s.Some? then s.value else []
  }

  /** The AI answer in the plan's shape: one day per answered day, with its day and muscle, and one
      exercise per answered exercise, a zero or missing count replaced by the goal's. A missing plan is an
      empty one. */
  function AiSplit(goal: string, answer: Option<seq<AiDay>>): (r: seq<PlanDay>)
    ensures |r| == |OrEmpty(answer)|
    ensures forall d :: 0 <= d < |r| ==>
              && r[d].day == OrEmpty(answer)[d].day && r[d].muscle == OrEmpty(answer)[d].muscle
              && |r[d].exercises| == |OrEmpty(OrEmpty(answer)[d].exercises)|
              && forall k :: 0 <= k < |r[d].exercises| ==>
                   r[d].exercises[k] == AiPlanExercise(goal, OrEmpty(OrEmpty(answer)[d].exercises)[k])
  {
    var days := OrEmpty(answer);
    seq(|days|, d requires 0 <= d < |days| =>
      var exs := OrEmpty(days[d].exercises);
      PlanDay(days[d].day, days[d].muscle,
              seq(|exs|, k requires 0 <= k < |exs| => AiPlanExercise(goal, exs[k]))))
  }

  // ---------------------------------------------------------------- saving a plan

  /** The name of a day's workout and of its schedule entry. */
  function Title(d: PlanDay): string {
    d.day + " • " + d.muscle
  }

  /** The exercises saved for a plan day: name and counts, a zero count replaced by 3 sets, 10 reps or 60 s
      rest; no id and no weights. */
  function StoredExercises(d: PlanDay): (r: seq<Exercise>)
    ensures |r| == |d.exercises|
    ensures forall k :: 0 <= k < |r| ==>
              && r[k].id.None? && r[k].weight.None? && r[k].weightPerSet.None? && r[k].name == d.exercises[k].ex
              && r[k].sets == (if d.exercises[k].sets > 0 then d.exercises[k].sets else 3)
              && r[k].reps == (if d.exercises[k].reps > 0 then d.exercises[k].reps else 10)
              && r[k].rest == (if d.exercises[k].rest > 0 then d.exercises[k].rest else 60)
  {
    seq(|d.exercises|, k requires 0 <= k < |d.exercises| =>
      var e := d.exercises[k];
      Exercise(None, e.ex, NatOr(Some(e.sets), 3), NatOr(Some(e.reps), 10), NatOr(Some(e.rest), 60), None, None))
  }

  /** Plans from either source save their own counts: the fallbacks of saving never apply to them. */
  lemma SavedCountsAreThePlans(d: PlanDay)
    requires forall k :: 0 <= k < |d.exercises| ==>
               d.exercises[k].sets > 0 && d.exercises[k].reps > 0 && d.exercises[k].rest > 0
    ensures forall k :: 0 <= k < |d.exercises| ==>
              var s := StoredExercises(d)[k];
              s.sets == d.exercises[k].sets && s.reps == d.exercises[k].reps && s.rest == d.exercises[k].rest
  {
  }

  /** Where saving the days of a split leaves the workouts and the schedule, and the workout saved for each
      day. */
  datatype Saving = Saving(workouts: seq<Workout>, schedule: seq<ScheduleDay>, saved: seq<Workout>)

  /** Saving the days in order: each day's workout is saved by name (so an existing workout with that name
      takes the exercises after its own), and an entry with the same name linking the saved workout is added
      to that day of the schedule. `ids` holds the id a newly created workout of each day gets. */
  function SaveAll(workouts: seq<Workout>, schedule: seq<ScheduleDay>, split: seq<PlanDay>, ids: seq<string>)
    : (r: Saving)
    requires |ids| == |split|
    ensures |r.saved| == |split|
    ensures |r.schedule| == |schedule| && forall i :: 0 <= i < |schedule| ==> r.schedule[i].day == schedule[i].day
    decreases |split|
  {
    if split == [] then Saving(workouts, schedule, [])
    else
      var n := |split| - 1;
      SaveDay(SaveAll(workouts, schedule, split[..n], ids[..n]), split[n], ids[n])
  }

  /** Saving one day after the earlier ones: its workout goes through `Upsert` by name and a link to it is
      added to its day. */
  function SaveDay(prev: Saving, d: PlanDay, id: string): Saving {
    var u := Storage.Upsert(prev.workouts, None, Title(d), StoredExercises(d), id);
    Saving(u.list, Storage.AddEntry(prev.schedule, d.day, ScheduleEntry(Title(d), Some(u.saved.id))),
           prev.saved + [u.saved])
  }

  /** Saving the first `k + 1` days is saving the first `k` and then day `k`. */
  lemma SaveAllPrefix(workouts: seq<Workout>, schedule: seq<ScheduleDay>, split: seq<PlanDay>, ids: seq<string>,
                      k: nat)
    requires |ids| == |split| && k < |split|
    ensures SaveAll(workouts, schedule, split[..k + 1], ids[..k + 1])
            == SaveDay(SaveAll(workouts, schedule, split[..k], ids[..k]), split[k], ids[k])
  {
    assert split[..k + 1][..k] == split[..k] && ids[..k + 1][..k] == ids[..k];
  }

  /** The store after saving a non-empty split: its workouts and schedule are what saving every day in order
      gives, the days are counted and the first saved workout is the one kept. */
  predicate SavedSplit(workouts0: seq<Workout>, schedule0: seq<ScheduleDay>, split: seq<PlanDay>, ids: seq<string>,
                       workouts: seq<Workout>, schedule: seq<ScheduleDay>, count: nat, first: Option<Workout>)
  {
    && split != [] && |ids| == |split|
    && var r := SaveAll(workouts0, schedule0, split, ids);
       && workouts == r.workouts && schedule == r.schedule && count == |split| && first == Some(r.saved[0])
  }

  /** Saving by name returns a workout with the normalised name and adds at most one workout. */
  lemma UpsertByNameShape(list: seq<Workout>, name: string, exercises: seq<Exercise>, freshId: string)
    ensures var u := Storage.Upsert(list, None, name, exercises, freshId);
            u.saved.name == Storage.NormalizedName(name) && |list| <= |u.list| <= |list| + 1
  {
  }

  /** Each day's workout is saved under the day's name, and saving adds at most one workout per day. */
  lemma {:induction false} SavedNames(workouts: seq<Workout>, schedule: seq<ScheduleDay>, split: seq<PlanDay>,
                                      ids: seq<string>)
    requires |ids| == |split|
    ensures var r := SaveAll(workouts, schedule, split, ids);
            && (forall k :: 0 <= k < |split| ==> r.saved[k].name == Storage.NormalizedName(Title(split[k])))
            && |workouts| <= |r.workouts| <= |workouts| + |split|
    decreases |split|
  {
    if split != [] {
      var n := |split| - 1;
      SavedNames(workouts, schedule, split[..n], ids[..n]);
      var prev := SaveAll(workouts, schedule, split[..n], ids[..n]);
      SaveAllLast(workouts, schedule, split, ids);
      var r := SaveAll(workouts, schedule, split, ids);
      forall k | 0 <= k < |split|
        ensures r.saved[k].name == Storage.NormalizedName(Title(split[k]))
      {
        if k < n {
          assert r.saved[k] == r.saved[..n][k] && split[..n][k] == split[k];
        }
      }
    }
  }

  /** The last day saved: its workout takes the day's name, the earlier days' workouts stay, and the list
      grows by at most one. */
  lemma SaveAllLast(workouts: seq<Workout>, schedule: seq<ScheduleDay>, split: seq<PlanDay>, ids: seq<string>)
    requires |ids| == |split| && split != []
    ensures var n := |split| - 1;
            var prev := SaveAll(workouts, schedule, split[..n], ids[..n]);
            var r := SaveAll(workouts, schedule, split, ids);
            && r.saved[..n] == prev.saved && r.saved[n].name == Storage.NormalizedName(Title(split[n]))
            && |prev.workouts| <= |r.workouts| <= |prev.workouts| + 1
  {
    var n := |split| - 1;
    var prev := SaveAll(workouts, schedule, split[..n], ids[..n]);
    UpsertByNameShape(prev.workouts, Title(split[n]), StoredExercises(split[n]), ids[n]);
    var u := Storage.Upsert(prev.workouts, None, Title(split[n]), StoredExercises(split[n]), ids[n]);
    assert SaveAll(workouts, schedule, split, ids).saved == prev.saved + [u.saved];
  }

  /** The entries saving adds to day `day`: one per plan day on `day`, in plan order, each titled with the
      plan day's name and linking the workout saved for it. */
  function LinksFor(split: seq<PlanDay>, saved: seq<Workout>, day: string): (r: seq<ScheduleEntry>)
    requires |saved| == |split|
    ensures forall e :: e in r ==> e.workoutId.Some? && exists k :: 0 <= k < |split| && split[k].day == day
                                                                   && e == ScheduleEntry(Title(split[k]), Some(saved[k].id))
  {
    if split == [] then []
    else
      var n := |split| - 1;
      LinksFor(split[..n], saved[..n], day)
      + (if split[n].day == day then [ScheduleEntry(Title(split[n]), Some(saved[n].id))] else [])
  }

  /** Two schedules with the same day names find a day at the same position. */
  lemma {:induction false} DayIndexSameDays(a: seq<ScheduleDay>, b: seq<ScheduleDay>, day: string)
    requires |a| == |b| && forall i :: 0 <= i < |a| ==> a[i].day == b[i].day
    ensures Storage.DayIndex(a, day) == Storage.DayIndex(b, day)
  {
    if a != [] && a[0].day != day {
      DayIndexSameDays(a[1..], b[1..], day);
    }
  }

  /** Adding an entry to a day of a schedule with the same day names as `schedule` extends exactly the
      first stored day of that name. */
  lemma AddEntryAt(prev: seq<ScheduleDay>, schedule: seq<ScheduleDay>, day: string, entry: ScheduleEntry, i: nat)
    requires |prev| == |schedule| && forall j :: 0 <= j < |prev| ==> prev[j].day == schedule[j].day
    requires i < |schedule|
    ensures Storage.AddEntry(prev, day, entry)[i].entries
            == prev[i].entries
               + (if day == schedule[i].day && Storage.DayIndex(schedule, day) == Some(i) then [entry] else [])
  {
    DayIndexSameDays(prev, schedule, day);
    if day == schedule[i].day && Storage.DayIndex(schedule, day) == Some(i) {
    } else {
      assert prev[i].entries + [] == prev[i].entries;
    }
  }

  /** After saving, each stored day (the first of its name) holds its old entries followed by exactly the
      links to the workouts saved for it; every other stored day is as it was. Days the schedule lacks get
      nothing. */
  lemma {:induction false} SaveLinksEachDay(workouts: seq<Workout>, schedule: seq<ScheduleDay>, split: seq<PlanDay>,
                                            ids: seq<string>)
    requires |ids| == |split|
    ensures var r := SaveAll(workouts, schedule, split, ids);
            forall i :: 0 <= i < |schedule| ==>
              r.schedule[i].entries
              == schedule[i].entries
                 + (if Storage.DayIndex(schedule, schedule[i].day) == Some(i)
                    then LinksFor(split, r.saved, schedule[i].day) else [])
    decreases |split|
  {
    var r := SaveAll(workouts, schedule, split, ids);
    if split == [] {
      forall i | 0 <= i < |schedule|
        ensures r.schedule[i].entries == schedule[i].entries + []
      {
        assert schedule[i].entries + [] == schedule[i].entries;
      }
    } else {
      var n := |split| - 1;
      var prev := SaveAll(workouts, schedule, split[..n], ids[..n]);
      SaveLinksEachDay(workouts, schedule, split[..n], ids[..n]);
      var entry := ScheduleEntry(Title(split[n]), Some(r.saved[n].id));
      assert r.schedule == Storage.AddEntry(prev.schedule, split[n].day, entry);
      assert r.saved[..n] == prev.saved;
      forall i | 0 <= i < |schedule|
        ensures r.schedule[i].entries
                == schedule[i].entries
                   + (if Storage.DayIndex(schedule, schedule[i].day) == Some(i)
                      then LinksFor(split, r.saved, schedule[i].day) else [])
      {
        LinkAt(prev.schedule, schedule, split, r.saved, i);
      }
    }
  }

  /** One more day saved: a stored day that held its old entries and the links of the earlier days now
      holds the links of all the days. */
  lemma LinkAt(prev: seq<ScheduleDay>, schedule: seq<ScheduleDay>, split: seq<PlanDay>, saved: seq<Workout>, i: nat)
    requires |prev| == |schedule| && forall j :: 0 <= j < |prev| ==> prev[j].day == schedule[j].day
    requires i < |schedule| && |saved| == |split| && split != []
    requires var n := |split| - 1;
             prev[i].entries
             == schedule[i].entries
                + (if Storage.DayIndex(schedule, schedule[i].day) == Some(i)
                   then LinksFor(split[..n], saved[..n], schedule[i].day) else [])
    ensures var n := |split| - 1;
            Storage.AddEntry(prev, split[n].day, ScheduleEntry(Title(split[n]), Some(saved[n].id)))[i].entries
            == schedule[i].entries
               + (if Storage.DayIndex(schedule, schedule[i].day) == Some(i)
                  then LinksFor(split, saved, schedule[i].day) else [])
  {
    var n := |split| - 1;
    var day := schedule[i].day;
    var entry := ScheduleEntry(Title(split[n]), Some(saved[n].id));
    AddEntryAt(prev, schedule, split[n].day, entry, i);
    var added := if split[n].day == day then [entry] else [];
    assert LinksFor(split, saved, day) == LinksFor(split[..n], saved[..n], day) + added;
    if Storage.DayIndex(schedule, day) == Some(i) {
      assert prev[i].entries + added == schedule[i].entries + (LinksFor(split[..n], saved[..n], day) + added);
    } else {
      assert prev[i].entries + [] == prev[i].entries;
    }
  }

  /** The planner screen. The store's workouts and schedule are the app's saved state; `ids` parameters
      stand for the clock readings that name newly created workouts. */
  class PlannerScreen {
    const store: Storage.Store
    var goal: string
    var equipment: string
    var issues: string
    var focus: seq<string>
    var trainingDays: seq<string>
    var plan: Option<Plan>
    var savedCount: nat
    var firstSaved: Option<Workout>

    /** The focus holds only muscle groups the screen offers. */
    predicate Valid()
      reads this
    {
      AllMuscles(focus)
    }

    /** The screen on opening: aesthetics, four days' worth, a full gym, no restrictions, nothing chosen. */
    constructor (store: Storage.Store)
      ensures this.store == store && Valid()
      ensures goal == "Estética" && equipment == "Academia completa" && issues == ""
      ensures focus == [] && trainingDays == [] && plan == None && savedCount == 0 && firstSaved == None
    {
      this.store := store;
      goal := "Estética";
      equipment := "Academia completa";
      issues := "";
      focus := [];
      trainingDays := [];
      plan := None;
      savedCount := 0;
      firstSaved := None;
    }

    method SetGoal(g: string)
      modifies this`goal
      ensures goal == g
    {
      goal := g;
    }

    /** The focus tags are the muscle groups. */
    method ToggleFocus(m: string)
      requires Valid() && m in Muscles
      modifies this`focus
      ensures focus == Toggle(old(focus), m) && Valid()
    {
      focus := if m in focus then Filter(focus, Differs(m)) else focus + [m];
    }

    method ToggleDay(day: string)
      modifies this`trainingDays
      ensures trainingDays == Toggle(old(trainingDays), day)
    {
      trainingDays := if day in trainingDays then Filter(trainingDays, Differs(day)) else trainingDays + [day];
    }

    /** `savePlanToWorkoutsAndSchedule`: nothing without a plan or with an empty split; otherwise every day is
        saved and linked in order, the count of saved days reported and the first saved workout kept. */
    method SavePlan(thePlan: Option<Plan>, ids: seq<string>)
      requires thePlan.Some? ==> |ids| == |thePlan.value.split|
      modifies this`savedCount, this`firstSaved, store
      ensures thePlan.None? || thePlan.value.split == [] ==>
                && store.workouts == old(store.workouts) && store.schedule == old(store.schedule)
                && savedCount == old(savedCount) && firstSaved == old(firstSaved)
      ensures thePlan.Some? && thePlan.value.split != [] ==>
                SavedSplit(old(store.workouts), old(store.schedule), thePlan.value.split, ids,
                           store.workouts, store.schedule, savedCount, firstSaved)
      ensures unchanged(store`sessions, store`weightHistory, store`unit, store`themeName, store`restSetting)
    {
      if thePlan.None? || thePlan.value.split == [] {
        return;
      }
      var count, first := SaveSplit(thePlan.value.split, ids);
      savedCount := count;
      firstSaved := first;
    }

    /** The loop of `savePlanToWorkoutsAndSchedule`: the days saved in order, counted, the first one kept. */
    method SaveSplit(split: seq<PlanDay>, ids: seq<string>) returns (count: nat, first: Option<Workout>)
      requires |ids| == |split| && split != []
      modifies store
      ensures SavedSplit(old(store.workouts), old(store.schedule), split, ids, store.workouts, store.schedule,
                         count, first)
      ensures unchanged(store`sessions, store`weightHistory, store`unit, store`themeName, store`restSetting)
    {
      ghost var workouts0, schedule0 := store.workouts, store.schedule;
      ghost var saved: seq<Workout> := [];
      count := 0;
      first := None;
      for k := 0 to |split|
        invariant SaveAll(workouts0, schedule0, split[..k], ids[..k]) == Saving(store.workouts, store.schedule, saved)
        invariant count == k && |saved| == k && first == (if k == 0 then None else Some(saved[0]))
        invariant unchanged(store`sessions, store`weightHistory, store`unit, store`themeName, store`restSetting)
      {
        SaveAllPrefix(workouts0, schedule0, split, ids, k);
        var w := SaveDayToStore(split[k], ids[k], saved);
        saved := saved + [w];
        count := count + 1;
        if first.None? {
          first := Some(w);
        }
      }
      assert split[..|split|] == split && ids[..|ids|] == ids;
    }

    /** One day of `savePlanToWorkoutsAndSchedule`: its workout saved by name and linked from its day. */
    method SaveDayToStore(d: PlanDay, id: string, ghost before: seq<Workout>) returns (w: Workout)
      modifies store
      ensures SaveDay(Saving(old(store.workouts), old(store.schedule), before), d, id)
              == Saving(store.workouts, store.schedule, before + [w])
      ensures unchanged(store`sessions, store`weightHistory, store`unit, store`themeName, store`restSetting)
    {
      var title := d.day + " • " + d.muscle;
      w := store.SaveWorkout(None, title, StoredExercises(d), id);
      var _ := store.AddEntryToDay(d.day, ScheduleEntry(title, Some(w.id)));
    }

    /** The "save plan" button as written: `onPress={savePlanToWorkoutsAndSchedule}` hands the press event over
        as `thePlan`; the event has no `split`, so the early return is taken and nothing is saved, whatever the
        screen's plan holds. */
    method PressSaveAsWritten(ids: seq<string>)
      modifies this`savedCount, this`firstSaved, store
      ensures store.workouts == old(store.workouts) && store.schedule == old(store.schedule)
      ensures savedCount == old(savedCount) && firstSaved == old(firstSaved)
    {
      SavePlan(None, ids);
    }

    /** The "save plan" button as intended: the button is shown only with a plan, and that plan is saved. */
    method PressSave(ids: seq<string>)
      requires plan.Some? && |ids| == |plan.value.split|
      modifies this`savedCount, this`firstSaved, store
      ensures plan.value.split != [] ==>
                SavedSplit(old(store.workouts), old(store.schedule), plan.value.split, ids,
                           store.workouts, store.schedule, savedCount, firstSaved)
      ensures unchanged(store`sessions, store`weightHistory, store`unit, store`themeName, store`restSetting)
    {
      SavePlan(plan, ids);
    }

    /** `generatePlan`: the local plan becomes the screen's plan and is saved at once. */
    method Generate(ids: seq<string>)
      requires Valid()
      requires |ids| == |DayNames(trainingDays)|
      modifies this`plan, this`savedCount, this`firstSaved, store
      ensures plan == Some(LocalPlan(goal, equipment, issues, focus, trainingDays))
      ensures plan.Some? && SavedSplit(old(store.workouts), old(store.schedule), plan.value.split, ids,
                                       store.workouts, store.schedule, savedCount, firstSaved)
      ensures unchanged(store`sessions, store`weightHistory, store`unit, store`themeName, store`restSetting)
    {
      var p := GeneratePlan(goal, equipment, issues, focus, trainingDays);
      plan := Some(p);
      SavePlan(plan, ids);
    }

    /** `generatePlanAI` once the answer is in: an answer without days (including no answer at all, a failed
        request or unparsable text, all of which are `None`) falls back to the local plan; otherwise the
        normalised answer becomes the plan and is saved. `ids` names the workouts of whichever plan is
        saved. */
    method GenerateFromAnswer(answer: Option<seq<AiDay>>, ids: seq<string>)
      requires Valid()
      requires |ids| == if |AiSplit(goal, answer)| == 0 then |DayNames(trainingDays)| else |AiSplit(goal, answer)|
      modifies this`plan, this`savedCount, this`firstSaved, store
      ensures |AiSplit(goal, answer)| == 0 ==> plan == Some(LocalPlan(goal, equipment, issues, focus, trainingDays))
      ensures |AiSplit(goal, answer)| > 0 ==>
                plan == Some(Plan(goal, |AiSplit(goal, answer)|, equipment, issues, AiSplit(goal, answer)))
      ensures plan.Some? && SavedSplit(old(store.workouts), old(store.schedule), plan.value.split, ids,
                                       store.workouts, store.schedule, savedCount, firstSaved)
      ensures unchanged(store`sessions, store`weightHistory, store`unit, store`themeName, store`restSetting)
    {
      var split := AiSplit(goal, answer);
      if |split| == 0 {
        Generate(ids);
      } else {
        plan := Some(Plan(goal, |split|, equipment, issues, split));
        SavePlan(plan, ids);
      }
    }
  }
}
