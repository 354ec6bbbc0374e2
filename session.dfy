/**
 * The workout session engine of the workout screen. A session walks through
 * the exercises of a workout set by set: finishing a set logs it and starts a
 * rest countdown, and the end of the rest (or skipping it) moves to the next
 * set, the next exercise, or the end of the workout. Beside it sit the rules
 * that keep each exercise's per-set weights in shape, and the editor's
 * set-count and weight-fill rules.
 *
 * The screen's state becomes the fields of `Session`; the cursor and the rest
 * clock are also gathered in the value `Machine`, whose transitions are the
 * pure functions below, so that whole runs can be reasoned about.
 */
module WorkoutDetail {
  import opened Wrappers
  import opened Js
  import opened Domain
  import Analytics
  import Storage

  // ---------------------------------------------------------------- per-set weights

  /** `Number(ex.sets) || 1`: the number of sets the session walks through. */
  function TotalSets(ex: Exercise): (n: nat)
    ensures n >= 1 && (ex.sets != 0 ==> n == ex.sets)
  {
    if ex.sets == 0 then 1 else ex.sets
  }

  /** The weight a repaired per-set array is filled with: the exercise weight when it is defined, else 0. */
  function BaseWeight(ex: Exercise): real {
    if ex.weight.Some? then ex.weight.value else 0.0
  }

  /** `Array(n).fill(v)`. */
  function Fill(n: nat, v: real): (r: seq<real>)
    ensures |r| == n && forall k :: 0 <= k < n ==> r[k] == v
  {
    seq(n, _ => v)
  }

  /** The per-set weights are an array with one slot per set. */
  predicate WellSized(ex: Exercise) {
    ex.weightPerSet.Some? && |ex.weightPerSet.value| == TotalSets(ex)
  }

  /** `ensureWeightArrayForExercise`: a missing or wrongly sized per-set array is replaced by one slot per set,
      each holding the base weight; a well-sized array is kept as it is. Nothing else changes. */
  function Repaired(ex: Exercise): (r: Exercise)
    ensures WellSized(r)
    ensures r.(weightPerSet := ex.weightPerSet) == ex
    ensures WellSized(ex) ==> r == ex
    ensures !WellSized(ex) ==> forall k :: 0 <= k < TotalSets(ex) ==> r.weightPerSet.value[k] == BaseWeight(ex)
  {
    if WellSized(ex) then ex else ex.(weightPerSet := Some(Fill(TotalSets(ex), BaseWeight(ex))))
  }

  /** Repairing twice is repairing once. */
  lemma RepairIdempotent(ex: Exercise)
    ensures Repaired(Repaired(ex)) == Repaired(ex)
  {
    assert WellSized(Repaired(ex));
  }

  /** The slot of the current set: `currentSet - 1` clamped into the array, so never out of range. */
  function SetSlot(ex: Exercise, currentSet: int): (k: nat)
    ensures k < TotalSets(ex)
    ensures 1 <= currentSet <= TotalSets(ex) ==> k == currentSet - 1
    ensures currentSet < 1 ==> k == 0
    ensures currentSet > TotalSets(ex) ==> k == TotalSets(ex) - 1
  {
    Clamp(currentSet - 1, 0, TotalSets(ex) - 1)
  }

  /** `getCurrentSetWeight` for an exercise that exists: the weight in the current set's slot of the
      repaired array. */
  function CurrentSetWeight(ex: Exercise, currentSet: int): (w: real)
    ensures WellSized(ex) ==> w == ex.weightPerSet.value[SetSlot(ex, currentSet)]
    ensures !WellSized(ex) ==> w == BaseWeight(ex)
  {
    Repaired(ex).weightPerSet.value[SetSlot(ex, currentSet)]
  }

  /** `Math.max(0, Math.round(v * 10) / 10)`: a weight rounded to one decimal, never negative. */
  function AdjustedWeight(w: real, delta: real): (r: real)
    ensures r >= 0.0
    ensures r == 0.0 || (w + delta - 0.05 < r <= w + delta + 0.05)
    ensures w + delta >= 0.05 ==> r > 0.0
  {
    var v := Round1(w + delta);
    if v < 0.0 then 0.0 else v
  }

  /** The sessions's exercise list with the current set's slot of exercise `i` (repaired first) set to
      `v`; the list as it was when there is no exercise `i`. */
  function WithCurrentSlot(exs: seq<Exercise>, i: nat, currentSet: int, v: real -> real): (r: seq<Exercise>)
    ensures |r| == |exs|
    ensures i >= |exs| ==> r == exs
    ensures i < |exs| ==>
              && (forall j :: 0 <= j < |exs| && j != i ==> r[j] == exs[j])
              && WellSized(r[i]) && r[i].(weightPerSet := exs[i].weightPerSet) == exs[i]
              && var k := SetSlot(exs[i], currentSet);
                 var before := Repaired(exs[i]).weightPerSet.value;
                 && r[i].weightPerSet.value[k] == v(CurrentSetWeight(exs[i], currentSet))
                 && forall m :: 0 <= m < |before| && m != k ==> r[i].weightPerSet.value[m] == before[m]
  {
    if i >= |exs| then exs
    else
      var ex := Repaired(exs[i]);
      var k := SetSlot(exs[i], currentSet);
      var w := ex.weightPerSet.value;
      exs[i := ex.(weightPerSet := Some(w[k := v(w[k])]))]
  }

  /** `adjustCurrentSetWeight(delta)`: only the current set's slot of the current exercise changes, to the
      old weight plus `delta`, rounded to one decimal and never below 0. */
  function Adjusted(exs: seq<Exercise>, i: nat, currentSet: int, delta: real): (r: seq<Exercise>)
    ensures |r| == |exs| && (i >= |exs| ==> r == exs)
    ensures i < |exs| ==>
              && (forall j :: 0 <= j < |exs| && j != i ==> r[j] == exs[j])
              && r[i].(weightPerSet := exs[i].weightPerSet) == exs[i]
              && CurrentSetWeight(r[i], currentSet) == AdjustedWeight(CurrentSetWeight(exs[i], currentSet), delta)
  {
    WithCurrentSlot(exs, i, currentSet, w => AdjustedWeight(w, delta))
  }

  /** Picking a weight suggestion during the session: the current set's slot of the current exercise takes
      the suggested weight, and nothing else changes. */
  function Picked(exs: seq<Exercise>, i: nat, currentSet: int, val: real): (r: seq<Exercise>)
    ensures |r| == |exs| && (i >= |exs| ==> r == exs)
    ensures i < |exs| ==>
              && (forall j :: 0 <= j < |exs| && j != i ==> r[j] == exs[j])
              && r[i].(weightPerSet := exs[i].weightPerSet) == exs[i]
              && CurrentSetWeight(r[i], currentSet) == val
  {
    WithCurrentSlot(exs, i, currentSet, _ => val)
  }

  // ---------------------------------------------------------------- editor rules

  /** The per-set array as the editor sees it: an array, or nothing. */
  function PerSet(ex: Exercise): seq<real> {
    if ex.weightPerSet.Some? then ex.weightPerSet.value else []
  }

  /** Editing the set count: the array becomes exactly `newSets` long, keeping its common prefix and
      truncating the tail or padding with the base weight. */
  function Resized(ex: Exercise, newSets: nat): (r: Exercise)
    ensures r.sets == newSets && r.weightPerSet.Some? && |r.weightPerSet.value| == newSets
    ensures r.(sets := ex.sets, weightPerSet := ex.weightPerSet) == ex
    ensures forall k :: 0 <= k < newSets && k < |PerSet(ex)| ==> r.weightPerSet.value[k] == PerSet(ex)[k]
    ensures forall k :: |PerSet(ex)| <= k < newSets ==> r.weightPerSet.value[k] == BaseWeight(ex)
    ensures newSets > 0 ==> WellSized(r)
  {
    var wps := PerSet(ex);
    var resized := if |wps| < newSets then wps + Fill(newSets - |wps|, BaseWeight(ex)) else wps[..newSets];
    ex.(sets := newSets, weightPerSet := Some(resized))
  }

  /** Growing the set count and shrinking it back restores the per-set weights. */
  lemma ResizeUpThenDown(ex: Exercise, more: nat)
    requires ex.weightPerSet.Some? && |ex.weightPerSet.value| <= more
    ensures Resized(Resized(ex, more), |ex.weightPerSet.value|).weightPerSet == ex.weightPerSet
  {
    var n := |ex.weightPerSet.value|;
    var mid := Resized(ex, more);
    assert PerSet(mid) == mid.weightPerSet.value;
    var back := Resized(mid, n).weightPerSet.value;
    assert forall k :: 0 <= k < n ==> back[k] == PerSet(mid)[k] == ex.weightPerSet.value[k];
    assert back == ex.weightPerSet.value;
  }

  /** The weight "distribute" fills with: the exercise weight when defined, else the first per-set weight,
      else 0. */
  function DistributeBase(ex: Exercise): real {
    if ex.weight.Some? then ex.weight.value
    else if ex.weightPerSet.Some? && |ex.weightPerSet.value| > 0 then ex.weightPerSet.value[0]
    else 0.0
  }

  /** The "distribute weight" button: one slot per set (`Number(sets) || 0` of them), all holding the
      distribute base. Nothing else changes. */
  function Distributed(ex: Exercise): (r: Exercise)
    ensures r.(weightPerSet := ex.weightPerSet) == ex
    ensures r.weightPerSet.Some? && |r.weightPerSet.value| == ex.sets
    ensures forall k :: 0 <= k < ex.sets ==> r.weightPerSet.value[k] == DistributeBase(ex)
  {
    ex.(weightPerSet := Some(Fill(ex.sets, DistributeBase(ex))))
  }

  /** Distributing twice is distributing once. */
  lemma DistributeIdempotent(ex: Exercise)
    ensures Distributed(Distributed(ex)) == Distributed(ex)
  {
    var once := Distributed(ex);
    if ex.sets > 0 {
      assert DistributeBase(once) == DistributeBase(ex);
    } else {
      assert Fill(ex.sets, DistributeBase(once)) == [] == Fill(ex.sets, DistributeBase(ex));
    }
  }

  /** Picking a suggestion in the editor: the exercise weight and every per-set slot take its weight. */
  function SuggestionFilled(ex: Exercise, val: real): (r: Exercise)
    ensures r.(weight := ex.weight, weightPerSet := ex.weightPerSet) == ex
    ensures r.weight == Some(val) && BaseWeight(r) == val
    ensures r.weightPerSet.Some? && |r.weightPerSet.value| == ex.sets
    ensures forall k :: 0 <= k < ex.sets ==> r.weightPerSet.value[k] == val
  {
    ex.(weight := Some(val), weightPerSet := Some(Fill(ex.sets, val)))
  }

  /** After a suggestion fill, distributing changes nothing. */
  lemma DistributeAfterFill(ex: Exercise, val: real)
    ensures Distributed(SuggestionFilled(ex, val)) == SuggestionFilled(ex, val)
  {
  }

  /** `prev.map((x, i) => i === idx ? f(x) : x)`. */
  function MapAt(exs: seq<Exercise>, idx: int, f: Exercise -> Exercise): (r: seq<Exercise>)
    ensures |r| == |exs|
    ensures forall j :: 0 <= j < |exs| ==> r[j] == if j == idx then f(exs[j]) else exs[j]
  {
    seq(|exs|, j requires 0 <= j < |exs| => if j == idx then f(exs[j]) else exs[j])
  }

  /** `prev.filter((_, i) => i !== idx)`: removes the exercise at `idx`, if there is one. */
  function WithoutAt(exs: seq<Exercise>, idx: int): (r: seq<Exercise>)
    ensures 0 <= idx < |exs| ==> r == exs[..idx] + exs[idx + 1..]
    ensures !(0 <= idx < |exs|) ==> r == exs
  {
    if 0 <= idx < |exs| then exs[..idx] + exs[idx + 1..] else exs
  }

  // ---------------------------------------------------------------- the session state machine

  /** The cursor and the rest clock: whether a workout runs, the current exercise and set, and the rest. */
  datatype Machine = Machine(started: bool, exIdx: nat, currentSet: int, restRunning: bool, restRemaining: int)

  /** The cursor points at an existing exercise and at one of its sets. */
  predicate OnASet(m: Machine, exs: seq<Exercise>) {
    m.exIdx < |exs| && 1 <= m.currentSet <= TotalSets(exs[m.exIdx])
  }

  /** `startWorkout`: with no exercises nothing happens; otherwise the first set of the first exercise,
      with no rest running. */
  function Start(m: Machine, exs: seq<Exercise>): (r: Machine)
    ensures exs == [] ==> r == m
    ensures exs != [] ==> r.started && OnASet(r, exs) && r.exIdx == 0 && r.currentSet == 1
    ensures exs != [] ==> !r.restRunning && r.restRemaining == 0
  {
    if exs == [] then m else Machine(true, 0, 1, false, 0)
  }

  /** `nextSetOrExercise`: the next set of the current exercise, else the first set of the next exercise,
      else the end of the workout. Without a current exercise nothing happens. */
  function Advance(m: Machine, exs: seq<Exercise>): Machine {
    if m.exIdx >= |exs| then m
    else if m.currentSet < TotalSets(exs[m.exIdx]) then m.(currentSet := m.currentSet + 1)
    else if m.exIdx < |exs| - 1 then m.(exIdx := m.exIdx + 1, currentSet := 1)
    else m.(started := false)
  }

  /** An advance leaves the rest alone, never starts a session, keeps the cursor on a set and moves it strictly
      forward; the session ends only after the last set of the last exercise. */
  lemma AdvanceForward(m: Machine, exs: seq<Exercise>)
    ensures var r := Advance(m, exs);
            && r.restRunning == m.restRunning && r.restRemaining == m.restRemaining
            && (r.started ==> m.started)
            && (OnASet(m, exs) ==> OnASet(r, exs))
            && (OnASet(m, exs) && r.started ==> Before(PositionOf(m), PositionOf(r)))
            && (OnASet(m, exs) && m.started && !r.started ==> m.exIdx == |exs| - 1 && m.currentSet == TotalSets(exs[m.exIdx]))
  {
  }

  /** The end of the rest, whether skipped or counted down: the rest stops and the cursor advances. */
  function EndRest(m: Machine, exs: seq<Exercise>): (r: Machine)
    ensures !r.restRunning && r.restRemaining == 0
    ensures r.(restRunning := m.restRunning, restRemaining := m.restRemaining) == Advance(m, exs)
  {
    Advance(m.(restRunning := false, restRemaining := 0), exs)
  }

  /** One second of the rest countdown: while more than one second is left it counts down; the last
      second ends the rest. With no rest running there is no countdown. */
  function TickRest(m: Machine, exs: seq<Exercise>): (r: Machine)
    ensures !m.restRunning ==> r == m
    ensures m.restRunning && m.restRemaining > 1 ==> r == m.(restRemaining := m.restRemaining - 1)
    ensures m.restRunning && m.restRemaining <= 1 ==> r == EndRest(m, exs)
  {
    if !m.restRunning then m
    else if m.restRemaining <= 1 then EndRest(m, exs)
    else m.(restRemaining := m.restRemaining - 1)
  }

  /** `n` seconds of countdown. */
  function Ticks(m: Machine, exs: seq<Exercise>, n: nat): Machine
    decreases n
  {
    if n == 0 then m else Ticks(TickRest(m, exs), exs, n - 1)
  }

  /** A rest of `r` seconds runs for `r - 1` ticks with the cursor in place, and the `r`-th tick ends it
      exactly as skipping would: the countdown advances the cursor exactly once. */
  lemma {:induction false} CountdownEndsLikeSkip(m: Machine, exs: seq<Exercise>, k: nat)
    requires m.restRunning && m.restRemaining >= 1 && k <= m.restRemaining
    ensures k < m.restRemaining ==> Ticks(m, exs, k) == m.(restRemaining := m.restRemaining - k)
    ensures k == m.restRemaining ==> Ticks(m, exs, k) == EndRest(m, exs)
    decreases k
  {
    if k > 0 {
      var next := TickRest(m, exs);
      if m.restRemaining == 1 {
        assert Ticks(next, exs, 0) == next;
      } else {
        CountdownEndsLikeSkip(next, exs, k - 1);
        assert EndRest(next, exs) == EndRest(m, exs);
      }
    }
  }

  // ---------------------------------------------------------------- whole runs

  /** A position of the walk: an exercise index and a set number. */
  datatype Position = Position(exIdx: nat, setNo: int)

  function PositionOf(m: Machine): Position {
    Position(m.exIdx, m.currentSet)
  }

  /** Lexicographic order on positions. */
  predicate Before(p: Position, q: Position) {
    p.exIdx < q.exIdx || (p.exIdx == q.exIdx && p.setNo < q.setNo)
  }

  /** Sets `s` to `n` of exercise `i`. */
  function SetsBetween(i: nat, s: int, n: int): (r: seq<Position>)
    ensures |r| == if s > n then 0 else n - s + 1
    decreases n - s
  {
    if s > n then [] else [Position(i, s)] + SetsBetween(i, s + 1, n)
  }

  /** The `k`-th position from set `s` on is set `s + k`. */
  lemma {:induction false} SetsBetweenAt(i: nat, s: int, n: int)
    ensures forall k :: 0 <= k < |SetsBetween(i, s, n)| ==> SetsBetween(i, s, n)[k] == Position(i, s + k)
    decreases n - s
  {
    if s <= n {
      SetsBetweenAt(i, s + 1, n);
      var r := SetsBetween(i, s, n);
      forall k | 0 <= k < |r|
        ensures r[k] == Position(i, s + k)
      {
        if k > 0 {
          assert r[k] == SetsBetween(i, s + 1, n)[k - 1];
        }
      }
    }
  }

  /** Every set of every exercise from `i` on, in order. */
  function Plan(exs: seq<Exercise>, i: nat): seq<Position>
    decreases |exs| - i
  {
    if i >= |exs| then [] else SetsBetween(i, 1, TotalSets(exs[i])) + Plan(exs, i + 1)
  }

  /** The number of sets from exercise `i` on. */
  function SetsFrom(exs: seq<Exercise>, i: nat): nat
    decreases |exs| - i
  {
    if i >= |exs| then 0 else TotalSets(exs[i]) + SetsFrom(exs, i + 1)
  }

  /** The sets still to do from the cursor `m`, the current one included; none once the session is over. */
  function StepsLeft(m: Machine, exs: seq<Exercise>): nat {
    if m.started && OnASet(m, exs) then TotalSets(exs[m.exIdx]) - m.currentSet + 1 + SetsFrom(exs, m.exIdx + 1)
    else 0
  }

  /** Each advance from a set does one set. */
  lemma AdvanceDoesOneSet(m: Machine, exs: seq<Exercise>)
    requires m.started && OnASet(m, exs)
    ensures StepsLeft(Advance(m, exs), exs) == StepsLeft(m, exs) - 1
  {
    var i := m.exIdx;
    if m.currentSet == TotalSets(exs[i]) && i < |exs| - 1 {
      assert SetsFrom(exs, i + 1) == TotalSets(exs[i + 1]) + SetsFrom(exs, i + 2);
    }
  }

  /** The positions a session passes through when every set is finished and every rest ends, from the
      cursor `m` until the workout is over. */
  function Run(m: Machine, exs: seq<Exercise>): seq<Position>
    decreases StepsLeft(m, exs)
  {
    if m.started && OnASet(m, exs) then
      AdvanceDoesOneSet(m, exs);
      [PositionOf(m)] + Run(Advance(m, exs), exs)
    else []
  }

  /** The positions of the plan from the cursor `m` on: the rest of its exercise's sets, then every later
      exercise's. */
  function PlanFrom(m: Machine, exs: seq<Exercise>): seq<Position> {
    if m.exIdx < |exs| then SetsBetween(m.exIdx, m.currentSet, TotalSets(exs[m.exIdx])) + Plan(exs, m.exIdx + 1)
    else []
  }

  /** A run from any set passes through the rest of that exercise's sets and then through every later set. */
  lemma {:induction false} RunFollowsPlan(m: Machine, exs: seq<Exercise>)
    requires m.started && OnASet(m, exs)
    ensures Run(m, exs) == PlanFrom(m, exs)
    decreases StepsLeft(m, exs)
  {
    var next := Advance(m, exs);
    AdvanceDoesOneSet(m, exs);
    AdvanceForward(m, exs);
    if next.started {
      RunFollowsPlan(next, exs);
      RunStep(m, exs);
    } else {
      LastSetStep(m, exs);
    }
  }

  /** The induction step: when the run from the next cursor follows the plan, so does the run from this one. */
  lemma RunStep(m: Machine, exs: seq<Exercise>)
    requires m.started && OnASet(m, exs) && Advance(m, exs).started
    requires Run(Advance(m, exs), exs) == PlanFrom(Advance(m, exs), exs)
    ensures Run(m, exs) == PlanFrom(m, exs)
  {
    RunUnfold(m, exs);
    AdvancePlan(m, exs);
    PlanHead(m, exs);
  }

  lemma RunUnfold(m: Machine, exs: seq<Exercise>)
    requires m.started && OnASet(m, exs)
    ensures Run(m, exs) == [Position(m.exIdx, m.currentSet)] + Run(Advance(m, exs), exs)
  {
  }

  lemma PlanHead(m: Machine, exs: seq<Exercise>)
    requires OnASet(m, exs)
    ensures PlanFrom(m, exs) == [Position(m.exIdx, m.currentSet)]
              + (SetsBetween(m.exIdx, m.currentSet + 1, TotalSets(exs[m.exIdx])) + Plan(exs, m.exIdx + 1))
  {
    var i, c, n := m.exIdx, m.currentSet, TotalSets(exs[m.exIdx]);
    SetsStep(i, c, n);
    Assoc(Position(i, c), SetsBetween(i, c + 1, n), Plan(exs, i + 1));
  }

  /** After an advance that does not end the session, the plan goes on with the sets after the current one. */
  lemma AdvancePlan(m: Machine, exs: seq<Exercise>)
    requires m.started && OnASet(m, exs) && Advance(m, exs).started
    ensures PlanFrom(Advance(m, exs), exs)
            == SetsBetween(m.exIdx, m.currentSet + 1, TotalSets(exs[m.exIdx])) + Plan(exs, m.exIdx + 1)
  {
    var i, c, n := m.exIdx, m.currentSet, TotalSets(exs[m.exIdx]);
    if c < n {
      assert Advance(m, exs) == m.(currentSet := c + 1);
    } else {
      assert Advance(m, exs) == m.(exIdx := i + 1, currentSet := 1);
      assert SetsBetween(i, c + 1, n) == [];
      assert Plan(exs, i + 1) == SetsBetween(i + 1, 1, TotalSets(exs[i + 1])) + Plan(exs, i + 2);
    }
  }

  /** The last set of the last exercise ends the run. */
  lemma LastSetStep(m: Machine, exs: seq<Exercise>)
    requires m.started && OnASet(m, exs) && m.currentSet == TotalSets(exs[m.exIdx]) && m.exIdx == |exs| - 1
    ensures Run(m, exs) == PlanFrom(m, exs)
  {
    var i, c := m.exIdx, m.currentSet;
    assert !Advance(m, exs).started;
    assert Run(m, exs) == [Position(i, c)];
    SetsStep(i, c, c);
    assert PlanFrom(m, exs) == [Position(i, c)] + Plan(exs, i + 1);
  }

  lemma SetsStep(i: nat, s: int, n: int)
    requires s <= n
    ensures SetsBetween(i, s, n) == [Position(i, s)] + SetsBetween(i, s + 1, n)
  {
  }

  lemma Assoc(x: Position, a: seq<Position>, b: seq<Position>)
    ensures ([x] + a) + b == [x] + (a + b)
  {
  }

  /** A whole workout from `startWorkout` visits the sets in the order `Plan` lists them. */
  lemma FullRun(m: Machine, exs: seq<Exercise>)
    requires exs != []
    ensures Run(Start(m, exs), exs) == Plan(exs, 0)
  {
    RunFollowsPlan(Start(m, exs), exs);
  }

  /** The plan lists positions in strictly increasing order, so no set is visited twice. */
  lemma {:induction false} PlanIncreasing(exs: seq<Exercise>, i: nat)
    ensures forall a, b :: 0 <= a < b < |Plan(exs, i)| ==> Before(Plan(exs, i)[a], Plan(exs, i)[b])
    decreases |exs| - i
  {
    if i < |exs| {
      PlanIncreasing(exs, i + 1);
      var head, tail := SetsBetween(i, 1, TotalSets(exs[i])), Plan(exs, i + 1);
      SetsBetweenAt(i, 1, TotalSets(exs[i]));
      forall b | 0 <= b < |tail|
        ensures tail[b].exIdx > i
      {
        PlanComplete(exs, i + 1, tail[b]);
      }
      var all := head + tail;
      assert Plan(exs, i) == all;
      forall a, b | 0 <= a < b < |all|
        ensures Before(all[a], all[b])
      {
        if b >= |head| {
          assert all[b] == tail[b - |head|];
          if a >= |head| {
            assert all[a] == tail[a - |head|];
          }
        }
      }
    }
  }

  /** The plan lists every set of every exercise from `i` on, and nothing else. */
  lemma {:induction false} PlanComplete(exs: seq<Exercise>, i: nat, p: Position)
    ensures p in Plan(exs, i) <==> i <= p.exIdx < |exs| && 1 <= p.setNo <= TotalSets(exs[p.exIdx])
    decreases |exs| - i
  {
    if i < |exs| {
      PlanComplete(exs, i + 1, p);
      var head := SetsBetween(i, 1, TotalSets(exs[i]));
      SetsBetweenAt(i, 1, TotalSets(exs[i]));
      if p.exIdx == i && 1 <= p.setNo <= TotalSets(exs[i]) {
        assert head[p.setNo - 1] == p;
      }
    }
  }

  /** The plan has one position per set. */
  lemma {:induction false} PlanLength(exs: seq<Exercise>, i: nat)
    ensures |Plan(exs, i)| == SetsFrom(exs, i)
    decreases |exs| - i
  {
    if i < |exs| {
      PlanLength(exs, i + 1);
    }
  }

  // ---------------------------------------------------------------- the session screen

  /** The rest after finishing a set of `ex`: `Number(ex.rest) || 60` seconds. */
  function RestOf(ex: Exercise): (r: nat)
    ensures r > 0 && (ex.rest != 0 ==> r == ex.rest)
  {
    NatOr(Some(ex.rest), 60)
  }

  /** What finishing a set hands to `logSessionSet`. */
  function FinishedSet(workoutId: string, ex: Exercise, currentSet: int, weight: real, now: int): Storage.SetInput {
    Storage.SetInput(Some(now), Some(workoutId), ex.name, Some(currentSet), Some(ex.reps), Some(weight))
  }

  /** The stored record after a set in scope is logged: that set when there was no record or it is strictly
      heavier, else the old record. This is the rule the new-record flag of `startRest` follows. */
  lemma RecordAfterSet(log: seq<SetLog>, e: SetLog, name: string, workoutId: Option<string>)
    requires Analytics.InRecordScope(e, name, workoutId)
    ensures var before := Analytics.BestRecord(log, name, workoutId);
            Analytics.BestRecord(log + [e], name, workoutId) ==
              if before.None? || e.weightKg > before.value.weightKg then Some(Analytics.RecordOf(e)) else before
  {
    assert (log + [e])[..|log|] == log;
    var prev := Analytics.RecordIndex(log, name, workoutId);
    if prev.Some? {
      assert (log + [e])[prev.value] == log[prev.value];
    }
  }

  /** `RecordAfterSet` for the set `startRest` logs: the record becomes that set exactly when there was none
      or the set is strictly heavier. */
  lemma FinishedSetRecord(log: seq<SetLog>, workoutId: string, ex: Exercise, currentSet: int, w: real, now: int)
    requires workoutId != ""
    ensures var before := Analytics.BestRecord(log, ex.name, Some(workoutId));
            Analytics.BestRecord(log + [Storage.NormalizeSet(FinishedSet(workoutId, ex, currentSet, w, now), now)],
                                 ex.name, Some(workoutId))
            == if before.None? || w > before.value.weightKg then Some(Record(w, ex.reps, now)) else before
  {
    var e := Storage.NormalizeSet(FinishedSet(workoutId, ex, currentSet, w, now), now);
    RecordAfterSet(log, e, ex.name, Some(workoutId));
  }

  /** A workout screen. The exercises of the running session and those of the editor are separate lists;
      the editor's are copied in when edit mode is entered and copied back when saved. */
  class Session {
    const workout: Workout
    const store: Storage.Store
    var started: bool
    var exIdx: nat
    var currentSet: int
    var restRunning: bool
    var restRemaining: int
    var exercises: seq<Exercise>
    var edited: seq<Exercise>
    var editMode: bool
    var pr: Option<Record>
    var isNewPR: bool
    var suggestions: seq<WeightPoint>
    var repRange: string

    function State(): Machine
      reads this
    {
      Machine(started, exIdx, currentSet, restRunning, restRemaining)
    }

    /** The screen opened on `workout`: no session, the first set of the first exercise, both exercise
        lists copied from the workout, the "6-12" rep range, and no record shown yet. */
    constructor (workout: Workout, store: Storage.Store, startInEditMode: bool)
      ensures this.workout == workout && this.store == store
      ensures State() == Machine(false, 0, 1, false, 0)
      ensures exercises == workout.exercises && edited == workout.exercises && editMode == startInEditMode
      ensures pr == None && !isNewPR && suggestions == [] && repRange == "6-12"
    {
      this.workout := workout;
      this.store := store;
      started, exIdx, currentSet, restRunning, restRemaining := false, 0, 1, false, 0;
      exercises := workout.exercises;
      edited := workout.exercises;
      editMode := startInEditMode;
      pr, isNewPR, suggestions, repRange := None, false, [], "6-12";
    }

    method StartWorkout()
      modifies this
      ensures State() == Start(old(State()), exercises)
      ensures unchanged(this`exercises, this`edited, this`editMode, this`pr, this`isNewPR, this`suggestions, this`repRange)
    {
      if exercises == [] {
        return;
      }
      started, exIdx, currentSet, restRunning, restRemaining := true, 0, 1, false, 0;
    }

    method NextSetOrExercise()
      modifies this
      ensures State() == Advance(old(State()), exercises)
      ensures unchanged(this`exercises, this`edited, this`editMode, this`pr, this`isNewPR, this`suggestions, this`repRange)
    {
      if exIdx >= |exercises| {
        return;
      }
      if currentSet < TotalSets(exercises[exIdx]) {
        currentSet := currentSet + 1;
      } else if exIdx < |exercises| - 1 {
        exIdx := exIdx + 1;
        currentSet := 1;
      } else {
        started := false;
      }
    }

    /** `getCurrentSetWeight`: repairs the current exercise's per-set array in place and reads the current
        set's slot; 0 when there is no current exercise. */
    method GetCurrentSetWeight() returns (w: real)
      modifies this`exercises
      ensures exIdx >= |exercises| ==> w == 0.0 && exercises == old(exercises)
      ensures exIdx < |old(exercises)| ==> exercises == old(exercises)[exIdx := Repaired(old(exercises)[exIdx])]
      ensures exIdx < |old(exercises)| ==> w == CurrentSetWeight(old(exercises)[exIdx], currentSet)
    {
      if exIdx >= |exercises| {
        return 0.0;
      }
      var ex := Repaired(exercises[exIdx]);
      exercises := exercises[exIdx := ex];
      w := ex.weightPerSet.value[SetSlot(ex, currentSet)];
    }

    /** The record shown after a set of `w` kg: that set, flagged as new, when there was none or it is
        strictly heavier; otherwise the record and its flag stay. */
    method RaiseRecord(w: real, reps: nat, now: int)
      modifies this`pr, this`isNewPR
      ensures old(pr).None? || w > old(pr).value.weightKg ==> isNewPR && pr == Some(Record(w, reps, now))
      ensures !(old(pr).None? || w > old(pr).value.weightKg) ==> isNewPR == old(isNewPR) && pr == old(pr)
    {
      if pr.None? || w > pr.value.weightKg {
        isNewPR := true;
        pr := Some(Record(w, reps, now));
      }
    }

    /** The set `startRest` logs: the store gains exactly that set, and the stored record follows the rule of
        `FinishedSetRecord`. */
    method LogFinishedSet(ex: Exercise, w: real, now: int)
      modifies store
      ensures store.sessions == old(store.sessions) + [Storage.NormalizeSet(FinishedSet(workout.id, ex, currentSet, w, now), now)]
      ensures var e := Storage.NormalizeSet(FinishedSet(workout.id, ex, currentSet, w, now), now);
              store.weightHistory == Storage.LogWeight(old(store.weightHistory), e.exerciseName, Some(e.weightKg), Some(e.date), now)
      ensures workout.id != "" ==>
                var before := Analytics.BestRecord(old(store.sessions), ex.name, Some(workout.id));
                Analytics.BestRecord(store.sessions, ex.name, Some(workout.id))
                == if before.None? || w > before.value.weightKg then Some(Record(w, ex.reps, now)) else before
      ensures unchanged(store`workouts, store`schedule, store`unit, store`themeName, store`restSetting)
    {
      var entry := store.LogSessionSet(FinishedSet(workout.id, ex, currentSet, w, now), now);
      if workout.id != "" {
        FinishedSetRecord(old(store.sessions), workout.id, ex, currentSet, w, now);
      }
    }

    /** `startRest`: logs exactly one set (the current weight, the exercise's reps and the current set
        number), raises the new-record flag when there is no record or this weight is strictly heavier, and
        starts the exercise's rest. Without a current exercise nothing happens. When the record shown was the
        stored one, it still is afterwards. */
    method StartRest(now: int)
      modifies this`exercises, this`pr, this`isNewPR, this`restRunning, this`restRemaining, store
      ensures old(exIdx) >= |old(exercises)| ==>
                unchanged(this) && unchanged(store)
      ensures old(exIdx) < |old(exercises)| ==>
                var ex := old(exercises)[old(exIdx)];
                var w := CurrentSetWeight(ex, currentSet);
                && exercises == old(exercises)[old(exIdx) := Repaired(ex)]
                && store.sessions == old(store.sessions) + [Storage.NormalizeSet(FinishedSet(workout.id, ex, currentSet, w, now), now)]
                && store.weightHistory == Storage.LogWeight(old(store.weightHistory), ex.name, Some(w), Some(now), now)
                && (old(pr).None? || w > old(pr).value.weightKg ==> isNewPR && pr == Some(Record(w, ex.reps, now)))
                && (!(old(pr).None? || w > old(pr).value.weightKg) ==> isNewPR == old(isNewPR) && pr == old(pr))
                && State() == old(State()).(restRunning := true, restRemaining := RestOf(ex))
                && (workout.id != "" && old(pr) == Analytics.BestRecord(old(store.sessions), ex.name, Some(workout.id))
                    ==> pr == Analytics.BestRecord(store.sessions, ex.name, Some(workout.id)))
      ensures unchanged(store`workouts, store`schedule, store`unit, store`themeName, store`restSetting)
    {
      if exIdx >= |exercises| {
        return;
      }
      var ex := exercises[exIdx];
      var rest := RestOf(ex);
      var w := GetCurrentSetWeight();
      LogFinishedSet(ex, w, now);
      RaiseRecord(w, ex.reps, now);
      restRemaining := rest;
      restRunning := true;
    }

    /** One second of the rest countdown. */
    method Tick()
      modifies this
      ensures State() == TickRest(old(State()), exercises)
      ensures unchanged(this`exercises, this`edited, this`editMode, this`pr, this`isNewPR, this`suggestions, this`repRange)
    {
      if !restRunning {
        return;
      }
      if restRemaining <= 1 {
        restRunning := false;
        restRemaining := 0;
        NextSetOrExercise();
      } else {
        restRemaining := restRemaining - 1;
      }
    }

    /** `skipRest`: stops the rest and advances once. */
    method SkipRest()
      modifies this
      ensures State() == EndRest(old(State()), exercises)
      ensures unchanged(this`exercises, this`edited, this`editMode, this`pr, this`isNewPR, this`suggestions, this`repRange)
    {
      restRunning := false;
      restRemaining := 0;
      NextSetOrExercise();
    }

    method AdjustCurrentSetWeight(delta: real)
      modifies this`exercises
      ensures exercises == Adjusted(old(exercises), exIdx, currentSet, delta)
    {
      exercises := Adjusted(exercises, exIdx, currentSet, delta);
    }

    /** Picking a weight suggestion while the session runs. */
    method ApplySuggestion(val: real)
      modifies this`exercises
      ensures exercises == Picked(old(exercises), exIdx, currentSet, val)
    {
      exercises := Picked(exercises, exIdx, currentSet, val);
    }

    method SetRepRange(r: string)
      modifies this`repRange
      ensures repRange == r
    {
      repRange := r;
    }

    /** The screen's reload of the current exercise's suggestions (last 3 in the rep range, this workout
        only) and stored record, run after the exercise index, the exercise list or the rep range change;
        with no named current exercise both are cleared. The new-record flag is lowered either way. */
    method Refresh()
      modifies this`suggestions, this`pr, this`isNewPR
      ensures exIdx < |exercises| && exercises[exIdx].name != "" ==>
                && suggestions == Analytics.WeightSuggestionsByWorkout(store.sessions, exercises[exIdx].name,
                                                                         Some(workout.id), 3, Some(repRange))
                && pr == Analytics.BestRecord(store.sessions, exercises[exIdx].name, Some(workout.id))
      ensures !(exIdx < |exercises| && exercises[exIdx].name != "") ==> suggestions == [] && pr == None
      ensures !isNewPR
    {
      if exIdx < |exercises| && exercises[exIdx].name != "" {
        var name := exercises[exIdx].name;
        suggestions := Analytics.WeightSuggestionsByWorkout(store.sessions, name, Some(workout.id), 3, Some(repRange));
        pr := Analytics.PRForExercise(store.sessions, name, Some(workout.id));
      } else {
        suggestions := [];
        pr := None;
      }
      isNewPR := false;
    }

    /** The edit-mode toggle; entering edit mode copies the session's exercises into the editor. */
    method ToggleEditMode()
      modifies this`editMode, this`edited
      ensures editMode == !old(editMode)
      ensures edited == if editMode then exercises else old(edited)
    {
      editMode := !editMode;
      if editMode {
        edited := exercises;
      }
    }

    method EditSets(idx: int, newSets: nat)
      modifies this`edited
      ensures edited == MapAt(old(edited), idx, x => Resized(x, newSets))
    {
      edited := MapAt(edited, idx, x => Resized(x, newSets));
    }

    method DistributeWeight(idx: int)
      modifies this`edited
      ensures edited == MapAt(old(edited), idx, Distributed)
    {
      edited := MapAt(edited, idx, Distributed);
    }

    method FillFromSuggestion(idx: int, val: real)
      modifies this`edited
      ensures edited == MapAt(old(edited), idx, x => SuggestionFilled(x, val))
    {
      edited := MapAt(edited, idx, x => SuggestionFilled(x, val));
    }

    method RemoveEdited(idx: int)
      modifies this`edited
      ensures edited == WithoutAt(old(edited), idx)
    {
      edited := WithoutAt(edited, idx);
    }

    /** "Save changes": saves the editor's exercises under this workout's id and name, leaves edit mode and
        makes them the session's exercises. */
    method SaveChanges(freshId: string) returns (saved: Workout)
      modifies this`editMode, this`exercises, store
      ensures Storage.Upsert(old(store.workouts), Some(workout.id), workout.name, edited, freshId)
              == Storage.Upserted(store.workouts, saved)
      ensures !editMode && exercises == edited
      ensures unchanged(store`schedule, store`sessions, store`weightHistory, store`unit, store`themeName, store`restSetting)
    {
      saved := store.SaveWorkout(Some(workout.id), workout.name, edited, freshId);
      editMode := false;
      exercises := edited;
    }
  }
}
