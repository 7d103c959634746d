/** The step tabs above the wizard. A click on a tab dispatches reducer
    actions; `dispatch` is modelled by recording the actions in order, and the
    state after the click is `Run` of those actions. */
module StepTabs {
  import opened Wrappers
  import opened JsValue
  import opened AnalysisContext

  /** The `CLEAR_DATA_FROM_STEP` payload of a backward jump. */
  function ClearPayload(target: int, current: int): Val {
    Obj(["stepIndex", "currentStepIndex"], map["stepIndex" := N(target), "currentStepIndex" := N(current)])
  }

  /** The actions of a backward jump from step `current` to step `target`:
      one `RESET_STEP` per step from the target through the current step, in
      order, then one `CLEAR_DATA_FROM_STEP`. */
  predicate BackwardResets(acts: seq<Action>, target: nat, current: nat)
    requires target < current < |STEPS|
  {
    |acts| == current - target + 2 &&
    (forall k :: 0 <= k <= current - target ==> acts[k] == ResetStep(Str(STEPS[target + k].id))) &&
    acts[current - target + 1] == ClearDataFromStep(ClearPayload(target, current))
  }

  /** `resetStepsBetween(targetStepId)`: nothing unless the target comes
      before the current step. A target that is not a step (index -1) makes the
      first iteration read `steps[-1].id`, which throws before anything is
      dispatched. */
  method ResetStepsBetween(s: State, targetId: Val) returns (r: Result<seq<Action>>)
    ensures var current := StepIndex(s.currentStepId);
      var target := StepIndex(targetId);
      (current <= target ==> r == Success([])) &&
      (target < 0 <= current ==> r.Failure?) &&
      (0 <= target < current ==> r.Success? && BackwardResets(r.value, target, current))
  {
    var current := StepIndex(s.currentStepId);
    var target := StepIndex(targetId);
    if current <= target {
      return Success([]);
    }
    if target < 0 {
      return Failure("Cannot read properties of undefined (reading 'id')");
    }
    var acts: seq<Action> := [];
    var i := target;
    while i <= current
      invariant target <= i <= current + 1
      invariant |acts| == i - target
      invariant forall k :: 0 <= k < i - target ==> acts[k] == ResetStep(Str(STEPS[target + k].id))
    {
      acts := acts + [ResetStep(Str(STEPS[i].id))];
      i := i + 1;
    }
    acts := acts + [ClearDataFromStep(ClearPayload(target, current))];
    return Success(acts);
  }

  /** A tab can be clicked when its step is completed or current. */
  predicate Clickable(s: State, stepId: string) {
    Truthy(Get(s.completedSteps, stepId)) || s.currentStepId == Str(stepId)
  }

  /** `handleTabClick(stepId)`: nothing for a tab that cannot be clicked;
      otherwise the actions of a backward jump, if it is one, and then
      `SET_CURRENT_STEP`. */
  method HandleTabClick(s: State, stepId: string) returns (r: Result<seq<Action>>)
    ensures !Clickable(s, stepId) ==> r == Success([])
    ensures var current := StepIndex(s.currentStepId);
      var target := StepIndex(Str(stepId));
      Clickable(s, stepId) ==>
        (current <= target ==> r == Success([SetCurrentStep(Str(stepId))])) &&
        (target < 0 <= current ==> r.Failure?) &&
        (0 <= target < current ==>
          r.Success? && |r.value| == current - target + 3 &&
          BackwardResets(r.value[..current - target + 2], target, current) &&
          r.value[current - target + 2] == SetCurrentStep(Str(stepId)))
  {
    if !Clickable(s, stepId) {
      return Success([]);
    }
    var target := StepIndex(Str(stepId));
    var current := StepIndex(s.currentStepId);
    var resets: seq<Action> := [];
    if target < current {
      var rr := ResetStepsBetween(s, Str(stepId));
      if rr.Failure? {
        return Failure(rr.error);
      }
      resets := rr.value;
    }
    var acts := resets + [SetCurrentStep(Str(stepId))];
    assert acts[..|resets|] == resets;
    assert resets == [] ==> acts == [SetCurrentStep(Str(stepId))];
    return Success(acts);
  }

  // ---------------------------------------------------------------------
  // The state after a backward jump

  /** Dispatching `a` from any state leaves the navigation record alone,
      clears the flag `id` and never sets a cleared flag again. */
  ghost predicate ClearsFlag(a: Action, id: string, now: int, iso: string) {
    forall st: State ::
      var r := Reduce(st, a, now, iso);
      r.navigation == st.navigation &&
      !Truthy(Get(r.completedSteps, id)) &&
      (forall k :: !Truthy(Get(st.completedSteps, k)) ==> !Truthy(Get(r.completedSteps, k)))
  }

  lemma ResetStepClearsFlag(id: string, now: int, iso: string)
    ensures ClearsFlag(ResetStep(Str(id)), id, now, iso)
  {
    forall st: State {
      ResetStepFlags(st, Str(id), now, iso);
    }
  }

  /** After a run of flag-clearing actions the navigation record is as it was
      and every one of the flags is cleared. */
  lemma {:induction false} ClearsAlong(s: State, acts: seq<Action>, ids: seq<string>, now: int, iso: string)
    requires |acts| == |ids|
    requires forall i :: 0 <= i < |acts| ==> ClearsFlag(acts[i], ids[i], now, iso)
    ensures var r := Run(s, acts, now, iso);
      r.navigation == s.navigation &&
      (forall k :: k in ids ==> !Truthy(Get(r.completedSteps, k))) &&
      (forall k :: !Truthy(Get(s.completedSteps, k)) ==> !Truthy(Get(r.completedSteps, k)))
    decreases |acts|
  {
    if acts != [] {
      var s1 := Reduce(s, acts[0], now, iso);
      assert ClearsFlag(acts[0], ids[0], now, iso);
      RunStep(s, acts, now, iso);
      ClearsAlong(s1, acts[1..], ids[1..], now, iso);
      forall k | k in ids ensures !Truthy(Get(Run(s, acts, now, iso).completedSteps, k)) {
        if k != ids[0] {
          assert k in ids[1..];
        }
      }
    }
  }

  /** `CLEAR_DATA_FROM_STEP` then `SET_CURRENT_STEP`, with no transition in
      flight: the wizard is on the target, and the completion flags and the
      navigation record are untouched. */
  lemma ClearThenMove(s: State, clear: Action, id: Val, now: int, iso: string)
    requires clear.ClearDataFromStep?
    requires !Truthy(Get(s.navigation, "isTransitioning"))
    ensures var r := Run(s, [clear, SetCurrentStep(id)], now, iso);
      r.currentStepId == id && r.completedSteps == s.completedSteps && r.navigation == s.navigation
  {
    var acts := [clear, SetCurrentStep(id)];
    var s2 := Reduce(s, acts[0], now, iso);
    DispatchClearDataFromStep(s, acts[0], now, iso);
    assert s2.navigation == s.navigation && s2.completedSteps == s.completedSteps;
    var s3 := Reduce(s2, acts[1], now, iso);
    DispatchSetCurrentStep(s2, acts[1], now, iso);
    assert acts[1..][1..] == [];
    assert Run(s, acts, now, iso) == Run(s2, acts[1..], now, iso) == Run(s3, [], now, iso);
  }

  /** Running `tail` from any state with no transition in flight ends on `id`
      with the completion flags and the navigation record as they were. */
  ghost predicate LandsOn(tail: seq<Action>, id: Val, now: int, iso: string) {
    forall st: State :: !Truthy(Get(st.navigation, "isTransitioning")) ==>
      var r := Run(st, tail, now, iso);
      r.currentStepId == id && r.completedSteps == st.completedSteps && r.navigation == st.navigation
  }

  lemma ClearThenMoveLands(clear: Action, id: Val, now: int, iso: string)
    requires clear.ClearDataFromStep?
    ensures LandsOn([clear, SetCurrentStep(id)], id, now, iso)
  {
    forall st: State | !Truthy(Get(st.navigation, "isTransitioning")) {
      ClearThenMove(st, clear, id, now, iso);
    }
  }

  /** Flag-clearing actions followed by a landing sequence: the wizard is on
      the landing step, every cleared flag stays cleared and the navigation
      record is as it was. */
  lemma ResetsThenLand(s: State, resets: seq<Action>, ids: seq<string>, tail: seq<Action>, id: Val, now: int, iso: string)
    requires |resets| == |ids|
    requires forall i :: 0 <= i < |resets| ==> ClearsFlag(resets[i], ids[i], now, iso)
    requires LandsOn(tail, id, now, iso)
    requires !Truthy(Get(s.navigation, "isTransitioning"))
    ensures var r := Run(s, resets + tail, now, iso);
      r.currentStepId == id && r.navigation == s.navigation &&
      forall k :: k in ids ==> !Truthy(Get(r.completedSteps, k))
  {
    ClearsAlong(s, resets, ids, now, iso);
    RunAppend(s, resets, tail, now, iso);
    var s1 := Run(s, resets, now, iso);
    assert !Truthy(Get(s1.navigation, "isTransitioning"));
  }

  /** A backward jump with no transition in flight lands on the target, and
      every step that was reset is no longer completed; the navigation record
      is untouched. `HandleTabClick` dispatches exactly such a sequence, with
      `ids` the steps from the target through the current one. */
  lemma BackwardClickLands(s: State, acts: seq<Action>, ids: seq<string>, id: string, now: int, iso: string)
    requires !Truthy(Get(s.navigation, "isTransitioning"))
    requires |acts| == |ids| + 2
    requires forall k :: 0 <= k < |ids| ==> acts[k] == ResetStep(Str(ids[k]))
    requires acts[|ids|].ClearDataFromStep?
    requires acts[|ids| + 1] == SetCurrentStep(Str(id))
    ensures var r := Run(s, acts, now, iso);
      r.currentStepId == Str(id) &&
      r.navigation == s.navigation &&
      forall k :: k in ids ==> !Truthy(Get(r.completedSteps, k))
  {
    var resets, tail := SplitBackwardClick(acts, ids, id, now, iso);
    ResetsThenLand(s, resets, ids, tail, Str(id), now, iso);
  }

  /** The flag resets and the landing tail of a backward jump's actions. */
  lemma SplitBackwardClick(acts: seq<Action>, ids: seq<string>, id: string, now: int, iso: string)
    returns (resets: seq<Action>, tail: seq<Action>)
    requires |acts| == |ids| + 2
    requires forall k :: 0 <= k < |ids| ==> acts[k] == ResetStep(Str(ids[k]))
    requires acts[|ids|].ClearDataFromStep?
    requires acts[|ids| + 1] == SetCurrentStep(Str(id))
    ensures acts == resets + tail && |resets| == |ids|
    ensures forall i :: 0 <= i < |resets| ==> ClearsFlag(resets[i], ids[i], now, iso)
    ensures LandsOn(tail, Str(id), now, iso)
  {
    var n := |ids|;
    resets := acts[..n];
    tail := acts[n..];
    forall i | 0 <= i < n ensures ClearsFlag(resets[i], ids[i], now, iso) {
      ResetStepClearsFlag(ids[i], now, iso);
    }
    assert tail == [acts[n], SetCurrentStep(Str(id))];
    ClearThenMoveLands(acts[n], Str(id), now, iso);
    assert acts == resets + tail;
  }
}
