/** The automatic step-to-step transition: when it starts, with what payload,
    and the countdown it displays. */
module AutoTransition {
  import opened Wrappers
  import opened JsValue
  import opened AnalysisContext

  /** `steps.find(s => s.id === currentStepId)`. */
  function CurrentStep(s: State): Option<Step> {
    FindStep(s.currentStepId)
  }

  /** The step after the current one, looked up by id; none without a
      current step or a `nextStep`. */
  function NextStep(s: State): (r: Option<Step>)
    ensures r.Some? ==> CurrentStep(s).Some? && CurrentStep(s).value.nextStep == Some(r.value.id)
  {
    match CurrentStep(s)
    case None => None
    case Some(step) =>
      match step.nextStep
      case None => None
      case Some(id) => FindStep(Str(id))
  }

  /** `isStepCompleted()`. The switch compares the current step's id with
      `'research-problem'`, which is no step's id, so the research-problems
      step falls through to its `completedSteps` flag like the steps after it.
      Without a current step the flag looked up is the one named `"undefined"`. */
  predicate IsStepCompleted(s: State) {
    match CurrentStep(s)
    case None => Truthy(Get(s.completedSteps, "undefined"))
    case Some(step) =>
      if step.id == "metadata" then Get(s.metadata, "status") == Str("success")
      else if step.id == "researchFields" then Get(s.researchFields, "status") == Str("success")
      else if step.id == "research-problem" then
        Get(Get(s.researchProblems, "processing_info"), "status") == Str("success")
      else if step.id == "template" then Get(s.templates, "status") == Str("success")
      else Truthy(Get(s.completedSteps, step.id))
  }

  /** The `START_TRANSITION` payload. */
  function TransitionPayload(current: Step, next: Step): Val {
    Obj(["fromStep", "toStep", "delay"],
        map["fromStep" := Str(current.id),
            "toStep" := Str(next.id),
            "delay" := N(current.transitionDelay)])
  }

  /** The effect of the component: the `START_TRANSITION` it dispatches, if any.
      It fires exactly when the mode is automatic, the current step has a
      non-zero delay and a next step, the step is completed and no transition
      is in flight; the payload goes from the current step to the next one. */
  function AutoTransitionEffect(s: State): (r: Option<Action>)
    ensures r.Some? <==>
      s.analysisMode == Str("automatic") &&
      CurrentStep(s).Some? && CurrentStep(s).value.transitionDelay != 0 &&
      NextStep(s).Some? &&
      IsStepCompleted(s) &&
      !Truthy(Get(s.navigation, "isTransitioning"))
    ensures r.Some? ==>
      r.value == StartTransition(TransitionPayload(CurrentStep(s).value, NextStep(s).value))
  {
    var current := CurrentStep(s);
    var next := NextStep(s);
    if s.analysisMode != Str("automatic") || current.None? || current.value.transitionDelay == 0 ||
       next.None? || !IsStepCompleted(s) || Truthy(Get(s.navigation, "isTransitioning"))
    then None
    else Some(StartTransition(TransitionPayload(current.value, next.value)))
  }

  /** The last step has no next step, so no transition starts from it. */
  lemma NoTransitionFromFinalStep(s: State)
    requires s.currentStepId == Str("FinalStep")
    ensures AutoTransitionEffect(s).None?
  {
    FindStepAt(5);
  }

  /** The research-problems step counts as completed exactly when its
      `completedSteps` flag is set, whatever its processing status says. */
  lemma ResearchProblemsUsesFlag(s: State)
    requires s.currentStepId == Str("researchProblems")
    ensures IsStepCompleted(s) <==> Truthy(Get(s.completedSteps, "researchProblems"))
  {
    FindStepAt(2);
  }

  /** Once the effect has started a transition, a tick at least the current
      step's delay later moves the wizard to the next step and marks the
      current one completed. */
  lemma StartedTransitionCompletes(s: State, now0: int, now1: int, iso: string)
    requires AutoTransitionEffect(s).Some?
    requires now1 - now0 >= CurrentStep(s).value.transitionDelay
    ensures var current := CurrentStep(s).value;
      var s1 := Reduce(s, AutoTransitionEffect(s).value, now0, iso);
      var r := Reduce(s1, UpdateTransition, now1, iso);
      r.currentStepId == Str(NextStep(s).value.id) &&
      Get(r.completedSteps, current.id) == Bool(true)
  {
    var current := CurrentStep(s).value;
    var a := AutoTransitionEffect(s).value;
    var s1 := Reduce(s, a, now0, iso);
    DispatchStartTransition(s, a, now0, iso);
    FindStepAt(StepIndex(Str(current.id)));
    StartThenTick(s, a.payload, current, now0, now1);
    DispatchUpdateTransition(s1, UpdateTransition, now1, iso);
  }

  /** `START_TRANSITION` from a known step followed by a tick after its delay. */
  lemma StartThenTick(s: State, p: Val, from: Step, now0: int, now1: int)
    requires from in STEPS && Get(p, "fromStep") == Str(from.id)
    requires FindStep(Str(from.id)) == Some(from)
    requires now1 - now0 >= from.transitionDelay
    ensures var r := OnUpdateTransition(OnStartTransition(s, p, now0), now1);
      r.currentStepId == Get(p, "toStep") &&
      Get(r.completedSteps, from.id) == Bool(true)
  {
    var s1 := OnStartTransition(s, p, now0);
    assert Get(s1.navigation, "fromStep") == Str(from.id);
    assert ToNumber(Get(s1.navigation, "startTime")) == Some(now0 as real);
  }

  /** `Math.ceil(x)`. */
  function Ceil(x: real): (r: int)
    ensures r as real - 1.0 < x <= r as real
  {
    var f := x.Floor;
    if f as real == x then f else f + 1
  }

  /** The countdown shown while a transition is in flight:
      `Math.ceil(remainingTime / 1000)` seconds. */
  function RemainingSeconds(remainingTime: real): int {
    Ceil(remainingTime / 1000.0)
  }

  /** The countdown is the least whole number of seconds that covers the
      remaining time, and it never grows as the remaining time shrinks. */
  lemma RemainingSecondsCovers(t: real, u: real)
    ensures var r := RemainingSeconds(t);
      (r - 1) as real * 1000.0 < t <= r as real * 1000.0
    ensures u <= t ==> RemainingSeconds(u) <= RemainingSeconds(t)
  {
    var r := RemainingSeconds(t);
    var q := RemainingSeconds(u);
    assert (r - 1) as real < t / 1000.0 <= r as real;
    if u <= t {
      assert u / 1000.0 <= t / 1000.0;
      assert (q - 1) as real < r as real;
    }
  }
}
