/** The wizard's state machine: the step table, the initial state, the reducer
    over `(State, Action)`, and the hooks that dispatch into it
    (`canNavigateNext`/`navigate`, `trackEvaluation`). The clock is a
    parameter: `now` stands for `Date.now()` and `iso` for
    `new Date().toISOString()` at the moment the action is reduced. */
module AnalysisContext {
  import opened Wrappers
  import opened JsString
  import opened JsValue

  const REQUIRED_STEPS: seq<string> :=
    ["metadata", "researchFields", "researchProblems", "template", "paperContent"]

  datatype Step = Step(
    id: string,
    caption: string,
    transitionDelay: nat,
    nextStep: Option<string>,
    prevStep: Option<string>)

  /** The wizard's six steps, in order. */
  const STEPS: seq<Step> := [
    Step("metadata", "Metadata Analysis", 5000, Some("researchFields"), None),
    Step("researchFields", "Research Field Identification", 10000, Some("researchProblems"), Some("metadata")),
    Step("researchProblems", "Research Problem Discovery", 15000, Some("template"), Some("researchFields")),
    Step("template", "Template Detection", 12000, Some("paperContent"), Some("researchProblems")),
    Step("paperContent", "Content Analysis", 8000, Some("FinalStep"), Some("template")),
    Step("FinalStep", "Analysis Closure", 8000, None, Some("template"))
  ]

  /** The index of the first step whose id is `id` (compared with `===`), or -1. */
  function StepIndex(id: Val): (r: int)
    ensures -1 <= r < |STEPS|
    ensures r >= 0 ==> Str(STEPS[r].id) == id && forall j :: 0 <= j < r ==> Str(STEPS[j].id) != id
    ensures r == -1 ==> forall j :: 0 <= j < |STEPS| ==> Str(STEPS[j].id) != id
  {
    StepIndexFrom(id, 0)
  }

  function StepIndexFrom(id: Val, from: nat): (r: int)
    requires from <= |STEPS|
    decreases |STEPS| - from
    ensures r == -1 || from <= r < |STEPS|
    ensures r >= 0 ==> Str(STEPS[r].id) == id && forall j :: from <= j < r ==> Str(STEPS[j].id) != id
    ensures r == -1 ==> forall j :: from <= j < |STEPS| ==> Str(STEPS[j].id) != id
  {
    if from == |STEPS| then -1
    else if Str(STEPS[from].id) == id then from
    else StepIndexFrom(id, from + 1)
  }

  /** `steps.find(s => s.id === id)`. */
  function FindStep(id: Val): (r: Option<Step>)
    ensures r.Some? <==> exists j :: 0 <= j < |STEPS| && Str(STEPS[j].id) == id
    ensures r.Some? ==> r.value in STEPS && Str(r.value.id) == id
  {
    var i := StepIndex(id);
    if i < 0 then None else Some(STEPS[i])
  }

  /** The step ids are distinct, so `find` by id gives back the step itself. */
  lemma FindStepAt(j: int)
    requires 0 <= j < |STEPS|
    ensures StepIndex(Str(STEPS[j].id)) == j
    ensures FindStep(Str(STEPS[j].id)) == Some(STEPS[j])
  {
  }

  datatype State = State(
    analysisMode: Val,
    currentStepId: Val,
    error: Val,
    loading: Val,
    progress: Val,
    navigation: Val,
    metadata: Val,
    researchFields: Val,
    researchProblems: Val,
    templates: Val,
    paperContent: Val,
    completedSteps: Val,
    evaluationData: Val)

  /** The dispatched `{ type, payload }` objects, one constructor per action
      type the reducer handles; `Other` is a type it does not handle. */
  datatype Action =
    | StartTransition(payload: Val)
    | UpdateTransition
    | EndTransition
    | BlockNavigation
    | SetAnalysisMode(payload: Val)
    | SetCurrentStep(payload: Val)
    | ResetStep(payload: Val)
    | StartNavigation(payload: Val)
    | UpdateNavigationProgress(payload: Val)
    | EndNavigation
    | SetError(payload: Val)
    | SetLoading(payload: Val)
    | SetMetadata(payload: Val)
    | SetMetadataStatus(payload: Val)
    | CompleteStep(payload: Val)
    | SetResearchFields(payload: Val)
    | SelectResearchField(payload: Val)
    | SetResearchFieldsStatus(payload: Val)
    | SelectResearchProblem(payload: Val)
    | SetResearchProblems(payload: Val)
    | SetResearchProblemsStatus(payload: Val)
    | ResetResearchProblems
    | SelectLlmProblem(payload: Val)
    | UpdateLlmProblem(payload: Val)
    | SetOriginalLlmProblem(payload: Val)
    | SetTemplates(payload: Val)
    | UpdateLlmTemplate(payload: Val)
    | SetSelectedTemplate(payload: Val)
    | SetTemplateStatus(payload: Val)
    | TrackEvaluationData(payload: Val)
    | ClearDataFromStep(payload: Val)
    | InitializeResearchFields
    | UpdateEvaluationData(payload: Val)
    | UpdatePaperContent(payload: Val)
    | Other(kind: string, payload: Val)

  function ProcessingInfo(status: string): Val {
    Obj(["step", "status", "progress", "message", "timestamp"],
        map["step" := Str(""),
            "status" := Str(status),
            "progress" := N(0),
            "message" := Str(""),
            "timestamp" := Null])
  }

  const INITIAL_NAVIGATION: Val :=
    Obj(["isNavigating", "direction", "targetStep", "progress", "isTransitioning",
         "fromStep", "toStep", "startTime", "remainingTime"],
        map["isNavigating" := Bool(false),
            "direction" := Null,
            "targetStep" := Null,
            "progress" := N(0),
            "isTransitioning" := Bool(false),
            "fromStep" := Null,
            "toStep" := Null,
            "startTime" := Null,
            "remainingTime" := N(0)])

  /** The keys of the research-problems `metadata` record, in order. */
  const PROBLEM_METADATA_KEYS: seq<string> :=
    ["total_scanned", "total_identified", "total_similar", "total_valid", "field_id",
     "similarities_found", "threshold_used", "max_similarity"]

  const INITIAL_RESEARCH_PROBLEMS: Val :=
    Obj(["orkg_problems", "llm_problem", "metadata", "processing_info", "selectedProblem"],
        map["orkg_problems" := Arr([]),
            "llm_problem" := Null,
            "metadata" := ProblemMetadata(EMPTY),
            "processing_info" := ProcessingInfo("idle"),
            "selectedProblem" := Null])

  /** The initial state; `token` is the random evaluation token. */
  function Initial(token: string): State {
    State(
      Str("user_guided"), Str("metadata"), Null, Bool(false), N(0),
      INITIAL_NAVIGATION,
      Obj(["title", "authors", "abstract", "doi", "url", "publicationDate", "status"],
          map["title" := Null,
              "authors" := Arr([]),
              "abstract" := Null,
              "doi" := Null,
              "url" := Null,
              "publicationDate" := Null,
              "status" := Str("idle")]),
      Obj(["fields", "selectedField", "status"],
          map["fields" := Arr([]),
              "selectedField" := Null,
              "status" := Str("idle")]),
      INITIAL_RESEARCH_PROBLEMS,
      Obj(["available", "selectedTemplate", "llm_template", "status", "processing_info"],
          map["available" := Arr([]),
              "selectedTemplate" := Null,
              "llm_template" := Null,
              "status" := Str("idle"),
              "processing_info" := ProcessingInfo("idle")]),
      Obj(["paperContent", "status"], map["paperContent" := Null, "status" := Str("idle")]),
      Obj(["metadata", "researchFields", "researchProblems", "template", "paperContent"],
          map["metadata" := Bool(false),
              "researchFields" := Bool(false),
              "researchProblems" := Bool(false),
              "template" := Bool(false),
              "paperContent" := Bool(false)]),
      Obj(["token", "metadata", "researchFields", "researchProblems", "template", "paperContent", "completedSteps", "timestamp"],
          map["token" := Str(token),
              "metadata" := Null,
              "researchFields" := Null,
              "researchProblems" := Null,
              "template" := Null,
              "paperContent" := Null,
              "completedSteps" := Obj([], map[]),
              "timestamp" := Null]))
  }

  /** `isEvaluationComplete`: every required step is marked in `completedSteps`. */
  predicate IsEvaluationComplete(evaluationData: Val) {
    forall i :: 0 <= i < |REQUIRED_STEPS| ==>
      Truthy(Get(Get(evaluationData, "completedSteps"), REQUIRED_STEPS[i]))
  }

  /** The `metadata` record of the stored research-problems shape: each count
      defaults to 0, the field id to `''` and the threshold to 0.5. */
  function ProblemMetadata(m: Val): Val {
    Obj(PROBLEM_METADATA_KEYS,
        map["total_scanned" := Or(Get(m, "total_scanned"), N(0)),
            "total_identified" := Or(Get(m, "total_identified"), N(0)),
            "total_similar" := Or(Get(m, "total_similar"), N(0)),
            "total_valid" := Or(Get(m, "total_valid"), N(0)),
            "field_id" := Or(Get(m, "field_id"), Str("")),
            "similarities_found" := Or(Get(m, "similarities_found"), N(0)),
            "threshold_used" := Or(Get(m, "threshold_used"), Num(0.5)),
            "max_similarity" := Or(Get(m, "max_similarity"), N(0))])
  }

  /** `transformResearchProblemsData`: the stored shape of a research-problems
      response, with its defaults. */
  function TransformResearchProblems(raw: Val, iso: string): (r: Val)
    // every default is truthy, so the stored shape always has a problem list,
    // a status, a progress and a threshold, whatever the server sent
    ensures Truthy(Get(r, "orkg_problems"))
    ensures Truthy(Get(Get(r, "processing_info"), "status")) && Truthy(Get(Get(r, "processing_info"), "progress"))
    ensures Truthy(Get(Get(r, "metadata"), "threshold_used"))
  {
    var info := Get(raw, "processing_info");
    Obj(["orkg_problems", "llm_problem", "metadata", "processing_info"],
        map["orkg_problems" := Or(Get(raw, "orkg_problems"), Or(Get(raw, "problems"), Arr([]))),
            "llm_problem" := Or(Get(raw, "llm_problem"), Null),
            "metadata" := ProblemMetadata(Get(raw, "metadata")),
            "processing_info" :=
              Obj(["step", "status", "progress", "message", "timestamp"],
                  map["step" := Or(Get(info, "step"), Str("")),
                      "status" := Or(Get(info, "status"), Str("completed")),
                      "progress" := Or(Get(info, "progress"), N(100)),
                      "message" := Or(Get(info, "message"), Str("")),
                      "timestamp" := Or(Get(info, "timestamp"), Str(iso))])])
  }

  /** The transform produces exactly the four keys of the stored shape, each once. */
  lemma TransformResearchProblemsShape(raw: Val, iso: string)
    ensures var r := TransformResearchProblems(raw, iso);
      KeysOf(r) == ["orkg_problems", "llm_problem", "metadata", "processing_info"] && WellFormed(r)
  {
  }

  /** The transform takes the problem list from `orkg_problems`, else from the
      older `problems`, else `[]`; the status defaults to `'completed'` and the
      progress to 100. */
  lemma TransformResearchProblemsDefaults(raw: Val, iso: string)
    ensures var r := TransformResearchProblems(raw, iso);
      Get(r, "orkg_problems") ==
        (if Truthy(Get(raw, "orkg_problems")) then Get(raw, "orkg_problems")
         else if Truthy(Get(raw, "problems")) then Get(raw, "problems")
         else Arr([])) &&
      Get(r, "metadata") == ProblemMetadata(Get(raw, "metadata")) &&
      (!Truthy(Get(Get(raw, "processing_info"), "status")) ==>
        Get(Get(r, "processing_info"), "status") == Str("completed")) &&
      (!Truthy(Get(Get(raw, "processing_info"), "progress")) ==>
        Get(Get(r, "processing_info"), "progress") == N(100))
  {
  }

  /** A missing threshold becomes 0.5 and a missing count 0; given ones are kept. */
  lemma ProblemMetadataDefaults(m: Val)
    ensures var r := ProblemMetadata(m);
      Get(r, "threshold_used") ==
        (if Truthy(Get(m, "threshold_used")) then Get(m, "threshold_used") else Num(0.5)) &&
      Get(r, "total_valid") ==
        (if Truthy(Get(m, "total_valid")) then Get(m, "total_valid") else N(0))
  {
  }

  // ---------------------------------------------------------------------
  // Transitions

  /** The navigation record a finished transition leaves behind (it lacks the
      `isNavigating`, `direction` and `targetStep` keys). */
  const FINISHED_TRANSITION: Val := Obj(["isTransitioning", "fromStep", "toStep", "startTime", "progress", "remainingTime", "shouldBlock"],
                                        map["isTransitioning" := Bool(false),
                                            "fromStep" := Null,
                                            "toStep" := Null,
                                            "startTime" := Null,
                                            "progress" := N(0),
                                            "remainingTime" := N(0),
                                            "shouldBlock" := Bool(false)])

  function OnStartTransition(s: State, p: Val, now: int): State {
    s.(navigation := Obj(["isTransitioning", "fromStep", "toStep", "startTime", "progress", "remainingTime", "shouldBlock"],
                         map["isTransitioning" := Bool(true),
                             "fromStep" := Get(p, "fromStep"),
                             "toStep" := Get(p, "toStep"),
                             "startTime" := N(now),
                             "progress" := N(0),
                             "remainingTime" := Get(p, "delay"),
                             "shouldBlock" := Bool(true)]))
  }

  /** `steps.find(s => s.id === fromStep)?.transitionDelay || 0`. */
  function TotalDelay(from: Val): (r: nat)
    ensures FindStep(from).None? ==> r == 0
    ensures FindStep(from).Some? ==> r == FindStep(from).value.transitionDelay
  {
    match FindStep(from)
    case None => 0
    case Some(step) => step.transitionDelay
  }

  function Min(a: real, b: real): real { if a <= b then a else b }
  function Max(a: real, b: real): real { if a >= b then a else b }

  /** `Math.max(0, totalDelay - elapsed)`. */
  function Remaining(totalDelay: real, elapsed: real): (r: real)
    ensures r >= 0.0
    ensures r == 0.0 <==> elapsed >= totalDelay
  {
    Max(0.0, totalDelay - elapsed)
  }

  /** One `UPDATE_TRANSITION` tick. The elapsed time is `now - startTime`; a
      `startTime` that is not a number makes every quantity NaN, which is
      modelled as `null`, and the transition never completes. With a zero
      delay the progress is a division by zero: `null` again, unless the
      transition completes. */
  function OnUpdateTransition(s: State, now: int): (r: State)
    ensures r == s.(currentStepId := r.currentStepId, completedSteps := r.completedSteps, navigation := r.navigation)
    ensures r.currentStepId == s.currentStepId || r.currentStepId == Get(s.navigation, "toStep")
    ensures r.completedSteps == s.completedSteps ||
            r.completedSteps == With(s.completedSteps, ToKey(Get(s.navigation, "fromStep")), Bool(true))
  {
    var nav := s.navigation;
    var from := Get(nav, "fromStep");
    var total := TotalDelay(from) as real;
    match ToNumber(Get(nav, "startTime"))
    case None =>
      s.(navigation := With(With(nav, "progress", Null), "remainingTime", Null))
    case Some(start) =>
      var elapsed := now as real - start;
      var remaining := Remaining(total, elapsed);
      if remaining <= 0.0 then
        s.(currentStepId := Get(nav, "toStep"),
           completedSteps := With(s.completedSteps, ToKey(from), Bool(true)),
           navigation := FINISHED_TRANSITION)
      else
        var progress := if total == 0.0 then Null else Num(Min(100.0, elapsed / total * 100.0));
        s.(navigation := With(With(nav, "progress", progress), "remainingTime", Num(remaining)))
  }

  // ---------------------------------------------------------------------
  // Step selection and navigation

  function OnSetCurrentStep(s: State, p: Val): State {
    if Truthy(Get(s.navigation, "isTransitioning")) then s
    else s.(currentStepId := p, progress := Num(StepIndex(p) as real / |STEPS| as real * 100.0))
  }

  function OnStartNavigation(s: State, p: Val): State {
    s.(navigation := Obj(["isNavigating", "direction", "targetStep", "progress"],
                         map["isNavigating" := Bool(true),
                             "direction" := Get(p, "direction"),
                             "targetStep" := Get(p, "targetStep"),
                             "progress" := N(0)]))
  }

  // ---------------------------------------------------------------------
  // Analysis data

  function OnSetResearchFieldsStatus(s: State, p: Val, iso: string): State {
    var rf := s.researchFields;
    var given := Get(p, "processing_info");
    var info := if Truthy(given) then given else Obj(["step", "status", "progress", "message", "timestamp"],
                                                     map["step" := Or(Get(p, "step"), Str("identification")),
                                                         "status" := p,
                                                         "progress" := Or(Get(p, "progress"), N(100)),
                                                         "message" := Or(Get(p, "message"), Str("")),
                                                         "timestamp" := Or(Get(p, "timestamp"), Str(iso))]);
    s.(researchFields := With(With(rf, "status", Or(Get(p, "status"), p)),
                              "processing_info", Spread(Get(rf, "processing_info"), info)))
  }

  function OnSetResearchProblems(s: State, p: Val, iso: string): State {
    var rp := s.researchProblems;
    s.(researchProblems := With(Spread(rp, TransformResearchProblems(p, iso)),
                                "selectedProblem", Get(rp, "selectedProblem")))
  }

  function OnUpdateLlmProblem(s: State, p: Val): State {
    s.(researchProblems := With(With(s.researchProblems, "llm_problem", p),
         "selectedProblem", Obj(["title", "description", "isLLMGenerated", "confidence"],
                                map["title" := Get(p, "title"),
                                    "description" := Get(p, "description"),
                                    "isLLMGenerated" := Bool(true),
                                    "confidence" := Get(p, "confidence")])),
       completedSteps := With(s.completedSteps, "researchProblems", Bool(true)))
  }

  function OnSetTemplateStatus(s: State, p: Val): State {
    var t := s.templates;
    var info := Spread(Get(t, "processing_info"), Obj(["step", "status", "progress", "message", "timestamp"],
                                                      map["step" := Get(p, "step"),
                                                          "status" := Get(p, "status"),
                                                          "progress" := Get(p, "progress"),
                                                          "message" := Get(p, "message"),
                                                          "timestamp" := Get(p, "timestamp")]));
    s.(templates := With(With(t, "status", Get(p, "status")), "processing_info", info))
  }

  const CLEARED_FIELDS: Val := Obj(["fields", "selectedField", "status"],
                                   map["fields" := Arr([]),
                                       "selectedField" := Null,
                                       "status" := Str("idle")])
  const CLEARED_PROBLEMS: Val := Obj(["problems", "selectedProblem"],
                                     map["problems" := Arr([]),
                                         "selectedProblem" := Null])
  const CLEARED_METADATA_TEXT: Val := Obj(["title", "authors", "abstract", "doi", "publicationDate"],
                                          map["title" := Str(""),
                                              "authors" := Arr([]),
                                              "abstract" := Str(""),
                                              "doi" := Str(""),
                                              "publicationDate" := Str("")])

  /** `CLEAR_DATA_FROM_STEP`: the two-tier reset after a backward jump. */
  function OnClearDataFromStep(s: State, p: Val): (r: State)
    ensures r == s.(metadata := r.metadata, researchFields := r.researchFields, researchProblems := r.researchProblems)
    // a step index that is not a number compares false both times: nothing is cleared
    ensures ToNumber(Get(p, "stepIndex")).None? ==> r == s
    ensures ToNumber(Get(p, "stepIndex")).Some? ==>
      var index := ToNumber(Get(p, "stepIndex")).value;
      (index <= 1.0 ==> r.researchFields == CLEARED_FIELDS && r.researchProblems == CLEARED_PROBLEMS) &&
      (index > 0.0 ==> r.metadata == s.metadata) &&
      (index > 1.0 ==> r == s)
  {
    var index := ToNumber(Get(p, "stepIndex"));
    if index.Some? && index.value <= 0.0 then
      s.(metadata := Spread(s.metadata, CLEARED_METADATA_TEXT),
         researchFields := CLEARED_FIELDS,
         researchProblems := CLEARED_PROBLEMS)
    else if index.Some? && index.value <= 1.0 then
      s.(researchFields := CLEARED_FIELDS, researchProblems := CLEARED_PROBLEMS)
    else s
  }

  function OnTrackEvaluationData(s: State, p: Val, iso: string): State {
    var step := ToKey(Get(p, "step"));
    s.(evaluationData := With(s.evaluationData, step,
         Spread(Obj(["timestamp"], map["timestamp" := Str(iso)]), Get(p, "data"))))
  }

  function OnUpdateEvaluationData(s: State, p: Val, iso: string): State {
    var step := ToKey(Get(p, "step"));
    var ed := s.evaluationData;
    var flags := With(Get(ed, "completedSteps"), step, Bool(true));
    s.(evaluationData := With(With(With(ed, step, Get(p, "data")), "completedSteps", flags),
                              "timestamp", Str(iso)))
  }

  /** `analysisReducer`. Each part of the state is owned by a few action types:
      the ensures clauses say which actions can change which part. */
  function Reduce(s: State, a: Action, now: int, iso: string): (r: State)
    ensures a.Other? ==> r == s
    ensures r.analysisMode != s.analysisMode ==> a.SetAnalysisMode?
    ensures r.error != s.error ==> a.SetError?
    ensures r.loading != s.loading ==> a.SetLoading?
    ensures r.paperContent != s.paperContent ==> a.UpdatePaperContent?
    ensures r.progress != s.progress ==> a.SetCurrentStep?
    ensures r.currentStepId != s.currentStepId ==> a.SetCurrentStep? || a.UpdateTransition?
    ensures r.metadata != s.metadata ==> a.SetMetadata? || a.SetMetadataStatus? || a.ClearDataFromStep?
    ensures r.templates != s.templates ==>
      a.SetTemplates? || a.UpdateLlmTemplate? || a.SetSelectedTemplate? || a.SetTemplateStatus?
    ensures r.evaluationData != s.evaluationData ==> a.TrackEvaluationData? || a.UpdateEvaluationData?
  {
    match a
    case StartTransition(p) => OnStartTransition(s, p, now)
    case UpdateTransition => OnUpdateTransition(s, now)
    case EndTransition => s.(navigation := INITIAL_NAVIGATION)
    case BlockNavigation => s.(navigation := With(s.navigation, "isNavigating", Bool(false)))
    case SetAnalysisMode(p) => s.(analysisMode := p)
    case SetCurrentStep(p) => OnSetCurrentStep(s, p)
    case ResetStep(p) => s.(completedSteps := With(s.completedSteps, ToKey(p), Bool(false)))
    case StartNavigation(p) => OnStartNavigation(s, p)
    case UpdateNavigationProgress(p) => s.(navigation := With(s.navigation, "progress", p))
    case EndNavigation => s.(navigation := INITIAL_NAVIGATION)
    case SetError(p) => s.(error := p)
    case SetLoading(p) => s.(loading := p)
    case SetMetadata(p) =>
      s.(metadata := With(Spread(s.metadata, p), "status", Str("success")))
    case SetMetadataStatus(p) => s.(metadata := With(s.metadata, "status", p))
    case CompleteStep(p) => s.(completedSteps := With(s.completedSteps, ToKey(p), Bool(true)))
    case SetResearchFields(p) =>
      s.(researchFields := With(With(s.researchFields, "fields", p), "status", Str("success")))
    case SelectResearchField(p) => s.(researchFields := With(s.researchFields, "selectedField", p))
    case SetResearchFieldsStatus(p) => OnSetResearchFieldsStatus(s, p, iso)
    case SelectResearchProblem(p) => s.(researchProblems := With(s.researchProblems, "selectedProblem", p))
    case SetResearchProblems(p) => OnSetResearchProblems(s, p, iso)
    case SetResearchProblemsStatus(p) =>
      s.(researchProblems := With(s.researchProblems, "processing_info",
           With(Get(s.researchProblems, "processing_info"), "status", p)),
         completedSteps := With(s.completedSteps, "researchProblems", Bool(true)))
    case ResetResearchProblems => s.(researchProblems := INITIAL_RESEARCH_PROBLEMS)
    case SelectLlmProblem(p) =>
      s.(researchProblems := With(s.researchProblems, "selectedProblem", Obj(["title", "description", "isLLMGenerated"],
                                                                             map["title" := Get(p, "title"),
                                                                                 "description" := Get(p, "description"),
                                                                                 "isLLMGenerated" := Bool(true)])))
    case UpdateLlmProblem(p) => OnUpdateLlmProblem(s, p)
    case SetOriginalLlmProblem(p) => s.(researchProblems := With(s.researchProblems, "original_llm_problem", p))
    case SetTemplates(p) =>
      s.(templates := With(With(s.templates, "available", p), "status", Str("success")))
    case UpdateLlmTemplate(p) => s.(templates := With(s.templates, "llm_template", p))
    case SetSelectedTemplate(p) =>
      s.(templates := With(With(s.templates, "selectedTemplate", p), "status", Str("success")),
         completedSteps := With(s.completedSteps, "templates", Bool(true)))
    case SetTemplateStatus(p) => OnSetTemplateStatus(s, p)
    case TrackEvaluationData(p) => OnTrackEvaluationData(s, p, iso)
    case ClearDataFromStep(p) => OnClearDataFromStep(s, p)
    case InitializeResearchFields =>
      s.(researchFields := With(With(s.researchFields, "fields", Arr([])), "status", Str("idle")))
    case UpdateEvaluationData(p) => OnUpdateEvaluationData(s, p, iso)
    case UpdatePaperContent(p) => s.(paperContent := p)
    case Other(_, _) => s
  }

  /** An action type the reducer does not handle leaves the state as it was. */
  lemma ReduceUnknown(s: State, kind: string, p: Val, now: int, iso: string)
    ensures Reduce(s, Other(kind, p), now, iso) == s
  {
  }

  /** Dispatching a sequence of actions, all at the same instant. */
  function Run(s: State, actions: seq<Action>, now: int, iso: string): State
    decreases |actions|
  {
    if actions == [] then s else Run(Reduce(s, actions[0], now, iso), actions[1..], now, iso)
  }

  lemma {:induction false} RunAppend(s: State, xs: seq<Action>, ys: seq<Action>, now: int, iso: string)
    ensures Run(s, xs + ys, now, iso) == Run(Run(s, xs, now, iso), ys, now, iso)
    decreases |xs|
  {
    if xs == [] {
      assert xs + ys == ys;
    } else {
      assert (xs + ys)[1..] == xs[1..] + ys;
      RunAppend(Reduce(s, xs[0], now, iso), xs[1..], ys, now, iso);
    }
  }

  lemma RunTwo(s: State, a: Action, b: Action, now: int, iso: string)
    ensures Run(s, [a, b], now, iso) == Reduce(Reduce(s, a, now, iso), b, now, iso)
  {
    var s1 := Reduce(s, a, now, iso);
    assert [a, b][1..] == [b];
    assert Run(s, [a, b], now, iso) == Run(s1, [b], now, iso);
    assert Run(s1, [b], now, iso) == Run(Reduce(s1, b, now, iso), [], now, iso);
  }

  lemma RunThree(s: State, a: Action, b: Action, c: Action, now: int, iso: string)
    ensures Run(s, [a, b, c], now, iso) == Reduce(Reduce(Reduce(s, a, now, iso), b, now, iso), c, now, iso)
  {
    assert [a, b, c][1..] == [b, c];
    RunTwo(Reduce(s, a, now, iso), b, c, now, iso);
  }

  lemma RunStep(s: State, actions: seq<Action>, now: int, iso: string)
    requires actions != []
    ensures Run(s, actions, now, iso) == Run(Reduce(s, actions[0], now, iso), actions[1..], now, iso)
  {
  }

  // ---------------------------------------------------------------------
  // Hooks

  // Reducer cases that delegate to a case function.

  lemma DispatchStartTransition(s: State, a: Action, now: int, iso: string)
    requires a.StartTransition?
    ensures Reduce(s, a, now, iso) == OnStartTransition(s, a.payload, now)
  {
  }

  lemma DispatchUpdateTransition(s: State, a: Action, now: int, iso: string)
    requires a.UpdateTransition?
    ensures Reduce(s, a, now, iso) == OnUpdateTransition(s, now)
  {
  }

  lemma DispatchStartNavigation(s: State, a: Action, now: int, iso: string)
    requires a.StartNavigation?
    ensures Reduce(s, a, now, iso) == OnStartNavigation(s, a.payload)
  {
  }

  lemma DispatchSetCurrentStep(s: State, a: Action, now: int, iso: string)
    requires a.SetCurrentStep?
    ensures Reduce(s, a, now, iso) == OnSetCurrentStep(s, a.payload)
  {
  }

  lemma DispatchUpdateEvaluationData(s: State, a: Action, now: int, iso: string)
    requires a.UpdateEvaluationData?
    ensures Reduce(s, a, now, iso) == OnUpdateEvaluationData(s, a.payload, iso)
  {
  }

  lemma DispatchUpdateLlmProblem(s: State, a: Action, now: int, iso: string)
    requires a.UpdateLlmProblem?
    ensures Reduce(s, a, now, iso) == OnUpdateLlmProblem(s, a.payload)
  {
  }

  lemma DispatchSetError(s: State, a: Action, now: int, iso: string)
    requires a.SetError?
    ensures Reduce(s, a, now, iso) == s.(error := a.payload)
  {
  }

  lemma DispatchSetMetadataStatus(s: State, a: Action, now: int, iso: string)
    requires a.SetMetadataStatus?
    ensures Reduce(s, a, now, iso) == s.(metadata := With(s.metadata, "status", a.payload))
  {
  }

  lemma DispatchSetMetadata(s: State, a: Action, now: int, iso: string)
    requires a.SetMetadata?
    ensures Reduce(s, a, now, iso) == s.(metadata := With(Spread(s.metadata, a.payload), "status", Str("success")))
  {
  }

  lemma DispatchSetResearchProblemsStatus(s: State, a: Action, now: int, iso: string)
    requires a.SetResearchProblemsStatus?
    ensures Reduce(s, a, now, iso) ==
      s.(researchProblems := With(s.researchProblems, "processing_info",
                                  With(Get(s.researchProblems, "processing_info"), "status", a.payload)),
         completedSteps := With(s.completedSteps, "researchProblems", Bool(true)))
  {
  }

  lemma DispatchCompleteStep(s: State, a: Action, now: int, iso: string)
    requires a.CompleteStep?
    ensures Reduce(s, a, now, iso) == s.(completedSteps := With(s.completedSteps, ToKey(a.payload), Bool(true)))
  {
  }

  lemma DispatchClearDataFromStep(s: State, a: Action, now: int, iso: string)
    requires a.ClearDataFromStep?
    ensures Reduce(s, a, now, iso) == OnClearDataFromStep(s, a.payload)
  {
  }

  /** `useStepNavigation().canNavigateNext()`, as a truth value. */
  predicate CanNavigateNext(s: State) {
    match FindStep(s.currentStepId)
    case None => false
    case Some(step) =>
      !Truthy(s.loading) &&
      if step.id == "metadata" then Get(s.metadata, "status") == Str("success")
      else if step.id == "researchFields" then Truthy(Get(s.researchFields, "selectedField"))
      else if step.id == "researchProblems" then
        Get(Get(s.researchProblems, "processing_info"), "status") == Str("completed")
      else if step.id == "template" then
        Truthy(Get(s.templates, "llm_template")) ||
        (Truthy(Get(Get(s.templates, "available"), "templates")) &&
         KeyCount(Get(Get(s.templates, "available"), "templates")) > 0)
      else Truthy(Get(s.completedSteps, step.id))
  }

  /** Nothing moves the wizard forward while it is loading or when the current
      step id is not one of the six steps. */
  lemma CannotNavigateNextWhileLoading(s: State)
    requires Truthy(s.loading) || FindStep(s.currentStepId).None?
    ensures !CanNavigateNext(s)
  {
  }

  /** On the metadata step the wizard may go on once the metadata has loaded:
      exactly when its status is `success` and nothing is loading. */
  lemma CanNavigateNextFromMetadata(s: State)
    requires s.currentStepId == Str("metadata")
    ensures CanNavigateNext(s) <==> Get(s.metadata, "status") == Str("success") && !Truthy(s.loading)
  {
    FindStepAt(0);
  }

  /** `SET_METADATA` marks the metadata as loaded, so on the metadata step it
      unlocks the way forward unless something is loading. */
  lemma MetadataUnlocksNext(s: State, p: Val, now: int, iso: string)
    requires s.currentStepId == Str("metadata") && !Truthy(s.loading)
    ensures CanNavigateNext(Reduce(s, SetMetadata(p), now, iso))
  {
    DispatchSetMetadata(s, SetMetadata(p), now, iso);
    CanNavigateNextFromMetadata(Reduce(s, SetMetadata(p), now, iso));
  }

  /** On the field step a selected (truthy) field is what the way forward
      waits for; selecting one unlocks it unless something is loading. */
  lemma SelectingFieldUnlocksNext(s: State, field: Val, now: int, iso: string)
    requires s.currentStepId == Str("researchFields")
    ensures CanNavigateNext(s) <==> Truthy(Get(s.researchFields, "selectedField")) && !Truthy(s.loading)
    ensures Truthy(field) && !Truthy(s.loading) ==>
      CanNavigateNext(Reduce(s, SelectResearchField(field), now, iso))
  {
    FindStepAt(1);
    var r := Reduce(s, SelectResearchField(field), now, iso);
    assert r == s.(researchFields := With(s.researchFields, "selectedField", field));
  }

  /** On the problem step the way forward waits for the `completed`
      processing status, which the status action sets. */
  lemma CompletedProblemsUnlockNext(s: State, now: int, iso: string)
    requires s.currentStepId == Str("researchProblems")
    ensures CanNavigateNext(s) <==>
      Get(Get(s.researchProblems, "processing_info"), "status") == Str("completed") && !Truthy(s.loading)
    ensures !Truthy(s.loading) ==>
      CanNavigateNext(Reduce(s, SetResearchProblemsStatus(Str("completed")), now, iso))
  {
    FindStepAt(2);
    DispatchSetResearchProblemsStatus(s, SetResearchProblemsStatus(Str("completed")), now, iso);
  }

  /** On the template step either an LLM template or a non-empty set of
      available templates lets the wizard go on. */
  lemma TemplateUnlocksNext(s: State, template: Val, now: int, iso: string)
    requires s.currentStepId == Str("template")
    ensures CanNavigateNext(s) <==>
      (Truthy(Get(s.templates, "llm_template")) ||
       (Truthy(Get(Get(s.templates, "available"), "templates")) &&
        KeyCount(Get(Get(s.templates, "available"), "templates")) > 0)) && !Truthy(s.loading)
    ensures Truthy(template) && !Truthy(s.loading) ==>
      CanNavigateNext(Reduce(s, UpdateLlmTemplate(template), now, iso))
  {
    FindStepAt(3);
    var r := Reduce(s, UpdateLlmTemplate(template), now, iso);
    assert r == s.(templates := With(s.templates, "llm_template", template));
  }

  /** On the content step and the closing step the way forward waits for the
      step's own flag in `completedSteps`, which `COMPLETE_STEP` sets. */
  lemma CompletedStepUnlocksNext(s: State, j: int, now: int, iso: string)
    requires j == 4 || j == 5
    requires s.currentStepId == Str(STEPS[j].id)
    ensures CanNavigateNext(s) <==> Truthy(Get(s.completedSteps, STEPS[j].id)) && !Truthy(s.loading)
    ensures !Truthy(s.loading) ==>
      CanNavigateNext(Reduce(s, CompleteStep(Str(STEPS[j].id)), now, iso))
  {
    FindStepAt(j);
    var r := Reduce(s, CompleteStep(Str(STEPS[j].id)), now, iso);
    DispatchCompleteStep(s, CompleteStep(Str(STEPS[j].id)), now, iso);
    assert ToKey(Str(STEPS[j].id)) == STEPS[j].id;
  }

  /** `useStepNavigation().navigate(direction)`: the actions it dispatches.
      Without a current step the source reads a property of `undefined` and throws. */
  function Navigate(s: State, direction: Val): (r: Result<seq<Action>>)
    ensures FindStep(s.currentStepId).None? <==> r.Failure?
    ensures r.Success? ==>
      var step := FindStep(s.currentStepId).value;
      var target := if direction == Str("next") then step.nextStep else step.prevStep;
      var completes := direction == Str("next") && step.id == "researchFields";
      (target.None? <==> r.value == []) &&
      (target.Some? ==>
        |r.value| == (if completes then 3 else 2) &&
        (completes ==> r.value[0] == CompleteStep(Str("researchFields"))) &&
        r.value[|r.value| - 2].StartNavigation? &&
        KeysOf(r.value[|r.value| - 2].payload) == ["direction", "targetStep"] &&
        Get(r.value[|r.value| - 2].payload, "direction") == direction &&
        Get(r.value[|r.value| - 2].payload, "targetStep") == Str(target.value) &&
        r.value[|r.value| - 1] == SetCurrentStep(Str(target.value)))
  {
    match FindStep(s.currentStepId)
    case None => Failure("Cannot read properties of undefined")
    case Some(step) =>
      var target := if direction == Str("next") then step.nextStep else step.prevStep;
      if target.None? then Success([])
      else
        var first := if direction == Str("next") && step.id == "researchFields"
          then [CompleteStep(Str("researchFields"))] else [];
        Success(first + [
          StartNavigation(Obj(["direction", "targetStep"],
                              map["direction" := direction,
                                  "targetStep" := Str(target.value)])),
          SetCurrentStep(Str(target.value))])
  }

  /** Navigating moves to the neighbouring step whenever there is one, even
      during a timed transition: `START_NAVIGATION` replaces the navigation
      record, which drops its `isTransitioning` flag before `SET_CURRENT_STEP`
      is reduced. On the first and last step the other direction dispatches nothing. */
  lemma NavigateMoves(s: State, direction: Val, now: int, iso: string)
    requires FindStep(s.currentStepId).Some?
    ensures var step := FindStep(s.currentStepId).value;
      var target := if direction == Str("next") then step.nextStep else step.prevStep;
      Navigate(s, direction).Success? &&
      (target.None? ==> Navigate(s, direction).value == []) &&
      (target.Some? ==> Run(s, Navigate(s, direction).value, now, iso).currentStepId == Str(target.value))
  {
    var step := FindStep(s.currentStepId).value;
    var target := if direction == Str("next") then step.nextStep else step.prevStep;
    if target.Some? {
      var acts := Navigate(s, direction).value;
      var first := if direction == Str("next") && step.id == "researchFields"
        then [CompleteStep(Str("researchFields"))] else [];
      var nav := StartNavigation(Obj(["direction", "targetStep"],
                                     map["direction" := direction,
                                         "targetStep" := Str(target.value)]));
      var moveTo := SetCurrentStep(Str(target.value));
      assert acts == first + [nav, moveTo];
      RunAppend(s, first, [nav, moveTo], now, iso);
      NavigateThenMove(Run(s, first, now, iso), nav.payload, target.value, now, iso);
    }
  }

  /** Going forward moves one step along the wizard; going back moves one
      step back, except from the closing step, whose way back skips the
      content step and returns to the template step. */
  lemma NavigateNeighbours(j: int)
    requires 0 <= j < |STEPS|
    ensures j + 1 < |STEPS| ==> STEPS[j].nextStep == Some(STEPS[j + 1].id)
    ensures j + 1 == |STEPS| ==> STEPS[j].nextStep.None?
    ensures 0 < j < |STEPS| - 1 ==> STEPS[j].prevStep == Some(STEPS[j - 1].id)
    ensures j == 0 ==> STEPS[j].prevStep.None?
    ensures j == |STEPS| - 1 ==> STEPS[j].prevStep == Some("template")
  {
  }

  /** `START_NAVIGATION` followed by `SET_CURRENT_STEP` always lands on the target. */
  lemma NavigateThenMove(s: State, p: Val, target: string, now: int, iso: string)
    ensures Run(s, [StartNavigation(p), SetCurrentStep(Str(target))], now, iso).currentStepId == Str(target)
  {
    var acts := [StartNavigation(p), SetCurrentStep(Str(target))];
    var s2 := Reduce(s, acts[0], now, iso);
    DispatchStartNavigation(s, acts[0], now, iso);
    StartNavigationClearsTransition(s, p);
    var s3 := Reduce(s2, acts[1], now, iso);
    DispatchSetCurrentStep(s2, acts[1], now, iso);
    assert s3.currentStepId == Str(target);
    assert acts[1..][1..] == [];
    assert Run(s, acts, now, iso) == Run(s2, acts[1..], now, iso) == Run(s3, [], now, iso);
  }

  /** The navigation record `START_NAVIGATION` writes has no `isTransitioning` key. */
  lemma StartNavigationClearsTransition(s: State, p: Val)
    ensures Get(OnStartNavigation(s, p).navigation, "isTransitioning") == Undef
  {
  }

  /** `useTrackEvaluation()`: the action it dispatches, if any. */
  function TrackEvaluation(step: string, data: Val): (r: Option<Action>)
    ensures r.Some? <==> step in REQUIRED_STEPS && Truthy(data)
  {
    if step !in REQUIRED_STEPS || !Truthy(data) then None
    else Some(UpdateEvaluationData(EvaluationEntry(step, data)))
  }

  /** The `{ step, data }` payload of `UPDATE_EVALUATION_DATA`. */
  function EvaluationEntry(step: string, data: Val): Val {
    Obj(["step", "data"], map["step" := Str(step), "data" := data])
  }

  /** Tracking a required step stores its data, marks it in `completedSteps`
      and keeps every other step's mark. */
  lemma TrackEvaluationMarks(s: State, step: string, data: Val, now: int, iso: string)
    requires step in REQUIRED_STEPS && Truthy(data)
    ensures var r := Reduce(s, TrackEvaluation(step, data).value, now, iso);
      var flags := Get(r.evaluationData, "completedSteps");
      Get(r.evaluationData, step) == data &&
      Get(flags, step) == Bool(true) &&
      (forall k :: k != step ==> Get(flags, k) == Get(Get(s.evaluationData, "completedSteps"), k))
  {
    var p := EvaluationEntry(step, data);
    DispatchUpdateEvaluationData(s, TrackEvaluation(step, data).value, now, iso);
    UpdateEvaluationDataMarks(s, p, iso);
  }

  lemma UpdateEvaluationDataMarks(s: State, p: Val, iso: string)
    requires ToKey(Get(p, "step")) in REQUIRED_STEPS
    ensures var step := ToKey(Get(p, "step"));
      var r := OnUpdateEvaluationData(s, p, iso);
      var flags := Get(r.evaluationData, "completedSteps");
      Get(r.evaluationData, step) == Get(p, "data") &&
      Get(flags, step) == Bool(true) &&
      (forall k :: k != step ==> Get(flags, k) == Get(Get(s.evaluationData, "completedSteps"), k))
  {
  }

  /** Tracking a step never clears another step's mark. */
  lemma TrackEvaluationKeepsComplete(s: State, step: string, data: Val, now: int, iso: string)
    requires IsEvaluationComplete(s.evaluationData)
    requires TrackEvaluation(step, data).Some?
    ensures IsEvaluationComplete(Reduce(s, TrackEvaluation(step, data).value, now, iso).evaluationData)
  {
    var r := Reduce(s, TrackEvaluation(step, data).value, now, iso);
    forall i | 0 <= i < |REQUIRED_STEPS|
      ensures Truthy(Get(Get(r.evaluationData, "completedSteps"), REQUIRED_STEPS[i]))
    {
      TrackEvaluationMarks(s, step, data, now, iso);
    }
  }

  /** The completion flags of the evaluation record. */
  function Marks(s: State): Val {
    Get(s.evaluationData, "completedSteps")
  }

  /** Dispatching `a` from any state marks `step` and keeps every mark
      already set. */
  ghost predicate KeepsMarks(a: Action, step: string, now: int, iso: string) {
    forall st: State ::
      var r := Reduce(st, a, now, iso);
      Truthy(Get(Marks(r), step)) &&
      (forall k :: Truthy(Get(Marks(st), k)) ==> Truthy(Get(Marks(r), k)))
  }

  lemma TrackKeepsMarks(step: string, data: Val, now: int, iso: string)
    requires step in REQUIRED_STEPS && Truthy(data)
    ensures KeepsMarks(TrackEvaluation(step, data).value, step, now, iso)
  {
    forall st: State {
      TrackEvaluationMarks(st, step, data, now, iso);
    }
  }

  /** After a run of actions that each keep the marks and mark one step,
      every one of those steps is marked and the earlier marks remain. */
  lemma {:induction false} MarksAlong(s: State, acts: seq<Action>, steps: seq<string>, now: int, iso: string)
    requires |acts| == |steps|
    requires forall i :: 0 <= i < |acts| ==> KeepsMarks(acts[i], steps[i], now, iso)
    ensures var r := Run(s, acts, now, iso);
      (forall k :: k in steps ==> Truthy(Get(Marks(r), k))) &&
      (forall k :: Truthy(Get(Marks(s), k)) ==> Truthy(Get(Marks(r), k)))
    decreases |acts|
  {
    if acts != [] {
      var s1 := Reduce(s, acts[0], now, iso);
      assert KeepsMarks(acts[0], steps[0], now, iso);
      RunStep(s, acts, now, iso);
      MarksAlong(s1, acts[1..], steps[1..], now, iso);
      forall k | k in steps ensures Truthy(Get(Marks(Run(s, acts, now, iso)), k)) {
        if k != steps[0] {
          assert k in steps[1..];
        }
      }
    }
  }

  /** The five tracking calls of the wizard, one per required step. */
  function TrackAll(data: seq<Val>): seq<Action>
    requires |data| == |REQUIRED_STEPS| && forall i :: 0 <= i < |data| ==> Truthy(data[i])
  {
    seq(|data|, i requires 0 <= i < |data| => TrackEvaluation(REQUIRED_STEPS[i], data[i]).value)
  }

  /** Once each required step has been tracked with data, from any state, the
      evaluation is complete. */
  lemma TrackingAllCompletes(s: State, data: seq<Val>, now: int, iso: string)
    requires |data| == |REQUIRED_STEPS| && forall i :: 0 <= i < |data| ==> Truthy(data[i])
    ensures IsEvaluationComplete(Run(s, TrackAll(data), now, iso).evaluationData)
  {
    var acts := TrackAll(data);
    forall i | 0 <= i < |acts| ensures KeepsMarks(acts[i], REQUIRED_STEPS[i], now, iso) {
      TrackKeepsMarks(REQUIRED_STEPS[i], data[i], now, iso);
    }
    MarksAlong(s, acts, REQUIRED_STEPS, now, iso);
  }

  // ---------------------------------------------------------------------
  // Properties of single reductions

  /** `SET_CURRENT_STEP` is ignored during a transition; otherwise it moves to
      the payload and sets the overall progress to its index over the number of steps. */
  lemma SetCurrentStepRule(s: State, id: Val, now: int, iso: string)
    ensures var r := Reduce(s, SetCurrentStep(id), now, iso);
      (Truthy(Get(s.navigation, "isTransitioning")) ==> r == s) &&
      (!Truthy(Get(s.navigation, "isTransitioning")) ==>
        r == s.(currentStepId := id, progress := Num(StepIndex(id) as real / 6.0 * 100.0)))
  {
  }

  /** Moving to a known step puts the progress in [0, 100). */
  lemma SetCurrentStepProgress(s: State, j: int, now: int, iso: string)
    requires 0 <= j < |STEPS| && !Truthy(Get(s.navigation, "isTransitioning"))
    ensures var r := Reduce(s, SetCurrentStep(Str(STEPS[j].id)), now, iso);
      r.progress.Num? && 0.0 <= r.progress.n < 100.0
  {
    FindStepAt(j);
  }

  /** The elapsed time of a transition, when its start time is a number. */
  function Elapsed(s: State, now: int): Option<real> {
    match ToNumber(Get(s.navigation, "startTime"))
    case None => None
    case Some(start) => Some(now as real - start)
  }

  /** A tick at or after the `fromStep`'s delay ends the transition: the wizard
      moves to `toStep`, `fromStep` is marked complete and the navigation record
      is reset to "not transitioning". */
  lemma TransitionCompletes(s: State, now: int, iso: string)
    requires Elapsed(s, now).Some?
    requires Elapsed(s, now).value >= TotalDelay(Get(s.navigation, "fromStep")) as real
    ensures var r := Reduce(s, UpdateTransition, now, iso);
      r.currentStepId == Get(s.navigation, "toStep") &&
      Get(r.completedSteps, ToKey(Get(s.navigation, "fromStep"))) == Bool(true) &&
      Get(r.navigation, "isTransitioning") == Bool(false) &&
      r == s.(currentStepId := r.currentStepId, completedSteps := r.completedSteps, navigation := r.navigation)
  {
  }

  /** A `fromStep` that is not in the step table has no delay, so the first
      tick that is not before the start time completes the transition. */
  lemma TransitionWithoutDelay(s: State, now: int, iso: string)
    requires FindStep(Get(s.navigation, "fromStep")).None?
    requires Elapsed(s, now).Some? && Elapsed(s, now).value >= 0.0
    ensures Reduce(s, UpdateTransition, now, iso).currentStepId == Get(s.navigation, "toStep")
  {
  }

  /** Before the delay has passed the tick only updates the progress, which
      stays within [0, 100] once the clock is past the start, and the remaining
      time, which is positive. */
  lemma TransitionInFlight(s: State, now: int)
    requires Elapsed(s, now).Some?
    requires Elapsed(s, now).value < TotalDelay(Get(s.navigation, "fromStep")) as real
    ensures var r := OnUpdateTransition(s, now);
      var e := Elapsed(s, now).value;
      r == s.(navigation := r.navigation) &&
      Get(r.navigation, "remainingTime") == Num(TotalDelay(Get(s.navigation, "fromStep")) as real - e) &&
      (e >= 0.0 ==> exists p :: Get(r.navigation, "progress") == Num(p) && 0.0 <= p <= 100.0)
  {
    var e := Elapsed(s, now).value;
    var total := TotalDelay(Get(s.navigation, "fromStep")) as real;
    if e >= 0.0 {
      var p := Min(100.0, e / total * 100.0);
      assert 0.0 <= e / total;
      assert Get(OnUpdateTransition(s, now).navigation, "progress") == Num(p);
    }
  }

  /** The remaining time never grows as the clock advances. */
  lemma RemainingTimeNonIncreasing(s: State, now1: int, now2: int)
    requires now1 <= now2
    requires Elapsed(s, now1).Some?
    requires Elapsed(s, now2).value < TotalDelay(Get(s.navigation, "fromStep")) as real
    ensures var r1 := OnUpdateTransition(s, now1);
      var r2 := OnUpdateTransition(s, now2);
      Get(r1.navigation, "remainingTime").Num? && Get(r2.navigation, "remainingTime").Num? &&
      Get(r2.navigation, "remainingTime").n <= Get(r1.navigation, "remainingTime").n
  {
    TransitionInFlight(s, now1);
    TransitionInFlight(s, now2);
  }

  /** While the transition is in flight and the clock is past the start, the
      progress never falls as the clock advances. (The tick that completes the
      transition resets the progress to 0 with the rest of the record.) */
  lemma ProgressNonDecreasing(s: State, now1: int, now2: int)
    requires now1 <= now2
    requires Elapsed(s, now1).Some? && Elapsed(s, now1).value >= 0.0
    requires Elapsed(s, now2).value < TotalDelay(Get(s.navigation, "fromStep")) as real
    ensures var r1 := OnUpdateTransition(s, now1);
      var r2 := OnUpdateTransition(s, now2);
      Get(r1.navigation, "progress").Num? && Get(r2.navigation, "progress").Num? &&
      Get(r1.navigation, "progress").n <= Get(r2.navigation, "progress").n
  {
    var total := TotalDelay(Get(s.navigation, "fromStep")) as real;
    var e1 := Elapsed(s, now1).value;
    var e2 := Elapsed(s, now2).value;
    assert e1 <= e2;
    assert e1 / total <= e2 / total by {
      assert total > 0.0;
      assert e1 / total * total == e1;
      assert e2 / total * total == e2;
    }
    assert Get(OnUpdateTransition(s, now1).navigation, "progress") == Num(Min(100.0, e1 / total * 100.0));
    assert Get(OnUpdateTransition(s, now2).navigation, "progress") == Num(Min(100.0, e2 / total * 100.0));
  }

  /** `COMPLETE_STEP` sets exactly the payload's flag, `RESET_STEP` clears it;
      nothing else changes. */
  lemma CompleteAndResetStep(s: State, id: Val, now: int, iso: string)
    ensures var r := Reduce(s, CompleteStep(id), now, iso);
      r == s.(completedSteps := r.completedSteps) && Get(r.completedSteps, ToKey(id)) == Bool(true) &&
      forall k :: k != ToKey(id) ==> Get(r.completedSteps, k) == Get(s.completedSteps, k)
    ensures var r := Reduce(s, ResetStep(id), now, iso);
      r == s.(completedSteps := r.completedSteps) && Get(r.completedSteps, ToKey(id)) == Bool(false) &&
      forall k :: k != ToKey(id) ==> Get(r.completedSteps, k) == Get(s.completedSteps, k)
  {
  }

  /** `RESET_STEP` clears the payload's flag and keeps every other flag and
      the navigation record. */
  lemma ResetStepFlags(s: State, id: Val, now: int, iso: string)
    ensures var r := Reduce(s, ResetStep(id), now, iso);
      r.navigation == s.navigation && Get(r.completedSteps, ToKey(id)) == Bool(false) &&
      forall k :: k != ToKey(id) ==> Get(r.completedSteps, k) == Get(s.completedSteps, k)
  {
  }

  /** `CLEAR_DATA_FROM_STEP`: index 0 (or less) clears the metadata text fields,
      keeping `url` and `status`, and resets the research fields and problems;
      index 1 resets only fields and problems; a larger index changes nothing.
      Templates and paper content always survive. */
  lemma ClearDataTiers(s: State, index: real, now: int, iso: string)
    ensures var r := Reduce(s, ClearDataFromStep(Obj(["stepIndex"], map["stepIndex" := Num(index)])), now, iso);
      r.templates == s.templates && r.paperContent == s.paperContent &&
      (index <= 0.0 ==>
        r == s.(metadata := r.metadata, researchFields := CLEARED_FIELDS, researchProblems := CLEARED_PROBLEMS) &&
        Get(r.metadata, "url") == Get(s.metadata, "url") &&
        Get(r.metadata, "status") == Get(s.metadata, "status") &&
        Get(r.metadata, "title") == Str("") && Get(r.metadata, "abstract") == Str("") &&
        Get(r.metadata, "doi") == Str("") && Get(r.metadata, "publicationDate") == Str("") &&
        Get(r.metadata, "authors") == Arr([])) &&
      (0.0 < index <= 1.0 ==> r == s.(researchFields := CLEARED_FIELDS, researchProblems := CLEARED_PROBLEMS)) &&
      (index > 1.0 ==> r == s)
  {
    var p := Obj(["stepIndex"], map["stepIndex" := Num(index)]);
    assert ToNumber(Get(p, "stepIndex")) == Some(index);
    DispatchClearDataFromStep(s, ClearDataFromStep(p), now, iso);
    ClearedMetadataKeeps(s.metadata);
    ClearedMetadataBlanks(s.metadata);
  }

  /** The metadata record after the first-tier reset keeps its link and status... */
  lemma ClearedMetadataKeeps(m: Val)
    ensures var r := Spread(m, CLEARED_METADATA_TEXT);
      Get(r, "url") == Get(m, "url") && Get(r, "status") == Get(m, "status")
  {
  }

  /** ... and blanks its descriptive text. */
  lemma ClearedMetadataBlanks(m: Val)
    ensures var r := Spread(m, CLEARED_METADATA_TEXT);
      Get(r, "title") == Str("") && Get(r, "abstract") == Str("") &&
      Get(r, "doi") == Str("") && Get(r, "publicationDate") == Str("") &&
      Get(r, "authors") == Arr([])
  {
  }

  /** `SET_RESEARCH_PROBLEMS` keeps the selected problem, stores the problem
      list the transform picks and leaves the keys the transform does not
      produce as they were. */
  lemma SetResearchProblemsKeepsSelection(s: State, raw: Val, iso: string)
    ensures var rp := OnSetResearchProblems(s, raw, iso).researchProblems;
      Get(rp, "selectedProblem") == Get(s.researchProblems, "selectedProblem") &&
      Get(rp, "orkg_problems") == Get(TransformResearchProblems(raw, iso), "orkg_problems") &&
      Get(rp, "original_llm_problem") == Get(s.researchProblems, "original_llm_problem")
  {
    TransformResearchProblemsKeys(raw, iso);
  }

  lemma TransformResearchProblemsKeys(raw: Val, iso: string)
    ensures var t := TransformResearchProblems(raw, iso);
      Has(t, "orkg_problems") && !Has(t, "original_llm_problem") && !Has(t, "selectedProblem")
  {
  }

  /** `UPDATE_LLM_PROBLEM` always takes its first case: it stores the problem,
      selects it as an LLM-generated problem and marks the step complete. */
  lemma UpdateLlmProblemRule(s: State, p: Val, now: int, iso: string)
    ensures var r := Reduce(s, UpdateLlmProblem(p), now, iso);
      var sel := Get(r.researchProblems, "selectedProblem");
      Get(r.researchProblems, "llm_problem") == p &&
      Get(sel, "title") == Get(p, "title") && Get(sel, "description") == Get(p, "description") &&
      Get(sel, "isLLMGenerated") == Bool(true) && Get(sel, "confidence") == Get(p, "confidence") &&
      Get(r.completedSteps, "researchProblems") == Bool(true)
  {
    DispatchUpdateLlmProblem(s, UpdateLlmProblem(p), now, iso);
    UpdateLlmProblemSelects(s, p);
  }

  lemma UpdateLlmProblemSelects(s: State, p: Val)
    ensures var r := OnUpdateLlmProblem(s, p);
      var sel := Get(r.researchProblems, "selectedProblem");
      Get(r.researchProblems, "llm_problem") == p &&
      Get(sel, "title") == Get(p, "title") && Get(sel, "description") == Get(p, "description") &&
      Get(sel, "isLLMGenerated") == Bool(true) && Get(sel, "confidence") == Get(p, "confidence") &&
      Get(r.completedSteps, "researchProblems") == Bool(true)
  {
  }
}
