/** The older store slice of the paper analysis: a step table with
    hyphenated ids, the current step, navigation, and one record per step
    with its data and a `processing` record. Its reducers assign fields of
    the state in place; one that throws leaves the state as it was. */
module PaperAnalysisSlice {
  import opened Wrappers
  import opened JsValue

  datatype SliceStep = SliceStep(
    id: string,
    caption: string,
    transitionDelay: nat,
    nextStep: Option<string>,
    prevStep: Option<string>)

  /** The slice's five steps, in order. */
  const SLICE_STEPS: seq<SliceStep> := [
    SliceStep("metadata", "Metadata Analysis", 5000, Some("research-fields"), None),
    SliceStep("research-fields", "Research Field Identification", 10000, Some("research-problem"), Some("metadata")),
    SliceStep("research-problem", "Research Problem Discovery", 15000, Some("template"), Some("research-fields")),
    SliceStep("template", "Template Detection", 12000, Some("content"), Some("research-problem")),
    SliceStep("content", "Content Analysis", 8000, None, Some("template"))
  ]

  /** The position of the first step whose id is `id`, or -1. */
  function SliceStepIndex(id: Val, from: nat): (r: int)
    requires from <= |SLICE_STEPS|
    decreases |SLICE_STEPS| - from
    ensures r == -1 || from <= r < |SLICE_STEPS|
    ensures r >= 0 ==> Str(SLICE_STEPS[r].id) == id && forall j :: from <= j < r ==> Str(SLICE_STEPS[j].id) != id
    ensures r == -1 ==> forall j :: from <= j < |SLICE_STEPS| ==> Str(SLICE_STEPS[j].id) != id
  {
    if from == |SLICE_STEPS| then -1
    else if Str(SLICE_STEPS[from].id) == id then from
    else SliceStepIndex(id, from + 1)
  }

  /** `selectStepById`: `steps.find(step => step.id === stepId)`. */
  function SelectStepById(stepId: Val): (r: Option<SliceStep>)
    ensures r.Some? <==> exists j :: 0 <= j < |SLICE_STEPS| && Str(SLICE_STEPS[j].id) == stepId
    ensures r.Some? ==> r.value in SLICE_STEPS && Str(r.value.id) == stepId
  {
    var i := SliceStepIndex(stepId, 0);
    if i < 0 then None else Some(SLICE_STEPS[i])
  }

  /** `{ status, progress, error }`. */
  function Processing(status: Val, progress: Val, error: Val): Val {
    Obj(["status", "progress", "error"], map["status" := status, "progress" := progress, "error" := error])
  }

  const IDLE: Val := Processing(Str("idle"), N(0), Null)

  const INITIAL_NAVIGATION: Val :=
    Obj(["isNavigating", "direction", "targetStep", "progress"],
        map["isNavigating" := Bool(false), "direction" := Null, "targetStep" := Null, "progress" := N(0)])

  /** `{ present: false, value: null }`. */
  const ABSENT_FIELD: Val := Obj(["present", "value"], map["present" := Bool(false), "value" := Null])

  const INITIAL_METADATA: Val :=
    Obj(["fields", "processing"],
        map["fields" := Obj(["title", "authors", "abstract", "doi", "url", "publication_date"],
                            map["title" := ABSENT_FIELD, "authors" := ABSENT_FIELD, "abstract" := ABSENT_FIELD,
                                "doi" := ABSENT_FIELD, "url" := ABSENT_FIELD, "publication_date" := ABSENT_FIELD]),
            "processing" := IDLE])

  const INITIAL_RESEARCH_FIELDS: Val :=
    Obj(["fields", "selectedField", "processing"],
        map["fields" := Arr([]), "selectedField" := Null, "processing" := IDLE])

  const INITIAL_RESEARCH_PROBLEMS: Val :=
    Obj(["problems", "selectedProblem", "metadata", "processing"],
        map["problems" := Arr([]), "selectedProblem" := Null,
            "metadata" := Obj(["total_scanned", "total_identified", "total_similar"],
                              map["total_scanned" := N(0), "total_identified" := N(0), "total_similar" := N(0)]),
            "processing" := IDLE])

  const INITIAL_TEMPLATES: Val :=
    Obj(["available", "selectedTemplate", "metadata", "processing"],
        map["available" := Arr([]), "selectedTemplate" := Null,
            "metadata" := Obj(["total_papers_found", "papers_with_templates", "total_templates"],
                              map["total_papers_found" := N(0), "papers_with_templates" := N(0), "total_templates" := N(0)]),
            "processing" := IDLE])

  const INITIAL_CONTENT_ANALYSIS: Val :=
    Obj(["sections", "images", "tables", "processing"],
        map["sections" := Arr([]), "images" := Arr([]), "tables" := Arr([]), "processing" := IDLE])

  /** The slice's state apart from the step table, which never changes. */
  datatype SliceState = SliceState(
    currentStep: SliceStep,
    analysisMode: Val,
    isProcessing: Val,
    error: Val,
    completedSteps: Val,
    navigationState: Val,
    paperUrl: Val,
    metadata: Val,
    researchFields: Val,
    researchProblems: Val,
    templates: Val,
    contentAnalysis: Val)

  const INITIAL_STATE: SliceState :=
    SliceState(SLICE_STEPS[0], Str("automatic"), Bool(false), Null, EMPTY, INITIAL_NAVIGATION, Str(""),
               INITIAL_METADATA, INITIAL_RESEARCH_FIELDS, INITIAL_RESEARCH_PROBLEMS, INITIAL_TEMPLATES,
               INITIAL_CONTENT_ANALYSIS)

  /** `state[key]` for the keys holding values; the step table and the
      current step never hold a `processing` record, so they, like every
      other key, read here as `undefined`. */
  function Slot(st: SliceState, key: string): Val {
    match key
    case "analysisMode" => st.analysisMode
    case "isProcessing" => st.isProcessing
    case "error" => st.error
    case "completedSteps" => st.completedSteps
    case "navigationState" => st.navigationState
    case "paperUrl" => st.paperUrl
    case "metadata" => st.metadata
    case "researchFields" => st.researchFields
    case "researchProblems" => st.researchProblems
    case "templates" => st.templates
    case "contentAnalysis" => st.contentAnalysis
    case _ => Undef
  }

  /** `state[key] = v` for a key that `Slot` reads. */
  function WithSlot(st: SliceState, key: string, v: Val): (r: SliceState)
    ensures IsSlot(key) ==> Slot(r, key) == v
    ensures !IsSlot(key) ==> r == st
    ensures forall k :: k != key ==> Slot(r, k) == Slot(st, k)
    ensures r.currentStep == st.currentStep
  {
    match key
    case "analysisMode" => st.(analysisMode := v)
    case "isProcessing" => st.(isProcessing := v)
    case "error" => st.(error := v)
    case "completedSteps" => st.(completedSteps := v)
    case "navigationState" => st.(navigationState := v)
    case "paperUrl" => st.(paperUrl := v)
    case "metadata" => st.(metadata := v)
    case "researchFields" => st.(researchFields := v)
    case "researchProblems" => st.(researchProblems := v)
    case "templates" => st.(templates := v)
    case "contentAnalysis" => st.(contentAnalysis := v)
    case _ => st
  }

  predicate IsSlot(key: string) {
    key in ["analysisMode", "isProcessing", "error", "completedSteps", "navigationState", "paperUrl",
            "metadata", "researchFields", "researchProblems", "templates", "contentAnalysis"]
  }

  /** The `TypeError` of destructuring a `null` or `undefined` payload. */
  function DestructureError(payload: Val, property: string): string {
    "Cannot destructure property '" + property + "' of 'action.payload' as it is " +
    (if payload.Null? then "null" else "undefined") + "."
  }

  /** A destructured property with a default: the default stands in for
      `undefined` only. */
  function WithDefault(v: Val, default: Val): (r: Val)
    ensures v.Undef? ==> r == default
    ensures !v.Undef? ==> r == v
  {
    if v.Undef? then default else v
  }

  // ---- the reducers as state transformations ----

  /** `setProcessingState`: the record of `payload.stepId` gets a new
      `processing` record, when it already has one. */
  function ProcessingUpdated(st: SliceState, payload: Val): SliceState {
    var key := ToKey(Get(payload, "stepId"));
    var record := Processing(Get(payload, "status"), WithDefault(Get(payload, "progress"), N(0)),
                             WithDefault(Get(payload, "error"), Null));
    if Truthy(Get(Slot(st, key), "processing")) then WithSlot(st, key, With(Slot(st, key), "processing", record))
    else st
  }

  /** Only the record named by `stepId` can change, only its `processing`,
      and only when it had one; `progress` defaults to 0 and `error` to
      `null`. */
  lemma ProcessingUpdatedSpec(st: SliceState, payload: Val)
    ensures var key := ToKey(Get(payload, "stepId"));
      var r := ProcessingUpdated(st, payload);
      r.currentStep == st.currentStep &&
      (forall k :: k != key ==> Slot(r, k) == Slot(st, k)) &&
      (!Truthy(Get(Slot(st, key), "processing")) ==> r == st) &&
      (Truthy(Get(Slot(st, key), "processing")) ==>
        var p := Get(Slot(r, key), "processing");
        IsSlot(key) &&
        (forall k :: k != "processing" ==> Get(Slot(r, key), k) == Get(Slot(st, key), k)) &&
        Get(p, "status") == Get(payload, "status") &&
        Get(p, "progress") == (if Get(payload, "progress").Undef? then N(0) else Get(payload, "progress")) &&
        Get(p, "error") == (if Get(payload, "error").Undef? then Null else Get(payload, "error")))
  {
    var key := ToKey(Get(payload, "stepId"));
    if Truthy(Get(Slot(st, key), "processing")) {
      assert IsSlot(key);
    }
  }

  /** The slice's step ids are hyphenated while its state keys are not, so
      a step id such as `research-fields` names no record and changes
      nothing. */
  lemma HyphenatedStepIgnored(st: SliceState, payload: Val)
    requires Get(payload, "stepId") == Str("research-fields") || Get(payload, "stepId") == Str("research-problem")
    ensures ProcessingUpdated(st, payload) == st
  {
  }

  /** `{ isNavigating: true, ...payload, progress: 0 }`. */
  function NavigationStarted(payload: Val): (r: Val)
    ensures r.Obj? && Get(r, "progress") == N(0)
    ensures Get(r, "isNavigating") == (if Has(payload, "isNavigating") then Get(payload, "isNavigating") else Bool(true))
    ensures forall k :: k != "progress" && k != "isNavigating" ==> Get(r, k) == Get(payload, k)
  {
    With(Spread(Obj(["isNavigating"], map["isNavigating" := Bool(true)]), payload), "progress", N(0))
  }

  /** The payload spreads after `isNavigating`, so a payload that names it
      overrides it. */
  lemma NavigationPayloadOverrides()
    ensures Get(NavigationStarted(Obj(["isNavigating"], map["isNavigating" := Bool(false)])), "isNavigating") == Bool(false)
  {
  }

  /** `setContentAnalysis`: each of `sections`, `images` and `tables` is
      replaced only by a truthy value. */
  function ContentAnalysisMerged(contentAnalysis: Val, payload: Val): (r: Val)
    ensures forall k :: k in ["sections", "images", "tables"] ==>
      Get(r, k) == (if Truthy(Get(payload, k)) then Get(payload, k) else Get(contentAnalysis, k))
    ensures forall k :: !(k in ["sections", "images", "tables"]) ==> Get(r, k) == Get(contentAnalysis, k)
  {
    var sections := Or(Get(payload, "sections"), Get(contentAnalysis, "sections"));
    var images := Or(Get(payload, "images"), Get(contentAnalysis, "images"));
    var tables := Or(Get(payload, "tables"), Get(contentAnalysis, "tables"));
    With(With(With(Spread(contentAnalysis, EMPTY), "sections", sections), "images", images), "tables", tables)
  }

  /** `setResearchProblems` and `setTemplates`: the list is replaced, the
      metadata only when the payload has truthy metadata. */
  function ListAndMetadata(record: Val, listKey: string, payload: Val, payloadListKey: string): (r: Val)
    requires listKey != "metadata"
    ensures Get(r, listKey) == Get(payload, payloadListKey)
    ensures Get(r, "metadata") == (if Truthy(Get(payload, "metadata")) then Get(payload, "metadata") else Get(record, "metadata"))
    ensures forall k :: k != listKey && k != "metadata" ==> Get(r, k) == Get(record, k)
  {
    var listed := With(record, listKey, Get(payload, payloadListKey));
    if Truthy(Get(payload, "metadata")) then With(listed, "metadata", Get(payload, "metadata")) else listed
  }

  // ---- selectors ----

  /** `selectIsStepCompleted`. */
  predicate SelectIsStepCompleted(st: SliceState, stepId: Val) {
    Truthy(Get(st.completedSteps, ToKey(stepId)))
  }

  /** `selectStepProcessing`: the record's `processing`, an idle one when
      it has none. */
  function SelectStepProcessing(st: SliceState, stepId: Val): (r: Val)
    ensures Truthy(Get(Slot(st, ToKey(stepId)), "processing")) ==> r == Get(Slot(st, ToKey(stepId)), "processing")
    ensures !Truthy(Get(Slot(st, ToKey(stepId)), "processing")) ==> r == IDLE
  {
    Or(Get(Slot(st, ToKey(stepId)), "processing"), IDLE)
  }

  /** No step is completed at the start, every record is idle, and a key
      without a record reads as idle as well. */
  lemma InitialSelectors(stepId: Val)
    ensures !SelectIsStepCompleted(INITIAL_STATE, stepId)
    ensures SelectStepProcessing(INITIAL_STATE, stepId) == IDLE
  {
  }

  /** The slice's store: each field is one key of the slice's state. */
  class PaperAnalysisStore {
    var currentStep: SliceStep
    var analysisMode: Val
    var isProcessing: Val
    var error: Val
    var completedSteps: Val
    var navigationState: Val
    var paperUrl: Val
    var metadata: Val
    var researchFields: Val
    var researchProblems: Val
    var templates: Val
    var contentAnalysis: Val

    /** The current state as a value. */
    function State(): SliceState
      reads this
    {
      SliceState(currentStep, analysisMode, isProcessing, error, completedSteps, navigationState, paperUrl,
                 metadata, researchFields, researchProblems, templates, contentAnalysis)
    }

    /** The current step is always one of the table's. */
    predicate Valid()
      reads this
    {
      currentStep in SLICE_STEPS
    }

    constructor ()
      ensures State() == INITIAL_STATE && Valid()
    {
      currentStep := SLICE_STEPS[0];
      analysisMode := Str("automatic");
      isProcessing := Bool(false);
      error := Null;
      completedSteps := EMPTY;
      navigationState := INITIAL_NAVIGATION;
      paperUrl := Str("");
      metadata := INITIAL_METADATA;
      researchFields := INITIAL_RESEARCH_FIELDS;
      researchProblems := INITIAL_RESEARCH_PROBLEMS;
      templates := INITIAL_TEMPLATES;
      contentAnalysis := INITIAL_CONTENT_ANALYSIS;
    }

    /** Puts a whole state back (every reducer below ends in one). */
    method Assign(st: SliceState)
      modifies this
      ensures State() == st
    {
      currentStep, analysisMode, isProcessing, error := st.currentStep, st.analysisMode, st.isProcessing, st.error;
      completedSteps, navigationState, paperUrl := st.completedSteps, st.navigationState, st.paperUrl;
      metadata, researchFields, researchProblems := st.metadata, st.researchFields, st.researchProblems;
      templates, contentAnalysis := st.templates, st.contentAnalysis;
    }

    /** `setCurrentStep`: moves to the step with the given id; an unknown
        id changes nothing. */
    method SetCurrentStep(payload: Val)
      requires Valid()
      modifies this
      ensures Valid()
      ensures SelectStepById(payload).Some? ==> State() == old(State()).(currentStep := SelectStepById(payload).value)
      ensures SelectStepById(payload).None? ==> State() == old(State())
    {
      var target := SelectStepById(payload);
      if target.Some? {
        currentStep := target.value;
      }
    }

    /** `setProcessingState`. */
    method SetProcessingState(payload: Val) returns (thrown: Option<string>)
      requires Valid()
      modifies this
      ensures Valid()
      ensures IsNullish(payload) ==> thrown == Some(DestructureError(payload, "stepId")) && State() == old(State())
      ensures !IsNullish(payload) ==> thrown.None? && State() == ProcessingUpdated(old(State()), payload)
    {
      if IsNullish(payload) {
        return Some(DestructureError(payload, "stepId"));
      }
      thrown := None;
      var key := ToKey(Get(payload, "stepId"));
      var record := Processing(Get(payload, "status"), WithDefault(Get(payload, "progress"), N(0)),
                               WithDefault(Get(payload, "error"), Null));
      var slot := Slot(State(), key);
      if Truthy(Get(slot, "processing")) {
        Assign(WithSlot(State(), key, With(slot, "processing", record)));
      }
    }

    method SetError(payload: Val)
      modifies this
      ensures State() == old(State()).(error := payload)
    {
      error := payload;
    }

    /** `completeStep`: marks one step completed. */
    method CompleteStep(payload: Val)
      modifies this
      ensures State() == old(State()).(completedSteps := With(old(completedSteps), ToKey(payload), Bool(true)))
      ensures SelectIsStepCompleted(State(), payload)
      ensures forall id :: ToKey(id) != ToKey(payload) ==>
        (SelectIsStepCompleted(State(), id) <==> SelectIsStepCompleted(old(State()), id))
    {
      completedSteps := With(completedSteps, ToKey(payload), Bool(true));
    }

    /** `startNavigation`. */
    method StartNavigation(payload: Val)
      modifies this
      ensures State() == old(State()).(navigationState := NavigationStarted(payload))
    {
      navigationState := NavigationStarted(payload);
    }

    /** `updateNavigationProgress`: a navigation state that is not an
        object cannot take the progress; assigning to `null` or `undefined`
        throws. */
    method UpdateNavigationProgress(payload: Val) returns (thrown: Option<string>)
      modifies this
      ensures IsNullish(old(navigationState)) ==> thrown.Some? && State() == old(State())
      ensures old(navigationState).Obj? ==>
        thrown.None? && State() == old(State()).(navigationState := With(old(navigationState), "progress", payload))
      ensures !IsNullish(old(navigationState)) && !old(navigationState).Obj? ==> thrown.None? && State() == old(State())
    {
      thrown := None;
      if IsNullish(navigationState) {
        return Some("Cannot set properties of " + (if navigationState.Null? then "null" else "undefined") +
                    " (setting 'progress')");
      }
      // a primitive navigation state is left as it is, where strict mode would
      // throw; no action of the slice stores one
      if navigationState.Obj? {
        navigationState := With(navigationState, "progress", payload);
      }
    }

    /** `endNavigation`: back to the initial navigation state. */
    method EndNavigation()
      modifies this
      ensures State() == old(State()).(navigationState := INITIAL_NAVIGATION)
    {
      navigationState := INITIAL_NAVIGATION;
    }

    method SetPaperUrl(payload: Val)
      modifies this
      ensures State() == old(State()).(paperUrl := payload)
    {
      paperUrl := payload;
    }

    method SetAnalysisMode(payload: Val)
      modifies this
      ensures State() == old(State()).(analysisMode := payload)
    {
      analysisMode := payload;
    }

    /** `setMetadata`: the payload's fields written over the metadata
        fields. */
    method SetMetadata(payload: Val)
      requires metadata.Obj?
      modifies this
      ensures State() == old(State()).(metadata := With(old(metadata), "fields", Spread(Get(old(metadata), "fields"), payload)))
    {
      metadata := With(metadata, "fields", Spread(Get(metadata, "fields"), payload));
    }

    method SetResearchFields(payload: Val)
      requires researchFields.Obj?
      modifies this
      ensures State() == old(State()).(researchFields := With(old(researchFields), "fields", payload))
    {
      researchFields := With(researchFields, "fields", payload);
    }

    method SelectField(payload: Val)
      requires researchFields.Obj?
      modifies this
      ensures State() == old(State()).(researchFields := With(old(researchFields), "selectedField", payload))
    {
      researchFields := With(researchFields, "selectedField", payload);
    }

    /** `setResearchProblems`. */
    method SetResearchProblems(payload: Val) returns (thrown: Option<string>)
      requires researchProblems.Obj?
      modifies this
      ensures IsNullish(payload) ==> thrown == Some(DestructureError(payload, "problems")) && State() == old(State())
      ensures !IsNullish(payload) ==>
        thrown.None? &&
        State() == old(State()).(researchProblems := ListAndMetadata(old(researchProblems), "problems", payload, "problems"))
    {
      if IsNullish(payload) {
        return Some(DestructureError(payload, "problems"));
      }
      thrown := None;
      researchProblems := ListAndMetadata(researchProblems, "problems", payload, "problems");
    }

    method SelectProblem(payload: Val)
      requires researchProblems.Obj?
      modifies this
      ensures State() == old(State()).(researchProblems := With(old(researchProblems), "selectedProblem", payload))
    {
      researchProblems := With(researchProblems, "selectedProblem", payload);
    }

    /** `setTemplates`. */
    method SetTemplates(payload: Val) returns (thrown: Option<string>)
      requires templates.Obj?
      modifies this
      ensures IsNullish(payload) ==> thrown == Some(DestructureError(payload, "templates")) && State() == old(State())
      ensures !IsNullish(payload) ==>
        thrown.None? &&
        State() == old(State()).(templates := ListAndMetadata(old(templates), "available", payload, "templates"))
    {
      if IsNullish(payload) {
        return Some(DestructureError(payload, "templates"));
      }
      thrown := None;
      templates := ListAndMetadata(templates, "available", payload, "templates");
    }

    method SelectTemplate(payload: Val)
      requires templates.Obj?
      modifies this
      ensures State() == old(State()).(templates := With(old(templates), "selectedTemplate", payload))
    {
      templates := With(templates, "selectedTemplate", payload);
    }

    /** `setContentAnalysis`. */
    method SetContentAnalysis(payload: Val) returns (thrown: Option<string>)
      modifies this
      ensures IsNullish(payload) ==> thrown == Some(DestructureError(payload, "sections")) && State() == old(State())
      ensures !IsNullish(payload) ==>
        thrown.None? && State() == old(State()).(contentAnalysis := ContentAnalysisMerged(old(contentAnalysis), payload))
    {
      if IsNullish(payload) {
        return Some(DestructureError(payload, "sections"));
      }
      thrown := None;
      contentAnalysis := ContentAnalysisMerged(contentAnalysis, payload);
    }
  }
}
