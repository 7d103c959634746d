/** The wizard's header: what it shows of the selected research field, the
    research problem and the template, read from the wizard state. */
module Header {
  import opened Wrappers
  import opened JsString
  import opened JsValue
  import opened AnalysisContext
  import opened ResearchFieldSection

  /** `currentStepIndex`: the position of the current step, -1 for none. */
  function CurrentStepIndex(s: State): int {
    StepIndex(s.currentStepId)
  }

  function SelectedField(s: State): Val {
    Get(s.researchFields, "selectedField")
  }

  function SelectedProblem(s: State): Val {
    Get(s.researchProblems, "selectedProblem")
  }

  function LlmProblem(s: State): Val {
    Get(s.researchProblems, "llm_problem")
  }

  // ---- the research field ----

  /** `getFieldColor`: no colour without a selected field; green when ten
      times its score reaches 50, else amber. */
  function FieldColor(s: State): (c: string)
    ensures !Truthy(SelectedField(s)) ==> c == ""
    ensures Truthy(SelectedField(s)) ==>
      (c == "text-success" <==> ScaledAtLeastHalf(Get(SelectedField(s), "score"))) &&
      (c == "text-warning" <==> !ScaledAtLeastHalf(Get(SelectedField(s), "score")))
  {
    if !Truthy(SelectedField(s)) then ""
    else if ScaledAtLeastHalf(Get(SelectedField(s), "score")) then "text-success"
    else "text-warning"
  }

  /** `Math.round(x)`: the nearest integer, halves rounded up. */
  function Round(x: real): int {
    (x + 0.5).Floor
  }

  /** The "High Confidence" badge next to the field: the rounded similarity
      `Math.round(score * 10)` reaches 50. */
  predicate HighConfidenceBadge(s: State) {
    var x := ToNumber(Get(SelectedField(s), "score"));
    x.Some? && Round(x.value * 10.0) >= 50
  }

  /** The badge rounds and the colour does not: a score just under 5 gets
      the badge in the warning colour. */
  lemma BadgeDisagreesWithColour(s: State)
    requires Truthy(SelectedField(s)) && Get(SelectedField(s), "score") == Num(4.96)
    ensures HighConfidenceBadge(s) && FieldColor(s) == "text-warning"
  {
    assert Round(49.6) == 50;
  }

  /** For a numeric score the badge needs at least 4.95, the colour 5. */
  lemma FieldThresholds(s: State)
    requires Truthy(SelectedField(s)) && Get(SelectedField(s), "score").Num?
    ensures var score := Get(SelectedField(s), "score").n;
      (FieldColor(s) == "text-success" <==> score >= 5.0) &&
      (HighConfidenceBadge(s) <==> score >= 4.95)
  {
    var score := Get(SelectedField(s), "score").n;
    if score >= 4.95 {
      assert score * 10.0 + 0.5 >= 50.0;
    } else {
      assert score * 10.0 + 0.5 < 50.0;
    }
  }

  // ---- the research problem ----

  /** `getProblemConfidence`: the selected problem's score when truthy,
      else the generated problem's confidence when truthy, else 0. */
  function ProblemConfidence(s: State): (c: Val)
    ensures Truthy(Get(SelectedProblem(s), "confidence_score")) ==> c == Get(SelectedProblem(s), "confidence_score")
    ensures !Truthy(Get(SelectedProblem(s), "confidence_score")) && Truthy(Get(LlmProblem(s), "confidence")) ==>
      c == Get(LlmProblem(s), "confidence")
    ensures !Truthy(Get(SelectedProblem(s), "confidence_score")) && !Truthy(Get(LlmProblem(s), "confidence")) ==>
      c == N(0)
  {
    var score := Get(SelectedProblem(s), "confidence_score");
    var confidence := Get(LlmProblem(s), "confidence");
    if Truthy(score) then score
    else if Truthy(confidence) then confidence
    else N(0)
  }

  /** `getProblemColor`. */
  function ProblemColor(s: State): string {
    if Ge(ProblemConfidence(s), Num(0.5)) then "text-success" else "text-warning"
  }

  /** `getProblemStyle`: a generated problem is always shown in the primary
      colour, whatever its confidence. */
  function ProblemStyle(s: State): (c: string)
    ensures Truthy(LlmProblem(s)) ==> c == "text-primary"
    ensures !Truthy(LlmProblem(s)) ==>
      (c == "text-success" <==> Ge(ProblemConfidence(s), Num(0.5))) &&
      (c == "text-warning" <==> !Ge(ProblemConfidence(s), Num(0.5)))
  {
    if Truthy(LlmProblem(s)) then "text-primary" else ProblemColor(s)
  }

  /** The problem row is shown from the third step on, once a problem is
      selected or generated. */
  predicate ShowsProblemRow(s: State) {
    CurrentStepIndex(s) >= 2 && (Truthy(SelectedProblem(s)) || Truthy(LlmProblem(s)))
  }

  /** Before the research-problem step the row is hidden whatever the
      problems are. */
  lemma ProblemRowHiddenEarly(s: State)
    requires s.currentStepId == Str("metadata") || s.currentStepId == Str("researchFields")
    ensures !ShowsProblemRow(s)
  {
    FindStepAt(0);
    FindStepAt(1);
  }

  /** What `getProblemText` reads: an ORKG list that is an array when set. */
  predicate ProblemsReadable(s: State) {
    var problems := Get(s.researchProblems, "orkg_problems");
    !Truthy(problems) || problems.Arr?
  }

  /** `getProblemText` as written: the `||` applies to the whole
      concatenation, which is never empty, so a selection missing from the
      list reads "Research Problem: undefined". */
  function ProblemText(s: State): (t: string)
    requires ProblemsReadable(s)
  {
    var selectedId := Get(SelectedProblem(s), "id");
    var problems := Get(s.researchProblems, "orkg_problems");
    if Truthy(selectedId) && Truthy(problems) then
      var found := FirstWithId(problems.items, selectedId);
      var description := if found.Some? then Get(problems.items[found.value], "description") else Undef;
      var text := "Research Problem: " + ToStr(description);
      ToStr(Or(Str(text), Str("")))
    else if Truthy(Get(LlmProblem(s), "title")) then
      "AI Generated Research Problem: " + ToStr(Get(LlmProblem(s), "title"))
    else ""
  }

  /** A selected problem that is not in the list is shown as
      "Research Problem: undefined". */
  lemma ProblemTextShowsUndefined(s: State)
    requires ProblemsReadable(s)
    requires Truthy(Get(SelectedProblem(s), "id")) && Truthy(Get(s.researchProblems, "orkg_problems"))
    requires FirstWithId(Get(s.researchProblems, "orkg_problems").items, Get(SelectedProblem(s), "id")).None?
    ensures ProblemText(s) == "Research Problem: undefined"
  {
  }

  /** `getProblemText` with the fallback applied to the description, as
      intended: the prefix and the description, or the bare prefix. */
  function ProblemTextCorrected(s: State): (t: string)
    requires ProblemsReadable(s)
  {
    var selectedId := Get(SelectedProblem(s), "id");
    var problems := Get(s.researchProblems, "orkg_problems");
    if Truthy(selectedId) && Truthy(problems) then
      var found := FirstWithId(problems.items, selectedId);
      var description := if found.Some? then Get(problems.items[found.value], "description") else Undef;
      "Research Problem: " + ToStr(Or(description, Str("")))
    else if Truthy(Get(LlmProblem(s), "title")) then
      "AI Generated Research Problem: " + ToStr(Get(LlmProblem(s), "title"))
    else ""
  }

  /** The corrected text: a selection shows its problem's description,
      or nothing after the prefix when it has none; otherwise the
      generated problem's title; otherwise nothing. */
  lemma ProblemTextCorrectedSpec(s: State)
    requires ProblemsReadable(s)
    ensures var t := ProblemTextCorrected(s);
      var selectedId := Get(SelectedProblem(s), "id");
      var problems := Get(s.researchProblems, "orkg_problems");
      (Truthy(selectedId) && Truthy(problems) ==>
        var found := FirstWithId(problems.items, selectedId);
        (found.None? ==> t == "Research Problem: ") &&
        (found.Some? ==> var d := Get(problems.items[found.value], "description");
           t == "Research Problem: " + (if Truthy(d) then ToStr(d) else ""))) &&
      (!(Truthy(selectedId) && Truthy(problems)) && Truthy(Get(LlmProblem(s), "title")) ==>
        t == "AI Generated Research Problem: " + ToStr(Get(LlmProblem(s), "title"))) &&
      (!(Truthy(selectedId) && Truthy(problems)) && !Truthy(Get(LlmProblem(s), "title")) ==> t == "")
  {
  }

  /** Both versions agree whenever the selected problem is found with a
      truthy description, and on every other branch. */
  lemma ProblemTextAgrees(s: State)
    requires ProblemsReadable(s)
    requires var selectedId := Get(SelectedProblem(s), "id");
      var problems := Get(s.researchProblems, "orkg_problems");
      Truthy(selectedId) && Truthy(problems) ==>
        var found := FirstWithId(problems.items, selectedId);
        found.Some? && Truthy(Get(problems.items[found.value], "description"))
    ensures ProblemText(s) == ProblemTextCorrected(s)
  {
  }

  // ---- the template ----

  /** What the header shows of the template. */
  datatype TemplateInfo =
    | NoTemplateInfo
    | SelectedTemplateInfo(name: Val, id: Val)
    | GeneratedTemplateInfo(name: Val, propertyCount: Val)

  /** `v?.length`: the length of an array or a string. */
  function LengthOf(v: Val): Val {
    match v
    case Arr(items) => N(|items|)
    case Str(t) => N(|t|)
    case _ => Undef
  }

  /** `renderTemplateInfo`: nothing before the template step; a chosen
      template wins over a generated one; a generated template without a
      `template` inside makes reading its properties throw. */
  function TemplateInfoOf(s: State): (r: Result<TemplateInfo>)
    ensures CurrentStepIndex(s) < 3 ==> r == Success(NoTemplateInfo)
    ensures CurrentStepIndex(s) >= 3 && Truthy(Get(s.templates, "selectedTemplate")) ==>
      var t := Get(s.templates, "selectedTemplate");
      r == Success(SelectedTemplateInfo(Get(t, "name"), Get(t, "id")))
    ensures (CurrentStepIndex(s) >= 3 && !Truthy(Get(s.templates, "selectedTemplate")) &&
             !Truthy(Get(s.templates, "llm_template"))) ==> r == Success(NoTemplateInfo)
    ensures r.Success? && r.value.GeneratedTemplateInfo? ==>
      CurrentStepIndex(s) >= 3 && !Truthy(Get(s.templates, "selectedTemplate")) && Truthy(Get(s.templates, "llm_template"))
  {
    if CurrentStepIndex(s) < 3 then Success(NoTemplateInfo)
    else if Truthy(Get(s.templates, "selectedTemplate")) then
      var t := Get(s.templates, "selectedTemplate");
      Success(SelectedTemplateInfo(Get(t, "name"), Get(t, "id")))
    else if Truthy(Get(s.templates, "llm_template")) then
      var template := Get(Get(s.templates, "llm_template"), "template");
      if IsNullish(template) then Failure(ReadError(template, "properties"))
      else Success(GeneratedTemplateInfo(Get(template, "name"), Or(LengthOf(Get(template, "properties")), N(0))))
    else Success(NoTemplateInfo)
  }

  /** A generated template's property count is its number of properties,
      0 when it has none. */
  lemma GeneratedPropertyCount(s: State)
    requires CurrentStepIndex(s) >= 3 && !Truthy(Get(s.templates, "selectedTemplate"))
    requires Truthy(Get(s.templates, "llm_template"))
    requires Get(Get(s.templates, "llm_template"), "template").Obj?
    requires var props := Get(Get(Get(s.templates, "llm_template"), "template"), "properties");
      IsNullish(props) || props.Arr?
    ensures var props := Get(Get(Get(s.templates, "llm_template"), "template"), "properties");
      TemplateInfoOf(s) == Success(GeneratedTemplateInfo(Get(Get(Get(s.templates, "llm_template"), "template"), "name"),
                                                         N(|ItemsOf(props)|)))
  {
  }
}
