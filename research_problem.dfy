/** The research-problem step of the wizard: the problems the server finds
    for the selected field, the one of highest confidence selected by
    default, the user's own selection and how confident that selection is. */
module ResearchProblem {
  import opened Wrappers
  import opened JsValue
  import opened AnalysisContext
  import opened ResearchFieldSection
  import ApiService

  /** `findTopConfidenceProblem`: `null` for no problems, else the first
      problem of highest `confidence_score`. */
  function FindTopConfidenceProblem(problems: Val): (r: Val)
    requires IsNullish(problems) || (problems.Arr? && Records(problems.items))
    ensures r == Null <==> IsNullish(problems) || |problems.items| == 0
    ensures r != Null ==> r in problems.items
  {
    TopBy(problems, "confidence_score")
  }

  /** The problem found has the highest confidence; an earlier problem with
      the same confidence wins. */
  lemma TopProblemIsFirstMax(problems: seq<Val>, j: nat)
    requires |problems| > 0 && Records(problems)
    requires forall k :: 0 <= k < |problems| ==> Get(problems[k], "confidence_score").Num?
    requires j < |problems|
    ensures var top := Get(FindTopConfidenceProblem(Arr(problems)), "confidence_score").n;
      Get(problems[j], "confidence_score").n <= top &&
      (Get(problems[j], "confidence_score").n == top ==> TopIndex(problems, "confidence_score", |problems|) <= j)
  {
    TopIsFirstMax(problems, "confidence_score", |problems|);
  }

  /** A server list of problems as the step reads it: missing, or an array
      of records (a string would have a length but no `reduce`). */
  predicate ProblemList(v: Val) {
    IsNullish(v) || (v.Arr? && Records(v.items)) || (!v.Str? && !v.Arr?)
  }

  /** `response?.orkg_problems?.length > 0`. */
  predicate HasProblems(response: Val) {
    var problems := Get(response, "orkg_problems");
    problems.Arr? && |problems.items| > 0
  }

  /** The threshold a confidence is held against: the one the server used,
      else one half. */
  function Threshold(metadata: Val): Val {
    Or(Get(metadata, "threshold_used"), Num(0.5))
  }

  /** `getBorderColorClass`: in automatic mode the highest-scoring problem
      is green; otherwise only the selected problem has a border, green
      when its confidence reaches the threshold. */
  function BorderColorClass(problem: Val, isHighestScore: bool, analysisMode: Val, selectedProblem: Val, metadata: Val): (c: string)
    ensures analysisMode == Str("automatic") && isHighestScore ==> c == "border-success"
    ensures !(analysisMode == Str("automatic") && isHighestScore) ==>
      (Get(problem, "id") != Get(selectedProblem, "id") ==> c == "") &&
      (Get(problem, "id") == Get(selectedProblem, "id") ==>
        (c == "border-success" <==> Ge(Get(problem, "confidence_score"), Threshold(metadata))) &&
        (c == "border-warning" <==> !Ge(Get(problem, "confidence_score"), Threshold(metadata))))
  {
    if analysisMode == Str("automatic") && isHighestScore then "border-success"
    else if Get(problem, "id") == Get(selectedProblem, "id") then
      (if Ge(Get(problem, "confidence_score"), Threshold(metadata)) then "border-success" else "border-warning")
    else ""
  }

  /** The low-confidence alert: a selection whose confidence is below the
      threshold. */
  predicate ShowsLowConfidenceAlert(selectedProblem: Val, metadata: Val) {
    Truthy(selectedProblem) && Gt(Threshold(metadata), Get(selectedProblem, "confidence_score"))
  }

  /** For numeric confidences and thresholds the alert shows exactly when
      the selected problem's own border is the warning one. */
  lemma AlertMatchesBorder(selectedProblem: Val, analysisMode: Val, metadata: Val)
    requires selectedProblem.Obj?
    requires Get(selectedProblem, "confidence_score").Num? && Threshold(metadata).Num?
    ensures ShowsLowConfidenceAlert(selectedProblem, metadata) <==>
      BorderColorClass(selectedProblem, false, analysisMode, selectedProblem, metadata) == "border-warning"
    ensures ShowsLowConfidenceAlert(selectedProblem, metadata) <==>
      Get(selectedProblem, "confidence_score").n < Threshold(metadata).n
  {
  }

  /** Without a threshold from the server a confidence of one half is
      enough. */
  lemma DefaultThreshold(selectedProblem: Val, metadata: Val)
    requires !Truthy(Get(metadata, "threshold_used"))
    requires selectedProblem.Obj? && Get(selectedProblem, "confidence_score").Num?
    ensures ShowsLowConfidenceAlert(selectedProblem, metadata) <==> Get(selectedProblem, "confidence_score").n < 0.5
  {
  }

  /** The actions dispatched once the server's problems are in: the
      response, the problem `findTopConfidenceProblem` picks and the
      completed status, and only when there is at least one problem. */
  function ProblemsFound(response: Val): (actions: seq<Action>)
    requires ProblemList(Get(response, "orkg_problems"))
    ensures !HasProblems(response) ==> actions == []
    ensures HasProblems(response) ==>
      |actions| == 3 && actions[0] == SetResearchProblems(response) &&
      actions[1].SelectResearchProblem? && actions[1].payload in Get(response, "orkg_problems").items &&
      actions[2] == SetResearchProblemsStatus(Str("completed"))
    // the selection is the first problem of highest confidence (TopProblemIsFirstMax)
    ensures HasProblems(response) ==>
      actions[1] == SelectResearchProblem(FindTopConfidenceProblem(Get(response, "orkg_problems")))
  {
    if HasProblems(response) then
      [SetResearchProblems(response),
       SelectResearchProblem(FindTopConfidenceProblem(Get(response, "orkg_problems"))),
       SetResearchProblemsStatus(Str("completed"))]
    else []
  }

  /** The research-problem step's own state. */
  class ResearchProblemView {
    var isLoading: bool
    var llmAnalysis: Val
    var llmError: Val

    constructor ()
      ensures isLoading && llmAnalysis == Null && llmError == Null
    {
      isLoading := true;
      llmAnalysis := Null;
      llmError := Null;
    }

    /** `analyzeProblems`, for the selected field and the paper's abstract:
        `extracted` is the model's reading of the abstract (or its error),
        `reply` the server's reply to the research-problems request. Any
        error is recorded and dispatched; loading ends either way. */
    method AnalyzeProblems(selectedField: Val, paperAbstract: Val, extracted: Result<Val>, reply: ApiService.HttpReply)
      returns (dispatched: seq<Action>)
      requires reply.Ok? ==> ProblemList(Get(reply.data, "orkg_problems"))
      modifies this
      ensures !Truthy(Get(selectedField, "id")) || !Truthy(paperAbstract) ==>
        dispatched == [] && isLoading == old(isLoading) && llmAnalysis == old(llmAnalysis) && llmError == old(llmError)
      ensures Truthy(Get(selectedField, "id")) && Truthy(paperAbstract) ==> !isLoading
      ensures Truthy(Get(selectedField, "id")) && Truthy(paperAbstract) && extracted.Failure? ==>
        dispatched == [SetError(Str(extracted.error))] && llmError == Str(extracted.error) &&
        llmAnalysis == old(llmAnalysis)
      ensures Truthy(Get(selectedField, "id")) && Truthy(paperAbstract) && extracted.Success? ==>
        var outcome := ApiService.AnalyzeResearchProblems(Get(selectedField, "id"), extracted.value, reply).result;
        llmAnalysis == extracted.value &&
        (outcome.Failure? ==> dispatched == [SetError(Str(outcome.error))] && llmError == Str(outcome.error)) &&
        (outcome.Success? ==> dispatched == ProblemsFound(outcome.value) && llmError == old(llmError))
    {
      var fieldId := Get(selectedField, "id");
      if !Truthy(fieldId) || !Truthy(paperAbstract) {
        return [];
      }
      isLoading := true;
      match extracted {
        case Failure(e) =>
          llmError := Str(e);
          dispatched := [SetError(Str(e))];
        case Success(llmResult) =>
          llmAnalysis := llmResult;
          var outcome := ApiService.AnalyzeResearchProblems(fieldId, llmResult, reply).result;
          if outcome.Failure? {
            llmError := Str(outcome.error);
            dispatched := [SetError(Str(outcome.error))];
          } else {
            dispatched := ProblemsFound(outcome.value);
          }
      }
      isLoading := false;
    }
  }

  /** `handleProblemSelection`: the first problem whose id is the chosen
      value is selected; an unknown value dispatches nothing. */
  function HandleProblemSelection(problems: seq<Val>, value: string): (dispatched: seq<Action>)
    ensures FirstWithId(problems, Str(value)).None? <==> dispatched == []
    ensures FirstWithId(problems, Str(value)).Some? ==>
      dispatched == [SelectResearchProblem(problems[FirstWithId(problems, Str(value)).value])]
    ensures dispatched != [] ==>
      |dispatched| == 1 && dispatched[0].SelectResearchProblem? &&
      dispatched[0].payload in problems && Get(dispatched[0].payload, "id") == Str(value)
  {
    match FirstWithId(problems, Str(value))
    case None => []
    case Some(j) => [SelectResearchProblem(problems[j])]
  }
}
