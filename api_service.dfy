/** The pure parts of the application's HTTP client: which template of the
    wizard's state is analysed, the request of the research-problems call
    and the checks applied to the server's replies. The transport
    (`fetchWithTimeout`) is a parameter: its reply to the one request a call
    makes. */
module ApiService {
  import opened Wrappers
  import opened JsString
  import opened JsValue
  import RagService

  /** What `fetchWithTimeout` delivers: the parsed body of a successful
      response, an error status with its body (`None` when the body is not
      JSON), or the error of a request that failed or timed out. */
  datatype HttpReply =
    | Ok(data: Val)
    | NotOk(status: nat, errorBody: Option<Val>)
    | Unreachable(message: string)

  /** The message thrown for an error status: the body's `message` when it
      is truthy, else the status. A body that is not JSON reads as `{}`; a
      body that is `null` makes reading its message throw. */
  function HttpErrorMessage(status: nat, errorBody: Option<Val>): (m: string)
    ensures errorBody.None? ==> m == "HTTP error! status: " + NatToString(status)
    ensures errorBody.Some? && Truthy(Get(errorBody.value, "message")) ==> m == ToStr(Get(errorBody.value, "message"))
  {
    var errorData := if errorBody.Some? then errorBody.value else EMPTY;
    if IsNullish(errorData) then ReadError(errorData, "message")
    else if Truthy(Get(errorData, "message")) then ToStr(Get(errorData, "message"))
    else "HTTP error! status: " + NatToString(status)
  }

  /** The data of a reply, or the error it makes the call throw. */
  function Received(reply: HttpReply): (r: Result<Val>)
    ensures r.Success? <==> reply.Ok?
    ensures reply.Ok? ==> r.value == reply.data
    ensures reply.Unreachable? ==> r == Failure(reply.message)
    ensures reply.NotOk? ==> r == Failure(HttpErrorMessage(reply.status, reply.errorBody))
  {
    match reply
    case Ok(data) => Success(data)
    case NotOk(status, errorBody) => Failure(HttpErrorMessage(status, errorBody))
    case Unreachable(message) => Failure(message)
  }

  // ---- extractTemplate ----

  /** `v?.properties`: whether `v` holds a truthy `properties`. */
  predicate HasProperties(v: Val) {
    Truthy(Get(v, "properties"))
  }

  /** The places a template is looked for, in order of preference. */
  function Candidates(templateData: Val): seq<Val> {
    var templates := Get(templateData, "templates");
    [Get(Get(templates, "llm_template"), "template"),
     Get(Get(templates, "selectedTemplate"), "template"),
     Get(Get(templates, "available"), "template"),
     Get(templateData, "template"),
     templateData]
  }

  /** `extractTemplate`: `null` for a falsy input, else the first candidate
      with properties, `null` when none has. */
  function ExtractTemplate(templateData: Val): (r: Val) {
    if !Truthy(templateData) then Null
    else
      var cs := Candidates(templateData);
      var template :=
        Or(Or(Or(Or(And(Get(cs[0], "properties"), cs[0]),
                    And(Get(cs[1], "properties"), cs[1])),
                 And(Get(cs[2], "properties"), cs[2])),
              And(Get(cs[3], "properties"), cs[3])),
           And(Get(cs[4], "properties"), cs[4]));
      if !Truthy(template) then Null else template
  }

  /** Only an object can hold a truthy property. */
  lemma PropertiesOnlyOnObjects(v: Val)
    requires HasProperties(v)
    ensures v.Obj? && Truthy(v)
  {
  }

  /** The template found is the first candidate with properties; there is
      none exactly when the input is falsy or no candidate has properties. */
  lemma ExtractTemplateSpec(templateData: Val)
    ensures var r := ExtractTemplate(templateData);
      var cs := Candidates(templateData);
      (r == Null <==> !Truthy(templateData) || forall i :: 0 <= i < |cs| ==> !HasProperties(cs[i])) &&
      (Truthy(templateData) ==>
         forall i :: (0 <= i < |cs| && HasProperties(cs[i]) && forall j :: 0 <= j < i ==> !HasProperties(cs[j])) ==>
           r == cs[i]) &&
      (r != Null ==> r.Obj? && HasProperties(r))
  {
    var cs := Candidates(templateData);
    forall i | 0 <= i < |cs| && HasProperties(cs[i]) ensures cs[i].Obj? && Truthy(cs[i]) {
      PropertiesOnlyOnObjects(cs[i]);
    }
  }

  /** A template generated by the model wins over every other. */
  lemma LlmTemplatePreferred(templateData: Val)
    requires Truthy(templateData)
    requires HasProperties(Candidates(templateData)[0])
    ensures ExtractTemplate(templateData) == Get(Get(Get(templateData, "templates"), "llm_template"), "template")
  {
    ExtractTemplateSpec(templateData);
  }

  /** A template given directly is used as it is. */
  lemma BareTemplateUsed(template: Val)
    requires HasProperties(template)
    requires forall i :: 0 <= i < 4 ==> !HasProperties(Candidates(template)[i])
    ensures ExtractTemplate(template) == template
  {
    ExtractTemplateSpec(template);
    PropertiesOnlyOnObjects(template);
  }

  // ---- analyzeResearchProblems ----

  /** The request payload of `analyzeResearchProblems`, or the error thrown
      before any request for a falsy field id. */
  function ProblemsRequest(fieldId: Val, llmProblem: Val): (r: Result<Val>)
    ensures r.Failure? <==> !Truthy(fieldId)
    ensures r.Failure? ==> r.error == "Field ID is required"
    ensures r.Success? ==>
      r.value.Obj? && WellFormed(r.value) && r.value.keys == ["field_id", "llm_problem"] &&
      Get(r.value, "field_id") == fieldId &&
      Get(r.value, "llm_problem") == (if Truthy(Get(llmProblem, "problem")) then Get(llmProblem, "problem") else Null)
  {
    if !Truthy(fieldId) then Failure("Field ID is required")
    else Success(Obj(["field_id", "llm_problem"],
                     map["field_id" := fieldId, "llm_problem" := Or(Get(llmProblem, "problem"), Null)]))
  }

  /** The check of a research-problems reply: a `metadata.field_id` that is
      set must be the field asked for. */
  function CheckProblemsResponse(data: Val, fieldId: Val): (r: Result<Val>)
    ensures IsNullish(data) ==> r == Failure(ReadError(data, "metadata"))
    ensures r.Success? <==>
      !IsNullish(data) &&
      (!Truthy(Get(Get(data, "metadata"), "field_id")) || Get(Get(data, "metadata"), "field_id") == fieldId)
    ensures r.Success? ==> r.value == data
  {
    if IsNullish(data) then Failure(ReadError(data, "metadata"))
    else
      var received := Get(Get(data, "metadata"), "field_id");
      if Truthy(received) && received != fieldId then Failure("Server processed wrong field ID")
      else Success(data)
  }

  /** The outcome of a call and the requests it sent. */
  datatype Call = Call(result: Result<Val>, sent: seq<Val>)

  /** `analyzeResearchProblems`: `reply` is the server's reply to the request. */
  function AnalyzeResearchProblems(fieldId: Val, llmProblem: Val, reply: HttpReply): (c: Call) {
    match ProblemsRequest(fieldId, llmProblem)
    case Failure(e) => Call(Failure(e), [])
    case Success(payload) =>
      var received := Received(reply);
      Call(if received.Failure? then received else CheckProblemsResponse(received.value, fieldId), [payload])
  }

  /** A falsy field id is rejected before any request; otherwise exactly one
      request is sent, and the reply is returned only when it is a success
      whose field id, if set, is the one asked for. */
  lemma AnalyzeResearchProblemsSpec(fieldId: Val, llmProblem: Val, reply: HttpReply)
    ensures var c := AnalyzeResearchProblems(fieldId, llmProblem, reply);
      (!Truthy(fieldId) ==> c == Call(Failure("Field ID is required"), [])) &&
      (Truthy(fieldId) ==> |c.sent| == 1 && c.sent[0] == ProblemsRequest(fieldId, llmProblem).value) &&
      (c.result.Success? <==> Truthy(fieldId) && reply.Ok? && CheckProblemsResponse(reply.data, fieldId).Success?) &&
      (c.result.Success? ==> c.result.value == reply.data)
  {
  }

  /** A reply for another field is an error. */
  lemma WrongFieldRejected(fieldId: Val, llmProblem: Val, data: Val)
    requires Truthy(fieldId)
    requires Truthy(Get(Get(data, "metadata"), "field_id")) && Get(Get(data, "metadata"), "field_id") != fieldId
    ensures AnalyzeResearchProblems(fieldId, llmProblem, Ok(data)).result == Failure("Server processed wrong field ID")
  {
  }

  // ---- initiateResearchFieldsAnalysis ----

  /** The outcome of `initiateResearchFieldsAnalysis` and the progress
      reports handed to the callback (when there is one). */
  datatype FieldsCall = FieldsCall(result: Result<Val>, reports: seq<Val>)

  /** The progress report built from `processing_info`. */
  function ProgressOf(data: Val): Val {
    var info := Get(data, "processing_info");
    Obj(["status", "progress", "fields", "error"],
        map["status" := Get(info, "status"), "progress" := Or(Get(info, "progress"), N(0)),
            "fields" := Get(data, "fields"), "error" := Get(info, "error")])
  }

  /** The result of a completed analysis. */
  function CompletedFields(data: Val): Val {
    Obj(["fields", "status", "progress"],
        map["fields" := Get(data, "fields"), "status" := Str("completed"), "progress" := N(100)])
  }

  /** `initiateResearchFieldsAnalysis` from the reply on: with processing
      information it reports the progress and, when completed, returns the
      fields with full progress; otherwise it returns the data as received. */
  function InitiateResearchFieldsAnalysis(reply: HttpReply, hasCallback: bool): (c: FieldsCall) {
    match Received(reply)
    case Failure(e) => FieldsCall(Failure(e), [])
    case Success(data) =>
      if IsNullish(data) then FieldsCall(Failure(ReadError(data, "processing_info")), [])
      else if !Truthy(Get(data, "processing_info")) then FieldsCall(Success(data), [])
      else
        var progress := ProgressOf(data);
        var reports := if hasCallback then [progress] else [];
        if Get(progress, "status") == Str("completed") then FieldsCall(Success(CompletedFields(data)), reports)
        else FieldsCall(Success(data), reports)
  }

  /** At most one report, made only with processing information; a report
      of progress carries the fields and a progress that defaults to 0; a
      completed analysis returns the fields at progress 100. */
  lemma InitiateResearchFieldsSpec(reply: HttpReply, hasCallback: bool)
    ensures var c := InitiateResearchFieldsAnalysis(reply, hasCallback);
      |c.reports| <= 1 &&
      (|c.reports| == 1 <==> hasCallback && reply.Ok? && Truthy(Get(reply.data, "processing_info"))) &&
      (|c.reports| == 1 ==>
        Get(c.reports[0], "fields") == Get(reply.data, "fields") &&
        Truthy(Get(c.reports[0], "progress")) == Truthy(Get(Get(reply.data, "processing_info"), "progress")) &&
        (!Truthy(Get(Get(reply.data, "processing_info"), "progress")) ==> Get(c.reports[0], "progress") == N(0))) &&
      (c.result.Success? <==> reply.Ok? && !IsNullish(reply.data)) &&
      (c.result.Success? && Get(Get(reply.data, "processing_info"), "status") == Str("completed") ==>
        Get(c.result.value, "status") == Str("completed") && Get(c.result.value, "progress") == N(100) &&
        Get(c.result.value, "fields") == Get(reply.data, "fields")) &&
      (c.result.Success? && Get(Get(reply.data, "processing_info"), "status") != Str("completed") ==>
        c.result.value == reply.data)
  {
  }

  // ---- analyzeContent ----

  /** The client, with the RAG service it delegates content analysis to. */
  class ApiServiceState {
    const rag: RagService.RagServiceState

    constructor ()
      ensures fresh(rag) && rag.lastApiCallTime == 0
    {
      rag := new RagService.RagServiceState();
    }

    /** `analyzeContent`: without a template it throws; otherwise the RAG
        analysis of the extracted template, wrapped with the sections and a
        completed status. `batch` is the outcome of the batch analysis the
        RAG service tries first. */
    method AnalyzeContent(sections: Val, templateData: Val, batch: Result<Val>,
                          analyze: (Val, nat) -> RagService.Reply, clock: nat -> (int, int))
      returns (r: Result<Val>)
      requires var t := RagService.PropertyList(ExtractTemplate(templateData)); !Truthy(t) || t.Arr?
      modifies rag
      ensures ExtractTemplate(templateData) == Null ==>
        r == Failure("No valid template found for analysis") && rag.lastApiCallTime == old(rag.lastApiCallTime)
      ensures r.Success? ==>
        r.value.Obj? && r.value.keys == ["sections", "analysis_results", "status"] &&
        Get(r.value, "sections") == sections && Get(r.value, "status") == Str("completed")
      ensures ExtractTemplate(templateData) != Null && batch.Success? ==>
        r.Success? && Get(r.value, "analysis_results") == batch.value
      ensures ExtractTemplate(templateData) != Null && batch.Failure? ==>
        RagService.SequentialOutcome(ExtractTemplate(templateData), analyze,
          if r.Success? then Success(Get(r.value, "analysis_results")) else r)
    {
      var template := ExtractTemplate(templateData);
      if !Truthy(template) {
        return Failure("No valid template found for analysis");
      }
      var analysis := rag.AnalyzePaperSections(batch, template, analyze, clock);
      if analysis.Failure? {
        return Failure(analysis.error);
      }
      r := Success(Obj(["sections", "analysis_results", "status"],
                       map["sections" := sections, "analysis_results" := analysis.value,
                           "status" := Str("completed")]));
    }
  }
}
