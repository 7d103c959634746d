/** The metadata step: the identifier handed to the citation lookup, the
    metadata record built from the lookup, and the actions `handleAnalyze`
    dispatches into the wizard state. */
module MetadataSection {
  import opened Wrappers
  import opened JsString
  import opened JsValue
  import opened AnalysisContext
  import DataEntryCard

  // ---------------------------------------------------------------------
  // parseIdentifier

  /** `t.substring(t.indexOf('10.'))`: `t` from its first `10.` on, all of
      `t` when there is none (the index -1 is clamped to 0). */
  function FromFirstDoi(t: string): string {
    Substring(t, IndexOf(t, "10."), |t|)
  }

  /** `parseIdentifier(input)`: for input starting with `http`, the trimmed
      input from its first `10.` on; any other input trimmed. The `http` test
      looks at the untrimmed input. */
  function ParseIdentifier(input: string): string {
    var t := Trim(input);
    if StartsWith(input, "http") then FromFirstDoi(t) else t
  }

  /** The first occurrence found by `indexOf`. */
  lemma IndexOfFirst(s: string, sub: string, k: nat)
    requires OccursAt(s, sub, k)
    requires forall i :: 0 <= i < k ==> !OccursAt(s, sub, i)
    ensures IndexOf(s, sub) == k
  {
  }

  /** What `FromFirstDoi` keeps of `t`: a suffix starting at the first `10.`,
      or `t` itself when `t` has no `10.`. */
  lemma FromFirstDoiSuffix(t: string)
    ensures var r := FromFirstDoi(t);
      |r| <= |t| && r == t[|t| - |r|..] &&
      (Contains(t, "10.") ==>
         StartsWith(r, "10.") && forall i :: 0 <= i < |t| - |r| ==> !OccursAt(t, "10.", i)) &&
      (!Contains(t, "10.") ==> r == t)
  {
    var i := IndexOf(t, "10.");
    if i >= 0 {
      assert FromFirstDoi(t) == t[i..];
      assert t[i..][..3] == t[i..i + 3];
    }
  }

  /** Cutting a trimmed string at its first `10.` leaves a trimmed string
      that starts with `1`, hence not with `http`. */
  lemma FromFirstDoiTrimmed(t: string)
    requires Trimmed(t) && Contains(t, "10.")
    ensures Trimmed(FromFirstDoi(t)) && !StartsWith(FromFirstDoi(t), "http")
  {
    FromFirstDoiSuffix(t);
    var r := FromFirstDoi(t);
    assert r[0] == '1' && r[|r| - 1] == t[|t| - 1];
  }

  /** The identifier is a suffix of the trimmed input: the part from the
      first `10.` when the input starts with `http` and has one, otherwise
      the whole trimmed input. */
  lemma ParseIdentifierSuffix(input: string)
    ensures var t := Trim(input); var r := ParseIdentifier(input);
      |r| <= |t| && r == t[|t| - |r|..] &&
      (StartsWith(input, "http") && Contains(t, "10.") ==>
         StartsWith(r, "10.") && forall i :: 0 <= i < |t| - |r| ==> !OccursAt(t, "10.", i)) &&
      (!(StartsWith(input, "http") && Contains(t, "10.")) ==> r == t)
  {
    FromFirstDoiSuffix(Trim(input));
  }

  /** Trimming a string that does not start with white space cuts only its end. */
  lemma TrimKeepsStart(s: string)
    requires s == [] || !IsSpace(s[0])
    ensures |Trim(s)| <= |s| && Trim(s) == s[..|Trim(s)|]
    ensures forall i :: |Trim(s)| <= i < |s| ==> IsSpace(s[i])
  {
    TrimShape(s);
    assert Lead(s) == 0;
    var tail := s[|Trim(s)|..];
    forall i | |Trim(s)| <= i < |s| ensures IsSpace(s[i]) {
      assert s[i] == tail[i - |Trim(s)|];
    }
  }

  /** Trimming keeps a leading `http` in place. */
  lemma TrimKeepsHttp(s: string)
    requires s == [] || !IsSpace(s[0])
    ensures StartsWith(Trim(s), "http") <==> StartsWith(s, "http")
  {
    var t := Trim(s);
    TrimKeepsStart(s);
    if StartsWith(s, "http") {
      assert s[3] == "http"[3];
      if |t| < 4 {
        assert false;
      }
      assert t[..4] == s[..4];
    }
    if StartsWith(t, "http") {
      assert s[..4] == t[..4];
    }
  }

  /** `parseIdentifier` changes nothing more when applied to its own result,
      for input that does not start with white space. */
  lemma ParseIdentifierIdempotent(input: string)
    requires input == [] || !IsSpace(input[0])
    ensures ParseIdentifier(ParseIdentifier(input)) == ParseIdentifier(input)
  {
    var t := Trim(input);
    TrimShape(input);
    TrimKeepsHttp(input);
    TrimOfTrimmed(t);
    if StartsWith(input, "http") && Contains(t, "10.") {
      var r := FromFirstDoi(t);
      FromFirstDoiTrimmed(t);
      TrimOfTrimmed(r);
    } else if StartsWith(input, "http") {
      FromFirstDoiSuffix(t);
    }
  }

  /** Leading white space before `http` defeats the test: the first call
      only trims, a second call then cuts at `10.` (for instance on
      `" http://x/10.1"`). */
  lemma LeadingSpaceDefeatsHttpTest(t: string)
    requires Trimmed(t) && StartsWith(t, "http") && Contains(t, "10.")
    ensures ParseIdentifier(" " + t) == t
    ensures ParseIdentifier(ParseIdentifier(" " + t)) != ParseIdentifier(" " + t)
  {
    var s := " " + t;
    TrimAfterSpace(t);
    assert !StartsWith(s, "http") by { assert s[0] != "http"[0]; }
    assert ParseIdentifier(s) == t;
    TrimOfTrimmed(t);
    FromFirstDoiSuffix(t);
    var r := FromFirstDoi(t);
    assert r[0] == r[..3][0] == '1';
    assert t[0] == t[..4][0] == 'h';
  }

  /** One space in front of a trimmed string is trimmed away again. */
  lemma TrimAfterSpace(t: string)
    requires Trimmed(t)
    ensures Trim(" " + t) == t
  {
    var s := " " + t;
    assert s[1..] == t;
    if t == [] {
      assert Lead(s) == 1;
    } else {
      assert LeadingSpace(t) == 0 && TrailingSpace(t) == 0;
      assert Lead(s) == 1;
    }
  }

  /** The entry card turns a bare DOI into its resolver URL; the metadata step
      gets the DOI back from that URL. */
  lemma ResolverUrlRoundTrip(raw: string)
    requires DataEntryCard.DoiLike(Trim(raw)) && !StartsWith(Trim(raw), "http")
    ensures ParseIdentifier(DataEntryCard.ProcessInput(raw)) == Trim(raw)
  {
    var t := Trim(raw);
    var u := DataEntryCard.DOI_BASE_URL + t;
    TrimShape(raw);
    DataEntryCard.PrefixedDoiFixed(t);
    assert OccursAt(u, "10.", 16) by {
      assert u[16..19] == t[..3];
    }
    forall i | 0 <= i < 16 ensures !OccursAt(u, "10.", i) {
      assert u[i] != '1';
    }
    IndexOfFirst(u, "10.", 16);
    assert u[16..] == t;
  }

  // ---------------------------------------------------------------------
  // The metadata record

  /** `s.replace(/<[^>]*>/g, '')`: every `<` that has a `>` after it starts a
      tag running to the first such `>`, and each tag is removed. */
  function StripTags(s: string): (r: string)
    ensures |r| <= |s|
    ensures forall i :: 0 <= i < |r| ==> r[i] in s
  {
    if s == [] then []
    else if s[0] == '<' && '>' in s[1..] then
      var j := IndexOf(s[1..], ">");
      ContainsChar(s[1..], '>');
      StripTags(s[1..][j + 1..])
    else [s[0]] + StripTags(s[1..])
  }

  /** No `<` is followed, anywhere later, by a `>`. */
  predicate TagFree(s: string) {
    forall i, j :: 0 <= i < j < |s| && s[i] == '<' ==> s[j] != '>'
  }

  /** What is left after the tags are removed holds no tag. */
  lemma {:induction false} StripTagsTagFree(s: string)
    ensures TagFree(StripTags(s))
    decreases |s|
  {
    if s != [] {
      if s[0] == '<' && '>' in s[1..] {
        var j := IndexOf(s[1..], ">");
        ContainsChar(s[1..], '>');
        StripTagsTagFree(s[1..][j + 1..]);
      } else {
        var rest := StripTags(s[1..]);
        var r := StripTags(s);
        StripTagsTagFree(s[1..]);
        assert r == [s[0]] + rest;
        forall i, j | 0 <= i < j < |r| && r[i] == '<' ensures r[j] != '>' {
          if i == 0 {
            assert r[j] == rest[j - 1] && rest[j - 1] in s[1..];
          } else {
            assert r[i] == rest[i - 1] && r[j] == rest[j - 1];
          }
        }
      }
    }
  }

  /** Text without tags comes through unchanged. */
  lemma {:induction false} StripTagsOfTagFree(s: string)
    requires TagFree(s)
    ensures StripTags(s) == s
    decreases |s|
  {
    if s != [] {
      assert s[0] == '<' ==> forall k :: 0 <= k < |s[1..]| ==> s[1..][k] == s[k + 1] != '>';
      assert TagFree(s[1..]) by {
        forall i, j | 0 <= i < j < |s[1..]| && s[1..][i] == '<' ensures s[1..][j] != '>' {
          assert s[i + 1] == '<';
        }
      }
      StripTagsOfTagFree(s[1..]);
    }
  }

  /** Removing tags twice removes nothing more. */
  lemma StripTagsIdempotent(s: string)
    ensures StripTags(StripTags(s)) == StripTags(s)
  {
    StripTagsTagFree(s);
    StripTagsOfTagFree(StripTags(s));
  }

  /** `v[0]` for the value of `paper.data`. */
  function First(v: Val): Val {
    match v
    case Arr(xs) => if xs == [] then Undef else xs[0]
    case Str(t) => if t == [] then Undef else Str([t[0]])
    case _ => Get(v, "0")
  }

  /** `paper.data[0]?.abstract?.replace(/<[^>]*>/g, '') || null`. */
  function AbstractOf(paper: Val): (r: Result<Val>)
    ensures r.Success? ==> r.value.Null? || (r.value.Str? && r.value.s != [] && TagFree(r.value.s))
  {
    var data := Get(paper, "data");
    if IsNullish(data) then Failure(ReadError(data, "0"))
    else
      var first := First(data);
      var abs := if IsNullish(first) then Undef else Get(first, "abstract");
      if IsNullish(abs) then Success(Null)
      else if !abs.Str? then Failure("paper.data[0]?.abstract?.replace is not a function")
      else
        StripTagsTagFree(abs.s);
        Success(Or(Str(StripTags(abs.s)), Null))
  }

  /** `parseResult.paperAuthors.map(author => author.name)`. */
  function AuthorNames(authors: Val): Result<seq<Val>> {
    if IsNullish(authors) then Failure(ReadError(authors, "map"))
    else if !authors.Arr? then Failure("parseResult.paperAuthors.map is not a function")
    else NamesOf(authors.items)
  }

  function NamesOf(xs: seq<Val>): (r: Result<seq<Val>>)
    ensures r.Success? ==> |r.value| == |xs| && forall i :: 0 <= i < |xs| ==> r.value[i] == Get(xs[i], "name")
    ensures r.Failure? <==> exists i :: 0 <= i < |xs| && IsNullish(xs[i])
  {
    if xs == [] then Success([])
    else if IsNullish(xs[0]) then Failure(ReadError(xs[0], "name"))
    else
      match NamesOf(xs[1..])
      case Failure(e) => Failure(e)
      case Success(rest) =>
        assert forall i :: 1 <= i < |xs| ==> xs[i] == xs[1..][i - 1];
        Success([Get(xs[0], "name")] + rest)
  }

  /** `parseResult.doi?.toLowerCase()`. */
  function LowerDoi(doi: Val): (r: Result<Val>)
    ensures r.Success? && r.value.Str? ==> doi.Str? && r.value.s == ToLower(doi.s)
    ensures r.Success? && !r.value.Str? ==> r.value.Undef? && IsNullish(doi)
  {
    if IsNullish(doi) then Success(Undef)
    else if doi.Str? then Success(Str(ToLower(doi.s)))
    else Failure("parseResult.doi?.toLowerCase is not a function")
  }

  const METADATA_KEYS: seq<string> :=
    ["title", "authors", "abstract", "doi", "url", "publicationDate", "venue", "status"]

  /** The external calls of `handleAnalyze`: the citation lookup of the parsed
      identifier (`Cite.async`), `parseCiteResult`, and the ISO text of
      `new Date(year, month)`. */
  datatype Citations = Citations(
    lookup: string -> Result<Val>,
    parse: Val -> Val,
    dateIso: (Val, Val) -> string)

  /** The object literal of `handleAnalyze`, from the evaluated fields. */
  function Record(parsed: Val, names: seq<Val>, abs: Val, doi: Val, date: Val): (m: Val)
    ensures KeysOf(m) == METADATA_KEYS
    ensures Get(m, "title") == Get(parsed, "paperTitle") && Get(m, "authors") == Arr(names)
    ensures Get(m, "abstract") == abs && Get(m, "doi") == doi && Get(m, "publicationDate") == date
    ensures Get(m, "url") == Get(parsed, "url") && Get(m, "venue") == Get(parsed, "publishedIn")
    ensures Get(m, "status") == Str("success")
  {
    Obj(METADATA_KEYS,
        map["title" := Get(parsed, "paperTitle"),
            "authors" := Arr(names),
            "abstract" := abs,
            "doi" := doi,
            "url" := Get(parsed, "url"),
            "publicationDate" := date,
            "venue" := Get(parsed, "publishedIn"),
            "status" := Str("success")])
  }

  /** `parseResult.paperPublicationYear ? new Date(year, month || 0).toISOString() : null`. */
  function PublicationDate(parsed: Val, dateIso: (Val, Val) -> string): (r: Val)
    ensures r.Null? <==> !Truthy(Get(parsed, "paperPublicationYear"))
  {
    var year := Get(parsed, "paperPublicationYear");
    if Truthy(year) then Str(dateIso(year, Or(Get(parsed, "paperPublicationMonth"), N(0)))) else Null
  }

  /** The metadata record built from a found paper and its parsed citation,
      or the error thrown while building it. The fields are evaluated in the
      order they are written, so the first failing one decides the error. */
  function MetadataFor(paper: Val, parsed: Val, dateIso: (Val, Val) -> string): Result<Val> {
    if IsNullish(parsed) then Failure(ReadError(parsed, "paperTitle"))
    else
      match AuthorNames(Get(parsed, "paperAuthors"))
      case Failure(e) => Failure(e)
      case Success(names) =>
        match AbstractOf(paper)
        case Failure(e) => Failure(e)
        case Success(abs) =>
          match LowerDoi(Get(parsed, "doi"))
          case Failure(e) => Failure(e)
          case Success(doi) => Success(Record(parsed, names, abs, doi, PublicationDate(parsed, dateIso)))
  }

  /** The body of the `try` in `handleAnalyze`: look the identifier up, reject
      a missing paper, then build the record. */
  function Analysis(paperUrl: string, env: Citations): Result<Val> {
    match env.lookup(ParseIdentifier(paperUrl))
    case Failure(e) => Failure(e)
    case Success(paper) =>
      if !Truthy(paper) then Failure("No paper data found")
      else MetadataFor(paper, env.parse(paper), env.dateIso)
  }

  /** A successful record has the eight fields in order, status `success`,
      an abstract that is `null` or tag-free text, a lower-cased DOI, one
      name per author, and a publication date exactly when a year is given. */
  lemma MetadataShape(paper: Val, parsed: Val, dateIso: (Val, Val) -> string)
    requires MetadataFor(paper, parsed, dateIso).Success?
    ensures var m := MetadataFor(paper, parsed, dateIso).value;
      KeysOf(m) == METADATA_KEYS &&
      Get(m, "status") == Str("success") &&
      Get(m, "title") == Get(parsed, "paperTitle") &&
      (Get(m, "abstract").Null? || (Get(m, "abstract").Str? && TagFree(Get(m, "abstract").s))) &&
      (Get(m, "doi").Undef? || (Get(m, "doi").Str? && Get(m, "doi").s == ToLower(Get(parsed, "doi").s))) &&
      |ItemsOf(Get(m, "authors"))| == |ItemsOf(Get(parsed, "paperAuthors"))| &&
      (Get(m, "publicationDate").Null? <==> !Truthy(Get(parsed, "paperPublicationYear")))
  {
    var names := AuthorNames(Get(parsed, "paperAuthors")).value;
    var abs := AbstractOf(paper).value;
    var doi := LowerDoi(Get(parsed, "doi")).value;
    assert MetadataFor(paper, parsed, dateIso).value == Record(parsed, names, abs, doi, PublicationDate(parsed, dateIso));
  }

  // ---------------------------------------------------------------------
  // handleAnalyze

  const BLANK_MESSAGE: string := "Please enter a paper URL or DOI"
  const DEFAULT_FAILURE: string := "Failed to analyze paper"

  /** `err.message || 'Failed to analyze paper'`; an error without a message
      is a failure with the empty message. */
  function FailureText(message: string): string {
    if message == "" then DEFAULT_FAILURE else message
  }

  /** The record passed to `trackEvaluation` after a success. */
  function SuccessRecord(m: Val, timestamp: string): Val {
    Obj(["metadata", "timestamp", "step", "status"],
        map["metadata" := m, "timestamp" := Str(timestamp), "step" := Str("metadata"), "status" := Str("completed")])
  }

  /** The record passed to `trackEvaluation` after a failure. */
  function ErrorRecord(message: string, timestamp: string): Val {
    Obj(["error", "timestamp", "step", "status"],
        map["error" := Str(message), "timestamp" := Str(timestamp), "step" := Str("metadata"), "status" := Str("error")])
  }

  /** The action that tracking the metadata step dispatches; the step is a
      required one and the record is an object, so there always is one. */
  function Track(data: Val): (a: Action)
    requires data.Obj?
    ensures TrackEvaluation("metadata", data) == Some(a)
  {
    assert "metadata" == REQUIRED_STEPS[0];
    UpdateEvaluationData(EvaluationEntry("metadata", data))
  }

  /** The actions dispatched once the lookup has ended. */
  function OutcomeActions(outcome: Result<Val>, timestamp: string): seq<Action> {
    match outcome
    case Success(m) =>
      [SetMetadata(m), CompleteStep(Str("metadata")), Track(SuccessRecord(m, timestamp))]
    case Failure(e) =>
      [SetError(Str(FailureText(e))), SetMetadataStatus(Str("error")),
       Track(ErrorRecord(FailureText(e), timestamp))]
  }

  /** Every action `handleAnalyze` dispatches, in order. */
  function AnalyzeActions(paperUrl: string, env: Citations, timestamp: string): seq<Action> {
    if Trim(paperUrl) == [] then [SetError(Str(BLANK_MESSAGE))]
    else [SetMetadataStatus(Str("processing")), SetError(Null)] + OutcomeActions(Analysis(paperUrl, env), timestamp)
  }

  /** `handleAnalyze`, returning what it dispatches. */
  method HandleAnalyze(paperUrl: string, env: Citations, timestamp: string) returns (dispatched: seq<Action>)
    ensures dispatched == AnalyzeActions(paperUrl, env, timestamp)
  {
    if Trim(paperUrl) == [] {
      dispatched := [SetError(Str(BLANK_MESSAGE))];
      return;
    }
    dispatched := [SetMetadataStatus(Str("processing")), SetError(Null)];
    var outcome: Result<Val>;
    var paper := env.lookup(ParseIdentifier(paperUrl));
    if paper.Failure? {
      outcome := Failure(paper.error);
    } else if !Truthy(paper.value) {
      outcome := Failure("No paper data found");
    } else {
      outcome := MetadataFor(paper.value, env.parse(paper.value), env.dateIso);
    }
    assert outcome == Analysis(paperUrl, env);
    if outcome.Success? {
      var metadata := outcome.value;
      dispatched := dispatched + [SetMetadata(metadata), CompleteStep(Str("metadata")),
                                  Track(SuccessRecord(metadata, timestamp))];
    } else {
      var message := FailureText(outcome.error);
      dispatched := dispatched + [SetError(Str(message)), SetMetadataStatus(Str("error")),
                                  Track(ErrorRecord(message, timestamp))];
    }
  }

  /** `isProcessing` as handed to the entry card. */
  predicate IsProcessing(s: State) {
    Get(s.metadata, "status") == Str("processing")
  }

  /** A blank input dispatches only the error: the metadata, its status and
      the completion flags stay as they were. */
  lemma BlankInputOnlySetsError(s: State, paperUrl: string, env: Citations, timestamp: string, now: int, iso: string)
    requires Trim(paperUrl) == []
    ensures AnalyzeActions(paperUrl, env, timestamp) == [SetError(Str(BLANK_MESSAGE))]
    ensures var r := Run(s, AnalyzeActions(paperUrl, env, timestamp), now, iso);
      r.error == Str(BLANK_MESSAGE) && r.metadata == s.metadata && r.completedSteps == s.completedSteps
  {
    var acts := AnalyzeActions(paperUrl, env, timestamp);
    DispatchSetError(s, acts[0], now, iso);
    assert Run(s, acts, now, iso) == Run(Reduce(s, acts[0], now, iso), [], now, iso);
  }

  /** The first dispatch of a non-blank analysis marks the metadata as
      processing, which disables the Analyze button. */
  lemma AnalyzeStartsProcessing(s: State, paperUrl: string, env: Citations, timestamp: string, now: int, iso: string)
    requires Trim(paperUrl) != []
    ensures var s1 := Reduce(s, AnalyzeActions(paperUrl, env, timestamp)[0], now, iso);
      IsProcessing(s1) && !DataEntryCard.SubmitEnabled(IsProcessing(s1), true)
  {
    DispatchSetMetadataStatus(s, AnalyzeActions(paperUrl, env, timestamp)[0], now, iso);
  }

  /** The two dispatches every non-blank analysis starts with. */
  lemma AnalyzePrefix(s: State, paperUrl: string, env: Citations, timestamp: string, now: int, iso: string)
    requires Trim(paperUrl) != []
    ensures var acts := AnalyzeActions(paperUrl, env, timestamp);
      var s2 := s.(metadata := With(s.metadata, "status", Str("processing")), error := Null);
      Run(s, acts, now, iso) == Run(s2, OutcomeActions(Analysis(paperUrl, env), timestamp), now, iso)
  {
    var tail := OutcomeActions(Analysis(paperUrl, env), timestamp);
    var a0, a1 := SetMetadataStatus(Str("processing")), SetError(Null);
    var s1 := s.(metadata := With(s.metadata, "status", Str("processing")));
    assert AnalyzeActions(paperUrl, env, timestamp) == [a0, a1] + tail;
    RunAppend(s, [a0, a1], tail, now, iso);
    RunTwo(s, a0, a1, now, iso);
    DispatchSetMetadataStatus(s, a0, now, iso);
    DispatchSetError(s1, a1, now, iso);
  }

  /** The state the three dispatches after a successful lookup lead to. */
  function AfterSuccess(s: State, m: Val, timestamp: string, iso: string): State {
    var s1 := s.(metadata := With(Spread(s.metadata, m), "status", Str("success")));
    var s2 := s1.(completedSteps := With(s1.completedSteps, "metadata", Bool(true)));
    OnUpdateEvaluationData(s2, EvaluationEntry("metadata", SuccessRecord(m, timestamp)), iso)
  }

  /** The state the three dispatches after a failed lookup lead to. */
  function AfterFailure(s: State, message: string, timestamp: string, iso: string): State {
    var s1 := s.(error := Str(message));
    var s2 := s1.(metadata := With(s1.metadata, "status", Str("error")));
    OnUpdateEvaluationData(s2, EvaluationEntry("metadata", ErrorRecord(message, timestamp)), iso)
  }

  lemma SuccessRun(s: State, m: Val, timestamp: string, now: int, iso: string)
    ensures Run(s, OutcomeActions(Success(m), timestamp), now, iso) == AfterSuccess(s, m, timestamp, iso)
  {
    var s1 := s.(metadata := With(Spread(s.metadata, m), "status", Str("success")));
    var s2 := s1.(completedSteps := With(s1.completedSteps, "metadata", Bool(true)));
    var p := EvaluationEntry("metadata", SuccessRecord(m, timestamp));
    var a0, a1, a2 := SetMetadata(m), CompleteStep(Str("metadata")), UpdateEvaluationData(p);
    assert OutcomeActions(Success(m), timestamp) == [a0, a1, a2];
    RunThree(s, a0, a1, a2, now, iso);
    DispatchSetMetadata(s, a0, now, iso);
    DispatchCompleteStep(s1, a1, now, iso);
    DispatchUpdateEvaluationData(s2, a2, now, iso);
  }

  lemma FailureRun(s: State, e: string, timestamp: string, now: int, iso: string)
    ensures Run(s, OutcomeActions(Failure(e), timestamp), now, iso) == AfterFailure(s, FailureText(e), timestamp, iso)
  {
    var message := FailureText(e);
    var s1 := s.(error := Str(message));
    var s2 := s1.(metadata := With(s1.metadata, "status", Str("error")));
    var p := EvaluationEntry("metadata", ErrorRecord(message, timestamp));
    var a0, a1, a2 := SetError(Str(message)), SetMetadataStatus(Str("error")), UpdateEvaluationData(p);
    assert OutcomeActions(Failure(e), timestamp) == [a0, a1, a2];
    RunThree(s, a0, a1, a2, now, iso);
    DispatchSetError(s, a0, now, iso);
    DispatchSetMetadataStatus(s1, a1, now, iso);
    DispatchUpdateEvaluationData(s2, a2, now, iso);
  }

  /** After a success: status `success`, the record's fields written over the
      old metadata, the step completed, and the success record tracked. */
  lemma AfterSuccessFacts(s: State, m: Val, timestamp: string, iso: string)
    ensures var r := AfterSuccess(s, m, timestamp, iso);
      Get(r.metadata, "status") == Str("success") &&
      (forall k :: k != "status" ==> Get(r.metadata, k) == if Has(m, k) then Get(m, k) else Get(s.metadata, k)) &&
      Get(r.completedSteps, "metadata") == Bool(true) && r.error == s.error &&
      Get(r.evaluationData, "metadata") == SuccessRecord(m, timestamp) &&
      Get(Marks(r), "metadata") == Bool(true)
  {
    var s1 := s.(metadata := With(Spread(s.metadata, m), "status", Str("success")));
    var s2 := s1.(completedSteps := With(s1.completedSteps, "metadata", Bool(true)));
    assert "metadata" == REQUIRED_STEPS[0];
    UpdateEvaluationDataMarks(s2, EvaluationEntry("metadata", SuccessRecord(m, timestamp)), iso);
  }

  /** After a failure: the message, status `error`, the other fields and the
      completion flags untouched, and the failure tracked. */
  lemma AfterFailureFacts(s: State, message: string, timestamp: string, iso: string)
    ensures var r := AfterFailure(s, message, timestamp, iso);
      r.error == Str(message) &&
      Get(r.metadata, "status") == Str("error") &&
      (forall k :: k != "status" ==> Get(r.metadata, k) == Get(s.metadata, k)) &&
      r.completedSteps == s.completedSteps &&
      Get(r.evaluationData, "metadata") == ErrorRecord(message, timestamp) &&
      Get(Marks(r), "metadata") == Bool(true)
  {
    var s1 := s.(error := Str(message));
    var s2 := s1.(metadata := With(s1.metadata, "status", Str("error")));
    assert "metadata" == REQUIRED_STEPS[0];
    UpdateEvaluationDataMarks(s2, EvaluationEntry("metadata", ErrorRecord(message, timestamp)), iso);
  }

  /** A successful lookup ends with status `success`, the record's fields
      written over the old metadata, the metadata step completed, no error,
      and the success record tracked for the step. */
  lemma AnalyzeSucceeds(s: State, paperUrl: string, env: Citations, timestamp: string, now: int, iso: string)
    requires Trim(paperUrl) != [] && Analysis(paperUrl, env).Success?
    ensures var m := Analysis(paperUrl, env).value;
      var r := Run(s, AnalyzeActions(paperUrl, env, timestamp), now, iso);
      Get(r.metadata, "status") == Str("success") && !IsProcessing(r) &&
      (forall k :: k != "status" ==> Get(r.metadata, k) == if Has(m, k) then Get(m, k) else Get(s.metadata, k)) &&
      Get(r.completedSteps, "metadata") == Bool(true) && r.error == Null &&
      Get(r.evaluationData, "metadata") == SuccessRecord(m, timestamp) &&
      Get(Marks(r), "metadata") == Bool(true)
  {
    var s2 := s.(metadata := With(s.metadata, "status", Str("processing")), error := Null);
    AnalyzePrefix(s, paperUrl, env, timestamp, now, iso);
    SuccessRun(s2, Analysis(paperUrl, env).value, timestamp, now, iso);
    AfterSuccessFacts(s2, Analysis(paperUrl, env).value, timestamp, iso);
  }

  /** A failed lookup ends with the error message (or the default one),
      status `error`, every other metadata field and every completion flag
      as before, and the failure tracked for the step, which marks it in the
      evaluation record all the same. */
  lemma AnalyzeFails(s: State, paperUrl: string, env: Citations, timestamp: string, now: int, iso: string)
    requires Trim(paperUrl) != [] && Analysis(paperUrl, env).Failure?
    ensures var message := FailureText(Analysis(paperUrl, env).error);
      var r := Run(s, AnalyzeActions(paperUrl, env, timestamp), now, iso);
      r.error == Str(message) && message != "" &&
      Get(r.metadata, "status") == Str("error") && !IsProcessing(r) &&
      (forall k :: k != "status" ==> Get(r.metadata, k) == Get(s.metadata, k)) &&
      r.completedSteps == s.completedSteps &&
      Get(r.evaluationData, "metadata") == ErrorRecord(message, timestamp) &&
      Get(Marks(r), "metadata") == Bool(true)
  {
    var s2 := s.(metadata := With(s.metadata, "status", Str("processing")), error := Null);
    AnalyzePrefix(s, paperUrl, env, timestamp, now, iso);
    FailureRun(s2, Analysis(paperUrl, env).error, timestamp, now, iso);
    AfterFailureFacts(s2, FailureText(Analysis(paperUrl, env).error), timestamp, iso);
  }
}
