/** The research-field step of the wizard: the fields classified for the
    paper (or a fixed fallback list when classification fails), the field
    of highest score selected by default, and the user's own selection. */
module ResearchFieldSection {
  import opened Wrappers
  import opened JsValue
  import opened AnalysisContext

  /** A list of records: what `reduce` and `find` read properties of. */
  predicate Records(items: seq<Val>) {
    forall j :: 0 <= j < |items| ==> items[j].Obj?
  }

  // ---- the highest score, the earliest on ties ----

  /** The position `reduce` ends at over the first `n` items when a later
      item replaces the current one only when its `key` is greater. */
  function TopIndex(items: seq<Val>, key: string, n: nat): (t: nat)
    requires 1 <= n <= |items|
    ensures t < n
  {
    if n == 1 then 0
    else
      var p := TopIndex(items, key, n - 1);
      if Gt(Get(items[n - 1], key), Get(items[p], key)) then n - 1 else p
  }

  /** `items.reduce((prev, current) => current[key] > prev[key] ? current : prev)`
      behind a guard that answers `null` for a missing or empty list. */
  function TopBy(items: Val, key: string): (r: Val)
    requires IsNullish(items) || (items.Arr? && Records(items.items))
    ensures r == Null <==> IsNullish(items) || |items.items| == 0
    ensures r != Null ==> r == items.items[TopIndex(items.items, key, |items.items|)]
  {
    if IsNullish(items) || |items.items| == 0 then Null
    else items.items[TopIndex(items.items, key, |items.items|)]
  }

  /** With numeric scores the item chosen has the highest score, and every
      item before it a strictly lower one: the first maximum. */
  lemma {:induction false} TopIsFirstMax(items: seq<Val>, key: string, n: nat)
    requires 1 <= n <= |items|
    requires forall j :: 0 <= j < n ==> Get(items[j], key).Num?
    ensures var t := TopIndex(items, key, n);
      (forall j :: 0 <= j < n ==> Get(items[j], key).n <= Get(items[t], key).n) &&
      (forall j :: 0 <= j < t ==> Get(items[j], key).n < Get(items[t], key).n)
  {
    if n > 1 {
      TopIsFirstMax(items, key, n - 1);
      var p := TopIndex(items, key, n - 1);
      assert TopIndex(items, key, n) == if Get(items[n - 1], key).n > Get(items[p], key).n then n - 1 else p;
    }
  }

  /** With strictly falling numeric values the first item stays on top. */
  lemma {:induction false} DescendingTopIsFirst(items: seq<Val>, key: string, n: nat)
    requires 1 <= n <= |items|
    requires forall j :: 0 <= j < n ==> Get(items[j], key).Num?
    requires forall i, j :: 0 <= i < j < n ==> Get(items[i], key).n > Get(items[j], key).n
    ensures TopIndex(items, key, n) == 0
  {
    if n > 1 {
      DescendingTopIsFirst(items, key, n - 1);
      assert !Gt(Get(items[n - 1], key), Get(items[0], key));
    }
  }

  /** `findTopConfidenceField`. */
  function FindTopConfidenceField(fields: Val): (r: Val)
    requires IsNullish(fields) || (fields.Arr? && Records(fields.items))
    ensures r == Null <==> IsNullish(fields) || |fields.items| == 0
    ensures r != Null ==> r in fields.items
  {
    TopBy(fields, "score")
  }

  /** The field found has the highest score; an earlier field with the same
      score wins. */
  lemma TopFieldIsFirstMax(fields: seq<Val>, j: nat)
    requires |fields| > 0 && Records(fields)
    requires forall k :: 0 <= k < |fields| ==> Get(fields[k], "score").Num?
    requires j < |fields|
    ensures var top := Get(FindTopConfidenceField(Arr(fields)), "score").n;
      Get(fields[j], "score").n <= top &&
      (Get(fields[j], "score").n == top ==> TopIndex(fields, "score", |fields|) <= j)
  {
    TopIsFirstMax(fields, "score", |fields|);
  }

  // ---- the fallback list ----

  function Field(id: string, name: string, description: string, score: real): Val {
    Obj(["id", "name", "description", "score"],
        map["id" := Str(id), "name" := Str(name), "description" := Str(description), "score" := Num(score)])
  }

  const FALLBACK_IDS: seq<string> := ["R112118", "R136139", "R112125", "R136131", "R208"]

  const FALLBACK_NAMES: seq<string> := [
    "Computer Vision and Pattern Recognition",
    "Radiology, Nuclear Medicine, Radiotherapy, Radiobiology",
    "Machine Learning",
    "Medical Microbiology and Mycology, Hygiene, Molecular Infection Biology",
    "Bioimaging and biomedical optics"]

  const FALLBACK_DESCRIPTIONS: seq<string> := [
    "The field focused on enabling computers to gain high-level understanding from digital images or videos, and to identify and recognize patterns.",
    "The medical specialty that uses medical imaging to diagnose and treat diseases within the bodies of humans and animals.",
    "The study of algorithms and statistical models that computer systems use to perform tasks without explicit instructions, often by recognizing patterns in data.",
    "The study of microorganisms and their role in human health and disease, including virology and infectious disease diagnosis.",
    "The development and application of imaging technologies for the acquisition of structural and functional information in biological and medical systems."]

  const FALLBACK_SCORES: seq<real> := [9.0, 8.5, 8.0, 7.5, 7.0]

  /** `getFallbackResearchFields`: the five fields, column by column. */
  function FallbackResearchFields(): (fs: seq<Val>)
    ensures |fs| == 5 && Records(fs)
    ensures forall i :: 0 <= i < 5 ==>
      Get(fs[i], "id") == Str(FALLBACK_IDS[i]) && Get(fs[i], "score") == Num(FALLBACK_SCORES[i])
  {
    seq(5, i requires 0 <= i < 5 =>
      Field(FALLBACK_IDS[i], FALLBACK_NAMES[i], FALLBACK_DESCRIPTIONS[i], FALLBACK_SCORES[i]))
  }

  lemma FallbackIdsDistinct()
    ensures forall i, j :: 0 <= i < j < 5 ==> FALLBACK_IDS[i] != FALLBACK_IDS[j]
  {
    var ids := FALLBACK_IDS;
    assert ids[0][1] == '1' && ids[1][1] == '1' && ids[2][1] == '1' && ids[3][1] == '1' && ids[4][1] == '2';
    assert ids[0][2] == '1' && ids[2][2] == '1' && ids[1][2] == '3' && ids[3][2] == '3';
    assert ids[0][6] == '8' && ids[2][6] == '5' && ids[1][6] == '9' && ids[3][6] == '1';
  }

  /** Five fields with distinct ids and scores falling strictly from 9 to 7;
      with `DescendingTopIsFirst`, the first is the default selection. */
  lemma FallbackFieldsShape()
    ensures var fs := FallbackResearchFields();
      (forall i, j :: 0 <= i < j < |fs| ==> Get(fs[i], "id") != Get(fs[j], "id")) &&
      (forall i, j :: 0 <= i < j < |fs| ==> Get(fs[i], "score").n > Get(fs[j], "score").n) &&
      Get(fs[0], "score") == Num(9.0) && Get(fs[4], "score") == Num(7.0)
  {
    FallbackIdsDistinct();
  }

  // ---- the transformation of classified fields ----

  /** One classified annotation as a field: the id found for its label,
      else the label itself; no description. */
  function TransformField(annotation: Val, links: Val): Val {
    var fieldName := Get(annotation, "research_field");
    Obj(["id", "name", "score", "description"],
        map["id" := Or(Get(links, ToKey(fieldName)), fieldName), "name" := fieldName,
            "score" := Get(annotation, "score"), "description" := Str("")])
  }

  /** The fields of the classification, one per annotation, in order.
      `links` maps a label to the resource id looked up for it. */
  function TransformFields(annotations: seq<Val>, links: Val): (r: seq<Val>)
    ensures |r| == |annotations| && Records(r)
    ensures forall j :: 0 <= j < |r| ==>
      var fieldName := Get(annotations[j], "research_field");
      Get(r[j], "name") == fieldName && Get(r[j], "score") == Get(annotations[j], "score") &&
      Get(r[j], "description") == Str("") &&
      Get(r[j], "id") == (if Truthy(Get(links, ToKey(fieldName))) then Get(links, ToKey(fieldName)) else fieldName)
  {
    seq(|annotations|, j requires 0 <= j < |annotations| => TransformField(annotations[j], links))
  }

  /** The status reported once the fields are known. */
  function FieldsStatus(message: string, iso: string): Val {
    Obj(["status", "step", "progress", "message", "timestamp"],
        map["status" := Str("completed"), "step" := Str("researchFields"), "progress" := N(100),
            "message" := Str(message), "timestamp" := Str(iso)])
  }

  const CLASSIFIED_MESSAGE := "Research fields identified successfully"
  const FALLBACK_MESSAGE := "Using fallback research fields due to API failure"

  /** `handleAnalysis`, called in automatic mode, is not defined in the
      component, so the effect stops with this error there. */
  const HANDLE_ANALYSIS_MISSING := "handleAnalysis is not defined"

  /** The research-field step's own state. */
  class ResearchFieldView {
    var selectedFieldId: Val
    var usingFallback: bool

    constructor ()
      ensures selectedFieldId == Null && !usingFallback
    {
      selectedFieldId := Null;
      usingFallback := false;
    }

    /** `analyzeResearchFields`, run when the paper has a title or an
        abstract. `annotations` is the classification, `None` when it
        failed; then the fallback list is used. */
    method AnalyzeResearchFields(metadata: Val, annotations: Option<seq<Val>>, links: Val, iso: string)
      returns (dispatched: seq<Action>)
      modifies this
      ensures !Truthy(Get(metadata, "title")) && !Truthy(Get(metadata, "abstract")) ==>
        dispatched == [] && usingFallback == old(usingFallback)
      ensures (Truthy(Get(metadata, "title")) || Truthy(Get(metadata, "abstract"))) && annotations.Some? ==>
        !usingFallback &&
        dispatched == [SetResearchFields(Arr(TransformFields(annotations.value, links))),
                       SetResearchFieldsStatus(FieldsStatus(CLASSIFIED_MESSAGE, iso))]
      ensures (Truthy(Get(metadata, "title")) || Truthy(Get(metadata, "abstract"))) && annotations.None? ==>
        usingFallback &&
        dispatched == [SetResearchFields(Arr(FallbackResearchFields())),
                       SetResearchFieldsStatus(FieldsStatus(FALLBACK_MESSAGE, iso))]
      ensures selectedFieldId == old(selectedFieldId)
    {
      if !Truthy(Get(metadata, "title")) && !Truthy(Get(metadata, "abstract")) {
        return [];
      }
      match annotations
      case Some(found) =>
        var fields := TransformFields(found, links);
        dispatched := [SetResearchFields(Arr(fields)), SetResearchFieldsStatus(FieldsStatus(CLASSIFIED_MESSAGE, iso))];
        usingFallback := false;
      case None =>
        dispatched := [SetResearchFields(Arr(FallbackResearchFields())),
                       SetResearchFieldsStatus(FieldsStatus(FALLBACK_MESSAGE, iso))];
        usingFallback := true;
    }

    /** The effect selecting the field of highest score whenever the fields
        change: nothing for no fields; otherwise the top field is selected
        and, in automatic mode, the effect then fails on the missing
        `handleAnalysis`. */
    method SelectTopField(fields: Val, analysisMode: Val) returns (dispatched: seq<Action>, error: Option<string>)
      requires IsNullish(fields) || (fields.Arr? && Records(fields.items))
      modifies this
      ensures IsNullish(fields) || |fields.items| == 0 ==>
        dispatched == [] && error.None? && selectedFieldId == old(selectedFieldId)
      ensures !IsNullish(fields) && |fields.items| > 0 ==>
        var top := FindTopConfidenceField(fields);
        selectedFieldId == Get(top, "id") && dispatched == [SelectResearchField(top)] &&
        (error.Some? <==> analysisMode == Str("automatic")) &&
        (error.Some? ==> error.value == HANDLE_ANALYSIS_MISSING)
      ensures usingFallback == old(usingFallback)
    {
      dispatched, error := [], None;
      if IsNullish(fields) || |fields.items| == 0 {
        return;
      }
      var top := FindTopConfidenceField(fields);
      selectedFieldId := Get(top, "id");
      dispatched := [SelectResearchField(top)];
      if analysisMode == Str("automatic") {
        error := Some(HANDLE_ANALYSIS_MISSING);
      }
    }

    /** `handleFieldSelection`: the first field whose id is the chosen
        value becomes the selection; an unknown value changes nothing. */
    method HandleFieldSelection(fields: seq<Val>, value: string) returns (dispatched: seq<Action>)
      modifies this
      ensures FirstWithId(fields, Str(value)).None? ==>
        dispatched == [] && selectedFieldId == old(selectedFieldId)
      ensures FirstWithId(fields, Str(value)).Some? ==>
        var selected := fields[FirstWithId(fields, Str(value)).value];
        Get(selected, "id") == Str(value) &&
        selectedFieldId == Str(value) && dispatched == [SelectResearchField(selected)]
      ensures usingFallback == old(usingFallback)
    {
      match FirstWithId(fields, Str(value))
      case None =>
        dispatched := [];
      case Some(j) =>
        selectedFieldId := Get(fields[j], "id");
        dispatched := [SelectResearchField(fields[j])];
    }

    /** `getBorderColorClass`: only the selected field has a border, green
        when ten times its score reaches 50. */
    function BorderColorClass(field: Val): (c: string)
      reads this
      ensures Get(field, "id") != selectedFieldId ==> c == ""
      ensures Get(field, "id") == selectedFieldId ==>
        (c == "border-success" <==> ScaledAtLeastHalf(Get(field, "score"))) &&
        (c == "border-warning" <==> !ScaledAtLeastHalf(Get(field, "score")))
    {
      if Get(field, "id") == selectedFieldId then
        (if ScaledAtLeastHalf(Get(field, "score")) then "border-success" else "border-warning")
      else ""
    }
  }

  /** `score * 10 >= 50`, the product of a value that is not a number
      being NaN. */
  predicate ScaledAtLeastHalf(score: Val) {
    var x := ToNumber(score);
    x.Some? && x.value * 10.0 >= 50.0
  }

  /** For a numeric score the rule is a score of at least 5; a score that
      is not a number never reaches it. */
  lemma ScaledAtLeastHalfIff(score: Val)
    ensures score.Num? ==> (ScaledAtLeastHalf(score) <==> score.n >= 5.0)
    ensures ToNumber(score).None? ==> !ScaledAtLeastHalf(score)
  {
  }

  /** `items.find(item => item.id === id)`, as a position. */
  function FirstWithId(items: seq<Val>, id: Val): (r: Option<nat>)
    ensures r.Some? ==>
      r.value < |items| && Get(items[r.value], "id") == id &&
      forall j :: 0 <= j < r.value ==> Get(items[j], "id") != id
    ensures r.None? <==> forall j :: 0 <= j < |items| ==> Get(items[j], "id") != id
  {
    if items == [] then None
    else if Get(items[0], "id") == id then Some(0)
    else match FirstWithId(items[1..], id)
      case None => None
      case Some(j) => Some(j + 1)
  }
}
