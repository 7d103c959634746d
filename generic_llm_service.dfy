/** The post-processing of language-model answers and the retry rules around
    them (`GenericLLMService`). The language model, the regular expressions
    that find resource names and the random ids are parameters: together
    they are the environment `Env`. */
module GenericLlmService {
  import opened Wrappers
  import opened JsString
  import opened JsValue

  const MAX_RETRIES: nat := 5
  const PROPERTY_DELAY: nat := 10

  // ---------------------------------------------------------------------
  // createTextFingerprint

  /** `createTextFingerprint(text)`: the sum of the character codes. */
  function TextFingerprint(text: string): nat {
    if text == [] then 0 else text[0] as int + TextFingerprint(text[1..])
  }

  /** The fingerprint of a concatenation is the sum of the fingerprints. */
  lemma {:induction false} FingerprintAppend(a: string, b: string)
    ensures TextFingerprint(a + b) == TextFingerprint(a) + TextFingerprint(b)
  {
    if a != [] {
      assert (a + b)[0] == a[0];
      assert (a + b)[1..] == a[1..] + b;
      FingerprintAppend(a[1..], b);
    } else {
      assert a + b == b;
    }
  }

  /** The fingerprint ignores order: swapping two halves of a text keeps it. */
  lemma FingerprintIgnoresOrder(a: string, b: string)
    ensures TextFingerprint(a + b) == TextFingerprint(b + a)
  {
    FingerprintAppend(a, b);
    FingerprintAppend(b, a);
  }

  // ---------------------------------------------------------------------
  // generateErrorResponse and validateResponse

  /** `generateErrorResponse(property, error)`: `error` is the message of the
      error passed, `None` for none, and `id` the random part of the value id. */
  function ErrorResponse(property: Val, error: Option<string>, id: string): (r: Val)
    ensures Get(r, "property") == Get(property, "label") && Get(r, "type") == Get(property, "type")
    ensures Get(r, "error") == Str(if error.Some? then error.value else "Unknown error occurred")
    ensures var vs := ItemsOf(Get(r, "values"));
      |vs| == 1 && Get(vs[0], "value") == Str("") && Get(vs[0], "confidence") == N(0)
  {
    var lbl := Get(property, "label");
    var ty := Get(property, "type");
    Obj(["property", "label", "type", "metadata", "values", "error"],
        map["property" := lbl, "label" := lbl, "type" := ty,
            "metadata" := Obj(["property_type", "extraction_method", "source", "error"],
                              map["property_type" := ty, "extraction_method" := Str("error"),
                                  "source" := Str("error"),
                                  "error" := if error.Some? then Str(error.value) else Undef]),
            "values" := Arr([Obj(["value", "confidence", "evidence", "id"],
                                 map["value" := Str(""), "confidence" := N(0), "evidence" := EMPTY,
                                     "id" := Str("val-error-" + id)])]),
            "error" := Str(if error.Some? then error.value else "Unknown error occurred")])
  }

  /** What `validateResponse` demands of one entry of `values`. */
  predicate EntryValid(e: Val) {
    Has(e, "value") && Has(e, "confidence") && Has(e, "evidence") &&
    Get(e, "confidence").Num? && 0.0 <= Get(e, "confidence").n <= 1.0 &&
    Truthy(Get(e, "evidence")) && TypeOf(Get(e, "evidence")) == "object"
  }

  /** What `validateResponse` demands of a response. */
  predicate ResponseValid(v: Val) {
    v.Obj? && Has(v, "property") && Get(v, "values").Arr? &&
    forall i :: 0 <= i < |Get(v, "values").items| ==> EntryValid(Get(v, "values").items[i])
  }

  /** The loop over the entries: the first entry that fails a check throws. */
  function CheckEntries(xs: seq<Val>): (r: Result<bool>)
    ensures r.Success? <==> forall i :: 0 <= i < |xs| ==> EntryValid(xs[i])
  {
    if xs == [] then Success(true)
    else
      var e := xs[0];
      var c := Get(e, "confidence");
      var ev := Get(e, "evidence");
      if !(e.Obj? || e.Arr?) then
        Failure("Cannot use 'in' operator to search for 'value' in " + ToStr(e))
      else if !(Has(e, "value") && Has(e, "confidence") && Has(e, "evidence")) then
        Failure("Invalid value entry format: missing required fields")
      else if !c.Num? || c.n < 0.0 || c.n > 1.0 then
        Failure("Invalid confidence value: " + ToStr(c) + ". Must be between 0 and 1.")
      else if !Truthy(ev) || TypeOf(ev) != "object" then
        Failure("Invalid evidence format in value entry")
      else
        var rest := CheckEntries(xs[1..]);
        assert forall i :: 1 <= i < |xs| ==> xs[i] == xs[1..][i - 1];
        rest
  }

  /** `validateResponse(response)`: `Success(true)` exactly for a valid
      response, otherwise the message of the first check that fails. */
  function ValidateResponse(v: Val): (r: Result<bool>)
    ensures r.Success? <==> ResponseValid(v)
  {
    if !Truthy(v) || TypeOf(v) != "object" then Failure("Invalid response format: not an object")
    else if !Has(v, "property") || !Get(v, "values").Arr? then
      Failure("Invalid response format: missing \"property\" or \"values\" array")
    else CheckEntries(Get(v, "values").items)
  }

  /** An error response always passes `validateResponse`. */
  lemma ErrorResponseValid(property: Val, error: Option<string>, id: string)
    ensures ResponseValid(ErrorResponse(property, error, id))
  {
    var r := ErrorResponse(property, error, id);
    assert EntryValid(Get(r, "values").items[0]);
  }

  // ---------------------------------------------------------------------
  // validateCrossSectionConsistency

  /** `p.section || 'unknown'`. */
  function SectionOf(p: Val): Val {
    Or(Get(p, "section"), Str("unknown"))
  }

  /** `new Set(sectionsInvolved)`. */
  function SectionSet(ps: seq<Val>): set<Val> {
    set i | 0 <= i < |ps| :: SectionOf(ps[i])
  }

  /** `validateCrossSectionConsistency(value, sections)`. The provenance list
      is `value.provenance || []`; reading `section` of a null entry throws. */
  function CrossSectionConsistency(value: Val, sections: Val): (r: Result<Val>)
    ensures r.Success? <==>
      Or(Get(value, "provenance"), Arr([])).Arr? &&
      forall i :: 0 <= i < |Or(Get(value, "provenance"), Arr([])).items| ==>
        !IsNullish(Or(Get(value, "provenance"), Arr([])).items[i])
  {
    var prov := Or(Get(value, "provenance"), Arr([]));
    if !prov.Arr? then Failure("(value.provenance || []).map is not a function")
    else if exists i :: 0 <= i < |prov.items| && IsNullish(prov.items[i]) then
      Failure("Cannot read properties of null (reading 'section')")
    else
      var ps := prov.items;
      Success(Obj(["cross_section_consistency", "data_completeness"],
                  map["cross_section_consistency" := Str(if |SectionSet(ps)| > 1 then "yes" else "no"),
                      "data_completeness" :=
                        Str(if |ps| == KeyCount(Or(sections, EMPTY)) then "high" else "medium")]))
  }

  lemma SubsetCard<T>(a: set<T>, b: set<T>)
    requires a <= b
    ensures |a| <= |b|
  {
    assert b == a + (b - a);
  }

  /** The set has more than one element exactly when two entries name
      different sections. */
  lemma SectionSetSize(ps: seq<Val>)
    ensures |SectionSet(ps)| > 1 <==>
      exists i, j :: 0 <= i < |ps| && 0 <= j < |ps| && SectionOf(ps[i]) != SectionOf(ps[j])
  {
    var s := SectionSet(ps);
    if exists i, j :: 0 <= i < |ps| && 0 <= j < |ps| && SectionOf(ps[i]) != SectionOf(ps[j]) {
      var i, j :| 0 <= i < |ps| && 0 <= j < |ps| && SectionOf(ps[i]) != SectionOf(ps[j]);
      var two := {SectionOf(ps[i]), SectionOf(ps[j])};
      assert |two| == 2;
      SubsetCard(two, s);
    } else if ps != [] {
      SubsetCard(s, {SectionOf(ps[0])});
    } else {
      assert s == {};
    }
  }

  /** The provenance spans several sections exactly when two of its entries
      name different sections, and the data is complete exactly when there is
      one provenance entry per section of the paper. */
  lemma CrossSectionRules(value: Val, sections: Val)
    requires CrossSectionConsistency(value, sections).Success?
    ensures var ps := Or(Get(value, "provenance"), Arr([])).items;
      var r := CrossSectionConsistency(value, sections).value;
      (Get(r, "cross_section_consistency") == Str("yes") <==>
        exists i, j :: 0 <= i < |ps| && 0 <= j < |ps| && SectionOf(ps[i]) != SectionOf(ps[j])) &&
      (Get(r, "data_completeness") == Str("high") <==> |ps| == KeyCount(Or(sections, EMPTY)))
  {
    SectionSetSize(Or(Get(value, "provenance"), Arr([])).items);
  }

  // ---------------------------------------------------------------------
  // validateAndEnhanceTemplate and validateTemplateStructure

  const VALID_TYPES: seq<string> := ["text", "number", "resource", "date", "url"]
  const TEMPLATE_FIELDS: seq<string> := ["name", "description", "properties", "metadata"]
  const PROPERTY_FIELDS: seq<string> := ["id", "label", "description", "type", "required"]
  const METADATA_FIELDS: seq<string> := ["research_field", "research_category", "total_properties"]

  /** A keyword rule of the type inference: the type it gives, the words it
      looks for in the lower-cased label and in the lower-cased description. */
  datatype Rule = Rule(ty: string, labelWords: seq<string>, descWords: seq<string>)

  const RESOURCE_RULE := Rule("resource", ["dataset", "model", "architecture", "framework", "tool", "benchmark"],
                              ["named", "specific dataset", "specific model"])
  const NUMBER_RULE := Rule("number", ["accuracy", "score", "f1", "precision", "recall", "size", "count", "number", "percentage"],
                            ["metric", "measurement", "numeric"])
  const URL_RULE := Rule("url", ["url", "link", "repository", "doi"], ["web address", "link"])
  const DATE_RULE := Rule("date", ["date", "year", "period", "time"], ["temporal", "when"])

  /** The rules in the order they are tried; a property no rule matches
      becomes `'text'`. */
  const TYPE_RULES: seq<Rule> := [RESOURCE_RULE, NUMBER_RULE, URL_RULE, DATE_RULE]

  /** `s.includes(w1) || s.includes(w2) || ...`. */
  predicate IncludesAny(s: string, words: seq<string>) {
    exists w :: w in words && Contains(s, w)
  }

  predicate Matches(rule: Rule, lbl: string, desc: string) {
    IncludesAny(lbl, rule.labelWords) || IncludesAny(desc, rule.descWords)
  }

  /** The type inferred for a property with an invalid type, from its
      lower-cased label and description: the first rule that matches, in the
      order resource, number, url, date, and `'text'` when none does. */
  function InferType(lbl: string, desc: string): (r: string)
    ensures r in VALID_TYPES
    ensures forall i :: 0 <= i < |TYPE_RULES| ==>
      (Matches(TYPE_RULES[i], lbl, desc) && (forall j :: 0 <= j < i ==> !Matches(TYPE_RULES[j], lbl, desc)) ==>
        r == TYPE_RULES[i].ty)
    ensures r == "text" <==>
      !Matches(RESOURCE_RULE, lbl, desc) && !Matches(NUMBER_RULE, lbl, desc) &&
      !Matches(URL_RULE, lbl, desc) && !Matches(DATE_RULE, lbl, desc)
  {
    assert TYPE_RULES[0] == RESOURCE_RULE && TYPE_RULES[1] == NUMBER_RULE;
    assert TYPE_RULES[2] == URL_RULE && TYPE_RULES[3] == DATE_RULE;
    if IncludesAny(lbl, RESOURCE_RULE.labelWords) || IncludesAny(desc, RESOURCE_RULE.descWords) then "resource"
    else if IncludesAny(lbl, NUMBER_RULE.labelWords) || IncludesAny(desc, NUMBER_RULE.descWords) then "number"
    else if IncludesAny(lbl, URL_RULE.labelWords) || IncludesAny(desc, URL_RULE.descWords) then "url"
    else if IncludesAny(lbl, DATE_RULE.labelWords) || IncludesAny(desc, DATE_RULE.descWords) then "date"
    else "text"
  }

  predicate ValidType(v: Val) {
    v.Str? && v.s in VALID_TYPES
  }

  /** The checks `validateTemplateStructure` makes of one property: the five
      fields are present and, when the type must be inferred, the label is a
      string and the description a string or falsy. */
  predicate PropertyOk(p: Val) {
    Has(p, "id") && Has(p, "label") && Has(p, "description") && Has(p, "type") && Has(p, "required") &&
    (ValidType(Get(p, "type")) ||
     (Get(p, "label").Str? && Or(Get(p, "description"), Str("")).Str?))
  }

  /** No field of `fields` is missing from `v` exactly when `v` has them all. */
  lemma NoneMissing(v: Val, fields: seq<string>)
    ensures Missing(fields, Props(v)) == [] <==> forall f :: f in fields ==> Has(v, f)
  {
    MissingSpec(fields, Props(v));
    if Missing(fields, Props(v)) != [] {
      assert Missing(fields, Props(v))[0] in Missing(fields, Props(v));
    }
  }

  /** One iteration of the `forEach` in `validateTemplateStructure`. */
  function RetypeProperty(p: Val, index: nat): (r: Result<Val>)
    ensures r.Success? <==> PropertyOk(p)
  {
    var missing := Missing(PROPERTY_FIELDS, Props(p));
    NoneMissing(p, PROPERTY_FIELDS);
    if missing != [] then
      Failure("Invalid property at index " + NatToString(index) + ". Missing fields: " + Join(missing, ", "))
    else if ValidType(Get(p, "type")) then Success(p)
    else
      var lbl := Get(p, "label");
      var desc := Or(Get(p, "description"), Str(""));
      if !lbl.Str? then Failure("prop.label.toLowerCase is not a function")
      else if !desc.Str? then Failure("(prop.description || '').toLowerCase is not a function")
      else Success(With(p, "type", Str(InferType(ToLower(lbl.s), ToLower(desc.s)))))
  }

  /** `q` is property `p` after the type check: only `type` may change, it is
      one of the valid types, a valid type is kept and an invalid one is the
      inferred type. */
  ghost predicate Retyped(p: Val, q: Val) {
    KeysOf(q) == KeysOf(p) &&
    (forall k :: k != "type" ==> Get(q, k) == Get(p, k)) &&
    ValidType(Get(q, "type")) &&
    (ValidType(Get(p, "type")) ==> Get(q, "type") == Get(p, "type")) &&
    (!ValidType(Get(p, "type")) && Get(p, "label").Str? && Or(Get(p, "description"), Str("")).Str? ==>
      Get(q, "type") == Str(InferType(ToLower(Get(p, "label").s), ToLower(Or(Get(p, "description"), Str("")).s))))
  }

  lemma RetypeSpec(p: Val, index: nat)
    requires PropertyOk(p)
    ensures Retyped(p, RetypeProperty(p, index).value)
  {
  }

  /** What `validateTemplateStructure` accepts: an array of acceptable
      properties and metadata with the three required fields. */
  predicate StructureOk(template: Val) {
    Get(template, "properties").Arr? &&
    (forall i :: 0 <= i < |Get(template, "properties").items| ==> PropertyOk(Get(template, "properties").items[i])) &&
    Has(Get(template, "metadata"), "research_field") && Has(Get(template, "metadata"), "research_category") &&
    Has(Get(template, "metadata"), "total_properties")
  }

  /** `validateTemplateStructure(template)`: the properties are checked in
      order and an invalid type is overwritten with the inferred one; then the
      metadata is checked. The template returned is the input with only the
      property types changed. */
  method ValidateTemplateStructure(template: Val) returns (r: Result<Val>)
    ensures r.Success? <==> StructureOk(template)
    ensures r.Success? ==>
      var ps := Get(template, "properties").items;
      KeysOf(r.value) == KeysOf(template) &&
      (forall k :: k != "properties" ==> Get(r.value, k) == Get(template, k)) &&
      Get(r.value, "properties").Arr? && |Get(r.value, "properties").items| == |ps| &&
      forall i :: 0 <= i < |ps| ==> Retyped(ps[i], Get(r.value, "properties").items[i])
  {
    var props := Get(template, "properties");
    if !props.Arr? {
      return Failure("template.properties.forEach is not a function");
    }
    var ps := props.items;
    var i := 0;
    while i < |ps|
      invariant 0 <= i <= |ps| && |ps| == |props.items|
      invariant forall j :: 0 <= j < i ==> PropertyOk(props.items[j]) && Retyped(props.items[j], ps[j])
      invariant forall j :: i <= j < |ps| ==> ps[j] == props.items[j]
    {
      var q := RetypeProperty(ps[i], i);
      if q.Failure? {
        return Failure(q.error);
      }
      RetypeSpec(ps[i], i);
      ps := ps[i := q.value];
      i := i + 1;
    }
    var missing := Missing(METADATA_FIELDS, Props(Get(template, "metadata")));
    NoneMissing(Get(template, "metadata"), METADATA_FIELDS);
    if missing != [] {
      return Failure("Invalid metadata. Missing fields: " + Join(missing, ", "));
    }
    r := Success(With(template, "properties", Arr(ps)));
  }

  /** One property after the `map` in `validateAndEnhanceTemplate`:
      `{...prop, id, required, type, value, confidence, evidence,
      source_section}`, written as seven property writes in that order;
      `newId` is the random part of a generated id. */
  /** The fields of a property that `validateAndEnhanceTemplate` sets; every
      other field is copied by the spread. */
  const ENHANCED_FIELDS: seq<string> := ["id", "required", "type", "value", "confidence", "evidence", "source_section"]

  function EnhanceProperty(p: Val, newId: string): Val {
    var e1 := With(p, "id", Or(Get(p, "id"), Str("prop-" + newId)));
    var e2 := With(e1, "required", Coalesce(Get(p, "required"), Bool(true)));
    var e3 := With(e2, "type", Or(Get(p, "type"), Str("text")));
    var e4 := With(e3, "value", Null);
    var e5 := With(e4, "confidence", Null);
    var e6 := With(e5, "evidence", Null);
    With(e6, "source_section", Null)
  }

  /** The metadata of the enhanced template:
      `{...template.metadata, total_properties, creation_timestamp, model,
      template_version}`. */
  function EnhanceMetadata(meta: Val, count: nat, now: string, model: Val): Val {
    var m1 := With(meta, "total_properties", N(count));
    var m2 := With(m1, "creation_timestamp", Str(now));
    var m3 := With(m2, "model", model);
    With(m3, "template_version", Str("1.0"))
  }

  /** The template before the structure check; `ids` gives the random parts of
      the property ids, `templateId` the template id, `now` the ISO creation
      time and `model` the configured model name. */
  function EnhanceTemplate(template: Val, ids: nat -> string, templateId: string, now: string, model: Val): Val {
    var ps := ItemsOf(Get(template, "properties"));
    var enhanced := seq(|ps|, i requires 0 <= i < |ps| => EnhanceProperty(ps[i], ids(i)));
    var t1 := With(template, "id", Or(Get(template, "id"), Str(templateId)));
    var t2 := With(t1, "properties", Arr(enhanced));
    With(t2, "metadata", EnhanceMetadata(Get(template, "metadata"), |enhanced|, now, model))
  }

  /** What `validateTemplateStructure` asks of a property as it arrives at
      `validateAndEnhanceTemplate`: a label and a description (the other
      required fields are filled in), and, when its type must be inferred, a
      string label and a string or falsy description. */
  predicate PropertyAccepted(p: Val) {
    Has(p, "label") && Has(p, "description") &&
    (ValidType(Or(Get(p, "type"), Str("text"))) ||
     (Get(p, "label").Str? && Or(Get(p, "description"), Str("")).Str?))
  }

  /** What `validateAndEnhanceTemplate` accepts. */
  predicate TemplateAccepted(template: Val) {
    Missing(TEMPLATE_FIELDS, Props(template)) == [] &&
    Get(template, "properties").Arr? && Get(template, "properties").items != [] &&
    (forall i :: 0 <= i < |Get(template, "properties").items| ==> PropertyAccepted(Get(template, "properties").items[i])) &&
    Has(Get(template, "metadata"), "research_field") && Has(Get(template, "metadata"), "research_category")
  }

  /** The defaults a property receives. */
  lemma EnhanceDefaults(p: Val, newId: string)
    ensures var e := EnhanceProperty(p, newId);
      Get(e, "required") == Coalesce(Get(p, "required"), Bool(true)) &&
      Get(e, "id") == Or(Get(p, "id"), Str("prop-" + newId)) &&
      Get(e, "type") == Or(Get(p, "type"), Str("text")) &&
      Has(e, "id") && Has(e, "required") && Has(e, "type")
  {
  }

  /** The result fields a property receives are empty. */
  lemma EnhanceEmptied(p: Val, newId: string)
    ensures var e := EnhanceProperty(p, newId);
      Get(e, "value") == Null && Get(e, "confidence") == Null &&
      Get(e, "evidence") == Null && Get(e, "source_section") == Null
  {
  }

  /** The label and the description are kept. */
  lemma EnhanceKeeps(p: Val, newId: string)
    ensures var e := EnhanceProperty(p, newId);
      Get(e, "label") == Get(p, "label") && Get(e, "description") == Get(p, "description") &&
      (Has(e, "label") <==> Has(p, "label")) && (Has(e, "description") <==> Has(p, "description"))
    ensures var e := EnhanceProperty(p, newId);
      forall k :: k !in ENHANCED_FIELDS ==> Get(e, k) == Get(p, k)
  {
  }

  /** An enhanced property passes the property check exactly when the
      property it came from is acceptable. */
  lemma EnhanceAccepted(p: Val, newId: string)
    ensures PropertyOk(EnhanceProperty(p, newId)) <==> PropertyAccepted(p)
  {
    EnhanceDefaults(p, newId);
    EnhanceKeeps(p, newId);
  }

  /** The enhanced metadata counts the properties and has the two research
      fields exactly when the original metadata has them. */
  lemma EnhanceMetadataFacts(meta: Val, count: nat, now: string, model: Val)
    ensures var m := EnhanceMetadata(meta, count, now, model);
      Get(m, "total_properties") == N(count) && Get(m, "template_version") == Str("1.0") &&
      Has(m, "total_properties") &&
      (Has(m, "research_field") <==> Has(meta, "research_field")) &&
      (Has(m, "research_category") <==> Has(meta, "research_category"))
  {
  }

  lemma EnhanceTemplateShape(template: Val, ids: nat -> string, templateId: string, now: string, model: Val)
    ensures var e := EnhanceTemplate(template, ids, templateId, now, model);
      var ps := ItemsOf(Get(template, "properties"));
      Get(e, "properties") == Arr(seq(|ps|, i requires 0 <= i < |ps| => EnhanceProperty(ps[i], ids(i)))) &&
      Get(e, "metadata") == EnhanceMetadata(Get(template, "metadata"), |ps|, now, model) &&
      Get(e, "id") == Or(Get(template, "id"), Str(templateId)) &&
      forall k :: k !in ["id", "properties", "metadata"] ==> Get(e, k) == Get(template, k)
  {
  }

  /** The structure check accepts the enhanced template exactly when every
      property and the metadata of the input are acceptable. */
  lemma EnhancedStructureOk(template: Val, ids: nat -> string, templateId: string, now: string, model: Val)
    requires Get(template, "properties").Arr?
    ensures StructureOk(EnhanceTemplate(template, ids, templateId, now, model)) <==>
      (forall i :: 0 <= i < |Get(template, "properties").items| ==> PropertyAccepted(Get(template, "properties").items[i])) &&
      Has(Get(template, "metadata"), "research_field") && Has(Get(template, "metadata"), "research_category")
  {
    var ps := Get(template, "properties").items;
    var e := EnhanceTemplate(template, ids, templateId, now, model);
    EnhanceTemplateShape(template, ids, templateId, now, model);
    EnhanceMetadataFacts(Get(template, "metadata"), |ps|, now, model);
    AcceptedAll(ps, ids, Get(e, "properties").items);
  }

  lemma AcceptedAll(ps: seq<Val>, ids: nat -> string, es: seq<Val>)
    requires |es| == |ps| && forall i :: 0 <= i < |ps| ==> es[i] == EnhanceProperty(ps[i], ids(i))
    ensures (forall i :: 0 <= i < |es| ==> PropertyOk(es[i])) <==> (forall i :: 0 <= i < |ps| ==> PropertyAccepted(ps[i]))
  {
    forall i | 0 <= i < |ps| ensures PropertyOk(es[i]) <==> PropertyAccepted(ps[i]) {
      EnhanceAccepted(ps[i], ids(i));
    }
  }

  /** What the accepted template holds, given what the structure check promises. */
  lemma EnhancedResult(template: Val, ids: nat -> string, templateId: string, now: string, model: Val, out: Val)
    requires Get(template, "properties").Arr?
    requires var e := EnhanceTemplate(template, ids, templateId, now, model);
      var es := Get(e, "properties").items;
      Get(e, "properties").Arr? &&
      (forall k :: k != "properties" ==> Get(out, k) == Get(e, k)) &&
      Get(out, "properties").Arr? && |Get(out, "properties").items| == |es| &&
      forall i :: 0 <= i < |es| ==> Retyped(es[i], Get(out, "properties").items[i])
    ensures var ps := Get(template, "properties").items;
      var qs := ItemsOf(Get(out, "properties"));
      |qs| == |ps| &&
      Get(Get(out, "metadata"), "total_properties") == N(|ps|) &&
      Get(Get(out, "metadata"), "template_version") == Str("1.0") &&
      Get(out, "id") == Or(Get(template, "id"), Str(templateId)) &&
      (forall k :: k !in ["id", "properties", "metadata"] ==> Get(out, k) == Get(template, k)) &&
      forall i :: 0 <= i < |ps| ==> Enhanced(ps[i], ids(i), qs[i])
  {
    var ps := Get(template, "properties").items;
    EnhanceTemplateShape(template, ids, templateId, now, model);
    EnhanceMetadataFacts(Get(template, "metadata"), |ps|, now, model);
    var e := EnhanceTemplate(template, ids, templateId, now, model);
    assert Get(out, "metadata") == Get(e, "metadata");
    EnhancedProperties(ps, ids, Get(e, "properties").items, ItemsOf(Get(out, "properties")));
  }

  /** `validateAndEnhanceTemplate(template)`. A template missing one of the
      four fields, or with no properties, is rejected. Otherwise every property
      gets its defaults and its empty result fields, the metadata counts the
      properties, and the structure check decides; `ids` gives the random parts
      of the generated property ids. */
  method ValidateAndEnhanceTemplate(template: Val, ids: nat -> string, templateId: string, now: string, model: Val)
    returns (r: Result<Val>)
    ensures r.Success? <==> TemplateAccepted(template)
    ensures r.Success? ==>
      Get(r.value, "name") == Get(template, "name") && Get(r.value, "description") == Get(template, "description")
    ensures r.Success? ==>
      var ps := Get(template, "properties").items;
      var qs := ItemsOf(Get(r.value, "properties"));
      |qs| == |ps| &&
      Get(Get(r.value, "metadata"), "total_properties") == N(|ps|) &&
      Get(Get(r.value, "metadata"), "template_version") == Str("1.0") &&
      Get(r.value, "id") == Or(Get(template, "id"), Str(templateId)) &&
      (forall k :: k !in ["id", "properties", "metadata"] ==> Get(r.value, k) == Get(template, k)) &&
      forall i :: 0 <= i < |ps| ==> Enhanced(ps[i], ids(i), qs[i])
  {
    var missing := Missing(TEMPLATE_FIELDS, Props(template));
    if missing != [] {
      return Failure("Invalid template format. Missing: " + Join(missing, ", "));
    }
    var props := Get(template, "properties");
    if !props.Arr? || props.items == [] {
      return Failure("Template must contain at least one property");
    }
    var enhanced := EnhanceTemplate(template, ids, templateId, now, model);
    EnhancedStructureOk(template, ids, templateId, now, model);
    r := ValidateTemplateStructure(enhanced);
    if r.Success? {
      EnhanceTemplateShape(template, ids, templateId, now, model);
      EnhancedResult(template, ids, templateId, now, model, r.value);
      TemplateFieldsKept(template, r.value);
    }
  }

  /** The name and the description of the template pass through unchanged. */
  lemma TemplateFieldsKept(template: Val, out: Val)
    requires forall k :: k !in ["id", "properties", "metadata"] ==> Get(out, k) == Get(template, k)
    ensures Get(out, "name") == Get(template, "name") && Get(out, "description") == Get(template, "description")
  {
    assert "name" !in ["id", "properties", "metadata"] && "description" !in ["id", "properties", "metadata"];
  }

  /** Property `q` of the accepted template, built from property `p` of the
      input: defaults filled in, result fields emptied, a valid type. */
  ghost predicate Enhanced(p: Val, newId: string, q: Val) {
    Get(q, "required") == Coalesce(Get(p, "required"), Bool(true)) &&
    Get(q, "id") == Or(Get(p, "id"), Str("prop-" + newId)) &&
    Get(q, "label") == Get(p, "label") && Get(q, "description") == Get(p, "description") &&
    (forall k :: k !in ENHANCED_FIELDS ==> Get(q, k) == Get(p, k)) &&
    Get(q, "value") == Null && Get(q, "confidence") == Null &&
    Get(q, "evidence") == Null && Get(q, "source_section") == Null &&
    ValidType(Get(q, "type")) &&
    (ValidType(Or(Get(p, "type"), Str("text"))) ==> Get(q, "type") == Or(Get(p, "type"), Str("text")))
  }

  lemma EnhancedProperties(ps: seq<Val>, ids: nat -> string, es: seq<Val>, qs: seq<Val>)
    requires |es| == |ps| == |qs|
    requires forall i :: 0 <= i < |ps| ==> es[i] == EnhanceProperty(ps[i], ids(i))
    requires forall i :: 0 <= i < |ps| ==> Retyped(es[i], qs[i])
    ensures forall i :: 0 <= i < |ps| ==> Enhanced(ps[i], ids(i), qs[i])
  {
    forall i | 0 <= i < |ps| ensures Enhanced(ps[i], ids(i), qs[i]) {
      EnhanceDefaults(ps[i], ids(i));
      EnhanceEmptied(ps[i], ids(i));
      EnhanceKeeps(ps[i], ids(i));
    }
  }

  // ---------------------------------------------------------------------
  // simplifyValue and extractObjectSummary

  /** The three `resourcePatterns` regular expressions, tried in order: the
      trimmed-to-be captured name of the first one that matches with a
      non-empty group. */
  type ResourceMatcher = string -> Option<string>

  /** The strings of `xs` that are not blank, in order. */
  function NonBlank(xs: seq<string>): (r: seq<string>)
    ensures |r| <= |xs|
    ensures forall i :: 0 <= i < |r| ==> Trim(r[i]) != ""
  {
    if xs == [] then []
    else if Trim(xs[0]) == "" then NonBlank(xs[1..])
    else [xs[0]] + NonBlank(xs[1..])
  }

  /** `value.split(';').map(part => part.trim()).filter(part => part.length > 0)`. */
  function SemicolonParts(s: string): (r: seq<string>)
    ensures forall i :: 0 <= i < |r| ==> r[i] != ""
  {
    var parts := Split(s, ';');
    NonEmpty(seq(|parts|, i requires 0 <= i < |parts| => Trim(parts[i])))
  }

  /** `s.substring(0, 50).trim() + '...'`. */
  function Shorten(s: string): string {
    Trim(Substring(s, 0, 50)) + "..."
  }

  function StrItems(xs: seq<string>): (r: seq<Val>)
    ensures |r| == |xs| && forall i :: 0 <= i < |xs| ==> r[i] == Str(xs[i])
  {
    seq(|xs|, i requires 0 <= i < |xs| => Str(xs[i]))
  }

  /** The string branch of `simplifyValue`. */
  function SimplifyString(s: string, resource: bool, matcher: ResourceMatcher): (r: Val)
    ensures r.Str? || (r.Arr? && |r.items| > 1 && forall i :: 0 <= i < |r.items| ==> r.items[i].Str?)
  {
    var m := if resource then matcher(s) else None;
    if m.Some? && m.value != "" then Str(Trim(m.value))
    else if resource && |s| > 50 then Str(Shorten(s))
    else if ';' in s && |s| > 100 && |SemicolonParts(s)| > 1 then Arr(StrItems(SemicolonParts(s)))
    else Str(s)
  }

  /** The summary of one object of an array of objects. */
  function ItemSummary(item: Val): string {
    var g := (k: string) => Get(item, k);
    if Truthy(g("step")) && Truthy(g("description")) then ToStr(g("step")) + ": " + ToStr(g("description"))
    else if Truthy(g("toolkit")) && Truthy(g("purpose")) then ToStr(g("toolkit")) + " (" + ToStr(g("purpose")) + ")"
    else if Truthy(g("strategy")) && Truthy(g("note")) then ToStr(g("strategy")) + ": " + ToStr(g("note"))
    else if Truthy(g("name")) && Truthy(g("value")) then ToStr(g("name")) + ": " + ToStr(g("value"))
    else Join(StringEntries(Entries(item)), ", ")
  }

  /** The entries whose value is a non-blank string, as `key: value`. */
  function StringEntries(es: seq<(string, Val)>): seq<string> {
    if es == [] then []
    else
      var (k, v) := es[0];
      var rest := StringEntries(es[1..]);
      if v.Str? && Trim(v.s) != "" then [k + ": " + v.s] + rest else rest
  }

  /** `simplifyValue(value, propertyType)`: every value becomes a string,
      except a long semicolon-separated string, which becomes its parts. The
      `steps` and `toolkit_dependencies` arrays of an object are simplified in
      its place. */
  function SimplifyValue(v: Val, ptype: Val, matcher: ResourceMatcher): (r: Val)
    ensures r.Str? || (r.Arr? && |r.items| > 1 && forall i :: 0 <= i < |r.items| ==> r.items[i].Str?)
    decreases v
  {
    var resource := ptype == Str("resource");
    match v
    case Undef => Str("")
    case Null => Str("")
    case Str(s) => SimplifyString(s, resource, matcher)
    case Num(_) => Str(ToStr(v))
    case Bool(_) => Str(ToStr(v))
    case Arr(xs) =>
      if xs == [] then Str("")
      else if forall i :: 0 <= i < |xs| ==> xs[i].Obj? || xs[i].Arr? then
        Str(Join(NonBlank(seq(|xs|, i requires 0 <= i < |xs| => ItemSummary(xs[i]))), "; "))
      else Str(Join(seq(|xs|, i requires 0 <= i < |xs| => ToStr(xs[i])), ", "))
    case Obj(_, m) =>
      // an array is always truthy, so `value.steps && Array.isArray(value.steps)` is the array test alone
      if "steps" in m && m["steps"].Arr? then SimplifyValue(m["steps"], ptype, matcher)
      else if "toolkit_dependencies" in m && m["toolkit_dependencies"].Arr? then
        SimplifyValue(m["toolkit_dependencies"], ptype, matcher)
      else
        var summary := ObjectSummary(v, resource, 0);
        if resource && |summary| > 50 then Str(Shorten(summary)) else Str(summary)
  }

  const MAX_DEPTH: nat := 2
  const MAX_PARTS: nat := 5
  const NESTED_DATA := "[Nested Data]"

  /** `key.split('_').map(capitalise).join(' ')`. */
  function FormatKey(key: string): string {
    var words := Split(key, '_');
    Join(seq(|words|, i requires 0 <= i < |words| => Capitalize(words[i])), " ")
  }

  /** `extractObjectSummary(obj, propertyType, depth)` with `maxDepth` 2. */
  function ObjectSummary(obj: Val, resource: bool, depth: nat): (r: string)
    ensures depth > MAX_DEPTH ==> r == NESTED_DATA
    decreases obj, 1
  {
    if depth > MAX_DEPTH then NESTED_DATA
    else if resource then ResourceSummary(obj)
    else
      var parts := if obj.Obj? then SummaryParts(obj, depth, 0, []) else [];
      if parts == [] then "[Complex Data]" else Join(parts, "; ")
  }

  /** The resource branch: `name`, `dataset`, `model` or `title`, whichever
      comes first truthy, else the first string value of 1 to 99 characters. */
  function ResourceSummary(obj: Val): string {
    if Truthy(Get(obj, "name")) then ToStr(Get(obj, "name"))
    else if Truthy(Get(obj, "dataset")) then ToStr(Get(obj, "dataset"))
    else if Truthy(Get(obj, "model")) then ToStr(Get(obj, "model"))
    else if Truthy(Get(obj, "title")) then ToStr(Get(obj, "title"))
    else FirstMeaningful(obj, KeysOf(obj))
  }

  function FirstMeaningful(obj: Val, keys: seq<string>): string {
    if keys == [] then "[Dataset/Resource]"
    else
      var val := Get(obj, keys[0]);
      if val.Str? && 0 < |val.s| < 100 then val.s else FirstMeaningful(obj, keys[1..])
  }

  /** The parts collected from the keys of `obj` from index `i` on, after the
      parts `acc` already collected; collection stops at five parts. */
  function SummaryParts(obj: Val, depth: nat, i: nat, acc: seq<string>): (r: seq<string>)
    requires obj.Obj? && depth <= MAX_DEPTH
    decreases obj, 0, |obj.keys| - i
  {
    if i >= |obj.keys| then acc
    else
      var k := obj.keys[i];
      var next := acc + (if k in obj.props then EntryPart(k, obj.props[k], depth) else []);
      if |next| >= MAX_PARTS then next else SummaryParts(obj, depth, i + 1, next)
  }

  /** The part one entry contributes: none for `null`, `undefined`, an empty
      array or a nested summary that is too deep. */
  function EntryPart(key: string, val: Val, depth: nat): (r: seq<string>)
    requires depth <= MAX_DEPTH
    ensures |r| <= 1 && forall j :: 0 <= j < |r| ==> r[j] != ""
    decreases val, 2
  {
    var fk := FormatKey(key);
    match val
    case Undef => []
    case Null => []
    case Arr(xs) =>
      if xs == [] then []
      else if TypeOf(xs[0]) == "object" then [fk + ": " + NatToString(|xs|) + " items"]
      else [fk + ": " + JoinItems(xs, ", ")]
    case Obj(_, _) =>
      var nested := ObjectSummary(val, false, depth + 1);
      if nested != "" && nested != NESTED_DATA then [fk + ": " + nested] else []
    case _ => [fk + ": " + ToStr(val)]
  }

  /** The collection keeps what was collected, adds at most one part per
      entry, stops at five parts and collects only non-empty parts. */
  lemma {:induction false} SummaryPartsBound(obj: Val, depth: nat, i: nat, acc: seq<string>)
    requires obj.Obj? && depth <= MAX_DEPTH && |acc| < MAX_PARTS
    requires forall j :: 0 <= j < |acc| ==> acc[j] != ""
    ensures var r := SummaryParts(obj, depth, i, acc);
      |acc| <= |r| <= MAX_PARTS && r[..|acc|] == acc && forall j :: 0 <= j < |r| ==> r[j] != ""
    decreases |obj.keys| - i
  {
    if i < |obj.keys| {
      var k := obj.keys[i];
      var next := acc + (if k in obj.props then EntryPart(k, obj.props[k], depth) else []);
      if |next| < MAX_PARTS {
        SummaryPartsBound(obj, depth, i + 1, next);
        assert next[..|acc|] == acc;
      }
    }
  }

  /** A summary of non-resource data past the depth limit is the depth
      marker; otherwise it joins at most five non-empty parts, or is
      `'[Complex Data]'` when there are none. */
  lemma SummaryShape(obj: Val, depth: nat)
    requires obj.Obj? && depth <= MAX_DEPTH
    ensures var parts := SummaryParts(obj, depth, 0, []);
      |parts| <= MAX_PARTS && (forall j :: 0 <= j < |parts| ==> parts[j] != "") &&
      ObjectSummary(obj, false, depth) == if parts == [] then "[Complex Data]" else Join(parts, "; ")
  {
    SummaryPartsBound(obj, depth, 0, []);
  }

  /** The resource branch of `extractObjectSummary`. */
  method ExtractResourceSummary(obj: Val) returns (r: string)
    ensures r == ResourceSummary(obj)
  {
    if Truthy(Get(obj, "name")) { return ToStr(Get(obj, "name")); }
    if Truthy(Get(obj, "dataset")) { return ToStr(Get(obj, "dataset")); }
    if Truthy(Get(obj, "model")) { return ToStr(Get(obj, "model")); }
    if Truthy(Get(obj, "title")) { return ToStr(Get(obj, "title")); }
    var all := KeysOf(obj);
    var i := 0;
    while i < |all|
      invariant 0 <= i <= |all|
      invariant FirstMeaningful(obj, all[i..]) == FirstMeaningful(obj, all)
    {
      var val := Get(obj, all[i]);
      if val.Str? && 0 < |val.s| < 100 {
        return val.s;
      }
      assert all[i..][1..] == all[i + 1..];
      i := i + 1;
    }
    return "[Dataset/Resource]";
  }

  /** `extractObjectSummary(obj, propertyType, depth)`: the loop over the
      entries, stopping once five parts are collected, recursing into nested
      objects one level deeper. */
  method ExtractObjectSummary(obj: Val, resource: bool, depth: nat) returns (r: string)
    ensures r == ObjectSummary(obj, resource, depth)
    decreases obj, 1
  {
    if depth > MAX_DEPTH {
      return NESTED_DATA;
    }
    if resource {
      r := ExtractResourceSummary(obj);
      return;
    }
    if !obj.Obj? {
      return "[Complex Data]";
    }
    var parts: seq<string> := [];
    var i := 0;
    while i < |obj.keys|
      invariant 0 <= i <= |obj.keys| && |parts| < MAX_PARTS
      invariant SummaryParts(obj, depth, i, parts) == SummaryParts(obj, depth, 0, [])
      decreases |obj.keys| - i
    {
      var k := obj.keys[i];
      var part: seq<string> := [];
      if k in obj.props {
        var val := obj.props[k];
        var fk := FormatKey(k);
        match val {
          case Undef =>
          case Null =>
          case Arr(xs) =>
            if xs != [] {
              if TypeOf(xs[0]) == "object" {
                part := [fk + ": " + NatToString(|xs|) + " items"];
              } else {
                part := [fk + ": " + JoinItems(xs, ", ")];
              }
            }
          case Obj(_, _) =>
            var nested := ExtractObjectSummary(val, false, depth + 1);
            if nested != "" && nested != NESTED_DATA {
              part := [fk + ": " + nested];
            }
          case _ =>
            part := [fk + ": " + ToStr(val)];
        }
        assert part == EntryPart(k, val, depth);
      }
      parts := parts + part;
      if |parts| >= MAX_PARTS {
        assert parts == SummaryParts(obj, depth, 0, []);
        break;
      }
      i := i + 1;
    }
    r := if parts == [] then "[Complex Data]" else Join(parts, "; ");
  }

  // ---------------------------------------------------------------------
  // cleanAndValidateResponse, from the parsed object on

  /** The language model, called with the prompt and the number of the
      attempt; the regular expressions that find resource names; the random
      parts of value ids, by position, and of the error value's id. */
  datatype Env = Env(llm: (Prompt, nat) -> Reply, matcher: ResourceMatcher, valueIds: nat -> string, errorId: string)

  /** What the chain is invoked with: the property's label, its description
      (`'No description provided'` when falsy), its type (`'text'` when
      falsy) and the cached sections. */
  datatype Prompt = Prompt(propertyLabel: Val, description: Val, propertyType: Val, sections: string)

  /** A parsed answer, or an error with its message; `syntaxError` tells
      whether it is a `SyntaxError`, as the JSON parser throws. */
  datatype Reply = Answer(raw: Val) | Thrown(message: string, syntaxError: bool)

  /** One value before it gets its id; a part of a split string carries its
      `multiValueIndex` and `originalIndex`. */
  datatype Processed = Processed(value: Val, confidence: Val, evidence: Val, multi: Option<(nat, Val)>)

  /** `{label: 'Unknown', type: 'text'}`. */
  const UNKNOWN_PROPERTY: Val := With(With(EMPTY, "label", Str("Unknown")), "type", Str("text"))

  /** The values one simplified value becomes, with the confidence (`|| 0`)
      and the evidence (`|| {}`) of `src`. `simplifyValue` never returns an
      object, so the branch that summarises one is not reached. */
  function Expand(src: Val, simplified: Val, originalIndex: Val): (r: seq<Processed>)
    ensures simplified.Arr? ==> (|r| == |simplified.items| &&
      forall i :: 0 <= i < |r| ==> r[i].value == simplified.items[i] && r[i].multi == Some((i, originalIndex)))
    ensures !simplified.Arr? ==> |r| == 1 && r[0].value == simplified && r[0].multi.None?
    ensures forall i :: 0 <= i < |r| ==>
      r[i].confidence == Or(Get(src, "confidence"), N(0)) && r[i].evidence == Or(Get(src, "evidence"), EMPTY)
  {
    var conf := Or(Get(src, "confidence"), N(0));
    var ev := Or(Get(src, "evidence"), EMPTY);
    if simplified.Arr? then
      seq(|simplified.items|, i requires 0 <= i < |simplified.items| =>
        Processed(simplified.items[i], conf, ev, Some((i, originalIndex))))
    else [Processed(simplified, conf, ev, None)]
  }

  /** The `flatMap` over `values` from entry `i` on; reading `value` of a
      null entry throws. */
  function ExpandFrom(vs: seq<Val>, i: nat, ptype: Val, matcher: ResourceMatcher): (r: Result<seq<Processed>>)
    requires i <= |vs|
    ensures r.Failure? <==> exists j :: i <= j < |vs| && IsNullish(vs[j])
    decreases |vs| - i
  {
    if i == |vs| then Success([])
    else if IsNullish(vs[i]) then Failure(ReadError(vs[i], "value"))
    else
      var head := Expand(vs[i], SimplifyValue(Get(vs[i], "value"), ptype, matcher), N(i));
      match ExpandFrom(vs, i + 1, ptype, matcher)
      case Failure(e) => Failure(e)
      case Success(rest) => Success(head + rest)
  }

  /** The three accepted formats, tried in order: a direct `value`; a
      `property` with a `values` array; a single key named by the label. */
  function Process(response: Val, property: Val, matcher: ResourceMatcher): Result<seq<Processed>> {
    var ptype := Get(property, "type");
    var key := ToKey(Get(property, "label"));
    if Get(response, "value") != Undef then
      Success(Expand(response, SimplifyValue(Get(response, "value"), ptype, matcher), Undef))
    else if Truthy(Get(response, "property")) && Get(response, "values").Arr? then
      ExpandFrom(Get(response, "values").items, 0, ptype, matcher)
    else if KeyCount(response) == 1 && Truthy(Get(response, key)) then
      var data := Get(response, key);
      Success(Expand(data, SimplifyValue(Get(data, "value"), ptype, matcher), Undef))
    else Failure("Unrecognized response format")
  }

  /** One value of the cleaned response. */
  function OutValue(p: Processed, id: string): (r: Val)
    ensures Get(r, "value") == p.value && Get(r, "confidence") == p.confidence && Get(r, "evidence") == p.evidence
    ensures Has(r, "value") && Has(r, "confidence") && Has(r, "evidence") && Has(r, "id")
    ensures Get(r, "isMultiValue") == if p.multi.Some? then Bool(true) else Undef
    ensures p.multi.Some? ==> Get(r, "multiValueIndex") == N(p.multi.value.0)
  {
    var v := With(With(With(With(EMPTY, "value", p.value), "confidence", p.confidence),
                       "evidence", p.evidence), "id", Str("val-" + id));
    match p.multi
    case None => v
    case Some((index, original)) =>
      With(With(With(v, "isMultiValue", Bool(true)), "multiValueIndex", N(index)), "originalIndex", original)
  }

  /** The cleaned response built from the processed values. */
  function Cleaned(property: Val, ps: seq<Processed>, ids: nat -> string): (r: Val)
    ensures Get(r, "property") == Get(property, "label") && Get(r, "type") == Get(property, "type")
    ensures r.Obj? && Has(r, "property")
    ensures Get(r, "values") == Arr(seq(|ps|, i requires 0 <= i < |ps| => OutValue(ps[i], ids(i))))
  {
    var lbl := Get(property, "label");
    var ty := Get(property, "type");
    var meta := With(With(With(EMPTY, "property_type", ty), "extraction_method", Str("llm_extraction")),
                     "source", Str("individual_analysis"));
    With(With(With(With(With(EMPTY, "property", lbl), "label", lbl), "type", ty), "metadata", meta),
         "values", Arr(seq(|ps|, i requires 0 <= i < |ps| => OutValue(ps[i], ids(i)))))
  }

  /** `cleanAndValidateResponse(rawResponse, property)` for a parsed
      response: every failure becomes an error response. */
  function CleanResponse(response: Val, property: Val, env: Env): (r: Val)
    ensures !Truthy(property) || !Truthy(Get(property, "label")) ==>
      r == ErrorResponse(UNKNOWN_PROPERTY, Some("Missing property parameter"), env.errorId)
    ensures Truthy(property) && Truthy(Get(property, "label")) ==>
      Get(r, "property") == Get(property, "label") && Get(r, "type") == Get(property, "type")
  {
    if !Truthy(property) || !Truthy(Get(property, "label")) then
      ErrorResponse(UNKNOWN_PROPERTY, Some("Missing property parameter"), env.errorId)
    else Finish(property, Parse(response, property, env.matcher), env)
  }

  /** The processed values of a parsed response, or the message of the
      error thrown on the way. */
  function Parse(response: Val, property: Val, matcher: ResourceMatcher): Result<seq<Processed>> {
    if !Truthy(response) || TypeOf(response) != "object" then Failure("Invalid response format")
    else Process(response, property, matcher)
  }

  /** The cleaned response, or the error response the `catch` builds. */
  function Finish(property: Val, parsed: Result<seq<Processed>>, env: Env): (r: Val)
    ensures Get(r, "property") == Get(property, "label") && Get(r, "type") == Get(property, "type")
  {
    match parsed
    case Failure(e) => ErrorResponse(property, Some(e), env.errorId)
    case Success(ps) => Cleaned(property, ps, env.valueIds)
  }

  /** A response in one of the formats is cleaned into its processed values. */
  lemma CleanedFrom(response: Val, property: Val, env: Env)
    requires Truthy(property) && Truthy(Get(property, "label")) && response.Obj?
    requires Process(response, property, env.matcher).Success?
    ensures CleanResponse(response, property, env) ==
      Cleaned(property, Process(response, property, env.matcher).value, env.valueIds)
  {
    assert Parse(response, property, env.matcher) == Process(response, property, env.matcher);
  }

  /** The direct `value` format, with what `simplifyValue` makes of the value. */
  lemma DirectFormat(response: Val, property: Val, env: Env, simplified: Val)
    requires Get(response, "value") != Undef
    requires SimplifyValue(Get(response, "value"), Get(property, "type"), env.matcher) == simplified
    ensures Process(response, property, env.matcher) == Success(Expand(response, simplified, Undef))
  {
  }

  /** Outside the resource type, a string of at most 100 characters is kept
      as it is, and a longer one with at least two non-empty parts separated
      by semicolons becomes the parts. */
  lemma SimplifyPlainString(s: string, ptype: Val, matcher: ResourceMatcher)
    requires ptype != Str("resource")
    ensures |s| <= 100 ==> SimplifyValue(Str(s), ptype, matcher) == Str(s)
    ensures ';' in s && |s| > 100 && |SemicolonParts(s)| > 1 ==>
      SimplifyValue(Str(s), ptype, matcher) == Arr(StrItems(SemicolonParts(s)))
  {
  }

  /** The values of a cleaned response, one per processed value. */
  lemma CleanedValues(property: Val, ps: seq<Processed>, ids: nat -> string)
    ensures var vs := Get(Cleaned(property, ps, ids), "values");
      vs.Arr? && |vs.items| == |ps| && forall i :: 0 <= i < |ps| ==> vs.items[i] == OutValue(ps[i], ids(i))
  {
  }

  /** A long semicolon-separated string in a direct `value` becomes one value
      per part, in order, each flagged as one of several with its index. */
  lemma MultiValuesIndexed(response: Val, property: Val, env: Env, s: string)
    requires Truthy(property) && Truthy(Get(property, "label")) && Get(property, "type") != Str("resource")
    requires response.Obj? && Get(response, "value") == Str(s)
    requires ';' in s && |s| > 100 && |SemicolonParts(s)| > 1
    ensures var vs := Get(CleanResponse(response, property, env), "values");
      var parts := SemicolonParts(s);
      vs.Arr? && |vs.items| == |parts| &&
      forall i :: 0 <= i < |parts| ==>
        Get(vs.items[i], "value") == Str(parts[i]) &&
        Get(vs.items[i], "isMultiValue") == Bool(true) &&
        Get(vs.items[i], "multiValueIndex") == N(i)
  {
    var parts := SemicolonParts(s);
    var simplified := Arr(StrItems(parts));
    SimplifyPlainString(s, Get(property, "type"), env.matcher);
    DirectFormat(response, property, env, simplified);
    CleanedFrom(response, property, env);
    var ps := Expand(response, simplified, Undef);
    CleanedValues(property, ps, env.valueIds);
    var vs := Get(CleanResponse(response, property, env), "values");
    forall i | 0 <= i < |parts|
      ensures Get(vs.items[i], "value") == Str(parts[i]) && Get(vs.items[i], "isMultiValue") == Bool(true) &&
              Get(vs.items[i], "multiValueIndex") == N(i)
    {
      assert ps[i].value == Str(parts[i]) && ps[i].multi == Some((i, Undef));
      assert vs.items[i] == OutValue(ps[i], env.valueIds(i));
    }
  }

  /** A value whose confidence is in [0, 1] and whose evidence is an object
      passes the checks `validateResponse` makes of one entry. */
  lemma OutValueValid(p: Processed, id: string)
    requires p.confidence.Num? && 0.0 <= p.confidence.n <= 1.0 && p.evidence.Obj?
    ensures EntryValid(OutValue(p, id))
  {
  }

  /** A cleaned response passes `validateResponse` exactly when each of its
      values passes the checks of one entry. */
  lemma CleanedValid(property: Val, ps: seq<Processed>, ids: nat -> string)
    ensures ResponseValid(Cleaned(property, ps, ids)) <==>
      forall i :: 0 <= i < |ps| ==> EntryValid(OutValue(ps[i], ids(i)))
  {
    CleanedValues(property, ps, ids);
  }

  /** A cleaned response with one value passes `validateResponse` when the
      value's confidence is in [0, 1] and its evidence is an object. */
  lemma SingleValueValid(property: Val, p: Processed, ids: nat -> string)
    requires p.confidence.Num? && 0.0 <= p.confidence.n <= 1.0 && p.evidence.Obj?
    ensures var r := Cleaned(property, [p], ids);
      var vs := Get(r, "values");
      ResponseValid(r) && vs.Arr? && |vs.items| == 1 &&
      Get(vs.items[0], "value") == p.value &&
      Get(vs.items[0], "confidence") == p.confidence && Get(vs.items[0], "evidence") == p.evidence
  {
    OutValueValid(p, ids(0));
    CleanedValid(property, [p], ids);
    CleanedValues(property, [p], ids);
  }

  /** A direct `value` that is a short string, with a confidence in [0, 1]
      and an object as evidence, is kept as the single value of the cleaned
      response, which then passes `validateResponse`. */
  lemma PlainValueAccepted(response: Val, property: Val, env: Env, s: string)
    requires Truthy(property) && Truthy(Get(property, "label")) && Get(property, "type") != Str("resource")
    requires response.Obj? && Get(response, "value") == Str(s) && |s| <= 100
    requires Get(response, "confidence").Num? && 0.0 <= Get(response, "confidence").n <= 1.0
    requires Get(response, "evidence").Obj?
    ensures var r := CleanResponse(response, property, env);
      var vs := Get(r, "values");
      ResponseValid(r) && vs.Arr? && |vs.items| == 1 &&
      Get(vs.items[0], "value") == Str(s) &&
      Get(vs.items[0], "confidence") == Get(response, "confidence") &&
      Get(vs.items[0], "evidence") == Get(response, "evidence")
  {
    var p := Processed(Str(s), Get(response, "confidence"), Get(response, "evidence"), None);
    PlainValueCleaned(response, property, env, s);
    SingleValueValid(property, p, env.valueIds);
  }

  /** The cleaned response for such a direct `value`: one processed value. */
  lemma PlainValueCleaned(response: Val, property: Val, env: Env, s: string)
    requires Truthy(property) && Truthy(Get(property, "label")) && Get(property, "type") != Str("resource")
    requires response.Obj? && Get(response, "value") == Str(s) && |s| <= 100
    requires Get(response, "confidence").Num? && Get(response, "evidence").Obj?
    ensures CleanResponse(response, property, env) ==
      Cleaned(property, [Processed(Str(s), Get(response, "confidence"), Get(response, "evidence"), None)], env.valueIds)
  {
    SimplifyPlainString(s, Get(property, "type"), env.matcher);
    DirectFormat(response, property, env, Str(s));
    CleanedFrom(response, property, env);
    ExpandPlain(response, Str(s));
  }

  /** A value that is not an array expands to itself, with the confidence
      and the evidence of its source. */
  lemma ExpandPlain(src: Val, v: Val)
    requires !v.Arr? && Get(src, "confidence").Num? && Get(src, "evidence").Obj?
    ensures Expand(src, v, Undef) == [Processed(v, Get(src, "confidence"), Get(src, "evidence"), None)]
  {
    var conf := Get(src, "confidence");
    assert Or(conf, N(0)) == conf by {
      if conf.n == 0.0 { assert N(0) == conf; }
    }
  }

  /** In the `values` format, a null or undefined entry turns the whole
      response into an error response. */
  lemma NullEntryRejected(response: Val, property: Val, env: Env, j: nat)
    requires Truthy(property) && Truthy(Get(property, "label"))
    requires response.Obj? && Get(response, "value") == Undef && Truthy(Get(response, "property"))
    requires Get(response, "values").Arr? && j < |Get(response, "values").items|
    requires IsNullish(Get(response, "values").items[j])
    ensures exists e :: CleanResponse(response, property, env) == ErrorResponse(property, Some(e), env.errorId)
  {
    var vs := Get(response, "values").items;
    var r := ExpandFrom(vs, 0, Get(property, "type"), env.matcher);
    assert 0 <= j < |vs| && IsNullish(vs[j]);
    assert Parse(response, property, env.matcher) == r;
    assert CleanResponse(response, property, env) == Finish(property, r, env);
  }

  // ---------------------------------------------------------------------
  // analyze: the retry loop

  /** An error counts as a rate limit when its message mentions one. */
  predicate RateLimited(message: string) {
    Contains(message, "429") || Contains(message, "Too Many Requests") ||
    Contains(message, "Service tier capacity exceeded") || Contains(message, "3505")
  }

  /** The wait after the `attempts`-th failed attempt on a rate limit:
      `Math.min(attempts * 100, 600)`. */
  function Backoff(attempts: nat): (r: nat)
    ensures r <= 600 && (attempts <= 6 ==> r == attempts * 100)
  {
    if attempts * 100 < 600 then attempts * 100 else 600
  }

  /** What one attempt leads to: a response to return, a wait before the
      next attempt, or an error rethrown. */
  datatype Outcome = Done(response: Val) | Retry(wait: nat, message: string) | Abort(message: string)

  /** The `catch` of one attempt, `attempts` counting the failed ones. */
  function OnError(message: string, syntaxError: bool, attempts: nat): (o: Outcome)
    ensures !o.Done? && (o.Retry? ==> o.wait == 1000 || o.wait == Backoff(attempts))
  {
    if RateLimited(message) then Retry(Backoff(attempts), message)
    else if syntaxError then Retry(1000, message)
    else Abort(message)
  }

  /** The prompt for a property, given the cached sections. */
  function PromptFor(property: Val, sections: string): Prompt {
    Prompt(Get(property, "label"), Or(Get(property, "description"), Str("No description provided")),
           Or(Get(property, "type"), Str("text")), sections)
  }

  /** Attempt number `attempt` (from 0): call the model, clean its answer and
      validate the result. */
  function AttemptOutcome(property: Val, prompt: Prompt, env: Env, attempt: nat): Outcome {
    match env.llm(prompt, attempt)
    case Thrown(m, syntaxError) => OnError(m, syntaxError, attempt + 1)
    case Answer(raw) => Checked(CleanResponse(raw, property, env), attempt + 1)
  }

  /** `validateResponse` on the cleaned response: it is returned, or its
      error is caught like any other. */
  function Checked(response: Val, attempts: nat): (o: Outcome)
    ensures o.Done? ==> o.response == response && ResponseValid(response)
    ensures o.Retry? ==> o.wait == Backoff(attempts)
  {
    match ValidateResponse(response)
    case Success(_) => Done(response)
    case Failure(m) => OnError(m, false, attempts)
  }

  /** What `analyze` resolves to when an error escapes the loop. */
  function FailureResponse(property: Val, message: string): (r: Val)
    ensures Get(r, "property") == Get(property, "label") && Get(r, "value") == Arr([]) &&
      Get(r, "error") == Str(message)
  {
    With(With(With(EMPTY, "property", Get(property, "label")), "value", Arr([])), "error", Str(message))
  }

  /** An attempt returns only a response that passed `validateResponse`,
      and waits 1000 after a syntax error or the backoff after a rate limit. */
  lemma AttemptShape(property: Val, prompt: Prompt, env: Env, attempt: nat)
    ensures var o := AttemptOutcome(property, prompt, env, attempt);
      (o.Done? ==> ResponseValid(o.response)) &&
      (o.Retry? ==> o.wait == 1000 || o.wait == Backoff(attempt + 1))
  {
  }

  /** The retry loop from attempt `attempt` (counting from 0) on, with the
      message of the latest error `last` and the waits so far: the response
      `analyze` resolves to and all the waits. */
  function Retrying(property: Val, prompt: Prompt, env: Env, attempt: nat, last: string, waits: seq<nat>): (Val, seq<nat>)
    decreases MAX_RETRIES - attempt, 1
  {
    if attempt >= MAX_RETRIES then (FailureResponse(property, last), waits)
    else Attempt(property, prompt, env, attempt, waits)
  }

  /** Attempt `attempt` and the ones after it. */
  function Attempt(property: Val, prompt: Prompt, env: Env, attempt: nat, waits: seq<nat>): (Val, seq<nat>)
    requires attempt < MAX_RETRIES
    decreases MAX_RETRIES - attempt, 0
  {
    match AttemptOutcome(property, prompt, env, attempt)
    case Done(response) => (response, waits)
    case Abort(m) => (FailureResponse(property, m), waits)
    case Retry(w, m) => Retrying(property, prompt, env, attempt + 1, m, waits + [w])
  }

  /** One attempt of the retry loop, by its outcome. */
  lemma AttemptStep(property: Val, prompt: Prompt, env: Env, attempt: nat, last: string, waits: seq<nat>)
    requires attempt < MAX_RETRIES
    ensures var o := AttemptOutcome(property, prompt, env, attempt);
      var here := Retrying(property, prompt, env, attempt, last, waits);
      (o.Done? ==> here == (o.response, waits)) &&
      (o.Abort? ==> here == (FailureResponse(property, o.message), waits)) &&
      (o.Retry? ==> here == Retrying(property, prompt, env, attempt + 1, o.message, waits + [o.wait]))
  {
    assert Retrying(property, prompt, env, attempt, last, waits) == Attempt(property, prompt, env, attempt, waits);
  }

  /** A response that passed `validateResponse`, or the failure shape
      `{property, value: [], error}`. */
  predicate Resolved(property: Val, r: Val) {
    ResponseValid(r) ||
    (Get(r, "property") == Get(property, "label") && Get(r, "value") == Arr([]) && Get(r, "error").Str?)
  }

  /** The wait after attempt `n` (counting from 1) is 1000 after a syntax
      error and `min(n * 100, 600)` after a rate limit. */
  predicate WaitsOk(waits: seq<nat>) {
    forall i :: 0 <= i < |waits| ==> waits[i] == 1000 || waits[i] == Backoff(i + 1)
  }

  /** The retry loop resolves to a response that passed `validateResponse`
      or to the failure shape, after at most one wait per attempt, each wait
      being the one for its attempt. */
  lemma {:induction false} RetryShape(property: Val, prompt: Prompt, env: Env, attempt: nat, last: string, waits: seq<nat>)
    requires attempt <= MAX_RETRIES && |waits| == attempt && WaitsOk(waits)
    ensures var (r, all) := Retrying(property, prompt, env, attempt, last, waits);
      Resolved(property, r) && |all| <= MAX_RETRIES && WaitsOk(all)
    decreases MAX_RETRIES - attempt
  {
    if attempt < MAX_RETRIES {
      var o := AttemptOutcome(property, prompt, env, attempt);
      assert Retrying(property, prompt, env, attempt, last, waits) == Attempt(property, prompt, env, attempt, waits);
      AttemptShape(property, prompt, env, attempt);
      if o.Retry? {
        var next := waits + [o.wait];
        assert next[attempt] == o.wait;
        assert forall i :: 0 <= i < attempt ==> next[i] == waits[i];
        RetryShape(property, prompt, env, attempt + 1, o.message, next);
      }
    }
  }

  /** The sections as the prompt shows them: `### name ###` and the text, for
      each entry, separated by blank lines. */
  function SectionsText(sections: Val): string {
    var es := Entries(sections);
    Join(seq(|es|, i requires 0 <= i < |es| => "### " + es[i].0 + " ###\n" + ToStr(es[i].1)), "\n\n")
  }

  /** The cache after `analyze`: rebuilt when empty or forced;
      `Object.entries` of `null` or `undefined` throws and leaves it alone. */
  function CacheAfter(cache: string, sections: Val, forceUpdate: bool): string {
    if (cache == "" || forceUpdate) && !IsNullish(sections) then SectionsText(sections) else cache
  }

  /** `analyze(property, sections, forceUpdate)` with the cache `cache`: the
      response and the waits. Every error is caught and becomes the failure
      shape, except for a null or undefined property, whose label the
      `catch` reads again. */
  function AnalyzeSpec(property: Val, sections: Val, cache: string, forceUpdate: bool, env: Env): Result<(Val, seq<nat>)> {
    if IsNullish(property) then Failure(ReadError(property, "label"))
    else if (cache == "" || forceUpdate) && IsNullish(sections) then
      Success((FailureResponse(property, "Cannot convert undefined or null to object"), []))
    else Success(Retrying(property, PromptFor(property, CacheAfter(cache, sections, forceUpdate)), env, 0, "", []))
  }

  /** For a property that is not null, `analyze` resolves to a valid
      response or the failure shape, after at most five waits. */
  lemma AnalyzeNeverThrows(property: Val, sections: Val, cache: string, forceUpdate: bool, env: Env)
    requires !IsNullish(property)
    ensures var a := AnalyzeSpec(property, sections, cache, forceUpdate, env);
      a.Success? && Resolved(property, a.value.0) && |a.value.1| <= MAX_RETRIES && WaitsOk(a.value.1)
  {
    var a := AnalyzeSpec(property, sections, cache, forceUpdate, env);
    if (cache == "" || forceUpdate) && IsNullish(sections) {
      var f := FailureResponse(property, "Cannot convert undefined or null to object");
      assert a == Success((f, []));
    } else {
      var prompt := PromptFor(property, CacheAfter(cache, sections, forceUpdate));
      assert a == Success(Retrying(property, prompt, env, 0, "", []));
      RetryShape(property, prompt, env, 0, "", []);
    }
  }

  // ---------------------------------------------------------------------
  // analyzePaperSections

  /** `template.template?.properties || template.properties`. */
  function PropertiesOf(template: Val): Val {
    Or(Get(Get(template, "template"), "properties"), Get(template, "properties"))
  }

  /** The key of a property in `results`: its `id` as a property key. */
  function IdKey(p: Val): string {
    ToKey(Get(p, "id"))
  }

  /** `{...response, label: property.label, type: property.type}`. */
  function Labelled(response: Val, p: Val): (r: Val)
    ensures Get(r, "label") == Get(p, "label") && Get(r, "type") == Get(p, "type")
    ensures forall k :: k != "label" && k != "type" ==> Get(r, k) == Get(response, k)
  {
    With(With(response, "label", Get(p, "label")), "type", Get(p, "type"))
  }

  /** `analyze(property, sections)` as `analyzePaperSections` calls it: on
      the cache `cache`, which is already built. */
  datatype Analysis = AnalysisWith(cache: string, env: Env)

  /** The response and the waits of analysing `p`. */
  function Run(run: Analysis, p: Val): (Val, seq<nat>) {
    Retrying(p, PromptFor(p, run.cache), run.env, 0, "", [])
  }

  /** The result entry of a property: its response, labelled. */
  function PropertyResult(p: Val, run: Analysis): Val {
    Labelled(Run(run, p).0, p)
  }

  /** The waits of analysing a property, followed by the pause before the next. */
  function PropertyWaits(p: Val, run: Analysis, last: bool): seq<nat> {
    Run(run, p).1 + if last then [] else [PROPERTY_DELAY]
  }

  /** The loop over the properties from index `i` on, with the results
      `acc` and the waits `waits` so far: logging the label of a null or
      undefined property throws. */
  function ResultsFrom(ps: seq<Val>, i: nat, run: Analysis, acc: Val, waits: seq<nat>): Result<(Val, seq<nat>)>
    requires i <= |ps|
    decreases |ps| - i
  {
    if i == |ps| then Success((acc, waits))
    else if IsNullish(ps[i]) then Failure(ReadError(ps[i], "label"))
    else
      ResultsFrom(ps, i + 1, run, With(acc, IdKey(ps[i]), PropertyResult(ps[i], run)),
                  waits + PropertyWaits(ps[i], run, i == |ps| - 1))
  }

  /** One property of the loop: its labelled result recorded, its waits
      and the pause after it appended. */
  lemma ResultsFromStep(ps: seq<Val>, i: nat, run: Analysis, acc: Val, waits: seq<nat>, response: Val, w: seq<nat>)
    requires i < |ps| && !IsNullish(ps[i]) && (response, w) == Run(run, ps[i])
    ensures ResultsFrom(ps, i, run, acc, waits) ==
      ResultsFrom(ps, i + 1, run, With(acc, IdKey(ps[i]), Labelled(response, ps[i])),
                  waits + (w + if i < |ps| - 1 then [PROPERTY_DELAY] else []))
  {
  }

  /** On a cache that `analyze` keeps, it resolves to what the loop of
      `analyzePaperSections` records for the property. */
  lemma AnalyzeOnBuiltCache(property: Val, sections: Val, cache: string, env: Env)
    requires !IsNullish(property) && !IsNullish(sections)
    requires CacheAfter(cache, sections, false) == cache
    ensures AnalyzeSpec(property, sections, cache, false, env) == Success(Run(AnalysisWith(cache, env), property))
  {
  }

  /** The cache after `analyzePaperSections`: built from the sections only
      when it is empty. */
  function PaperCache(cache: string, sections: Val): string {
    if cache == "" then SectionsText(sections) else cache
  }

  /** `analyzePaperSections(sections, template)` with the cache `cache`: the
      results and the waits, or the message of the error it rethrows. */
  function PaperSpec(sections: Val, template: Val, cache: string, env: Env): Result<(Val, seq<nat>)> {
    if !Truthy(sections) || TypeOf(sections) != "object" then Failure("Invalid sections format")
    else if IsNullish(template) then Failure(ReadError(template, "template"))
    else if !PropertiesOf(template).Arr? then Failure("Invalid template structure: no properties found")
    else ResultsFrom(PropertiesOf(template).items, 0, AnalysisWith(PaperCache(cache, sections), env), EMPTY, [])
  }

  /** Some property from index `i` on has the id key `k`. */
  predicate IdFrom(ps: seq<Val>, i: nat, k: string) {
    exists j :: i <= j < |ps| && IdKey(ps[j]) == k
  }

  /** No property after index `j` shares the id of property `j`. */
  predicate LastWithId(ps: seq<Val>, j: nat)
    requires j < |ps|
  {
    forall l :: j < l < |ps| ==> IdKey(ps[l]) != IdKey(ps[j])
  }

  lemma IdFromStep(ps: seq<Val>, i: nat, k: string)
    requires i < |ps|
    ensures IdFrom(ps, i, k) <==> k == IdKey(ps[i]) || IdFrom(ps, i + 1, k)
  {
    if IdFrom(ps, i, k) && k != IdKey(ps[i]) {
      var j :| i <= j < |ps| && IdKey(ps[j]) == k;
      assert i + 1 <= j;
    }
    if IdFrom(ps, i + 1, k) {
      var j :| i + 1 <= j < |ps| && IdKey(ps[j]) == k;
    }
  }

  /** The loop fails exactly when a property is null or undefined. */
  lemma {:induction false} ResultsFromFails(ps: seq<Val>, i: nat, run: Analysis, acc: Val, waits: seq<nat>)
    requires i <= |ps|
    ensures ResultsFrom(ps, i, run, acc, waits).Success? <==> forall j :: i <= j < |ps| ==> !IsNullish(ps[j])
    decreases |ps| - i
  {
    if i < |ps| && !IsNullish(ps[i]) {
      var next := With(acc, IdKey(ps[i]), PropertyResult(ps[i], run));
      var ws := waits + PropertyWaits(ps[i], run, i == |ps| - 1);
      assert ResultsFrom(ps, i, run, acc, waits) == ResultsFrom(ps, i + 1, run, next, ws);
      ResultsFromFails(ps, i + 1, run, next, ws);
      assert (forall j :: i <= j < |ps| ==> !IsNullish(ps[j])) <==> (forall j :: i + 1 <= j < |ps| ==> !IsNullish(ps[j]));
    }
  }

  /** When the loop succeeds, `results` has an entry for a key exactly when
      the key was there before or is the id of some property. */
  lemma {:induction false} ResultsFromKeys(ps: seq<Val>, i: nat, run: Analysis, acc: Val, waits: seq<nat>)
    requires i <= |ps|
    ensures var r := ResultsFrom(ps, i, run, acc, waits);
      r.Success? ==> forall k :: Has(r.value.0, k) <==> Has(acc, k) || IdFrom(ps, i, k)
    decreases |ps| - i
  {
    if i < |ps| && !IsNullish(ps[i]) {
      var next := With(acc, IdKey(ps[i]), PropertyResult(ps[i], run));
      var ws := waits + PropertyWaits(ps[i], run, i == |ps| - 1);
      assert ResultsFrom(ps, i, run, acc, waits) == ResultsFrom(ps, i + 1, run, next, ws);
      ResultsFromKeys(ps, i + 1, run, next, ws);
      var r := ResultsFrom(ps, i + 1, run, next, ws);
      if r.Success? {
        forall k ensures Has(r.value.0, k) <==> Has(acc, k) || IdFrom(ps, i, k) {
          assert Has(r.value.0, k) <==> Has(next, k) || IdFrom(ps, i + 1, k);
          assert Has(next, k) <==> k == IdKey(ps[i]) || Has(acc, k);
          IdFromStep(ps, i, k);
        }
      }
    }
  }

  /** When the loop succeeds, the entry of a property that no later property
      shares its id with is that property's result. */
  lemma {:induction false} ResultsFromLast(ps: seq<Val>, i: nat, run: Analysis, acc: Val, waits: seq<nat>)
    requires i <= |ps|
    ensures var r := ResultsFrom(ps, i, run, acc, waits);
      r.Success? ==> forall j :: i <= j < |ps| && LastWithId(ps, j) ==>
        Get(r.value.0, IdKey(ps[j])) == PropertyResult(ps[j], run)
    decreases |ps| - i
  {
    if i < |ps| && !IsNullish(ps[i]) {
      var next := With(acc, IdKey(ps[i]), PropertyResult(ps[i], run));
      var ws := waits + PropertyWaits(ps[i], run, i == |ps| - 1);
      assert ResultsFrom(ps, i, run, acc, waits) == ResultsFrom(ps, i + 1, run, next, ws);
      ResultsFromLast(ps, i + 1, run, next, ws);
      var r := ResultsFrom(ps, i, run, acc, waits);
      if r.Success? {
        forall j | i <= j < |ps| && LastWithId(ps, j)
          ensures Get(r.value.0, IdKey(ps[j])) == PropertyResult(ps[j], run)
        {
          if j == i {
            ResultsFromUntouched(ps, i + 1, run, next, ws, IdKey(ps[i]));
          }
        }
      }
    }
  }

  /** A key that no property from index `i` on has keeps its entry. */
  lemma {:induction false} ResultsFromUntouched(ps: seq<Val>, i: nat, run: Analysis, acc: Val, waits: seq<nat>, k: string)
    requires i <= |ps|
    requires forall l :: i <= l < |ps| ==> IdKey(ps[l]) != k
    ensures var r := ResultsFrom(ps, i, run, acc, waits);
      r.Success? ==> Get(r.value.0, k) == Get(acc, k)
    decreases |ps| - i
  {
    if i < |ps| && !IsNullish(ps[i]) {
      var next := With(acc, IdKey(ps[i]), PropertyResult(ps[i], run));
      var ws := waits + PropertyWaits(ps[i], run, i == |ps| - 1);
      assert ResultsFrom(ps, i, run, acc, waits) == ResultsFrom(ps, i + 1, run, next, ws);
      ResultsFromUntouched(ps, i + 1, run, next, ws, k);
      assert Get(next, k) == Get(acc, k);
    }
  }

  /** `analyzePaperSections` fails only on a bad argument or a null or
      undefined property; otherwise `results` has exactly one entry per
      property id, and that entry is the labelled response of the last
      property with that id, which passed `validateResponse` or is the
      failure shape. */
  lemma OneEntryPerId(sections: Val, template: Val, cache: string, env: Env)
    requires Truthy(sections) && TypeOf(sections) == "object" && !IsNullish(template)
    requires PropertiesOf(template).Arr?
    ensures var ps := PropertiesOf(template).items;
      var r := PaperSpec(sections, template, cache, env);
      (r.Success? <==> forall j :: 0 <= j < |ps| ==> !IsNullish(ps[j])) &&
      (r.Success? ==>
        (forall k :: Has(r.value.0, k) <==> IdFrom(ps, 0, k)) &&
        (forall j :: 0 <= j < |ps| && LastWithId(ps, j) ==>
          Get(r.value.0, IdKey(ps[j])) == PropertyResult(ps[j], AnalysisWith(PaperCache(cache, sections), env))))
  {
    var ps := PropertiesOf(template).items;
    var run := AnalysisWith(PaperCache(cache, sections), env);
    ResultsFromFails(ps, 0, run, EMPTY, []);
    ResultsFromKeys(ps, 0, run, EMPTY, []);
    ResultsFromLast(ps, 0, run, EMPTY, []);
  }

  /** The entry of a property is labelled with the property's label and type
      and is a response that passed `validateResponse` or the failure shape. */
  lemma PropertyResultShape(p: Val, cache: string, env: Env)
    requires !IsNullish(p)
    ensures var response := Run(AnalysisWith(cache, env), p).0;
      var r := PropertyResult(p, AnalysisWith(cache, env));
      Get(r, "label") == Get(p, "label") && Get(r, "type") == Get(p, "type") &&
      Resolved(p, response)
  {
    RetryShape(p, PromptFor(p, cache), env, 0, "", []);
  }

  /** Once the cache holds text, the sections passed to
      `analyzePaperSections` are not read again: two calls with different
      sections give the same results. */
  lemma CachedSectionsReused(s1: Val, s2: Val, template: Val, cache: string, env: Env)
    requires cache != ""
    requires Truthy(s1) && TypeOf(s1) == "object" && Truthy(s2) && TypeOf(s2) == "object"
    ensures PaperSpec(s1, template, cache, env) == PaperSpec(s2, template, cache, env)
  {
  }

  // ---------------------------------------------------------------------
  // The service object

  /** The service instance: its only state is the section cache, where
      `""` stands for the initial `null` (both are falsy). */
  class LlmService {
    var cachedSections: string

    constructor()
      ensures cachedSections == ""
    {
      cachedSections := "";
    }

    /** `analyze(property, sections, forceUpdate)`: the response it resolves
        to, or `Failure` when it rejects, and the waits between attempts. */
    method Analyze(property: Val, sections: Val, forceUpdate: bool, env: Env) returns (r: Result<Val>, waits: seq<nat>)
      modifies this
      ensures cachedSections == CacheAfter(old(cachedSections), sections, forceUpdate)
      ensures var spec := AnalyzeSpec(property, sections, old(cachedSections), forceUpdate, env);
        r.Success? == spec.Success? && (r.Success? ==> (r.value, waits) == spec.value)
    {
      ghost var spec := AnalyzeSpec(property, sections, cachedSections, forceUpdate, env);
      ghost var cache := CacheAfter(cachedSections, sections, forceUpdate);
      if (cachedSections == "" || forceUpdate) && IsNullish(sections) {
        if IsNullish(property) {
          assert spec == Failure(ReadError(property, "label"));
          return Failure(ReadError(property, "label")), [];
        }
        assert spec == Success((FailureResponse(property, "Cannot convert undefined or null to object"), []));
        return Success(FailureResponse(property, "Cannot convert undefined or null to object")), [];
      }
      if cachedSections == "" || forceUpdate {
        cachedSections := SectionsText(sections);
      }
      assert cachedSections == cache;
      if IsNullish(property) {
        assert spec == Failure(ReadError(property, "label"));
        return Failure(ReadError(property, "label")), [];
      }
      var prompt := PromptFor(property, cachedSections);
      var response;
      response, waits := RetryLoop(property, prompt, env);
      assert spec == Success((response, waits));
      return Success(response), waits;
    }

    /** The `try` block of one attempt: the validated response, or the
        message of the error caught and whether it is a `SyntaxError`. */
    static method TryOnce(property: Val, prompt: Prompt, env: Env, attempt: nat)
      returns (done: bool, response: Val, message: string, syntaxError: bool)
      ensures done ==> AttemptOutcome(property, prompt, env, attempt) == Done(response)
      ensures !done ==> AttemptOutcome(property, prompt, env, attempt) == OnError(message, syntaxError, attempt + 1)
    {
      response, message, syntaxError := Null, "", false;
      match env.llm(prompt, attempt) {
        case Answer(raw) =>
          response := CleanResponse(raw, property, env);
          var check := ValidateResponse(response);
          if check.Success? {
            return true, response, message, syntaxError;
          }
          message := check.error;
        case Thrown(m, se) =>
          message, syntaxError := m, se;
      }
      done := false;
    }

    /** The `while (attempts < MAX_RETRIES)` loop and the `throw lastError`
        after it, caught into the failure shape. */
    static method RetryLoop(property: Val, prompt: Prompt, env: Env) returns (r: Val, waits: seq<nat>)
      ensures (r, waits) == Retrying(property, prompt, env, 0, "", [])
    {
      var attempts: nat := 0;
      var lastError := "";
      waits := [];
      while attempts < MAX_RETRIES
        invariant attempts <= MAX_RETRIES && |waits| == attempts
        invariant Retrying(property, prompt, env, 0, "", []) == Retrying(property, prompt, env, attempts, lastError, waits)
        decreases MAX_RETRIES - attempts
      {
        var done, response, message, syntaxError := TryOnce(property, prompt, env, attempts);
        if done {
          AttemptStep(property, prompt, env, attempts, lastError, waits);
          return response, waits;
        }
        AttemptStep(property, prompt, env, attempts, lastError, waits);
        if RateLimited(message) {
          waits := waits + [Backoff(attempts + 1)];
        } else if syntaxError {
          waits := waits + [1000];
        } else {
          return FailureResponse(property, message), waits;
        }
        lastError := message;
        attempts := attempts + 1;
      }
      return FailureResponse(property, lastError), waits;
    }

    /** `analyzePaperSections(sections, template)`: the results, or the
        message of the error it rethrows, and every wait on the way. */
    method AnalyzePaperSections(sections: Val, template: Val, env: Env) returns (r: Result<Val>, waits: seq<nat>)
      modifies this
      ensures var spec := PaperSpec(sections, template, old(cachedSections), env);
        r.Success? == spec.Success? && (r.Success? ==> (r.value, waits) == spec.value)
      ensures Truthy(sections) && TypeOf(sections) == "object" && !IsNullish(template) && PropertiesOf(template).Arr? ==>
        cachedSections == PaperCache(old(cachedSections), sections)
    {
      ghost var before := cachedSections;
      waits := [];
      ghost var spec := PaperSpec(sections, template, before, env);
      if !Truthy(sections) || TypeOf(sections) != "object" {
        assert spec == Failure("Invalid sections format");
        return Failure("Invalid sections format"), waits;
      }
      if IsNullish(template) {
        assert spec == Failure(ReadError(template, "template"));
        return Failure(ReadError(template, "template")), waits;
      }
      var properties := PropertiesOf(template);
      if !properties.Arr? {
        assert spec == Failure("Invalid template structure: no properties found");
        return Failure("Invalid template structure: no properties found"), waits;
      }
      if cachedSections == "" {
        cachedSections := SectionsText(sections);
      }
      assert cachedSections == PaperCache(before, sections);
      assert spec == ResultsFrom(properties.items, 0, AnalysisWith(cachedSections, env), EMPTY, []);
      r, waits := AnalyzeProperties(properties.items, sections, env);
    }

    /** `this.analyze(property, sections, false)` inside that loop: the cache
        is already built, so the call cannot fail and keeps the cache. */
    method AnalyzeOnCache(property: Val, sections: Val, env: Env) returns (response: Val, waits: seq<nat>)
      requires !IsNullish(property) && !IsNullish(sections)
      requires CacheAfter(cachedSections, sections, false) == cachedSections
      modifies this
      ensures cachedSections == old(cachedSections)
      ensures (response, waits) == Run(AnalysisWith(cachedSections, env), property)
    {
      var r;
      r, waits := Analyze(property, sections, false, env);
      AnalyzeOnBuiltCache(property, sections, cachedSections, env);
      response := r.value;
    }

    /** The loop of `analyzePaperSections` over the properties, on a cache
        that `analyze` does not rebuild from `sections`. */
    method AnalyzeProperties(ps: seq<Val>, sections: Val, env: Env) returns (r: Result<Val>, waits: seq<nat>)
      requires !IsNullish(sections) && CacheAfter(cachedSections, sections, false) == cachedSections
      modifies this
      ensures cachedSections == old(cachedSections)
      ensures var spec := ResultsFrom(ps, 0, AnalysisWith(cachedSections, env), EMPTY, []);
        r.Success? == spec.Success? && (r.Success? ==> (r.value, waits) == spec.value)
    {
      ghost var run := AnalysisWith(cachedSections, env);
      var results := EMPTY;
      var i := 0;
      waits := [];
      while i < |ps|
        invariant 0 <= i <= |ps| && cachedSections == old(cachedSections)
        invariant ResultsFrom(ps, 0, run, EMPTY, []) == ResultsFrom(ps, i, run, results, waits)
      {
        var property := ps[i];
        ghost var here := ResultsFrom(ps, i, run, results, waits);
        if IsNullish(property) {
          assert here == Failure(ReadError(property, "label"));
          return Failure(ReadError(property, "label")), waits;
        }
        var response, analyzeWaits := AnalyzeOnCache(property, sections, env);
        ResultsFromStep(ps, i, run, results, waits, response, analyzeWaits);
        results := With(results, IdKey(property), Labelled(response, property));
        waits := waits + (analyzeWaits + if i < |ps| - 1 then [PROPERTY_DELAY] else []);
        i := i + 1;
      }
      return Success(results), waits;
    }
  }
}
