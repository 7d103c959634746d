/** Editing the template the language model proposed: the edit handlers
    that replace the edited template, the property validation, and the
    comparison of the final template with the original one. */
module AiTemplateCreation {
  import opened Wrappers
  import opened JsString
  import opened JsValue

  /** `p.id`. */
  function IdOf(p: Val): Val {
    Get(p, "id")
  }

  /** `properties.findIndex(p => p.id === id)`. */
  function IndexOfId(ps: seq<Val>, id: Val): (r: int)
    ensures -1 <= r < |ps|
    ensures r >= 0 ==> IdOf(ps[r]) == id && forall j :: 0 <= j < r ==> IdOf(ps[j]) != id
    ensures r == -1 <==> forall j :: 0 <= j < |ps| ==> IdOf(ps[j]) != id
  {
    if ps == [] then -1
    else if IdOf(ps[0]) == id then 0
    else
      var i := IndexOfId(ps[1..], id);
      if i == -1 then -1 else i + 1
  }

  /** `properties.some(p => p.id === id)`. */
  predicate HasId(ps: seq<Val>, id: Val) {
    IndexOfId(ps, id) >= 0
  }

  lemma HasIdOfMember(ps: seq<Val>, p: Val)
    requires p in ps
    ensures HasId(ps, IdOf(p))
  {
    var j :| 0 <= j < |ps| && ps[j] == p;
    assert IdOf(ps[j]) == IdOf(p);
  }

  /** The template's properties; the component requires them to be an array. */
  function PropertiesOf(template: Val): seq<Val> {
    ItemsOf(Get(template, "properties"))
  }

  /** A template the handlers can work on: `properties` is an array of
      objects (reading `id` of a missing property would throw). */
  predicate Editable(template: Val) {
    template.Obj? && Get(template, "properties").Arr? &&
    forall j :: 0 <= j < |PropertiesOf(template)| ==> PropertiesOf(template)[j].Obj?
  }

  // ---- validateProperty ----

  /** `!x?.trim()`: a missing value or a blank string. */
  predicate Blank(x: Val)
    requires IsNullish(x) || x.Str?
  {
    IsNullish(x) || Trim(x.s) == ""
  }

  /** `validateProperty`: one message per missing part, keyed by the part,
      in the order label, description, type. */
  function ValidateProperty(p: Val): (errors: Val)
    requires IsNullish(Get(p, "label")) || Get(p, "label").Str?
    requires IsNullish(Get(p, "description")) || Get(p, "description").Str?
    ensures errors.Obj?
    ensures Has(errors, "label") <==> Blank(Get(p, "label"))
    ensures Has(errors, "description") <==> Blank(Get(p, "description"))
    ensures Has(errors, "type") <==> !Truthy(Get(p, "type"))
    ensures forall k :: Has(errors, k) ==> k == "label" || k == "description" || k == "type"
    ensures Has(errors, "label") ==> Get(errors, "label") == Str("Property name is required")
    ensures Has(errors, "description") ==> Get(errors, "description") == Str("Description is required")
    ensures Has(errors, "type") ==> Get(errors, "type") == Str("Type is required")
  {
    var l, d, t := Blank(Get(p, "label")), Blank(Get(p, "description")), !Truthy(Get(p, "type"));
    Obj((if l then ["label"] else []) + (if d then ["description"] else []) + (if t then ["type"] else []),
        (if l then map["label" := Str("Property name is required")] else map[]) +
        (if d then map["description" := Str("Description is required")] else map[]) +
        (if t then map["type" := Str("Type is required")] else map[]))
  }

  /** A property is valid (no errors) exactly when its label and description
      have text and it has a type. */
  lemma ValidIff(p: Val)
    requires IsNullish(Get(p, "label")) || Get(p, "label").Str?
    requires IsNullish(Get(p, "description")) || Get(p, "description").Str?
    ensures KeysOf(ValidateProperty(p)) == [] <==>
      Get(p, "label").Str? && Trim(Get(p, "label").s) != "" &&
      Get(p, "description").Str? && Trim(Get(p, "description").s) != "" &&
      Truthy(Get(p, "type"))
  {
  }

  // ---- the new edited template of each handler ----

  /** `properties.map(p => p.id === id ? {...p, [field]: value} : p)`. */
  function SetField(ps: seq<Val>, id: Val, field: string, value: Val): (r: seq<Val>)
    ensures |r| == |ps|
  {
    seq(|ps|, j requires 0 <= j < |ps| => if IdOf(ps[j]) == id then With(ps[j], field, value) else ps[j])
  }

  /** `properties.filter(p => p.id !== id)`. */
  function RemoveId(ps: seq<Val>, id: Val): (r: seq<Val>)
    ensures |r| <= |ps|
  {
    if ps == [] then []
    else if IdOf(ps[0]) == id then RemoveId(ps[1..], id)
    else [ps[0]] + RemoveId(ps[1..], id)
  }

  /** The filter keeps exactly the properties with another id, and drops at
      least one when some property has the id. */
  lemma {:induction false} RemoveIdSpec(ps: seq<Val>, id: Val)
    ensures forall j :: 0 <= j < |RemoveId(ps, id)| ==> IdOf(RemoveId(ps, id)[j]) != id
    ensures forall p :: p in RemoveId(ps, id) <==> p in ps && IdOf(p) != id
    ensures HasId(ps, id) ==> |RemoveId(ps, id)| < |ps|
  {
    if ps != [] {
      RemoveIdSpec(ps[1..], id);
      assert forall p :: p in ps <==> p == ps[0] || p in ps[1..];
    }
  }

  /** With distinct ids, deleting the property at index `i` by its id leaves
      the others in their order. */
  lemma {:induction false} RemoveUniqueId(ps: seq<Val>, i: nat)
    requires i < |ps|
    requires DistinctIds(ps)
    ensures RemoveId(ps, IdOf(ps[i])) == ps[..i] + ps[i + 1..]
  {
    var id := IdOf(ps[i]);
    if i == 0 {
      KeepAll(ps[1..], id);
    } else {
      RemoveUniqueId(ps[1..], i - 1);
      assert IdOf(ps[1..][i - 1]) == id;
      assert IdOf(ps[0]) != id;
      assert ps[..i] + ps[i + 1..] == [ps[0]] + (ps[1..][..i - 1] + ps[1..][i..]);
    }
  }

  /** Filtering out an id no property has keeps every property. */
  lemma {:induction false} KeepAll(ps: seq<Val>, id: Val)
    requires forall j :: 0 <= j < |ps| ==> IdOf(ps[j]) != id
    ensures RemoveId(ps, id) == ps
  {
    if ps != [] {
      KeepAll(ps[1..], id);
      assert [ps[0]] + ps[1..] == ps;
    }
  }

  /** The property "Add Property" appends: no label or description yet, a
      text value, required. */
  function NewProperty(id: string): (p: Val)
    ensures Get(p, "id") == Str(id) && Get(p, "label") == Str("") && Get(p, "description") == Str("")
    ensures Get(p, "type") == Str("text") && Get(p, "required") == Bool(true)
  {
    Obj(["id", "label", "description", "type", "required", "value", "confidence", "evidence", "source_section"],
        map["id" := Str(id), "label" := Str(""), "description" := Str(""), "type" := Str("text"),
            "required" := Bool(true), "value" := Null, "confidence" := Null, "evidence" := Null,
            "source_section" := Null])
  }

  /** `{...template, properties, metadata: {...template.metadata, total_properties: |properties|}}`. */
  function WithProperties(template: Val, properties: seq<Val>): (r: Val)
    ensures r.Obj? && PropertiesOf(r) == properties && Get(r, "properties").Arr?
    ensures Get(Get(r, "metadata"), "total_properties") == N(|properties|)
    ensures forall k :: k != "total_properties" ==> Get(Get(r, "metadata"), k) == Get(Get(template, "metadata"), k)
    ensures forall k :: k != "properties" && k != "metadata" ==> Get(r, k) == Get(template, k)
  {
    var metadata := With(Get(template, "metadata"), "total_properties", N(|properties|));
    With(With(template, "properties", Arr(properties)), "metadata", metadata)
  }

  // ---- getFinalStateComparison ----

  /** The properties of `ps` whose id no property of `others` has. */
  function Unmatched(ps: seq<Val>, others: seq<Val>): (r: seq<Val>)
    ensures |r| <= |ps|
  {
    if ps == [] then []
    else (if HasId(others, IdOf(ps[0])) then [] else [ps[0]]) + Unmatched(ps[1..], others)
  }

  lemma {:induction false} UnmatchedSpec(ps: seq<Val>, others: seq<Val>)
    ensures forall p :: p in Unmatched(ps, others) <==> p in ps && !HasId(others, IdOf(p))
  {
    if ps != [] {
      UnmatchedSpec(ps[1..], others);
      assert forall p :: p in ps <==> p == ps[0] || p in ps[1..];
    }
  }

  /** The four parts of a property whose change counts as a modification. */
  predicate Differs(original: Val, p: Val) {
    Get(original, "label") != Get(p, "label") ||
    Get(original, "description") != Get(p, "description") ||
    Get(original, "required") != Get(p, "required") ||
    Get(original, "type") != Get(p, "type")
  }

  /** A property of the final template that the original had under the same
      id (the first one with it) and that differs from it. */
  predicate IsModified(original: seq<Val>, p: Val) {
    var i := IndexOfId(original, IdOf(p));
    i >= 0 && Differs(original[i], p)
  }

  /** The properties of `ps` modified with respect to `original`. */
  function ModifiedOf(ps: seq<Val>, original: seq<Val>): (r: seq<Val>)
    ensures |r| <= |ps|
  {
    if ps == [] then []
    else (if IsModified(original, ps[0]) then [ps[0]] else []) + ModifiedOf(ps[1..], original)
  }

  lemma {:induction false} ModifiedOfSpec(ps: seq<Val>, original: seq<Val>)
    ensures forall p :: p in ModifiedOf(ps, original) <==> p in ps && IsModified(original, p)
  {
    if ps != [] {
      ModifiedOfSpec(ps[1..], original);
      assert forall p :: p in ps <==> p == ps[0] || p in ps[1..];
    }
  }

  datatype Comparison = Comparison(
    titleChanged: bool,
    descriptionChanged: bool,
    added: seq<Val>,
    deleted: seq<Val>,
    modified: seq<Val>)

  /** `getFinalStateComparison`. */
  function FinalStateComparison(original: Val, edited: Val): Comparison {
    var os, es := PropertiesOf(original), PropertiesOf(edited);
    Comparison(
      Get(original, "name") != Get(edited, "name"),
      Get(original, "description") != Get(edited, "description"),
      Unmatched(es, os), Unmatched(os, es), ModifiedOf(es, os))
  }

  /** Added are the final properties whose id the original lacks, deleted
      the original ones whose id the final template lacks, modified the final
      ones whose original counterpart differs in label, description,
      required or type. */
  lemma ComparisonMembers(original: Val, edited: Val)
    ensures var c := FinalStateComparison(original, edited);
      var os, es := PropertiesOf(original), PropertiesOf(edited);
      (forall p :: p in c.added <==> p in es && !HasId(os, IdOf(p))) &&
      (forall p :: p in c.deleted <==> p in os && !HasId(es, IdOf(p))) &&
      (forall p :: p in c.modified <==> p in es && IsModified(os, p)) &&
      (c.titleChanged <==> Get(original, "name") != Get(edited, "name")) &&
      (c.descriptionChanged <==> Get(original, "description") != Get(edited, "description"))
  {
    var os, es := PropertiesOf(original), PropertiesOf(edited);
    UnmatchedSpec(es, os);
    UnmatchedSpec(os, es);
    ModifiedOfSpec(es, os);
  }

  /** No property is counted twice: the added, deleted and modified
      properties have pairwise different ids. */
  lemma ComparisonDisjoint(original: Val, edited: Val)
    ensures var c := FinalStateComparison(original, edited);
      (forall p, q :: p in c.added && q in c.deleted ==> IdOf(p) != IdOf(q)) &&
      (forall p, q :: p in c.added && q in c.modified ==> IdOf(p) != IdOf(q)) &&
      (forall p, q :: p in c.modified && q in c.deleted ==> IdOf(p) != IdOf(q))
  {
    var os, es := PropertiesOf(original), PropertiesOf(edited);
    var added, deleted, modified := Unmatched(es, os), Unmatched(os, es), ModifiedOf(es, os);
    UnmatchedSpec(es, os);
    UnmatchedSpec(os, es);
    ModifiedOfSpec(es, os);
    forall p, q | p in added && q in deleted ensures IdOf(p) != IdOf(q) {
      HasIdOfMember(os, q);
    }
    forall p, q | p in added && q in modified ensures IdOf(p) != IdOf(q) {
    }
    forall p, q | p in modified && q in deleted ensures IdOf(p) != IdOf(q) {
      HasIdOfMember(es, p);
    }
  }

  /** Properties with distinct ids. */
  predicate DistinctIds(ps: seq<Val>) {
    forall a, b :: 0 <= a < b < |ps| ==> IdOf(ps[a]) != IdOf(ps[b])
  }

  /** Comparing a template whose property ids are distinct with itself finds
      nothing added, deleted or modified. */
  lemma SelfComparisonEmpty(t: Val)
    requires DistinctIds(PropertiesOf(t))
    ensures var c := FinalStateComparison(t, t);
      c.added == [] && c.deleted == [] && c.modified == [] &&
      !c.titleChanged && !c.descriptionChanged
  {
    var ps := PropertiesOf(t);
    NoneUnmatched(ps);
    NoneModified(ps);
  }

  lemma NoneUnmatched(ps: seq<Val>)
    ensures Unmatched(ps, ps) == []
  {
    UnmatchedSpec(ps, ps);
    var unmatched := Unmatched(ps, ps);
    if unmatched != [] {
      HasIdOfMember(ps, unmatched[0]);
      assert false;
    }
  }

  lemma NoneModified(ps: seq<Val>)
    requires DistinctIds(ps)
    ensures ModifiedOf(ps, ps) == []
  {
    ModifiedOfSpec(ps, ps);
    var modified := ModifiedOf(ps, ps);
    if modified != [] {
      var p := modified[0];
      assert p in modified;
      assert p in ps;
      var j :| 0 <= j < |ps| && ps[j] == p;
      assert false;
    }
  }

  /** With a repeated id, the second property is compared against the first
      one: a template compared with itself can report a modification. */
  lemma DuplicateIdSelfModified()
    ensures var a := Obj(["id", "label"], map["id" := Str("p"), "label" := Str("a")]);
      var b := Obj(["id", "label"], map["id" := Str("p"), "label" := Str("b")]);
      var t := Obj(["properties"], map["properties" := Arr([a, b])]);
      FinalStateComparison(t, t).modified == [b]
  {
    var a := Obj(["id", "label"], map["id" := Str("p"), "label" := Str("a")]);
    var b := Obj(["id", "label"], map["id" := Str("p"), "label" := Str("b")]);
    var t := Obj(["properties"], map["properties" := Arr([a, b])]);
    var ps := [a, b];
    assert PropertiesOf(t) == ps;
    assert IndexOfId(ps, Str("p")) == 0;
    assert IsModified(ps, b) && !IsModified(ps, a);
    assert ps[1..] == [b];
  }

  /** The edited template of `AITemplateCreation` and the original kept for
      comparison. */
  class AiTemplateEditor {
    /** The proposal the component was given (`llmTemplate`). */
    var llmTemplate: Val
    /** `editedTemplate`. */
    var editedTemplate: Val
    /** `originalDataRef.current`: the template as first proposed. */
    var original: Val

    constructor (llm: Val)
      ensures llmTemplate == llm
      ensures editedTemplate == Get(llm, "template") && original == Get(llm, "template")
    {
      llmTemplate := llm;
      editedTemplate := Get(llm, "template");
      original := Get(llm, "template");
    }

    /** What `onUpdate` receives: the proposal with the edited template. */
    function Update(): Val
      reads this
    {
      With(llmTemplate, "template", editedTemplate)
    }

    /** `handleTemplateChange`: only the named field of the template changes,
        and the parent is sent the new template. */
    method HandleTemplateChange(field: string, value: Val) returns (sent: Val)
      modifies this
      ensures Get(editedTemplate, field) == value
      ensures forall k :: k != field ==> Get(editedTemplate, k) == Get(old(editedTemplate), k)
      ensures Get(sent, "template") == editedTemplate
      ensures forall k :: k != "template" ==> Get(sent, k) == Get(llmTemplate, k)
      ensures llmTemplate == old(llmTemplate) && original == old(original)
    {
      editedTemplate := With(editedTemplate, field, value);
      sent := Update();
    }

    /** `handlePropertyChange`: an unknown id changes nothing and sends
        nothing; otherwise the field is set on the property with that id
        (on each one, should several share it) and nothing else changes. */
    method HandlePropertyChange(propertyId: Val, field: string, value: Val) returns (sent: Option<Val>)
      requires Editable(editedTemplate)
      modifies this
      ensures Editable(editedTemplate)
      ensures !HasId(PropertiesOf(old(editedTemplate)), propertyId) ==>
        editedTemplate == old(editedTemplate) && sent.None?
      ensures HasId(PropertiesOf(old(editedTemplate)), propertyId) ==>
        var before, after := PropertiesOf(old(editedTemplate)), PropertiesOf(editedTemplate);
        |after| == |before| &&
        (forall j :: 0 <= j < |before| && IdOf(before[j]) != propertyId ==> after[j] == before[j]) &&
        (forall j :: 0 <= j < |before| && IdOf(before[j]) == propertyId ==>
           Get(after[j], field) == value &&
           forall k :: k != field ==> Get(after[j], k) == Get(before[j], k)) &&
        (forall k :: k != "properties" ==> Get(editedTemplate, k) == Get(old(editedTemplate), k)) &&
        sent == Some(Update())
      ensures llmTemplate == old(llmTemplate) && original == old(original)
    {
      var ps := PropertiesOf(editedTemplate);
      if IndexOfId(ps, propertyId) == -1 {
        sent := None;
        return;
      }
      var updated := SetField(ps, propertyId, field, value);
      assert forall j :: 0 <= j < |updated| ==> updated[j].Obj?;
      editedTemplate := With(editedTemplate, "properties", Arr(updated));
      sent := Some(Update());
    }

    /** `handleAddProperty`: the new property goes last and the metadata
        count is the old number of properties plus one. */
    method HandleAddProperty(newId: string) returns (sent: Val)
      requires Editable(editedTemplate)
      modifies this
      ensures Editable(editedTemplate)
      ensures PropertiesOf(editedTemplate) == PropertiesOf(old(editedTemplate)) + [NewProperty(newId)]
      ensures Get(Get(editedTemplate, "metadata"), "total_properties") == N(|PropertiesOf(old(editedTemplate))| + 1)
      ensures forall k :: k != "total_properties" ==>
        Get(Get(editedTemplate, "metadata"), k) == Get(Get(old(editedTemplate), "metadata"), k)
      ensures forall k :: k != "properties" && k != "metadata" ==> Get(editedTemplate, k) == Get(old(editedTemplate), k)
      ensures sent == Update()
      ensures llmTemplate == old(llmTemplate) && original == old(original)
    {
      var ps := PropertiesOf(editedTemplate) + [NewProperty(newId)];
      editedTemplate := WithProperties(editedTemplate, ps);
      sent := Update();
    }

    /** `handleDeleteProperty`: an unknown id changes nothing and sends
        nothing; otherwise every property with that id goes, the others stay,
        and the metadata count is the new number of properties. */
    method HandleDeleteProperty(propertyId: Val) returns (sent: Option<Val>)
      requires Editable(editedTemplate)
      modifies this
      ensures Editable(editedTemplate)
      ensures !HasId(PropertiesOf(old(editedTemplate)), propertyId) ==>
        editedTemplate == old(editedTemplate) && sent.None?
      ensures HasId(PropertiesOf(old(editedTemplate)), propertyId) ==>
        var before, after := PropertiesOf(old(editedTemplate)), PropertiesOf(editedTemplate);
        after == RemoveId(before, propertyId) && |after| < |before| &&
        Get(Get(editedTemplate, "metadata"), "total_properties") == N(|after|) &&
        (forall k :: k != "properties" && k != "metadata" ==> Get(editedTemplate, k) == Get(old(editedTemplate), k)) &&
        sent == Some(Update())
      ensures llmTemplate == old(llmTemplate) && original == old(original)
    {
      var ps := PropertiesOf(editedTemplate);
      if IndexOfId(ps, propertyId) == -1 {
        sent := None;
        return;
      }
      var remaining := RemoveId(ps, propertyId);
      RemoveIdSpec(ps, propertyId);
      assert forall j :: 0 <= j < |remaining| ==> remaining[j] in ps;
      editedTemplate := WithProperties(editedTemplate, remaining);
      sent := Some(Update());
    }

    /** `getFinalStateComparison` on the current state. */
    function FinalState(): Comparison
      reads this
    {
      FinalStateComparison(original, editedTemplate)
    }
  }
}
