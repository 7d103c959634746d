/** The property table of the content-analysis step: the value list of each
    property (normalised, edited, extended and shrunk on a copy that is
    handed to `onUpdate`), the grouping of properties by key prefix, and the
    data type shown for a property. */
module PropertyTable {
  import opened Wrappers
  import opened JsString
  import opened JsValue
  import ContentAnalysis

  /** The random suffix (`Math.random().toString(36).substring(2, 9)`) drawn
      for the value at position `i` of a list being normalised. */
  type IdDraws = nat -> string

  /** `{...v}`. */
  function Copy(v: Val): (r: Val)
    ensures r.Obj? && forall k :: Get(r, k) == Get(v, k)
  {
    Spread(EMPTY, v)
  }

  /** A normalised value `{value, confidence, evidence, id}`. */
  function ValueEntry(value: Val, confidence: Val, evidence: Val, id: Val): Val {
    Obj(["value", "confidence", "evidence", "id"],
        map["value" := value, "confidence" := confidence, "evidence" := evidence, "id" := id])
  }

  /** A value the table appends: `{value, confidence: 1, evidence: {}}`. */
  function NewValue(value: Val): Val {
    Obj(["value", "confidence", "evidence"],
        map["value" := value, "confidence" := N(1), "evidence" := EMPTY])
  }

  /** The empty value added by "Add Value" and after deleting the last value. */
  const BLANK_VALUE: Val := NewValue(Str(""))

  function FreshId(ids: IdDraws, i: nat): Val {
    Str("val-" + ids(i))
  }

  /** Normalising reads `v.value` of every item of a `values` array, which
      throws on a `null` or `undefined` item. */
  predicate Normalizable(p: Val) {
    Get(p, "values").Arr? ==> forall v :: v in Get(p, "values").items ==> !IsNullish(v)
  }

  /** One item of a `values` array, normalised. */
  function NormalizeItem(v: Val, id: Val): Val {
    ValueEntry(Get(v, "value"), Or(Get(v, "confidence"), N(1)), Or(Get(v, "evidence"), EMPTY), Or(Get(v, "id"), id))
  }

  /** `normalizePropertyValue`: the list of values of a property, whether it
      is stored in the current `{values: [...]}` shape or in the legacy
      single-value shape. */
  function NormalizePropertyValue(p: Val, ids: IdDraws): (r: seq<Val>)
    requires Normalizable(p)
    ensures !Truthy(p) ==> r == []
    ensures Truthy(p) && Get(p, "values").Arr? ==> |r| == |Get(p, "values").items|
    ensures Truthy(p) && Get(p, "values").Arr? ==>
              forall i :: 0 <= i < |r| ==>
                Get(r[i], "value") == Get(Get(p, "values").items[i], "value") &&
                Get(r[i], "confidence") == Or(Get(Get(p, "values").items[i], "confidence"), N(1))
    ensures Truthy(p) && !Get(p, "values").Arr? ==>
              |r| == 1 && Get(r[0], "value") == Or(Get(p, "value"), Str("")) &&
              Get(r[0], "confidence") == Or(Get(p, "confidence"), N(1))
    ensures forall i :: 0 <= i < |r| ==> r[i].Obj? && Truthy(Get(r[i], "confidence"))
  {
    if !Truthy(p) then []
    else if Get(p, "values").Arr? then
      var vs := Get(p, "values").items;
      seq(|vs|, i requires 0 <= i < |vs| => NormalizeItem(vs[i], FreshId(ids, i)))
    else
      [ValueEntry(Or(Get(p, "value"), Str("")), Or(Get(p, "confidence"), N(1)),
                  Or(Get(p, "evidence"), EMPTY), FreshId(ids, 0))]
  }

  /** The list every edit handler starts from: the property copied with
      `{...analysis[propertyId]}` and normalised. */
  function CurrentValues(analysis: Val, propertyId: string, ids: IdDraws): seq<Val>
    requires Normalizable(Get(analysis, propertyId))
  {
    NormalizePropertyValue(Copy(Get(analysis, propertyId)), ids)
  }

  /** A property the analysis does not have yet is copied as `{}`, which is
      truthy, so the handlers start from one empty legacy value. */
  lemma AbsentPropertyHasOneValue(analysis: Val, propertyId: string, ids: IdDraws)
    requires !Has(analysis, propertyId)
    ensures |CurrentValues(analysis, propertyId, ids)| == 1
    ensures Get(CurrentValues(analysis, propertyId, ids)[0], "value") == Str("")
  {
    assert Get(Copy(Get(analysis, propertyId)), "values") == Undef;
  }

  /** The handlers start from an empty list exactly when the property holds an
      empty `values` array. */
  lemma CurrentValuesEmpty(analysis: Val, propertyId: string, ids: IdDraws)
    requires Normalizable(Get(analysis, propertyId))
    ensures CurrentValues(analysis, propertyId, ids) == [] <==>
              Get(Get(analysis, propertyId), "values") == Arr([])
  {
    var p := Copy(Get(analysis, propertyId));
    assert Truthy(p);
    if Get(p, "values").Arr? {
      assert Get(p, "values") == Arr(Get(p, "values").items);
    }
  }

  /** `xs[i] = x` on a JavaScript array: past the end, the gap is filled with
      holes, which read as `undefined`. */
  function SetIndex(xs: seq<Val>, i: nat, x: Val): (r: seq<Val>)
    ensures |r| == if i < |xs| then |xs| else i + 1
    ensures r[i] == x
    ensures forall j :: 0 <= j < |xs| && j != i ==> r[j] == xs[j]
    ensures forall j :: |xs| <= j < i ==> r[j] == Undef
  {
    if i < |xs| then xs[i := x] else xs + seq(i - |xs|, _ => Undef) + [x]
  }

  /** `xs.splice(i, 1)` for a non-negative `i`: an index past the end removes nothing. */
  function Splice(xs: seq<Val>, i: nat): (r: seq<Val>)
    ensures i < |xs| ==> |r| == |xs| - 1
    ensures i >= |xs| ==> r == xs
    ensures forall j {:trigger r[j]} :: 0 <= j < |r| ==> r[j] == if j < i then xs[j] else xs[j + 1]
  {
    if i < |xs| then xs[..i] + xs[i + 1..] else xs
  }

  /** The value list of property `propertyId` in `analysis`. */
  function ValuesOf(analysis: Val, propertyId: string): seq<Val> {
    ItemsOf(Get(Get(analysis, propertyId), "values"))
  }

  /** The edit `updatePropertyValue` makes to the copied value list: the
      value at `valueIndex` is replaced, keeping the entry's other fields and
      defaulting its confidence to 1 (an index with no entry gets a new one),
      or a new value is appended when `valueIndex` is `null`. */
  method EditValues(currentValues: seq<Val>, newValue: Val, valueIndex: Option<nat>) returns (vs: seq<Val>)
    ensures valueIndex.None? ==> vs == currentValues + [NewValue(newValue)]
    ensures valueIndex.Some? && valueIndex.value < |currentValues| && Truthy(currentValues[valueIndex.value]) ==>
              var i := valueIndex.value;
              |vs| == |currentValues| &&
              (forall j :: 0 <= j < |vs| && j != i ==> vs[j] == currentValues[j]) &&
              Get(vs[i], "value") == newValue &&
              Get(vs[i], "confidence") == Or(Get(currentValues[i], "confidence"), N(1)) &&
              (forall k :: k != "value" && k != "confidence" ==> Get(vs[i], k) == Get(currentValues[i], k))
    ensures valueIndex.Some? && !(valueIndex.value < |currentValues| && Truthy(currentValues[valueIndex.value])) ==>
              vs == SetIndex(currentValues, valueIndex.value, NewValue(newValue))
    ensures |vs| >= 1
  {
    vs := currentValues;
    if valueIndex.Some? {
      var i := valueIndex.value;
      if i < |vs| && Truthy(vs[i]) {
        var entry := vs[i];
        vs := vs[i := With(With(Copy(entry), "value", newValue), "confidence", Or(Get(entry, "confidence"), N(1)))];
      } else {
        vs := SetIndex(vs, i, NewValue(newValue));
      }
    } else {
      vs := vs + [NewValue(newValue)];
    }
  }

  /** `if (!property.metadata) property.metadata = {}; property.metadata.property_type = newType`. */
  method SetPropertyType(property: Val, newType: Val) returns (p: Val)
    requires Truthy(Get(property, "metadata")) ==> Get(property, "metadata").Obj?
    ensures p.Obj?
    ensures Get(Get(p, "metadata"), "property_type") == newType
    ensures forall k :: k != "property_type" ==> Get(Get(p, "metadata"), k) == Get(Get(property, "metadata"), k)
    ensures forall k :: k != "metadata" ==> Get(p, k) == Get(property, k)
  {
    var metadata := Get(property, "metadata");
    if !Truthy(metadata) {
      metadata := EMPTY;
    }
    p := With(property, "metadata", With(metadata, "property_type", newType));
  }

  /** `property.values = values` on the property's copy. */
  method SetValues(property: Val, values: seq<Val>) returns (p: Val)
    ensures p.Obj? && Get(p, "values") == Arr(values)
    ensures forall k :: k != "values" ==> Get(p, k) == Get(property, k)
  {
    p := With(property, "values", Arr(values));
  }

  /** `{ ...analysis, [propertyId]: property }`: a copy of the analysis with
      the edited property in place of the old one. */
  method WriteProperty(analysis: Val, propertyId: string, property: Val) returns (updated: Val)
    ensures updated.Obj? && Get(updated, propertyId) == property
    ensures forall k :: k != propertyId ==> Get(updated, k) == Get(analysis, k)
  {
    updated := Copy(analysis);
    updated := With(updated, propertyId, property);
  }

  /** `updatePropertyValue`: the analysis handed to `onUpdate` after setting
      the value at `valueIndex` (or appending one when it is `null`) and,
      when `newType` is truthy, the property's `metadata.property_type`. */
  method UpdatePropertyValue(analysis: Val, propertyId: string, newValue: Val, newType: Val,
                             valueIndex: Option<nat>, ids: IdDraws) returns (updated: Val)
    requires Normalizable(Get(analysis, propertyId))
    // assigning `property_type` to a primitive `metadata` throws in strict mode
    requires Truthy(newType) && Truthy(Get(Get(analysis, propertyId), "metadata")) ==>
               Get(Get(analysis, propertyId), "metadata").Obj?
    ensures updated.Obj?
    ensures forall k :: k != propertyId ==> Get(updated, k) == Get(analysis, k)
    ensures Get(Get(updated, propertyId), "values").Arr?
    ensures valueIndex.None? ==>
              ValuesOf(updated, propertyId) == CurrentValues(analysis, propertyId, ids) + [NewValue(newValue)]
    ensures valueIndex.Some? && valueIndex.value < |CurrentValues(analysis, propertyId, ids)| ==>
              var before, after, i := CurrentValues(analysis, propertyId, ids), ValuesOf(updated, propertyId), valueIndex.value;
              |after| == |before| &&
              (forall j :: 0 <= j < |after| && j != i ==> after[j] == before[j]) &&
              Get(after[i], "value") == newValue &&
              (forall k :: k != "value" ==> Get(after[i], k) == Get(before[i], k))
    ensures valueIndex.Some? && valueIndex.value >= |CurrentValues(analysis, propertyId, ids)| ==>
              var before, after, i := CurrentValues(analysis, propertyId, ids), ValuesOf(updated, propertyId), valueIndex.value;
              |after| == i + 1 && after[i] == NewValue(newValue) &&
              (forall j :: 0 <= j < |before| ==> after[j] == before[j]) &&
              (forall j :: |before| <= j < i ==> after[j] == Undef)
    ensures |ValuesOf(updated, propertyId)| >= 1
    ensures Truthy(newType) ==>
              var before, after := Get(Get(analysis, propertyId), "metadata"), Get(Get(updated, propertyId), "metadata");
              Get(after, "property_type") == newType &&
              forall k :: k != "property_type" ==> Get(after, k) == Get(before, k)
    ensures !Truthy(newType) ==>
              Get(Get(updated, propertyId), "metadata") == Get(Get(analysis, propertyId), "metadata")
    ensures forall k :: k != "values" && k != "metadata" ==>
              Get(Get(updated, propertyId), k) == Get(Get(analysis, propertyId), k)
  {
    var property := Copy(Get(analysis, propertyId));
    var currentValues := NormalizePropertyValue(property, ids);
    var values := EditValues(currentValues, newValue, valueIndex);
    property := SetValues(property, values);
    if Truthy(newType) {
      property := SetPropertyType(property, newType);
    }
    updated := WriteProperty(analysis, propertyId, property);
    assert ValuesOf(updated, propertyId) == values;
    if valueIndex.Some? && valueIndex.value < |currentValues| {
      // a normalised entry is an object whose confidence is already truthy
      assert Truthy(currentValues[valueIndex.value]);
      assert Truthy(Get(currentValues[valueIndex.value], "confidence"));
    }
  }

  /** The caller's own `analysis` after `updatePropertyValue` with a truthy
      `newType`. `{ ...analysis[propertyId] }` copies the property but not
      its `metadata`, so an existing `metadata` object is shared with the
      caller and `property.metadata.property_type = newType` rewrites it
      there too. */
  function CallerAfterTypeEdit(analysis: Val, propertyId: string, newType: Val): (r: Val)
    ensures forall k :: k != propertyId ==> Get(r, k) == Get(analysis, k)
    ensures KeysOf(r) == KeysOf(analysis) || !Has(analysis, propertyId)
    ensures Truthy(newType) && Get(Get(analysis, propertyId), "metadata").Obj? ==>
              ContentAnalysis.PropertyType(Get(r, propertyId)) == newType &&
              forall k :: k != "metadata" ==> Get(Get(r, propertyId), k) == Get(Get(analysis, propertyId), k)
    ensures !(Truthy(newType) && Get(Get(analysis, propertyId), "metadata").Obj?) ==> r == analysis
  {
    var property := Get(analysis, propertyId);
    var metadata := Get(property, "metadata");
    if Truthy(newType) && metadata.Obj? then
      With(analysis, propertyId, With(property, "metadata", With(metadata, "property_type", newType)))
    else analysis
  }

  /** As written, a type edit made through the table is never reported.
      `handleAnalysisUpdate` compares the caller's analysis with the update,
      and both already carry the new type, so `detectChanges` records no
      `property_type_changed` for the property, whatever its type was. */
  lemma TypeEditUnreported(analysis: Val, propertyId: string, newType: Val, normalized: Val)
    requires Truthy(newType) && Get(Get(analysis, propertyId), "metadata").Obj?
    requires ContentAnalysis.PropertyType(Get(analysis, propertyId)) != newType
    requires ContentAnalysis.ComparableAnalysis(CallerAfterTypeEdit(analysis, propertyId, newType))
    requires ContentAnalysis.ComparableAnalysis(normalized)
    requires Truthy(Get(normalized, propertyId)) && ContentAnalysis.PropertyType(Get(normalized, propertyId)) == newType
    ensures var caller := CallerAfterTypeEdit(analysis, propertyId, newType);
      propertyId !in ContentAnalysis.RetypedKeys(ContentAnalysis.DetectChanges(caller, normalized).typeUpdates)
  {
    var caller := CallerAfterTypeEdit(analysis, propertyId, newType);
    var keys := KeysOf(Spread(caller, normalized));
    if propertyId in keys {
      ContentAnalysis.TypeChangeReported(caller, normalized, propertyId);
    } else {
      ContentAnalysis.DetectedTypeChanges(caller, normalized);
      ContentAnalysis.RetypedFromMember(keys, 0, caller, normalized, propertyId);
      assert keys[0..] == keys;
    }
  }

  /** With the `metadata` copied as well, as the table's own update does (it
      leaves the caller's analysis as it was), the same comparison names the
      property in a `property_type_changed` record exactly when the edit
      changed its type. */
  lemma TypeEditReported(analysis: Val, propertyId: string, newType: Val, normalized: Val)
    requires propertyId in KeysOf(analysis) && Truthy(Get(analysis, propertyId))
    requires ContentAnalysis.ComparableAnalysis(analysis) && ContentAnalysis.ComparableAnalysis(normalized)
    requires Truthy(Get(normalized, propertyId)) && ContentAnalysis.PropertyType(Get(normalized, propertyId)) == newType
    ensures propertyId in ContentAnalysis.RetypedKeys(ContentAnalysis.DetectChanges(analysis, normalized).typeUpdates) <==>
              ContentAnalysis.PropertyType(Get(analysis, propertyId)) != newType
  {
    assert KeysOf(Spread(analysis, normalized)) == KeysOf(analysis) + Missing(KeysOf(normalized), Props(analysis));
    ContentAnalysis.TypeChangeReported(analysis, normalized, propertyId);
  }

  /** `addValueToProperty`: the analysis handed to `onUpdate` after appending
      one empty value to the property. */
  method AddValueToProperty(analysis: Val, propertyId: string, ids: IdDraws) returns (updated: Val)
    requires Normalizable(Get(analysis, propertyId))
    ensures updated.Obj?
    ensures forall k :: k != propertyId ==> Get(updated, k) == Get(analysis, k)
    ensures Get(Get(updated, propertyId), "values").Arr?
    ensures ValuesOf(updated, propertyId) == CurrentValues(analysis, propertyId, ids) + [BLANK_VALUE]
    ensures |ValuesOf(updated, propertyId)| == |CurrentValues(analysis, propertyId, ids)| + 1
    ensures forall k :: k != "values" ==> Get(Get(updated, propertyId), k) == Get(Get(analysis, propertyId), k)
  {
    var property := Copy(Get(analysis, propertyId));
    var currentValues := NormalizePropertyValue(property, ids);
    currentValues := currentValues + [BLANK_VALUE];
    property := SetValues(property, currentValues);
    updated := WriteProperty(analysis, propertyId, property);
  }

  /** `deleteValueFromProperty`: the analysis handed to `onUpdate` after
      removing the value at `index`; a list left empty gets one empty value,
      so a property never ends with zero values. */
  method DeleteValueFromProperty(analysis: Val, propertyId: string, index: nat, ids: IdDraws)
    returns (updated: Val)
    requires Normalizable(Get(analysis, propertyId))
    ensures updated.Obj?
    ensures forall k :: k != propertyId ==> Get(updated, k) == Get(analysis, k)
    ensures Get(Get(updated, propertyId), "values").Arr?
    ensures |ValuesOf(updated, propertyId)| >= 1
    ensures var before, after := CurrentValues(analysis, propertyId, ids), ValuesOf(updated, propertyId);
            index < |before| && |before| > 1 ==>
              |after| == |before| - 1 &&
              forall j {:trigger after[j]} :: 0 <= j < |after| ==> after[j] == if j < index then before[j] else before[j + 1]
    ensures var before, after := CurrentValues(analysis, propertyId, ids), ValuesOf(updated, propertyId);
            before == [] || (index < |before| && |before| == 1) ==> after == [BLANK_VALUE]
    ensures var before, after := CurrentValues(analysis, propertyId, ids), ValuesOf(updated, propertyId);
            |before| >= 1 && index >= |before| ==> after == before
    ensures forall k :: k != "values" ==> Get(Get(updated, propertyId), k) == Get(Get(analysis, propertyId), k)
  {
    var property := Copy(Get(analysis, propertyId));
    var currentValues := NormalizePropertyValue(property, ids);
    var remaining := RemoveValue(currentValues, index);
    property := SetValues(property, remaining);
    updated := WriteProperty(analysis, propertyId, property);
    assert ValuesOf(updated, propertyId) == remaining;
  }

  /** The edit `deleteValueFromProperty` makes to the copied value list: the
      entry at `index` goes, and an emptied list gets one empty value. */
  method RemoveValue(currentValues: seq<Val>, index: nat) returns (vs: seq<Val>)
    ensures |vs| >= 1
    ensures index < |currentValues| && |currentValues| > 1 ==>
              |vs| == |currentValues| - 1 &&
              forall j {:trigger vs[j]} :: 0 <= j < |vs| ==> vs[j] == if j < index then currentValues[j] else currentValues[j + 1]
    ensures currentValues == [] || (index < |currentValues| && |currentValues| == 1) ==> vs == [BLANK_VALUE]
    ensures |currentValues| >= 1 && index >= |currentValues| ==> vs == currentValues
  {
    vs := Splice(currentValues, index);
    if |vs| == 0 {
      vs := [BLANK_VALUE];
    }
  }

  /** The `newValueIndices` list after removing every occurrence of `x`. */
  function Without(xs: seq<nat>, x: nat): (r: seq<nat>)
    ensures forall y :: y in r <==> y in xs && y != x
    ensures |r| <= |xs|
  {
    if xs == [] then []
    else if xs[0] == x then Without(xs[1..], x)
    else [xs[0]] + Without(xs[1..], x)
  }

  /** The component state of the table that the edit handlers change. */
  class PropertyTableView {
    /** `newValueIndices`: per property, the positions of the values added
        with "Add Value" (they are shown as new). */
    var newValueIndices: map<string, seq<nat>>

    constructor ()
      ensures newValueIndices == map[]
    {
      newValueIndices := map[];
    }

    function NewIndices(propertyId: string): seq<nat>
      reads this
    {
      if propertyId in newValueIndices then newValueIndices[propertyId] else []
    }

    /** "Add Value": appends an empty value and marks its position as new. */
    method OnAddValue(analysis: Val, propertyId: string, ids: IdDraws) returns (updated: Val)
      requires Normalizable(Get(analysis, propertyId))
      modifies this
      ensures updated.Obj?
      ensures forall k :: k != propertyId ==> Get(updated, k) == Get(analysis, k)
      ensures ValuesOf(updated, propertyId) == CurrentValues(analysis, propertyId, ids) + [BLANK_VALUE]
      ensures forall k :: k != "values" ==> Get(Get(updated, propertyId), k) == Get(Get(analysis, propertyId), k)
      ensures newValueIndices ==
                old(newValueIndices)[propertyId := old(NewIndices(propertyId)) + [|CurrentValues(analysis, propertyId, ids)|]]
    {
      updated := AddValueToProperty(analysis, propertyId, ids);
      var newIndex := |ValuesOf(updated, propertyId)| - 1;
      newValueIndices := newValueIndices[propertyId := NewIndices(propertyId) + [newIndex]];
    }

    /** The delete button: removes the value and forgets `index` as a new
        position (the positions after it are not shifted). */
    method OnDeleteValue(analysis: Val, propertyId: string, index: nat, ids: IdDraws) returns (updated: Val)
      requires Normalizable(Get(analysis, propertyId))
      modifies this
      ensures updated.Obj?
      ensures forall k :: k != propertyId ==> Get(updated, k) == Get(analysis, k)
      ensures |ValuesOf(updated, propertyId)| >= 1
      ensures var before, after := CurrentValues(analysis, propertyId, ids), ValuesOf(updated, propertyId);
              index < |before| && |before| > 1 ==>
                |after| == |before| - 1 &&
                forall j {:trigger after[j]} :: 0 <= j < |after| ==> after[j] == if j < index then before[j] else before[j + 1]
      ensures var before, after := CurrentValues(analysis, propertyId, ids), ValuesOf(updated, propertyId);
              before == [] || (index < |before| && |before| == 1) ==> after == [BLANK_VALUE]
      ensures var before, after := CurrentValues(analysis, propertyId, ids), ValuesOf(updated, propertyId);
              |before| >= 1 && index >= |before| ==> after == before
      ensures forall k :: k != "values" ==> Get(Get(updated, propertyId), k) == Get(Get(analysis, propertyId), k)
      ensures newValueIndices == old(newValueIndices)[propertyId := Without(old(NewIndices(propertyId)), index)]
    {
      updated := DeleteValueFromProperty(analysis, propertyId, index, ids);
      newValueIndices := newValueIndices[propertyId := Without(NewIndices(propertyId), index)];
    }
  }

  /** `getPropertyDataType`: the type stored with the property, else the
      template's type, else `'text'`. */
  function GetPropertyDataType(property: Val, templateProperty: Val): (r: Val)
    requires !IsNullish(property)
    ensures Truthy(r)
    ensures var stored := Get(Get(property, "metadata"), "property_type");
            if Truthy(stored) then r == stored
            else if Truthy(Get(templateProperty, "type")) then r == Get(templateProperty, "type")
            else r == Str("text")
  {
    Or(Or(Get(Get(property, "metadata"), "property_type"), Get(templateProperty, "type")), Str("text"))
  }

  // ---------------------------------------------------------------------
  // Grouping

  /** `key.split(/\d+/)[0]`: the key up to its first digit. */
  function Prefix(key: string): string {
    if key == [] || IsDigit(key[0]) then [] else [key[0]] + Prefix(key[1..])
  }

  /** The prefix is a start of the key without digits, and is followed by a
      digit unless it is the whole key. */
  lemma {:induction false} PrefixSpec(key: string)
    ensures var r := Prefix(key);
            |r| <= |key| && r == key[..|r|] &&
            (forall i :: 0 <= i < |r| ==> !IsDigit(r[i])) &&
            (|r| < |key| ==> IsDigit(key[|r|]))
  {
    if key != [] && !IsDigit(key[0]) {
      PrefixSpec(key[1..]);
      var r := Prefix(key[1..]);
      assert Prefix(key) == [key[0]] + r;
      assert key == [key[0]] + key[1..];
    }
  }

  /** A property value the grouping can read: `value.label` throws on
      `null` and `undefined`. */
  predicate Rowable(value: Val) {
    !IsNullish(value) && Normalizable(value)
  }

  /** The row built for property `key`: defaults first, then every field of
      the stored value written over them. */
  function Row(key: string, value: Val, ids: IdDraws): Val
    requires Rowable(value)
  {
    Spread(Obj(["id", "label", "metadata", "type", "normalizedValues"],
               map["id" := Str(key), "label" := Or(Get(value, "label"), Str(key)),
                   "metadata" := Or(Get(value, "metadata"), EMPTY),
                   "type" := Or(Get(value, "type"), Str("")),
                   "normalizedValues" := Arr(NormalizePropertyValue(value, ids))]),
           value)
  }

  /** An analysis the table can group: every listed property is readable. */
  predicate Groupable(analysis: Val) {
    analysis.Obj? && forall i :: 0 <= i < |analysis.keys| ==> Rowable(Get(analysis, analysis.keys[i]))
  }

  /** The row of every property, in `Object.entries` order. */
  function RowsOf(analysis: Val, ids: IdDraws): (r: seq<Val>)
    requires Groupable(analysis)
    ensures |r| == |analysis.keys|
  {
    seq(|analysis.keys|, i requires 0 <= i < |analysis.keys| =>
      Row(analysis.keys[i], Get(analysis, analysis.keys[i]), ids))
  }

  /** The prefix of every property key, in `Object.entries` order. */
  function PrefixesOf(keys: seq<string>): (r: seq<string>)
    ensures |r| == |keys| && forall i :: 0 <= i < |keys| ==> r[i] == Prefix(keys[i])
  {
    seq(|keys|, i requires 0 <= i < |keys| => Prefix(keys[i]))
  }

  /** One step of the grouping loop: the row goes at the end of the group its
      key's prefix names, which is created empty when missing. */
  function AddRow(groups: Val, prefix: string, row: Val): Val {
    var group := if Truthy(Get(groups, prefix)) then ItemsOf(Get(groups, prefix)) else [];
    With(groups, prefix, Arr(group + [row]))
  }

  /** The positions below `n` whose prefix is `g`, in increasing order. */
  function Members(prefixes: seq<string>, g: string, n: nat): (r: seq<nat>)
    requires n <= |prefixes|
    ensures forall t :: 0 <= t < |r| ==> r[t] < n
  {
    if n == 0 then []
    else Members(prefixes, g, n - 1) + (if prefixes[n - 1] == g then [n - 1] else [])
  }

  /** `Members` holds exactly the positions below `n` whose prefix is `g`. */
  lemma {:induction false} MembersSpec(prefixes: seq<string>, g: string, n: nat)
    requires n <= |prefixes|
    ensures forall j: nat :: j in Members(prefixes, g, n) <==> j < n && prefixes[j] == g
  {
    if n > 0 {
      MembersSpec(prefixes, g, n - 1);
      var tail := if prefixes[n - 1] == g then [n - 1] else [];
      assert Members(prefixes, g, n) == Members(prefixes, g, n - 1) + tail;
    }
  }

  /** The positions come in increasing order. */
  lemma {:induction false} MembersIncreasing(prefixes: seq<string>, g: string, n: nat)
    requires n <= |prefixes|
    ensures forall a, b :: 0 <= a < b < |Members(prefixes, g, n)| ==> Members(prefixes, g, n)[a] < Members(prefixes, g, n)[b]
  {
    if n > 0 {
      MembersIncreasing(prefixes, g, n - 1);
      var rest := Members(prefixes, g, n - 1);
      if prefixes[n - 1] == g {
        var r := rest + [n - 1];
        assert Members(prefixes, g, n) == r;
        forall a, b | 0 <= a < b < |r| ensures r[a] < r[b] {
          assert r[a] == rest[a] < n - 1;
          if b < |rest| {
            assert r[b] == rest[b];
          } else {
            assert r[b] == n - 1;
          }
        }
      }
    }
  }

  /** The rows at the given positions. */
  function Pick(rows: seq<Val>, ms: seq<nat>): (r: seq<Val>)
    requires forall t :: 0 <= t < |ms| ==> ms[t] < |rows|
    ensures |r| == |ms| && forall t :: 0 <= t < |ms| ==> r[t] == rows[ms[t]]
  {
    seq(|ms|, t requires 0 <= t < |ms| => rows[ms[t]])
  }

  /** The rows below position `n` whose prefix is `g`, in order. */
  function Select(prefixes: seq<string>, rows: seq<Val>, g: string, n: nat): seq<Val>
    requires n <= |prefixes| == |rows|
  {
    if n == 0 then []
    else Select(prefixes, rows, g, n - 1) + (if prefixes[n - 1] == g then [rows[n - 1]] else [])
  }

  lemma PickSnoc(rows: seq<Val>, ms: seq<nat>, i: nat)
    requires i < |rows| && forall t :: 0 <= t < |ms| ==> ms[t] < |rows|
    ensures Pick(rows, ms + [i]) == Pick(rows, ms) + [rows[i]]
  {
  }

  /** `Select` picks the rows at the positions `Members` lists. */
  lemma {:induction false} SelectIsPick(prefixes: seq<string>, rows: seq<Val>, g: string, n: nat)
    requires n <= |prefixes| == |rows|
    ensures Select(prefixes, rows, g, n) == Pick(rows, Members(prefixes, g, n))
  {
    if n > 0 {
      SelectIsPick(prefixes, rows, g, n - 1);
      if prefixes[n - 1] == g {
        PickSnoc(rows, Members(prefixes, g, n - 1), n - 1);
      }
    }
  }

  /** One step of the grouping, seen from group `g`. */
  lemma AddRowAt(groups: Val, prefix: string, row: Val, g: string)
    requires Get(groups, g).Arr? || !Has(groups, g)
    ensures AddRow(groups, prefix, row).Obj?
    ensures Get(AddRow(groups, prefix, row), g).Arr? || !Has(AddRow(groups, prefix, row), g)
    ensures prefix == g ==>
              Has(AddRow(groups, prefix, row), g) &&
              ItemsOf(Get(AddRow(groups, prefix, row), g)) == ItemsOf(Get(groups, g)) + [row]
    ensures prefix != g ==>
              Get(AddRow(groups, prefix, row), g) == Get(groups, g) &&
              (Has(AddRow(groups, prefix, row), g) <==> Has(groups, g))
  {
  }

  /** What the groups hold for group `g` once the rows below `n` are added:
      the groups form an object, group `g` exists exactly when one of those
      rows has prefix `g`, and then is the array of them, in order. */
  predicate GroupsAt(groups: Val, prefixes: seq<string>, rows: seq<Val>, n: nat, g: string)
    requires n <= |prefixes| == |rows|
  {
    groups.Obj? && (Get(groups, g).Arr? || !Has(groups, g)) &&
    (Has(groups, g) <==> g in prefixes[..n]) &&
    ItemsOf(Get(groups, g)) == Select(prefixes, rows, g, n)
  }

  /** Adding the next row keeps `GroupsAt`. */
  lemma AddRowKeeps(groups: Val, prefixes: seq<string>, rows: seq<Val>, n: nat, g: string)
    requires n < |prefixes| == |rows|
    requires GroupsAt(groups, prefixes, rows, n, g)
    ensures GroupsAt(AddRow(groups, prefixes[n], rows[n]), prefixes, rows, n + 1, g)
  {
    AddRowAt(groups, prefixes[n], rows[n], g);
    assert prefixes[..n + 1] == prefixes[..n] + [prefixes[n]];
  }

  /** Once every row is added, group `g` exists exactly when some key has
      prefix `g`, and then holds the rows at the positions `Members` lists. */
  lemma GroupsAtEnd(groups: Val, analysis: Val, ids: IdDraws, g: string)
    requires Groupable(analysis)
    requires GroupsAt(groups, PrefixesOf(analysis.keys), RowsOf(analysis, ids), |analysis.keys|, g)
    ensures groups.Obj?
    ensures Has(groups, g) <==> exists k :: k in analysis.keys && Prefix(k) == g
    ensures Has(groups, g) ==>
              Get(groups, g).Arr? &&
              Get(groups, g).items == Pick(RowsOf(analysis, ids), Members(PrefixesOf(analysis.keys), g, |analysis.keys|))
    ensures !Has(groups, g) ==> Get(groups, g) == Undef
  {
    var keys := analysis.keys;
    var prefixes, rows := PrefixesOf(keys), RowsOf(analysis, ids);
    assert prefixes[..|prefixes|] == prefixes;
    SelectIsPick(prefixes, rows, g, |prefixes|);
    if exists k :: k in keys && Prefix(k) == g {
      var k :| k in keys && Prefix(k) == g;
      var j :| 0 <= j < |keys| && keys[j] == k;
      assert prefixes[j] == g;
    }
    if g in prefixes {
      var j :| 0 <= j < |prefixes| && prefixes[j] == g;
      assert keys[j] in keys;
    }
  }

  /** `groupedProperties`: the loop over `Object.entries(analysis)` puts each
      property's row into the group its key's prefix names and into no
      other. */
  method GroupProperties(analysis: Val, ids: IdDraws) returns (groups: Val)
    requires Groupable(analysis)
    ensures groups.Obj?
    ensures forall g :: Has(groups, g) <==> exists k :: k in analysis.keys && Prefix(k) == g
    ensures forall g :: Has(groups, g) ==>
              Get(groups, g).Arr? &&
              Get(groups, g).items == Pick(RowsOf(analysis, ids), Members(PrefixesOf(analysis.keys), g, |analysis.keys|))
    ensures forall g :: !Has(groups, g) ==> Get(groups, g) == Undef
  {
    var es := Entries(analysis);
    ghost var prefixes, rows := PrefixesOf(analysis.keys), RowsOf(analysis, ids);
    groups := EMPTY;
    for i := 0 to |es|
      invariant forall g :: GroupsAt(groups, prefixes, rows, i, g)
    {
      GroupStep(groups, analysis, ids, i, i + 1);
      var (key, value) := es[i];
      groups := AddRow(groups, Prefix(key), Row(key, value, ids));
    }
    GroupsAtEnd(groups, analysis, ids, []);
    forall g
      ensures Has(groups, g) <==> exists k :: k in analysis.keys && Prefix(k) == g
      ensures Has(groups, g) ==>
                Get(groups, g).Arr? &&
                Get(groups, g).items == Pick(rows, Members(prefixes, g, |analysis.keys|))
      ensures !Has(groups, g) ==> Get(groups, g) == Undef
    {
      GroupsAtEnd(groups, analysis, ids, g);
    }
  }

  /** One turn of the grouping loop: what it reads, and that adding the row
      it builds keeps `GroupsAt` for every group (`n` is the next position). */
  lemma GroupStep(groups: Val, analysis: Val, ids: IdDraws, i: nat, n: nat)
    requires Groupable(analysis) && i < |analysis.keys| && n == i + 1
    requires forall g :: GroupsAt(groups, PrefixesOf(analysis.keys), RowsOf(analysis, ids), i, g)
    ensures Entries(analysis)[i] == (analysis.keys[i], Get(analysis, analysis.keys[i]))
    ensures Rowable(Get(analysis, analysis.keys[i]))
    ensures forall g :: GroupsAt(AddRow(groups, Prefix(analysis.keys[i]), Row(analysis.keys[i], Get(analysis, analysis.keys[i]), ids)),
                                 PrefixesOf(analysis.keys), RowsOf(analysis, ids), n, g)
  {
    var prefixes, rows := PrefixesOf(analysis.keys), RowsOf(analysis, ids);
    assert rows[i] == Row(analysis.keys[i], Get(analysis, analysis.keys[i]), ids);
    forall g ensures GroupsAt(AddRow(groups, prefixes[i], rows[i]), prefixes, rows, n, g) {
      AddRowKeeps(groups, prefixes, rows, i, g);
    }
  }

  /** The row shows the type stored with the property, so a type set by
      `UpdatePropertyValue` wins over the template's. */
  lemma RowShowsStoredType(key: string, value: Val, ids: IdDraws, templateProperty: Val)
    requires Rowable(value)
    requires Truthy(Get(Get(value, "metadata"), "property_type"))
    ensures GetPropertyDataType(Row(key, value, ids), templateProperty) ==
              Get(Get(value, "metadata"), "property_type")
  {
    assert Has(value, "metadata");
  }
}
