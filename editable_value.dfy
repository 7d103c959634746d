/** One editable value of a property in the content-analysis table: how an
    arbitrary extracted value is shown as text, how evidence is turned into
    text, and the type-change guard with its confirmation step. */
module EditableValue {
  import opened Wrappers
  import opened JsString
  import opened JsValue

  /** The fields `valueToString` reads, in the order it tries them. */
  const NAMED_FIELDS: seq<string> := ["text", "value", "name", "title", "label"]

  /** An object holding validation or criteria data, which the extraction
      step should have flattened already. */
  predicate IsCriteria(v: Val) {
    Truthy(Get(v, "inclusion_criteria")) || Truthy(Get(v, "internal_validation")) ||
    Truthy(Get(v, "exclusion_criteria")) || Truthy(Get(v, "external_validation"))
  }

  /** The index in `fields` of the first field of `v` that is truthy. */
  function FirstTruthy(v: Val, fields: seq<string>): (r: Option<nat>)
    ensures r.Some? ==> r.value < |fields| && Truthy(Get(v, fields[r.value]))
    ensures r.Some? ==> forall j :: 0 <= j < r.value ==> !Truthy(Get(v, fields[j]))
    ensures r.None? <==> forall j :: 0 <= j < |fields| ==> !Truthy(Get(v, fields[j]))
  {
    if fields == [] then None
    else if Truthy(Get(v, fields[0])) then Some(0)
    else
      match FirstTruthy(v, fields[1..])
      case None => None
      case Some(i) => Some(i + 1)
  }

  /** The `'key: value'` texts of the properties among `ks` whose value is a
      string or a number, in the order of `ks`. */
  function PairsOf(v: Val, ks: seq<string>): seq<string> {
    if ks == [] then []
    else
      var x := Get(v, ks[0]);
      (if x.Str? || x.Num? then [ks[0] + ": " + ToStr(x)] else []) + PairsOf(v, ks[1..])
  }

  /** `valueToString`: the text shown for a value in the editable field. */
  function ValueToString(v: Val): string
    decreases v
  {
    match v
    case Undef => ""
    case Null => ""
    case Str(s) => s
    case Num(_) => ToStr(v)
    case Bool(_) => ToStr(v)
    case Arr(xs) =>
      Join(NonEmpty(seq(|xs|, i requires 0 <= i < |xs| => ValueToString(xs[i]))), ", ")
    case Obj(ks, m) =>
      if IsCriteria(v) then
        var parts := PairsOf(v, ks);
        if parts != [] then Join(parts, ", ") else "[Complex Data]"
      else
        match FirstTruthy(v, NAMED_FIELDS)
        case Some(i) => ToStr(Get(v, NAMED_FIELDS[i]))
        case None =>
          if |ks| == 1 then (if ks[0] in m then ValueToString(m[ks[0]]) else "")
          else if |ks| <= 3 && PairsOf(v, ks) != [] then Join(PairsOf(v, ks), ", ")
          else "[Complex Data - Please Edit]"
  }

  /** Scalars: nothing for `null` and `undefined`, a string as it is,
      `String(v)` for a number or a boolean. */
  lemma ScalarText(v: Val)
    ensures IsNullish(v) ==> ValueToString(v) == ""
    ensures v.Str? ==> ValueToString(v) == v.s
    ensures v.Num? || v.Bool? ==> ValueToString(v) == ToStr(v)
  {
  }

  /** `NonEmpty` distributes over concatenation. */
  lemma {:induction false} NonEmptyAppend(a: seq<string>, b: seq<string>)
    ensures NonEmpty(a + b) == NonEmpty(a) + NonEmpty(b)
  {
    if a != [] {
      NonEmptyAppend(a[1..], b);
      assert (a + b)[0] == a[0] && (a + b)[1..] == a[1..] + b;
      assert a + b != [];
      if a[0] != "" {
        assert NonEmpty(a + b) == [a[0]] + NonEmpty(a[1..] + b);
        assert NonEmpty(a) == [a[0]] + NonEmpty(a[1..]);
        assert [a[0]] + (NonEmpty(a[1..]) + NonEmpty(b)) == ([a[0]] + NonEmpty(a[1..])) + NonEmpty(b);
      }
    } else {
      assert a + b == b;
    }
  }

  /** The texts of the items of an array, before empties are dropped. */
  function ItemTexts(xs: seq<Val>): (r: seq<string>)
    ensures |r| == |xs|
    ensures forall i :: 0 <= i < |xs| ==> r[i] == ValueToString(xs[i])
  {
    seq(|xs|, i requires 0 <= i < |xs| => ValueToString(xs[i]))
  }

  /** An array shows as the non-empty texts of its items, joined with `', '`. */
  lemma ArrayText(xs: seq<Val>)
    ensures ValueToString(Arr(xs)) == Join(NonEmpty(ItemTexts(xs)), ", ")
  {
    assert ItemTexts(xs) == seq(|xs|, i requires 0 <= i < |xs| => ValueToString(xs[i]));
  }

  lemma ItemTextsAppend(xs: seq<Val>, ys: seq<Val>)
    ensures ItemTexts(xs + ys) == ItemTexts(xs) + ItemTexts(ys)
  {
  }

  /** An array item whose text is empty leaves no trace: not even a
      separator. */
  lemma ArrayDropsEmptyItem(xs: seq<Val>, x: Val, ys: seq<Val>)
    requires ValueToString(x) == ""
    ensures ValueToString(Arr(xs + [x] + ys)) == ValueToString(Arr(xs + ys))
  {
    var a, b := ItemTexts(xs), ItemTexts(ys);
    ItemTextsAppend(xs + [x], ys);
    ItemTextsAppend(xs, [x]);
    ItemTextsAppend(xs, ys);
    assert ItemTexts([x]) == [""];
    assert ItemTexts(xs + [x] + ys) == a + [""] + b;
    NonEmptyAppend(a + [""], b);
    NonEmptyAppend(a, [""]);
    NonEmptyAppend(a, b);
    assert NonEmpty([""]) == [];
    assert NonEmpty(a + [""] + b) == NonEmpty(a + b);
    ArrayText(xs + [x] + ys);
    ArrayText(xs + ys);
  }

  /** An array of one item shows as that item. */
  lemma ArrayOfOne(x: Val)
    ensures ValueToString(Arr([x])) == ValueToString(x)
  {
    assert ItemTexts([x]) == [ValueToString(x)];
    if ValueToString(x) == "" {
      assert NonEmpty([""]) == [];
    } else {
      assert NonEmpty([ValueToString(x)]) == [ValueToString(x)];
    }
  }

  /** Two items with text are joined with a comma and a space. */
  lemma ArrayOfTwo(x: Val, y: Val)
    requires ValueToString(x) != "" && ValueToString(y) != ""
    ensures ValueToString(Arr([x, y])) == ValueToString(x) + ", " + ValueToString(y)
  {
    var a, b := ValueToString(x), ValueToString(y);
    assert ItemTexts([x, y]) == [a, b];
    assert [a, b][0] == a && [a, b][1..] == [b];
    assert NonEmpty([b]) == [b];
    assert NonEmpty([a, b]) == [a, b];
    JoinCons(a, [b], ", ");
  }

  /** Outside criteria objects, the first truthy field among `text`,
      `value`, `name`, `title` and `label` is shown, converted with `String`. */
  lemma NamedFieldShown(v: Val, i: nat)
    requires v.Obj? && !IsCriteria(v)
    requires i < |NAMED_FIELDS| && Truthy(Get(v, NAMED_FIELDS[i]))
    requires forall j :: 0 <= j < i ==> !Truthy(Get(v, NAMED_FIELDS[j]))
    ensures ValueToString(v) == ToStr(Get(v, NAMED_FIELDS[i]))
  {
    var r := FirstTruthy(v, NAMED_FIELDS);
    assert r.Some?;
    assert r.value == i;
  }

  /** An object without criteria and without a truthy named field whose only
      key is `k` shows as the value under `k`. */
  lemma SingleKeyUnwrapped(v: Val)
    requires v.Obj? && WellFormed(v) && |v.keys| == 1 && !IsCriteria(v)
    requires forall j :: 0 <= j < |NAMED_FIELDS| ==> !Truthy(Get(v, NAMED_FIELDS[j]))
    ensures ValueToString(v) == ValueToString(Get(v, v.keys[0]))
  {
    assert FirstTruthy(v, NAMED_FIELDS).None?;
    assert v.keys[0] in v.props;
  }

  /** The pairs list every string or number property of `ks`, and only
      those: it is empty exactly when `ks` has none. */
  lemma {:induction false} PairsOfSpec(v: Val, ks: seq<string>)
    ensures |PairsOf(v, ks)| <= |ks|
    ensures forall k :: k in ks && (Get(v, k).Str? || Get(v, k).Num?) ==>
      k + ": " + ToStr(Get(v, k)) in PairsOf(v, ks)
    ensures PairsOf(v, ks) == [] <==> forall k :: k in ks ==> !Get(v, k).Str? && !Get(v, k).Num?
  {
    if ks != [] {
      PairsOfSpec(v, ks[1..]);
      assert forall k :: k in ks <==> k == ks[0] || k in ks[1..];
    }
  }

  /** A criteria object shows its string and number properties as
      `'key: value'` pairs, or `[Complex Data]` when it has none. */
  lemma CriteriaShown(v: Val)
    requires v.Obj? && IsCriteria(v)
    ensures (forall k :: k in v.keys ==> !Get(v, k).Str? && !Get(v, k).Num?) ==>
      ValueToString(v) == "[Complex Data]"
    ensures forall k :: k in v.keys && (Get(v, k).Str? || Get(v, k).Num?) ==>
      ValueToString(v) == Join(PairsOf(v, v.keys), ", ") &&
      k + ": " + ToStr(Get(v, k)) in PairsOf(v, v.keys)
  {
    PairsOfSpec(v, v.keys);
  }

  /** An object of more than three keys that is neither a criteria object
      nor has a truthy named field is not shown: the user must edit it. */
  lemma LargeObjectPlaceholder(v: Val)
    requires v.Obj? && |v.keys| > 3 && !IsCriteria(v)
    requires forall j :: 0 <= j < |NAMED_FIELDS| ==> !Truthy(Get(v, NAMED_FIELDS[j]))
    ensures ValueToString(v) == "[Complex Data - Please Edit]"
  {
    assert FirstTruthy(v, NAMED_FIELDS).None?;
  }

  /** A small object (two or three keys, or none) without criteria and
      without a truthy named field shows its string and number properties as
      pairs, and the placeholder when it has none. */
  lemma SmallObjectPairs(v: Val)
    requires v.Obj? && |v.keys| != 1 && |v.keys| <= 3 && !IsCriteria(v)
    requires forall j :: 0 <= j < |NAMED_FIELDS| ==> !Truthy(Get(v, NAMED_FIELDS[j]))
    ensures (exists k :: k in v.keys && (Get(v, k).Str? || Get(v, k).Num?)) ==>
      ValueToString(v) == Join(PairsOf(v, v.keys), ", ")
    ensures (forall k :: k in v.keys ==> !Get(v, k).Str? && !Get(v, k).Num?) ==>
      ValueToString(v) == "[Complex Data - Please Edit]"
  {
    assert FirstTruthy(v, NAMED_FIELDS).None?;
    PairsOfSpec(v, v.keys);
  }

  /** `{}` is shown as the placeholder, not as an empty text. */
  lemma EmptyObjectPlaceholder()
    ensures ValueToString(EMPTY) == "[Complex Data - Please Edit]"
  {
    assert FirstTruthy(EMPTY, NAMED_FIELDS).None?;
  }

  /** Wrapping a value in single-key objects whose key is not a named field
      does not change its text: `{"data": {"x": "foo"}}` shows as `foo`. */
  lemma NestedWrapperExample()
    ensures ValueToString(Obj(["data"], map["data" := Obj(["x"], map["x" := Str("foo")])])) == "foo"
  {
    var inner := Obj(["x"], map["x" := Str("foo")]);
    var outer := Obj(["data"], map["data" := inner]);
    assert forall j :: 0 <= j < |NAMED_FIELDS| ==> NAMED_FIELDS[j] != "data" && NAMED_FIELDS[j] != "x";
    SingleKeyUnwrapped(outer);
    SingleKeyUnwrapped(inner);
  }

  /** `safeStringify`: the text of an evidence item. An object (arrays
      included) shows its truthy `text`, else its truthy `content`, else its
      truthy `value`, each converted the same way, and otherwise its JSON. */
  function SafeStringify(v: Val): string
    decreases v
  {
    match v
    case Undef => ""
    case Null => ""
    case Str(s) => s
    case Num(_) => ToStr(v)
    case Bool(_) => ToStr(v)
    case Arr(_) => Serialize(v)
    case Obj(_, m) =>
      if "text" in m && Truthy(m["text"]) then SafeStringify(m["text"])
      else if "content" in m && Truthy(m["content"]) then SafeStringify(m["content"])
      else if "value" in m && Truthy(m["value"]) then SafeStringify(m["value"])
      else Serialize(v)
  }

  /** The JSON text of an array or an object is never empty. */
  lemma SerializeNonEmpty(v: Val)
    requires v.Arr? || v.Obj?
    ensures Serialize(v) != ""
  {
    assert Serialize(v)[0] == if v.Arr? then '[' else '{';
  }

  /** `String(v)` of a number or a boolean is never empty. */
  lemma ScalarStringNonEmpty(v: Val)
    requires v.Num? || v.Bool?
    ensures ToStr(v) != ""
  {
    if v.Num? {
      var a := if v.n < 0.0 then -v.n else v.n;
      assert |NatToString(a.Floor)| >= 1;
    }
  }

  /** An evidence text is empty exactly when the value is `null`,
      `undefined` or the empty string: a truthy field it descends into
      always yields some text. */
  lemma {:induction false} SafeStringifyEmptyIff(v: Val)
    ensures SafeStringify(v) == "" <==> IsNullish(v) || v == Str("")
    decreases v
  {
    match v
    case Undef =>
    case Null =>
    case Str(_) =>
    case Num(_) => ScalarStringNonEmpty(v);
    case Bool(_) => ScalarStringNonEmpty(v);
    case Arr(_) => SerializeNonEmpty(v);
    case Obj(_, m) =>
      if "text" in m && Truthy(m["text"]) {
        SafeStringifyEmptyIff(m["text"]);
      } else if "content" in m && Truthy(m["content"]) {
        SafeStringifyEmptyIff(m["content"]);
      } else if "value" in m && Truthy(m["value"]) {
        SafeStringifyEmptyIff(m["value"]);
      } else {
        SerializeNonEmpty(v);
      }
  }

  /** The evidence text follows `text` before `content` before `value`:
      `{text: {content: 'a'}, value: 'b'}` gives `a`. */
  lemma SafeStringifyPrecedence()
    ensures SafeStringify(Obj(["text", "value"], map["text" := Obj(["content"], map["content" := Str("a")]),
                                                   "value" := Str("b")])) == "a"
  {
  }

  /** What the component reports to its parent. */
  datatype Event =
    | ValueChanged(value: string, index: int)
    | TypeChanged(dataType: Val, index: int)

  /** The state of one `EditableValue`: the text being edited and the
      pending type change awaiting confirmation. */
  class EditableValueView {
    var isEditing: bool
    var editedValue: string
    var showTypeWarning: bool
    var selectedType: Val

    /** A pending type change always names a type. */
    predicate Valid()
      reads this
    {
      showTypeWarning ==> selectedType.Str?
    }

    /** Mounting: editing only for a new value, the text taken from the value,
        no warning and no pending type. */
    constructor (value: Val, isNewValue: bool)
      ensures Valid()
      ensures isEditing == isNewValue && editedValue == ValueToString(value)
      ensures !showTypeWarning && selectedType == Null
    {
      isEditing := isNewValue;
      editedValue := ValueToString(value);
      showTypeWarning := false;
      selectedType := Null;
    }

    /** The effect on a new `value` prop: the edited text follows it. */
    method OnValueProp(value: Val)
      modifies this
      ensures editedValue == ValueToString(value)
      ensures isEditing == old(isEditing) && showTypeWarning == old(showTypeWarning)
      ensures selectedType == old(selectedType)
    {
      editedValue := ValueToString(value);
    }

    /** `handleValueChange`: the text is replaced and reported. */
    method HandleValueChange(newValue: string, index: int) returns (events: seq<Event>)
      modifies this
      ensures editedValue == newValue && events == [ValueChanged(newValue, index)]
      ensures isEditing == old(isEditing) && showTypeWarning == old(showTypeWarning)
      ensures selectedType == old(selectedType)
    {
      editedValue := newValue;
      events := [ValueChanged(newValue, index)];
    }

    /** `resetValue`: the text is cleared and the clearing reported. */
    method ResetValue(index: int) returns (events: seq<Event>)
      modifies this
      ensures editedValue == "" && events == [ValueChanged("", index)]
      ensures isEditing == old(isEditing) && showTypeWarning == old(showTypeWarning)
      ensures selectedType == old(selectedType)
    {
      editedValue := "";
      events := [ValueChanged("", index)];
    }

    /** `handleTypeSelect`: a type other than the template's (when the
        template gives one) only opens the warning and changes nothing else;
        any other choice clears the value first and then reports the type. */
    method HandleTypeSelect(t: string, templateType: Val, index: int) returns (events: seq<Event>)
      requires Valid()
      modifies this
      ensures Valid()
      ensures Truthy(templateType) && Str(t) != templateType ==>
        events == [] && showTypeWarning && selectedType == Str(t) &&
        editedValue == old(editedValue)
      ensures !(Truthy(templateType) && Str(t) != templateType) ==>
        events == [ValueChanged("", index), TypeChanged(Str(t), index)] &&
        editedValue == "" && showTypeWarning == old(showTypeWarning) &&
        selectedType == old(selectedType)
      ensures isEditing == old(isEditing)
    {
      if Truthy(templateType) && Str(t) != templateType {
        selectedType := Str(t);
        showTypeWarning := true;
        events := [];
      } else {
        var cleared := ResetValue(index);
        events := cleared + [TypeChanged(Str(t), index)];
      }
    }

    /** `confirmTypeChange`: the value is cleared, the pending type reported
        and the warning closed. */
    method ConfirmTypeChange(index: int) returns (events: seq<Event>)
      requires Valid()
      modifies this
      ensures Valid()
      ensures events == [ValueChanged("", index), TypeChanged(old(selectedType), index)]
      ensures editedValue == "" && !showTypeWarning
      ensures selectedType == old(selectedType) && isEditing == old(isEditing)
    {
      var cleared := ResetValue(index);
      events := cleared + [TypeChanged(selectedType, index)];
      showTypeWarning := false;
    }
  }
}
