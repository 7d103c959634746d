/** The content-analysis step: classifying values, reading a loosely
    formatted LLM answer, flattening nested results into one entry per
    property, detecting what a user edit changed, and the filter applied
    before the analysis is stored. */
module ContentAnalysis {
  import opened Wrappers
  import opened JsString
  import opened JsValue
  import AnalysisContext

  // ---------------------------------------------------------------------
  // getDataType

  predicate AllDigits(s: string) {
    forall i :: 0 <= i < |s| ==> IsDigit(s[i])
  }

  /** `/^\d{4}-\d{2}-\d{2}$/`. */
  predicate IsDate(s: string) {
    |s| == 10 && s[4] == '-' && s[7] == '-' &&
    AllDigits(s[..4]) && AllDigits(s[5..7]) && AllDigits(s[8..])
  }

  /** `\d+(\.\d+)?` matching the whole of `t`. */
  predicate NumericBody(t: string) {
    (t != [] && AllDigits(t)) ||
    exists d :: 0 < d < |t| - 1 && t[d] == '.' && AllDigits(t[..d]) && AllDigits(t[d + 1..])
  }

  /** `/^-?\d+(\.\d+)?$/`. */
  predicate IsNumeric(s: string) {
    if s != [] && s[0] == '-' then NumericBody(s[1..]) else NumericBody(s)
  }

  /** The kind of a string, the string tests taken in order. */
  function StringType(s: string): string {
    if IsDate(s) then "date"
    else if StartsWith(s, "http://") || StartsWith(s, "https://") then "url"
    else if '@' in s && '.' in s then "email"
    else if IsNumeric(s) then "number"
    else "text"
  }

  const DATA_TYPES: set<string> := {"text", "number", "boolean", "date", "url", "email", "array", "object"}

  /** `getDataType(value)`. */
  function GetDataType(v: Val): (r: string)
    ensures r in DATA_TYPES
    ensures v.Str? ==> r in {"date", "url", "email", "number", "text"}
    ensures !v.Str? ==> (r == "number" <==> v.Num?)
  {
    match v
    case Undef => "text"
    case Null => "text"
    case Num(_) => "number"
    case Bool(_) => "boolean"
    case Str(s) => StringType(s)
    case Arr(_) => "array"
    case Obj(_, _) => "object"
  }

  /** The URL test comes before the e-mail test: a URL holding an `@` is a URL. */
  lemma UrlBeforeEmail(s: string)
    requires StartsWith(s, "http://") || StartsWith(s, "https://")
    ensures GetDataType(Str(s)) == "url"
  {
    assert s[..5][4] == s[4];
  }

  lemma NumericBodyChars(t: string)
    requires NumericBody(t)
    ensures t != [] && forall i :: 0 <= i < |t| ==> IsDigit(t[i]) || t[i] == '.'
  {
    if !(t != [] && AllDigits(t)) {
      var d :| 0 < d < |t| - 1 && t[d] == '.' && AllDigits(t[..d]) && AllDigits(t[d + 1..]);
      forall i | 0 <= i < |t| && t[i] != '.' ensures IsDigit(t[i]) {
        if i < d { assert t[i] == t[..d][i]; } else { assert t[i] == t[d + 1..][i - d - 1]; }
      }
    }
  }

  /** A numeric literal holds digits and dots, and a leading minus sign. */
  lemma NumericChars(s: string)
    requires IsNumeric(s)
    ensures s != [] && forall i :: 0 <= i < |s| ==> IsDigit(s[i]) || s[i] == '.' || (i == 0 && s[i] == '-')
  {
    if s != [] && s[0] == '-' {
      var t := s[1..];
      NumericBodyChars(t);
      forall i | 1 <= i < |s| ensures IsDigit(s[i]) || s[i] == '.' {
        assert s[i] == t[i - 1];
      }
    } else {
      NumericBodyChars(s);
    }
  }

  /** No earlier test captures a numeric literal: it is always a number. */
  lemma NumericIsNumber(s: string)
    requires IsNumeric(s)
    ensures GetDataType(Str(s)) == "number"
  {
    NumericChars(s);
    assert s[0] != 'h';
    assert |s| >= 7 ==> s[..7][0] == s[0];
    assert |s| >= 8 ==> s[..8][0] == s[0];
    assert '@' !in s by {
      forall i | 0 <= i < |s| ensures s[i] != '@' {
      }
    }
    assert |s| == 10 ==> s[4] != '-';
  }

  // ---------------------------------------------------------------------
  // parseLLMResponse

  /** `s.replace(/\s*```$/, '')`: a closing fence and the white space before it. */
  function DropClosingFence(s: string): (r: string)
    ensures |r| <= |s|
  {
    if |s| >= 3 && s[|s| - 3..] == "```" then
      var w := s[..|s| - 3];
      w[..|w| - TrailingSpace(w)]
    else s
  }

  /** The text `JSON.parse` is given: the trimmed response with a Markdown
      code fence (`` ```json `` or `` ``` ``) removed. */
  function StripFence(response: string): string {
    var t := Trim(response);
    if StartsWith(t, "```json") then
      var u := t[7..];
      DropClosingFence(u[LeadingSpace(u)..])
    else if StartsWith(t, "```") then
      var u := t[3..];
      DropClosingFence(u[LeadingSpace(u)..])
    else t
  }

  /** What is left of a fenced block once the opening fence and the line
      break after it are gone. */
  function AfterOpening(body: string): string {
    (if body == [] then "" else body + "\n") + "```"
  }

  lemma OpeningDropped(body: string)
    requires Trimmed(body)
    ensures var u := ("```json\n" + body + "\n```")[7..];
      u[LeadingSpace(u)..] == AfterOpening(body)
  {
    var u := ("```json\n" + body + "\n```")[7..];
    assert u == "\n" + body + "\n```";
    LeadingSpaceSpec(u);
    var n := LeadingSpace(u);
    if body != [] {
      assert u[1] == body[0];
      assert n == 1;
    } else {
      assert u == "\n\n```";
      assert u[2] == '`';
      assert n == 2;
    }
  }

  lemma ClosingDropped(body: string)
    requires Trimmed(body)
    ensures DropClosingFence(AfterOpening(body)) == body
  {
    var v := AfterOpening(body);
    var w := v[..|v| - 3];
    assert v[|v| - 3..] == "```";
    if body != [] {
      assert w == body + "\n";
      TrailingSpaceSpec(w);
      assert w[|w| - 2] == body[|body| - 1];
      assert TrailingSpace(w) == 1 + TrailingSpace(body);
      assert w[..|w| - 1] == body;
    } else {
      assert w == "";
    }
  }

  /** A fenced JSON block loses exactly its fence. */
  lemma StripFenceRoundTrip(body: string)
    requires Trimmed(body)
    ensures StripFence("```json\n" + body + "\n```") == body
  {
    var s := "```json\n" + body + "\n```";
    assert s[0] == '`' && s[|s| - 1] == '`';
    TrimOfTrimmed(s);
    assert s[..7] == "```json";
    OpeningDropped(body);
    ClosingDropped(body);
  }

  /** The external `JSON.parse`: a value, or `None` when it throws. */
  type JsonParser = string -> Option<Val>

  /** `parseLLMResponse(response)`: an object or array is kept, a string is
      parsed after the fence is removed and, when that fails, read line by
      line; anything else gives `{}`. */
  function ParseLlmResponse(response: Val, parse: JsonParser): (r: Val)
    ensures response.Obj? || response.Arr? ==> r == response
    ensures response.Str? && parse(StripFence(response.s)).None? ==> r == ExtractKeyValuePairs(response.s)
    ensures !response.Str? && !response.Obj? && !response.Arr? ==> r == EMPTY
  {
    match response
    case Obj(_, _) => response
    case Arr(_) => response
    case Str(s) =>
      (match parse(StripFence(s))
       case Some(v) => v
       case None => ExtractKeyValuePairs(s))
    case _ => EMPTY
  }

  // ---------------------------------------------------------------------
  // extractKeyValuePairs

  /** The unquoted value pattern `[^,}\s]`. */
  predicate BareChar(c: char) {
    c != ',' && c != '}' && !IsSpace(c)
  }

  /** The length of the run of `BareChar`s of `s` from `i`. */
  function BareRun(s: string, i: nat): (n: nat)
    requires i <= |s|
    ensures i + n <= |s|
    decreases |s| - i
  {
    if i < |s| && BareChar(s[i]) then 1 + BareRun(s, i + 1) else 0
  }

  /** The white space of `s` from `i`, as `\s*` takes it. */
  function SpaceRun(s: string, i: nat): (n: nat)
    requires i <= |s|
    ensures i + n <= |s|
    decreases |s| - i
  {
    if i < |s| && IsSpace(s[i]) then 1 + SpaceRun(s, i + 1) else 0
  }

  /** `/"([^"]+)":\s*("[^"]*"|[^,}\s]+)/` tried at position `p` of `line`:
      the key and the raw value. */
  function PairAt(line: string, p: nat): Option<(string, string)>
    requires p <= |line|
  {
    if p < |line| && line[p] == '"' then
      var q := IndexOfFrom(line, "\"", p + 1);
      if q > p + 1 && q + 1 < |line| && line[q + 1] == ':' then
        var r := q + 2 + SpaceRun(line, q + 2);
        var close := if r < |line| && line[r] == '"' then IndexOfFrom(line, "\"", r + 1) else -1;
        if close >= 0 then Some((line[p + 1..q], line[r..close + 1]))
        else
          var n := BareRun(line, r);
          if n > 0 then Some((line[p + 1..q], line[r..r + n])) else None
      else None
    else None
  }

  /** `line.match(...)`: the leftmost position at or after `p` where the pattern matches. */
  function MatchPair(line: string, p: nat): Option<(string, string)>
    requires p <= |line|
    decreases |line| - p
  {
    if p == |line| then None
    else if PairAt(line, p).Some? then PairAt(line, p)
    else MatchPair(line, p + 1)
  }

  /** A value in quotes loses them: `value.slice(1, -1)`. */
  function Unquote(v: string): string {
    if |v| >= 1 && v[0] == '"' && v[|v| - 1] == '"' then
      (if |v| >= 2 then v[1..|v| - 1] else "")
    else v
  }

  /** What one line adds to the result. */
  function WithLine(result: Val, line: string): Val {
    match MatchPair(line, 0)
    case Some((key, value)) => With(result, key, Str(Unquote(value)))
    case None => result
  }

  function PairsFrom(lines: seq<string>, i: nat, result: Val): Val
    requires i <= |lines|
    decreases |lines| - i
  {
    if i == |lines| then result else PairsFrom(lines, i + 1, WithLine(result, lines[i]))
  }

  /** `extractKeyValuePairs(text)`. */
  function ExtractKeyValuePairs(text: string): Val {
    PairsFrom(Split(text, '\n'), 0, EMPTY)
  }

  /** `extractKeyValuePairs`, line by line. */
  method ExtractPairs(text: string) returns (result: Val)
    ensures result == ExtractKeyValuePairs(text)
  {
    var lines := Split(text, '\n');
    result := EMPTY;
    var i := 0;
    while i < |lines|
      invariant i <= |lines|
      invariant PairsFrom(lines, i, result) == ExtractKeyValuePairs(text)
    {
      result := WithLine(result, lines[i]);
      i := i + 1;
    }
  }

  /** Every value read is a string. */
  ghost predicate StringValued(v: Val) {
    forall k :: Has(v, k) ==> Get(v, k).Str?
  }

  lemma {:induction false} PairsFromStrings(lines: seq<string>, i: nat, result: Val)
    requires i <= |lines| && StringValued(result)
    ensures StringValued(PairsFrom(lines, i, result))
    decreases |lines| - i
  {
    if i < |lines| {
      PairsFromStrings(lines, i + 1, WithLine(result, lines[i]));
    }
  }

  lemma ExtractedAreStrings(text: string)
    ensures ExtractKeyValuePairs(text).Obj?
    ensures StringValued(ExtractKeyValuePairs(text))
  {
    PairsFromStrings(Split(text, '\n'), 0, EMPTY);
    PairsFromObj(Split(text, '\n'), 0, EMPTY);
  }

  lemma {:induction false} PairsFromObj(lines: seq<string>, i: nat, result: Val)
    requires i <= |lines| && result.Obj?
    ensures PairsFrom(lines, i, result).Obj?
    decreases |lines| - i
  {
    if i < |lines| {
      PairsFromObj(lines, i + 1, WithLine(result, lines[i]));
    }
  }

  /** In a quoted piece `"body"` at `p`, the quote closing it is the first
      one after the opening quote. */
  lemma ClosingQuote(line: string, p: nat, body: string)
    requires '"' !in body && OccursAt(line, "\"" + body + "\"", p)
    ensures IndexOfFrom(line, "\"", p + 1) == p + 1 + |body|
  {
    var c := p + 1 + |body|;
    assert line[p..c + 1] == "\"" + body + "\"";
    forall j | p + 1 <= j < c ensures !OccursAt(line, "\"", j) {
      assert line[j] == line[p..c + 1][j - p] == body[j - p - 1];
      assert line[j..j + 1] == [line[j]];
    }
    assert line[c] == line[p..c + 1][c - p];
    assert line[c..c + 1] == [line[c]];
    IndexOfFromIs(line, "\"", p + 1, c);
  }

  /** The key half of a line `"key": "value"`. */
  lemma KeyRead(line: string, key: string, quotedValue: string)
    requires key != [] && '"' !in key && line == "\"" + key + "\"" + ": " + quotedValue
    ensures IndexOfFrom(line, "\"", 1) == 1 + |key|
    ensures line[2 + |key|] == ':' && line[1..1 + |key|] == key
    ensures SpaceRun(line, |key| + 3) == 1 + SpaceRun(line, |key| + 4)
    ensures line[|key| + 4..] == quotedValue
  {
    var q := 1 + |key|;
    assert line[..q + 1] == "\"" + key + "\"";
    ClosingQuote(line, 0, key);
    assert line[q + 2] == ' ';
  }

  /** The value half of a line `"key": "value"`, from its opening quote at `r`. */
  lemma ValueRead(line: string, r: nat, value: string)
    requires '"' !in value && r <= |line| && line[r..] == "\"" + value + "\""
    ensures SpaceRun(line, r) == 0 && line[r] == '"'
    ensures IndexOfFrom(line, "\"", r + 1) == |line| - 1
    ensures line[r..|line|] == "\"" + value + "\""
  {
    assert line[r] == line[r..][0];
    ClosingQuote(line, r, value);
  }

  /** A line written as `"key": "value"` is read back as that pair. */
  lemma PairLineRead(key: string, value: string)
    requires key != [] && '"' !in key && '"' !in value
    ensures MatchPair("\"" + key + "\": \"" + value + "\"", 0) == Some((key, "\"" + value + "\""))
    ensures Unquote("\"" + value + "\"") == value
  {
    var quotedValue := "\"" + value + "\"";
    var line := "\"" + key + "\"" + ": " + quotedValue;
    assert line == "\"" + key + "\": \"" + value + "\"";
    PairAtQuoted(line, key, value);
  }

  /** The pattern matches a line `"key": "value"` at its first character. */
  lemma PairAtQuoted(line: string, key: string, value: string)
    requires key != [] && '"' !in key && '"' !in value
    requires line == "\"" + key + "\"" + ": " + "\"" + value + "\""
    ensures PairAt(line, 0) == Some((key, "\"" + value + "\""))
  {
    KeyRead(line, key, "\"" + value + "\"");
    ValueRead(line, |key| + 4, value);
  }

  // ---------------------------------------------------------------------
  // The label built from a flattened key

  /** One word of the key: four acronyms are written in capitals, any other
      word gets a capital first letter. */
  function LabelWord(w: string): string {
    var l := ToLower(w);
    if l == "ai" then "AI"
    else if l == "ct" then "CT"
    else if l == "roi" then "ROI"
    else if l == "auc" then "AUC"
    else Capitalize(w)
  }

  /** The length of the run of digits of `s` from its start. */
  function DigitRun(s: string): (n: nat)
    ensures n <= |s|
  {
    if s != [] && IsDigit(s[0]) then 1 + DigitRun(s[1..]) else 0
  }

  /** `.replace(/(\d+)/g, ' $1 ')`. */
  function SpaceDigits(s: string): string
    decreases |s|
  {
    if s == [] then []
    else if IsDigit(s[0]) then
      var n := DigitRun(s);
      " " + s[..n] + " " + SpaceDigits(s[n..])
    else [s[0]] + SpaceDigits(s[1..])
  }

  /** `.replace(/\s+/g, ' ')`. */
  function CollapseSpace(s: string): string
    decreases |s|
  {
    if s == [] then []
    else if IsSpace(s[0]) then
      LeadingSpaceSpec(s);
      " " + CollapseSpace(s[LeadingSpace(s)..])
    else [s[0]] + CollapseSpace(s[1..])
  }

  /** The label shown for a flattened key. */
  function Label(key: string): string {
    var words := Split(key, '_');
    var joined := Join(seq(|words|, i requires 0 <= i < |words| => LabelWord(words[i])), " ");
    Trim(CollapseSpace(SpaceDigits(joined)))
  }

  /** Its only white space is single plain spaces. */
  predicate SingleSpaced(s: string) {
    (forall i :: 0 <= i < |s| && IsSpace(s[i]) ==> s[i] == ' ') &&
    (forall i :: 0 <= i < |s| - 1 ==> !(s[i] == ' ' && s[i + 1] == ' '))
  }

  lemma {:induction false} CollapseStart(s: string)
    requires s != [] && !IsSpace(s[0])
    ensures CollapseSpace(s) != [] && CollapseSpace(s)[0] == s[0]
  {
  }

  lemma {:induction false} CollapseSingleSpaced(s: string)
    ensures SingleSpaced(CollapseSpace(s))
    decreases |s|
  {
    if s != [] {
      if IsSpace(s[0]) {
        LeadingSpaceSpec(s);
        var rest := s[LeadingSpace(s)..];
        CollapseSingleSpaced(rest);
        var r := CollapseSpace(rest);
        assert CollapseSpace(s) == " " + r;
        if rest != [] {
          CollapseStart(rest);
          assert rest[0] == s[LeadingSpace(s)];
        }
        assert r != [] ==> r[0] != ' ' && !IsSpace(r[0]);
        forall i | 0 <= i < |r| ensures (" " + r)[i + 1] == r[i] { }
      } else {
        CollapseSingleSpaced(s[1..]);
        var r := CollapseSpace(s[1..]);
        assert CollapseSpace(s) == [s[0]] + r;
        forall i | 0 <= i < |r| ensures ([s[0]] + r)[i + 1] == r[i] { }
      }
    }
  }

  lemma SingleSpacedSlice(s: string, a: nat, b: nat)
    requires SingleSpaced(s) && a <= b <= |s|
    ensures SingleSpaced(s[a..b])
  {
    var t := s[a..b];
    forall i | 0 <= i < |t| ensures t[i] == s[a + i] { }
  }

  /** A label has no white space at its ends, and inside only single plain spaces. */
  lemma LabelClean(key: string)
    ensures Trimmed(Label(key)) && SingleSpaced(Label(key))
  {
    var words := Split(key, '_');
    var joined := Join(seq(|words|, i requires 0 <= i < |words| => LabelWord(words[i])), " ");
    var c := CollapseSpace(SpaceDigits(joined));
    CollapseSingleSpaced(SpaceDigits(joined));
    TrimShape(c);
    SingleSpacedSlice(c, Lead(c), Lead(c) + |Trim(c)|);
  }

  // ---------------------------------------------------------------------
  // flattenObject

  /** The random part of a value id (`Math.random().toString(36)...`),
      chosen for the entry written under a key. */
  type IdSource = string -> string

  /** The deepest level `flattenObject` still expands. */
  const MAX_DEPTH: nat := 10

  /** `prefix ? `${prefix}_${key}` : key`. */
  function JoinKey(prefix: string, key: string): string {
    if prefix == "" then key else prefix + "_" + key
  }

  /** `path ? `${path}.${key}` : key`. */
  function JoinPath(path: string, key: string): string {
    if path == "" then key else path + "." + key
  }

  function ItemKey(newKey: string, index: nat): string {
    newKey + "_" + NatToString(index + 1)
  }

  function ItemPath(newPath: string, index: nat): string {
    newPath + "[" + NatToString(index) + "]"
  }

  /** One value of a property: `{value, confidence: 1, evidence: {}, id}`. */
  function ValueItem(value: Val, id: string): Val {
    Obj(["value", "confidence", "evidence", "id"],
      map["value" := value, "confidence" := N(1), "evidence" := EMPTY, "id" := Str("val-" + id)])
  }

  /** A flattened entry: its text, its metadata and the single value holding the text. */
  function Entry(text: string, metadata: Val, id: string): Val {
    Obj(["value", "metadata", "values"],
      map["value" := Str(text), "metadata" := metadata, "values" := Arr([ValueItem(Str(text), id)])])
  }

  /** `String(v ?? '')`. */
  function TextOf(v: Val): string {
    if IsNullish(v) then "" else ToStr(v)
  }

  predicate IsPrimitive(v: Val) {
    v.Str? || v.Num? || v.Bool?
  }

  /** An object whose every property is missing or primitive. */
  predicate IsSimple(v: Val) {
    forall k :: k in KeysOf(v) ==> IsNullish(Get(v, k)) || IsPrimitive(Get(v, k))
  }

  /** `typeof item === 'object' && item !== null`. */
  predicate IsObjectLike(v: Val) {
    v.Obj? || v.Arr?
  }

  /** The text naming one item of an array of objects. */
  function SummaryItem(item: Val, index: nat): string {
    if IsObjectLike(item) then
      if Truthy(Get(item, "name")) then ToStr(Get(item, "name"))
      else if Truthy(Get(item, "id")) then ToStr(Get(item, "id"))
      else if Truthy(Get(item, "value")) then ToStr(Get(item, "value"))
      else "Item " + NatToString(index + 1)
    else ToStr(item)
  }

  /** `[summary]` of an array of objects. */
  function Summary(items: seq<Val>): string {
    "[" + Join(seq(|items|, i requires 0 <= i < |items| => SummaryItem(items[i], i)), ", ") + "]"
  }

  function NullEntry(path: string, id: string): Val {
    Entry("", Obj(["property_type", "path", "is_null"],
      map["property_type" := Str("text"), "path" := Str(path), "is_null" := Bool(true)]), id)
  }

  function SubEntry(sub: Val, path: string, parentKey: string, id: string): Val {
    Entry(TextOf(sub), Obj(["property_type", "path", "parent_key"],
      map["property_type" := Str(GetDataType(sub)), "path" := Str(path), "parent_key" := Str(parentKey)]), id)
  }

  function EmptyObjectEntry(path: string, id: string): Val {
    Entry("[Empty Object]", Obj(["property_type", "path", "is_empty"],
      map["property_type" := Str("text"), "path" := Str(path), "is_empty" := Bool(true)]), id)
  }

  function EmptyArrayEntry(path: string, id: string): Val {
    Entry("[]", Obj(["property_type", "path", "is_array", "is_empty"],
      map["property_type" := Str("text"), "path" := Str(path), "is_array" := Bool(true), "is_empty" := Bool(true)]), id)
  }

  function PrimitiveArrayEntry(value: Val, path: string, id: string): Val
    requires value.Arr?
  {
    Entry(JoinItems(value.items, ", "), Obj(["property_type", "path", "is_array", "item_count", "original_value"],
      map["property_type" := Str("text"), "path" := Str(path), "is_array" := Bool(true),
          "item_count" := N(|value.items|), "original_value" := value]), id)
  }

  function SummaryEntry(items: seq<Val>, path: string, id: string): Val {
    Entry(Summary(items), Obj(["property_type", "path", "is_array", "item_count", "contains_objects"],
      map["property_type" := Str("text"), "path" := Str(path), "is_array" := Bool(true),
          "item_count" := N(|items|), "contains_objects" := Bool(true)]), id)
  }

  function ItemEntry(item: Val, index: nat, path: string, parentKey: string, id: string): Val {
    Entry(ToStr(item), Obj(["property_type", "path", "array_index", "parent_key"],
      map["property_type" := Str(GetDataType(item)), "path" := Str(path),
          "array_index" := N(index), "parent_key" := Str(parentKey)]), id)
  }

  function PrimitiveEntry(value: Val, path: string, id: string): Val {
    Entry(TextOf(value), Obj(["property_type", "path"],
      map["property_type" := Str(GetDataType(value)), "path" := Str(path)]), id)
  }

  /** `flattenObject(obj, prefix, path, depth)`: nothing below `MAX_DEPTH`,
      otherwise the entries of `obj` in order. */
  function Flatten(obj: Val, prefix: string, path: string, depth: nat, ids: IdSource): Val
    decreases MAX_DEPTH + 1 - depth, 3, 0
  {
    if depth > MAX_DEPTH then EMPTY
    else FlattenFrom(Entries(obj), 0, prefix, path, depth, EMPTY, ids)
  }

  function FlattenFrom(es: seq<(string, Val)>, i: nat, prefix: string, path: string, depth: nat,
                       acc: Val, ids: IdSource): Val
    requires i <= |es| && depth <= MAX_DEPTH
    decreases MAX_DEPTH + 1 - depth, 2, |es| - i
  {
    if i == |es| then acc
    else FlattenFrom(es, i + 1, prefix, path, depth, FlattenEntry(acc, es[i].0, es[i].1, prefix, path, depth, ids), ids)
  }

  /** What one property `key: value` of the object being flattened adds to `acc`. */
  function FlattenEntry(acc: Val, key: string, value: Val, prefix: string, path: string, depth: nat,
                        ids: IdSource): Val
    requires depth <= MAX_DEPTH
    decreases MAX_DEPTH + 1 - depth, 1, 0
  {
    var newKey := JoinKey(prefix, key);
    var newPath := JoinPath(path, key);
    if IsNullish(value) then With(acc, newKey, NullEntry(newPath, ids(newKey)))
    else if value.Obj? then
      if IsSimple(value) && |value.keys| > 0 then SubEntriesFrom(Entries(value), 0, newKey, newPath, acc, ids)
      else if |value.keys| == 0 then With(acc, newKey, EmptyObjectEntry(newPath, ids(newKey)))
      else Spread(acc, Flatten(value, newKey, newPath, depth + 1, ids))
    else if value.Arr? then
      if |value.items| == 0 then With(acc, newKey, EmptyArrayEntry(newPath, ids(newKey)))
      else if forall x :: x in value.items ==> IsPrimitive(x) then
        With(acc, newKey, PrimitiveArrayEntry(value, newPath, ids(newKey)))
      else
        ItemsFrom(value.items, 0, newKey, newPath, depth,
          With(acc, newKey, SummaryEntry(value.items, newPath, ids(newKey))), ids)
    else With(acc, newKey, PrimitiveEntry(value, newPath, ids(newKey)))
  }

  /** The `key_subKey` entries of a simple object. */
  function SubEntriesFrom(es: seq<(string, Val)>, i: nat, newKey: string, newPath: string, acc: Val,
                          ids: IdSource): Val
    requires i <= |es|
    decreases |es| - i
  {
    if i == |es| then acc
    else
      var finalKey := newKey + "_" + es[i].0;
      SubEntriesFrom(es, i + 1, newKey, newPath,
        With(acc, finalKey, SubEntry(es[i].1, newPath + "." + es[i].0, newKey, ids(finalKey))), ids)
  }

  /** The per-item entries of an array of objects. */
  function ItemsFrom(items: seq<Val>, j: nat, newKey: string, newPath: string, depth: nat, acc: Val,
                     ids: IdSource): Val
    requires j <= |items| && depth <= MAX_DEPTH
    decreases MAX_DEPTH + 1 - depth, 0, |items| - j
  {
    if j == |items| then acc
    else ItemsFrom(items, j + 1, newKey, newPath, depth, ItemInto(acc, items[j], j, newKey, newPath, depth, ids), ids)
  }

  function ItemInto(acc: Val, item: Val, j: nat, newKey: string, newPath: string, depth: nat,
                    ids: IdSource): Val
    requires depth <= MAX_DEPTH
    decreases MAX_DEPTH + 1 - depth, 0, 0
  {
    var itemKey := ItemKey(newKey, j);
    if IsObjectLike(item) then Spread(acc, Flatten(item, itemKey, ItemPath(newPath, j), depth + 1, ids))
    else With(acc, itemKey, ItemEntry(item, j, ItemPath(newPath, j), newKey, ids(itemKey)))
  }

  /** `flattenObject`: a loop over the entries of `obj`, writing into `flattened`. */
  method FlattenObject(obj: Val, prefix: string, path: string, depth: nat, ids: IdSource)
    returns (flattened: Val)
    ensures flattened == Flatten(obj, prefix, path, depth, ids)
    decreases MAX_DEPTH + 1 - depth, 3
  {
    flattened := EMPTY;
    if depth > MAX_DEPTH {
      return;
    }
    var es := Entries(obj);
    var i := 0;
    while i < |es|
      invariant i <= |es|
      invariant FlattenFrom(es, i, prefix, path, depth, flattened, ids) == Flatten(obj, prefix, path, depth, ids)
    {
      flattened := AddEntry(flattened, es[i].0, es[i].1, prefix, path, depth, ids);
      i := i + 1;
    }
  }

  /** The body of the loop in `flattenObject` for one property. */
  method AddEntry(flattened: Val, key: string, value: Val, prefix: string, path: string, depth: nat,
                  ids: IdSource) returns (r: Val)
    requires depth <= MAX_DEPTH
    ensures r == FlattenEntry(flattened, key, value, prefix, path, depth, ids)
    decreases MAX_DEPTH + 1 - depth, 2
  {
    var newKey := JoinKey(prefix, key);
    var newPath := JoinPath(path, key);
    if IsNullish(value) {
      r := With(flattened, newKey, NullEntry(newPath, ids(newKey)));
    } else if value.Obj? {
      if IsSimple(value) && |value.keys| > 0 {
        r := AddSubEntries(flattened, value, newKey, newPath, ids);
      } else if |value.keys| == 0 {
        r := With(flattened, newKey, EmptyObjectEntry(newPath, ids(newKey)));
      } else {
        var nested := FlattenObject(value, newKey, newPath, depth + 1, ids);
        r := Spread(flattened, nested);
      }
    } else if value.Arr? {
      if |value.items| == 0 {
        r := With(flattened, newKey, EmptyArrayEntry(newPath, ids(newKey)));
      } else if forall x :: x in value.items ==> IsPrimitive(x) {
        r := With(flattened, newKey, PrimitiveArrayEntry(value, newPath, ids(newKey)));
      } else {
        r := With(flattened, newKey, SummaryEntry(value.items, newPath, ids(newKey)));
        r := AddItems(r, value.items, newKey, newPath, depth, ids);
      }
    } else {
      r := With(flattened, newKey, PrimitiveEntry(value, newPath, ids(newKey)));
    }
  }

  /** The loop writing the `key_subKey` entries of a simple object. */
  lemma SubEntriesStep(es: seq<(string, Val)>, i: nat, newKey: string, newPath: string, acc: Val, ids: IdSource)
    requires i < |es|
    ensures var finalKey := newKey + "_" + es[i].0;
      SubEntriesFrom(es, i, newKey, newPath, acc, ids) ==
      SubEntriesFrom(es, i + 1, newKey, newPath,
        With(acc, finalKey, SubEntry(es[i].1, newPath + "." + es[i].0, newKey, ids(finalKey))), ids)
  {
  }

  method AddSubEntries(flattened: Val, value: Val, newKey: string, newPath: string, ids: IdSource)
    returns (r: Val)
    ensures r == SubEntriesFrom(Entries(value), 0, newKey, newPath, flattened, ids)
  {
    var es := Entries(value);
    r := flattened;
    var i := 0;
    while i < |es|
      invariant i <= |es|
      invariant SubEntriesFrom(es, i, newKey, newPath, r, ids) == SubEntriesFrom(es, 0, newKey, newPath, flattened, ids)
    {
      var finalKey := newKey + "_" + es[i].0;
      SubEntriesStep(es, i, newKey, newPath, r, ids);
      r := With(r, finalKey, SubEntry(es[i].1, newPath + "." + es[i].0, newKey, ids(finalKey)));
      i := i + 1;
    }
  }

  /** The loop over the items of an array of objects. */
  method AddItems(flattened: Val, items: seq<Val>, newKey: string, newPath: string, depth: nat,
                  ids: IdSource) returns (r: Val)
    requires depth <= MAX_DEPTH
    ensures r == ItemsFrom(items, 0, newKey, newPath, depth, flattened, ids)
    decreases MAX_DEPTH + 1 - depth, 1
  {
    r := flattened;
    var j := 0;
    while j < |items|
      invariant j <= |items|
      invariant ItemsFrom(items, j, newKey, newPath, depth, r, ids) == ItemsFrom(items, 0, newKey, newPath, depth, flattened, ids)
    {
      var itemKey := ItemKey(newKey, j);
      if IsObjectLike(items[j]) {
        var nested := FlattenObject(items[j], itemKey, ItemPath(newPath, j), depth + 1, ids);
        r := Spread(r, nested);
      } else {
        r := With(r, itemKey, ItemEntry(items[j], j, ItemPath(newPath, j), newKey, ids(itemKey)));
      }
      j := j + 1;
    }
  }

  // The entries `flattenObject` writes

  /** A value as every flattened entry holds it: confidence 1, no evidence. */
  predicate UnitValue(v: Val) {
    Get(v, "confidence") == N(1) && Get(v, "evidence") == EMPTY
  }

  predicate TypedMetadata(m: Val) {
    m.Obj? && Get(m, "property_type").Str? && Get(m, "property_type").s in DATA_TYPES
  }

  /** A flattened entry: one value, holding the entry's text, and typed metadata. */
  predicate FlatEntry(e: Val) {
    var vs := Get(e, "values");
    vs.Arr? && |vs.items| == 1 && UnitValue(vs.items[0]) &&
    Get(vs.items[0], "value") == Get(e, "value") && Get(e, "value").Str? &&
    TypedMetadata(Get(e, "metadata"))
  }

  /** An object of flattened entries, each key listed once. */
  ghost predicate Shaped(acc: Val) {
    acc.Obj? && WellFormed(acc) && forall k :: Has(acc, k) ==> FlatEntry(Get(acc, k))
  }

  lemma EntryFlat(text: string, metadata: Val, id: string)
    requires TypedMetadata(metadata)
    ensures FlatEntry(Entry(text, metadata, id))
  {
    var e := Entry(text, metadata, id);
    assert Get(e, "values") == Arr([ValueItem(Str(text), id)]);
  }

  lemma WithShaped(acc: Val, k: string, e: Val)
    requires Shaped(acc) && FlatEntry(e)
    ensures Shaped(With(acc, k, e))
  {
    WithWellFormed(acc, k, e);
  }

  lemma SpreadShaped(a: Val, b: Val)
    requires Shaped(a) && Shaped(b)
    ensures Shaped(Spread(a, b))
  {
    SpreadWellFormed(a, b);
  }

  /** Everything `flattenObject` returns is an object of flattened entries. */
  lemma {:induction false} FlattenShaped(obj: Val, prefix: string, path: string, depth: nat, ids: IdSource)
    ensures Shaped(Flatten(obj, prefix, path, depth, ids))
    decreases MAX_DEPTH + 1 - depth, 3, 0
  {
    if depth <= MAX_DEPTH {
      FlattenFromShaped(Entries(obj), 0, prefix, path, depth, EMPTY, ids);
    }
  }

  lemma {:induction false} FlattenFromShaped(es: seq<(string, Val)>, i: nat, prefix: string, path: string,
                                             depth: nat, acc: Val, ids: IdSource)
    requires i <= |es| && depth <= MAX_DEPTH && Shaped(acc)
    ensures Shaped(FlattenFrom(es, i, prefix, path, depth, acc, ids))
    decreases MAX_DEPTH + 1 - depth, 2, |es| - i
  {
    if i < |es| {
      var next := FlattenEntry(acc, es[i].0, es[i].1, prefix, path, depth, ids);
      FlattenEntryShaped(acc, es[i].0, es[i].1, prefix, path, depth, ids);
      assert FlattenFrom(es, i, prefix, path, depth, acc, ids) == FlattenFrom(es, i + 1, prefix, path, depth, next, ids);
      FlattenFromShaped(es, i + 1, prefix, path, depth, next, ids);
    }
  }

  lemma {:induction false} FlattenEntryShaped(acc: Val, key: string, value: Val, prefix: string, path: string,
                                              depth: nat, ids: IdSource)
    requires depth <= MAX_DEPTH && Shaped(acc)
    ensures Shaped(FlattenEntry(acc, key, value, prefix, path, depth, ids))
    decreases MAX_DEPTH + 1 - depth, 1, 0
  {
    var newKey := JoinKey(prefix, key);
    var newPath := JoinPath(path, key);
    var id := ids(newKey);
    if IsNullish(value) {
      EntryFlat("", Get(NullEntry(newPath, id), "metadata"), id);
      WithShaped(acc, newKey, NullEntry(newPath, id));
    } else if value.Obj? {
      if IsSimple(value) && |value.keys| > 0 {
        SubEntriesShaped(Entries(value), 0, newKey, newPath, acc, ids);
      } else if |value.keys| == 0 {
        EntryFlat("[Empty Object]", Get(EmptyObjectEntry(newPath, id), "metadata"), id);
        WithShaped(acc, newKey, EmptyObjectEntry(newPath, id));
      } else {
        FlattenShaped(value, newKey, newPath, depth + 1, ids);
        SpreadShaped(acc, Flatten(value, newKey, newPath, depth + 1, ids));
      }
    } else if value.Arr? {
      ArrayEntryShaped(acc, value, newKey, newPath, depth, ids);
    } else {
      var e := PrimitiveEntry(value, newPath, id);
      EntryFlat(TextOf(value), Get(e, "metadata"), id);
      WithShaped(acc, newKey, e);
    }
  }

  /** The array branch of `FlattenEntryShaped`. */
  lemma {:induction false} ArrayEntryShaped(acc: Val, value: Val, newKey: string, newPath: string, depth: nat,
                                            ids: IdSource)
    requires depth <= MAX_DEPTH && Shaped(acc) && value.Arr?
    ensures Shaped(
      if |value.items| == 0 then With(acc, newKey, EmptyArrayEntry(newPath, ids(newKey)))
      else if forall x :: x in value.items ==> IsPrimitive(x) then
        With(acc, newKey, PrimitiveArrayEntry(value, newPath, ids(newKey)))
      else
        ItemsFrom(value.items, 0, newKey, newPath, depth,
          With(acc, newKey, SummaryEntry(value.items, newPath, ids(newKey))), ids))
    decreases MAX_DEPTH + 1 - depth, 0, |value.items| + 1
  {
    var id := ids(newKey);
    if |value.items| == 0 {
      EntryFlat("[]", Get(EmptyArrayEntry(newPath, id), "metadata"), id);
      WithShaped(acc, newKey, EmptyArrayEntry(newPath, id));
    } else if forall x :: x in value.items ==> IsPrimitive(x) {
      var e := PrimitiveArrayEntry(value, newPath, id);
      EntryFlat(JoinItems(value.items, ", "), Get(e, "metadata"), id);
      WithShaped(acc, newKey, e);
    } else {
      var e := SummaryEntry(value.items, newPath, id);
      EntryFlat(Summary(value.items), Get(e, "metadata"), id);
      WithShaped(acc, newKey, e);
      ItemsFromShaped(value.items, 0, newKey, newPath, depth, With(acc, newKey, e), ids);
    }
  }

  lemma {:induction false} SubEntriesShaped(es: seq<(string, Val)>, i: nat, newKey: string, newPath: string,
                                            acc: Val, ids: IdSource)
    requires i <= |es| && Shaped(acc)
    ensures Shaped(SubEntriesFrom(es, i, newKey, newPath, acc, ids))
    decreases |es| - i
  {
    if i < |es| {
      var finalKey := newKey + "_" + es[i].0;
      var e := SubEntry(es[i].1, newPath + "." + es[i].0, newKey, ids(finalKey));
      EntryFlat(TextOf(es[i].1), Get(e, "metadata"), ids(finalKey));
      WithShaped(acc, finalKey, e);
      SubEntriesShaped(es, i + 1, newKey, newPath, With(acc, finalKey, e), ids);
    }
  }

  lemma {:induction false} ItemsFromShaped(items: seq<Val>, j: nat, newKey: string, newPath: string, depth: nat,
                                           acc: Val, ids: IdSource)
    requires j <= |items| && depth <= MAX_DEPTH && Shaped(acc)
    ensures Shaped(ItemsFrom(items, j, newKey, newPath, depth, acc, ids))
    decreases MAX_DEPTH + 1 - depth, 0, |items| - j
  {
    if j < |items| {
      var next := ItemInto(acc, items[j], j, newKey, newPath, depth, ids);
      ItemIntoShaped(acc, items[j], j, newKey, newPath, depth, ids);
      assert ItemsFrom(items, j, newKey, newPath, depth, acc, ids) == ItemsFrom(items, j + 1, newKey, newPath, depth, next, ids);
      ItemsFromShaped(items, j + 1, newKey, newPath, depth, next, ids);
    }
  }

  lemma {:induction false} ItemIntoShaped(acc: Val, item: Val, j: nat, newKey: string, newPath: string, depth: nat,
                                          ids: IdSource)
    requires depth <= MAX_DEPTH && Shaped(acc)
    ensures Shaped(ItemInto(acc, item, j, newKey, newPath, depth, ids))
    decreases MAX_DEPTH + 1 - depth, 0, 0
  {
    var itemKey := ItemKey(newKey, j);
    if IsObjectLike(item) {
      FlattenShaped(item, itemKey, ItemPath(newPath, j), depth + 1, ids);
      SpreadShaped(acc, Flatten(item, itemKey, ItemPath(newPath, j), depth + 1, ids));
    } else {
      var e := ItemEntry(item, j, ItemPath(newPath, j), newKey, ids(itemKey));
      EntryFlat(ToStr(item), Get(e, "metadata"), ids(itemKey));
      WithShaped(acc, itemKey, e);
    }
  }

  /** The text of the entry written under `k`. */
  function TextAt(r: Val, k: string): Val {
    Get(Get(r, k), "value")
  }

  /** A null or undefined property is written as `''` and marked `is_null`. */
  lemma FlattenNull(acc: Val, key: string, value: Val, prefix: string, path: string, depth: nat, ids: IdSource)
    requires depth <= MAX_DEPTH && IsNullish(value)
    ensures var r := FlattenEntry(acc, key, value, prefix, path, depth, ids);
      var k := JoinKey(prefix, key);
      TextAt(r, k) == Str("") && Get(Get(Get(r, k), "metadata"), "is_null") == Bool(true)
  {
  }

  /** `{}` is written as `'[Empty Object]'`. */
  lemma FlattenEmptyObject(acc: Val, key: string, value: Val, prefix: string, path: string, depth: nat, ids: IdSource)
    requires depth <= MAX_DEPTH && value.Obj? && value.keys == []
    ensures TextAt(FlattenEntry(acc, key, value, prefix, path, depth, ids), JoinKey(prefix, key)) == Str("[Empty Object]")
  {
    assert FlattenEntry(acc, key, value, prefix, path, depth, ids) ==
      With(acc, JoinKey(prefix, key), EmptyObjectEntry(JoinPath(path, key), ids(JoinKey(prefix, key))));
  }

  /** `[]` is written as `'[]'`. */
  lemma FlattenEmptyArray(acc: Val, key: string, prefix: string, path: string, depth: nat, ids: IdSource)
    requires depth <= MAX_DEPTH
    ensures TextAt(FlattenEntry(acc, key, Arr([]), prefix, path, depth, ids), JoinKey(prefix, key)) == Str("[]")
  {
  }

  /** An array of primitives is written as its items joined with `', '`. */
  lemma FlattenPrimitiveArray(acc: Val, key: string, value: Val, prefix: string, path: string, depth: nat, ids: IdSource)
    requires depth <= MAX_DEPTH && value.Arr? && value.items != []
    requires forall x :: x in value.items ==> IsPrimitive(x)
    ensures TextAt(FlattenEntry(acc, key, value, prefix, path, depth, ids), JoinKey(prefix, key)) ==
      Str(JoinItems(value.items, ", "))
  {
    assert FlattenEntry(acc, key, value, prefix, path, depth, ids) ==
      With(acc, JoinKey(prefix, key), PrimitiveArrayEntry(value, JoinPath(path, key), ids(JoinKey(prefix, key))));
  }

  /** A primitive is written as its string and typed by `getDataType`. */
  lemma FlattenPrimitive(acc: Val, key: string, value: Val, prefix: string, path: string, depth: nat, ids: IdSource)
    requires depth <= MAX_DEPTH && IsPrimitive(value)
    ensures var r := FlattenEntry(acc, key, value, prefix, path, depth, ids);
      var k := JoinKey(prefix, key);
      TextAt(r, k) == Str(ToStr(value)) &&
      Get(Get(Get(r, k), "metadata"), "property_type") == Str(GetDataType(value))
  {
    var k := JoinKey(prefix, key);
    assert FlattenEntry(acc, key, value, prefix, path, depth, ids) ==
      With(acc, k, PrimitiveEntry(value, JoinPath(path, key), ids(k)));
  }

  /** Past the depth limit nothing is written. */
  lemma FlattenTooDeep(obj: Val, prefix: string, path: string, depth: nat, ids: IdSource)
    requires depth > MAX_DEPTH
    ensures Flatten(obj, prefix, path, depth, ids) == EMPTY
  {
  }

  lemma {:induction false} SubEntriesKeep(es: seq<(string, Val)>, i: nat, newKey: string, newPath: string,
                                          acc: Val, ids: IdSource, k: string)
    requires i <= |es|
    requires forall j :: i <= j < |es| ==> newKey + "_" + es[j].0 != k
    ensures Get(SubEntriesFrom(es, i, newKey, newPath, acc, ids), k) == Get(acc, k)
    decreases |es| - i
  {
    if i < |es| {
      var finalKey := newKey + "_" + es[i].0;
      SubEntriesKeep(es, i + 1, newKey, newPath,
        With(acc, finalKey, SubEntry(es[i].1, newPath + "." + es[i].0, newKey, ids(finalKey))), ids, k);
    }
  }

  lemma {:induction false} SubEntriesWritten(es: seq<(string, Val)>, i: nat, newKey: string, newPath: string,
                                             acc: Val, ids: IdSource, j: nat)
    requires i <= j < |es|
    requires forall a, b :: i <= a < b < |es| ==> es[a].0 != es[b].0
    ensures var fk := newKey + "_" + es[j].0;
      Get(SubEntriesFrom(es, i, newKey, newPath, acc, ids), fk) == SubEntry(es[j].1, newPath + "." + es[j].0, newKey, ids(fk))
    decreases |es| - i
  {
    var finalKey := newKey + "_" + es[i].0;
    var next := With(acc, finalKey, SubEntry(es[i].1, newPath + "." + es[i].0, newKey, ids(finalKey)));
    assert SubEntriesFrom(es, i, newKey, newPath, acc, ids) == SubEntriesFrom(es, i + 1, newKey, newPath, next, ids);
    if j == i {
      forall b | i + 1 <= b < |es| ensures newKey + "_" + es[b].0 != finalKey {
        SuffixedDiffer(newKey + "_", es[i].0, es[b].0);
      }
      SubEntriesKeep(es, i + 1, newKey, newPath, next, ids, finalKey);
    } else {
      SubEntriesWritten(es, i + 1, newKey, newPath, next, ids, j);
    }
  }

  lemma SuffixedDiffer(p: string, a: string, b: string)
    requires a != b
    ensures p + a != p + b
  {
    assert (p + a)[|p|..] == a && (p + b)[|p|..] == b;
  }

  /** A non-empty object of primitives becomes one `key_subKey` entry per
      property, holding `String(subValue ?? '')`. */
  lemma SimpleObjectFlattened(acc: Val, key: string, value: Val, prefix: string, path: string, depth: nat,
                              ids: IdSource, sub: string)
    requires depth <= MAX_DEPTH && value.Obj? && WellFormed(value) && IsSimple(value) && value.keys != []
    requires sub in value.keys
    ensures var r := FlattenEntry(acc, key, value, prefix, path, depth, ids);
      var k := JoinKey(prefix, key) + "_" + sub;
      TextAt(r, k) == Str(TextOf(Get(value, sub))) &&
      Get(Get(Get(r, k), "metadata"), "property_type") == Str(GetDataType(Get(value, sub)))
  {
    var es := Entries(value);
    var j :| 0 <= j < |value.keys| && value.keys[j] == sub;
    assert es[j] == (sub, Get(value, sub));
    EntryNamesDistinct(value);
    FlattenSimpleObject(acc, key, value, prefix, path, depth, ids);
    SubEntriesWritten(es, 0, JoinKey(prefix, key), JoinPath(path, key), acc, ids, j);
    var k := JoinKey(prefix, key) + "_" + sub;
    SubEntryFields(Get(value, sub), JoinPath(path, key) + "." + sub, JoinKey(prefix, key), ids(k));
  }

  lemma SubEntryFields(sub: Val, path: string, parentKey: string, id: string)
    ensures Get(SubEntry(sub, path, parentKey, id), "value") == Str(TextOf(sub))
    ensures Get(Get(SubEntry(sub, path, parentKey, id), "metadata"), "property_type") == Str(GetDataType(sub))
  {
  }

  /** The simple-object branch of `flattenObject`. */
  lemma FlattenSimpleObject(acc: Val, key: string, value: Val, prefix: string, path: string, depth: nat,
                            ids: IdSource)
    requires depth <= MAX_DEPTH && value.Obj? && IsSimple(value) && value.keys != []
    ensures FlattenEntry(acc, key, value, prefix, path, depth, ids) ==
              SubEntriesFrom(Entries(value), 0, JoinKey(prefix, key), JoinPath(path, key), acc, ids)
  {
  }

  /** The entries of a well-formed object have distinct names. */
  lemma EntryNamesDistinct(v: Val)
    requires v.Obj? && WellFormed(v)
    ensures forall a, b :: 0 <= a < b < |Entries(v)| ==> Entries(v)[a].0 != Entries(v)[b].0
  {
    forall a, b | 0 <= a < b < |Entries(v)| ensures Entries(v)[a].0 != Entries(v)[b].0 {
      assert Entries(v)[a].0 == v.keys[a] && Entries(v)[b].0 == v.keys[b];
    }
  }

  // ---------------------------------------------------------------------
  // normalizeAnalysisResults

  /** `results[Object.keys(results)[0]]` when that first key is truthy. */
  function FirstMember(results: Val): Option<Val> {
    match results
    case Obj(ks, _) => if ks != [] && ks[0] != "" then Some(Get(results, ks[0])) else None
    case Arr(xs) => if xs != [] then Some(xs[0]) else None
    case _ => None
  }

  /** `v?.values !== undefined`; an array always has one (`Array.prototype.values`). */
  predicate HasValuesMember(v: Val) {
    (v.Obj? && !Get(v, "values").Undef?) || v.Arr?
  }

  /** The early return of `normalizeAnalysisResults`. */
  predicate AlreadyNormalized(results: Val) {
    FirstMember(results).Some? && HasValuesMember(FirstMember(results).value)
  }

  /** The normalised form of the flattened entry `value` under `key`. */
  function NormalizedEntry(key: string, value: Val, ids: IdSource): Val {
    var metadata := Get(value, "metadata");
    var values := Or(Get(value, "values"), Arr([ValueItem(Or(Get(value, "value"), Str("")), ids(key))]));
    Obj(["property", "label", "type", "metadata", "values"],
      map["property" := Str(key), "label" := Str(Label(key)),
          "type" := Or(Get(metadata, "property_type"), Str("text")),
          "metadata" := Or(metadata, EMPTY),
          "values" := if values.Arr? then values else Arr([ValueItem(Str(""), ids(key))])])
  }

  function NormalizeFrom(es: seq<(string, Val)>, i: nat, acc: Val, ids: IdSource): (r: Val)
    requires i <= |es|
    ensures acc.Obj? ==> r.Obj?
    decreases |es| - i
  {
    if i == |es| then acc
    else NormalizeFrom(es, i + 1, With(acc, es[i].0, NormalizedEntry(es[i].0, es[i].1, ids)), ids)
  }

  /** `normalizeAnalysisResults(results)`; `results.values` throws on `null`
      and `undefined`. */
  function Normalize(results: Val, ids: IdSource): (r: Val)
    requires !IsNullish(results)
    ensures r == results || r.Obj?
  {
    if AlreadyNormalized(results) then results
    else NormalizeFrom(Entries(Flatten(results, "", "", 0, ids)), 0, EMPTY, ids)
  }

  /** `normalizeAnalysisResults`: the early return, then a loop over the flattened entries. */
  method NormalizeAnalysisResults(results: Val, ids: IdSource) returns (normalized: Val)
    requires !IsNullish(results)
    ensures normalized == Normalize(results, ids)
  {
    if AlreadyNormalized(results) {
      return results;
    }
    var flattened := FlattenObject(results, "", "", 0, ids);
    var es := Entries(flattened);
    normalized := EMPTY;
    var i := 0;
    while i < |es|
      invariant i <= |es|
      invariant NormalizeFrom(es, i, normalized, ids) == Normalize(results, ids)
    {
      var key := es[i].0;
      normalized := With(normalized, key, NormalizedEntry(key, es[i].1, ids));
      i := i + 1;
    }
  }

  /** A normalised entry: its own key as `property`, the label built from it,
      a type, and a single value of confidence 1 without evidence. */
  predicate NormalEntry(k: string, e: Val) {
    var vs := Get(e, "values");
    Get(e, "property") == Str(k) && Get(e, "label") == Str(Label(k)) &&
    Get(e, "type").Str? && Get(e, "type").s in DATA_TYPES &&
    vs.Arr? && |vs.items| == 1 && UnitValue(vs.items[0])
  }

  lemma NormalizedFlatEntry(k: string, e: Val, ids: IdSource)
    requires FlatEntry(e)
    ensures NormalEntry(k, NormalizedEntry(k, e, ids))
    ensures Get(NormalizedEntry(k, e, ids), "values") == Get(e, "values")
  {
    var n := NormalizedEntry(k, e, ids);
    assert Truthy(Get(e, "values"));
    assert Truthy(Get(Get(e, "metadata"), "property_type"));
    assert Get(n, "values") == Get(e, "values");
  }

  /** One step of the normalising loop keeps every entry normalised. */
  lemma NormalizeStep(acc: Val, k: string, e: Val)
    requires acc.Obj? && WellFormed(acc) && k !in acc.keys && NormalEntry(k, e)
    requires forall k' :: Has(acc, k') ==> NormalEntry(k', Get(acc, k'))
    ensures var next := With(acc, k, e);
      next.Obj? && WellFormed(next) && next.keys == acc.keys + [k] &&
      forall k' :: Has(next, k') ==> NormalEntry(k', Get(next, k'))
  {
    WithWellFormed(acc, k, e);
  }

  /** One turn of the normalising loop over a shaped object. */
  lemma NormalizeFromStep(f: Val, i: nat, acc: Val, ids: IdSource)
    requires Shaped(f) && i < |f.keys|
    requires acc.Obj? && WellFormed(acc) && acc.keys == f.keys[..i]
    requires forall k :: Has(acc, k) ==> NormalEntry(k, Get(acc, k))
    ensures var k := f.keys[i];
      var next := With(acc, k, NormalizedEntry(k, Get(f, k), ids));
      next.Obj? && WellFormed(next) && next.keys == f.keys[..i + 1] &&
      forall k' :: Has(next, k') ==> NormalEntry(k', Get(next, k'))
  {
    var k := f.keys[i];
    var e := NormalizedEntry(k, Get(f, k), ids);
    assert Has(f, k);
    NormalizedFlatEntry(k, Get(f, k), ids);
    assert k !in acc.keys by {
      forall j | 0 <= j < i ensures acc.keys[j] != k {
        assert acc.keys[j] == f.keys[j];
      }
    }
    NormalizeStep(acc, k, e);
    assert f.keys[..i + 1] == f.keys[..i] + [k];
  }

  lemma {:induction false} NormalizeFromShape(f: Val, i: nat, acc: Val, ids: IdSource)
    requires Shaped(f) && i <= |f.keys|
    requires acc.Obj? && WellFormed(acc) && acc.keys == f.keys[..i]
    requires forall k :: Has(acc, k) ==> NormalEntry(k, Get(acc, k))
    ensures var n := NormalizeFrom(Entries(f), i, acc, ids);
      n.Obj? && WellFormed(n) && n.keys == f.keys && forall k :: Has(n, k) ==> NormalEntry(k, Get(n, k))
    decreases |f.keys| - i
  {
    if i == |f.keys| {
      assert f.keys[..i] == f.keys;
      assert |Entries(f)| == i;
    } else {
      var k := f.keys[i];
      var es := Entries(f);
      assert es[i] == (k, Get(f, k));
      var next := With(acc, k, NormalizedEntry(k, Get(f, k), ids));
      assert NormalizeFrom(es, i, acc, ids) == NormalizeFrom(es, i + 1, next, ids);
      NormalizeFromStep(f, i, acc, ids);
      NormalizeFromShape(f, i + 1, next, ids);
    }
  }

  /** When the early return does not apply, the result has one normalised
      entry per flattened key, in the flattened order. */
  lemma NormalizeShape(results: Val, ids: IdSource)
    requires !IsNullish(results) && !AlreadyNormalized(results)
    ensures var n := Normalize(results, ids);
      n.Obj? && WellFormed(n) && n.keys == KeysOf(Flatten(results, "", "", 0, ids)) &&
      forall k :: Has(n, k) ==> NormalEntry(k, Get(n, k))
  {
    var f := Flatten(results, "", "", 0, ids);
    FlattenShaped(results, "", "", 0, ids);
    assert EMPTY.keys == f.keys[..0];
    NormalizeFromShape(f, 0, EMPTY, ids);
  }

  /** A flattening with no keys normalises to `{}`. */
  lemma NormalizeNoKeys(results: Val, ids: IdSource)
    requires !IsNullish(results) && !AlreadyNormalized(results)
    requires KeysOf(Normalize(results, ids)) == []
    ensures Normalize(results, ids) == EMPTY
  {
    var f := Flatten(results, "", "", 0, ids);
    NormalizeShape(results, ids);
    FlattenShaped(results, "", "", 0, ids);
    assert |Entries(f)| == 0;
    assert Normalize(results, ids) == NormalizeFrom([], 0, EMPTY, ids);
  }

  /** A normalised analysis with a non-empty first key passes the early return. */
  lemma NormalizeRecognised(results: Val, ids: IdSource)
    requires !IsNullish(results) && !AlreadyNormalized(results)
    requires KeysOf(Normalize(results, ids)) != [] && KeysOf(Normalize(results, ids))[0] != ""
    ensures AlreadyNormalized(Normalize(results, ids))
  {
    NormalizeShape(results, ids);
    NormalEntriesRecognised(Normalize(results, ids));
  }

  lemma NormalEntriesRecognised(n: Val)
    requires n.Obj? && WellFormed(n) && n.keys != [] && n.keys[0] != ""
    requires forall k :: Has(n, k) ==> NormalEntry(k, Get(n, k))
    ensures AlreadyNormalized(n)
  {
    assert Has(n, n.keys[0]);
  }

  /** Normalising a normalised analysis changes nothing, as long as its first
      key is not the empty string (which the early return treats as falsy). */
  lemma NormalizeIdempotent(results: Val, ids: IdSource)
    requires !IsNullish(results)
    requires KeysOf(Normalize(results, ids)) == [] || KeysOf(Normalize(results, ids))[0] != ""
    ensures Normalize(Normalize(results, ids), ids) == Normalize(results, ids)
  {
    if !AlreadyNormalized(results) {
      if KeysOf(Normalize(results, ids)) == [] {
        NormalizeNoKeys(results, ids);
        NormalizeEmpty(ids);
      } else {
        NormalizeRecognised(results, ids);
        NormalizeNormalized(Normalize(results, ids), ids);
      }
    }
  }

  lemma NormalizeNormalized(n: Val, ids: IdSource)
    requires AlreadyNormalized(n)
    ensures Normalize(n, ids) == n
  {
  }

  lemma NormalizeEmpty(ids: IdSource)
    ensures Normalize(EMPTY, ids) == EMPTY
  {
    assert Entries(EMPTY) == [];
    assert Flatten(EMPTY, "", "", 0, ids) == EMPTY;
  }

  /** An analysis whose first key is `''` is not recognised as normalised:
      its normalised form goes through flattening again. */
  lemma EmptyKeyFlattened(ids: IdSource)
    ensures Flatten(Obj([""], map["" := Str("a")]), "", "", 0, ids) ==
      With(EMPTY, "", PrimitiveEntry(Str("a"), "", ids("")))
  {
    var x := Obj([""], map["" := Str("a")]);
    var e := PrimitiveEntry(Str("a"), "", ids(""));
    assert Entries(x) == [("", Str("a"))];
    assert FlattenEntry(EMPTY, "", Str("a"), "", "", 0, ids) == With(EMPTY, "", e);
    assert Flatten(x, "", "", 0, ids) == FlattenFrom(Entries(x), 0, "", "", 0, EMPTY, ids);
    assert FlattenFrom(Entries(x), 0, "", "", 0, EMPTY, ids) == FlattenFrom(Entries(x), 1, "", "", 0, With(EMPTY, "", e), ids);
  }

  lemma EmptyFirstKeyNotRecognised(ids: IdSource)
    ensures var n := Normalize(Obj([""], map["" := Str("a")]), ids);
      KeysOf(n) == [""] && !AlreadyNormalized(n)
  {
    var x := Obj([""], map["" := Str("a")]);
    var e := PrimitiveEntry(Str("a"), "", ids(""));
    var f := With(EMPTY, "", e);
    EmptyKeyFlattened(ids);
    assert Entries(f) == [("", e)];
    assert !AlreadyNormalized(x);
    var n := Normalize(x, ids);
    assert n == NormalizeFrom(Entries(f), 0, EMPTY, ids);
    assert n == NormalizeFrom(Entries(f), 1, With(EMPTY, "", NormalizedEntry("", e, ids)), ids);
  }

  // ---------------------------------------------------------------------
  // detectChanges

  /** One record of `detectChanges`, by its `type`. */
  datatype Change =
    | PropertyDeleted(propertyKey: string, deletedProperty: Val)
    | PropertyAdded(propertyKey: string, addedProperty: Val)
    | PropertyTypeChanged(propertyKey: string, oldType: Val, newType: Val)
    | ValueDeleted(propertyKey: string, valueId: string, deletedValue: Val)
    | ValueAdded(propertyKey: string, valueId: string, addedValue: Val)
    | TextUpdated(propertyKey: string, valueId: string, oldValue: Val, newValue: Val)
    | ValueTypeChanged(propertyKey: string, valueId: string, oldType: Val, newType: Val)

  /** The summary kept for a modified property (`old_values`, `new_values`,
      `old_type`, `new_type`). */
  datatype Modification = Modification(oldValues: Val, newValues: Val, oldType: Val, newType: Val)

  datatype Changes = Changes(
    textUpdates: seq<Change>,
    typeUpdates: seq<Change>,
    deletions: seq<Change>,
    additions: seq<Change>,
    propertyModifications: map<string, Modification>)

  const NO_CHANGES: Changes := Changes([], [], [], [], map[])

  /** `p.metadata?.property_type`. */
  function PropertyType(p: Val): Val {
    Get(Get(p, "metadata"), "property_type")
  }

  /** A property `detectChanges` can read: when truthy, its `values` is an
      array of objects (`forEach` and `val.id` throw otherwise). */
  predicate Comparable(p: Val) {
    Truthy(p) ==> Get(p, "values").Arr? && forall x :: x in Get(p, "values").items ==> !IsNullish(x)
  }

  /** An analysis `detectChanges` can read: an object of comparable properties. */
  ghost predicate ComparableAnalysis(a: Val) {
    a.Obj? && forall k :: Comparable(Get(a, k))
  }

  /** The map from value id to value: `if (val.id) map[val.id] = val`. */
  function ValuesByIdFrom(vals: seq<Val>, i: nat, acc: Val): Val
    requires i <= |vals|
    decreases |vals| - i
  {
    if i == |vals| then acc
    else
      var id := Get(vals[i], "id");
      ValuesByIdFrom(vals, i + 1, if Truthy(id) then With(acc, ToKey(id), vals[i]) else acc)
  }

  function ValuesById(p: Val): Val {
    ValuesByIdFrom(ItemsOf(Get(p, "values")), 0, EMPTY)
  }

  /** `value_deleted` for each old id the new map lacks. */
  function ValueDeletionsFrom(key: string, ids: seq<string>, i: nat, olds: Val, news: Val, c: Changes): Changes
    requires i <= |ids|
    decreases |ids| - i
  {
    if i == |ids| then c
    else
      var id := ids[i];
      ValueDeletionsFrom(key, ids, i + 1, olds, news,
        if !Truthy(Get(news, id)) then c.(deletions := c.deletions + [ValueDeleted(key, id, Get(olds, id))]) else c)
  }

  /** `value_added` for each new id the old map lacks. */
  function ValueAdditionsFrom(key: string, ids: seq<string>, i: nat, olds: Val, news: Val, c: Changes): Changes
    requires i <= |ids|
    decreases |ids| - i
  {
    if i == |ids| then c
    else
      var id := ids[i];
      ValueAdditionsFrom(key, ids, i + 1, olds, news,
        if !Truthy(Get(olds, id)) then c.(additions := c.additions + [ValueAdded(key, id, Get(news, id))]) else c)
  }

  /** What one id present in both maps adds: `text_updated` when the
      `value`s differ, `value_type_changed` when the `value_type`s do. */
  function ValueUpdate(key: string, id: string, o: Val, n: Val, c: Changes): Changes {
    var c1 := if Get(o, "value") != Get(n, "value")
      then c.(textUpdates := c.textUpdates + [TextUpdated(key, id, Get(o, "value"), Get(n, "value"))]) else c;
    if Get(o, "value_type") != Get(n, "value_type")
    then c1.(typeUpdates := c1.typeUpdates + [ValueTypeChanged(key, id, Get(o, "value_type"), Get(n, "value_type"))])
    else c1
  }

  function ValueUpdatesFrom(key: string, ids: seq<string>, i: nat, olds: Val, news: Val, c: Changes): Changes
    requires i <= |ids|
    decreases |ids| - i
  {
    if i == |ids| then c
    else
      var id := ids[i];
      ValueUpdatesFrom(key, ids, i + 1, olds, news,
        if Truthy(Get(olds, id)) then ValueUpdate(key, id, Get(olds, id), Get(news, id), c) else c)
  }

  /** `cs.some(u => u.property_key === key)`. */
  predicate MentionedIn(cs: seq<Change>, key: string) {
    cs != [] && (cs[0].propertyKey == key || MentionedIn(cs[1..], key))
  }

  /** `changes.X.some(u => u.property_key === key)` over the four lists. */
  predicate Mentioned(c: Changes, key: string) {
    MentionedIn(c.textUpdates, key) || MentionedIn(c.typeUpdates, key) ||
    MentionedIn(c.additions, key) || MentionedIn(c.deletions, key)
  }

  /** The three passes over the value maps: deletions, additions, updates. */
  function CompareValues(key: string, olds: Val, news: Val, c: Changes): Changes {
    var c2 := ValueDeletionsFrom(key, KeysOf(olds), 0, olds, news, c);
    var c3 := ValueAdditionsFrom(key, KeysOf(news), 0, olds, news, c2);
    ValueUpdatesFrom(key, KeysOf(news), 0, olds, news, c3)
  }

  /** The comparison of a property present in both analyses. */
  function ValueChanges(key: string, oldP: Val, newP: Val, c: Changes): Changes {
    var oldType := PropertyType(oldP);
    var newType := PropertyType(newP);
    var c1 := if oldType != newType then c.(typeUpdates := c.typeUpdates + [PropertyTypeChanged(key, oldType, newType)]) else c;
    var c4 := CompareValues(key, ValuesById(oldP), ValuesById(newP), c1);
    if Mentioned(c4, key)
    then c4.(propertyModifications := c4.propertyModifications[key :=
      Modification(Get(oldP, "values"), Get(newP, "values"), oldType, newType)])
    else c4
  }

  /** What the property `key` adds to the changes found so far. */
  function PropertyChanges(key: string, oldP: Val, newP: Val, c: Changes): Changes {
    if !Truthy(newP) then c.(deletions := c.deletions + [PropertyDeleted(key, oldP)])
    else if !Truthy(oldP) then c.(additions := c.additions + [PropertyAdded(key, newP)])
    else ValueChanges(key, oldP, newP, c)
  }

  function DetectFrom(keys: seq<string>, i: nat, a: Val, b: Val, c: Changes): Changes
    requires i <= |keys|
    decreases |keys| - i
  {
    if i == |keys| then c
    else DetectFrom(keys, i + 1, a, b, PropertyChanges(keys[i], Get(a, keys[i]), Get(b, keys[i]), c))
  }

  /** `detectChanges(oldAnalysis, newAnalysis)`, over the keys of `{...old, ...new}`. */
  function DetectChanges(a: Val, b: Val): Changes
    requires ComparableAnalysis(a) && ComparableAnalysis(b)
  {
    DetectFrom(KeysOf(Spread(a, b)), 0, a, b, NO_CHANGES)
  }

  /** The loop building a value map. */
  method BuildValuesById(p: Val) returns (m: Val)
    ensures m == ValuesById(p)
  {
    var vals := ItemsOf(Get(p, "values"));
    m := EMPTY;
    var i := 0;
    while i < |vals|
      invariant i <= |vals|
      invariant ValuesByIdFrom(vals, i, m) == ValuesById(p)
    {
      var id := Get(vals[i], "id");
      if Truthy(id) {
        m := With(m, ToKey(id), vals[i]);
      }
      i := i + 1;
    }
  }

  /** The loop over the old ids. */
  method AddValueDeletions(key: string, olds: Val, news: Val, c: Changes) returns (r: Changes)
    ensures r == ValueDeletionsFrom(key, KeysOf(olds), 0, olds, news, c)
  {
    var ids := KeysOf(olds);
    r := c;
    var i := 0;
    while i < |ids|
      invariant i <= |ids|
      invariant ValueDeletionsFrom(key, ids, i, olds, news, r) == ValueDeletionsFrom(key, ids, 0, olds, news, c)
    {
      if !Truthy(Get(news, ids[i])) {
        r := r.(deletions := r.deletions + [ValueDeleted(key, ids[i], Get(olds, ids[i]))]);
      }
      i := i + 1;
    }
  }

  /** The loop over the new ids looking for additions. */
  method AddValueAdditions(key: string, olds: Val, news: Val, c: Changes) returns (r: Changes)
    ensures r == ValueAdditionsFrom(key, KeysOf(news), 0, olds, news, c)
  {
    var ids := KeysOf(news);
    r := c;
    var i := 0;
    while i < |ids|
      invariant i <= |ids|
      invariant ValueAdditionsFrom(key, ids, i, olds, news, r) == ValueAdditionsFrom(key, ids, 0, olds, news, c)
    {
      if !Truthy(Get(olds, ids[i])) {
        r := r.(additions := r.additions + [ValueAdded(key, ids[i], Get(news, ids[i]))]);
      }
      i := i + 1;
    }
  }

  /** The loop over the new ids looking for updates. */
  method AddValueUpdates(key: string, olds: Val, news: Val, c: Changes) returns (r: Changes)
    ensures r == ValueUpdatesFrom(key, KeysOf(news), 0, olds, news, c)
  {
    var ids := KeysOf(news);
    r := c;
    var i := 0;
    while i < |ids|
      invariant i <= |ids|
      invariant ValueUpdatesFrom(key, ids, i, olds, news, r) == ValueUpdatesFrom(key, ids, 0, olds, news, c)
    {
      var id := ids[i];
      if Truthy(Get(olds, id)) {
        var o, n := Get(olds, id), Get(news, id);
        if Get(o, "value") != Get(n, "value") {
          r := r.(textUpdates := r.textUpdates + [TextUpdated(key, id, Get(o, "value"), Get(n, "value"))]);
        }
        if Get(o, "value_type") != Get(n, "value_type") {
          r := r.(typeUpdates := r.typeUpdates + [ValueTypeChanged(key, id, Get(o, "value_type"), Get(n, "value_type"))]);
        }
      }
      i := i + 1;
    }
  }

  /** The body of the `forEach` over the property keys. */
  method AddPropertyChanges(key: string, oldP: Val, newP: Val, c: Changes) returns (r: Changes)
    ensures r == PropertyChanges(key, oldP, newP, c)
  {
    if !Truthy(newP) {
      return c.(deletions := c.deletions + [PropertyDeleted(key, oldP)]);
    }
    if !Truthy(oldP) {
      return c.(additions := c.additions + [PropertyAdded(key, newP)]);
    }
    var oldType, newType := PropertyType(oldP), PropertyType(newP);
    r := c;
    if oldType != newType {
      r := r.(typeUpdates := r.typeUpdates + [PropertyTypeChanged(key, oldType, newType)]);
    }
    var olds := BuildValuesById(oldP);
    var news := BuildValuesById(newP);
    r := AddValueDeletions(key, olds, news, r);
    r := AddValueAdditions(key, olds, news, r);
    r := AddValueUpdates(key, olds, news, r);
    if Mentioned(r, key) {
      r := r.(propertyModifications := r.propertyModifications[key :=
        Modification(Get(oldP, "values"), Get(newP, "values"), oldType, newType)]);
    }
  }

  /** `detectChanges`: one pass over the keys of both analyses. */
  method DetectChangesLoop(a: Val, b: Val) returns (changes: Changes)
    requires ComparableAnalysis(a) && ComparableAnalysis(b)
    ensures changes == DetectChanges(a, b)
  {
    var keys := KeysOf(Spread(a, b));
    changes := NO_CHANGES;
    var i := 0;
    while i < |keys|
      invariant i <= |keys|
      invariant DetectFrom(keys, i, a, b, changes) == DetectChanges(a, b)
    {
      changes := AddPropertyChanges(keys[i], Get(a, keys[i]), Get(b, keys[i]), changes);
      i := i + 1;
    }
  }

  // detectChanges: properties

  /** The property keys of the `property_deleted` records, in order. */
  function DeletedKeys(cs: seq<Change>): seq<string> {
    if cs == [] then []
    else DeletedKeys(cs[..|cs| - 1]) + (if cs[|cs| - 1].PropertyDeleted? then [cs[|cs| - 1].propertyKey] else [])
  }

  /** The property keys of the `property_added` records, in order. */
  function AddedKeys(cs: seq<Change>): seq<string> {
    if cs == [] then []
    else AddedKeys(cs[..|cs| - 1]) + (if cs[|cs| - 1].PropertyAdded? then [cs[|cs| - 1].propertyKey] else [])
  }

  /** The keys, from `i` on, whose new property is falsy. */
  function GoneFrom(keys: seq<string>, i: nat, b: Val): seq<string>
    requires i <= |keys|
    decreases |keys| - i
  {
    if i == |keys| then []
    else (if !Truthy(Get(b, keys[i])) then [keys[i]] else []) + GoneFrom(keys, i + 1, b)
  }

  /** The keys, from `i` on, whose new property is truthy and old one falsy. */
  function NewFrom(keys: seq<string>, i: nat, a: Val, b: Val): seq<string>
    requires i <= |keys|
    decreases |keys| - i
  {
    if i == |keys| then []
    else (if Truthy(Get(b, keys[i])) && !Truthy(Get(a, keys[i])) then [keys[i]] else []) + NewFrom(keys, i + 1, a, b)
  }

  /** Every list of `r` starts with the corresponding list of `c`: records
      are only ever appended. */
  predicate Extends(c: Changes, r: Changes) {
    c.textUpdates <= r.textUpdates && c.typeUpdates <= r.typeUpdates &&
    c.deletions <= r.deletions && c.additions <= r.additions
  }

  lemma DeletedKeysAppend(cs: seq<Change>, x: Change)
    ensures DeletedKeys(cs + [x]) == DeletedKeys(cs) + (if x.PropertyDeleted? then [x.propertyKey] else [])
    ensures AddedKeys(cs + [x]) == AddedKeys(cs) + (if x.PropertyAdded? then [x.propertyKey] else [])
  {
    assert (cs + [x])[..|cs + [x]| - 1] == cs;
  }

  /** One id of the deletion pass, seen through what it keeps. */
  lemma DeletionStep(key: string, ids: seq<string>, i: nat, olds: Val, news: Val, c: Changes) returns (c': Changes)
    requires i < |ids|
    ensures ValueDeletionsFrom(key, ids, i, olds, news, c) == ValueDeletionsFrom(key, ids, i + 1, olds, news, c')
    ensures c'.additions == c.additions && c'.textUpdates == c.textUpdates && c'.typeUpdates == c.typeUpdates
    ensures c.deletions <= c'.deletions && DeletedKeys(c'.deletions) == DeletedKeys(c.deletions)
  {
    var id := ids[i];
    if !Truthy(Get(news, id)) {
      c' := c.(deletions := c.deletions + [ValueDeleted(key, id, Get(olds, id))]);
      DeletedKeysAppend(c.deletions, ValueDeleted(key, id, Get(olds, id)));
    } else {
      c' := c;
    }
  }

  /** One id of the addition pass, seen through what it keeps. */
  lemma AdditionStep(key: string, ids: seq<string>, i: nat, olds: Val, news: Val, c: Changes) returns (c': Changes)
    requires i < |ids|
    ensures ValueAdditionsFrom(key, ids, i, olds, news, c) == ValueAdditionsFrom(key, ids, i + 1, olds, news, c')
    ensures c'.deletions == c.deletions && c'.textUpdates == c.textUpdates && c'.typeUpdates == c.typeUpdates
    ensures c.additions <= c'.additions && AddedKeys(c'.additions) == AddedKeys(c.additions)
  {
    var id := ids[i];
    if !Truthy(Get(olds, id)) {
      c' := c.(additions := c.additions + [ValueAdded(key, id, Get(news, id))]);
      DeletedKeysAppend(c.additions, ValueAdded(key, id, Get(news, id)));
    } else {
      c' := c;
    }
  }

  lemma {:induction false} ValueDeletionsKeep(key: string, ids: seq<string>, i: nat, olds: Val, news: Val, c: Changes)
    requires i <= |ids|
    ensures var r := ValueDeletionsFrom(key, ids, i, olds, news, c);
      r.additions == c.additions && r.textUpdates == c.textUpdates && r.typeUpdates == c.typeUpdates &&
      c.deletions <= r.deletions && DeletedKeys(r.deletions) == DeletedKeys(c.deletions)
    decreases |ids| - i
  {
    if i < |ids| {
      var c' := DeletionStep(key, ids, i, olds, news, c);
      ValueDeletionsKeep(key, ids, i + 1, olds, news, c');
    }
  }

  lemma {:induction false} ValueAdditionsKeep(key: string, ids: seq<string>, i: nat, olds: Val, news: Val, c: Changes)
    requires i <= |ids|
    ensures var r := ValueAdditionsFrom(key, ids, i, olds, news, c);
      r.deletions == c.deletions && r.textUpdates == c.textUpdates && r.typeUpdates == c.typeUpdates &&
      c.additions <= r.additions && AddedKeys(r.additions) == AddedKeys(c.additions)
    decreases |ids| - i
  {
    if i < |ids| {
      var c' := AdditionStep(key, ids, i, olds, news, c);
      ValueAdditionsKeep(key, ids, i + 1, olds, news, c');
    }
  }

  lemma ValueUpdateKeep(key: string, id: string, o: Val, n: Val, c: Changes)
    ensures var r := ValueUpdate(key, id, o, n, c);
      r.deletions == c.deletions && r.additions == c.additions &&
      c.textUpdates <= r.textUpdates && c.typeUpdates <= r.typeUpdates
  {
  }

  lemma {:induction false} ValueUpdatesKeep(key: string, ids: seq<string>, i: nat, olds: Val, news: Val, c: Changes)
    requires i <= |ids|
    ensures var r := ValueUpdatesFrom(key, ids, i, olds, news, c);
      r.deletions == c.deletions && r.additions == c.additions &&
      c.textUpdates <= r.textUpdates && c.typeUpdates <= r.typeUpdates
    decreases |ids| - i
  {
    if i < |ids| {
      var id := ids[i];
      var c' := if Truthy(Get(olds, id)) then ValueUpdate(key, id, Get(olds, id), Get(news, id), c) else c;
      assert ValueUpdatesFrom(key, ids, i, olds, news, c) == ValueUpdatesFrom(key, ids, i + 1, olds, news, c');
      ValueUpdateKeep(key, id, Get(olds, id), Get(news, id), c);
      ValueUpdatesKeep(key, ids, i + 1, olds, news, c');
    }
  }

  lemma CompareValuesKeep(key: string, olds: Val, news: Val, c: Changes)
    ensures var r := CompareValues(key, olds, news, c);
      DeletedKeys(r.deletions) == DeletedKeys(c.deletions) && AddedKeys(r.additions) == AddedKeys(c.additions) &&
      Extends(c, r)
  {
    var c2 := ValueDeletionsFrom(key, KeysOf(olds), 0, olds, news, c);
    var c3 := ValueAdditionsFrom(key, KeysOf(news), 0, olds, news, c2);
    ValueDeletionsKeep(key, KeysOf(olds), 0, olds, news, c);
    ValueAdditionsKeep(key, KeysOf(news), 0, olds, news, c2);
    ValueUpdatesKeep(key, KeysOf(news), 0, olds, news, c3);
  }

  /** Comparing the values of a property present on both sides adds no
      property-level deletion or addition. */
  lemma ValueChangesKeep(key: string, oldP: Val, newP: Val, c: Changes)
    ensures var r := ValueChanges(key, oldP, newP, c);
      DeletedKeys(r.deletions) == DeletedKeys(c.deletions) && AddedKeys(r.additions) == AddedKeys(c.additions) &&
      Extends(c, r)
  {
    var oldType, newType := PropertyType(oldP), PropertyType(newP);
    var c1 := if oldType != newType then c.(typeUpdates := c.typeUpdates + [PropertyTypeChanged(key, oldType, newType)]) else c;
    CompareValuesKeep(key, ValuesById(oldP), ValuesById(newP), c1);
  }

  lemma PropertyChangesKeys(key: string, oldP: Val, newP: Val, c: Changes)
    ensures var r := PropertyChanges(key, oldP, newP, c);
      DeletedKeys(r.deletions) == DeletedKeys(c.deletions) + (if !Truthy(newP) then [key] else []) &&
      AddedKeys(r.additions) == AddedKeys(c.additions) + (if Truthy(newP) && !Truthy(oldP) then [key] else []) &&
      Extends(c, r)
  {
    if !Truthy(newP) {
      DeletedKeysAppend(c.deletions, PropertyDeleted(key, oldP));
    } else if !Truthy(oldP) {
      DeletedKeysAppend(c.additions, PropertyAdded(key, newP));
    } else {
      ValueChangesKeep(key, oldP, newP, c);
    }
  }

  /** One step of the pass over the keys, seen only through the keys it
      deletes and adds. */
  lemma DetectFromStep(keys: seq<string>, i: nat, a: Val, b: Val, c: Changes) returns (c': Changes)
    requires i < |keys|
    ensures DetectFrom(keys, i, a, b, c) == DetectFrom(keys, i + 1, a, b, c')
    ensures DeletedKeys(c'.deletions) == DeletedKeys(c.deletions) + (if !Truthy(Get(b, keys[i])) then [keys[i]] else [])
    ensures AddedKeys(c'.additions) == AddedKeys(c.additions) +
      (if Truthy(Get(b, keys[i])) && !Truthy(Get(a, keys[i])) then [keys[i]] else [])
    ensures Extends(c, c')
  {
    c' := PropertyChanges(keys[i], Get(a, keys[i]), Get(b, keys[i]), c);
    PropertyChangesKeys(keys[i], Get(a, keys[i]), Get(b, keys[i]), c);
  }

  lemma {:induction false} DetectFromDeleted(keys: seq<string>, i: nat, a: Val, b: Val, c: Changes)
    requires i <= |keys|
    ensures DeletedKeys(DetectFrom(keys, i, a, b, c).deletions) == DeletedKeys(c.deletions) + GoneFrom(keys, i, b)
    decreases |keys| - i
  {
    if i < |keys| {
      var c' := DetectFromStep(keys, i, a, b, c);
      DetectFromDeleted(keys, i + 1, a, b, c');
    }
  }

  lemma {:induction false} DetectFromAdded(keys: seq<string>, i: nat, a: Val, b: Val, c: Changes)
    requires i <= |keys|
    ensures AddedKeys(DetectFrom(keys, i, a, b, c).additions) == AddedKeys(c.additions) + NewFrom(keys, i, a, b)
    decreases |keys| - i
  {
    if i < |keys| {
      var c' := DetectFromStep(keys, i, a, b, c);
      DetectFromAdded(keys, i + 1, a, b, c');
    }
  }

  /** The `property_deleted` records name, in key order, exactly the keys of
      `{...old, ...new}` whose new property is falsy (in particular every key
      only in the old analysis); the `property_added` records name exactly
      those whose new property is truthy and old one falsy (in particular
      every truthy key only in the new analysis). */
  lemma DetectedProperties(a: Val, b: Val)
    requires ComparableAnalysis(a) && ComparableAnalysis(b)
    ensures var keys := KeysOf(Spread(a, b));
      DeletedKeys(DetectChanges(a, b).deletions) == GoneFrom(keys, 0, b) &&
      AddedKeys(DetectChanges(a, b).additions) == NewFrom(keys, 0, a, b)
  {
    DetectFromDeleted(KeysOf(Spread(a, b)), 0, a, b, NO_CHANGES);
    DetectFromAdded(KeysOf(Spread(a, b)), 0, a, b, NO_CHANGES);
  }

  // detectChanges: property type changes

  /** The property keys of the `property_type_changed` records, in order. */
  function RetypedKeys(cs: seq<Change>): seq<string> {
    if cs == [] then []
    else RetypedKeys(cs[..|cs| - 1]) + (if cs[|cs| - 1].PropertyTypeChanged? then [cs[|cs| - 1].propertyKey] else [])
  }

  /** A property truthy on both sides whose `metadata.property_type` differs. */
  predicate Retyped(a: Val, b: Val, k: string) {
    Truthy(Get(a, k)) && Truthy(Get(b, k)) && PropertyType(Get(a, k)) != PropertyType(Get(b, k))
  }

  /** The keys, from `i` on, whose property is retyped. */
  function RetypedFrom(keys: seq<string>, i: nat, a: Val, b: Val): seq<string>
    requires i <= |keys|
    decreases |keys| - i
  {
    if i == |keys| then []
    else (if Retyped(a, b, keys[i]) then [keys[i]] else []) + RetypedFrom(keys, i + 1, a, b)
  }

  lemma RetypedKeysAppend(cs: seq<Change>, x: Change)
    ensures RetypedKeys(cs + [x]) == RetypedKeys(cs) + (if x.PropertyTypeChanged? then [x.propertyKey] else [])
  {
    assert (cs + [x])[..|cs + [x]| - 1] == cs;
  }

  /** The update pass records only value-level type changes. */
  lemma {:induction false} ValueUpdatesRetyped(key: string, ids: seq<string>, i: nat, olds: Val, news: Val, c: Changes)
    requires i <= |ids|
    ensures RetypedKeys(ValueUpdatesFrom(key, ids, i, olds, news, c).typeUpdates) == RetypedKeys(c.typeUpdates)
    decreases |ids| - i
  {
    if i < |ids| {
      var id := ids[i];
      var o, n := Get(olds, id), Get(news, id);
      var c' := if Truthy(o) then ValueUpdate(key, id, o, n, c) else c;
      assert ValueUpdatesFrom(key, ids, i, olds, news, c) == ValueUpdatesFrom(key, ids, i + 1, olds, news, c');
      if Truthy(o) && Get(o, "value_type") != Get(n, "value_type") {
        RetypedKeysAppend(c.typeUpdates, ValueTypeChanged(key, id, Get(o, "value_type"), Get(n, "value_type")));
      }
      ValueUpdatesRetyped(key, ids, i + 1, olds, news, c');
    }
  }

  /** Comparing a property present on both sides records `property_type_changed`
      for its key exactly when the two property types differ. */
  lemma ValueChangesRetyped(key: string, oldP: Val, newP: Val, c: Changes)
    ensures RetypedKeys(ValueChanges(key, oldP, newP, c).typeUpdates) ==
      RetypedKeys(c.typeUpdates) + (if PropertyType(oldP) != PropertyType(newP) then [key] else [])
  {
    var oldType, newType := PropertyType(oldP), PropertyType(newP);
    var c1 := if oldType != newType then c.(typeUpdates := c.typeUpdates + [PropertyTypeChanged(key, oldType, newType)]) else c;
    if oldType != newType {
      RetypedKeysAppend(c.typeUpdates, PropertyTypeChanged(key, oldType, newType));
    }
    var olds, news := ValuesById(oldP), ValuesById(newP);
    var c2 := ValueDeletionsFrom(key, KeysOf(olds), 0, olds, news, c1);
    var c3 := ValueAdditionsFrom(key, KeysOf(news), 0, olds, news, c2);
    ValueDeletionsKeep(key, KeysOf(olds), 0, olds, news, c1);
    ValueAdditionsKeep(key, KeysOf(news), 0, olds, news, c2);
    ValueUpdatesRetyped(key, KeysOf(news), 0, olds, news, c3);
  }

  /** One step of the pass over the keys, seen only through its type records. */
  lemma RetypedStep(keys: seq<string>, i: nat, a: Val, b: Val, c: Changes) returns (c': Changes)
    requires i < |keys|
    ensures DetectFrom(keys, i, a, b, c) == DetectFrom(keys, i + 1, a, b, c')
    ensures RetypedKeys(c'.typeUpdates) == RetypedKeys(c.typeUpdates) + (if Retyped(a, b, keys[i]) then [keys[i]] else [])
  {
    c' := PropertyChanges(keys[i], Get(a, keys[i]), Get(b, keys[i]), c);
    if Truthy(Get(a, keys[i])) && Truthy(Get(b, keys[i])) {
      ValueChangesRetyped(keys[i], Get(a, keys[i]), Get(b, keys[i]), c);
    }
  }

  lemma {:induction false} DetectFromRetyped(keys: seq<string>, i: nat, a: Val, b: Val, c: Changes)
    requires i <= |keys|
    ensures RetypedKeys(DetectFrom(keys, i, a, b, c).typeUpdates) == RetypedKeys(c.typeUpdates) + RetypedFrom(keys, i, a, b)
    decreases |keys| - i
  {
    if i < |keys| {
      var c' := RetypedStep(keys, i, a, b, c);
      DetectFromRetyped(keys, i + 1, a, b, c');
    }
  }

  /** The `property_type_changed` records name, in key order, exactly the keys
      of `{...old, ...new}` whose property is truthy on both sides with a
      different `metadata.property_type`. */
  lemma DetectedTypeChanges(a: Val, b: Val)
    requires ComparableAnalysis(a) && ComparableAnalysis(b)
    ensures RetypedKeys(DetectChanges(a, b).typeUpdates) == RetypedFrom(KeysOf(Spread(a, b)), 0, a, b)
  {
    DetectFromRetyped(KeysOf(Spread(a, b)), 0, a, b, NO_CHANGES);
  }

  lemma {:induction false} RetypedFromMember(keys: seq<string>, i: nat, a: Val, b: Val, k: string)
    requires i <= |keys|
    ensures k in RetypedFrom(keys, i, a, b) <==> k in keys[i..] && Retyped(a, b, k)
    decreases |keys| - i
  {
    if i < |keys| {
      RetypedFromMember(keys, i + 1, a, b, k);
      assert keys[i..] == [keys[i]] + keys[i + 1..];
    }
  }

  /** A key of both analyses is named by a `property_type_changed` record
      exactly when its property is retyped. */
  lemma TypeChangeReported(a: Val, b: Val, k: string)
    requires ComparableAnalysis(a) && ComparableAnalysis(b)
    requires k in KeysOf(Spread(a, b))
    ensures k in RetypedKeys(DetectChanges(a, b).typeUpdates) <==> Retyped(a, b, k)
  {
    DetectedTypeChanges(a, b);
    RetypedFromMember(KeysOf(Spread(a, b)), 0, a, b, k);
  }

  // detectChanges: comparing an analysis with itself

  /** A value map as `detectChanges` builds it: every entry is an object
      (only an object has a truthy `id`). */
  ghost predicate ObjectValued(m: Val) {
    m.Obj? && WellFormed(m) && forall id :: Has(m, id) ==> Get(m, id).Obj?
  }

  lemma {:induction false} ValuesByIdFromObjects(vals: seq<Val>, i: nat, acc: Val)
    requires i <= |vals| && ObjectValued(acc)
    ensures ObjectValued(ValuesByIdFrom(vals, i, acc))
    decreases |vals| - i
  {
    if i < |vals| {
      var id := Get(vals[i], "id");
      var acc' := if Truthy(id) then With(acc, ToKey(id), vals[i]) else acc;
      assert ValuesByIdFrom(vals, i, acc) == ValuesByIdFrom(vals, i + 1, acc');
      if Truthy(id) {
        WithWellFormed(acc, ToKey(id), vals[i]);
      }
      ValuesByIdFromObjects(vals, i + 1, acc');
    }
  }

  lemma ValuesByIdObjects(p: Val)
    ensures ObjectValued(ValuesById(p))
  {
    ValuesByIdFromObjects(ItemsOf(Get(p, "values")), 0, EMPTY);
  }

  lemma {:induction false} SameDeletionsFrom(key: string, ids: seq<string>, i: nat, m: Val, c: Changes)
    requires i <= |ids| && forall j :: i <= j < |ids| ==> Truthy(Get(m, ids[j]))
    ensures ValueDeletionsFrom(key, ids, i, m, m, c) == c
    decreases |ids| - i
  {
    if i < |ids| {
      assert ValueDeletionsFrom(key, ids, i, m, m, c) == ValueDeletionsFrom(key, ids, i + 1, m, m, c);
      SameDeletionsFrom(key, ids, i + 1, m, c);
    }
  }

  lemma {:induction false} SameAdditionsFrom(key: string, ids: seq<string>, i: nat, m: Val, c: Changes)
    requires i <= |ids| && forall j :: i <= j < |ids| ==> Truthy(Get(m, ids[j]))
    ensures ValueAdditionsFrom(key, ids, i, m, m, c) == c
    decreases |ids| - i
  {
    if i < |ids| {
      assert ValueAdditionsFrom(key, ids, i, m, m, c) == ValueAdditionsFrom(key, ids, i + 1, m, m, c);
      SameAdditionsFrom(key, ids, i + 1, m, c);
    }
  }

  lemma {:induction false} SameUpdatesFrom(key: string, ids: seq<string>, i: nat, m: Val, c: Changes)
    requires i <= |ids|
    ensures ValueUpdatesFrom(key, ids, i, m, m, c) == c
    decreases |ids| - i
  {
    if i < |ids| {
      var id := ids[i];
      assert ValueUpdate(key, id, Get(m, id), Get(m, id), c) == c;
      assert ValueUpdatesFrom(key, ids, i, m, m, c) == ValueUpdatesFrom(key, ids, i + 1, m, m, c);
      SameUpdatesFrom(key, ids, i + 1, m, c);
    }
  }

  /** A property compared with itself yields no record at all. */
  lemma SamePropertyUnchanged(key: string, p: Val)
    requires Truthy(p)
    ensures PropertyChanges(key, p, p, NO_CHANGES) == NO_CHANGES
  {
    var m := ValuesById(p);
    ValuesByIdObjects(p);
    forall j | 0 <= j < |KeysOf(m)|
      ensures Truthy(Get(m, KeysOf(m)[j]))
    {
      assert Has(m, KeysOf(m)[j]);
    }
    SameDeletionsFrom(key, KeysOf(m), 0, m, NO_CHANGES);
    SameAdditionsFrom(key, KeysOf(m), 0, m, NO_CHANGES);
    SameUpdatesFrom(key, KeysOf(m), 0, m, NO_CHANGES);
    assert CompareValues(key, m, m, NO_CHANGES) == NO_CHANGES;
  }

  lemma {:induction false} SameFrom(keys: seq<string>, i: nat, a: Val)
    requires i <= |keys| && forall j :: i <= j < |keys| ==> Truthy(Get(a, keys[j]))
    ensures DetectFrom(keys, i, a, a, NO_CHANGES) == NO_CHANGES
    decreases |keys| - i
  {
    if i < |keys| {
      SamePropertyUnchanged(keys[i], Get(a, keys[i]));
      assert DetectFrom(keys, i, a, a, NO_CHANGES) == DetectFrom(keys, i + 1, a, a, NO_CHANGES);
      SameFrom(keys, i + 1, a);
    }
  }

  /** `detectChanges(a, a)` reports nothing (no updates, deletions, additions
      or modified properties) when every property of `a` is truthy. */
  lemma DetectSelfEmpty(a: Val)
    requires ComparableAnalysis(a) && WellFormed(a)
    requires forall k :: Has(a, k) ==> Truthy(Get(a, k))
    ensures DetectChanges(a, a) == NO_CHANGES
  {
    var keys := KeysOf(Spread(a, a));
    SpreadWellFormed(a, a);
    forall j | 0 <= j < |keys|
      ensures Truthy(Get(a, keys[j]))
    {
      assert Has(Spread(a, a), keys[j]);
    }
    SameFrom(keys, 0, a);
  }

  /** A falsy property is reported as `property_deleted` even when an
      analysis is compared with itself. */
  lemma DetectSelfFalsyProperty()
    ensures var a := Obj(["x"], map["x" := Null]);
      ComparableAnalysis(a) && DetectChanges(a, a).deletions == [PropertyDeleted("x", Null)]
  {
    var a := Obj(["x"], map["x" := Null]);
    assert KeysOf(Spread(a, a)) == ["x"];
    assert DetectFrom(["x"], 1, a, a, NO_CHANGES.(deletions := [PropertyDeleted("x", Null)])).deletions == [PropertyDeleted("x", Null)];
  }

  // detectChanges: values compared by id

  lemma {:induction false} DeletionsFromIff(key: string, ids: seq<string>, i: nat, olds: Val, news: Val, c: Changes, id: string, x: Val)
    requires i <= |ids|
    ensures ValueDeleted(key, id, x) in ValueDeletionsFrom(key, ids, i, olds, news, c).deletions <==>
      ValueDeleted(key, id, x) in c.deletions || (id in ids[i..] && !Truthy(Get(news, id)) && x == Get(olds, id))
    decreases |ids| - i
  {
    if i < |ids| {
      var c' := if !Truthy(Get(news, ids[i])) then c.(deletions := c.deletions + [ValueDeleted(key, ids[i], Get(olds, ids[i]))]) else c;
      assert ValueDeletionsFrom(key, ids, i, olds, news, c) == ValueDeletionsFrom(key, ids, i + 1, olds, news, c');
      assert ids[i..] == [ids[i]] + ids[i + 1..];
      DeletionsFromIff(key, ids, i + 1, olds, news, c', id, x);
    }
  }

  lemma {:induction false} AdditionsFromIff(key: string, ids: seq<string>, i: nat, olds: Val, news: Val, c: Changes, id: string, x: Val)
    requires i <= |ids|
    ensures ValueAdded(key, id, x) in ValueAdditionsFrom(key, ids, i, olds, news, c).additions <==>
      ValueAdded(key, id, x) in c.additions || (id in ids[i..] && !Truthy(Get(olds, id)) && x == Get(news, id))
    decreases |ids| - i
  {
    if i < |ids| {
      var c' := if !Truthy(Get(olds, ids[i])) then c.(additions := c.additions + [ValueAdded(key, ids[i], Get(news, ids[i]))]) else c;
      assert ValueAdditionsFrom(key, ids, i, olds, news, c) == ValueAdditionsFrom(key, ids, i + 1, olds, news, c');
      assert ids[i..] == [ids[i]] + ids[i + 1..];
      AdditionsFromIff(key, ids, i + 1, olds, news, c', id, x);
    }
  }

  /** Whether one id present on both sides records a text update `o -> n`. */
  predicate TextChanged(olds: Val, news: Val, id: string, o: Val, n: Val) {
    Truthy(Get(olds, id)) && Get(Get(olds, id), "value") != Get(Get(news, id), "value") &&
    o == Get(Get(olds, id), "value") && n == Get(Get(news, id), "value")
  }

  lemma ValueUpdateText(key: string, id: string, o: Val, n: Val, c: Changes, id': string, x: Val, y: Val)
    ensures TextUpdated(key, id', x, y) in ValueUpdate(key, id, o, n, c).textUpdates <==>
      TextUpdated(key, id', x, y) in c.textUpdates ||
      (id' == id && Get(o, "value") != Get(n, "value") && x == Get(o, "value") && y == Get(n, "value"))
  {
  }

  lemma {:induction false} UpdatesFromIff(key: string, ids: seq<string>, i: nat, olds: Val, news: Val, c: Changes, id: string, o: Val, n: Val)
    requires i <= |ids|
    ensures TextUpdated(key, id, o, n) in ValueUpdatesFrom(key, ids, i, olds, news, c).textUpdates <==>
      TextUpdated(key, id, o, n) in c.textUpdates || (id in ids[i..] && TextChanged(olds, news, id, o, n))
    decreases |ids| - i
  {
    if i < |ids| {
      var c' := if Truthy(Get(olds, ids[i])) then ValueUpdate(key, ids[i], Get(olds, ids[i]), Get(news, ids[i]), c) else c;
      assert ValueUpdatesFrom(key, ids, i, olds, news, c) == ValueUpdatesFrom(key, ids, i + 1, olds, news, c');
      assert ids[i..] == [ids[i]] + ids[i + 1..];
      ValueUpdateText(key, ids[i], Get(olds, ids[i]), Get(news, ids[i]), c, id, o, n);
      UpdatesFromIff(key, ids, i + 1, olds, news, c', id, o, n);
    }
  }

  /** Comparing a property present on both sides by value id: an id only in
      the old map is `value_deleted`, and nothing else produces that record. */
  lemma CompareDeletedIff(key: string, olds: Val, news: Val, c: Changes, id: string, x: Val)
    requires ObjectValued(olds) && ObjectValued(news)
    ensures ValueDeleted(key, id, x) in CompareValues(key, olds, news, c).deletions <==>
      ValueDeleted(key, id, x) in c.deletions || (Has(olds, id) && !Has(news, id) && x == Get(olds, id))
  {
    var c2 := ValueDeletionsFrom(key, KeysOf(olds), 0, olds, news, c);
    var c3 := ValueAdditionsFrom(key, KeysOf(news), 0, olds, news, c2);
    ValueAdditionsKeep(key, KeysOf(news), 0, olds, news, c2);
    ValueUpdatesKeep(key, KeysOf(news), 0, olds, news, c3);
    DeletionsFromIff(key, KeysOf(olds), 0, olds, news, c, id, x);
    assert KeysOf(olds)[0..] == KeysOf(olds);
    assert Has(olds, id) <==> id in KeysOf(olds);
    assert Has(news, id) <==> Truthy(Get(news, id));
  }

  /** An id only in the new map is `value_added`, and nothing else produces
      that record. */
  lemma CompareAddedIff(key: string, olds: Val, news: Val, c: Changes, id: string, x: Val)
    requires ObjectValued(olds) && ObjectValued(news)
    ensures ValueAdded(key, id, x) in CompareValues(key, olds, news, c).additions <==>
      ValueAdded(key, id, x) in c.additions || (Has(news, id) && !Has(olds, id) && x == Get(news, id))
  {
    var c2 := ValueDeletionsFrom(key, KeysOf(olds), 0, olds, news, c);
    var c3 := ValueAdditionsFrom(key, KeysOf(news), 0, olds, news, c2);
    ValueDeletionsKeep(key, KeysOf(olds), 0, olds, news, c);
    ValueUpdatesKeep(key, KeysOf(news), 0, olds, news, c3);
    AdditionsFromIff(key, KeysOf(news), 0, olds, news, c2, id, x);
    assert KeysOf(news)[0..] == KeysOf(news);
    assert Has(olds, id) <==> Truthy(Get(olds, id));
  }

  /** An id in both maps whose `value` differs is `text_updated`, and nothing
      else produces that record. */
  lemma CompareTextIff(key: string, olds: Val, news: Val, c: Changes, id: string, x: Val, y: Val)
    requires ObjectValued(olds) && ObjectValued(news)
    ensures TextUpdated(key, id, x, y) in CompareValues(key, olds, news, c).textUpdates <==>
      TextUpdated(key, id, x, y) in c.textUpdates ||
      (Has(olds, id) && Has(news, id) && x == Get(Get(olds, id), "value") && y == Get(Get(news, id), "value") && x != y)
  {
    var c2 := ValueDeletionsFrom(key, KeysOf(olds), 0, olds, news, c);
    var c3 := ValueAdditionsFrom(key, KeysOf(news), 0, olds, news, c2);
    ValueDeletionsKeep(key, KeysOf(olds), 0, olds, news, c);
    ValueAdditionsKeep(key, KeysOf(news), 0, olds, news, c2);
    UpdatesFromIff(key, KeysOf(news), 0, olds, news, c3, id, x, y);
    assert KeysOf(news)[0..] == KeysOf(news);
    assert Has(olds, id) <==> Truthy(Get(olds, id));
    assert Has(news, id) <==> id in KeysOf(news);
  }

  lemma {:induction false} DetectFromGrows(keys: seq<string>, i: nat, a: Val, b: Val, c: Changes)
    requires i <= |keys|
    ensures Extends(c, DetectFrom(keys, i, a, b, c))
    decreases |keys| - i
  {
    if i < |keys| {
      var c' := DetectFromStep(keys, i, a, b, c);
      DetectFromGrows(keys, i + 1, a, b, c');
    }
  }

  /** The changes found before the key at `i` is visited. */
  lemma {:induction false} DetectFromPrefix(keys: seq<string>, i: nat, a: Val, b: Val) returns (ci: Changes)
    requires i <= |keys|
    ensures DetectFrom(keys, 0, a, b, NO_CHANGES) == DetectFrom(keys, i, a, b, ci)
  {
    if i == 0 {
      ci := NO_CHANGES;
    } else {
      var prev := DetectFromPrefix(keys, i - 1, a, b);
      ci := DetectFromStep(keys, i - 1, a, b, prev);
    }
  }

  /** The lists of a property comparison are those of its value comparison. */
  lemma ValueChangesLists(key: string, oldP: Val, newP: Val, c: Changes) returns (c1: Changes)
    ensures c1.deletions == c.deletions && c1.additions == c.additions && c1.textUpdates == c.textUpdates
    ensures var r := ValueChanges(key, oldP, newP, c);
      var c4 := CompareValues(key, ValuesById(oldP), ValuesById(newP), c1);
      r.deletions == c4.deletions && r.additions == c4.additions && r.textUpdates == c4.textUpdates
  {
    var oldType, newType := PropertyType(oldP), PropertyType(newP);
    c1 := if oldType != newType then c.(typeUpdates := c.typeUpdates + [PropertyTypeChanged(key, oldType, newType)]) else c;
  }

  lemma DetectFromAt(keys: seq<string>, i: nat, a: Val, b: Val, c: Changes)
    requires i < |keys|
    ensures DetectFrom(keys, i, a, b, c) == DetectFrom(keys, i + 1, a, b, PropertyChanges(keys[i], Get(a, keys[i]), Get(b, keys[i]), c))
  {
  }

  /** The value comparison made for a key present on both sides, as a
      prefix of the final lists. */
  lemma DetectedVia(a: Val, b: Val, k: string) returns (c1: Changes)
    requires ComparableAnalysis(a) && ComparableAnalysis(b)
    requires k in KeysOf(Spread(a, b)) && Truthy(Get(a, k)) && Truthy(Get(b, k))
    ensures var r := DetectChanges(a, b);
      var c4 := CompareValues(k, ValuesById(Get(a, k)), ValuesById(Get(b, k)), c1);
      c4.deletions <= r.deletions && c4.additions <= r.additions && c4.textUpdates <= r.textUpdates
  {
    var keys := KeysOf(Spread(a, b));
    var i :| 0 <= i < |keys| && keys[i] == k;
    var ci := DetectFromPrefix(keys, i, a, b);
    var step := PropertyChanges(k, Get(a, k), Get(b, k), ci);
    DetectFromAt(keys, i, a, b, ci);
    DetectFromGrows(keys, i + 1, a, b, step);
    c1 := ValueChangesLists(k, Get(a, k), Get(b, k), ci);
  }

  /** For a key whose property is truthy on both sides, the records of
      `detectChanges` include `value_deleted` for every value id only in the
      old property, `value_added` for every id only in the new one, and
      `text_updated` for every id in both whose `value` differs. */
  lemma DetectedValues(a: Val, b: Val, k: string, id: string)
    requires ComparableAnalysis(a) && ComparableAnalysis(b)
    requires k in KeysOf(Spread(a, b)) && Truthy(Get(a, k)) && Truthy(Get(b, k))
    ensures var r := DetectChanges(a, b);
      var olds := ValuesById(Get(a, k));
      var news := ValuesById(Get(b, k));
      (Has(olds, id) && !Has(news, id) ==> ValueDeleted(k, id, Get(olds, id)) in r.deletions) &&
      (Has(news, id) && !Has(olds, id) ==> ValueAdded(k, id, Get(news, id)) in r.additions) &&
      (Has(olds, id) && Has(news, id) && Get(Get(olds, id), "value") != Get(Get(news, id), "value") ==>
        TextUpdated(k, id, Get(Get(olds, id), "value"), Get(Get(news, id), "value")) in r.textUpdates)
  {
    var olds, news := ValuesById(Get(a, k)), ValuesById(Get(b, k));
    ValuesByIdObjects(Get(a, k));
    ValuesByIdObjects(Get(b, k));
    var c1 := DetectedVia(a, b, k);
    var y := Get(Get(news, id), "value");
    CompareDeletedIff(k, olds, news, c1, id, Get(olds, id));
    CompareAddedIff(k, olds, news, c1, id, Get(news, id));
    CompareTextIff(k, olds, news, c1, id, Get(Get(olds, id), "value"), y);
  }

  // ---------------------------------------------------------------------
  // findModifiedProperties

  /** `analysis[key]?.values || []`. */
  function ValuesOr(analysis: Val, key: string): Val {
    Or(Get(Get(analysis, key), "values"), Arr([]))
  }

  /** The summary recorded for a key whose values differ. */
  function ModifiedEntry(a: Val, b: Val, key: string): Modification {
    Modification(ValuesOr(a, key), ValuesOr(b, key), PropertyType(Get(a, key)), PropertyType(Get(b, key)))
  }

  /** The `JSON.stringify` comparison of the two `values`. */
  predicate ValuesDiffer(a: Val, b: Val, key: string) {
    Serialize(ValuesOr(a, key)) != Serialize(ValuesOr(b, key))
  }

  function ModifiedFrom(keys: seq<string>, i: nat, a: Val, b: Val, m: map<string, Modification>): map<string, Modification>
    requires i <= |keys|
    decreases |keys| - i
  {
    if i == |keys| then m
    else
      var k := keys[i];
      ModifiedFrom(keys, i + 1, a, b, if ValuesDiffer(a, b, k) then m[k := ModifiedEntry(a, b, k)] else m)
  }

  /** `findModifiedProperties(oldAnalysis, newAnalysis)`. */
  function FindModifiedProperties(a: Val, b: Val): map<string, Modification>
    requires a.Obj? && b.Obj?
  {
    ModifiedFrom(KeysOf(Spread(a, b)), 0, a, b, map[])
  }

  method FindModified(a: Val, b: Val) returns (modifications: map<string, Modification>)
    requires a.Obj? && b.Obj?
    ensures modifications == FindModifiedProperties(a, b)
  {
    var keys := KeysOf(Spread(a, b));
    modifications := map[];
    var i := 0;
    while i < |keys|
      invariant i <= |keys|
      invariant ModifiedFrom(keys, i, a, b, modifications) == FindModifiedProperties(a, b)
    {
      var k := keys[i];
      ModifiedFromStep(keys, i, a, b, modifications);
      if ValuesDiffer(a, b, k) {
        modifications := modifications[k := ModifiedEntry(a, b, k)];
      }
      i := i + 1;
    }
  }

  /** One turn of the `findModifiedProperties` loop. */
  lemma ModifiedFromStep(keys: seq<string>, i: nat, a: Val, b: Val, m: map<string, Modification>)
    requires i < |keys|
    ensures ModifiedFrom(keys, i, a, b, m) ==
              ModifiedFrom(keys, i + 1, a, b, if ValuesDiffer(a, b, keys[i]) then m[keys[i] := ModifiedEntry(a, b, keys[i])] else m)
  {
  }

  lemma {:induction false} ModifiedFromSpec(keys: seq<string>, i: nat, a: Val, b: Val, m: map<string, Modification>, k: string)
    requires i <= |keys|
    ensures var r := ModifiedFrom(keys, i, a, b, m);
      (k in r <==> k in m || (k in keys[i..] && ValuesDiffer(a, b, k))) &&
      (k in keys[i..] && ValuesDiffer(a, b, k) ==> r[k] == ModifiedEntry(a, b, k)) &&
      (k !in keys[i..] && k in m ==> r[k] == m[k])
    decreases |keys| - i
  {
    if i < |keys| {
      var m' := if ValuesDiffer(a, b, keys[i]) then m[keys[i] := ModifiedEntry(a, b, keys[i])] else m;
      assert ModifiedFrom(keys, i, a, b, m) == ModifiedFrom(keys, i + 1, a, b, m');
      assert keys[i..] == [keys[i]] + keys[i + 1..];
      ModifiedFromSpec(keys, i + 1, a, b, m', k);
    }
  }

  /** `findModifiedProperties` returns exactly the keys of either analysis
      whose `values` serialise differently, each with its old and new values
      and property types. */
  lemma FindModifiedSpec(a: Val, b: Val, k: string)
    requires a.Obj? && b.Obj? && WellFormed(a) && WellFormed(b)
    ensures var r := FindModifiedProperties(a, b);
      (k in r <==> (Has(a, k) || Has(b, k)) && ValuesDiffer(a, b, k)) &&
      (k in r ==> r[k] == ModifiedEntry(a, b, k))
  {
    var keys := KeysOf(Spread(a, b));
    SpreadWellFormed(a, b);
    ModifiedFromSpec(keys, 0, a, b, map[], k);
    assert keys[0..] == keys;
    assert k in keys <==> Has(Spread(a, b), k);
  }

  /** An analysis compared with itself has no modified property. */
  lemma FindModifiedSelf(a: Val)
    requires a.Obj?
    ensures FindModifiedProperties(a, a) == map[]
  {
    var r := FindModifiedProperties(a, a);
    forall k | k in r
      ensures false
    {
      ModifiedFromSpec(KeysOf(Spread(a, a)), 0, a, a, map[], k);
    }
  }

  // ---------------------------------------------------------------------
  // The sanitise filter of the paper-content effect

  /** `v.value && v.value.trim() !== ''`. */
  predicate NonBlankValue(v: Val) {
    Get(v, "value").Str? && Trim(Get(v, "value").s) != ""
  }

  /** A value the filter can test: `v.value` can be read and, when truthy, is a
      string (`trim` throws on anything else). */
  predicate Testable(v: Val) {
    !IsNullish(v) && (Truthy(Get(v, "value")) ==> Get(v, "value").Str?)
  }

  /** A property the effect can read: not an array (whose `values` is the
      iterator method, on which `some` throws), and `values` either nullish or
      an array of testable values. */
  predicate Sanitizable(p: Val) {
    var vs := Get(p, "values");
    !p.Arr? && (IsNullish(vs) || (vs.Arr? && forall x :: x in vs.items ==> Testable(x)))
  }

  ghost predicate SanitizableAnalysis(a: Val) {
    a.Obj? && forall k :: Sanitizable(Get(a, k))
  }

  /** `prop?.values?.some(v => …)`. */
  predicate HasNonBlank(p: Val) {
    Get(p, "values").Arr? && exists x :: x in Get(p, "values").items && NonBlankValue(x)
  }

  /** `values.filter(v => …)`. */
  function NonBlankValues(xs: seq<Val>): (r: seq<Val>)
    ensures forall x :: x in r ==> x in xs && NonBlankValue(x)
    ensures forall x :: x in xs && NonBlankValue(x) ==> x in r
  {
    if xs == [] then []
    else (if NonBlankValue(xs[0]) then [xs[0]] else []) + NonBlankValues(xs[1..])
  }

  /** `{...value, property: value.property || key, label: value.label || key,
      type: value.type || 'text', values: <the non-blank values>}`. */
  function SanitizedProperty(key: string, p: Val): Val {
    var p1 := With(p, "property", Or(Get(p, "property"), Str(key)));
    var p2 := With(p1, "label", Or(Get(p, "label"), Str(key)));
    var p3 := With(p2, "type", Or(Get(p, "type"), Str("text")));
    With(p3, "values", Arr(NonBlankValues(ItemsOf(Get(p, "values")))))
  }

  function SanitizeFrom(keys: seq<string>, i: nat, a: Val, acc: Val): Val
    requires i <= |keys|
    decreases |keys| - i
  {
    if i == |keys| then acc
    else
      var k := keys[i];
      SanitizeFrom(keys, i + 1, a, if HasNonBlank(Get(a, k)) then With(acc, k, SanitizedProperty(k, Get(a, k))) else acc)
  }

  /** The `sanitizedAnalysis` built from `Object.entries(analysis)`. */
  function Sanitize(a: Val): Val
    requires SanitizableAnalysis(a)
  {
    SanitizeFrom(KeysOf(a), 0, a, EMPTY)
  }

  /** `Object.values(analysis).some(prop => prop?.values?.some(…))`. */
  predicate HasValidContent(a: Val) {
    exists k :: k in KeysOf(a) && HasNonBlank(Get(a, k))
  }

  /** What the effect dispatches for `analysis` and `sections`: an
      `UPDATE_PAPER_CONTENT` with the sanitised analysis when the analysis
      has a property with a non-blank value, nothing otherwise. */
  function PaperContentUpdate(a: Val, sections: Val): Option<AnalysisContext.Action>
    requires SanitizableAnalysis(a)
  {
    if KeyCount(a) > 0 && HasValidContent(a) then
      Some(AnalysisContext.UpdatePaperContent(
        Obj(["paperContent", "text_sections", "status"],
            map["paperContent" := Sanitize(a), "text_sections" := sections, "status" := Str("completed")])))
    else None
  }

  /** The loop over `Object.entries(analysis)`. */
  method SanitizeAnalysis(a: Val) returns (sanitized: Val)
    requires SanitizableAnalysis(a)
    ensures sanitized == Sanitize(a)
  {
    var keys := KeysOf(a);
    sanitized := EMPTY;
    var i := 0;
    while i < |keys|
      invariant i <= |keys|
      invariant SanitizeFrom(keys, i, a, sanitized) == Sanitize(a)
    {
      var k := keys[i];
      var p := Get(a, k);
      if HasNonBlank(p) {
        sanitized := With(sanitized, k, SanitizedProperty(k, p));
      }
      i := i + 1;
    }
  }

  /** A sanitised property keeps its `property` and `label` when truthy and
      falls back to the key, always has a type, and keeps every other field
      but `values`. */
  lemma SanitizedPropertyFields(key: string, p: Val)
    ensures var q := SanitizedProperty(key, p);
      (Truthy(Get(p, "property")) ==> Get(q, "property") == Get(p, "property")) &&
      (!Truthy(Get(p, "property")) ==> Get(q, "property") == Str(key)) &&
      (Truthy(Get(p, "label")) ==> Get(q, "label") == Get(p, "label")) &&
      (!Truthy(Get(p, "label")) ==> Get(q, "label") == Str(key)) &&
      Truthy(Get(q, "type")) &&
      (forall f :: f !in {"property", "label", "type", "values"} ==> Get(q, f) == Get(p, f))
  {
    var p1 := With(p, "property", Or(Get(p, "property"), Str(key)));
    var p2 := With(p1, "label", Or(Get(p, "label"), Str(key)));
    var p3 := With(p2, "type", Or(Get(p, "type"), Str("text")));
    var q := With(p3, "values", Arr(NonBlankValues(ItemsOf(Get(p, "values")))));
    assert q == SanitizedProperty(key, p);
    assert Get(q, "property") == Or(Get(p, "property"), Str(key));
    assert Get(q, "label") == Or(Get(p, "label"), Str(key));
    assert Get(q, "type") == Or(Get(p, "type"), Str("text"));
  }

  /** A sanitised property keeps exactly the non-blank values of the
      original, and there is at least one. */
  lemma SanitizedPropertyValues(key: string, p: Val)
    requires HasNonBlank(p)
    ensures var q := SanitizedProperty(key, p);
      Get(q, "values").Arr? && |Get(q, "values").items| > 0 &&
      (forall x :: x in Get(q, "values").items <==> x in Get(p, "values").items && NonBlankValue(x))
  {
    var vs := NonBlankValues(ItemsOf(Get(p, "values")));
    assert Get(SanitizedProperty(key, p), "values") == Arr(vs);
    var x :| x in Get(p, "values").items && NonBlankValue(x);
    assert x in vs;
  }

  /** One entry of the sanitise loop, seen at the key `k`. */
  lemma SanitizeStep(keys: seq<string>, i: nat, a: Val, acc: Val, k: string) returns (acc': Val)
    requires i < |keys|
    ensures SanitizeFrom(keys, i, a, acc) == SanitizeFrom(keys, i + 1, a, acc')
    ensures acc.Obj? ==> acc'.Obj?
    ensures var written := k == keys[i] && HasNonBlank(Get(a, k));
      (Has(acc', k) <==> Has(acc, k) || written) &&
      Get(acc', k) == if written then SanitizedProperty(k, Get(a, k)) else Get(acc, k)
  {
    if HasNonBlank(Get(a, keys[i])) {
      acc' := With(acc, keys[i], SanitizedProperty(keys[i], Get(a, keys[i])));
    } else {
      acc' := acc;
    }
  }

  lemma {:induction false} SanitizeFromSpec(keys: seq<string>, i: nat, a: Val, acc: Val, k: string)
    requires i <= |keys|
    ensures acc.Obj? ==> SanitizeFrom(keys, i, a, acc).Obj?
    ensures var r := SanitizeFrom(keys, i, a, acc);
      (Has(r, k) <==> Has(acc, k) || (k in keys[i..] && HasNonBlank(Get(a, k)))) &&
      (k in keys[i..] && HasNonBlank(Get(a, k)) ==> Get(r, k) == SanitizedProperty(k, Get(a, k))) &&
      (k !in keys[i..] ==> Get(r, k) == Get(acc, k))
    decreases |keys| - i
  {
    if i < |keys| {
      var acc' := SanitizeStep(keys, i, a, acc, k);
      assert keys[i..] == [keys[i]] + keys[i + 1..];
      SanitizeFromSpec(keys, i + 1, a, acc', k);
    }
  }

  /** The sanitised analysis keeps exactly the properties with a non-blank
      value, each reduced to its non-blank values. */
  lemma SanitizeSpec(a: Val, k: string)
    requires SanitizableAnalysis(a) && WellFormed(a)
    ensures var r := Sanitize(a);
      r.Obj? &&
      (Has(r, k) <==> Has(a, k) && HasNonBlank(Get(a, k))) &&
      (Has(r, k) ==> Get(r, k) == SanitizedProperty(k, Get(a, k)))
  {
    SanitizeFromSpec(KeysOf(a), 0, a, EMPTY, k);
    assert KeysOf(a)[0..] == KeysOf(a);
  }

  lemma HasValidContentIff(a: Val)
    requires WellFormed(a)
    ensures HasValidContent(a) <==> exists k :: Has(a, k) && HasNonBlank(Get(a, k))
  {
    if exists k :: Has(a, k) && HasNonBlank(Get(a, k)) {
      var k :| Has(a, k) && HasNonBlank(Get(a, k));
      assert k in KeysOf(a);
    }
  }

  /** The effect dispatches exactly when some property has a non-blank value. */
  lemma PaperContentDispatched(a: Val, sections: Val)
    requires SanitizableAnalysis(a) && WellFormed(a)
    ensures PaperContentUpdate(a, sections).Some? <==> exists k :: Has(a, k) && HasNonBlank(Get(a, k))
  {
    HasValidContentIff(a);
    if HasValidContent(a) {
      var k :| k in KeysOf(a) && HasNonBlank(Get(a, k));
      assert KeyCount(a) > 0;
    }
  }
}
