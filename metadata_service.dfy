/** The metadata service: the DOI pattern that decides whether an input is
    looked up as a DOI or as a title, and the record built from the lookup. */
module MetadataService {
  import opened Wrappers
  import opened JsString
  import opened JsValue
  import MetadataSection

  // ---------------------------------------------------------------------
  // The pattern `/10.\d{4,9}\/[-._;()\/:A-Z0-9]+/i`

  /** A character of `[-._;()\/:A-Z0-9]` under the `i` flag: the ASCII
      letters of either case, the digits and the listed punctuation. */
  predicate InDoiClass(c: char) {
    c in "-._;()/:" || 'A' <= c <= 'Z' || 'a' <= c <= 'z' || IsDigit(c)
  }

  /** The whole of `m` is matched by the pattern: `1`, `0`, one character
      that is not a line terminator, four to nine digits, a slash, and one or
      more characters of the class. */
  predicate DoiPattern(m: string) {
    exists n :: 4 <= n <= 9 && DoiPatternWith(m, n)
  }

  /** The same, with exactly `n` digits. */
  predicate DoiPatternWith(m: string, n: nat) {
    |m| > 4 + n && m[0] == '1' && m[1] == '0' && !IsLineTerminator(m[2]) &&
    (forall j :: 3 <= j < 3 + n ==> IsDigit(m[j])) && m[3 + n] == '/' &&
    (forall j :: 4 + n <= j < |m| ==> InDoiClass(m[j]))
  }

  /** The number of digits in `s` from index `i` on, up to the first other character. */
  function DigitRun(s: string, i: nat): (n: nat)
    requires i <= |s|
    ensures i + n <= |s|
    decreases |s| - i
  {
    if i < |s| && IsDigit(s[i]) then 1 + DigitRun(s, i + 1) else 0
  }

  lemma {:induction false} DigitRunSpec(s: string, i: nat)
    requires i <= |s|
    ensures var n := DigitRun(s, i);
      (forall j :: i <= j < i + n ==> IsDigit(s[j])) && (i + n == |s| || !IsDigit(s[i + n]))
    decreases |s| - i
  {
    if i < |s| && IsDigit(s[i]) {
      DigitRunSpec(s, i + 1);
    }
  }

  /** The number of class characters in `s` from index `i` on. */
  function ClassRun(s: string, i: nat): (n: nat)
    requires i <= |s|
    ensures i + n <= |s|
    decreases |s| - i
  {
    if i < |s| && InDoiClass(s[i]) then 1 + ClassRun(s, i + 1) else 0
  }

  lemma {:induction false} ClassRunSpec(s: string, i: nat)
    requires i <= |s|
    ensures var n := ClassRun(s, i);
      (forall j :: i <= j < i + n ==> InDoiClass(s[j])) && (i + n == |s| || !InDoiClass(s[i + n]))
    decreases |s| - i
  {
    if i < |s| && InDoiClass(s[i]) {
      ClassRunSpec(s, i + 1);
    }
  }

  /** The length of the match that starts at index `p`, if any. The digit
      count is the run of digits after the third character, since only a
      slash may follow the digits; the class run is greedy. */
  function MatchAt(s: string, p: nat): Option<nat>
    requires p <= |s|
  {
    if p + 3 <= |s| && s[p] == '1' && s[p + 1] == '0' && !IsLineTerminator(s[p + 2]) then
      var d := DigitRun(s, p + 3);
      var slash := p + 3 + d;
      if 4 <= d <= 9 && slash < |s| && s[slash] == '/' && ClassRun(s, slash + 1) > 0 then
        Some(4 + d + ClassRun(s, slash + 1))
      else None
    else None
  }

  /** A match at `p` covers a string the pattern matches and cannot be
      extended by another class character. */
  lemma MatchAtSound(s: string, p: nat)
    requires p <= |s| && MatchAt(s, p).Some?
    ensures var len := MatchAt(s, p).value;
      p + len <= |s| && DoiPattern(s[p..p + len]) &&
      (p + len == |s| || !InDoiClass(s[p + len]))
  {
    var d := DigitRun(s, p + 3);
    var c := ClassRun(s, p + 4 + d);
    assert MatchAt(s, p) == Some(4 + d + c) && 4 <= d <= 9 && s[p + 3 + d] == '/';
    MatchedStretch(s, p, d, c);
    ClassRunSpec(s, p + 4 + d);
  }

  /** The stretch of `4 + d + c` characters from `p`, with `d` digits and
      `c` class characters after the slash, is matched by the pattern. */
  lemma MatchedStretch(s: string, p: nat, d: nat, c: nat)
    requires p + 4 + d + c <= |s| && 4 <= d <= 9 && c > 0
    requires s[p] == '1' && s[p + 1] == '0' && !IsLineTerminator(s[p + 2]) && s[p + 3 + d] == '/'
    requires d == DigitRun(s, p + 3) && c == ClassRun(s, p + 4 + d)
    ensures DoiPattern(s[p..p + 4 + d + c])
  {
    DigitRunSpec(s, p + 3);
    ClassRunSpec(s, p + 4 + d);
    var m := s[p..p + 4 + d + c];
    assert forall j :: 3 <= j < 3 + d ==> m[j] == s[p + j];
    assert forall j :: 4 + d <= j < |m| ==> m[j] == s[p + j];
    assert DoiPatternWith(m, d);
  }

  /** Every stretch from `p` that the pattern matches lies within the match
      found at `p`. */
  lemma MatchAtComplete(s: string, p: nat, q: nat)
    requires p <= q <= |s| && DoiPattern(s[p..q])
    ensures MatchAt(s, p).Some? && q <= p + MatchAt(s, p).value
  {
    var m := s[p..q];
    var n :| 4 <= n <= 9 && DoiPatternWith(m, n);
    DigitRunSpec(s, p + 3);
    var d := DigitRun(s, p + 3);
    // The digits run exactly up to the slash.
    assert forall j :: 3 <= j < 3 + n ==> m[j] == s[p + j];
    assert !IsDigit(s[p + 3 + n]) by { assert s[p + 3 + n] == m[3 + n]; }
    assert d == n;
    var start := p + 4 + n;
    ClassRunSpec(s, start);
    var c := ClassRun(s, start);
    assert forall j :: 4 + n <= j < |m| ==> m[j] == s[p + j];
    assert c >= q - start;
  }

  /** The leftmost index from `p` on where the pattern matches. */
  function FindDoi(s: string, p: nat): (r: Option<nat>)
    requires p <= |s|
    ensures r.Some? ==> p <= r.value <= |s| && MatchAt(s, r.value).Some?
    decreases |s| - p
  {
    if MatchAt(s, p).Some? then Some(p)
    else if p == |s| then None
    else FindDoi(s, p + 1)
  }

  lemma {:induction false} FindDoiSpec(s: string, p: nat)
    requires p <= |s|
    ensures var r := FindDoi(s, p);
      (forall q :: p <= q <= |s| && (r.None? || q < r.value) ==> MatchAt(s, q).None?)
    decreases |s| - p
  {
    if MatchAt(s, p).None? && p < |s| {
      FindDoiSpec(s, p + 1);
    }
  }

  // ---------------------------------------------------------------------
  // parseIdentifier

  /** `{type, value}`: `type` is `'doi'` or `'title'`. */
  datatype Identifier = Identifier(kind: string, value: string)

  /** `parseIdentifier(input)`: the first DOI found in the input, else the
      whole input as a title. */
  function ParseIdentifier(input: string): Identifier {
    match FindDoi(input, 0)
    case Some(p) =>
      var len := MatchAt(input, p).value;
      Identifier("doi", input[p..p + len])
    case None => Identifier("title", input)
  }

  /** The input is a DOI exactly when the pattern matches some part of it. */
  lemma DoiIffPatternOccurs(input: string)
    ensures ParseIdentifier(input).kind == "doi" <==>
      exists p, q :: 0 <= p <= q <= |input| && DoiPattern(input[p..q])
    ensures ParseIdentifier(input).kind == "doi" || ParseIdentifier(input).kind == "title"
  {
    FindDoiSpec(input, 0);
    match FindDoi(input, 0)
    case Some(p) =>
      MatchAtSound(input, p);
    case None =>
      forall p, q | 0 <= p <= q <= |input| ensures !DoiPattern(input[p..q]) {
        if DoiPattern(input[p..q]) {
          MatchAtComplete(input, p, q);
        }
      }
  }

  /** No stretch starting before `p` is matched when no match starts there. */
  lemma NoMatchBefore(s: string, p: nat)
    requires p <= |s| && forall q :: 0 <= q < p ==> MatchAt(s, q).None?
    ensures forall p', q :: 0 <= p' < p && p' <= q <= |s| ==> !DoiPattern(s[p'..q])
  {
    forall p', q | 0 <= p' < p && p' <= q <= |s| ensures !DoiPattern(s[p'..q]) {
      if DoiPattern(s[p'..q]) {
        MatchAtComplete(s, p', q);
      }
    }
  }

  /** The match at `p` is the longest stretch from `p` the pattern matches. */
  lemma MatchAtLongest(s: string, p: nat)
    requires p <= |s| && MatchAt(s, p).Some?
    ensures forall q :: p + MatchAt(s, p).value < q <= |s| ==> !DoiPattern(s[p..q])
  {
    forall q | p + MatchAt(s, p).value < q <= |s| ensures !DoiPattern(s[p..q]) {
      if DoiPattern(s[p..q]) {
        MatchAtComplete(s, p, q);
      }
    }
  }

  /** A DOI's value is the leftmost, longest stretch of the input the pattern
      matches; a title's value is the input. */
  lemma IdentifierValue(input: string)
    ensures var id := ParseIdentifier(input);
      (id.kind == "title" ==> id.value == input) &&
      (id.kind == "doi" ==>
        exists p :: OccursAt(input, id.value, p) && DoiPattern(id.value) &&
          (forall p', q :: 0 <= p' < p && p' <= q <= |input| ==> !DoiPattern(input[p'..q])) &&
          (forall q :: p + |id.value| < q <= |input| ==> !DoiPattern(input[p..q])))
  {
    FindDoiSpec(input, 0);
    if FindDoi(input, 0).Some? {
      var p := FindDoi(input, 0).value;
      MatchAtSound(input, p);
      NoMatchBefore(input, p);
      MatchAtLongest(input, p);
      assert OccursAt(input, ParseIdentifier(input).value, p);
    }
  }

  /** Parsing the value found again finds the same identifier. */
  lemma ParseIdentifierStable(input: string)
    ensures ParseIdentifier(ParseIdentifier(input).value) == ParseIdentifier(input)
  {
    if FindDoi(input, 0).Some? {
      var p := FindDoi(input, 0).value;
      MatchAtSound(input, p);
      var v := input[p..p + MatchAt(input, p).value];
      assert ParseIdentifier(input) == Identifier("doi", v);
      assert v[0..|v|] == v;
      MatchAtComplete(v, 0, |v|);
      assert FindDoi(v, 0) == Some(0);
      assert v[0..MatchAt(v, 0).value] == v;
    }
  }

  // ---------------------------------------------------------------------
  // fetchMetadata

  /** The external calls of `fetchMetadata`: the lookups by DOI and by title,
      and the ISO text of `new Date(year, 0)` (`None` for an invalid date,
      on which `toISOString` throws). */
  datatype Lookup = Lookup(
    byDoi: string -> Result<Val>,
    byTitle: string -> Result<Val>,
    yearIso: Val -> Option<string>)

  const FETCH_FAILURE: string := "Failed to fetch paper metadata"

  const RECORD_KEYS: seq<string> := ["title", "authors", "abstract", "doi", "url", "publicationDate"]

  /** `data.authors?.map(author => author.name) || []`, `None` when it throws. */
  function Names(authors: Val): (r: Option<Val>)
    ensures r.Some? ==> r.value.Arr?
  {
    if IsNullish(authors) then Some(Arr([]))
    else if !authors.Arr? then None
    else
      match MetadataSection.NamesOf(authors.items)
      case Success(names) => Some(Arr(names))
      case Failure(_) => None
  }

  /** `data.year ? new Date(data.year, 0).toISOString() : null`. */
  function PublicationDate(year: Val, yearIso: Val -> Option<string>): Option<Val> {
    if !Truthy(year) then Some(Null)
    else
      match yearIso(year)
      case Some(iso) => Some(Str(iso))
      case None => None
  }

  /** The object literal returned for the looked-up `data`. */
  function RecordOf(data: Val, names: Val, date: Val): (m: Val)
    ensures KeysOf(m) == RECORD_KEYS
    ensures Get(m, "title") == Or(Get(data, "title"), Null)
    ensures Get(m, "abstract") == Or(Get(data, "abstract"), Null)
    ensures Get(m, "doi") == Or(Get(Get(data, "externalIds"), "DOI"), Null)
    ensures Get(m, "url") == Or(Get(data, "url"), Null)
    ensures Get(m, "authors") == names && Get(m, "publicationDate") == date
  {
    Obj(RECORD_KEYS,
        map["title" := Or(Get(data, "title"), Null),
            "authors" := names,
            "abstract" := Or(Get(data, "abstract"), Null),
            "doi" := Or(Get(Get(data, "externalIds"), "DOI"), Null),
            "url" := Or(Get(data, "url"), Null),
            "publicationDate" := date])
  }

  /** `fetchMetadata(input)`: every failure, of the lookup or of reading the
      data, becomes the one fixed error. */
  function FetchMetadata(input: string, env: Lookup): Result<Val> {
    var id := ParseIdentifier(input);
    var looked := if id.kind == "doi" then env.byDoi(id.value) else env.byTitle(id.value);
    if looked.Failure? || IsNullish(looked.value) then Failure(FETCH_FAILURE)
    else
      var data := looked.value;
      match (Names(Get(data, "authors")), PublicationDate(Get(data, "year"), env.yearIso))
      case (Some(names), Some(date)) => Success(RecordOf(data, names, date))
      case _ => Failure(FETCH_FAILURE)
  }

  /** The lookup used is the one of the identifier's kind, with its value. */
  function LookedUp(input: string, env: Lookup): Result<Val> {
    var id := ParseIdentifier(input);
    if id.kind == "doi" then env.byDoi(id.value) else env.byTitle(id.value)
  }

  /** Any failure is the fixed error; the lookup succeeds exactly when the
      lookup of the identifier's kind returns data that is not null or
      undefined, its authors can be mapped to names and its year, if any,
      is a valid date. */
  lemma FetchMetadataFails(input: string, env: Lookup)
    ensures var r := FetchMetadata(input, env);
      var looked := LookedUp(input, env);
      (r.Failure? ==> r.error == FETCH_FAILURE) &&
      (r.Success? <==>
        looked.Success? && !IsNullish(looked.value) &&
        Names(Get(looked.value, "authors")).Some? &&
        PublicationDate(Get(looked.value, "year"), env.yearIso).Some?)
  {
  }

  /** The record: the six fields in order, a missing text field as `null`,
      the author names (`[]` without authors), and a date exactly when there
      is a year. */
  lemma FetchMetadataRecord(input: string, env: Lookup)
    requires FetchMetadata(input, env).Success?
    ensures var m := FetchMetadata(input, env).value;
      var data := LookedUp(input, env).value;
      KeysOf(m) == RECORD_KEYS &&
      Get(m, "title") == Or(Get(data, "title"), Null) &&
      Get(m, "abstract") == Or(Get(data, "abstract"), Null) &&
      Get(m, "doi") == Or(Get(Get(data, "externalIds"), "DOI"), Null) &&
      Get(m, "url") == Or(Get(data, "url"), Null) &&
      Get(m, "authors").Arr? &&
      (IsNullish(Get(data, "authors")) ==> Get(m, "authors") == Arr([])) &&
      (Truthy(Get(data, "year")) <==> Get(m, "publicationDate").Str?) &&
      (!Truthy(Get(data, "year")) ==> Get(m, "publicationDate") == Null)
  {
    var data := LookedUp(input, env).value;
    var names := Names(Get(data, "authors")).value;
    var date := PublicationDate(Get(data, "year"), env.yearIso).value;
    assert FetchMetadata(input, env).value == RecordOf(data, names, date);
  }

  /** The authors become their names, one per author, in order; an author
      that is `null` or `undefined` makes the whole lookup fail. */
  lemma NamesShape(authors: Val)
    requires authors.Arr?
    ensures var r := Names(authors);
      (r.None? <==> exists i :: 0 <= i < |authors.items| && IsNullish(authors.items[i])) &&
      (r.Some? ==> (|r.value.items| == |authors.items| &&
        forall i :: 0 <= i < |authors.items| ==> r.value.items[i] == Get(authors.items[i], "name")))
  {
  }
}
