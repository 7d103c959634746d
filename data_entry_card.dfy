/** The paper-input card: which inputs are accepted, how a bare DOI is turned
    into a resolver URL, and when the Analyze button is enabled. */
module DataEntryCard {
  import opened JsString

  const DOI_BASE_URL: string := "https://doi.org/"

  /** `/^10\.\d{4,}/`: `10.` followed by at least four digits. */
  predicate DoiLike(s: string) {
    |s| >= 7 && s[..3] == "10." && forall i :: 3 <= i < 7 ==> IsDigit(s[i])
  }

  /** The URL pattern after the scheme `scheme`: at least one character that
      is not a line terminator (`.+`). */
  predicate AfterScheme(s: string, scheme: string) {
    StartsWith(s, scheme) && |s| > |scheme| && !IsLineTerminator(s[|scheme|])
  }

  /** `/^https?:\/\/.+/`. */
  predicate UrlLike(s: string) {
    AfterScheme(s, "http://") || AfterScheme(s, "https://")
  }

  /** `validateInput(input)`: the trimmed input and whether it is accepted. */
  function ValidateInput(input: string): (r: (string, bool))
    ensures r.0 == Trim(input)
    ensures r.1 <==> DoiLike(Trim(input)) || UrlLike(Trim(input))
  {
    var t := Trim(input);
    (t, DoiLike(t) || UrlLike(t))
  }

  /** `handleInputChange`: the value stored as the paper URL. */
  function ProcessInput(input: string): string {
    var t := ValidateInput(input).0;
    if !StartsWith(t, "http") && DoiLike(t) then DOI_BASE_URL + t else t
  }

  /** The Analyze button: `disabled={isProcessing || !isValidInput}`. */
  predicate SubmitEnabled(isProcessing: bool, isValidInput: bool) {
    !isProcessing && isValidInput
  }

  /** A bare DOI becomes a resolver URL, which is itself accepted. */
  lemma PrefixedDoiIsUrl(t: string)
    requires DoiLike(t)
    ensures UrlLike(DOI_BASE_URL + t)
  {
    var u := DOI_BASE_URL + t;
    assert u[..|"https://"|] == "https://";
    assert u[|"https://"|] == 'd';
  }

  /** The resolver URL built from a trimmed DOI is trimmed itself, starts
      with `http` and is accepted as a URL. */
  lemma PrefixedDoiFixed(t: string)
    requires DoiLike(t) && !IsSpace(t[|t| - 1])
    ensures var u := DOI_BASE_URL + t;
      Trim(u) == u && StartsWith(u, "http") && UrlLike(u)
  {
    var u := DOI_BASE_URL + t;
    PrefixedDoiIsUrl(t);
    assert u[..4] == "http";
    assert u[0] == 'h' && u[|u| - 1] == t[|t| - 1];
    TrimOfTrimmed(u);
  }

  /** Processing keeps an accepted input accepted. */
  lemma ProcessedStaysValid(input: string)
    requires ValidateInput(input).1
    ensures ValidateInput(ProcessInput(input)).1
  {
    var t := Trim(input);
    if !StartsWith(t, "http") && DoiLike(t) {
      TrimShape(input);
      PrefixedDoiFixed(t);
    } else {
      TrimIdempotent(input);
    }
  }

  /** An input is accepted exactly when the value stored for it is a URL:
      a bare DOI is stored as its resolver URL. */
  lemma AcceptedIffStoredAsUrl(input: string)
    ensures ValidateInput(input).1 <==> UrlLike(ProcessInput(input))
  {
    var t := Trim(input);
    if !StartsWith(t, "http") && DoiLike(t) {
      TrimShape(input);
      PrefixedDoiFixed(t);
    }
  }

  /** Processing an already processed input changes nothing. */
  lemma ProcessIdempotent(input: string)
    ensures ProcessInput(ProcessInput(input)) == ProcessInput(input)
  {
    var t := Trim(input);
    if !StartsWith(t, "http") && DoiLike(t) {
      TrimShape(input);
      PrefixedDoiFixed(t);
    } else {
      TrimIdempotent(input);
    }
  }
}
