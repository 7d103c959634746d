/** The retrieval service: analysis of a paper's sections property by
    property with back-off on rate limits, the spacing of calls, and the
    summaries of a finished analysis. */
module RagService {
  import opened Wrappers
  import opened JsString
  import opened JsValue

  /** `retryDelays`: the wait before the first, second, third and fourth retry. */
  const RETRY_DELAYS: seq<nat> := [300, 600, 1200, 2400]

  /** `maxRetries`. */
  const MAX_RETRIES: nat := 4

  /** `minDelayBetweenCalls`, in milliseconds. */
  const MIN_DELAY_BETWEEN_CALLS: int := 100

  // ---- processPropertyWithRetry ----

  /** What one `llmService.analyze` call gives: a response, or the error it
      throws (its `message`, when it has one, and its `code`). */
  datatype Reply = Answered(response: Val) | Threw(message: Option<string>, code: Val)

  /** The errors taken for rate limiting: HTTP 429, "Too Many Requests",
      an exhausted service tier, or the provider code `'3505'`. */
  predicate RateLimited(message: Option<string>, code: Val) {
    (message.Some? &&
      (Contains(message.value, "429") || Contains(message.value, "Too Many Requests") ||
       Contains(message.value, "Service tier capacity exceeded"))) ||
    code == Str("3505")
  }

  predicate Retryable(reply: Reply) {
    reply.Threw? && RateLimited(reply.message, reply.code)
  }

  /** `retryDelays[attempt] || retryDelays[retryDelays.length - 1]`. */
  function Delay(attempt: nat): (d: nat)
    ensures attempt < MAX_RETRIES ==> d == RETRY_DELAYS[attempt]
  {
    if attempt < |RETRY_DELAYS| && RETRY_DELAYS[attempt] != 0 then RETRY_DELAYS[attempt]
    else RETRY_DELAYS[|RETRY_DELAYS| - 1]
  }

  /** `processPropertyWithRetry` from `attempt`: the reply it ends with (a
      response it returns or an error it rethrows) and the waits before each
      retry. `analyze(p, k)` is the reply of the call made for property `p`
      at attempt `k`. */
  function WithRetry(p: Val, analyze: (Val, nat) -> Reply, attempt: nat): (r: (Reply, seq<nat>))
    ensures attempt + |r.1| <= if attempt < MAX_RETRIES then MAX_RETRIES else attempt
    ensures r.0 == analyze(p, attempt + |r.1|)
    decreases if attempt < MAX_RETRIES then MAX_RETRIES - attempt else 0
  {
    var reply := analyze(p, attempt);
    if Retryable(reply) && attempt < MAX_RETRIES then
      var (last, waits) := WithRetry(p, analyze, attempt + 1);
      (last, [Delay(attempt)] + waits)
    else (reply, [])
  }

  /** Every retry follows a rate-limit error and waits the scheduled delay;
      the call that ends the recursion answered, failed otherwise, or was a
      rate-limit error with the retries used up. */
  lemma {:induction false} RetrySpec(p: Val, analyze: (Val, nat) -> Reply, attempt: nat)
    ensures var (last, waits) := WithRetry(p, analyze, attempt);
      (forall j :: 0 <= j < |waits| ==> waits[j] == RETRY_DELAYS[attempt + j] && Retryable(analyze(p, attempt + j))) &&
      (Retryable(last) ==> attempt + |waits| >= MAX_RETRIES)
    decreases if attempt < MAX_RETRIES then MAX_RETRIES - attempt else 0
  {
    var reply := analyze(p, attempt);
    if Retryable(reply) && attempt < MAX_RETRIES {
      RetrySpec(p, analyze, attempt + 1);
      var (last, waits) := WithRetry(p, analyze, attempt + 1);
      assert WithRetry(p, analyze, attempt) == (last, [Delay(attempt)] + waits);
      forall j | 0 <= j < |waits| + 1
        ensures ([Delay(attempt)] + waits)[j] == RETRY_DELAYS[attempt + j] && Retryable(analyze(p, attempt + j))
      {
        if j > 0 {
          assert ([Delay(attempt)] + waits)[j] == waits[j - 1];
        }
      }
    }
  }

  /** From the first attempt, `analyze` is called at most five times. */
  lemma AtMostFiveCalls(p: Val, analyze: (Val, nat) -> Reply)
    ensures |WithRetry(p, analyze, 0).1| + 1 <= 5
  {
  }

  /** An error that is not a rate limit is rethrown at once, without a wait. */
  lemma OtherErrorsRethrown(p: Val, analyze: (Val, nat) -> Reply)
    requires analyze(p, 0).Threw? && !Retryable(analyze(p, 0))
    ensures WithRetry(p, analyze, 0) == (analyze(p, 0), [])
  {
  }

  /** Rate limits on every call: four retries with the waits 300, 600, 1200
      and 2400 ms, and the fifth error is rethrown. */
  lemma PersistentRateLimit(p: Val, analyze: (Val, nat) -> Reply)
    requires forall k :: 0 <= k <= MAX_RETRIES ==> Retryable(analyze(p, k))
    ensures WithRetry(p, analyze, 0) == (analyze(p, 4), RETRY_DELAYS)
  {
    var (last, waits) := WithRetry(p, analyze, 0);
    RetrySpec(p, analyze, 0);
    assert |waits| == 4;
    assert waits == RETRY_DELAYS;
  }

  // ---- enforceRateLimit ----

  /** The wait before a call at time `now` when the last one was at `last`. */
  function RateLimitWait(now: int, last: int): (w: int)
    ensures w >= 0
    ensures now + w >= last + MIN_DELAY_BETWEEN_CALLS
    ensures w == 0 || now + w == last + MIN_DELAY_BETWEEN_CALLS
  {
    var since := now - last;
    if since < MIN_DELAY_BETWEEN_CALLS then MIN_DELAY_BETWEEN_CALLS - since else 0
  }

  // ---- processPropertiesSequentially ----

  /** `template.template?.properties || template.properties`. */
  function PropertyList(template: Val): Val {
    Or(Get(Get(template, "template"), "properties"), Get(template, "properties"))
  }

  /** The results key of a property: `String(property.id)`. */
  function Key(p: Val): string {
    ToKey(Get(p, "id"))
  }

  /** The result recorded for a property: the response with the property's
      label and type, or, when the analysis threw, no values and the error's
      message. */
  function EntryOf(p: Val, analyze: (Val, nat) -> Reply): Val {
    match WithRetry(p, analyze, 0).0
    case Answered(response) => With(With(response, "label", Get(p, "label")), "type", Get(p, "type"))
    case Threw(message, _) =>
      Obj(["label", "type", "values", "error"],
          map["label" := Get(p, "label"), "type" := Get(p, "type"), "values" := Arr([]),
              "error" := if message.Some? then Str(message.value) else Undef])
  }

  /** A failed property is recorded with an empty list of values and the
      message; a successful one keeps the response and is labelled. */
  lemma EntryShape(p: Val, analyze: (Val, nat) -> Reply)
    ensures var last := WithRetry(p, analyze, 0).0;
      var e := EntryOf(p, analyze);
      Get(e, "label") == Get(p, "label") && Get(e, "type") == Get(p, "type") &&
      (last.Threw? ==> Get(e, "values") == Arr([]) &&
                       Get(e, "error") == (if last.message.Some? then Str(last.message.value) else Undef)) &&
      (last.Answered? ==> forall k :: k != "label" && k != "type" ==> Get(e, k) == Get(last.response, k))
  {
  }

  /** The position of the last of the first `n` properties with key `k`, or -1. */
  function LastIndex(ps: seq<Val>, k: string, n: nat): (r: int)
    requires n <= |ps|
    ensures -1 <= r < n
    ensures r >= 0 ==> Key(ps[r]) == k && forall j :: r < j < n ==> Key(ps[j]) != k
    ensures r == -1 ==> forall j :: 0 <= j < n ==> Key(ps[j]) != k
  {
    if n == 0 then -1
    else if Key(ps[n - 1]) == k then n - 1
    else LastIndex(ps, k, n - 1)
  }

  /** The results after the first `n` properties, as seen at key `k`: a
      result exactly for the keys met so far, the one of the last property
      with that key. */
  ghost predicate ResultAt(results: Val, ps: seq<Val>, analyze: (Val, nat) -> Reply, n: nat, k: string)
    requires n <= |ps|
  {
    (Has(results, k) <==> LastIndex(ps, k, n) >= 0) &&
    (LastIndex(ps, k, n) >= 0 ==> Get(results, k) == EntryOf(ps[LastIndex(ps, k, n)], analyze))
  }

  lemma ResultStep(results: Val, ps: seq<Val>, analyze: (Val, nat) -> Reply, i: nat, n: nat)
    requires n == i + 1 <= |ps|
    requires forall k :: ResultAt(results, ps, analyze, i, k)
    ensures forall k :: ResultAt(With(results, Key(ps[i]), EntryOf(ps[i], analyze)), ps, analyze, n, k)
  {
    var updated := With(results, Key(ps[i]), EntryOf(ps[i], analyze));
    forall k ensures ResultAt(updated, ps, analyze, n, k) {
      assert ResultAt(results, ps, analyze, i, k);
      if k == Key(ps[i]) {
        assert LastIndex(ps, k, n) == i;
      } else {
        assert LastIndex(ps, k, n) == LastIndex(ps, k, i);
      }
    }
  }

  /** What `processPropertiesSequentially` promises for a template: no
      properties is an error; a missing property makes reading its label
      throw; otherwise one result per key, the last property's. */
  ghost predicate SequentialOutcome(template: Val, analyze: (Val, nat) -> Reply, r: Result<Val>)
    requires !Truthy(PropertyList(template)) || PropertyList(template).Arr?
  {
    var list := PropertyList(template);
    if !Truthy(list) then r == Failure("Invalid template structure: no properties found")
    else if exists j :: 0 <= j < |list.items| && IsNullish(list.items[j]) then r.Failure?
    else r.Success? && r.value.Obj? && forall k :: ResultAt(r.value, list.items, analyze, |list.items|, k)
  }

  /** With the results complete, every property has a result, and with
      distinct keys it is that property's own. */
  lemma ResultPerProperty(results: Val, ps: seq<Val>, analyze: (Val, nat) -> Reply)
    requires forall k :: ResultAt(results, ps, analyze, |ps|, k)
    ensures forall j :: 0 <= j < |ps| ==> Has(results, Key(ps[j]))
    ensures (forall a, b :: 0 <= a < b < |ps| ==> Key(ps[a]) != Key(ps[b])) ==>
      forall j :: 0 <= j < |ps| ==> Get(results, Key(ps[j])) == EntryOf(ps[j], analyze)
    ensures forall k :: Has(results, k) ==> exists j :: 0 <= j < |ps| && Key(ps[j]) == k
  {
    forall j | 0 <= j < |ps| ensures Has(results, Key(ps[j])) {
      assert ResultAt(results, ps, analyze, |ps|, Key(ps[j]));
    }
    if forall a, b :: 0 <= a < b < |ps| ==> Key(ps[a]) != Key(ps[b]) {
      forall j | 0 <= j < |ps| ensures Get(results, Key(ps[j])) == EntryOf(ps[j], analyze) {
        assert ResultAt(results, ps, analyze, |ps|, Key(ps[j]));
        var l := LastIndex(ps, Key(ps[j]), |ps|);
        assert l == j;
      }
    }
    forall k | Has(results, k) ensures exists j :: 0 <= j < |ps| && Key(ps[j]) == k {
      assert ResultAt(results, ps, analyze, |ps|, k);
      var l := LastIndex(ps, k, |ps|);
      assert Key(ps[l]) == k;
    }
  }

  /** The service object; only the time of the last call is modelled. */
  class RagServiceState {
    /** `lastApiCallTime`. */
    var lastApiCallTime: int

    constructor ()
      ensures lastApiCallTime == 0
    {
      lastApiCallTime := 0;
    }

    /** `enforceRateLimit`: `now` is the clock before the wait and `resumed`
        after it. It waits what is left of the minimum spacing and records
        the time it resumed, so calls resumed after their wait are at least
        `minDelayBetweenCalls` apart. */
    method EnforceRateLimit(now: int, resumed: int) returns (wait: int)
      modifies this
      ensures wait == RateLimitWait(now, old(lastApiCallTime))
      ensures lastApiCallTime == resumed
      ensures resumed >= now + wait ==> lastApiCallTime >= old(lastApiCallTime) + MIN_DELAY_BETWEEN_CALLS
    {
      var since := now - lastApiCallTime;
      wait := 0;
      if since < MIN_DELAY_BETWEEN_CALLS {
        wait := MIN_DELAY_BETWEEN_CALLS - since;
      }
      lastApiCallTime := resumed;
    }

    /** `processPropertiesSequentially`: for each property, the rate limit,
        then the analysis with retries, its outcome recorded under the
        property's id. `clock(i)` gives the times before and after the wait
        for the `i`-th property. */
    method ProcessPropertiesSequentially(template: Val, analyze: (Val, nat) -> Reply, clock: nat -> (int, int))
      returns (r: Result<Val>)
      requires !Truthy(PropertyList(template)) || PropertyList(template).Arr?
      modifies this
      ensures SequentialOutcome(template, analyze, r)
      ensures r.Success? && |PropertyList(template).items| > 0 ==>
        lastApiCallTime == clock(|PropertyList(template).items| - 1).1
    {
      var list := PropertyList(template);
      if !Truthy(list) {
        return Failure("Invalid template structure: no properties found");
      }
      r := ProcessList(list.items, analyze, clock);
    }

    /** The loop of `processPropertiesSequentially` over the property list:
        one rate-limited analysis per property, its entry stored under the
        property's id, a later property with the same id replacing it. */
    method ProcessList(ps: seq<Val>, analyze: (Val, nat) -> Reply, clock: nat -> (int, int))
      returns (r: Result<Val>)
      modifies this
      ensures (exists j :: 0 <= j < |ps| && IsNullish(ps[j])) ==> r.Failure?
      ensures (forall j :: 0 <= j < |ps| ==> !IsNullish(ps[j])) ==>
        r.Success? && r.value.Obj? && forall k :: ResultAt(r.value, ps, analyze, |ps|, k)
      ensures r.Success? && |ps| > 0 ==> lastApiCallTime == clock(|ps| - 1).1
    {
      var results := EMPTY;
      var i := 0;
      while i < |ps|
        invariant i <= |ps|
        invariant results.Obj?
        invariant forall j :: 0 <= j < i ==> !IsNullish(ps[j])
        invariant forall k :: ResultAt(results, ps, analyze, i, k)
        invariant i > 0 ==> lastApiCallTime == clock(i - 1).1
      {
        var p := ps[i];
        if IsNullish(p) {
          return Failure(ReadError(p, "label"));
        }
        var wait := EnforceRateLimit(clock(i).0, clock(i).1);
        ResultStep(results, ps, analyze, i, i + 1);
        results := With(results, Key(p), EntryOf(p, analyze));
        i := i + 1;
      }
      return Success(results);
    }

    /** `analyzePaperSections`: the batch analysis when it succeeds,
        otherwise the sequential one. */
    method AnalyzePaperSections(batch: Result<Val>, template: Val, analyze: (Val, nat) -> Reply, clock: nat -> (int, int))
      returns (r: Result<Val>)
      requires !Truthy(PropertyList(template)) || PropertyList(template).Arr?
      modifies this
      ensures batch.Success? ==> r == batch && lastApiCallTime == old(lastApiCallTime)
      ensures batch.Failure? ==> SequentialOutcome(template, analyze, r)
    {
      if batch.Success? {
        return batch;
      }
      r := ProcessPropertiesSequentially(template, analyze, clock);
    }
  }

  // ---- validateSections ----

  predicate NonBlankString(v: Val) {
    v.Str? && Trim(v.s) != ""
  }

  /** `entries.every(([key, value]) => typeof value === 'string' && value.trim().length > 0)`. */
  function EveryNonBlank(es: seq<(string, Val)>): (r: bool)
    ensures r <==> forall j :: 0 <= j < |es| ==> NonBlankString(es[j].1)
  {
    if es == [] then true
    else NonBlankString(es[0].1) && EveryNonBlank(es[1..])
  }

  /** `validateSections`. */
  function ValidateSections(sections: Val): bool {
    if !Truthy(sections) || TypeOf(sections) != "object" then false
    else
      var es := Entries(sections);
      if |es| == 0 then false else EveryNonBlank(es)
  }

  /** Sections are valid exactly when they form a non-empty object whose
      every section text is a non-blank string. */
  lemma ValidSectionsIff(sections: Val)
    requires !sections.Arr?
    ensures ValidateSections(sections) <==>
      sections.Obj? && |sections.keys| > 0 &&
      forall k :: k in sections.keys ==> NonBlankString(Get(sections, k))
  {
    if sections.Obj? {
      var es := Entries(sections);
      forall k | k in sections.keys ensures EveryNonBlank(es) ==> NonBlankString(Get(sections, k)) {
        var j :| 0 <= j < |sections.keys| && sections.keys[j] == k;
        assert es[j].1 == Get(sections, k);
      }
      if forall k :: k in sections.keys ==> NonBlankString(Get(sections, k)) {
        forall j | 0 <= j < |es| ensures NonBlankString(es[j].1) {
          assert es[j].1 == Get(sections, sections.keys[j]);
        }
      }
    }
  }

  // ---- getAnalysisStats ----

  /** `Object.values(results)`. */
  function ValuesOf(results: Val): (vs: seq<Val>)
    ensures |vs| == |KeysOf(results)|
  {
    var ks := KeysOf(results);
    seq(|ks|, j requires 0 <= j < |ks| => Get(results, ks[j]))
  }

  /** A result whose first value can be read (`result.values[0].value`
      throws on a missing result or a missing first value). */
  predicate Readable(result: Val) {
    !IsNullish(result) &&
    (Get(result, "values").Arr? && |Get(result, "values").items| > 0 ==> !IsNullish(Get(result, "values").items[0]))
  }

  /** `result.values && result.values.length > 0 && result.values[0].value`
      for an array of values. */
  predicate Succeeded(result: Val) {
    var vs := Get(result, "values");
    vs.Arr? && |vs.items| > 0 && Truthy(Get(vs.items[0], "value"))
  }

  function CountSucceeded(vs: seq<Val>): (n: nat)
    ensures n <= |vs|
  {
    if vs == [] then 0 else (if Succeeded(vs[0]) then 1 else 0) + CountSucceeded(vs[1..])
  }

  datatype Stats = Stats(total: nat, successful: nat, failed: int, successRate: real)

  /** `getAnalysisStats`. */
  function AnalysisStats(results: Val): Stats
    requires results.Obj? && forall j :: 0 <= j < |ValuesOf(results)| ==> Readable(ValuesOf(results)[j])
  {
    var total := |results.keys|;
    var successful := CountSucceeded(ValuesOf(results));
    Stats(total, successful, total - successful,
          if total > 0 then (successful as real / total as real) * 100.0 else 0.0)
  }

  lemma Ratio(a: nat, b: nat)
    requires a <= b && 0 < b
    ensures 0.0 <= a as real / b as real <= 1.0
    ensures a as real / b as real == 1.0 <==> a == b
  {
    var x, y := a as real, b as real;
    var q := x / y;
    assert q * y == x;
    if q == 1.0 {
      assert x == y;
    }
  }

  /** The successful results are among the results, the failed ones are the
      rest, and the success rate is a percentage, 0 for no results. */
  lemma StatsBounds(results: Val)
    requires results.Obj? && forall j :: 0 <= j < |ValuesOf(results)| ==> Readable(ValuesOf(results)[j])
    ensures var s := AnalysisStats(results);
      s.total == |results.keys| &&
      0 <= s.successful <= s.total && s.failed == s.total - s.successful && s.failed >= 0 &&
      (s.total == 0 ==> s.successRate == 0.0) &&
      0.0 <= s.successRate <= 100.0 &&
      (s.successRate == 100.0 <==> s.total > 0 && s.failed == 0)
  {
    var s := AnalysisStats(results);
    if s.total > 0 {
      Ratio(s.successful, s.total);
    }
  }

  // ---- analyzeResultsByType ----

  /** `result.type || 'unknown'`, as a key of `typeStats`. */
  function TypeKey(result: Val): string {
    ToKey(Or(Get(result, "type"), Str("unknown")))
  }

  /** The count and the successes of one type; the average confidence is
      not modelled. */
  datatype TypeStat = TypeStat(count: nat, successful: nat)

  /** The number of the first `n` results of type `t`. */
  function CountType(vs: seq<Val>, t: string, n: nat): nat
    requires n <= |vs|
  {
    if n == 0 then 0 else CountType(vs, t, n - 1) + (if TypeKey(vs[n - 1]) == t then 1 else 0)
  }

  /** The number of the first `n` results of type `t` that succeeded. */
  function CountTypeSucceeded(vs: seq<Val>, t: string, n: nat): nat
    requires n <= |vs|
  {
    if n == 0 then 0
    else CountTypeSucceeded(vs, t, n - 1) + (if TypeKey(vs[n - 1]) == t && Succeeded(vs[n - 1]) then 1 else 0)
  }

  /** The per-type statistics after the first `n` results, as seen at `t`. */
  predicate TalliedAt(stats: map<string, TypeStat>, vs: seq<Val>, n: nat, t: string)
    requires n <= |vs|
  {
    (t in stats ==>
      stats[t].count == CountType(vs, t, n) && stats[t].successful == CountTypeSucceeded(vs, t, n)) &&
    (t !in stats ==> CountType(vs, t, n) == 0)
  }

  /** The successes of a type are among its results. */
  lemma {:induction false} SucceededAmongType(vs: seq<Val>, t: string, n: nat)
    requires n <= |vs|
    ensures CountTypeSucceeded(vs, t, n) <= CountType(vs, t, n)
  {
    if n > 0 {
      SucceededAmongType(vs, t, n - 1);
    }
  }

  /** The sum of the counts of `types`. */
  function SumCounts(stats: map<string, TypeStat>, types: seq<string>): nat {
    if types == [] then 0
    else (if types[0] in stats then stats[types[0]].count else 0) + SumCounts(stats, types[1..])
  }

  lemma {:induction false} SumCountsAppend(stats: map<string, TypeStat>, types: seq<string>, t: string)
    ensures SumCounts(stats, types + [t]) == SumCounts(stats, types) + (if t in stats then stats[t].count else 0)
  {
    if types != [] {
      SumCountsAppend(stats, types[1..], t);
      assert (types + [t])[1..] == types[1..] + [t];
    } else {
      assert [t][1..] == [];
    }
  }

  /** Changing the entry of a type the list does not name leaves the sum alone. */
  lemma {:induction false} SumCountsOther(stats: map<string, TypeStat>, types: seq<string>, t: string, x: TypeStat)
    requires t !in types
    ensures SumCounts(stats[t := x], types) == SumCounts(stats, types)
  {
    if types != [] {
      SumCountsOther(stats, types[1..], t, x);
    }
  }

  /** Counting one more of a type listed once adds one to the sum. */
  lemma {:induction false} SumCountsBump(stats: map<string, TypeStat>, types: seq<string>, t: string, x: TypeStat)
    requires Distinct(types) && t in types && t in stats && x.count == stats[t].count + 1
    ensures SumCounts(stats[t := x], types) == SumCounts(stats, types) + 1
  {
    if types[0] == t {
      assert t !in types[1..] by {
        forall j | 0 <= j < |types[1..]| ensures types[1..][j] != t {
          assert types[1..][j] == types[j + 1];
        }
      }
      SumCountsOther(stats, types[1..], t, x);
    } else {
      assert Distinct(types[1..]) by {
        forall a, b | 0 <= a < b < |types[1..]| ensures types[1..][a] != types[1..][b] {
          assert types[1..][a] == types[a + 1] && types[1..][b] == types[b + 1];
        }
      }
      SumCountsBump(stats, types[1..], t, x);
    }
  }

  /** One result counted under type `t`: a new type goes last with a fresh
      record; its count goes up by one, its successes when `success`. */
  method Tally(types: seq<string>, stats: map<string, TypeStat>, t: string, success: bool)
    returns (types': seq<string>, stats': map<string, TypeStat>)
    requires Distinct(types) && forall u :: u in stats <==> u in types
    ensures Distinct(types') && forall u :: u in stats' <==> u in types'
    ensures t in stats'
    ensures stats'[t].count == (if t in stats then stats[t].count else 0) + 1
    ensures stats'[t].successful == (if t in stats then stats[t].successful else 0) + (if success then 1 else 0)
    ensures forall u :: u != t ==> (u in stats' <==> u in stats) && (u in stats ==> stats'[u] == stats[u])
    ensures SumCounts(stats', types') == SumCounts(stats, types) + 1
  {
    types', stats' := types, stats;
    if t !in stats' {
      SumCountsOther(stats', types', t, TypeStat(0, 0));
      SumCountsAppend(stats'[t := TypeStat(0, 0)], types', t);
      DistinctAppend(types', t);
      stats' := stats'[t := TypeStat(0, 0)];
      types' := types' + [t];
    }
    var s := stats'[t];
    var bumped := TypeStat(s.count + 1, if success then s.successful + 1 else s.successful);
    SumCountsBump(stats', types', t, bumped);
    stats' := stats'[t := bumped];
  }

  lemma TallyStep(stats: map<string, TypeStat>, stats': map<string, TypeStat>, vs: seq<Val>, i: nat, n: nat)
    requires n == i + 1 <= |vs|
    requires forall t :: TalliedAt(stats, vs, i, t)
    requires var t := TypeKey(vs[i]);
      t in stats' &&
      stats'[t].count == (if t in stats then stats[t].count else 0) + 1 &&
      stats'[t].successful == (if t in stats then stats[t].successful else 0) + (if Succeeded(vs[i]) then 1 else 0)
    requires forall u :: u != TypeKey(vs[i]) ==> (u in stats' <==> u in stats) && (u in stats ==> stats'[u] == stats[u])
    ensures forall t :: TalliedAt(stats', vs, n, t)
  {
    forall t ensures TalliedAt(stats', vs, n, t) {
      assert TalliedAt(stats, vs, i, t);
      SucceededAmongType(vs, t, i);
      assert CountType(vs, t, n) == CountType(vs, t, i) + (if TypeKey(vs[i]) == t then 1 else 0);
      assert CountTypeSucceeded(vs, t, n)
        == CountTypeSucceeded(vs, t, i) + (if TypeKey(vs[i]) == t && Succeeded(vs[i]) then 1 else 0);
    }
  }

  /** `analyzeResultsByType`: the types that occur, each once, and per type
      how many results have it and how many of those succeeded.
      Every result is counted under exactly one type, so the counts add up
      to the number of results. */
  method AnalyzeResultsByType(results: Val) returns (types: seq<string>, stats: map<string, TypeStat>)
    requires forall j :: 0 <= j < |ValuesOf(results)| ==> Readable(ValuesOf(results)[j])
    ensures Distinct(types)
    ensures forall t :: t in stats <==> t in types
    ensures forall t :: TalliedAt(stats, ValuesOf(results), |ValuesOf(results)|, t)
    ensures SumCounts(stats, types) == |ValuesOf(results)|
  {
    var vs := ValuesOf(results);
    types, stats := [], map[];
    var i := 0;
    while i < |vs|
      invariant i <= |vs|
      invariant Distinct(types)
      invariant forall t :: t in stats <==> t in types
      invariant forall t :: TalliedAt(stats, vs, i, t)
      invariant SumCounts(stats, types) == i
    {
      var result := vs[i];
      var types', stats' := Tally(types, stats, TypeKey(result), Succeeded(result));
      TallyStep(stats, stats', vs, i, i + 1);
      types, stats := types', stats';
      i := i + 1;
    }
  }

  lemma DistinctAppend(ks: seq<string>, k: string)
    requires Distinct(ks) && k !in ks
    ensures Distinct(ks + [k])
  {
    forall a, b | 0 <= a < b < |ks + [k]| ensures (ks + [k])[a] != (ks + [k])[b] {
      if b == |ks| {
        assert (ks + [k])[a] == ks[a];
      }
    }
  }
}
