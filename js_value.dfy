/** JavaScript values as the application sees them after JSON parsing.
    An object is its own keys in `Object.keys` order together with the
    property map; several rules depend on that order (the first key, the
    first five parts, the single key). */
module JsValue {
  import opened Wrappers
  import opened JsString

  /** A JavaScript value. Numbers are exact reals; NaN and the infinities are
      not represented (the places that could produce one are modelled as
      producing `Null`, which is what they serialise to). */
  datatype Val =
    | Undef
    | Null
    | Bool(b: bool)
    | Num(n: real)
    | Str(s: string)
    | Arr(items: seq<Val>)
    | Obj(keys: seq<string>, props: map<string, Val>)

  /** `{}`. */
  const EMPTY: Val := Obj([], map[])

  predicate Distinct(ks: seq<string>) {
    forall i, j :: 0 <= i < j < |ks| ==> ks[i] != ks[j]
  }

  /** An object as JavaScript builds it: every property listed once, in order. */
  predicate WellFormed(v: Val) {
    v.Obj? ==>
      Distinct(v.keys) &&
      (forall k :: k in v.keys ==> k in v.props) &&
      (forall k :: k in v.props ==> k in v.keys)
  }

  /** The property map of an object; empty for every other value. */
  function Props(v: Val): map<string, Val> {
    if v.Obj? then v.props else map[]
  }

  /** `v[k]`; `undefined` for a missing key and for a value that is not an object. */
  function Get(v: Val, k: string): Val {
    if k in Props(v) then Props(v)[k] else Undef
  }

  /** `k in v` for an object `v`. */
  predicate Has(v: Val, k: string) {
    k in Props(v)
  }

  /** `Object.keys(v)`. */
  function KeysOf(v: Val): seq<string> {
    if v.Obj? then v.keys else []
  }

  /** `Object.keys(v).length`: the properties of an object, the indices of an
      array or a string, none for the other values. */
  function KeyCount(v: Val): (r: nat)
    ensures v.Obj? ==> r == |v.keys|
    ensures v.Arr? ==> r == |v.items|
  {
    match v
    case Obj(ks, _) => |ks|
    case Arr(xs) => |xs|
    case Str(s) => |s|
    case _ => 0
  }

  /** `{...v, [k]: x}`: an existing key keeps its place, a new one goes last. */
  function With(v: Val, k: string, x: Val): (r: Val)
    ensures r.Obj? && Get(r, k) == x
    ensures forall k' :: k' != k ==> Get(r, k') == Get(v, k')
    ensures forall k' :: Has(r, k') <==> k' == k || Has(v, k')
    ensures KeysOf(r) == if Has(v, k) then KeysOf(v) else KeysOf(v) + [k]
  {
    Obj(if Has(v, k) then KeysOf(v) else KeysOf(v) + [k], Props(v)[k := x])
  }

  lemma WithWellFormed(v: Val, k: string, x: Val)
    requires v.Obj? && WellFormed(v)
    ensures WellFormed(With(v, k, x))
  {
    var r := With(v, k, x);
    if !Has(v, k) {
      assert k !in v.keys;
      forall i, j | 0 <= i < j < |r.keys| ensures r.keys[i] != r.keys[j] {
        if j == |v.keys| {
          assert r.keys[i] == v.keys[i];
        }
      }
    }
  }

  /** The keys of `ks` that `m` does not have, in order. */
  function Missing(ks: seq<string>, m: map<string, Val>): seq<string> {
    if ks == [] then []
    else if ks[0] in m then Missing(ks[1..], m)
    else [ks[0]] + Missing(ks[1..], m)
  }

  lemma {:induction false} MissingSpec(ks: seq<string>, m: map<string, Val>)
    ensures forall k :: k in Missing(ks, m) <==> k in ks && k !in m
    ensures Distinct(ks) ==> Distinct(Missing(ks, m))
  {
    if ks != [] {
      MissingSpec(ks[1..], m);
      assert Distinct(ks) ==> forall j :: 0 <= j < |ks[1..]| ==> ks[1..][j] != ks[0];
      assert forall k :: k in ks <==> k == ks[0] || k in ks[1..];
    }
  }

  /** `{...a, ...b}`: the properties of `b` written over those of `a`; a key
      of `a` keeps its place, the new keys of `b` follow in `b`'s order. */
  function Spread(a: Val, b: Val): (r: Val)
    ensures r.Obj?
    ensures forall k :: Get(r, k) == if Has(b, k) then Get(b, k) else Get(a, k)
    ensures forall k :: Has(r, k) <==> Has(a, k) || Has(b, k)
  {
    Obj(KeysOf(a) + Missing(KeysOf(b), Props(a)), Props(a) + Props(b))
  }

  lemma SpreadWellFormed(a: Val, b: Val)
    requires a.Obj? && WellFormed(a) && WellFormed(b)
    ensures WellFormed(Spread(a, b))
  {
    var r := Spread(a, b);
    var extra := Missing(KeysOf(b), Props(a));
    MissingSpec(KeysOf(b), Props(a));
    forall i, j | 0 <= i < j < |r.keys| ensures r.keys[i] != r.keys[j] {
      if j >= |a.keys| {
        if i < |a.keys| {
          assert r.keys[i] in a.keys && r.keys[j] == extra[j - |a.keys|];
        } else {
          assert r.keys[i] == extra[i - |a.keys|] && r.keys[j] == extra[j - |a.keys|];
        }
      }
    }
    forall k ensures k in r.keys <==> k in r.props {
      assert k in r.keys <==> k in a.keys || k in extra;
    }
  }

  /** `delete v[k]` on a copy: the other keys keep their order. */
  function Remove(v: Val, k: string): (r: Val)
    ensures r.Obj? && !Has(r, k)
    ensures forall k' :: k' != k ==> Get(r, k') == Get(v, k')
    ensures forall k' :: k' in KeysOf(r) <==> k' in KeysOf(v) && k' != k
  {
    MissingSpec(KeysOf(v), map[k := Null]);
    Obj(Missing(KeysOf(v), map[k := Null]), Props(v) - {k})
  }

  /** Truthiness: `undefined`, `null`, `false`, `0` and `''` are falsy. */
  predicate Truthy(v: Val) {
    match v
    case Undef => false
    case Null => false
    case Bool(b) => b
    case Num(n) => n != 0.0
    case Str(s) => s != []
    case _ => true
  }

  /** `a || b`. */
  function Or(a: Val, b: Val): (r: Val)
    ensures Truthy(a) ==> r == a
    ensures !Truthy(a) ==> r == b
  {
    if Truthy(a) then a else b
  }

  /** `a && b`. */
  function And(a: Val, b: Val): (r: Val)
    ensures Truthy(a) ==> r == b
    ensures !Truthy(a) ==> r == a
  {
    if Truthy(a) then b else a
  }

  predicate IsNullish(v: Val) {
    v.Undef? || v.Null?
  }

  /** `a ?? b`. */
  function Coalesce(a: Val, b: Val): (r: Val)
    ensures !IsNullish(a) ==> r == a
    ensures IsNullish(a) ==> r == b
  {
    if IsNullish(a) then b else a
  }

  /** The message of the `TypeError` thrown when reading `v[key]` on a
      `null` or `undefined` value `v`. */
  function ReadError(v: Val, key: string): string {
    "Cannot read properties of " + (if v.Null? then "null" else "undefined") + " (reading '" + key + "')"
  }

  /** `typeof v`. */
  function TypeOf(v: Val): string {
    match v
    case Undef => "undefined"
    case Bool(_) => "boolean"
    case Num(_) => "number"
    case Str(_) => "string"
    case _ => "object"
  }

  /** `String(v)`. */
  function ToStr(v: Val): string
    decreases v
  {
    match v
    case Undef => "undefined"
    case Null => "null"
    case Bool(b) => if b then "true" else "false"
    case Num(n) => NumberToString(n)
    case Str(s) => s
    case Obj(_, _) => "[object Object]"
    case Arr(xs) =>
      Join(seq(|xs|, i requires 0 <= i < |xs| => if IsNullish(xs[i]) then "" else ToStr(xs[i])), ",")
  }

  /** The property key a value is converted to when used as `obj[v]`. */
  function ToKey(v: Val): (r: string)
    ensures v.Str? ==> r == v.s
  {
    ToStr(v)
  }

  /** `Number(v)`, `None` standing for NaN. Numeric strings other than the
      blank one are not parsed. */
  function ToNumber(v: Val): (r: Option<real>)
    ensures v.Num? ==> r == Some(v.n)
    ensures IsNullish(v) ==> (r.Some? <==> v.Null?)
  {
    match v
    case Null => Some(0.0)
    case Bool(b) => Some(if b then 1.0 else 0.0)
    case Num(n) => Some(n)
    case Str(s) => if Trim(s) == [] then Some(0.0) else None
    case Arr(xs) => if xs == [] then Some(0.0) else None
    case _ => None
  }

  /** The number `n` as a value. */
  function N(n: int): Val {
    Num(n as real)
  }

  /** `a > b`: two strings compare by their characters, anything else as
      numbers, a comparison with NaN being false. */
  predicate Gt(a: Val, b: Val) {
    if a.Str? && b.Str? then StrLess(b.s, a.s)
    else
      var x, y := ToNumber(a), ToNumber(b);
      x.Some? && y.Some? && x.value > y.value
  }

  /** `a >= b`, with the same conversions as `Gt`. */
  predicate Ge(a: Val, b: Val) {
    if a.Str? && b.Str? then !StrLess(a.s, b.s)
    else
      var x, y := ToNumber(a), ToNumber(b);
      x.Some? && y.Some? && x.value >= y.value
  }

  /** The values of an array value; `[]` for anything else. */
  function ItemsOf(v: Val): seq<Val> {
    if v.Arr? then v.items else []
  }

  /** The entries `Object.entries(v)` lists: the properties of an object, the
      indices of an array or a string, none for the other values. */
  function Entries(v: Val): (r: seq<(string, Val)>)
    ensures |r| == KeyCount(v)
  {
    match v
    case Obj(ks, _) => seq(|ks|, i requires 0 <= i < |ks| => (ks[i], Get(v, ks[i])))
    case Arr(xs) => seq(|xs|, i requires 0 <= i < |xs| => (NatToString(i), xs[i]))
    case Str(t) => seq(|t|, i requires 0 <= i < |t| => (NatToString(i), Str([t[i]])))
    case _ => []
  }

  /** `xs.join(sep)`: `null` and `undefined` items become empty. */
  function JoinItems(xs: seq<Val>, sep: string): string {
    Join(seq(|xs|, i requires 0 <= i < |xs| => if IsNullish(xs[i]) then "" else ToStr(xs[i])), sep)
  }

  /** `JSON.stringify(v)` in its compact form; the entries whose value is
      `undefined` are skipped. */
  function Serialize(v: Val): string
    decreases v
  {
    match v
    case Undef => "null"
    case Null => "null"
    case Bool(b) => if b then "true" else "false"
    case Num(n) => NumberToString(n)
    case Str(s) => Quote(s)
    case Arr(xs) =>
      "[" + Join(seq(|xs|, i requires 0 <= i < |xs| => Serialize(xs[i])), ",") + "]"
    case Obj(ks, m) =>
      var members := seq(|ks|, i requires 0 <= i < |ks| =>
        if ks[i] !in m || m[ks[i]].Undef? then "" else Quote(ks[i]) + ":" + Serialize(m[ks[i]]));
      "{" + Join(NonEmpty(members), ",") + "}"
  }

  /** The non-empty strings of `xs`, in order. */
  function NonEmpty(xs: seq<string>): (r: seq<string>)
    ensures |r| <= |xs|
    ensures forall i :: 0 <= i < |r| ==> r[i] != ""
  {
    if xs == [] then []
    else if xs[0] == "" then NonEmpty(xs[1..])
    else [xs[0]] + NonEmpty(xs[1..])
  }

  /** A JSON string literal: quote, backslash and the common control characters escaped. */
  function Quote(s: string): string {
    "\"" + Escape(s) + "\""
  }

  function Escape(s: string): string {
    if s == [] then []
    else
      var c := s[0];
      var e := if c == '"' then "\\\"" else if c == '\\' then "\\\\"
        else if c == '\n' then "\\n" else if c == '\r' then "\\r"
        else if c == '\t' then "\\t" else [c];
      e + Escape(s[1..])
  }
}
