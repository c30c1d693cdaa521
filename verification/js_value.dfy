/**
 The JavaScript values the engine manipulates: parsed oracle replies, task
 objects, action payloads and the accumulated result context. Numbers are
 integers (no NaN, no fractions); an object is its own properties in
 creation order, each key present once.
 */
module JsValue {
  import opened Outcomes

  datatype Value =
    | Undefined
    | Null
    | Bool(b: bool)
    | Num(n: int)
    | Str(s: string)
    | Arr(elems: seq<Value>)
    | Obj(entries: seq<(string, Value)>)

  /** An object's own properties, in creation order. */
  type Entries = seq<(string, Value)>

  /** A thrown error: `name` and `message` as an `Error` object carries them. */
  datatype JsError = JsError(name: string, message: string)

  /** How a statement that may throw completed. */
  datatype Completion = Normal | Thrown(error: JsError)

  function Error(message: string): JsError { JsError("Error", message) }

  function TypeError(message: string): JsError { JsError("TypeError", message) }

  /** `String(e)` for an error (Error.prototype.toString). */
  function ErrorText(e: JsError): (r: string)
    ensures e.name != "" && e.message != "" ==> r == e.name + ": " + e.message
    ensures e.message == "" ==> r == e.name
    ensures e.name == "" ==> r == e.message
  {
    if e.message == "" then e.name
    else if e.name == "" then e.message
    else e.name + ": " + e.message
  }

  // ---------------------------------------------------------------------------
  // Truthiness and typeof
  // ---------------------------------------------------------------------------

  /** JavaScript's ToBoolean: `0`, `""`, `false`, `null` and `undefined` are falsy. */
  predicate Truthy(v: Value) {
    match v
    case Undefined => false
    case Null => false
    case Bool(b) => b
    case Num(n) => n != 0
    case Str(s) => s != ""
    case Arr(_) => true
    case Obj(_) => true
  }

  predicate IsNullish(v: Value) {
    v.Undefined? || v.Null?
  }

  /** `typeof v === 'object'`, which holds for `null` and for arrays too. */
  predicate TypeofObject(v: Value) {
    v.Null? || v.Arr? || v.Obj?
  }

  /** A non-null object (a plain object or an array): what `in` and property assignment accept. */
  predicate IsObject(v: Value) {
    v.Arr? || v.Obj?
  }

  /** The name `typeof` gives a primitive, as it appears in TypeError messages. */
  function TypeofName(v: Value): string {
    match v
    case Undefined => "undefined"
    case Bool(_) => "boolean"
    case Num(_) => "number"
    case Str(_) => "string"
    case _ => "object"
  }

  /** `a || b` */
  function Or(a: Value, b: Value): (r: Value)
    ensures Truthy(r) <==> Truthy(a) || Truthy(b)
    ensures Truthy(a) ==> r == a
  {
    if Truthy(a) then a else b
  }

  // ---------------------------------------------------------------------------
  // Decimal numerals and array-index keys
  // ---------------------------------------------------------------------------

  predicate IsDigit(c: char) {
    '0' <= c <= '9'
  }

  predicate AllDigits(s: string) {
    forall i | 0 <= i < |s| :: IsDigit(s[i])
  }

  /** The number a string of decimal digits denotes. */
  function DigitsValue(s: string): nat
    requires AllDigits(s)
  {
    if s == [] then 0
    else DigitsValue(s[..|s| - 1]) * 10 + (s[|s| - 1] as int - '0' as int)
  }

  /** A canonical numeral below 2^32 - 1: the keys JavaScript treats as array indices. */
  predicate IsArrayIndex(k: string) {
    && |k| > 0
    && AllDigits(k)
    && (k[0] != '0' || |k| == 1)
    && DigitsValue(k) < 0xFFFF_FFFF
  }

  function DigitChar(d: nat): (c: char)
    requires d < 10
    ensures IsDigit(c) && c as int - '0' as int == d
  {
    (d + '0' as int) as char
  }

  /** The canonical decimal numeral of `n`. */
  function NatToString(n: nat): (r: string)
    ensures |r| > 0 && AllDigits(r)
    ensures r[0] != '0' || |r| == 1
    ensures DigitsValue(r) == n
  {
    if n < 10 then [DigitChar(n)]
    else
      var prefix := NatToString(n / 10);
      var r := prefix + [DigitChar(n % 10)];
      assert r[..|r| - 1] == prefix;
      r
  }

  /** `String(n)` for an integral number. */
  function IntToString(n: int): string {
    if n < 0 then "-" + NatToString(-n) else NatToString(n)
  }

  // ---------------------------------------------------------------------------
  // Property reads
  // ---------------------------------------------------------------------------

  /** The keys of an object's own properties, in order. */
  function Keys(es: Entries): (ks: seq<string>)
    ensures |ks| == |es|
    ensures forall i | 0 <= i < |es| :: ks[i] == es[i].0
  {
    if es == [] then [] else [es[0].0] + Keys(es[1..])
  }

  predicate HasKey(es: Entries, k: string) {
    k in Keys(es)
  }

  /** The value of own property `k`, if the object has one. */
  function Lookup(es: Entries, k: string): (r: Option<Value>)
    ensures r.Some? <==> HasKey(es, k)
    ensures r.Some? ==> (k, r.value) in es
  {
    if es == [] then None
    else if es[0].0 == k then Some(es[0].1)
    else Lookup(es[1..], k)
  }

  /**
   `v[k]` on a value that is not null or undefined. Plain objects have their
   own entries; arrays and strings have `length` and their indices; other
   primitives have no own data properties.
   */
  function Member(v: Value, k: string): Value {
    match v
    case Obj(es) => (match Lookup(es, k) case Some(x) => x case None => Undefined)
    case Arr(xs) =>
      if k == "length" then Num(|xs|)
      else if IsArrayIndex(k) && DigitsValue(k) < |xs| then xs[DigitsValue(k)]
      else Undefined
    case Str(s) =>
      if k == "length" then Num(|s|)
      else if IsArrayIndex(k) && DigitsValue(k) < |s| then Str([s[DigitsValue(k)]])
      else Undefined
    case _ => Undefined
  }

  /** The TypeError reading property `k` of null or undefined `v` throws. */
  function CannotRead(v: Value, k: string): JsError {
    TypeError("Cannot read properties of " + ToJsString(v) + " (reading '" + k + "')")
  }

  /** `v.k`, which throws a TypeError when `v` is null or undefined. */
  function GetProp(v: Value, k: string): (r: Result<Value, JsError>)
    ensures r.Err? <==> IsNullish(v)
    ensures r.Err? ==> r.error == CannotRead(v, k)
    ensures r.Ok? ==> r.value == Member(v, k)
    ensures v.Obj? && r.Ok? ==> (r.value != Undefined ==> HasKey(v.entries, k))
  {
    if IsNullish(v) then Err(CannotRead(v, k))
    else Ok(Member(v, k))
  }

  /** `v?.k`: undefined when `v` is null or undefined. */
  function OptionalMember(v: Value, k: string): (r: Value)
    ensures IsNullish(v) ==> r == Undefined
    ensures !IsNullish(v) ==> r == Member(v, k)
  {
    if IsNullish(v) then Undefined else Member(v, k)
  }

  /** `k in v`, which throws a TypeError unless `v` is an object or array. */
  function HasProperty(v: Value, k: string): (r: Result<bool, JsError>)
    ensures r.Err? <==> !IsObject(v)
    ensures v.Obj? ==> r == Ok(HasKey(v.entries, k))
    ensures r == Ok(false) ==> Member(v, k) == Undefined
  {
    match v
    case Obj(es) => Ok(HasKey(es, k))
    case Arr(xs) => Ok(k == "length" || (IsArrayIndex(k) && DigitsValue(k) < |xs|))
    case _ => Err(TypeError("Cannot use 'in' operator to search for '" + k + "' in " + ToJsString(v)))
  }

  // ---------------------------------------------------------------------------
  // Property writes and object spread
  // ---------------------------------------------------------------------------

  /** `o[k] = v` on a plain object: an existing key keeps its place, a new key goes last. */
  function Put(es: Entries, k: string, v: Value): (r: Entries)
    ensures Lookup(r, k) == Some(v)
    ensures forall k' :: k' != k ==> Lookup(r, k') == Lookup(es, k')
  {
    if es == [] then [(k, v)]
    else if es[0].0 == k then [(k, v)] + es[1..]
    else [es[0]] + Put(es[1..], k, v)
  }

  /** The entries `{...v}` copies out of `v`. */
  function SpreadSource(v: Value): Entries {
    match v
    case Obj(es) => es
    case Arr(xs) => seq(|xs|, i requires 0 <= i < |xs| => (NatToString(i), xs[i]))
    case Str(s) => seq(|s|, i requires 0 <= i < |s| => (NatToString(i), Str([s[i]])))
    case _ => []
  }

  /** Entries of `a`, each taking `b`'s value when `b` has the same key. */
  function Overwrite(a: Entries, b: Entries): (r: Entries)
    ensures Keys(r) == Keys(a)
  {
    if a == [] then []
    else
      var v := match Lookup(b, a[0].0) case Some(x) => x case None => a[0].1;
      [(a[0].0, v)] + Overwrite(a[1..], b)
  }

  /** Entries of `b` whose key `a` lacks, in `b`'s order. */
  function Additions(b: Entries, a: Entries): Entries {
    if b == [] then []
    else if HasKey(a, b[0].0) then Additions(b[1..], a)
    else [b[0]] + Additions(b[1..], a)
  }

  /** The entries of `{...a, ...b}`: `a`'s keys first, then `b`'s new keys. */
  function Spread(a: Entries, b: Entries): (r: Entries)
    ensures forall k :: Lookup(r, k) == (if HasKey(b, k) then Lookup(b, k) else Lookup(a, k))
  {
    var r := Overwrite(a, b) + Additions(b, a);
    forall k ensures Lookup(r, k) == (if HasKey(b, k) then Lookup(b, k) else Lookup(a, k)) {
      LookupConcat(Overwrite(a, b), Additions(b, a), k);
      LookupOverwrite(a, b, k);
      LookupAdditions(b, a, k);
    }
    r
  }

  lemma {:induction false} LookupConcat(x: Entries, y: Entries, k: string)
    ensures Lookup(x + y, k) == if HasKey(x, k) then Lookup(x, k) else Lookup(y, k)
  {
    if x != [] {
      assert (x + y)[1..] == x[1..] + y;
      LookupConcat(x[1..], y, k);
    } else {
      assert x + y == y;
    }
  }

  lemma {:induction false} LookupOverwrite(a: Entries, b: Entries, k: string)
    ensures Lookup(Overwrite(a, b), k) ==
      if !HasKey(a, k) then None
      else if HasKey(b, k) then Lookup(b, k)
      else Lookup(a, k)
  {
    if a != [] {
      LookupOverwrite(a[1..], b, k);
    }
  }

  lemma {:induction false} LookupAdditions(b: Entries, a: Entries, k: string)
    ensures Lookup(Additions(b, a), k) == if HasKey(a, k) then None else Lookup(b, k)
  {
    if b != [] {
      LookupAdditions(b[1..], a, k);
    }
  }

  // ---------------------------------------------------------------------------
  // Object.values order
  // ---------------------------------------------------------------------------

  /** Position of the entry whose key is the smallest array index, if any key is one. */
  function MinIndexPos(es: Entries): (r: Option<nat>)
    ensures r.Some? ==> r.value < |es| && IsArrayIndex(es[r.value].0)
    ensures r.Some? ==> forall j | 0 <= j < |es| && IsArrayIndex(es[j].0) ::
      DigitsValue(es[r.value].0) <= DigitsValue(es[j].0)
    ensures r.None? ==> forall j | 0 <= j < |es| :: !IsArrayIndex(es[j].0)
  {
    if es == [] then None
    else
      var rest := MinIndexPos(es[1..]);
      if !IsArrayIndex(es[0].0) then
        (if rest.Some? then Some(rest.value + 1) else None)
      else if rest.Some? && DigitsValue(es[rest.value + 1].0) < DigitsValue(es[0].0) then
        Some(rest.value + 1)
      else Some(0)
  }

  /**
   `Object.values(o)[0]` for a plain object: own keys enumerate array indices
   in ascending order first, then the other keys in creation order.
   */
  function FirstOwnValue(es: Entries): (r: Option<Value>)
    ensures r.None? <==> es == []
    ensures (forall j | 0 <= j < |es| :: !IsArrayIndex(es[j].0)) && es != [] ==> r == Some(es[0].1)
    ensures r.Some? && (exists j | 0 <= j < |es| :: IsArrayIndex(es[j].0)) ==>
      exists p | 0 <= p < |es| :: IsArrayIndex(es[p].0) && r.value == es[p].1 &&
        forall j | 0 <= j < |es| && IsArrayIndex(es[j].0) :: DigitsValue(es[p].0) <= DigitsValue(es[j].0)
  {
    match MinIndexPos(es)
    case Some(p) => Some(es[p].1)
    case None => if es == [] then None else Some(es[0].1)
  }

  // ---------------------------------------------------------------------------
  // String conversion
  // ---------------------------------------------------------------------------

  /** The strings of `parts` with `sep` between neighbours (Array.prototype.join). */
  function Join(parts: seq<string>, sep: string): (r: string)
    ensures parts == [] ==> r == ""
    ensures |parts| == 1 ==> r == parts[0]
  {
    if parts == [] then ""
    else if |parts| == 1 then parts[0]
    else parts[0] + sep + Join(parts[1..], sep)
  }

  /** `String(v)`, as a template literal `${v}` renders it. */
  function ToJsString(v: Value): string
    decreases v, 1
  {
    match v
    case Undefined => "undefined"
    case Null => "null"
    case Bool(b) => if b then "true" else "false"
    case Num(n) => IntToString(n)
    case Str(s) => s
    case Obj(_) => "[object Object]"
    case Arr(xs) => Join(ElementTexts(xs, v), ",")
  }

  /** Array.prototype.toString renders null and undefined elements as empty strings. */
  function ElementTexts(xs: seq<Value>, ghost whole: Value): (r: seq<string>)
    requires forall i | 0 <= i < |xs| :: xs[i] < whole
    ensures |r| == |xs|
    decreases whole, 0, |xs|
  {
    if xs == [] then []
    else
      var head := xs[0];
      assert head < whole;
      [if IsNullish(head) then "" else ToJsString(head)] + ElementTexts(xs[1..], whole)
  }

  /** `s.includes(sub)` */
  predicate Contains(s: string, sub: string) {
    exists i | 0 <= i <= |s| - |sub| :: OccursAt(s, sub, i)
  }

  predicate OccursAt(s: string, sub: string, i: int) {
    0 <= i <= |s| - |sub| && s[i..i + |sub|] == sub
  }

  /** `s.startsWith(p)` */
  predicate StartsWith(s: string, p: string) {
    |p| <= |s| && s[..|p|] == p
  }

  /** `s.endsWith(p)` */
  predicate EndsWith(s: string, p: string) {
    |p| <= |s| && s[|s| - |p|..] == p
  }

  lemma DigitsRoundTrip(n: nat)
    ensures IsArrayIndex(NatToString(n)) <==> n < 0xFFFF_FFFF
    ensures DigitsValue(NatToString(n)) == n
  {
  }
}
