/** JSON values as the handler sees them after `express.json()` has parsed
    the request, together with the three JavaScript operations the handler
    applies to them: truthiness (`if (x)`, `x || y`), conversion to a
    string (template literals and `Array.prototype.join`) and property
    access (`a.b`, `a[0]`), which throws a TypeError on `undefined` and
    `null`. */
module JsValue {
  import opened Wrappers
  import opened Text

  datatype Json =
    | JNull
    | JBool(b: bool)
    | JNum(n: int)
    | JStr(s: string)
    | JArr(elems: seq<Json>)
    | JObj(fields: map<string, Json>)

  /** `m[key]` on a plain object: `undefined` when the key is absent. */
  function Lookup(m: map<string, Json>, key: string): Option<Json> {
    if key in m then Some(m[key]) else None
  }

  /** JavaScript's ToBoolean: `undefined`, `null`, `false`, `0` (and `-0`)
      and the empty string are falsy, everything else (including empty
      arrays and objects) is truthy. */
  predicate Truthy(v: Option<Json>) {
    match v
    case None => false
    case Some(JNull) => false
    case Some(JBool(b)) => b
    case Some(JNum(n)) => n != 0
    case Some(JStr(s)) => s != ""
    case Some(JArr(_)) => true
    case Some(JObj(_)) => true
  }

  /** The falsy values, listed: exactly five values are falsy. */
  lemma FalsyValues(v: Option<Json>)
    ensures !Truthy(v) <==> v in {None, Some(JNull), Some(JBool(false)), Some(JNum(0)), Some(JStr(""))}
  {
  }

  function DigitChar(d: nat): (c: char)
    requires d < 10
    ensures '0' <= c <= '9'
  {
    ('0' as int + d) as char
  }

  /** Decimal rendering of a natural number, without leading zeros. */
  function NatToString(n: nat): (s: string)
    ensures |s| >= 1
    ensures forall k :: 0 <= k < |s| ==> '0' <= s[k] <= '9'
    ensures n < 10 <==> |s| == 1
    ensures |s| > 1 ==> s[0] != '0'
  {
    if n < 10 then [DigitChar(n)] else NatToString(n / 10) + [DigitChar(n % 10)]
  }

  function DigitValue(c: char): int {
    c as int - '0' as int
  }

  /** Reads back a string of decimal digits. */
  function ParseNat(s: string): int {
    if |s| == 0 then 0 else ParseNat(s[..|s| - 1]) * 10 + DigitValue(s[|s| - 1])
  }

  lemma {:induction false} ParseNatToString(n: nat)
    ensures ParseNat(NatToString(n)) == n
  {
    var s := NatToString(n);
    if n < 10 {
      assert s[..|s| - 1] == [];
    } else {
      var front := NatToString(n / 10);
      assert s == front + [DigitChar(n % 10)];
      assert s[..|s| - 1] == front;
      ParseNatToString(n / 10);
      assert ParseNat(s) == ParseNat(front) * 10 + DigitValue(DigitChar(n % 10));
    }
  }

  /** `String(n)` for an integer number value: the number reads back from
      its digits, after a minus sign when it is negative. */
  function IntToString(n: int): (s: string)
    ensures n >= 0 ==> |s| >= 1 && s[0] != '-' && ParseNat(s) == n
    ensures n < 0 ==> |s| >= 2 && s[0] == '-' && ParseNat(s[1..]) == -n
  {
    ParseNatToString(if n < 0 then -n else n);
    if n < 0 then
      var s := "-" + NatToString(-n);
      assert s[1..] == NatToString(-n);
      s
    else NatToString(n)
  }

  /** The message of the TypeError that `String(v)` throws when `v` has
      no usable conversion to a primitive. */
  const NoPrimitive: string := "Cannot convert object to primitive value"

  /** Whether `String(v)` returns. A parsed object with a `toString` key of
      its own shadows `Object.prototype.toString` with a value that is not
      callable, and its inherited `valueOf` returns the object itself, so
      the conversion throws; an array converts through `join`, which
      converts every element that is not `null`. */
  predicate Convertible(v: Json) {
    match v
    case JArr(xs) => forall i :: 0 <= i < |xs| ==> Convertible(xs[i])
    case JObj(m) => "toString" !in m
    case _ => true
  }

  /** `String(v)` for a JSON value; an array joins its elements with ",",
      `null` elements becoming empty. */
  function ToString(v: Json): (r: Result<string>)
    ensures r.Success? <==> Convertible(v)
    ensures r.Failure? ==> r.error == NoPrimitive
  {
    match v
    case JNull => Success("null")
    case JBool(b) => Success(if b then "true" else "false")
    case JNum(n) => Success(IntToString(n))
    case JStr(s) => Success(s)
    case JArr(xs) =>
      if forall i :: 0 <= i < |xs| ==> Convertible(xs[i]) then
        Success(Join(seq(|xs|, i requires 0 <= i < |xs| => if xs[i].JNull? then "" else ToString(xs[i]).value), ","))
      else Failure(NoPrimitive)
    case JObj(m) => if "toString" in m then Failure(NoPrimitive) else Success("[object Object]")
  }

  /** `undefined` or `null`: the values a property read throws on. */
  predicate Nullish(v: Option<Json>) {
    v == None || v == Some(JNull)
  }

  /** The key of a property access: `a.name` or `a[index]`. */
  datatype Prop = Name(name: string) | Index(index: nat)

  function PropKey(p: Prop): string {
    match p
    case Name(s) => s
    case Index(i) => NatToString(i)
  }

  /** The message V8 gives the TypeError for reading `p` off `undefined`
      or `null`. */
  function ReadError(what: string, p: Prop): string {
    "Cannot read properties of " + what + " (reading '" + PropKey(p) + "')"
  }

  /** Property access `v.p` / `v[i]`. Arrays and strings answer index
      reads; no named property of theirs, or of numbers and booleans, is
      read by the handler, so those reads give `undefined`. */
  function Get(v: Option<Json>, p: Prop): (r: Result<Option<Json>>)
    ensures r.Failure? <==> Nullish(v)
    ensures r.Failure? ==> r.error == ReadError(if v == None then "undefined" else "null", p)
    ensures (v.Some? && v.value.JObj?) ==> r == Success(Lookup(v.value.fields, PropKey(p)))
  {
    match v
    case None => Failure(ReadError("undefined", p))
    case Some(JNull) => Failure(ReadError("null", p))
    case Some(JObj(m)) => Success(Lookup(m, PropKey(p)))
    case Some(JArr(xs)) =>
      Success(if p.Index? && p.index < |xs| then Some(xs[p.index]) else None)
    case Some(JStr(s)) =>
      Success(if p.Index? && p.index < |s| then Some(JStr([s[p.index]])) else None)
    case Some(_) => Success(None)
  }
}
