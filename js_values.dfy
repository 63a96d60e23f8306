/**
 * JavaScript values as the front end receives them from the JSON API, and the
 * handful of JavaScript coercions its rules depend on: truthiness, `??`,
 * optional chaining, property access that throws on null, `String(v)` and
 * `Array.prototype.join`.
 */
module JsValues {

  /** A value decoded from JSON, plus `undefined` (what an absent key reads as). */
  datatype Json =
    | Undefined
    | Null
    | Bool(b: bool)
    | Num(n: int)
    | Str(s: string)
    | Arr(items: seq<Json>)
    | Obj(fields: map<string, Json>)

  /** The outcome of evaluating an expression that may throw a TypeError. */
  datatype Eval<+T> = Value(value: T) | TypeError

  /** JavaScript truthiness: undefined, null, false, 0 and "" are falsy. */
  predicate Truthy(v: Json) {
    match v
    case Undefined => false
    case Null => false
    case Bool(b) => b
    case Num(n) => n != 0
    case Str(s) => s != ""
    case Arr(_) => true
    case Obj(_) => true
  }

  /** The values `??` and `?.` treat as missing. */
  predicate Nullish(v: Json) {
    v.Undefined? || v.Null?
  }

  /** `r.key` on a record; an absent key reads as undefined. */
  function Field(r: map<string, Json>, key: string): Json {
    if key in r then r[key] else Undefined
  }

  /**
   * `v?.key`. Only records carry the keys this application reads; on a
   * string, number, boolean or array those keys are undefined.
   */
  function OptionalGet(v: Json, key: string): Json {
    if v.Obj? then Field(v.fields, key) else Undefined
  }

  /** `v.key`, which throws a TypeError when `v` is null or undefined. */
  function Get(v: Json, key: string): (r: Eval<Json>)
    ensures r.TypeError? <==> Nullish(v)
    ensures r.Value? ==> r.value == OptionalGet(v, key)
  {
    if Nullish(v) then TypeError else Value(OptionalGet(v, key))
  }

  /** `a ?? b`. */
  function Coalesce(a: Json, b: Json): Json {
    if Nullish(a) then b else a
  }

  /**
   * How the typed part of the model reads a value that the source casts with
   * `as string`: a JSON string is itself, anything else reads as "".
   */
  function AsText(v: Json): string {
    if v.Str? then v.s else ""
  }

  /** The decimal digit character for `d`. */
  function DigitChar(d: nat): char
    requires d < 10
  {
    ('0' as int + d) as char
  }

  /** `String(n)` for a natural number: its decimal digits, most significant first. */
  function NatToDecimal(n: nat): (s: string)
    ensures |s| >= 1
    ensures n < 10 <==> |s| == 1
    ensures s[|s| - 1] == DigitChar(n % 10)
    decreases n
  {
    if n < 10 then [DigitChar(n)] else NatToDecimal(n / 10) + [DigitChar(n % 10)]
  }

  /** `String(n)` for an integer. */
  function IntToDecimal(n: int): string {
    if n < 0 then "-" + NatToDecimal(-n) else NatToDecimal(n)
  }

  /** Distinct numbers print differently. */
  lemma {:induction false} NatToDecimalInjective(a: nat, b: nat)
    requires NatToDecimal(a) == NatToDecimal(b)
    ensures a == b
    decreases a
  {
    var sa, sb := NatToDecimal(a), NatToDecimal(b);
    assert DigitChar(a % 10) == DigitChar(b % 10);
    assert a % 10 == b % 10;
    if a >= 10 {
      assert b >= 10;
      assert NatToDecimal(a / 10) == sa[..|sa| - 1] == sb[..|sb| - 1] == NatToDecimal(b / 10);
      NatToDecimalInjective(a / 10, b / 10);
    }
  }

  /** `parts.join(sep)` for an array of strings. */
  function JoinWith(parts: seq<string>, sep: string): string
    decreases |parts|
  {
    if |parts| == 0 then ""
    else if |parts| == 1 then parts[0]
    else parts[0] + sep + JoinWith(parts[1..], sep)
  }

  /** `String(v)`. An array prints as its elements joined by ",". */
  function ToText(v: Json): string
    decreases v
  {
    match v
    case Undefined => "undefined"
    case Null => "null"
    case Bool(b) => if b then "true" else "false"
    case Num(n) => IntToDecimal(n)
    case Str(s) => s
    case Arr(items) =>
      JoinWith(seq(|items|, i requires 0 <= i < |items| =>
                      var x := items[i];
                      if Nullish(x) then "" else ToText(x)), ",")
    case Obj(_) => "[object Object]"
  }

  /** How `Array.prototype.join` prints one element: null and undefined print as "". */
  function ElementText(x: Json): string {
    if Nullish(x) then "" else ToText(x)
  }

  /** `items.join(sep)` for an array of arbitrary values. */
  function JoinItems(items: seq<Json>, sep: string): string {
    JoinWith(seq(|items|, i requires 0 <= i < |items| => ElementText(items[i])), sep)
  }

  /** `v?.join(sep)`: undefined when `v` is missing, a TypeError when `v` is no array. */
  function OptionalJoin(v: Json, sep: string): (r: Eval<Json>)
    ensures Nullish(v) ==> r == Value(Undefined)
    ensures v.Arr? ==> r == Value(Str(JoinItems(v.items, sep)))
    ensures r.TypeError? <==> !Nullish(v) && !v.Arr?
  {
    if Nullish(v) then Value(Undefined)
    else if v.Arr? then Value(Str(JoinItems(v.items, sep)))
    else TypeError
  }

  /** Joining strings puts exactly one separator between neighbours. */
  lemma {:induction false} JoinWithAppend(parts: seq<string>, last: string, sep: string)
    requires |parts| >= 1
    ensures JoinWith(parts + [last], sep) == JoinWith(parts, sep) + sep + last
    decreases |parts|
  {
    if |parts| == 1 {
      assert (parts + [last])[1..] == [last];
    } else {
      assert (parts + [last])[1..] == parts[1..] + [last];
      JoinWithAppend(parts[1..], last, sep);
    }
  }
}
