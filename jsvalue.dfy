/**
 * The JavaScript view of a parsed JSON request body: the values `JSON.parse`
 * can produce, the truthiness test behind `!x` and `x || d`, property access
 * `x.k` / `x?.k`, and the string conversion a template literal `${x}` applies.
 */
module JsValue {
  import opened Wrappers

  /** A JSON value. Numbers are modelled as integers. */
  datatype Json =
    | JNull
    | JBool(b: bool)
    | JNum(n: int)
    | JStr(s: string)
    | JArr(elems: seq<Json>)
    | JObj(fields: map<string, Json>)

  /** A JavaScript value as the handler sees it: `None` is `undefined`. */
  type Value = Option<Json>

  /**
   * A thrown JavaScript `Error`: its optional `statusCode` property and its
   * `message`.
   */
  datatype Thrown = Thrown(statusCode: Option<int>, message: string)

  /** The TypeError a JavaScript engine (V8) throws when `String(x)` finds no primitive value. */
  const NoPrimitive := Thrown(None, "Cannot convert object to primitive value")

  /**
   * JavaScript truthiness: `undefined`, `null`, `false`, `0` and `""` are
   * falsy; every other value, including `[]` and `{}`, is truthy.
   */
  predicate Truthy(v: Value)
  {
    match v
    case None => false
    case Some(JNull) => false
    case Some(JBool(b)) => b
    case Some(JNum(n)) => n != 0
    case Some(JStr(s)) => s != ""
    case Some(_) => true
  }

  /**
   * Property access `v?.key`, for the keys the handler reads (`message`,
   * `type`, `toolCallList`, `id`, `function`, `name`, `arguments`, `eventId`,
   * `start`, `end`). No prototype defines these keys, so only an object whose
   * JSON text has the key yields a value; on every other value (and on
   * `undefined`/`null` through optional chaining) the result is `undefined`.
   * Keys a prototype defines, such as a string's `length`, are not modelled.
   */
  function Prop(v: Value, key: string): (r: Value)
    ensures r.Some? ==> v.Some? && v.value.JObj? && key in v.value.fields && r.value == v.value.fields[key]
    ensures v.Some? && v.value.JObj? && key in v.value.fields ==> r.Some?
  {
    match v
    case Some(JObj(fields)) => if key in fields then Some(fields[key]) else None
    case _ => None
  }

  /** `x || d`: `x` when it is truthy, otherwise the default `d`. */
  function OrElse(v: Value, d: Json): (r: Json)
    ensures Truthy(v) ==> Some(r) == v
    ensures !Truthy(v) ==> r == d
  {
    if Truthy(v) then v.value else d
  }

  /** The character of a decimal digit. */
  function DigitChar(d: nat): (c: char)
    requires d < 10
    ensures '0' <= c <= '9' && c as int - '0' as int == d
  {
    ('0' as int + d) as char
  }

  /** The number a string of decimal digits denotes (Horner's rule). */
  function NumeralValue(s: string): nat
    requires forall i :: 0 <= i < |s| ==> '0' <= s[i] <= '9'
  {
    if s == [] then 0 else 10 * NumeralValue(s[..|s| - 1]) + (s[|s| - 1] as int - '0' as int)
  }

  /** The decimal numeral of a natural number, without leading zeros. */
  function Digits(n: nat): (r: string)
    decreases n
    ensures |r| > 0
    ensures forall i :: 0 <= i < |r| ==> '0' <= r[i] <= '9'
    ensures |r| > 1 ==> r[0] != '0'
    ensures NumeralValue(r) == n
  {
    if n < 10 then [DigitChar(n)]
    else
      var r := Digits(n / 10) + [DigitChar(n % 10)];
      assert r[..|r| - 1] == Digits(n / 10);
      r
  }

  /** `String(n)` for an integer `n`. */
  function Decimal(n: int): string
  {
    if n < 0 then "-" + Digits(-n) else Digits(n)
  }

  /** `Array.prototype.join(",")` over already converted elements. */
  function JoinComma(parts: seq<string>): string
  {
    if |parts| == 0 then ""
    else if |parts| == 1 then parts[0]
    else JoinComma(parts[..|parts| - 1]) + "," + parts[|parts| - 1]
  }

  /**
   * Whether `String(j)` returns rather than throws. An object whose JSON text
   * has a `toString` key hides the callable `toString` of its prototype
   * behind a non-callable value, and its `valueOf` returns the object itself,
   * so no primitive value is found and a TypeError is thrown. An array
   * converts each element, so it throws when any element does.
   */
  predicate Printable(j: Json)
  {
    match j
    case JObj(fields) => "toString" !in fields
    case JArr(xs) => forall i :: 0 <= i < |xs| ==> Printable(xs[i])
    case _ => true
  }

  /**
   * `String(j)`, the conversion a template literal applies to a JSON value.
   * An array joins its elements with commas, writing `null` as the empty
   * string; every plain object reads `[object Object]`.
   */
  function JsString(j: Json): string
    requires Printable(j)
  {
    match j
    case JNull => "null"
    case JBool(b) => if b then "true" else "false"
    case JNum(n) => Decimal(n)
    case JStr(s) => s
    case JArr(xs) =>
      JoinComma(seq(|xs|, i requires 0 <= i < |xs| => if xs[i].JNull? then "" else JsString(xs[i])))
    case JObj(_) => "[object Object]"
  }

  /** `${v}` in a template literal; `undefined` reads `undefined`. */
  function Display(v: Value): string
    requires v.None? || Printable(v.value)
  {
    match v
    case None => "undefined"
    case Some(j) => JsString(j)
  }
}
