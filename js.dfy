/**
 * The JavaScript value semantics that the HTTP routes depend on: parsed JSON
 * values, truthiness (`!x`), nullishness (`x == null`), property reads, and the
 * `String(x)` and `Number(x)` coercions.
 */
module Js {
  import opened Wrappers
  import opened Strings

  /** A parsed JSON value. JSON numbers are modelled as integers. */
  datatype JsonValue =
    | JNull
    | JBool(b: bool)
    | JNumber(n: int)
    | JString(s: string)
    | JArray(items: seq<JsonValue>)
    | JObject(fields: map<string, JsonValue>)

  /** JavaScript truthiness of a property value; `None` is `undefined`. */
  predicate Truthy(v: Option<JsonValue>)
  {
    match v
    case None => false
    case Some(JNull) => false
    case Some(JBool(b)) => b
    case Some(JNumber(n)) => n != 0
    case Some(JString(s)) => s != ""
    case Some(_) => true
  }

  /** `v === undefined || v === null`. */
  predicate IsNullish(v: Option<JsonValue>)
  {
    v.None? || v.value.JNull?
  }

  /** The property read `v.key` (or a destructuring of `key`) on a non-null value. */
  function Get(v: JsonValue, key: string): (r: Option<JsonValue>)
    requires !v.JNull?
    ensures r.Some? <==> v.JObject? && key in v.fields
  {
    if v.JObject? && key in v.fields then Some(v.fields[key]) else None
  }

  /**
   * Whether `String(v)` and `Number(v)` return rather than throw. An object
   * converts through the inherited `toString` unless it has an own "toString"
   * property: a parsed value is never callable and the inherited `valueOf`
   * returns the object itself, so both conversions then throw a TypeError. An
   * array converts through `join`, which converts each element.
   */
  predicate Convertible(v: JsonValue)
    decreases v
  {
    match v
    case JObject(fields) => "toString" !in fields
    case JArray(items) => forall i :: 0 <= i < |items| ==> Convertible(items[i])
    case _ => true
  }

  /**
   * `String(v)` of a value it converts. An array is rendered as its elements
   * joined by ",", with null elements rendered empty; an integer is rendered
   * with all its digits.
   */
  function ToJsString(v: JsonValue): string
    requires Convertible(v)
    decreases v
  {
    match v
    case JNull => "null"
    case JBool(b) => if b then "true" else "false"
    case JNumber(n) => IntToString(n)
    case JString(s) => s
    case JArray(items) =>
      Join(seq(|items|, i requires 0 <= i < |items| => if items[i].JNull? then "" else ToJsString(items[i])), ",")
    case JObject(_) => "[object Object]"
  }

  /**
   * The numeric value of a string that is blank or an optionally signed run of
   * decimal digits, kept exact; `None` is NaN.
   */
  function StringToNumber(s: string): (r: Option<int>)
    ensures Trim(s) == [] ==> r == Some(0)
  {
    var t := Trim(s);
    if t == [] then Some(0)
    else if t[0] == '-' && |t| > 1 && AllDigits(t[1..]) then Some(0 - DecimalValue(t[1..]) as int)
    else if t[0] == '+' && |t| > 1 && AllDigits(t[1..]) then Some(DecimalValue(t[1..]))
    else if AllDigits(t) then Some(DecimalValue(t))
    else None
  }

  /** `Number(v)` of a value it converts; `None` is NaN. Arrays and objects convert through their string form. */
  function ToNumber(v: JsonValue): Option<int>
    requires Convertible(v)
  {
    match v
    case JNull => Some(0)
    case JBool(b) => Some(if b then 1 else 0)
    case JNumber(n) => Some(n)
    case JString(s) => StringToNumber(s)
    case _ => StringToNumber(ToJsString(v))
  }

  /** A number sent as text converts back to the same number: `Number(String(n)) === n`. */
  lemma NumberOfStringOfNumber(n: int)
    ensures ToNumber(JString(ToJsString(JNumber(n)))) == Some(n)
  {
    var s := IntToString(n);
    assert !IsJsWhitespace(s[0]) && !IsJsWhitespace(s[|s| - 1]) by {
      if n >= 0 {
        assert IsDigit(s[0]) && IsDigit(s[|s| - 1]);
      } else {
        assert s[|s| - 1] == s[1..][|s| - 2];
        assert IsDigit(s[|s| - 1]);
      }
    }
    TrimOfUnpadded(s);
    if n < 0 {
      assert !AllDigits(s) by { assert !IsDigit(s[0]); }
    }
  }

  /** The text of a caught exception: `error instanceof Error ? error.message : 'Unknown error'`. */
  function ErrorText(message: Option<string>): string
  {
    if message.Some? then message.value else "Unknown error"
  }
}
