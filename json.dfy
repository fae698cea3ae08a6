/**
 * The untyped JavaScript values the components receive from `JSON.parse` and
 * from untyped job records, with JavaScript truthiness, property access and
 * the `String(value)` coercion used by template literals.  Property access
 * can also reach a built-in method inherited from a prototype, so the values
 * include such functions.
 */
module Json {
  import opened Wrappers
  import opened JsText

  /**
   * A parsed JSON value, or a built-in method read off a prototype (`JNative`,
   * which `JSON.parse` never yields).  Numbers are modelled as integers.
   */
  datatype JsonValue =
    | JNull
    | JBool(b: bool)
    | JNumber(n: int)
    | JString(s: string)
    | JArray(items: seq<JsonValue>)
    | JObject(fields: map<string, JsonValue>)
    | JNative(name: string)

  /** JavaScript truthiness: `null`, `false`, `0` and `""` are falsy, everything else (functions included) truthy. */
  predicate Truthy(v: JsonValue)
  {
    match v
    case JNull => false
    case JBool(b) => b
    case JNumber(n) => n != 0
    case JString(s) => s != ""
    case _ => true
  }

  /** The falsy values are exactly `null`, `false`, `0` and `""`. */
  lemma FalsyValues(v: JsonValue)
    ensures !Truthy(v) <==> v == JNull || v == JBool(false) || v == JNumber(0) || v == JString("")
  {
  }

  /** Truthiness of a possibly `undefined` value. */
  predicate TruthyOpt(v: Option<JsonValue>)
  {
    v.Some? && Truthy(v.value)
  }

  /**
   * The HTML methods every string inherits from `String.prototype` (section
   * B.2.2 of ECMA-262).
   */
  const StringHtmlMethods: set<string> :=
    {"anchor", "big", "blink", "bold", "fixed", "fontcolor", "fontsize",
     "italics", "link", "small", "strike", "sub", "sup"}

  /**
   * `v.key` on a non-null value: an own property of a parsed object, an HTML
   * method a string inherits, the `name` of a built-in method, otherwise
   * `undefined`.
   */
  function Property(v: JsonValue, key: string): (r: Option<JsonValue>)
    ensures v.JObject? ==> (r.Some? <==> key in v.fields)
    ensures v.JObject? && r.Some? ==> r.value == v.fields[key]
    ensures v.JString? ==> (r.Some? <==> key in StringHtmlMethods)
    ensures v.JString? && r.Some? ==> r.value == JNative(key) && Truthy(r.value)
    ensures v.JNative? ==> (r.Some? <==> key == "name")
    ensures v.JNative? && r.Some? ==> r.value == JString(v.name)
    ensures v.JNull? || v.JBool? || v.JNumber? || v.JArray? ==> r.None?
  {
    match v
    case JObject(fields) => if key in fields then Some(fields[key]) else None
    case JString(_) => if key in StringHtmlMethods then Some(JNative(key)) else None
    case JNative(name) => if key == "name" then Some(JString(name)) else None
    case _ => None
  }

  /** `a || b`: the left operand when it is truthy, otherwise the right one. */
  function Or(a: Option<JsonValue>, b: JsonValue): (r: JsonValue)
    ensures TruthyOpt(a) ==> r == a.value
    ensures !TruthyOpt(a) ==> r == b
  {
    if TruthyOpt(a) then a.value else b
  }

  /** The character of a decimal digit. */
  function DigitChar(d: nat): (c: char)
    requires d < 10
    ensures '0' <= c <= '9'
  {
    ('0' as int + d) as char
  }

  predicate IsDigits(s: string)
  {
    forall i :: 0 <= i < |s| ==> '0' <= s[i] <= '9'
  }

  /** The number a string of decimal digits denotes, read most significant first. */
  function DecimalValue(s: string): nat
    requires IsDigits(s)
  {
    if s == [] then 0 else 10 * DecimalValue(s[..|s| - 1]) + (s[|s| - 1] as int - '0' as int)
  }

  /**
   * The decimal digits of a natural number, most significant first: they
   * denote the number, and only the number zero is written with a leading
   * `0` (as the single digit "0").
   */
  function NatToDecimal(n: nat): (r: string)
    ensures |r| >= 1 && IsDigits(r)
    ensures DecimalValue(r) == n
    ensures n == 0 ==> r == "0"
    ensures |r| > 1 ==> r[0] != '0'
    ensures n > 0 ==> r[0] != '0'
  {
    if n < 10 then [DigitChar(n)]
    else
      var init := NatToDecimal(n / 10);
      var r := init + [DigitChar(n % 10)];
      assert r[..|r| - 1] == init;
      r
  }

  /** `String(n)` for an integer: a `-` before the digits of a negative number. */
  function IntToDecimal(n: int): (r: string)
    ensures |r| >= 1 && (n < 0 <==> r[0] == '-')
    ensures n < 0 ==> IsDigits(r[1..]) && DecimalValue(r[1..]) == -n
    ensures n >= 0 ==> IsDigits(r) && DecimalValue(r) == n
    ensures n >= 0 && |r| > 1 ==> r[0] != '0'
    ensures n < 0 ==> |r| >= 2 && r[1] != '0'
  {
    if n < 0 then
      var digits := NatToDecimal(-n);
      assert ("-" + digits)[1..] == digits;
      "-" + digits
    else NatToDecimal(n)
  }

  /**
   * `String(v)`: strings stay as they are, numbers print their decimal
   * digits, arrays are joined with `,` (a `null` element contributes
   * nothing, see `ArrayTextJoinsElements`) and objects print as
   * `[object Object]`. Only strings and arrays can print as nothing.
   */
  function ToJsString(v: JsonValue): (text: string)
    ensures v.JString? ==> text == v.s
    ensures v.JNumber? ==> text == IntToDecimal(v.n)
    ensures !v.JString? && !v.JArray? ==> text != ""
    decreases v, 2
  {
    match v
    case JNull => "null"
    case JBool(b) => if b then "true" else "false"
    case JNumber(n) => IntToDecimal(n)
    case JString(s) => s
    case JArray(items) => JoinElements(v, 0)
    case JObject(_) => "[object Object]"
    case JNative(name) => "function " + name + "() { [native code] }"
  }

  /** What one array element contributes to `join`: nothing for `null`, else its `String()`. */
  function ElementText(e: JsonValue): string
    decreases e, 3
  {
    if e.JNull? then "" else ToJsString(e)
  }

  /**
   * `Array.prototype.join(",")` over the elements of `v` from index `i` on:
   * past the first element, each element's text is preceded by a comma.
   */
  function JoinElements(v: JsonValue, i: nat): (joined: string)
    requires v.JArray? && i <= |v.items|
    ensures i == |v.items| ==> joined == ""
    ensures 0 < i < |v.items| ==> |joined| >= 1 && joined[0] == ','
    decreases v, 0, |v.items| - i
  {
    if i == |v.items| then ""
    else (if i == 0 then "" else ",") + ElementText(v.items[i]) + JoinElements(v, i + 1)
  }

  /** The texts of the elements of `items`, in order. */
  function ElementTexts(items: seq<JsonValue>): (texts: seq<string>)
    ensures |texts| == |items|
    ensures forall k :: 0 <= k < |items| ==> texts[k] == ElementText(items[k])
  {
    if items == [] then [] else [ElementText(items[0])] + ElementTexts(items[1..])
  }

  /**
   * `String()` of a non-empty array is the texts of its elements joined by
   * `,`, the same as splitting's inverse `JsText.Join`; an empty array prints
   * as nothing.
   */
  lemma ArrayTextJoinsElements(items: seq<JsonValue>)
    ensures items == [] ==> ToJsString(JArray(items)) == ""
    ensures items != [] ==> ToJsString(JArray(items)) == Join(ElementTexts(items), ',')
  {
    if items != [] {
      JoinFrom(JArray(items), ElementTexts(items), 0);
      assert ElementTexts(items)[0..] == ElementTexts(items);
    }
  }

  lemma {:induction false} JoinFrom(v: JsonValue, texts: seq<string>, i: nat)
    requires v.JArray? && i < |v.items| && texts == ElementTexts(v.items)
    ensures JoinElements(v, i) == (if i == 0 then "" else ",") + Join(texts[i..], ',')
    decreases |v.items| - i
  {
    var prefix := if i == 0 then "" else ",";
    var tail := texts[i..];
    assert tail[0] == ElementText(v.items[i]);
    if i + 1 == |v.items| {
      assert tail == [texts[i]];
    } else {
      JoinFrom(v, texts, i + 1);
      assert tail[1..] == texts[i + 1..];
      assert Join(tail, ',') == tail[0] + [','] + Join(texts[i + 1..], ',');
      assert JoinElements(v, i) == prefix + tail[0] + ("," + Join(texts[i + 1..], ','));
    }
  }
}
