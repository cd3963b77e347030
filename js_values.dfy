/** JSON values as JavaScript sees them after `JSON.parse`, with the three
    coercions the quality-check handler applies to them: truthiness (for
    `||`), `Number(...)` and `String(...)` (for template interpolation). */
module JsValues {
  import opened Wrappers
  import opened JsStrings

  /** A parsed JSON value. Numbers are the integer-valued ones only. */
  datatype JsonValue =
    | JNull
    | JBool(b: bool)
    | JNumber(n: int)
    | JString(s: string)
    | JArray(elems: seq<JsonValue>)
    | JObject(fields: map<string, JsonValue>)

  /** JavaScript truthiness: `null`, `false`, `0` and `""` are falsy; every
      array and object, even an empty one, is truthy. */
  predicate Truthy(v: JsonValue)
    ensures !Truthy(v) <==> v in {JNull, JBool(false), JNumber(0), JString("")}
  {
    match v
    case JNull => false
    case JBool(b) => b
    case JNumber(n) => n != 0
    case JString(s) => s != ""
    case JArray(_) => true
    case JObject(_) => true
  }

  /** Truthiness of a property read that may give `undefined` (falsy). */
  predicate IsTruthy(o: Option<JsonValue>) {
    o.Some? && Truthy(o.value)
  }

  /** `x || d`, where `x` may be `undefined`. */
  function Or(o: Option<JsonValue>, d: JsonValue): (r: JsonValue)
    ensures IsTruthy(o) ==> r == o.value
    ensures !IsTruthy(o) ==> r == d
  {
    if IsTruthy(o) then o.value else d
  }

  /** `obj.key` on a parsed object: `undefined` when the key is absent. */
  function Field(obj: map<string, JsonValue>, key: string): (r: Option<JsonValue>)
    ensures r.Some? <==> key in obj
    ensures r.Some? ==> r.value == obj[key]
  {
    if key in obj then Some(obj[key]) else None
  }

  /** `typeof v === 'string' && v.trim()` is truthy: a present string that
      is not all whitespace. */
  predicate IsNonBlankString(v: Option<JsonValue>)
    ensures IsNonBlankString(v) <==> v.Some? && v.value.JString? && !IsBlank(v.value.s)
  {
    if v.Some? && v.value.JString? then
      TrimEmptyIffBlank(v.value.s);
      Trim(v.value.s) != []
    else false
  }

  /** The outcome of `Number(v)`: a number, NaN, or a thrown TypeError. */
  datatype NumberOutcome = Num(n: int) | NaN | TypeError

  /** The text of an optionally signed, non-empty run of decimal digits. */
  function ParseSignedDecimal(t: string): (r: Option<int>)
  {
    if |t| > 1 && t[0] == '-' && AllDigits(t[1..]) then Some(0 - DigitsValue(t[1..]) as int)
    else if |t| > 1 && t[0] == '+' && AllDigits(t[1..]) then Some(DigitsValue(t[1..]))
    else if |t| > 0 && AllDigits(t) then Some(DigitsValue(t))
    else None
  }

  predicate AllDigits(t: string) {
    forall i :: 0 <= i < |t| ==> IsDigit(t[i])
  }

  /** `Number(s)` for a string: surrounding whitespace is ignored, a blank
      string is 0, a signed decimal integer is its value, and any other text
      is NaN. Converting a string never throws. */
  function StringToNumber(s: string): (r: NumberOutcome)
    ensures !r.TypeError?
    ensures IsBlank(s) ==> r == Num(0)
    ensures r.Num? && !IsBlank(s) ==>
      var t := Trim(s);
      |t| > 0 && AllDigits(t[1..]) && (IsDigit(t[0]) || t[0] == '-' || t[0] == '+')
      && (|t| > 1 || IsDigit(t[0]))
    ensures var t := Trim(s); |t| > 0 && AllDigits(t) ==> r == Num(DigitsValue(t))
    ensures var t := Trim(s); |t| > 1 && t[0] == '-' && AllDigits(t[1..]) ==> r == Num(0 - DigitsValue(t[1..]))
    ensures var t := Trim(s); |t| > 1 && t[0] == '+' && AllDigits(t[1..]) ==> r == Num(DigitsValue(t[1..]))
  {
    TrimEmptyIffBlank(s);
    var t := Trim(s);
    if t == [] then Num(0)
    else match ParseSignedDecimal(t)
      case None => NaN
      case Some(n) => Num(n)
  }

  /** The decimal text of an integer reads back as that integer:
      `Number(String(n)) === n`. */
  lemma IntToDecimalRoundTrip(n: int)
    ensures StringToNumber(IntToDecimal(n)) == Num(n)
  {
    var t := IntToDecimal(n);
    DecimalEnds(n);
    TrimNoop(t);
    if n < 0 {
      assert t[1..] == NatToDecimal(-n);
    }
  }

  /** Converting `v` to a primitive, as `String(v)` and `Number(v)` do,
      throws a TypeError. An object with its own `toString` key hides the
      inherited method behind a value that cannot be called, and `valueOf`
      gives back the object itself, so no conversion succeeds; an array
      converts each of its non-null elements. */
  predicate ToPrimitiveThrows(v: JsonValue)
    decreases v
  {
    match v
    case JObject(fields) => "toString" in fields
    case JArray(elems) => exists i :: 0 <= i < |elems| && ToPrimitiveThrows(elems[i])
    case _ => false
  }

  /** `String(v)`, as a template literal interpolates `v`, with `None` when
      the conversion throws. An array is its elements' texts joined by
      commas, with `null` elements empty; an object is `[object Object]`. */
  function JsToString(v: JsonValue): (r: Option<string>)
    ensures r.None? <==> ToPrimitiveThrows(v)
    ensures v.JString? ==> r == Some(v.s)
    ensures v.JNull? ==> r == Some("null")
    ensures v.JBool? ==> r == Some(if v.b then "true" else "false")
    ensures v.JNumber? ==> r == Some(IntToDecimal(v.n))
    decreases v
  {
    match v
    case JNull => Some("null")
    case JBool(b) => Some(if b then "true" else "false")
    case JNumber(n) => Some(IntToDecimal(n))
    case JString(s) => Some(s)
    case JArray(elems) =>
      var parts := seq(|elems|, i requires 0 <= i < |elems| =>
        if elems[i].JNull? then Some("") else JsToString(elems[i]));
      if forall i :: 0 <= i < |parts| ==> parts[i].Some? then
        assert !ToPrimitiveThrows(v) by {
          forall i | 0 <= i < |elems|
            ensures !ToPrimitiveThrows(elems[i])
          {
            assert parts[i].Some?;
          }
        }
        Some(JoinWithCommas(seq(|parts|, i requires 0 <= i < |parts| && parts[i].Some? => parts[i].value)))
      else None
    case JObject(fields) => if "toString" in fields then None else Some("[object Object]")
  }

  /** The total length of `parts`. */
  function TotalLength(parts: seq<string>): nat {
    if parts == [] then 0 else TotalLength(parts[..|parts| - 1]) + |parts[|parts| - 1]|
  }

  /** `parts.join(",")`: the parts in order, one comma between neighbours. */
  function JoinWithCommas(parts: seq<string>): (r: string)
    ensures parts == [] ==> r == ""
    ensures |parts| == 1 ==> r == parts[0]
    ensures |parts| > 0 ==> |r| == TotalLength(parts) + |parts| - 1
    ensures |parts| > 0 ==> parts[0] <= r
    ensures |parts| > 0 ==> r[|r| - |parts[|parts| - 1]|..] == parts[|parts| - 1]
  {
    if |parts| <= 1 then (if parts == [] then "" else parts[0])
    else
      var init := JoinWithCommas(parts[..|parts| - 1]);
      assert parts[..|parts| - 1][0] == parts[0];
      init + "," + parts[|parts| - 1]
  }

  /** `Number(v)`. An array or object is first turned into its string, as
      JavaScript's ToPrimitive does, which may throw. */
  function ToNumber(v: JsonValue): (r: NumberOutcome)
    ensures r.TypeError? <==> ToPrimitiveThrows(v)
    ensures v.JNumber? ==> r == Num(v.n)
  {
    match v
    case JNull => Num(0)
    case JBool(b) => Num(if b then 1 else 0)
    case JNumber(n) => Num(n)
    case JString(s) => StringToNumber(s)
    case _ =>
      match JsToString(v)
      case None => TypeError
      case Some(t) => StringToNumber(t)
  }

  /** `Number` of a property read: `Number(undefined)` is NaN. */
  function ToNumberOpt(o: Option<JsonValue>): (r: NumberOutcome)
    ensures o.None? ==> r == NaN
    ensures o.Some? && o.value.JNumber? ==> r == Num(o.value.n)
    ensures r.TypeError? <==> o.Some? && ToPrimitiveThrows(o.value)
  {
    if o.None? then NaN else ToNumber(o.value)
  }

  /** `Number([]) === 0`. */
  lemma ToNumberOfEmptyArray()
    ensures ToNumber(JArray([])) == Num(0)
  {
    assert JsToString(JArray([])) == Some("");
  }

  /** `Number([n]) === n`: the array's text is the number's text. */
  lemma ToNumberOfSingletonArray(n: int)
    ensures ToNumber(JArray([JNumber(n)])) == Num(n)
  {
    SingletonArrayText(n);
    IntToDecimalRoundTrip(n);
  }

  /** `String([n])` is the number's own text. */
  lemma SingletonArrayText(n: int)
    ensures JsToString(JArray([JNumber(n)])) == Some(IntToDecimal(n))
  {
    var parts := seq(1, i requires 0 <= i < 1 => Some(IntToDecimal(n)));
    assert parts == [Some(IntToDecimal(n))];
    var texts := seq(1, i requires 0 <= i < 1 && parts[i].Some? => parts[i].value);
    assert texts == [IntToDecimal(n)];
  }

  /** `Number({...})` is NaN, unless the object has its own `toString` key,
      when it throws. */
  lemma ToNumberOfObject(m: map<string, JsonValue>)
    ensures ToNumber(JObject(m)) == if "toString" in m then TypeError else NaN
  {
    if "toString" !in m {
      var t := JsToString(JObject(m)).value;
      assert t == "[object Object]";
      BracketedIsNaN(t);
    }
  }

  /** Text that starts with `[` and ends with `]` is not a number. */
  lemma BracketedIsNaN(t: string)
    requires |t| > 1 && t[0] == '[' && t[|t| - 1] == ']'
    ensures StringToNumber(t) == NaN
  {
    TrimNoop(t);
    assert !AllDigits(t) by { assert !IsDigit(t[0]); }
  }

  /** A number-valued string coerces to its number, whitespace around it included. */
  lemma ToNumberOfNumericString(n: int)
    ensures ToNumber(JString(IntToDecimal(n))) == Num(n)
    ensures ToNumber(JString(" " + IntToDecimal(n) + "\n")) == Num(n)
  {
    IntToDecimalRoundTrip(n);
    var t := IntToDecimal(n);
    var w := " " + t + "\n";
    assert !IsJsWhitespace(t[0]) && !IsJsWhitespace(t[|t| - 1]) by { DecimalEnds(n); }
    assert TrimStart(w) == TrimStart(t + "\n") by { assert w[1..] == t + "\n"; }
    TrimTrailingNewline(t);
  }

  /** The decimal text of an integer begins and ends with non-whitespace. */
  lemma DecimalEnds(n: int)
    ensures var t := IntToDecimal(n); !IsJsWhitespace(t[0]) && !IsJsWhitespace(t[|t| - 1])
  {
    var t := IntToDecimal(n);
    if n < 0 {
      var ds := NatToDecimal(-n);
      assert t[|t| - 1] == ds[|ds| - 1];
    }
  }
}
