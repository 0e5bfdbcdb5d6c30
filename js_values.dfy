/**
 The few JavaScript value semantics the schema registry depends on:
 `typeof`, truthiness (used by `!defaultConnectionName || isDefault`),
 the `Number(...)` coercion applied to a version argument, and the
 `String(number)` conversion that turns a number into an object
 property key (`this.versions[version] = fn`).
 */
module JsValues {

  /** The identity of a JavaScript function object, e.g. an upgrade callback. */
  datatype Callback = Callback(id: nat)

  /** A JavaScript number, restricted to NaN and the integers. */
  datatype Number = NaN | Finite(value: int)

  /** The JavaScript values a caller can pass to the registry. */
  datatype JsValue =
    | Undefined
    | Null
    | Bool(b: bool)
    | Num(n: Number)
    | Str(s: string)
    | Func(callback: Callback)

  /** The `typeof` operator. */
  function TypeOf(v: JsValue): (r: string)
    ensures r == "number" <==> v.Num?
    ensures r == "function" <==> v.Func?
  {
    match v
    case Undefined => "undefined"
    case Null => "object"
    case Bool(_) => "boolean"
    case Num(_) => "number"
    case Str(_) => "string"
    case Func(_) => "function"
  }

  /** JavaScript truthiness: everything is truthy except undefined, null,
      false, NaN, 0 and the empty string. */
  predicate Truthy(v: JsValue) {
    match v
    case Undefined => false
    case Null => false
    case Bool(b) => b
    case Num(n) => n != NaN && n != Finite(0)
    case Str(s) => s != ""
    case Func(_) => true
  }

  predicate IsDigit(c: char) {
    '0' <= c <= '9'
  }

  predicate AllDigits(s: string) {
    forall i :: 0 <= i < |s| ==> IsDigit(s[i])
  }

  /** The value of a string of decimal digits, most significant first. */
  function DigitsValue(s: string): nat
    requires AllDigits(s)
  {
    if s == [] then 0
    else DigitsValue(s[..|s| - 1]) * 10 + (s[|s| - 1] as int - '0' as int)
  }

  /** The decimal digits of a natural number, without leading zeros. */
  function NatToDigits(n: nat): (r: string)
    ensures |r| > 0 && AllDigits(r)
    ensures n > 0 ==> r[0] != '0'
    decreases n
  {
    if n < 10 then [('0' as int + n) as char]
    else NatToDigits(n / 10) + [('0' as int + n % 10) as char]
  }

  /** `Number(s)` for a string: the empty string is 0, an optionally
      signed run of decimal digits is its value, anything else is NaN. */
  function StringToNumber(s: string): Number {
    if s == "" then Finite(0)
    else if s[0] == '-' && |s| > 1 && AllDigits(s[1..]) then Finite(-(DigitsValue(s[1..]) as int))
    else if s[0] == '+' && |s| > 1 && AllDigits(s[1..]) then Finite(DigitsValue(s[1..]))
    else if AllDigits(s) then Finite(DigitsValue(s))
    else NaN
  }

  /** The `Number(v)` coercion. It never fails: whatever it is given, the
      result is a number, possibly NaN. */
  function ToNumber(v: JsValue): (r: Number)
    ensures v.Num? ==> r == v.n
    ensures v.Undefined? || v.Func? ==> r == NaN
    ensures v.Null? || v == Bool(false) || v == Str("") ==> r == Finite(0)
  {
    match v
    case Undefined => NaN
    case Null => Finite(0)
    case Bool(b) => if b then Finite(1) else Finite(0)
    case Num(n) => n
    case Str(s) => StringToNumber(s)
    case Func(_) => NaN
  }

  /** `String(n)`, which is also the property key under which an object
      stores a value indexed by the number `n`. */
  function NumberToString(n: Number): string {
    match n
    case NaN => "NaN"
    case Finite(v) => if v < 0 then "-" + NatToDigits(-v) else NatToDigits(v)
  }

  /** Reading the digits of a natural number back gives the number. */
  lemma {:induction false} DigitsRoundTrip(n: nat)
    ensures DigitsValue(NatToDigits(n)) == n
  {
    var s := NatToDigits(n);
    if n >= 10 {
      DigitsRoundTrip(n / 10);
      assert s[..|s| - 1] == NatToDigits(n / 10);
    }
  }

  /** `Number(String(n))` is `n`: a property key written for a number
      reads back as that same number. */
  lemma NumberStringRoundTrip(n: Number)
    ensures StringToNumber(NumberToString(n)) == n
  {
    match n
    case NaN =>
      assert !IsDigit("NaN"[0]);
    case Finite(v) =>
      if v < 0 {
        var s := NumberToString(n);
        assert s[1..] == NatToDigits(-v);
        DigitsRoundTrip(-v);
      } else {
        var s := NatToDigits(v);
        assert IsDigit(s[0]);
        DigitsRoundTrip(v);
      }
  }

  /** Two numbers share a property key exactly when they are equal. */
  lemma NumberToStringInjective(a: Number, b: Number)
    ensures NumberToString(a) == NumberToString(b) <==> a == b
  {
    NumberStringRoundTrip(a);
    NumberStringRoundTrip(b);
  }
}
