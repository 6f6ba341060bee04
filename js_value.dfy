/**
 * The JavaScript values a hast property can hold, with the two pieces of
 * JavaScript semantics the converter relies on: truthiness and `String(v)`.
 * Numbers are integers plus a `NaN` marker; array elements are kept as strings.
 */
module JsValue {

  datatype PropValue =
    | Str(s: string)
    | Int(i: int)
    | NaN
    | Bool(b: bool)
    | Arr(items: seq<string>)
    | Null
    | Undef

  /** JavaScript truthiness: `""`, `0`, `NaN`, `false`, `null` and `undefined` are falsy. */
  predicate Truthy(v: PropValue) {
    match v
    case Str(s) => s != ""
    case Int(i) => i != 0
    case NaN => false
    case Bool(b) => b
    case Arr(_) => true
    case Null => false
    case Undef => false
  }

  /** `Array.prototype.join(sep)` on an array of strings. */
  function Join(items: seq<string>, sep: string): string {
    if |items| == 0 then ""
    else if |items| == 1 then items[0]
    else items[0] + sep + Join(items[1..], sep)
  }

  function DigitChar(d: nat): char
    requires d < 10
  {
    "0123456789"[d]
  }

  function DigitValue(c: char): int {
    c as int - '0' as int
  }

  /** The decimal digits of a natural number, most significant first. */
  function Digits(n: nat): (s: string)
    ensures |s| > 0
    ensures forall i :: 0 <= i < |s| ==> '0' <= s[i] <= '9'
    ensures |s| > 1 ==> s[0] != '0'
  {
    if n < 10 then [DigitChar(n)] else Digits(n / 10) + [DigitChar(n % 10)]
  }

  /** Reads back a string of decimal digits. */
  function DigitsValue(s: string): int {
    if s == [] then 0 else 10 * DigitsValue(s[..|s| - 1]) + DigitValue(s[|s| - 1])
  }

  /** `String(n)` for an integer. */
  function Decimal(n: int): string {
    if n < 0 then "-" + Digits(-n) else Digits(n)
  }

  /** Reads back the output of `Decimal`. */
  function DecimalValue(s: string): int {
    if s != [] && s[0] == '-' then -DigitsValue(s[1..]) else DigitsValue(s)
  }

  lemma {:induction false} DigitsRoundTrip(n: nat)
    ensures DigitsValue(Digits(n)) == n
  {
    var s := Digits(n);
    if n < 10 {
      assert s[..0] == [];
    } else {
      assert s[..|s| - 1] == Digits(n / 10);
      DigitsRoundTrip(n / 10);
    }
  }

  /** `String` renders an integer so that it can be read back unchanged. */
  lemma {:induction false} DecimalRoundTrip(n: int)
    ensures DecimalValue(Decimal(n)) == n
  {
    if n < 0 {
      var d := Digits(-n);
      var s := "-" + d;
      assert s[1..] == d;
      DigitsRoundTrip(-n);
      assert DecimalValue(s) == -DigitsValue(d);
    } else {
      var d := Digits(n);
      assert '0' <= d[0];
      DigitsRoundTrip(n);
      assert DecimalValue(d) == DigitsValue(d);
    }
  }

  /** JavaScript's `String(v)`; arrays are joined with `","`. */
  function ToJsString(v: PropValue): string {
    match v
    case Str(s) => s
    case Int(i) => Decimal(i)
    case NaN => "NaN"
    case Bool(b) => if b then "true" else "false"
    case Arr(items) => Join(items, ",")
    case Null => "null"
    case Undef => "undefined"
  }
}
