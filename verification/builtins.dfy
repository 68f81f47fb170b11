/**
 * The Python values and built-ins the crawler relies on: decoded JSON
 * payloads, raised exceptions, truthiness, `dict.get` and subscripting, and
 * the `int(...)` / `str(...)` conversions between integers and decimal text.
 */
module Builtins {

  /** A decoded JSON document, as `response.json()` returns it (no floats). */
  datatype Json =
    | Null
    | Bool(b: bool)
    | Int(i: int)
    | Str(s: string)
    | Arr(items: seq<Json>)
    | Obj(fields: map<string, Json>)

  /**
   * A raised exception: the crawler's own StopCrawlException with its `msg`,
   * or any other exception, named by its class.
   */
  datatype Exception = StopCrawl(msg: Json) | Raised(name: string)

  datatype Option<T> = None | Some(value: T)

  /** A value, or the exception raised while computing it. */
  datatype Result<T> = Ok(value: T) | Err(error: Exception)

  /** A statement that either completes normally or raises. */
  datatype Outcome = Pass | Fail(error: Exception)

  /** Python's truth value of a JSON value (`if x:`). */
  predicate Truthy(j: Json) {
    match j
    case Null => false
    case Bool(b) => b
    case Int(i) => i != 0
    case Str(s) => s != ""
    case Arr(items) => items != []
    case Obj(fields) => fields != map[]
  }

  /** `j.get(key, default)`: only a dict has `.get`. */
  function Get(j: Json, key: string, default: Json): Result<Json> {
    if !j.Obj? then Err(Raised("AttributeError"))
    else if key in j.fields then Ok(j.fields[key])
    else Ok(default)
  }

  /** `j[key]` with a string key. */
  function Subscript(j: Json, key: string): Result<Json> {
    if !j.Obj? then Err(Raised("TypeError"))
    else if key in j.fields then Ok(j.fields[key])
    else Err(Raised("KeyError"))
  }

  // ---------------------------------------------------------------------
  // Decimal text (ASCII digits only)

  predicate IsDigit(c: char) {
    '0' <= c <= '9'
  }

  predicate AllDigits(s: string) {
    forall i :: 0 <= i < |s| ==> IsDigit(s[i])
  }

  function DigitValue(c: char): nat
    requires IsDigit(c)
  {
    c as int - '0' as int
  }

  function DigitChar(d: nat): (c: char)
    requires d < 10
    ensures IsDigit(c) && DigitValue(c) == d
  {
    ('0' as int + d) as char
  }

  /** The number a string of decimal digits denotes (leading zeros allowed). */
  function DecimalValue(s: string): nat
    requires AllDigits(s)
  {
    if s == [] then 0 else DecimalValue(s[..|s| - 1]) * 10 + DigitValue(s[|s| - 1])
  }

  /** `str(n)` for `n >= 0`: its decimal digits, without leading zeros. */
  function NatToDecimal(n: nat): string {
    if n < 10 then [DigitChar(n)] else NatToDecimal(n / 10) + [DigitChar(n % 10)]
  }

  /** Shape of the text `str(...)` produces for a non-negative integer. */
  predicate CanonicalDecimal(s: string) {
    |s| > 0 && AllDigits(s) && (s[0] == '0' ==> |s| == 1)
  }

  /** `str(n)` is a non-empty run of digits with no leading zero; it starts with `0` only for 0. */
  lemma {:induction false} NatToDecimalShape(n: nat)
    ensures CanonicalDecimal(NatToDecimal(n))
    ensures NatToDecimal(n)[0] == '0' <==> n == 0
  {
    if n >= 10 {
      NatToDecimalShape(n / 10);
      var p := NatToDecimal(n / 10);
      DecimalAppend(p, DigitChar(n % 10));
      assert NatToDecimal(n)[0] == p[0];
    }
  }

  /** `str(i)` for any integer. */
  function IntToString(i: int): string {
    if i < 0 then "-" + NatToDecimal(-i) else NatToDecimal(i)
  }

  /** `str(i)` is canonical digits, preceded by `-` exactly when `i` is negative. */
  lemma IntToStringShape(i: int)
    ensures i >= 0 ==> CanonicalDecimal(IntToString(i))
    ensures i < 0 ==> |IntToString(i)| > 1 && IntToString(i)[0] == '-'
                      && IntToString(i)[1..] == NatToDecimal(-i) && CanonicalDecimal(NatToDecimal(-i))
  {
    if i < 0 {
      NatToDecimalShape(-i);
      assert IntToString(i)[1..] == NatToDecimal(-i);
    } else {
      NatToDecimalShape(i);
    }
  }

  /**
   * `int(s)`: an optional sign followed by decimal digits; None where Python
   * raises ValueError.
   */
  function ParseInt(s: string): Option<int> {
    if |s| > 1 && s[0] == '-' && AllDigits(s[1..]) then Some(-(DecimalValue(s[1..]) as int))
    else if |s| > 1 && s[0] == '+' && AllDigits(s[1..]) then Some(DecimalValue(s[1..]))
    else if |s| > 0 && AllDigits(s) then Some(DecimalValue(s))
    else None
  }

  /** Appending a digit shifts the value one decimal place. */
  lemma DecimalAppend(s: string, c: char)
    requires AllDigits(s) && IsDigit(c)
    ensures AllDigits(s + [c])
    ensures DecimalValue(s + [c]) == DecimalValue(s) * 10 + DigitValue(c)
  {
    assert (s + [c])[..|s|] == s;
  }

  /** Reading back the digits `str(n)` writes gives `n`. */
  lemma {:induction false} DecimalRoundTrip(n: nat)
    ensures AllDigits(NatToDecimal(n)) && DecimalValue(NatToDecimal(n)) == n
  {
    NatToDecimalShape(n);
    if n >= 10 {
      DecimalRoundTrip(n / 10);
      DecimalAppend(NatToDecimal(n / 10), DigitChar(n % 10));
    }
  }

  /** A digit string without a leading zero is worth at least its first digit. */
  lemma {:induction false} DecimalAtLeastLeading(s: string)
    requires |s| > 0 && AllDigits(s)
    ensures DecimalValue(s) >= DigitValue(s[0])
  {
    if |s| > 1 {
      DecimalAtLeastLeading(s[..|s| - 1]);
    }
  }

  /** Conversely, writing back the value of a canonical digit string gives that string. */
  lemma {:induction false} DecimalCanonicalRoundTrip(s: string)
    requires CanonicalDecimal(s)
    ensures NatToDecimal(DecimalValue(s)) == s
  {
    if |s| > 1 {
      var p := s[..|s| - 1];
      var c := s[|s| - 1];
      assert s == p + [c];
      DecimalAtLeastLeading(p);
      DecimalCanonicalRoundTrip(p);
      var n := DecimalValue(s);
      assert n == DecimalValue(p) * 10 + DigitValue(c);
      assert n / 10 == DecimalValue(p) && n % 10 == DigitValue(c);
      assert DigitChar(DigitValue(c)) == c;
    } else {
      assert DigitChar(DigitValue(s[0])) == s[0];
    }
  }

  /** `int(str(i)) == i` for every integer. */
  lemma ParseIntToString(i: int)
    ensures ParseInt(IntToString(i)) == Some(i)
  {
    IntToStringShape(i);
    if i < 0 {
      DecimalRoundTrip(-i);
    } else {
      DecimalRoundTrip(i);
    }
  }

  /** `str` is injective on integers. */
  lemma IntToStringInjective(i: int, j: int)
    requires IntToString(i) == IntToString(j)
    ensures i == j
  {
    ParseIntToString(i);
    ParseIntToString(j);
  }
}
