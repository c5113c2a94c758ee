/**
  Numeric primitives: the loosely typed values a quote snapshot holds, the
  dictionary lookup with a default, truthiness, `safe_float`, `safe_bool`,
  integer truncation and the decimal rendering of integers.
 */
module Values {

  datatype Option<+T> = None | Some(value: T)

  /** One value of a quote snapshot (or of a numeric series): Python's None,
      a float NaN, a bool, a Python int, a finite float or a string. */
  datatype FieldValue = NoneValue | NaN | Bool(b: bool) | Int(i: int) | Num(x: real) | Str(s: string)

  /** A quote snapshot. A key that is absent differs from a key mapped to NoneValue. */
  type Quote = map<string, FieldValue>

  /** `info.get(key, default)`: the default is used only when the key is absent. */
  function Get(info: Quote, key: string, default: FieldValue): (v: FieldValue)
    ensures key in info ==> v == info[key]
    ensures key !in info ==> v == default
  {
    if key in info then info[key] else default
  }

  /** Python's `bool(v)`: None, False, 0, 0.0 and "" are false; NaN is true. */
  predicate Truthy(v: FieldValue)
  {
    match v
    case NoneValue => false
    case NaN => true
    case Bool(b) => b
    case Int(i) => i != 0
    case Num(x) => x != 0.0
    case Str(s) => s != ""
  }

  /** `safe_float(value, default)`: None and NaN give the default; a bool gives
      1.0 or 0.0; an int gives its value as a float; a float is returned as
      is; a string also gives the default, since parsing numeric strings is
      not modelled. */
  function SafeFloat(v: FieldValue, default: real): (r: real)
    ensures v.Num? ==> r == v.x
    ensures v.Int? ==> r == v.i as real
    ensures v.NoneValue? || v.NaN? ==> r == default
    ensures v.Bool? ==> r == (if v.b then 1.0 else 0.0)
  {
    match v
    case NoneValue => default
    case NaN => default
    case Bool(b) => if b then 1.0 else 0.0
    case Int(i) => i as real
    case Num(x) => x
    case Str(_) => default
  }

  /** `safe_bool(value)`: False for None, otherwise `bool(value)`. */
  function SafeBool(v: FieldValue): (b: bool)
    ensures b <==> Truthy(v)
    ensures v.Bool? ==> b == v.b
  {
    if v == NoneValue then false else Truthy(v)
  }

  /** An optional float as Python sees it: None, or the number. */
  function Lift(o: Option<real>): (v: FieldValue)
    ensures Truthy(v) <==> o.Some? && o.value != 0.0
  {
    match o
    case None => NoneValue
    case Some(x) => Num(x)
  }

  /** Python's `int(x)` on a float: truncation toward zero. */
  function TruncToInt(x: real): (n: int)
    ensures x >= 0.0 ==> n == x.Floor
    ensures x >= 0.0 ==> n as real <= x < n as real + 1.0
    ensures x < 0.0 ==> n as real - 1.0 < x <= n as real
  {
    if x >= 0.0 then x.Floor else -((-x).Floor)
  }

  // ---------------------------------------------------------------------
  // Decimal text of integers (`str(int(...))`) and its inverse.

  function DigitChar(d: nat): (c: char)
    requires d < 10
    ensures '0' <= c <= '9'
  {
    ('0' as int + d) as char
  }

  predicate IsDigit(c: char)
  {
    '0' <= c <= '9'
  }

  /** `str(n)` for a non-negative integer: no leading zero. */
  function NatToString(n: nat): (s: string)
    ensures |s| > 0
    ensures forall i :: 0 <= i < |s| ==> IsDigit(s[i])
    ensures n > 0 ==> s[0] != '0'
    ensures |s| > 1 ==> s[0] != '0'
    decreases n
  {
    if n < 10 then [DigitChar(n)] else NatToString(n / 10) + [DigitChar(n % 10)]
  }

  /** `str(i)` for any integer: a minus sign before the digits of a negative one. */
  function IntToString(i: int): (s: string)
    ensures |s| > 0
    ensures i < 0 <==> s[0] == '-'
    ensures i >= 0 && |s| > 1 ==> s[0] != '0'
    ensures i < 0 ==> |s| > 1 && s[1] != '0'
  {
    if i < 0 then "-" + NatToString(-i) else NatToString(i)
  }

  /** The value of a non-empty string of digits, or None. */
  function ParseNat(s: string): (r: Option<nat>)
    decreases |s|
  {
    if s == [] || !IsDigit(s[|s| - 1]) then None
    else if |s| == 1 then Some(s[0] as int - '0' as int)
    else match ParseNat(s[..|s| - 1])
      case None => None
      case Some(p) => Some(10 * p + (s[|s| - 1] as int - '0' as int))
  }

  /** The value of an optionally signed decimal integer text, or None. */
  function ParseInt(s: string): (r: Option<int>)
  {
    if |s| > 0 && s[0] == '-' then
      match ParseNat(s[1..])
      case None => None
      case Some(n) => Some(-(n as int))
    else
      match ParseNat(s)
      case None => None
      case Some(n) => Some(n)
  }

  lemma {:induction false} NatToStringRoundTrip(n: nat)
    ensures ParseNat(NatToString(n)) == Some(n)
    decreases n
  {
    if n >= 10 {
      var s := NatToString(n);
      assert s[..|s| - 1] == NatToString(n / 10);
      NatToStringRoundTrip(n / 10);
    }
  }

  /** Reading back the decimal text of an integer gives the integer. */
  lemma IntToStringRoundTrip(i: int)
    ensures ParseInt(IntToString(i)) == Some(i)
  {
    if i < 0 {
      var s := IntToString(i);
      assert s[1..] == NatToString(-i);
      NatToStringRoundTrip(-i);
    } else {
      NatToStringRoundTrip(i);
      assert NatToString(i)[0] != '-';
    }
  }
}
