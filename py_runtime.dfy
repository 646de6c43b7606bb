/**
 * The pieces of Python's run-time behaviour that backend/app/routes.py relies on:
 * the values a request field or a CSV cell can hold, the exceptions that escape
 * a conversion, `float(...)`, `int(...)` on a float and `int(...)` on a string.
 */
module PyRuntime {
  import opened Wrappers
  import opened Strings

  /** A JSON field or a CSV cell: a string, a number, or None (a missing value). */
  datatype Value = Str(s: string) | Num(x: real) | Null

  /** An exception; `message` is what `str(e)` gives. */
  datatype PyError =
    | ValueError(message: string)
    | TypeError(message: string)
    | AttributeError(message: string)

  /** A computation that either returns a value or raises. */
  datatype Outcome<+T> = Return(value: T) | Raise(error: PyError)

  function TypeName(v: Value): string
  {
    match v
    case Str(_) => "str"
    case Num(_) => "float"
    case Null => "NoneType"
  }

  /**
   * A decimal literal without sign: digits, optionally a point and more digits,
   * with at least one digit in all ("12", "12.5", ".5" and "12." are accepted).
   */
  function UnsignedDecimal(s: string): (r: Option<real>)
    ensures r.Some? ==> r.value >= 0.0
  {
    var k := PointIndex(s);
    var whole := s[..k];
    var fraction := if k < |s| then s[k + 1..] else "";
    if AllDigits(whole) && AllDigits(fraction) && |whole| + |fraction| > 0 then
      Some(NatValue(whole) as real + NatValue(fraction) as real / Pow10(|fraction|))
    else
      None
  }

  /** The index of the first '.' in `s`, or |s| when there is none. */
  function PointIndex(s: string): (k: nat)
    ensures k <= |s|
    ensures forall i :: 0 <= i < k ==> s[i] != '.'
    ensures k < |s| ==> s[k] == '.'
  {
    if s == [] || s[0] == '.' then 0 else 1 + PointIndex(s[1..])
  }

  function Pow10(n: nat): (r: real)
    ensures r >= 1.0
  {
    if n == 0 then 1.0 else 10.0 * Pow10(n - 1)
  }

  /** Python `float(s)` on a string: an optional sign, then a decimal literal. */
  function DecimalValue(s: string): (r: Option<real>)
    ensures r.Some? ==> |s| > 0
    ensures r.Some? && s[0] == '-' ==> r.value <= 0.0
    ensures r.Some? && s[0] != '-' ==> r.value >= 0.0
  {
    if |s| > 0 && s[0] == '-' then
      match UnsignedDecimal(s[1..])
      case Some(x) => Some(-x)
      case None => None
    else if |s| > 0 && s[0] == '+' then UnsignedDecimal(s[1..])
    else UnsignedDecimal(s)
  }

  /** Python `float(v)`: a number is kept, a string is read, None raises TypeError. */
  function Float(v: Value): (r: Outcome<real>)
    ensures v.Num? ==> r == Return(v.x)
    ensures v.Str? && DecimalValue(v.s).Some? ==> r == Return(DecimalValue(v.s).value)
    ensures v.Str? && DecimalValue(v.s).None? ==> r.Raise? && r.error.ValueError?
    ensures r.Raise? && r.error.TypeError? <==> v.Null?
    ensures r.Raise? ==> r.error.ValueError? || r.error.TypeError?
  {
    match v
    case Num(x) => Return(x)
    case Str(s) =>
      (match DecimalValue(s)
       case Some(x) => Return(x)
       case None => Raise(ValueError("could not convert string to float: '" + s + "'")))
    case Null => Raise(TypeError("float() argument must be a string or a real number, not 'NoneType'"))
  }

  /** Python `int(x)` on a float: truncation toward zero. */
  function Trunc(x: real): (r: int)
    ensures x >= 0.0 ==> r >= 0 && r as real <= x < r as real + 1.0
    ensures x < 0.0 ==> r <= 0 && r as real - 1.0 < x <= r as real
  {
    if x >= 0.0 then x.Floor else -((-x).Floor)
  }

  /** Python `int(s)` on a string: an optional sign, then one or more digits. */
  function IntValue(s: string): (r: Option<int>)
    ensures r.Some? ==> |s| > 0
    ensures r.Some? && s[0] == '-' ==> r.value <= 0
    ensures r.Some? && s[0] != '-' ==> r.value >= 0
  {
    if |s| > 0 && (s[0] == '-' || s[0] == '+') then
      var digits := s[1..];
      if |digits| > 0 && AllDigits(digits) then
        Some(if s[0] == '-' then -(NatValue(digits) as int) else NatValue(digits))
      else None
    else if |s| > 0 && AllDigits(s) then Some(NatValue(s))
    else None
  }

  /** `int(str(i)) == i` */
  lemma IntValueShowInt(i: int)
    ensures IntValue(ShowInt(i)) == Some(i)
  {
    var s := ShowInt(i);
    if i < 0 {
      assert s[1..] == ShowNat(-i);
      NatValueShowNat(-i);
      assert IntValue(s) == Some(-(NatValue(s[1..]) as int));
    } else {
      assert IsDigit(s[0]);
      NatValueShowNat(i);
      assert IntValue(s) == Some(NatValue(s));
    }
  }

  /** `float(str(i)) == i` */
  lemma DecimalValueShowInt(i: int)
    ensures DecimalValue(ShowInt(i)) == Some(i as real)
  {
    var s := ShowNat(if i < 0 then -i else i);
    NatValueShowNat(if i < 0 then -i else i);
    assert PointIndex(s) == |s| by { NoPointInDigits(s); }
    assert s[..|s|] == s;
    if i < 0 {
      assert ShowInt(i)[1..] == s;
    }
  }

  lemma {:induction false} NoPointInDigits(s: string)
    requires AllDigits(s)
    ensures PointIndex(s) == |s|
  {
    if s != [] {
      NoPointInDigits(s[1..]);
    }
  }

}
