/** JSON-like payload values and the Python idioms the core applies to them. */
module Json {
  import opened Base

  /** A decoded JSON value. Floating-point numbers are not modelled. */
  datatype Json =
    | JNull
    | JBool(b: bool)
    | JInt(i: int)
    | JStr(s: string)
    | JArr(items: seq<Json>)
    | JObj(fields: map<string, Json>)

  /** A JSON object, the shape of every payload. */
  type Object = map<string, Json>

  /** Python's `bool(x)`: None, False, 0, "" and empty containers are falsy. */
  predicate Truthy(j: Json)
  {
    match j
    case JNull => false
    case JBool(b) => b
    case JInt(i) => i != 0
    case JStr(s) => s != ""
    case JArr(items) => items != []
    case JObj(fields) => fields != map[]
  }

  /** `d.get(k)`: the value stored under `k`, or None (here JNull). */
  function Get(d: Object, k: string): (r: Json)
    ensures k !in d ==> r == JNull
    ensures k in d ==> r == d[k]
  {
    if k in d then d[k] else JNull
  }

  /** `d.get(k, default)`. */
  function GetOr(d: Object, k: string, default: Json): (r: Json)
    ensures k in d ==> r == d[k]
    ensures k !in d ==> r == default
  {
    if k in d then d[k] else default
  }

  /** Python's `x or default`: x when it is truthy, otherwise the default. */
  function OrElse(j: Json, default: Json): (r: Json)
    ensures Truthy(j) ==> r == j
    ensures !Truthy(j) ==> r == default
  {
    if Truthy(j) then j else default
  }

  /** Python's `isinstance(x, (int, float))` on a decoded value: an int or
      (because bool is a subclass of int) a bool; floats are not modelled. */
  predicate IsNumber(j: Json)
  {
    j.JInt? || j.JBool?
  }

  /** Python's `int(x)` on a number (bool counts as 0 or 1). */
  function NumberValue(j: Json): (r: int)
    requires IsNumber(j)
    ensures j.JInt? ==> r == j.i
    ensures j.JBool? ==> r == (if j.b then 1 else 0)
  {
    if j.JInt? then j.i else if j.b then 1 else 0
  }

  /** The text a Python `str(x)` gives for a scalar; containers are rendered by
      a fixed marker (their Python repr depends on insertion order). */
  function Str(j: Json): (r: string)
    ensures j.JStr? ==> r == j.s
    ensures j.JInt? ==> r == IntToDecimal(j.i)
    ensures j.JBool? ==> r == (if j.b then "True" else "False")
    ensures j.JNull? ==> r == "None"
  {
    match j
    case JNull => "None"
    case JBool(b) => if b then "True" else "False"
    case JInt(i) => IntToDecimal(i)
    case JStr(s) => s
    case JArr(_) => "[...]"
    case JObj(_) => "{...}"
  }

  /** Decimal rendering of an integer, as Python's `str(int)`. */
  function IntToDecimal(n: int): (r: string)
    ensures r != []
    ensures n >= 0 ==> IsDigits(r)
    ensures n < 0 ==> r[0] == '-' && IsDigits(r[1..])
  {
    if n < 0 then "-" + NatToDecimal(-n) else NatToDecimal(n)
  }

  function NatToDecimal(n: nat): (r: string)
    ensures IsDigits(r)
  {
    if n < 10 then [DigitChar(n)] else NatToDecimal(n / 10) + [DigitChar(n % 10)]
  }

  function DigitChar(d: nat): (c: char)
    requires d < 10
    ensures '0' <= c <= '9' && (c as int) - ('0' as int) == d
  {
    (('0' as int) + d) as char
  }

  /** A non-empty run of ASCII decimal digits. */
  predicate IsDigits(s: string)
  {
    s != [] && forall i :: 0 <= i < |s| ==> '0' <= s[i] <= '9'
  }

  /** The value of a run of decimal digits (leading zeros allowed, as in `int("080")`). */
  function DigitsValue(s: string): (n: nat)
    requires IsDigits(s)
    decreases |s|
  {
    if |s| == 1 then (s[0] as int) - ('0' as int)
    else DigitsValue(s[..|s| - 1]) * 10 + ((s[|s| - 1] as int) - ('0' as int))
  }

  /** Rendering a natural number and reading it back gives the number again. */
  lemma {:induction false} DecimalRoundTrip(n: nat)
    ensures DigitsValue(NatToDecimal(n)) == n
  {
    if n >= 10 {
      DecimalRoundTrip(n / 10);
      var s := NatToDecimal(n);
      assert s[..|s| - 1] == NatToDecimal(n / 10);
    }
  }

  /** A string `int()` reads as a negative number: '-' then decimal digits. */
  predicate IsNegativeDigits(s: string)
  {
    |s| > 1 && s[0] == '-' && IsDigits(s[1..])
  }

  /** Python's `int(x)` on the values the model admits: numbers, and strings
      that are an optional '-' followed by decimal digits. Other strings raise
      ValueError, and null or containers raise TypeError. */
  function ToInt(j: Json): (r: Result<int, Error>)
    ensures IsNumber(j) ==> r == Ok(NumberValue(j))
    ensures j.JStr? ==> (r.Ok? <==> IsDigits(j.s) || IsNegativeDigits(j.s))
    ensures j.JStr? && IsDigits(j.s) ==> r == Ok(DigitsValue(j.s))
    ensures j.JStr? && IsNegativeDigits(j.s) ==> r == Ok(-(DigitsValue(j.s[1..]) as int))
    ensures (j.JNull? || j.JArr? || j.JObj?) ==> r.Err? && r.error.WrongType?
    ensures r.Err? && j.JStr? ==> r.error.Invalid?
  {
    match j
    case JInt(i) => Ok(i)
    case JBool(b) => Ok(if b then 1 else 0)
    case JStr(s) =>
      if IsDigits(s) then Ok(DigitsValue(s))
      else if IsNegativeDigits(s) then Ok(-(DigitsValue(s[1..]) as int))
      else Err(Invalid("invalid literal for int() with base 10"))
    case _ => Err(WrongType("int() argument must be a string or a number"))
  }

  /** Converting the decimal text of any integer with `int()` gives it back. */
  lemma IntTextRoundTrip(n: int)
    ensures ToInt(JStr(IntToDecimal(n))) == Ok(n)
  {
    if n < 0 {
      DecimalRoundTrip(-n);
      var s := IntToDecimal(n);
      assert s[1..] == NatToDecimal(-n);
      assert s[0] == '-';
      assert IsNegativeDigits(s);
    } else {
      DecimalRoundTrip(n);
    }
  }
}
