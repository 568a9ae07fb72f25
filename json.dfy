/** A decoded JSON value, as Python's `json` module hands it to the program, and
    the handful of Python operations the core applies to such values: truthiness,
    `x[key]`, `int(x)` and `str(x)`. */
module Json {
  import opened Common

  /** JSON numbers are modelled as integers (every number the core reads is one). */
  datatype Json =
    | JNull
    | JBool(b: bool)
    | JNum(n: int)
    | JStr(s: string)
    | JArr(items: seq<Json>)
    | JObj(fields: map<string, Json>)

  /** The empty dict `{}`: the "failed" sentinel of the validators. */
  const Empty: Json := JObj(map[])

  /** Python truthiness (`if x:`): None, False, 0, "", [] and {} are false. */
  predicate Truthy(j: Json)
  {
    match j
    case JNull => false
    case JBool(b) => b
    case JNum(n) => n != 0
    case JStr(s) => s != []
    case JArr(xs) => xs != []
    case JObj(m) => m != map[]
  }

  /** `j[key]` with a string key: KeyError on a dict without it, TypeError on
      anything that is not a dict. */
  function Get(j: Json, key: string): (r: Result<Json>)
    ensures r.Ok? <==> j.JObj? && key in j.fields
    ensures r.Ok? ==> r.value == j.fields[key]
    ensures r.Err? ==> r.error == (if j.JObj? then KeyError(key) else TypeError)
  {
    match j
    case JObj(m) => if key in m then Ok(m[key]) else Err(KeyError(key))
    case _ => Err(TypeError)
  }

  // ---- decimal digits -------------------------------------------------------

  predicate IsDigit(c: char)
  {
    '0' <= c <= '9'
  }

  function DigitChar(d: nat): (c: char)
    requires d < 10
    ensures IsDigit(c)
  {
    ('0' as int + d) as char
  }

  function DigitValue(c: char): (d: nat)
    requires IsDigit(c)
    ensures d < 10
  {
    (c as int - '0' as int) as nat
  }

  predicate AllDigits(s: string)
  {
    forall i :: 0 <= i < |s| ==> IsDigit(s[i])
  }

  /** The decimal rendering of `n`, as Python's `str(n)` / f-string writes it. */
  function NatToString(n: nat): (s: string)
    ensures s != [] && AllDigits(s)
    ensures n < 10 <==> |s| == 1
  {
    if n < 10 then [DigitChar(n)] else NatToString(n / 10) + [DigitChar(n % 10)]
  }

  /** The value of a non-empty string of decimal digits, read left to right. */
  function DigitsValue(s: string): nat
    requires AllDigits(s)
  {
    if s == [] then 0 else DigitsValue(s[..|s| - 1]) * 10 + DigitValue(s[|s| - 1])
  }

  lemma {:induction false} DigitsOfNat(n: nat)
    ensures DigitsValue(NatToString(n)) == n
  {
    if n >= 10 {
      var s := NatToString(n);
      assert s[..|s| - 1] == NatToString(n / 10);
      DigitsOfNat(n / 10);
    }
  }

  /** Distinct page numbers render to distinct strings. */
  lemma NatToStringInjective(m: nat, n: nat)
    requires NatToString(m) == NatToString(n)
    ensures m == n
  {
    DigitsOfNat(m);
    DigitsOfNat(n);
  }

  /** `str(i)` for a Python int, with a leading '-' for a negative one. */
  function IntToString(i: int): string
  {
    if i < 0 then "-" + NatToString(-i) else NatToString(i)
  }

  /** `int(s)` on a string: an optional sign followed by at least one ASCII digit. */
  function ParseInt(s: string): (r: Result<int>)
  {
    if |s| > 0 && (s[0] == '-' || s[0] == '+') then
      if |s| > 1 && AllDigits(s[1..]) then
        var v: int := DigitsValue(s[1..]);
        Ok(if s[0] == '-' then -v else v)
      else Err(ValueError)
    else if |s| > 0 && AllDigits(s) then Ok(DigitsValue(s))
    else Err(ValueError)
  }

  /** `int(x)` on a decoded JSON value: numbers as they are, booleans as 0/1,
      strings parsed, everything else a TypeError. */
  function PyInt(j: Json): Result<int>
  {
    match j
    case JNum(n) => Ok(n)
    case JBool(b) => Ok(if b then 1 else 0)
    case JStr(s) => ParseInt(s)
    case _ => Err(TypeError)
  }

  /** `int()` of a non-empty digit string with no sign. */
  lemma ParseUnsigned(d: string)
    requires d != [] && AllDigits(d)
    ensures ParseInt(d) == Ok(DigitsValue(d))
  {
    assert IsDigit(d[0]);
  }

  /** `int()` of a '-' followed by a non-empty digit string. */
  lemma ParseNegative(d: string)
    requires d != [] && AllDigits(d)
    ensures ParseInt("-" + d) == Ok(0 - DigitsValue(d) as int)
  {
    var s := "-" + d;
    assert s[0] == '-' && s[1..] == d;
  }

  /** `int()` reads back what `str()` writes: the page count the ranking
      endpoint sends as a string is recovered exactly. */
  lemma PyIntOfRendered(i: int)
    ensures PyInt(JStr(IntToString(i))) == Ok(i)
  {
    if i < 0 {
      DigitsOfNat(-i);
      ParseNegative(NatToString(-i));
    } else {
      DigitsOfNat(i);
      ParseUnsigned(NatToString(i));
    }
  }

  /** `str(x)` on a scalar JSON value (`f"{x}"`); arrays and objects are not rendered. */
  function Str(j: Json): Result<string>
  {
    match j
    case JNull => Ok("None")
    case JBool(b) => Ok(if b then "True" else "False")
    case JNum(n) => Ok(IntToString(n))
    case JStr(s) => Ok(s)
    case _ => Err(Unmodelled)
  }
}
