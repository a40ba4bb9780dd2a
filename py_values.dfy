/**
 * Python values as the client library sees them: `None`-able values, the
 * JSON payloads that travel over the wire, truthiness, the exceptions the
 * core raises, and Python's `int()` conversion of a decoded JSON value.
 */
module PyValues {

  /** Python's `X | None`. */
  datatype Option<+T> = None | Some(value: T)

  /** A value, or the exception raised while computing it. */
  datatype Result<+T> = Success(value: T) | Failure(error: PyError) {
    predicate IsFailure() {
      Failure?
    }

    function PropagateFailure<U>(): Result<U>
      requires Failure?
    {
      Failure(error)
    }

    function Extract(): T
      requires Success?
    {
      value
    }
  }

  /** A decoded JSON value (`json.loads`); `JNull` is Python's `None`. */
  datatype Json =
    | JNull
    | JBool(b: bool)
    | JInt(i: int)
    | JFloat(r: real)
    | JStr(s: string)
    | JArray(items: seq<Json>)
    | JObject(fields: map<string, Json>)

  /** The exceptions the modelled code can raise, as its callers see them. */
  datatype PyError =
    | ValueError(msg: string)          // raised directly by the library
    | ValidationError(msg: string)     // a ValueError raised inside a pydantic validator
    | KeyError(key: string)
    | TypeError
    | AttributeError
    | JsonDecodeError
    | StopIteration
    | TransportError                   // whatever the HTTP session raised
    | ApiError(status: int, payload: map<string, Json>)

  /** Python truthiness of an optional string: `None` and `""` are falsy. */
  predicate Truthy(o: Option<string>) {
    o.Some? && o.value != ""
  }

  /** `a or b` for an optional string and a string fallback. */
  function OrElse(a: Option<string>, b: string): (r: string)
    ensures Truthy(a) ==> r == a.value
    ensures !Truthy(a) ==> r == b
  {
    if Truthy(a) then a.value else b
  }

  /** `f"{x}"` of an optional string. */
  function Format(o: Option<string>): string {
    match o
    case None => "None"
    case Some(s) => s
  }

  /** `key in values and values[key] is not None`, also `values.get(key) is not None`. */
  predicate IsSet(values: map<string, Json>, key: string) {
    key in values && values[key] != JNull
  }

  /** `values.get(key)`: the entry, or `None` when the key is missing. */
  function Get(values: map<string, Json>, key: string): (v: Json)
    ensures IsSet(values, key) <==> v != JNull
  {
    if key in values then values[key] else JNull
  }

  /** ASCII upper-casing, as `str.upper` acts on ASCII letters. */
  function UpperChar(c: char): (u: char)
    ensures 'a' <= c <= 'z' ==> u as int == c as int - 32
    ensures !('a' <= c <= 'z') ==> u == c
  {
    if 'a' <= c <= 'z' then (c as int - 32) as char else c
  }

  function Upper(s: string): (u: string)
    ensures |u| == |s|
    ensures forall i :: 0 <= i < |s| ==> u[i] == UpperChar(s[i])
  {
    if s == [] then [] else [UpperChar(s[0])] + Upper(s[1..])
  }

  // ---------------------------------------------------------------------
  // Python's int() of a decoded JSON value

  /** The ASCII characters `str.isspace` accepts: blank, tab, line breaks, and the separators U+001C to U+001F. */
  predicate IsSpace(c: char) {
    c == ' ' || c == '\t' || c == '\n' || c == '\r' || c == '\U{000B}' || c == '\U{000C}'
    || ('\U{001C}' <= c <= '\U{001F}')
  }

  predicate IsDigit(c: char) {
    '0' <= c <= '9'
  }

  function DigitValue(c: char): (d: nat)
    requires IsDigit(c)
    ensures d < 10
  {
    c as int - '0' as int
  }

  /** `s.strip()` for the ASCII whitespace of `IsSpace`. */
  function Strip(s: string): (r: string)
    ensures |r| <= |s|
    ensures r != [] ==> !IsSpace(r[0]) && !IsSpace(r[|r| - 1])
  {
    if s == [] then []
    else if IsSpace(s[0]) then Strip(s[1..])
    else if IsSpace(s[|s| - 1]) then Strip(s[..|s| - 1])
    else s
  }

  /**
   * Digits with single underscores between them (PEP 515), read as a
   * decimal number; the last digit is the least significant one.
   */
  predicate IsDigitRun(s: string) {
    && s != []
    && IsDigit(s[0]) && IsDigit(s[|s| - 1])
    && (forall i :: 0 <= i < |s| ==> IsDigit(s[i]) || s[i] == '_')
    && (forall i :: 0 <= i < |s| - 1 ==> !(s[i] == '_' && s[i + 1] == '_'))
  }

  function DigitsValue(s: string): nat
    requires forall i :: 0 <= i < |s| ==> IsDigit(s[i]) || s[i] == '_'
  {
    if s == [] then 0
    else if s[|s| - 1] == '_' then DigitsValue(s[..|s| - 1])
    else DigitsValue(s[..|s| - 1]) * 10 + DigitValue(s[|s| - 1])
  }

  /** `int(s)` for a string: optional sign, decimal digits, surrounding whitespace. */
  function ParseInt(s: string): Option<int> {
    var t := Strip(s);
    if t == [] then None
    else if t[0] == '-' || t[0] == '+' then
      var body := t[1..];
      if IsDigitRun(body) then
        Some(if t[0] == '-' then -(DigitsValue(body) as int) else DigitsValue(body))
      else None
    else if IsDigitRun(t) then Some(DigitsValue(t))
    else None
  }

  /** The decimal text `str(n)` of an integer: the reference that `ParseInt` inverts. */
  function NatToString(n: nat): (s: string)
    ensures s != [] && forall i :: 0 <= i < |s| ==> IsDigit(s[i])
  {
    if n < 10 then [('0' as int + n) as char]
    else NatToString(n / 10) + [('0' as int + n % 10) as char]
  }

  function IntToString(n: int): string {
    if n < 0 then "-" + NatToString(-n) else NatToString(n)
  }

  lemma {:induction false} DigitsValueOfNatToString(n: nat)
    ensures DigitsValue(NatToString(n)) == n
  {
    var s := NatToString(n);
    if n >= 10 {
      DigitsValueOfNatToString(n / 10);
      assert s[..|s| - 1] == NatToString(n / 10);
    }
  }

  /** A text that neither starts nor ends with whitespace is its own `strip()`. */
  lemma StripKeeps(s: string)
    requires s != [] && !IsSpace(s[0]) && !IsSpace(s[|s| - 1])
    ensures Strip(s) == s
  {
  }

  /** The printed digits of a natural number are a digit run worth that number. */
  lemma NatToStringDigitRun(n: nat)
    ensures IsDigitRun(NatToString(n))
    ensures DigitsValue(NatToString(n)) == n
  {
    DigitsValueOfNatToString(n);
  }

  lemma ParseIntOfNatToString(m: nat)
    ensures ParseInt(NatToString(m)) == Some(m)
  {
    var d := NatToString(m);
    NatToStringDigitRun(m);
    StripKeeps(d);
  }

  /** A minus sign before a digit run, with nothing to strip, reads as the negated run. */
  lemma ParseIntMinusRun(t: string)
    requires t != [] && t[0] == '-' && Strip(t) == t && IsDigitRun(t[1..])
    ensures ParseInt(t) == Some(-(DigitsValue(t[1..]) as int))
  {
  }

  lemma ParseIntOfNegative(m: nat)
    ensures ParseInt("-" + NatToString(m)) == Some(-(m as int))
  {
    var d := NatToString(m);
    var s := "-" + d;
    NatToStringDigitRun(m);
    assert s[1..] == d;
    assert s[0] == '-' && s[|s| - 1] == d[|d| - 1];
    StripKeeps(s);
    ParseIntMinusRun(s);
  }

  /** Python's `int(str(n)) == n`, for the model of `int()` on strings. */
  lemma ParseIntOfIntToString(n: int)
    ensures ParseInt(IntToString(n)) == Some(n)
  {
    if n < 0 {
      ParseIntOfNegative(-n);
    } else {
      ParseIntOfNatToString(n);
    }
  }

  /** Truncation toward zero, as `int()` does to a float. */
  function Truncate(r: real): (i: int)
    ensures r >= 0.0 ==> i as real <= r < i as real + 1.0
    ensures r < 0.0 ==> i as real - 1.0 < r <= i as real
  {
    if r >= 0.0 then r.Floor else -((-r).Floor)
  }

  /** Python's `int(v)` for a decoded JSON value. */
  function PyInt(v: Json): (r: Result<int>)
    ensures v.JInt? ==> r == Success(v.i)
    ensures v.JNull? || v.JArray? || v.JObject? ==> r == Failure(TypeError)
    ensures v.JStr? ==> (r.Success? <==> ParseInt(v.s).Some?)
  {
    match v
    case JNull => Failure(TypeError)
    case JBool(b) => Success(if b then 1 else 0)
    case JInt(i) => Success(i)
    case JFloat(x) => Success(Truncate(x))
    case JStr(s) =>
      (match ParseInt(s)
       case Some(i) => Success(i)
       case None => Failure(ValueError("invalid literal for int() with base 10")))
    case JArray(_) => Failure(TypeError)
    case JObject(_) => Failure(TypeError)
  }
}
