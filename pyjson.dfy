/**
 * A decoded JSON body, as Python's `json` module hands it to the script, and the
 * handful of Python operations the script applies to it: `key in j`, `j[key]`,
 * `j.get(key, default)`, truthiness, `j == 22`, `str(j)` and `f"{j:.3f}"`. Every operation that
 * Python would abort with an exception returns that exception as an error value,
 * because the script's `try` blocks turn each of them into a consumed attempt or
 * a failed provisioning.
 */
module PyJson {
  import opened Wrappers

  /** JSON numbers without a fraction decode to Python `int`, the others to `float`. */
  datatype Json =
    | Null
    | Bool(b: bool)
    | Num(n: int)
    | Float(r: real)
    | Str(s: string)
    | Arr(items: seq<Json>)
    | Obj(fields: map<string, Json>)

  /** The Python exceptions that the modelled expressions can raise. */
  datatype PyError = TypeError | AttributeError | KeyError | ValueError | OverflowError

  /** Python truthiness of a decoded value. */
  predicate Truthy(j: Json) {
    match j
    case Null => false
    case Bool(b) => b
    case Num(n) => n != 0
    case Float(r) => r != 0.0
    case Str(s) => |s| > 0
    case Arr(items) => |items| > 0
    case Obj(fields) => |fields| > 0
  }

  predicate IsSubstring(k: string, s: string) {
    |k| <= |s| && (s[..|k|] == k || IsSubstring(k, s[1..]))
  }

  /** Python `key in j` for a string key. */
  function Contains(j: Json, key: string): (r: Result<bool, PyError>)
    ensures j.Obj? ==> r == Ok(key in j.fields)
    ensures r.Err? <==> !(j.Obj? || j.Arr? || j.Str?)
  {
    match j
    case Obj(fields) => Ok(key in fields)
    case Arr(items) => Ok(Str(key) in items)
    case Str(s) => Ok(IsSubstring(key, s))
    case _ => Err(TypeError)
  }

  /** Python `j[key]` for a string key. */
  function Subscript(j: Json, key: string): (r: Result<Json, PyError>)
    ensures r.Ok? <==> j.Obj? && key in j.fields
    ensures r.Ok? ==> r.value == j.fields[key]
    ensures r.Err? ==> r.error == (if j.Obj? then KeyError else TypeError)
  {
    match j
    case Obj(fields) => if key in fields then Ok(fields[key]) else Err(KeyError)
    case _ => Err(TypeError)
  }

  /** Python `d.get(key, default)` on a dict. */
  function DictGet(fields: map<string, Json>, key: string, default: Json): (v: Json)
    ensures key in fields ==> v == fields[key]
    ensures key !in fields ==> v == default
  {
    if key in fields then fields[key] else default
  }

  /** Python `j.get(key, default)`: only a dict has a `get` method. */
  function GetOr(j: Json, key: string, default: Json): (r: Result<Json, PyError>)
    ensures r.Ok? <==> j.Obj?
    ensures r.Err? ==> r.error == AttributeError
    ensures j.Obj? && key in j.fields ==> r == Ok(j.fields[key])
    ensures j.Obj? && key !in j.fields ==> r == Ok(default)
  {
    match j
    case Obj(fields) => Ok(DictGet(fields, key, default))
    case _ => Err(AttributeError)
  }

  /** Python `j == k` for an integer literal `k` (`True == 1`, `22.0 == 22`). */
  predicate EqualsInt(j: Json, k: int) {
    match j
    case Num(n) => n == k
    case Float(r) => r == k as real
    case Bool(b) => (if b then 1 else 0) == k
    case _ => false
  }

  function DigitChar(d: nat): (c: char)
    requires d < 10
    ensures '0' <= c <= '9'
  {
    ('0' as int + d) as char
  }

  function DigitValue(c: char): nat
    requires '0' <= c <= '9'
  {
    c as int - '0' as int
  }

  predicate AllDigits(s: string) {
    forall i :: 0 <= i < |s| ==> '0' <= s[i] <= '9'
  }

  /** Decimal digits of a natural number, most significant first, without leading zeros. */
  function Digits(n: nat): (s: string)
    ensures |s| > 0 && AllDigits(s)
    ensures n > 0 ==> s[0] != '0'
    decreases n
  {
    if n < 10 then [DigitChar(n)] else Digits(n / 10) + [DigitChar(n % 10)]
  }

  /** The value of a string of decimal digits; the inverse of `Digits`. */
  function DigitsValue(s: string): nat
    requires AllDigits(s)
  {
    if s == [] then 0 else DigitsValue(s[..|s| - 1]) * 10 + DigitValue(s[|s| - 1])
  }

  /** Python `str(n)` for an `int`. */
  function DecimalText(n: int): (s: string)
    ensures |s| > 0 && DecimalShaped(s) && Canonical(s)
    ensures n >= 0 ==> AllDigits(s)
    ensures n < 0 ==> s[0] == '-' && AllDigits(s[1..])
  {
    if n < 0 then "-" + Digits(-n) else Digits(n)
  }

  /** A decimal integer text: digits, optionally after a minus sign. */
  predicate DecimalShaped(s: string) {
    AllDigits(s) || (|s| > 0 && s[0] == '-' && AllDigits(s[1..]))
  }

  /**
   * Python's own spelling of an integer: a leading zero only in "0" itself, and
   * a minus sign only before a non-zero magnitude.
   */
  predicate Canonical(s: string) {
    && DecimalShaped(s)
    && if |s| > 0 && s[0] == '-' then |s| > 1 && s[1] != '0'
       else |s| > 0 && (s[0] == '0' ==> |s| == 1)
  }

  /** Reading back a text produced by `DecimalText`. */
  function DecimalValue(s: string): int
    requires DecimalShaped(s)
  {
    if |s| > 0 && s[0] == '-' then 0 - DigitsValue(s[1..]) else DigitsValue(s)
  }

  lemma {:induction false} DigitsRoundTrip(n: nat)
    ensures DigitsValue(Digits(n)) == n
    decreases n
  {
    if n >= 10 {
      var s := Digits(n);
      assert s[..|s| - 1] == Digits(n / 10);
      assert s[|s| - 1] == DigitChar(n % 10);
      DigitsRoundTrip(n / 10);
    }
  }

  /** Digits without a leading zero denote a positive number. */
  lemma {:induction false} DigitsValuePositive(s: string)
    requires AllDigits(s) && |s| > 0 && s[0] != '0'
    ensures DigitsValue(s) > 0
    decreases |s|
  {
    if |s| > 1 {
      DigitsValuePositive(s[..|s| - 1]);
    }
  }

  /** Writing out the value of canonical digits gives the same digits back. */
  lemma {:induction false} DigitsOfValue(s: string)
    requires AllDigits(s) && |s| > 0 && (s[0] == '0' ==> |s| == 1)
    ensures Digits(DigitsValue(s)) == s
    decreases |s|
  {
    var c := s[|s| - 1];
    assert DigitChar(DigitValue(c)) == c;
    if |s| > 1 {
      var p := s[..|s| - 1];
      var d := DigitValue(c);
      DigitsValuePositive(p);
      DigitsOfValue(p);
      var v := DigitsValue(p) * 10 + d;
      assert v / 10 == DigitsValue(p) && v % 10 == d;
      assert s == p + [c];
    }
  }

  /** `str()` of an integer is read back as the same integer: the text is exact. */
  lemma DecimalRoundTrip(n: int)
    ensures DecimalValue(DecimalText(n)) == n
  {
    if n < 0 {
      assert DecimalText(n)[1..] == Digits(-n);
      DigitsRoundTrip(-n);
    } else {
      DigitsRoundTrip(n);
    }
  }

  /** A canonical numeral is `str()` of the integer it denotes, and of no other. */
  lemma CanonicalRoundTrip(s: string)
    requires Canonical(s)
    ensures DecimalText(DecimalValue(s)) == s
  {
    if s[0] == '-' {
      DigitsValuePositive(s[1..]);
      DigitsOfValue(s[1..]);
      assert s == "-" + s[1..];
    } else {
      DigitsOfValue(s);
    }
  }

  /** For a canonical numeral, being `str(n)` and denoting `n` are the same thing. */
  lemma CanonicalIsDecimalText(s: string, n: int)
    requires Canonical(s)
    ensures s == DecimalText(n) <==> DecimalValue(s) == n
  {
    CanonicalRoundTrip(s);
    DecimalRoundTrip(n);
  }

  /**
   * The smallest magnitude `float(n)` rejects: 2^1024 - 2^970, halfway between the
   * largest finite double and 2^1024, which round-half-to-even sends to 2^1024.
   */
  const FloatOverflowBound: int := 0xfffffffffffffc00000000000000000000000000000000000000000000000000000000000000000000000000000000000000000000000000000000000000000000000000000000000000000000000000000000000000000000000000000000000000000000000000000000000000000000000000000000000000000000000000

  /** Python `float(n)` for an `int` succeeds: round-to-nearest stays finite. */
  predicate FitsFloat(n: int) {
    -FloatOverflowBound < n < FloatOverflowBound
  }

  /**
   * Python `f"{j:.3f}"` as far as whether it raises: a float, a bool and an int
   * within float range format; an int beyond it raises OverflowError when it is
   * converted to float, a string raises ValueError, anything else TypeError.
   */
  function FormatFixed(j: Json): (r: Result<(), PyError>)
    ensures r.Ok? <==> j.Float? || j.Bool? || (j.Num? && FitsFloat(j.n))
    ensures j.Num? && !FitsFloat(j.n) ==> r == Err(OverflowError)
    ensures j.Str? ==> r == Err(ValueError)
    ensures r.Err? && !j.Str? && !j.Num? ==> r == Err(TypeError)
  {
    match j
    case Num(n) => if FitsFloat(n) then Ok(()) else Err(OverflowError)
    case Float(_) => Ok(())
    case Bool(_) => Ok(())
    case Str(_) => Err(ValueError)
    case _ => Err(TypeError)
  }

  /**
   * Python `str(j)`. Exact for `None`, booleans, integers and strings; for a float,
   * list or dict the text is a stand-in that keeps only what the script depends
   * on, namely that it is not empty.
   */
  function PyStr(j: Json): string {
    match j
    case Null => "None"
    case Bool(b) => if b then "True" else "False"
    case Num(n) => DecimalText(n)
    case Float(_) => "<float>"
    case Str(s) => s
    case Arr(_) => "[...]"
    case Obj(_) => "{...}"
  }

  /**
   * Only a string can have an empty text; an integer's text is the canonical
   * numeral of that integer, which is the only canonical numeral denoting it.
   */
  lemma PyStrMeaning(j: Json)
    ensures j.Str? ==> PyStr(j) == j.s
    ensures !j.Str? ==> |PyStr(j)| > 0
    ensures j.Num? ==> Canonical(PyStr(j)) && DecimalValue(PyStr(j)) == j.n
    ensures j.Num? ==> forall t :: Canonical(t) && DecimalValue(t) == j.n ==> t == PyStr(j)
  {
    if j.Num? {
      DecimalRoundTrip(j.n);
      forall t | Canonical(t) && DecimalValue(t) == j.n
        ensures t == PyStr(j)
      {
        CanonicalRoundTrip(t);
      }
    }
  }
}
