/**
 * PHP values as the voice builder receives them, and the handful of PHP
 * built-ins it applies to them: `empty`, `isset`, array reads, string
 * conversion, `is_numeric`, `strpos`, `explode` and the URL filter.
 */
module Php {

  datatype Option<T> = None | Some(value: T)

  /**
   * A PHP value. Option maps are associative arrays (`VMap`); the argument
   * list that `__call` receives is a list (`VList`). Floats and objects are
   * not modelled.
   */
  datatype Value =
    | VNull
    | VBool(b: bool)
    | VInt(i: int)
    | VStr(s: string)
    | VList(items: seq<Value>)
    | VMap(fields: map<string, Value>)

  /** What PHP produces when an array is converted to a string. */
  const ArrayText := "Array"

  /** PHP `empty()` of a string: the empty string and "0". */
  predicate IsEmptyString(s: string) {
    s == "" || s == "0"
  }

  /** PHP `empty()`: null, false, 0, "", "0" and the empty array. */
  predicate IsEmpty(v: Value) {
    match v
    case VNull => true
    case VBool(b) => !b
    case VInt(i) => i == 0
    case VStr(s) => IsEmptyString(s)
    case VList(items) => items == []
    case VMap(fields) => fields == map[]
  }

  /**
   * PHP `isset($v['key'])` for the non-numeric option names the builder uses:
   * only an associative array holding a non-null value under `key` qualifies
   * (a list or a string has no such offset).
   */
  predicate IsSet(v: Value, key: string) {
    v.VMap? && key in v.fields && v.fields[key] != VNull
  }

  /**
   * PHP `$v['key']`: the stored value, or null for a missing key or a value
   * that is not an associative array.
   */
  function Get(v: Value, key: string): (r: Value)
    ensures IsSet(v, key) <==> r != VNull
    ensures IsSet(v, key) ==> r == v.fields[key]
  {
    if v.VMap? && key in v.fields then v.fields[key] else VNull
  }

  predicate IsDigit(c: char) {
    '0' <= c <= '9'
  }

  predicate IsDigits(s: string) {
    |s| > 0 && forall k :: 0 <= k < |s| ==> IsDigit(s[k])
  }

  function DigitChar(d: nat): (c: char)
    requires d < 10
    ensures IsDigit(c) && c as int - '0' as int == d
  {
    "0123456789"[d]
  }

  /** Decimal rendering of a natural number, most significant digit first. */
  function NatToDecimal(n: nat): (r: string)
    ensures IsDigits(r)
    ensures |r| == 1 <==> n < 10
    ensures r[0] == '0' ==> n == 0
    decreases n
  {
    if n < 10 then [DigitChar(n)] else NatToDecimal(n / 10) + [DigitChar(n % 10)]
  }

  /** The value of a string of decimal digits; the partner of NatToDecimal. */
  function DecimalValue(s: string): nat
    requires forall k :: 0 <= k < |s| ==> IsDigit(s[k])
  {
    if s == [] then 0
    else
      assert IsDigit(s[|s| - 1]);
      DecimalValue(s[..|s| - 1]) * 10 + (s[|s| - 1] as int - '0' as int)
  }

  lemma {:induction false} DecimalRoundTrip(n: nat)
    ensures DecimalValue(NatToDecimal(n)) == n
    decreases n
  {
    if n >= 10 {
      var prefix := NatToDecimal(n / 10);
      var s := prefix + [DigitChar(n % 10)];
      assert s[..|s| - 1] == prefix;
      DecimalRoundTrip(n / 10);
    }
  }

  /** PHP's string conversion of an integer. */
  function IntToDecimal(i: int): string {
    if i < 0 then "-" + NatToDecimal(-i) else NatToDecimal(i)
  }

  /** PHP string conversion (`.` and string interpolation). */
  function ToStr(v: Value): string {
    match v
    case VNull => ""
    case VBool(b) => if b then "1" else ""
    case VInt(i) => IntToDecimal(i)
    case VStr(s) => s
    case VList(_) => ArrayText
    case VMap(_) => ArrayText
  }

  /**
   * PHP `is_numeric`, restricted to integers and strings made of an optional
   * sign and decimal digits.
   */
  predicate IsNumeric(v: Value) {
    match v
    case VInt(_) => true
    case VStr(s) => IsDigits(s) || (|s| > 1 && (s[0] == '+' || s[0] == '-') && IsDigits(s[1..]))
    case _ => false
  }

  /** PHP `strpos($s, c)`: the index of the first occurrence of `c`, or false. */
  function Strpos(s: string, c: char): (r: Option<nat>)
    ensures r.None? <==> c !in s
    ensures r.Some? ==> r.value < |s| && s[r.value] == c && c !in s[..r.value]
  {
    if s == [] then None
    else if s[0] == c then Some(0)
    else
      match Strpos(s[1..], c)
      case None => None
      case Some(k) => assert s[..k + 1] == [s[0]] + s[1..][..k]; Some(k + 1)
  }

  /**
   * The phone-number rule `strpos($v, '+') === 0`: it holds exactly when the
   * value, as a string, begins with '+'.
   */
  function StartsWithPlus(v: Value): (ok: bool)
    ensures ok <==> |ToStr(v)| > 0 && ToStr(v)[0] == '+'
  {
    Strpos(ToStr(v), '+') == Some(0)
  }

  /** PHP `explode(sep, s)`: the pieces between separators, empty ones included. */
  function Explode(s: string, sep: char): (parts: seq<string>)
    ensures |parts| > 0
    ensures forall k :: 0 <= k < |parts| ==> sep !in parts[k]
    ensures Implode(parts, sep) == s
    decreases |s|
  {
    match Strpos(s, sep)
    case None => [s]
    case Some(i) =>
      var rest := Explode(s[i + 1..], sep);
      assert ([s[..i]] + rest)[1..] == rest;
      [s[..i]] + rest
  }

  /** PHP `implode(sep, parts)`, the inverse of Explode. */
  function Implode(parts: seq<string>, sep: char): string
    requires |parts| > 0
  {
    if |parts| == 1 then parts[0] else parts[0] + [sep] + Implode(parts[1..], sep)
  }

  /** Splitting a joined list gives back the list when no piece holds the separator. */
  lemma {:induction false} ExplodeImplode(parts: seq<string>, sep: char)
    requires |parts| > 0
    requires forall k :: 0 <= k < |parts| ==> sep !in parts[k]
    ensures Explode(Implode(parts, sep), sep) == parts
    decreases |parts|
  {
    if |parts| > 1 {
      var s := Implode(parts, sep);
      var tail := Implode(parts[1..], sep);
      assert s == parts[0] + [sep] + tail;
      var n := |parts[0]|;
      assert s[n] == sep;
      assert s[..n] == parts[0];
      assert sep !in s[..n];
      assert Strpos(s, sep) == Some(n);
      assert s[n + 1..] == tail;
      ExplodeImplode(parts[1..], sep);
    }
  }

  predicate IsLetter(c: char) {
    ('a' <= c <= 'z') || ('A' <= c <= 'Z')
  }

  /** The number of ASCII letters at the front of `s`. */
  function LeadingLetters(s: string): (n: nat)
    ensures n <= |s|
    ensures forall k :: 0 <= k < n ==> IsLetter(s[k])
    ensures n < |s| ==> !IsLetter(s[n])
  {
    if s != [] && IsLetter(s[0]) then 1 + LeadingLetters(s[1..]) else 0
  }

  /**
   * The URL syntax accepted by `filter_var(..., FILTER_VALIDATE_URL)`, cut down
   * to its core: a scheme of letters, "://", a non-empty remainder and no
   * spaces.
   */
  predicate UrlSyntax(s: string) {
    var n := LeadingLetters(s);
    0 < n && n + 3 < |s| && s[n..n + 3] == "://" && forall k :: 0 <= k < |s| ==> s[k] != ' '
  }

  /** `filter_var($v, FILTER_VALIDATE_URL) !== false`: scalars are filtered as strings, arrays fail. */
  predicate FilterValidateUrl(v: Value) {
    match v
    case VList(_) => false
    case VMap(_) => false
    case _ => UrlSyntax(ToStr(v))
  }
}
