/**
 * JSON values as the integration receives them from the cloud API, together
 * with the few pieces of Python semantics the integration relies on when it
 * inspects them: truthiness, `dict.get`, `==` against an integer literal,
 * `str()` and `int()`.
 */
module Json {

  datatype Option<+T> = None | Some(value: T)

  /** A decoded JSON document. Floating-point numbers are not modelled. */
  datatype Json =
    | Null
    | Bool(b: bool)
    | Int(i: int)
    | Str(s: string)
    | Arr(items: seq<Json>)
    | Obj(fields: map<string, Json>)

  /** Python truthiness: None, False, 0, "", [] and {} are false. */
  predicate Truthy(v: Json)
  {
    match v
    case Null => false
    case Bool(b) => b
    case Int(i) => i != 0
    case Str(s) => s != ""
    case Arr(items) => |items| > 0
    case Obj(fields) => |fields| > 0
  }

  /** Whether Python can use the value as a dictionary key: lists and
      dictionaries are unhashable, and storing under one raises `TypeError`. */
  predicate Hashable(v: Json)
  {
    !v.Arr? && !v.Obj?
  }

  /** `key in v` for a JSON object. */
  predicate Has(v: Json, key: string)
  {
    v.Obj? && key in v.fields
  }

  /** `v.get(key, default)` on a JSON object. */
  function GetOr(v: Json, key: string, default: Json): (r: Json)
    ensures Has(v, key) ==> r == v.fields[key]
    ensures !Has(v, key) ==> r == default
  {
    if Has(v, key) then v.fields[key] else default
  }

  /** `v.get(key)`: a missing key reads as None. */
  function Get(v: Json, key: string): Json
  {
    GetOr(v, key, Null)
  }

  /** `d.get(key)` on a dictionary held as a map. */
  function Lookup(d: map<string, Json>, key: string): Json
  {
    if key in d then d[key] else Null
  }

  /** Python `v == n` for an integer literal `n`: `bool` is a subclass of `int`,
      so `True == 1` and `False == 0` hold. */
  predicate PyEqInt(v: Json, n: int)
  {
    match v
    case Int(i) => i == n
    case Bool(b) => (if b then 1 else 0) == n
    case _ => false
  }

  /** Python `a == b` on two decoded values: numbers and booleans compare by
      value, everything else structurally. */
  predicate PyEq(a: Json, b: Json)
  {
    if (a.Int? || a.Bool?) && (b.Int? || b.Bool?) then
      PyEqInt(b, if a.Int? then a.i else if a.b then 1 else 0)
    else a == b
  }

  // ---------------------------------------------------------------------
  // Decimal text

  predicate IsDigit(c: char)
  {
    '0' <= c <= '9'
  }

  function DigitChar(d: nat): (c: char)
    requires d < 10
    ensures IsDigit(c) && DigitValue(c) == d
  {
    ('0' as int + d) as char
  }

  function DigitValue(c: char): (d: nat)
    requires IsDigit(c)
    ensures d < 10
  {
    c as int - '0' as int
  }

  /** `str(n)` for a natural number: its decimal digits. */
  function NatToString(n: nat): (s: string)
    ensures |s| > 0
    ensures n < 10 <==> |s| == 1
  {
    if n < 10 then [DigitChar(n)] else NatToString(n / 10) + [DigitChar(n % 10)]
  }

  /** `str(i)` for an integer. */
  function IntToString(i: int): string
  {
    if i < 0 then "-" + NatToString(-i) else NatToString(i)
  }

  /** Distinct numbers print differently. */
  lemma NatToStringInjective(a: nat, b: nat)
    requires NatToString(a) == NatToString(b)
    ensures a == b
  {
    NatTextFacts(a);
    NatTextFacts(b);
  }

  /** `str(v)` as an f-string renders a JSON value. Arrays and objects are
      rendered by a fixed placeholder. */
  function PyStr(v: Json): string
  {
    match v
    case Null => "None"
    case Bool(b) => if b then "True" else "False"
    case Int(i) => IntToString(i)
    case Str(s) => s
    case Arr(_) => "[...]"
    case Obj(_) => "{...}"
  }

  // ---------------------------------------------------------------------
  // Python int() on text

  /** The characters `str.strip()` removes (ASCII whitespace). */
  predicate IsSpace(c: char)
  {
    c == ' ' || c == '\t' || c == '\n' || c == '\r' || c == 11 as char || c == 12 as char
  }

  function StripLeft(s: string): string
  {
    if s != [] && IsSpace(s[0]) then StripLeft(s[1..]) else s
  }

  function StripRight(s: string): string
  {
    if s != [] && IsSpace(s[|s| - 1]) then StripRight(s[..|s| - 1]) else s
  }

  function Strip(s: string): string
  {
    StripRight(StripLeft(s))
  }

  /** Digits, with single underscores allowed between two digits ("1_000"). */
  predicate WellFormedDigits(s: string)
  {
    && |s| > 0
    && IsDigit(s[0]) && IsDigit(s[|s| - 1])
    && (forall k :: 0 <= k < |s| ==> IsDigit(s[k]) || s[k] == '_')
    && (forall j, k :: 0 <= j < |s| && 0 <= k < |s| && k == j + 1 ==> !(s[j] == '_' && s[k] == '_'))
  }

  /** The value of a digit string, ignoring underscores. */
  function DigitsValue(s: string): nat
    requires forall k :: 0 <= k < |s| ==> IsDigit(s[k]) || s[k] == '_'
  {
    if s == [] then 0
    else if s[|s| - 1] == '_' then DigitsValue(s[..|s| - 1])
    else DigitsValue(s[..|s| - 1]) * 10 + DigitValue(s[|s| - 1])
  }

  /** Python `int(s)` for text: surrounding whitespace, an optional sign, then
      digits. `None` where Python raises `ValueError`. */
  function ParseInt(s: string): Option<int>
  {
    var t := Strip(s);
    if t != [] && (t[0] == '-' || t[0] == '+') then
      if WellFormedDigits(t[1..]) then
        var magnitude: int := DigitsValue(t[1..]);
        Some(if t[0] == '-' then -magnitude else magnitude)
      else None
    else if WellFormedDigits(t) then Some(DigitsValue(t))
    else None
  }

  /** Python `int(v)` for a decoded JSON value; `None` where it raises
      `TypeError` or `ValueError`. */
  function PyInt(v: Json): Option<int>
  {
    match v
    case Int(i) => Some(i)
    case Bool(b) => Some(if b then 1 else 0)
    case Str(s) => ParseInt(s)
    case _ => None
  }

  lemma StripKeeps(s: string)
    requires s != [] && !IsSpace(s[0]) && !IsSpace(s[|s| - 1])
    ensures Strip(s) == s
  {
    assert StripLeft(s) == s;
  }

  /** Decimal text is made of digits only. */
  lemma {:induction false} NatToStringDigits(n: nat)
    ensures forall k :: 0 <= k < |NatToString(n)| ==> IsDigit(NatToString(n)[k])
  {
    if n >= 10 {
      NatToStringDigits(n / 10);
    }
  }

  lemma NatToStringWellFormed(n: nat)
    ensures WellFormedDigits(NatToString(n))
  {
    NatToStringDigits(n);
  }

  lemma ParseUnsigned(t: string)
    requires WellFormedDigits(t)
    ensures ParseInt(t) == Some(DigitsValue(t) as int)
  {
    StripKeeps(t);
  }

  lemma ParseNegative(t: string)
    requires |t| > 1 && t[0] == '-' && WellFormedDigits(t[1..])
    ensures ParseInt(t) == Some(-(DigitsValue(t[1..]) as int))
  {
    assert t[|t| - 1] == t[1..][|t| - 2];
    StripKeeps(t);
  }

  lemma ParseNatText(n: nat)
    ensures ParseInt(NatToString(n)) == Some(n)
  {
    NatTextFacts(n);
    ParseUnsigned(NatToString(n));
  }

  /** Decimal text is well-formed and reads back as its number. */
  lemma {:induction false} NatTextFacts(n: nat)
    ensures WellFormedDigits(NatToString(n)) && DigitsValue(NatToString(n)) == n
  {
    NatToStringWellFormed(n);
    var s := NatToString(n);
    if n >= 10 {
      var p := NatToString(n / 10);
      assert s[..|s| - 1] == p;
      NatTextFacts(n / 10);
      assert DigitsValue(s) == DigitsValue(p) * 10 + n % 10;
    }
  }

  /** A minus sign in front of well-formed digits. */
  lemma SignedDigits(t: string, d: string)
    requires t == "-" + d && WellFormedDigits(d)
    ensures |t| > 1 && t[0] == '-'
    ensures WellFormedDigits(t[1..]) && DigitsValue(t[1..]) == DigitsValue(d)
  {
    assert t[1..] == d;
  }

  /** The text of a negative number: a minus sign, then the digits of its
      magnitude. */
  lemma NegativeText(i: int)
    requires i < 0
    ensures |IntToString(i)| > 1 && IntToString(i)[0] == '-'
    ensures WellFormedDigits(IntToString(i)[1..]) && DigitsValue(IntToString(i)[1..]) == -i
  {
    NatTextFacts(-i);
    SignedDigits(IntToString(i), NatToString(-i));
  }

  lemma ParseNegativeText(i: int)
    requires i < 0
    ensures ParseInt(IntToString(i)) == Some(i)
  {
    NegativeText(i);
    ParseNegative(IntToString(i));
  }

  /** `int(str(i)) == i`: reading back the text the integration prints. */
  lemma ParseIntRoundTrip(i: int)
    ensures PyInt(Str(IntToString(i))) == Some(i)
  {
    if i < 0 {
      ParseNegativeText(i);
    } else {
      ParseNatText(i);
    }
  }

  // ---------------------------------------------------------------------
  // Lower-casing

  function LowerChar(c: char): (r: char)
    ensures 'A' <= c <= 'Z' ==> 'a' <= r <= 'z'
    ensures !('A' <= c <= 'Z') ==> r == c
  {
    if 'A' <= c <= 'Z' then (c as int + 32) as char else c
  }

  /** `str.lower()` on ASCII letters. */
  function Lower(s: string): (r: string)
    ensures |r| == |s|
    ensures forall k :: 0 <= k < |s| ==> r[k] == LowerChar(s[k])
  {
    seq(|s|, k requires 0 <= k < |s| => LowerChar(s[k]))
  }

  /** Lower-casing leaves no upper-case letter behind, so applying it twice
      changes nothing. */
  lemma LowerIdempotent(s: string)
    ensures Lower(Lower(s)) == Lower(s)
  {
  }

  /** Punctuation survives lower-casing: ':' occurs in `Lower(s)` exactly when
      it occurs in `s`. */
  lemma LowerKeepsColon(s: string)
    ensures (':' in Lower(s)) <==> (':' in s)
  {
    if ':' in s {
      var k :| 0 <= k < |s| && s[k] == ':';
      assert Lower(s)[k] == ':';
    }
    if ':' in Lower(s) {
      var k :| 0 <= k < |s| && Lower(s)[k] == ':';
      assert s[k] == ':';
    }
  }
}
