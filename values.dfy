/** Python values as they travel through the orchestrator: request payloads,
    stored job records and replies are JSON-like dictionaries.  This module
    gives those values, Python truthiness, `dict.get`, `str(...)` rendering
    and the few string operations the handlers use. */
module Values {

  datatype Option<+T> = None | Some(value: T)

  /** A JSON-compatible Python value.  `Null` is Python's `None`; a float is
      kept as its Python `repr` (for instance "1.1"), since no arithmetic is
      ever done on one. */
  datatype Value =
    | Null
    | Bool(b: bool)
    | Int(i: int)
    | Float(repr: string)
    | Str(s: string)

  /** A Python `dict` with string keys. */
  type Dict = map<string, Value>

  /** Python truthiness, as used by `if x:` and `not x`. */
  predicate Truthy(v: Value) {
    match v
    case Null => false
    case Bool(b) => b
    case Int(i) => i != 0
    case Float(r) => r != "0.0" && r != "-0.0"
    case Str(s) => s != ""
  }

  /** `d.get(key)`: the value under `key`, or None when it is absent. */
  function Get(d: Dict, key: string): Value {
    if key in d then d[key] else Null
  }

  /** `d.get(key, default)`: the default is used only when the key is absent,
      not when it is present with a falsy value. */
  function GetOr(d: Dict, key: string, default: Value): Value {
    if key in d then d[key] else default
  }

  /** Python's `a or b`: the first operand when it is truthy, else the second. */
  function Or(a: Value, b: Value): (r: Value)
    ensures Truthy(r) <==> Truthy(a) || Truthy(b)
    ensures Truthy(a) ==> r == a
    ensures !Truthy(a) ==> r == b
  {
    if Truthy(a) then a else b
  }

  /** `type(v).__name__`. */
  function TypeName(v: Value): string {
    match v
    case Null => "NoneType"
    case Bool(_) => "bool"
    case Int(_) => "int"
    case Float(_) => "float"
    case Str(_) => "str"
  }

  /** The message of the AttributeError Python raises when a method that only
      strings have is called on another value. */
  function NoAttribute(v: Value, attribute: string): string {
    "'" + TypeName(v) + "' object has no attribute '" + attribute + "'"
  }

  /** `str(v)`, as an f-string renders a value. */
  function Render(v: Value): string {
    match v
    case Null => "None"
    case Bool(b) => if b then "True" else "False"
    case Int(i) => DecimalString(i)
    case Float(r) => r
    case Str(s) => s
  }

  function DigitChar(d: nat): char
    requires d < 10
  {
    "0123456789"[d]
  }

  predicate IsDigit(c: char) {
    '0' <= c <= '9'
  }

  /** The decimal digits of `n`, most significant first, with no leading zero. */
  function Digits(n: nat): (s: string)
    ensures |s| >= 1 && forall i :: 0 <= i < |s| ==> IsDigit(s[i])
    ensures |s| > 1 ==> s[0] != '0'
  {
    if n < 10 then [DigitChar(n)] else Digits(n / 10) + [DigitChar(n % 10)]
  }

  /** The number a string of decimal digits denotes, most significant
      first. */
  function NumeralValue(s: string): int {
    if s == [] then 0 else NumeralValue(s[..|s| - 1]) * 10 + (s[|s| - 1] as int - '0' as int)
  }

  /** The digits of `n` denote `n`. */
  lemma {:induction false} DigitsDenote(n: nat)
    ensures NumeralValue(Digits(n)) == n
  {
    var s := Digits(n);
    if n >= 10 {
      DigitsDenote(n / 10);
      assert s[..|s| - 1] == Digits(n / 10);
    }
    DigitCharValue(n % 10);
  }

  lemma DigitCharValue(d: nat)
    requires d < 10
    ensures DigitChar(d) as int - '0' as int == d
  {
    assert "0123456789"[d] as int == '0' as int + d by {
      var digits := "0123456789";
      assert digits[0] == '0' && digits[1] == '1' && digits[2] == '2' && digits[3] == '3' && digits[4] == '4';
      assert digits[5] == '5' && digits[6] == '6' && digits[7] == '7' && digits[8] == '8' && digits[9] == '9';
    }
  }

  /** `str(n)` for an int: a minus sign exactly for a negative `n`, then
      the digits of its magnitude, with no leading zero. */
  function DecimalString(n: int): (s: string)
    ensures |s| >= 1
    ensures s[0] == '-' <==> n < 0
    ensures var digits := if n < 0 then s[1..] else s;
            && |digits| >= 1 && (|digits| > 1 ==> digits[0] != '0')
            && (forall i :: 0 <= i < |digits| ==> IsDigit(digits[i]))
            && NumeralValue(digits) == (if n < 0 then -n else n)
  {
    var s := if n < 0 then "-" + Digits(-n) else Digits(n);
    SignedNumeral(n, s);
    s
  }

  lemma SignedNumeral(n: int, s: string)
    requires s == if n < 0 then "-" + Digits(-n) else Digits(n)
    ensures |s| >= 1
    ensures s[0] == '-' <==> n < 0
    ensures var digits := if n < 0 then s[1..] else s;
            && |digits| >= 1 && (|digits| > 1 ==> digits[0] != '0')
            && (forall i :: 0 <= i < |digits| ==> IsDigit(digits[i]))
            && NumeralValue(digits) == (if n < 0 then -n else n)
  {
    var m := if n < 0 then -n else n;
    var digits := if n < 0 then s[1..] else s;
    assert digits == Digits(m);
    DigitsDenote(m);
  }

  /** Lower-casing of one character.  Only the ASCII letters are mapped. */
  function LowerChar(c: char): char {
    if 'A' <= c <= 'Z' then (c as int + 32) as char else c
  }

  /** `s.lower()`, restricted to ASCII case mapping. */
  function ToLower(s: string): (r: string)
    ensures |r| == |s|
    ensures forall i :: 0 <= i < |s| ==> r[i] == LowerChar(s[i])
  {
    if s == [] then [] else [LowerChar(s[0])] + ToLower(s[1..])
  }

  lemma ToLowerAppend(a: string, b: string)
    ensures ToLower(a + b) == ToLower(a) + ToLower(b)
  {
    var l, r := ToLower(a + b), ToLower(a) + ToLower(b);
    assert |l| == |r|;
    forall i | 0 <= i < |l| ensures l[i] == r[i] {
      if i < |a| { assert (a + b)[i] == a[i]; } else { assert (a + b)[i] == b[i - |a|]; }
    }
  }

  /** Lower-casing a lower-case string leaves it alone. */
  lemma ToLowerIdempotent(s: string)
    ensures ToLower(ToLower(s)) == ToLower(s)
  {
    var once := ToLower(s);
    var twice := ToLower(once);
    forall i | 0 <= i < |s| ensures twice[i] == once[i] {
      assert once[i] == LowerChar(s[i]);
    }
  }

  /** `s.endswith(suffix)`. */
  predicate EndsWith(s: string, suffix: string) {
    |suffix| <= |s| && s[|s| - |suffix|..] == suffix
  }

  /** A string is fixed by what surrounds it: two strings set between the
      same prefix and suffix are equal exactly when the results are. */
  lemma {:induction false} InfixDetermined(prefix: string, a: string, b: string, suffix: string)
    ensures prefix + a + suffix == prefix + b + suffix <==> a == b
  {
    if prefix + a + suffix == prefix + b + suffix {
      assert |a| == |b|;
      assert (prefix + a + suffix)[|prefix|..|prefix| + |a|] == a;
      assert (prefix + b + suffix)[|prefix|..|prefix| + |b|] == b;
    }
  }

  /** `s.split('.')[-1]`: the text after the last '.', or all of `s` when it
      holds no '.'.  The result is the longest dot-free suffix of `s`. */
  function LastSegment(s: string): string {
    if s == [] then []
    else if s[|s| - 1] == '.' then []
    else LastSegment(s[..|s| - 1]) + [s[|s| - 1]]
  }

  /** The last segment is a suffix with no '.', and a '.' precedes it
      whenever it is not the whole string. */
  lemma {:induction false} LastSegmentShape(s: string)
    ensures var r := LastSegment(s);
            && '.' !in r
            && |r| <= |s| && r == s[|s| - |r|..]
            && (|r| < |s| ==> s[|s| - |r| - 1] == '.')
  {
    if s != [] && s[|s| - 1] != '.' {
      LastSegmentShape(s[..|s| - 1]);
    }
  }
}
