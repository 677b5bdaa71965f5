/**
 PHP built-ins that the query routine leans on: `empty()` on strings, the
 `strpos(...) !== false` substring test and `is_numeric()`, plus the loosely
 typed values (optional values, error codes) they are applied to.
 */
module Php {

  /** A value that may be absent, such as a missing `'file'` key of a backtrace frame. */
  datatype Option<+T> = None | Some(value: T)

  /** An error code as PHP hands it over: exceptions carry an integer or a
      string (PDO uses the SQLSTATE text), and `errorInfo()[1]` may be null. */
  datatype Code = IntCode(n: int) | StrCode(s: string) | NullCode

  /** `empty($s)` for a string: true for "" and for "0". */
  predicate IsEmptyString(s: string) {
    s == "" || s == "0"
  }

  /** `sub` occurs in `s` starting at index `i`. */
  predicate OccursAt(s: string, sub: string, i: nat) {
    i + |sub| <= |s| && s[i..i + |sub|] == sub
  }

  /** Whether `sub` occurs in `s` at some index `i` or later. */
  function ContainsFrom(s: string, sub: string, i: nat): (r: bool)
    ensures r <==> exists j: nat :: i <= j && OccursAt(s, sub, j)
    decreases |s| - i
  {
    if |s| < i + |sub| then false
    else OccursAt(s, sub, i) || ContainsFrom(s, sub, i + 1)
  }

  /** `strpos($s, $sub) !== false`. As in PHP 8, the empty needle is found
      in every haystack. */
  function Contains(s: string, sub: string): (r: bool)
    ensures r <==> exists j: nat :: OccursAt(s, sub, j)
  {
    ContainsFrom(s, sub, 0)
  }

  /** A needle holding a character the haystack lacks is never found. */
  lemma MissingCharNotContained(s: string, sub: string, c: char)
    requires c in sub && c !in s
    ensures !Contains(s, sub)
  {
    var k :| 0 <= k < |sub| && sub[k] == c;
    forall j: nat | j + |sub| <= |s|
      ensures !OccursAt(s, sub, j)
    {
      assert s[j..j + |sub|][k] == s[j + k];
      assert s[j + k] in s;
    }
  }

  /** A needle is found inside any text that surrounds it. */
  lemma InfixContained(before: string, sub: string, after: string)
    ensures OccursAt(before + sub + after, sub, |before|)
    ensures Contains(before + sub + after, sub)
  {
    var s := before + sub + after;
    assert s[|before|..|before| + |sub|] == sub;
    OccursAtContained(s, sub, |before|);
  }

  /** A needle is found where it occurs. */
  lemma OccursAtContained(s: string, sub: string, i: nat)
    requires OccursAt(s, sub, i)
    ensures Contains(s, sub)
  {
  }

  // ---------------------------------------------------------------------
  // is_numeric

  /** The white space PHP 8 allows around a numeric string. */
  predicate IsSpace(c: char) {
    c == ' ' || c == '\t' || c == '\n' || c == '\r' || c == '\U{B}' || c == '\U{C}'
  }

  predicate IsDigit(c: char) {
    '0' <= c <= '9'
  }

  /** The end of the run of white space starting at `i`. */
  function SkipSpace(s: string, i: nat): (j: nat)
    requires i <= |s|
    ensures i <= j <= |s|
    ensures forall k :: i <= k < j ==> IsSpace(s[k])
    ensures j < |s| ==> !IsSpace(s[j])
    decreases |s| - i
  {
    if i < |s| && IsSpace(s[i]) then SkipSpace(s, i + 1) else i
  }

  /** The end of the run of decimal digits starting at `i`. */
  function SkipDigits(s: string, i: nat): (j: nat)
    requires i <= |s|
    ensures i <= j <= |s|
    ensures forall k :: i <= k < j ==> IsDigit(s[k])
    ensures j < |s| ==> !IsDigit(s[j])
    decreases |s| - i
  {
    if i < |s| && IsDigit(s[i]) then SkipDigits(s, i + 1) else i
  }

  /** The end of an exponent `[eE][+-]?digits` starting at `d`, or `d`
      itself when no complete exponent starts there. */
  function ExponentEnd(s: string, d: nat): (e: nat)
    requires d <= |s|
    ensures d <= e <= |s|
    ensures e > d ==> s[d] == 'e' || s[d] == 'E'
  {
    if d < |s| && (s[d] == 'e' || s[d] == 'E') then
      var f := if d + 1 < |s| && (s[d + 1] == '+' || s[d + 1] == '-') then d + 2 else d + 1;
      var g := SkipDigits(s, f);
      if g > f then g else d
    else d
  }

  /** PHP 8's numeric strings: optional white space, an optional sign, digits
      with at most one decimal point and at least one digit, an optional
      exponent, then optional white space and nothing else. */
  function IsNumericString(s: string): (r: bool)
    ensures r ==> exists i :: 0 <= i < |s| && IsDigit(s[i])
  {
    var a := SkipSpace(s, 0);
    var b := if a < |s| && (s[a] == '+' || s[a] == '-') then a + 1 else a;
    var c := SkipDigits(s, b);
    var d := if c < |s| && s[c] == '.' then SkipDigits(s, c + 1) else c;
    var mantissaDigits := (c - b) + (if d > c then d - c - 1 else 0);
    mantissaDigits > 0 && SkipSpace(s, ExponentEnd(s, d)) == |s|
  }

  /** `is_numeric($code)`: integers are numeric, null is not, and a string
      is numeric when it is a numeric string. */
  function IsNumeric(code: Code): (r: bool)
    ensures code.IntCode? ==> r
    ensures code.NullCode? ==> !r
    ensures code.StrCode? ==> (r <==> IsNumericString(code.s))
  {
    match code
    case IntCode(_) => true
    case StrCode(s) => IsNumericString(s)
    case NullCode => false
  }

  /** A non-empty run of digits, such as the SQLSTATE "23000", is numeric. */
  lemma {:induction false} DigitsAreNumeric(s: string)
    requires |s| > 0
    requires forall i :: 0 <= i < |s| ==> IsDigit(s[i])
    ensures IsNumericString(s)
  {
    assert !IsSpace(s[0]);
    assert SkipSpace(s, 0) == 0;
    assert SkipDigits(s, 0) == |s|;
  }

  /** A string without a single digit is never numeric. */
  lemma NoDigitNotNumeric(s: string)
    requires forall i :: 0 <= i < |s| ==> !IsDigit(s[i])
    ensures !IsNumericString(s)
  {
    var a := SkipSpace(s, 0);
    var b := if a < |s| && (s[a] == '+' || s[a] == '-') then a + 1 else a;
    assert SkipDigits(s, b) == b;
    var c := b;
    if c < |s| && s[c] == '.' {
      assert SkipDigits(s, c + 1) == c + 1;
    }
  }

  /** A string that starts with something other than white space, a sign, a
      digit or a decimal point is not numeric: an SQLSTATE code such as
      "HY000" therefore falls back to the driver's error info. */
  lemma LetterFirstNotNumeric(s: string)
    requires |s| > 0
    requires !IsSpace(s[0]) && !IsDigit(s[0]) && s[0] != '+' && s[0] != '-' && s[0] != '.'
    ensures !IsNumericString(s)
  {
    assert SkipSpace(s, 0) == 0;
    assert SkipDigits(s, 0) == 0;
  }
}
