/** Character classes and numeric literals shared by the tokenizer, the converter and
    the postfix evaluator (`_is_number`, `_to_decimal`, `str.isdigit`, `str.isspace`). */
module Lexemes {

  /** `ch.isdigit()` for the ASCII digits. */
  predicate IsDigit(c: char) {
    '0' <= c <= '9'
  }

  /** `ch.isspace()`: every character Python classes as whitespace. */
  predicate IsSpace(c: char) {
    c == ' ' || '\t' <= c <= '\r' || '\U{1C}' <= c <= '\U{1F}' || c == '\U{85}' || c == '\U{A0}'
    || c == '\U{1680}' || '\U{2000}' <= c <= '\U{200A}' || c == '\U{2028}' || c == '\U{2029}'
    || c == '\U{202F}' || c == '\U{205F}' || c == '\U{3000}'
  }

  // The six single-character tokens + - * / ( ).
  predicate IsSymbol(c: char) {
    c == '+' || c == '-' || c == '*' || c == '/' || c == '(' || c == ')'
  }

  /** A character a numeric run may contain. */
  predicate IsRunChar(c: char) {
    IsDigit(c) || c == '.'
  }

  /** A character the tokenizer accepts at all. */
  predicate IsAllowed(c: char) {
    IsSpace(c) || IsSymbol(c) || IsRunChar(c)
  }

  /** `s.isdigit()`: non-empty and digits only. */
  predicate IsDigits(s: string) {
    |s| > 0 && AllDigits(s)
  }

  predicate AllDigits(s: string) {
    forall k :: 0 <= k < |s| ==> IsDigit(s[k])
  }

  predicate AllRunChars(s: string) {
    forall k :: 0 <= k < |s| ==> IsRunChar(s[k])
  }

  /** `s.count(".")`. */
  function Dots(s: string): (n: nat)
    ensures n <= |s|
    ensures n == 0 <==> (forall k :: 0 <= k < |s| ==> s[k] != '.')
  {
    if s == [] then 0 else (if s[0] == '.' then 1 else 0) + Dots(s[1..])
  }

  /** Position of the first '.' in `s`. */
  function DotIndex(s: string): (k: nat)
    requires Dots(s) > 0
    ensures k < |s| && s[k] == '.'
    ensures forall j :: 0 <= j < k ==> s[j] != '.'
  {
    if s[0] == '.' then 0 else 1 + DotIndex(s[1..])
  }

  /** `_is_number(token)`, branch by branch. */
  predicate IsNumber(token: string) {
    if |token| == 0 then false
    else if token[0] == '.' then Dots(token) == 1 && IsDigits(token[1..])
    else if IsDigit(token[0]) then
      if Dots(token) == 0 then IsDigits(token)
      else if Dots(token) == 1 then
        var k := DotIndex(token);
        var integer, fractional := token[..k], token[k + 1..];
        (integer == [] || IsDigits(integer)) && IsDigits(fractional)
      else false
    else false
  }

  /** The shape of a decimal literal: digits, or optional digits, a point and digits. */
  predicate IsNumeral(token: string) {
    IsDigits(token)
    || exists k :: 0 <= k < |token| && token[k] == '.' && AllDigits(token[..k]) && IsDigits(token[k + 1..])
  }

  lemma DotsSplit(s: string, k: nat)
    requires k < |s| && s[k] == '.'
    ensures Dots(s) == Dots(s[..k]) + 1 + Dots(s[k + 1..])
  {
    if k > 0 {
      DotsSplit(s[1..], k - 1);
      assert s[1..][..k - 1] == s[1..k];
      assert s[..k][1..] == s[1..k];
      assert s[1..][k..] == s[k + 1..];
    } else {
      assert s[1..] == s[k + 1..];
    }
  }

  /** `_is_number` accepts exactly the decimal numerals: "12", ".5", "3.25" but not "5.",
      ".", "1.2.3", an operator or a parenthesis. */
  lemma IsNumberIsNumeral(token: string)
    ensures IsNumber(token) <==> IsNumeral(token)
  {
    if IsNumber(token) {
      NumberIsNumeral(token);
    }
    if IsNumeral(token) && !IsDigits(token) {
      var k :| 0 <= k < |token| && token[k] == '.' && AllDigits(token[..k]) && IsDigits(token[k + 1..]);
      PointedIsNumber(token, k);
    }
  }

  lemma NumberIsNumeral(token: string)
    requires IsNumber(token)
    ensures IsNumeral(token)
  {
    if token[0] == '.' {
      assert token[..0] == [];
      assert token[1..] == token[0 + 1..];
    } else if Dots(token) == 1 {
      var k := DotIndex(token);
      assert token[k] == '.';
    }
  }

  /** Digits, a point at `k` and at least one digit make a number. */
  lemma PointedIsNumber(token: string, k: nat)
    requires k < |token| && token[k] == '.' && AllDigits(token[..k]) && IsDigits(token[k + 1..])
    ensures IsNumber(token)
  {
    DotsSplit(token, k);
    NoDots(token[..k]);
    NoDots(token[k + 1..]);
    if k > 0 {
      assert IsDigit(token[..k][0]);
      assert DotIndex(token) == k;
    } else {
      assert token[1..] == token[k + 1..];
    }
  }

  lemma NoDots(s: string)
    requires AllDigits(s)
    ensures Dots(s) == 0
  {
    forall j | 0 <= j < |s| ensures s[j] != '.' { assert IsDigit(s[j]); }
  }

  /** Value of one ASCII digit. */
  function DigitValue(c: char): (d: nat)
    requires IsDigit(c)
    ensures d < 10
  {
    (c as int - '0' as int) as nat
  }

  /** Value of a digit string read as a base-10 natural number ("" reads as 0). */
  function DigitsValue(s: string): (n: nat)
    requires AllDigits(s)
  {
    if s == [] then 0 else 10 * DigitsValue(s[..|s| - 1]) + DigitValue(s[|s| - 1])
  }

  function Pow10(n: nat): (p: nat)
    ensures p >= 1
  {
    if n == 0 then 1 else 10 * Pow10(n - 1)
  }

  /** `_to_decimal(token)` on a literal `_is_number` accepts: `int.frac` denotes
      int + frac / 10^|frac| exactly. */
  function LiteralValue(token: string): (v: real)
    requires IsNumber(token)
    ensures v >= 0.0
  {
    IsNumberIsNumeral(token);
    if Dots(token) == 0 then
      assert AllDigits(token) by { if token[0] == '.' { assert false; } }
      DigitsValue(token) as real
    else
      var k := DotIndex(token);
      assert AllDigits(token[..k]) && AllDigits(token[k + 1..]) by { NumeralParts(token, k); }
      DecimalValue(token[..k], token[k + 1..])
  }

  /** The number written `integer.fractional`. */
  function DecimalValue(integer: string, fractional: string): (v: real)
    requires AllDigits(integer) && AllDigits(fractional)
    ensures v >= 0.0
  {
    DigitsValue(integer) as real + DigitsValue(fractional) as real / Pow10(|fractional|) as real
  }

  lemma NumeralParts(token: string, k: nat)
    requires IsNumeral(token) && k < |token| && token[k] == '.'
    ensures AllDigits(token[..k]) && IsDigits(token[k + 1..])
  {
    var j :| 0 <= j < |token| && token[j] == '.' && AllDigits(token[..j]) && IsDigits(token[j + 1..]);
  }

  lemma AllDigitsAppend(a: string, b: string)
    requires AllDigits(a) && AllDigits(b)
    ensures AllDigits(a + b)
  {
    forall k | 0 <= k < |a + b| ensures IsDigit((a + b)[k]) {
      if k < |a| { assert (a + b)[k] == a[k]; } else { assert (a + b)[k] == b[k - |a|]; }
    }
  }

  /** Reading a digit string splits at any point: the left part is scaled by the
      length of the right part. */
  lemma {:induction false} DigitsValueAppend(a: string, b: string)
    requires AllDigits(a) && AllDigits(b)
    ensures AllDigits(a + b)
    ensures DigitsValue(a + b) == DigitsValue(a) * Pow10(|b|) + DigitsValue(b)
  {
    AllDigitsAppend(a, b);
    if b == [] {
      assert a + b == a;
    } else {
      var b' := b[..|b| - 1];
      var last := b[|b| - 1];
      assert AllDigits(b') by { forall k | 0 <= k < |b'| ensures IsDigit(b'[k]) { assert b'[k] == b[k]; } }
      DigitsValueAppend(a, b');
      assert (a + b)[..|a + b| - 1] == a + b';
      assert (a + b)[|a + b| - 1] == last;
      var d := DigitValue(last);
      var x, y, p := DigitsValue(a), DigitsValue(b'), Pow10(|b'|);
      assert DigitsValue(a + b) == 10 * DigitsValue(a + b') + d;
      assert DigitsValue(b) == 10 * y + d;
      assert Pow10(|b|) == 10 * p;
      ShiftDigit(x, y, p, d);
    }
  }

  lemma ShiftDigit(x: int, y: int, p: int, d: int)
    ensures 10 * (x * p + y) + d == x * (10 * p) + (10 * y + d)
  {
    calc {
      10 * (x * p + y) + d;
      10 * (x * p) + 10 * y + d;
      { assert 10 * (x * p) == x * (10 * p); }
      x * (10 * p) + (10 * y + d);
    }
  }

  /** `integer.fractional` is the coefficient `integer fractional` (the point removed)
      times 10^-|fractional|, as a decimal floating-point literal denotes. */
  lemma DecimalIsScaledCoefficient(integer: string, fractional: string)
    requires AllDigits(integer) && AllDigits(fractional)
    ensures AllDigits(integer + fractional)
    ensures DecimalValue(integer, fractional)
            == DigitsValue(integer + fractional) as real / Pow10(|fractional|) as real
  {
    DigitsValueAppend(integer, fractional);
    ScaleByPower(DigitsValue(integer), DigitsValue(fractional), Pow10(|fractional|),
                 DigitsValue(integer + fractional), DecimalValue(integer, fractional));
  }

  lemma ScaleByPower(x: nat, y: nat, p: nat, c: nat, v: real)
    requires p >= 1 && c == x * p + y && v == x as real + y as real / p as real
    ensures v == c as real / p as real
  {
    var pr := p as real;
    assert (y as real / pr) * pr == y as real;
    assert v * pr == x as real * pr + (y as real / pr) * pr;
    assert (x * p) as real == x as real * pr;
  }
}
