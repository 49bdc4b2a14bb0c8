/** PHP 8's loose comparison `==` of two strings, as `switch` uses it: two
    numeric strings compare by value, anything else compares as text.
    Values are exact decimals here; PHP rounds long mantissas to a double. */
module PhpCompare {
  import opened Basics

  predicate IsDigit(c: char) {
    '0' <= c <= '9'
  }

  predicate AllDigits(s: string) {
    forall i :: 0 <= i < |s| ==> IsDigit(s[i])
  }

  /** The whitespace a numeric string may carry before and after the number:
      space, tab, newline, carriage return, vertical tab and form feed. */
  predicate IsNumericSpace(c: char) {
    c == ' ' || c == '\t' || c == '\n' || c == '\r' || c == '\U{B}' || c == '\U{C}'
  }

  /** Length of the longest prefix of `s` whose characters satisfy `IsDigit`. */
  function DigitRun(s: string): (n: nat)
    ensures n <= |s| && AllDigits(s[..n])
    ensures n < |s| ==> !IsDigit(s[n])
  {
    if s == [] || !IsDigit(s[0]) then 0
    else
      var m := DigitRun(s[1..]);
      assert s[1..][..m] == s[1..m + 1];
      1 + m
  }

  /** Length of the longest prefix of numeric whitespace. */
  function SpaceRun(s: string): (n: nat)
    ensures n <= |s|
    ensures forall i :: 0 <= i < n ==> IsNumericSpace(s[i])
    ensures n < |s| ==> !IsNumericSpace(s[n])
  {
    if s == [] || !IsNumericSpace(s[0]) then 0 else 1 + SpaceRun(s[1..])
  }

  /** Length of the longest suffix of numeric whitespace. */
  function TrailingSpaceRun(s: string): (n: nat)
    ensures n <= |s|
    ensures forall i :: |s| - n <= i < |s| ==> IsNumericSpace(s[i])
    ensures n < |s| ==> !IsNumericSpace(s[|s| - n - 1])
    decreases |s|
  {
    if s == [] || !IsNumericSpace(s[|s| - 1]) then 0 else 1 + TrailingSpaceRun(s[..|s| - 1])
  }

  function Pow10(n: nat): (r: nat)
    ensures r >= 1
  {
    if n == 0 then 1 else 10 * Pow10(n - 1)
  }

  /** The value of a string of decimal digits, most significant first. */
  function DigitsValue(ds: string): nat
    requires AllDigits(ds)
  {
    if ds == [] then 0
    else
      assert forall i :: 0 <= i < |ds| - 1 ==> ds[1..][i] == ds[i + 1];
      var d: nat := ds[0] as int - '0' as int;
      assert d * Pow10(|ds| - 1) >= 0;
      d * Pow10(|ds| - 1) + DigitsValue(ds[1..])
  }

  /** A number read from a numeric string: `mantissa` × 10^`scale`, negated
      when `negative`. */
  datatype Number = Number(negative: bool, mantissa: nat, scale: int)

  /** An optional `+` or `-`, then the rest. */
  function SplitSign(s: string): (bool, string) {
    if s != [] && (s[0] == '+' || s[0] == '-') then (s[0] == '-', s[1..]) else (false, s)
  }

  /** Digits with at most one decimal point and at least one digit, then
      optionally `e` or `E`, an optional sign and at least one digit; the
      whole string must be used. */
  function ParseUnsigned(negative: bool, b: string): Option<Number> {
    var i := DigitRun(b);
    var whole := b[..i];
    var r := b[i..];
    var (frac, r2) :=
      if r != [] && r[0] == '.' then
        var f := DigitRun(r[1..]);
        (r[1..][..f], r[1..][f..])
      else ([], r);
    if |whole| + |frac| == 0 then None
    else
      AllDigitsConcat(whole, frac);
      var mantissa := DigitsValue(whole + frac);
      if r2 == [] then Some(Number(negative, mantissa, -|frac|))
      else if r2[0] == 'e' || r2[0] == 'E' then
        var (eneg, ed) := SplitSign(r2[1..]);
        if ed != [] && DigitRun(ed) == |ed| then
          assert ed[..|ed|] == ed;
          var e: int := DigitsValue(ed);
          Some(Number(negative, mantissa, (if eneg then -e else e) - |frac|))
        else None
      else None
  }

  lemma AllDigitsConcat(a: string, b: string)
    requires AllDigits(a) && AllDigits(b)
    ensures AllDigits(a + b)
  {
    assert forall i :: |a| <= i < |a + b| ==> (a + b)[i] == b[i - |a|];
  }

  /** PHP 8's reading of a whole string as a number: leading and trailing
      whitespace, an optional sign, then a decimal or exponent literal; None
      when the string is not numeric. */
  function ParseNumber(s: string): Option<Number> {
    var lead := SpaceRun(s);
    var core := s[lead..];
    var body := core[..|core| - TrailingSpaceRun(core)];
    var (negative, rest) := SplitSign(body);
    ParseUnsigned(negative, rest)
  }

  function Signed(n: Number): int {
    if n.negative then -(n.mantissa as int) else n.mantissa
  }

  /** Two numbers denote the same value. */
  predicate SameValue(a: Number, b: Number) {
    var m := if a.scale <= b.scale then a.scale else b.scale;
    Signed(a) * Pow10(a.scale - m) == Signed(b) * Pow10(b.scale - m)
  }

  /** `$x == $y` for two strings. */
  predicate LooseEquals(x: string, y: string) {
    match (ParseNumber(x), ParseNumber(y))
    case (Some(a), Some(b)) => SameValue(a, b)
    case _ => x == y
  }

  /** Leading zeros do not change the value of a digit string. */
  lemma {:induction false} LeadingZerosValue(z: nat, ds: string)
    requires AllDigits(ds)
    ensures AllDigits(Zeros(z) + ds)
    ensures DigitsValue(Zeros(z) + ds) == DigitsValue(ds)
    decreases z
  {
    if z > 0 {
      LeadingZerosValue(z - 1, ds);
      var w := Zeros(z) + ds;
      assert w[0] == '0';
      assert w[1..] == Zeros(z - 1) + ds;
      assert AllDigits(w);
      assert DigitsValue(w) == 0 * Pow10(|w| - 1) + DigitsValue(w[1..]);
      assert DigitsValue(w[1..]) == DigitsValue(ds);
    } else {
      assert Zeros(z) + ds == ds;
    }
  }

  function Zeros(n: nat): (r: string)
    ensures |r| == n && forall i :: 0 <= i < n ==> r[i] == '0'
  {
    if n == 0 then [] else "0" + Zeros(n - 1)
  }

  /** A non-empty run of digits is numeric and reads as its own value. */
  lemma DigitStringIsNumber(ds: string)
    requires ds != [] && AllDigits(ds)
    ensures ParseNumber(ds) == Some(Number(false, DigitsValue(ds), 0))
  {
    assert SpaceRun(ds) == 0;
    assert ds[0..] == ds;
    assert TrailingSpaceRun(ds) == 0;
    assert ds[..|ds|] == ds;
    assert DigitRun(ds) == |ds| by {
      DigitRunOfDigits(ds);
    }
    assert ds + [] == ds;
  }

  lemma {:induction false} DigitRunOfDigits(ds: string)
    requires AllDigits(ds)
    ensures DigitRun(ds) == |ds|
  {
    if ds != [] {
      DigitRunOfDigits(ds[1..]);
    }
  }

  /** Two non-empty digit strings are loosely equal exactly when their
      values are equal, so "01" == "1" holds in PHP. */
  lemma DigitStringsCompareByValue(x: string, y: string)
    requires x != [] && AllDigits(x) && y != [] && AllDigits(y)
    ensures LooseEquals(x, y) <==> DigitsValue(x) == DigitsValue(y)
  {
    DigitStringIsNumber(x);
    DigitStringIsNumber(y);
  }

  predicate NoDigits(s: string) {
    forall i :: 0 <= i < |s| ==> !IsDigit(s[i])
  }

  /** A string holding no digit is never numeric, so it is loosely equal to
      another string only when the two are identical. */
  lemma NoDigitsComparesAsText(x: string, y: string)
    requires NoDigits(x)
    ensures LooseEquals(x, y) <==> x == y
  {
    NoDigitsNotNumeric(x);
  }

  lemma NoDigitsNotNumeric(x: string)
    requires NoDigits(x)
    ensures ParseNumber(x).None?
  {
    var lead := SpaceRun(x);
    NoDigitsSlice(x, lead, |x|);
    var core := x[lead..];
    var k := |core| - TrailingSpaceRun(core);
    NoDigitsSlice(core, 0, k);
    assert core[0..k] == core[..k];
    var body := core[..k];
    NoDigitsAfterSign(body);
    var (negative, rest) := SplitSign(body);
    NoDigitsUnsigned(negative, rest);
  }

  lemma NoDigitsSlice(s: string, i: nat, j: nat)
    requires NoDigits(s) && i <= j <= |s|
    ensures NoDigits(s[i..j])
  {
    assert forall k :: 0 <= k < j - i ==> s[i..j][k] == s[i + k];
  }

  lemma NoDigitsAfterSign(s: string)
    requires NoDigits(s)
    ensures NoDigits(SplitSign(s).1)
  {
    if s != [] && (s[0] == '+' || s[0] == '-') {
      NoDigitsSlice(s, 1, |s|);
      assert s[1..|s|] == s[1..];
    }
  }

  /** Without a digit there is neither a whole part nor a fraction. */
  lemma NoDigitsUnsigned(negative: bool, b: string)
    requires NoDigits(b)
    ensures ParseUnsigned(negative, b).None?
  {
    assert DigitRun(b) == 0;
    assert b[0..] == b;
    if b != [] && b[0] == '.' {
      var after := b[1..];
      assert after == [] || !IsDigit(after[0]);
      assert DigitRun(after) == 0;
    }
  }
}
