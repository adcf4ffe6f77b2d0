/** The string primitives of PHP that the client relies on: `strtoupper`,
    decimal text of integers, and the numeric prefix that the `(int)` and
    `(float)` casts and the loose `==` read from a string. */
module PhpText {

  /** The range of PHP's 64-bit `int`. */
  const IntMin: int := -0x8000_0000_0000_0000
  const IntMax: int := 0x7FFF_FFFF_FFFF_FFFF

  predicate InIntRange(n: int)
  {
    IntMin <= n <= IntMax
  }

  /** Saturation to the `int` range, as PHP applies when a numeric string
      is too large for an integer. */
  function Saturate(n: int): (r: int)
    ensures InIntRange(r)
    ensures InIntRange(n) ==> r == n
    ensures n > IntMax ==> r == IntMax
    ensures n < IntMin ==> r == IntMin
  {
    if n > IntMax then IntMax else if n < IntMin then IntMin else n
  }

  // ---------------------------------------------------------------------
  // Case mapping

  predicate IsLower(c: char)
  {
    'a' <= c <= 'z'
  }

  function UpperChar(c: char): char
  {
    if IsLower(c) then (c as int - 32) as char else c
  }

  /** Two characters that are equal up to the case of an ASCII letter. */
  predicate SameLetterIgnoringCase(x: char, y: char)
  {
    || x == y
    || (IsLower(x) && y as int == x as int - 32)
    || (IsLower(y) && x as int == y as int - 32)
  }

  /** Two strings that are equal up to the case of ASCII letters. */
  predicate SameIgnoringCase(a: string, b: string)
  {
    |a| == |b| && forall i | 0 <= i < |a| :: SameLetterIgnoringCase(a[i], b[i])
  }

  /** `strtoupper`: ASCII letters raised, every other character kept.
      The result holds no lower-case letter and matches the input up to
      case, which together fix it uniquely. */
  function Upper(s: string): (r: string)
    ensures forall i | 0 <= i < |r| :: !IsLower(r[i])
    ensures SameIgnoringCase(r, s)
  {
    seq(|s|, i requires 0 <= i < |s| => UpperChar(s[i]))
  }

  /** Upper-casing identifies exactly the strings that differ only in case. */
  lemma UpperIdentifiesCaseVariants(a: string, b: string)
    ensures Upper(a) == Upper(b) <==> SameIgnoringCase(a, b)
  {
    if Upper(a) == Upper(b) {
      forall i | 0 <= i < |a|
        ensures SameLetterIgnoringCase(a[i], b[i])
      {
        assert Upper(a)[i] == Upper(b)[i];
      }
    }
    if SameIgnoringCase(a, b) {
      forall i | 0 <= i < |a|
        ensures Upper(a)[i] == Upper(b)[i]
      {
        assert SameLetterIgnoringCase(a[i], b[i]);
      }
    }
  }

  /** Upper-casing an upper-cased string changes nothing. */
  lemma UpperIdempotent(s: string)
    ensures Upper(Upper(s)) == Upper(s)
  {
    assert forall i | 0 <= i < |s| :: Upper(Upper(s))[i] == Upper(s)[i];
  }

  // ---------------------------------------------------------------------
  // Decimal digits

  predicate IsDigit(c: char)
  {
    '0' <= c <= '9'
  }

  predicate AllDigits(s: string)
  {
    forall i | 0 <= i < |s| :: IsDigit(s[i])
  }

  function DigitChar(d: nat): (c: char)
    requires d < 10
    ensures IsDigit(c)
  {
    ('0' as int + d) as char
  }

  /** The number a string of decimal digits denotes, most significant first. */
  function DigitsValue(s: string): nat
    requires AllDigits(s)
    decreases |s|
  {
    if |s| == 0 then 0
    else DigitsValue(s[..|s| - 1]) * 10 + (s[|s| - 1] as int - '0' as int)
  }

  lemma DigitsOfConcat(a: string, b: string)
    requires AllDigits(a) && AllDigits(b)
    ensures AllDigits(a + b)
  {
  }

  /** The decimal text of a natural number: digits only, never empty,
      without a leading zero, and denoting the number. */
  function NatText(n: nat): (r: string)
    ensures 0 < |r| && AllDigits(r)
    ensures r[0] == '0' ==> n == 0
    ensures DigitsValue(r) == n
  {
    if n < 10 then [DigitChar(n)]
    else
      var r := NatText(n / 10) + [DigitChar(n % 10)];
      assert r[..|r| - 1] == NatText(n / 10);
      r
  }

  /** The decimal text of an integer, as PHP's `(string)` writes it. */
  function IntText(n: int): (r: string)
    ensures 0 < |r|
    ensures n < 0 <==> r[0] == '-'
    ensures n >= 0 ==> r == NatText(n)
    ensures n < 0 ==> r[1..] == NatText(-n)
  {
    if n < 0 then "-" + NatText(-n) else NatText(n)
  }

  // ---------------------------------------------------------------------
  // Numeric strings

  /** The characters PHP skips before a number: space, tab, newline,
      vertical tab, form feed, carriage return. */
  predicate IsWhitespace(c: char)
  {
    c == ' ' || 9 <= c as int <= 13
  }

  predicate AllWhitespace(s: string)
  {
    forall i | 0 <= i < |s| :: IsWhitespace(s[i])
  }

  /** The string after its leading whitespace. */
  function TrimLeft(s: string): (r: string)
    ensures |r| <= |s| && r == s[|s| - |r|..]
    ensures AllWhitespace(s[..|s| - |r|])
    ensures |r| > 0 ==> !IsWhitespace(r[0])
    decreases |s|
  {
    if |s| > 0 && IsWhitespace(s[0]) then
      var r := TrimLeft(s[1..]);
      assert s[..|s| - |r|] == [s[0]] + s[1..][..|s| - 1 - |r|];
      r
    else s
  }

  /** The length of the run of digits that starts the string. */
  function DigitRun(s: string): (n: nat)
    ensures n <= |s|
    ensures AllDigits(s[..n])
    ensures n < |s| ==> !IsDigit(s[n])
    decreases |s|
  {
    if |s| > 0 && IsDigit(s[0]) then
      var n := 1 + DigitRun(s[1..]);
      assert s[..n] == [s[0]] + s[1..][..n - 1];
      n
    else 0
  }

  lemma DigitRunOfDigits(s: string)
    requires AllDigits(s)
    ensures DigitRun(s) == |s|
  {
  }

  /** The pieces of the numeric prefix of a string: an optional sign, the
      digits before the point, the digits after it, and what follows. */
  datatype Numeral = Numeral(negative: bool, whole: string, fraction: string, rest: string)

  /** The longest prefix PHP reads as a number: leading whitespace, an
      optional `+` or `-`, digits, and optionally a point and more digits.
      Exponents (`1e3`) and hexadecimal forms are not read. */
  function ScanNumeral(s: string): (n: Numeral)
    ensures AllDigits(n.whole) && AllDigits(n.fraction)
    ensures |n.rest| <= |s|
  {
    var t := TrimLeft(s);
    var signed := |t| > 0 && (t[0] == '-' || t[0] == '+');
    var u := if signed then t[1..] else t;
    var w := DigitRun(u);
    var v := u[w..];
    if |v| > 0 && v[0] == '.' then
      var f := DigitRun(v[1..]);
      Numeral(signed && t[0] == '-', u[..w], v[1..][..f], v[1..][f..])
    else
      Numeral(signed && t[0] == '-', u[..w], "", v)
  }

  /** A finite decimal number `units / 10^scale`. PHP floats are modelled
      by these: every float the client produces comes from a decimal string,
      an integer or a boolean. */
  datatype Decimal = Decimal(units: int, scale: nat)

  function Pow10(k: nat): (p: nat)
    ensures p >= 1
  {
    if k == 0 then 1 else 10 * Pow10(k - 1)
  }

  function Signed(negative: bool, n: nat): int
  {
    if negative then 0 - n as int else n
  }

  /** `(int)` of a string: the whole part of its numeric prefix, saturated
      to the `int` range; a string without one reads as 0. */
  function LeadingInt(s: string): (r: int)
    ensures InIntRange(r)
  {
    var n := ScanNumeral(s);
    Saturate(Signed(n.negative, DigitsValue(n.whole)))
  }

  /** `(float)` of a string: its numeric prefix, point included. */
  function LeadingDecimal(s: string): (d: Decimal)
    ensures d.scale == |ScanNumeral(s).fraction|
  {
    var n := ScanNumeral(s);
    DigitsOfConcat(n.whole, n.fraction);
    Decimal(Signed(n.negative, DigitsValue(n.whole + n.fraction)), |n.fraction|)
  }

  /** A numeric string in the sense of PHP 8: the numeric prefix holds at
      least one digit and only whitespace follows it. */
  predicate IsNumericString(s: string)
  {
    var n := ScanNumeral(s);
    |n.whole| + |n.fraction| > 0 && AllWhitespace(n.rest)
  }

  /** Two decimals that denote the same number. */
  predicate SameNumber(x: Decimal, y: Decimal)
  {
    x.units * Pow10(y.scale) == y.units * Pow10(x.scale)
  }

  /** The side to which PHP 8's numeric-string scanner reports an integer
      overflow: 1 or -1 when twenty or more digits (leading zeros aside)
      precede the point, or when a string without a point denotes an
      integer outside the `int` range; 0 otherwise. */
  function OverflowSide(s: string): (side: int)
    ensures side != 0 ==> !InIntRange(Signed(ScanNumeral(s).negative, DigitsValue(ScanNumeral(s).whole)))
    ensures side != 0 ==> (side < 0 <==> ScanNumeral(s).negative)
  {
    var n := ScanNumeral(s);
    var whole := DigitsValue(n.whole);
    var wide := 10_000_000_000_000_000_000 <= whole || ('.' !in s && !InIntRange(Signed(n.negative, whole)));
    if !wide then 0 else if n.negative then -1 else 1
  }

  /** PHP 8's `==` between two strings: numerically when both are numeric
      strings, character by character otherwise. When both denote integers
      that overflow `int` on the same side, a comparison through doubles
      could lose the difference, so PHP compares their text instead. */
  predicate LooseEquals(a: string, b: string)
  {
    if IsNumericString(a) && IsNumericString(b) then
      if OverflowSide(a) != 0 && OverflowSide(a) == OverflowSide(b) then a == b
      else SameNumber(LeadingDecimal(a), LeadingDecimal(b))
    else a == b
  }

  /** A run of digits, after an optional minus sign, is read whole and
      leaves nothing behind. */
  lemma ScanSignedDigits(negative: bool, digits: string)
    requires 0 < |digits| && AllDigits(digits)
    ensures ScanNumeral((if negative then "-" else "") + digits)
         == Numeral(negative, digits, "", "")
  {
    var t := (if negative then "-" else "") + digits;
    assert !IsWhitespace(t[0]);
    assert TrimLeft(t) == t;
    var u := if negative then t[1..] else t;
    assert u == digits;
    DigitRunOfDigits(digits);
    assert u[..DigitRun(u)] == digits;
  }

  /** Two strings of digits are loosely equal exactly when they denote the
      same number, leading zeros notwithstanding, unless both exceed the
      `int` range: then only the same text is equal. */
  lemma LooseEqualsOnDigits(a: string, b: string)
    requires 0 < |a| && AllDigits(a)
    requires 0 < |b| && AllDigits(b)
    ensures LooseEquals(a, b) <==>
              if IntMax < DigitsValue(a) && IntMax < DigitsValue(b) then a == b
              else DigitsValue(a) == DigitsValue(b)
  {
    NumericDigits(a);
    NumericDigits(b);
  }

  /** A leading zero keeps the number a string of digits denotes, and so
      its loose equality, only while that number fits in an `int`. */
  lemma LeadingZeroLooseEquality(s: string)
    requires 0 < |s| && AllDigits(s)
    ensures LooseEquals("0" + s, s) <==> DigitsValue(s) <= IntMax
  {
    assert DigitsValue("0") == 0;
    DigitsValueConcat("0", s);
    assert |"0" + s| != |s|;
    LooseEqualsOnDigits("0" + s, s);
  }

  /** A non-empty string of digits is numeric, reads as the number it
      denotes, and overflows exactly when that number exceeds `int`. */
  lemma NumericDigits(a: string)
    requires 0 < |a| && AllDigits(a)
    ensures IsNumericString(a)
    ensures LeadingDecimal(a) == Decimal(DigitsValue(a), 0)
    ensures OverflowSide(a) == if IntMax < DigitsValue(a) then 1 else 0
  {
    ScanSignedDigits(false, a);
    assert "" + a == a;
    assert ScanNumeral(a) == Numeral(false, a, "", "");
    assert a + "" == a;
  }

  /** Zeros in front of digits do not change their value. */
  lemma {:induction false} DigitsValueConcat(z: string, s: string)
    requires AllDigits(z) && AllDigits(s) && DigitsValue(z) == 0
    ensures AllDigits(z + s) && DigitsValue(z + s) == DigitsValue(s)
    decreases |s|
  {
    if |s| > 0 {
      var init := s[..|s| - 1];
      DigitsValueConcat(z, init);
      assert (z + s)[..|z + s| - 1] == z + init;
    } else {
      assert z + s == z;
    }
  }

  /** The value of digits with one more digit appended. */
  lemma DigitsValueSnoc(s: string, c: char)
    requires AllDigits(s) && IsDigit(c)
    ensures AllDigits(s + [c])
    ensures DigitsValue(s + [c]) == DigitsValue(s) * 10 + (c as int - '0' as int)
  {
    assert (s + [c])[..|s|] == s;
  }

  /** Reading back the decimal text of an integer in range gives the integer. */
  lemma {:induction false} IntTextRoundTrip(n: int)
    requires InIntRange(n)
    ensures LeadingInt(IntText(n)) == n
  {
    var digits := NatText(if n < 0 then -n else n);
    assert IntText(n) == (if n < 0 then "-" else "") + digits;
    ScanSignedDigits(n < 0, digits);
  }
}
