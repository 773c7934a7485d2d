/** Python's built-in `float(x)` applied to a decoded JSON value.

    Integers, floats and booleans convert; a string converts when, once
    surrounding whitespace is stripped, it is a decimal literal: an optional
    sign, digits with an optional fraction (single underscores allowed between
    digits), and an optional exponent. `None`, lists and dictionaries raise a
    `TypeError`; a string that is not such a literal raises a `ValueError`.
 */
module PyFloat {
  import opened Results
  import opened JsonValue

  datatype Option<+T> = None | Some(value: T)

  // ---------------------------------------------------------------------
  // Characters

  /** The whitespace `float()` strips from an ASCII string: space, tab,
      line feed, vertical tab, form feed and carriage return. */
  predicate IsSpace(c: char) {
    c == ' ' || ('\t' <= c <= '\r')
  }

  predicate IsDigit(c: char) {
    '0' <= c <= '9'
  }

  function DigitValue(c: char): (d: nat)
    requires IsDigit(c)
    ensures d < 10
  {
    c as int - '0' as int
  }

  predicate IsSign(c: char) {
    c == '+' || c == '-'
  }

  predicate IsExponentMarker(c: char) {
    c == 'e' || c == 'E'
  }

  // ---------------------------------------------------------------------
  // Whitespace stripping

  function TrimStart(s: string): string {
    if |s| > 0 && IsSpace(s[0]) then TrimStart(s[1..]) else s
  }

  function TrimEnd(s: string): string {
    if |s| > 0 && IsSpace(s[|s| - 1]) then TrimEnd(s[..|s| - 1]) else s
  }

  function Strip(s: string): string {
    TrimEnd(TrimStart(s))
  }

  /** Stripping at the front removes exactly the leading whitespace. */
  lemma {:induction false} TrimStartRemovesLeadingSpace(s: string)
    ensures |TrimStart(s)| <= |s| && TrimStart(s) == s[|s| - |TrimStart(s)|..]
    ensures |TrimStart(s)| > 0 ==> !IsSpace(TrimStart(s)[0])
    ensures forall k :: 0 <= k < |s| - |TrimStart(s)| ==> IsSpace(s[k])
  {
    if |s| > 0 && IsSpace(s[0]) {
      TrimStartRemovesLeadingSpace(s[1..]);
    }
  }

  /** Stripping at the back removes exactly the trailing whitespace. */
  lemma {:induction false} TrimEndRemovesTrailingSpace(s: string)
    ensures |TrimEnd(s)| <= |s| && TrimEnd(s) == s[..|TrimEnd(s)|]
    ensures |TrimEnd(s)| > 0 ==> !IsSpace(TrimEnd(s)[|TrimEnd(s)| - 1])
    ensures forall k :: |TrimEnd(s)| <= k < |s| ==> IsSpace(s[k])
  {
    if |s| > 0 && IsSpace(s[|s| - 1]) {
      TrimEndRemovesTrailingSpace(s[..|s| - 1]);
    }
  }

  /** A digit left after stripping was a digit of the original string. */
  lemma StripKeepsDigit(s: string)
    ensures (exists k :: 0 <= k < |Strip(s)| && IsDigit(Strip(s)[k])) ==>
            (exists k :: 0 <= k < |s| && IsDigit(s[k]))
  {
    var u := TrimStart(s);
    TrimStartRemovesLeadingSpace(s);
    TrimEndRemovesTrailingSpace(u);
    var t := TrimEnd(u);
    if k :| 0 <= k < |t| && IsDigit(t[k]) {
      assert t[k] == u[k];
      assert u[k] == s[|s| - |u| + k];
    }
  }

  // ---------------------------------------------------------------------
  // Digit runs

  /** A run of digits in which single underscores may separate digits:
      `digit (["_"] digit)*`. */
  predicate IsDigitPart(s: string) {
    && |s| > 0
    && IsDigit(s[0])
    && IsDigit(s[|s| - 1])
    && (forall k :: 0 <= k < |s| ==> IsDigit(s[k]) || s[k] == '_')
    && (forall k :: 0 <= k < |s| - 1 ==> s[k] == '_' ==> s[k + 1] != '_')
  }

  /** The number the digits of `s` spell, underscores skipped. */
  function DigitsValue(s: string): nat {
    if s == [] then 0
    else
      var c := s[|s| - 1];
      if IsDigit(c) then 10 * DigitsValue(s[..|s| - 1]) + DigitValue(c)
      else DigitsValue(s[..|s| - 1])
  }

  /** How many digits `s` holds, underscores skipped. */
  function DigitCount(s: string): nat {
    if s == [] then 0
    else if IsDigit(s[|s| - 1]) then DigitCount(s[..|s| - 1]) + 1
    else DigitCount(s[..|s| - 1])
  }

  function Pow10(n: nat): (p: nat)
    ensures p >= 1
  {
    if n == 0 then 1 else 10 * Pow10(n - 1)
  }

  /** 10 raised to an integer power, as an exact real. */
  function Scale10(e: int): (p: real)
    ensures p > 0.0
  {
    if e >= 0 then Pow10(e) as real else 1.0 / Pow10(-e) as real
  }

  /** The position of the first character satisfying `p`, or `|s|`. */
  function FirstIndex(s: string, p: char -> bool): (i: nat)
    ensures i <= |s|
    ensures i < |s| ==> p(s[i])
    ensures forall k :: 0 <= k < i ==> !p(s[k])
  {
    if s == [] then 0
    else if p(s[0]) then 0
    else 1 + FirstIndex(s[1..], p)
  }

  // ---------------------------------------------------------------------
  // The literal

  /** `s` without a leading sign, and whether that sign was `-`. */
  function SplitSign(s: string): (r: (bool, string))
    ensures |r.1| <= |s|
  {
    if |s| > 0 && IsSign(s[0]) then (s[0] == '-', s[1..]) else (false, s)
  }

  /** The part before the exponent: `digitpart ["." [digitpart]]` or
      `"." digitpart`. */
  function ParseMantissa(s: string): (r: Option<real>)
    ensures r.Some? ==> r.value >= 0.0
    ensures r.Some? ==> |s| > 0 && (IsDigit(s[0]) || s[0] == '.')
    ensures r.Some? ==> exists k :: 0 <= k < |s| && IsDigit(s[k])
  {
    var dot := FirstIndex(s, c => c == '.');
    if dot == |s| then
      if IsDigitPart(s) then Some(DigitsValue(s) as real) else None
    else
      var whole, fraction := s[..dot], s[dot + 1..];
      if (whole == [] || IsDigitPart(whole))
         && (fraction == [] || IsDigitPart(fraction))
         && !(whole == [] && fraction == [])
      then Some(DigitsValue(whole) as real
                + DigitsValue(fraction) as real / Pow10(DigitCount(fraction)) as real)
      else None
  }

  /** The part after `e` or `E`: `["+" | "-"] digitpart`. */
  function ParseExponent(s: string): Option<int> {
    var (negative, body) := SplitSign(s);
    if IsDigitPart(body)
    then Some(if negative then -(DigitsValue(body) as int) else DigitsValue(body))
    else None
  }

  /** The value of the decimal literal `s` spells, if it spells one. */
  function ParseFloat(s: string): (r: Option<real>)
    ensures r.Some? ==> exists k :: 0 <= k < |s| && IsDigit(s[k])
  {
    StripKeepsDigit(s);
    ParseLiteral(Strip(s))
  }

  /** `m` times ten to the power `e`. */
  function Scaled(m: real, e: int): (x: real)
    ensures m >= 0.0 ==> x >= 0.0
  {
    m * Scale10(e)
  }

  /** The value of a literal with no surrounding whitespace. */
  function ParseLiteral(s: string): (r: Option<real>)
    ensures r.Some? ==> |s| > 0 && (IsSign(s[0]) || IsDigit(s[0]) || s[0] == '.')
    ensures r.Some? ==> exists k :: 0 <= k < |s| && IsDigit(s[k])
    ensures r.Some? && r.value < 0.0 ==> s[0] == '-'
  {
    var (negative, body) := SplitSign(s);
    var magnitude := ParseUnsigned(body);
    if magnitude.Some? then
      Some(if negative then -magnitude.value else magnitude.value)
    else None
  }

  /** A literal without its sign: a mantissa, then optionally `e` or `E` and
      an exponent. */
  function ParseUnsigned(s: string): (r: Option<real>)
    ensures r.Some? ==> r.value >= 0.0
    ensures r.Some? ==> |s| > 0 && (IsDigit(s[0]) || s[0] == '.')
    ensures r.Some? ==> exists k :: 0 <= k < |s| && IsDigit(s[k])
  {
    var e := FirstIndex(s, IsExponentMarker);
    var mantissa := ParseMantissa(s[..e]);
    var exponent := if e == |s| then Some(0) else ParseExponent(s[e + 1..]);
    if mantissa.Some? && exponent.Some? then
      Some(Scaled(mantissa.value, exponent.value))
    else None
  }

  // ---------------------------------------------------------------------
  // float(v)

  /** `float(v)`: the number `v` denotes, or the message of the exception
      Python raises. */
  function ToFloat(v: Json): (r: Result<real>)
    ensures (v.JInt? || v.JFloat? || v.JBool?) ==> r.Ok?
    ensures v.JString? ==> (r.Ok? <==> ParseFloat(v.s).Some?)
    ensures (v.JNull? || v.JArray? || v.JObject?) ==> r.Error?
    ensures v.JInt? ==> r == Ok(v.i as real)
    ensures v.JFloat? ==> r == Ok(v.f)
    ensures v.JBool? ==> r == Ok(if v.b then 1.0 else 0.0)
    ensures v.JString? && ParseFloat(v.s).Some? ==> r == Ok(ParseFloat(v.s).value)
  {
    match v
    case JInt(i) => Ok(i as real)
    case JFloat(f) => Ok(f)
    case JBool(b) => Ok(if b then 1.0 else 0.0)
    case JString(s) =>
      var p := ParseFloat(s);
      if p.Some? then Ok(p.value)
      else Error("could not convert string to float: '" + s + "'")
    case _ =>
      Error("float() argument must be a string or a real number, not '" + TypeName(v) + "'")
  }
}

/** Properties of the `float()` model: what it accepts, what it rejects, and
    that it reads back the decimal numerals a client would send. */
module PyFloatFacts {
  import opened Results
  import opened JsonValue
  import opened PyFloat

  /** The decimal numeral of `n`, most significant digit first. */
  function NatToString(n: nat): (s: string)
    ensures |s| > 0
    ensures forall k :: 0 <= k < |s| ==> IsDigit(s[k])
  {
    if n < 10 then [DigitChar(n)] else NatToString(n / 10) + [DigitChar(n % 10)]
  }

  function DigitChar(d: nat): (c: char)
    requires d < 10
    ensures IsDigit(c) && DigitValue(c) == d
  {
    ('0' as int + d) as char
  }

  lemma {:induction false} NatToStringValue(n: nat)
    ensures DigitsValue(NatToString(n)) == n
    ensures DigitCount(NatToString(n)) == |NatToString(n)|
  {
    var s := NatToString(n);
    if n >= 10 {
      NatToStringValue(n / 10);
      assert s[..|s| - 1] == NatToString(n / 10);
    }
  }

  /** A string that starts and ends with a digit is left alone by stripping
      and sign splitting. */
  lemma {:induction false} BareLiteral(s: string)
    requires |s| > 0 && IsDigit(s[0]) && IsDigit(s[|s| - 1])
    ensures Strip(s) == s && SplitSign(s) == (false, s)
  {
  }

  /** Without a sign, a literal is worth its unsigned part. */
  lemma UnsignedLiteral(s: string, body: string, v: real)
    requires SplitSign(s) == (false, body) && ParseUnsigned(body) == Some(v)
    ensures ParseLiteral(s) == Some(v)
  {
  }

  /** After a `-`, a literal is worth its unsigned part negated. */
  lemma NegatedLiteral(s: string, body: string, v: real)
    requires SplitSign(s) == (true, body) && ParseUnsigned(body) == Some(v)
    ensures ParseLiteral(s) == Some(-v)
  {
  }

  /** Back stripping stops at a non-space first character. */
  lemma {:induction false} TrimEndAfterNonSpace(c: char, s: string)
    requires !IsSpace(c)
    ensures TrimEnd([c] + s) == [c] + TrimEnd(s)
  {
    if |s| > 0 && IsSpace(s[|s| - 1]) {
      assert ([c] + s)[..|s|] == [c] + s[..|s| - 1];
      TrimEndAfterNonSpace(c, s[..|s| - 1]);
    }
  }

  /** A `-` in front of an accepted literal that starts with a digit or `.`
      negates its value, and a `+` keeps it. */
  lemma SignedParse(sign: char, s: string, v: real)
    requires sign == '-' || sign == '+'
    requires |s| > 0 && (IsDigit(s[0]) || s[0] == '.')
    requires ParseFloat(s) == Some(v)
    ensures ParseFloat([sign] + s) == Some(if sign == '-' then -v else v)
  {
    var t := TrimEnd(s);
    assert TrimStart(s) == s;
    assert TrimStart([sign] + s) == [sign] + s;
    TrimEndAfterNonSpace(sign, s);
    TrimEndRemovesTrailingSpace(s);
    assert ParseLiteral(t) == Some(v);
    assert t[0] == s[0];
    assert SplitSign(t) == (false, t);
    assert ParseUnsigned(t) == Some(v);
    assert ([sign] + t)[1..] == t;
    assert SplitSign([sign] + t) == (sign == '-', t);
    if sign == '-' {
      NegatedLiteral([sign] + t, t, v);
    } else {
      UnsignedLiteral([sign] + t, t, v);
    }
  }

  /** Without an exponent marker, the unsigned part is the mantissa. */
  lemma UnsignedWithoutExponent(s: string, v: real)
    requires FirstIndex(s, IsExponentMarker) == |s| && ParseMantissa(s) == Some(v)
    ensures ParseUnsigned(s) == Some(v)
  {
    assert s[..|s|] == s;
    ScaledByOne(v);
  }

  lemma ScaledByOne(v: real)
    ensures Scaled(v, 0) == v
  {
    assert Pow10(0) == 1;
    assert Scale10(0) == 1.0;
  }

  /** `float(str(n))` gives back `n` for every natural number `n`. */
  lemma {:induction false} ParsesNatToString(n: nat)
    ensures ParseFloat(NatToString(n)) == Some(n as real)
  {
    var s := NatToString(n);
    NatToStringValue(n);
    BareLiteral(s);
    IntegerMantissa(s);
    assert FirstIndex(s, IsExponentMarker) == |s|;
    UnsignedWithoutExponent(s, n as real);
    UnsignedLiteral(s, s, n as real);
  }

  /** `float("-" + str(n))` gives back `-n`. */
  lemma {:induction false} ParsesNegatedNatToString(n: nat)
    ensures ParseFloat("-" + NatToString(n)) == Some(-(n as real))
  {
    var s := NatToString(n);
    var t := "-" + s;
    NatToStringValue(n);
    assert Strip(t) == t by {
      assert !IsSpace(t[0]);
      assert t[|t| - 1] == s[|s| - 1];
    }
    assert SplitSign(t) == (true, s);
    IntegerMantissa(s);
    assert FirstIndex(s, IsExponentMarker) == |s|;
    UnsignedWithoutExponent(s, n as real);
    NegatedLiteral(t, s, n as real);
  }

  predicate AllSpace(s: string) {
    forall k :: 0 <= k < |s| ==> IsSpace(s[k])
  }

  lemma {:induction false} TrimStartSkipsPrefix(pre: string, s: string)
    requires AllSpace(pre)
    requires |s| > 0 && !IsSpace(s[0])
    ensures TrimStart(pre + s) == s
  {
    if pre != [] {
      assert (pre + s)[1..] == pre[1..] + s;
      TrimStartSkipsPrefix(pre[1..], s);
    }
  }

  lemma {:induction false} TrimEndSkipsSuffix(s: string, post: string)
    requires AllSpace(post)
    requires |s| > 0 && !IsSpace(s[|s| - 1])
    ensures TrimEnd(s + post) == s
  {
    if post != [] {
      var t := s + post;
      assert t[..|t| - 1] == s + post[..|post| - 1];
      TrimEndSkipsSuffix(s, post[..|post| - 1]);
    }
  }

  /** Whitespace around a literal does not change what it converts to. */
  lemma SurroundingSpaceIgnored(pre: string, s: string, post: string)
    requires AllSpace(pre) && AllSpace(post)
    requires |s| > 0 && !IsSpace(s[0]) && !IsSpace(s[|s| - 1])
    ensures ParseFloat(pre + s + post) == ParseFloat(s)
  {
    assert pre + s + post == pre + (s + post);
    TrimStartSkipsPrefix(pre, s + post);
    TrimEndSkipsSuffix(s, post);
    TrimStartSkipsPrefix([], s);
    TrimEndSkipsSuffix(s, []);
    assert [] + s == s && s + [] == s;
  }

  /** Leading whitespace does not change what a string converts to. */
  lemma LeadingSpaceIgnored(c: char, s: string)
    requires IsSpace(c)
    ensures ParseFloat([c] + s) == ParseFloat(s)
  {
    assert ([c] + s)[1..] == s;
    assert TrimStart([c] + s) == TrimStart(s);
  }

  /** Strings Python rejects. */
  lemma RejectsEmptyString()
    ensures ParseFloat("") == None
  {
  }

  lemma RejectsWord()
    ensures ParseFloat("abc") == None
  {
  }

  lemma RejectsDoubledUnderscore()
    ensures ParseFloat("1__0") == None
  {
    assert Strip("1__0") == "1__0";
    assert SplitSign("1__0") == (false, "1__0");
    assert !IsDigitPart("1__0") by {
      assert "1__0"[1] == '_' && "1__0"[2] == '_';
    }
    assert FirstIndex("1__0", c => c == '.') == 4;
    assert ParseMantissa("1__0") == None;
  }

  lemma RejectsLeadingUnderscore()
    ensures ParseFloat("_1") == None
  {
  }

  lemma RejectsTrailingUnderscore()
    ensures ParseFloat("1_") == None
  {
  }

  lemma RejectsLoneDot()
    ensures ParseFloat(".") == None
  {
  }

  lemma RejectsExponentWithoutDigits()
    ensures ParseFloat("1e") == None
  {
  }

  lemma RejectsDoubledSign()
    ensures ParseFloat("+-1") == None
  {
  }

  /** U+001C counts as whitespace for `str.isspace` but is not stripped by
      `float()`. */
  lemma RejectsFileSeparatorPadding()
    ensures ParseFloat("\U{1C}5") == None
  {
  }

  /** Strings Python accepts, with the values it gives them. */
  lemma AcceptsPaddedUnderscoredDecimal()
    ensures ParseFloat(" 1_000.5\n") == Some(1000.5)
  {
    StripsPadding();
    UnderscoredLiteral();
  }

  lemma StripsPadding()
    ensures Strip(" 1_000.5\n") == "1_000.5"
  {
    assert TrimStart(" 1_000.5\n") == "1_000.5\n";
    assert TrimEnd("1_000.5\n") == "1_000.5";
  }

  lemma UnderscoredLiteral()
    ensures ParseLiteral("1_000.5") == Some(1000.5)
  {
    UnderscoredMantissa();
    UnderscoredUnsigned();
    UnsignedLiteral("1_000.5", "1_000.5", 1000.5);
  }

  lemma UnderscoredUnsigned()
    ensures SplitSign("1_000.5") == (false, "1_000.5")
    ensures ParseMantissa("1_000.5") == Some(1000.5) ==>
      ParseUnsigned("1_000.5") == Some(1000.5)
  {
    var body := "1_000.5";
    assert forall k :: 0 <= k < |body| ==> !IsExponentMarker(body[k]);
    assert FirstIndex(body, IsExponentMarker) == |body|;
    if ParseMantissa(body) == Some(1000.5) {
      UnsignedWithoutExponent(body, 1000.5);
    }
  }

  lemma UnderscoredMantissa()
    ensures ParseMantissa("1_000.5") == Some(1000.5)
  {
    var s := "1_000.5";
    assert forall k :: 0 <= k < 5 ==> s[k] != '.';
    assert FirstIndex(s, c => c == '.') == 5;
    assert "1_000.5"[..5] == "1_000";
    assert "1_000.5"[6..] == "5";
    UnderscoredWhole();
    assert DigitCount("5") == 1 && DigitsValue("5") == 5;
  }

  lemma UnderscoredWhole()
    ensures IsDigitPart("1_000") && IsDigitPart("5")
    ensures DigitsValue("1_000") == 1000
  {
    assert "1_000"[..4] == "1_00";
    assert "1_00"[..3] == "1_0";
    assert "1_0"[..2] == "1_";
    assert "1_"[..1] == "1";
    assert DigitsValue("1_0") == 10;
    assert DigitsValue("1_00") == 100;
  }

  lemma AcceptsSignedFractionWithExponent()
    ensures ParseFloat("-.5e-3") == Some(-0.0005)
  {
    assert Strip("-.5e-3") == "-.5e-3";
    SignedFractionLiteral();
  }

  lemma SignedFractionLiteral()
    ensures ParseLiteral("-.5e-3") == Some(-0.0005)
  {
    assert SplitSign("-.5e-3") == (true, ".5e-3");
    assert FirstIndex(".5e-3", IsExponentMarker) == 2;
    assert ".5e-3"[..2] == ".5";
    assert ".5e-3"[3..] == "-3";
    FractionMantissa();
    assert ParseExponent("-3") == Some(-3);
    assert Scale10(-3) == 0.001;
    UnsignedWithExponent(".5e-3", 2, 0.5, -3);
    assert Scaled(0.5, -3) == 0.0005;
    NegatedLiteral("-.5e-3", ".5e-3", 0.0005);
  }

  lemma FractionMantissa()
    ensures ParseMantissa(".5") == Some(0.5)
  {
    assert FirstIndex(".5", c => c == '.') == 0;
    assert ".5"[..0] == [] && ".5"[1..] == "5";
    assert IsDigitPart("5") && DigitsValue("5") == 5 && DigitCount("5") == 1;
  }

  lemma AcceptsTrailingDot()
    ensures ParseFloat("2.") == Some(2.0)
  {
    assert Strip("2.") == "2.";
    assert SplitSign("2.") == (false, "2.");
    assert FirstIndex("2.", IsExponentMarker) == 2;
    TrailingDotMantissa();
    UnsignedWithoutExponent("2.", 2.0);
    UnsignedLiteral("2.", "2.", 2.0);
  }

  lemma TrailingDotMantissa()
    ensures ParseMantissa("2.") == Some(2.0)
  {
    assert FirstIndex("2.", c => c == '.') == 1;
    assert "2."[..1] == "2" && "2."[2..] == [];
    assert IsDigitPart("2") && DigitsValue("2") == 2;
  }

  lemma AcceptsUpperCaseExponent()
    ensures ParseFloat("+7E2") == Some(700.0)
  {
    assert Strip("+7E2") == "+7E2";
    assert SplitSign("+7E2") == (false, "7E2");
    UpperCaseExponentLiteral();
  }

  lemma UpperCaseExponentLiteral()
    ensures ParseLiteral("+7E2") == Some(700.0)
  {
    assert FirstIndex("7E2", IsExponentMarker) == 1;
    assert "7E2"[..1] == "7" && "7E2"[2..] == "2";
    assert ParseMantissa("7") == Some(7.0);
    assert ParseExponent("2") == Some(2);
    assert Scale10(2) == 100.0;
    UnsignedWithExponent("7E2", 1, 7.0, 2);
    assert Scaled(7.0, 2) == 700.0;
    assert SplitSign("+7E2") == (false, "7E2");
    UnsignedLiteral("+7E2", "7E2", 700.0);
  }

  // ---------------------------------------------------------------------
  // Values of decimal and exponent literals

  predicate AllDigits(s: string) {
    |s| > 0 && forall k :: 0 <= k < |s| ==> IsDigit(s[k])
  }

  /** Every character of a digit string counts as a digit. */
  lemma {:induction false} DigitCountOfDigits(s: string)
    requires forall k :: 0 <= k < |s| ==> IsDigit(s[k])
    ensures DigitCount(s) == |s|
  {
    if s != [] {
      DigitCountOfDigits(s[..|s| - 1]);
    }
  }

  /** `a.b` as a mantissa is `a` plus `b` tenths, hundredths, ... */
  lemma {:induction false} DecimalMantissa(a: string, b: string)
    requires AllDigits(a) && AllDigits(b)
    ensures ParseMantissa(a + "." + b)
         == Some(DigitsValue(a) as real + DigitsValue(b) as real / Pow10(|b|) as real)
  {
    var s := a + "." + b;
    var dot := FirstIndex(s, c => c == '.');
    assert s[|a|] == '.';
    assert forall k :: 0 <= k < |a| ==> s[k] == a[k];
    assert dot == |a|;
    assert s[..dot] == a;
    assert s[dot + 1..] == b;
    DigitCountOfDigits(b);
  }

  /** `float(a + "." + b)` for digit strings `a` and `b`. */
  lemma {:induction false} ParsesDigitsDotDigits(a: string, b: string)
    requires AllDigits(a) && AllDigits(b)
    ensures ParseFloat(a + "." + b)
         == Some(DigitsValue(a) as real + DigitsValue(b) as real / Pow10(|b|) as real)
  {
    var s := a + "." + b;
    assert s[0] == a[0] && s[|s| - 1] == b[|b| - 1];
    BareLiteral(s);
    assert forall k :: 0 <= k < |s| ==> !IsExponentMarker(s[k]) by {
      forall k | 0 <= k < |s|
        ensures !IsExponentMarker(s[k])
      {
        if k < |a| {
          assert s[k] == a[k];
        } else if k > |a| {
          assert s[k] == b[k - |a| - 1];
        }
      }
    }
    assert FirstIndex(s, IsExponentMarker) == |s|;
    DecimalMantissa(a, b);
    var v := DigitsValue(a) as real + DigitsValue(b) as real / Pow10(|b|) as real;
    UnsignedWithoutExponent(s, v);
    UnsignedLiteral(s, s, v);
  }

  /** `float(str(m) + "." + str(k))` is `m` plus `k` over the power of ten
      that matches the length of `str(k)`. */
  lemma {:induction false} ParsesDecimal(m: nat, k: nat)
    ensures ParseFloat(NatToString(m) + "." + NatToString(k))
         == Some(m as real + k as real / Pow10(|NatToString(k)|) as real)
  {
    NatToStringValue(m);
    NatToStringValue(k);
    ParsesDigitsDotDigits(NatToString(m), NatToString(k));
  }

  /** A digit string parses as a mantissa to the number it spells. */
  lemma {:induction false} IntegerMantissa(a: string)
    requires AllDigits(a)
    ensures ParseMantissa(a) == Some(DigitsValue(a) as real)
  {
    var dot := FirstIndex(a, c => c == '.');
    assert dot == |a|;
  }

  /** In `a + "e" + x` with `a` a digit string, the exponent marker is the
      one after `a`. */
  lemma {:induction false} ExponentMarkerAfterDigits(a: string, x: string)
    requires AllDigits(a)
    ensures FirstIndex(a + "e" + x, IsExponentMarker) == |a|
    ensures (a + "e" + x)[..|a|] == a && (a + "e" + x)[|a| + 1..] == x
  {
    var s := a + "e" + x;
    assert s[|a|] == 'e';
    assert forall k :: 0 <= k < |a| ==> s[k] == a[k];
  }

  /** The exponent part `b` for a digit string `b`. */
  lemma {:induction false} UnsignedExponent(b: string)
    requires AllDigits(b)
    ensures ParseExponent(b) == Some(DigitsValue(b) as int)
  {
    assert SplitSign(b) == (false, b);
  }

  /** The exponent part `-b` for a digit string `b`. */
  lemma {:induction false} MinusExponent(b: string)
    requires AllDigits(b)
    ensures ParseExponent("-" + b) == Some(-(DigitsValue(b) as int))
  {
    assert ("-" + b)[1..] == b;
    assert SplitSign("-" + b) == (true, b);
  }

  /** An unsigned literal with an exponent is its mantissa scaled by ten to
      the exponent. */
  lemma LiteralWithExponent(s: string, e: nat, mantissa: real, exponent: int)
    requires SplitSign(s) == (false, s)
    requires e < |s| && FirstIndex(s, IsExponentMarker) == e
    requires ParseMantissa(s[..e]) == Some(mantissa)
    requires ParseExponent(s[e + 1..]) == Some(exponent)
    ensures ParseLiteral(s) == Some(Scaled(mantissa, exponent))
  {
    UnsignedWithExponent(s, e, mantissa, exponent);
    UnsignedLiteral(s, s, Scaled(mantissa, exponent));
  }

  lemma UnsignedWithExponent(s: string, e: nat, mantissa: real, exponent: int)
    requires e < |s| && FirstIndex(s, IsExponentMarker) == e
    requires ParseMantissa(s[..e]) == Some(mantissa)
    requires ParseExponent(s[e + 1..]) == Some(exponent)
    ensures ParseUnsigned(s) == Some(Scaled(mantissa, exponent))
  {
  }

  /** `float(a + "e" + x)` for a digit string `a` spelling `mantissa` and an
      exponent part `x` that ends in a digit: `mantissa` times ten to the
      power `x` spells. */
  lemma {:induction false} ParsesDigitsExponent(a: string, mantissa: nat, x: string, exponent: int)
    requires AllDigits(a) && DigitsValue(a) == mantissa
    requires |x| > 0 && IsDigit(x[|x| - 1])
    requires ParseExponent(x) == Some(exponent)
    ensures ParseFloat(a + "e" + x) == Some(Scaled(mantissa as real, exponent))
  {
    var s := a + "e" + x;
    assert s[0] == a[0] && s[|s| - 1] == x[|x| - 1];
    BareLiteral(s);
    ExponentMarkerAfterDigits(a, x);
    IntegerMantissa(a);
    LiteralWithExponent(s, |a|, DigitsValue(a) as real, exponent);
  }

  lemma ScaledUp(m: nat, n: nat)
    ensures Scaled(m as real, n) == (m * Pow10(n)) as real
  {
  }

  lemma ScaledDown(m: real, n: nat)
    ensures Scaled(m, -(n as int)) == m / Pow10(n) as real
  {
    if n > 0 {
      assert Scale10(-(n as int)) == 1.0 / Pow10(n) as real;
    }
  }

  lemma ParsesDigitsUnsignedExponent(a: string, m: nat, b: string, n: nat)
    requires AllDigits(a) && DigitsValue(a) == m
    requires AllDigits(b) && DigitsValue(b) == n
    ensures ParseFloat(a + "e" + b) == Some((m * Pow10(n)) as real)
  {
    UnsignedExponent(b);
    ParsesDigitsExponent(a, m, b, n);
    ScaledUp(m, n);
  }

  /** A `+` before an unsigned exponent changes nothing. */
  lemma PlusExponent(b: string)
    requires |b| == 0 || !IsSign(b[0])
    ensures ParseExponent("+" + b) == ParseExponent(b)
  {
    assert ("+" + b)[1..] == b;
    assert SplitSign("+" + b) == (false, b);
    assert SplitSign(b) == (false, b);
  }

  lemma ParsesDigitsPlusExponent(a: string, m: nat, b: string, n: nat)
    requires AllDigits(a) && DigitsValue(a) == m
    requires AllDigits(b) && DigitsValue(b) == n
    ensures ParseFloat(a + "e+" + b) == Some((m * Pow10(n)) as real)
  {
    UnsignedExponent(b);
    PlusExponent(b);
    var y := "+" + b;
    assert y[|y| - 1] == b[|b| - 1];
    ParsesDigitsExponent(a, m, y, n);
    assert a + "e" + y == a + "e+" + b;
    ScaledUp(m, n);
  }

  /** `float(str(m) + "e" + str(n)) == m * 10^n`. */
  lemma {:induction false} ParsesExponent(m: nat, n: nat)
    ensures ParseFloat(NatToString(m) + "e" + NatToString(n)) == Some((m * Pow10(n)) as real)
  {
    NatToStringValue(m);
    NatToStringValue(n);
    ParsesDigitsUnsignedExponent(NatToString(m), m, NatToString(n), n);
  }

  lemma ParsesDigitsNegativeExponent(a: string, m: nat, b: string, n: nat)
    requires AllDigits(a) && DigitsValue(a) == m
    requires AllDigits(b) && DigitsValue(b) == n
    ensures ParseFloat(a + "e-" + b) == Some(m as real / Pow10(n) as real)
  {
    ParsesDigitsMinusExponent(a, m, b, n);
    ScaledDown(m as real, n);
  }

  lemma ParsesDigitsMinusExponent(a: string, m: nat, b: string, n: nat)
    requires AllDigits(a) && DigitsValue(a) == m
    requires AllDigits(b) && DigitsValue(b) == n
    ensures ParseFloat(a + "e-" + b) == Some(Scaled(m as real, -(n as int)))
  {
    MinusExponent(b);
    var y := "-" + b;
    assert y[|y| - 1] == b[|b| - 1];
    ParsesDigitsExponent(a, m, y, -(n as int));
    assert a + "e" + y == a + "e-" + b;
  }

  /** `float(str(m) + "e-" + str(n)) == m / 10^n`. */
  lemma {:induction false} ParsesNegativeExponent(m: nat, n: nat)
    ensures ParseFloat(NatToString(m) + "e-" + NatToString(n))
         == Some(m as real / Pow10(n) as real)
  {
    NatToStringValue(m);
    NatToStringValue(n);
    ParsesDigitsNegativeExponent(NatToString(m), m, NatToString(n), n);
  }

  /** `float()` of a present JSON value fails exactly for `null`, lists,
      dictionaries and strings that are not decimal literals. */
  lemma ToFloatFailsExactly(v: Json)
    ensures ToFloat(v).Error? <==>
      (v.JNull? || v.JArray? || v.JObject? || (v.JString? && ParseFloat(v.s).None?))
  {
  }
}
