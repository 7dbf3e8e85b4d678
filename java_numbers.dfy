/** Java's number parsing and rendering as the analyzer uses them:
    Integer.parseInt / Long.parseLong, the decimal forms of
    Double.parseDouble, the (long) cast of a double, and the Formatter
    conversions %d, %,d, %.Nf and %,.Nf in an English locale. */
module JavaNumbers {
  import opened Wrappers
  import opened Faults
  import opened JavaText

  const IntMin: int := -0x8000_0000
  const IntMax: int := 0x7FFF_FFFF
  const LongMin: int := -0x8000_0000_0000_0000
  const LongMax: int := 0x7FFF_FFFF_FFFF_FFFF

  // ---------------------------------------------------------------------------
  // Digits

  predicate AllDigits(s: string) {
    forall i :: 0 <= i < |s| ==> IsAsciiDigit(s[i])
  }

  function DigitValue(c: char): (d: nat)
    requires IsAsciiDigit(c)
    ensures d < 10
  {
    c as int - '0' as int
  }

  function DigitChar(d: nat): (c: char)
    requires d < 10
    ensures IsAsciiDigit(c) && DigitValue(c) == d
  {
    ('0' as int + d) as char
  }

  /** The value of a string of decimal digits, most significant first. */
  function DigitsValue(s: string): nat
    requires AllDigits(s)
  {
    if s == [] then 0 else DigitsValue(s[..|s| - 1]) * 10 + DigitValue(s[|s| - 1])
  }

  /** 10 to the power n; positive, so `n < Pow10(width)` bounds a field's digits. */
  function Pow10(n: nat): (r: nat)
    ensures r >= 1
  {
    if n == 0 then 1 else 10 * Pow10(n - 1)
  }

  /** The decimal digits of `n`, without leading zeros. */
  function NatText(n: nat): (r: string)
    ensures r != [] && AllDigits(r)
    ensures DigitsValue(r) == n
  {
    if n < 10 then [DigitChar(n)]
    else
      var prefix := NatText(n / 10);
      var r := prefix + [DigitChar(n % 10)];
      assert r[..|r| - 1] == prefix;
      r
  }

  /** A number below 10^width has at most `width` digits. */
  lemma {:induction false} NatTextLength(n: nat, width: nat)
    requires 1 <= width && n < Pow10(width)
    ensures |NatText(n)| <= width
  {
    if n >= 10 {
      assert width >= 2;
      NatTextLength(n / 10, width - 1);
    }
  }

  /** BigDecimal.longValue(): the low 64 bits in two's complement. */
  function LongValue(v: int): (r: int)
    ensures LongMin <= r <= LongMax
    ensures LongMin <= v <= LongMax ==> r == v
    ensures (r - v) % 0x1_0000_0000_0000_0000 == 0
  {
    (v - LongMin) % 0x1_0000_0000_0000_0000 + LongMin
  }

  /** String.valueOf(long) / %d: an optional minus sign and the digits. */
  function IntText(n: int): (r: string)
    ensures r != []
  {
    if n < 0 then "-" + NatText(-n) else NatText(n)
  }

  lemma IntTextShape(n: int)
    ensures TrimStable(IntText(n))
    ensures forall i :: 0 <= i < |IntText(n)| ==> !IsAsciiLower(IntText(n)[i]) && !IsSpace(IntText(n)[i])
    ensures forall i :: 0 <= i < |IntText(n)| ==> IntText(n)[i] != '|' && IntText(n)[i] != '*'
    ensures IsAsciiDigit(IntText(n)[|IntText(n)| - 1])
  {
  }

  // ---------------------------------------------------------------------------
  // Parsing

  /** An optional '+' or '-' followed by at least one ASCII digit. */
  function ParseSignedDigits(s: string): (r: Option<int>)
  {
    var signed := s != [] && (s[0] == '-' || s[0] == '+');
    var digits := if signed then s[1..] else s;
    if digits == [] || !AllDigits(digits) then None
    else
      var v: int := DigitsValue(digits);
      Some(if signed && s[0] == '-' then -v else v)
  }

  /** Integer.parseInt (lo, hi = IntMin, IntMax) and Long.parseLong
      (LongMin, LongMax): NumberFormatException when the text is not a
      signed decimal integer or lies outside the type's range. */
  function ParseInteger(s: string, lo: int, hi: int): (r: Result<int, Fault>)
    ensures r.Success? ==> lo <= r.value <= hi
    ensures r.Failure? ==> r.error == NumberFormat
  {
    match ParseSignedDigits(s)
    case Some(v) => if lo <= v <= hi then Success(v) else Failure(NumberFormat)
    case None => Failure(NumberFormat)
  }

  /** Parsing the rendering of an integer gives the integer back. */
  lemma ParseIntText(n: int, lo: int, hi: int)
    requires lo <= n <= hi
    ensures ParseSignedDigits(IntText(n)) == Some(n)
    ensures ParseInteger(IntText(n), lo, hi) == Success(n)
  {
    if n < 0 {
      assert IntText(n)[1..] == NatText(-n);
    }
  }

  /** A decimal point, a letter or a blank makes an integer parse fail. */
  lemma ParseIntegerRejects(s: string, k: nat, lo: int, hi: int)
    requires k < |s| && !IsAsciiDigit(s[k]) && !(k == 0 && (s[0] == '-' || s[0] == '+'))
    ensures ParseInteger(s, lo, hi) == Failure(NumberFormat)
  {
    var signed := s != [] && (s[0] == '-' || s[0] == '+');
    if signed {
      assert s[1..][k - 1] == s[k];
    }
  }

  function IndexOf(s: string, c: char): (i: nat)
    ensures i <= |s|
  {
    if s == [] then 0 else if s[0] == c then 0 else 1 + IndexOf(s[1..], c)
  }

  /** Multiplies `m` by ten to the power `e`, one factor of ten at a time. */
  function Scale(m: real, e: int): real
    decreases if e >= 0 then e else -e
  {
    if e == 0 then m
    else if e > 0 then Scale(m, e - 1) * 10.0
    else Scale(m, e + 1) / 10.0
  }

  /** The value of the digits after a decimal point: "25" is 0.25. */
  function FractionValue(s: string): real
    requires AllDigits(s)
  {
    if s == [] then 0.0 else (DigitValue(s[0]) as real + FractionValue(s[1..])) / 10.0
  }

  /** Double.parseDouble on its decimal forms, as an exact rational:
      surrounding blanks, an optional sign, digits with an optional point
      (at least one digit), an optional exponent and an optional type
      suffix f, F, d or D. */
  function ParseDecimal(s: string): (r: Result<real, Fault>)
    ensures r.Failure? ==> r.error == NumberFormat
  {
    ParseDecimalText(Trim(s))
  }

  /** Double.parseDouble after the surrounding blanks are removed: an
      optional sign before an unsigned decimal. */
  function ParseDecimalText(t: string): (r: Result<real, Fault>)
    ensures r.Failure? ==> r.error == NumberFormat
  {
    var signed := t != [] && (t[0] == '+' || t[0] == '-');
    var neg := signed && t[0] == '-';
    match ParseUnsignedDecimal(if signed then t[1..] else t)
    case Failure(e) => Failure(e)
    case Success(v) => Success(if neg then -v else v)
  }

  predicate IsTypeSuffix(c: char) {
    c == 'f' || c == 'F' || c == 'd' || c == 'D'
  }

  /** An unsigned decimal, with an optional type suffix f, F, d or D. */
  function ParseUnsignedDecimal(body: string): (r: Result<real, Fault>)
    ensures r.Failure? ==> r.error == NumberFormat
  {
    var suffixed := body != [] && IsTypeSuffix(body[|body| - 1]);
    ParseScientific(if suffixed then body[..|body| - 1] else body)
  }

  /** Where the exponent marker e or E is, or |b| without one. */
  function ExponentIndex(b: string): (e: nat)
    ensures e <= |b|
  {
    if IndexOf(b, 'e') < IndexOf(b, 'E') then IndexOf(b, 'e') else IndexOf(b, 'E')
  }

  /** A mantissa with an optional exponent: the mantissa times ten to the
      exponent. */
  function ParseScientific(b: string): (r: Result<real, Fault>)
    ensures r.Failure? ==> r.error == NumberFormat
  {
    var e := ExponentIndex(b);
    match ParseMantissa(b[..e])
    case None => Failure(NumberFormat)
    case Some(m) =>
      if e == |b| then Success(m)
      else
        match ParseSignedDigits(b[e + 1..])
        case None => Failure(NumberFormat)
        case Some(x) => Success(Scale(m, x))
  }

  /** Digits with an optional point, and at least one digit. */
  function ParseMantissa(mant: string): (r: Option<real>)
  {
    var dot := IndexOf(mant, '.');
    var ip := mant[..dot];
    var fp := if dot < |mant| then mant[dot + 1..] else "";
    if !AllDigits(ip) || !AllDigits(fp) || (ip == [] && fp == []) then None
    else Some(DigitsValue(ip) as real + FractionValue(fp))
  }

  lemma IndexOfAbsent(s: string, c: char)
    requires c !in s
    ensures IndexOf(s, c) == |s|
  {
  }

  lemma IndexOfFirst(a: string, mid: string, b: string)
    requires |mid| == 1 && mid[0] !in a
    ensures IndexOf(a + mid + b, mid[0]) == |a|
  {
    if a != [] {
      assert (a + mid + b)[1..] == a[1..] + mid + b;
      IndexOfFirst(a[1..], mid, b);
    }
  }

  /** Text with no exponent marker and no type suffix is read as a bare
      mantissa. */
  lemma UnsignedOfMantissa(b: string)
    requires 'e' !in b && 'E' !in b && (b == [] || !IsTypeSuffix(b[|b| - 1]))
    ensures ParseUnsignedDecimal(b) == match ParseMantissa(b)
                                       case None => Failure(NumberFormat)
                                       case Some(m) => Success(m)
  {
    IndexOfAbsent(b, 'e');
    IndexOfAbsent(b, 'E');
    assert b[..|b|] == b;
  }

  lemma MantissaOfDigits(d: string)
    requires d != [] && AllDigits(d)
    ensures ParseMantissa(d) == Some(DigitsValue(d) as real)
  {
    IndexOfAbsent(d, '.');
    assert d[..|d|] == d;
  }

  lemma MantissaOfPoint(ip: string, fp: string)
    requires ip != [] && AllDigits(ip) && AllDigits(fp)
    ensures ParseMantissa(ip + "." + fp) == Some(DigitsValue(ip) as real + FractionValue(fp))
  {
    var m := ip + "." + fp;
    PointSplit(ip, fp);
    var dot := IndexOf(m, '.');
    assert dot < |m| && m[..dot] == ip && m[dot + 1..] == fp;
    assert AllDigits(m[..dot]) && AllDigits(m[dot + 1..]);
    var value := DigitsValue(ip) as real + FractionValue(fp);
    assert DigitsValue(m[..dot]) as real + FractionValue(m[dot + 1..]) == value;
  }

  lemma {:induction false} PointSplit(ip: string, fp: string)
    requires AllDigits(ip)
    ensures var m := ip + "." + fp;
      IndexOf(m, '.') == |ip| && m[..|ip|] == ip && m[|ip| + 1..] == fp
  {
    var m := ip + "." + fp;
    IndexOfFirst(ip, ".", fp);
    assert m[..|ip|] == ip;
    assert m[|ip| + 1..] == fp;
  }

  /** Text already free of surrounding blanks is parsed as it stands. */
  lemma ParseDecimalOfStable(s: string)
    requires TrimStable(s)
    ensures ParseDecimal(s) == ParseDecimalText(s)
  {
    TrimOfStable(s);
  }

  /** Text without a leading sign is read as unsigned. */
  lemma ParseDecimalTextUnsigned(t: string)
    requires t != [] && t[0] != '+' && t[0] != '-'
    ensures ParseDecimalText(t) == ParseUnsignedDecimal(t)
  {
  }

  lemma PointBodyPlain(ip: string, fp: string)
    requires AllDigits(ip) && AllDigits(fp)
    ensures var body := ip + "." + fp;
      'e' !in body && 'E' !in body && !IsTypeSuffix(body[|body| - 1]) &&
      !IsTrimmable(body[|body| - 1])
  {
    var body := ip + "." + fp;
    assert forall i :: 0 <= i < |body| ==> body[i] == '.' || IsAsciiDigit(body[i]);
  }

  /** A plain digit string parses as a double to its integer value. */
  lemma ParseDecimalOfDigits(d: string)
    requires d != [] && AllDigits(d)
    ensures ParseDecimal(d) == Success(DigitsValue(d) as real)
  {
    DigitsPlain(d);
    calc {
      ParseDecimal(d);
      { ParseDecimalOfStable(d); }
      ParseDecimalText(d);
      { ParseDecimalTextUnsigned(d); }
      ParseUnsignedDecimal(d);
      { UnsignedOfMantissa(d); MantissaOfDigits(d); }
      Success(DigitsValue(d) as real);
    }
  }

  /** A digit string has no blank ends, no sign, no exponent marker and no
      type suffix. */
  lemma DigitsPlain(d: string)
    requires d != [] && AllDigits(d)
    ensures TrimStable(d) && d[0] != '+' && d[0] != '-'
    ensures 'e' !in d && 'E' !in d && !IsTypeSuffix(d[|d| - 1])
  {
  }

  /** Digits, a point and digits parse as a double to the exact decimal
      value. */
  lemma ParseDecimalOfPoint(ip: string, fp: string)
    requires ip != [] && AllDigits(ip) && AllDigits(fp)
    ensures ParseDecimal(ip + "." + fp) == Success(DigitsValue(ip) as real + FractionValue(fp))
  {
    var body := ip + "." + fp;
    PointBodyValue(ip, fp);
    assert TrimStable(body) && body[0] != '+' && body[0] != '-';
    calc {
      ParseDecimal(body);
      { ParseDecimalOfStable(body); }
      ParseDecimalText(body);
      { ParseDecimalTextUnsigned(body); }
      ParseUnsignedDecimal(body);
    }
  }

  lemma PointBodyValue(ip: string, fp: string)
    requires ip != [] && AllDigits(ip) && AllDigits(fp)
    ensures ParseUnsignedDecimal(ip + "." + fp) == Success(DigitsValue(ip) as real + FractionValue(fp))
    ensures !IsTrimmable((ip + "." + fp)[|ip + "." + fp| - 1])
    ensures (ip + "." + fp)[0] == ip[0]
  {
    var body := ip + "." + fp;
    PointBodyPlain(ip, fp);
    UnsignedOfMantissa(body);
    MantissaOfPoint(ip, fp);
  }

  /** The (long) cast of a double: truncation toward zero, saturating at
      the bounds of long. */
  function LongCast(x: real): (r: int)
    ensures LongMin <= r <= LongMax
    ensures LongMin as real - 1.0 < x < LongMax as real + 1.0 ==>
              (x >= 0.0 ==> r as real <= x < r as real + 1.0) &&
              (x < 0.0 ==> r as real - 1.0 < x <= r as real)
    ensures x >= LongMax as real + 1.0 ==> r == LongMax
    ensures x <= LongMin as real - 1.0 ==> r == LongMin
  {
    var t := if x >= 0.0 then x.Floor else -((-x).Floor);
    if t > LongMax then LongMax else if t < LongMin then LongMin else t
  }

  // ---------------------------------------------------------------------------
  // Rendering

  /** `n` in decimal, left-padded with zeros to at least `width` digits. */
  function ZeroPad(n: nat, width: nat): (r: string)
    ensures |r| >= width
  {
    var d := NatText(n);
    if |d| < width then Repeat('0', width - |d|) + d else d
  }

  /** `n` in decimal with a ',' between groups of three digits (%,d). */
  function Grouped(n: nat): string
  {
    if n < 1000 then NatText(n) else Grouped(n / 1000) + "," + ZeroPad(n % 1000, 3)
  }

  /** The nearest integer to a non-negative `x`, halves rounded up. */
  function RoundHalfUp(x: real): (n: nat)
    ensures x >= 0.0 ==> n as real <= x + 0.5 < n as real + 1.0
  {
    var f := (x + 0.5).Floor;
    if f < 0 then 0 else f
  }

  /** Euclidean quotient of naturals, kept apart so that its sign is
      settled once. */
  function Quotient(a: nat, b: nat): (q: nat)
    requires b >= 1
    ensures q * b <= a < q * b + b
  {
    a / b
  }

  /** %d (grouped = false) and %,d (grouped = true). */
  function FormatInt(n: int, grouped: bool): string {
    var mag := if n < 0 then -n else n;
    (if n < 0 then "-" else "") + (if grouped then Grouped(mag) else NatText(mag))
  }

  /** %.Nf and %,.Nf: `digits` decimals, rounded half away from zero. */
  function FormatFixed(x: real, digits: nat, grouped: bool): string {
    var neg := x < 0.0;
    var mag := if neg then -x else x;
    var scaled := RoundHalfUp(Scale(mag, digits));
    var whole := Quotient(scaled, Pow10(digits));
    var frac := scaled - whole * Pow10(digits);
    (if neg then "-" else "")
    + (if grouped then Grouped(whole) else NatText(whole))
    + (if digits == 0 then "" else "." + ZeroPad(frac, digits))
  }

  /** %-Ns: `s` left-justified in a field of at least `width` characters. */
  function PadRight(s: string, width: nat): (r: string)
    ensures |r| == if |s| < width then width else |s|
    ensures r[..|s|] == s
    ensures forall i :: |s| <= i < |r| ==> r[i] == ' '
  {
    if |s| < width then s + Repeat(' ', width - |s|) else s
  }
}
