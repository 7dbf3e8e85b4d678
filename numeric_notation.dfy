/** The magnitude notation of DBMS_XPLAN's Rows and Cost columns: a plain
    integer, or a decimal followed by K, M or G. */
module NumericNotation {
  import opened Wrappers
  import opened Faults
  import opened JavaText
  import opened JavaNumbers

  predicate IsSuffix(c: char) {
    c == 'K' || c == 'M' || c == 'G'
  }

  /** `x` times the multiplier of the suffix letter K, M or G. */
  function ApplySuffix(x: real, suffix: char): real
    requires IsSuffix(suffix)
  {
    if suffix == 'K' then x * 1000.0
    else if suffix == 'M' then x * 1000000.0
    else x * 1000000000.0
  }

  /** The value of text that is already trimmed, upper-cased and not
      empty: a decimal with a K, M or G suffix (scaled and cast to long),
      or a long. */
  function ParseNormalized(v: string): (r: Result<int, Fault>)
    requires v != []
    ensures r.Failure? ==> r.error == NumberFormat
    ensures r.Success? ==> LongMin <= r.value <= LongMax
  {
    var last := v[|v| - 1];
    if !IsSuffix(last) then ParseInteger(v, LongMin, LongMax)
    else
      match ParseDecimal(v[..|v| - 1])
      case Failure(e) => Failure(e)
      case Success(x) => Success(LongCast(ApplySuffix(x, last)))
  }

  /** parseNumericValue: null or blank text is 0; otherwise the trimmed,
      upper-cased text is a decimal with a K/M/G suffix (scaled and
      truncated toward zero) or a long integer. */
  function ParseNumericValue(value: Option<string>): (r: Result<int, Fault>)
    ensures value.None? ==> r == Success(0)
    ensures r.Failure? ==> r.error == NumberFormat
    ensures r.Success? ==> LongMin <= r.value <= LongMax
  {
    match value
    case None => Success(0)
    case Some(s) =>
      if Trim(s) == [] then Success(0) else ParseNormalized(ToUpper(Trim(s)))
  }

  /** Blank text (only characters up to U+0020) counts as zero. */
  lemma ParseNumericBlank(s: string)
    requires IsBlank(s)
    ensures ParseNumericValue(Some(s)) == Success(0)
  {
    TrimEmptyIffBlank(s);
  }

  /** A rendered long reads back as itself. */
  lemma ParseNumericOfIntText(n: int)
    requires LongMin <= n <= LongMax
    ensures ParseNumericValue(Some(IntText(n))) == Success(n)
  {
    var t := IntText(n);
    IntTextShape(n);
    calc {
      ParseNumericValue(Some(t));
      { TrimOfStable(t); ParseNumericNonBlank(t); }
      ParseNormalized(ToUpper(t));
      { ToUpperNoLower(t); }
      ParseNormalized(t);
      { NormalizedPlain(t); }
      ParseInteger(t, LongMin, LongMax);
      { ParseIntText(n, LongMin, LongMax); }
      Success(n);
    }
  }

  /** Text that is not blank is parsed as its trimmed, upper-cased form. */
  lemma ParseNumericNonBlank(s: string)
    requires Trim(s) != []
    ensures ParseNumericValue(Some(s)) == ParseNormalized(ToUpper(Trim(s)))
  {
  }

  /** Without a suffix letter the normalised text is read as a long. */
  lemma NormalizedPlain(v: string)
    requires v != [] && !IsSuffix(v[|v| - 1])
    ensures ParseNormalized(v) == ParseInteger(v, LongMin, LongMax)
  {
  }

  /** With a suffix letter the normalised text is its decimal prefix scaled
      by the letter. */
  lemma NormalizedSuffixed(m: string, c: char, x: real)
    requires IsSuffix(c) && ParseDecimal(m) == Success(x)
    ensures ParseNormalized(m + [c]) == Success(LongCast(ApplySuffix(x, c)))
  {
    var v := m + [c];
    assert v[|v| - 1] == c && v[..|v| - 1] == m;
  }

  /** Text without lower-case letters or leading blanks, followed by a
      suffix letter in either case, is parsed with that letter upper-cased. */
  lemma ParseNumericOfSuffixText(m: string, c: char)
    requires m != [] && !IsTrimmable(m[0])
    requires forall i :: 0 <= i < |m| ==> !IsAsciiLower(m[i])
    requires c in "kKmMgG"
    ensures ParseNumericValue(Some(m + [c])) == ParseNormalized(m + [UpperChar(c)])
  {
    var s := m + [c];
    UpperWithSuffix(m, c);
    assert TrimStable(s) by {
      assert s[0] == m[0] && s[|s| - 1] == c;
    }
    TrimOfStable(s);
    ParseNumericNonBlank(s);
  }

  lemma UpperWithSuffix(m: string, c: char)
    requires forall i :: 0 <= i < |m| ==> !IsAsciiLower(m[i])
    ensures ToUpper(m + [c]) == m + [UpperChar(c)]
  {
    ToUpperNoLower(m);
    ToUpperConcat(m, [c]);
    assert ToUpper([c]) == [UpperChar(c)];
  }

  lemma SuffixUpper(c: char)
    requires c in "kKmMgG"
    ensures IsSuffix(UpperChar(c))
    ensures c in "kK" <==> UpperChar(c) == 'K'
    ensures c in "mM" <==> UpperChar(c) == 'M'
  {
  }

  /** A decimal followed by k, m or g (either case) reads as the decimal
      times one thousand, one million or one billion, truncated toward zero
      and clamped to long. */
  lemma ParseNumericOfSuffixed(m: string, c: char, x: real)
    requires m != [] && !IsTrimmable(m[0])
    requires forall i :: 0 <= i < |m| ==> !IsAsciiLower(m[i])
    requires c in "kKmMgG" && ParseDecimal(m) == Success(x)
    ensures c in "kK" ==>
      ParseNumericValue(Some(m + [c])) == Success(LongCast(x * 1000.0))
    ensures c in "mM" ==>
      ParseNumericValue(Some(m + [c])) == Success(LongCast(x * 1000000.0))
    ensures c in "gG" ==>
      ParseNumericValue(Some(m + [c])) == Success(LongCast(x * 1000000000.0))
  {
    ParseNumericOfSuffixText(m, c);
    SuffixUpper(c);
    NormalizedSuffixed(m, UpperChar(c), x);
  }

  /** Without a suffix letter, any character that is neither a digit nor a
      leading sign makes the text fail as a long. */
  lemma ParseNumericRejectsNonInteger(s: string, k: nat)
    requires Trim(s) != [] && !IsSuffix(UpperChar(Trim(s)[|Trim(s)| - 1]))
    requires k < |Trim(s)| && !IsAsciiDigit(UpperChar(Trim(s)[k]))
    requires !(k == 0 && (Trim(s)[0] == '-' || Trim(s)[0] == '+'))
    ensures ParseNumericValue(Some(s)) == Failure(NumberFormat)
  {
    NormalizedRejects(Trim(s), k);
    ParseNumericNonBlank(s);
  }

  /** The same on trimmed text, once upper-cased. */
  lemma NormalizedRejects(t: string, k: nat)
    requires t != [] && !IsSuffix(UpperChar(t[|t| - 1]))
    requires k < |t| && !IsAsciiDigit(UpperChar(t[k]))
    requires !(k == 0 && (t[0] == '-' || t[0] == '+'))
    ensures ParseNormalized(ToUpper(t)) == Failure(NumberFormat)
  {
    var v := ToUpper(t);
    assert v[|v| - 1] == UpperChar(t[|t| - 1]);
    NormalizedPlain(v);
    assert v[k] == UpperChar(t[k]);
    assert v[0] == '-' || v[0] == '+' ==> t[0] == '-' || t[0] == '+';
    ParseIntegerRejects(v, k, LongMin, LongMax);
  }

  /** "1.5" and "abc" are not longs and carry no suffix: both are errors. */
  lemma ParseNumericExampleRejected()
    ensures ParseNumericValue(Some("1.5")) == Failure(NumberFormat)
    ensures ParseNumericValue(Some("abc")) == Failure(NumberFormat)
  {
    TrimOfStable("1.5");
    ParseNumericRejectsNonInteger("1.5", 1);
    TrimOfStable("abc");
    ParseNumericRejectsNonInteger("abc", 0);
  }
}
