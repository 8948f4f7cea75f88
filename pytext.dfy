/**
 * The pieces of Python's text handling the pipeline relies on: `str.strip()`,
 * the string grammars accepted by `int(str)` and `float(str)`, and the decimal
 * rendering of an `int` inside an f-string.
 */
module PyText {
  import opened Wrappers

  /** The characters for which Python's `str.isspace()` holds. */
  predicate IsSpace(c: char)
  {
    c == ' ' || ('\t' <= c <= '\r') || ('\U{1C}' <= c <= '\U{1F}') ||
    c == '\U{85}' || c == '\U{A0}' || c == '\U{1680}' || ('\U{2000}' <= c <= '\U{200A}') ||
    c == '\U{2028}' || c == '\U{2029}' || c == '\U{202F}' || c == '\U{205F}' || c == '\U{3000}'
  }

  /** `s.lstrip()` */
  function StripLeft(s: string): string
  {
    if s != [] && IsSpace(s[0]) then StripLeft(s[1..]) else s
  }

  /** `s.rstrip()` */
  function StripRight(s: string): string
  {
    if s != [] && IsSpace(s[|s| - 1]) then StripRight(s[..|s| - 1]) else s
  }

  /** `lstrip` removes the longest all-white-space prefix and nothing else. */
  lemma {:induction false} StripLeftRemovesLeadingSpace(s: string)
    ensures var r := StripLeft(s);
      && |r| <= |s| && r == s[|s| - |r|..]
      && (forall i :: 0 <= i < |s| - |r| ==> IsSpace(s[i]))
      && (r == [] || !IsSpace(r[0]))
    decreases |s|
  {
    if s != [] && IsSpace(s[0]) {
      StripLeftRemovesLeadingSpace(s[1..]);
      var r := StripLeft(s);
      forall i | 0 <= i < |s| - |r| ensures IsSpace(s[i]) {
        if i > 0 { assert s[i] == s[1..][i - 1]; }
      }
    }
  }

  /** `rstrip` removes the longest all-white-space suffix and nothing else. */
  lemma {:induction false} StripRightRemovesTrailingSpace(s: string)
    ensures var r := StripRight(s);
      && |r| <= |s| && r == s[..|r|]
      && (forall i :: |r| <= i < |s| ==> IsSpace(s[i]))
      && (r == [] || !IsSpace(r[|r| - 1]))
    decreases |s|
  {
    if s != [] && IsSpace(s[|s| - 1]) {
      StripRightRemovesTrailingSpace(s[..|s| - 1]);
      var r := StripRight(s);
      forall i | |r| <= i < |s| ensures IsSpace(s[i]) {
        if i < |s| - 1 { assert s[i] == s[..|s| - 1][i]; }
      }
    }
  }

  /** `s.strip()`: the longest infix of `s` that neither starts nor ends with white space. */
  function Strip(s: string): string
  {
    StripRight(StripLeft(s))
  }

  /** A line is blank for the pipeline (`not line.strip()`) exactly when it is all white space. */
  lemma StripEmptyIffBlank(s: string)
    ensures Strip(s) == [] <==> forall i :: 0 <= i < |s| ==> IsSpace(s[i])
  {
    var l := StripLeft(s);
    StripLeftRemovesLeadingSpace(s);
    StripRightRemovesTrailingSpace(l);
    if Strip(s) == [] {
      assert l == [];
    } else {
      var r := Strip(s);
      assert r[0] == l[0] == s[|s| - |l|];
    }
  }

  /** A string that neither starts nor ends with white space is its own strip. */
  lemma StripTrimmed(s: string)
    requires s == [] || (!IsSpace(s[0]) && !IsSpace(s[|s| - 1]))
    ensures Strip(s) == s
  {
  }

  /** Trailing white space never reaches the strip: `(s + c).strip() == s.strip()` for a white-space `c`. */
  lemma {:induction false} StripIgnoresTrailingSpace(s: string, c: char)
    requires IsSpace(c)
    ensures Strip(s + [c]) == Strip(s)
    decreases |s|
  {
    if s == [] {
      assert StripLeft([c]) == StripLeft([]);
    } else if IsSpace(s[0]) {
      assert (s + [c])[1..] == s[1..] + [c];
      StripIgnoresTrailingSpace(s[1..], c);
    } else {
      assert (s + [c])[..|s|] == s;
    }
  }

  predicate IsDigit(c: char)
  {
    '0' <= c <= '9'
  }

  function DigitValue(c: char): (d: nat)
    requires IsDigit(c)
    ensures d < 10
  {
    (c as int) - ('0' as int)
  }

  function DigitChar(d: nat): (c: char)
    requires d < 10
    ensures IsDigit(c) && DigitValue(c) == d
  {
    ('0' as int + d) as char
  }

  /**
   * Python's `digitpart`: ASCII digits, where single underscores may separate
   * two digits (`1_000`), as `int()` and `float()` accept them.
   */
  predicate IsDigitPart(s: string)
  {
    |s| > 0 && IsDigit(s[0]) && IsDigit(s[|s| - 1]) &&
    (forall i :: 0 <= i < |s| ==> IsDigit(s[i]) || s[i] == '_') &&
    (forall i :: 0 <= i < |s| - 1 ==> IsDigit(s[i]) || IsDigit(s[i + 1]))
  }

  /** The number a digit part spells, underscores ignored. */
  function DigitsValue(s: string): nat
  {
    if s == [] then 0
    else if IsDigit(s[|s| - 1]) then 10 * DigitsValue(s[..|s| - 1]) + DigitValue(s[|s| - 1])
    else DigitsValue(s[..|s| - 1])
  }

  /** How many digits a digit part holds (the scale of a fraction). */
  function DigitCount(s: string): nat
  {
    if s == [] then 0
    else if IsDigit(s[|s| - 1]) then DigitCount(s[..|s| - 1]) + 1
    else DigitCount(s[..|s| - 1])
  }

  /** Splits an optional leading `+` or `-` off `s`: (is it negative, the rest). */
  function SplitSign(s: string): (r: (bool, string))
    ensures r.1 == s || (|s| > 0 && (s[0] == '+' || s[0] == '-') && r.1 == s[1..])
    ensures r.0 ==> |s| > 0 && s[0] == '-'
  {
    if |s| > 0 && (s[0] == '+' || s[0] == '-') then (s[0] == '-', s[1..]) else (false, s)
  }

  /** `int(s)` for a `str` argument in base 10: `None` where Python raises `ValueError`. */
  function ParseIntText(s: string): Option<int>
  {
    var (negative, body) := SplitSign(Strip(s));
    var magnitude: int := DigitsValue(body);
    if IsDigitPart(body) then Some(if negative then -magnitude else magnitude) else None
  }

  /** What `float(s)` makes of a `str` argument. */
  datatype FloatText = Finite(value: real) | NonFinite | Invalid

  function Lower(c: char): char
  {
    if 'A' <= c <= 'Z' then (c as int - 'A' as int + 'a' as int) as char else c
  }

  /** The spellings `float()` accepts, in any letter case, for infinity and NaN. */
  predicate IsNonFiniteWord(s: string)
  {
    var w := LowerText(s);
    w == "inf" || w == "infinity" || w == "nan"
  }

  function LowerText(s: string): (r: string)
    ensures |r| == |s| && forall i :: 0 <= i < |s| ==> r[i] == Lower(s[i])
  {
    if s == [] then [] else [Lower(s[0])] + LowerText(s[1..])
  }

  /** The first index of `s` at which `p` holds. */
  function IndexWhere(s: string, p: char -> bool): (r: Option<nat>)
    ensures r.None? ==> forall i :: 0 <= i < |s| ==> !p(s[i])
    ensures r.Some? ==> r.value < |s| && p(s[r.value]) && forall i :: 0 <= i < r.value ==> !p(s[i])
  {
    if s == [] then None
    else if p(s[0]) then Some(0)
    else match IndexWhere(s[1..], p)
      case None => None
      case Some(k) => Some(k + 1)
  }

  function Pow10(n: nat): (r: nat)
    ensures r >= 1
  {
    if n == 0 then 1 else 10 * Pow10(n - 1)
  }

  /** 10 raised to an integer exponent, as an exact real. */
  function Scale(e: int): (r: real)
    ensures r > 0.0
  {
    if e >= 0 then Pow10(e) as real else 1.0 / (Pow10(-e) as real)
  }

  /** `digitpart`, `digitpart "."`, `"." digitpart` or `digitpart "." digitpart`. */
  function ParseMantissa(s: string): Option<real>
  {
    match IndexWhere(s, c => c == '.')
    case None =>
      if IsDigitPart(s) then Some(DigitsValue(s) as real) else None
    case Some(d) =>
      var whole, fraction := s[..d], s[d + 1..];
      if (IsDigitPart(whole) && (fraction == [] || IsDigitPart(fraction))) ||
         (whole == [] && IsDigitPart(fraction))
      then Some(DigitsValue(whole) as real + DigitsValue(fraction) as real / Pow10(DigitCount(fraction)) as real)
      else None
  }

  /** `["+" | "-"] digitpart`, the part after `e` or `E`. */
  function ParseExponent(s: string): Option<int>
  {
    var (negative, body) := SplitSign(s);
    var magnitude: int := DigitsValue(body);
    if IsDigitPart(body) then Some(if negative then -magnitude else magnitude) else None
  }

  /** A mantissa with an optional exponent. */
  function ParseDecimal(s: string): Option<real>
  {
    match IndexWhere(s, c => c == 'e' || c == 'E')
    case None => ParseMantissa(s)
    case Some(k) =>
      match (ParseMantissa(s[..k]), ParseExponent(s[k + 1..]))
      case (Some(m), Some(e)) => Some(m * Scale(e))
      case _ => None
  }

  /** `float(s)` for a `str` argument: surrounding white space, a sign, then a decimal or a non-finite word. */
  function ParseFloatText(s: string): FloatText
  {
    var (negative, body) := SplitSign(Strip(s));
    if IsNonFiniteWord(body) then NonFinite
    else match ParseDecimal(body)
      case None => Invalid
      case Some(v) => Finite(if negative then -v else v)
  }

  /** A digit part is neither an infinity nor a NaN, and reads as the same decimal. */
  lemma DigitPartIsDecimal(body: string)
    requires IsDigitPart(body)
    ensures !IsNonFiniteWord(body)
    ensures ParseDecimal(body) == Some(DigitsValue(body) as real)
  {
    assert LowerText(body)[0] == body[0];
    assert IndexWhere(body, c => c == 'e' || c == 'E') == None;
    assert IndexWhere(body, c => c == '.') == None;
  }

  /** Every string `int()` accepts, `float()` accepts too, with the same value. */
  lemma IntTextIsFloatText(s: string)
    requires ParseIntText(s).Some?
    ensures ParseFloatText(s) == Finite(ParseIntText(s).value as real)
  {
    var (negative, body) := SplitSign(Strip(s));
    DigitPartIsDecimal(body);
  }

  /** The decimal digits of a natural number, most significant first. */
  function NatToText(n: nat): (s: string)
    ensures |s| > 0
    ensures forall i :: 0 <= i < |s| ==> IsDigit(s[i])
  {
    if n < 10 then [DigitChar(n)] else NatToText(n / 10) + [DigitChar(n % 10)]
  }

  /** `f"{n}"` for an `int`. */
  function IntToText(n: int): string
  {
    if n < 0 then "-" + NatToText(-n) else NatToText(n)
  }

  lemma {:induction false} NatToTextValue(n: nat)
    ensures IsDigitPart(NatToText(n)) && DigitsValue(NatToText(n)) == n
  {
    if n >= 10 {
      NatToTextValue(n / 10);
      var s := NatToText(n);
      assert s[..|s| - 1] == NatToText(n / 10);
    }
  }

  /** Rendering an integer and reading it back with `int()` gives the same integer. */
  lemma IntTextRoundTrip(n: int)
    ensures ParseIntText(IntToText(n)) == Some(n)
  {
    var s := IntToText(n);
    NatToTextValue(if n < 0 then -n else n);
    StripTrimmed(s);
    if n < 0 {
      assert SplitSign(s).1 == NatToText(-n);
    }
  }
}
