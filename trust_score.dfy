/** Trust-score banding (front/src/utils/trustScoreColor.js) and the
    JavaScript number coercion the score comparisons go through. The bands
    take a real score; a score read from a payload is a whole number,
    a numeric string or an array printing as one, and IEEE details are not
    modelled. */
module TrustScore {
  import opened Common
  import opened JsValues

  predicate IsDigit(c: char)
  {
    '0' <= c <= '9'
  }

  predicate AllDigits(s: string)
  {
    forall i :: 0 <= i < |s| ==> IsDigit(s[i])
  }

  /** The number a run of decimal digits spells. */
  function DigitsValue(d: string): nat
    requires AllDigits(d)
  {
    if d == [] then 0 else DigitsValue(d[..|d| - 1]) * 10 + (d[|d| - 1] as int - '0' as int)
  }

  function Pow10(k: nat): (r: nat)
    ensures r >= 1
  {
    if k == 0 then 1 else 10 * Pow10(k - 1)
  }

  /** `10 ** e` for a signed exponent. */
  function Scale(e: int): real
  {
    if e >= 0 then Pow10(e) as real else 1.0 / Pow10(-e) as real
  }

  /** The first position whose character satisfies `p`, or `|s|`. */
  function IndexWhere(s: string, p: char -> bool): (r: nat)
    ensures r <= |s|
    ensures forall i :: 0 <= i < r ==> !p(s[i])
    ensures r < |s| ==> p(s[r])
    decreases |s|
  {
    if s == [] then 0 else if p(s[0]) then 0 else 1 + IndexWhere(s[1..], p)
  }

  /** Digits with at most one '.', and at least one digit: `5`, `5.`,
      `.5`, `5.25`. */
  function Mantissa(m: string): Option<real>
  {
    var dot := IndexWhere(m, c => c == '.');
    var ip := m[..dot];
    var fp := if dot < |m| then m[dot + 1..] else "";
    if AllDigits(ip) && AllDigits(fp) && |ip| + |fp| > 0 then
      Some(DigitsValue(ip) as real + DigitsValue(fp) as real / Pow10(|fp|) as real)
    else None
  }

  /** An exponent: an optional sign and at least one digit. */
  function Exponent(x: string): Option<int>
  {
    if x != [] && (x[0] == '+' || x[0] == '-') then
      var d := x[1..];
      if d != [] && AllDigits(d) then Some(if x[0] == '-' then -(DigitsValue(d) as int) else DigitsValue(d)) else None
    else if x != [] && AllDigits(x) then Some(DigitsValue(x))
    else None
  }

  /** A decimal literal without its sign, with an optional exponent. */
  function UnsignedDecimal(t: string): Option<real>
  {
    var e := IndexWhere(t, c => c == 'e' || c == 'E');
    var m := Mantissa(t[..e]);
    if m.None? then None
    else if e == |t| then m
    else
      var x := Exponent(t[e + 1..]);
      if x.None? then None else Some(m.value * Scale(x.value))
  }

  /** A decimal literal with an optional sign. */
  function DecimalLiteral(t: string): Option<real>
  {
    if t != [] && (t[0] == '+' || t[0] == '-') then
      var u := UnsignedDecimal(t[1..]);
      if u.None? then None else Some(if t[0] == '-' then -u.value else u.value)
    else UnsignedDecimal(t)
  }

  /** `Number(s)` for a string: surrounding white space is ignored, a blank
      string is 0, a decimal literal is its value, and anything else is NaN
      (`None`). */
  function StringToNumber(s: string): (r: Option<real>)
    ensures StripBy(s, IsJsWhitespace) == "" ==> r == Some(0.0)
  {
    var t := StripBy(s, IsJsWhitespace);
    if t == "" then Some(0.0) else DecimalLiteral(t)
  }

  /** `Number(v)` as far as `>=` sees it: `None` stands for NaN, which makes
      every comparison false. A string is read as a number; an array
      through the string it prints as; a plain object prints as
      "[object Object]", which is NaN. */
  function ToNumber(v: JsValue): (r: Option<real>)
    ensures v.JsNum? ==> r == Some(v.n as real)
    ensures v.JsNull? ==> r == Some(0.0)
    ensures v.JsBool? ==> r == Some(if v.b then 1.0 else 0.0)
    ensures v.JsUndefined? || v.JsObj? ==> r.None?
    ensures v.JsStr? ==> r == StringToNumber(v.s)
    ensures v.JsArr? ==> r == StringToNumber(ToKey(v))
  {
    match v
    case JsNum(n) => Some(n as real)
    case JsNull => Some(0.0)
    case JsBool(b) => Some(if b then 1.0 else 0.0)
    case JsStr(s) => StringToNumber(s)
    case JsArr(_) => StringToNumber(ToKey(v))
    case _ => None
  }

  /** Reading back the digits a number prints as gives the number. */
  lemma {:induction false} DigitsOfNat(n: nat)
    ensures AllDigits(NatToString(n)) && DigitsValue(NatToString(n)) == n
  {
    var d := NatToString(n);
    if n >= 10 {
      DigitsOfNat(n / 10);
      assert d[..|d| - 1] == NatToString(n / 10);
    }
  }

  /** A string with nothing to strip at either end is left as it is. */
  lemma StripNothing(s: string)
    requires s != [] && !IsJsWhitespace(s[0]) && !IsJsWhitespace(s[|s| - 1])
    ensures StripBy(s, IsJsWhitespace) == s
  {
    assert DropLeading(s, IsJsWhitespace) == s;
    assert DropTrailing(s, IsJsWhitespace) == s;
  }

  /** A run of digits reads as its value. */
  lemma UnsignedDigitRun(d: string)
    requires d != [] && AllDigits(d)
    ensures UnsignedDecimal(d) == Some(DigitsValue(d) as real)
  {
    var e := IndexWhere(d, c => c == 'e' || c == 'E');
    assert e == |d| && d[..e] == d;
    var dot := IndexWhere(d, c => c == '.');
    assert dot == |d| && d[..dot] == d;
  }

  /** The digits a natural number prints as read back as that number, with
      or without a leading minus. */
  lemma NatStringValue(m: nat)
    ensures DecimalLiteral(NatToString(m)) == Some(m as real)
    ensures DecimalLiteral("-" + NatToString(m)) == Some(-(m as real))
  {
    var d := NatToString(m);
    DigitsOfNat(m);
    UnsignedDigitRun(d);
    assert IsDigit(d[0]);
    assert ("-" + d)[1..] == d;
  }

  /** The decimal form of a whole number is a literal for that number that
      starts with a digit or '-' and ends with a digit. */
  lemma IntStringShape(n: int)
    ensures var t := IntToString(n);
      DecimalLiteral(t) == Some(n as real) && t != [] && IsDigit(t[|t| - 1]) && (IsDigit(t[0]) || t[0] == '-')
  {
    var t := IntToString(n);
    var m: nat := if n < 0 then -n else n;
    var d := NatToString(m);
    NatStringValue(m);
    DigitsOfNat(m);
    assert IsDigit(d[|d| - 1]) && IsDigit(d[0]);
    if n < 0 {
      assert t == "-" + d;
    } else {
      assert t == d;
    }
  }

  /** `Number(String(n))` is `n` for every whole number: the score a payload
      carries as a numeric string compares as that number. */
  lemma {:induction false} NumericStringRoundTrip(n: int)
    ensures ToNumber(JsStr(IntToString(n))) == Some(n as real)
  {
    var t := IntToString(n);
    IntStringShape(n);
    StripNothing(t);
    assert StringToNumber(t) == DecimalLiteral(t);
  }

  /** A one-element array of a number prints as that number, so `[80]`
      compares as 80; the empty array prints as "" and compares as 0. */
  lemma {:induction false} ArrayCoercion(n: int)
    ensures ToNumber(JsArr([JsNum(n)])) == Some(n as real)
    ensures ToNumber(JsArr([])) == Some(0.0)
  {
    var v := JsArr([JsNum(n)]);
    assert JoinElements(v, [JsNum(n)]) == ToKey(JsNum(n)) == IntToString(n);
    assert ToKey(v) == IntToString(n);
    NumericStringRoundTrip(n);
    assert ToKey(JsArr([])) == "";
  }

  /** `x >= t` after coercion. */
  predicate AtLeast(x: Option<real>, t: real)
  {
    x.Some? && x.value >= t
  }

  /** `v || 0`, coerced: a missing or falsy score counts as zero. */
  function ScoreOrZero(v: JsValue): (r: Option<real>)
    ensures !Truthy(v) ==> r == Some(0.0)
    ensures Truthy(v) ==> r == ToNumber(v)
  {
    ToNumber(Or(v, JsNum(0)))
  }

  datatype ColorBand = High | Medium | Low

  function BandRank(b: ColorBand): nat
  {
    match b
    case Low => 0
    case Medium => 1
    case High => 2
  }

  /** `getTrustScoreColor`: high from 70, medium from 40, low below. */
  function TrustScoreColor(score: Option<real>): (b: ColorBand)
    ensures b == High <==> AtLeast(score, 70.0)
    ensures b == Medium <==> AtLeast(score, 40.0) && !AtLeast(score, 70.0)
    ensures b == Low <==> !AtLeast(score, 40.0)
  {
    if AtLeast(score, 70.0) then High
    else if AtLeast(score, 40.0) then Medium
    else Low
  }

  const HIGHLY_TRUSTWORTHY := "Highly Trustworthy"
  const MOSTLY_TRUSTWORTHY := "Mostly Trustworthy"
  const MIXED := "Mixed"
  const QUESTIONABLE := "Questionable"
  const UNRELIABLE := "Unreliable"

  /** The labels from best to worst. */
  const LABELS: seq<string> := [HIGHLY_TRUSTWORTHY, MOSTLY_TRUSTWORTHY, MIXED, QUESTIONABLE, UNRELIABLE]

  /** `getTrustScoreLabel`: the first of the thresholds 80, 60, 40, 20 the
      score reaches picks the label; below 20 (or NaN) it is "Unreliable". */
  function TrustScoreLabel(score: Option<real>): (l: string)
    ensures l in LABELS
    ensures l == HIGHLY_TRUSTWORTHY <==> AtLeast(score, 80.0)
    ensures l == MOSTLY_TRUSTWORTHY <==> AtLeast(score, 60.0) && !AtLeast(score, 80.0)
    ensures l == MIXED <==> AtLeast(score, 40.0) && !AtLeast(score, 60.0)
    ensures l == QUESTIONABLE <==> AtLeast(score, 20.0) && !AtLeast(score, 40.0)
    ensures l == UNRELIABLE <==> !AtLeast(score, 20.0)
  {
    if AtLeast(score, 80.0) then HIGHLY_TRUSTWORTHY
    else if AtLeast(score, 60.0) then MOSTLY_TRUSTWORTHY
    else if AtLeast(score, 40.0) then MIXED
    else if AtLeast(score, 20.0) then QUESTIONABLE
    else UNRELIABLE
  }

  /** Position of a label in `LABELS` (0 is best). */
  function LabelRank(l: string): nat
  {
    if l == HIGHLY_TRUSTWORTHY then 0
    else if l == MOSTLY_TRUSTWORTHY then 1
    else if l == MIXED then 2
    else if l == QUESTIONABLE then 3
    else 4
  }

  const ACCURATE_DESCRIPTION := "This video appears to contain mostly accurate information based on fact-checking."
  const MIXED_DESCRIPTION := "This video contains a mix of accurate and questionable claims. Review individual facts for details."
  const INACCURATE_DESCRIPTION := "This video contains significant inaccuracies or unverified claims. Proceed with caution."

  /** `getTrustScoreDescription`: the same 70 and 40 thresholds as the
      colour. */
  function TrustScoreDescription(score: Option<real>): (d: string)
    ensures d == ACCURATE_DESCRIPTION <==> TrustScoreColor(score) == High
    ensures d == MIXED_DESCRIPTION <==> TrustScoreColor(score) == Medium
    ensures d == INACCURATE_DESCRIPTION <==> TrustScoreColor(score) == Low
  {
    if AtLeast(score, 70.0) then ACCURATE_DESCRIPTION
    else if AtLeast(score, 40.0) then MIXED_DESCRIPTION
    else INACCURATE_DESCRIPTION
  }

  /** Raising a score never moves it to a worse colour, label or
      description. */
  lemma BandsMonotone(s: real, t: real)
    requires s <= t
    ensures BandRank(TrustScoreColor(Some(s))) <= BandRank(TrustScoreColor(Some(t)))
    ensures LabelRank(TrustScoreLabel(Some(t))) <= LabelRank(TrustScoreLabel(Some(s)))
    ensures TrustScoreDescription(Some(s)) == ACCURATE_DESCRIPTION ==> TrustScoreDescription(Some(t)) == ACCURATE_DESCRIPTION
    ensures TrustScoreDescription(Some(t)) == INACCURATE_DESCRIPTION ==> TrustScoreDescription(Some(s)) == INACCURATE_DESCRIPTION
  {
  }

  /** A score of 80 given as a string or as a one-element array lands in
      the top band, as the number 80 does. */
  lemma CoercedScoresBand()
    ensures TrustScoreColor(ToNumber(JsStr("80"))) == High
    ensures TrustScoreColor(ToNumber(JsArr([JsNum(80)]))) == High
  {
    NumericStringRoundTrip(80);
    assert IntToString(80) == NatToString(80) == "80";
    ArrayCoercion(80);
  }

  /** A literal must start with a digit, '.', or a sign: anything else is
      NaN. */
  lemma UnsignedNeedsDigitOrDot(t: string)
    requires t != [] && !IsDigit(t[0]) && t[0] != '.'
    ensures UnsignedDecimal(t) == None
  {
    var e := IndexWhere(t, c => c == 'e' || c == 'E');
    var m := t[..e];
    if e > 0 {
      var dot := IndexWhere(m, c => c == '.');
      assert dot > 0 && m[..dot][0] == t[0];
    }
  }

  /** A string whose first non-blank character cannot start a number, such
      as a score given as "high", compares as NaN and so lands in the
      lowest band. */
  lemma {:induction false} WordScoreIsNaN(s: string)
    requires var t := StripBy(s, IsJsWhitespace);
      t != [] && !IsDigit(t[0]) && t[0] !in ".+-"
    ensures ToNumber(JsStr(s)) == None
    ensures TrustScoreColor(ToNumber(JsStr(s))) == Low
  {
    UnsignedNeedsDigitOrDot(StripBy(s, IsJsWhitespace));
  }

  /** A missing score (`undefined`, NaN) lands in the lowest band of all
      three functions, the same place as zero. */
  lemma MissingScoreIsLowest()
    ensures TrustScoreColor(ToNumber(JsUndefined)) == Low == TrustScoreColor(Some(0.0))
    ensures TrustScoreLabel(ToNumber(JsUndefined)) == UNRELIABLE == TrustScoreLabel(Some(0.0))
    ensures TrustScoreDescription(ToNumber(JsUndefined)) == INACCURATE_DESCRIPTION
  {
  }
}
