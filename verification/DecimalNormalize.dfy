/** Canonical non-exponent decimal text: one text per number. */
module DecimalNormalize {
  import opened Wrappers
  import opened DecimalText

  // ---------------------------------------------------------------- `format(number, "f")` and trimming

  function PadLeft(t: string, n: nat): (p: string) {
    if |t| < n then Zeros(n - |t|) + t else t
  }

  /** The unsigned digits of coeff * 10^exp, with as many decimals as the exponent asks for. */
  function FixedBody(coeff: nat, exp: int): string {
    if coeff == 0 && exp > 0 then "0"
    else if exp >= 0 then Digits(coeff) + Zeros(exp)
    else WithPoint(PadLeft(Digits(coeff), 1 - exp), -exp)
  }

  /** The point before the last `decimals` digits. */
  function WithPoint(t: string, decimals: nat): string
    requires decimals <= |t|
  {
    t[..|t| - decimals] + "." + t[|t| - decimals..]
  }

  function RStrip(t: string, c: char): string {
    if t != "" && t[|t| - 1] == c then RStrip(t[..|t| - 1], c) else t
  }

  function SignText(neg: bool): string {
    if neg then "-" else ""
  }

  function Fixed(d: Decimal): string {
    SignText(d.neg) + FixedBody(d.coeff, d.exp)
  }

  /** Trailing zeros after a point go, then the point, then the sign of zero. */
  function Trim(fixed: string): string {
    var trimmed := if '.' in fixed then RStrip(RStrip(fixed, '0'), '.') else fixed;
    if trimmed == "-0" || trimmed == "" then "0" else trimmed
  }

  function CanonicalText(d: Decimal): string {
    Trim(Fixed(d))
  }

  function Strip(t: string): string {
    LStripSpace(RStripSpace(t))
  }

  function RStripSpace(t: string): string {
    if t != "" && IsSpace(t[|t| - 1]) then RStripSpace(t[..|t| - 1]) else t
  }

  function LStripSpace(t: string): string {
    if t != "" && IsSpace(t[0]) then LStripSpace(t[1..]) else t
  }

  function DropUnderscores(t: string): string {
    if t == "" then ""
    else if t[0] == '_' then DropUnderscores(t[1..])
    else [t[0]] + DropUnderscores(t[1..])
  }

  /** None stands for the ValueError. Not-a-number and infinity spellings fail here too. */
  function Normalize(t: string): Option<string> {
    if IsBlank(t) then None
    else
      match Parse(DropUnderscores(Strip(t)))
      case None => None
      case Some(d) => Some(CanonicalText(d))
  }

  // ---------------------------------------------------------------- equality of numbers

  function Magnitude(d: Decimal, scale: int): int
    requires scale <= d.exp
  {
    (if d.neg then -(d.coeff as int) else d.coeff) * Pow10(d.exp - scale)
  }

  /** Both numbers written over the smaller of the two exponents. */
  predicate SameNumber(a: Decimal, b: Decimal) {
    var m := if a.exp <= b.exp then a.exp else b.exp;
    Magnitude(a, m) == Magnitude(b, m)
  }

  // ---------------------------------------------------------------- shifting a zero into the coefficient

  lemma DigitsTimesTen(n: nat)
    requires n > 0
    ensures Digits(10 * n) == Digits(n) + "0"
  {
    assert 10 * n >= 10 && (10 * n) / 10 == n && (10 * n) % 10 == 0;
    assert CharOf(0) == '0';
  }

  lemma ZerosFront(n: nat)
    requires n > 0
    ensures Zeros(n) == "0" + Zeros(n - 1)
  {
    if n > 1 { ZerosFront(n - 1); }
  }

  lemma RStripAppend(t: string, c: char)
    ensures RStrip(t + [c], c) == RStrip(t, c)
  {
    assert (t + [c])[..|t|] == t;
  }

  lemma RStripKeeps(t: string, c: char)
    requires t != "" && t[|t| - 1] != c
    ensures RStrip(t, c) == t
  {
  }

  lemma FixedBodyShiftWhole(coeff: nat, exp: int)
    requires coeff > 0 && exp > 0
    ensures FixedBody(10 * coeff, exp - 1) == FixedBody(coeff, exp)
  {
    DigitsTimesTen(coeff);
    ZerosFront(exp);
    hide Digits, Zeros;
    assert Digits(coeff) + "0" + Zeros(exp - 1) == Digits(coeff) + ("0" + Zeros(exp - 1));
  }

  lemma FixedBodyShiftPoint(coeff: nat)
    requires coeff > 0
    ensures FixedBody(10 * coeff, -1) == FixedBody(coeff, 0) + "." + "0"
  {
    DigitsTimesTen(coeff);
    assert Digits(coeff) + Zeros(0) == Digits(coeff);
    hide Digits, Zeros;
    var s := Digits(coeff) + "0";
    assert s[..|s| - 1] == Digits(coeff) && s[|s| - 1..] == "0";
  }

  lemma PadShift(digits: string, width: nat)
    ensures PadLeft(digits + "0", width + 1) == PadLeft(digits, width) + "0"
    ensures |PadLeft(digits, width)| >= width
  {
    hide Zeros;
  }

  lemma WithPointShift(t: string, decimals: nat)
    requires decimals <= |t|
    ensures WithPoint(t + "0", decimals + 1) == WithPoint(t, decimals) + "0"
  {
    var k := |t| - decimals;
    assert (t + "0")[..k] == t[..k] && (t + "0")[k..] == t[k..] + "0";
  }

  lemma FixedBodyShiftFraction(coeff: nat, exp: int)
    requires coeff > 0 && exp < 0
    ensures FixedBody(10 * coeff, exp - 1) == FixedBody(coeff, exp) + "0"
  {
    hide Digits, PadLeft, WithPoint;
    DigitsTimesTen(coeff);
    PadShift(Digits(coeff), 1 - exp);
    WithPointShift(PadLeft(Digits(coeff), 1 - exp), -exp);
  }

  lemma FixedBodyShape(coeff: nat, exp: int)
    ensures '.' in FixedBody(coeff, exp) <==> exp < 0
    ensures FixedBody(coeff, exp) != "" && IsDigit(FixedBody(coeff, exp)[0])
    ensures exp >= 0 ==> AllDigits(FixedBody(coeff, exp))
  {
    var b := FixedBody(coeff, exp);
    if exp < 0 {
      var s := PadLeft(Digits(coeff), 1 - exp);
      assert b[|s| + exp] == '.';
    } else {
      assert AllDigits(b);
      assert '.' !in b;
    }
  }

  lemma TrimTrailingZero(t: string)
    requires '.' in t
    ensures Trim(t + "0") == Trim(t)
  {
    assert t + "0" == t + ['0'];
    RStripAppend(t, '0');
  }

  lemma TrimNewPoint(t: string)
    requires t != "" && '.' !in t
    ensures Trim(t + "." + "0") == Trim(t)
  {
    TrimTrailingZero(t + ".");
    RStripKeeps(t + ".", '0');
    assert t + "." == t + ['.'];
    RStripAppend(t, '.');
    assert t[|t| - 1] in t;
    RStripKeeps(t, '.');
  }

  lemma CanonicalShift(d: Decimal)
    requires d.coeff > 0
    ensures CanonicalText(Decimal(d.neg, 10 * d.coeff, d.exp - 1)) == CanonicalText(d)
  {
    hide FixedBody, Trim;
    var sign, b := SignText(d.neg), FixedBody(d.coeff, d.exp);
    FixedBodyShape(d.coeff, d.exp);
    DotUnderSign(sign, b);
    if d.exp > 0 {
      FixedBodyShiftWhole(d.coeff, d.exp);
    } else if d.exp < 0 {
      FixedBodyShiftFraction(d.coeff, d.exp);
      assert sign + (b + "0") == (sign + b) + "0";
      TrimTrailingZero(sign + b);
    } else {
      FixedBodyShiftPoint(d.coeff);
      assert sign + (b + "." + "0") == (sign + b) + "." + "0";
      TrimNewPoint(sign + b);
    }
  }

  lemma DotUnderSign(sign: string, b: string)
    requires sign == "-" || sign == ""
    ensures '.' in sign + b <==> '.' in b
  {
  }

  lemma TimesPow10(c: nat, n: nat)
    requires n > 0
    ensures c * Pow10(n) == 10 * (c * Pow10(n - 1))
  {
  }

  lemma {:induction false} CanonicalShiftMany(d: Decimal, n: nat)
    requires d.coeff > 0
    ensures d.coeff * Pow10(n) > 0
    ensures CanonicalText(Decimal(d.neg, d.coeff * Pow10(n), d.exp - n)) == CanonicalText(d)
  {
    hide CanonicalText;
    if n > 0 {
      CanonicalShiftMany(d, n - 1);
      TimesPow10(d.coeff, n);
      CanonicalShift(Decimal(d.neg, d.coeff * Pow10(n - 1), d.exp - (n - 1)));
    }
  }

  // ---------------------------------------------------------------- the text read back

  lemma CanonicalZero(d: Decimal)
    requires d.coeff == 0
    ensures CanonicalText(d) == "0"
  {
    hide Trim;
    var sign := SignText(d.neg);
    if d.exp < 0 {
      hide FixedBody, Zeros;
      ZeroFractionBody(-d.exp);
      assert Fixed(d) == (sign + "0" + ".") + Zeros(-d.exp);
      TrimZeroTail(sign + "0" + ".", -d.exp);
      TrimNewPoint(sign + "0");
      TrimTrailingZero(sign + "0" + ".");
    } else {
      assert FixedBody(0, d.exp) == "0" by { assert "0" + Zeros(0) == "0"; }
    }
    TrimSignedZero(sign);
  }

  lemma TrimSignedZero(sign: string)
    requires sign == "-" || sign == ""
    ensures Trim(sign + "0") == "0"
  {
    DotUnderSign(sign, "0");
  }

  lemma TrimZeroTail(t: string, n: nat)
    requires '.' in t
    ensures Trim(t + Zeros(n)) == Trim(t)
  {
    if n == 0 {
      assert t + Zeros(0) == t;
    } else {
      TrimZeroTail(t, n - 1);
      assert t + Zeros(n) == (t + Zeros(n - 1)) + "0";
      TrimTrailingZero(t + Zeros(n - 1));
    }
  }

  lemma ZeroFractionBody(k: int)
    requires k > 0
    ensures FixedBody(0, -k) == "0" + "." + Zeros(k)
  {
    var s := PadLeft("0", 1 + k);
    assert Zeros(k) + "0" == Zeros(k + 1);
    ZerosFront(k + 1);
    assert s == "0" + Zeros(k);
    assert s[..1] == "0" && s[1..] == Zeros(k);
  }

  lemma ValueOfAppend(t: string, c: char)
    requires AllDigits(t) && IsDigit(c)
    ensures AllDigits(t + [c]) && ValueOf(t + [c]) == 10 * ValueOf(t) + DigitOf(c)
  {
    assert (t + [c])[..|t|] == t;
  }

  lemma ValueOfZerosAfter(t: string, n: nat)
    requires AllDigits(t)
    ensures AllDigits(t + Zeros(n)) && ValueOf(t + Zeros(n)) == ValueOf(t) * Pow10(n)
  {
    hide ValueOf;
    if n == 0 {
      assert t + Zeros(0) == t;
    } else {
      ValueOfZerosAfter(t, n - 1);
      assert t + Zeros(n) == (t + Zeros(n - 1)) + ['0'];
      ValueOfAppend(t + Zeros(n - 1), '0');
      TimesPow10(ValueOf(t), n);
    }
  }

  lemma ValueOfZerosBefore(n: nat, t: string)
    requires AllDigits(t)
    ensures AllDigits(Zeros(n) + t) && ValueOf(Zeros(n) + t) == ValueOf(t)
  {
    if t == "" {
      assert Zeros(n) + t == Zeros(n);
      ValueOfZeros(n);
    } else {
      var u, c := t[..|t| - 1], t[|t| - 1];
      ValueOfZerosBefore(n, u);
      assert Zeros(n) + t == (Zeros(n) + u) + [c];
      ValueOfAppend(Zeros(n) + u, c);
    }
  }

  lemma ValueOfZeros(n: nat)
    ensures ValueOf(Zeros(n)) == 0
  {
    if n > 0 {
      ValueOfZeros(n - 1);
      assert Zeros(n)[..n - 1] == Zeros(n - 1);
    }
  }

  /** A coefficient with no spare trailing zero, or no decimals at all: the fixed text is final. */
  predicate Reduced(d: Decimal) {
    d.coeff > 0 && (d.exp >= 0 || d.coeff % 10 != 0)
  }

  lemma LastDigit(n: nat)
    ensures Digits(n)[|Digits(n)| - 1] == CharOf(n % 10)
  {
  }

  lemma TrimFinal(t: string)
    requires t != "" && t != "-0"
    requires '.' in t ==> t[|t| - 1] != '0' && t[|t| - 1] != '.'
    ensures Trim(t) == t
  {
  }

  lemma ReducedText(d: Decimal)
    requires Reduced(d)
    ensures CanonicalText(d) == Fixed(d)
  {
    var sign, b := SignText(d.neg), FixedBody(d.coeff, d.exp);
    FixedBodyShape(d.coeff, d.exp);
    if d.exp >= 0 {
      assert b[0] == Digits(d.coeff)[0] != '0';
    } else {
      LastOfFraction(d.coeff, d.exp);
    }
    hide Trim, FixedBody;
    DotUnderSign(sign, b);
    assert Fixed(d)[|Fixed(d)| - 1] == b[|b| - 1];
    assert Fixed(d)[|sign|] == b[0];
    TrimFinal(Fixed(d));
  }

  lemma LastOfFraction(coeff: nat, exp: int)
    requires exp < 0 && coeff % 10 != 0
    ensures var b := FixedBody(coeff, exp); |b| > 1 && b[|b| - 1] != '0' && b[|b| - 1] != '.'
  {
    LastDigit(coeff);
    var s, b := PadLeft(Digits(coeff), 1 - exp), FixedBody(coeff, exp);
    assert s[|s| - 1] == CharOf(coeff % 10);
    assert b[|b| - 1] == s[|s| - 1];
  }

  lemma ReducedParses(d: Decimal)
    requires Reduced(d)
    ensures var e := if d.exp >= 0 then Decimal(d.neg, d.coeff * Pow10(d.exp), 0) else d;
      Parse(CanonicalText(d)) == Some(e)
  {
    ReducedText(d);
    if d.exp >= 0 { WholeParses(d); } else { FractionParses(d); }
  }

  lemma WholeParses(d: Decimal)
    requires d.exp >= 0 && d.coeff > 0
    ensures Parse(Fixed(d)) == Some(Decimal(d.neg, d.coeff * Pow10(d.exp), 0))
  {
    hide Parse, IsDigit, Digits, Zeros;
    ValueOfZerosAfter(Digits(d.coeff), d.exp);
    WholeTextParses(d.neg, Digits(d.coeff) + Zeros(d.exp));
  }

  lemma WholeTextParses(neg: bool, whole: string)
    requires whole != "" && AllDigits(whole)
    ensures Parse(SignText(neg) + whole) == Some(Decimal(neg, ValueOf(whole), 0))
  {
    hide ValueOf, Parse, IsDigit, AllDigits;
    EmptyValue();
    EmptyDigits();
    var p := Pieces(SignText(neg), whole, false, "", "", "", "");
    assert p.whole + p.frac == whole;
    assert p.Text() == SignText(neg) + whole;
    ParseAcceptsGrammar(p);
  }

  lemma ValueOfPadded(t: string, n: nat)
    requires AllDigits(t)
    ensures AllDigits(PadLeft(t, n)) && ValueOf(PadLeft(t, n)) == ValueOf(t) && |PadLeft(t, n)| >= n
  {
    if |t| < n { ValueOfZerosBefore(n - |t|, t); }
  }

  lemma AllDigitsSlice(s: string, k: nat)
    requires AllDigits(s) && k <= |s|
    ensures AllDigits(s[..k]) && AllDigits(s[k..])
  {
  }

  lemma PointParses(neg: bool, whole: string, frac: string)
    requires AllDigits(whole) && AllDigits(frac) && frac != ""
    ensures Parse(SignText(neg) + (whole + "." + frac)) == Some(Decimal(neg, ValueOf(whole + frac), -|frac|))
  {
    hide ValueOf, Parse, IsDigit, AllDigits;
    EmptyValue();
    var p := Pieces(SignText(neg), whole, true, frac, "", "", "");
    assert AllDigits("") by { EmptyDigits(); }
    assert p.Text() == SignText(neg) + (whole + "." + frac);
    ParseAcceptsGrammar(p);
  }

  lemma SplitParses(neg: bool, s: string, k: int)
    requires AllDigits(s) && 0 < k < |s|
    ensures Parse(SignText(neg) + (s[..|s| - k] + "." + s[|s| - k..])) == Some(Decimal(neg, ValueOf(s), -k))
  {
    hide ValueOf, Parse, IsDigit, SignText;
    AllDigitsSlice(s, |s| - k);
    PointParses(neg, s[..|s| - k], s[|s| - k..]);
    assert s[..|s| - k] + s[|s| - k..] == s;
  }

  lemma EmptyDigits()
    ensures AllDigits("")
  {
  }

  lemma EmptyValue()
    ensures ValueOf("") == 0
  {
  }

  lemma FractionParses(d: Decimal)
    requires d.exp < 0 && d.coeff > 0
    ensures Parse(Fixed(d)) == Some(d)
  {
    hide Parse, Digits, Zeros, ValueOf;
    ValueOfPadded(Digits(d.coeff), 1 - d.exp);
    SplitParses(d.neg, PadLeft(Digits(d.coeff), 1 - d.exp), -d.exp);
  }

  lemma SameNumberShift(a: Decimal, b: Decimal, n: nat)
    requires b.exp <= a.exp && n == a.exp - b.exp && a.neg == b.neg && b.coeff == a.coeff * Pow10(n)
    ensures SameNumber(a, b) && SameNumber(b, a)
  {
    assert Magnitude(b, b.exp) == if b.neg then -(b.coeff as int) else b.coeff;
    var m: int := a.coeff * Pow10(n);
    assert (-(a.coeff as int)) * Pow10(n) == -m;
  }

  /** Canonical text is exact-decimal text of the very same number. */
  lemma {:induction false} CanonicalParses(d: Decimal)
    ensures Parse(CanonicalText(d)).Some?
    ensures SameNumber(Parse(CanonicalText(d)).value, d)
    ensures d.coeff == 0 ==> CanonicalText(d) == "0"
    ensures d.coeff > 0 ==> Parse(CanonicalText(d)).value.neg == d.neg && Parse(CanonicalText(d)).value.coeff > 0
    decreases d.coeff
  {
    hide CanonicalText, Parse, SameNumber;
    if d.coeff == 0 {
      CanonicalZero(d);
      ParseZero();
      SameZero(Decimal(false, 0, 0), d);
    } else if Reduced(d) {
      ReducedParses(d);
      if d.exp >= 0 {
        SameNumberShift(d, Parse(CanonicalText(d)).value, d.exp);
      } else {
        SameNumberReflexive(d);
      }
    } else {
      var r := Decimal(d.neg, d.coeff / 10, d.exp + 1);
      assert d.coeff == 10 * r.coeff && r.coeff > 0;
      CanonicalParses(r);
      CanonicalShift(r);
      assert Pow10(1) == 10;
      SameNumberShift(r, d, 1);
      SameNumberTransitive(Parse(CanonicalText(d)).value, r, d);
    }
  }

  lemma SameZero(a: Decimal, b: Decimal)
    requires a.coeff == 0 && b.coeff == 0
    ensures SameNumber(a, b)
  {
  }

  lemma SameNumberReflexive(a: Decimal)
    ensures SameNumber(a, a)
  {
  }

  lemma ParseZero()
    ensures Parse("0") == Some(Decimal(false, 0, 0))
  {
    var p := Pieces("", "0", false, "", "", "", "");
    assert p.whole + p.frac == "0" == Digits(0);
    assert p.Text() == "0";
    ParseAcceptsGrammar(p);
  }

  lemma Pow10Adds(a: nat, b: nat)
    ensures Pow10(a + b) == Pow10(a) * Pow10(b)
  {
    if a > 0 {
      Pow10Adds(a - 1, b);
      assert 10 * (Pow10(a - 1) * Pow10(b)) == (10 * Pow10(a - 1)) * Pow10(b);
    }
  }

  lemma MagnitudeRescale(d: Decimal, s: int, t: int)
    requires t <= s <= d.exp
    ensures Magnitude(d, t) == Magnitude(d, s) * Pow10(s - t)
  {
    hide Pow10;
    Pow10Adds(d.exp - s, s - t);
    var c := if d.neg then -(d.coeff as int) else d.coeff;
    assert c * (Pow10(d.exp - s) * Pow10(s - t)) == (c * Pow10(d.exp - s)) * Pow10(s - t);
  }

  lemma MultiplyOut(a: int, b: int, p: int)
    requires p > 0
    ensures a * p == b * p <==> a == b
  {
    if a * p == b * p {
      assert (a - b) * p == 0;
    }
  }

  /** Comparing over any common scale decides sameness. */
  lemma SameNumberAt(a: Decimal, b: Decimal, s: int)
    requires s <= a.exp && s <= b.exp
    ensures SameNumber(a, b) <==> Magnitude(a, s) == Magnitude(b, s)
  {
    var m := if a.exp <= b.exp then a.exp else b.exp;
    MagnitudeRescale(a, m, s);
    MagnitudeRescale(b, m, s);
    MultiplyOut(Magnitude(a, m), Magnitude(b, m), Pow10(m - s));
  }

  lemma SameNumberTransitive(a: Decimal, b: Decimal, c: Decimal)
    requires SameNumber(a, b) && SameNumber(b, c)
    ensures SameNumber(a, c)
  {
    var m := if a.exp <= b.exp then a.exp else b.exp;
    var s := if m <= c.exp then m else c.exp;
    SameNumberAt(a, b, s);
    SameNumberAt(b, c, s);
    SameNumberAt(a, c, s);
  }

  lemma SignOfMagnitude(d: Decimal, s: int)
    requires s <= d.exp
    ensures Magnitude(d, s) == 0 <==> d.coeff == 0
    ensures Magnitude(d, s) > 0 <==> d.coeff > 0 && !d.neg
  {
    var p: int := d.coeff * Pow10(d.exp - s);
    assert d.coeff > 0 ==> p > 0;
    assert (-(d.coeff as int)) * Pow10(d.exp - s) == -p;
  }

  /** Two numbers get the same canonical text exactly when they are equal. */
  lemma CanonicalTextDecidesEquality(a: Decimal, b: Decimal)
    ensures CanonicalText(a) == CanonicalText(b) <==> SameNumber(a, b)
  {
    if SameNumber(a, b) {
      SameNumberSameText(a, b);
    }
    if CanonicalText(a) == CanonicalText(b) {
      var c := Parse(CanonicalText(a));
      CanonicalParses(a);
      CanonicalParses(b);
      assert SameNumber(a, c.value);
      SameNumberTransitive(a, c.value, b);
    }
  }

  lemma SameNumberSameText(a: Decimal, b: Decimal)
    requires SameNumber(a, b)
    ensures CanonicalText(a) == CanonicalText(b)
  {
    var m := if a.exp <= b.exp then a.exp else b.exp;
    SignOfMagnitude(a, m);
    SignOfMagnitude(b, m);
    if a.coeff == 0 {
      CanonicalZero(a);
      CanonicalZero(b);
    } else if a.exp <= b.exp {
      HigherExponentSameText(b, a);
    } else {
      HigherExponentSameText(a, b);
    }
  }

  lemma HigherExponentSameText(hi: Decimal, lo: Decimal)
    requires lo.exp <= hi.exp && hi.coeff > 0 && lo.coeff > 0 && SameNumber(hi, lo)
    ensures CanonicalText(hi) == CanonicalText(lo)
  {
    var n := hi.exp - lo.exp;
    SignOfMagnitude(hi, lo.exp);
    SignOfMagnitude(lo, lo.exp);
    assert Pow10(0) == 1;
    assert hi.neg == lo.neg;
    var p: int := hi.coeff * Pow10(n);
    assert (-(hi.coeff as int)) * Pow10(n) == -p;
    assert lo.coeff == hi.coeff * Pow10(n);
    CanonicalShiftMany(hi, n);
  }

  // ---------------------------------------------------------------- the normalizer

  predicate NumberChar(c: char) {
    IsDigit(c) || c == '.' || c == '-'
  }

  predicate NumberText(t: string) {
    forall i | 0 <= i < |t| :: NumberChar(t[i])
  }

  lemma CleanKeepsNumberText(t: string)
    requires t != "" && NumberText(t)
    ensures !IsBlank(t) && DropUnderscores(Strip(t)) == t
  {
    assert !IsSpace(t[0]) && !IsSpace(t[|t| - 1]);
    NoUnderscores(t);
  }

  lemma NoUnderscores(t: string)
    requires forall i | 0 <= i < |t| :: t[i] != '_'
    ensures DropUnderscores(t) == t
  {
    if t != "" { NoUnderscores(t[1..]); }
  }

  lemma RStripLast(t: string, c: char)
    ensures var r := RStrip(t, c);
      && |r| <= |t| && r == t[..|r|] && (r != "" ==> r[|r| - 1] != c) && (|r| < |t| ==> t[|r|] == c)
  {
  }

  lemma FixedBodyChars(coeff: nat, exp: int)
    ensures NumberText(FixedBody(coeff, exp))
  {
  }

  lemma CanonicalChars(d: Decimal)
    ensures CanonicalText(d) != "" && NumberText(CanonicalText(d))
  {
    FixedBodyChars(d.coeff, d.exp);
    TrimChars(Fixed(d));
  }

  lemma TrimChars(t: string)
    requires NumberText(t)
    ensures Trim(t) != "" && NumberText(Trim(t))
  {
    RStripLast(t, '0');
    RStripLast(RStrip(t, '0'), '.');
  }

  /** No two points. */
  predicate OnePoint(t: string) {
    forall i, j | 0 <= i < j < |t| :: !(t[i] == '.' && t[j] == '.')
  }

  lemma FixedHasOnePoint(d: Decimal)
    ensures OnePoint(Fixed(d))
  {
    hide Digits, Zeros;
    if d.exp < 0 {
      var s := PadLeft(Digits(d.coeff), 1 - d.exp);
      var t := Fixed(d);
      var k := |SignText(d.neg)| + |s| + d.exp;
      assert AllDigits(s);
      assert t == SignText(d.neg) + (s[..|s| + d.exp] + "." + s[|s| + d.exp..]);
      forall i | 0 <= i < |t| && i != k ensures t[i] != '.' {
        if i > k { assert t[i] == s[i - |SignText(d.neg)| - 1]; }
      }
    } else {
      var t := Fixed(d);
      assert AllDigits(FixedBody(d.coeff, d.exp));
      assert forall i | 0 <= i < |t| :: t[i] != '.';
    }
  }

  /** The one normal spelling: no exponent, no zero after the last decimal, no bare point, no signed zero. */
  lemma CanonicalForm(d: Decimal)
    ensures var t := CanonicalText(d);
      && NumberText(t) && t != "-0" && OnePoint(t)
      && ('.' in t ==> t[|t| - 1] != '0' && t[|t| - 1] != '.')
  {
    hide Fixed;
    CanonicalChars(d);
    FixedHasOnePoint(d);
    var f := Fixed(d);
    var u := RStrip(f, '0');
    var v := RStrip(u, '.');
    RStripLast(f, '0');
    RStripLast(u, '.');
    if '.' in f && '.' in v {
      var i :| 0 <= i < |v| && v[i] == '.';
      assert u[i] == '.' && f[i] == '.';
    }
  }

  /** Normalizing keeps the number, yields exact-decimal text, keeps the sign test, and is idempotent. */
  lemma NormalizeCorrect(t: string)
    requires Normalize(t).Some?
    ensures var d, n := Parse(DropUnderscores(Strip(t))), Normalize(t).value;
      && d.Some? && Parse(n).Some? && SameNumber(Parse(n).value, d.value)
      && (IsPositiveExactDecimal(n) <==> d.value.coeff > 0 && !d.value.neg)
      && Normalize(n) == Some(n)
  {
    var d := Parse(DropUnderscores(Strip(t))).value;
    var n := CanonicalText(d);
    CanonicalParses(d);
    CanonicalChars(d);
    CleanKeepsNumberText(n);
    CanonicalTextDecidesEquality(Parse(n).value, d);
    if d.coeff == 0 { ParseZero(); }
  }

  /** Two texts normalize to the same text exactly when they denote the same number. */
  lemma NormalizeDecidesEquality(t: string, u: string)
    requires Normalize(t).Some? && Normalize(u).Some?
    ensures Normalize(t) == Normalize(u) <==>
      SameNumber(Parse(DropUnderscores(Strip(t))).value, Parse(DropUnderscores(Strip(u))).value)
  {
    CanonicalTextDecidesEquality(Parse(DropUnderscores(Strip(t))).value, Parse(DropUnderscores(Strip(u))).value);
  }

  /** Exact-decimal text always normalizes, and to the canonical text of its own number. */
  lemma ExactDecimalNormalizes(t: string)
    requires IsExactDecimal(t)
    ensures Normalize(t) == Some(CanonicalText(Parse(t).value))
  {
    var p := ParseOnlyGrammar(t);
    ExactDecimalClean(p);
  }

  predicate ExactChar(c: char) {
    IsDigit(c) || c == '.' || IsSign(c) || IsExpMark(c)
  }

  lemma ExactDecimalClean(p: Pieces)
    requires p.WellFormed()
    ensures !IsBlank(p.Text()) && DropUnderscores(Strip(p.Text())) == p.Text()
  {
    var t := p.Text();
    SignOfPieces(p);
    assert forall i | 0 <= i < |p.Mantissa()| :: ExactChar(p.Mantissa()[i]);
    assert forall i | 0 <= i < |p.Tail()| :: ExactChar(p.Tail()[i]);
    assert forall i | 0 <= i < |t| :: ExactChar(t[i]);
    assert !IsSpace(t[0]) && !IsSpace(t[|t| - 1]);
    NoUnderscores(t);
  }
}
