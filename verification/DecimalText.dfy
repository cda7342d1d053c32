/** Exact-decimal text: the hand-written scanner, the normalizer, and the numbers they denote. */
module DecimalText {
  import opened Wrappers

  /** A finite decimal number: (-1)^neg * coeff * 10^exp. */
  datatype Decimal = Decimal(neg: bool, coeff: nat, exp: int)

  // ---------------------------------------------------------------- characters and digits

  predicate IsDigit(c: char) {
    '0' <= c <= '9'
  }

  predicate IsSign(c: char) {
    c == '+' || c == '-'
  }

  predicate IsExpMark(c: char) {
    c == 'e' || c == 'E'
  }

  predicate AllDigits(t: string) {
    forall i | 0 <= i < |t| :: IsDigit(t[i])
  }

  /** The characters `str.strip` removes. */
  predicate IsSpace(c: char) {
    var n := c as int;
    || 0x09 <= n <= 0x0d || 0x1c <= n <= 0x20 || n == 0x85 || n == 0xa0 || n == 0x1680
    || 0x2000 <= n <= 0x200a || n == 0x2028 || n == 0x2029 || n == 0x202f || n == 0x205f || n == 0x3000
  }

  predicate IsBlank(t: string) {
    forall i | 0 <= i < |t| :: IsSpace(t[i])
  }

  function DigitOf(c: char): (d: nat)
    requires IsDigit(c)
    ensures d < 10
  {
    c as int - '0' as int
  }

  function CharOf(d: nat): (c: char)
    requires d < 10
    ensures IsDigit(c) && DigitOf(c) == d
  {
    (d + '0' as int) as char
  }

  function ValueOf(t: string): nat
    requires AllDigits(t)
  {
    if t == "" then 0 else 10 * ValueOf(t[..|t| - 1]) + DigitOf(t[|t| - 1])
  }

  /** Shortest digits of a natural number: no leading zero except for "0" itself. */
  function Digits(n: nat): (t: string)
    ensures t != "" && AllDigits(t)
    ensures ValueOf(t) == n
    ensures t[0] == '0' <==> n == 0
    ensures n == 0 ==> t == "0"
  {
    if n < 10 then [CharOf(n)]
    else
      var t := Digits(n / 10) + [CharOf(n % 10)];
      assert t[..|t| - 1] == Digits(n / 10);
      t
  }

  function Zeros(n: nat): (t: string)
    ensures |t| == n && AllDigits(t)
    ensures forall i | 0 <= i < n :: t[i] == '0'
  {
    if n == 0 then "" else Zeros(n - 1) + "0"
  }

  function Pow10(n: nat): (p: nat)
    ensures p > 0
  {
    if n == 0 then 1 else 10 * Pow10(n - 1)
  }

  /** First position at or after `i` that holds no digit. */
  function Span(t: string, i: nat): (j: nat)
    requires i <= |t|
    ensures i <= j <= |t| && AllDigits(t[i..j])
    ensures j < |t| ==> !IsDigit(t[j])
    decreases |t| - i
  {
    if i < |t| && IsDigit(t[i]) then
      var j := Span(t, i + 1);
      assert forall k | i < k < j :: t[k] == t[i + 1..j][k - i - 1];
      j
    else i
  }

  // ---------------------------------------------------------------- the grammar and what it denotes

  function Signed(negative: bool, n: nat): int {
    if negative then -(n as int) else n
  }

  function AfterSign(t: string, i: nat): (j: nat)
    requires i <= |t|
    ensures i <= j <= |t|
  {
    if i < |t| && IsSign(t[i]) then i + 1 else i
  }

  /** The coefficient that starts at `from`: all its digits, how many follow the point, where it ends. */
  datatype Coefficient = Coefficient(digits: string, fraction: nat, end: nat)

  function ReadCoefficient(t: string, from: nat): (c: Coefficient)
    requires from <= |t|
    ensures from <= c.end <= |t| && AllDigits(c.digits)
  {
    var b := Span(t, from);
    if b < |t| && t[b] == '.' then
      var e := Span(t, b + 1);
      Coefficient(t[from..b] + t[b + 1..e], e - (b + 1), e)
    else
      Coefficient(t[from..b], 0, b)
  }

  /** The exponent that fills the text from `from` to its end; zero when nothing is left. */
  function ReadExponent(t: string, from: nat): Option<int>
    requires from <= |t|
  {
    if from < |t| && IsExpMark(t[from]) then
      var m := AfterSign(t, from + 1);
      var n := Span(t, m);
      if n == m || n != |t| then None else Some(Signed(t[from + 1] == '-', ValueOf(t[m..n])))
    else if from == |t| then Some(0)
    else None
  }

  /** Reads `[sign] digits [. digits] [e [sign] digits]` with at least one coefficient digit. */
  function Parse(t: string): Option<Decimal> {
    if t == "" then None
    else
      var c := ReadCoefficient(t, AfterSign(t, 0));
      if c.digits == "" then None
      else
        match ReadExponent(t, c.end)
        case None => None
        case Some(e) => Some(Decimal(t[0] == '-', ValueOf(c.digits), e - c.fraction))
  }

  predicate OptionalSign(t: string) {
    t == "" || (|t| == 1 && IsSign(t[0]))
  }

  /** The pieces of one exact-decimal text; `mark` is empty when there is no exponent. */
  datatype Pieces = Pieces(sign: string, whole: string, point: bool, frac: string,
                           mark: string, expSign: string, expDigits: string)
  {
    predicate WellFormed() {
      && OptionalSign(sign) && AllDigits(whole) && AllDigits(frac)
      && (frac != "" ==> point) && whole + frac != ""
      && (mark == "" || (|mark| == 1 && IsExpMark(mark[0])))
      && OptionalSign(expSign) && AllDigits(expDigits)
      && (if mark == "" then expSign == "" && expDigits == "" else expDigits != "")
    }

    function Mantissa(): string {
      whole + (if point then "." + frac else "")
    }

    function Tail(): string {
      mark + expSign + expDigits
    }

    function Text(): string {
      sign + Mantissa() + Tail()
    }

    function Denotes(): Decimal
      requires WellFormed()
    {
      Decimal(sign == "-", ValueOf(whole + frac), Signed(expSign == "-", ValueOf(expDigits)) - |frac|)
    }
  }

  lemma SpanOver(t: string, i: nat, j: nat)
    requires i <= j <= |t| && AllDigits(t[i..j])
    requires j < |t| ==> !IsDigit(t[j])
    ensures Span(t, i) == j
    decreases j - i
  {
    if i < j {
      assert t[i] == t[i..j][0];
      assert t[i + 1..j] == t[i..j][1..];
      SpanOver(t, i + 1, j);
    }
  }

  lemma ReadCoefficientAt(t: string, from: nat, b: nat, e: nat)
    requires from <= b <= e <= |t| && AllDigits(t[from..b])
    requires e == b ==> b < |t| ==> !IsDigit(t[b]) && t[b] != '.'
    requires b < e ==> t[b] == '.' && AllDigits(t[b + 1..e]) && (e < |t| ==> !IsDigit(t[e]))
    ensures ReadCoefficient(t, from) ==
      if b < e then Coefficient(t[from..b] + t[b + 1..e], e - (b + 1), e) else Coefficient(t[from..b], 0, b)
  {
    SpanOver(t, from, b);
    if b < e { SpanOver(t, b + 1, e); }
  }

  lemma PointedSlices(before: string, whole: string, frac: string, tail: string)
    ensures
      var t, b := before + (whole + ("." + frac)) + tail, |before| + |whole|;
      && t[b] == '.' && b + 1 + |frac| <= |t| && t[b + 1..b + 1 + |frac|] == frac
  {
  }

  lemma ReadCoefficientOfPieces(before: string, p: Pieces)
    requires p.WellFormed()
    ensures ReadCoefficient(before + p.Mantissa() + p.Tail(), |before|)
         == Coefficient(p.whole + p.frac, |p.frac|, |before + p.Mantissa()|)
  {
    hide ReadCoefficient;
    var t := before + p.Mantissa() + p.Tail();
    var b := |before| + |p.whole|;
    var e := |before + p.Mantissa()|;
    assert t[|before|..b] == p.whole;
    assert e < |t| ==> t[e] == p.mark[0];
    if p.point {
      PointedSlices(before, p.whole, p.frac, p.Tail());
    } else {
      assert p.whole + p.frac == p.whole;
    }
    ReadCoefficientAt(t, |before|, b, e);
  }

  lemma ReadExponentOfPieces(before: string, p: Pieces)
    requires p.WellFormed()
    ensures ReadExponent(before + p.Tail(), |before|) == Some(Signed(p.expSign == "-", ValueOf(p.expDigits)))
  {
    var t := before + p.Tail();
    var c := |before|;
    if p.mark != "" {
      var m := c + 1 + |p.expSign|;
      assert t[c] == p.mark[0];
      assert t[m..|t|] == p.expDigits;
      assert t[m] == p.expDigits[0];
      assert p.expSign != "" ==> t[c + 1] == p.expSign[0];
      SpanOver(t, m, |t|);
    }
  }

  lemma SignOfPieces(p: Pieces)
    requires p.WellFormed()
    ensures p.Text() != "" && AfterSign(p.Text(), 0) == |p.sign|
    ensures p.Text()[0] == '-' <==> p.sign == "-"
  {
    var t, m := p.Text(), p.Mantissa();
    assert m != "" && !IsSign(m[0]) by {
      if p.whole != "" { assert m[0] == p.whole[0]; } else { assert m[0] == '.'; }
    }
    assert t[|p.sign|] == m[0];
    if p.sign != "" { assert t[0] == p.sign[0]; }
  }

  /** Every text built from the grammar is read back as the number its pieces denote. */
  lemma ParseAcceptsGrammar(p: Pieces)
    requires p.WellFormed()
    ensures Parse(p.Text()) == Some(p.Denotes())
  {
    hide ReadCoefficient, ReadExponent, AfterSign;
    SignOfPieces(p);
    ReadCoefficientOfPieces(p.sign, p);
    ReadExponentOfPieces(p.sign + p.Mantissa(), p);
  }

  lemma CoefficientPieces(t: string, a: nat) returns (whole: string, point: bool, frac: string)
    requires a <= |t|
    ensures AllDigits(whole) && AllDigits(frac) && (frac != "" ==> point)
    ensures ReadCoefficient(t, a).digits == whole + frac && ReadCoefficient(t, a).fraction == |frac|
    ensures whole + (if point then "." + frac else "") == t[a..ReadCoefficient(t, a).end]
  {
    var b := Span(t, a);
    whole, point, frac := t[a..b], b < |t| && t[b] == '.', "";
    if point {
      frac := t[b + 1..Span(t, b + 1)];
    }
  }

  lemma ExponentPieces(t: string, c: nat) returns (mark: string, expSign: string, expDigits: string)
    requires c <= |t| && ReadExponent(t, c).Some?
    ensures mark == "" || (|mark| == 1 && IsExpMark(mark[0]))
    ensures OptionalSign(expSign) && AllDigits(expDigits)
    ensures if mark == "" then expSign == "" && expDigits == "" else expDigits != ""
    ensures mark + expSign + expDigits == t[c..]
    ensures ReadExponent(t, c) == Some(Signed(expSign == "-", ValueOf(expDigits)))
  {
    mark, expSign, expDigits := "", "", "";
    if c < |t| {
      var m := AfterSign(t, c + 1);
      mark, expSign, expDigits := [t[c]], t[c + 1..m], t[m..|t|];
    }
  }

  lemma SignPiece(t: string) returns (sign: string)
    requires t != ""
    ensures OptionalSign(sign) && sign == t[..AfterSign(t, 0)]
    ensures sign == "-" <==> t[0] == '-'
  {
    sign := t[..AfterSign(t, 0)];
    if sign != "" { assert sign[0] == t[0]; }
  }

  lemma Rejoin(t: string, a: nat, b: nat)
    requires a <= b <= |t|
    ensures t[..a] + t[a..b] + t[b..] == t
  {
  }

  /** Whatever is read was built from the grammar, and denotes what was read. */
  lemma ParseOnlyGrammar(t: string) returns (p: Pieces)
    requires Parse(t).Some?
    ensures p.WellFormed() && p.Text() == t && p.Denotes() == Parse(t).value
  {
    hide ReadCoefficient, ReadExponent, AfterSign, ValueOf;
    var a := AfterSign(t, 0);
    var end := ReadCoefficient(t, a).end;
    var whole, point, frac := CoefficientPieces(t, a);
    var mark, expSign, expDigits := ExponentPieces(t, end);
    var sign := SignPiece(t);
    p := Pieces(sign, whole, point, frac, mark, expSign, expDigits);
    Rejoin(t, a, end);
    assert p.Mantissa() == t[a..end] && p.Tail() == t[end..];
  }

  // ---------------------------------------------------------------- the scanner

  predicate HasNonZero(t: string) {
    exists i | 0 <= i < |t| :: t[i] != '0'
  }

  lemma {:induction false} PositiveIffNonZeroDigit(t: string)
    requires AllDigits(t)
    ensures ValueOf(t) > 0 <==> HasNonZero(t)
  {
    if t != "" {
      var u := t[..|t| - 1];
      PositiveIffNonZeroDigit(u);
      if HasNonZero(t) {
        var i :| 0 <= i < |t| && t[i] != '0';
        if i < |t| - 1 { assert u[i] != '0'; }
      }
      if HasNonZero(u) {
        var i :| 0 <= i < |u| && u[i] != '0';
        assert t[i] != '0';
      }
      if DigitOf(t[|t| - 1]) > 0 { assert t[|t| - 1] != '0'; }
    }
  }

  lemma HasNonZeroConcat(a: string, b: string)
    ensures HasNonZero(a + b) <==> HasNonZero(a) || HasNonZero(b)
  {
    var t := a + b;
    if HasNonZero(a) {
      var i :| 0 <= i < |a| && a[i] != '0';
      assert t[i] != '0';
    }
    if HasNonZero(b) {
      var i :| 0 <= i < |b| && b[i] != '0';
      assert t[|a| + i] != '0';
    }
    if HasNonZero(t) {
      var i :| 0 <= i < |t| && t[i] != '0';
      if i < |a| { assert a[i] != '0'; } else { assert b[i - |a|] != '0'; }
    }
  }

  lemma SliceGrows(t: string, i: nat, j: nat)
    requires i <= j < |t|
    ensures t[i..j + 1] == t[i..j] + [t[j]]
  {
  }

  /** One pass of digits: where it stops and whether a non-zero digit was met. */
  method ScanDigits(value: string, start: nat) returns (index: nat, nonZero: bool)
    requires start <= |value|
    ensures index == Span(value, start)
    ensures nonZero <==> HasNonZero(value[start..index])
  {
    index := start;
    nonZero := false;
    while index < |value| && IsDigit(value[index])
      invariant start <= index <= |value|
      invariant Span(value, index) == Span(value, start)
      invariant nonZero <==> HasNonZero(value[start..index])
    {
      SliceGrows(value, start, index);
      HasNonZeroConcat(value[start..index], [value[index]]);
      assert HasNonZero([value[index]]) <==> [value[index]][0] != '0';
      nonZero := nonZero || value[index] != '0';
      index := index + 1;
    }
  }

  /** The coefficient's digits on both sides of the point, counted and tested in one left-to-right scan. */
  method ScanCoefficient(value: string, start: nat) returns (index: nat, digitCount: nat, nonZero: bool)
    requires start <= |value|
    ensures var c := ReadCoefficient(value, start);
      index == c.end && digitCount == |c.digits| && (nonZero <==> ValueOf(c.digits) > 0)
  {
    index, nonZero := ScanDigits(value, start);
    digitCount := index - start;
    ghost var digits := value[start..index];
    if index < |value| && value[index] == '.' {
      var first := index + 1;
      var fractionNonZero;
      index, fractionNonZero := ScanDigits(value, first);
      HasNonZeroConcat(digits, value[first..index]);
      digits := digits + value[first..index];
      nonZero := nonZero || fractionNonZero;
      digitCount := digitCount + (index - first);
    }
    PositiveIffNonZeroDigit(digits);
  }

  /** The optional exponent must be well formed and must end the text. */
  method ScanExponent(value: string, start: nat) returns (complete: bool)
    requires start <= |value|
    ensures complete <==> ReadExponent(value, start).Some?
  {
    var index := start;
    if index < |value| && IsExpMark(value[index]) {
      index := index + 1;
      if index < |value| && IsSign(value[index]) {
        index := index + 1;
      }
      var exponentStart := index;
      var anyNonZero;
      index, anyNonZero := ScanDigits(value, index);
      if index == exponentStart {
        return false;
      }
    }
    return index == |value|;
  }

  /** The scanner accepts exactly the grammar and reports positive iff the number exceeds zero. */
  method AnalyzeExactDecimalText(value: string) returns (valid: bool, positive: bool)
    ensures valid <==> Parse(value).Some?
    ensures positive <==> Parse(value).Some? && !Parse(value).value.neg && Parse(value).value.coeff > 0
  {
    if |value| == 0 {
      return false, false;
    }
    var index := 0;
    var negative := false;
    if IsSign(value[index]) {
      negative := value[index] == '-';
      index := index + 1;
    }
    var digitCount, nonZero;
    index, digitCount, nonZero := ScanCoefficient(value, index);
    if digitCount == 0 {
      return false, false;
    }
    var complete := ScanExponent(value, index);
    if !complete {
      return false, false;
    }
    return true, !negative && nonZero;
  }

  predicate IsExactDecimal(t: string) {
    Parse(t).Some?
  }

  predicate IsPositiveExactDecimal(t: string) {
    Parse(t).Some? && !Parse(t).value.neg && Parse(t).value.coeff > 0
  }
}
