/** JSON text as sections 4 and 7 of RFC 8259 define it: the compact writer and the reader. */
module JsonText {
  import opened Wrappers
  import opened DecimalText
  import opened Json

  // ---------------------------------------------------------------- the writer

  function HexDigit(n: nat): char
    requires n < 16
  {
    if n < 10 then (n + '0' as int) as char else (n - 10 + 'a' as int) as char
  }

  /** Only the quote, the backslash and the control characters are escaped. */
  function Escape(c: char): (e: string)
    ensures 1 <= |e| <= 6
  {
    match c
    case '\"' => "\\\""
    case '\\' => "\\\\"
    case '\n' => "\\n"
    case '\r' => "\\r"
    case '\t' => "\\t"
    case _ =>
      var n := c as int;
      if n == 8 then "\\b"
      else if n == 12 then "\\f"
      else if n < 0x20 then "\\u00" + [HexDigit(n / 16), HexDigit(n % 16)]
      else [c]
  }

  /** The characters of a string, its closing quote, then `u`. */
  function WriteChars(s: string, u: string): (t: string)
    ensures |t| >= 1
  {
    if s == "" then "\"" + u else Escape(s[0]) + WriteChars(s[1..], u)
  }

  function IntText(n: int): string {
    if n < 0 then "-" + Digits(-n) else Digits(n)
  }

  /** The text of `j` followed by `u`. */
  function Write(j: Json, u: string): string
    decreases j
  {
    match j
    case Null => "null" + u
    case Bool(b) => (if b then "true" else "false") + u
    case Int(n) => IntText(n) + u
    case Flt(literal) => literal + u
    case Str(s) => "\"" + WriteChars(s, u)
    case Arr(items) => "[" + WriteItems(items, "]" + u)
    case Obj(members) => "{" + WriteDict(members, "}" + u)
  }

  function WriteItems(items: Items, u: string): string
    decreases items
  {
    match items
    case NoItem => u
    case Item(head, tail) => Write(head, if tail.NoItem? then u else "," + WriteItems(tail, u))
  }

  function WriteDict(d: Dict, u: string): string
    decreases d
  {
    match d
    case NoMember => u
    case Member(key, value, rest) =>
      "\"" + WriteChars(key, ":" + Write(value, if rest.NoMember? then u else "," + WriteDict(rest, u)))
  }

  // ---------------------------------------------------------------- the reader

  /** A value and the text after it, or a syntax error. */
  datatype Read<T> = Got(value: T, rest: string) | Bad

  predicate IsBlankChar(c: char) {
    c == ' ' || c == '\t' || c == '\n' || c == '\r'
  }

  function SkipBlanks(s: string): (r: string)
    ensures |r| <= |s|
    ensures r == "" || !IsBlankChar(r[0])
  {
    if s != "" && IsBlankChar(s[0]) then SkipBlanks(s[1..]) else s
  }

  predicate IsHexDigit(c: char) {
    '0' <= c <= '9' || 'a' <= c <= 'f' || 'A' <= c <= 'F'
  }

  function HexValue(c: char): (n: nat)
    requires IsHexDigit(c)
    ensures n < 16
  {
    if c <= '9' then c as int - '0' as int
    else if c <= 'F' then c as int - 'A' as int + 10
    else c as int - 'a' as int + 10
  }

  /** The code unit of four hexadecimal digits at the start of `s`. */
  function CodeUnit(s: string): (r: Option<nat>)
    ensures r.Some? ==> r.value < 0x10000 && |s| >= 4
  {
    if |s| >= 4 && IsHexDigit(s[0]) && IsHexDigit(s[1]) && IsHexDigit(s[2]) && IsHexDigit(s[3]) then
      Some(0x1000 * HexValue(s[0]) + 0x100 * HexValue(s[1]) + 0x10 * HexValue(s[2]) + HexValue(s[3]))
    else None
  }

  /** The character of a `\u` escape, after its `\u`: one code unit, or a surrogate pair. */
  function ReadCodePoint(s: string): (r: Read<char>)
    ensures r.Got? ==> |r.rest| < |s|
  {
    var high := CodeUnit(s);
    if high.None? then Bad
    else if !(0xD800 <= high.value < 0xE000) then Got(high.value as char, s[4..])
    else
      var low := if |s| >= 6 && s[4] == '\\' && s[5] == 'u' then CodeUnit(s[6..]) else None;
      if high.value < 0xDC00 && low.Some? && 0xDC00 <= low.value < 0xE000 then
        Got((0x10000 + (high.value - 0xD800) * 0x400 + (low.value - 0xDC00)) as char, s[10..])
      else Bad
  }

  /** The character of an escape, after its backslash. */
  function ReadEscape(s: string): (r: Read<char>)
    ensures r.Got? ==> |r.rest| < |s|
  {
    if s == "" then Bad
    else
      match s[0]
      case '\"' => Got('\"', s[1..])
      case '\\' => Got('\\', s[1..])
      case '/' => Got('/', s[1..])
      case 'n' => Got('\n', s[1..])
      case 'r' => Got('\r', s[1..])
      case 't' => Got('\t', s[1..])
      case 'b' => Got(8 as char, s[1..])
      case 'f' => Got(12 as char, s[1..])
      case 'u' => ReadCodePoint(s[1..])
      case _ => Bad
  }

  function ReadChar(s: string): (r: Read<char>)
    requires s != "" && s[0] != '\"'
    ensures r.Got? ==> |r.rest| < |s|
  {
    if s[0] == '\\' then ReadEscape(s[1..])
    else if s[0] < ' ' then Bad
    else Got(s[0], s[1..])
  }

  function Prepend(c: char, r: Read<string>): Read<string> {
    if r.Bad? then Bad else Got([c] + r.value, r.rest)
  }

  /** The rest of a string after its opening quote. */
  function ReadString(s: string): (r: Read<string>)
    ensures r.Got? ==> |r.rest| < |s|
    decreases |s|
  {
    if s == "" then Bad
    else if s[0] == '\"' then Got("", s[1..])
    else
      var c := ReadChar(s);
      if c.Bad? then Bad else Prepend(c.value, ReadString(c.rest))
  }

  function ReadNumber(s: string): (r: Read<Json>)
    ensures r.Got? ==> |r.rest| < |s|
  {
    var span := NumberSpan(s);
    if span.None? then Bad
    else
      var (b, e) := span.value;
      if b < e then Got(Flt(s[..e]), s[e..]) else Got(Int(WholeValue(s[..b])), s[b..])
  }

  function WholeValue(t: string): int {
    if t != "" && t[0] == '-' then if AllDigits(t[1..]) then -(ValueOf(t[1..]) as int) else 0
    else if AllDigits(t) then ValueOf(t) else 0
  }

  function ReadValue(s: string): (r: Read<Json>)
    ensures r.Got? ==> |r.rest| < |s|
    decreases |s|, 1
  {
    if s == "" then Bad
    else if s[0] == '\"' then
      var t := ReadString(s[1..]);
      if t.Bad? then Bad else Got(Str(t.value), t.rest)
    else if s[0] == '{' then
      var t := SkipBlanks(s[1..]);
      if t != "" && t[0] == '}' then Got(Obj(NoMember), t[1..])
      else
        var members := ReadMembers(t);
        if members.Bad? then Bad else Got(Obj(members.value), members.rest)
    else if s[0] == '[' then
      var t := SkipBlanks(s[1..]);
      if t != "" && t[0] == ']' then Got(Arr(NoItem), t[1..])
      else
        var items := ReadItems(t);
        if items.Bad? then Bad else Got(Arr(items.value), items.rest)
    else if "null" <= s then Got(Null, s[4..])
    else if "true" <= s then Got(Bool(true), s[4..])
    else if "false" <= s then Got(Bool(false), s[5..])
    else ReadNumber(s)
  }

  /** One key, its colon and its value. */
  function ReadMember(s: string): (r: Read<(string, Json)>)
    ensures r.Got? ==> |r.rest| < |s|
    decreases |s|, 0
  {
    if s == "" || s[0] != '\"' then Bad
    else
      var key := ReadString(s[1..]);
      if key.Bad? then Bad
      else
        var colon := SkipBlanks(key.rest);
        if colon == "" || colon[0] != ':' then Bad
        else
          var value := ReadValue(SkipBlanks(colon[1..]));
          if value.Bad? then Bad else Got((key.value, value.value), value.rest)
  }

  /** One or more members and the closing brace. */
  function ReadMembers(s: string): (r: Read<Dict>)
    ensures r.Got? ==> |r.rest| < |s|
    decreases |s|, 2
  {
    var member := ReadMember(s);
    if member.Bad? then Bad
    else
      var after := SkipBlanks(member.rest);
      if after == "" then Bad
      else if after[0] == '}' then Got(Member(member.value.0, member.value.1, NoMember), after[1..])
      else if after[0] != ',' then Bad
      else
        var more := ReadMembers(SkipBlanks(after[1..]));
        if more.Bad? then Bad else Got(PutEarlier(more.value, member.value.0, member.value.1), more.rest)
  }

  /** One or more items and the closing bracket. */
  function ReadItems(s: string): (r: Read<Items>)
    ensures r.Got? ==> |r.rest| < |s|
    decreases |s|, 2
  {
    var value := ReadValue(s);
    if value.Bad? then Bad
    else
      var after := SkipBlanks(value.rest);
      if after == "" then Bad
      else if after[0] == ']' then Got(Item(value.value, NoItem), after[1..])
      else if after[0] != ',' then Bad
      else
        var more := ReadItems(SkipBlanks(after[1..]));
        if more.Bad? then Bad else Got(Item(value.value, more.value), more.rest)
  }

  /** A whole document: `json.loads`; None stands for the decode error. */
  function Loads(s: string): Option<Json> {
    var r := ReadValue(SkipBlanks(s));
    if r.Got? && SkipBlanks(r.rest) == "" then Some(r.value) else None
  }

  function Dumps(j: Json): string {
    Write(j, "")
  }

  // ---------------------------------------------------------------- round trip

  predicate IsNumberChar(c: char) {
    IsDigit(c) || IsSign(c) || IsExpMark(c) || c == '.'
  }

  /** Text that cannot continue a number. */
  predicate Stops(u: string) {
    u == "" || !IsNumberChar(u[0])
  }

  lemma HexRoundTrip(n: nat)
    requires n < 16
    ensures IsHexDigit(HexDigit(n)) && HexValue(HexDigit(n)) == n
  {
  }

  lemma ReadControlEscape(n: nat, w: string)
    requires n < 0x20
    ensures ReadEscape("u00" + [HexDigit(n / 16), HexDigit(n % 16)] + w) == Got(n as char, w)
  {
    hide HexDigit, HexValue, IsHexDigit;
    HexRoundTrip(0);
    HexRoundTrip(n / 16);
    HexRoundTrip(n % 16);
    assert HexDigit(0) == '0' by { HexZero(); }
    var s := "u00" + [HexDigit(n / 16), HexDigit(n % 16)] + w;
    assert s[1..] == "00" + [HexDigit(n / 16), HexDigit(n % 16)] + w;
    assert s[1..][4..] == w;
  }

  lemma HexZero()
    ensures HexDigit(0) == '0'
  {
  }

  lemma ReadShortEscape(c: char, w: string)
    requires |Escape(c)| == 2
    ensures Escape(c)[0] == '\\' && ReadEscape([Escape(c)[1]] + w) == Got(c, w)
  {
    hide ReadCodePoint;
    assert ([Escape(c)[1]] + w)[1..] == w;
  }

  lemma ReadEscapedChar(c: char, w: string)
    ensures ReadString(Escape(c) + w) == Prepend(c, ReadString(w))
  {
    hide ReadEscape, HexDigit;
    var s := Escape(c) + w;
    if |Escape(c)| == 6 {
      ReadControlEscape(c as int, w);
      assert s[1..] == "u00" + [HexDigit(c as int / 16), HexDigit(c as int % 16)] + w;
    } else if |Escape(c)| == 2 {
      ReadShortEscape(c, w);
      assert s[1..] == [Escape(c)[1]] + w;
    } else {
      assert s[1..] == w;
    }
    assert ReadChar(s) == Got(c, w);
  }

  lemma {:induction false} ReadWrittenString(s: string, u: string)
    ensures ReadString(WriteChars(s, u)) == Got(s, u)
  {
    if s == "" {
      assert ("\"" + u)[1..] == u;
    } else {
      hide ReadString, Escape;
      ReadWrittenString(s[1..], u);
      ReadEscapedChar(s[0], WriteChars(s[1..], u));
      assert [s[0]] + s[1..] == s;
    }
  }

  lemma {:induction false} SpanStops(t: string, u: string, i: nat)
    requires i <= |t| && Stops(u)
    ensures Span(t + u, i) == Span(t, i)
    decreases |t| - i
  {
    if i < |t| && IsDigit(t[i]) {
      SpanStops(t, u, i + 1);
    }
  }

  lemma FractionStops(t: string, u: string, b: nat)
    requires b <= |t| && Stops(u)
    ensures FractionEnd(t + u, b) == FractionEnd(t, b)
  {
    if b + 1 <= |t| { SpanStops(t, u, b + 1); }
  }

  lemma ExponentStops(t: string, u: string, c: nat)
    requires c <= |t| && Stops(u)
    ensures ExponentEnd(t + u, c) == ExponentEnd(t, c)
  {
    if c < |t| { SpanStops(t, u, AfterSign(t, c + 1)); }
  }

  /** A number is read the same with anything after it that cannot continue it. */
  lemma NumberStops(t: string, u: string)
    requires NumberSpan(t).Some? && Stops(u)
    ensures NumberSpan(t + u) == NumberSpan(t)
  {
    hide FractionEnd, ExponentEnd, Span;
    var a := if t[0] == '-' then 1 else 0;
    SpanStops(t, u, a);
    var b := WholeEnd(t, a);
    FractionStops(t, u, b);
    ExponentStops(t, u, FractionEnd(t, b));
  }

  lemma ReadWrittenFloat(t: string, u: string)
    requires IsFloatLiteral(t) && Stops(u)
    ensures ReadNumber(t + u) == Got(Flt(t), u)
  {
    NumberStops(t, u);
    assert (t + u)[..|t|] == t && (t + u)[|t|..] == u;
  }

  lemma {:induction false} SpanAllDigits(t: string, i: nat)
    requires i <= |t| && AllDigits(t[i..])
    ensures Span(t, i) == |t|
    decreases |t| - i
  {
    if i < |t| {
      assert t[i] == t[i..][0];
      assert t[i + 1..] == t[i..][1..];
      SpanAllDigits(t, i + 1);
    }
  }

  lemma ReadWrittenInt(n: int, u: string)
    requires Stops(u)
    ensures ReadNumber(IntText(n) + u) == Got(Int(n), u)
  {
    hide Digits, ValueOf;
    var t := IntText(n);
    var a := if n < 0 then 1 else 0;
    assert t[a..] == Digits(if n < 0 then -n else n);
    assert t[a] == t[a..][0];
    SpanAllDigits(t, a);
    assert NumberSpan(t) == Some((|t|, |t|));
    NumberStops(t, u);
    assert (t + u)[..|t|] == t && (t + u)[|t|..] == u;
  }

  lemma {:induction false} RoundTrip(j: Json, u: string)
    requires Canonical(j) && Stops(u)
    ensures ReadValue(Write(j, u)) == Got(j, u)
    decreases j, 0
  {
    hide ReadNumber, IsFloatLiteral, ReadItems, ReadMembers, WriteItems, WriteDict;
    var t := Write(j, u);
    match j
    case Null => assert t[4..] == u;
    case Bool(b) => assert if b then t[4..] == u else t[5..] == u;
    case Int(n) =>
      ReadWrittenInt(n, u);
      NumberIsNothingElse(IntText(n), u);
    case Flt(literal) =>
      ReadWrittenFloat(literal, u);
      FloatStarts(literal);
      NumberIsNothingElse(literal, u);
    case Str(s) =>
      assert t[1..] == WriteChars(s, u);
      ReadWrittenString(s, u);
    case Arr(items) => RoundTripArray(items, u);
    case Obj(members) => RoundTripObject(members, u);
  }

  lemma RoundTripArray(items: Items, u: string)
    requires CanonicalItems(items)
    ensures ReadValue(Write(Arr(items), u)) == Got(Arr(items), u)
    decreases items, 1
  {
    hide IsFloatLiteral, ReadItems;
    var t := Write(Arr(items), u);
    assert t[1..] == WriteItems(items, "]" + u);
    if items.NoItem? {
      assert ("]" + u)[1..] == u;
    } else {
      RoundTripItems(items, u);
      WrittenStarts(items.head, if items.tail.NoItem? then "]" + u else "," + WriteItems(items.tail, "]" + u));
    }
  }

  lemma RoundTripObject(d: Dict, u: string)
    requires CanonicalDict(d)
    ensures ReadValue(Write(Obj(d), u)) == Got(Obj(d), u)
    decreases d, 1
  {
    hide IsFloatLiteral, ReadMembers;
    var t := Write(Obj(d), u);
    assert t[1..] == WriteDict(d, "}" + u);
    if d.NoMember? {
      assert ("}" + u)[1..] == u;
    } else {
      RoundTripDict(d, u);
    }
  }

  /** Text that starts like a number is read as one. */
  lemma NumberIsNothingElse(t: string, u: string)
    requires t != "" && (IsDigit(t[0]) || t[0] == '-')
    ensures ReadValue(t + u) == ReadNumber(t + u)
  {
    hide ReadNumber;
    assert (t + u)[0] == t[0];
  }

  lemma FloatStarts(t: string)
    requires IsFloatLiteral(t)
    ensures t != "" && (IsDigit(t[0]) || t[0] == '-')
  {
  }

  lemma IntStarts(n: int)
    ensures IntText(n) != "" && (IsDigit(IntText(n)[0]) || IntText(n)[0] == '-')
  {
  }

  /** No value starts with a blank, a delimiter or nothing. */
  lemma WrittenStarts(j: Json, u: string)
    requires Canonical(j)
    ensures Write(j, u) != "" && !IsBlankChar(Write(j, u)[0])
    ensures Write(j, u)[0] !in {']', '}', ',', ':'}
  {
    hide IsFloatLiteral;
    match j
    case Int(n) => IntStarts(n);
    case Flt(literal) => FloatStarts(literal);
    case _ =>
  }

  lemma {:induction false} RoundTripItems(items: Items, u: string)
    requires CanonicalItems(items) && items.Item?
    ensures ReadItems(WriteItems(items, "]" + u)) == Got(items, u)
    decreases items, 0
  {
    hide IsFloatLiteral, ReadValue, Write;
    if items.tail.NoItem? {
      RoundTrip(items.head, "]" + u);
      assert ("]" + u)[1..] == u;
    } else {
      var more := WriteItems(items.tail, "]" + u);
      RoundTrip(items.head, "," + more);
      assert ("," + more)[1..] == more;
      RoundTripItems(items.tail, u);
      WrittenStarts(items.tail.head, if items.tail.tail.NoItem? then "]" + u else "," + WriteItems(items.tail.tail, "]" + u));
      assert SkipBlanks(more) == more;
    }
  }

  lemma RoundTripMember(key: string, value: Json, u: string)
    requires Canonical(value) && Stops(u)
    ensures ReadMember("\"" + WriteChars(key, ":" + Write(value, u))) == Got((key, value), u)
    decreases value, 1
  {
    hide IsFloatLiteral, ReadValue, Write, ReadString, WriteChars;
    var t := "\"" + WriteChars(key, ":" + Write(value, u));
    assert t[1..] == WriteChars(key, ":" + Write(value, u));
    ReadWrittenString(key, ":" + Write(value, u));
    assert (":" + Write(value, u))[1..] == Write(value, u);
    WrittenStarts(value, u);
    assert SkipBlanks(Write(value, u)) == Write(value, u);
    RoundTrip(value, u);
  }

  lemma {:induction false} RoundTripDict(d: Dict, u: string)
    requires CanonicalDict(d) && d.Member?
    ensures ReadMembers(WriteDict(d, "}" + u)) == Got(d, u)
    decreases d, 0
  {
    hide IsFloatLiteral, ReadMember, Write, WriteChars, PutEarlier;
    if d.rest.NoMember? {
      RoundTripMember(d.key, d.value, "}" + u);
      assert ("}" + u)[1..] == u;
    } else {
      var more := WriteDict(d.rest, "}" + u);
      RoundTripMember(d.key, d.value, "," + more);
      RoundTripDict(d.rest, u);
      assert ("," + more)[1..] == more;
      assert SkipBlanks(more) == more;
      PutEarlierFront(d.rest, d.key, d.value);
    }
  }

  /** `loads(dumps(j)) == j`. */
  lemma LoadsDumps(j: Json)
    requires Canonical(j)
    ensures Loads(Dumps(j)) == Some(j)
  {
    hide ReadValue, Write, IsFloatLiteral;
    RoundTrip(j, "");
    WrittenStarts(j, "");
  }

  predicate AllBlanks(t: string) {
    forall i | 0 <= i < |t| :: IsBlankChar(t[i])
  }

  lemma {:induction false} SkipAllBlanks(blanks: string, u: string)
    requires AllBlanks(blanks)
    ensures SkipBlanks(blanks + u) == SkipBlanks(u)
  {
    if blanks == "" {
      assert blanks + u == u;
    } else {
      assert (blanks + u)[0] == blanks[0] && (blanks + u)[1..] == blanks[1..] + u;
      SkipAllBlanks(blanks[1..], u);
    }
  }

  /** Blanks around a value do not matter; any other text after it is a syntax error. */
  lemma LoadsIgnoresBlanks(before: string, j: Json, after: string)
    requires Canonical(j) && AllBlanks(before) && Stops(after)
    ensures Loads(before + Write(j, after)) == if AllBlanks(after) then Some(j) else None
  {
    hide Write, ReadValue, IsFloatLiteral;
    SkipAllBlanks(before, Write(j, after));
    WrittenStarts(j, after);
    RoundTrip(j, after);
    SkipsToEndIffBlank(after);
  }

  lemma {:induction false} SkipsToEndIffBlank(t: string)
    ensures SkipBlanks(t) == "" <==> AllBlanks(t)
  {
    if t != "" {
      SkipsToEndIffBlank(t[1..]);
      assert forall i | 0 < i < |t| :: t[i] == t[1..][i - 1];
    }
  }
}
