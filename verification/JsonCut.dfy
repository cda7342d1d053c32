/** Text cut off inside a written JSON value, then continued by nothing or by a whole object line: it never parses. */
module JsonCut {
  import opened Wrappers
  import opened DecimalText
  import opened Json
  import opened JsonText

  /**
   * What may follow the cut: nothing, or text that starts like an object and leaves a value or an open string
   * nowhere to go on. Whole lines are such text, and so is any chain of cut-off lines.
   */
  predicate Continues(l: string) {
    l == "" || (l[0] == '{' && BadOrStuck(ReadValue(l)) && BadOrStuck(ReadString(l)))
  }

  /** Text after which no container can go on. */
  predicate Stuck(rest: string) {
    rest == "" || (!IsBlankChar(rest[0]) && rest[0] !in {',', ':', '}', ']'})
  }

  predicate BadOrStuck<T>(r: Read<T>) {
    r.Bad? || Stuck(r.rest)
  }

  // ---------------------------------------------------------------- cutting a text of two pieces

  lemma CutIn(a: string, b: string, n: nat, l: string)
    requires n <= |a|
    ensures (a + b)[..n] + l == a[..n] + l
  {
  }

  lemma CutPast(a: string, b: string, n: nat, l: string)
    requires |a| <= n <= |a| + |b|
    ensures (a + b)[..n] + l == a + (b[..n - |a|] + l)
  {
  }

  lemma CutNothing(a: string, l: string)
    ensures a[..0] + l == l
  {
  }

  lemma CutAll(a: string, l: string)
    ensures a[..|a|] + l == a + l
  {
  }

  lemma AfterFirst(c: string, x: string)
    requires |c| == 1
    ensures (c + x)[0] == c[0] && (c + x)[1..] == x
  {
  }

  lemma CommaStops(x: string)
    ensures Stops("," + x) && ("," + x)[0] == ',' && ("," + x)[1..] == x
  {
  }

  lemma Regroup(a: string, b: string, c: string)
    ensures (a + b) + c == a + (b + c)
  {
  }

  lemma SkipNoBlanks(s: string)
    requires s == "" || !IsBlankChar(s[0])
    ensures SkipBlanks(s) == s
  {
  }

  // ---------------------------------------------------------------- what follows a text is just appended

  lemma {:induction false} WriteCharsAppends(s: string, u: string)
    ensures WriteChars(s, u) == WriteChars(s, "") + u
  {
    if s != "" {
      hide Escape;
      WriteCharsAppends(s[1..], u);
    }
  }

  lemma {:induction false} WriteAppends(j: Json, u: string)
    ensures Write(j, u) == Write(j, "") + u
    decreases j, 0
  {
    hide WriteItems, WriteDict, WriteChars, IntText;
    match j
    case Str(s) => WriteCharsAppends(s, u);
    case Arr(items) => WriteArray(items, u); WriteArray(items, "");
    case Obj(d) => WriteObject(d, u); WriteObject(d, "");
    case Null | Bool(_) | Int(_) | Flt(_) =>
  }

  lemma WriteArray(items: Items, u: string)
    ensures Write(Arr(items), u) == "[" + WriteItems(items, "") + "]" + u
    decreases items, 1
  {
    hide WriteItems;
    WriteItemsAppends(items, "]" + u);
  }

  lemma WriteObject(d: Dict, u: string)
    ensures Write(Obj(d), u) == "{" + WriteDict(d, "") + "}" + u
    decreases d, 1
  {
    hide WriteDict;
    WriteDictAppends(d, "}" + u);
  }

  lemma {:induction false} WriteItemsAppends(items: Items, u: string)
    ensures WriteItems(items, u) == WriteItems(items, "") + u
    ensures items.NoItem? ==> WriteItems(items, u) == u
    ensures items.Item? ==> WriteItems(items, u) == Write(items.head, "") + if items.tail.NoItem? then u else "," + WriteItems(items.tail, u)
    decreases items, 0
  {
    hide Write;
    if items.Item? {
      if items.tail.NoItem? {
        WriteAppends(items.head, u);
      } else {
        WriteItemsAppends(items.tail, u);
        WriteAppends(items.head, "," + WriteItems(items.tail, u));
        WriteAppends(items.head, "," + WriteItems(items.tail, ""));
      }
    }
  }

  /** The text of one member. */
  function MemberText(key: string, value: Json): string {
    "\"" + WriteChars(key, "") + ":" + Write(value, "")
  }

  lemma {:induction false} WriteDictAppends(d: Dict, u: string)
    ensures WriteDict(d, u) == WriteDict(d, "") + u
    ensures d.NoMember? ==> WriteDict(d, u) == u
    ensures d.Member? ==> WriteDict(d, u) == MemberText(d.key, d.value) + if d.rest.NoMember? then u else "," + WriteDict(d.rest, u)
    decreases d, 0
  {
    hide WriteChars, Write, MemberText;
    if d.Member? {
      WriteDictAppends(d.rest, u);
      var tail := if d.rest.NoMember? then u else "," + WriteDict(d.rest, u);
      var bare := if d.rest.NoMember? then "" else "," + WriteDict(d.rest, "");
      assert tail == bare + u;
      MemberAppends(d.key, d.value, tail);
      MemberAppends(d.key, d.value, bare);
    }
  }

  lemma MemberAppends(key: string, value: Json, u: string)
    ensures "\"" + WriteChars(key, ":" + Write(value, u)) == MemberText(key, value) + u
    decreases value, 1
  {
    hide WriteChars, Write;
    WriteAppends(value, u);
    WriteCharsAppends(key, ":" + Write(value, u));
  }

  // ---------------------------------------------------------------- cut in a string

  lemma CutEscape(c: char, n: nat, l: string)
    requires 0 < n < |Escape(c)| && Continues(l)
    ensures ReadString(Escape(c)[..n] + l).Bad?
  {
    hide ReadValue, HexDigit;
    var s := Escape(c)[..n] + l;
    if n == 1 {
      assert s[1..] == l;
    } else {
      CutCodeUnit(Escape(c)[2..n], l);
      assert s[1..][1..] == Escape(c)[2..n] + l;
      assert s[1] == 'u';
    }
  }

  lemma CutCodeUnit(t: string, l: string)
    requires |t| < 4 && Continues(l)
    ensures ReadCodePoint(t + l).Bad?
  {
    hide ReadValue;
  }

  lemma {:induction false} CutString(s: string, n: nat, l: string)
    requires n < |WriteChars(s, "")| && Continues(l)
    ensures BadOrStuck(ReadString(WriteChars(s, "")[..n] + l))
    decreases |s|
  {
    hide Stuck, Escape, ReadString, ReadValue, Prepend, Continues;
    if n == 0 {
      CutStringAtStart(s, l);
    } else {
      LongerThanQuote(s, n);
      var e, w := Escape(s[0]), WriteChars(s[1..], "");
      if n < |e| {
        CutIn(e, w, n, l);
        CutEscape(s[0], n, l);
      } else {
        CutPast(e, w, n, l);
        CutString(s[1..], n - |e|, l);
        ReadEscapedChar(s[0], w[..n - |e|] + l);
        PrependKeeps(s[0], ReadString(w[..n - |e|] + l));
      }
    }
  }

  lemma CutStringAtStart(s: string, l: string)
    requires Continues(l)
    ensures BadOrStuck(ReadString(WriteChars(s, "")[..0] + l))
  {
    hide ReadValue, WriteChars;
    CutNothing(WriteChars(s, ""), l);
  }

  lemma LongerThanQuote(s: string, n: nat)
    requires 0 < n < |WriteChars(s, "")|
    ensures s != "" && WriteChars(s, "") == Escape(s[0]) + WriteChars(s[1..], "")
  {
    hide Escape;
    assert |WriteChars("", "")| == 1;
  }

  lemma PrependKeeps(c: char, r: Read<string>)
    requires BadOrStuck(r)
    ensures BadOrStuck(Prepend(c, r))
  {
  }

  // ---------------------------------------------------------------- cut in a number or a literal

  predicate NumberChars(s: string, i: nat, j: nat)
    requires i <= j <= |s|
  {
    forall k | i <= k < j :: IsNumberChar(s[k])
  }

  lemma DigitsAreNumberChars(s: string, i: nat, j: nat)
    requires i <= j <= |s| && AllDigits(s[i..j])
    ensures NumberChars(s, i, j)
  {
    forall k | i <= k < j ensures IsNumberChar(s[k]) {
      assert s[k] == s[i..j][k - i];
    }
  }

  lemma WholeChars(s: string, a: nat)
    requires a < |s| && IsDigit(s[a])
    ensures NumberChars(s, a, WholeEnd(s, a))
  {
    if s[a] != '0' { DigitsAreNumberChars(s, a, Span(s, a)); }
  }

  lemma FractionChars(s: string, b: nat)
    requires b <= |s|
    ensures NumberChars(s, b, FractionEnd(s, b))
  {
    if FractionEnd(s, b) > b { DigitsAreNumberChars(s, b + 1, FractionEnd(s, b)); }
  }

  lemma ExponentChars(s: string, c: nat)
    requires c <= |s|
    ensures NumberChars(s, c, ExponentEnd(s, c))
  {
    if ExponentEnd(s, c) > c { DigitsAreNumberChars(s, AfterSign(s, c + 1), ExponentEnd(s, c)); }
  }

  lemma NumberSpanChars(s: string)
    requires NumberSpan(s).Some?
    ensures forall i | 0 <= i < NumberSpan(s).value.1 :: IsNumberChar(s[i])
  {
    hide WholeEnd, FractionEnd, ExponentEnd;
    var a := if s[0] == '-' then 1 else 0;
    var b := WholeEnd(s, a);
    WholeChars(s, a);
    FractionChars(s, b);
    ExponentChars(s, FractionEnd(s, b));
  }

  lemma CutNumber(t: string, n: nat, l: string)
    requires 0 < n <= |t| && (l != "" ==> l[0] == '{')
    requires (IsDigit(t[0]) || t[0] == '-') && forall i | 0 <= i < |t| :: IsNumberChar(t[i])
    ensures BadOrStuck(ReadValue(t[..n] + l))
  {
    hide NumberSpan, WholeValue;
    var s := t[..n] + l;
    NumberIsNothingElse(t[..n], l);
    if NumberSpan(s).Some? {
      NumberSpanChars(s);
      var (b, e) := NumberSpan(s).value;
      assert n < |s| ==> s[n] == l[0];
      assert e <= n;
      assert b < n ==> s[b] == t[b];
      assert e < n ==> s[e] == t[e];
      assert s[n..] == l;
    }
  }

  lemma IntIsNumberChars(n: int)
    ensures forall i | 0 <= i < |IntText(n)| :: IsNumberChar(IntText(n)[i])
  {
    hide Digits, ValueOf;
  }

  lemma CutWord(word: string, n: nat, l: string)
    requires word in {"null", "true", "false"} && 0 < n < |word| && Continues(l)
    ensures ReadValue(word[..n] + l).Bad?
  {
    var s := word[..n] + l;
    assert s[0] == word[0];
    assert |s| > n ==> s[n] == '{' != word[n];
    assert !("null" <= s) && !("true" <= s) && !("false" <= s);
  }

  // ---------------------------------------------------------------- cut in a container

  lemma ContinuesFacts(l: string)
    requires Continues(l)
    ensures Stops(l) && (l != "" ==> l[0] == '{' && !IsBlankChar(l[0])) && BadOrStuck(ReadValue(l))
    ensures ReadMember(l).Bad? && ReadMembers(l).Bad? && ReadItems(l).Bad?
  {
    hide ReadValue, ReadString;
    NothingReadsBad();
    StuckItem(l);
  }

  lemma NothingReadsBad()
    ensures ReadValue("").Bad?
  {
  }

  lemma FloatIsNumberChars(t: string)
    requires IsFloatLiteral(t)
    ensures forall i | 0 <= i < |t| :: IsNumberChar(t[i])
  {
    hide NumberSpan;
    NumberSpanChars(t);
  }

  /** A written value cut off anywhere inside; an object cut off after its brace is a syntax error. */
  lemma {:induction false} CutValue(j: Json, n: nat, l: string)
    requires Canonical(j) && n < |Write(j, "")| && Continues(l)
    ensures BadOrStuck(ReadValue(Write(j, "")[..n] + l))
    ensures j.Obj? && n > 0 ==> ReadValue(Write(j, "")[..n] + l).Bad?
    decreases j, 0
  {
    hide ReadValue, IsFloatLiteral, WriteItems, WriteDict, WriteChars, IntText, Continues;
    ContinuesFacts(l);
    if n == 0 {
      CutNothing(Write(j, ""), l);
    } else {
      match j
      case Null =>
        assert Write(j, "") == "null";
        CutWord("null", n, l);
      case Bool(b) =>
        assert Write(j, "") == if b then "true" else "false";
        CutWord(if b then "true" else "false", n, l);
      case Int(k) =>
        assert Write(j, "") == IntText(k);
        IntStarts(k);
        IntIsNumberChars(k);
        CutNumber(IntText(k), n, l);
      case Flt(t) =>
        assert Write(j, "") == t;
        FloatStarts(t);
        FloatIsNumberChars(t);
        CutNumber(t, n, l);
      case Str(s) => CutStringValue(s, n, l);
      case Arr(items) => CutArray(items, n, l);
      case Obj(d) => CutObject(d, n, l);
    }
  }

  lemma CutStringValue(s: string, n: nat, l: string)
    requires 0 < n < |Write(Str(s), "")| && Continues(l)
    ensures BadOrStuck(ReadValue(Write(Str(s), "")[..n] + l))
  {
    hide ReadString, WriteChars, Continues;
    var x := WriteChars(s, "")[..n - 1] + l;
    CutPast("\"", WriteChars(s, ""), n, l);
    CutString(s, n - 1, l);
    AfterFirst("\"", x);
  }

  // ---- arrays

  lemma StuckItem(s: string)
    requires BadOrStuck(ReadValue(s))
    ensures ReadItems(s).Bad?
  {
    hide ReadValue;
    if ReadValue(s).Got? { SkipNoBlanks(ReadValue(s).rest); }
  }

  /** A whole item with neither a closing bracket nor readable items after it. */
  lemma ItemsStop(j: Json, w: string)
    requires Canonical(j) && Stops(w)
    requires w != "" ==> !IsBlankChar(w[0]) && w[0] != ']'
    requires w != "" && w[0] == ',' ==> ReadItems(SkipBlanks(w[1..])).Bad?
    ensures ReadItems(Write(j, "") + w).Bad?
  {
    hide Write, ReadValue, Canonical;
    WriteAppends(j, w);
    RoundTrip(j, w);
    SkipNoBlanks(w);
  }

  lemma NoItemsCut(n: nat, l: string)
    requires n <= |WriteItems(NoItem, "")| && Continues(l)
    ensures ReadItems(WriteItems(NoItem, "")[..n] + l).Bad?
  {
    hide ReadItems, Continues;
    ContinuesFacts(l);
    CutNothing(WriteItems(NoItem, ""), l);
  }

  lemma ItemCut(j: Json, q: string, n: nat, l: string)
    requires n < |Write(j, "")| && BadOrStuck(ReadValue(Write(j, "")[..n] + l))
    ensures ReadItems((Write(j, "") + q)[..n] + l).Bad?
  {
    hide ReadItems, ReadValue, Write;
    CutIn(Write(j, ""), q, n, l);
    StuckItem(Write(j, "")[..n] + l);
  }

  lemma ItemThenCut(j: Json, q: string, l: string)
    requires Canonical(j) && Continues(l)
    ensures ReadItems((Write(j, "") + q)[..|Write(j, "")|] + l).Bad?
  {
    hide ReadItems, Write, Canonical, Continues;
    ContinuesFacts(l);
    CutIn(Write(j, ""), q, |Write(j, "")|, l);
    CutAll(Write(j, ""), l);
    ItemsStop(j, l);
  }

  lemma ItemsGoOnCut(j: Json, rest: string, m: nat, l: string)
    requires Canonical(j) && m <= |rest| && ReadItems(rest[..m] + l).Bad?
    requires rest != "" ==> !IsBlankChar(rest[0])
    requires l != "" ==> !IsBlankChar(l[0])
    ensures ReadItems((Write(j, "") + ("," + rest))[..|Write(j, "")| + 1 + m] + l).Bad?
  {
    hide ReadItems, Write, Canonical;
    var p, x := Write(j, ""), rest[..m] + l;
    CutPast(p, "," + rest, |p| + 1 + m, l);
    CutPast(",", rest, 1 + m, l);
    CommaStops(x);
    SkipNoBlanks(x);
    ItemsStop(j, "," + x);
  }

  lemma {:induction false} CutItems(items: Items, n: nat, l: string)
    requires CanonicalItems(items) && n <= |WriteItems(items, "")| && Continues(l)
    ensures ReadItems(WriteItems(items, "")[..n] + l).Bad?
    decreases items, 0
  {
    hide ReadItems, ReadValue, Write, WriteItems, Canonical, Continues;
    if items.NoItem? {
      NoItemsCut(n, l);
    } else {
      WriteItemsAppends(items, "");
      var p := Write(items.head, "");
      var rest := WriteItems(items.tail, "");
      var q := if items.tail.NoItem? then "" else "," + rest;
      if n < |p| {
        CutValue(items.head, n, l);
        ItemCut(items.head, q, n, l);
      } else if n == |p| {
        ItemThenCut(items.head, q, l);
      } else {
        ContinuesFacts(l);
        ItemsStart(items.tail);
        CutItems(items.tail, n - |p| - 1, l);
        ItemsGoOnCut(items.head, rest, n - |p| - 1, l);
      }
    }
  }

  /** Written items start with nothing that closes an array. */
  lemma ItemsStart(items: Items)
    requires CanonicalItems(items)
    ensures WriteItems(items, "") == "" || (!IsBlankChar(WriteItems(items, "")[0]) && WriteItems(items, "")[0] != ']')
  {
    if items.Item? {
      hide Write;
      WrittenStarts(items.head, if items.tail.NoItem? then "" else "," + WriteItems(items.tail, ""));
    }
  }

  lemma CutArray(items: Items, n: nat, l: string)
    requires CanonicalItems(items) && 0 < n < |Write(Arr(items), "")| && Continues(l)
    ensures ReadValue(Write(Arr(items), "")[..n] + l).Bad?
    decreases items, 1
  {
    hide ReadItems, ReadValue, CanonicalItems, WriteItems, Write, Continues;
    WriteArray(items, "");
    var t := WriteItems(items, "");
    assert Write(Arr(items), "") == "[" + (t + "]");
    CutPast("[", t + "]", n, l);
    CutIn(t, "]", n - 1, l);
    ContinuesFacts(l);
    CutItems(items, n - 1, l);
    ItemsStart(items);
    OpenArrayBad(t[..n - 1] + l);
  }

  lemma OpenArrayBad(x: string)
    requires ReadItems(x).Bad? && (x != "" ==> !IsBlankChar(x[0]) && x[0] != ']')
    ensures ReadValue("[" + x).Bad?
  {
    hide ReadItems;
    AfterFirst("[", x);
    SkipNoBlanks(x);
  }

  // ---- objects

  lemma StuckMember(s: string)
    requires BadOrStuck(ReadMember(s))
    ensures ReadMembers(s).Bad?
  {
    hide ReadMember;
    if ReadMember(s).Got? { SkipNoBlanks(ReadMember(s).rest); }
  }

  /** A whole member with neither a closing brace nor readable members after it. */
  lemma MembersStop(key: string, value: Json, w: string)
    requires Canonical(value) && Stops(w)
    requires w != "" ==> !IsBlankChar(w[0]) && w[0] != '}'
    requires w != "" && w[0] == ',' ==> ReadMembers(SkipBlanks(w[1..])).Bad?
    ensures ReadMembers(MemberText(key, value) + w).Bad?
  {
    hide Write, WriteChars, MemberText, ReadMember, Canonical, PutEarlier;
    MemberAppends(key, value, w);
    RoundTripMember(key, value, w);
    SkipNoBlanks(w);
  }

  lemma NoMembersCut(n: nat, l: string)
    requires n <= |WriteDict(NoMember, "")| && Continues(l)
    ensures ReadMembers(WriteDict(NoMember, "")[..n] + l).Bad?
  {
    hide ReadMembers, Continues;
    ContinuesFacts(l);
    CutNothing(WriteDict(NoMember, ""), l);
  }

  lemma MemberCut(p: string, q: string, n: nat, l: string)
    requires n < |p| && BadOrStuck(ReadMember(p[..n] + l))
    ensures ReadMembers((p + q)[..n] + l).Bad?
  {
    hide ReadMembers, ReadMember;
    CutIn(p, q, n, l);
    StuckMember(p[..n] + l);
  }

  lemma MemberThenCut(key: string, value: Json, q: string, l: string)
    requires Canonical(value) && Continues(l)
    ensures ReadMembers((MemberText(key, value) + q)[..|MemberText(key, value)|] + l).Bad?
  {
    hide ReadMembers, MemberText, Canonical, Continues;
    var p := MemberText(key, value);
    ContinuesFacts(l);
    CutIn(p, q, |p|, l);
    CutAll(p, l);
    MembersStop(key, value, l);
  }

  lemma MembersGoOnCut(key: string, value: Json, rest: string, m: nat, l: string)
    requires Canonical(value) && m <= |rest| && ReadMembers(rest[..m] + l).Bad?
    requires rest != "" ==> !IsBlankChar(rest[0])
    requires l != "" ==> !IsBlankChar(l[0])
    ensures ReadMembers((MemberText(key, value) + ("," + rest))[..|MemberText(key, value)| + 1 + m] + l).Bad?
  {
    hide ReadMembers, MemberText, Canonical;
    var p, x := MemberText(key, value), rest[..m] + l;
    CutPast(p, "," + rest, |p| + 1 + m, l);
    CutPast(",", rest, 1 + m, l);
    CommaStops(x);
    SkipNoBlanks(x);
    MembersStop(key, value, "," + x);
  }

  lemma {:induction false} CutDict(d: Dict, n: nat, l: string)
    requires CanonicalDict(d) && n <= |WriteDict(d, "")| && Continues(l)
    ensures ReadMembers(WriteDict(d, "")[..n] + l).Bad?
    decreases d, 0
  {
    hide ReadMembers, ReadMember, WriteDict, MemberText, Canonical, Before, Continues;
    if d.NoMember? {
      NoMembersCut(n, l);
    } else {
      WriteDictAppends(d, "");
      var p := MemberText(d.key, d.value);
      var rest := WriteDict(d.rest, "");
      var q := if d.rest.NoMember? then "" else "," + rest;
      if n < |p| {
        CutMember(d.key, d.value, n, l);
        MemberCut(p, q, n, l);
      } else if n == |p| {
        MemberThenCut(d.key, d.value, q, l);
      } else {
        ContinuesFacts(l);
        DictStart(d.rest);
        CutDict(d.rest, n - |p| - 1, l);
        MembersGoOnCut(d.key, d.value, rest, n - |p| - 1, l);
      }
    }
  }

  lemma DictStart(d: Dict)
    ensures WriteDict(d, "") == "" || WriteDict(d, "")[0] == '\"'
  {
  }

  lemma CutObject(d: Dict, n: nat, l: string)
    requires CanonicalDict(d) && 0 < n < |Write(Obj(d), "")| && Continues(l)
    ensures ReadValue(Write(Obj(d), "")[..n] + l).Bad?
    decreases d, 1
  {
    hide ReadMembers, ReadValue, CanonicalDict, WriteDict, Write, Continues;
    WriteObject(d, "");
    var t := WriteDict(d, "");
    assert Write(Obj(d), "") == "{" + (t + "}");
    CutPast("{", t + "}", n, l);
    CutIn(t, "}", n - 1, l);
    ContinuesFacts(l);
    CutDict(d, n - 1, l);
    DictStart(d);
    OpenObjectBad(t[..n - 1] + l);
  }

  lemma OpenObjectBad(x: string)
    requires ReadMembers(x).Bad? && (x != "" ==> !IsBlankChar(x[0]) && x[0] != '}')
    ensures ReadValue("{" + x).Bad?
  {
    hide ReadMembers;
    AfterFirst("{", x);
    SkipNoBlanks(x);
  }

  // ---- members

  /** A member read only as far as its key. */
  lemma KeyOnly(x: string)
    requires BadOrStuck(ReadString(x))
    ensures ReadMember("\"" + x).Bad?
  {
    hide ReadValue, ReadString;
    AfterFirst("\"", x);
    if ReadString(x).Got? { SkipNoBlanks(ReadString(x).rest); }
  }

  lemma KeyAndValue(key: string, x: string)
    requires BadOrStuck(ReadValue(x)) && (x != "" ==> !IsBlankChar(x[0]))
    ensures BadOrStuck(ReadMember("\"" + (WriteChars(key, "") + (":" + x))))
  {
    hide ReadValue, WriteChars, ReadString;
    WriteCharsAppends(key, ":" + x);
    ReadWrittenString(key, ":" + x);
    AfterFirst("\"", WriteChars(key, ":" + x));
    AfterFirst(":", x);
    SkipNoBlanks(":" + x);
    SkipNoBlanks(x);
  }

  lemma KeyThenCut(key: string, l: string)
    requires Continues(l)
    ensures BadOrStuck(ReadString(WriteChars(key, "") + l))
  {
    hide WriteChars, ReadString, Continues;
    ContinuesFacts(l);
    WriteCharsAppends(key, l);
    ReadWrittenString(key, l);
  }

  lemma MemberPieces(key: string, value: Json)
    ensures MemberText(key, value) == "\"" + (WriteChars(key, "") + (":" + Write(value, "")))
  {
    hide WriteChars, Write;
  }

  lemma CutMember(key: string, value: Json, n: nat, l: string)
    requires Canonical(value) && n < |MemberText(key, value)| && Continues(l)
    ensures BadOrStuck(ReadMember(MemberText(key, value)[..n] + l))
    decreases value, 2
  {
    hide ReadMember, ReadValue, Write, WriteChars, ReadString, Canonical, Continues, MemberText;
    MemberPieces(key, value);
    ContinuesFacts(l);
    var k, v := WriteChars(key, ""), Write(value, "");
    if n == 0 {
      CutNothing(MemberText(key, value), l);
    } else {
      CutPast("\"", k + (":" + v), n, l);
      if n - 1 < |k| {
        CutIn(k, ":" + v, n - 1, l);
        CutString(key, n - 1, l);
        KeyOnly(k[..n - 1] + l);
      } else if n - 1 == |k| {
        CutIn(k, ":" + v, n - 1, l);
        CutAll(k, l);
        KeyThenCut(key, l);
        KeyOnly(k + l);
      } else {
        CutValueOfMember(key, value, n - 2 - |k|, l);
      }
    }
  }

  lemma CutValueOfMember(key: string, value: Json, m: nat, l: string)
    requires Canonical(value) && m < |Write(value, "")| && Continues(l)
    ensures BadOrStuck(ReadMember("\"" + ((WriteChars(key, "") + (":" + Write(value, "")))[..|WriteChars(key, "")| + 1 + m] + l)))
    decreases value, 1
  {
    hide ReadMember, ReadValue, Write, WriteChars, ReadString, Canonical, Continues;
    var k, v := WriteChars(key, ""), Write(value, "");
    ContinuesFacts(l);
    CutPast(k, ":" + v, |k| + 1 + m, l);
    CutPast(":", v, 1 + m, l);
    CutValue(value, m, l);
    WrittenStarts(value, "");
    KeyAndValue(key, v[..m] + l);
  }

  // ---------------------------------------------------------------- whole lines

  /** A line cut off inside does not parse, alone or with more lines or cut-off lines glued to it. */
  lemma CutLineNeverLoads(d: Dict, n: nat, l: string)
    requires CanonicalDict(d) && 0 < n < |Dumps(Obj(d))| && Continues(l)
    ensures Loads(Dumps(Obj(d))[..n] + l).None?
  {
    hide ReadValue, WriteDict, IsFloatLiteral, Continues;
    CutValue(Obj(d), n, l);
    StartsWithBrace(d);
    SkipNoBlanks(Dumps(Obj(d))[..n] + l);
  }

  lemma StartsWithBrace(d: Dict)
    ensures Dumps(Obj(d)) != "" && Dumps(Obj(d))[0] == '{'
  {
    hide WriteDict;
  }

  /** A complete line without its line break does not parse either once anything is glued to it. */
  lemma GluedLinesNeverLoad(d: Dict, l: string)
    requires CanonicalDict(d) && Continues(l) && l != ""
    ensures Loads(Dumps(Obj(d)) + l).None?
  {
    hide ReadValue, Write, IsFloatLiteral, Continues;
    ContinuesFacts(l);
    RoundTripObject(d, l);
    WriteAppends(Obj(d), l);
    StartsWithBrace(d);
    SkipNoBlanks(Dumps(Obj(d)) + l);
    SkipNoBlanks(l);
  }

  predicate FirstKeyIsWord(d: Dict) {
    d.Member? && d.key != "" && 'a' <= d.key[0] <= 'z'
  }

  /** A whole or cut-off line continues a cut, and can itself be continued in the same way. */
  lemma PieceContinues(d: Dict, n: nat, l: string)
    requires CanonicalDict(d) && FirstKeyIsWord(d) && 0 < n <= |Dumps(Obj(d))| && Continues(l)
    ensures Continues(Dumps(Obj(d))[..n] + l)
  {
    hide ReadValue, ReadString, WriteDict, IsFloatLiteral;
    var t := Dumps(Obj(d));
    StartsWithBrace(d);
    PieceAsValue(d, n, l);
    PieceAsString(d, n, l);
  }

  lemma PieceAsValue(d: Dict, n: nat, l: string)
    requires CanonicalDict(d) && 0 < n <= |Dumps(Obj(d))| && Continues(l)
    ensures BadOrStuck(ReadValue(Dumps(Obj(d))[..n] + l))
  {
    hide ReadValue, Write, IsFloatLiteral, Continues;
    var t := Dumps(Obj(d));
    if n < |t| {
      CutValue(Obj(d), n, l);
    } else {
      ContinuesFacts(l);
      RoundTripObject(d, l);
      WriteAppends(Obj(d), l);
      CutAll(t, l);
    }
  }

  /** An open string swallows the brace, ends at the first key's quote, and is stuck at the key's first letter. */
  lemma PieceAsString(d: Dict, n: nat, l: string)
    requires FirstKeyIsWord(d) && 0 < n <= |Dumps(Obj(d))| && Continues(l)
    ensures BadOrStuck(ReadString(Dumps(Obj(d))[..n] + l))
  {
    hide ReadValue, ReadString, WriteDict, Write;
    var s := Dumps(Obj(d))[..n] + l;
    LineHead(d);
    BraceInString(s);
    if n == 1 {
      assert s[1..] == l;
      PrependKeeps('{', ReadString(l));
    } else {
      QuoteEndsString(s[1..]);
      assert n == 2 ==> s[1..][1..] == l;
      assert n > 2 ==> s[1..][1..][0] == d.key[0];
      PrependKeeps('{', ReadString(s[1..]));
    }
  }

  lemma LineHead(d: Dict)
    requires FirstKeyIsWord(d)
    ensures var t := Dumps(Obj(d)); |t| >= 3 && t[0] == '{' && t[1] == '\"' && t[2] == d.key[0]
  {
    var tail := ":" + Write(d.value, if d.rest.NoMember? then "}" + "" else "," + WriteDict(d.rest, "}" + ""));
    assert WriteDict(d, "}" + "") == "\"" + WriteChars(d.key, tail);
    assert WriteChars(d.key, tail)[0] == d.key[0];
  }

  lemma BraceInString(s: string)
    requires s != "" && s[0] == '{'
    ensures ReadString(s) == Prepend('{', ReadString(s[1..]))
  {
    assert ReadChar(s) == Got('{', s[1..]);
  }

  lemma QuoteEndsString(s: string)
    requires s != "" && s[0] == '\"'
    ensures ReadString(s) == Got("", s[1..])
  {
  }
}
