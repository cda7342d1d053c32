/** One durable line: the compact JSON text of an aggregate, and what a line read back can be. */
module StateLines {
  import opened Wrappers
  import opened DecimalText
  import opened Json
  import opened JsonText
  import opened JsonCut
  import opened State
  import opened Codec

  /** `NotJson` is a syntax error, `Refused` valid JSON that is no acceptable record. */
  datatype Line = Decoded(state: Aggregate) | NotJson | Refused

  function EncodeLine(s: Aggregate): string {
    Dumps(Obj(EncodeState(s)))
  }

  function DecodeLine(text: string): Line {
    match Loads(text)
    case None => NotJson
    case Some(j) =>
      match DecodeEnvelope(j)
      case None => Refused
      case Some(s) => Decoded(s)
  }

  // ---------------------------------------------------------------- everything read is canonical

  lemma SpanOfPrefix(s: string, e: nat, i: nat)
    requires i <= |s| && Span(s, i) <= e <= |s|
    ensures Span(s[..e], i) == Span(s, i)
    decreases |s| - i
  {
    if i < |s| && IsDigit(s[i]) { SpanOfPrefix(s, e, i + 1); }
  }

  lemma FractionOfPrefix(s: string, e: nat, b: nat)
    requires b <= |s| && FractionEnd(s, b) <= e <= |s|
    ensures FractionEnd(s[..e], b) == FractionEnd(s, b)
  {
    if b + 1 < |s| && s[b] == '.' && IsDigit(s[b + 1]) { SpanOfPrefix(s, e, b + 1); }
  }

  lemma ExponentOfPrefix(s: string, c: nat)
    requires c <= |s|
    ensures ExponentEnd(s[..ExponentEnd(s, c)], c) == ExponentEnd(s, c)
  {
    var e := ExponentEnd(s, c);
    if e > c { SpanOfPrefix(s, e, AfterSign(s, c + 1)); }
  }

  lemma NumberOfPrefix(s: string)
    requires NumberSpan(s).Some?
    ensures NumberSpan(s[..NumberSpan(s).value.1]) == NumberSpan(s)
  {
    hide FractionEnd, ExponentEnd, Span;
    var (b, e) := NumberSpan(s).value;
    var a := if s[0] == '-' then 1 else 0;
    if s[a] != '0' { SpanOfPrefix(s, e, a); }
    FractionOfPrefix(s, e, b);
    ExponentOfPrefix(s, FractionEnd(s, b));
  }

  lemma ReadNumberCanonical(s: string)
    ensures ReadNumber(s).Got? ==> Canonical(ReadNumber(s).value)
  {
    hide NumberSpan;
    if NumberSpan(s).Some? { NumberOfPrefix(s); }
  }

  lemma {:induction false} ReadValueCanonical(s: string)
    ensures ReadValue(s).Got? ==> Canonical(ReadValue(s).value)
    decreases |s|, 1
  {
    hide ReadNumber, ReadString, ReadMembers, ReadItems, IsFloatLiteral;
    if s != "" {
      ReadNumberCanonical(s);
      ReadMembersCanonical(SkipBlanks(s[1..]));
      ReadItemsCanonical(SkipBlanks(s[1..]));
    }
  }

  lemma {:induction false} ReadMemberCanonical(s: string)
    ensures ReadMember(s).Got? ==> Canonical(ReadMember(s).value.1)
    decreases |s|, 0
  {
    hide ReadValue, ReadString, IsFloatLiteral;
    if ReadMember(s).Got? {
      ReadValueCanonical(SkipBlanks(SkipBlanks(ReadString(s[1..]).rest)[1..]));
    }
  }

  lemma {:induction false} ReadMembersCanonical(s: string)
    ensures ReadMembers(s).Got? ==> CanonicalDict(ReadMembers(s).value)
    decreases |s|, 2
  {
    hide ReadMember, IsFloatLiteral, Before;
    ReadMemberCanonical(s);
    if ReadMember(s).Got? {
      var after := SkipBlanks(ReadMember(s).rest);
      if after != "" && after[0] == ',' {
        var more := ReadMembers(SkipBlanks(after[1..]));
        ReadMembersCanonical(SkipBlanks(after[1..]));
        if more.Got? {
          PutEarlierCanonical(more.value, ReadMember(s).value.0, ReadMember(s).value.1);
        }
      }
    }
  }

  lemma {:induction false} ReadItemsCanonical(s: string)
    ensures ReadItems(s).Got? ==> CanonicalItems(ReadItems(s).value)
    decreases |s|, 2
  {
    hide ReadValue, IsFloatLiteral;
    ReadValueCanonical(s);
    if ReadValue(s).Got? {
      var after := SkipBlanks(ReadValue(s).rest);
      if after != "" && after[0] == ',' {
        ReadItemsCanonical(SkipBlanks(after[1..]));
      }
    }
  }

  lemma LoadsCanonical(text: string)
    ensures Loads(text).Some? ==> Canonical(Loads(text).value)
  {
    hide ReadValue, IsFloatLiteral;
    ReadValueCanonical(SkipBlanks(text));
  }

  // ---------------------------------------------------------------- everything encoded is canonical

  lemma WithCanonical(d: Dict, k: Key, v: Json)
    requires CanonicalDict(d) && Canonical(v)
    ensures CanonicalDict(With(d, k, v))
  {
    PutCanonical(d, Name(k), v);
  }

  lemma WithsCanonical()
    ensures forall d: Dict, k: Key, v: Json | CanonicalDict(d) && Canonical(v) :: CanonicalDict(With(d, k, v))
    ensures CanonicalDict(NoMember)
    ensures forall s: string :: Canonical(Str(s))
    ensures forall n: int :: Canonical(Int(n))
    ensures forall d: Dict | CanonicalDict(d) :: Canonical(Obj(d))
    ensures Canonical(Null) && Canonical(Bool(true)) && Canonical(Bool(false))
  {
    forall d: Dict, k: Key, v: Json | CanonicalDict(d) && Canonical(v) ensures CanonicalDict(With(d, k, v)) {
      WithCanonical(d, k, v);
    }
  }

  lemma CycleCanonical(c: TradeCycle)
    ensures CanonicalDict(EncodeCycle(c))
  {
    hide With, Canonical, CanonicalDict;
    WithsCanonical();
  }

  lemma RawSpecCanonical(s: Aggregate)
    requires ValidAggregate(s)
    ensures CanonicalDict(s.snapshot.rawSpec)
  {
    hide ValidCycle, IsBlank, IsPositiveExactDecimal, CanonicalDict;
  }

  lemma StateCanonical(s: Aggregate)
    requires ValidAggregate(s)
    ensures CanonicalDict(EncodeState(s))
  {
    hide ValidAggregate, With, Canonical, CanonicalDict, EncodeCycle;
    RawSpecCanonical(s);
    WithsCanonical();
    if s.cycle.Some? { CycleCanonical(s.cycle.value); }
  }

  // ---------------------------------------------------------------- the laws of the codec

  /** Decoding the line of any valid aggregate gives back that aggregate. */
  lemma LineRoundTrip(s: Aggregate)
    requires ValidAggregate(s)
    ensures DecodeLine(EncodeLine(s)) == Decoded(s)
  {
    hide ValidAggregate, EncodeState, DecodeEnvelope, Dumps, Loads, Canonical;
    StateCanonical(s);
    LoadsDumpsObject(EncodeState(s));
    StateRoundTrip(s);
  }

  lemma LoadsDumpsObject(d: Dict)
    requires CanonicalDict(d)
    ensures Loads(Dumps(Obj(d))) == Some(Obj(d))
  {
    LoadsDumps(Obj(d));
  }

  /** Any accepted line of any version holds a valid state, and its line of today decodes to the same state. */
  lemma AcceptedLineReencodes(text: string)
    requires DecodeLine(text).Decoded?
    ensures ValidAggregate(DecodeLine(text).state)
    ensures DecodeLine(EncodeLine(DecodeLine(text).state)) == DecodeLine(text)
  {
    hide ValidAggregate, DecodeEnvelope, Loads, Canonical, EncodeLine;
    LoadsCanonical(text);
    AcceptedIsValid(Loads(text).value);
    LineRoundTrip(DecodeLine(text).state);
  }
}
