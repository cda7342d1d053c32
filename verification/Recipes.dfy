/** Desired entries and protections: normalizing, validating constructors, and the ABI wire shape. */
module Recipes {
  import opened Wrappers
  import opened DecimalText
  import opened DecimalNormalize

  datatype DesiredEntry = DesiredEntry(
    side: string, sourceBar: int, plannedPrice: string, stopPrice: string, takePrice: string, profile: string)

  /** The same six fields as they travel to and from the executor. */
  datatype WireEntry = WireEntry(
    side: string, sourceBar: int, plannedPrice: string, stopPrice: string, takePrice: string, profile: string)

  datatype DesiredProtection = DesiredProtection(stopPrice: string, takePrice: Option<string>)

  predicate IsSide(side: string) {
    side == "long" || side == "short"
  }

  /** None stands for the constructor's ValueError. */
  function MakeDesiredEntry(side: string, sourceBar: int, planned: string, stop: string, take: string,
                            profile: string): Option<DesiredEntry> {
    if !IsSide(side) || sourceBar < 0 then None
    else
      var p, s, t := Normalize(planned), Normalize(stop), Normalize(take);
      if p.None? || s.None? || t.None? then None
      else if !IsPositiveExactDecimal(t.value) || IsBlank(profile) then None
      else Some(DesiredEntry(side, sourceBar, p.value, s.value, t.value, profile))
  }

  predicate IsNormal(price: string) {
    Normalize(price) == Some(price)
  }

  /** What every constructed desired entry satisfies. */
  predicate ValidEntry(e: DesiredEntry) {
    && IsSide(e.side) && e.sourceBar >= 0
    && IsNormal(e.plannedPrice) && IsNormal(e.stopPrice) && IsNormal(e.takePrice)
    && IsPositiveExactDecimal(e.takePrice) && !IsBlank(e.profile)
  }

  function MakeProtection(stop: string, take: Option<string>): Option<DesiredProtection> {
    var s := Normalize(stop);
    if s.None? then None
    else if take.None? then Some(DesiredProtection(s.value, None))
    else
      var t := Normalize(take.value);
      if t.None? then None else Some(DesiredProtection(s.value, t))
  }

  predicate ValidProtection(p: DesiredProtection) {
    IsNormal(p.stopPrice) && (p.takePrice.Some? ==> IsNormal(p.takePrice.value))
  }

  predicate ValidWire(w: WireEntry) {
    && IsSide(w.side) && IsExactDecimal(w.plannedPrice) && IsExactDecimal(w.stopPrice)
    && IsPositiveExactDecimal(w.takePrice)
  }

  function EncodeEntry(e: DesiredEntry): WireEntry {
    WireEntry(e.side, e.sourceBar, e.plannedPrice, e.stopPrice, e.takePrice, e.profile)
  }

  function DecodeEntry(w: WireEntry): Option<DesiredEntry> {
    MakeDesiredEntry(w.side, w.sourceBar, w.plannedPrice, w.stopPrice, w.takePrice, w.profile)
  }

  /** Constructed entries are exactly the valid ones, and constructing one again changes nothing. */
  lemma EntryConstructorFixpoint(side: string, sourceBar: int, planned: string, stop: string, take: string,
                                 profile: string)
    ensures var e := MakeDesiredEntry(side, sourceBar, planned, stop, take, profile);
      e.Some? ==> ValidEntry(e.value) && DecodeEntry(EncodeEntry(e.value)) == e
  {
    hide Normalize, IsPositiveExactDecimal, IsBlank;
    if MakeDesiredEntry(side, sourceBar, planned, stop, take, profile).Some? {
      NormalizeIsNormal(planned);
      NormalizeIsNormal(stop);
      NormalizeIsNormal(take);
    }
  }

  lemma NormalizeIsNormal(t: string)
    requires Normalize(t).Some?
    ensures IsNormal(Normalize(t).value) && IsExactDecimal(Normalize(t).value)
  {
    NormalizeCorrect(t);
  }

  lemma ProtectionConstructorFixpoint(stop: string, take: Option<string>)
    ensures var p := MakeProtection(stop, take);
      p.Some? ==> ValidProtection(p.value) && MakeProtection(p.value.stopPrice, p.value.takePrice) == p
  {
    hide Normalize;
    if MakeProtection(stop, take).Some? {
      NormalizeIsNormal(stop);
      if take.Some? { NormalizeIsNormal(take.value); }
    }
  }

  /** Equal numbers, however they are spelled. */
  predicate SamePrice(a: string, b: string)
    requires IsExactDecimal(a) && IsExactDecimal(b)
  {
    SameNumber(Parse(a).value, Parse(b).value)
  }

  /** Any desired entry can be put on the wire. */
  lemma EncodingAlwaysAccepted(e: DesiredEntry)
    requires ValidEntry(e)
    ensures ValidWire(EncodeEntry(e))
  {
    hide Normalize, IsPositiveExactDecimal;
    NormalizeIsNormal(e.plannedPrice);
    NormalizeIsNormal(e.stopPrice);
    NormalizeIsNormal(e.takePrice);
  }

  /** An echo decodes to the sent entry exactly when it is numerically the same entry. */
  lemma EchoMatchesIffNumericallyEqual(e: DesiredEntry, w: WireEntry)
    requires ValidEntry(e) && ValidWire(w)
    ensures ValidWire(EncodeEntry(e))
    ensures DecodeEntry(w) == Some(e) <==>
      && w.side == e.side && w.sourceBar == e.sourceBar && w.profile == e.profile
      && SamePrice(w.plannedPrice, e.plannedPrice) && SamePrice(w.stopPrice, e.stopPrice)
      && SamePrice(w.takePrice, e.takePrice)
  {
    hide Normalize, IsPositiveExactDecimal, IsExactDecimal, SamePrice, IsBlank;
    EncodingAlwaysAccepted(e);
    PositiveMeansExact(w.takePrice);
    PriceEcho(w.plannedPrice, e.plannedPrice);
    PriceEcho(w.stopPrice, e.stopPrice);
    PriceEcho(w.takePrice, e.takePrice);
  }

  lemma PositiveMeansExact(t: string)
    requires IsPositiveExactDecimal(t)
    ensures IsExactDecimal(t)
  {
  }

  lemma PriceEcho(echo: string, sent: string)
    requires IsNormal(sent) && IsExactDecimal(echo)
    ensures IsExactDecimal(sent) && Normalize(echo).Some?
    ensures Normalize(echo).value == sent <==> SamePrice(echo, sent)
    ensures IsPositiveExactDecimal(Normalize(echo).value) <==> IsPositiveExactDecimal(echo)
  {
    NormalizeIsNormal(sent);
    hide Parse;
    ExactDecimalNormalizes(echo);
    ExactDecimalNormalizes(sent);
    CanonicalTextDecidesEquality(Parse(echo).value, Parse(sent).value);
    CanonicalParses(Parse(echo).value);
    if Parse(echo).value.coeff == 0 { ParseZero(); }
  }

  /** What a normalized price is: the same number in its one normal spelling. */
  predicate Renders(price: string, asked: string)
    requires IsExactDecimal(asked)
  {
    IsNormal(price) && IsExactDecimal(price) && SamePrice(asked, price)
  }

  lemma NormalizedRenders(t: string)
    requires IsExactDecimal(t)
    ensures Normalize(t).Some? && Renders(Normalize(t).value, t)
    ensures IsPositiveExactDecimal(Normalize(t).value) <==> IsPositiveExactDecimal(t)
  {
    hide Parse, Normalize, IsExactDecimal, SamePrice, IsPositiveExactDecimal;
    ExactDecimalNormalizes(t);
    NormalizeIsNormal(t);
    PriceEcho(t, Normalize(t).value);
  }

  /** Any exact prices make a protection with the same two numbers, or without a take price exactly when none was given. */
  lemma ProtectionHasItsPrices(stop: string, take: Option<string>)
    requires IsExactDecimal(stop) && (take.Some? ==> IsExactDecimal(take.value))
    ensures var p := MakeProtection(stop, take);
      && p.Some? && ValidProtection(p.value) && Renders(p.value.stopPrice, stop)
      && (p.value.takePrice.Some? <==> take.Some?) && (take.Some? ==> Renders(p.value.takePrice.value, take.value))
  {
    hide Normalize, IsExactDecimal, SamePrice, IsPositiveExactDecimal;
    NormalizedRenders(stop);
    if take.Some? { NormalizedRenders(take.value); }
  }

  /** Exact prices make an entry exactly for a known side, a bar, a positive take price and a profile, and with those numbers. */
  lemma EntryHasItsPrices(side: string, sourceBar: int, planned: string, stop: string, take: string, profile: string)
    requires IsExactDecimal(planned) && IsExactDecimal(stop) && IsExactDecimal(take)
    ensures var e := MakeDesiredEntry(side, sourceBar, planned, stop, take, profile);
      && (e.Some? <==> IsSide(side) && sourceBar >= 0 && IsPositiveExactDecimal(take) && !IsBlank(profile))
      && (e.Some? ==>
            && e.value.side == side && e.value.sourceBar == sourceBar && e.value.profile == profile
            && Renders(e.value.plannedPrice, planned) && Renders(e.value.stopPrice, stop) && Renders(e.value.takePrice, take))
  {
    hide Normalize, IsExactDecimal, SamePrice, IsPositiveExactDecimal, IsBlank, IsNormal;
    NormalizedRenders(planned);
    NormalizedRenders(stop);
    NormalizedRenders(take);
  }
}
