/** The append-only log: its lines, its replay, and what a cut append leaves. */
module LogReplay {
  import opened Wrappers
  import opened Json
  import opened JsonText
  import opened JsonCut
  import opened State
  import opened Codec
  import opened StateLines
  import opened LineBreaks

  datatype StoreError =
    | Poisoned | WriteFailed | ReplayError | InvalidState | InvalidId
    | IdentityConflict | RegistrationConflict | StateNotFound

  // ---------------------------------------------------------------- lines

  function FirstBreak(text: string): (n: nat)
    ensures n <= |text| && Unbroken(text[..n])
    ensures n < |text| ==> IsLineBreak(text[n])
  {
    if text == "" || IsLineBreak(text[0]) then 0
    else
      var n := FirstBreak(text[1..]) + 1;
      assert text[..n] == [text[0]] + text[1..][..n - 1];
      n
  }

  /** A carriage return and the line feed after it are one break. */
  function AfterBreak(text: string, n: nat): (m: nat)
    requires n < |text|
    ensures n < m <= |text|
  {
    if text[n] == '\r' && n + 1 < |text| && text[n + 1] == '\n' then n + 2 else n + 1
  }

  /** `str.splitlines`: no empty last line. */
  function SplitLines(text: string): seq<string>
    decreases |text|
  {
    if text == "" then []
    else
      var n := FirstBreak(text);
      if n == |text| then [text] else [text[..n]] + SplitLines(text[AfterBreak(text, n)..])
  }

  predicate IsLineEnd(c: char) {
    IsLineBreak(c) && c != '\r'
  }

  /** Whatever is appended starts a line of its own. */
  predicate EndsLine(text: string) {
    text == "" || IsLineEnd(text[|text| - 1])
  }

  lemma {:induction false} FirstBreakAppend(a: string, b: string)
    requires FirstBreak(a) < |a|
    ensures FirstBreak(a + b) == FirstBreak(a)
  {
    if !IsLineBreak(a[0]) {
      FirstBreakAppend(a[1..], b);
      assert (a + b)[1..] == a[1..] + b;
    }
  }

  lemma UnbrokenHasNoBreak(t: string)
    requires Unbroken(t)
    ensures FirstBreak(t) == |t|
  {
  }

  lemma EndedHasBreak(a: string)
    requires a != "" && EndsLine(a)
    ensures FirstBreak(a) < |a|
  {
    assert a[..|a|] == a;
  }

  /** Text after a line end only adds lines. */
  lemma {:induction false} SplitAppend(a: string, b: string)
    requires EndsLine(a)
    ensures SplitLines(a + b) == SplitLines(a) + SplitLines(b)
    decreases |a|
  {
    if a == "" {
      assert a + b == b;
    } else {
      EndedHasBreak(a);
      FirstBreakAppend(a, b);
      var n := FirstBreak(a);
      var m := AfterBreak(a, n);
      assert AfterBreak(a + b, n) == m;
      assert (a + b)[..n] == a[..n] && (a + b)[m..] == a[m..] + b;
      SplitAppend(a[m..], b);
    }
  }

  lemma SplitOneLine(t: string)
    requires Unbroken(t)
    ensures SplitLines(t + "\n") == [t]
    ensures t != "" ==> SplitLines(t) == [t]
  {
    hide SplitLines;
    SplitEndedLine(t, '\n');
    UnbrokenHasNoBreak(t);
    SplitUnended(t);
  }

  lemma SplitUnended(t: string)
    requires FirstBreak(t) == |t|
    ensures t != "" ==> SplitLines(t) == [t]
  {
  }

  lemma SplitEndedLine(t: string, c: char)
    requires Unbroken(t) && IsLineEnd(c)
    ensures SplitLines(t + [c]) == [t]
  {
    FirstBreakLine(t, c);
    assert (t + [c])[..|t|] == t;
    assert (t + [c])[|t| + 1..] == "";
  }

  lemma {:induction false} FirstBreakLine(t: string, c: char)
    requires Unbroken(t) && IsLineBreak(c)
    ensures FirstBreak(t + [c]) == |t|
  {
    if t != "" {
      assert Unbroken(t[1..]) by { forall i | 0 <= i < |t[1..]| ensures !IsLineBreak(t[1..][i]) { assert t[1..][i] == t[i + 1]; } }
      FirstBreakLine(t[1..], c);
      assert (t + [c])[1..] == t[1..] + [c];
    }
  }

  // ---------------------------------------------------------------- replay

  function ReplayLines(lines: seq<string>, states: map<string, Aggregate>): Result<map<string, Aggregate>, StoreError> {
    if lines == [] then Success(states)
    else
      match DecodeLine(lines[0])
      case Decoded(s) => ReplayLines(lines[1..], states[s.instance := s])
      case NotJson => if |lines| == 1 then Success(states) else Failure(ReplayError)
      case Refused => Failure(ReplayError)
  }

  /** The latest snapshot of every instance; a syntax error is forgiven on the last line only. */
  function Replay(text: string): Result<map<string, Aggregate>, StoreError> {
    ReplayLines(SplitLines(text), map[])
  }

  predicate AllDecode(lines: seq<string>) {
    forall i | 0 <= i < |lines| :: DecodeLine(lines[i]).Decoded?
  }

  /** A log with a clean tail: every line is complete and decodes. */
  predicate Healthy(text: string) {
    EndsLine(text) && AllDecode(SplitLines(text))
  }

  lemma {:induction false} ReplayPrefix(lines: seq<string>, more: seq<string>, states: map<string, Aggregate>)
    requires AllDecode(lines)
    ensures ReplayLines(lines, states).Success?
    ensures ReplayLines(lines + more, states) == ReplayLines(more, ReplayLines(lines, states).value)
    decreases |lines|
  {
    hide DecodeLine;
    if lines == [] {
      assert lines + more == more;
    } else {
      assert (lines + more)[1..] == lines[1..] + more;
      ReplayPrefix(lines[1..], more, states[DecodeLine(lines[0]).state.instance := DecodeLine(lines[0]).state]);
    }
  }

  /** The index of a healthy log. */
  function Index(text: string): map<string, Aggregate>
    requires Healthy(text)
  {
    ReplayPrefix(SplitLines(text), [], map[]);
    Replay(text).value
  }

  /** Replaying more text after a healthy log goes on from its index. */
  lemma ReplayAfter(text: string, more: string)
    requires Healthy(text)
    ensures Replay(text) == Success(Index(text))
    ensures Replay(text + more) == ReplayLines(SplitLines(more), Index(text))
  {
    hide SplitLines, AllDecode, ReplayLines;
    SplitAppend(text, more);
    ReplayPrefix(SplitLines(text), SplitLines(more), map[]);
    ReplayPrefix(SplitLines(text), [], map[]);
  }

  function Updated(states: map<string, Aggregate>, s: Aggregate): map<string, Aggregate> {
    states[s.instance := s]
  }

  // ---------------------------------------------------------------- appends

  lemma OneDecodedLine(s: Aggregate, states: map<string, Aggregate>)
    requires ValidAggregate(s)
    ensures ReplayLines([EncodeLine(s)], states) == Success(Updated(states, s))
  {
    hide EncodeLine, DecodeLine, ValidAggregate;
    LineRoundTrip(s);
  }

  lemma OneBadLine(line: string, states: map<string, Aggregate>)
    requires DecodeLine(line).NotJson?
    ensures ReplayLines([line], states) == Success(states)
  {
    hide DecodeLine;
  }

  /** A complete append keeps the log healthy and replays to the updated index. */
  lemma AppendReplays(text: string, s: Aggregate)
    requires Healthy(text) && ValidAggregate(s) && CleanState(s)
    ensures Healthy(text + EncodeLine(s) + "\n")
    ensures Index(text + EncodeLine(s) + "\n") == Updated(Index(text), s)
  {
    hide EncodeLine, DecodeLine, ValidAggregate, CleanState, SplitLines, ReplayLines, Unbroken;
    var line := EncodeLine(s);
    assert text + (line + "\n") == text + line + "\n";
    LineUnbrokenIffClean(s);
    SplitOneLine(line);
    SplitAppend(text, line + "\n");
    LineRoundTrip(s);
    ReplayAfter(text, line + "\n");
    OneDecodedLine(s, Index(text));
  }

  lemma LineShape(s: Aggregate)
    requires ValidAggregate(s)
    ensures |EncodeLine(s)| >= 3 && Continues(EncodeLine(s)) && CanonicalDict(EncodeState(s)) && FirstKeyIsWord(EncodeState(s))
  {
    hide ValidAggregate, EncodeState, Continues, CanonicalDict, FirstKeyIsWord, Dumps;
    StateCanonical(s);
    FirstEnvelopeKey(s);
    NothingContinues();
    LineHead(EncodeState(s));
    PieceContinues(EncodeState(s), |EncodeLine(s)|, "");
    CutAll(EncodeLine(s), "");
    assert EncodeLine(s) + "" == EncodeLine(s);
  }

  lemma FirstEnvelopeKey(s: Aggregate)
    ensures FirstKeyIsWord(EncodeState(s))
  {
    hide EncodeState;
    StateKeys(s);
    StateFields(s);
    EnvelopeNamesAreWords(EncodeState(s));
  }

  lemma EnvelopeNamesAreWords(d: Dict)
    requires OnlyKeys(d, Names(ENVELOPE_KEYS_V3)) && At(d, KSchemaVersion).Some?
    ensures FirstKeyIsWord(d)
  {
    hide Name;
    var k :| k in ENVELOPE_KEYS_V3 && Name(k) == d.key;
    EnvelopeNameStarts(k);
  }

  lemma EnvelopeNameStarts(k: Key)
    requires k in ENVELOPE_KEYS_V3
    ensures Name(k) != "" && 'a' <= Name(k)[0] <= 'z'
  {
  }

  /** A line cut off inside never decodes, alone or with another line glued to it; nor does a whole one with another glued to it. */
  lemma TornLine(s: Aggregate, n: nat, l: string)
    requires ValidAggregate(s) && 0 < n <= |EncodeLine(s)| && Continues(l)
    requires n == |EncodeLine(s)| ==> l != ""
    ensures DecodeLine(EncodeLine(s)[..n] + l).NotJson?
  {
    hide ValidAggregate, EncodeState, Loads, Dumps, Canonical, Continues, DecodeEnvelope;
    LineShape(s);
    if n < |EncodeLine(s)| {
      CutLineNeverLoads(EncodeState(s), n, l);
    } else {
      GluedLinesNeverLoad(EncodeState(s), l);
      assert EncodeLine(s)[..n] == EncodeLine(s);
    }
  }

  lemma UnbrokenPrefix(t: string, n: nat)
    requires Unbroken(t) && n <= |t|
    ensures Unbroken(t[..n])
  {
  }

  /** A crash during an append leaves exactly the map before or after that save, whichever character it stopped at. */
  lemma CrashCutIsAtomic(text: string, s: Aggregate, n: nat)
    requires Healthy(text) && ValidAggregate(s) && CleanState(s) && n <= |EncodeLine(s)| + 1
    ensures Replay(text + (EncodeLine(s) + "\n")[..n]) ==
      Success(if n < |EncodeLine(s)| then Index(text) else Updated(Index(text), s))
  {
    hide EncodeLine, DecodeLine, ValidAggregate, CleanState, SplitLines, ReplayLines, Unbroken, Healthy, Continues;
    var line := EncodeLine(s);
    var cut := (line + "\n")[..n];
    LineShape(s);
    LineUnbrokenIffClean(s);
    ReplayAfter(text, cut);
    OneDecodedLine(s, Index(text));
    SplitOneLine(line);
    if n == 0 {
      assert text + cut == text;
    } else if n <= |line| {
      assert cut == line[..n];
      UnbrokenPrefix(line, n);
      SplitOneLine(line[..n]);
      if n < |line| {
        NothingContinues();
        TornLine(s, n, "");
        assert line[..n] + "" == line[..n];
        OneBadLine(line[..n], Index(text));
      } else {
        assert line[..n] == line;
      }
    } else {
      assert cut == line + "\n";
    }
  }

  lemma NothingContinues()
    ensures Continues("")
  {
  }

  /** The log after a torn append and one more, complete one. */
  function TornThenSaved(text: string, torn: Aggregate, n: nat, s: Aggregate): string
    requires n <= |EncodeLine(torn)|
  {
    text + (EncodeLine(torn)[..n] + EncodeLine(s) + "\n")
  }

  /**
   * Replay forgives a torn tail but does not remove it: the next append is glued to it, so both are lost,
   * even a torn line that was complete and had been replayed.
   */
  lemma TornTailLosesNextSave(text: string, torn: Aggregate, n: nat, s: Aggregate)
    requires Healthy(text) && ValidAggregate(torn) && CleanState(torn) && ValidAggregate(s) && CleanState(s)
    requires 0 < n <= |EncodeLine(torn)|
    ensures Replay(TornThenSaved(text, torn, n, s)) == Success(Index(text))
  {
    hide EncodeLine, DecodeLine, ValidAggregate, CleanState, SplitLines, ReplayLines, Unbroken, Healthy, Continues;
    var t, l := EncodeLine(torn)[..n], EncodeLine(s);
    GluedLine(torn, n, s);
    ReplayAfter(text, t + l + "\n");
    OneBadLine(t + l, Index(text));
  }

  lemma GluedLine(torn: Aggregate, n: nat, s: Aggregate)
    requires ValidAggregate(torn) && CleanState(torn) && ValidAggregate(s) && CleanState(s)
    requires 0 < n <= |EncodeLine(torn)|
    ensures var glued := EncodeLine(torn)[..n] + EncodeLine(s);
      DecodeLine(glued).NotJson? && SplitLines(glued + "\n") == [glued]
  {
    hide EncodeLine, DecodeLine, ValidAggregate, CleanState, SplitLines, Unbroken, Continues;
    var t, l := EncodeLine(torn)[..n], EncodeLine(s);
    LineUnbrokenIffClean(torn);
    LineUnbrokenIffClean(s);
    UnbrokenPrefix(EncodeLine(torn), n);
    UnbrokenConcat(t, l);
    SplitOneLine(t + l);
    LineShape(s);
    TornLine(torn, n, l);
  }

  /** One more save after that, and the process cannot start again. */
  lemma TornTailThenTwoSavesCannotReplay(text: string, torn: Aggregate, n: nat, s: Aggregate, t: Aggregate)
    requires Healthy(text) && ValidAggregate(torn) && CleanState(torn) && ValidAggregate(s) && CleanState(s)
    requires ValidAggregate(t) && CleanState(t) && 0 < n <= |EncodeLine(torn)|
    ensures Replay(TornThenSaved(text, torn, n, s) + (EncodeLine(t) + "\n")) == Failure(ReplayError)
  {
    hide EncodeLine, DecodeLine, ValidAggregate, CleanState, SplitLines, Unbroken, Healthy, Continues;
    var glued := EncodeLine(torn)[..n] + EncodeLine(s);
    GluedLine(torn, n, s);
    var more := (glued + "\n") + (EncodeLine(t) + "\n");
    assert TornThenSaved(text, torn, n, s) + (EncodeLine(t) + "\n") == text + more;
    ReplayAfter(text, more);
    SplitAppend(glued + "\n", EncodeLine(t) + "\n");
    LineUnbrokenIffClean(t);
    SplitOneLine(EncodeLine(t));
  }

  /** A saved state survives a restart exactly when none of its strings holds NEL, LS or PS. */
  lemma SaveSurvivesIffClean(text: string, s: Aggregate)
    requires Healthy(text) && ValidAggregate(s)
    ensures Replay(text + EncodeLine(s) + "\n") == (if CleanState(s) then Success(Updated(Index(text), s)) else Failure(ReplayError))
  {
    hide EncodeLine, DecodeLine, ValidAggregate, CleanState, Unbroken, Healthy, Continues, SplitLines;
    var line := EncodeLine(s);
    assert text + (line + "\n") == text + line + "\n";
    if CleanState(s) {
      AppendReplays(text, s);
      ReplayAfter(text + line + "\n", "");
      assert (text + line + "\n") + "" == text + line + "\n";
    } else {
      LineUnbrokenIffClean(s);
      BrokenLineSplits(s);
      ReplayAfter(text, line + "\n");
    }
  }

  lemma BrokenLineSplits(s: Aggregate)
    requires ValidAggregate(s) && !Unbroken(EncodeLine(s))
    ensures var lines := SplitLines(EncodeLine(s) + "\n"); |lines| >= 2 && DecodeLine(lines[0]).NotJson?
  {
    hide EncodeLine, DecodeLine, ValidAggregate, Continues, SplitLines;
    var line := EncodeLine(s);
    var n := FirstBreak(line);
    assert line[..|line|] == line;
    FirstBreakAppend(line, "\n");
    LineEnds(s);
    NothingContinues();
    TornLine(s, n, "");
    assert line[..n] + "" == line[..n];
    SplitAtBreak(line + "\n");
    assert (line + "\n")[..n] == line[..n];
  }

  /** A line starts and ends with a brace, so a break is strictly inside. */
  lemma LineEnds(s: Aggregate)
    requires ValidAggregate(s)
    ensures var line := EncodeLine(s); |line| >= 3 && line[0] == '{' && line[|line| - 1] == '}'
  {
    hide ValidAggregate, EncodeState, WriteDict, ReadValue;
    LineShape(s);
    WriteObject(EncodeState(s), "");
  }

  lemma SplitAtBreak(text: string)
    requires FirstBreak(text) + 2 < |text|
    ensures |SplitLines(text)| >= 2 && SplitLines(text)[0] == text[..FirstBreak(text)]
  {
  }
}
