/** Replay against a definition that reads the log backwards: which logs are refused, and what every other one gives. */
module ReplayLaws {
  import opened Wrappers
  import opened State
  import opened StateLines
  import opened LogReplay
  import opened Json
  import opened JsonText
  import opened Codec
  import opened LineBreaks

  /** A line that is no acceptable record, or a syntax error that is not the last line. */
  predicate Unreadable(lines: seq<string>) {
    exists i | 0 <= i < |lines| :: DecodeLine(lines[i]).Refused? || (DecodeLine(lines[i]).NotJson? && i < |lines| - 1)
  }

  /** The last line that holds a state of this instance. */
  function LastOf(lines: seq<string>, id: string): Option<Aggregate> {
    if lines == [] then None
    else
      var last := DecodeLine(lines[|lines| - 1]);
      if last.Decoded? && last.state.instance == id then Some(last.state) else LastOf(lines[..|lines| - 1], id)
  }

  lemma {:induction false} LastOfFront(lines: seq<string>, id: string)
    requires lines != []
    ensures LastOf(lines, id) == if LastOf(lines[1..], id).Some? then LastOf(lines[1..], id) else LastOf(lines[..1], id)
    decreases |lines|
  {
    hide DecodeLine;
    if |lines| == 1 {
      assert lines[..1] == lines;
    } else {
      var front := lines[..|lines| - 1];
      assert lines[1..][..|lines| - 2] == front[1..] && front[..1] == lines[..1];
      assert lines[1..][|lines| - 2] == lines[|lines| - 1];
      LastOfFront(front, id);
    }
  }

  lemma UnreadableFront(lines: seq<string>)
    requires lines != []
    ensures Unreadable(lines) <==>
      DecodeLine(lines[0]).Refused? || (DecodeLine(lines[0]).NotJson? && |lines| > 1) || Unreadable(lines[1..])
  {
    hide DecodeLine;
    if Unreadable(lines) {
      var i :| 0 <= i < |lines| && (DecodeLine(lines[i]).Refused? || (DecodeLine(lines[i]).NotJson? && i < |lines| - 1));
      if i > 0 { assert lines[1..][i - 1] == lines[i]; }
    }
    if Unreadable(lines[1..]) {
      var i :| 0 <= i < |lines| - 1 && (DecodeLine(lines[1..][i]).Refused? || (DecodeLine(lines[1..][i]).NotJson? && i < |lines| - 2));
      assert lines[1..][i] == lines[i + 1];
    }
  }

  lemma {:induction false} LinesReplay(lines: seq<string>, states: map<string, Aggregate>, id: string)
    ensures var r := ReplayLines(lines, states);
      && (r == Failure(ReplayError) <==> Unreadable(lines)) && (r.Failure? ==> r.error == ReplayError)
      && (r.Success? ==>
            var last := LastOf(lines, id);
            if last.Some? then id in r.value && r.value[id] == last.value
            else (id in r.value <==> id in states) && (id in states ==> r.value[id] == states[id]))
    decreases |lines|
  {
    hide DecodeLine, Unreadable;
    if lines == [] {
      NothingIsReadable();
    } else {
      UnreadableFront(lines);
      LastOfFront(lines, id);
      OneLine(lines[0], id);
      assert lines[..1] == [lines[0]];
      match DecodeLine(lines[0])
      case Decoded(s) => LinesReplay(lines[1..], states[s.instance := s], id);
      case NotJson => if |lines| == 1 { assert lines[1..] == []; NothingIsReadable(); }
      case Refused =>
    }
  }

  lemma NothingIsReadable()
    ensures !Unreadable([])
  {
  }

  lemma OneLine(line: string, id: string)
    ensures LastOf([line], id) ==
      if DecodeLine(line).Decoded? && DecodeLine(line).state.instance == id then Some(DecodeLine(line).state) else None
  {
    hide DecodeLine;
    assert [line][..0] == [];
  }

  /** A log is refused exactly for those lines; every other one gives each instance the state of its last line, and no more. */
  lemma ReplayIsLastLineOfEach(text: string, id: string)
    ensures Replay(text).Failure? <==> Unreadable(SplitLines(text))
    ensures Replay(text).Success? ==>
      (if id in Replay(text).value then Some(Replay(text).value[id]) else None) == LastOf(SplitLines(text), id)
  {
    hide DecodeLine, SplitLines, Unreadable, LastOf;
    LinesReplay(SplitLines(text), map[], id);
  }

  /** After a good log, a record that is valid JSON and not acceptable fails the replay, even as an unended last line. */
  lemma UnacceptableRecordFailsReplay(good: string, j: Json)
    requires Healthy(good) && Canonical(j) && Unbroken(Dumps(j)) && DecodeEnvelope(j).None?
    ensures Replay(good + Dumps(j)) == Failure(ReplayError) && Replay(good + (Dumps(j) + "\n")) == Failure(ReplayError)
  {
    hide Healthy, Canonical, Unbroken, Dumps, Loads, DecodeEnvelope, SplitLines, Index;
    LoadsDumps(j);
    NothingLoadsNothing();
    SplitOneLine(Dumps(j));
    ReplayAfter(good, Dumps(j));
    ReplayAfter(good, Dumps(j) + "\n");
  }

  lemma NothingLoadsNothing()
    ensures Loads("").None?
  {
  }
}
