/** Every log that crashes and appends can make, and that each append does to it exactly what `LogTail` says. */
module LogView {
  import opened Wrappers
  import opened JsonCut
  import opened State
  import opened StateLines
  import opened LineBreaks
  import opened LogReplay
  import opened LogTail

  /** One line cut off after `n` characters. */
  datatype Piece = Piece(state: Aggregate, n: nat)

  predicate ValidPiece(p: Piece) {
    ValidAggregate(p.state) && 0 < p.n <= |EncodeLine(p.state)| && Unbroken(EncodeLine(p.state)[..p.n])
  }

  function PieceText(p: Piece): string
    requires p.n <= |EncodeLine(p.state)|
  {
    EncodeLine(p.state)[..p.n]
  }

  predicate ValidPieces(ps: seq<Piece>) {
    forall i | 0 <= i < |ps| :: ValidPiece(ps[i])
  }

  /** Cut-off lines written straight after one another. */
  function Glue(ps: seq<Piece>): string
    requires ValidPieces(ps)
  {
    if ps == [] then "" else PieceText(ps[0]) + Glue(ps[1..])
  }

  /** The single piece that is a whole line. */
  predicate IsWholeLine(ps: seq<Piece>) {
    |ps| == 1 && ps[0].n == |EncodeLine(ps[0].state)|
  }

  /**
   * The logs: a good one; a good one and glued pieces; a good one and a bad, ended line; and that with more after it.
   */
  datatype Shape =
    | Good(good: string)
    | Pieces(good: string, pieces: seq<Piece>)
    | BadLine(good: string, bad: string, end: char)
    | Lost(good: string, bad: string, end: char, more: string)

  predicate ValidShape(f: Shape) {
    && Healthy(f.good)
    && (f.Pieces? ==> f.pieces != [] && ValidPieces(f.pieces))
    && (f.BadLine? || f.Lost? ==> Unbroken(f.bad) && DecodeLine(f.bad).NotJson? && IsLineEnd(f.end))
    && (f.Lost? ==> f.more != "")
  }

  function TextOf(f: Shape): string
    requires ValidShape(f)
  {
    match f
    case Good(good) => good
    case Pieces(good, ps) => good + Glue(ps)
    case BadLine(good, bad, end) => good + (bad + [end])
    case Lost(good, bad, end, more) => good + ((bad + [end]) + more)
  }

  function ViewOf(f: Shape): View<map<string, Aggregate>>
    requires ValidShape(f)
  {
    var index := Index(f.good);
    match f
    case Good(_) => View(Clean, index, index)
    case Pieces(_, ps) => View(Torn, if IsWholeLine(ps) then Updated(index, ps[0].state) else index, index)
    case BadLine(_, _, _) => View(Glued, index, index)
    case Lost(_, _, _, _) => View(Unreadable, index, index)
  }

  // ---------------------------------------------------------------- glued pieces never decode

  lemma PieceIsCut(p: Piece, l: string)
    requires ValidPiece(p) && Continues(l)
    ensures Continues(PieceText(p) + l)
    ensures l != "" || p.n < |EncodeLine(p.state)| ==> DecodeLine(PieceText(p) + l).NotJson?
  {
    hide ValidAggregate, Unbroken, Continues, Codec.EncodeState, DecodeLine, Json.CanonicalDict, FirstKeyIsWord, JsonText.Dumps;
    LineShape(p.state);
    PieceContinues(Codec.EncodeState(p.state), p.n, l);
    if l != "" || p.n < |EncodeLine(p.state)| {
      TornLine(p.state, p.n, l);
    }
  }

  lemma {:induction false} GlueContinues(ps: seq<Piece>)
    requires ValidPieces(ps)
    ensures Continues(Glue(ps))
    decreases |ps|
  {
    hide ValidPiece, Continues, EncodeLine;
    if ps == [] {
      NothingContinues();
    } else {
      GlueContinues(ps[1..]);
      PieceStep(ps);
    }
  }

  lemma PieceStep(ps: seq<Piece>)
    requires ValidPieces(ps) && ps != [] && Continues(Glue(ps[1..]))
    ensures Continues(Glue(ps)) && Glue(ps) != ""
    ensures !IsWholeLine(ps) ==> DecodeLine(Glue(ps)).NotJson?
  {
    hide Continues, EncodeLine, DecodeLine, ValidAggregate, Unbroken;
    if |ps| > 1 { GlueNonempty(ps[1..]); }
    PieceIsCut(ps[0], Glue(ps[1..]));
  }

  lemma GlueNonempty(ps: seq<Piece>)
    requires ValidPieces(ps) && ps != []
    ensures Glue(ps) != ""
  {
    hide EncodeLine, ValidAggregate, Unbroken;
    assert ValidPiece(ps[0]);
  }

  lemma {:induction false} GlueUnbroken(ps: seq<Piece>)
    requires ValidPieces(ps)
    ensures Unbroken(Glue(ps))
    decreases |ps|
  {
    hide EncodeLine, ValidAggregate;
    if ps != [] {
      assert ValidPiece(ps[0]);
      GlueUnbroken(ps[1..]);
      UnbrokenConcat(PieceText(ps[0]), Glue(ps[1..]));
    }
  }

  lemma {:induction false} GlueAppend(ps: seq<Piece>, p: Piece)
    requires ValidPieces(ps) && ValidPiece(p)
    ensures ValidPieces(ps + [p]) && Glue(ps + [p]) == Glue(ps) + PieceText(p)
    decreases |ps|
  {
    hide ValidPiece, EncodeLine;
    if ps == [] {
      assert ps + [p] == [p] && [p][1..] == [];
    } else {
      assert (ps + [p])[1..] == ps[1..] + [p];
      GlueAppend(ps[1..], p);
    }
  }

  /** What pieces, ended by a whole or cut-off line, decode to. */
  lemma GlueThenNotJson(ps: seq<Piece>, p: Piece)
    requires ValidPieces(ps) && ps != [] && ValidPiece(p)
    ensures DecodeLine(Glue(ps) + PieceText(p)).NotJson? && Unbroken(Glue(ps) + PieceText(p))
  {
    hide ValidPiece, EncodeLine, DecodeLine, Continues, Unbroken;
    GlueAppend(ps, p);
    GlueContinues((ps + [p])[1..]);
    PieceStep(ps + [p]);
    GlueUnbroken(ps + [p]);
  }

  // ---------------------------------------------------------------- what each shape replays to

  lemma BadThenMore(lines: seq<string>, states: map<string, Aggregate>)
    requires |lines| >= 2 && DecodeLine(lines[0]).NotJson?
    ensures ReplayLines(lines, states) == Failure(ReplayError)
  {
    hide DecodeLine;
  }

  lemma SomeLine(text: string)
    requires text != ""
    ensures |SplitLines(text)| >= 1
  {
  }

  /** The tail says when replay fails, and otherwise `disk` is what it gives. */
  lemma ShapeReplays(f: Shape)
    requires ValidShape(f)
    ensures Replay(TextOf(f)) == if f.Lost? then Failure(ReplayError) else Success(ViewOf(f).disk)
  {
    hide Healthy, DecodeLine, EncodeLine, ValidPiece, Unbroken, SplitLines, ReplayLines, Replay, Index, IsLineEnd;
    match f
    case Good(good) => ReplayAfter(good, "");
    case Pieces(good, ps) => PiecesReplay(good, ps);
    case BadLine(good, bad, end) =>
      ReplayAfter(good, bad + [end]);
      SplitEndedLine(bad, end);
      OneBadLine(bad, Index(good));
    case Lost(good, bad, end, more) => LostReplays(good, bad, end, more);
  }

  lemma PiecesReplay(good: string, ps: seq<Piece>)
    requires Healthy(good) && ValidPieces(ps) && ps != []
    ensures Replay(good + Glue(ps)) == Success(if IsWholeLine(ps) then Updated(Index(good), ps[0].state) else Index(good))
  {
    hide Healthy, DecodeLine, EncodeLine, Unbroken, SplitLines, ReplayLines, Replay, Index, ValidAggregate, Continues;
    ReplayAfter(good, Glue(ps));
    GlueUnbroken(ps);
    GlueNonempty(ps);
    SplitOneLine(Glue(ps));
    if IsWholeLine(ps) {
      assert ValidPiece(ps[0]);
      WholePiece(ps);
      OneDecodedLine(ps[0].state, Index(good));
    } else {
      GlueContinues(ps[1..]);
      PieceStep(ps);
      OneBadLine(Glue(ps), Index(good));
    }
  }

  lemma WholePiece(ps: seq<Piece>)
    requires ValidPieces(ps) && IsWholeLine(ps)
    ensures Glue(ps) == EncodeLine(ps[0].state)
  {
    hide EncodeLine, ValidPiece;
    var line := EncodeLine(ps[0].state);
    assert line[..|line|] == line && line + "" == line;
    assert ps[1..] == [];
  }

  lemma LostReplays(good: string, bad: string, end: char, more: string)
    requires Healthy(good) && Unbroken(bad) && DecodeLine(bad).NotJson? && IsLineEnd(end) && more != ""
    ensures Replay(good + ((bad + [end]) + more)) == Failure(ReplayError)
  {
    hide Healthy, DecodeLine, Unbroken, SplitLines, ReplayLines, Replay, Index;
    ReplayAfter(good, (bad + [end]) + more);
    SplitEndedLine(bad, end);
    EndsWith(bad, end);
    SplitAppend(bad + [end], more);
    SomeLine(more);
    BadThenMore(SplitLines((bad + [end]) + more), Index(good));
  }

  lemma EndsWith(bad: string, end: char)
    requires IsLineEnd(end)
    ensures EndsLine(bad + [end])
  {
    hide IsLineEnd;
  }

  // ---------------------------------------------------------------- one append

  /** How far `n` characters of a line and its line break got. */
  function CutOfLine(line: string, n: nat): Cut {
    var k := FirstBreak(line);
    if n == 0 then Nothing
    else if k == |line| then if n < k then Part else if n == k then WholeLine else Complete
    else if n <= k then Part
    else if n == k + 1 then AtBreak
    else PastBreak
  }

  function CutOf(s: Aggregate, n: nat): Cut {
    CutOfLine(EncodeLine(s), n)
  }

  function WrittenOf(line: string, n: nat): string
    requires n <= |line| + 1
  {
    (line + "\n")[..n]
  }

  function Written(s: Aggregate, n: nat): string
    requires n <= |EncodeLine(s)| + 1
  {
    WrittenOf(EncodeLine(s), n)
  }

  /** The character that ends a line: its first break, or the line break written after it. */
  function EndOf(line: string): char {
    var k := FirstBreak(line);
    if k == |line| then '\n' else line[k]
  }

  /** The shape after an append of `line`, the line of `s`, that stopped after `n` characters. */
  function AppendedLine(f: Shape, s: Aggregate, line: string, n: nat): Shape
    requires ValidShape(f) && n <= |line| + 1
  {
    var k := FirstBreak(line);
    if n == 0 then f
    else
      match f
      case Good(good) =>
        if CutOfLine(line, n).Complete? then Good(good + line + "\n")
        else if n <= k then Pieces(good, [Piece(s, n)])
        else if n == k + 1 then BadLine(good, line[..k], line[k])
        else Lost(good, line[..k], line[k], WrittenOf(line, n)[k + 1..])
      case Pieces(good, ps) =>
        if n <= k then Pieces(good, ps + [Piece(s, n)])
        else if n == k + 1 then BadLine(good, Glue(ps) + line[..k], EndOf(line))
        else Lost(good, Glue(ps) + line[..k], EndOf(line), WrittenOf(line, n)[k + 1..])
      case BadLine(good, bad, end) => Lost(good, bad, end, WrittenOf(line, n))
      case Lost(good, bad, end, more) => Lost(good, bad, end, more + WrittenOf(line, n))
  }

  function Appended(f: Shape, s: Aggregate, n: nat): Shape
    requires ValidShape(f) && n <= |EncodeLine(s)| + 1
  {
    AppendedLine(f, s, EncodeLine(s), n)
  }

  predicate FollowsLine(f: Shape, s: Aggregate, line: string, n: nat)
    requires ValidShape(f) && n <= |line| + 1
  {
    var g := AppendedLine(f, s, line, n);
    && ValidShape(g) && TextOf(g) == TextOf(f) + WrittenOf(line, n)
    && ViewOf(g) == AfterAppend(ViewOf(f), Updated(ViewOf(f).disk, s), CutOfLine(line, n))
  }

  predicate Follows(f: Shape, s: Aggregate, n: nat)
    requires ValidShape(f) && n <= |EncodeLine(s)| + 1
  {
    FollowsLine(f, s, EncodeLine(s), n)
  }

  /** The pieces of a written text around its first break. */
  lemma WrittenPieces(s: Aggregate, n: nat)
    requires ValidAggregate(s) && 0 < n <= |EncodeLine(s)| + 1
    ensures var line, k := EncodeLine(s), FirstBreak(EncodeLine(s));
      && 0 < k && Unbroken(line[..k])
      && (n <= k ==> WrittenOf(line, n) == line[..n] && ValidPiece(Piece(s, n)))
      && (n > k ==> WrittenOf(line, n) == line[..k] + ([EndOf(line)] + WrittenOf(line, n)[k + 1..]))
      && (n == k + 1 ==> WrittenOf(line, n) == line[..k] + [EndOf(line)])
      && (k < |line| ==> IsLineEnd(line[k]) && ValidPiece(Piece(s, k)))
  {
    hide ValidAggregate, EncodeLine, Unbroken;
    var line, k := EncodeLine(s), FirstBreak(EncodeLine(s));
    LineEnds(s);
    FirstIsNoBreak(line);
    if n <= k {
      UnbrokenPrefix(line[..k], n);
      assert line[..k][..n] == line[..n];
    }
    if k < |line| {
      BreaksAreEnds(s, k);
      assert line[..k] == PieceText(Piece(s, k));
    }
  }

  lemma FirstIsNoBreak(line: string)
    requires line != "" && line[0] == '{'
    ensures FirstBreak(line) > 0
  {
    assert !IsLineBreak('{');
  }

  /** No carriage return is ever written unescaped. */
  lemma BreaksAreEnds(s: Aggregate, k: nat)
    requires ValidAggregate(s) && k < |EncodeLine(s)| && IsLineBreak(EncodeLine(s)[k])
    ensures IsLineEnd(EncodeLine(s)[k])
  {
    hide ValidAggregate, Codec.EncodeState;
    StateCanonical(s);
    NoReturnWritten(Json.Obj(Codec.EncodeState(s)));
  }

  lemma GoodFollows(good: string, s: Aggregate, n: nat)
    requires Healthy(good) && ValidAggregate(s) && 0 < n <= |EncodeLine(s)| + 1
    ensures Follows(Good(good), s, n)
  {
    hide Healthy, ValidAggregate, EncodeLine, Unbroken, DecodeLine, FirstBreak, IsLineEnd, CleanState, FollowsLine, WrittenOf;
    var line, k := EncodeLine(s), FirstBreak(EncodeLine(s));
    WrittenPieces(s, n);
    if n <= k {
      OnePieceFollows(good, s, line, n);
    } else if k == |line| {
      WholeFollows(good, s);
    } else {
      CutAtBreak(s, k);
      if n == k + 1 {
        BreakFollows(good, s, line, k);
      } else {
        PastBreakFollows(good, s, line, n, k);
      }
    }
  }

  lemma WholeFollows(good: string, s: Aggregate)
    requires Healthy(good) && ValidAggregate(s) && FirstBreak(EncodeLine(s)) == |EncodeLine(s)| > 0
    ensures Follows(Good(good), s, |EncodeLine(s)| + 1)
  {
    hide Healthy, ValidAggregate, EncodeLine, CleanState, FirstBreak, Index, Unbroken;
    var line := EncodeLine(s);
    assert line[..|line|] == line;
    UnbrokenWhole(line);
    LineUnbrokenIffClean(s);
    AppendReplays(good, s);
    assert WrittenOf(line, |line| + 1) == line + "\n";
    Regroup(good, line, "\n");
  }

  lemma UnbrokenWhole(line: string)
    requires FirstBreak(line) == |line|
    ensures Unbroken(line)
  {
    assert line[..|line|] == line;
  }

  /** Where a line that holds a break stops at it or past it. */
  lemma BreakShape(good: string, s: Aggregate, line: string, n: nat, k: nat)
    requires Healthy(good) && k == FirstBreak(line) < |line| && k < n <= |line| + 1
    ensures CutOfLine(line, n) == if n == k + 1 then AtBreak else PastBreak
    ensures AppendedLine(Good(good), s, line, n) ==
      if n == k + 1 then BadLine(good, line[..k], line[k]) else Lost(good, line[..k], line[k], WrittenOf(line, n)[k + 1..])
  {
    hide Healthy, FirstBreak, WrittenOf;
  }

  lemma BreakViews(good: string, bad: string, end: char, more: string, saved: map<string, Aggregate>)
    requires ValidShape(Good(good)) && ValidShape(BadLine(good, bad, end))
    ensures ViewOf(BadLine(good, bad, end)) == AfterAppend(ViewOf(Good(good)), saved, AtBreak)
    ensures more != "" ==> ViewOf(Lost(good, bad, end, more)) == AfterAppend(ViewOf(Good(good)), saved, PastBreak)
  {
    hide Healthy, DecodeLine, Unbroken, IsLineEnd, Index;
  }

  /** The text before a line's first break, when the line is cut there. */
  predicate CutHere(line: string, k: nat) {
    && 0 < k == FirstBreak(line) < |line|
    && Unbroken(line[..k]) && IsLineEnd(line[k]) && DecodeLine(line[..k]).NotJson?
  }

  lemma BreakFollows(good: string, s: Aggregate, line: string, k: nat)
    requires Healthy(good) && CutHere(line, k) && WrittenOf(line, k + 1) == line[..k] + [line[k]]
    ensures FollowsLine(Good(good), s, line, k + 1)
  {
    hide Healthy, Unbroken, DecodeLine, FirstBreak, IsLineEnd, Index, AppendedLine, CutOfLine, WrittenOf, AfterAppend, ViewOf;
    BreakShape(good, s, line, k + 1, k);
    BreakViews(good, line[..k], line[k], "", Updated(ViewOf(Good(good)).disk, s));
  }

  lemma PastBreakFollows(good: string, s: Aggregate, line: string, n: nat, k: nat)
    requires Healthy(good) && CutHere(line, k) && k + 1 < n <= |line| + 1
    requires WrittenOf(line, n) == line[..k] + ([line[k]] + WrittenOf(line, n)[k + 1..])
    ensures FollowsLine(Good(good), s, line, n)
  {
    hide Healthy, Unbroken, DecodeLine, FirstBreak, IsLineEnd, Index, AppendedLine, CutOfLine, AfterAppend, ViewOf;
    var more := WrittenOf(line, n)[k + 1..];
    assert more != "";
    hide WrittenOf;
    BreakShape(good, s, line, n, k);
    BreakViews(good, line[..k], line[k], more, Updated(ViewOf(Good(good)).disk, s));
    Regroup(line[..k], [line[k]], more);
  }

  lemma OneGlued(p: Piece)
    requires ValidPiece(p)
    ensures ValidPieces([p]) && Glue([p]) == PieceText(p)
  {
    hide EncodeLine, ValidAggregate, Unbroken;
    assert [p][1..] == [];
    assert PieceText(p) + "" == PieceText(p);
  }

  lemma PieceShape(good: string, s: Aggregate, line: string, n: nat)
    requires Healthy(good) && 0 < n <= FirstBreak(line)
    ensures CutOfLine(line, n) == if n == |line| then WholeLine else Part
    ensures AppendedLine(Good(good), s, line, n) == Pieces(good, [Piece(s, n)])
  {
    hide Healthy, FirstBreak, WrittenOf;
  }

  lemma PieceViews(good: string, p: Piece)
    requires ValidShape(Good(good)) && ValidShape(Pieces(good, [p]))
    ensures
      var v := ViewOf(Good(good));
      ViewOf(Pieces(good, [p])) ==
        AfterAppend(v, Updated(v.disk, p.state), if p.n == |EncodeLine(p.state)| then WholeLine else Part)
  {
    hide Healthy, ValidPieces, EncodeLine, Index;
  }

  lemma OnePieceFollows(good: string, s: Aggregate, line: string, n: nat)
    requires Healthy(good) && 0 < n <= FirstBreak(line) && ValidPiece(Piece(s, n)) && line == EncodeLine(s)
    requires WrittenOf(line, n) == line[..n]
    ensures FollowsLine(Good(good), s, line, n)
  {
    hide Healthy, ValidPiece, EncodeLine, FirstBreak, Index, AppendedLine, CutOfLine, WrittenOf, AfterAppend, ViewOf, Glue, ValidPieces;
    OneGlued(Piece(s, n));
    PieceShape(good, s, line, n);
    PieceViews(good, Piece(s, n));
  }

  lemma CutAtBreak(s: Aggregate, k: nat)
    requires ValidAggregate(s) && ValidPiece(Piece(s, k)) && k < |EncodeLine(s)|
    ensures DecodeLine(EncodeLine(s)[..k]).NotJson?
  {
    hide ValidAggregate, EncodeLine, Unbroken, DecodeLine, Continues;
    NothingContinues();
    PieceIsCut(Piece(s, k), "");
    assert EncodeLine(s)[..k] + "" == EncodeLine(s)[..k];
  }

  lemma RegroupEnd(good: string, x: string, y: string, end: string)
    ensures (good + x) + (y + end) == good + ((x + y) + end)
  {
  }

  lemma RegroupBreak(good: string, x: string, y: string, c: char, more: string)
    ensures (good + x) + (y + ([c] + more)) == good + (((x + y) + [c]) + more)
  {
  }

  lemma PiecesFollow(good: string, ps: seq<Piece>, s: Aggregate, n: nat)
    requires Healthy(good) && ValidPieces(ps) && ps != [] && ValidAggregate(s) && 0 < n <= |EncodeLine(s)| + 1
    ensures Follows(Pieces(good, ps), s, n)
  {
    hide Healthy, ValidAggregate, EncodeLine, Unbroken, DecodeLine, FirstBreak, IsLineEnd, ValidPiece, Glue, FollowsLine, WrittenOf;
    var line, k := EncodeLine(s), FirstBreak(EncodeLine(s));
    WrittenPieces(s, n);
    if n <= k {
      MorePiecesFollow(good, ps, s, line, n);
    } else {
      KthPiece(s, k);
      GlueThenNotJson(ps, Piece(s, k));
      NewlineEnds();
      GlueBreakFollows(good, ps, s, line, n);
    }
  }

  lemma MoreShape(good: string, ps: seq<Piece>, s: Aggregate, line: string, n: nat)
    requires ValidShape(Pieces(good, ps)) && 0 < n <= FirstBreak(line)
    ensures CutOfLine(line, n) == if n == |line| then WholeLine else Part
    ensures AppendedLine(Pieces(good, ps), s, line, n) == Pieces(good, ps + [Piece(s, n)])
  {
    hide Healthy, ValidPieces, FirstBreak, WrittenOf, Glue;
  }

  lemma MoreViews(good: string, ps: seq<Piece>, p: Piece, saved: map<string, Aggregate>)
    requires ValidShape(Pieces(good, ps)) && ValidShape(Pieces(good, ps + [p]))
    ensures ViewOf(Pieces(good, ps + [p])) == AfterAppend(ViewOf(Pieces(good, ps)), saved, WholeLine)
    ensures ViewOf(Pieces(good, ps + [p])) == AfterAppend(ViewOf(Pieces(good, ps)), saved, Part)
  {
    hide Healthy, ValidPieces, EncodeLine, Index;
    assert |ps + [p]| >= 2;
  }

  lemma MorePiecesFollow(good: string, ps: seq<Piece>, s: Aggregate, line: string, n: nat)
    requires Healthy(good) && ValidPieces(ps) && ps != [] && 0 < n <= FirstBreak(line) && line == EncodeLine(s)
    requires ValidPiece(Piece(s, n)) && WrittenOf(line, n) == line[..n]
    ensures FollowsLine(Pieces(good, ps), s, line, n)
  {
    hide Healthy, ValidPiece, EncodeLine, FirstBreak, Index, AppendedLine, CutOfLine, WrittenOf, AfterAppend, ViewOf, Glue, ValidPieces;
    GlueAppend(ps, Piece(s, n));
    Regroup(good, Glue(ps), line[..n]);
    MoreShape(good, ps, s, line, n);
    MoreViews(good, ps, Piece(s, n), Updated(ViewOf(Pieces(good, ps)).disk, s));
  }

  lemma GlueBreakShape(good: string, ps: seq<Piece>, s: Aggregate, line: string, n: nat)
    requires ValidShape(Pieces(good, ps)) && FirstBreak(line) < n <= |line| + 1
    ensures
      var k, bad := FirstBreak(line), Glue(ps) + line[..FirstBreak(line)];
      && (n == k + 1 ==> CutOfLine(line, n) in {Complete, AtBreak})
      && (n > k + 1 ==> CutOfLine(line, n) == PastBreak)
      && AppendedLine(Pieces(good, ps), s, line, n) ==
         if n == k + 1 then BadLine(good, bad, EndOf(line)) else Lost(good, bad, EndOf(line), WrittenOf(line, n)[k + 1..])
  {
    hide Healthy, ValidPieces, FirstBreak, WrittenOf, Glue;
  }

  lemma GlueBreakViews(good: string, ps: seq<Piece>, bad: string, end: char, more: string, saved: map<string, Aggregate>, cut: Cut)
    requires ValidShape(Pieces(good, ps)) && ValidShape(BadLine(good, bad, end))
    ensures cut in {Complete, AtBreak} ==> ViewOf(BadLine(good, bad, end)) == AfterAppend(ViewOf(Pieces(good, ps)), saved, cut)
    ensures more != "" ==> ViewOf(Lost(good, bad, end, more)) == AfterAppend(ViewOf(Pieces(good, ps)), saved, PastBreak)
  {
    hide Healthy, ValidPieces, DecodeLine, Unbroken, IsLineEnd, Index, EncodeLine;
  }

  lemma GlueBreakFollows(good: string, ps: seq<Piece>, s: Aggregate, line: string, n: nat)
    requires ValidShape(Pieces(good, ps)) && FirstBreak(line) < n <= |line| + 1
    requires ValidShape(BadLine(good, Glue(ps) + line[..FirstBreak(line)], EndOf(line)))
    requires
      var k, x := FirstBreak(line), WrittenOf(line, n);
      && x == line[..k] + ([EndOf(line)] + x[k + 1..])
      && (n == k + 1 ==> x == line[..k] + [EndOf(line)])
    ensures FollowsLine(Pieces(good, ps), s, line, n)
  {
    hide Healthy, Unbroken, DecodeLine, FirstBreak, IsLineEnd, ValidPieces, Glue, Index, AppendedLine, CutOfLine, AfterAppend, ViewOf, EndOf;
    var k, end := FirstBreak(line), EndOf(line);
    var more := WrittenOf(line, n)[k + 1..];
    assert n > k + 1 ==> more != "";
    hide WrittenOf;
    GlueBreakShape(good, ps, s, line, n);
    GlueBreakViews(good, ps, Glue(ps) + line[..k], end, more, Updated(ViewOf(Pieces(good, ps)).disk, s), CutOfLine(line, n));
    RegroupEnd(good, Glue(ps), line[..k], [end]);
    RegroupBreak(good, Glue(ps), line[..k], end, more);
  }

  lemma NewlineEnds()
    ensures IsLineEnd('\n')
  {
  }

  lemma KthPiece(s: Aggregate, k: nat)
    requires ValidAggregate(s) && k == FirstBreak(EncodeLine(s)) > 0
    ensures ValidPiece(Piece(s, k)) && PieceText(Piece(s, k)) == EncodeLine(s)[..k]
  {
    hide ValidAggregate, EncodeLine;
  }

  /** Every append, complete or cut off anywhere, on every log, whatever characters its strings hold. */
  lemma AppendFollows(f: Shape, s: Aggregate, n: nat)
    requires ValidShape(f) && ValidAggregate(s) && n <= |EncodeLine(s)| + 1
    ensures Follows(f, s, n)
  {
    hide ValidAggregate, EncodeLine, Healthy, FirstBreak, DecodeLine, Unbroken, ValidPiece, IsLineEnd, Index, Glue;
    if n == 0 {
      assert TextOf(f) + Written(s, n) == TextOf(f);
    } else {
      match f
      case Good(good) => GoodFollows(good, s, n);
      case Pieces(good, ps) => PiecesFollow(good, ps, s, n);
      case BadLine(good, bad, end) => Regroup(good, bad + [end], Written(s, n));
      case Lost(good, bad, end, more) =>
        Regroup(good, (bad + [end]) + more, Written(s, n));
        Regroup(bad + [end], more, Written(s, n));
    }
  }

  // ---------------------------------------------------------------- whole histories

  /** One append attempt: whose state, and how many characters of it reached the file. */
  datatype Attempt = Attempt(state: Aggregate, reached: nat)

  predicate ValidAttempt(a: Attempt) {
    ValidAggregate(a.state) && a.reached <= |EncodeLine(a.state)| + 1
  }

  /** All of it when more is claimed than there is. */
  function Reached(s: Aggregate, n: nat): string {
    if n <= |EncodeLine(s)| + 1 then Written(s, n) else EncodeLine(s) + "\n"
  }

  function TextAfter(text: string, history: seq<Attempt>): string
    decreases |history|
  {
    if history == [] then text
    else TextAfter(text + Reached(history[0].state, history[0].reached), history[1..])
  }

  function ViewAfter(v: View<map<string, Aggregate>>, history: seq<Attempt>): View<map<string, Aggregate>>
    decreases |history|
  {
    if history == [] then v
    else
      var (s, n) := (history[0].state, history[0].reached);
      ViewAfter(AfterAppend(v, Updated(v.disk, s), CutOf(s, n)), history[1..])
  }

  /** After any history of complete and cut-off appends the file replays to exactly what the tail rules say. */
  lemma {:induction false} LogFollowsTail(f: Shape, history: seq<Attempt>)
    requires ValidShape(f) && forall i | 0 <= i < |history| :: ValidAttempt(history[i])
    ensures var v := ViewAfter(ViewOf(f), history);
      Replay(TextAfter(TextOf(f), history)) == if v.tail.Unreadable? then Failure(ReplayError) else Success(v.disk)
    decreases |history|
  {
    hide ValidAggregate, EncodeLine, ValidShape, TextOf, ViewOf, Replay, WrittenOf, CutOfLine, AppendedLine;
    if history == [] {
      ShapeReplays(f);
      LostIsUnreadable(f);
    } else {
      var s, n := history[0].state, history[0].reached;
      AppendFollows(f, s, n);
      LogFollowsTail(Appended(f, s, n), history[1..]);
    }
  }

  lemma LostIsUnreadable(f: Shape)
    requires ValidShape(f)
    ensures ViewOf(f).tail.Unreadable? <==> f.Lost?
    ensures ViewOf(f).tail.Clean? <==> f.Good?
  {
    hide ValidShape, Index, EncodeLine;
  }

  /** The part of a log one instance sees. */
  function Seen(v: View<map<string, Aggregate>>, id: string): View<Option<Aggregate>> {
    View(v.tail, Of(v.disk, id), Of(v.kept, id))
  }

  function Of(states: map<string, Aggregate>, id: string): Option<Aggregate> {
    if id in states then Some(states[id]) else None
  }

  /** The tail rules hold for one instance as they hold for the whole log: another instance's line changes only the tail. */
  lemma SeenFollows(v: View<map<string, Aggregate>>, s: Aggregate, cut: Cut, id: string)
    ensures Seen(AfterAppend(v, Updated(v.disk, s), cut), id) ==
      AfterAppend(Seen(v, id), if s.instance == id then Some(s) else Seen(v, id).disk, cut)
  {
  }

  /** A torn log can be mended without changing what it replays to. */
  lemma MendIsPossible(f: Shape) returns (g: Shape)
    requires ValidShape(f) && f.Pieces?
    ensures ValidShape(g) && g.Good? && ViewOf(g) == Mended(ViewOf(f))
  {
    hide Healthy, ValidAggregate, EncodeLine, Unbroken, Index, CleanState;
    g := Good(f.good);
    if IsWholeLine(f.pieces) {
      var p := f.pieces[0];
      assert ValidPiece(p);
      assert EncodeLine(p.state)[..p.n] == EncodeLine(p.state);
      LineUnbrokenIffClean(p.state);
      AppendReplays(f.good, p.state);
      g := Good(f.good + EncodeLine(p.state) + "\n");
    }
  }

  /** On every log, the next save is durable exactly when every line before it is complete and decodes. */
  lemma NextSaveDurableIffHealthy(f: Shape, s: Aggregate)
    requires ValidShape(f) && !f.Lost? && ValidAggregate(s) && CleanState(s)
    requires s.instance in Index(f.good) ==> Index(f.good)[s.instance] != s
    ensures
      var replayed := Replay(TextOf(f));
      && replayed.Success?
      && (Replay(TextOf(f) + EncodeLine(s) + "\n") == Success(Updated(replayed.value, s)) <==> Healthy(TextOf(f)))
    ensures f.Pieces? ==> !EndsLine(TextOf(f))
  {
    hide Healthy, ValidAggregate, EncodeLine, Unbroken, CleanState, Replay, TextOf, AppendedLine, DecodeLine, FirstBreak, EndsLine;
    var n := |EncodeLine(s)| + 1;
    ShapeReplays(f);
    AppendFollows(f, s, n);
    ShapeReplays(Appended(f, s, n));
    assert Written(s, n) == EncodeLine(s) + "\n";
    Regroup(TextOf(f), EncodeLine(s), "\n");
    CompleteCut(s);
    LostIsUnreadable(f);
    LostIsUnreadable(Appended(f, s, n));
    GoodText(f);
    if f.Pieces? { PiecesDoNotEnd(f); }
  }

  lemma GoodText(f: Shape)
    requires ValidShape(f)
    ensures f.Good? <==> Healthy(TextOf(f))
  {
    hide Healthy, EndsLine, EncodeLine, DecodeLine, ValidPiece, Unbroken, Glue, IsLineEnd;
    match f
    case Good(_) =>
    case Pieces(_, _) => PiecesDoNotEnd(f); HealthyEnds(TextOf(f));
    case BadLine(good, bad, end) =>
      EndedBadLine(good, bad, end);
    case Lost(good, bad, end, more) =>
      LostReplays(good, bad, end, more);
      HealthyReplays(TextOf(f));
  }

  lemma HealthyEnds(text: string)
    ensures Healthy(text) ==> EndsLine(text)
  {
  }

  lemma HealthyReplays(text: string)
    ensures Healthy(text) ==> Replay(text).Success?
  {
    hide Healthy, Replay;
    if Healthy(text) { ReplayAfter(text, ""); }
  }

  lemma EndedBadLine(good: string, bad: string, end: char)
    requires Healthy(good) && Unbroken(bad) && DecodeLine(bad).NotJson? && IsLineEnd(end)
    ensures !Healthy(good + (bad + [end]))
  {
    hide DecodeLine, Unbroken, SplitLines;
    SplitAppend(good, bad + [end]);
    SplitEndedLine(bad, end);
    var lines := SplitLines(good + (bad + [end]));
    assert lines[|lines| - 1] == bad;
  }

  lemma CompleteCut(s: Aggregate)
    requires ValidAggregate(s) && CleanState(s)
    ensures CutOf(s, |EncodeLine(s)| + 1) == Complete
  {
    hide ValidAggregate, CleanState, EncodeLine;
    LineUnbrokenIffClean(s);
    UnbrokenHasNoBreak(EncodeLine(s));
  }

  lemma PiecesDoNotEnd(f: Shape)
    requires ValidShape(f) && f.Pieces?
    ensures !EndsLine(TextOf(f))
  {
    hide Healthy, EncodeLine, ValidPiece;
    GlueUnbroken(f.pieces);
    GlueNonempty(f.pieces);
    var x := Glue(f.pieces);
    assert TextOf(f)[|TextOf(f)| - 1] == x[|x| - 1];
  }
}
