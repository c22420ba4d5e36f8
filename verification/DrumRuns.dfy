/** Any sequence of saves: every drum reads back the pattern it was saved with last. */
module DrumRuns {
  import opened Wrappers
  import opened TextTools
  import opened DrumPattern
  import opened DrumSpans
  import opened DrumText
  import opened DrumBlock
  import opened DrumRoundTrip

  /** What a declaration is made of: lines of its own, and the blocks of drums saved so far. */
  datatype Piece = Line(text: string) | Saved(save: Save)

  /** What the editor is asked to save. */
  datatype Save = Save(drum: string, steps: nat, words: seq<nat>, names: seq<string>)

  function BlockOfSave(t: Style, v: Save): seq<string> {
    Formatted(t, v.drum, v.steps, v.words, v.names)
  }

  function BlockLines(t: Style, v: Save): seq<string> {
    Indented(BlockOfSave(t, v))
  }

  function PieceLines(t: Style, p: Piece): seq<string> {
    match p
    case Line(text) => [text]
    case Saved(v) => BlockLines(t, v)
  }

  function LinesOf(t: Style, pieces: seq<Piece>): seq<string> {
    if pieces == [] then [] else PieceLines(t, pieces[0]) + LinesOf(t, pieces[1..])
  }

  /** A line that is no drum's marker. */
  ghost predicate NoMarker(t: Style, line: string) {
    forall drum :: !IsMarker(t, drum, line)
  }

  /** A pattern the editor can save, no line of whose block closes a section. */
  ghost predicate Savable(t: Style, v: Save) {
    && Printable(t, v.drum, v.words, v.names)
    && forall k :: 0 <= k < |BlockLines(t, v)| ==> !t.closes(BlockLines(t, v)[k])
  }

  ghost predicate Good(t: Style, p: Piece) {
    match p
    case Line(text) => NoMarker(t, text)
    case Saved(v) => Savable(t, v)
  }

  predicate IsFor(p: Piece, drum: string) {
    p.Saved? && p.save.drum == drum
  }

  /** At most one block for each drum. */
  ghost predicate Tidy(t: Style, pieces: seq<Piece>) {
    && (forall i :: 0 <= i < |pieces| ==> Good(t, pieces[i]))
    && (forall i, j :: 0 <= i < j < |pieces| && pieces[i].Saved? ==> !IsFor(pieces[j], pieces[i].save.drum))
  }

  /** The text after a sequence of saves. */
  function SaveAll(t: Style, declaration: string, saves: seq<Save>): string
    decreases |saves|
  {
    if saves == [] then declaration
    else SaveAll(t, Merged(t, declaration, saves[0].drum, BlockOfSave(t, saves[0])), saves[1..])
  }

  // ----- Lines of pieces

  lemma {:induction false} LinesAppend(t: Style, a: seq<Piece>, b: seq<Piece>)
    ensures LinesOf(t, a + b) == LinesOf(t, a) + LinesOf(t, b)
  {
    hide PieceLines;
    if a == [] {
      assert a + b == b;
    } else {
      var first := PieceLines(t, a[0]);
      LinesAppend(t, a[1..], b);
      assert (a + b)[0] == a[0] && (a + b)[1..] == a[1..] + b;
      assert first + (LinesOf(t, a[1..]) + LinesOf(t, b)) == first + LinesOf(t, a[1..]) + LinesOf(t, b);
    }
  }

  lemma LinesOne(t: Style, p: Piece)
    ensures LinesOf(t, [p]) == PieceLines(t, p)
  {
    assert [p][1..] == [];
  }

  /** The lines of a declaration around one of its pieces. */
  lemma LinesAround(t: Style, pieces: seq<Piece>, i: nat)
    requires i < |pieces|
    ensures LinesOf(t, pieces) == LinesOf(t, pieces[..i]) + PieceLines(t, pieces[i]) + LinesOf(t, pieces[i + 1..])
  {
    hide PieceLines, LinesOf;
    assert pieces == pieces[..i] + ([pieces[i]] + pieces[i + 1..]);
    LinesAppend(t, pieces[..i], [pieces[i]] + pieces[i + 1..]);
    LinesAppend(t, [pieces[i]], pieces[i + 1..]);
    LinesOne(t, pieces[i]);
  }

  function LinePieces(lines: seq<string>): (pieces: seq<Piece>)
    ensures |pieces| == |lines| && forall k :: 0 <= k < |lines| ==> pieces[k] == Line(lines[k])
  {
    seq(|lines|, k requires 0 <= k < |lines| => Line(lines[k]))
  }

  lemma {:induction false} LinesOfLines(t: Style, lines: seq<string>)
    ensures LinesOf(t, LinePieces(lines)) == lines
  {
    if lines != [] {
      LinesOfLines(t, lines[1..]);
      assert LinePieces(lines)[1..] == LinePieces(lines[1..]);
    }
  }

  // ----- Whose markers the lines hold

  /** The lines of pieces that hold no block of a drum hold no marker of it. */
  lemma {:induction false} OthersUnmarked(t: Style, pieces: seq<Piece>, drum: string)
    requires forall i :: 0 <= i < |pieces| ==> Good(t, pieces[i]) && !IsFor(pieces[i], drum)
    ensures Unmarked(t, drum, LinesOf(t, pieces))
  {
    hide Good, Unmarked, IsFor, PieceLines;
    if pieces == [] {
      NothingUnmarked(t, drum);
    } else {
      OtherUnmarked(t, pieces[0], drum);
      OthersUnmarked(t, pieces[1..], drum);
      UnmarkedBoth(t, drum, PieceLines(t, pieces[0]), LinesOf(t, pieces[1..]));
    }
  }

  lemma OtherUnmarked(t: Style, p: Piece, drum: string)
    requires Good(t, p) && !IsFor(p, drum)
    ensures Unmarked(t, drum, PieceLines(t, p))
  {
    hide IsMarker, Printable, Indented, Formatted;
    if p.Saved? { BlockIsForeign(t, p.save.drum, p.save.steps, p.save.words, p.save.names, drum); }
  }

  lemma UnmarkedBoth(t: Style, drum: string, a: seq<string>, b: seq<string>)
    requires Unmarked(t, drum, a) && Unmarked(t, drum, b)
    ensures Unmarked(t, drum, a + b)
  {
    hide IsMarker;
  }

  lemma UnmarkedSpan(t: Style, drum: string, lines: seq<string>)
    requires Unmarked(t, drum, lines)
    ensures Span(t, drum, lines, 0, None) == None
  {
    hide Unmarked, Span;
    SpanUnmarked(t, drum, lines, [], 0, None);
    assert lines + [] == lines;
    SpanOfNothing(t, drum, |lines|, None);
  }

  // ----- Reading a saved drum

  /** Where the block of piece `i` stands, and that it is the one found for its drum. */
  lemma PieceFound(t: Style, pieces: seq<Piece>, i: nat)
    requires Tidy(t, pieces) && i < |pieces| && pieces[i].Saved?
    ensures var v, before, block := pieces[i].save, LinesOf(t, pieces[..i]), BlockLines(t, pieces[i].save);
      && LinesOf(t, pieces) == before + block + LinesOf(t, pieces[i + 1..]) && |block| >= 2
      && Span(t, v.drum, before, 0, None) == None
      && Span(t, v.drum, LinesOf(t, pieces), 0, None) == Some((|before|, |before| + |block| - 1))
  {
    hide LinesOf, BlockLines, Span, Unmarked, AllInner, Begin, End, Strip, Printable, NoMarker;
    var v := pieces[i].save;
    assert Good(t, pieces[i]);
    forall k | 0 <= k < |pieces[..i]| ensures Good(t, pieces[..i][k]) && !IsFor(pieces[..i][k], v.drum) {
      assert pieces[..i][k] == pieces[k];
    }
    OthersUnmarked(t, pieces[..i], v.drum);
    UnmarkedSpan(t, v.drum, LinesOf(t, pieces[..i]));
    LinesAround(t, pieces, i);
    BlockEnds(t, v);
    BlockFound(t, v.drum, LinesOf(t, pieces[..i]), BlockLines(t, v), LinesOf(t, pieces[i + 1..]));
  }

  lemma BlockEnds(t: Style, v: Save)
    requires Savable(t, v)
    ensures var block := BlockLines(t, v);
      && AllUnbroken(t, block) && |block| >= 2 && Sane(t)
      && Strip(t.space, block[0]) == Begin(v.drum) && Strip(t.space, block[|block| - 1]) == End(v.drum)
      && Unmarked(t, v.drum, block[1..|block| - 1])
  {
    hide Indented, Formatted, AllInner, Unmarked, Strip, Begin, End, AllUnbroken;
    BlockUnbroken(t, v.drum, v.steps, v.words, v.names);
    var block := BlockLines(t, v);
    InnerUnmarked(t, v.drum, block[1..|block| - 1]);
  }

  function PatternOf(t: Style, v: Save): Pattern {
    Pattern(Clamped(v.steps), v.words, Stripped(t, v.names))
  }

  /** Every block of a tidy declaration reads back as the pattern it was printed from. */
  lemma SavedReads(t: Style, pieces: seq<Piece>, i: nat)
    requires Tidy(t, pieces) && i < |pieces| && pieces[i].Saved?
    ensures ParseLines(t, LinesOf(t, pieces), pieces[i].save.drum) == Block(PatternOf(t, pieces[i].save))
  {
    hide LinesOf, Span, ReadLines, Indented, Formatted, Stripped, Blank;
    var v := pieces[i].save;
    PieceFound(t, pieces, i);
    assert Good(t, pieces[i]);
    MiddleOf(LinesOf(t, pieces[..i]), BlockLines(t, v), LinesOf(t, pieces[i + 1..]));
    BlockReads(t, v.drum, v.steps, v.words, v.names);
    EightWordsKept(v.words);
  }

  // ----- One save

  /** A line that no block holds is a piece of its own. */
  lemma {:induction false} PieceAt(t: Style, pieces: seq<Piece>, k: nat) returns (j: nat)
    requires k < |LinesOf(t, pieces)|
    requires forall i :: 0 <= i < |pieces| && pieces[i].Saved? ==> LinesOf(t, pieces)[k] !in BlockLines(t, pieces[i].save)
    ensures j < |pieces| && LinesOf(t, pieces[..j]) == LinesOf(t, pieces)[..k] && LinesOf(t, pieces[j..]) == LinesOf(t, pieces)[k..]
    decreases |pieces|
  {
    hide BlockLines;
    var first, rest, line := PieceLines(t, pieces[0]), pieces[1..], LinesOf(t, pieces)[k];
    var n := |first|;
    assert LinesOf(t, pieces) == first + LinesOf(t, rest);
    if k < n {
      assert line == first[k] && first[k] in first;
      j := 0;
      assert pieces[..0] == [] && pieces[0..] == pieces;
    } else {
      assert line == LinesOf(t, rest)[k - n];
      forall i | 0 <= i < |rest| && rest[i].Saved? ensures line !in BlockLines(t, rest[i].save) {
        assert rest[i] == pieces[i + 1];
      }
      var j' := PieceAt(t, rest, k - n);
      j := j' + 1;
      hide LinesOf;
      PieceLater(t, pieces, k, j');
    }
  }

  lemma PieceLater(t: Style, pieces: seq<Piece>, k: nat, j: nat)
    requires pieces != [] && j < |pieces| - 1 && |PieceLines(t, pieces[0])| <= k <= |LinesOf(t, pieces)|
    requires var rest, m := pieces[1..], k - |PieceLines(t, pieces[0])|;
      LinesOf(t, rest[..j]) == LinesOf(t, rest)[..m] && LinesOf(t, rest[j..]) == LinesOf(t, rest)[m..]
    ensures LinesOf(t, pieces[..j + 1]) == LinesOf(t, pieces)[..k] && LinesOf(t, pieces[j + 1..]) == LinesOf(t, pieces)[k..]
  {
    hide PieceLines;
    var front, first := pieces[..j + 1], PieceLines(t, pieces[0]);
    assert front[0] == pieces[0] && front[1..] == pieces[1..][..j] && pieces[j + 1..] == pieces[1..][j..];
    assert LinesOf(t, pieces) == first + LinesOf(t, pieces[1..]);
  }

  /** White-space lines at the end are pieces of their own. */
  lemma {:induction false} PiecesBefore(t: Style, pieces: seq<Piece>, before: seq<string>, gone: seq<string>) returns (j: nat)
    requires LinesOf(t, pieces) == before + gone && forall k :: 0 <= k < |gone| ==> AllSpace(t, gone[k])
    requires forall i :: 0 <= i < |pieces| && pieces[i].Saved? ==>
      BlockLines(t, pieces[i].save) != [] && !AllSpace(t, BlockLines(t, pieces[i].save)[|BlockLines(t, pieces[i].save)| - 1])
    ensures j <= |pieces| && LinesOf(t, pieces[..j]) == before && forall k :: j <= k < |pieces| ==> pieces[k].Line?
    decreases |pieces|
  {
    hide BlockLines, AllSpace;
    if gone == [] {
      j := |pieces|;
      assert pieces[..j] == pieces && before + gone == before;
    } else {
      assert pieces != [];
      var last := |pieces| - 1;
      assert pieces[..last] + [pieces[last]] == pieces;
      LinesAppend(t, pieces[..last], [pieces[last]]);
      LinesOne(t, pieces[last]);
      var lines := PieceLines(t, pieces[last]);
      assert lines != [] && (pieces[last].Saved? ==> !AllSpace(t, lines[|lines| - 1]));
      LastOfBoth(LinesOf(t, pieces[..last]), lines, before, gone);
      j := PiecesBefore(t, pieces[..last], before, gone[..|gone| - 1]);
      assert pieces[..last][..j] == pieces[..j];
    }
  }

  lemma LastOfBoth(a: seq<string>, b: seq<string>, c: seq<string>, d: seq<string>)
    requires a + b == c + d && b != [] && d != []
    ensures b[|b| - 1] == d[|d| - 1] && (|b| == 1 ==> a == c + d[..|d| - 1])
  {
    var s := a + b;
    assert s[|s| - 1] == b[|b| - 1] && (c + d)[|s| - 1] == d[|d| - 1];
    if |b| == 1 {
      assert a == s[..|s| - 1];
      assert c + d[..|d| - 1] == (c + d)[..|s| - 1];
    }
  }

  lemma LastNotBlank(t: Style, v: Save)
    requires Savable(t, v)
    ensures var block := BlockLines(t, v); block != [] && !AllSpace(t, block[|block| - 1])
  {
    hide BlockLines, Printable, AllSpace, Strip;
    BlockEnds(t, v);
    StripNothing(t, BlockLines(t, v)[|BlockLines(t, v)| - 1]);
    assert End(v.drum)[0] == '/';
  }

  lemma {:induction false} SlotCloses(t: Style, lines: seq<string>, index: nat)
    requires index <= |lines|
    ensures Slot(t, lines, index).Some? ==> t.closes(lines[Slot(t, lines, index).value])
    decreases |lines| - index
  {
    if index < |lines| {
      ClosingCloses(t, lines, index + 1);
      SlotCloses(t, lines, index + 1);
    }
  }

  lemma {:induction false} ClosingCloses(t: Style, lines: seq<string>, index: nat)
    requires index <= |lines|
    ensures Closing(t, lines, index).Some? ==> t.closes(lines[Closing(t, lines, index).value])
    decreases |lines| - index
  {
    if index < |lines| { ClosingCloses(t, lines, index + 1); }
  }

  /** What a save does to the other blocks: nothing. */
  ghost predicate Added(pieces: seq<Piece>, v: Save, now: seq<Piece>) {
    && Saved(v) in now
    && forall w: Save :: w.drum != v.drum ==> (Saved(w) in now <==> Saved(w) in pieces)
  }

  ghost predicate NoneFor(pieces: seq<Piece>, drum: string) {
    forall i :: 0 <= i < |pieces| ==> !IsFor(pieces[i], drum)
  }

  lemma TidyInserted(t: Style, a: seq<Piece>, v: Save, b: seq<Piece>)
    requires Tidy(t, a + b) && Savable(t, v) && NoneFor(a + b, v.drum)
    ensures Tidy(t, a + [Saved(v)] + b)
  {
    hide Good, Savable;
    var was, now := a + b, a + [Saved(v)] + b;
    assert Good(t, Saved(v)) by { SavableGood(t, v); }
    forall i | 0 <= i < |now| ensures Good(t, now[i]) {
      if i != |a| { assert now[i] == was[if i < |a| then i else i - 1]; }
    }
    forall i, j | 0 <= i < j < |now| && now[i].Saved? ensures !IsFor(now[j], now[i].save.drum) {
      if i != |a| { assert now[i] == was[if i < |a| then i else i - 1]; }
      if j != |a| { assert now[j] == was[if j < |a| then j else j - 1]; }
    }
  }

  lemma SavableGood(t: Style, v: Save)
    requires Savable(t, v)
    ensures Good(t, Saved(v))
  {
  }

  lemma TidyReplaced(t: Style, pieces: seq<Piece>, i: nat, v: Save)
    requires Tidy(t, pieces) && i < |pieces| && IsFor(pieces[i], v.drum) && Savable(t, v)
    ensures Tidy(t, pieces[i := Saved(v)])
  {
    hide Good, Savable;
    assert Good(t, Saved(v)) by { SavableGood(t, v); }
  }

  lemma TidyWithLines(t: Style, pieces: seq<Piece>, lines: seq<string>)
    requires Tidy(t, pieces) && forall k :: 0 <= k < |lines| ==> NoMarker(t, lines[k])
    ensures Tidy(t, pieces + LinePieces(lines))
  {
    hide Savable, NoMarker;
  }

  lemma TidyFront(t: Style, pieces: seq<Piece>, j: nat)
    requires Tidy(t, pieces) && j <= |pieces|
    ensures Tidy(t, pieces[..j])
  {
    hide Good;
  }

  lemma InnerNoMarker(t: Style, lines: seq<string>)
    requires AllInner(t, lines)
    ensures forall k :: 0 <= k < |lines| ==> NoMarker(t, lines[k])
  {
    hide AllInner;
    forall k, drum | 0 <= k < |lines| ensures !IsMarker(t, drum, lines[k]) { InnerUnmarked(t, drum, lines); }
  }

  /** A save of a drum that has a block replaces the block. */
  lemma SaveOver(t: Style, declaration: string, pieces: seq<Piece>, v: Save, i: nat)
    requires Tidy(t, pieces) && SplitLines(t, declaration) == LinesOf(t, pieces) && Savable(t, v)
    requires i < |pieces| && IsFor(pieces[i], v.drum)
    ensures Tidy(t, pieces[i := Saved(v)]) && Added(pieces, v, pieces[i := Saved(v)])
    ensures (SplitLines(t, Merged(t, declaration, v.drum, BlockOfSave(t, v)))
             == LinesOf(t, pieces[i := Saved(v)]))
  {
    hide Split, Span, Slot, Merged, Indented, Formatted, LinesOf, Good, Unmarked, AllUnbroken, Printable;
    var now, block := pieces[i := Saved(v)], BlockOfSave(t, v);
    PieceFound(t, pieces, i);
    BlockEnds(t, v);
    assert block != [] by { assert |Indented(block)| >= 2; }
    HoleLines(t, declaration, v.drum, block);
    LinesAround(t, pieces, i);
    LinesAround(t, now, i);
    assert now[..i] == pieces[..i] && now[i + 1..] == pieces[i + 1..] && now[i] == Saved(v);
    var x, y, z := LinesOf(t, pieces[..i]), BlockLines(t, pieces[i].save), LinesOf(t, pieces[i + 1..]);
    assert (x + y + z)[..|x|] == x && (x + y + z)[|x| + |y|..] == z;
    TidyReplaced(t, pieces, i, v);
    ReplacedAdded(pieces, i, v);
  }

  lemma ReplacedAdded(pieces: seq<Piece>, i: nat, v: Save)
    requires i < |pieces| && IsFor(pieces[i], v.drum)
    ensures Added(pieces, v, pieces[i := Saved(v)])
  {
    var now := pieces[i := Saved(v)];
    assert now[i] == Saved(v);
    forall w: Save | w.drum != v.drum ensures Saved(w) in now <==> Saved(w) in pieces {
      if Saved(w) in now {
        var k :| 0 <= k < |now| && now[k] == Saved(w);
        assert pieces[k] == Saved(w);
      }
      if Saved(w) in pieces {
        var k :| 0 <= k < |pieces| && pieces[k] == Saved(w);
        assert now[k] == Saved(w);
      }
    }
  }

  /** A first save goes before the line that closes a section. */
  lemma SaveIntoSection(t: Style, declaration: string, pieces: seq<Piece>, v: Save) returns (now: seq<Piece>)
    requires Tidy(t, pieces) && SplitLines(t, declaration) == LinesOf(t, pieces) && Savable(t, v)
    requires NoneFor(pieces, v.drum) && Span(t, v.drum, LinesOf(t, pieces), 0, None) == None
    requires Slot(t, LinesOf(t, pieces), 0).Some?
    ensures Tidy(t, now) && Added(pieces, v, now)
    ensures (SplitLines(t, Merged(t, declaration, v.drum, BlockOfSave(t, v)))
             == LinesOf(t, now))
  {
    hide Split, Span, Slot, Merged, Indented, Formatted, LinesOf, Unmarked, AllUnbroken, Printable, NoMarker;
    var block, lines := BlockOfSave(t, v), LinesOf(t, pieces);
    var slot := Slot(t, lines, 0).value;
    SlotCloses(t, lines, 0);
    forall i | 0 <= i < |pieces| && pieces[i].Saved? ensures lines[slot] !in BlockLines(t, pieces[i].save) {
      assert Good(t, pieces[i]);
    }
    var j := PieceAt(t, pieces, slot);
    var a, b := pieces[..j], pieces[j..];
    assert pieces == a + b;
    BlockEnds(t, v);
    assert block != [] by { assert |Indented(block)| >= 2; }
    HoleLines(t, declaration, v.drum, block);
    now := a + [Saved(v)] + b;
    LinesAppend(t, a + [Saved(v)], b);
    LinesAppend(t, a, [Saved(v)]);
    LinesOne(t, Saved(v));
    TidyInserted(t, a, v, b);
    assert Saved(v) in [Saved(v)];
  }

  /** Without a section, a first save adds one at the end. */
  lemma SaveAtEnd(t: Style, declaration: string, pieces: seq<Piece>, v: Save) returns (now: seq<Piece>)
    requires Tidy(t, pieces) && SplitLines(t, declaration) == LinesOf(t, pieces) && Savable(t, v)
    requires NoneFor(pieces, v.drum) && NeedsSection(t, LinesOf(t, pieces), v.drum)
    ensures Tidy(t, now) && Added(pieces, v, now)
    ensures (SplitLines(t, Merged(t, declaration, v.drum, BlockOfSave(t, v)))
             == LinesOf(t, now))
  {
    hide Split, Span, Slot, Merged, Indented, Formatted, LinesOf, AllInner, AllSpace, NoMarker, NeedsSection;
    var s := MergeSplices(t, declaration, v.drum, v.steps, v.words, v.names);
    FrameInner(t, s);
    InnerNoMarker(t, s.lead);
    InnerNoMarker(t, s.tail);
    forall i | 0 <= i < |pieces| && pieces[i].Saved?
      ensures BlockLines(t, pieces[i].save) != [] && !AllSpace(t, BlockLines(t, pieces[i].save)[|BlockLines(t, pieces[i].save)| - 1])
    {
      assert Good(t, pieces[i]);
      LastNotBlank(t, pieces[i].save);
    }
    assert s.before + s.gone + [] == s.before + s.gone;
    var j := PiecesBefore(t, pieces, s.before, s.gone);
    var a, b := pieces[..j] + LinePieces(s.lead), LinePieces(s.tail);
    now := a + [Saved(v)] + b;
    EndLines(t, pieces[..j], s.lead, v, s.tail);
    EndTidy(t, pieces, j, s.lead, v, s.tail);
    EndAdded(pieces, j, s.lead, v, s.tail);
  }

  lemma EndLines(t: Style, front: seq<Piece>, lead: seq<string>, v: Save, tail: seq<string>)
    ensures (LinesOf(t, front + LinePieces(lead) + [Saved(v)] + LinePieces(tail))
             == LinesOf(t, front) + (lead + BlockLines(t, v) + tail) + [])
  {
    hide LinesOf, BlockLines;
    LinesAppend(t, front + LinePieces(lead) + [Saved(v)], LinePieces(tail));
    LinesAppend(t, front + LinePieces(lead), [Saved(v)]);
    LinesAppend(t, front, LinePieces(lead));
    LinesOne(t, Saved(v));
    LinesOfLines(t, lead);
    LinesOfLines(t, tail);
  }

  lemma EndTidy(t: Style, pieces: seq<Piece>, j: nat, lead: seq<string>, v: Save, tail: seq<string>)
    requires Tidy(t, pieces) && j <= |pieces| && Savable(t, v) && NoneFor(pieces, v.drum)
    requires forall k :: 0 <= k < |lead| ==> NoMarker(t, lead[k])
    requires forall k :: 0 <= k < |tail| ==> NoMarker(t, tail[k])
    ensures Tidy(t, pieces[..j] + LinePieces(lead) + [Saved(v)] + LinePieces(tail))
  {
    hide Good, Savable, NoMarker, Tidy;
    TidyFront(t, pieces, j);
    TidyWithLines(t, pieces[..j], lead);
    TidyWithLines(t, pieces[..j] + LinePieces(lead), tail);
    TidyInserted(t, pieces[..j] + LinePieces(lead), v, LinePieces(tail));
  }

  lemma EndAdded(pieces: seq<Piece>, j: nat, lead: seq<string>, v: Save, tail: seq<string>)
    requires j <= |pieces| && forall k :: j <= k < |pieces| ==> pieces[k].Line?
    ensures Added(pieces, v, pieces[..j] + LinePieces(lead) + [Saved(v)] + LinePieces(tail))
  {
    var now := pieces[..j] + LinePieces(lead) + [Saved(v)] + LinePieces(tail);
    assert now[j + |lead|] == Saved(v);
    forall w: Save | w.drum != v.drum ensures Saved(w) in now <==> Saved(w) in pieces {
      if Saved(w) in pieces {
        var k :| 0 <= k < |pieces| && pieces[k] == Saved(w);
        assert now[k] == Saved(w);
      }
      if Saved(w) in now {
        var k :| 0 <= k < |now| && now[k] == Saved(w);
        assert k < j && pieces[k] == Saved(w);
      }
    }
  }

  /** One save: the declaration stays tidy, holds the block saved, and keeps every other drum's. */
  lemma SaveOne(t: Style, declaration: string, pieces: seq<Piece>, v: Save) returns (now: seq<Piece>)
    requires Tidy(t, pieces) && SplitLines(t, declaration) == LinesOf(t, pieces) && Savable(t, v)
    ensures Tidy(t, now) && Added(pieces, v, now)
    ensures (SplitLines(t, Merged(t, declaration, v.drum, BlockOfSave(t, v)))
             == LinesOf(t, now))
  {
    hide Split, Span, Slot, Merged, Formatted, LinesOf, Good, Savable, Added, IsFor;
    if i :| 0 <= i < |pieces| && IsFor(pieces[i], v.drum) {
      now := pieces[i := Saved(v)];
      SaveOver(t, declaration, pieces, v, i);
    } else {
      OthersUnmarked(t, pieces, v.drum);
      UnmarkedSpan(t, v.drum, LinesOf(t, pieces));
      if Slot(t, LinesOf(t, pieces), 0).Some? {
        now := SaveIntoSection(t, declaration, pieces, v);
      } else {
        now := SaveAtEnd(t, declaration, pieces, v);
      }
    }
  }

  // ----- Any sequence of saves

  /** A block stays through any saves of other drums. */
  lemma {:induction false} SavedStays(t: Style, declaration: string, pieces: seq<Piece>, saves: seq<Save>, w: Save)
    returns (now: seq<Piece>)
    requires Tidy(t, pieces) && SplitLines(t, declaration) == LinesOf(t, pieces)
    requires Saved(w) in pieces
    requires forall n :: 0 <= n < |saves| ==> Savable(t, saves[n]) && saves[n].drum != w.drum
    ensures Tidy(t, now) && SplitLines(t, SaveAll(t, declaration, saves)) == LinesOf(t, now) && Saved(w) in now
    decreases |saves|
  {
    hide Split, Merged, Formatted, LinesOf, Tidy, Printable;
    if saves == [] {
      now := pieces;
    } else {
      var v := saves[0];
      var next := SaveOne(t, declaration, pieces, v);
      now := SavedStays(t, Merged(t, declaration, v.drum, BlockOfSave(t, v)), next, saves[1..], w);
    }
  }

  /** After any sequence of saves each drum reads back the pattern it was saved with last. */
  lemma {:induction false} LastSaveReads(t: Style, declaration: string, pieces: seq<Piece>, saves: seq<Save>, n: nat)
    requires Tidy(t, pieces) && SplitLines(t, declaration) == LinesOf(t, pieces)
    requires forall m :: 0 <= m < |saves| ==> Savable(t, saves[m])
    requires n < |saves| && forall m :: n < m < |saves| ==> saves[m].drum != saves[n].drum
    ensures ParseLines(t, SplitLines(t, SaveAll(t, declaration, saves)), saves[n].drum) == Block(PatternOf(t, saves[n]))
    decreases n
  {
    hide Split, Merged, Formatted, LinesOf, Tidy, ParseLines, Stripped, Printable;
    var v := saves[0];
    var next := SaveOne(t, declaration, pieces, v);
    var text := Merged(t, declaration, v.drum, BlockOfSave(t, v));
    if n > 0 {
      LastSaveReads(t, text, next, saves[1..], n - 1);
    } else {
      var now := SavedStays(t, text, next, saves[1..], v);
      var i :| 0 <= i < |now| && now[i] == Saved(v);
      SavedReads(t, now, i);
    }
  }

  /** A drum that none of the saves is for keeps the pattern its block had. */
  lemma UnsavedReads(t: Style, declaration: string, pieces: seq<Piece>, saves: seq<Save>, w: Save)
    requires Tidy(t, pieces) && SplitLines(t, declaration) == LinesOf(t, pieces)
    requires Saved(w) in pieces
    requires forall n :: 0 <= n < |saves| ==> Savable(t, saves[n]) && saves[n].drum != w.drum
    ensures ParseLines(t, SplitLines(t, SaveAll(t, declaration, saves)), w.drum) == Block(PatternOf(t, w))
  {
    hide Split, LinesOf, Tidy, ParseLines, Stripped, Savable;
    var now := SavedStays(t, declaration, pieces, saves, w);
    var i :| 0 <= i < |now| && now[i] == Saved(w);
    SavedReads(t, now, i);
  }

  /**
   * The run as a user sees it: starting from any declaration without markers, after any saves of
   * any drums in any order, loading a drum gives the pattern it was saved with last.
   */
  lemma RunReadsBack(t: Style, declaration: string, saves: seq<Save>, n: nat)
    requires forall k :: 0 <= k < |SplitLines(t, declaration)| ==> NoMarker(t, SplitLines(t, declaration)[k])
    requires forall m :: 0 <= m < |saves| ==> Savable(t, saves[m])
    requires n < |saves| && forall m :: n < m < |saves| ==> saves[m].drum != saves[n].drum
    ensures ParseLines(t, SplitLines(t, SaveAll(t, declaration, saves)), saves[n].drum) == Block(PatternOf(t, saves[n]))
  {
    hide Split, NoMarker, Savable, ParseLines, Stripped;
    var lines := SplitLines(t, declaration);
    LinesOfLines(t, lines);
    assert Tidy(t, []);
    TidyWithLines(t, [], lines);
    assert [] + LinePieces(lines) == LinePieces(lines);
    LastSaveReads(t, declaration, LinePieces(lines), saves, n);
  }
}
