/** Merging a drum's block into a declaration, and reading drums back from the result. */
module DrumRoundTrip {
  import opened Wrappers
  import opened TextTools
  import opened DrumPattern
  import opened DrumReading
  import opened DrumSpans
  import opened DrumText
  import opened DrumBlock

  const HEADER := "VAR_GLOBAL CONSTANT"
  const FOOTER := "END_VAR"

  /** How the lines change: `gone` makes way for the block between `lead` and `tail`. */
  datatype Splice = Splice(before: seq<string>, gone: seq<string>, lead: seq<string>, tail: seq<string>, after: seq<string>)

  /** The lines a merge takes away: the drum's old block, or none. */
  function Hole(t: Style, lines: seq<string>, drum: string): (hole: (nat, nat))
    ensures hole.0 <= hole.1 <= |lines|
  {
    var span := Span(t, drum, lines, 0, None);
    SpanInside(t, drum, lines, 0, None);
    if span.Some? then (span.value.0, span.value.1 + 1)
    else
      var slot := Slot(t, lines, 0);
      if slot.Some? then (slot.value, slot.value) else (|lines|, |lines|)
  }

  /** A new section is needed: there is neither an old block nor a constant section to put one in. */
  predicate NeedsSection(t: Style, lines: seq<string>, drum: string) {
    Span(t, drum, lines, 0, None) == None && Slot(t, lines, 0) == None
  }

  /**
   * Every line outside the hole is kept, in order, and the block stands in the hole. For a new
   * section, only white-space lines at the end of the declaration may also change.
   */
  predicate Spliced(t: Style, lines: seq<string>, drum: string, now: seq<string>, block: seq<string>, s: Splice) {
    && lines == s.before + s.gone + s.after
    && now == s.before + (s.lead + Indented(block) + s.tail) + s.after
    && (if NeedsSection(t, lines, drum) then
          && s.after == [] && (forall k :: 0 <= k < |s.gone| ==> AllSpace(t, s.gone[k]))
          && |s.lead| > 0 && Blanks(s.lead[..|s.lead| - 1]) && s.lead[|s.lead| - 1] == HEADER && s.tail == [FOOTER]
        else
          && Hole(t, lines, drum) == (|s.before|, |s.before| + |s.gone|) && s.lead == [] && s.tail == [])
  }

  // ----- The lines of a merged text

  lemma BlockUnbroken(t: Style, drum: string, steps: nat, words: seq<nat>, names: seq<string>)
    requires Printable(t, drum, words, names)
    ensures var block := Indented(Formatted(t, drum, steps, words, names));
      AllUnbroken(t, block) && |block| >= 2
      && Strip(t.space, block[0]) == Begin(drum) && Strip(t.space, block[|block| - 1]) == End(drum)
      && AllInner(t, block[1..|block| - 1])
  {
    hide Indented, Formatted, Inside, Begin, End, Strip;
    BlockParts(t, drum, steps, words, names);
    InsideInner(t, drum, steps, words, names);
    var inside := Indented(Inside(t, drum, steps, words, names));
    var block := [INDENT + Begin(drum)] + (inside + [INDENT + End(drum)]);
    assert block[1..|block| - 1] == inside;
    InnerUnmarked(t, drum, inside);
    MarkShape(t, drum);
  }

  lemma UnbrokenSplice(t: Style, before: seq<string>, middle: seq<string>, after: seq<string>)
    requires AllUnbroken(t, before) && AllUnbroken(t, middle) && AllUnbroken(t, after)
    ensures AllUnbroken(t, before + middle + after)
  {
  }

  /** Where there is a hole, the merged text has the spliced lines. */
  lemma HoleLines(t: Style, declaration: string, drum: string, block: seq<string>)
    requires Sane(t) && block != [] && AllUnbroken(t, Indented(block))
    requires !NeedsSection(t, SplitLines(t, declaration), drum)
    ensures var lines := SplitLines(t, declaration); var hole := Hole(t, lines, drum);
      var now := lines[..hole.0] + Indented(block) + lines[hole.1..];
      AllUnbroken(t, now) && Merged(t, declaration, drum, block) == JoinLines(now) + "\n"
      && SplitLines(t, Merged(t, declaration, drum, block)) == now
  {
    hide Split, Span, Slot, JoinLines, Unbroken;
    var lines := SplitLines(t, declaration);
    var hole := Hole(t, lines, drum);
    SpanInside(t, drum, lines, 0, None);
    SplitUnbroken(t, declaration, []);
    UnbrokenSplice(t, lines[..hole.0], Indented(block), lines[hole.1..]);
    SplitJoined(t, lines[..hole.0] + Indented(block) + lines[hole.1..]);
  }

  lemma SectionLines(t: Style, block: seq<string>)
    requires Sane(t) && AllUnbroken(t, Indented(block))
    ensures AllUnbroken(t, Section(block)) && SplitLines(t, JoinLines(Section(block)) + "\n") == Section(block)
  {
    hide Split, JoinLines, Unbroken;
    AsciiUnbroken(t, HEADER);
    AsciiUnbroken(t, FOOTER);
    UnbrokenSplice(t, [HEADER], Indented(block), [FOOTER]);
    SplitJoined(t, Section(block));
  }

  /** A new section goes after the declaration's lines, or stands alone in a blank declaration. */
  lemma NewSectionLines(t: Style, declaration: string, drum: string, block: seq<string>) returns (s: Splice)
    requires Sane(t) && block != [] && AllUnbroken(t, Indented(block))
    requires NeedsSection(t, SplitLines(t, declaration), drum)
    ensures Spliced(t, SplitLines(t, declaration), drum, SplitLines(t, Merged(t, declaration, drum, block)), block, s)
  {
    hide Split, Span, Slot, JoinLines, Unbroken, TrimBreaks, Strip, Hole;
    var section, lines := JoinLines(Section(block)) + "\n", SplitLines(t, declaration);
    SectionLines(t, block);
    StripNothing(t, declaration);
    if Strip(t.space, declaration) == [] {
      SplitSpace(t, declaration, []);
      s := Splice([], lines, [HEADER], [FOOTER], []);
      assert [] + lines + [] == lines;
    } else {
      var kept, gone, put := TextBeforeSection(t, declaration);
      var trimmed := TrimBreaks(declaration);
      assert trimmed + "\n\n" + JoinLines(Section(block)) + "\n" == trimmed + ("\n" + ("\n" + section));
      SplitApart(t, trimmed, "\n" + section, []);
      SplitLine(t, "", section, []);
      assert "" + ("\n" + section) == "\n" + section && [] + "" == "";
      s := Splice(kept, gone, put + [""] + [HEADER], [FOOTER], []);
      SectionParts(kept, gone, put, Indented(block));
    }
  }

  lemma SectionParts(kept: seq<string>, gone: seq<string>, put: seq<string>, block: seq<string>)
    ensures kept + gone + [] == kept + gone
    ensures var lead := put + [""] + [HEADER]; lead[..|lead| - 1] == put + [""] && lead[|lead| - 1] == HEADER
    ensures (kept + put + ([""] + ([HEADER] + block + [FOOTER]))
             == kept + (put + [""] + [HEADER] + block + [FOOTER]) + [])
  {
  }

  /** Merging keeps every line outside the old block, in order. */
  lemma MergeSplices(t: Style, declaration: string, drum: string, steps: nat, words: seq<nat>, names: seq<string>) returns (s: Splice)
    requires Printable(t, drum, words, names)
    ensures var block := Formatted(t, drum, steps, words, names);
      Spliced(t, SplitLines(t, declaration), drum, SplitLines(t, Merged(t, declaration, drum, block)), block, s)
  {
    hide Split, Span, Slot, JoinLines, Unbroken, TrimBreaks, Strip, Inside, Indented, AllInner, Merged;
    var block, lines := Formatted(t, drum, steps, words, names), SplitLines(t, declaration);
    BlockUnbroken(t, drum, steps, words, names);
    if NeedsSection(t, lines, drum) {
      s := NewSectionLines(t, declaration, drum, block);
    } else {
      HoleLines(t, declaration, drum, block);
      var hole := Hole(t, lines, drum);
      s := Splice(lines[..hole.0], lines[hole.0..hole.1], [], [], lines[hole.1..]);
      assert lines == s.before + s.gone + s.after;
      assert [] + Indented(block) + [] == Indented(block);
    }
  }

  // ----- Finding the merged block

  lemma FrameInner(t: Style, s: Splice)
    requires Sane(t) && |s.lead| > 0 && Blanks(s.lead[..|s.lead| - 1]) && s.lead[|s.lead| - 1] == HEADER && s.tail == [FOOTER]
    ensures AllInner(t, s.lead) && AllInner(t, s.tail)
  {
    AsciiUnbroken(t, HEADER);
    AsciiUnbroken(t, FOOTER);
    StripDone(t.space, HEADER);
    StripDone(t.space, FOOTER);
    StripDone(t.space, "");
    assert HEADER[0] == 'V' && FOOTER[0] == 'E' && "// T"[0] == '/';
    forall k | 0 <= k < |s.lead| ensures Inner(t, s.lead[k]) {
      assert k < |s.lead| - 1 ==> s.lead[k] == s.lead[..|s.lead| - 1][k];
    }
  }

  /** What stands before a merged block holds no complete block of the drum. */
  lemma NoneBefore(t: Style, lines: seq<string>, drum: string, now: seq<string>, block: seq<string>, s: Splice)
    requires Sane(t) && Spliced(t, lines, drum, now, block, s)
    ensures Span(t, drum, s.before + s.lead, 0, None) == None
    ensures Unmarked(t, drum, s.lead)
  {
    hide Slot, Unmarked, Indented;
    SpanInside(t, drum, lines, 0, None);
    SpanPrefix(t, drum, lines, |s.before|, 0, None);
    assert lines[..|s.before|] == s.before;
    if NeedsSection(t, lines, drum) {
      FrameInner(t, s);
      InnerUnmarked(t, drum, s.lead);
    } else {
      NothingUnmarked(t, drum);
    }
    SpanAfter(t, drum, s.before, s.lead, 0, None);
    SpanUnmarked(t, drum, s.lead, [], |s.before|, LastBegin(t, drum, s.before, 0, None));
    assert s.lead + [] == s.lead;
  }

  lemma NothingUnmarked(t: Style, drum: string)
    ensures Unmarked(t, drum, [])
  {
  }

  /** After a merge the drum's block is the one merged, whatever markers the declaration held. */
  lemma MergedBlockFound(t: Style, lines: seq<string>, drum: string, steps: nat, words: seq<nat>, names: seq<string>,
                         now: seq<string>, s: Splice)
    requires Printable(t, drum, words, names)
    requires Spliced(t, lines, drum, now, Formatted(t, drum, steps, words, names), s)
    ensures var block, at := Indented(Formatted(t, drum, steps, words, names)), |s.before| + |s.lead|;
      now == (s.before + s.lead) + block + (s.tail + s.after) && |block| >= 2
      && Span(t, drum, now, 0, None) == Some((at, at + |block| - 1))
  {
    hide Span, Slot, Unmarked, Indented, Formatted, Inside, AllInner, NeedsSection, Hole, Strip, Begin, End;
    var block := Formatted(t, drum, steps, words, names);
    var put := Indented(block);
    NoneBefore(t, lines, drum, now, block, s);
    BlockUnbroken(t, drum, steps, words, names);
    InnerUnmarked(t, drum, put[1..|put| - 1]);
    assert now == (s.before + s.lead) + put + (s.tail + s.after);
    BlockFound(t, drum, s.before + s.lead, put, s.tail + s.after);
  }

  lemma EightWordsKept(words: seq<nat>)
    requires |words| == MAX_STEPS
    ensures EightWords(words) == words
  {
    FrontOf(words, [0, 0, 0, 0, 0, 0, 0, 0]);
  }

  lemma FrontOf<T>(a: seq<T>, b: seq<T>)
    ensures (a + b)[..|a|] == a
  {
  }

  lemma MiddleOf<T>(a: seq<T>, b: seq<T>, c: seq<T>)
    ensures (a + b + c)[|a|..|a| + |b|] == b
  {
  }

  // ----- The main results

  /**
   * Parsing a drum from any declaration merged with its block gives the pattern back: the step
   * count within 1 to 8, the eight words and the stripped names.
   */
  lemma MergeThenParse(t: Style, declaration: string, drum: string, steps: nat, words: seq<nat>, names: seq<string>)
    requires Printable(t, drum, words, names)
    ensures (ParseLines(t, SplitLines(t, Merged(t, declaration, drum, Formatted(t, drum, steps, words, names))), drum)
             == Block(Pattern(Clamped(steps), words, Stripped(t, names))))
  {
    hide Span, Split, Merged, Indented, Formatted, Inside, ReadLines, Blank, Spliced, Stripped;
    var block := Formatted(t, drum, steps, words, names);
    var now := SplitLines(t, Merged(t, declaration, drum, block));
    var s := MergeSplices(t, declaration, drum, steps, words, names);
    MergedBlockFound(t, SplitLines(t, declaration), drum, steps, words, names, now, s);
    var put, x, y := Indented(block), s.before + s.lead, s.tail + s.after;
    MiddleOf(x, put, y);
    BlockReads(t, drum, steps, words, names);
    EightWordsKept(words);
  }

  /** Saving a pattern and loading the drum again, as the editor does. */
  method SaveAndLoad(t: Style, declaration: string, drum: string, steps: nat, words: seq<nat>, names: seq<string>)
    returns (saved: string, loaded: Parsed)
    requires Printable(t, drum, words, names)
    ensures saved == Merged(t, declaration, drum, Formatted(t, drum, steps, words, names))
    ensures loaded == Block(Pattern(Clamped(steps), words, Stripped(t, names)))
  {
    hide Span, Slot, Split, Merged, Formatted, ParseLines, Stripped;
    var block := FormatBlock(t, drum, steps, words, names);
    assert words[..MAX_STEPS] == words && names[..BITS] == names;
    saved := MergeBlock(t, declaration, drum, block);
    loaded := ParseBlock(t, saved, drum);
    MergeThenParse(t, declaration, drum, steps, words, names);
  }

  /** The other drum's markers stand neither in the lines a merge takes away nor on both sides of them. */
  predicate Separate(t: Style, lines: seq<string>, drum: string, other: string) {
    var hole := Hole(t, lines, drum);
    Unmarked(t, other, lines[hole.0..hole.1]) && Apart(t, other, lines, hole.0, hole.1)
  }

  /** A block holds no marker of another drum. */
  lemma BlockIsForeign(t: Style, drum: string, steps: nat, words: seq<nat>, names: seq<string>, other: string)
    requires Printable(t, drum, words, names) && drum != other
    ensures Unmarked(t, other, Indented(Formatted(t, drum, steps, words, names)))
  {
    hide Indented, Formatted, Inside, AllInner, Strip, Begin, End;
    var put := Indented(Formatted(t, drum, steps, words, names));
    BlockUnbroken(t, drum, steps, words, names);
    InnerUnmarked(t, other, put[1..|put| - 1]);
    MarkersDiffer(drum, other);
    MarkersDiffer(other, drum);
    forall k | 0 <= k < |put| ensures !IsMarker(t, other, put[k]) {
      assert 0 < k < |put| - 1 ==> put[k] == put[1..|put| - 1][k - 1];
    }
  }

  lemma SpaceUnmarked(t: Style, other: string, lines: seq<string>)
    requires forall k :: 0 <= k < |lines| ==> AllSpace(t, lines[k])
    ensures Unmarked(t, other, lines)
  {
    forall k | 0 <= k < |lines| ensures !IsMarker(t, other, lines[k]) {
      StripNothing(t, lines[k]);
    }
  }

  lemma UnmarkedSplice(t: Style, other: string, a: seq<string>, b: seq<string>, c: seq<string>)
    requires Unmarked(t, other, a) && Unmarked(t, other, b) && Unmarked(t, other, c)
    ensures Unmarked(t, other, a + b + c)
  {
  }

  /** Merging one drum leaves the pattern of every drum whose block stands apart as it was. */
  lemma OtherDrumsKept(t: Style, declaration: string, drum: string, steps: nat, words: seq<nat>, names: seq<string>, other: string)
    requires Printable(t, drum, words, names) && drum != other
    requires Separate(t, SplitLines(t, declaration), drum, other)
    ensures (ParseLines(t, SplitLines(t, Merged(t, declaration, drum, Formatted(t, drum, steps, words, names))), other)
             == ParseLines(t, SplitLines(t, declaration), other))
  {
    hide Span, Slot, Split, Merged, Indented, Formatted, Inside, ParseLines, Unmarked, AllInner, Strip;
    var block, lines := Formatted(t, drum, steps, words, names), SplitLines(t, declaration);
    var s := MergeSplices(t, declaration, drum, steps, words, names);
    BlockIsForeign(t, drum, steps, words, names, other);
    if NeedsSection(t, lines, drum) {
      FrameInner(t, s);
      InnerUnmarked(t, other, s.lead);
      InnerUnmarked(t, other, s.tail);
      SpaceUnmarked(t, other, s.gone);
      ApartAtEnd(t, other, s.before + s.gone + s.after, |s.before|, s.gone);
    } else {
      NothingUnmarked(t, other);
      assert lines[|s.before|..|s.before| + |s.gone|] == s.gone;
    }
    UnmarkedSplice(t, other, s.lead, Indented(block), s.tail);
    OtherDrumKept(t, other, s.before, s.gone, s.lead + Indented(block) + s.tail, s.after);
  }

  /** A block cannot reach over unmarked lines at the very end. */
  lemma ApartAtEnd(t: Style, other: string, lines: seq<string>, at: nat, last: seq<string>)
    requires at + |last| == |lines| && lines[at..] == last && Unmarked(t, other, last)
    ensures Apart(t, other, lines, at, at + |last|)
  {
    hide Span, Unmarked;
    assert lines == lines[..at] + last;
    if Span(t, other, lines[..at], 0, None).Some? {
      SpanStays(t, other, lines[..at], last, 0, None);
      SpanInside(t, other, lines[..at], 0, None);
    } else {
      SpanAfter(t, other, lines[..at], last, 0, None);
      SpanUnmarked(t, other, last, [], at, LastBegin(t, other, lines[..at], 0, None));
      assert last + [] == last;
      SpanOfNothing(t, other, |lines|, LastBegin(t, other, lines[..at], 0, None));
    }
  }

  lemma SpanOfNothing(t: Style, drum: string, at: nat, first: Option<nat>)
    ensures Span(t, drum, [], at, first) == None
  {
  }

  // ----- Merging the same block again

  lemma SecondMergeRejoins(t: Style, declaration: string, drum: string, steps: nat, words: seq<nat>, names: seq<string>)
    requires Printable(t, drum, words, names)
    ensures var block := Formatted(t, drum, steps, words, names); var once := Merged(t, declaration, drum, block);
      SplitLines(t, once) != [] && AllUnbroken(t, SplitLines(t, once))
      && Merged(t, once, drum, block) == JoinLines(SplitLines(t, once)) + "\n"
  {
    hide Span, Split, Indented, Formatted, Inside, Spliced, JoinLines, Unbroken, Slot;
    var block := Formatted(t, drum, steps, words, names);
    var once := Merged(t, declaration, drum, block);
    var now := SplitLines(t, once);
    var s := MergeSplices(t, declaration, drum, steps, words, names);
    MergedBlockFound(t, SplitLines(t, declaration), drum, steps, words, names, now, s);
    BlockUnbroken(t, drum, steps, words, names);
    SplitUnbroken(t, once, []);
    SpanInside(t, drum, now, 0, None);
    var x, put, y := s.before + s.lead, Indented(block), s.tail + s.after;
    assert now[..|x|] == x && now[|x| + |put|..] == y;
  }

  lemma SeparatedParts(t: Style, a: string, b: string)
    requires Sane(t)
    ensures NewlineSeparated(t, a + "\n\n" + b) <==> NewlineSeparated(t, a) && NewlineSeparated(t, b)
  {
    var s := a + "\n\n" + b;
    assert forall k :: 0 <= k < |a| ==> s[k] == a[k];
    assert forall k :: 0 <= k < |b| ==> s[|a| + 2 + k] == b[k];
    assert s[|a|] == '\n' && s[|a| + 1] == '\n';
  }

  /** A merged text is some text and a line break; it is newline-separated unless a new section follows other line breaks. */
  lemma OnceSeparated(t: Style, declaration: string, drum: string, block: seq<string>) returns (u: string)
    requires Sane(t) && block != [] && AllUnbroken(t, Indented(block))
    ensures Merged(t, declaration, drum, block) == u + "\n"
    ensures (NewlineSeparated(t, u) <==>
             (!NeedsSection(t, SplitLines(t, declaration), drum) || Strip(t.space, declaration) == []
              || NewlineSeparated(t, TrimBreaks(declaration))))
  {
    hide Span, Slot, Split, JoinLines, Unbroken, TrimBreaks, Strip, NewlineSeparated, Hole;
    var lines := SplitLines(t, declaration);
    var section := JoinLines(Section(block));
    SectionLines(t, block);
    JoinedSeparated(t, Section(block));
    if !NeedsSection(t, lines, drum) {
      HoleLines(t, declaration, drum, block);
      var hole := Hole(t, lines, drum);
      u := JoinLines(lines[..hole.0] + Indented(block) + lines[hole.1..]);
      JoinedSeparated(t, lines[..hole.0] + Indented(block) + lines[hole.1..]);
    } else if Strip(t.space, declaration) == [] {
      u := section;
    } else {
      u := TrimBreaks(declaration) + "\n\n" + section;
      SeparatedParts(t, TrimBreaks(declaration), section);
    }
  }

  /**
   * Merging the same block again changes no line. It changes no character either, unless the
   * first merge added a new section to a text with line breaks other than "\n": the second merge
   * then rewrites those.
   */
  lemma MergeTwice(t: Style, declaration: string, drum: string, steps: nat, words: seq<nat>, names: seq<string>)
    requires Printable(t, drum, words, names)
    ensures var block := Formatted(t, drum, steps, words, names);
      var once := Merged(t, declaration, drum, block); var twice := Merged(t, once, drum, block);
      && SplitLines(t, twice) == SplitLines(t, once)
      && (twice == once <==>
          (!NeedsSection(t, SplitLines(t, declaration), drum) || Strip(t.space, declaration) == []
           || NewlineSeparated(t, TrimBreaks(declaration))))
  {
    hide Span, Slot, Split, JoinLines, Unbroken, TrimBreaks, Strip, NewlineSeparated, Hole, Merged, Formatted, Indented, NeedsSection, AllInner;
    var block := Formatted(t, drum, steps, words, names);
    var once := Merged(t, declaration, drum, block);
    BlockUnbroken(t, drum, steps, words, names);
    SecondMergeRejoins(t, declaration, drum, steps, words, names);
    SplitJoined(t, SplitLines(t, once));
    var u := OnceSeparated(t, declaration, drum, block);
    JoinSplitExactly(t, u);
    SameEnd(JoinLines(SplitLines(t, once)), u);
  }

  /** Text with CR LF and no section to put the block in: the second merge rewrites the line break. */
  lemma CrLfRewritten(t: Style, drum: string, steps: nat, words: seq<nat>, names: seq<string>)
    requires Printable(t, drum, words, names) && !t.opens("a")
    ensures var block := Formatted(t, drum, steps, words, names);
      var once := Merged(t, "a\r\n", drum, block); Merged(t, once, drum, block) != once
  {
    hide Merged, Formatted;
    var declaration := "a\r\n";
    OneLine(t, drum);
    assert Strip(t.space, declaration) != [] by { InkStays(t.space, declaration); }
    assert declaration[..2] == "a\r" && TrimBreaks(declaration) == TrimBreaks("a\r") == "a\r";
    assert t.breaks("a\r"[1]);
    MergeTwice(t, declaration, drum, steps, words, names);
  }

  lemma OneLine(t: Style, drum: string)
    requires Sane(t) && !t.opens("a")
    ensures SplitLines(t, "a\r\n") == ["a"] && NeedsSection(t, ["a"], drum)
  {
    var declaration := "a\r\n";
    assert declaration[1..] == "\r\n" && "\r\n"[2..] == [];
    assert [] + ['a'] == "a" && ["a"] + [] == ["a"];
    assert Split(t, "\r\n", "a") == ["a"] + Split(t, [], []);
    StripDone(t.space, "a");
    assert Begin(drum)[0] == End(drum)[0] == '/' && "a"[0] == 'a';
    assert ["a"][1..] == [];
  }

  // ----- What a merge does to the text around the block

  /**
   * Where there is a hole, the merged text is the kept lines and the block, each ended by "\n".
   * The text before and after the hole is kept exactly when it has no other line break and its
   * last line is ended by one.
   */
  lemma HoleText(t: Style, declaration: string, drum: string, block: seq<string>)
    requires Sane(t) && block != [] && AllUnbroken(t, Indented(block))
    requires !NeedsSection(t, SplitLines(t, declaration), drum)
    ensures var hole := Hole(t, SplitLines(t, declaration), drum);
      var before, after := Front(t, declaration, hole.0), Skip(t, declaration, hole.1);
      (Merged(t, declaration, drum, block) == before + Unlines(Indented(block)) + after
       <==> NewlineSeparated(t, before) && NewlineSeparated(t, after) && EndsLine(after))
  {
    hide Split, Span, Slot, JoinLines, Unbroken, NewlineSeparated, Unlines, Front, Skip, Merged, Indented, EndsLine;
    var lines := SplitLines(t, declaration);
    var hole, put := Hole(t, lines, drum), Unlines(Indented(block));
    var before, after := Front(t, declaration, hole.0), Skip(t, declaration, hole.1);
    HoleLines(t, declaration, drum, block);
    HoleInside(t, lines, drum);
    var kept, rest := Unlines(lines[..hole.0]), Unlines(lines[hole.1..]);
    var now := lines[..hole.0] + Indented(block) + lines[hole.1..];
    SplitAtHole(t, declaration, hole.0, hole.1);
    UnlinesExactly(t, before);
    UnlinesExactly(t, after);
    BlockLinesSeparated(t, Indented(block));
    assert now != [] by { assert |Indented(block)| > 0; }
    UnlinesJoined(now);
    UnlinesAppend(lines[..hole.0] + Indented(block), lines[hole.1..]);
    UnlinesAppend(lines[..hole.0], Indented(block));
    SeparatedAppend(t, kept + put, rest);
    SeparatedAppend(t, kept, put);
    SeparatedAppend(t, before + put, after);
    SeparatedAppend(t, before, put);
    FrontTerminated(t, declaration, hole.0);
    if kept + put + rest == before + put + after && kept == before {
      SameTail(before + put, rest, after);
    }
  }

  lemma SameTail(a: string, b: string, c: string)
    requires a + b == a + c
    ensures b == c
  {
    assert b == (a + b)[|a|..] && c == (a + c)[|a|..];
  }

  lemma HoleInside(t: Style, lines: seq<string>, drum: string)
    requires !NeedsSection(t, lines, drum)
    ensures Hole(t, lines, drum).0 < |lines|
  {
    hide Span, Slot;
    SpanInside(t, drum, lines, 0, None);
  }

  lemma SplitAtHole(t: Style, s: string, from: nat, to: nat)
    requires Sane(t) && from <= to <= |SplitLines(t, s)|
    ensures SplitLines(t, Front(t, s, from)) == SplitLines(t, s)[..from]
    ensures SplitLines(t, Skip(t, s, to)) == SplitLines(t, s)[to..]
  {
    hide Split;
    if from > 0 {
      FrontSplits(t, s, from, []);
    } else {
      SplitEmpty(t, []);
    }
    SkipSplits(t, s, to, []);
  }

  /** The text before a line ends in a line break; in "\n" if that is the only one it has. */
  lemma FrontTerminated(t: Style, s: string, n: nat)
    requires Sane(t) && n < |SplitLines(t, s)|
    ensures NewlineSeparated(t, Front(t, s, n)) ==> EndsLine(Front(t, s, n))
  {
    hide Split, Front;
    if n > 0 {
      FrontEnds(t, s, n, []);
    } else {
      FrontOfNone(t, s);
    }
  }

  lemma FrontOfNone(t: Style, s: string)
    ensures Front(t, s, 0) == []
  {
  }

  lemma BlockLinesSeparated(t: Style, lines: seq<string>)
    requires Sane(t) && AllUnbroken(t, lines) && lines != []
    ensures NewlineSeparated(t, Unlines(lines))
  {
    hide Unlines, JoinLines, NewlineSeparated, Unbroken;
    UnlinesJoined(lines);
    JoinedSeparated(t, lines);
    SeparatedAppend(t, JoinLines(lines), "\n");
    NewlineAlone(t);
  }

  /** When the block goes into a section that is there, all of the declaration must be so made. */
  lemma SlotText(t: Style, declaration: string, drum: string, block: seq<string>)
    requires Sane(t) && block != [] && AllUnbroken(t, Indented(block))
    requires var lines := SplitLines(t, declaration); Span(t, drum, lines, 0, None) == None && Slot(t, lines, 0).Some?
    ensures var at := Slot(t, SplitLines(t, declaration), 0).value;
      && Front(t, declaration, at) + Skip(t, declaration, at) == declaration
      && (Merged(t, declaration, drum, block)
          == Front(t, declaration, at) + Unlines(Indented(block)) + Skip(t, declaration, at)
          <==> NewlineSeparated(t, declaration) && EndsLine(declaration))
  {
    hide Split, Span, Slot, NewlineSeparated, Unlines, Front, Skip, Merged, Indented;
    var at := Slot(t, SplitLines(t, declaration), 0).value;
    var before, after := Front(t, declaration, at), Skip(t, declaration, at);
    HoleText(t, declaration, drum, block);
    FrontAndSkip(t, declaration, at);
    SeparatedAppend(t, before, after);
    SplitAtHole(t, declaration, at, at);
    SplitEmpty(t, []);
    assert after != [];
    assert declaration[|declaration| - 1] == after[|after| - 1] by { assert declaration == before + after; }
  }

  lemma {:induction false} TrimmedRest(s: string)
    ensures TrimBreaks(s) <= s && forall k :: |TrimBreaks(s)| <= k < |s| ==> s[k] == '\n'
  {
    if s != [] && s[|s| - 1] == '\n' { TrimmedRest(s[..|s| - 1]); }
  }

  /**
   * A declaration that gets a new section is kept in front of it, unless it ends in more than two
   * line breaks, which are cut to two, or is blank but not empty, when it is dropped.
   */
  lemma SectionText(t: Style, declaration: string, drum: string, block: seq<string>)
    requires Sane(t) && NeedsSection(t, SplitLines(t, declaration), drum)
    ensures declaration <= Merged(t, declaration, drum, block) <==>
      if Strip(t.space, declaration) == [] then declaration == []
      else |declaration| - |TrimBreaks(declaration)| <= 2
  {
    hide Split, Span, Slot, Strip, TrimBreaks, Indented;
    var merged, trimmed := Merged(t, declaration, drum, block), TrimBreaks(declaration);
    var section := JoinLines(Section(block));
    SectionStarts(block);
    if Strip(t.space, declaration) == [] {
      StripNothing(t, declaration);
      assert merged == section + "\n" && merged[0] == 'V';
      assert declaration != [] ==> t.space(declaration[0]);
    } else {
      TrimmedRest(declaration);
      var n := |trimmed|;
      assert merged == trimmed + "\n\n" + section + "\n";
      assert merged[n] == merged[n + 1] == '\n' && merged[n + 2] == 'V';
      if |declaration| - n <= 2 {
        forall k | 0 <= k < |declaration| ensures declaration[k] == merged[k] {
          assert k < n ==> trimmed[k] == declaration[k];
        }
      }
    }
  }

  lemma SectionStarts(block: seq<string>)
    ensures JoinLines(Section(block)) != [] && JoinLines(Section(block))[0] == 'V'
  {
    assert Section(block)[0] == HEADER && |Section(block)| > 1;
  }

  /** A section with CR LF: putting a block into it rewrites the line break. */
  lemma SectionRewritten(t: Style, drum: string, block: seq<string>)
    requires Sane(t) && block != [] && AllUnbroken(t, Indented(block)) && t.opens(HEADER) && t.closes(FOOTER)
    ensures var declaration := HEADER + ("\r\n" + (FOOTER + ("\n" + "")));
      && Span(t, drum, SplitLines(t, declaration), 0, None) == None
      && Slot(t, SplitLines(t, declaration), 0) == Some(1)
      && Merged(t, declaration, drum, block)
         != Front(t, declaration, 1) + Unlines(Indented(block)) + Skip(t, declaration, 1)
  {
    hide Split, Merged, Indented, Front, Skip, Unlines;
    var declaration := HEADER + ("\r\n" + (FOOTER + ("\n" + "")));
    var lines := [HEADER, FOOTER];
    AsciiUnbroken(t, HEADER);
    AsciiUnbroken(t, FOOTER);
    SplitCrLf(t, HEADER, FOOTER + ("\n" + ""), []);
    SplitLine(t, FOOTER, "", []);
    SplitEmpty(t, []);
    assert [] + HEADER == HEADER && [] + FOOTER == FOOTER;
    assert SplitLines(t, declaration) == lines;
    SectionUnmarked(t, drum);
    assert Closing(t, lines, 1) == Some(1);
    assert declaration[|HEADER|] == '\r' && t.breaks('\r');
    SlotText(t, declaration, drum, block);
  }

  lemma SectionUnmarked(t: Style, drum: string)
    requires Sane(t)
    ensures Span(t, drum, [HEADER, FOOTER], 0, None) == None
  {
    hide Span;
    FrameInner(t, Splice([], [], [HEADER], [FOOTER], []));
    InnerUnmarked(t, drum, [HEADER]);
    InnerUnmarked(t, drum, [FOOTER]);
    UnmarkedSplice(t, drum, [HEADER], [FOOTER], []);
    assert [HEADER, FOOTER] + [] == [HEADER] + [FOOTER] + [];
    SpanUnmarked(t, drum, [HEADER, FOOTER], [], 0, None);
    assert [HEADER, FOOTER] + [] == [HEADER, FOOTER];
    SpanOfNothing(t, drum, 2, None);
  }

  /** Three line breaks at the end of a declaration: one is deleted. */
  lemma ThirdBreakCut(t: Style, drum: string, block: seq<string>)
    requires Sane(t) && !t.opens("a") && !t.opens("")
    ensures !("a\n\n\n" <= Merged(t, "a\n\n\n", drum, block))
  {
    hide Split, Merged;
    var declaration := "a\n\n\n";
    SplitLine(t, "a", "\n\n", []);
    SplitLine(t, "", "\n", []);
    SplitLine(t, "", "", []);
    SplitEmpty(t, []);
    assert declaration == "a" + ("\n" + "\n\n") && "\n\n" == "" + ("\n" + "\n") && "\n" == "" + ("\n" + "");
    assert [] + "a" == "a" && [] + "" == "" && SplitLines(t, declaration) == ["a", "", ""];
    ThreeLines(t, drum);
    InkStays(t.space, declaration);
    assert declaration[..3] == "a\n\n" && "a\n\n"[..2] == "a\n" && "a\n"[..1] == "a";
    assert TrimBreaks(declaration) == TrimBreaks("a\n\n") == TrimBreaks("a\n") == TrimBreaks("a") == "a";
    SectionText(t, declaration, drum, block);
  }

  lemma ThreeLines(t: Style, drum: string)
    requires Sane(t) && !t.opens("a") && !t.opens("")
    ensures NeedsSection(t, ["a", "", ""], drum)
  {
    var lines := ["a", "", ""];
    StripDone(t.space, "a");
    StripDone(t.space, "");
    assert Begin(drum)[0] == End(drum)[0] == '/' && "a"[0] == 'a';
    SpanUnmarked(t, drum, lines, [], 0, None);
    assert lines + [] == lines;
  }

  // ----- Names of drums

  /** `_IDENTIFIER.match(name)`, whose `$` also allows one line break at the end, without doubled or final underscores. */
  predicate ValidDrumName(name: string) {
    && (IsDrumName(name) || (name != [] && name[|name| - 1] == '\n' && IsDrumName(name[..|name| - 1])))
    && (forall k :: 0 <= k < |name| - 1 ==> !(name[k] == '_' && name[k + 1] == '_'))
    && name[|name| - 1] != '_'
  }

  /** The one kind of accepted name that is no identifier. */
  lemma BrokenNameAccepted()
    ensures ValidDrumName("DR0\n") && !IsDrumName("DR0\n")
  {
    assert "DR0\n"[..3] == "DR0" && !IsLetter("DR0\n"[3]) && !IsDigit("DR0\n"[3]);
  }

  /** No block is ever found for a drum whose name holds a line break. */
  lemma {:induction false} BrokenNameNeverFound(t: Style, drum: string, lines: seq<string>, at: nat)
    requires !Unbroken(t, drum) && AllUnbroken(t, lines)
    ensures Span(t, drum, lines, at, None) == None
    decreases lines
  {
    if lines != [] {
      assert Unbroken(t, lines[0]);
      UnbrokenStrip(t, lines[0]);
      var k :| 0 <= k < |drum| && t.breaks(drum[k]);
      assert Begin(drum)[26 + k] == drum[k];
      BrokenNameNeverFound(t, drum, lines[1..], at + 1);
    }
  }

  /** A name the editor accepts round-trips exactly when it does not end in a line break. */
  lemma AcceptedNames(t: Style, declaration: string, drum: string, steps: nat, words: seq<nat>, names: seq<string>)
    requires ValidDrumName(drum) && Printable(t, "D", words, names)
    ensures var merged := Merged(t, declaration, drum, Formatted(t, drum, steps, words, names));
      (ParseLines(t, SplitLines(t, merged), drum) == Block(Pattern(Clamped(steps), words, Stripped(t, names)))
       <==> drum[|drum| - 1] != '\n')
  {
    hide Merged, Formatted, Split, ReadLines;
    var merged := Merged(t, declaration, drum, Formatted(t, drum, steps, words, names));
    if drum[|drum| - 1] == '\n' {
      SplitUnbroken(t, merged, []);
      assert t.breaks(drum[|drum| - 1]);
      BrokenNameNeverFound(t, drum, SplitLines(t, merged), 0);
    } else {
      MergeThenParse(t, declaration, drum, steps, words, names);
    }
  }
}
