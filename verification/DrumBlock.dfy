/** A printed block as a whole: only its ends are markers, and it reads back as what was printed. */
module DrumBlock {
  import opened Wrappers
  import opened TextTools
  import opened DrumPattern
  import opened DrumReading
  import opened DrumSpans
  import opened DrumText

  /** What the editor prints: eight 16-bit words and sixteen names of one line each. */
  ghost predicate Printable(t: Style, drum: string, words: seq<nat>, names: seq<string>) {
    && Sane(t) && IsDrumName(drum)
    && |words| == MAX_STEPS && (forall k :: 0 <= k < |words| ==> words[k] < 65536)
    && |names| == BITS && AllUnbroken(t, names)
  }

  function Stripped(t: Style, names: seq<string>): (r: seq<string>)
    ensures |r| == |names| && forall k :: 0 <= k < |r| ==> r[k] == Strip(t.space, names[k])
  {
    seq(|names|, k requires 0 <= k < |names| => Strip(t.space, names[k]))
  }

  // ----- Lines that are no marker

  predicate Solid(t: Style, s: string) {
    s != [] && !t.space(s[0]) && !t.space(s[|s| - 1])
  }

  /** A line that is no drum's marker and holds no line break. */
  predicate Inner(t: Style, line: string) {
    Unbroken(t, line) && !("// T" <= Strip(t.space, line))
  }

  predicate AllInner(t: Style, lines: seq<string>) {
    forall k :: 0 <= k < |lines| ==> Inner(t, lines[k])
  }

  lemma InnerUnmarked(t: Style, drum: string, lines: seq<string>)
    requires AllInner(t, lines)
    ensures Unmarked(t, drum, lines) && AllUnbroken(t, lines)
  {
    assert Begin(drum)[..4] == "// T" && End(drum)[..4] == "// T";
    assert "// T" <= Begin(drum) && "// T" <= End(drum);
  }

  lemma IndentStrips(t: Style, s: string)
    requires Sane(t)
    ensures Strip(t.space, INDENT + s) == Strip(t.space, s)
    ensures Unbroken(t, s) ==> Unbroken(t, INDENT + s)
  {
    StripLead(t.space, INDENT, s);
  }

  lemma IndentSolid(t: Style, s: string)
    requires Sane(t) && Solid(t, s)
    ensures Strip(t.space, INDENT + s) == s
  {
    IndentStrips(t, s);
    StripDone(t.space, s);
  }

  /** Characters of the printed lines other than those of a name. */
  predicate Ascii(s: string) {
    forall k :: 0 <= k < |s| ==> ' ' <= s[k] <= '~'
  }

  lemma AsciiUnbroken(t: Style, s: string)
    requires Sane(t) && Ascii(s)
    ensures Unbroken(t, s)
  {
  }

  lemma DecimalAscii(n: nat)
    ensures Ascii(Decimal(n)) && Decimal(n) != []
  {
    DecimalBack(n);
  }

  lemma UnbrokenStrip(t: Style, s: string)
    requires Unbroken(t, s)
    ensures Unbroken(t, Strip(t.space, s))
  {
    LeadEnds(t.space, s);
    TrailEnds(t.space, Lead(t.space, s));
  }

  // ----- The printed lines

  lemma NameShape(t: Style, bit: nat, name: string)
    requires Sane(t) && Solid(t, name) && Unbroken(t, name)
    ensures Strip(t.space, INDENT + NameLine(bit, name)) == NameLine(bit, name)
    ensures Inner(t, INDENT + NameLine(bit, name))
  {
    hide Decimal;
    var s := NameLine(bit, name);
    var head := "// B" + Decimal(bit) + ": ";
    DecimalAscii(bit);
    AsciiUnbroken(t, head);
    assert s == head + name && s[3] == 'B' && "// T"[3] == 'T';
    assert s[|s| - 1] == name[|name| - 1];
    IndentSolid(t, s);
    IndentStrips(t, s);
  }

  lemma CountShape(t: Style, drum: string, steps: nat)
    requires Sane(t) && IsDrumName(drum)
    ensures Strip(t.space, INDENT + CountLine(drum, steps)) == CountLine(drum, steps)
    ensures Inner(t, INDENT + CountLine(drum, steps))
  {
    hide Decimal;
    var s := CountLine(drum, steps);
    DecimalAscii(steps);
    AsciiUnbroken(t, s);
    assert s[0] == drum[0] && "// T"[0] == '/' && s[|s| - 1] == ';';
    IndentSolid(t, s);
    IndentStrips(t, s);
  }

  lemma ArrayShape(t: Style, drum: string)
    requires Sane(t) && IsDrumName(drum)
    ensures Strip(t.space, INDENT + ArrayLine(drum)) == ArrayLine(drum)
    ensures Inner(t, INDENT + ArrayLine(drum))
  {
    hide Decimal;
    var s := ArrayLine(drum);
    DecimalAscii(MAX_STEPS - 1);
    AsciiUnbroken(t, s);
    assert s[0] == drum[0] && "// T"[0] == '/' && s[|s| - 1] == '[';
    IndentSolid(t, s);
    IndentStrips(t, s);
  }

  lemma BareWordAscii(step: nat, steps: nat, word: nat)
    requires word < 65536
    ensures var s := BareWordLine(step, steps, word); Ascii(s) && |s| > 4 && s[0] == '2' && '!' <= s[|s| - 1] <= '~'
  {
    hide Bits, Decimal;
    BitsBack(word);
    WordLineParts(step, steps, word);
    DecimalAscii(step);
    DecimalBack(step);
    GroupsMarked(Bits(word));
    assert |Groups(Bits(word))| > 4;
  }

  lemma WordShape(t: Style, step: nat, steps: nat, word: nat)
    requires Sane(t) && word < 65536
    ensures Strip(t.space, INDENT + WordLine(step, steps, word)) == BareWordLine(step, steps, word)
    ensures Inner(t, INDENT + WordLine(step, steps, word))
  {
    hide BareWordLine, WordLine;
    var s := BareWordLine(step, steps, word);
    BareWord(step, steps, word);
    BareWordAscii(step, steps, word);
    AsciiUnbroken(t, s);
    assert "// T"[0] == '/';
    IndentSolid(t, s);
    IndentStrips(t, s);
    IndentStrips(t, INDENT + s);
  }

  lemma MarkShape(t: Style, drum: string)
    requires Sane(t) && IsDrumName(drum)
    ensures Strip(t.space, INDENT + Begin(drum)) == Begin(drum) && Unbroken(t, INDENT + Begin(drum))
    ensures Strip(t.space, INDENT + End(drum)) == End(drum) && Unbroken(t, INDENT + End(drum))
    ensures Strip(t.space, INDENT + "];") == "];" && Inner(t, INDENT + "];")
  {
    var b, e := Begin(drum), End(drum);
    AsciiUnbroken(t, b);
    AsciiUnbroken(t, e);
    AsciiUnbroken(t, "];");
    assert b[0] == '/' && b[|b| - 1] == 'n' && e[0] == '/' && e[|e| - 1] == 'd' && "// T"[0] == '/';
    IndentSolid(t, b);
    IndentStrips(t, b);
    IndentSolid(t, e);
    IndentStrips(t, e);
    IndentSolid(t, "];");
    IndentStrips(t, "];");
  }

  // ----- The block, piece by piece

  lemma IndentedCons(line: string, rest: seq<string>)
    ensures Indented([line] + rest) == [INDENT + line] + Indented(rest)
  {
  }

  lemma IndentedAppend(a: seq<string>, b: seq<string>)
    ensures Indented(a + b) == Indented(a) + Indented(b)
  {
  }

  lemma InnerAppend(t: Style, a: seq<string>, b: seq<string>)
    requires AllInner(t, a) && AllInner(t, b)
    ensures AllInner(t, a + b)
  {
  }

  /** One line of a block, read. */
  lemma ReadOne(t: Style, drum: string, line: string, rest: seq<string>, p: Pattern, q: Pattern)
    requires Take(p, Reading(t, drum, Strip(t.space, line))) == Some(q)
    ensures ReadLines(t, drum, [line] + rest, p) == ReadLines(t, drum, rest, q)
  {
    hide Take, Reading;
    assert ([line] + rest)[1..] == rest;
  }

  /** The name lines from one bit on: no markers, and they set the names still blank. */
  lemma {:induction false} NamesRead(t: Style, drum: string, names: seq<string>, bit: nat, rest: seq<string>, p: Pattern)
    requires Sane(t) && |names| == BITS && AllUnbroken(t, names) && bit <= BITS && |p.names| == BITS
    requires forall k :: 0 <= k < BITS ==> p.names[k] == if k < bit then Strip(t.space, names[k]) else ""
    ensures AllInner(t, Indented(NameLines(t, names, bit)))
    ensures (ReadLines(t, drum, Indented(NameLines(t, names, bit)) + rest, p)
             == ReadLines(t, drum, rest, p.(names := Stripped(t, names))))
    decreases BITS - bit
  {
    hide Reading, ReadLines, NameLine, Strip;
    if bit == BITS {
      assert p.names == Stripped(t, names);
      assert Indented(NameLines(t, names, bit)) + rest == rest;
    } else {
      var name := Strip(t.space, names[bit]);
      var more := NameLines(t, names, bit + 1);
      if name == [] {
        assert NameLines(t, names, bit) == more by { assert [] + more == more; }
        NamesRead(t, drum, names, bit + 1, rest, p);
      } else {
        var q := p.(names := p.names[bit := name]);
        StripEnds(t.space, names[bit]);
        UnbrokenStrip(t, names[bit]);
        NameShape(t, bit, name);
        StripTwice(t.space, names[bit]);
        ReadName(t, drum, bit, name);
        IndentedCons(NameLine(bit, name), more);
        var line := INDENT + NameLine(bit, name);
        assert Indented(NameLines(t, names, bit)) + rest == [line] + (Indented(more) + rest);
        ReadOne(t, drum, line, Indented(more) + rest, p, q);
        NamesRead(t, drum, names, bit + 1, rest, q);
        InnerAppend(t, [line], Indented(more));
      }
    }
  }

  /** The word lines from one step on: no markers, and they add their words in order. */
  lemma {:induction false} WordsRead(t: Style, drum: string, words: seq<nat>, steps: nat, step: nat, rest: seq<string>, p: Pattern)
    requires Sane(t) && IsDrumName(drum) && step <= |words| && forall k :: 0 <= k < |words| ==> words[k] < 65536
    ensures AllInner(t, Indented(WordLines(words, steps, step)))
    ensures (ReadLines(t, drum, Indented(WordLines(words, steps, step)) + rest, p)
             == ReadLines(t, drum, rest, p.(words := p.words + words[step..])))
    decreases |words| - step
  {
    hide Reading, ReadLines, WordLine, BareWordLine, Strip;
    if step == |words| {
      assert p.words + words[step..] == p.words;
      assert Indented(WordLines(words, steps, step)) + rest == rest;
    } else {
      var more, line := WordLines(words, steps, step + 1), INDENT + WordLine(step, steps, words[step]);
      var q := p.(words := p.words + [words[step]]);
      WordShape(t, step, steps, words[step]);
      ReadWord(t, drum, step, steps, words[step]);
      IndentedCons(WordLine(step, steps, words[step]), more);
      assert Indented(WordLines(words, steps, step)) + rest == [line] + (Indented(more) + rest);
      ReadOne(t, drum, line, Indented(more) + rest, p, q);
      WordsRead(t, drum, words, steps, step + 1, rest, q);
      assert p.words + [words[step]] + words[step + 1..] == p.words + words[step..];
      InnerAppend(t, [line], Indented(more));
    }
  }

  /** An indented block, taken apart. */
  lemma BlockParts(t: Style, drum: string, steps: nat, words: seq<nat>, names: seq<string>)
    ensures (Indented(Formatted(t, drum, steps, words, names))
             == [INDENT + Begin(drum)] + (Indented(Inside(t, drum, steps, words, names)) + [INDENT + End(drum)]))
    ensures (Indented(Inside(t, drum, steps, words, names))
             == Indented(NameLines(t, names, 0)) + ([INDENT + CountLine(drum, steps)] + ([INDENT + ArrayLine(drum)]
                + (Indented(WordLines(words, steps, 0)) + [INDENT + "];"]))))
  {
    hide NameLines, WordLines, CountLine, ArrayLine, Begin, End;
    var count, table, n, w := CountLine(drum, steps), ArrayLine(drum), NameLines(t, names, 0), WordLines(words, steps, 0);
    IndentedAppend(w, ["];"]);
    IndentedAppend([count, table], w + ["];"]);
    IndentedAppend(n, [count, table] + (w + ["];"]));
    IndentedAppend(Inside(t, drum, steps, words, names), [End(drum)]);
    IndentedCons(Begin(drum), Inside(t, drum, steps, words, names) + [End(drum)]);
  }

  /** No line inside a block is a marker or holds a line break. */
  lemma InsideInner(t: Style, drum: string, steps: nat, words: seq<nat>, names: seq<string>)
    requires Printable(t, drum, words, names)
    ensures AllInner(t, Indented(Inside(t, drum, steps, words, names)))
  {
    hide Indented, NameLines, WordLines, CountLine, ArrayLine, Inner, AllUnbroken, Inside, ReadLines;
    BlockParts(t, drum, steps, words, names);
    NamesRead(t, drum, names, 0, [], Blank());
    WordsRead(t, drum, words, steps, 0, [], Blank());
    CountShape(t, drum, steps);
    ArrayShape(t, drum);
    MarkShape(t, drum);
  }

  /** A printed block reads back as the clamped step count, the same words and the stripped names. */
  lemma BlockReads(t: Style, drum: string, steps: nat, words: seq<nat>, names: seq<string>)
    requires Printable(t, drum, words, names)
    ensures (ReadLines(t, drum, Indented(Formatted(t, drum, steps, words, names)), Blank())
             == Some(Pattern(Clamped(steps), words, Stripped(t, names))))
  {
    hide Indented, NameLines, WordLines, CountLine, ArrayLine, Inner, AllUnbroken, Inside, Formatted, Reading, Begin, End, Strip;
    var p1 := Blank().(names := Stripped(t, names));
    var p2 := p1.(steps := Clamped(steps));
    var p3 := p2.(words := words);
    var close, last := [INDENT + "];"], [INDENT + End(drum)];
    var count, table := INDENT + CountLine(drum, steps), INDENT + ArrayLine(drum);
    var w := Indented(WordLines(words, steps, 0));
    BlockParts(t, drum, steps, words, names);
    Regrouped([INDENT + Begin(drum)], Indented(NameLines(t, names, 0)), [count], [table], w, close, last);
    MarkShape(t, drum);
    ReadMarks(t, drum);
    ReadOne(t, drum, INDENT + Begin(drum), Indented(NameLines(t, names, 0)) + ([count] + ([table] + (w + (close + last)))), Blank(), Blank());
    NamesRead(t, drum, names, 0, [count] + ([table] + (w + (close + last))), Blank());
    CountShape(t, drum, steps);
    ReadCount(t, drum, steps);
    ReadOne(t, drum, count, [table] + (w + (close + last)), p1, p2);
    ArrayShape(t, drum);
    ReadArray(t, drum);
    ReadOne(t, drum, table, w + (close + last), p2, p2);
    WordsRead(t, drum, words, steps, 0, close + last, p2);
    assert [] + words[0..] == words;
    ReadOne(t, drum, INDENT + "];", last, p3, p3);
    assert last + [] == last;
    ReadOne(t, drum, INDENT + End(drum), [], p3, p3);
  }

  lemma Regrouped(a: seq<string>, b: seq<string>, c: seq<string>, d: seq<string>, e: seq<string>, f: seq<string>, g: seq<string>)
    ensures a + ((b + (c + (d + (e + f)))) + g) == a + (b + (c + (d + (e + (f + g)))))
  {
  }

  // ----- The declaration

  /** The array is declared with as many elements, counted from 0, as there are word lines. */
  lemma ArrayHoldsWords(t: Style, drum: string, steps: nat, words: seq<nat>, names: seq<string>)
    requires Printable(t, drum, words, names)
    ensures var head := drum + "_PATTERN : ARRAY[0.."; var rest := ArrayLine(drum)[|head|..]; var n := DigitRun(rest);
      && head <= ArrayLine(drum) && n > 0 && DecimalValue(rest[..n]) + 1 == |WordLines(words, steps, 0)|
      && rest[n..] == "] OF WORD := ["
  {
    hide DecimalValue, WordLine;
    var head, bound := drum + "_PATTERN : ARRAY[0..", Decimal(MAX_STEPS - 1);
    DecimalBack(MAX_STEPS - 1);
    DigitRunOver(bound, "] OF WORD := [");
    assert ArrayLine(drum)[|head|..] == bound + "] OF WORD := [";
    WordPerLine(words, steps, 0);
  }

  lemma {:induction false} WordPerLine(words: seq<nat>, steps: nat, step: nat)
    requires step <= |words|
    ensures |WordLines(words, steps, step)| == |words| - step
    decreases |words| - step
  {
    if step < |words| { WordPerLine(words, steps, step + 1); }
  }
}
