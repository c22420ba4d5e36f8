/** How a drum's markers are found when the lines around them, or between them, change. */
module DrumSpans {
  import opened Wrappers
  import opened TextTools
  import opened DrumPattern

  predicate IsMarker(t: Style, drum: string, line: string) {
    Strip(t.space, line) == Begin(drum) || Strip(t.space, line) == End(drum)
  }

  predicate Unmarked(t: Style, drum: string, lines: seq<string>) {
    forall k :: 0 <= k < |lines| ==> !IsMarker(t, drum, lines[k])
  }

  /** The begin marker still open after these lines. */
  function LastBegin(t: Style, drum: string, lines: seq<string>, at: nat, first: Option<nat>): (r: Option<nat>)
    requires first.Some? ==> first.value < at
    ensures r.Some? ==> r.value < at + |lines|
    decreases lines
  {
    if lines == [] then first
    else LastBegin(t, drum, lines[1..], at + 1, if Strip(t.space, lines[0]) == Begin(drum) then Some(at) else first)
  }

  lemma {:induction false} SpanAfter(t: Style, drum: string, before: seq<string>, rest: seq<string>, at: nat, first: Option<nat>)
    requires first.Some? ==> first.value < at
    requires Span(t, drum, before, at, first) == None
    ensures (Span(t, drum, before + rest, at, first)
             == Span(t, drum, rest, at + |before|, LastBegin(t, drum, before, at, first)))
    decreases before
  {
    if before == [] {
      assert before + rest == rest;
    } else {
      assert (before + rest)[1..] == before[1..] + rest;
      SpanAfter(t, drum, before[1..], rest, at + 1, if Strip(t.space, before[0]) == Begin(drum) then Some(at) else first);
    }
  }

  lemma {:induction false} SpanStays(t: Style, drum: string, before: seq<string>, rest: seq<string>, at: nat, first: Option<nat>)
    requires Span(t, drum, before, at, first).Some?
    ensures Span(t, drum, before + rest, at, first) == Span(t, drum, before, at, first)
    decreases before
  {
    if before == [] {
      assert false;
    } else {
      var next := if Strip(t.space, before[0]) == Begin(drum) then Some(at) else first;
      assert (before + rest)[1..] == before[1..] + rest;
      if Strip(t.space, before[0]) == Begin(drum) || !(Strip(t.space, before[0]) == End(drum) && first.Some?) {
        SpanStays(t, drum, before[1..], rest, at + 1, next);
      }
    }
  }

  lemma {:induction false} SpanUnmarked(t: Style, drum: string, quiet: seq<string>, rest: seq<string>, at: nat, first: Option<nat>)
    requires Unmarked(t, drum, quiet)
    ensures Span(t, drum, quiet + rest, at, first) == Span(t, drum, rest, at + |quiet|, first)
    decreases quiet
  {
    if quiet == [] {
      assert quiet + rest == rest;
    } else {
      assert (quiet + rest)[1..] == quiet[1..] + rest;
      assert !IsMarker(t, drum, quiet[0]);
      SpanUnmarked(t, drum, quiet[1..], rest, at + 1, first);
    }
  }

  /** Lines that stop short of the end marker hold no complete block. */
  lemma {:induction false} SpanPrefix(t: Style, drum: string, lines: seq<string>, n: nat, at: nat, first: Option<nat>)
    requires n <= |lines|
    requires Span(t, drum, lines, at, first).Some? ==> at + n <= Span(t, drum, lines, at, first).value.1
    ensures Span(t, drum, lines[..n], at, first) == None
    decreases lines
  {
    if n > 0 {
      assert lines[..n][1..] == lines[1..][..n - 1];
      SpanPrefix(t, drum, lines[1..], n - 1, at + 1, if Strip(t.space, lines[0]) == Begin(drum) then Some(at) else first);
    }
  }

  /** A block after lines that hold no complete one is the block found. */
  lemma BlockFound(t: Style, drum: string, before: seq<string>, block: seq<string>, after: seq<string>)
    requires Span(t, drum, before, 0, None) == None
    requires |block| >= 2 && Strip(t.space, block[0]) == Begin(drum) && Strip(t.space, block[|block| - 1]) == End(drum)
    requires Unmarked(t, drum, block[1..|block| - 1])
    ensures Span(t, drum, before + block + after, 0, None) == Some((|before|, |before| + |block| - 1))
  {
    var last := |block| - 1;
    var quiet, rest := block[1..last], [block[last]] + after;
    assert before + block + after == before + (block + after);
    SpanAfter(t, drum, before, block + after, 0, None);
    MarkersDiffer(drum, drum);
    assert block + after == [block[0]] + (quiet + rest);
    assert (block + after)[1..] == quiet + rest;
    SpanUnmarked(t, drum, quiet, rest, |before| + 1, Some(|before|));
    assert rest[0] == block[last];
  }

  /** No drum's marker is another drum's marker. */
  lemma MarkersDiffer(drum: string, other: string)
    ensures Begin(drum) != End(other)
    ensures drum != other ==> Begin(drum) != Begin(other) && End(drum) != End(other)
  {
    var b, e := Begin(drum), End(other);
    assert b[|b| - 1] == 'n' && e[|e| - 1] == 'd';
    if Begin(drum) == Begin(other) {
      assert drum == Begin(drum)[26..|Begin(drum)| - 7];
      assert other == Begin(other)[26..|Begin(other)| - 7];
    }
    if End(drum) == End(other) {
      assert drum == End(drum)[26..|End(drum)| - 5];
      assert other == End(other)[26..|End(other)| - 5];
    }
  }

  // ----- What moving lines does to a drum's block

  /** The same lines read from another position: markers found in them move along. */
  lemma {:induction false} SpanMoves(t: Style, drum: string, lines: seq<string>, at: nat, to: nat, kept: Option<nat>, first: Option<nat>, moved: Option<nat>)
    requires first == moved == kept || (first.Some? && moved.Some? && moved.value - to == first.value - at)
    requires kept.Some? ==> kept.value < at && kept.value < to
    ensures var x, y := Span(t, drum, lines, at, first), Span(t, drum, lines, to, moved);
      x.Some? == y.Some?
      && (x.Some? ==> x.value.1 - at == y.value.1 - to
                      && ((x.value.0 == y.value.0 && Some(x.value.0) == kept) || x.value.0 - at == y.value.0 - to))
    decreases lines
  {
    if lines != [] {
      if Strip(t.space, lines[0]) == Begin(drum) {
        SpanMoves(t, drum, lines[1..], at + 1, to + 1, kept, Some(at), Some(to));
      } else {
        SpanMoves(t, drum, lines[1..], at + 1, to + 1, kept, first, moved);
      }
    }
  }

  /** The drum's block does not reach over the lines from `at` up to `end`. */
  predicate Apart(t: Style, drum: string, lines: seq<string>, at: nat, end: nat) {
    var span := Span(t, drum, lines, 0, None);
    span.Some? ==> span.value.1 < at || end <= span.value.0
  }

  /** The lines of the drum's block, markers included. */
  function BlockOf(t: Style, lines: seq<string>, drum: string): Option<seq<string>> {
    var span := Span(t, drum, lines, 0, None);
    SpanInside(t, drum, lines, 0, None);
    if span == None then None else Some(lines[span.value.0..span.value.1 + 1])
  }

  lemma PatternIsInBlock(t: Style, was: seq<string>, now: seq<string>, drum: string)
    requires BlockOf(t, was, drum) == BlockOf(t, now, drum)
    ensures ParseLines(t, was, drum) == ParseLines(t, now, drum)
  {
    hide Span, ReadLines;
    SpanInside(t, drum, was, 0, None);
    SpanInside(t, drum, now, 0, None);
  }

  lemma BlockBefore(t: Style, drum: string, before: seq<string>, rest: seq<string>)
    requires Span(t, drum, before, 0, None).Some?
    ensures BlockOf(t, before + rest, drum) == BlockOf(t, before, drum)
  {
    SpanStays(t, drum, before, rest, 0, None);
    hide Span;
    SpanInside(t, drum, before, 0, None);
    var span := Span(t, drum, before, 0, None).value;
    assert (before + rest)[span.0..span.1 + 1] == before[span.0..span.1 + 1];
  }

  /** Where the drum's block is when none ends before the exchanged lines. */
  lemma SpanBeyond(t: Style, drum: string, before: seq<string>, middle: seq<string>, after: seq<string>)
    requires Unmarked(t, drum, middle) && Span(t, drum, before, 0, None) == None
    ensures (Span(t, drum, before + middle + after, 0, None)
             == Span(t, drum, after, |before| + |middle|, LastBegin(t, drum, before, 0, None)))
  {
    hide Unmarked, Span, LastBegin;
    assert before + middle + after == before + (middle + after);
    SpanAfter(t, drum, before, middle + after, 0, None);
    SpanUnmarked(t, drum, middle, after, |before|, LastBegin(t, drum, before, 0, None));
  }

  lemma BlockAt(t: Style, lines: seq<string>, drum: string, span: Option<(nat, nat)>)
    requires Span(t, drum, lines, 0, None) == span
    ensures span.Some? ==> span.value.0 < span.value.1 < |lines|
    ensures BlockOf(t, lines, drum) == if span == None then None else Some(lines[span.value.0..span.value.1 + 1])
  {
    hide Span;
    SpanInside(t, drum, lines, 0, None);
  }

  lemma BlockBeyond(t: Style, drum: string, before: seq<string>, gone: seq<string>, put: seq<string>, after: seq<string>)
    requires Unmarked(t, drum, gone) && Unmarked(t, drum, put) && Span(t, drum, before, 0, None) == None
    requires Apart(t, drum, before + gone + after, |before|, |before| + |gone|)
    ensures BlockOf(t, before + put + after, drum) == BlockOf(t, before + gone + after, drum)
  {
    hide Unmarked, Span, LastBegin, BlockOf;
    var was, now := before + gone + after, before + put + after;
    var kept, at, to := LastBegin(t, drum, before, 0, None), |before| + |gone|, |before| + |put|;
    SpanBeyond(t, drum, before, gone, after);
    SpanBeyond(t, drum, before, put, after);
    var x, y := Span(t, drum, after, at, kept), Span(t, drum, after, to, kept);
    BlockAt(t, was, drum, x);
    BlockAt(t, now, drum, y);
    SpanMoves(t, drum, after, at, to, kept, kept, kept);
    SpanInside(t, drum, after, at, kept);
    if x.Some? { SameSlice(before, gone, put, after, x.value, y.value); }
  }

  /** Exchanging lines that hold none of a drum's markers and lie outside its block leaves its pattern alone. */
  lemma OtherDrumKept(t: Style, drum: string, before: seq<string>, gone: seq<string>, put: seq<string>, after: seq<string>)
    requires Unmarked(t, drum, gone) && Unmarked(t, drum, put)
    requires Apart(t, drum, before + gone + after, |before|, |before| + |gone|)
    ensures ParseLines(t, before + put + after, drum) == ParseLines(t, before + gone + after, drum)
  {
    hide Unmarked, Span, Apart, ParseLines, BlockOf;
    if Span(t, drum, before, 0, None).Some? {
      assert before + gone + after == before + (gone + after) && before + put + after == before + (put + after);
      BlockBefore(t, drum, before, gone + after);
      BlockBefore(t, drum, before, put + after);
    } else {
      BlockBeyond(t, drum, before, gone, put, after);
    }
    PatternIsInBlock(t, before + put + after, before + gone + after, drum);
  }

  lemma SameSlice(before: seq<string>, gone: seq<string>, put: seq<string>, after: seq<string>, x: (nat, nat), y: (nat, nat))
    requires |before| + |gone| <= x.0 <= x.1 < |before| + |gone| + |after|
    requires x.0 - |gone| == y.0 - |put| && x.1 - |gone| == y.1 - |put|
    ensures (before + gone + after)[x.0..x.1 + 1] == (before + put + after)[y.0..y.1 + 1]
  {
    var was, now := before + gone + after, before + put + after;
    var n := |before| + |gone|;
    assert was[n..] == after && now[|before| + |put|..] == after;
    assert was[x.0..x.1 + 1] == after[x.0 - n..x.1 + 1 - n];
    assert now[y.0..y.1 + 1] == after[x.0 - n..x.1 + 1 - n];
  }
}
