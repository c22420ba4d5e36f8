/** The marked text block that holds a drum's pattern inside a declaration. */
module DrumPattern {
  import opened Wrappers
  import opened TextTools

  const MAX_STEPS: nat := 8
  const BITS: nat := 16
  const INDENT := "    "

  /**
   * How text is divided: white space, line breaks, and which lines open and close a constant
   * section (`VAR_GLOBAL CONSTANT` and `END_VAR`, in any spelling).
   */
  datatype Style = Style(space: char -> bool, breaks: char -> bool, opens: string -> bool, closes: string -> bool)

  /** What holds of white space and line breaks in every dialect. */
  ghost predicate Sane(t: Style) {
    && t.space(' ') && !t.breaks(' ')
    && (forall c :: '!' <= c <= '~' ==> !t.space(c) && !t.breaks(c))
    && t.breaks('\n') && t.breaks('\r')
  }

  // ----- Numbers

  predicate IsDigit(c: char) {
    '0' <= c <= '9'
  }

  function DigitValue(c: char): nat
    requires IsDigit(c)
  {
    c as int - '0' as int
  }

  /** `"%d" % n` */
  function Decimal(n: nat): string {
    if n < 10 then ["0123456789"[n]] else Decimal(n / 10) + ["0123456789"[n % 10]]
  }

  function DecimalValue(s: string): nat
    requires forall k :: 0 <= k < |s| ==> IsDigit(s[k])
  {
    if s == [] then 0 else 10 * DecimalValue(s[..|s| - 1]) + DigitValue(s[|s| - 1])
  }

  function Binary(n: nat): string {
    if n < 2 then ["01"[n]] else Binary(n / 2) + ["01"[n % 2]]
  }

  predicate IsBit(c: char) {
    c == '0' || c == '1'
  }

  function BinaryValue(s: string): nat
    requires forall k :: 0 <= k < |s| ==> IsBit(s[k])
  {
    if s == [] then 0 else 2 * BinaryValue(s[..|s| - 1]) + (if s[|s| - 1] == '1' then 1 else 0)
  }

  function ZeroFilled(s: string): (r: string)
    ensures |r| >= BITS
    decreases BITS - |s|
  {
    if |s| >= BITS then s else ZeroFilled(['0'] + s)
  }

  /** `format(word, "016b")` */
  function Bits(word: nat): (bits: string)
    ensures |bits| >= BITS
  {
    ZeroFilled(Binary(word))
  }

  function BinaryLiteral(word: nat): string {
    var bits := Bits(word);
    "2#" + bits[0..4] + "_" + bits[4..8] + "_" + bits[8..12] + "_" + bits[12..16]
  }

  // ----- Printing a block

  function Begin(drum: string): string {
    "// TwinForge drum pattern " + drum + ": begin"
  }

  function End(drum: string): string {
    "// TwinForge drum pattern " + drum + ": end"
  }

  function NameLine(bit: nat, name: string): string {
    "// B" + Decimal(bit) + ": " + name
  }

  function NameLines(t: Style, names: seq<string>, bit: nat): seq<string>
    requires bit <= |names|
    decreases |names| - bit
  {
    if bit == |names| then []
    else
      var name := Strip(t.space, names[bit]);
      (if name == [] then [] else [NameLine(bit, name)]) + NameLines(t, names, bit + 1)
  }

  function CountLine(drum: string, steps: nat): string {
    drum + "_NSTEPS : INT := " + Decimal(steps) + ";"
  }

  function ArrayLine(drum: string): string {
    drum + "_PATTERN : ARRAY[0.." + Decimal(MAX_STEPS - 1) + "] OF WORD := ["
  }

  function WordLine(step: nat, steps: nat, word: nat): string {
    INDENT + BinaryLiteral(word) + (if step < MAX_STEPS - 1 then "," else "") + "  // step " + Decimal(step)
    + (if step < steps then "" else " (unused)")
  }

  function WordLines(words: seq<nat>, steps: nat, step: nat): seq<string>
    requires step <= |words|
    decreases |words| - step
  {
    if step == |words| then [] else [WordLine(step, steps, words[step])] + WordLines(words, steps, step + 1)
  }

  function Inside(t: Style, drum: string, steps: nat, words: seq<nat>, names: seq<string>): seq<string> {
    NameLines(t, names, 0) + ([CountLine(drum, steps), ArrayLine(drum)] + (WordLines(words, steps, 0) + ["];"]))
  }

  function Formatted(t: Style, drum: string, steps: nat, words: seq<nat>, names: seq<string>): seq<string> {
    [Begin(drum)] + (Inside(t, drum, steps, words, names) + [End(drum)])
  }

  method FormatBlock(t: Style, drum: string, steps: nat, words: seq<nat>, names: seq<string>) returns (lines: seq<string>)
    requires |words| >= MAX_STEPS && |names| >= BITS
    ensures lines == Formatted(t, drum, steps, words[..MAX_STEPS], names[..BITS])
  {
    hide WordLine, NameLine, CountLine, ArrayLine, Begin, End;
    lines := [Begin(drum)];
    lines := AppendNames(t, lines, names[..BITS]);
    lines := lines + [CountLine(drum, steps), ArrayLine(drum)];
    lines := AppendWords(lines, words[..MAX_STEPS], steps);
    lines := lines + ["];", End(drum)];
    Regroup([Begin(drum)], NameLines(t, names[..BITS], 0), [CountLine(drum, steps), ArrayLine(drum)],
            WordLines(words[..MAX_STEPS], steps, 0), ["];"], [End(drum)]);
  }

  lemma Regroup(a: seq<string>, b: seq<string>, c: seq<string>, d: seq<string>, e: seq<string>, f: seq<string>)
    ensures a + b + c + d + (e + f) == a + ((b + (c + (d + e))) + f)
  {
  }

  method AppendNames(t: Style, before: seq<string>, names: seq<string>) returns (lines: seq<string>)
    ensures lines == before + NameLines(t, names, 0)
  {
    hide NameLine;
    lines := before;
    for bit := 0 to |names|
      invariant before + NameLines(t, names, 0) == lines + NameLines(t, names, bit)
    {
      if Strip(t.space, names[bit]) != [] {
        lines := lines + [NameLine(bit, Strip(t.space, names[bit]))];
      }
    }
    assert lines + [] == lines;
  }

  method AppendWords(before: seq<string>, words: seq<nat>, steps: nat) returns (lines: seq<string>)
    ensures lines == before + WordLines(words, steps, 0)
  {
    hide WordLine;
    lines := before;
    for step := 0 to |words|
      invariant before + WordLines(words, steps, 0) == lines + WordLines(words, steps, step)
    {
      lines := lines + [WordLine(step, steps, words[step])];
    }
    assert lines + [] == lines;
  }

  // ----- Finding a block

  /** The last begin marker before the first end marker that follows one. */
  function Span(t: Style, drum: string, lines: seq<string>, at: nat, first: Option<nat>): Option<(nat, nat)>
    decreases lines
  {
    if lines == [] then None
    else if Strip(t.space, lines[0]) == Begin(drum) then Span(t, drum, lines[1..], at + 1, Some(at))
    else if Strip(t.space, lines[0]) == End(drum) && first.Some? then Some((first.value, at))
    else Span(t, drum, lines[1..], at + 1, first)
  }

  method BlockSpan(t: Style, lines: seq<string>, drum: string) returns (span: Option<(nat, nat)>)
    ensures span == Span(t, drum, lines, 0, None)
  {
    var first: Option<nat> := None;
    for index := 0 to |lines|
      invariant Span(t, drum, lines, 0, None) == Span(t, drum, lines[index..], index, first)
    {
      assert lines[index..][1..] == lines[index + 1..];
      if Strip(t.space, lines[index]) == Begin(drum) {
        first := Some(index);
      } else if Strip(t.space, lines[index]) == End(drum) && first.Some? {
        return Some((first.value, index));
      }
    }
    return None;
  }

  // ----- Reading a block

  function DigitRun(s: string): (n: nat)
    ensures n <= |s| && forall k :: 0 <= k < n ==> IsDigit(s[k])
  {
    if s == [] || !IsDigit(s[0]) then 0 else 1 + DigitRun(s[1..])
  }

  /** `^// B(\d+): (.*)$` */
  function NamedAs(t: Style, text: string): Option<(nat, string)> {
    if !("// B" <= text) then None
    else
      var rest := text[4..];
      var n := DigitRun(rest);
      if n == 0 || !(": " <= rest[n..]) then None
      else Some((DecimalValue(rest[..n]), Strip(t.space, rest[n + 2..])))
  }

  function After(t: Style, token: string, text: Option<string>): Option<string> {
    if text.Some? && token <= text.value then Some(Lead(t.space, text.value[|token|..])) else None
  }

  /** `^<drum>_NSTEPS\s*:\s*INT\s*:=\s*(\d+)\s*;` */
  function CountedAs(t: Style, drum: string, text: string): Option<nat> {
    var value := After(t, ":=", After(t, "INT", After(t, ":", After(t, drum + "_NSTEPS", Some(text)))));
    if value == None then None
    else
      var n := DigitRun(value.value);
      if n == 0 || !(";" <= Lead(t.space, value.value[n..])) then None else Some(DecimalValue(value.value[..n]))
  }

  function BitRun(s: string): (n: nat)
    ensures n <= |s|
  {
    if s == [] || !(IsBit(s[0]) || s[0] == '_') then 0 else 1 + BitRun(s[1..])
  }

  function Ungrouped(s: string): (r: string)
    ensures (forall k :: 0 <= k < |s| ==> IsBit(s[k]) || s[k] == '_') ==> forall k :: 0 <= k < |r| ==> IsBit(r[k])
  {
    if s == [] then [] else (if s[0] == '_' then [] else [s[0]]) + Ungrouped(s[1..])
  }

  lemma {:induction false} RunIsBits(s: string)
    ensures forall k :: 0 <= k < BitRun(s) ==> IsBit(s[k]) || s[k] == '_'
  {
    if s != [] && (IsBit(s[0]) || s[0] == '_') {
      RunIsBits(s[1..]);
      forall k | 0 <= k < BitRun(s) ensures IsBit(s[k]) || s[k] == '_' {
        if k > 0 { assert s[k] == s[1..][k - 1]; }
      }
    }
  }

  datatype Meaning = Name(bit: nat, name: string) | Count(n: nat) | Word(w: nat) | Malformed | Other

  /** `^2#([01_]+)`; a literal of underscores only has no value. */
  function WordAs(text: string): Meaning {
    var run := if "2#" <= text then BitRun(text[2..]) else 0;
    if run == 0 then Other
    else
      RunIsBits(text[2..]);
      var bits := Ungrouped(text[2..][..run]);
      if bits == [] then Malformed else Word(BinaryValue(bits))
  }

  /** What one stripped line of a block says. */
  function Reading(t: Style, drum: string, text: string): Meaning {
    var named := NamedAs(t, text);
    if named.Some? && named.value.0 < BITS then Name(named.value.0, named.value.1)
    else
      var counted := CountedAs(t, drum, text);
      if counted.Some? then Count(counted.value) else WordAs(text)
  }

  datatype Pattern = Pattern(steps: nat, words: seq<nat>, names: seq<string>)

  function Clamped(n: nat): nat {
    if n < 1 then 1 else if n > MAX_STEPS then MAX_STEPS else n
  }

  function Blank(): (p: Pattern)
    ensures |p.names| == BITS
  {
    Pattern(MAX_STEPS, [], seq(BITS, _ => ""))
  }

  /** One line read into the pattern so far; nothing when the line has no value. */
  function Take(p: Pattern, m: Meaning): Option<Pattern> {
    match m
    case Name(bit, name) => Some(if bit < |p.names| then p.(names := p.names[bit := name]) else p)
    case Count(n) => Some(p.(steps := Clamped(n)))
    case Word(w) => Some(p.(words := p.words + [w]))
    case Malformed => None
    case Other => Some(p)
  }

  function ReadLines(t: Style, drum: string, lines: seq<string>, p: Pattern): Option<Pattern>
    decreases lines
  {
    if lines == [] then Some(p)
    else
      var next := Take(p, Reading(t, drum, Strip(t.space, lines[0])));
      if next == None then None else ReadLines(t, drum, lines[1..], next.value)
  }

  function EightWords(words: seq<nat>): seq<nat> {
    (words + [0, 0, 0, 0, 0, 0, 0, 0])[..MAX_STEPS]
  }

  datatype Parsed = NoBlock | Unreadable | Block(pattern: Pattern)

  function ParseLines(t: Style, lines: seq<string>, drum: string): Parsed {
    var span := Span(t, drum, lines, 0, None);
    SpanInside(t, drum, lines, 0, None);
    if span == None then NoBlock
    else
      var p := ReadLines(t, drum, lines[span.value.0..span.value.1 + 1], Blank());
      if p == None then Unreadable else Block(p.value.(words := EightWords(p.value.words)))
  }

  method ParseBlock(t: Style, declaration: string, drum: string) returns (parsed: Parsed)
    ensures parsed == ParseLines(t, SplitLines(t, declaration), drum)
  {
    hide Reading, Span, Split;
    var lines := SplitLines(t, declaration);
    var span := BlockSpan(t, lines, drum);
    if span == None { return NoBlock; }
    SpanInside(t, drum, lines, 0, None);
    var block := lines[span.value.0..span.value.1 + 1];
    var names: seq<string>, steps: nat, words: seq<nat> := seq(BITS, _ => ""), MAX_STEPS, [];
    for n := 0 to |block|
      invariant |names| == BITS
      invariant ReadLines(t, drum, block, Blank()) == ReadLines(t, drum, block[n..], Pattern(steps, words, names))
    {
      assert block[n..][1..] == block[n + 1..];
      match Reading(t, drum, Strip(t.space, block[n])) {
        case Name(bit, name) => names := if bit < BITS then names[bit := name] else names;
        case Count(counted) => steps := Clamped(counted);
        case Word(w) => words := words + [w];
        case Malformed => return Unreadable;
        case Other =>
      }
    }
    return Block(Pattern(steps, EightWords(words), names));
  }

  lemma {:induction false} SpanInside(t: Style, drum: string, lines: seq<string>, at: nat, first: Option<nat>)
    requires first.Some? ==> first.value < at
    ensures var span := Span(t, drum, lines, at, first);
      span.Some? ==> span.value.0 < span.value.1 && at <= span.value.1 < at + |lines|
                     && (at <= span.value.0 || first == Some(span.value.0))
    decreases lines
  {
    if lines != [] {
      var next := if Strip(t.space, lines[0]) == Begin(drum) then Some(at) else first;
      SpanInside(t, drum, lines[1..], at + 1, next);
    }
  }

  // ----- Lines and text

  /** `splitlines()`, with `current` read of the line under way; CR LF is one break. */
  function Split(t: Style, s: string, current: string): seq<string>
    decreases |s|
  {
    if s == [] then (if current == [] then [] else [current])
    else if s[0] == '\r' && |s| > 1 && s[1] == '\n' then [current] + Split(t, s[2..], [])
    else if t.breaks(s[0]) then [current] + Split(t, s[1..], [])
    else Split(t, s[1..], current + [s[0]])
  }

  function SplitLines(t: Style, s: string): seq<string> {
    Split(t, s, [])
  }

  /** `"\n".join(lines)` */
  function JoinLines(lines: seq<string>): string {
    if lines == [] then [] else if |lines| == 1 then lines[0] else lines[0] + "\n" + JoinLines(lines[1..])
  }

  function TrimBreaks(s: string): string {
    if s != [] && s[|s| - 1] == '\n' then TrimBreaks(s[..|s| - 1]) else s
  }

  // ----- Replacing or adding a block

  function Indented(block: seq<string>): (r: seq<string>)
    ensures |r| == |block| && forall k :: 0 <= k < |r| ==> r[k] == INDENT + block[k]
  {
    seq(|block|, k requires 0 <= k < |block| => INDENT + block[k])
  }

  /** The first closing line from `index` on. */
  function Closing(t: Style, lines: seq<string>, index: nat): (end: Option<nat>)
    requires index <= |lines|
    ensures end.Some? ==> index <= end.value < |lines|
    decreases |lines| - index
  {
    if index == |lines| then None
    else if t.closes(lines[index]) then Some(index)
    else Closing(t, lines, index + 1)
  }

  /** Where a new block goes: before the end of the first constant section that has one. */
  function Slot(t: Style, lines: seq<string>, index: nat): (slot: Option<nat>)
    requires index <= |lines|
    ensures slot.Some? ==> index < slot.value < |lines|
    decreases |lines| - index
  {
    if index == |lines| then None
    else if t.opens(lines[index]) && Closing(t, lines, index + 1).Some? then Closing(t, lines, index + 1)
    else Slot(t, lines, index + 1)
  }

  lemma {:induction false} ClosingIs(t: Style, lines: seq<string>, index: nat, e: nat)
    requires index <= e < |lines|
    ensures Closing(t, lines, index) == Some(e) <==> t.closes(lines[e]) && forall k :: index <= k < e ==> !t.closes(lines[k])
    decreases |lines| - index
  {
    if index < e && !t.closes(lines[index]) { ClosingIs(t, lines, index + 1, e); }
  }

  /** From `index` on, `o` is the first opening line and `e` the first closing line behind it. */
  predicate IsSlot(t: Style, lines: seq<string>, index: nat, o: nat, e: nat) {
    && index <= o < e < |lines| && t.opens(lines[o]) && t.closes(lines[e])
    && (forall k :: index <= k < o ==> !t.opens(lines[k])) && (forall k :: o < k < e ==> !t.closes(lines[k]))
  }

  /**
   * A new block goes before the first closing line behind the first opening line; there is no
   * place for it only when no closing line follows an opening one.
   */
  lemma {:induction false} SlotIs(t: Style, lines: seq<string>, index: nat) returns (o: nat)
    requires index <= |lines|
    ensures match Slot(t, lines, index)
            case Some(e) => IsSlot(t, lines, index, o, e)
            case None => forall i, e :: index <= i < e < |lines| && t.opens(lines[i]) ==> !t.closes(lines[e])
    decreases |lines| - index
  {
    o := index;
    if index < |lines| {
      var end := Closing(t, lines, index + 1);
      NoneCloses(t, lines, index + 1);
      if t.opens(lines[index]) && end.Some? {
        ClosingIs(t, lines, index + 1, end.value);
      } else {
        o := SlotIs(t, lines, index + 1);
      }
    }
  }

  lemma {:induction false} NoneCloses(t: Style, lines: seq<string>, index: nat)
    requires index <= |lines|
    ensures Closing(t, lines, index) == None <==> forall k :: index <= k < |lines| ==> !t.closes(lines[k])
    decreases |lines| - index
  {
    if index < |lines| && !t.closes(lines[index]) { NoneCloses(t, lines, index + 1); }
  }

  function Section(block: seq<string>): seq<string> {
    ["VAR_GLOBAL CONSTANT"] + Indented(block) + ["END_VAR"]
  }

  method MergeBlock(t: Style, declaration: string, drum: string, block: seq<string>) returns (merged: string)
    ensures merged == Merged(t, declaration, drum, block)
  {
    var lines := SplitLines(t, declaration);
    var indented := Indented(block);
    var span := BlockSpan(t, lines, drum);
    SpanInside(t, drum, lines, 0, None);
    if span != None {
      lines := lines[..span.value.0] + indented + lines[span.value.1 + 1..];
      return JoinLines(lines) + "\n";
    }
    for index := 0 to |lines|
      invariant Slot(t, lines, 0) == Slot(t, lines, index)
    {
      if t.opens(lines[index]) {
        for end := index + 1 to |lines|
          invariant Closing(t, lines, index + 1) == Closing(t, lines, end)
        {
          if t.closes(lines[end]) {
            lines := lines[..end] + indented + lines[end..];
            return JoinLines(lines) + "\n";
          }
        }
      }
    }
    if Strip(t.space, declaration) != [] {
      return TrimBreaks(declaration) + "\n\n" + JoinLines(Section(block)) + "\n";
    }
    return JoinLines(Section(block)) + "\n";
  }

  /** The merged text: spliced lines, or the old text followed by a new section. */
  function Merged(t: Style, declaration: string, drum: string, block: seq<string>): string {
    var lines := SplitLines(t, declaration);
    var span := Span(t, drum, lines, 0, None);
    SpanInside(t, drum, lines, 0, None);
    if span.Some? then JoinLines(lines[..span.value.0] + Indented(block) + lines[span.value.1 + 1..]) + "\n"
    else
      var slot := Slot(t, lines, 0);
      if slot.Some? then JoinLines(lines[..slot.value] + Indented(block) + lines[slot.value..]) + "\n"
      else if Strip(t.space, declaration) != [] then TrimBreaks(declaration) + "\n\n" + JoinLines(Section(block)) + "\n"
      else JoinLines(Section(block)) + "\n"
  }
}
