/** Which lines of a block are read at all, and as what: the three line shapes, exactly. */
module DrumShapes {
  import opened Wrappers
  import opened TextTools
  import opened DrumPattern
  import opened DrumReading

  ghost predicate AllSpace(t: Style, s: string) {
    forall k :: 0 <= k < |s| ==> t.space(s[k])
  }

  predicate Digits(s: string) {
    s != [] && forall k :: 0 <= k < |s| ==> IsDigit(s[k])
  }

  lemma {:induction false} LeadIsBlank(t: Style, s: string)
    ensures |Lead(t.space, s)| <= |s| && AllSpace(t, s[..|s| - |Lead(t.space, s)|])
    ensures s == s[..|s| - |Lead(t.space, s)|] + Lead(t.space, s)
  {
    if s != [] && t.space(s[0]) {
      LeadIsBlank(t, s[1..]);
      var n := |s| - |Lead(t.space, s)|;
      assert s[..n] == [s[0]] + s[1..][..n - 1];
    }
  }

  lemma {:induction false} LeadOver(t: Style, gap: string, rest: string)
    requires AllSpace(t, gap) && (rest == [] || !t.space(rest[0]))
    ensures Lead(t.space, gap + rest) == rest
  {
    if gap == [] {
      assert gap + rest == rest;
    } else {
      assert (gap + rest)[1..] == gap[1..] + rest;
      LeadOver(t, gap[1..], rest);
    }
  }

  lemma TokenRead(t: Style, token: string, gap: string, rest: string)
    requires AllSpace(t, gap) && rest != [] && !t.space(rest[0])
    ensures After(t, token, Some(token + (gap + rest))) == Some(rest)
  {
    LeadOver(t, gap, rest);
    assert (token + (gap + rest))[|token|..] == gap + rest;
  }

  lemma TokenFound(t: Style, token: string, text: string) returns (gap: string)
    requires After(t, token, Some(text)).Some?
    ensures AllSpace(t, gap) && text == token + (gap + After(t, token, Some(text)).value)
  {
    var rest := text[|token|..];
    LeadIsBlank(t, rest);
    gap := rest[..|rest| - |Lead(t.space, rest)|];
    assert text == token + rest;
  }

  // ----- The step count

  /** What may stand between the tokens of a count line: white space, the digits, and any text behind. */
  datatype CountParts = CountParts(a: string, b: string, c: string, d: string, digits: string, e: string, rest: string)

  ghost predicate WellSpaced(t: Style, p: CountParts) {
    AllSpace(t, p.a) && AllSpace(t, p.b) && AllSpace(t, p.c) && AllSpace(t, p.d) && AllSpace(t, p.e) && Digits(p.digits)
  }

  function ValueText(p: CountParts): string {
    p.digits + (p.e + (";" + p.rest))
  }

  function CountText(drum: string, p: CountParts): string {
    (drum + "_NSTEPS") + (p.a + (":" + (p.b + ("INT" + (p.c + (":=" + (p.d + ValueText(p))))))))
  }

  lemma ValueRead(t: Style, p: CountParts)
    requires Sane(t) && WellSpaced(t, p)
    ensures var value := ValueText(p); var n := DigitRun(value);
      n == |p.digits| && value[..n] == p.digits && ";" <= Lead(t.space, value[n..])
  {
    var value, tail := ValueText(p), p.e + (";" + p.rest);
    LeadOver(t, p.e, ";" + p.rest);
    assert !IsDigit(tail[0]) by { assert p.e != [] ==> tail[0] == p.e[0]; }
    DigitRunOver(p.digits, tail);
    assert value[|p.digits|..] == tail && value[..|p.digits|] == p.digits;
  }

  lemma CountIsRead(t: Style, drum: string, p: CountParts)
    requires Sane(t) && WellSpaced(t, p)
    ensures CountedAs(t, drum, CountText(drum, p)) == Some(DecimalValue(p.digits))
  {
    hide DigitRun, Lead, DecimalValue;
    var value := ValueText(p);
    ValueRead(t, p);
    assert value[0] == p.digits[0] && '!' <= value[0] <= '~';
    TokenRead(t, drum + "_NSTEPS", p.a, ":" + (p.b + ("INT" + (p.c + (":=" + (p.d + value))))));
    TokenRead(t, ":", p.b, "INT" + (p.c + (":=" + (p.d + value))));
    TokenRead(t, "INT", p.c, ":=" + (p.d + value));
    TokenRead(t, ":=", p.d, value);
  }

  lemma CountHasParts(t: Style, drum: string, text: string) returns (p: CountParts)
    requires CountedAs(t, drum, text).Some?
    ensures WellSpaced(t, p) && text == CountText(drum, p) && CountedAs(t, drum, text) == Some(DecimalValue(p.digits))
  {
    hide Lead, DecimalValue, AllSpace;
    var one := After(t, drum + "_NSTEPS", Some(text));
    var two := After(t, ":", one);
    var three := After(t, "INT", two);
    var value := After(t, ":=", three).value;
    var a := TokenFound(t, drum + "_NSTEPS", text);
    var b := TokenFound(t, ":", one.value);
    var c := TokenFound(t, "INT", two.value);
    var d := TokenFound(t, ":=", three.value);
    var n := DigitRun(value);
    LeadIsBlank(t, value[n..]);
    var left := Lead(t.space, value[n..]);
    var e := value[n..][..|value[n..]| - |left|];
    p := CountParts(a, b, c, d, value[..n], e, left[1..]);
    assert left == ";" + left[1..];
    assert value == value[..n] + value[n..];
  }

  /**
   * A line gives a step count exactly when it is the drum's name with `_NSTEPS`, a colon, `INT`,
   * `:=`, digits and a semicolon, with any white space or none between them and any text behind.
   */
  lemma CountExactly(t: Style, drum: string, text: string, n: nat)
    requires Sane(t)
    ensures CountedAs(t, drum, text) == Some(n) <==>
      exists p :: WellSpaced(t, p) && text == CountText(drum, p) && DecimalValue(p.digits) == n
  {
    hide DecimalValue, CountedAs, CountText;
    if CountedAs(t, drum, text) == Some(n) {
      var p := CountHasParts(t, drum, text);
    }
    if p :| WellSpaced(t, p) && text == CountText(drum, p) && DecimalValue(p.digits) == n {
      CountIsRead(t, drum, p);
    }
  }

  // ----- The name of a bit

  function NameText(digits: string, name: string): string {
    "// B" + (digits + (": " + name))
  }

  lemma NameIsRead(t: Style, digits: string, name: string)
    requires Digits(digits)
    ensures NamedAs(t, NameText(digits, name)) == Some((DecimalValue(digits), Strip(t.space, name)))
  {
    hide DecimalValue, Strip;
    var text := NameText(digits, name);
    var rest := digits + (": " + name);
    assert text[4..] == rest;
    DigitRunOver(digits, ": " + name);
    assert rest[..|digits|] == digits && rest[|digits|..] == ": " + name && rest[|digits| + 2..] == name;
  }

  /** A line names a bit exactly when it is `// B`, digits, a colon, a blank and the name, white space around it dropped. */
  lemma NameExactly(t: Style, text: string, bit: nat, name: string)
    ensures NamedAs(t, text) == Some((bit, name)) <==>
      exists digits, raw :: Digits(digits) && text == NameText(digits, raw) && DecimalValue(digits) == bit && Strip(t.space, raw) == name
  {
    hide DecimalValue, Strip;
    if NamedAs(t, text) == Some((bit, name)) {
      var rest := text[4..];
      var n := DigitRun(rest);
      assert text == "// B" + rest && rest == rest[..n] + rest[n..] && rest[n..] == ": " + rest[n + 2..];
      assert text == NameText(rest[..n], rest[n + 2..]);
    }
    if digits, raw :| Digits(digits) && text == NameText(digits, raw) && DecimalValue(digits) == bit && Strip(t.space, raw) == name {
      NameIsRead(t, digits, raw);
    }
  }

  // ----- A word

  predicate Literal(s: string) {
    s != [] && forall k :: 0 <= k < |s| ==> IsBit(s[k]) || s[k] == '_'
  }

  function LiteralText(run: string, rest: string): string {
    "2#" + (run + rest)
  }

  lemma {:induction false} BitRunEnds(s: string)
    ensures BitRun(s) == |s| || !(IsBit(s[BitRun(s)]) || s[BitRun(s)] == '_')
  {
    if s != [] && (IsBit(s[0]) || s[0] == '_') {
      BitRunEnds(s[1..]);
      if BitRun(s) < |s| { assert s[BitRun(s)] == s[1..][BitRun(s[1..])]; }
    }
  }

  /** The text behind a literal does not go on with it. */
  predicate Stops(rest: string) {
    rest == [] || !(IsBit(rest[0]) || rest[0] == '_')
  }

  /**
   * A line gives a word exactly when it starts with `2#` and bits, which may be grouped; only
   * grouping marks without any bit make it malformed.
   */
  lemma WordExactly(text: string)
    ensures WordAs(text) != Other <==> exists run, rest :: Literal(run) && Stops(rest) && text == LiteralText(run, rest)
    ensures forall run, rest :: Literal(run) && Stops(rest) && text == LiteralText(run, rest) ==>
      (forall k :: 0 <= k < |Ungrouped(run)| ==> IsBit(Ungrouped(run)[k]))
      && WordAs(text) == if Ungrouped(run) == [] then Malformed else Word(BinaryValue(Ungrouped(run)))
  {
    hide BinaryValue;
    if WordAs(text) != Other {
      var n := BitRun(text[2..]);
      RunIsBits(text[2..]);
      BitRunEnds(text[2..]);
      assert text == LiteralText(text[2..][..n], text[2..][n..]);
    }
    forall run, rest | Literal(run) && Stops(rest) && text == LiteralText(run, rest)
      ensures (forall k :: 0 <= k < |Ungrouped(run)| ==> IsBit(Ungrouped(run)[k]))
      ensures WordAs(text) == if Ungrouped(run) == [] then Malformed else Word(BinaryValue(Ungrouped(run)))
    {
      BitRunOver(run, rest);
      assert text[2..] == run + rest && text[2..][..|run|] == run;
    }
  }

  // ----- What is parsed

  lemma ClampedIs(n: nat)
    ensures 1 <= Clamped(n) <= 8
    ensures n <= 8 ==> Clamped(n) == if n == 0 then 1 else n
    ensures n >= 8 ==> Clamped(n) == 8
  {
  }

  /** Missing words are zero, surplus words are dropped. */
  lemma EightWordsAre(words: seq<nat>)
    ensures |EightWords(words)| == 8
    ensures forall k :: 0 <= k < 8 ==> EightWords(words)[k] == if k < |words| then words[k] else 0
  {
  }

  lemma {:induction false} ReadInRange(t: Style, drum: string, lines: seq<string>, p: Pattern)
    requires 1 <= p.steps <= 8 && |p.names| == 16
    ensures ReadLines(t, drum, lines, p).Some? ==>
      var q := ReadLines(t, drum, lines, p).value; 1 <= q.steps <= 8 && |q.names| == 16
    decreases lines
  {
    hide Reading, Strip;
    if lines != [] {
      var next := Take(p, Reading(t, drum, Strip(t.space, lines[0])));
      if next.Some? { ReadInRange(t, drum, lines[1..], next.value); }
    }
  }

  /** Whatever stands in a block, what is parsed has one to eight steps, eight words and sixteen names. */
  lemma ParsedInRange(t: Style, lines: seq<string>, drum: string)
    ensures match ParseLines(t, lines, drum)
            case Block(p) => 1 <= p.steps <= 8 && |p.words| == 8 && |p.names| == 16
            case _ => true
  {
    hide ReadLines;
    var span := Span(t, drum, lines, 0, None);
    SpanInside(t, drum, lines, 0, None);
    if span.Some? { ReadInRange(t, drum, lines[span.value.0..span.value.1 + 1], Blank()); }
  }
}
