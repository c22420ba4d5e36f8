/** Printing calls, and scanning what was printed. */
module CallPrinting {
  import opened Wrappers
  import opened TextTools
  import opened CallScanner

  // ----- Operand texts

  datatype Kind = Paren | Bracket | Brace

  /** Text with quotes closed and brackets nested. */
  datatype Text =
    | End
    | Letter(c: char, rest: Text)
    | Quote(mark: char, body: string, rest: Text)
    | Group(kind: Kind, inside: Text, rest: Text)

  function Shown(x: Text): string {
    match x
    case End => []
    case Letter(c, rest) => [c] + Shown(rest)
    case Quote(mark, body, rest) => [mark] + (body + ([mark] + Shown(rest)))
    case Group(Paren, inside, rest) => ['('] + (Shown(inside) + ([')'] + Shown(rest)))
    case Group(Bracket, inside, rest) => ['['] + (Shown(inside) + ([']'] + Shown(rest)))
    case Group(Brace, inside, rest) => ['{'] + (Shown(inside) + (['}'] + Shown(rest)))
  }

  /**
   * Within so many parentheses, brackets and braces: commas stand inside a group only, and a `]`
   * or `}` of its own only where no group of its kind is open.
   */
  predicate Proper(x: Text, parens: nat, brackets: nat, braces: nat) {
    match x
    case End => true
    case Letter(c, rest) =>
      && c !in "\"'([{)" && (c == ',' ==> parens + brackets + braces > 0)
      && (c == ']' ==> brackets == 0) && (c == '}' ==> braces == 0)
      && Proper(rest, parens, brackets, braces)
    case Quote(mark, body, rest) => mark in "\"'" && mark !in body && Proper(rest, parens, brackets, braces)
    case Group(Paren, inside, rest) => Proper(inside, parens + 1, brackets, braces) && Proper(rest, parens, brackets, braces)
    case Group(Bracket, inside, rest) => Proper(inside, parens, brackets + 1, braces) && Proper(rest, parens, brackets, braces)
    case Group(Brace, inside, rest) => Proper(inside, parens, brackets, braces + 1) && Proper(rest, parens, brackets, braces)
  }

  /** An operand and the white space around it. */
  datatype Operand = Operand(before: string, core: Text, after: string)

  function OperandText(o: Operand): string {
    o.before + (Shown(o.core) + o.after)
  }

  predicate Blank(u: Classes, s: string) {
    forall k :: 0 <= k < |s| ==> u.space(s[k])
  }

  /** An operand, possibly empty: its text starts and ends with no white space, and has no comma at the top. */
  predicate WellFormed(u: Classes, o: Operand) {
    var s := Shown(o.core);
    && Proper(o.core, 0, 0, 0) && Blank(u, o.before) && Blank(u, o.after)
    && (s != [] ==> !u.space(s[0]) && !u.space(s[|s| - 1]))
  }

  // ----- The printer

  /** A call, the text between it and the previous one, and the space before its parenthesis. */
  datatype Printed = Printed(filler: string, callee: string, gap: string, operands: seq<Operand>)

  function Joined(texts: seq<string>): string {
    if texts == [] then []
    else if |texts| == 1 then texts[0]
    else texts[0] + ([','] + Joined(texts[1..]))
  }

  function Texts(operands: seq<Operand>): (r: seq<string>)
    ensures |r| == |operands| && forall k :: 0 <= k < |r| ==> r[k] == OperandText(operands[k])
  {
    seq(|operands|, k requires 0 <= k < |operands| => OperandText(operands[k]))
  }

  function Cores(operands: seq<Operand>): (r: seq<string>)
    ensures |r| == |operands| && forall k :: 0 <= k < |r| ==> r[k] == Shown(operands[k].core)
  {
    seq(|operands|, k requires 0 <= k < |operands| => Shown(operands[k].core))
  }

  function TextOf(p: Printed): string {
    p.callee + p.gap + ['('] + Joined(Texts(p.operands)) + [')']
  }

  function Print(items: seq<Printed>, tail: string): string {
    if items == [] then tail else items[0].filler + TextOf(items[0]) + Print(items[1..], tail)
  }

  /** What scanning must give: a call of a single blank operand has none. */
  function CallOf(p: Printed): Call {
    Call(p.callee, if |p.operands| == 1 && Shown(p.operands[0].core) == [] then [] else Cores(p.operands), TextOf(p))
  }

  function CallsOf(items: seq<Printed>): seq<Call> {
    seq(|items|, n requires 0 <= n < |items| => CallOf(items[n]))
  }

  predicate NameStart(u: Classes, c: char) {
    u.alpha(c) || c == '_'
  }

  predicate NameChar(u: Classes, c: char) {
    u.alnum(c) || c == '_' || c == '.' || c == '$' || c == ':'
  }

  predicate IsName(u: Classes, callee: string) {
    callee != [] && NameStart(u, callee[0]) && forall k :: 0 <= k < |callee| ==> NameChar(u, callee[k])
  }

  /** The word at `k` ends at `e`, the white space after it at `a`, and no parenthesis follows. */
  predicate WordEnds(u: Classes, s: string, k: int, e: int, a: int) {
    && 0 <= k < e <= a <= |s| && e < |s|
    && (forall i :: k <= i < e ==> NameChar(u, s[i])) && !NameChar(u, s[e])
    && (forall i :: e <= i < a ==> u.space(s[i]))
    && (a < |s| ==> !u.space(s[a]) && s[a] != '(')
  }

  /** Text without a call: every word in it ends in it, and is followed by no parenthesis. */
  ghost predicate Idle(u: Classes, s: string) {
    forall k :: 0 <= k < |s| && NameStart(u, s[k]) ==> exists e, a :: WordEnds(u, s, k, e, a)
  }

  ghost predicate Printable(u: Classes, p: Printed) {
    && Idle(u, p.filler) && IsName(u, p.callee) && Blank(u, p.gap)
    && forall k :: 0 <= k < |p.operands| ==> WellFormed(u, p.operands[k])
  }

  lemma SameNames(u: Classes, c: char)
    ensures Starts(u, c) <==> NameStart(u, c)
    ensures Continues(u, c) <==> NameChar(u, c)
  {
    assert c in "_.$:" <==> c == '_' || c == '.' || c == '$' || c == ':';
  }

  // ----- Walking over an operand

  /** How deep a position lies in each kind of bracket, and in which quote. */
  datatype Place = Place(depths: Depths, quote: Option<char>)

  const Outside := Place(Top, None)

  function Onward(c: char, p: Place): Place {
    Place(if p.quote.Some? then p.depths else Nested(c, p.depths), Quoted(c, p.quote))
  }

  /** Walking over a text; it fails at a surplus parenthesis and at a comma outside all brackets and quotes. */
  function Walk(s: string, p: Place): Option<Place>
    decreases s
  {
    if s == [] then Some(p)
    else if p.quote.None? && ((s[0] == ')' && p.depths.paren == 0) || (s[0] == ',' && p.depths == Top)) then None
    else Walk(s[1..], Onward(s[0], p))
  }

  lemma {:induction false} WalkAppend(a: string, b: string, p: Place, q: Place)
    requires Walk(a, p) == Some(q)
    ensures Walk(a + b, p) == Walk(b, q)
    decreases a
  {
    if a == [] {
      assert a + b == b;
    } else {
      assert (a + b)[0] == a[0] && (a + b)[1..] == a[1..] + b;
      WalkAppend(a[1..], b, Onward(a[0], p), q);
    }
  }

  lemma WalkFirst(c: char, rest: string, p: Place)
    requires p.quote.None? ==> !(c == ')' && p.depths.paren == 0) && !(c == ',' && p.depths == Top)
    ensures Walk([c] + rest, p) == Walk(rest, Onward(c, p))
  {
    assert ([c] + rest)[1..] == rest;
  }

  /** Inside a quote nothing counts until it is closed. */
  lemma {:induction false} WalkQuoted(body: string, mark: char, d: Depths)
    requires mark !in body
    ensures Walk(body, Place(d, Some(mark))) == Some(Place(d, Some(mark)))
  {
    if body != [] {
      assert body[0] in body && body[0] != mark;
      WalkQuoted(body[1..], mark, d);
    }
  }

  /** Proper text leads back to where it started. */
  lemma {:induction false} WalkShown(x: Text, d: Depths)
    requires Proper(x, d.paren, d.bracket, d.brace)
    ensures Walk(Shown(x), Place(d, None)) == Some(Place(d, None))
    decreases x
  {
    hide Walk;
    var p := Place(d, None);
    match x
    case End => WalkNothing(p);
    case Letter(c, rest) =>
      assert c != '"' && c != '\'' && c != '(' && c != '[' && c != '{' && c != ')';
      WalkFirst(c, Shown(rest), p);
      WalkShown(rest, d);
    case Quote(mark, body, rest) =>
      var q := Place(d, Some(mark));
      assert mark == '"' || mark == '\'';
      WalkFirst(mark, body + ([mark] + Shown(rest)), p);
      WalkQuoted(body, mark, d);
      WalkAppend(body, [mark] + Shown(rest), q, q);
      WalkFirst(mark, Shown(rest), q);
      WalkShown(rest, d);
    case Group(kind, inside, rest) =>
      var opener, closer := if kind == Paren then '(' else if kind == Bracket then '[' else '{',
                            if kind == Paren then ')' else if kind == Bracket then ']' else '}';
      var inner := if kind == Paren then d.(paren := d.paren + 1)
                   else if kind == Bracket then d.(bracket := d.bracket + 1) else d.(brace := d.brace + 1);
      var q := Place(inner, None);
      WalkFirst(opener, Shown(inside) + ([closer] + Shown(rest)), p);
      WalkShown(inside, inner);
      WalkAppend(Shown(inside), [closer] + Shown(rest), q, q);
      WalkFirst(closer, Shown(rest), q);
      WalkShown(rest, d);
  }

  lemma WalkNothing(p: Place)
    ensures Walk([], p) == Some(p)
  {
  }

  /** White space is none of the delimiters. */
  lemma {:induction false} WalkBlank(u: Classes, s: string)
    requires Sane(u) && Blank(u, s)
    ensures Walk(s, Outside) == Some(Outside)
  {
    if s != [] {
      assert s[0] !in DELIMITERS;
      NotDelimiter(s[0]);
      WalkBlank(u, s[1..]);
    }
  }

  lemma NotDelimiter(c: char)
    requires c !in DELIMITERS
    ensures c != '(' && c != ')' && c != '[' && c != ']' && c != '{' && c != '}' && c != ',' && c != '"' && c != '\''
  {
    assert '(' in DELIMITERS && ')' in DELIMITERS && '[' in DELIMITERS && ']' in DELIMITERS && '{' in DELIMITERS;
    assert '}' in DELIMITERS && ',' in DELIMITERS && '"' in DELIMITERS && '\'' in DELIMITERS;
  }

  /** What the scanner needs to know of an operand's text. */
  predicate Balanced(operand: string) {
    Walk(operand, Outside) == Some(Outside)
  }

  predicate AllBalanced(texts: seq<string>) {
    forall k :: 0 <= k < |texts| ==> Balanced(texts[k])
  }

  lemma OperandBalanced(u: Classes, o: Operand)
    requires Sane(u) && WellFormed(u, o)
    ensures Balanced(OperandText(o))
  {
    hide Walk, Proper, Shown;
    WalkBlank(u, o.before);
    WalkShown(o.core, Top);
    WalkBlank(u, o.after);
    WalkAppend(o.before, Shown(o.core) + o.after, Outside, Outside);
    WalkAppend(Shown(o.core), o.after, Outside, Outside);
  }

  lemma OperandStrips(u: Classes, o: Operand)
    requires WellFormed(u, o)
    ensures Strip(u.space, OperandText(o)) == Shown(o.core)
  {
    hide Proper, Shown;
    StripLead(u.space, o.before, Shown(o.core) + o.after);
    StripTrail(u.space, Shown(o.core), o.after);
    StripDone(u.space, Shown(o.core));
  }

  // ----- The pieces of a printed call, read back

  lemma {:induction false} NameRead(u: Classes, name: string, rest: string)
    requires forall k :: 0 <= k < |name| ==> NameChar(u, name[k])
    requires rest == [] || !NameChar(u, rest[0])
    ensures NameLength(u, name + rest) == |name|
  {
    if name == [] {
      assert name + rest == rest;
      if rest != [] { SameNames(u, rest[0]); }
    } else {
      assert (name + rest)[0] == name[0] && (name + rest)[1..] == name[1..] + rest;
      SameNames(u, name[0]);
      NameRead(u, name[1..], rest);
    }
  }

  lemma {:induction false} SpaceRead(u: Classes, gap: string, rest: string)
    requires Blank(u, gap)
    requires rest == [] || !u.space(rest[0])
    ensures SpaceLength(u, gap + rest) == |gap|
  {
    if gap == [] {
      assert gap + rest == rest;
    } else {
      assert (gap + rest)[1..] == gap[1..] + rest;
      SpaceRead(u, gap[1..], rest);
    }
  }

  /** The offset `n` further on. */
  function Shifted(end: Option<nat>, n: nat): Option<nat> {
    if end.Some? then Some(end.value + n) else None
  }

  lemma MatchTurn(s: string, p: Place, depth: int)
    requires s != [] && depth > 0 && (p.quote.None? ==> !(s[0] == ')' && p.depths.paren == 0))
    ensures Match(s, depth + p.depths.paren, p.quote)
         == Shifted(Match(s[1..], depth + Onward(s[0], p).depths.paren, Onward(s[0], p).quote), 1)
  {
  }

  /** Walked text never closes the parenthesis that was open before it. */
  lemma {:induction false} MatchOver(s: string, rest: string, p: Place, q: Place, depth: int)
    requires Walk(s, p) == Some(q) && depth > 0
    ensures Match(s + rest, depth + p.depths.paren, p.quote)
         == Shifted(Match(rest, depth + q.depths.paren, q.quote), |s|)
    decreases s
  {
    hide Match, Nested, Quoted;
    if s == [] {
      assert s + rest == rest;
    } else {
      assert (s + rest)[0] == s[0] && (s + rest)[1..] == s[1..] + rest;
      MatchTurn(s + rest, p, depth);
      MatchOver(s[1..], rest, Onward(s[0], p), q, depth);
    }
  }

  lemma MatchStep(c: char, rest: string, depth: int)
    requires depth > 0
    ensures c == ',' ==> Match([c] + rest, depth, None) == Shifted(Match(rest, depth, None), 1)
    ensures c == ')' ==> Match([c] + rest, 1, None) == Some(0)
    ensures c == '(' ==> Match([c] + rest, 0, None) == Shifted(Match(rest, 1, None), 1)
  {
    assert ([c] + rest)[1..] == rest;
  }

  lemma {:induction false} MatchJoined(texts: seq<string>, rest: string)
    requires AllBalanced(texts)
    ensures Match(Joined(texts) + [')'] + rest, 1, None) == Some(|Joined(texts)|)
  {
    hide Match, Walk;
    MatchStep(')', rest, 1);
    if texts == [] {
      assert Joined(texts) + [')'] + rest == [')'] + rest;
    } else if |texts| == 1 {
      assert Balanced(texts[0]);
      assert Joined(texts) + [')'] + rest == texts[0] + ([')'] + rest);
      MatchOver(texts[0], [')'] + rest, Outside, Outside, 1);
    } else {
      assert Balanced(texts[0]);
      var after := Joined(texts[1..]) + [')'] + rest;
      assert Joined(texts) + [')'] + rest == texts[0] + ([','] + after);
      MatchOver(texts[0], [','] + after, Outside, Outside, 1);
      MatchStep(',', after, 1);
      MatchJoined(texts[1..], rest);
    }
  }

  /** Walked text ends up in the current operand. */
  lemma {:induction false} OperandsOver(u: Classes, s: string, rest: string, current: string, p: Place, q: Place)
    requires Walk(s, p) == Some(q)
    ensures Operands(u, s + rest, current, p.depths, p.quote) == Operands(u, rest, current + s, q.depths, q.quote)
    decreases s
  {
    if s == [] {
      assert s + rest == rest && current + s == current;
    } else {
      assert (s + rest)[0] == s[0] && (s + rest)[1..] == s[1..] + rest;
      OperandsOver(u, s[1..], rest, current + [s[0]], Onward(s[0], p), q);
      assert current + [s[0]] + s[1..] == current + s;
    }
  }

  lemma OperandsStep(u: Classes, current: string, rest: string)
    ensures Operands(u, [','] + rest, current, Top, None) == [Strip(u.space, current)] + Operands(u, rest, [], Top, None)
    ensures Operands(u, [], current, Top, None) == [Strip(u.space, current)]
  {
    assert ([','] + rest)[1..] == rest;
  }

  /** Operands are split at the commas between them and stripped. */
  lemma {:induction false} OperandsJoined(u: Classes, operands: seq<Operand>)
    requires Sane(u) && operands != [] && forall k :: 0 <= k < |operands| ==> WellFormed(u, operands[k])
    ensures Operands(u, Joined(Texts(operands)), [], Top, None) == Cores(operands)
  {
    hide Operands, Walk, Strip, WellFormed, Shown, OperandText;
    var texts, first := Texts(operands), OperandText(operands[0]);
    OperandBalanced(u, operands[0]);
    OperandStrips(u, operands[0]);
    assert [] + first == first;
    if |operands| == 1 {
      assert Joined(texts) == first + [];
      OperandsOver(u, first, [], [], Outside, Outside);
      OperandsStep(u, first, []);
      assert Cores(operands) == [Shown(operands[0].core)];
    } else {
      assert texts[1..] == Texts(operands[1..]);
      var rest := Joined(texts[1..]);
      assert Joined(texts) == first + ([','] + rest);
      OperandsOver(u, first, [','] + rest, [], Outside, Outside);
      OperandsStep(u, first, rest);
      OperandsJoined(u, operands[1..]);
      assert Cores(operands) == [Shown(operands[0].core)] + Cores(operands[1..]);
    }
  }

  /** Splitting what stands between the parentheses of a call gives its operands; a lone blank one is none. */
  lemma SplitJoined(u: Classes, operands: seq<Operand>)
    requires Sane(u) && forall k :: 0 <= k < |operands| ==> WellFormed(u, operands[k])
    ensures (SplitText(u, Joined(Texts(operands)))
             == if |operands| == 1 && Shown(operands[0].core) == [] then [] else Cores(operands))
  {
    hide Operands, WellFormed, Shown, OperandText;
    var texts := Texts(operands);
    if operands != [] {
      OperandsJoined(u, operands);
      OperandStrips(u, operands[0]);
      if |operands| > 1 {
        assert Joined(texts)[|texts[0]|] == ',';
        assert ',' in DELIMITERS;
        StripKeeps(u.space, Joined(texts), |texts[0]|);
      } else {
        assert Joined(texts) == texts[0];
      }
    }
  }

  // ----- Scanning inverts printing

  /** A word of idle text is passed over, whatever callee follows the text. */
  lemma WordSkipped(u: Classes, filler: string, rest: string, e: nat, a: nat)
    requires Sane(u) && filler != [] && NameStart(u, filler[0]) && WordEnds(u, filler, 0, e, a)
    requires rest == [] || (!u.space(rest[0]) && rest[0] != '(')
    ensures LookAt(u, filler + rest) == Look.Skip(e)
  {
    hide NameLength, SpaceLength, Continues, Starts, NameChar, NameStart, Match, Sane;
    var s, name, gap, after := filler + rest, filler[..e], filler[e..a], filler[a..] + rest;
    SameNames(u, s[0]);
    assert s == name + (gap + after) && s[e..] == gap + after && s[a..] == after;
    assert (gap + after)[0] == filler[e];
    NameRead(u, name, gap + after);
    assert after != [] ==> after[0] == if a < |filler| then filler[a] else rest[0];
    SpaceRead(u, gap, after);
  }

  lemma IdleTail(u: Classes, s: string, n: nat)
    requires Idle(u, s) && n <= |s|
    ensures Idle(u, s[n..])
  {
    hide NameChar, NameStart;
    var r := s[n..];
    forall k | 0 <= k < |r| && NameStart(u, r[k]) ensures exists e, a :: WordEnds(u, r, k, e, a) {
      assert s[k + n] == r[k];
      var e, a :| WordEnds(u, s, k + n, e, a);
      assert WordEnds(u, r, k, e - n, a - n);
    }
  }

  lemma {:induction false} SkipFiller(u: Classes, filler: string, rest: string)
    requires Sane(u) && Idle(u, filler)
    requires rest == [] || (!u.space(rest[0]) && rest[0] != '(')
    ensures Scan(u, filler + rest) == Scan(u, rest)
    decreases |filler|
  {
    hide NameLength, SpaceLength, Match, Sane, Starts, NameStart, NameChar, Idle, WordEnds;
    if filler == [] {
      assert filler + rest == rest;
    } else {
      SameNames(u, filler[0]);
      var n := 1;
      if NameStart(u, filler[0]) {
        var e, a := FirstWord(u, filler);
        n := e;
        WordSkipped(u, filler, rest, e, a);
      }
      assert (filler + rest)[0] == filler[0] && (filler + rest)[n..] == filler[n..] + rest;
      IdleTail(u, filler, n);
      SkipFiller(u, filler[n..], rest);
    }
  }

  lemma FirstWord(u: Classes, s: string) returns (e: nat, a: nat)
    requires Idle(u, s) && s != [] && NameStart(u, s[0])
    ensures WordEnds(u, s, 0, e, a) && 0 < e <= |s|
  {
    e, a :| WordEnds(u, s, 0, e, a);
  }

  lemma LookPrinted(u: Classes, p: Printed, rest: string)
    requires Sane(u) && Printable(u, p)
    ensures LookAt(u, TextOf(p) + rest)
         == Found(|p.callee|, |p.callee| + |p.gap|, |p.callee| + |p.gap| + 1 + |Joined(Texts(p.operands))|)
  {
    hide Walk, Joined, Match, NameLength, SpaceLength, WellFormed, TextOf, Idle, NameChar, Balanced, OperandText;
    var body := Joined(Texts(p.operands)) + [')'] + rest;
    var s := TextOf(p) + rest;
    Pieces(p, rest);
    Delimited(u, p.gap, body);
    NameRead(u, p.callee, p.gap + (['('] + body));
    SpaceRead(u, p.gap, ['('] + body);
    forall k | 0 <= k < |p.operands| ensures Balanced(Texts(p.operands)[k]) { OperandBalanced(u, p.operands[k]); }
    MatchJoined(Texts(p.operands), rest);
    MatchStep('(', body, 1);
    assert s[0] == p.callee[0];
    SameNames(u, s[0]);
  }

  /** A printed call at the front is found whole. */
  lemma ScanOne(u: Classes, p: Printed, rest: string)
    requires Sane(u) && Printable(u, p)
    ensures Scan(u, TextOf(p) + rest) == [CallOf(p)] + Scan(u, rest)
  {
    hide Walk, Joined, LookAt, WellFormed, TextOf, SplitText, Sane, Scan, Idle, Shown;
    var s := TextOf(p) + rest;
    LookPrinted(u, p, rest);
    Pieces(p, rest);
    SplitJoined(u, p.operands);
    assert s[0..] == s;
    ScanTurn(u, s, 0, [], LookAt(u, s));
    assert [] + Scan(u, s) == Scan(u, s) && [] + [CallOf(p)] == [CallOf(p)];
  }

  lemma LookOpen(u: Classes, name: string, gap: string, rest: string)
    requires Sane(u) && IsName(u, name) && Blank(u, gap) && Match(['('] + rest, 0, None) == None
    ensures LookAt(u, name + (gap + (['('] + rest))) == Look.Skip(|name| + |gap| + 1)
  {
    hide Match, NameLength, SpaceLength, NameChar;
    var s, at := name + (gap + (['('] + rest)), |name| + |gap|;
    Delimited(u, gap, rest);
    NameRead(u, name, gap + (['('] + rest));
    SpaceRead(u, gap, ['('] + rest);
    SameNames(u, s[0]);
    assert s[|name|..] == gap + (['('] + rest) && s[at..] == ['('] + rest;
  }

  /** A name whose parenthesis is never closed is no call, and the scan goes on right behind the parenthesis. */
  lemma OpenCall(u: Classes, name: string, gap: string, rest: string)
    requires Sane(u) && IsName(u, name) && Blank(u, gap) && Match(['('] + rest, 0, None) == None
    ensures Scan(u, name + (gap + (['('] + rest))) == Scan(u, rest)
  {
    hide LookAt, Match, IsName, Blank, Sane;
    var s := name + (gap + (['('] + rest));
    LookOpen(u, name, gap, rest);
    assert s[|name| + |gap| + 1..] == rest;
  }

  /** Where the pieces of a printed call lie. */
  lemma Pieces(p: Printed, rest: string)
    ensures var s, joined, at := TextOf(p) + rest, Joined(Texts(p.operands)), |p.callee| + |p.gap|;
      && s == p.callee + (p.gap + (['('] + (joined + [')'] + rest)))
      && s[..|p.callee|] == p.callee && s[|p.callee|..] == p.gap + (['('] + (joined + [')'] + rest))
      && s[at..] == ['('] + (joined + [')'] + rest)
      && s[at + 1..at + 1 + |joined|] == joined
      && s[..at + |joined| + 2] == TextOf(p) && s[at + |joined| + 2..] == rest
  {
    hide Joined, Texts;
  }

  lemma Delimited(u: Classes, gap: string, body: string)
    requires Sane(u) && Blank(u, gap)
    ensures !NameChar(u, (gap + (['('] + body))[0]) && !u.space('(')
  {
    assert '(' in DELIMITERS;
    assert '_' in "_.$:" && '.' in "_.$:" && '$' in "_.$:" && ':' in "_.$:";
    assert gap != [] ==> u.space(gap[0]);
  }

  /**
   * Scanning a printed sequence of calls gives back exactly those callees, operands and source
   * texts, in order, whatever idle text lies between them and whatever text without a call follows.
   */
  lemma {:induction false} ScanInvertsPrint(u: Classes, items: seq<Printed>, tail: string)
    requires Sane(u) && Scan(u, tail) == [] && forall n :: 0 <= n < |items| ==> Printable(u, items[n])
    ensures Scan(u, Print(items, tail)) == CallsOf(items)
  {
    hide Scan, Printable, TextOf, Idle, CallOf;
    if items != [] {
      var rest := Print(items[1..], tail);
      FillerIdle(u, items[0], rest);
      SkipFiller(u, items[0].filler, TextOf(items[0]) + rest);
      assert Print(items, tail) == items[0].filler + (TextOf(items[0]) + rest);
      ScanOne(u, items[0], rest);
      ScanInvertsPrint(u, items[1..], tail);
      assert CallsOf(items) == [CallOf(items[0])] + CallsOf(items[1..]);
    }
  }

  lemma FillerIdle(u: Classes, p: Printed, rest: string)
    requires Sane(u) && Printable(u, p)
    ensures Idle(u, p.filler)
    ensures var s := TextOf(p) + rest; !u.space(s[0]) && s[0] != '('
  {
    hide Idle, WellFormed, Joined;
    assert (TextOf(p) + rest)[0] == p.callee[0];
    assert '(' in DELIMITERS && '_' in "_.$:";
  }

  // ----- On any text at all: the calls found are disjoint slices, in order

  function Interleaved(gaps: seq<string>, calls: seq<Call>): string
    requires |gaps| == |calls| + 1
  {
    if calls == [] then gaps[0] else gaps[0] + calls[0].text + Interleaved(gaps[1..], calls[1..])
  }

  lemma {:induction false} CallsAreSlices(u: Classes, s: string) returns (gaps: seq<string>)
    requires Sane(u)
    ensures |gaps| == |Scan(u, s)| + 1 && s == Interleaved(gaps, Scan(u, s))
    ensures forall n :: 0 <= n < |Scan(u, s)| ==> Scan(u, s)[n].callee <= Scan(u, s)[n].text
    decreases |s|
  {
    hide LookAt, SplitText, Sane;
    if s == [] {
      gaps := [[]];
    } else {
      match LookAt(u, s)
      case Skip(n) =>
        var rest := CallsAreSlices(u, s[n..]);
        gaps := [s[..n] + rest[0]] + rest[1..];
        WiderGap(s[..n], rest, Scan(u, s));
        assert s == s[..n] + s[n..];
      case Found(name, at, end) =>
        var rest := CallsAreSlices(u, s[end + 1..]);
        gaps := [[]] + rest;
        var found := Scan(u, s);
        assert found[1..] == Scan(u, s[end + 1..]) && gaps[1..] == rest;
        assert s == [] + s[..end + 1] + s[end + 1..];
        assert found[0].callee == found[0].text[..name];
    }
  }

  lemma WiderGap(prefix: string, gaps: seq<string>, calls: seq<Call>)
    requires |gaps| == |calls| + 1
    ensures Interleaved([prefix + gaps[0]] + gaps[1..], calls) == prefix + Interleaved(gaps, calls)
  {
    var wider := [prefix + gaps[0]] + gaps[1..];
    if calls != [] {
      assert wider[1..] == gaps[1..];
      var later := Interleaved(gaps[1..], calls[1..]);
      assert prefix + gaps[0] + calls[0].text + later == prefix + (gaps[0] + calls[0].text + later);
    }
  }
}
