/** Lines joined into text and split again. */
module DrumText {
  import opened TextTools
  import opened DrumPattern

  predicate Unbroken(t: Style, line: string) {
    forall k :: 0 <= k < |line| ==> !t.breaks(line[k])
  }

  predicate AllUnbroken(t: Style, lines: seq<string>) {
    forall k :: 0 <= k < |lines| ==> Unbroken(t, lines[k])
  }

  // ----- Splitting

  lemma {:induction false} SplitUnbroken(t: Style, s: string, current: string)
    requires Sane(t) && Unbroken(t, current)
    ensures AllUnbroken(t, Split(t, s, current))
    decreases |s|
  {
    if s == [] {
    } else if s[0] == '\r' && |s| > 1 && s[1] == '\n' {
      SplitUnbroken(t, s[2..], []);
    } else if t.breaks(s[0]) {
      SplitUnbroken(t, s[1..], []);
    } else {
      SplitUnbroken(t, s[1..], current + [s[0]]);
    }
  }

  lemma {:induction false} SplitLine(t: Style, line: string, rest: string, current: string)
    requires Sane(t) && Unbroken(t, line)
    ensures Split(t, line + ("\n" + rest), current) == [current + line] + Split(t, rest, [])
    decreases |line|
  {
    var s := line + ("\n" + rest);
    if line == [] {
      assert s[0] == '\n' && s[1..] == rest;
      assert current + line == current;
    } else {
      assert s[0] == line[0] && s[1..] == line[1..] + ("\n" + rest);
      SplitLine(t, line[1..], rest, current + [line[0]]);
      assert current + [line[0]] + line[1..] == current + line;
    }
  }

  lemma {:induction false} SplitCrLf(t: Style, line: string, rest: string, current: string)
    requires Sane(t) && Unbroken(t, line)
    ensures Split(t, line + ("\r\n" + rest), current) == [current + line] + Split(t, rest, [])
    decreases |line|
  {
    var s := line + ("\r\n" + rest);
    if line == [] {
      assert s[0] == '\r' && s[1] == '\n' && s[2..] == rest;
      assert current + line == current;
    } else {
      assert s[0] == line[0] && s[1..] == line[1..] + ("\r\n" + rest);
      SplitCrLf(t, line[1..], rest, current + [line[0]]);
      assert current + [line[0]] + line[1..] == current + line;
    }
  }

  lemma JoinCons(lines: seq<string>)
    requires |lines| > 1
    ensures JoinLines(lines) + "\n" == lines[0] + ("\n" + (JoinLines(lines[1..]) + "\n"))
  {
  }

  /** Joined lines split into the same lines. */
  lemma {:induction false} SplitJoined(t: Style, lines: seq<string>)
    requires Sane(t) && lines != [] && AllUnbroken(t, lines)
    ensures SplitLines(t, JoinLines(lines) + "\n") == lines
  {
    hide Split;
    assert Unbroken(t, lines[0]);
    if |lines| == 1 {
      SplitLine(t, lines[0], "", []);
      assert lines[0] + ("\n" + "") == JoinLines(lines) + "\n";
      SplitEmpty(t, []);
      assert [] + lines[0] == lines[0] && [lines[0]] + [] == lines;
    } else {
      JoinCons(lines);
      SplitLine(t, lines[0], JoinLines(lines[1..]) + "\n", []);
      SplitJoined(t, lines[1..]);
      assert [] + lines[0] == lines[0] && [lines[0]] + lines[1..] == lines;
    }
  }

  lemma SplitEmpty(t: Style, current: string)
    ensures Split(t, [], current) == if current == [] then [] else [current]
  {
  }

  /** Text before a line break and text after it split separately. */
  lemma {:induction false} SplitApart(t: Style, a: string, b: string, current: string)
    requires Sane(t)
    ensures Split(t, a + ("\n" + b), current) == Split(t, a + "\n", current) + Split(t, b, [])
    decreases |a|
  {
    var s, u := a + ("\n" + b), a + "\n";
    if a == [] {
      assert s[0] == '\n' && s[1..] == b && u[0] == '\n' && u[1..] == [];
      assert [current] + [] == [current];
    } else if a[0] == '\r' && |a| > 1 && a[1] == '\n' {
      assert s[2..] == a[2..] + ("\n" + b) && u[2..] == a[2..] + "\n";
      SplitApart(t, a[2..], b, []);
      assert [current] + (Split(t, u[2..], []) + Split(t, b, [])) == [current] + Split(t, u[2..], []) + Split(t, b, []);
    } else if |a| == 1 && a[0] == '\r' {
      assert s[0] == u[0] == '\r' && s[1] == u[1] == '\n' && s[2..] == b && u[2..] == [];
    } else {
      assert s[1..] == a[1..] + ("\n" + b) && u[1..] == a[1..] + "\n" && s[0] == u[0] == a[0];
      assert |a| > 1 ==> s[1] == u[1] == a[1];
      var one := [current];
      assert one + (Split(t, u[1..], []) + Split(t, b, [])) == one + Split(t, u[1..], []) + Split(t, b, []);
      SplitApart(t, a[1..], b, if t.breaks(a[0]) then [] else current + [a[0]]);
    }
  }

  predicate Blanks(lines: seq<string>) {
    forall k :: 0 <= k < |lines| ==> lines[k] == ""
  }

  /** A line break at the end of a text adds at most one blank line. */
  lemma {:induction false} SplitEnd(t: Style, s: string, current: string) returns (blank: seq<string>)
    requires Sane(t)
    ensures Blanks(blank) && Split(t, s + "\n", current) == Split(t, s, current) + blank
    decreases |s|
  {
    var u := s + "\n";
    if s == [] {
      assert u[1..] == [];
      blank := if current == [] then [""] else [];
    } else if s[0] == '\r' && |s| > 1 && s[1] == '\n' {
      assert u[2..] == s[2..] + "\n";
      blank := SplitEnd(t, s[2..], []);
    } else if |s| == 1 && s[0] == '\r' {
      assert u[2..] == [] && s[1..] == [];
      blank := [];
    } else {
      assert u[1..] == s[1..] + "\n" && u[0] == s[0];
      assert |s| > 1 ==> u[1] == s[1];
      blank := SplitEnd(t, s[1..], if t.breaks(s[0]) then [] else current + [s[0]]);
    }
  }

  /** Trimmed line breaks at the end of a text held blank lines. */
  lemma {:induction false} SplitTrimmed(t: Style, s: string) returns (blank: seq<string>)
    requires Sane(t)
    ensures Blanks(blank) && SplitLines(t, s + "\n") == SplitLines(t, TrimBreaks(s) + "\n") + blank
    decreases |s|
  {
    if s != [] && s[|s| - 1] == '\n' {
      var shorter := s[..|s| - 1];
      blank := SplitTrimmed(t, shorter);
      SplitApart(t, shorter, "\n", []);
      assert shorter + ("\n" + "\n") == s + "\n" && "\n"[1..] == "";
      assert Split(t, "\n", []) == [""];
      blank := blank + [""];
    } else {
      blank := [];
    }
  }

  /**
   * The text before a new section: the declaration's lines up to blank ones at its end, `gone`,
   * which become `put`.
   */
  lemma TextBeforeSection(t: Style, s: string) returns (kept: seq<string>, gone: seq<string>, put: seq<string>)
    requires Sane(t)
    ensures Blanks(gone) && Blanks(put)
    ensures SplitLines(t, s) == kept + gone && SplitLines(t, TrimBreaks(s) + "\n") == kept + put
  {
    var trimmed := TrimBreaks(s);
    if s != [] && s[|s| - 1] == '\n' {
      TrimmedShorter(s);
      gone := SplitTrimmed(t, s[..|s| - 1]);
      assert s[..|s| - 1] + "\n" == s;
      kept, put := SplitLines(t, trimmed + "\n"), [];
    } else {
      kept, gone := SplitLines(t, s), [];
      put := SplitEnd(t, s, []);
    }
  }

  lemma TrimmedShorter(s: string)
    requires s != [] && s[|s| - 1] == '\n'
    ensures TrimBreaks(s[..|s| - 1]) == TrimBreaks(s)
  {
  }

  // ----- Texts whose only line breaks are "\n"

  predicate NewlineSeparated(t: Style, s: string) {
    forall k :: 0 <= k < |s| ==> t.breaks(s[k]) ==> s[k] == '\n'
  }

  lemma {:induction false} JoinedSeparated(t: Style, lines: seq<string>)
    requires Sane(t) && AllUnbroken(t, lines)
    ensures NewlineSeparated(t, JoinLines(lines))
  {
    if lines == [] {
    } else {
      assert Unbroken(t, lines[0]);
      if |lines| > 1 { JoinedSeparated(t, lines[1..]); }
    }
  }

  lemma SplitFirst(t: Style, c: char, rest: string, current: string)
    requires c == '\r' ==> rest == [] || rest[0] != '\n'
    ensures (Split(t, [c] + rest, current)
             == if t.breaks(c) then [current] + Split(t, rest, []) else Split(t, rest, current + [c]))
  {
    assert ([c] + rest)[1..] == rest;
  }

  lemma JoinFirst(first: string, rest: seq<string>)
    requires rest != []
    ensures JoinLines([first] + rest) == first + "\n" + JoinLines(rest)
  {
    assert ([first] + rest)[1..] == rest;
  }

  lemma {:induction false} JoinSplit(t: Style, s: string, current: string)
    requires Sane(t) && NewlineSeparated(t, s) && Unbroken(t, current)
    ensures Split(t, s + "\n", current) != []
    ensures JoinLines(Split(t, s + "\n", current)) == current + s
    decreases |s|
  {
    hide Split, JoinLines;
    if s == [] {
      assert s + "\n" == ['\n'] + [];
      SplitFirst(t, '\n', [], current);
      SplitEmpty(t, []);
      JoinOne(current);
      assert [current] + [] == [current] && current + s == current;
    } else {
      var c, rest := s[0], s[1..];
      assert s + "\n" == [c] + (rest + "\n");
      SplitFirst(t, c, rest + "\n", current);
      if t.breaks(c) {
        JoinSplit(t, rest, []);
        JoinFirst(current, Split(t, rest + "\n", []));
        assert current + "\n" + ([] + rest) == current + s;
      } else {
        JoinSplit(t, rest, current + [c]);
        assert current + [c] + rest == current + s;
      }
    }
  }

  lemma JoinOne(line: string)
    ensures JoinLines([line]) == line
  {
  }

  /** Splitting a text and joining its lines gives it back exactly when "\n" is its only line break. */
  lemma JoinSplitExactly(t: Style, s: string)
    requires Sane(t)
    ensures JoinLines(SplitLines(t, s + "\n")) == s <==> NewlineSeparated(t, s)
  {
    hide Split, JoinLines, NewlineSeparated;
    if NewlineSeparated(t, s) {
      JoinSplit(t, s, []);
      assert [] + s == s;
    }
    SplitUnbroken(t, s + "\n", []);
    JoinedSeparated(t, SplitLines(t, s + "\n"));
  }

  // ----- Blank texts

  predicate AllSpace(t: Style, s: string) {
    forall k :: 0 <= k < |s| ==> t.space(s[k])
  }

  lemma {:induction false} StripNothing(t: Style, s: string)
    ensures Strip(t.space, s) == [] <==> AllSpace(t, s)
  {
    if s == [] {
    } else if t.space(s[0]) {
      StripNothing(t, s[1..]);
      assert AllSpace(t, s) ==> AllSpace(t, s[1..]);
      if AllSpace(t, s[1..]) {
        forall k | 0 <= k < |s| ensures t.space(s[k]) {
          if k > 0 { assert s[k] == s[1..][k - 1]; }
        }
      }
    } else {
      InkStays(t.space, s);
    }
  }

  lemma {:induction false} SplitSpace(t: Style, s: string, current: string)
    requires AllSpace(t, s) && AllSpace(t, current)
    ensures forall k :: 0 <= k < |Split(t, s, current)| ==> AllSpace(t, Split(t, s, current)[k])
    decreases |s|
  {
    if s == [] {
    } else if s[0] == '\r' && |s| > 1 && s[1] == '\n' {
      SplitSpace(t, s[2..], []);
    } else if t.breaks(s[0]) {
      SplitSpace(t, s[1..], []);
    } else {
      SplitSpace(t, s[1..], current + [s[0]]);
    }
  }

  // ----- The text of some of the lines

  /** The text of the first `n` lines, line breaks included. */
  function Front(t: Style, s: string, n: nat): string
    decreases |s|
  {
    if n == 0 || s == [] then []
    else if s[0] == '\r' && |s| > 1 && s[1] == '\n' then "\r\n" + Front(t, s[2..], n - 1)
    else if t.breaks(s[0]) then [s[0]] + Front(t, s[1..], n - 1)
    else [s[0]] + Front(t, s[1..], n)
  }

  /** The text after the first `n` lines. */
  function Skip(t: Style, s: string, n: nat): string
    decreases |s|
  {
    if n == 0 || s == [] then s
    else if s[0] == '\r' && |s| > 1 && s[1] == '\n' then Skip(t, s[2..], n - 1)
    else if t.breaks(s[0]) then Skip(t, s[1..], n - 1)
    else Skip(t, s[1..], n)
  }

  lemma {:induction false} FrontAndSkip(t: Style, s: string, n: nat)
    ensures Front(t, s, n) + Skip(t, s, n) == s
    decreases |s|
  {
    if n == 0 || s == [] {
    } else if s[0] == '\r' && |s| > 1 && s[1] == '\n' {
      FrontAndSkip(t, s[2..], n - 1);
      assert "\r\n" + s[2..] == s;
    } else {
      FrontAndSkip(t, s[1..], if t.breaks(s[0]) then n - 1 else n);
      assert [s[0]] + s[1..] == s;
    }
  }

  lemma {:induction false} SkipSplits(t: Style, s: string, n: nat, current: string)
    requires n <= |Split(t, s, current)| && (n == 0 ==> current == [])
    ensures Split(t, Skip(t, s, n), []) == Split(t, s, current)[n..]
    decreases |s|
  {
    if n == 0 || s == [] {
    } else if s[0] == '\r' && |s| > 1 && s[1] == '\n' {
      SkipSplits(t, s[2..], n - 1, []);
    } else if t.breaks(s[0]) {
      SkipSplits(t, s[1..], n - 1, []);
    } else {
      SkipSplits(t, s[1..], n, current + [s[0]]);
    }
  }

  lemma {:induction false} FrontSplits(t: Style, s: string, n: nat, current: string)
    requires Sane(t) && 0 < n <= |Split(t, s, current)|
    ensures Split(t, Front(t, s, n), current) == Split(t, s, current)[..n]
    decreases |s|
  {
    hide Split;
    if s == [] {
      SplitEmpty(t, current);
      assert Split(t, s, current)[..n] == Split(t, s, current);
    } else if s[0] == '\r' && |s| > 1 && s[1] == '\n' {
      var rest := Front(t, s[2..], n - 1);
      assert s == "\r\n" + s[2..];
      SplitPair(t, s[2..], current);
      SplitPair(t, rest, current);
      if n > 1 { FrontSplits(t, s[2..], n - 1, []); } else { SplitEmpty(t, []); }
    } else {
      var c, past := s[0], t.breaks(s[0]);
      var m := if past then n - 1 else n;
      var rest := Front(t, s[1..], m);
      assert s == [c] + s[1..];
      FrontStarts(t, s[1..], m);
      SplitFirst(t, c, s[1..], current);
      SplitFirst(t, c, rest, current);
      if m > 0 {
        FrontSplits(t, s[1..], m, if past then [] else current + [c]);
      } else {
        SplitEmpty(t, []);
      }
    }
  }

  lemma SplitPair(t: Style, rest: string, current: string)
    ensures Split(t, "\r\n" + rest, current) == [current] + Split(t, rest, [])
  {
    assert ("\r\n" + rest)[2..] == rest;
  }

  lemma FrontStarts(t: Style, s: string, n: nat)
    ensures Front(t, s, n) == [] || (s != [] && Front(t, s, n)[0] == s[0])
  {
  }

  /** The text of lines that others follow ends in a line break. */
  lemma {:induction false} FrontEnds(t: Style, s: string, n: nat, current: string)
    requires Sane(t) && 0 < n < |Split(t, s, current)|
    ensures var front := Front(t, s, n); front != [] && t.breaks(front[|front| - 1])
    decreases |s|
  {
    if s == [] {
    } else if s[0] == '\r' && |s| > 1 && s[1] == '\n' {
      if n > 1 { FrontEnds(t, s[2..], n - 1, []); }
    } else if t.breaks(s[0]) {
      if n > 1 { FrontEnds(t, s[1..], n - 1, []); }
    } else {
      FrontEnds(t, s[1..], n, current + [s[0]]);
    }
  }

  /** Every line followed by "\n". */
  function Unlines(lines: seq<string>): string {
    if lines == [] then [] else lines[0] + "\n" + Unlines(lines[1..])
  }

  lemma {:induction false} UnlinesJoined(lines: seq<string>)
    requires lines != []
    ensures Unlines(lines) == JoinLines(lines) + "\n"
  {
    if |lines| > 1 {
      UnlinesJoined(lines[1..]);
      JoinCons(lines);
      assert lines[0] + "\n" + (JoinLines(lines[1..]) + "\n") == lines[0] + ("\n" + (JoinLines(lines[1..]) + "\n"));
    } else {
      assert lines[0] + "\n" + [] == lines[0] + "\n";
    }
  }

  lemma {:induction false} UnlinesAppend(a: seq<string>, b: seq<string>)
    ensures Unlines(a + b) == Unlines(a) + Unlines(b)
  {
    if a == [] {
      assert a + b == b;
    } else {
      UnlinesAppend(a[1..], b);
      assert (a + b)[0] == a[0] && (a + b)[1..] == a[1..] + b;
      assert a[0] + "\n" + (Unlines(a[1..]) + Unlines(b)) == a[0] + "\n" + Unlines(a[1..]) + Unlines(b);
    }
  }

  predicate EndsLine(s: string) {
    s == [] || s[|s| - 1] == '\n'
  }

  lemma SeparatedAppend(t: Style, a: string, b: string)
    ensures NewlineSeparated(t, a + b) <==> NewlineSeparated(t, a) && NewlineSeparated(t, b)
  {
    var s := a + b;
    assert forall k :: 0 <= k < |a| ==> s[k] == a[k];
    assert forall k :: 0 <= k < |b| ==> s[|a| + k] == b[k];
  }

  /** Written back line by line, a text is the same exactly when it is made of lines ended by "\n". */
  lemma UnlinesExactly(t: Style, s: string)
    requires Sane(t)
    ensures Unlines(SplitLines(t, s)) == s <==> NewlineSeparated(t, s) && EndsLine(s)
    ensures NewlineSeparated(t, Unlines(SplitLines(t, s))) && EndsLine(Unlines(SplitLines(t, s)))
  {
    hide Split, JoinLines, NewlineSeparated, Unlines, Unbroken;
    if s == [] {
      SplitEmpty(t, []);
      UnlinesNone(t);
    } else {
      var lines := SplitLines(t, s);
      SplitSome(t, s, []);
      UnlinesJoined(lines);
      SplitUnbroken(t, s, []);
      JoinedSeparated(t, lines);
      SeparatedAppend(t, JoinLines(lines), "\n");
      NewlineAlone(t);
      if s[|s| - 1] == '\n' {
        var u := s[..|s| - 1];
        assert s == u + "\n";
        JoinSplitExactly(t, u);
        SeparatedAppend(t, u, "\n");
        SameEnd(JoinLines(lines), u);
      }
    }
  }

  lemma UnlinesNone(t: Style)
    ensures Unlines([]) == [] && NewlineSeparated(t, [])
  {
  }

  lemma NewlineAlone(t: Style)
    ensures NewlineSeparated(t, "\n")
  {
  }

  lemma {:induction false} SplitSome(t: Style, s: string, current: string)
    requires s != [] || current != []
    ensures Split(t, s, current) != []
    decreases |s|
  {
    if s != [] && !t.breaks(s[0]) && !(s[0] == '\r' && |s| > 1 && s[1] == '\n') {
      SplitSome(t, s[1..], current + [s[0]]);
    }
  }

  lemma SameEnd(a: string, b: string)
    ensures a + "\n" == b + "\n" <==> a == b
  {
    if a + "\n" == b + "\n" {
      assert a == (a + "\n")[..|a + "\n"| - 1] && b == (b + "\n")[..|b + "\n"| - 1];
    }
  }
}
