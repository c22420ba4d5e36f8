/** Finding calls with balanced operands in Logix rung text. */
module CallScanner {
  import opened Wrappers
  import opened TextTools

  /** Which characters are letters, letters or digits, and white space. */
  datatype Classes = Classes(alpha: char -> bool, alnum: char -> bool, space: char -> bool)

  const DELIMITERS := "()[]{},\"'"

  /** What holds of these classes for every character of Unicode. */
  ghost predicate Sane(u: Classes) {
    && (forall c :: u.alpha(c) ==> u.alnum(c))
    && (forall c :: u.space(c) ==> !u.alnum(c))
    && (forall c :: c in DELIMITERS ==> !u.alnum(c) && !u.space(c))
    && (forall c :: c in "_.$:" ==> !u.space(c))
  }

  predicate Starts(u: Classes, c: char) {
    u.alpha(c) || c == '_'
  }

  predicate Continues(u: Classes, c: char) {
    u.alnum(c) || c in "_.$:"
  }

  // ----- What the scanner computes, on the text that is left

  function NameLength(u: Classes, s: string): (n: nat)
    ensures n <= |s|
  {
    if s == [] || !Continues(u, s[0]) then 0 else 1 + NameLength(u, s[1..])
  }

  function SpaceLength(u: Classes, s: string): (n: nat)
    ensures n <= |s|
  {
    if s == [] || !u.space(s[0]) then 0 else 1 + SpaceLength(u, s[1..])
  }

  /** The quote after one more character. */
  function Quoted(c: char, quote: Option<char>): Option<char> {
    if quote.Some? then (if quote.value == c then None else quote)
    else if c == '"' || c == '\'' then Some(c)
    else None
  }

  /** The offset of the parenthesis that brings the depth back to zero. */
  function Match(s: string, depth: int, quote: Option<char>): (end: Option<nat>)
    ensures end.Some? ==> end.value < |s|
  {
    if s == [] then None
    else
      var depth' := if quote.Some? then depth
                    else if s[0] == '(' then depth + 1
                    else if s[0] == ')' then depth - 1 else depth;
      if quote.None? && s[0] == ')' && depth' == 0 then Some(0)
      else
        var rest := Match(s[1..], depth', Quoted(s[0], quote));
        if rest.Some? then Some(rest.value + 1) else None
  }

  datatype Depths = Depths(paren: nat, bracket: nat, brace: nat)

  const Top := Depths(0, 0, 0)

  function Less(n: nat): nat {
    if n == 0 then 0 else n - 1
  }

  /** One unquoted character; a surplus closer is ignored. */
  function Nested(c: char, d: Depths): Depths {
    match c
    case '(' => d.(paren := d.paren + 1)
    case '[' => d.(bracket := d.bracket + 1)
    case '{' => d.(brace := d.brace + 1)
    case ')' => d.(paren := Less(d.paren))
    case ']' => d.(bracket := Less(d.bracket))
    case '}' => d.(brace := Less(d.brace))
    case _ => d
  }

  /** The operands of `s`, the first of which starts with `current`. */
  function Operands(u: Classes, s: string, current: string, d: Depths, quote: Option<char>): seq<string>
    decreases s
  {
    if s == [] then [Strip(u.space, current)]
    else if quote.None? && s[0] == ',' && d == Top then [Strip(u.space, current)] + Operands(u, s[1..], [], d, quote)
    else Operands(u, s[1..], current + [s[0]], if quote.Some? then d else Nested(s[0], d), Quoted(s[0], quote))
  }

  function SplitText(u: Classes, s: string): seq<string> {
    if Strip(u.space, s) == [] then [] else Operands(u, s, [], Top, None)
  }

  /** A callee, its operands, and the source text of the whole call. */
  datatype Call = Call(callee: string, operands: seq<string>, text: string)

  /** What starts at the front of the text: nothing for `n` characters, or a call. */
  datatype Look = Skip(n: nat) | Found(name: nat, at: nat, end: nat)

  function LookAt(u: Classes, s: string): (look: Look)
    requires Sane(u) && s != []
    ensures look.Skip? ==> 0 < look.n <= |s|
    ensures look.Found? ==> 0 < look.name <= look.at < look.end < |s|
  {
    if !Starts(u, s[0]) then Skip(1)
    else
      var name := NameLength(u, s);
      assert name > 0 by { NameAdvances(u, s); }
      var at := name + SpaceLength(u, s[name..]);
      if at == |s| || s[at] != '(' then Skip(name)
      else
        var close := Match(s[at..], 0, None);
        if close.None? then Skip(at + 1) else Found(name, at, at + close.value)
  }

  lemma NameAdvances(u: Classes, s: string)
    requires Sane(u) && s != [] && Starts(u, s[0])
    ensures NameLength(u, s) > 0
  {
    if s[0] == '_' { assert s[0] in "_.$:"; }
  }

  function FoundCall(u: Classes, s: string, name: nat, at: nat, end: nat): Call
    requires name <= at < end < |s|
  {
    Call(s[..name], SplitText(u, s[at + 1..end]), s[..end + 1])
  }

  function Scan(u: Classes, s: string): seq<Call>
    requires Sane(u)
    decreases |s|
  {
    if s == [] then []
    else
      match LookAt(u, s)
      case Skip(n) => Scan(u, s[n..])
      case Found(name, at, end) => [FoundCall(u, s, name, at, end)] + Scan(u, s[end + 1..])
  }

  /** One turn of the scan, for calls already found before position `index`. */
  lemma ScanTurn(u: Classes, source: string, index: nat, calls: seq<Call>, look: Look)
    requires Sane(u) && index < |source|
    requires look == LookAt(u, source[index..])
    ensures look.Skip? ==>
      index + look.n <= |source| && calls + Scan(u, source[index..]) == calls + Scan(u, source[index + look.n..])
    ensures look.Found? ==>
      && look.name <= look.at < look.end < |source| - index
      && calls + Scan(u, source[index..])
         == calls + [FoundCall(u, source[index..], look.name, look.at, look.end)] + Scan(u, source[index + look.end + 1..])
  {
    hide LookAt, FoundCall, Sane;
    var rest := source[index..];
    if look.Skip? {
      assert rest[look.n..] == source[index + look.n..];
    } else {
      assert rest[look.end + 1..] == source[index + look.end + 1..];
    }
  }

  // ----- The loops of the scanner

  method MatchingParenthesis(source: string, start: nat) returns (r: Option<nat>)
    requires start <= |source|
    ensures r == match Match(source[start..], 0, None)
                 case Some(n) => Some(start + n)
                 case None => None
    ensures r.Some? ==> start <= r.value < |source|
    ensures r.Some? && source[start] == '(' ==> start < r.value
  {
    var depth, quote := 0, None;
    for index := start to |source|
      invariant Match(source[start..], 0, None) ==
        match Match(source[index..], depth, quote)
        case Some(n) => Some(index - start + n)
        case None => None
    {
      var c := source[index];
      assert source[index..][0] == c && source[index..][1..] == source[index + 1..];
      if quote.Some? {
        if c == quote.value { quote := None; }
      } else if c == '"' || c == '\'' {
        quote := Some(c);
      } else if c == '(' {
        depth := depth + 1;
      } else if c == ')' {
        depth := depth - 1;
        if depth == 0 { return Some(index); }
      }
    }
    return None;
  }

  method SplitOperands(u: Classes, source: string) returns (operands: seq<string>)
    ensures operands == SplitText(u, source)
  {
    if Strip(u.space, source) == [] { return []; }
    operands := [];
    var start, d, quote := 0, Top, None;
    assert source[0..] == source && source[0..0] == [];
    for index := 0 to |source|
      invariant start <= index
      invariant SplitText(u, source) == operands + Operands(u, source[index..], source[start..index], d, quote)
    {
      var c := source[index];
      assert source[index..][0] == c && source[index..][1..] == source[index + 1..];
      assert source[start..index] + [c] == source[start..index + 1];
      ghost var before, start' := operands, start;
      assert source[..index][start..] == source[start..index];
      if quote.Some? {
        if c == quote.value { quote := None; }
      } else if c == '"' || c == '\'' {
        quote := Some(c);
      } else if c in "([{" || c in ")]}" {
        d := Nested(c, d);
      } else if c == ',' && d == Top {
        operands := operands + [Strip(u.space, source[start..index])];
        start := index + 1;
        assert operands + Operands(u, source[index + 1..], [], d, quote)
            == before + ([Strip(u.space, source[..index][start'..])] + Operands(u, source[index + 1..], [], d, quote));
        assert source[start..index + 1] == [];
      }
    }
    assert source[|source|..] == [] && source[start..|source|] == source[start..];
    operands := operands + [Strip(u.space, source[start..])];
  }

  method NameFrom(u: Classes, source: string, start: nat) returns (index: nat)
    requires start <= |source|
    ensures index == start + NameLength(u, source[start..])
  {
    index := start;
    while index < |source| && Continues(u, source[index])
      invariant start <= index <= |source|
      invariant NameLength(u, source[start..]) == index - start + NameLength(u, source[index..])
    {
      assert source[index..][1..] == source[index + 1..];
      index := index + 1;
    }
  }

  method SpaceFrom(u: Classes, source: string, start: nat) returns (index: nat)
    requires start <= |source|
    ensures index == start + SpaceLength(u, source[start..])
  {
    index := start;
    while index < |source| && u.space(source[index])
      invariant start <= index <= |source|
      invariant SpaceLength(u, source[start..]) == index - start + SpaceLength(u, source[index..])
    {
      assert source[index..][1..] == source[index + 1..];
      index := index + 1;
    }
  }

  /** One turn of the scanner's loop, up to the point where it knows how to go on. */
  method LookFrom(u: Classes, source: string, start: nat) returns (look: Look)
    requires Sane(u) && start < |source|
    ensures look == LookAt(u, source[start..])
  {
    hide Sane, Match, NameLength, SpaceLength, Starts;
    ghost var rest := source[start..];
    if !Starts(u, source[start]) { return Skip(1); }
    NameAdvances(u, rest);
    var index := NameFrom(u, source, start);
    assert rest[index - start..] == source[index..];
    var open := SpaceFrom(u, source, index);
    if open == |source| || source[open] != '(' { return Skip(index - start); }
    assert rest[open - start..] == source[open..];
    var close := MatchingParenthesis(source, open);
    if close.None? { return Skip(open + 1 - start); }
    return Found(index - start, open - start, close.value - start);
  }

  method ScanCalls(u: Classes, source: string) returns (calls: seq<Call>)
    requires Sane(u)
    ensures calls == Scan(u, source)
  {
    hide Sane, LookAt, SplitText, Scan;
    calls := [];
    var index := 0;
    assert source[0..] == source;
    while index < |source|
      invariant index <= |source|
      invariant Scan(u, source) == calls + Scan(u, source[index..])
    {
      var look := LookFrom(u, source, index);
      ScanTurn(u, source, index, calls, look);
      match look {
        case Skip(n) =>
          index := index + n;
        case Found(name, at, end) =>
          Slices(source, index, name, at, end);
          var operands := SplitOperands(u, source[index + at + 1..index + end]);
          calls := calls + [Call(source[index..index + name], operands, source[index..index + end + 1])];
          index := index + end + 1;
      }
    }
    ScanEnd(u, source, calls);
  }

  lemma Slices(source: string, index: nat, name: nat, at: nat, end: nat)
    requires index < |source| && name <= at < end < |source| - index
    ensures source[index..][..name] == source[index..index + name]
    ensures source[index..][at + 1..end] == source[index + at + 1..index + end]
    ensures source[index..][..end + 1] == source[index..index + end + 1]
  {
  }

  lemma ScanEnd(u: Classes, source: string, calls: seq<Call>)
    requires Sane(u)
    ensures calls + Scan(u, source[|source|..]) == calls
  {
  }
}
