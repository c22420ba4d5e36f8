/** Python's `strip`, for any notion of white space. */
module TextTools {
  function Lead(space: char -> bool, s: string): string {
    if s == [] || !space(s[0]) then s else Lead(space, s[1..])
  }

  function Trail(space: char -> bool, s: string): string {
    if s == [] || !space(s[|s| - 1]) then s else Trail(space, s[..|s| - 1])
  }

  function Strip(space: char -> bool, s: string): string {
    Trail(space, Lead(space, s))
  }

  lemma {:induction false} LeadEnds(space: char -> bool, s: string)
    ensures |Lead(space, s)| <= |s| && Lead(space, s) == s[|s| - |Lead(space, s)|..]
    ensures Lead(space, s) == [] || !space(Lead(space, s)[0])
    ensures s != [] && space(s[0]) ==> |Lead(space, s)| < |s|
  {
    if s != [] && space(s[0]) { LeadEnds(space, s[1..]); }
  }

  lemma {:induction false} TrailEnds(space: char -> bool, s: string)
    ensures |Trail(space, s)| <= |s| && Trail(space, s) == s[..|Trail(space, s)|]
    ensures Trail(space, s) == [] || !space(Trail(space, s)[|Trail(space, s)| - 1])
    ensures s != [] && space(s[|s| - 1]) ==> |Trail(space, s)| < |s|
  {
    if s != [] && space(s[|s| - 1]) { TrailEnds(space, s[..|s| - 1]); }
  }

  /** Neither end of a stripped text is white space. */
  lemma StripEnds(space: char -> bool, s: string)
    ensures var r := Strip(space, s); r != [] ==> !space(r[0]) && !space(r[|r| - 1])
  {
    LeadEnds(space, s);
    TrailEnds(space, Lead(space, s));
  }

  lemma StripDone(space: char -> bool, s: string)
    requires s == [] || (!space(s[0]) && !space(s[|s| - 1]))
    ensures Strip(space, s) == s
  {
  }

  lemma StripTwice(space: char -> bool, s: string)
    ensures Strip(space, Strip(space, s)) == Strip(space, s)
  {
    StripEnds(space, s);
    StripDone(space, Strip(space, s));
  }

  lemma {:induction false} StripLead(space: char -> bool, pad: string, s: string)
    requires forall k :: 0 <= k < |pad| ==> space(pad[k])
    ensures Strip(space, pad + s) == Strip(space, s)
  {
    if pad == [] {
      assert pad + s == s;
    } else {
      assert (pad + s)[1..] == pad[1..] + s;
      StripLead(space, pad[1..], s);
    }
  }

  /** A text with a character that is not white space does not strip to nothing. */
  lemma InkStays(space: char -> bool, s: string)
    requires s != [] && !space(s[0])
    ensures Strip(space, s) != []
  {
    TrailKeeps(space, s, 0);
  }

  lemma {:induction false} TrailKeeps(space: char -> bool, s: string, k: nat)
    requires k < |s| && !space(s[k])
    ensures Trail(space, s) != []
  {
    if space(s[|s| - 1]) { TrailKeeps(space, s[..|s| - 1], k); }
  }

  /** A text with a character that is not white space anywhere does not strip to nothing. */
  lemma {:induction false} StripKeeps(space: char -> bool, s: string, k: nat)
    requires k < |s| && !space(s[k])
    ensures Strip(space, s) != []
  {
    if space(s[0]) {
      StripKeeps(space, s[1..], k - 1);
    } else {
      InkStays(space, s);
    }
  }

  /** White space behind a text that does not start with any is stripped. */
  lemma {:induction false} StripTrail(space: char -> bool, s: string, pad: string)
    requires s == [] || !space(s[0])
    requires forall k :: 0 <= k < |pad| ==> space(pad[k])
    ensures Strip(space, s + pad) == Strip(space, s)
  {
    if s == [] {
      assert s + pad == pad + [];
      StripLead(space, pad, []);
    } else if pad == [] {
      assert s + pad == s;
    } else {
      var last := |pad| - 1;
      assert (s + pad)[..|s + pad| - 1] == s + pad[..last];
      StripTrail(space, s, pad[..last]);
    }
  }
}
