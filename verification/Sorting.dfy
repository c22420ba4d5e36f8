/** Python's `sorted`: stable, by any comparison. */
module Sorting {
  /** `first(x, y)`: an element `x` given before `y` may stay before it. */
  function Insert<T>(x: T, s: seq<T>, first: (T, T) -> bool): seq<T> {
    if s == [] || first(x, s[0]) then [x] + s else [s[0]] + Insert(x, s[1..], first)
  }

  function Sort<T>(s: seq<T>, first: (T, T) -> bool): (r: seq<T>)
    ensures multiset(r) == multiset(s)
  {
    if s == [] then []
    else
      var rest := Sort(s[1..], first);
      InsertKeeps(s[0], rest, first);
      assert s == [s[0]] + s[1..];
      Insert(s[0], rest, first)
  }

  lemma {:induction false} InsertKeeps<T>(x: T, s: seq<T>, first: (T, T) -> bool)
    ensures multiset(Insert(x, s, first)) == multiset([x] + s)
  {
    if !(s == [] || first(x, s[0])) {
      InsertKeeps(x, s[1..], first);
      assert s == [s[0]] + s[1..];
    }
  }

  lemma StillMember<T>(y: T, a: seq<T>, b: seq<T>)
    requires multiset(a) == multiset(b) && y in a
    ensures y in b
  {
    assert y in multiset(a);
    assert y in multiset(b);
  }

  /** Every element is related to all that follow it. */
  ghost predicate Arranged<T>(s: seq<T>, r: (T, T) -> bool) {
    forall i, j :: 0 <= i < j < |s| ==> r(s[i], s[j])
  }

  /** For `x` given before `y`, the comparison puts the two as they are related. */
  ghost predicate Decides<T>(first: (T, T) -> bool, r: (T, T) -> bool, x: T, y: T) {
    if first(x, y) then r(x, y) else r(y, x)
  }

  lemma ArrangedCons<T>(x: T, s: seq<T>, r: (T, T) -> bool)
    requires Arranged(s, r) && forall y :: y in s ==> r(x, y)
    ensures Arranged([x] + s, r)
  {
    forall i, j | 0 <= i < j < |[x] + s| ensures r(([x] + s)[i], ([x] + s)[j]) {
      assert ([x] + s)[j] == s[j - 1] && s[j - 1] in s;
      if i > 0 { assert r(s[i - 1], s[j - 1]); }
    }
  }

  lemma ArrangedTail<T>(s: seq<T>, r: (T, T) -> bool)
    requires s != [] && Arranged(s, r)
    ensures Arranged(s[1..], r) && forall y :: y in s[1..] ==> r(s[0], y)
  {
    forall i, j | 0 <= i < j < |s[1..]| ensures r(s[1..][i], s[1..][j]) {
      assert r(s[i + 1], s[j + 1]);
    }
    forall y | y in s[1..] ensures r(s[0], y) {
      var j :| 0 <= j < |s[1..]| && s[1..][j] == y;
      assert r(s[0], s[j + 1]);
    }
  }

  lemma {:induction false} InsertArranges<T>(x: T, s: seq<T>, first: (T, T) -> bool, r: (T, T) -> bool)
    requires Arranged(s, r) && forall y :: y in s ==> Decides(first, r, x, y)
    requires forall y, z :: y in s && z in s && first(x, y) && r(y, z) ==> first(x, z)
    ensures Arranged(Insert(x, s, first), r)
  {
    hide Arranged;
    if s != [] { ArrangedTail(s, r); }
    if s == [] || first(x, s[0]) {
      forall y | y in s ensures r(x, y) {
        assert Decides(first, r, x, y);
        assert y == s[0] || y in s[1..];
      }
      ArrangedCons(x, s, r);
    } else {
      var rest, tail := s[1..], Insert(x, s[1..], first);
      InsertArranges(x, rest, first, r);
      InsertKeeps(x, rest, first);
      assert Decides(first, r, x, s[0]);
      forall y | y in tail ensures r(s[0], y) {
        StillMember(y, tail, [x] + rest);
        assert y == x || y in rest;
      }
      ArrangedCons(s[0], tail, r);
    }
  }

  /** Sorting arranges by any relation that the comparison decides and respects. */
  lemma {:induction false} SortArranges<T>(s: seq<T>, first: (T, T) -> bool, r: (T, T) -> bool)
    requires forall i, j :: 0 <= i < j < |s| ==> Decides(first, r, s[i], s[j])
    requires forall x, y, z :: x in s && y in s && z in s && first(x, y) && r(y, z) ==> first(x, z)
    ensures Arranged(Sort(s, first), r)
  {
    hide Arranged, Decides, Insert;
    if s == [] {
      NothingArranged(r);
    } else {
      var tail := s[1..];
      var rest := Sort(tail, first);
      forall i, j | 0 <= i < j < |tail| ensures Decides(first, r, tail[i], tail[j]) {
        assert Decides(first, r, s[i + 1], s[j + 1]);
      }
      SortArranges(tail, first, r);
      forall y | y in rest ensures y in s && Decides(first, r, s[0], y) {
        StillMember(y, rest, tail);
        var j :| 0 <= j < |tail| && tail[j] == y;
        assert Decides(first, r, s[0], s[j + 1]);
      }
      InsertArranges(s[0], rest, first, r);
    }
  }

  lemma NothingArranged<T>(r: (T, T) -> bool)
    ensures Arranged([], r)
  {
  }
}
