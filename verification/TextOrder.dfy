/** Python's ordering of strings, and sorting by a string key. */
module TextOrder {
  import opened Wrappers
  import Sorting

  /** Lexicographic, by character. */
  predicate AtMost(a: string, b: string) {
    a == [] || (b != [] && (a[0] < b[0] || (a[0] == b[0] && AtMost(a[1..], b[1..]))))
  }

  lemma {:induction false} AtMostTotal(a: string, b: string)
    ensures AtMost(a, b) || AtMost(b, a)
    ensures AtMost(a, b) && AtMost(b, a) ==> a == b
  {
    if a != [] && b != [] {
      AtMostTotal(a[1..], b[1..]);
      assert a == [a[0]] + a[1..] && b == [b[0]] + b[1..];
    }
  }

  lemma {:induction false} AtMostTransitive(a: string, b: string, c: string)
    requires AtMost(a, b) && AtMost(b, c)
    ensures AtMost(a, c)
  {
    if a != [] && a[0] == b[0] && b[0] == c[0] {
      AtMostTransitive(a[1..], b[1..], c[1..]);
    }
  }

  ghost predicate SortedBy<T>(s: seq<T>, key: T -> string) {
    forall i, j :: 0 <= i < j < |s| ==> AtMost(key(s[i]), key(s[j]))
  }

  function ByKey<T>(key: T -> string): (T, T) -> bool {
    (x, y) => AtMost(key(x), key(y))
  }

  /** `sorted(s, key=key)` */
  function Sort<T>(s: seq<T>, key: T -> string): seq<T> {
    Sorting.Sort(s, ByKey(key))
  }

  lemma SortSorts<T>(s: seq<T>, key: T -> string)
    ensures SortedBy(Sort(s, key), key)
    ensures multiset(Sort(s, key)) == multiset(s)
  {
    hide AtMost, Sorting.Sort;
    var first := ByKey(key);
    forall i, j | 0 <= i < j < |s| ensures Sorting.Decides(first, first, s[i], s[j]) {
      AtMostTotal(key(s[i]), key(s[j]));
    }
    forall x, y, z | x in s && y in s && z in s && first(x, y) && first(y, z) ensures first(x, z) {
      AtMostTransitive(key(x), key(y), key(z));
    }
    Sorting.SortArranges(s, first, first);
    var r := Sort(s, key);
    forall i, j | 0 <= i < j < |r| ensures AtMost(key(r[i]), key(r[j])) {
      assert first(r[i], r[j]);
    }
  }

  // ----- Repetition

  /** A list has no repeats exactly when it has as many members as entries. */
  lemma {:induction false} NoRepeatsBySize<T>(s: seq<T>)
    ensures |set x | x in s| <= |s|
    ensures |set x | x in s| == |s| <==> NoRepeats(s)
  {
    if s == [] {
      assert (set x | x in s) == {};
    } else {
      var last := |s| - 1;
      var rest := s[..last];
      NoRepeatsBySize(rest);
      assert s == rest + [s[last]];
      assert (set x | x in s) == (set x | x in rest) + {s[last]};
      if s[last] in rest {
        var i :| 0 <= i < |rest| && rest[i] == s[last];
        assert s[i] == s[last] && !NoRepeats(s);
        assert (set x | x in s) == (set x | x in rest);
      } else {
        assert NoRepeats(s) <==> NoRepeats(rest) by {
          assert forall i :: 0 <= i < |rest| ==> s[i] == rest[i] && rest[i] in rest;
        }
      }
    }
  }
}
