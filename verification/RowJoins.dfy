/**
 * The rows joined at one column of a ladder grid. Every join is between neighbouring rows,
 * so the joined groups are stretches of rows with no missing gap between them.
 */
module RowJoins {
  /** Every gap between rows `x` and `y` is joined; gap `i` lies between rows `i` and `i + 1`. */
  ghost predicate Span(gaps: iset<int>, x: int, y: int) {
    forall i :: (x <= i < y || y <= i < x) ==> i in gaps
  }

  lemma SpanWithGap(gaps: iset<int>, g: int, x: int, y: int)
    ensures Span(gaps + iset{g}, x, y) <==>
      Span(gaps, x, y)
      || (Span(gaps, x, g) && Span(gaps, g + 1, y))
      || (Span(gaps, y, g) && Span(gaps, g + 1, x))
  {
    var more := gaps + iset{g};
    if Span(more, x, y) && !Span(gaps, x, y) {
      var i :| (x <= i < y || y <= i < x) && i !in gaps;
      assert i in more;
    }
    if Span(gaps, x, g) && Span(gaps, g + 1, y) {
      SpanAcross(gaps, g, x, y);
    }
    if Span(gaps, y, g) && Span(gaps, g + 1, x) {
      SpanAcross(gaps, g, y, x);
    }
  }

  lemma SpanAcross(gaps: iset<int>, g: int, x: int, y: int)
    requires Span(gaps, x, g) && Span(gaps, g + 1, y)
    ensures Span(gaps + iset{g}, x, y) && Span(gaps + iset{g}, y, x)
  {
    forall i | x <= i < y || y <= i < x ensures i in gaps + iset{g} {
      assert i == g || (x <= i < g || g <= i < x) || (g + 1 <= i < y || y <= i < g + 1);
    }
  }

  /** Depth falls along the `parent` link of `x`, and its chain ends in its root. */
  ghost predicate Linked(parent: map<int, int>, root: map<int, int>, depth: map<int, nat>, x: int)
    requires root.Keys == parent.Keys && depth.Keys == parent.Keys && x in parent
  {
    && parent[x] in parent && root[x] in parent && parent[root[x]] == root[x]
    && root[parent[x]] == root[x]
    && (parent[x] == x ==> root[x] == x)
    && (parent[x] != x ==> depth[parent[x]] < depth[x])
  }

  ghost predicate Forest(parent: map<int, int>, root: map<int, int>, depth: map<int, nat>) {
    && root.Keys == parent.Keys && depth.Keys == parent.Keys
    && (forall x {:trigger Linked(parent, root, depth, x)} :: x in parent ==> Linked(parent, root, depth, x))
  }

  /** Two rows have the same root exactly when every gap between them is joined. */
  ghost predicate Grouped(root: map<int, int>, gaps: iset<int>) {
    && (forall g :: g in gaps ==> g in root && g + 1 in root)
    && (forall x, y :: x in root && y in root ==> (root[x] == root[y] <==> Span(gaps, x, y)))
  }

  lemma AddRow(root: map<int, int>, gaps: iset<int>, x: int)
    requires Grouped(root, gaps) && x !in root && x !in root.Values
    ensures Grouped(root[x := x], gaps)
  {
    forall y | y in root ensures !Span(gaps, x, y) && !Span(gaps, y, x) {
      assert x !in gaps && x - 1 !in gaps;
      if x < y { assert x <= x < y; } else { assert y <= x - 1 < x; }
      assert root[y] in root.Values;
    }
    forall p, q | p in root[x := x] && q in root[x := x]
      ensures root[x := x][p] == root[x := x][q] <==> Span(gaps, p, q)
    {
      if p in root { assert root[p] in root.Values; }
      if q in root { assert root[q] in root.Values; }
    }
  }

  function Redirected(root: map<int, int>, from: int, to: int): map<int, int> {
    map z | z in root :: if root[z] == from then to else root[z]
  }

  lemma JoinGap(root: map<int, int>, gaps: iset<int>, g: int, from: int, to: int)
    requires Grouped(root, gaps) && g in root && g + 1 in root
    requires (from == root[g] && to == root[g + 1]) || (from == root[g + 1] && to == root[g])
    ensures Grouped(Redirected(root, from, to), gaps + iset{g})
  {
    var after := Redirected(root, from, to);
    forall p, q | p in after && q in after
      ensures after[p] == after[q] <==> Span(gaps + iset{g}, p, q)
    {
      SpanWithGap(gaps, g, p, q);
      assert root[p] == root[q] <==> Span(gaps, p, q);
      assert root[p] == root[g] <==> Span(gaps, p, g);
      assert root[q] == root[g] <==> Span(gaps, q, g);
      assert root[g + 1] == root[p] <==> Span(gaps, g + 1, p);
      assert root[g + 1] == root[q] <==> Span(gaps, g + 1, q);
    }
  }

  function Deepened(root: map<int, int>, depth: map<int, nat>, from: int, extra: nat): map<int, nat>
    requires root.Keys == depth.Keys
  {
    map z | z in root :: if root[z] == from then depth[z] + extra else depth[z]
  }

  lemma JoinForest(parent: map<int, int>, root: map<int, int>, depth: map<int, nat>, from: int, to: int)
    requires Forest(parent, root, depth) && from in parent && to in parent
    requires parent[from] == from && parent[to] == to && from != to
    ensures Forest(parent[from := to], Redirected(root, from, to), Deepened(root, depth, from, depth[to] + 1))
  {
    var root', depth' := Redirected(root, from, to), Deepened(root, depth, from, depth[to] + 1);
    assert Linked(parent, root, depth, from) && Linked(parent, root, depth, to);
    forall x | x in parent ensures Linked(parent[from := to], root', depth', x) {
      assert Linked(parent, root, depth, x);
    }
  }

  lemma AddRoot(parent: map<int, int>, root: map<int, int>, depth: map<int, nat>, x: int)
    requires Forest(parent, root, depth) && x !in parent
    ensures Forest(parent[x := x], root[x := x], depth[x := 0])
    ensures x !in root.Values
  {
    forall y | y in parent ensures root[y] != x && Linked(parent[x := x], root[x := x], depth[x := 0], y) {
      assert Linked(parent, root, depth, y);
    }
    assert Linked(parent[x := x], root[x := x], depth[x := 0], x);
  }

  lemma JoinRows(
    parent: map<int, int>, root: map<int, int>, depth: map<int, nat>, gaps: iset<int>, x: int, y: int)
    returns (root': map<int, int>, depth': map<int, nat>)
    requires Forest(parent, root, depth) && Grouped(root, gaps)
    requires x in parent && y in parent && (y == x + 1 || y == x - 1)
    ensures Forest(parent[root[x] := root[y]], root', depth')
    ensures Grouped(root', gaps + iset{if x < y then x else y})
  {
    var from, to := root[x], root[y];
    assert Linked(parent, root, depth, x) && Linked(parent, root, depth, y);
    JoinGap(root, gaps, if x < y then x else y, from, to);
    root' := Redirected(root, from, to);
    if from != to {
      assert Linked(parent, root, depth, from) && Linked(parent, root, depth, to);
      JoinForest(parent, root, depth, from, to);
      depth' := Deepened(root, depth, from, depth[to] + 1);
    } else {
      assert root' == root && parent[from := to] == parent;
      depth' := depth;
    }
  }

  /** The `parent` dictionary of one column, with its path-following `find`. */
  class Joins {
    var parent: map<int, int>
    ghost var root: map<int, int>
    ghost var depth: map<int, nat>
    ghost var gaps: iset<int>

    ghost predicate Valid()
      reads this
    {
      root.Keys == parent.Keys && Forest(parent, root, depth) && Grouped(root, gaps)
    }

    constructor ()
      ensures Valid() && parent == map[] && gaps == iset{}
    {
      parent, root, depth, gaps := map[], map[], map[], iset{};
    }

    method Find(x: int) returns (r: int)
      requires Valid()
      modifies this
      ensures Valid() && gaps == old(gaps)
      ensures parent.Keys == old(parent.Keys) + {x}
      ensures r == root[x]
      ensures root == old(if x in parent then root else root[x := x])
    {
      if x !in parent {
        AddRoot(parent, root, depth, x);
        AddRow(root, gaps, x);
        parent, root, depth := parent[x := x], root[x := x], depth[x := 0];
      }
      r := x;
      assert Linked(parent, root, depth, x);
      while parent[r] != r
        invariant r in parent && root[r] == root[x]
        decreases depth[r]
      {
        assert Linked(parent, root, depth, r);
        r := parent[r];
        assert Linked(parent, root, depth, r);
      }
      assert Linked(parent, root, depth, r);
    }

    /** `parent[find(x)] = find(y)` for neighbouring rows. */
    method Join(x: int, y: int)
      requires Valid() && (y == x + 1 || y == x - 1)
      modifies this
      ensures Valid() && gaps == old(gaps) + iset{if x < y then x else y}
      ensures parent.Keys == old(parent.Keys) + {x, y}
    {
      var to := Find(y);
      var from := Find(x);
      Attach(x, y, from, to);
    }

    method Attach(ghost x: int, ghost y: int, from: int, to: int)
      requires Valid() && (y == x + 1 || y == x - 1)
      requires x in parent && y in parent && from == root[x] && to == root[y]
      modifies this
      ensures Valid() && gaps == old(gaps) + iset{if x < y then x else y}
      ensures parent.Keys == old(parent.Keys)
    {
      assert Linked(parent, root, depth, x);
      root, depth := JoinRows(parent, root, depth, gaps, x, y);
      gaps := gaps + iset{if x < y then x else y};
      parent := parent[from := to];
    }
  }
}
