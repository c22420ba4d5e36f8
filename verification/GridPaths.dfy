/**
 * The power-flow reading of a grid without Not and Xor cells: a node carries power exactly
 * when a conducting path leads to it from the left rail, a Short cell or a block output.
 */
module GridPaths {
  import opened LadderGrid
  import opened RowJoins

  datatype Node = Node(row: int, k: int)

  ghost predicate Monotone(g: Grid) {
    forall c :: c in g.cells ==> !c.element.Not? && !c.element.XorContact?
  }

  /** Where power comes from. */
  ghost predicate Source(g: Grid, n: Node) {
    n.k >= 0 && (
      || (n.k == 0 && RailRow(g, n.row))
      || (exists c :: c in g.cells && c.element.Short? && Node(c.row, End(c)) == n)
      || (exists c :: c in g.cells && End(c) == n.k && BlockDrives(g, c, n.row)))
  }

  /** Left to right through a cell that reads its left node and conducts. */
  ghost predicate Across(g: Grid, a: Node, b: Node) {
    exists c :: c in g.cells && c.left && Node(c.row, c.col) == a && Node(c.row, End(c)) == b && Conducts(c, true, g.env)
  }

  /** Either way along a vertical join. */
  ghost predicate Along(g: Grid, a: Node, b: Node) {
    a.k == b.k && (
      || (b.row == a.row + 1 && HasGap(g.cells, a.k, a.row))
      || (a.row == b.row + 1 && HasGap(g.cells, a.k, b.row)))
  }

  ghost predicate Hop(g: Grid, a: Node, b: Node) {
    Across(g, a, b) || Along(g, a, b)
  }

  ghost predicate Path(g: Grid, p: seq<Node>) {
    p != [] && Source(g, p[0]) && forall i :: 0 <= i < |p| - 1 ==> Hop(g, p[i], p[i + 1])
  }

  ghost predicate Reached(g: Grid, n: Node) {
    exists p :: Path(g, p) && p[|p| - 1] == n
  }

  lemma ReachStep(g: Grid, a: Node, b: Node)
    requires Reached(g, a) && Hop(g, a, b)
    ensures Reached(g, b)
  {
    var p :| Path(g, p) && p[|p| - 1] == a;
    var q := p + [b];
    forall i | 0 <= i < |q| - 1 ensures Hop(g, q[i], q[i + 1]) {
      if i < |p| - 1 { assert q[i] == p[i] && q[i + 1] == p[i + 1]; }
    }
    assert Path(g, q) && q[|q| - 1] == b;
  }

  lemma ReachSource(g: Grid, n: Node)
    requires Source(g, n)
    ensures Reached(g, n)
  {
    assert Path(g, [n]) && [n][|[n]| - 1] == n;
  }

  // ----- A path carries power

  lemma SourcePowered(g: Grid, n: Node)
    requires Source(g, n)
    ensures Powered(g, n.row, n.k)
  {
    assert Raw(g, n.k, n.row);
    assert Span(Gaps(g.cells, n.k), n.row, n.row);
  }

  lemma AcrossPowered(g: Grid, a: Node, b: Node)
    requires Monotone(g) && Across(g, a, b) && Powered(g, a.row, a.k)
    ensures Powered(g, b.row, b.k)
  {
    assert Raw(g, b.k, b.row);
    assert Span(Gaps(g.cells, b.k), b.row, b.row);
  }

  lemma AlongPowered(g: Grid, a: Node, b: Node)
    requires Along(g, a, b) && Powered(g, a.row, a.k)
    ensures Powered(g, b.row, b.k)
  {
    var gaps := Gaps(g.cells, a.k);
    var s :| Raw(g, a.k, s) && Span(gaps, a.row, s);
    assert (if a.row < b.row then a.row else b.row) in gaps;
    forall i | b.row <= i < s || s <= i < b.row ensures i in gaps {
      assert i == a.row || i == b.row || a.row <= i < s || s <= i < a.row;
    }
    assert Span(gaps, b.row, s);
  }

  lemma {:induction false} PathPowered(g: Grid, p: seq<Node>)
    requires Monotone(g) && Path(g, p)
    ensures Powered(g, p[|p| - 1].row, p[|p| - 1].k)
  {
    var n := |p| - 1;
    if n == 0 {
      SourcePowered(g, p[0]);
    } else {
      var q := p[..n];
      forall i | 0 <= i < |q| - 1 ensures Hop(g, q[i], q[i + 1]) {
        assert q[i] == p[i] && q[i + 1] == p[i + 1];
      }
      PathPowered(g, q);
      assert Hop(g, p[n - 1], p[n - 1 + 1]);
      if Across(g, p[n - 1], p[n]) {
        AcrossPowered(g, p[n - 1], p[n]);
      } else {
        AlongPowered(g, p[n - 1], p[n]);
      }
    }
  }

  // ----- Power comes along a path

  lemma {:induction false} ReachAlong(g: Grid, row: int, s: int, k: int)
    requires Reached(g, Node(s, k)) && Span(Gaps(g.cells, k), row, s)
    ensures Reached(g, Node(row, k))
    decreases if row < s then s - row else row - s
  {
    if row < s {
      assert s - 1 in Gaps(g.cells, k);
      ReachStep(g, Node(s, k), Node(s - 1, k));
      ReachAlong(g, row, s - 1, k);
    } else if s < row {
      assert s in Gaps(g.cells, k);
      ReachStep(g, Node(s, k), Node(s + 1, k));
      ReachAlong(g, row, s + 1, k);
    }
  }

  lemma {:induction false} PoweredReached(g: Grid, row: int, k: int)
    requires Monotone(g) && Powered(g, row, k)
    ensures Reached(g, Node(row, k))
    decreases k
  {
    var s :| Raw(g, k, s) && Span(Gaps(g.cells, k), row, s);
    if Source(g, Node(s, k)) {
      ReachSource(g, Node(s, k));
    } else {
      var c :| c in g.cells && End(c) == k && s == c.row && Conducts(c, Input(g, c), g.env);
      assert Input(g, c) && Conducts(c, true, g.env);
      PoweredReached(g, c.row, c.col);
      assert Across(g, Node(c.row, c.col), Node(s, k));
      ReachStep(g, Node(c.row, c.col), Node(s, k));
    }
    ReachAlong(g, row, s, k);
  }

  /** The column sweep and graph reachability agree on every node. */
  lemma PowerIsReachability(g: Grid, row: int, k: int)
    requires Monotone(g)
    ensures Powered(g, row, k) <==> Reached(g, Node(row, k))
  {
    if Powered(g, row, k) {
      PoweredReached(g, row, k);
    }
    if Reached(g, Node(row, k)) {
      var p :| Path(g, p) && p[|p| - 1] == Node(row, k);
      PathPowered(g, p);
    }
  }
}
