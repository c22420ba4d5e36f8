/** Ordering blocks wave by wave, each wave in grid position order. */
module TopologicalSort {
  import opened Sorting
  import opened Wrappers

  datatype Position = Position(row: int, column: int)

  type Graph = map<nat, set<nat>>            // block -> blocks it depends on

  // ----- What an order has to satisfy

  /** `s` lists the members of `keys`, each once. */
  ghost predicate Lists(s: seq<nat>, keys: set<nat>) {
    NoRepeats(s) && (forall x :: x in s <==> x in keys)
  }

  /** Every block comes after all blocks it depends on. */
  ghost predicate Respects(order: seq<nat>, deps: Graph) {
    forall j :: 0 <= j < |order| && order[j] in deps ==>
      forall d :: d in deps[order[j]] ==> d in order[..j]
  }

  /** A non-empty set of blocks none of which can be first: each waits for a member, or for a stranger. */
  ghost predicate Stuck(deps: Graph, s: set<nat>) {
    s != {} && s <= deps.Keys && forall i :: i in s ==> Waits(deps, s, i)
  }

  ghost predicate Waits(deps: Graph, s: set<nat>, i: nat)
    requires i in deps
  {
    exists d :: d in deps[i] && (d in s || d !in deps)
  }

  lemma {:induction false} NoOrderWhenStuck(order: seq<nat>, deps: Graph, s: set<nat>, j: nat)
    requires Lists(order, deps.Keys) && Respects(order, deps) && Stuck(deps, s)
    requires j < |order| && order[j] in s
    ensures false
  {
    assert Waits(deps, s, order[j]);
    var d :| d in deps[order[j]] && (d in s || d !in deps);
    assert d in order[..j];
    var k :| 0 <= k < j && order[k] == d;
    NoOrderWhenStuck(order, deps, s, k);
  }

  // ----- Longest dependency chains

  /** Each block's level is one more than the highest level it depends on. */
  ghost predicate Levels(deps: Graph, level: map<nat, nat>) {
    && level.Keys == deps.Keys
    && forall i :: i in deps ==> LevelOf(deps, level, i)
  }

  ghost predicate LevelOf(deps: Graph, level: map<nat, nat>, i: nat)
    requires i in deps && i in level
  {
    && (forall d :: d in deps[i] ==> d in level && level[d] < level[i])
    && (level[i] > 0 ==> exists d :: d in deps[i] && d in level && level[d] == level[i] - 1)
  }

  /** A chain starts at a block and goes on through dependencies. */
  ghost predicate Chain(deps: Graph, c: seq<nat>) {
    && c != []
    && (forall k :: 0 <= k < |c| ==> c[k] in deps)
    && (forall k, l :: 0 <= k && l == k + 1 < |c| ==> c[l] in deps[c[k]])
  }

  lemma {:induction false} LevelBoundsChains(deps: Graph, level: map<nat, nat>, c: seq<nat>)
    requires Levels(deps, level) && Chain(deps, c)
    ensures |c| <= level[c[0]] + 1
    decreases |c|
  {
    if |c| > 1 {
      assert 0 <= 0 && 1 == 0 + 1 < |c|;
      assert c[1] in deps[c[0]];
      assert LevelOf(deps, level, c[0]);
      var rest := c[1..];
      assert level[c[1]] < level[c[0]] && rest[0] == c[1];
      forall k, l | 0 <= k && l == k + 1 < |rest| ensures rest[l] in deps[rest[k]] {
        assert c[l + 1] in deps[c[k + 1]];
      }
      LevelBoundsChains(deps, level, rest);
    }
  }

  lemma {:induction false} LevelHasChain(deps: Graph, level: map<nat, nat>, i: nat) returns (c: seq<nat>)
    requires Levels(deps, level) && i in deps
    ensures Chain(deps, c) && c[0] == i && |c| == level[i] + 1
    decreases level[i]
  {
    assert LevelOf(deps, level, i);
    if level[i] == 0 {
      c := [i];
    } else {
      var d :| d in deps[i] && d in level && level[d] == level[i] - 1;
      var rest := LevelHasChain(deps, level, d);
      c := [i] + rest;
      forall k, l | 0 <= k && l == k + 1 < |c| ensures c[l] in deps[c[k]] {
        if k > 0 { assert rest[l - 1] in deps[rest[k - 1]]; }
      }
    }
  }

  /** A block's level is the length of the longest chain below it. */
  lemma LevelIsLongestChain(deps: Graph, level: map<nat, nat>, i: nat)
    requires Levels(deps, level) && i in deps
    ensures exists c :: Chain(deps, c) && c[0] == i && |c| == level[i] + 1
    ensures forall c :: Chain(deps, c) && c[0] == i ==> |c| <= level[i] + 1
  {
    var c := LevelHasChain(deps, level, i);
    forall c' | Chain(deps, c') && c'[0] == i ensures |c'| <= level[i] + 1 {
      LevelBoundsChains(deps, level, c');
    }
  }

  lemma LevelsUnique(deps: Graph, a: map<nat, nat>, b: map<nat, nat>)
    requires Levels(deps, a) && Levels(deps, b)
    ensures a == b
  {
    forall i | i in deps ensures a[i] == b[i] {
      var c := LevelHasChain(deps, a, i);
      LevelBoundsChains(deps, b, c);
      c := LevelHasChain(deps, b, i);
      LevelBoundsChains(deps, a, c);
    }
  }

  // ----- The order by level, row, column and, between equal positions, dictionary order

  predicate Earlier(a: Position, b: Position) {
    a.row < b.row || (a.row == b.row && a.column < b.column)
  }

  /** `x` stands before `y` in the dictionary. */
  ghost predicate Precedes(keys: seq<nat>, x: nat, y: nat) {
    exists i, j :: 0 <= i < j < |keys| && keys[i] == x && keys[j] == y
  }

  ghost predicate InPlace(keys: seq<nat>, pos: map<nat, Position>, x: nat, y: nat)
    requires x in pos && y in pos
  {
    Earlier(pos[x], pos[y]) || (pos[x] == pos[y] && Precedes(keys, x, y))
  }

  ghost predicate Goes(keys: seq<nat>, pos: map<nat, Position>, level: map<nat, nat>, x: nat, y: nat)
    requires x in pos && y in pos && x in level && y in level
  {
    level[x] < level[y] || (level[x] == level[y] && InPlace(keys, pos, x, y))
  }

  ghost predicate Placed(s: seq<nat>, keys: seq<nat>, pos: map<nat, Position>) {
    && (forall x :: x in s ==> x in pos)
    && forall i, j :: 0 <= i < j < |s| ==> InPlace(keys, pos, s[i], s[j])
  }

  ghost predicate Layered(order: seq<nat>, keys: seq<nat>, pos: map<nat, Position>, level: map<nat, nat>) {
    && (forall x :: x in order ==> x in pos && x in level)
    && forall i, j :: 0 <= i < j < |order| ==> Goes(keys, pos, level, order[i], order[j])
  }

  /** Two blocks of one level at one position: only the dictionary tells them apart. */
  predicate Tied(pos: map<nat, Position>, level: map<nat, nat>, x: nat, y: nat) {
    && x != y && x in pos && y in pos && x in level && y in level
    && pos[x] == pos[y] && level[x] == level[y]
  }

  predicate NoTies(pos: map<nat, Position>, level: map<nat, nat>, keys: set<nat>) {
    forall x, y :: x in keys && y in keys ==> !Tied(pos, level, x, y)
  }

  /** `x` may stand before `y`: it is of a lower level, or of the same level in an upper row, or further left in the same row. */
  predicate ByRowAndColumn(pos: map<nat, Position>, level: map<nat, nat>, x: nat, y: nat) {
    && x in pos && y in pos && x in level && y in level
    && (|| level[x] < level[y]
        || (level[x] == level[y] && pos[x].row < pos[y].row)
        || (level[x] == level[y] && pos[x].row == pos[y].row && pos[x].column <= pos[y].column))
  }

  /** A layered order goes by level, row and column. */
  lemma LayeredByRow(order: seq<nat>, keys: seq<nat>, pos: map<nat, Position>, level: map<nat, nat>)
    requires Layered(order, keys, pos, level)
    ensures forall i, j :: 0 <= i < j < |order| ==> ByRowAndColumn(pos, level, order[i], order[j])
  {
    forall i, j | 0 <= i < j < |order| ensures ByRowAndColumn(pos, level, order[i], order[j]) {
      assert Goes(keys, pos, level, order[i], order[j]);
    }
  }

  lemma NotBoth(k: seq<nat>, l: seq<nat>, pos: map<nat, Position>, level: map<nat, nat>, x: nat, y: nat)
    requires x in pos && y in pos && x in level && y in level && x != y && !Tied(pos, level, x, y)
    ensures !(Goes(k, pos, level, x, y) && Goes(l, pos, level, y, x))
  {
  }

  lemma FirstAgree(
    a: seq<nat>, b: seq<nat>, k: seq<nat>, l: seq<nat>, pos: map<nat, Position>, level: map<nat, nat>, keys: set<nat>)
    requires NoTies(pos, level, keys) && Lists(a, keys) && Lists(b, keys)
    requires Layered(a, k, pos, level) && Layered(b, l, pos, level)
    requires a != [] && b != [] && b[0] in a && a[0] in b
    ensures a[0] == b[0]
  {
    hide Goes, Tied;
    var i :| 0 <= i < |a| && a[i] == b[0];
    var j :| 0 <= j < |b| && b[j] == a[0];
    assert i > 0 ==> Goes(k, pos, level, a[0], a[i]);
    assert j > 0 ==> Goes(l, pos, level, b[0], b[j]);
    if a[0] != b[0] {
      assert a[0] in keys && b[0] in keys;
      NotBoth(k, l, pos, level, a[0], b[0]);
    }
  }

  lemma Shared(a: seq<nat>, b: seq<nat>, keys: set<nat>)
    requires Lists(a, keys) && Lists(b, keys)
    ensures a != [] ==> b != [] && a[0] in b
  {
    if a != [] {
      var x := a[0];
      assert x in a;
      assert x in b;
    }
  }

  /** Where no two blocks are tied, the layered order does not depend on the dictionary order at all. */
  lemma {:induction false} LayeredUnique(
    a: seq<nat>, b: seq<nat>, k: seq<nat>, l: seq<nat>, pos: map<nat, Position>, level: map<nat, nat>, keys: set<nat>)
    requires NoTies(pos, level, keys)
    requires Lists(a, keys) && Lists(b, keys)
    requires Layered(a, k, pos, level) && Layered(b, l, pos, level)
    ensures a == b
    decreases |a|
  {
    Shared(a, b, keys);
    Shared(b, a, keys);
    if a != [] {
      FirstAgree(a, b, k, l, pos, level, keys);
      DropFirst(a, k, pos, level, keys);
      DropFirst(b, l, pos, level, keys);
      LayeredUnique(a[1..], b[1..], k, l, pos, level, keys - {a[0]});
    }
  }

  lemma DropFirst(a: seq<nat>, k: seq<nat>, pos: map<nat, Position>, level: map<nat, nat>, keys: set<nat>)
    requires a != [] && Lists(a, keys) && Layered(a, k, pos, level)
    ensures Lists(a[1..], keys - {a[0]}) && Layered(a[1..], k, pos, level)
  {
    hide Goes;
    forall x ensures x in a[1..] <==> x in keys - {a[0]} {
      if x in keys - {a[0]} {
        var i :| 0 <= i < |a| && a[i] == x;
        assert a[1..][i - 1] == x;
      }
      if x in a[1..] {
        var i :| 0 <= i < |a[1..]| && a[1..][i] == x;
        assert a[i + 1] == x && a[0] != a[i + 1];
      }
    }
  }

  function Swapped(a: seq<nat>, i: nat, j: nat): (b: seq<nat>)
    requires i < j < |a|
    ensures |b| == |a| && b[i] == a[j] && b[j] == a[i]
    ensures forall k :: 0 <= k < |a| && k != i && k != j ==> b[k] == a[k]
  {
    a[i := a[j]][j := a[i]]
  }

  lemma SwappedLists(a: seq<nat>, i: nat, j: nat, keys: set<nat>)
    requires i < j < |a| && Lists(a, keys)
    ensures Lists(Swapped(a, i, j), keys)
  {
    var b := Swapped(a, i, j);
    forall x ensures x in b <==> x in keys {
      if x in a {
        var k :| 0 <= k < |a| && a[k] == x;
        assert b[if k == i then j else if k == j then i else k] == x;
      }
      if x in b {
        var k :| 0 <= k < |b| && b[k] == x;
        assert a[if k == i then j else if k == j then i else k] == x;
      }
    }
  }

  /** Tied blocks may as well change places: the result is the layered order for another dictionary. */
  lemma SwapTied(a: seq<nat>, k: seq<nat>, pos: map<nat, Position>, level: map<nat, nat>, i: nat, j: nat)
    requires Layered(a, k, pos, level) && i < j < |a| && Tied(pos, level, a[i], a[j])
    ensures var b := Swapped(a, i, j); Layered(b, b, pos, level) && b != a
  {
    var b := Swapped(a, i, j);
    forall n | 0 <= n < |b| ensures b[n] in pos && b[n] in level && pos[b[n]] == pos[a[n]] && level[b[n]] == level[a[n]] {
      assert a[n] in a;
    }
    forall m, n | 0 <= m < n < |b| ensures Goes(b, pos, level, b[m], b[n]) {
      assert Goes(k, pos, level, a[m], a[n]);
      assert Precedes(b, b[m], b[n]);
    }
  }

  // ----- Sorting by position

  /** The comparison of `position_key`: a block may stay before those that are not placed earlier. */
  function ByPosition(pos: map<nat, Position>): (nat, nat) -> bool {
    (x: nat, y: nat) => x in pos && y in pos && !Earlier(pos[y], pos[x])
  }

  /** `sorted(..., key=position_key)` */
  function Sorted(s: seq<nat>, pos: map<nat, Position>): (r: seq<nat>)
    ensures multiset(r) == multiset(s)
  {
    Sort(s, ByPosition(pos))
  }

  /** `s` runs through some of `keys` in the same order. */
  ghost predicate InOrderOf(s: seq<nat>, keys: seq<nat>) {
    forall i, j :: 0 <= i < j < |s| ==> Precedes(keys, s[i], s[j])
  }

  /** A wave is sorted by position; blocks at one position stay in dictionary order. */
  lemma SortedPlaced(s: seq<nat>, keys: seq<nat>, pos: map<nat, Position>)
    requires forall y :: y in s ==> y in pos
    requires InOrderOf(s, keys)
    ensures Placed(Sorted(s, pos), keys, pos)
  {
    hide Sort, Precedes, Arranged;
    var first := ByPosition(pos);
    var r := (x: nat, y: nat) => x in pos && y in pos && InPlace(keys, pos, x, y);
    forall i, j | 0 <= i < j < |s| ensures Decides(first, r, s[i], s[j]) {
      var x, y := s[i], s[j];
      assert x in s && y in s && Precedes(keys, s[i], s[j]);
      assert first(x, y) <==> !Earlier(pos[y], pos[x]);
      assert first(x, y) ==> r(x, y);
      assert !first(x, y) ==> r(y, x);
    }
    forall x, y, z | x in s && y in s && z in s && first(x, y) && r(y, z) ensures first(x, z) {}
    SortArranges(s, first, r);
    var sorted := Sorted(s, pos);
    forall x | x in sorted ensures x in pos { StillMember(x, sorted, s); }
    ArrangedPlaced(sorted, keys, pos, r);
  }

  lemma ArrangedPlaced(s: seq<nat>, keys: seq<nat>, pos: map<nat, Position>, r: (nat, nat) -> bool)
    requires Arranged(s, r) && forall x :: x in s ==> x in pos
    requires forall x, y :: r(x, y) ==> x in pos && y in pos && InPlace(keys, pos, x, y)
    ensures Placed(s, keys, pos)
  {
    hide InPlace;
    forall i, j | 0 <= i < j < |s| ensures InPlace(keys, pos, s[i], s[j]) {
      assert r(s[i], s[j]);
    }
  }

  // ----- Kahn's algorithm

  /** The listed blocks that are in `keep`. */
  function Selected(s: seq<nat>, keep: set<nat>): (r: seq<nat>)
    ensures forall x :: x in r <==> x in s && x in keep
  {
    if s == [] then []
    else (if s[0] in keep then [s[0]] else []) + Selected(s[1..], keep)
  }

  lemma {:induction false} SelectedOrder(s: seq<nat>, keep: set<nat>, keys: seq<nat>)
    requires InOrderOf(s, keys) && NoRepeats(s)
    ensures InOrderOf(Selected(s, keep), keys) && NoRepeats(Selected(s, keep))
  {
    if s != [] {
      var rest := s[1..];
      forall i, j | 0 <= i < j < |rest| ensures Precedes(keys, rest[i], rest[j]) && rest[i] != rest[j] {
        assert Precedes(keys, s[i + 1], s[j + 1]);
      }
      SelectedOrder(rest, keep, keys);
      var tail, r := Selected(rest, keep), Selected(s, keep);
      if s[0] in keep {
        forall j | 0 < j < |r| ensures Precedes(keys, r[0], r[j]) && r[0] != r[j] {
          assert r[j] == tail[j - 1] && tail[j - 1] in tail;
          var k :| 0 <= k < |rest| && rest[k] == r[j];
          assert Precedes(keys, s[0], s[k + 1]);
        }
        forall i, j | 0 <= i < j < |r| ensures Precedes(keys, r[i], r[j]) && r[i] != r[j] {
          if i > 0 { assert Precedes(keys, tail[i - 1], tail[j - 1]); }
        }
      }
    }
  }

  /** After some waves: `order` is done, `left` remains, with its unmet dependencies. */
  ghost predicate Progress(
    keys: seq<nat>, deps: Graph, pos: map<nat, Position>,
    order: seq<nat>, left: seq<nat>, unmet: Graph, level: map<nat, nat>, wave: nat)
  {
    && Lists(order, level.Keys) && Respects(order, deps)
    && Layered(order, keys, pos, level)
    && (forall x :: x in level ==> x in deps && level[x] < wave && LevelOf(deps, level, x))
    && NoRepeats(left) && InOrderOf(left, keys)
    && (forall x :: x in left <==> x in deps && x !in level)
    && (forall x :: x in unmet <==> x in left)
    && (forall x :: x in left ==> unmet[x] == deps[x] - level.Keys)
    && (forall x :: x in left ==> Pending(deps, level, wave, x))
  }

  /** What is left was not ready one wave ago. */
  ghost predicate Pending(deps: Graph, level: map<nat, nat>, wave: nat, x: nat)
    requires x in deps
  {
    wave > 0 ==> exists d :: d in deps[x] && (d !in level || level[d] == wave - 1)
  }

  lemma StartProgress(keys: seq<nat>, deps: Graph, pos: map<nat, Position>)
    requires Lists(keys, deps.Keys)
    ensures Progress(keys, deps, pos, [], keys, deps, map[], 0)
  {
    forall i, j | 0 <= i < j < |keys| ensures Precedes(keys, keys[i], keys[j]) {}
  }

  lemma ProgressFacts(
    keys: seq<nat>, deps: Graph, pos: map<nat, Position>,
    order: seq<nat>, left: seq<nat>, unmet: Graph, level: map<nat, nat>, wave: nat)
    requires Progress(keys, deps, pos, order, left, unmet, level, wave)
    ensures forall x :: x in left ==> x in unmet && x in deps
    ensures NoRepeats(left) && InOrderOf(left, keys)
  {
  }

  lemma NothingReady(
    keys: seq<nat>, deps: Graph, pos: map<nat, Position>,
    order: seq<nat>, left: seq<nat>, unmet: Graph, level: map<nat, nat>, wave: nat)
    requires Progress(keys, deps, pos, order, left, unmet, level, wave) && left != []
    requires forall x :: x in left ==> x in unmet && unmet[x] != {}
    ensures exists s :: Stuck(deps, s)
  {
    hide Respects, Layered, LevelOf, Pending;
    var s := set x | x in left;
    assert left[0] in s;
    forall i | i in s ensures Waits(deps, s, i) {
      var d :| d in unmet[i];
    }
    assert Stuck(deps, s);
  }

  /** The blocks of one wave, at the wave's number. */
  function Raised(level: map<nat, nat>, ready: seq<nat>, wave: nat): map<nat, nat> {
    map x | x in level.Keys + (set y | y in ready) :: if x in level then level[x] else wave
  }

  /** One wave: the ready blocks, in place, are exactly those with nothing unmet. */
  ghost predicate Wave(keys: seq<nat>, pos: map<nat, Position>, left: seq<nat>, unmet: Graph, ready: seq<nat>) {
    && NoRepeats(keys) && Placed(ready, keys, pos)
    && forall x :: x in ready <==> x in left && x in unmet && unmet[x] == {}
  }

  lemma PlacedOnce(s: seq<nat>, keys: seq<nat>, pos: map<nat, Position>)
    requires NoRepeats(keys) && Placed(s, keys, pos)
    ensures NoRepeats(s)
  {
    forall i, j | 0 <= i < j < |s| ensures s[i] != s[j] {
      assert InPlace(keys, pos, s[i], s[j]);
    }
  }

  lemma WaveLists(order: seq<nat>, level: map<nat, nat>, ready: seq<nat>, wave: nat)
    requires Lists(order, level.Keys) && NoRepeats(ready)
    requires forall x :: x in ready ==> x !in level
    ensures Lists(order + ready, Raised(level, ready, wave).Keys)
  {
    forall i, j | 0 <= i < j < |order + ready| ensures (order + ready)[i] != (order + ready)[j] {
      if i < |order| <= j {
        assert order[i] in order && ready[j - |order|] in ready;
      }
    }
  }

  lemma WaveRespects(deps: Graph, order: seq<nat>, ready: seq<nat>)
    requires Respects(order, deps)
    requires forall x :: x in ready && x in deps ==> forall d :: d in deps[x] ==> d in order
    ensures Respects(order + ready, deps)
  {
    var all := order + ready;
    forall j, d | 0 <= j < |all| && all[j] in deps && d in deps[all[j]] ensures d in all[..j] {
      if j < |order| {
        assert d in order[..j];
        assert all[..j] == order[..j];
      } else {
        assert all[j] in ready;
        assert d in order;
        assert all[..j] == order + ready[..j - |order|];
      }
    }
  }

  lemma WaveLayers(
    keys: seq<nat>, pos: map<nat, Position>, order: seq<nat>, level: map<nat, nat>, ready: seq<nat>, wave: nat)
    requires Layered(order, keys, pos, level) && Placed(ready, keys, pos)
    requires forall x :: x in order ==> x in level && level[x] < wave
    requires forall x :: x in ready ==> x !in level
    ensures Layered(order + ready, keys, pos, Raised(level, ready, wave))
  {
    hide InPlace;
    var all, raised := order + ready, Raised(level, ready, wave);
    forall i, j | 0 <= i < j < |all| ensures Goes(keys, pos, raised, all[i], all[j]) {
      if j < |order| {
        assert Goes(keys, pos, level, order[i], order[j]);
      } else {
        assert all[j] == ready[j - |order|] && ready[j - |order|] in ready;
        if i < |order| {
          assert order[i] in order;
        } else {
          assert ready[i - |order|] in ready;
          assert InPlace(keys, pos, ready[i - |order|], ready[j - |order|]);
        }
      }
    }
  }

  lemma WaveLevels(deps: Graph, left: seq<nat>, unmet: Graph, level: map<nat, nat>, ready: seq<nat>, wave: nat, x: nat)
    requires x in deps && forall y :: y in level ==> level[y] < wave
    requires x in level ==> LevelOf(deps, level, x)
    requires x in ready ==> x !in level && deps[x] <= level.Keys && Pending(deps, level, wave, x)
    requires x in level || x in ready
    ensures LevelOf(deps, Raised(level, ready, wave), x)
  {
    var raised := Raised(level, ready, wave);
    if x in level {
      if level[x] > 0 {
        var d :| d in deps[x] && d in level && level[d] == level[x] - 1;
        assert raised[d] == raised[x] - 1;
      }
    } else if wave > 0 {
      var d :| d in deps[x] && (d !in level || level[d] == wave - 1);
      assert raised[d] == raised[x] - 1;
    }
  }

  lemma WavePending(deps: Graph, level: map<nat, nat>, ready: seq<nat>, wave: nat, x: nat)
    requires x in deps && !(deps[x] <= level.Keys)
    ensures Pending(deps, Raised(level, ready, wave), wave + 1, x)
  {
    var d :| d in deps[x] && d !in level;
    assert d in Raised(level, ready, wave) ==> Raised(level, ready, wave)[d] == wave;
  }

  lemma WaveStep(
    keys: seq<nat>, deps: Graph, pos: map<nat, Position>, order: seq<nat>, left: seq<nat>, unmet: Graph,
    level: map<nat, nat>, wave: nat, ready: seq<nat>, left': seq<nat>, unmet': Graph)
    requires Progress(keys, deps, pos, order, left, unmet, level, wave) && Wave(keys, pos, left, unmet, ready)
    requires NoRepeats(left') && InOrderOf(left', keys)
    requires forall x :: x in left' <==> x in left && x !in ready
    requires forall x :: x in unmet' <==> x in left'
    requires forall x :: x in left' ==> x in unmet && unmet'[x] == unmet[x] - set y | y in ready
    ensures Progress(keys, deps, pos, order + ready, left', unmet', Raised(level, ready, wave), wave + 1)
  {
    hide Layered, Placed, Respects, InOrderOf, NoRepeats, LevelOf, Pending;
    var raised := Raised(level, ready, wave);
    PlacedOnce(ready, keys, pos);
    WaveLists(order, level, ready, wave);
    forall x, d | x in ready && d in deps[x] ensures d in order { assert d !in unmet[x]; }
    WaveRespects(deps, order, ready);
    WaveLayers(keys, pos, order, level, ready, wave);
    forall x | x in raised ensures x in deps && raised[x] < wave + 1 && LevelOf(deps, raised, x) {
      WaveLevels(deps, left, unmet, level, ready, wave, x);
    }
    forall x | x in left' ensures unmet'[x] == deps[x] - raised.Keys && Pending(deps, raised, wave + 1, x) {
      assert unmet[x] != {};
      WavePending(deps, level, ready, wave, x);
    }
  }

  lemma Finished(
    keys: seq<nat>, deps: Graph, pos: map<nat, Position>,
    order: seq<nat>, unmet: Graph, level: map<nat, nat>, wave: nat)
    requires Progress(keys, deps, pos, order, [], unmet, level, wave)
    ensures Lists(order, deps.Keys) && Respects(order, deps)
    ensures Levels(deps, level) && Layered(order, keys, pos, level)
    ensures !exists s :: Stuck(deps, s)
  {
    hide Layered, LevelOf;
    assert level.Keys == deps.Keys by {
      forall x ensures x in level <==> x in deps { assert x !in []; }
    }
    forall s | Stuck(deps, s) ensures false {
      var i :| i in s;
      assert i in order;
      var j :| 0 <= j < |order| && order[j] == i;
      NoOrderWhenStuck(order, deps, s, j);
    }
  }

  function Members(s: seq<nat>): set<nat> {
    set x | x in s
  }

  function Free(left: seq<nat>, unmet: Graph): set<nat> {
    set x | x in left && x in unmet && unmet[x] == {}
  }

  lemma ReadyWave(keys: seq<nat>, pos: map<nat, Position>, left: seq<nat>, unmet: Graph)
    requires NoRepeats(keys) && NoRepeats(left) && InOrderOf(left, keys)
    requires forall x :: x in left ==> x in pos
    ensures Wave(keys, pos, left, unmet, Sorted(Selected(left, Free(left, unmet)), pos))
  {
    hide NoRepeats, InOrderOf, Placed;
    SelectedOrder(left, Free(left, unmet), keys);
    SortedPlaced(Selected(left, Free(left, unmet)), keys, pos);
    var free := Selected(left, Free(left, unmet));
    forall x ensures x in Sorted(free, pos) <==> x in free {
      if x in free { StillMember(x, free, Sorted(free, pos)); }
      if x in Sorted(free, pos) { StillMember(x, Sorted(free, pos), free); }
    }
  }

  lemma EmptyWave(keys: seq<nat>, pos: map<nat, Position>, left: seq<nat>, unmet: Graph)
    requires Wave(keys, pos, left, unmet, []) && forall x :: x in left ==> x in unmet
    ensures forall x :: x in left ==> unmet[x] != {}
  {
    forall x | x in left ensures unmet[x] != {} { assert x !in []; }
  }

  lemma {:induction false} SelectedShorter(s: seq<nat>, keep: set<nat>, x: nat)
    ensures |Selected(s, keep)| <= |s|
    ensures x in s && x !in keep ==> |Selected(s, keep)| < |s|
  {
    if s != [] { SelectedShorter(s[1..], keep, x); }
  }

  method TopologicalOrder(keys: seq<nat>, deps: Graph, pos: map<nat, Position>) returns (result: Option<seq<nat>>)
    requires Lists(keys, deps.Keys) && deps.Keys <= pos.Keys
    ensures result.None? <==> exists s :: Stuck(deps, s)
    ensures result.Some? ==> Lists(result.value, deps.Keys) && Respects(result.value, deps)
    ensures result.Some? ==> exists level :: Levels(deps, level) && Layered(result.value, keys, pos, level)
    ensures result.Some? ==> forall level :: Levels(deps, level) ==>
      forall i, j :: 0 <= i < j < |result.value| ==> ByRowAndColumn(pos, level, result.value[i], result.value[j])
  {
    hide ByRowAndColumn, Progress, Respects, Layered, Levels, Stuck, InOrderOf, Placed, Sorted, Selected, Free;
    var left, unmet := keys, deps;
    var order: seq<nat> := [];
    ghost var level: map<nat, nat>, wave: nat := map[], 0;
    StartProgress(keys, deps, pos);
    while left != []
      invariant Progress(keys, deps, pos, order, left, unmet, level, wave)
      decreases |left|
    {
      ProgressFacts(keys, deps, pos, order, left, unmet, level, wave);
      var ready := Sorted(Selected(left, Free(left, unmet)), pos);
      ReadyWave(keys, pos, left, unmet);
      if ready == [] {
        EmptyWave(keys, pos, left, unmet);
        NothingReady(keys, deps, pos, order, left, unmet, level, wave);
        return None;
      }
      var gone := set x | x in ready;
      var left' := Selected(left, Members(left) - gone);
      var unmet' := map x | x in left' :: unmet[x] - gone;
      SelectedOrder(left, Members(left) - gone, keys);
      SelectedShorter(left, Members(left) - gone, ready[0]);
      WaveStep(keys, deps, pos, order, left, unmet, level, wave, ready, left', unmet');
      order, left, unmet := order + ready, left', unmet';
      level, wave := Raised(level, ready, wave), wave + 1;
    }
    Finished(keys, deps, pos, order, unmet, level, wave);
    LayeredByRow(order, keys, pos, level);
    forall other | Levels(deps, other)
      ensures forall i, j :: 0 <= i < j < |order| ==> ByRowAndColumn(pos, other, order[i], order[j])
    {
      LevelsUnique(deps, level, other);
    }
    return Some(order);
  }
}
