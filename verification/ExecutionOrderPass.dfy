/** The pass that resolves every diagram of a controller, in place. */
module ExecutionOrderPass {
  import opened Wrappers
  import opened TopologicalSort
  import opened ExecutionOrder

  // ----- execAfter overrides

  /** The listed blocks with a given name. */
  function Named(d: Source, blocks: seq<nat>, name: string): (named: seq<nat>)
    requires forall i: nat :: i in blocks ==> IsBlock(d, i)
  {
    if blocks == [] then []
    else
      var last := |blocks| - 1;
      var block: nat := blocks[last];
      assert block in blocks && IsBlock(d, block);
      var rest := Named(d, blocks[..last], name);
      if d.objects[block].name == name then rest + [block] else rest
  }

  lemma {:induction false} NamedMembers(d: Source, blocks: seq<nat>, name: string)
    requires forall i: nat :: i in blocks ==> IsBlock(d, i)
    ensures forall i: nat :: i in Named(d, blocks, name) <==> i in blocks && d.objects[i].name == name
    ensures NoRepeats(blocks) ==> NoRepeats(Named(d, blocks, name))
  {
    if blocks != [] {
      var last := |blocks| - 1;
      var rest := blocks[..last];
      NamedMembers(d, rest, name);
      assert blocks == rest + [blocks[last]];
      assert NoRepeats(blocks) ==> blocks[last] !in rest;
    }
  }

  function Looked(byName: map<string, seq<nat>>, name: string): seq<nat> {
    if name in byName then byName[name] else []
  }

  /** A single other block of the wanted name is what makes an override resolvable. */
  lemma SingleMatch(d: Source, blocks: seq<nat>, i: nat)
    requires NoRepeats(blocks) && (forall k: nat :: k in blocks <==> IsBlock(d, k))
    requires IsBlock(d, i) && d.objects[i].after != ""
    ensures var matches := Named(d, blocks, d.objects[i].after);
            if |matches| == 1 && matches[0] != i then Follows(d, i, matches[0]) && forall t :: Follows(d, i, t) ==> t == matches[0]
            else !exists t :: Follows(d, i, t)
  {
    var matches := Named(d, blocks, d.objects[i].after);
    NamedMembers(d, blocks, d.objects[i].after);
    if |matches| == 1 {
      var t := matches[0];
      assert t in matches;
      assert forall u: nat :: u in matches ==> u == t;
    }
    forall t: nat | Follows(d, i, t) ensures matches == [t] {
      assert t in matches;
      OnlyOne(matches, t);
    }
  }

  lemma OnlyOne(s: seq<nat>, t: nat)
    requires NoRepeats(s) && t in s && forall u: nat :: u in s ==> u == t
    ensures s == [t]
  {
    forall k | 0 <= k < |s| ensures s[k] == t { assert s[k] in s; }
    assert s[0] == t && s[|s| - 1] == t;
  }

  method ExecutionOverrides(d: Source, blocks: seq<nat>) returns (r: Option<seq<(nat, nat)>>)
    requires NoRepeats(blocks) && (forall i: nat :: i in blocks <==> IsBlock(d, i))
    ensures r.None? <==> !OverridesResolve(d)
    ensures r.Some? ==> forall i: nat, t: nat :: (i, t) in r.value <==> Follows(d, i, t)
  {
    var byName := NameIndex(d, blocks);
    var overrides: seq<(nat, nat)> := [];
    for n := 0 to |blocks|
      invariant forall i: nat :: i in blocks[..n] && IsBlock(d, i) && d.objects[i].after != "" ==>
        exists t: nat :: Follows(d, i, t)
      invariant forall i: nat, t: nat :: (i, t) in overrides <==> i in blocks[..n] && Follows(d, i, t)
    {
      var i := blocks[n];
      assert blocks[..n + 1] == blocks[..n] + [i];
      assert i in blocks;
      var target := d.objects[i].after;
      if target != "" {
        SingleMatch(d, blocks, i);
        var matches := Looked(byName, target);
        if |matches| != 1 || matches[0] == i { return None; }
        overrides := overrides + [(i, matches[0])];
      }
    }
    assert blocks[..|blocks|] == blocks;
    return Some(overrides);
  }

  method NameIndex(d: Source, blocks: seq<nat>) returns (byName: map<string, seq<nat>>)
    requires forall i: nat :: i in blocks ==> IsBlock(d, i)
    ensures forall name :: name != "" ==> Looked(byName, name) == Named(d, blocks, name)
  {
    byName := map[];
    for n := 0 to |blocks|
      invariant forall name :: name != "" ==> Looked(byName, name) == Named(d, blocks[..n], name)
    {
      var i := blocks[n];
      assert i in blocks;
      assert blocks[..n + 1][..n] == blocks[..n];
      var name := d.objects[i].name;
      if name != "" {
        byName := byName[name := Looked(byName, name) + [i]];
      }
    }
    assert blocks[..|blocks|] == blocks;
  }

  // ----- The dependency graph

  ghost predicate LinkedAmong(d: Source, links: seq<Link>, s: nat, t: nat) {
    IsBlock(d, s) && IsBlock(d, t) && exists l :: l in links && l.source.index == Some(s) && l.destination.index == Some(t)
  }

  method LinkGraph(d: Source, blocks: set<nat>) returns (r: Option<Graph>)
    requires forall i: nat :: i in blocks <==> IsBlock(d, i)
    ensures r.None? <==> !LinksResolve(d)
    ensures r.Some? ==> r.value.Keys == blocks && forall s: nat, t: nat :: t in blocks ==> (s in r.value[t] <==> Linked(d, s, t))
  {
    var deps: Graph := map i | i in blocks :: {};
    for n := 0 to |d.links|
      invariant forall l :: l in d.links[..n] ==> l.source.resolved && l.destination.resolved
      invariant deps.Keys == blocks
      invariant forall s: nat, t: nat :: t in blocks ==> (s in deps[t] <==> LinkedAmong(d, d.links[..n], s, t))
    {
      var link := d.links[n];
      assert d.links[..n + 1] == d.links[..n] + [link];
      if !link.source.resolved || !link.destination.resolved { return None; }
      var source, destination := link.source.index, link.destination.index;
      if source.Some? && destination.Some? && source.value in blocks && destination.value in blocks {
        deps := deps[destination.value := deps[destination.value] + {source.value}];
      }
    }
    assert d.links[..|d.links|] == d.links;
    return Some(deps);
  }

  /** The blocks among the objects of some pins. */
  function Owners(d: Source, pins: seq<(nat, nat)>): (owners: set<nat>)
    ensures forall i: nat :: i in owners <==> IsBlock(d, i) && Mentions(pins, i)
  {
    set n | 0 <= n < |pins| && IsBlock(d, pins[n].0) :: pins[n].0
  }

  ghost predicate Covers(d: Source, deps: Graph, v: SharedVariable) {
    forall s: nat :: s in Owners(d, v.outputs) ==> Feeds(deps, s, Owners(d, v.inputs))
  }

  /** Every other reader is known to depend on block `s`. */
  ghost predicate Feeds(deps: Graph, s: nat, readers: set<nat>) {
    forall t: nat :: t in readers && s != t ==> t in deps && s in deps[t]
  }

  method CoversGroup(d: Source, deps: Graph, v: SharedVariable) returns (covered: bool)
    requires forall i: nat :: IsBlock(d, i) ==> i in deps
    ensures covered <==> Covers(d, deps, v)
  {
    var outputs, inputs := Owners(d, v.outputs), Owners(d, v.inputs);
    var sources := outputs;
    while sources != {}
      invariant sources <= outputs
      invariant forall s: nat :: s in outputs && s !in sources ==> Feeds(deps, s, inputs)
      decreases |sources|
    {
      var source := AnyOf(sources);
      var destinations := inputs;
      while destinations != {}
        invariant destinations <= inputs && Feeds(deps, source, inputs - destinations)
        decreases |destinations|
      {
        var destination := AnyOf(destinations);
        if source != destination && source !in deps[destination] {
          assert !Feeds(deps, source, inputs);
          return false;
        }
        destinations := destinations - {destination};
      }
      assert inputs - destinations == inputs;
      sources := sources - {source};
    }
    return true;
  }

  method DependencyGraph(d: Source, blocks: set<nat>) returns (r: Option<Graph>)
    requires forall i: nat :: i in blocks <==> IsBlock(d, i)
    ensures r.None? <==> !GraphComplete(d)
    ensures r.Some? ==> r.value.Keys == blocks && forall s: nat, t: nat :: t in blocks ==> (s in r.value[t] <==> Linked(d, s, t))
  {
    hide Linked, LinksResolve, Mentions, Covers, SharedPair;
    r := LinkGraph(d, blocks);
    if r.None? { return None; }
    for n := 0 to |d.shared|
      invariant forall v :: v in d.shared[..n] ==> Covers(d, r.value, v)
    {
      assert d.shared[..n + 1] == d.shared[..n] + [d.shared[n]];
      var covered := CoversGroup(d, r.value, d.shared[n]);
      if !covered {
        Uncovered(d, r.value, d.shared[n]);
        return None;
      }
    }
    assert d.shared[..|d.shared|] == d.shared;
    AllCovered(d, r.value);
  }

  lemma Uncovered(d: Source, deps: Graph, v: SharedVariable)
    requires v in d.shared && !Covers(d, deps, v)
    requires forall i: nat :: IsBlock(d, i) ==> i in deps
    requires forall s: nat, t: nat :: t in deps ==> (s in deps[t] <==> Linked(d, s, t))
    ensures exists s: nat, t: nat :: SharedPair(d, s, t) && !Linked(d, s, t)
  {
    hide Linked, Mentions;
    var s: nat :| s in Owners(d, v.outputs) && !Feeds(deps, s, Owners(d, v.inputs));
    var t: nat :| t in Owners(d, v.inputs) && s != t && !(t in deps && s in deps[t]);
    assert SharedPair(d, s, t);
  }

  lemma AllCovered(d: Source, deps: Graph)
    requires forall v :: v in d.shared ==> Covers(d, deps, v)
    requires forall s: nat, t: nat :: t in deps ==> (s in deps[t] <==> Linked(d, s, t))
    ensures forall s: nat, t: nat :: SharedPair(d, s, t) ==> Linked(d, s, t)
  {
    hide Linked, Mentions;
    forall s: nat, t: nat | SharedPair(d, s, t) ensures Linked(d, s, t) {
      var v :| v in d.shared && Mentions(v.outputs, s) && Mentions(v.inputs, t);
      assert Covers(d, deps, v) && Feeds(deps, s, Owners(d, v.inputs));
    }
  }

  method IsAmbiguous(d: Source) returns (ambiguous: bool)
    ensures ambiguous <==> Ambiguous(d)
  {
    for n := 0 to |d.shared|
      invariant forall v :: v in d.shared[..n] ==> !TwoWriters(d, v)
    {
      assert d.shared[..n + 1] == d.shared[..n] + [d.shared[n]];
      var outputs := Owners(d, d.shared[n].outputs);
      WritersCount(d, d.shared[n]);
      if |outputs| > 1 { return true; }
    }
    assert d.shared[..|d.shared|] == d.shared;
    return false;
  }

  lemma WritersCount(d: Source, v: SharedVariable)
    ensures |Owners(d, v.outputs)| > 1 <==> TwoWriters(d, v)
  {
    hide Mentions;
    var owners := Owners(d, v.outputs);
    if |owners| > 1 {
      var s :| s in owners;
      assert |owners - {s}| > 0;
      var t :| t in owners - {s};
      assert t in owners && s != t;
    }
    if TwoWriters(d, v) {
      var s: nat, t: nat :| IsBlock(d, s) && IsBlock(d, t) && s != t && Mentions(v.outputs, s) && Mentions(v.outputs, t);
      assert {s, t} <= owners && |{s, t}| == 2;
      assert owners == {s, t} + (owners - {s, t});
    }
  }

  // ----- One diagram

  method ResolveDiagram(d: Diagram, excluded: bool) returns (issue: Option<string>)
    modifies d
    ensures Outcome(d.source, old(d.Current()), excluded, d.Current(), issue)
  {
    hide Ordered, Linked, Follows, FullGraph, GraphComplete, OverridesResolve, Ambiguous, UnresolvedPins, OtherObjects,
      Unplaced, Stuck, Levels, Layered, Lists, Respects;
    var src := d.source;
    if d.basis == Some(STALE_BASIS) {
      d.order, d.resolved, d.basis := [], false, None;
    }
    if d.resolved || src.language != "FBD" || excluded { return None; }
    var blocks := Blocks(src);
    if |blocks| < 2 || OtherObjects(src) { return None; }
    assert Candidate(src, old(d.Current()), excluded);
    BlocksDistinct(src, |src.objects|);
    var overrides := ExecutionOverrides(src, blocks);
    if overrides == None { return Some("unresolved_execution_after"); }
    if !UnresolvedPins(src) {
      var ambiguous := IsAmbiguous(src);
      if ambiguous { return Some("ambiguous_block_order"); }
    }
    var deps := DependencyGraph(src, BlockSet(src));
    if deps == None || Unplaced(src) { return None; }
    var graph := AddOverrides(src, deps.value, overrides.value);
    var keys := DictionaryOrder(BlockSet(src));
    GraphKeys(src);
    var order := TopologicalOrder(keys, graph, Positions(src));
    if order == None { return Some("cyclic_block_dependency"); }
    OrderedBy(src, order.value, keys);
    BasisIs(src, overrides.value);
    d.order := order.value;
    d.resolved := true;
    d.basis := Some(if overrides.value != [] then "dependency_order_with_exec_after" else "documented_dependency_order");
    return None;
  }

  lemma GraphKeys(d: Source)
    ensures FullGraph(d).Keys == BlockSet(d)
    ensures !Unplaced(d) ==> Positions(d).Keys == BlockSet(d)
  {
  }

  lemma {:induction false} BlocksDistinct(d: Source, n: nat)
    requires n <= |d.objects|
    ensures NoRepeats(BlocksBefore(d, n))
  {
    if n > 0 {
      BlocksDistinct(d, n - 1);
      var before := BlocksBefore(d, n - 1);
      forall k | 0 <= k < |before| ensures before[k] < n - 1 { assert before[k] in before; }
    }
  }

  lemma OrderedBy(d: Source, order: seq<nat>, keys: seq<nat>)
    requires !Unplaced(d) && Lists(keys, BlockSet(d)) && Lists(order, BlockSet(d))
    requires exists level :: Levels(FullGraph(d), level) && Layered(order, keys, Positions(d), level)
    ensures Ordered(d, order)
  {
  }

  lemma BasisIs(d: Source, overrides: seq<(nat, nat)>)
    requires forall i: nat, t: nat :: (i, t) in overrides <==> Follows(d, i, t)
    ensures BasisOf(d) == if overrides != [] then "dependency_order_with_exec_after" else "documented_dependency_order"
  {
    hide Follows;
    if overrides != [] {
      var pair := overrides[0];
      assert pair in overrides && pair == (pair.0, pair.1);
      assert Follows(d, pair.0, pair.1);
    }
    if exists i: nat, t: nat :: Follows(d, i, t) {
      var i: nat, t: nat :| Follows(d, i, t);
      assert (i, t) in overrides;
    }
  }

  /** A dictionary over a set of blocks comes in whatever order the set is iterated. */
  method DictionaryOrder(blocks: set<nat>) returns (keys: seq<nat>)
    ensures Lists(keys, blocks)
  {
    keys := [];
    var rest := blocks;
    while rest != {}
      invariant rest <= blocks && Lists(keys, blocks - rest)
      decreases |rest|
    {
      var i := AnyOf(rest);
      keys := keys + [i];
      rest := rest - {i};
    }
  }

  method AddOverrides(d: Source, deps: Graph, overrides: seq<(nat, nat)>) returns (graph: Graph)
    requires deps.Keys == BlockSet(d)
    requires forall s: nat, t: nat :: t in deps ==> (s in deps[t] <==> Linked(d, s, t))
    requires forall i: nat, t: nat :: (i, t) in overrides <==> Follows(d, i, t)
    ensures graph == FullGraph(d)
  {
    hide Linked;
    graph := deps;
    for n := 0 to |overrides|
      invariant graph.Keys == BlockSet(d)
      invariant forall s: nat, t: nat :: t in graph ==> (s in graph[t] <==> Linked(d, s, t) || (t, s) in overrides[..n])
    {
      var (destination, source) := overrides[n];
      assert overrides[..n + 1] == overrides[..n] + [overrides[n]];
      assert (destination, source) in overrides;
      graph := graph[destination := graph[destination] + {source}];
    }
    assert overrides[..|overrides|] == overrides;
    FullGraphIs(d, graph);
  }

  lemma FullGraphIs(d: Source, graph: Graph)
    requires graph.Keys == BlockSet(d)
    requires forall s: nat, t: nat :: t in graph ==> (s in graph[t] <==> Depends(d, s, t))
    ensures graph == FullGraph(d)
  {
    forall t | t in graph ensures graph[t] == FullGraph(d)[t] {
      forall s: nat | Depends(d, s, t) ensures s in BlockSet(d) {}
    }
  }

  // ----- The diagrams of one routine, and of the whole controller

  datatype Issue = Issue(container: string, routine: string, diagram: nat, code: string, scope: string)

  /** A routine of a program or of an add-on instruction, in traversal order. */
  datatype Unit = Unit(scope: string, container: string, routine: string, diagrams: seq<Diagram>)

  type Exclusions = set<(string, string, string, nat)>

  predicate Excluded(u: Unit, n: nat, excluded: Exclusions) {
    (u.scope, u.container, u.routine, n) in excluded
  }

  /** What a diagram looks like before a run. */
  datatype View = View(source: Source, state: State)

  function ViewOf(d: Diagram): View
    reads d
  {
    View(d.source, d.Current())
  }

  function ViewsOf(ds: seq<Diagram>): (views: seq<View>)
    reads set d | d in ds
    ensures |views| == |ds| && forall n :: 0 <= n < |ds| ==> views[n] == ViewOf(ds[n])
  {
    seq(|ds|, n requires 0 <= n < |ds| reads ds => ViewOf(ds[n]))
  }

  /** The issues that the first `n` diagrams of a unit give rise to. */
  ghost function Issues(u: Unit, views: seq<View>, excluded: Exclusions, n: nat): seq<Issue>
    requires n <= |views|
  {
    if n == 0 then []
    else
      var before := Issues(u, views, excluded, n - 1);
      match VerdictOn(views[n - 1].source, views[n - 1].state, Excluded(u, n - 1, excluded))
      case Report(code) => before + [Issue(u.container, u.routine, n - 1, code, u.scope)]
      case _ => before
  }

  /** The issues of a unit are those of its diagrams, each under its own index, in the order of the diagrams. */
  lemma {:induction false} IssuesExactly(u: Unit, views: seq<View>, excluded: Exclusions, n: nat)
    requires n <= |views|
    ensures forall issue :: issue in Issues(u, views, excluded, n) <==>
      && issue.diagram < n && issue == Issue(u.container, u.routine, issue.diagram, issue.code, u.scope)
      && VerdictOn(views[issue.diagram].source, views[issue.diagram].state,
                   (u.scope, u.container, u.routine, issue.diagram) in excluded) == Report(issue.code)
    ensures forall i, j :: 0 <= i < j < |Issues(u, views, excluded, n)| ==>
      Issues(u, views, excluded, n)[i].diagram < Issues(u, views, excluded, n)[j].diagram
  {
    hide VerdictOn;
    if n > 0 {
      IssuesExactly(u, views, excluded, n - 1);
      var before := Issues(u, views, excluded, n - 1);
      forall i | 0 <= i < |before| ensures before[i].diagram < n - 1 { assert before[i] in before; }
    }
  }

  /** Diagram `n` of a unit went from `before` to `after` in one run. */
  ghost predicate Visited(u: Unit, n: nat, excluded: Exclusions, before: View, after: View) {
    && after.source == before.source
    && exists issue :: Outcome(before.source, before.state, Excluded(u, n, excluded), after.state, issue)
  }

  method ResolveRoutineDiagrams(u: Unit, excluded: Exclusions) returns (issues: seq<Issue>)
    requires forall i, j :: 0 <= i < j < |u.diagrams| ==> u.diagrams[i] != u.diagrams[j]
    modifies set d | d in u.diagrams
    ensures issues == Issues(u, old(ViewsOf(u.diagrams)), excluded, |u.diagrams|)
    ensures forall n :: 0 <= n < |u.diagrams| ==>
      Visited(u, n, excluded, old(ViewsOf(u.diagrams))[n], ViewOf(u.diagrams[n]))
  {
    hide Outcome, VerdictOn;
    issues := [];
    ghost var views := ViewsOf(u.diagrams);
    for n := 0 to |u.diagrams|
      invariant issues == Issues(u, views, excluded, n)
      invariant forall k :: 0 <= k < n ==> Visited(u, k, excluded, views[k], ViewOf(u.diagrams[k]))
      invariant forall k :: n <= k < |u.diagrams| ==> ViewOf(u.diagrams[k]) == views[k]
    {
      var issue := ResolveDiagram(u.diagrams[n], Excluded(u, n, excluded));
      IssueOfVerdict(views[n].source, views[n].state, Excluded(u, n, excluded), u.diagrams[n].Current(), issue);
      if issue.Some? {
        issues := issues + [Issue(u.container, u.routine, n, issue.value, u.scope)];
      }
    }
  }

  lemma IssueOfVerdict(d: Source, s: State, excluded: bool, s': State, issue: Option<string>)
    requires Outcome(d, s, excluded, s', issue)
    ensures issue == match VerdictOn(d, s, excluded)
                     case Report(code) => Some(code)
                     case _ => None
  {
  }

  // ----- The whole controller

  /** No diagram object occurs twice among the units. */
  ghost predicate Separate(units: seq<Unit>) {
    && (forall u, i, j :: 0 <= u < |units| && 0 <= i < j < |units[u].diagrams| ==>
          units[u].diagrams[i] != units[u].diagrams[j])
    && (forall u, v :: 0 <= u < v < |units| ==> Apart(units[u], units[v]))
  }

  ghost predicate Apart(u: Unit, v: Unit) {
    forall d :: d in u.diagrams ==> d !in v.diagrams
  }

  ghost function AllDiagrams(units: seq<Unit>): (ds: set<Diagram>)
    ensures forall u :: 0 <= u < |units| ==> forall d :: d in units[u].diagrams ==> d in ds
  {
    set u, d | 0 <= u < |units| && d in units[u].diagrams :: d
  }

  ghost function AllViews(units: seq<Unit>): (views: seq<seq<View>>)
    reads AllDiagrams(units)
    ensures |views| == |units| && forall u :: 0 <= u < |units| ==> views[u] == ViewsOf(units[u].diagrams)
  {
    seq(|units|, u requires 0 <= u < |units| reads AllDiagrams(units) => ViewsOf(units[u].diagrams))
  }

  ghost function AllIssues(units: seq<Unit>, views: seq<seq<View>>, excluded: Exclusions, n: nat): seq<Issue>
    requires n <= |units| == |views|
  {
    if n == 0 then []
    else AllIssues(units, views, excluded, n - 1) + Issues(units[n - 1], views[n - 1], excluded, |views[n - 1]|)
  }

  /** One run took the diagrams of a unit from `before` to `after`. */
  ghost predicate UnitVisited(u: Unit, excluded: Exclusions, before: seq<View>, after: seq<View>) {
    |before| == |after| == |u.diagrams| &&
    forall n :: 0 <= n < |before| ==> Visited(u, n, excluded, before[n], after[n])
  }

  /** Programs and add-on instructions are excluded under their own scopes. */
  function Keyed(programs: set<(string, string, nat)>, functionBlocks: set<(string, string, nat)>): Exclusions {
    (set k | k in programs :: ("program", k.0, k.1, k.2))
    + (set k | k in functionBlocks :: ("function_block", k.0, k.1, k.2))
  }

  /** A network is left out exactly when it is listed for the kind of unit it belongs to. */
  lemma ExcludedByScope(u: Unit, n: nat, programs: set<(string, string, nat)>, functionBlocks: set<(string, string, nat)>)
    ensures Excluded(u, n, Keyed(programs, functionBlocks)) <==>
      || (u.scope == "program" && (u.container, u.routine, n) in programs)
      || (u.scope == "function_block" && (u.container, u.routine, n) in functionBlocks)
  {
    var key := (u.container, u.routine, n);
    assert key.0 == u.container && key.1 == u.routine && key.2 == n;
  }

  /** One unit is resolved; the others, which share no diagram with it, stay as they are. */
  method ResolveUnit(units: seq<Unit>, n: nat, ghost views: seq<seq<View>>, excluded: Exclusions, issues: seq<Issue>)
    returns (issues': seq<Issue>)
    requires Separate(units) && n < |units| == |views| && views[n] == ViewsOf(units[n].diagrams)
    requires issues == AllIssues(units, views, excluded, n)
    modifies set d | d in units[n].diagrams
    ensures issues' == AllIssues(units, views, excluded, n + 1)
    ensures UnitVisited(units[n], excluded, views[n], ViewsOf(units[n].diagrams))
    ensures forall u :: 0 <= u < |units| && u != n ==> ViewsOf(units[u].diagrams) == old(ViewsOf(units[u].diagrams))
  {
    hide Visited, Issues;
    var more := ResolveRoutineDiagrams(units[n], excluded);
    issues' := issues + more;
    forall u | 0 <= u < |units| && u != n
      ensures ViewsOf(units[u].diagrams) == old(ViewsOf(units[u].diagrams))
    {
      assert if u < n then Apart(units[u], units[n]) else Apart(units[n], units[u]);
      assert forall i :: 0 <= i < |units[u].diagrams| ==> units[u].diagrams[i] !in units[n].diagrams;
    }
  }

  method ResolveController(units: seq<Unit>, excluded: Exclusions) returns (issues: seq<Issue>)
    requires Separate(units)
    modifies AllDiagrams(units)
    ensures issues == AllIssues(units, old(AllViews(units)), excluded, |units|)
    ensures forall u :: 0 <= u < |units| ==> UnitVisited(units[u], excluded, old(AllViews(units))[u], AllViews(units)[u])
  {
    hide Visited, Issues, UnitVisited, Separate;
    issues := [];
    ghost var views := AllViews(units);
    for n := 0 to |units|
      invariant issues == AllIssues(units, views, excluded, n)
      invariant forall u :: 0 <= u < n ==> UnitVisited(units[u], excluded, views[u], ViewsOf(units[u].diagrams))
      invariant forall u :: n <= u < |units| ==> ViewsOf(units[u].diagrams) == views[u]
    {
      issues := ResolveUnit(units, n, views, excluded, issues);
    }
  }

  // ----- A second run

  ghost function CodeOf(v: Verdict): Option<string> {
    if v.Report? then Some(v.code) else None
  }

  lemma VisitedTwice(u: Unit, n: nat, excluded: Exclusions, a: View, b: View, c: View)
    requires Visited(u, n, excluded, a, b) && Visited(u, n, excluded, b, c)
    ensures c == b
    ensures CodeOf(VerdictOn(b.source, b.state, Excluded(u, n, excluded)))
         == CodeOf(VerdictOn(a.source, a.state, Excluded(u, n, excluded)))
  {
    hide VerdictOn, Outcome;
    var e := Excluded(u, n, excluded);
    var i :| Outcome(a.source, a.state, e, b.state, i);
    var j :| Outcome(b.source, b.state, e, c.state, j);
    SecondVisit(a.source, a.state, e, b.state, c.state, i, j);
    IssueOfVerdict(a.source, a.state, e, b.state, i);
    IssueOfVerdict(b.source, b.state, e, c.state, j);
  }

  lemma {:induction false} SameIssues(u: Unit, a: seq<View>, b: seq<View>, c: seq<View>, excluded: Exclusions, n: nat)
    requires UnitVisited(u, excluded, a, b) && UnitVisited(u, excluded, b, c) && n <= |a|
    ensures Issues(u, b, excluded, n) == Issues(u, a, excluded, n) && b[..n] == c[..n]
  {
    hide VerdictOn, Visited;
    if n > 0 {
      SameIssues(u, a, b, c, excluded, n - 1);
      VisitedTwice(u, n - 1, excluded, a[n - 1], b[n - 1], c[n - 1]);
      assert b[..n] == b[..n - 1] + [b[n - 1]] && c[..n] == c[..n - 1] + [c[n - 1]];
    }
  }

  lemma {:induction false} SameAllIssues(
    units: seq<Unit>, a: seq<seq<View>>, b: seq<seq<View>>, c: seq<seq<View>>, excluded: Exclusions, n: nat)
    requires n <= |units| == |a| == |b| == |c|
    requires forall u :: 0 <= u < n ==> UnitVisited(units[u], excluded, a[u], b[u]) && UnitVisited(units[u], excluded, b[u], c[u])
    ensures AllIssues(units, b, excluded, n) == AllIssues(units, a, excluded, n)
    ensures forall u :: 0 <= u < n ==> b[u] == c[u]
  {
    hide Issues;
    if n > 0 {
      SameAllIssues(units, a, b, c, excluded, n - 1);
      var all := |a[n - 1]|;
      SameIssues(units[n - 1], a[n - 1], b[n - 1], c[n - 1], excluded, all);
      assert b[n - 1] == b[n - 1][..all] && c[n - 1] == c[n - 1][..all];
    }
  }

  /** Running the pass again with the same exclusions reports the same and changes no diagram. */
  method ResolveTwice(units: seq<Unit>, excluded: Exclusions) returns (first: seq<Issue>, second: seq<Issue>, ghost between: seq<seq<View>>)
    requires Separate(units)
    modifies AllDiagrams(units)
    ensures first == second == AllIssues(units, old(AllViews(units)), excluded, |units|)
    ensures AllViews(units) == between
    ensures forall u :: 0 <= u < |units| ==> UnitVisited(units[u], excluded, old(AllViews(units))[u], between[u])
  {
    hide UnitVisited, AllIssues, Separate;
    ghost var before := AllViews(units);
    first := ResolveController(units, excluded);
    between := AllViews(units);
    second := ResolveController(units, excluded);
    SameAllIssues(units, before, between, AllViews(units), excluded, |units|);
  }

  /** The entry point: network exclusions are given separately for programs and function blocks. */
  method ResolveFbdExecutionOrder(
    units: seq<Unit>, programs: set<(string, string, nat)>, functionBlocks: set<(string, string, nat)>)
    returns (issues: seq<Issue>)
    requires Separate(units)
    modifies AllDiagrams(units)
    ensures issues == AllIssues(units, old(AllViews(units)), Keyed(programs, functionBlocks), |units|)
    ensures forall u :: 0 <= u < |units| ==>
      UnitVisited(units[u], Keyed(programs, functionBlocks), old(AllViews(units))[u], AllViews(units)[u])
  {
    issues := ResolveController(units, Keyed(programs, functionBlocks));
  }
}
