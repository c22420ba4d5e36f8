/** Resolving the execution order of function-block diagrams, or saying why it cannot be resolved. */
module ExecutionOrder {
  import opened Wrappers
  import opened TopologicalSort

  datatype Kind = Block | Annotation | OtherKind

  /** A link's end; `index` is that of the object it was resolved to. */
  datatype Endpoint = Endpoint(resolved: bool, index: Option<nat>)

  datatype Link = Link(source: Endpoint, destination: Endpoint)

  /** The pins, as (object index, pin index), that refer to one declared symbol. */
  datatype SharedVariable = SharedVariable(inputs: seq<(nat, nat)>, outputs: seq<(nat, nat)>)

  /** `name` and `after` are case-folded (and `after` stripped); "" when absent. */
  datatype Object = Object(
    kind: Kind, name: string, after: string, position: Option<Position>, bindings: seq<string>)

  datatype Source = Source(language: string, objects: seq<Object>, links: seq<Link>, shared: seq<SharedVariable>)

  /** The part of a diagram that this pass writes. */
  datatype State = State(order: seq<nat>, resolved: bool, basis: Option<string>)

  class Diagram {
    const source: Source
    var order: seq<nat>
    var resolved: bool
    var basis: Option<string>

    constructor (source: Source, order: seq<nat>, resolved: bool, basis: Option<string>)
      ensures this.source == source && Current() == State(order, resolved, basis)
    {
      this.source, this.order, this.resolved, this.basis := source, order, resolved, basis;
    }

    function Current(): State
      reads this
    {
      State(order, resolved, basis)
    }
  }

  const UNRESOLVED_BINDINGS := {"unresolved_expression", "missing_symbol", "ambiguous_symbol", "invalid_output_literal"}

  const STALE_BASIS := "shared_variable_dataflow"

  // ----- The evidence in a diagram

  predicate IsBlock(d: Source, i: nat) {
    i < |d.objects| && d.objects[i].kind.Block?
  }

  function BlocksBefore(d: Source, n: nat): (blocks: seq<nat>)
    requires n <= |d.objects|
    ensures forall i: nat :: i in blocks <==> i < n && IsBlock(d, i)
  {
    if n == 0 then []
    else if d.objects[n - 1].kind.Block? then BlocksBefore(d, n - 1) + [n - 1 as nat]
    else BlocksBefore(d, n - 1)
  }

  /** `[i for i, obj in enumerate(objects) if obj.kind == "block"]` */
  function Blocks(d: Source): (blocks: seq<nat>)
    ensures forall i: nat :: i in blocks <==> IsBlock(d, i)
  {
    BlocksBefore(d, |d.objects|)
  }

  function BlockSet(d: Source): (blocks: set<nat>)
    ensures forall i: nat :: i in blocks <==> IsBlock(d, i)
  {
    set i | i in Blocks(d)
  }

  /** Block `i` names block `t`, and no other block, in its `execAfter`. */
  ghost predicate Follows(d: Source, i: nat, t: nat) {
    && IsBlock(d, i) && IsBlock(d, t) && i != t
    && d.objects[i].after != "" && d.objects[t].name == d.objects[i].after
    && forall u: nat :: IsBlock(d, u) && d.objects[u].name == d.objects[i].after ==> u == t
  }

  ghost predicate OverridesResolve(d: Source) {
    forall i: nat :: IsBlock(d, i) && d.objects[i].after != "" ==> exists t: nat :: Follows(d, i, t)
  }

  ghost predicate LinksResolve(d: Source) {
    forall l :: l in d.links ==> l.source.resolved && l.destination.resolved
  }

  /** An explicit link carries block `s`'s output to block `t`. */
  ghost predicate Linked(d: Source, s: nat, t: nat) {
    IsBlock(d, s) && IsBlock(d, t) && exists l :: l in d.links && l.source.index == Some(s) && l.destination.index == Some(t)
  }

  predicate Mentions(pins: seq<(nat, nat)>, i: nat) {
    exists n :: 0 <= n < |pins| && pins[n].0 == i
  }

  /** Block `s` writes and another block `t` reads one symbol. */
  ghost predicate SharedPair(d: Source, s: nat, t: nat) {
    IsBlock(d, s) && IsBlock(d, t) && s != t && exists v :: v in d.shared && Mentions(v.outputs, s) && Mentions(v.inputs, t)
  }

  /** Two blocks write one symbol. */
  ghost predicate Ambiguous(d: Source) {
    exists v :: v in d.shared && TwoWriters(d, v)
  }

  ghost predicate TwoWriters(d: Source, v: SharedVariable) {
    exists s: nat, t: nat :: IsBlock(d, s) && IsBlock(d, t) && s != t && Mentions(v.outputs, s) && Mentions(v.outputs, t)
  }

  ghost predicate GraphComplete(d: Source) {
    LinksResolve(d) && forall s: nat, t: nat :: SharedPair(d, s, t) ==> Linked(d, s, t)
  }

  predicate UnresolvedPins(d: Source) {
    exists i :: i in Blocks(d) && exists n :: 0 <= n < |d.objects[i].bindings| && d.objects[i].bindings[n] in UNRESOLVED_BINDINGS
  }

  predicate OtherObjects(d: Source) {
    exists n :: 0 <= n < |d.objects| && d.objects[n].kind.OtherKind?
  }

  predicate Unplaced(d: Source) {
    exists i :: i in Blocks(d) && d.objects[i].position.None?
  }

  ghost predicate Depends(d: Source, s: nat, t: nat) {
    Linked(d, s, t) || Follows(d, t, s)
  }

  ghost function FullGraph(d: Source): Graph {
    map t | t in BlockSet(d) :: set s | s in BlockSet(d) && Depends(d, s, t)
  }

  function Positions(d: Source): map<nat, Position>
    requires !Unplaced(d)
  {
    map i | i in Blocks(d) :: d.objects[i].position.value
  }

  // ----- What one visit does to one diagram

  function Cleared(s: State): State {
    if s.basis == Some(STALE_BASIS) then State([], false, None) else s
  }

  datatype Verdict = Skip | Report(code: string) | Resolve

  ghost predicate Candidate(d: Source, s: State, excluded: bool) {
    && !Cleared(s).resolved && d.language == "FBD" && !excluded
    && |Blocks(d)| >= 2 && !OtherObjects(d)
  }

  ghost function VerdictOn(d: Source, s: State, excluded: bool): Verdict {
    if !Candidate(d, s, excluded) then Skip
    else if !OverridesResolve(d) then Report("unresolved_execution_after")
    else if !UnresolvedPins(d) && Ambiguous(d) then Report("ambiguous_block_order")
    else if !GraphComplete(d) || Unplaced(d) then Skip
    else if exists stuck :: Stuck(FullGraph(d), stuck) then Report("cyclic_block_dependency")
    else Resolve
  }

  /** `order` runs through the blocks by level, then position, then some dictionary order. */
  ghost predicate Ordered(d: Source, order: seq<nat>) {
    && Lists(order, BlockSet(d)) && !Unplaced(d)
    && exists keys, level ::
         Lists(keys, BlockSet(d)) && Levels(FullGraph(d), level) && Layered(order, keys, Positions(d), level)
  }

  ghost function BasisOf(d: Source): string {
    if exists i: nat, t: nat :: Follows(d, i, t) then "dependency_order_with_exec_after" else "documented_dependency_order"
  }

  ghost predicate Outcome(d: Source, s: State, excluded: bool, s': State, issue: Option<string>) {
    match VerdictOn(d, s, excluded)
    case Skip => s' == Cleared(s) && issue == None
    case Report(code) => s' == Cleared(s) && issue == Some(code)
    case Resolve => issue == None && s'.resolved && s'.basis == Some(BasisOf(d)) && Ordered(d, s'.order)
  }

  // ----- What a resolved diagram promises

  ghost predicate Before(order: seq<nat>, s: nat, t: nat) {
    exists i, j :: 0 <= i < j < |order| && order[i] == s && order[j] == t
  }

  /** A block's level is above those of the blocks it depends on, and order follows levels. */
  lemma LevelsFirst(
    order: seq<nat>, keys: seq<nat>, pos: map<nat, Position>, deps: Graph, level: map<nat, nat>, s: nat, t: nat)
    requires Lists(order, deps.Keys) && Layered(order, keys, pos, level)
    requires t in deps && s in deps[t] && t in level && LevelOf(deps, level, t) && s in deps
    ensures Before(order, s, t)
  {
    var i :| 0 <= i < |order| && order[i] == s;
    var j :| 0 <= j < |order| && order[j] == t;
    LevelsGrow(order, keys, pos, level);
  }

  lemma LevelsGrow(order: seq<nat>, keys: seq<nat>, pos: map<nat, Position>, level: map<nat, nat>)
    requires Layered(order, keys, pos, level)
    ensures forall x :: x in order ==> x in level
    ensures forall j, i :: 0 <= j < i < |order| ==> level[order[j]] <= level[order[i]]
  {
    forall j, i | 0 <= j < i < |order| ensures level[order[j]] <= level[order[i]] {
      assert Goes(keys, pos, level, order[j], order[i]);
    }
  }

  /** In an accepted order every block comes after all blocks it depends on. */
  lemma DependenciesFirst(d: Source, order: seq<nat>, s: nat, t: nat)
    ensures Ordered(d, order) && Depends(d, s, t) ==> Before(order, s, t)
  {
    hide Before, Positions, Lists, Layered, LevelOf;
    if Ordered(d, order) && Depends(d, s, t) {
      var keys, level :| Lists(keys, BlockSet(d)) && Levels(FullGraph(d), level) && Layered(order, keys, Positions(d), level);
      assert s in FullGraph(d)[t] && LevelOf(FullGraph(d), level, t);
      assert FullGraph(d).Keys == BlockSet(d);
      LevelsFirst(order, keys, Positions(d), FullGraph(d), level, s, t);
    }
  }

  /** A link names the two blocks as its resolved ends. */
  predicate Carries(l: Link, a: nat, b: nat) {
    l.source.index.Some? && l.destination.index.Some? && l.source.index.value == a && l.destination.index.value == b
  }

  /**
   * A diagram resolved by this run lists every block once, after everything linked into it,
   * after the block its override names, and after every other writer of a symbol it reads;
   * and no link was left unresolved.
   */
  lemma ResolvedIsTrustworthy(d: Source, s: State, excluded: bool, s': State, issue: Option<string>)
    requires Outcome(d, s, excluded, s', issue)
    requires s'.resolved && !Cleared(s).resolved
    ensures Lists(s'.order, BlockSet(d)) && forall l :: l in d.links ==> l.source.resolved && l.destination.resolved
    ensures forall l, a: nat, b: nat ::
      l in d.links && Carries(l, a, b) && IsBlock(d, a) && IsBlock(d, b) ==> Before(s'.order, a, b)
    ensures forall a: nat, b: nat ::
      IsBlock(d, a) && IsBlock(d, b) && d.objects[b].after != "" && d.objects[a].name == d.objects[b].after ==>
        Before(s'.order, a, b)
    ensures forall v, p, q ::
      v in d.shared && p in v.outputs && q in v.inputs && IsBlock(d, p.0) && IsBlock(d, q.0) && p.0 != q.0 ==>
        Before(s'.order, p.0, q.0)
  {
    hide Ordered, Linked, Follows, SharedPair, Before, FullGraph, OverridesResolve, Ambiguous, Mentions, Candidate;
    forall a: nat, b: nat | Depends(d, a, b) ensures Before(s'.order, a, b) { DependenciesFirst(d, s'.order, a, b); }
    OrderedLists(d, s'.order);
    forall l, a: nat, b: nat | l in d.links && Carries(l, a, b) && IsBlock(d, a) && IsBlock(d, b) ensures Before(s'.order, a, b) {
      CarriedIsLinked(d, l, a, b);
    }
    forall a: nat, b: nat | IsBlock(d, a) && IsBlock(d, b) && d.objects[b].after != "" && d.objects[a].name == d.objects[b].after
      ensures Before(s'.order, a, b)
    {
      NamedIsFollowed(d, b, a);
    }
    forall v, p, q | v in d.shared && p in v.outputs && q in v.inputs && IsBlock(d, p.0) && IsBlock(d, q.0) && p.0 != q.0
      ensures Before(s'.order, p.0, q.0)
    {
      SharedIsPair(d, v, p, q);
    }
  }

  lemma CarriedIsLinked(d: Source, l: Link, a: nat, b: nat)
    requires l in d.links && Carries(l, a, b) && IsBlock(d, a) && IsBlock(d, b)
    ensures Linked(d, a, b)
  {
  }

  lemma NamedIsFollowed(d: Source, b: nat, a: nat)
    requires OverridesResolve(d) && IsBlock(d, a) && IsBlock(d, b)
    requires d.objects[b].after != "" && d.objects[a].name == d.objects[b].after
    ensures Follows(d, b, a)
  {
    var t: nat :| Follows(d, b, t);
  }

  lemma SharedIsPair(d: Source, v: SharedVariable, p: (nat, nat), q: (nat, nat))
    requires v in d.shared && p in v.outputs && q in v.inputs && IsBlock(d, p.0) && IsBlock(d, q.0) && p.0 != q.0
    ensures SharedPair(d, p.0, q.0)
  {
    MentionedIs(v.outputs, p);
    MentionedIs(v.inputs, q);
  }

  lemma MentionedIs(pins: seq<(nat, nat)>, p: (nat, nat))
    requires p in pins
    ensures Mentions(pins, p.0)
  {
    var n :| 0 <= n < |pins| && pins[n] == p;
    assert pins[n].0 == p.0;
  }

  /** Which diagrams are looked at: those of FBD blocks alone, at least two of them, neither excluded nor resolved before. */
  lemma CandidateExactly(d: Source, s: State, excluded: bool)
    ensures Candidate(d, s, excluded) <==>
      && d.language == "FBD" && !excluded && (s.resolved ==> s.basis == Some("shared_variable_dataflow"))
      && (exists i, j :: 0 <= i < j < |d.objects| && d.objects[i].kind == Block && d.objects[j].kind == Block)
      && (forall o :: o in d.objects ==> o.kind == Block || o.kind == Annotation)
  {
    TwoBlocksExactly(d, |d.objects|);
    OnlyBlocks(d);
  }

  lemma OnlyBlocks(d: Source)
    ensures OtherObjects(d) <==> exists o :: o in d.objects && o.kind != Block && o.kind != Annotation
  {
    if n :| 0 <= n < |d.objects| && d.objects[n].kind.OtherKind? { assert d.objects[n] in d.objects; }
  }

  lemma {:induction false} TwoBlocksExactly(d: Source, n: nat)
    requires n <= |d.objects|
    ensures |BlocksBefore(d, n)| >= 1 <==> exists i :: 0 <= i < n && d.objects[i].kind == Block
    ensures |BlocksBefore(d, n)| >= 2 <==>
      exists i, j :: 0 <= i < j < n && d.objects[i].kind == Block && d.objects[j].kind == Block
  {
    if n > 0 { TwoBlocksExactly(d, n - 1); }
  }

  /** Unless it is resolved, a diagram is left as it was, but for a result of the withdrawn basis, which is cleared. */
  lemma Unresolved(d: Source, s: State, excluded: bool, s': State, issue: Option<string>)
    requires Outcome(d, s, excluded, s', issue) && VerdictOn(d, s, excluded) != Resolve
    ensures s' == if s.basis == Some("shared_variable_dataflow") then State([], false, None) else s
  {
    hide VerdictOn;
  }

  /** A pin of the block was bound to no symbol. */
  predicate BadlyBound(o: Object) {
    || "unresolved_expression" in o.bindings || "missing_symbol" in o.bindings
    || "ambiguous_symbol" in o.bindings || "invalid_output_literal" in o.bindings
  }

  lemma UnresolvedExactly(d: Source)
    ensures UnresolvedPins(d) <==> exists o :: o in d.objects && o.kind == Block && BadlyBound(o)
  {
    forall o: Object ensures BadlyBound(o) <==> exists n :: 0 <= n < |o.bindings| && o.bindings[n] in UNRESOLVED_BINDINGS {
      BadlyBoundExactly(o);
    }
    if o :| o in d.objects && o.kind == Block && BadlyBound(o) {
      var i: nat :| i < |d.objects| && d.objects[i] == o;
      assert IsBlock(d, i) && i in Blocks(d);
    }
    if UnresolvedPins(d) {
      var i :| i in Blocks(d) && exists n :: 0 <= n < |d.objects[i].bindings| && d.objects[i].bindings[n] in UNRESOLVED_BINDINGS;
      assert d.objects[i] in d.objects && BadlyBound(d.objects[i]);
    }
  }

  lemma BadlyBoundExactly(o: Object)
    ensures BadlyBound(o) <==> exists n :: 0 <= n < |o.bindings| && o.bindings[n] in UNRESOLVED_BINDINGS
  {
    if BadlyBound(o) {
      var b :| b in o.bindings && b in UNRESOLVED_BINDINGS;
      var n :| 0 <= n < |o.bindings| && o.bindings[n] == b;
    }
  }

  /** Output pins of two blocks refer to the symbol. */
  predicate WrittenTwice(d: Source, v: SharedVariable) {
    exists p, q :: p in v.outputs && q in v.outputs && IsBlock(d, p.0) && IsBlock(d, q.0) && p.0 != q.0
  }

  /** Two writers of one symbol are reported only where all pins of the blocks are bound. */
  lemma AmbiguousExactly(d: Source, s: State, excluded: bool)
    ensures VerdictOn(d, s, excluded) == Report("ambiguous_block_order") <==>
      && Candidate(d, s, excluded) && OverridesResolve(d)
      && (forall o :: o in d.objects && o.kind == Block ==> !BadlyBound(o))
      && (exists v :: v in d.shared && WrittenTwice(d, v))
  {
    hide Candidate, OverridesResolve, GraphComplete, Unplaced, Stuck, FullGraph, BadlyBound, UnresolvedPins, TwoWriters, WrittenTwice;
    UnresolvedExactly(d);
    forall v ensures TwoWriters(d, v) <==> WrittenTwice(d, v) { WritersExactly(d, v); }
    OtherCodes();
  }

  lemma OtherCodes()
    ensures "ambiguous_block_order" != "unresolved_execution_after" && "ambiguous_block_order" != "cyclic_block_dependency"
  {
    assert "ambiguous_block_order"[0] != "unresolved_execution_after"[0];
    assert "ambiguous_block_order"[0] != "cyclic_block_dependency"[0];
  }

  lemma WritersExactly(d: Source, v: SharedVariable)
    ensures TwoWriters(d, v) <==> WrittenTwice(d, v)
  {
    if WrittenTwice(d, v) {
      var p, q :| p in v.outputs && q in v.outputs && IsBlock(d, p.0) && IsBlock(d, q.0) && p.0 != q.0;
      MentionedIs(v.outputs, p);
      MentionedIs(v.outputs, q);
    }
    if TwoWriters(d, v) {
      var s: nat, t: nat :| IsBlock(d, s) && IsBlock(d, t) && s != t && Mentions(v.outputs, s) && Mentions(v.outputs, t);
      var m :| 0 <= m < |v.outputs| && v.outputs[m].0 == s;
      var n :| 0 <= n < |v.outputs| && v.outputs[n].0 == t;
      assert v.outputs[m] in v.outputs && v.outputs[n] in v.outputs;
    }
  }

  /** Block `i` names itself, no block or several blocks in its `execAfter`. */
  ghost predicate Misnamed(d: Source, i: nat)
    requires IsBlock(d, i)
  {
    var after := d.objects[i].after;
    after != "" && !exists t: nat :: IsBlock(d, t) && t != i && OnlyNamed(d, t, after)
  }

  predicate OnlyNamed(d: Source, t: nat, name: string) {
    t < |d.objects| && d.objects[t].name == name && forall u :: 0 <= u < |d.objects| && u != t && IsBlock(d, u) ==> d.objects[u].name != name
  }

  lemma MisnamedExactly(d: Source, s: State, excluded: bool)
    ensures VerdictOn(d, s, excluded) == Report("unresolved_execution_after") <==>
      Candidate(d, s, excluded) && exists i: nat :: IsBlock(d, i) && Misnamed(d, i)
  {
    hide Candidate, Ambiguous, UnresolvedPins, GraphComplete, Unplaced, Stuck, FullGraph;
    OtherCodes();
    forall i: nat | IsBlock(d, i) ensures Misnamed(d, i) <==> d.objects[i].after != "" && !exists t: nat :: Follows(d, i, t) {
      MisnamedFollows(d, i);
    }
  }

  lemma MisnamedFollows(d: Source, i: nat)
    requires IsBlock(d, i)
    ensures Misnamed(d, i) <==> d.objects[i].after != "" && !exists t: nat :: Follows(d, i, t)
  {
    if t: nat :| Follows(d, i, t) { assert OnlyNamed(d, t, d.objects[i].after); }
    if t: nat :| IsBlock(d, t) && t != i && d.objects[i].after != "" && OnlyNamed(d, t, d.objects[i].after) {
      assert Follows(d, i, t);
    }
  }

  /** Every link is resolved, one stands for each symbol one block writes and another reads, and every block has its place. */
  ghost predicate Evident(d: Source) {
    && (forall l :: l in d.links ==> l.source.resolved && l.destination.resolved)
    && (forall v, p, q ::
          v in d.shared && p in v.outputs && q in v.inputs && IsBlock(d, p.0) && IsBlock(d, q.0) && p.0 != q.0 ==>
            Joined(d, p.0, q.0))
    && (forall i: nat :: IsBlock(d, i) ==> d.objects[i].position.Some?)
  }

  ghost predicate Joined(d: Source, a: nat, b: nat) {
    exists l :: l in d.links && Carries(l, a, b)
  }

  lemma EvidentExactly(d: Source)
    ensures Evident(d) <==> GraphComplete(d) && !Unplaced(d)
  {
    hide Mentions, Linked, Joined;
    forall a: nat, b: nat | IsBlock(d, a) && IsBlock(d, b) ensures Joined(d, a, b) <==> Linked(d, a, b) { JoinedIsLinked(d, a, b); }
    forall a: nat, b: nat | Evident(d) && SharedPair(d, a, b) ensures Linked(d, a, b) {
      var v :| v in d.shared && Mentions(v.outputs, a) && Mentions(v.inputs, b);
      var p := PinOf(v.outputs, a);
      var q := PinOf(v.inputs, b);
      assert Joined(d, p.0, q.0);
    }
    forall v, p, q |
      GraphComplete(d) && v in d.shared && p in v.outputs && q in v.inputs && IsBlock(d, p.0) && IsBlock(d, q.0) && p.0 != q.0
      ensures Joined(d, p.0, q.0)
    {
      SharedIsPair(d, v, p, q);
    }
  }

  lemma JoinedIsLinked(d: Source, a: nat, b: nat)
    requires IsBlock(d, a) && IsBlock(d, b)
    ensures Joined(d, a, b) <==> Linked(d, a, b)
  {
    forall l ensures Carries(l, a, b) <==> l.source.index == Some(a) && l.destination.index == Some(b) {}
  }

  lemma PinOf(pins: seq<(nat, nat)>, i: nat) returns (p: (nat, nat))
    requires Mentions(pins, i)
    ensures p in pins && p.0 == i
  {
    var n :| 0 <= n < |pins| && pins[n].0 == i;
    p := pins[n];
  }

  /** All blocks once, each after the blocks linked to it and after the block it names. */
  ghost predicate Sequential(d: Source, order: seq<nat>) {
    && Lists(order, BlockSet(d))
    && forall a: nat, b: nat :: Depends(d, a, b) ==> Before(order, a, b)
  }

  /**
   * With sound names, pins and evidence, a diagram is resolved, into such a sequence, exactly when
   * there is one; otherwise the dependencies are reported as cyclic.
   */
  lemma ResolvedExactly(d: Source, s: State, excluded: bool, s': State, issue: Option<string>)
    requires Outcome(d, s, excluded, s', issue) && Candidate(d, s, excluded) && Evident(d)
    requires forall i: nat :: IsBlock(d, i) ==> !Misnamed(d, i)
    requires (forall v :: v in d.shared ==> !WrittenTwice(d, v)) || exists o :: o in d.objects && o.kind == Block && BadlyBound(o)
    ensures if exists order :: Sequential(d, order) then issue == None && s'.resolved && Sequential(d, s'.order)
            else issue == Some("cyclic_block_dependency")
  {
    hide Candidate, Evident, Sequential, Misnamed, WrittenTwice, BadlyBound;
    MisnamedExactly(d, s, excluded);
    AmbiguousExactly(d, s, excluded);
    EvidentExactly(d);
    Proceeds(d, s, excluded);
    if VerdictOn(d, s, excluded) == Resolve {
      InSequence(d, s'.order);
    } else {
      forall order ensures !Sequential(d, order) { StuckNoSequence(d, order); }
    }
  }

  lemma Proceeds(d: Source, s: State, excluded: bool)
    requires Candidate(d, s, excluded) && GraphComplete(d) && !Unplaced(d)
    requires VerdictOn(d, s, excluded) != Report("unresolved_execution_after")
    requires VerdictOn(d, s, excluded) != Report("ambiguous_block_order")
    ensures VerdictOn(d, s, excluded) ==
      if exists stuck :: Stuck(FullGraph(d), stuck) then Report("cyclic_block_dependency") else Resolve
  {
    hide Candidate, Ambiguous, UnresolvedPins, GraphComplete, Unplaced, Stuck, FullGraph, OverridesResolve;
  }

  lemma InSequence(d: Source, order: seq<nat>)
    requires Ordered(d, order)
    ensures Sequential(d, order)
  {
    hide Ordered, Depends, Before;
    OrderedLists(d, order);
    forall a: nat, b: nat | Depends(d, a, b) ensures Before(order, a, b) { DependenciesFirst(d, order, a, b); }
  }

  lemma StuckNoSequence(d: Source, order: seq<nat>)
    requires exists stuck :: Stuck(FullGraph(d), stuck)
    ensures !Sequential(d, order)
  {
    hide Depends, Stuck, Lists;
    if Sequential(d, order) {
      var deps := FullGraph(d);
      assert deps.Keys == BlockSet(d);
      var stuck :| Stuck(deps, stuck);
      SequenceRespects(d, order);
      RespectsNeverStuck(order, deps, stuck);
    }
  }

  lemma SequenceRespects(d: Source, order: seq<nat>)
    requires Sequential(d, order)
    ensures Respects(order, FullGraph(d))
  {
    hide Depends;
    var deps := FullGraph(d);
    forall j, s | 0 <= j < |order| && order[j] in deps && s in deps[order[j]] ensures s in order[..j] {
      var i, k :| 0 <= i < k < |order| && order[i] == s && order[k] == order[j];
      assert k == j && order[..j][i] == s;
    }
  }

  lemma RespectsNeverStuck(order: seq<nat>, deps: Graph, stuck: set<nat>)
    requires Lists(order, deps.Keys) && Respects(order, deps)
    ensures !Stuck(deps, stuck)
  {
    hide Respects, Waits;
    if Stuck(deps, stuck) {
      var i :| i in stuck;
      assert i in order;
      var j :| 0 <= j < |order| && order[j] == i;
      NoOrderWhenStuck(order, deps, stuck, j);
    }
  }

  lemma OrderedLists(d: Source, order: seq<nat>)
    requires Ordered(d, order)
    ensures Lists(order, BlockSet(d))
  {
  }

  /** A diagram resolved by this run goes by longest dependency chain, then row, then column. */
  lemma ResolvedByPosition(
    d: Source, s: State, excluded: bool, s': State, issue: Option<string>, level: map<nat, nat>, x: nat, y: nat)
    requires Outcome(d, s, excluded, s', issue) && s'.resolved && !Cleared(s).resolved
    requires Levels(FullGraph(d), level) && IsBlock(d, x) && IsBlock(d, y)
    ensures d.objects[x].position.Some? && d.objects[y].position.Some? && x in level && y in level
    ensures var p, q := d.objects[x].position.value, d.objects[y].position.value;
      (|| level[x] < level[y]
       || (level[x] == level[y] && (p.row < q.row || (p.row == q.row && p.column < q.column))))
      ==> Before(s'.order, x, y)
  {
    hide Candidate, OverridesResolve, Ambiguous, GraphComplete, BasisOf, Stuck, FullGraph, Levels, Layered;
    var k, l :| Lists(k, BlockSet(d)) && Levels(FullGraph(d), l) && Layered(s'.order, k, Positions(d), l);
    LevelsUnique(FullGraph(d), l, level);
    LayeredByRow(s'.order, k, Positions(d), level);
    KeysOfLevels(d, level);
    assert x in s'.order && y in s'.order;
    var i :| 0 <= i < |s'.order| && s'.order[i] == x;
    var j :| 0 <= j < |s'.order| && s'.order[j] == y;
    if j < i { assert ByRowAndColumn(Positions(d), level, s'.order[j], s'.order[i]); }
  }

  lemma KeysOfLevels(d: Source, level: map<nat, nat>)
    requires Levels(FullGraph(d), level)
    ensures forall i: nat :: i in level <==> IsBlock(d, i)
  {
    hide Depends;
  }

  /** Two blocks of the diagram have equal longest dependency chains and stand at one position. */
  ghost predicate HasTies(d: Source) {
    !Unplaced(d) && exists level, x, y :: Levels(FullGraph(d), level) && Tied(Positions(d), level, x, y)
  }

  /** Unless blocks are tied, the whole result is determined by the diagram. */
  lemma OutcomeUnique(d: Source, s: State, excluded: bool, a: State, b: State, i: Option<string>, j: Option<string>)
    requires Outcome(d, s, excluded, a, i) && Outcome(d, s, excluded, b, j)
    requires VerdictOn(d, s, excluded) == Resolve ==> !HasTies(d)
    ensures a == b && i == j
  {
    hide Ordered, Candidate, OverridesResolve, Ambiguous, GraphComplete, BasisOf, Unplaced, Stuck, FullGraph, HasTies;
    if VerdictOn(d, s, excluded) == Resolve {
      OrderUnique(d, a.order, b.order);
    }
  }

  lemma OrderUnique(d: Source, a: seq<nat>, b: seq<nat>)
    requires Ordered(d, a) && Ordered(d, b) && !HasTies(d)
    ensures a == b
  {
    hide Levels, Layered, Lists, Tied;
    var k, l :| Lists(k, BlockSet(d)) && Levels(FullGraph(d), l) && Layered(a, k, Positions(d), l);
    var k', l' :| Lists(k', BlockSet(d)) && Levels(FullGraph(d), l') && Layered(b, k', Positions(d), l');
    LevelsUnique(FullGraph(d), l, l');
    LayeredUnique(a, b, k, k', Positions(d), l, BlockSet(d));
  }

  /** If blocks are tied, every accepted order has another beside it. */
  lemma OtherOrder(d: Source, a: seq<nat>) returns (b: seq<nat>)
    requires Ordered(d, a) && HasTies(d)
    ensures Ordered(d, b) && b != a
  {
    hide Levels, Layered, FullGraph;
    var k, l :| Lists(k, BlockSet(d)) && Levels(FullGraph(d), l) && Layered(a, k, Positions(d), l);
    var level, x, y :| Levels(FullGraph(d), level) && Tied(Positions(d), level, x, y);
    LevelsUnique(FullGraph(d), l, level);
    assert x in a && y in a;
    var i :| 0 <= i < |a| && a[i] == x;
    var j :| 0 <= j < |a| && a[j] == y;
    b := if i < j then Swapped(a, i, j) else Swapped(a, j, i);
    SwappedLists(a, if i < j then i else j, if i < j then j else i, BlockSet(d));
    SwapTied(a, k, Positions(d), l, if i < j then i else j, if i < j then j else i);
  }

  /**
   * The result of resolving a diagram depends on the order in which its blocks are iterated
   * exactly when two blocks of one level stand at one position.
   */
  lemma UniqueExactly(d: Source, s: State, excluded: bool, a: State)
    requires VerdictOn(d, s, excluded) == Resolve && Outcome(d, s, excluded, a, None)
    ensures (forall b :: Outcome(d, s, excluded, b, None) ==> b == a) <==> !HasTies(d)
  {
    hide Ordered, BasisOf, HasTies, VerdictOn;
    if HasTies(d) {
      var order := OtherOrder(d, a.order);
      assert Outcome(d, s, excluded, a.(order := order), None);
    } else {
      forall b | Outcome(d, s, excluded, b, None) ensures b == a {
        OutcomeUnique(d, s, excluded, a, b, None, None);
      }
    }
  }

  // ----- Two blocks at one position

  const TwoBlocks := Source("FBD", [LoneBlock, LoneBlock], [], [])
  const LoneBlock := Object(Block, "", "", Some(Position(0, 0)), [])

  /** Two unlinked blocks at one position may be resolved in either order. */
  lemma EitherOrder()
    ensures var s, basis := State([], false, None), Some(BasisOf(TwoBlocks));
      && Outcome(TwoBlocks, s, false, State([0, 1], true, basis), None)
      && Outcome(TwoBlocks, s, false, State([1, 0], true, basis), None)
  {
    hide BasisOf, Ordered, Candidate, FullGraph, Stuck, OverridesResolve, GraphComplete, Ambiguous, Unplaced, TwoBlocks;
    NothingDepends();
    TwoBlocksListed();
    NeverStuck(FullGraph(TwoBlocks));
    InAnyOrder(0, 1);
    InAnyOrder(1, 0);
  }

  lemma TwoBlocksListed()
    ensures Blocks(TwoBlocks) == [0, 1] && Candidate(TwoBlocks, State([], false, None), false)
  {
    var two: nat := 2;
    assert BlocksBefore(TwoBlocks, 0) == [] && BlocksBefore(TwoBlocks, 1) == [0] && BlocksBefore(TwoBlocks, two) == [0, 1];
  }

  lemma NothingDepends()
    ensures FullGraph(TwoBlocks).Keys == BlockSet(TwoBlocks)
    ensures forall t :: t in FullGraph(TwoBlocks) ==> FullGraph(TwoBlocks)[t] == {}
    ensures OverridesResolve(TwoBlocks) && GraphComplete(TwoBlocks) && !Ambiguous(TwoBlocks) && !Unplaced(TwoBlocks)
  {
    assert forall s: nat, t: nat :: !Depends(TwoBlocks, s, t);
    assert IsBlock(TwoBlocks, 0) && IsBlock(TwoBlocks, 1);
  }

  lemma NeverStuck(deps: Graph)
    requires forall i :: i in deps ==> deps[i] == {}
    ensures !exists s :: Stuck(deps, s)
  {
    forall s ensures !Stuck(deps, s) {
      if s != {} && s <= deps.Keys {
        var i :| i in s;
        assert !Waits(deps, s, i);
      }
    }
  }

  lemma InAnyOrder(x: nat, y: nat)
    requires (x == 0 && y == 1) || (x == 1 && y == 0)
    ensures Ordered(TwoBlocks, [x, y])
  {
    hide FullGraph, Layered, Lists, BlocksBefore;
    NothingDepends();
    TwoBlocksListed();
    var level, pos := map[0 := 0, 1 := 0], Positions(TwoBlocks);
    assert BlockSet(TwoBlocks) == {x, y};
    assert Levels(FullGraph(TwoBlocks), level);
    PairLayered(x, y, pos, level);
  }

  lemma PairLayered(x: nat, y: nat, pos: map<nat, Position>, level: map<nat, nat>)
    requires Tied(pos, level, x, y)
    ensures Lists([x, y], {x, y}) && Layered([x, y], [x, y], pos, level)
  {
    var order := [x, y];
    assert order[0] == x && order[1] == y;
    assert Precedes(order, order[0], order[1]);
  }

  /** A second visit finds nothing to change and reports the same. */
  lemma SecondVisit(d: Source, s: State, excluded: bool, a: State, b: State, i: Option<string>, j: Option<string>)
    requires Outcome(d, s, excluded, a, i) && Outcome(d, a, excluded, b, j)
    ensures b == a && j == i
  {
    hide Ordered, OverridesResolve, Ambiguous, GraphComplete, Unplaced, Stuck, FullGraph, Follows, OtherObjects;
    assert Cleared(a) == a;
  }
}
