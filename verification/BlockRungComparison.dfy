/** The checker's verdict on a rung with a function block. */
module BlockRungComparison {
  import opened Wrappers
  import opened RungOutputs
  import opened LadderGrid
  import opened GridProperties
  import opened ContactRungs
  import opened RungPrograms
  import opened RungDrawings
  import opened RungEquivalence
  import opened RungComparison
  import opened BlockRungs
  import opened BlockRungListings
  import IL = InstructionList
  import Text = IlParser

  // ----- The names of the listing

  /** The block's program reads back what it has written exactly when a contact behind the block does. */
  lemma BlockUnwritten(b: BlockRung)
    requires PlainOutputs(b.rest)
    ensures ReadsUnwritten(BlockProgram(b), {}) <==> NoReadBack(b.rest, {})
  {
    hide ReadsUnwritten, Code, NetTail, OutputAtom, NoReadBack;
    var none: seq<IL.Instr> := [];
    var feed, read := PinCode(b)[0], PinCode(b)[1];
    NothingRead({} + Targets(b.rest));
    CodeUnwritten(b.rest, none, {});
    assert Code(b.rest) + none == Code(b.rest);
    UnwrittenCons(read, Code(b.rest), {});
    UnwrittenCons(feed, [read] + Code(b.rest), {});
    TailUnwritten(b.net, [feed] + ([read] + Code(b.rest)), {});
    UnwrittenCons(IL.Logic(IL.Load, OperandOf(FirstContact(b.net))), NetTail(b.net) + ([feed] + ([read] + Code(b.rest))), {});
  }

  lemma BlockKeys(b: BlockRung)
    requires PlainOutputs(b.rest)
    ensures IL.KeysOf(BlockProgram(b)) == {PinKey(b)} + RungKeys(b.rest)
  {
    hide IL.KeysOf, Code, NetTail, RungKeys;
    var load, feed, read := [IL.Logic(IL.Load, OperandOf(FirstContact(b.net)))], [PinCode(b)[0]], [PinCode(b)[1]];
    NetKeys(IL.Load, b.net);
    NoKeys(IL.Load, b.net);
    CodeKeys(b.rest);
    KeysAlone(PinCode(b)[0]);
    KeysAlone(PinCode(b)[1]);
    KeysJoin(read, Code(b.rest));
    KeysJoin(feed, read + Code(b.rest));
    KeysJoin(NetTail(b.net), feed + (read + Code(b.rest)));
    KeysJoin(load, NetTail(b.net) + (feed + (read + Code(b.rest))));
  }

  function BlockAtoms(b: BlockRung): set<string> {
    NetAtoms(b.net) + {OutputAtom(b)} + RungAtoms(b.rest)
  }

  /** What is reported of the listing: all names of the rung exactly when none is read back. */
  lemma BlockListingNames(b: BlockRung, parsed: Text.Parsed)
    requires Spellable(b) && Text.Reads(BlockListing(b), parsed)
    ensures parsed.program == BlockProgram(b) && parsed.outputs <= {PinKey(b)} + RungKeys(b.rest)
    ensures parsed.outputs == {PinKey(b)} + RungKeys(b.rest) <==> NoReadBack(b.rest, {})
    ensures NoReadBack(b.rest, {}) ==> parsed.atoms == BlockAtoms(b)
    ensures parsed.pins == BlockDrawing(b, map[]).pins && parsed.outs == BlockDrawing(b, map[]).outs
  {
    hide Text.ReadLines, BlockListing, BlockProgram, NoReadBack, InputAtoms, RungAtoms, NetAtoms, RungKeys, IL.KeysOf,
      ReadsUnwritten, OutputAtom, Cells;
    var r := BlockListingParses(b);
    BlockUnwritten(b);
    BlockKeys(b);
    OutputsOfProgram(BlockListing(b), parsed);
    if NoReadBack(b.rest, {}) { InputsAreAtoms(b.rest, {}); }
  }

  // ----- The names of the drawing

  lemma BlockWired(b: BlockRung, env: map<string, bool>)
    ensures WiredAtom(BlockDrawing(b, env), BlockCell(b), FirstOutput(b.kind)) == Some(OutputAtom(b))
  {
    hide DrawNet, DrawRung, NetWidth;
    var g := BlockDrawing(b, env);
    PartsFit(b);
    WiredByMember(g.cells);
    var first := RungStarts(b.rest, 0, Behind(b));
    assert first in g.cells;
  }

  /** No atom of the rung is blank. */
  lemma {:induction false} NamedNet(net: Net, afterOut: bool)
    requires NetOperands(net, afterOut)
    ensures "" !in NetAtoms(net)
  {
    match net
    case Leaf(_) =>
    case Series(p, q) =>
      NamedNet(p, afterOut);
      NamedNet(q, afterOut);
    case Parallel(p, q) =>
      NamedNet(p, afterOut);
      NamedNet(q, afterOut);
  }

  lemma {:induction false} NamedRung(rung: Rung)
    requires RungOperands(rung)
    ensures "" !in RungAtoms(rung)
  {
    match rung
    case Out(_) =>
    case Then(net, rest) =>
      NamedNet(net, true);
      NamedRung(rest);
    case Pass(_, rest) => NamedRung(rest);
    case Fork(upper, lower) =>
      NamedRung(upper);
      NamedRung(lower);
  }

  lemma BlockDrawingNames(b: BlockRung, env: map<string, bool>, atoms: set<string>, keys: set<Key>)
    requires Spellable(b)
    requires var g := BlockDrawing(b, env);
      && (forall atom :: atom in atoms <==> exists c :: c in g.cells && NamesAtom(g, c, atom))
      && (forall key :: key in keys <==> exists c :: c in g.cells && NamesKey(g, c, key))
    ensures atoms == BlockAtoms(b) && keys == {PinKey(b)} + RungKeys(b.rest)
  {
    hide DrawNet, DrawRung, NetAtoms, RungAtoms, RungKeys, NetWidth, NamesAtom, NamesKey, OutputAtom, Cells, RungOperands, NetOperands;
    var g := BlockDrawing(b, env);
    CellsRight(b);
    forall key ensures key in keys <==> key == PinKey(b) || key in RungKeys(b.rest) {
      NamedKeys(b, env, key);
    }
    forall atom ensures atom in atoms <==> atom in BlockAtoms(b) {
      NamedAtoms(b, env, atom);
    }
  }

  lemma NamedAtoms(b: BlockRung, env: map<string, bool>, atom: string)
    requires Spellable(b)
    ensures (exists c :: c in Cells(b) && NamesAtom(BlockDrawing(b, env), c, atom)) <==> atom in BlockAtoms(b)
  {
    hide DrawNet, DrawRung, NetAtoms, RungAtoms, NetWidth, RungKeys, RungOperands, NetOperands, OutputAtom;
    var g := BlockDrawing(b, env);
    NetUses(b.net, 0, 0);
    RungUses(b.rest, Back(b));
    CellsRight(b);
    BlockWired(b, env);
    NamedNet(b.net, false);
    NamedRung(b.rest);
    if atom in NetAtoms(b.net) {
      var c := AtomsDrawn(b.net, 0, 0, atom);
      assert c in Cells(b) && NamesAtom(g, c, atom);
    } else if atom in RungAtoms(b.rest) {
      var c := RungAtomsDrawn(b.rest, 0, Behind(b), atom);
      assert c in Cells(b) && NamesAtom(g, c, atom);
    } else if atom == OutputAtom(b) {
      assert FirstOutput(b.kind) in Listed(g.outs, b.name);
      assert NamesAtom(g, BlockCell(b), atom);
    }
    if c :| c in Cells(b) && NamesAtom(g, c, atom) {
      assert c in DrawNet(b.net, 0, 0) || c == BlockCell(b) || c in DrawRung(b.rest, 0, Behind(b));
    }
  }

  // ----- The verdict

  /** The check of the grid lets the block pass: its two pins are pins of its type. */
  lemma BlockPinsKnown(b: BlockRung, env: map<string, bool>)
    ensures !exists c :: c in Cells(b) && !PinsKnown(BlockDrawing(b, env), c)
  {
    hide DrawNet, DrawRung, NetWidth, Cells;
    CellsRight(b);
    assert InRow(b.kind, FirstInput(b.kind)).Some? && OutRow(b.kind, FirstOutput(b.kind)).Some?;
  }

  lemma BlockReadable(b: BlockRung, env: map<string, bool>)
    requires Spellable(b) && NoReadBack(b.rest, {}) && BlockAtoms(b) <= env.Keys
    ensures Readable(b.net, env, map[]) && RungReadable(b.rest, env, {}) && OutputAtom(b) in env
  {
    hide NetAtoms, RungAtoms, InputAtoms, NoReadBack, OutputAtom, PlainRung, PlainNet, PlainOutputs, NetOperands, RungOperands;
    InputsAreAtoms(b.rest, {});
    NoConstantAtoms(b.rest);
    NoConstantNames(b.net);
  }

  /** Both evaluators on the two stored forms of the rung, from the parsed listing on, record one map. */
  lemma SameBlockOutputs(b: BlockRung, env: map<string, bool>, parsed: Text.Parsed, swept: map<Key, bool>)
    returns (m: IL.Machine)
    requires Spellable(b) && NoReadBack(b.rest, {}) && BlockAtoms(b) <= env.Keys
    requires Text.Reads(BlockListing(b), parsed) && Cells(b) != []
    requires Records(BlockDrawing(b, env), MaxEnd(Cells(b)) + 1, 0, swept)
    ensures IL.Exec(parsed.program, env, IL.Start) == Success(m)
    ensures m.results == swept
  {
    hide *;
    BlockListingNames(b, parsed);
    BlockReadable(b, env);
    m := BlockGridMatchesProgram(b, env, swept);
  }

  lemma BlockSound(b: BlockRung, env: map<string, bool>)
    requires Spellable(b) && BlockAtoms(b) <= env.Keys
    ensures BlockDrawing(b, env).cells == Cells(b) && Cells(b) != [] && !AnyFault(BlockDrawing(b, env))
  {
    hide NetAtoms, RungAtoms, AnyFault, Cells, OutputAtom, PlainOutputs;
    BlockDrawingSound(b, env);
  }

  /**
   * The checker's work on a rung with a function block: whatever environments it tries, it reports
   * a match, except where a contact reads back a written target.
   */
  method CheckBlockRung(b: BlockRung, envs: seq<map<string, bool>>) returns (verdict: Verdict)
    requires Spellable(b) && forall n :: 0 <= n < |envs| ==> BlockAtoms(b) <= envs[n].Keys
    ensures verdict == if NoReadBack(b.rest, {}) then Matches else NamesDiffer
  {
    hide *;
    var result := Text.ParseIl(BlockListing(b));
    ghost var reader := BlockListingParses(b);
    if result.Failure? {
      assert false;
      return Unsupported;
    }
    var parsed := result.value;
    BlockListingNames(b, parsed);
    var drawn := GridModel(Grid(Cells(b), parsed.pins, parsed.outs, map[]));
    assert Grid(Cells(b), parsed.pins, parsed.outs, map[]) == BlockDrawing(b, map[]) by { SameDrawing(b, parsed, map[]); }
    if drawn.Failure? {
      assert false by { BlockPinsKnown(b, map[]); }
      return Unsupported;
    }
    var atoms, keys := drawn.value.0, drawn.value.1;
    BlockDrawingNames(b, map[], atoms, keys);
    if keys != parsed.outputs || atoms != parsed.atoms { return NamesDiffer; }
    for n := 0 to |envs| {
      var bad := CompareBlock(b, envs[n], parsed, keys);
      match bad {
        case Some(key) => return Differs(key);
        case None =>
      }
    }
    return Matches;
  }

  lemma SameDrawing(b: BlockRung, parsed: Text.Parsed, env: map<string, bool>)
    requires parsed.pins == BlockDrawing(b, map[]).pins && parsed.outs == BlockDrawing(b, map[]).outs
    ensures Grid(Cells(b), parsed.pins, parsed.outs, env) == BlockDrawing(b, env)
  {
    hide Cells;
  }

  /** Both evaluators under one environment: the first output on which they differ, and there is none. */
  method CompareBlock(b: BlockRung, env: map<string, bool>, parsed: Text.Parsed, keys: set<Key>) returns (bad: Option<Key>)
    requires Spellable(b) && NoReadBack(b.rest, {}) && BlockAtoms(b) <= env.Keys
    requires Text.Reads(BlockListing(b), parsed)
    ensures bad == None
  {
    hide *;
    BlockListingNames(b, parsed);
    SameDrawing(b, parsed, env);
    var swept := RunGrid(Grid(Cells(b), parsed.pins, parsed.outs, env));
    BlockSound(b, env);
    ghost var m := SameBlockOutputs(b, env, parsed, swept.value);
    var run := IL.RunIl(parsed.program, env);
    bad := FirstDifference(keys, swept.value, run.value);
  }
}
