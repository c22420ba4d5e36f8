/** Rungs with a function block: a network feeds its first input pin, its first output feeds a rung. */
module BlockRungs {
  import opened Wrappers
  import opened RungOutputs
  import opened RowJoins
  import opened LadderGrid
  import opened GridProperties
  import opened GridElements
  import opened ContactRungs
  import opened RungPrograms
  import opened RungDrawings
  import IL = InstructionList

  datatype BlockRung = BlockRung(net: Net, kind: BlockType, name: string, rest: Rung)

  /** The pins on the block's own row. */
  function FirstInput(kind: BlockType): string {
    match kind
    case Timer => "IN"
    case Counter => "R"
    case Drum => "R"
    case WriteVarBasic => "Execute"
  }

  function FirstOutput(kind: BlockType): string {
    match kind
    case Timer => "Q"
    case Counter => "E"
    case Drum => "F"
    case WriteVarBasic => "Done"
  }

  function OutputAtom(b: BlockRung): string {
    "out:" + b.name + "." + FirstOutput(b.kind)
  }

  function PinKey(b: BlockRung): Key {
    Key.Pin(b.name, FirstInput(b.kind))
  }

  // ----- The drawing

  function BlockCell(b: BlockRung): Cell {
    Cell(LadderGrid.Block(b.kind), 0, NetWidth(b.net), b.name, true, false, false, false)
  }

  /** The column behind the block. */
  function Behind(b: BlockRung): int {
    NetWidth(b.net) + (if b.kind.WriteVarBasic? then 4 else 2)
  }

  function Height(b: BlockRung): nat {
    Max(NetHeight(b.net), RungHeight(b.rest))
  }

  function Cells(b: BlockRung): seq<Cell> {
    DrawNet(b.net, 0, 0) + ([BlockCell(b)] + DrawRung(b.rest, 0, Behind(b)))
  }

  function BlockDrawing(b: BlockRung, env: map<string, bool>): Grid {
    Grid(Cells(b), map[b.name := [FirstInput(b.kind)]], map[b.name := [FirstOutput(b.kind)]], env)
  }

  function Front(b: BlockRung): Box {
    Box(0, Height(b), 0, NetWidth(b.net))
  }

  function Back(b: BlockRung): Box {
    Box(0, Height(b), Behind(b), Behind(b) + RungWidth(b.rest))
  }

  /** The cells in front of the block and behind it lie in boxes of their own. */
  lemma PartsFit(b: BlockRung)
    ensures AllFit(Front(b), DrawNet(b.net, 0, 0)) && AllFit(Back(b), DrawRung(b.rest, 0, Behind(b)))
    ensures End(BlockCell(b)) == Behind(b)
  {
    hide AllFit;
    NetFits(b.net, Front(b));
    RungFits(b.rest, Back(b));
  }

  lemma PartsOwned(b: BlockRung, env: map<string, bool>)
    ensures Owns(BlockDrawing(b, env), Front(b), DrawNet(b.net, 0, 0))
    ensures Owns(BlockDrawing(b, env), Back(b), DrawRung(b.rest, 0, Behind(b)))
  {
    hide DrawNet, DrawRung, NetWidth, RungWidth, NetHeight, RungHeight;
    PartsFit(b);
    var g := BlockDrawing(b, env);
    forall k ensures !HasGap(g.cells, k, -1) && !HasGap(g.cells, k, Height(b) - 1) {
      forall c | c in g.cells ensures !c.down || (c.row != -1 && c.row != Height(b) - 1)
        ensures !c.up || (c.row != 0 && c.row != Height(b))
      {
        assert c in DrawNet(b.net, 0, 0) || c == BlockCell(b) || c in DrawRung(b.rest, 0, Behind(b));
      }
    }
  }

  // ----- Power

  /** Some cell of a rung's drawing starts at its first node. */
  lemma {:induction false} RungStarts(rung: Rung, row: int, col: int) returns (c: Cell)
    ensures c in DrawRung(rung, row, col) && c.row == row && c.col == col && c.left
  {
    hide NetWidth, RungHeight, StageWidth, Verticals;
    match rung
    case Out(key) => c := OutCell(key, row, col);
    case Then(net, _) => c := NetStarts(net, row, col);
    case Pass(stage, _) => c := StageCell(stage, row, col);
    case Fork(upper, _) =>
      JointIs(row, RungHeight(upper), col, false);
      c := JointTop(row, col);
  }

  lemma {:induction false} NetStarts(net: Net, row: int, col: int) returns (c: Cell)
    ensures c in DrawNet(net, row, col) && c.row == row && c.col == col && c.left
  {
    hide NetWidth, NetHeight, Verticals, Padded;
    match net
    case Leaf(contact) => c := ContactCell(contact, row, col);
    case Series(a, _) => c := NetStarts(a, row, col);
    case Parallel(a, _) =>
      JointIs(row, NetHeight(a), col, false);
      c := JointTop(row, col);
  }

  lemma OnRail(b: BlockRung, env: map<string, bool>)
    ensures Powered(BlockDrawing(b, env), 0, 0)
  {
    hide DrawNet, DrawRung, NetWidth, Conducts, BlockDrives;
    var g := BlockDrawing(b, env);
    assert BlockCell(b) in g.cells;
    assert RailRow(g, 0);
    assert Raw(g, 0, 0) && Span(Gaps(g.cells, 0), 0, 0);
  }

  /** The block is fed when its network closes, and what is behind it when its output is on. */
  lemma BlockPowers(b: BlockRung, env: map<string, bool>)
    ensures Powered(BlockDrawing(b, env), 0, NetWidth(b.net)) <==> Closes(b.net, env)
    ensures Powered(BlockDrawing(b, env), 0, Behind(b)) <==> Lookup(env, OutputAtom(b))
  {
    hide DrawNet, DrawRung, NetWidth, RungWidth, NetHeight, RungHeight, Powered, Owns, Closes;
    var g, c := BlockDrawing(b, env), BlockCell(b);
    PartsFit(b);
    PartsOwned(b, env);
    OnRail(b, env);
    NetPower(b.net, g, Front(b));
    assert c in g.cells;
    forall d | d in g.cells && End(d) == End(c) ensures d == c {
      assert d in DrawNet(b.net, 0, 0) || d == c || d in DrawRung(b.rest, 0, Behind(b));
    }
    OutputRows(g, c, 0);
    var first := RungStarts(b.rest, 0, Behind(b));
    assert first in g.cells;
    assert OutputOn(g, b.name, FirstOutput(b.kind), 0, Behind(b)) <==> Lookup(env, OutputAtom(b));
    OtherOutputsOff(b, env);
  }

  lemma OtherOutputsOff(b: BlockRung, env: map<string, bool>)
    ensures forall pin, row, col :: pin != FirstOutput(b.kind) ==> !OutputOn(BlockDrawing(b, env), b.name, pin, row, col)
  {
  }

  // ----- What a sweep records

  lemma CellsRight(b: BlockRung)
    ensures RightOfRail(Cells(b)) && Cells(b) != []
    ensures forall c :: c in Cells(b) && c.element.Block? ==> c == BlockCell(b)
    ensures BlockCell(b) in Cells(b)
  {
    hide DrawNet, DrawRung, NetWidth, RungWidth, NetHeight, RungHeight;
    PartsFit(b);
    forall c | c in Cells(b) ensures End(c) > 0 && (c.element.Block? ==> c == BlockCell(b)) {
      assert c in DrawNet(b.net, 0, 0) || c == BlockCell(b) || c in DrawRung(b.rest, 0, Behind(b));
    }
  }

  lemma OneBlock(cells: seq<Cell>, p: seq<Cell>, c: Cell, q: seq<Cell>)
    requires cells == p + ([c] + q)
    requires forall d :: d in p || d in q ==> !d.element.Block?
    ensures DistinctBlocks(cells)
  {
    forall i | 0 <= i < |cells| && i != |p| ensures !cells[i].element.Block? {
      assert cells[i] in p || cells[i] in q by { assert cells[i] == if i < |p| then p[i] else q[i - |p| - 1]; }
    }
  }

  /** A sweep records the outputs behind the block as the block's output fires them, and the pin as its network closes. */
  lemma SweepOfBlock(b: BlockRung, env: map<string, bool>, results: map<Key, bool>)
    requires PlainOutputs(b.rest) && Cells(b) != []
    requires Records(BlockDrawing(b, env), MaxEnd(Cells(b)) + 1, 0, results)
    ensures forall key :: key in results <==> key == PinKey(b) || key in RungKeys(b.rest)
    ensures Recorded(results, PinKey(b)) <==> Closes(b.net, env)
    ensures forall key: Key :: !key.Pin? ==> (Recorded(results, key) <==> Fires(b.rest, key, env, Lookup(env, OutputAtom(b))))
  {
    hide DrawNet, DrawRung, NetWidth, RungWidth, NetHeight, RungHeight, Powered, Owns, Closes, Records, Fires, RungKeys, Cells, Energised, Shows, AllFit, DistinctBlocks;
    var g, c := BlockDrawing(b, env), BlockCell(b);
    BlockPowers(b, env);
    CellsRight(b);
    DistinctInDrawing(b);
    PinRows(g, c, results);
    PinShown(b, env, results);
    forall key: Key | !key.Pin?
      ensures Recorded(results, key) <==> Fires(b.rest, key, env, Lookup(env, OutputAtom(b)))
    {
      SweepRecords(g, results, key);
      FiresBehind(b, env, key);
    }
    forall key ensures key in results <==> key == PinKey(b) || key in RungKeys(b.rest) {
      RecordedKeysAreListed(g, results, key);
      NamedKeys(b, env, key);
    }
  }

  lemma DistinctInDrawing(b: BlockRung)
    ensures DistinctBlocks(Cells(b))
  {
    hide DrawNet, DrawRung, NetWidth, RungWidth, DistinctBlocks;
    PartsFit(b);
    OneBlock(Cells(b), DrawNet(b.net, 0, 0), BlockCell(b), DrawRung(b.rest, 0, Behind(b)));
  }

  lemma PinShown(b: BlockRung, env: map<string, bool>, results: map<Key, bool>)
    requires Shows(BlockDrawing(b, env), BlockCell(b), results, FirstInput(b.kind), 0)
    ensures Recorded(results, PinKey(b)) <==> Powered(BlockDrawing(b, env), 0, NetWidth(b.net))
  {
    hide Powered, NetWidth, Cells;
    assert FirstInput(b.kind) in Listed(BlockDrawing(b, env).pins, b.name);
  }

  lemma FiresBehind(b: BlockRung, env: map<string, bool>, key: Key)
    requires PlainOutputs(b.rest)
    ensures Energised(BlockDrawing(b, env), Cells(b), key) <==> Fires(b.rest, key, env, Powered(BlockDrawing(b, env), 0, Behind(b)))
  {
    hide DrawNet, DrawRung, NetWidth, RungWidth, NetHeight, RungHeight, Powered, Owns, Fires, AllFit, Uses;
    var g, front, back := BlockDrawing(b, env), DrawNet(b.net, 0, 0), DrawRung(b.rest, 0, Behind(b));
    PartsOwned(b, env);
    RungPower(b.rest, g, Back(b), key);
    NetUses(b.net, 0, 0);
    SilentNotEnergised(g, front, NetAtoms(b.net), key);
    EnergisedBoth(g, [BlockCell(b)], back, key);
    EnergisedBoth(g, front, [BlockCell(b)] + back, key);
    assert !Energised(g, [BlockCell(b)], key);
  }

  lemma NamedKeys(b: BlockRung, env: map<string, bool>, key: Key)
    requires PlainOutputs(b.rest)
    ensures (exists c :: c in Cells(b) && End(c) >= 0 && NamesKey(BlockDrawing(b, env), c, key))
      <==> key == PinKey(b) || key in RungKeys(b.rest)
  {
    hide DrawNet, DrawRung, NetWidth, RungKeys, NetAtoms;
    var g := BlockDrawing(b, env);
    CellsRight(b);
    NetUses(b.net, 0, 0);
    RungUses(b.rest, Back(b));
    if key in RungKeys(b.rest) {
      var c := OutputsDrawn(b.rest, 0, Behind(b), key);
      assert c in Cells(b) && NamesKey(g, c, key);
    }
    if key == PinKey(b) {
      assert BlockCell(b) in Cells(b) && NamesKey(g, BlockCell(b), key);
    }
    if c :| c in Cells(b) && End(c) >= 0 && NamesKey(g, c, key) {
      assert c in DrawNet(b.net, 0, 0) || c == BlockCell(b) || c in DrawRung(b.rest, 0, Behind(b));
    }
  }

  // ----- The program

  /** The network, the pin it feeds, the output that is loaded, and what that drives. */
  function BlockProgram(b: BlockRung): seq<IL.Instr> {
    [IL.Logic(IL.Load, OperandOf(FirstContact(b.net)))]
    + (NetTail(b.net)
       + ([IL.Feed(b.name, FirstInput(b.kind))] + ([IL.Logic(IL.Load, IL.Operand(OutputAtom(b), false))] + Code(b.rest))))
  }

  lemma OutputIsNoConstant(b: BlockRung)
    ensures !IL.IsConstant(OutputAtom(b))
  {
    assert OutputAtom(b)[0] == 'o';
  }

  lemma BlockProgramRecords(b: BlockRung, env: map<string, bool>) returns (m: IL.Machine)
    requires Readable(b.net, env, map[]) && RungReadable(b.rest, env, {}) && OutputAtom(b) in env
    ensures IL.Exec(BlockProgram(b), env, IL.Start) == Success(m)
    ensures m.results.Keys == {PinKey(b)} + RungKeys(b.rest)
    ensures forall key :: Recorded(m.results, key) <==>
      (key == PinKey(b) && Closes(b.net, env)) || Runs(b.rest, key, env, map[], Lookup(env, OutputAtom(b)))
  {
    hide Closes, Readable, RungReadable, IL.Exec, NetTail, Code, RungKeys, OutputAtom, Runs, RungKept;
    assert IL.Start.mem.Keys == {} && env + map[] == env;
    FirstReadable(b.net, env, IL.Start);
    OutputIsNoConstant(b);
    var load, feed, read := IL.Logic(IL.Load, OperandOf(FirstContact(b.net))), IL.Feed(b.name, FirstInput(b.kind)),
                            IL.Logic(IL.Load, IL.Operand(OutputAtom(b), false));
    var loaded := IL.Start.(acc := Holds(FirstContact(b.net), env));
    var closed := loaded.(acc := Closes(b.net, env));
    var fed := closed.(results := map[PinKey(b) := closed.acc]);
    var on := fed.(acc := env[OutputAtom(b)]);
    assert IL.Step(load, env, IL.Start) == Success(loaded);
    assert IL.Step(feed, env, closed) == Success(fed);
    assert IL.Step(read, env, fed) == Success(on);
    IL.ExecCons(load, NetTail(b.net) + ([feed] + ([read] + Code(b.rest))), env, IL.Start);
    TailComputes(b.net, env, loaded);
    IL.ExecAppend(NetTail(b.net), [feed] + ([read] + Code(b.rest)), env, loaded);
    IL.ExecCons(feed, [read] + Code(b.rest), env, closed);
    IL.ExecCons(read, Code(b.rest), env, fed);
    m := CodeRecords(b.rest, env, on);
  }

  /** Sweeping the drawing and running the program record the same map. */
  lemma BlockGridMatchesProgram(b: BlockRung, env: map<string, bool>, swept: map<Key, bool>) returns (m: IL.Machine)
    requires Readable(b.net, env, map[]) && RungReadable(b.rest, env, {}) && NoReadBack(b.rest, {}) && OutputAtom(b) in env
    requires Cells(b) != [] && Records(BlockDrawing(b, env), MaxEnd(Cells(b)) + 1, 0, swept)
    ensures IL.Exec(BlockProgram(b), env, IL.Start) == Success(m)
    ensures m.results == swept
  {
    hide Closes, Readable, RungReadable, IL.Exec, BlockProgram, RungKeys, OutputAtom, Runs, Fires, Records, Cells, NoReadBack;
    PlainWhenReadable(b.rest, env);
    m := BlockProgramRecords(b, env);
    SweepOfBlock(b, env, swept);
    var none: map<string, bool> := map[];
    assert none.Keys == {};
    forall key | key in swept ensures m.results[key] == swept[key] {
      RunsFires(b.rest, key, env, none, Lookup(env, OutputAtom(b)));
      if key.Pin? {
        PinsDoNotRun(b.rest, key, env, none, Lookup(env, OutputAtom(b)));
      }
      assert Recorded(m.results, key) == Recorded(swept, key);
    }
  }

  lemma {:induction false} PinsDoNotRun(rung: Rung, key: Key, env: map<string, bool>, mem: map<string, bool>, power: bool)
    requires PlainOutputs(rung) && key.Pin?
    ensures !Runs(rung, key, env, mem, power) && key !in RungKeys(rung)
    decreases rung
  {
    hide Closes, Passes, RungKept;
    match rung
    case Out(_) =>
    case Then(net, rest) => PinsDoNotRun(rest, key, env, mem, power && Closes(net, env + mem));
    case Pass(stage, rest) => PinsDoNotRun(rest, key, env, StageKept(stage, mem, power), Passes(stage, env + mem, power));
    case Fork(upper, lower) =>
      PinsDoNotRun(upper, key, env, mem, power);
      PinsDoNotRun(lower, key, env, RungKept(upper, env, mem, power), power);
  }

  /** Nor does the sweep stop early, once all names are defined. */
  lemma BlockDrawingSound(b: BlockRung, env: map<string, bool>)
    requires PlainOutputs(b.rest) && NetAtoms(b.net) + RungAtoms(b.rest) <= env.Keys && OutputAtom(b) in env
    ensures Cells(b) != [] && !AnyFault(BlockDrawing(b, env))
  {
    hide DrawNet, DrawRung, NetWidth, Powered, RungKeys;
    var g := BlockDrawing(b, env);
    CellsRight(b);
    NetUses(b.net, 0, 0);
    RungUses(b.rest, Back(b));
    forall c | c in g.cells ensures !Faulty(g, c) {
      assert c in DrawNet(b.net, 0, 0) || c == BlockCell(b) || c in DrawRung(b.rest, 0, Behind(b));
      if c == BlockCell(b) { BlockFaults(g, c); }
    }
  }
}
