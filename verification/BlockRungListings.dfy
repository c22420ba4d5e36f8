/** The listing of a rung with a function block, and the comparison of its two stored forms. */
module BlockRungListings {
  import opened Wrappers
  import opened RungOutputs
  import opened LadderGrid
  import opened ContactRungs
  import opened RungPrograms
  import opened RungDrawings
  import opened RungEquivalence
  import opened BlockRungs
  import IL = InstructionList
  import Text = IlParser

  // ----- Lines that read alike inside and outside a block

  /** No pin, no block line and, behind OUT_BLK, no operand that would name an output of the block. */
  predicate Unaffected(line: Text.Line, afterOut: bool) {
    line.Words? ==>
      match line.word
      case Block => false
      case OutBlock => false
      case EndBlock => false
      case RisingBlock => line.arg != "" || afterOut
      case Writing(_) => line.arg != "" || afterOut
      case Logical(op, _, grouping) => line.arg != "" && (afterOut ==> Anywhere(Text.Unmarked(Text.OperandText(op, grouping, line.arg))))
      case Unknown => false
      case _ => true
  }

  predicate Anywhere(text: string) {
    IL.IsConstant(text) || "[" <= text || "%" <= text
  }

  function Placed(r: Text.Reader, name: string, afterOut: bool): Text.Reader {
    r.(block := name, afterOut := afterOut)
  }

  lemma LineInBlock(r: Text.Reader, name: string, afterOut: bool, line: Text.Line)
    requires r.block == "" && name != "" && Unaffected(line, afterOut)
    ensures Text.ReadLine(r, line).Success? && Text.ReadLine(r, line).value.block == ""
    ensures Text.ReadLine(Placed(r, name, afterOut), line) == Success(Placed(Text.ReadLine(r, line).value, name, afterOut))
  {
  }

  lemma {:induction false} LinesInBlock(r: Text.Reader, name: string, afterOut: bool, lines: seq<Text.Line>)
    requires r.block == "" && name != "" && forall k :: 0 <= k < |lines| ==> Unaffected(lines[k], afterOut)
    ensures Text.ReadLines(r, lines).Success? && Text.ReadLines(r, lines).value.block == ""
    ensures Text.ReadLines(Placed(r, name, afterOut), lines) == Success(Placed(Text.ReadLines(r, lines).value, name, afterOut))
    decreases lines
  {
    hide Text.ReadLine, Unaffected;
    if lines != [] {
      LineInBlock(r, name, afterOut, lines[0]);
      LinesInBlock(Text.ReadLine(r, lines[0]).value, name, afterOut, lines[1..]);
    }
  }

  predicate AllUnaffected(lines: seq<Text.Line>, afterOut: bool) {
    forall k :: 0 <= k < |lines| ==> Unaffected(lines[k], afterOut)
  }

  lemma UnaffectedBoth(p: seq<Text.Line>, q: seq<Text.Line>, afterOut: bool)
    requires AllUnaffected(p, afterOut) && AllUnaffected(q, afterOut)
    ensures AllUnaffected(p + q, afterOut)
  {
  }

  /** A contact whose line is an operand in the block; behind OUT_BLK its name starts with `%`. */
  predicate Operand(contact: Contact, afterOut: bool) {
    contact.kind.Compare? || (contact.name != "" && (afterOut ==> "%" <= contact.name))
  }

  predicate NetOperands(net: Net, afterOut: bool) {
    match net
    case Leaf(contact) => Operand(contact, afterOut)
    case Series(p, q) => NetOperands(p, afterOut) && NetOperands(q, afterOut)
    case Parallel(p, q) => NetOperands(p, afterOut) && NetOperands(q, afterOut)
  }

  predicate RungOperands(rung: Rung) {
    match rung
    case Out(_) => true
    case Then(net, rest) => NetOperands(net, true) && RungOperands(rest)
    case Pass(stage, rest) => (stage.Differ? ==> "%" <= stage.name) && RungOperands(rest)
    case Fork(upper, lower) => RungOperands(upper) && RungOperands(lower)
  }

  lemma ContactUnaffected(op: IL.Operator, grouped: bool, contact: Contact, afterOut: bool)
    requires PlainName(contact) && Operand(contact, afterOut)
    ensures Unaffected(ContactLine(op, grouped, contact), afterOut)
  {
    MarksRead(op, grouped, contact);
    assert contact.kind.Compare? ==> "[" <= ArgOf(contact);
  }

  lemma {:induction false} NetUnaffected(net: Net, op: IL.Operator, afterOut: bool)
    requires PlainNet(net) && NetOperands(net, afterOut)
    ensures AllUnaffected(TailLines(net), afterOut) && AllUnaffected(JoinedLines(op, net), afterOut)
    ensures forall first: IL.Operator, grouped :: Unaffected(ContactLine(first, grouped, FirstContact(net)), afterOut)
  {
    hide ContactLine, Unaffected, PlainName, Operand;
    if net.Leaf? {
      forall first: IL.Operator, grouped ensures Unaffected(ContactLine(first, grouped, net.contact), afterOut) {
        ContactUnaffected(first, grouped, net.contact, afterOut);
      }
    } else {
      var inner, p, q := if net.Series? then IL.And else IL.Or,
                         if net.Series? then net.first else net.top,
                         if net.Series? then net.second else net.bottom;
      NetUnaffected(p, op, afterOut);
      NetUnaffected(q, inner, afterOut);
      UnaffectedBoth(TailLines(p), JoinedLines(inner, q), afterOut);
      assert FirstContact(net) == FirstContact(p);
      assert Unaffected(ContactLine(op, true, FirstContact(p)), afterOut);
      CloseUnaffected(afterOut);
      UnaffectedBoth(TailLines(net), [Text.CloseLine], afterOut);
      UnaffectedBoth([ContactLine(op, true, FirstContact(net))], TailLines(net) + [Text.CloseLine], afterOut);
    }
  }

  lemma CloseUnaffected(afterOut: bool)
    ensures AllUnaffected([Text.CloseLine], afterOut)
  {
  }

  lemma StageUnaffected(stage: Stage)
    requires (stage.Differ? ==> PlainOperand(stage.name) && "%" <= stage.name) && (stage.Drive? ==> !stage.key.Pin?)
    ensures AllUnaffected([StageLine(stage)], true)
  {
  }

  lemma OutUnaffected(key: Key)
    ensures AllUnaffected([OutLine(key)], true)
  {
  }

  lemma MarksUnaffected()
    ensures AllUnaffected([Text.Words(Text.SaveAcc, "", "")], true)
    ensures AllUnaffected([Text.Words(Text.ReadAcc, "", "")], true)
    ensures AllUnaffected([Text.Words(Text.RestoreAcc, "", "")], true)
  {
  }

  lemma {:induction false} RungUnaffected(rung: Rung)
    requires PlainRung(rung) && PlainOutputs(rung) && RungOperands(rung)
    ensures AllUnaffected(RungLines(rung), true) && AllUnaffected(LowerLines(rung), true)
  {
    hide AllUnaffected, JoinedLines, NetOperands, PlainNet, StageLine;
    MarksUnaffected();
    match rung {
      case Out(key) => OutUnaffected(key);
      case Then(net, rest) =>
        NetUnaffected(net, IL.And, true);
        RungUnaffected(rest);
        UnaffectedBoth(JoinedLines(IL.And, net), RungLines(rest), true);
      case Pass(stage, rest) =>
        StageUnaffected(stage);
        RungUnaffected(rest);
        UnaffectedBoth([StageLine(stage)], RungLines(rest), true);
      case Fork(upper, lower) =>
        RungUnaffected(upper);
        RungUnaffected(lower);
        UnaffectedBoth(RungLines(upper), LowerLines(lower), true);
        UnaffectedBoth([Text.Words(Text.SaveAcc, "", "")], RungLines(upper) + LowerLines(lower), true);
        UnaffectedBoth([Text.Words(Text.ReadAcc, "", "")], RungLines(upper) + LowerLines(lower), true);
    }
    if !rung.Fork? {
      UnaffectedBoth([Text.Words(Text.RestoreAcc, "", "")], RungLines(rung), true);
    }
  }

  // ----- The whole listing

  function NetLines(net: Net): seq<Text.Line> {
    [ContactLine(IL.Load, false, FirstContact(net))] + TailLines(net)
  }

  function PinLines(b: BlockRung): seq<Text.Line> {
    [Text.Words(Text.Unknown, FirstInput(b.kind), ""), Text.Words(Text.OutBlock, "OUT_BLK", ""),
     Text.Words(Text.Logical(IL.Load, Text.NoModifier, Text.NoGroup), "LD", FirstOutput(b.kind))]
  }

  /** BLK, the network, the pin it feeds, OUT_BLK, the output and what it drives, END_BLK. */
  function BlockListing(b: BlockRung): seq<Text.Line> {
    [Text.Words(Text.Block, "BLK", b.name)]
    + (NetLines(b.net) + (PinLines(b) + (RungLines(b.rest) + [Text.Words(Text.EndBlock, "END_BLK", "")])))
  }

  /** A rung that both forms can spell, with a named block and operands that are none of its outputs. */
  predicate Spellable(b: BlockRung) {
    b.name != "" && PlainNet(b.net) && NetOperands(b.net, false) && Comparable(b.rest) && RungOperands(b.rest)
  }

  function NetCode(net: Net): seq<IL.Instr> {
    [IL.Logic(IL.Load, OperandOf(FirstContact(net)))] + NetTail(net)
  }

  function PinCode(b: BlockRung): seq<IL.Instr> {
    [IL.Feed(b.name, FirstInput(b.kind)), IL.Logic(IL.Load, IL.Operand(OutputAtom(b), false))]
  }

  lemma NetInBlock(b: BlockRung)
    requires Spellable(b)
    ensures Text.ReadLines(Placed(Text.Fresh, b.name, false), NetLines(b.net))
         == Success(Placed(Emitted(Text.Fresh, NetCode(b.net), NetAtoms(b.net), {}), b.name, false))
  {
    hide Text.ReadLines, TailLines, NetTail, NetAtoms, PlainNet, NetOperands, AllUnaffected, Unaffected, ContactLine;
    NetUnaffected(b.net, IL.Load, false);
    LineAlone(ContactLine(IL.Load, false, FirstContact(b.net)), false);
    UnaffectedBoth([ContactLine(IL.Load, false, FirstContact(b.net))], TailLines(b.net), false);
    UnaffectedEach(NetLines(b.net), false);
    LinesInBlock(Text.Fresh, b.name, false, NetLines(b.net));
    NetRead(b.net);
  }

  lemma LineAlone(line: Text.Line, afterOut: bool)
    requires Unaffected(line, afterOut)
    ensures AllUnaffected([line], afterOut)
  {
  }

  lemma UnaffectedEach(lines: seq<Text.Line>, afterOut: bool)
    requires AllUnaffected(lines, afterOut)
    ensures forall k :: 0 <= k < |lines| ==> Unaffected(lines[k], afterOut)
  {
  }

  /** The pin and the output in the middle of the block. */
  lemma PinsRead(b: BlockRung, r: Text.Reader) returns (r': Text.Reader)
    requires b.name != "" && r.block == b.name && !r.afterOut && r.written == {} && r.pins == map[] && r.outs == map[]
    ensures Text.ReadLines(r, PinLines(b)) == Success(r')
    ensures r' == r.(program := r.program + PinCode(b), atoms := r.atoms + {OutputAtom(b)}, afterOut := true,
                     pins := map[b.name := [FirstInput(b.kind)]], outs := map[b.name := [FirstOutput(b.kind)]])
  {
    var pin, out, load := PinLines(b)[0], PinLines(b)[1], PinLines(b)[2];
    PlainPins(b);
    OutputIsNoConstant(b);
    var fed := r.(program := r.program + [PinCode(b)[0]], pins := map[b.name := [FirstInput(b.kind)]]);
    var turned := fed.(afterOut := true);
    r' := turned.(program := turned.program + [PinCode(b)[1]], atoms := r.atoms + {OutputAtom(b)},
                  outs := map[b.name := [FirstOutput(b.kind)]]);
    FirstListed(b.name, FirstInput(b.kind));
    FirstListed(b.name, FirstOutput(b.kind));
    assert Text.ReadLine(r, pin) == Success(fed);
    assert Text.ReadLine(fed, out) == Success(turned);
    assert Text.ReadLine(turned, load) == Success(r') by {
      assert Text.AtomOf(turned, Text.NoModifier, FirstOutput(b.kind)) == OutputAtom(b);
    }
    Text.ReadCons(r, pin, [out, load]);
    Text.ReadCons(fed, out, [load]);
    Text.ReadOne(turned, load);
    assert PinLines(b) == [pin] + [out, load] && [out, load] == [out] + [load];
    assert r.program + [PinCode(b)[0]] + [PinCode(b)[1]] == r.program + PinCode(b);
  }

  lemma FirstListed(name: string, item: string)
    ensures Text.Appended(map[], name, item) == map[name := [item]]
  {
    var none: map<string, seq<string>> := map[];
    assert Listed(none, name) + [item] == [item];
  }

  lemma PlainPins(b: BlockRung)
    ensures var out := FirstOutput(b.kind); !IL.IsConstant(out) && !("[" <= out) && !("%" <= out) && !("N " <= out)
  {
    assert FirstOutput(b.kind)[0] in "QEFD" && 'Q' in "QEFD" && 'E' in "QEFD" && 'F' in "QEFD" && 'D' in "QEFD";
  }

  /** Parsing the listing gives the block's program, its names, and the wiring of the drawing. */
  lemma BlockListingParses(b: BlockRung) returns (r: Text.Reader)
    requires Spellable(b)
    ensures Text.ReadLines(Text.Fresh, BlockListing(b)) == Success(r)
    ensures r.program == BlockProgram(b)
    ensures r.atoms == NetAtoms(b.net) + {OutputAtom(b)} + InputAtoms(b.rest, {})
    ensures r.pins == BlockDrawing(b, map[]).pins && r.outs == BlockDrawing(b, map[]).outs
  {
    hide Text.ReadLines, NetLines, PinLines, RungLines, NetCode, PinCode, Code, NetAtoms, InputAtoms, Targets, OutputAtom, Cells,
      RungOperands, PlainRung, PlainOutputs, PlainNet, NetOperands, AllUnaffected;
    var start, stop := Text.Words(Text.Block, "BLK", b.name), Text.Words(Text.EndBlock, "END_BLK", "");
    var none: set<string> := {};
    var inside := Placed(Text.Fresh, b.name, false);
    var loaded := Placed(Emitted(Text.Fresh, NetCode(b.net), NetAtoms(b.net), none), b.name, false);
    NetInBlock(b);
    var pinned := PinsRead(b, loaded);
    var outside := Placed(pinned, "", true);
    RungRead(outside, b.rest);
    RungUnaffected(b.rest);
    UnaffectedEach(RungLines(b.rest), true);
    LinesInBlock(outside, b.name, true, RungLines(b.rest));
    var driven := Placed(Emitted(outside, Code(b.rest), InputAtoms(b.rest, none), Targets(b.rest)), b.name, true);
    r := Placed(driven, "", true);
    var last := RungLines(b.rest) + [stop];
    Text.ReadCons(Text.Fresh, start, NetLines(b.net) + (PinLines(b) + last));
    Text.ReadAppend(inside, NetLines(b.net), PinLines(b) + last);
    Text.ReadAppend(loaded, PinLines(b), last);
    Text.ReadAppend(pinned, RungLines(b.rest), [stop]);
    Text.ReadOne(driven, stop);
    CodeParts(b);
    assert [] + NetCode(b.net) + PinCode(b) + Code(b.rest) == NetCode(b.net) + (PinCode(b) + Code(b.rest));
    assert none + NetAtoms(b.net) == NetAtoms(b.net);
  }

  lemma CodeParts(b: BlockRung)
    ensures BlockProgram(b) == NetCode(b.net) + (PinCode(b) + Code(b.rest))
  {
    hide Code, NetTail, OutputAtom;
  }
}
