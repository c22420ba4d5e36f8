/** A rung's grid drawing and its Instruction List text drive every output alike. */
module RungEquivalence {
  import opened Wrappers
  import opened RungOutputs
  import opened LadderGrid
  import opened ContactRungs
  import opened RungPrograms
  import opened RungDrawings
  import IL = InstructionList
  import Text = IlParser

  /** Both evaluators, on the two stored forms of a rung, record the same map of outputs. */
  lemma GridMatchesProgram(rung: Rung, env: map<string, bool>, swept: map<Key, bool>) returns (m: IL.Machine)
    requires RungReadable(rung, env, {}) && NoReadBack(rung, {})
    requires Drawing(rung, env).cells != []
    requires Records(Drawing(rung, env), MaxEnd(Drawing(rung, env).cells) + 1, 0, swept)
    ensures IL.Exec(Program(rung), env, IL.Start) == Success(m)
    ensures m.results == swept
  {
    hide Records, DrawRung, Fires, Runs, RungKept, IL.Exec, NoReadBack, RungReadable;
    PlainWhenReadable(rung, env);
    m := ProgramRecords(rung, env);
    var none: map<string, bool> := map[];
    assert none.Keys == {};
    DrawingKeys(rung, env, swept);
    forall key | key in swept ensures m.results[key] == swept[key] {
      NoPins(rung, key);
      DrawingRecords(rung, env, swept, key);
      RunsFires(rung, key, env, none, true);
      assert Recorded(m.results, key) == Recorded(swept, key);
    }
  }

  lemma {:induction false} NoPins(rung: Rung, key: Key)
    requires PlainOutputs(rung) && key in RungKeys(rung)
    ensures !key.Pin?
  {
    match rung
    case Out(_) =>
    case Then(_, rest) => NoPins(rest, key);
    case Pass(_, rest) => if key in RungKeys(rest) { NoPins(rest, key); }
    case Fork(upper, lower) => if key in RungKeys(upper) { NoPins(upper, key); } else { NoPins(lower, key); }
  }

  // ----- The program as text

  function ModifierOf(contact: Contact): Text.Modifier {
    match contact.kind
    case NegatedInput => Text.Inverted
    case Rising => Text.Rising
    case Falling => Text.Falling
    case _ => Text.NoModifier
  }

  function ArgOf(contact: Contact): string {
    if contact.kind.Compare? then "[" + contact.name + "]" else contact.name
  }

  /** One contact as a line; a negated contact that opens a group is written `AND(N x`. */
  function ContactLine(op: IL.Operator, grouped: bool, contact: Contact): Text.Line {
    var grouping := if !grouped then Text.NoGroup
                    else if contact.kind.NegatedInput? then Text.InvertedGroup else Text.Group;
    var modifier := if grouping == Text.InvertedGroup then Text.NoModifier else ModifierOf(contact);
    Text.Words(Text.Logical(op, modifier, grouping), "", ArgOf(contact))
  }

  function TailLines(net: Net): seq<Text.Line>
    decreases net, 0
  {
    match net
    case Leaf(_) => []
    case Series(a, b) => TailLines(a) + JoinedLines(IL.And, b)
    case Parallel(a, b) => TailLines(a) + JoinedLines(IL.Or, b)
  }

  function JoinedLines(op: IL.Operator, net: Net): seq<Text.Line>
    decreases net, 1
  {
    if net.Leaf? then [ContactLine(op, false, net.contact)]
    else [ContactLine(op, true, FirstContact(net))] + (TailLines(net) + [Text.CloseLine])
  }

  function OutLine(key: Key): Text.Line {
    match key
    case Write(kind, target) => Text.Words(Text.Writing(kind), "", target)
    case Operation(expr) => Text.Bracketed(expr)
    case Pin(_, _) => Text.Blank
  }

  function StageLine(stage: Stage): Text.Line {
    match stage
    case Invert => Text.Words(Text.Invert, "", "")
    case Differ(name) => Text.Words(Text.Logical(IL.Xor, Text.NoModifier, Text.NoGroup), "", name)
    case Drive(key) => OutLine(key)
    case Assign(expr) => Text.Bracketed(expr)
  }

  function RungLines(rung: Rung): seq<Text.Line>
    decreases rung, 1
  {
    match rung
    case Out(key) => [OutLine(key)]
    case Then(net, rest) => JoinedLines(IL.And, net) + RungLines(rest)
    case Pass(stage, rest) => [StageLine(stage)] + RungLines(rest)
    case Fork(upper, lower) => [Text.Words(Text.SaveAcc, "", "")] + (RungLines(upper) + LowerLines(lower))
  }

  function LowerLines(rung: Rung): seq<Text.Line>
    decreases rung, 2
  {
    if rung.Fork? then [Text.Words(Text.ReadAcc, "", "")] + (RungLines(rung.upper) + LowerLines(rung.lower))
    else [Text.Words(Text.RestoreAcc, "", "")] + RungLines(rung)
  }

  function Listing(rung: Rung): seq<Text.Line> {
    if rung.Then? then [ContactLine(IL.Load, false, FirstContact(rung.net))] + (TailLines(rung.net) + RungLines(rung.rest))
    else [Text.Words(Text.Logical(IL.Load, Text.NoModifier, Text.NoGroup), "", "1")] + RungLines(rung)
  }

  predicate IsAssignment(text: string) {
    exists k :: 0 <= k < |text| - 1 && text[k] == ':' && text[k + 1] == '='
  }

  /**
   * A comparison that is no assignment, or an operand that is neither an expression, a constant
   * nor led by the inversion mark.
   */
  predicate PlainName(contact: Contact) {
    if contact.kind.Compare? then !IsAssignment(contact.name) else PlainOperand(contact.name)
  }

  predicate PlainOperand(name: string) {
    !("[" <= name) && !("N " <= name) && !IL.IsConstant(name)
  }

  predicate PlainNet(net: Net) {
    match net
    case Leaf(contact) => PlainName(contact)
    case Series(a, b) => PlainNet(a) && PlainNet(b)
    case Parallel(a, b) => PlainNet(a) && PlainNet(b)
  }

  predicate PlainRung(rung: Rung) {
    match rung
    case Out(_) => true
    case Then(net, rest) => PlainNet(net) && PlainRung(rest)
    case Pass(stage, rest) => (stage.Differ? ==> PlainOperand(stage.name)) && PlainRung(rest)
    case Fork(upper, lower) => PlainRung(upper) && PlainRung(lower)
  }

  /** Reader `r` after emitting `code`, with the atoms and targets it mentions. */
  function Emitted(r: Text.Reader, code: seq<IL.Instr>, atoms: set<string>, targets: set<string>): Text.Reader {
    r.(program := r.program + code, atoms := r.atoms + atoms, written := r.written + targets)
  }

  lemma ContactRead(r: Text.Reader, op: IL.Operator, grouped: bool, contact: Contact)
    requires r.block == "" && PlainName(contact)
    ensures Text.ReadLine(r, ContactLine(op, grouped, contact))
         == Success(Emitted(r, [if grouped then IL.Open(op, OperandOf(contact)) else IL.Logic(op, OperandOf(contact))],
                            {AtomName(contact)} - r.written, {}))
  {
    hide Text.AtomOf, Text.OperandText, Text.Unmarked, Text.IsInverted, Text.NamesBlockOutput, ArgOf, PlainName, AtomName, IL.IsConstant;
    var word, arg := ContactLine(op, grouped, contact).word, ArgOf(contact);
    MarksRead(op, grouped, contact);
    NotConstant(contact);
    AtomRead(r, op, grouped, contact);
    var r' := Text.ReadLogical(r, op, word.modifier, word.grouping, arg);
    assert r'.atoms == r.atoms + ({AtomName(contact)} - r.written) && r.written + {} == r.written;
  }

  /** Outside a block the text of a contact names its atom. */
  lemma AtomRead(r: Text.Reader, op: IL.Operator, grouped: bool, contact: Contact)
    requires r.block == "" && PlainName(contact)
    ensures Text.AtomOf(r, ContactLine(op, grouped, contact).word.modifier, ArgOf(contact)) == AtomName(contact)
    ensures !Text.NamesBlockOutput(r, ArgOf(contact))
  {
    NotConstant(contact);
    assert contact.kind.Compare? ==> "[" <= ArgOf(contact);
  }

  /** The two spellings of an inverted group both come out inverted, and nothing else does. */
  lemma MarksRead(op: IL.Operator, grouped: bool, contact: Contact)
    requires PlainName(contact)
    ensures var word := ContactLine(op, grouped, contact).word;
            var text := Text.OperandText(op, word.grouping, ArgOf(contact));
            && Text.Unmarked(text) == ArgOf(contact)
            && Text.IsInverted(op, word.modifier, word.grouping, text) == contact.kind.NegatedInput?
  {
    var arg := ArgOf(contact);
    assert !("N " <= arg) by {
      if contact.kind.Compare? { assert arg[0] == '['; }
    }
    assert "N " <= "N " + arg && ("N " + arg)[2..] == arg;
  }

  lemma NotConstant(contact: Contact)
    requires PlainName(contact)
    ensures !IL.IsConstant(AtomName(contact)) && !IL.IsConstant(ArgOf(contact))
  {
    match contact.kind
    case Rising => assert AtomName(contact)[0] == 'R';
    case Falling => assert AtomName(contact)[0] == 'F';
    case Compare => assert AtomName(contact)[0] == '[';
    case _ =>
  }

  lemma EmittedTwice(r: Text.Reader, p: seq<IL.Instr>, q: seq<IL.Instr>, a: set<string>, b: set<string>)
    ensures Emitted(Emitted(r, p, a, {}), q, b, {}) == Emitted(r, p + q, a + b, {})
  {
    assert r.program + p + q == r.program + (p + q);
    assert r.atoms + a + b == r.atoms + (a + b);
    assert r.written + {} + {} == r.written + {};
  }

  lemma {:induction false} TailRead(r: Text.Reader, net: Net)
    requires r.block == "" && PlainNet(net)
    requires AtomName(FirstContact(net)) in r.atoms + r.written
    ensures Text.ReadLines(r, TailLines(net)) == Success(Emitted(r, NetTail(net), NetAtoms(net) - r.written, {}))
    decreases net, 0
  {
    if net.Leaf? {
      assert Emitted(r, NetTail(net), NetAtoms(net) - r.written, {}) == r;
    } else {
      var op, a, b := if net.Series? then IL.And else IL.Or,
                      if net.Series? then net.first else net.top,
                      if net.Series? then net.second else net.bottom;
      var between := Emitted(r, NetTail(a), NetAtoms(a) - r.written, {});
      TailRead(r, a);
      assert between.written == r.written;
      JoinedRead(between, op, b);
      Text.ReadAppend(r, TailLines(a), JoinedLines(op, b));
      EmittedTwice(r, NetTail(a), Joined(op, b), NetAtoms(a) - r.written, NetAtoms(b) - r.written);
      assert NetAtoms(a) - r.written + (NetAtoms(b) - r.written) == NetAtoms(net) - r.written;
    }
  }

  lemma FirstPlain(net: Net)
    requires PlainNet(net)
    ensures PlainName(FirstContact(net))
  {
  }

  lemma {:induction false} JoinedRead(r: Text.Reader, op: IL.Operator, net: Net)
    requires r.block == "" && PlainNet(net)
    ensures Text.ReadLines(r, JoinedLines(op, net)) == Success(Emitted(r, Joined(op, net), NetAtoms(net) - r.written, {}))
    decreases net, 2
  {
    FirstPlain(net);
    if net.Leaf? {
      ContactRead(r, op, false, net.contact);
      Text.ReadCons(r, ContactLine(op, false, net.contact), []);
      assert JoinedLines(op, net) == [ContactLine(op, false, net.contact)] + [];
    } else {
      GroupRead(r, op, net);
    }
  }

  lemma {:induction false} GroupRead(r: Text.Reader, op: IL.Operator, net: Net)
    requires !net.Leaf? && r.block == "" && PlainNet(net)
    ensures Text.ReadLines(r, JoinedLines(op, net)) == Success(Emitted(r, Joined(op, net), NetAtoms(net) - r.written, {}))
    decreases net, 1
  {
    hide TailLines, NetTail, NetAtoms, PlainNet, Text.ReadLines, OperandOf;
    FirstPlain(net);
    FirstAtom(net);
    var first := FirstContact(net);
    var open, atom, all := IL.Open(op, OperandOf(first)), {AtomName(first)} - r.written, NetAtoms(net) - r.written;
    var entered := Emitted(r, [open], atom, {});
    var atClose := Emitted(entered, NetTail(net), all, {});
    assert entered.written == r.written;
    ContactRead(r, op, true, first);
    Text.ReadCons(r, ContactLine(op, true, first), TailLines(net) + [Text.CloseLine]);
    TailRead(entered, net);
    Text.ReadAppend(entered, TailLines(net), [Text.CloseLine]);
    Text.ReadOne(atClose, Text.CloseLine);
    EmittedTwice(r, [open], NetTail(net), atom, all);
    EmittedTwice(r, [open] + NetTail(net), [IL.Close], atom + all, {});
    assert [open] + NetTail(net) + [IL.Close] == Joined(op, net);
    assert atom + all + {} == all;
    assert Text.ReadLine(atClose, Text.CloseLine).value == Emitted(atClose, [IL.Close], {}, {});
  }

  // ----- The whole listing

  lemma {:induction false} RungRead(r: Text.Reader, rung: Rung)
    requires r.block == "" && PlainRung(rung) && PlainOutputs(rung)
    ensures Text.ReadLines(r, RungLines(rung)) == Success(Emitted(r, Code(rung), InputAtoms(rung, r.written), Targets(rung)))
    decreases rung, 1
  {
    hide Text.ReadLines, PlainNet, Joined, JoinedLines, NetAtoms;
    match rung
    case Out(key) =>
      Text.ReadOne(r, OutLine(key));
      assert r.atoms + {} == r.atoms && r.written + {} == r.written;
    case Then(net, rest) =>
      var between := Emitted(r, Joined(IL.And, net), NetAtoms(net) - r.written, {});
      JoinedRead(r, IL.And, net);
      assert between.written == r.written;
      RungRead(between, rest);
      Text.ReadAppend(r, JoinedLines(IL.And, net), RungLines(rest));
      EmittedMore(r, Joined(IL.And, net), Code(rest), NetAtoms(net) - r.written, InputAtoms(rest, r.written), {}, Targets(rest));
    case Pass(stage, rest) => PassRead(r, stage, rest);
    case Fork(upper, lower) =>
      var mark := Text.Words(Text.SaveAcc, "", "");
      var marked := Emitted(r, [IL.Push], {}, {});
      Text.ReadCons(r, mark, RungLines(upper) + LowerLines(lower));
      assert Text.ReadLine(r, mark).value == marked;
      BranchRead(r, marked, IL.Push, upper, lower);
  }

  lemma StageRead(r: Text.Reader, stage: Stage)
    requires r.block == "" && (stage.Differ? ==> PlainOperand(stage.name)) && (stage.Drive? ==> !stage.key.Pin?)
    ensures Text.ReadLine(r, StageLine(stage))
         == Success(Emitted(r, [StageCode(stage)], StageAtoms(stage) - r.written, StageTargets(stage)))
  {
    var none: set<string> := {};
    assert r.atoms + (none - r.written) == r.atoms && r.written + none == r.written;
    match stage
    case Invert =>
    case Differ(name) => DifferRead(r, name);
    case Drive(key) =>
    case Assign(_) =>
  }

  lemma DifferRead(r: Text.Reader, name: string)
    requires r.block == "" && PlainOperand(name)
    ensures Text.ReadLine(r, StageLine(Differ(name)))
         == Success(Emitted(r, [StageCode(Differ(name))], {name} - r.written, {}))
  {
    assert "" + name == name && Text.AtomOf(r, Text.NoModifier, name) == name;
    var r' := Text.ReadLogical(r, IL.Xor, Text.NoModifier, Text.NoGroup, name);
    assert r'.atoms == r.atoms + ({name} - r.written) && r.written + {} == r.written;
  }

  lemma {:induction false} PassRead(r: Text.Reader, stage: Stage, rest: Rung)
    requires r.block == "" && PlainRung(Pass(stage, rest)) && PlainOutputs(Pass(stage, rest))
    ensures Text.ReadLines(r, RungLines(Pass(stage, rest)))
         == Success(Emitted(r, Code(Pass(stage, rest)), InputAtoms(Pass(stage, rest), r.written), Targets(Pass(stage, rest))))
    decreases Pass(stage, rest), 0
  {
    hide Text.ReadLines, Text.ReadLine, StageLine, StageCode, StageAtoms, StageTargets;
    var atoms, targets := StageAtoms(stage) - r.written, StageTargets(stage);
    var between := Emitted(r, [StageCode(stage)], atoms, targets);
    StageRead(r, stage);
    Text.ReadCons(r, StageLine(stage), RungLines(rest));
    RungRead(between, rest);
    EmittedMore(r, [StageCode(stage)], Code(rest), atoms, InputAtoms(rest, r.written + targets), targets, Targets(rest));
  }

  /** An upper branch and the branches below it, after the mark that precedes them. */
  lemma {:induction false} BranchRead(r: Text.Reader, marked: Text.Reader, mark: IL.Instr, upper: Rung, lower: Rung)
    requires marked == Emitted(r, [mark], {}, {})
    requires r.block == "" && PlainRung(Fork(upper, lower)) && PlainOutputs(Fork(upper, lower))
    ensures Text.ReadLines(marked, RungLines(upper) + LowerLines(lower))
         == Success(Emitted(r, [mark] + (Code(upper) + LowerCode(lower)), InputAtoms(Fork(upper, lower), r.written),
                            Targets(Fork(upper, lower))))
    decreases Fork(upper, lower), 0
  {
    hide Text.ReadLines, RungLines, LowerLines, Code, LowerCode;
    assert marked.written == r.written;
    var first, second := InputAtoms(upper, r.written), InputAtoms(lower, r.written + Targets(upper));
    var between := Emitted(marked, Code(upper), first, Targets(upper));
    RungRead(marked, upper);
    assert between.written == r.written + Targets(upper);
    LowerRead(between, lower);
    Text.ReadAppend(marked, RungLines(upper), LowerLines(lower));
    EmittedMore(r, [mark], Code(upper), {}, first, {}, Targets(upper));
    EmittedMore(r, [mark] + Code(upper), LowerCode(lower), {} + first, second, {} + Targets(upper), Targets(lower));
    assert [mark] + Code(upper) + LowerCode(lower) == [mark] + (Code(upper) + LowerCode(lower));
    assert {} + first + second == InputAtoms(Fork(upper, lower), r.written);
    assert {} + Targets(upper) + Targets(lower) == Targets(Fork(upper, lower));
  }

  lemma {:induction false} LowerRead(r: Text.Reader, rung: Rung)
    requires r.block == "" && PlainRung(rung) && PlainOutputs(rung)
    ensures Text.ReadLines(r, LowerLines(rung)) == Success(Emitted(r, LowerCode(rung), InputAtoms(rung, r.written), Targets(rung)))
    decreases rung, 2
  {
    hide Text.ReadLines, RungLines, Code;
    var mark := Text.Words(if rung.Fork? then Text.ReadAcc else Text.RestoreAcc, "", "");
    var instr := if rung.Fork? then IL.Peek else IL.Pop;
    var marked := Emitted(r, [instr], {}, {});
    assert marked.written == r.written && marked.atoms == r.atoms;
    assert Text.ReadLine(r, mark) == Success(marked);
    if rung.Fork? {
      Text.ReadCons(r, mark, RungLines(rung.upper) + LowerLines(rung.lower));
      BranchRead(r, marked, instr, rung.upper, rung.lower);
    } else {
      Text.ReadCons(r, mark, RungLines(rung));
      RungRead(marked, rung);
      EmittedMore(r, [instr], Code(rung), {}, InputAtoms(rung, r.written), {}, Targets(rung));
      assert {} + InputAtoms(rung, r.written) == InputAtoms(rung, r.written) && {} + Targets(rung) == Targets(rung);
    }
  }

  lemma EmittedMore(
    r: Text.Reader, p: seq<IL.Instr>, q: seq<IL.Instr>, a: set<string>, b: set<string>, s: set<string>, t: set<string>)
    ensures Emitted(Emitted(r, p, a, s), q, b, t) == Emitted(r, p + q, a + b, s + t)
  {
    assert r.program + p + q == r.program + (p + q);
    assert r.atoms + a + b == r.atoms + (a + b);
    assert r.written + s + t == r.written + (s + t);
  }

  /** Parsing a rung's listing yields its program, and as atoms those its contacts do not read back. */
  lemma ListingParses(rung: Rung)
    requires PlainRung(rung) && PlainOutputs(rung)
    ensures Text.ReadLines(Text.Fresh, Listing(rung)).Success?
    ensures Text.ReadLines(Text.Fresh, Listing(rung)).value.program == Program(rung)
    ensures Text.ReadLines(Text.Fresh, Listing(rung)).value.atoms == InputAtoms(rung, {})
  {
    hide Text.ReadLines, Listing, Program, RungLines, Code;
    if rung.Then? {
      ThenParses(rung.net, rung.rest);
    } else {
      FeedParses(rung);
    }
  }

  lemma FeedParses(rung: Rung)
    requires !rung.Then? && PlainRung(rung) && PlainOutputs(rung)
    ensures Text.ReadLines(Text.Fresh, Listing(rung))
         == Success(Emitted(Text.Fresh, Program(rung), InputAtoms(rung, {}), Targets(rung)))
  {
    hide Text.ReadLines, RungLines, Code, InputAtoms, Targets, PlainRung, PlainOutputs;
    var r, line := Text.Fresh, Text.Words(Text.Logical(IL.Load, Text.NoModifier, Text.NoGroup), "", "1");
    var load, atoms := [IL.Logic(IL.Load, IL.Operand("1", false))], InputAtoms(rung, {});
    var loaded := Emitted(r, load, {}, {});
    assert loaded.written == {} && loaded.atoms == {};
    assert Text.ReadLine(r, line) == Success(loaded);
    Text.ReadCons(r, line, RungLines(rung));
    RungRead(loaded, rung);
    EmittedMore(r, load, Code(rung), {}, atoms, {}, Targets(rung));
    assert {} + atoms == atoms && {} + Targets(rung) == Targets(rung);
  }

  lemma ThenParses(net: Net, rest: Rung)
    requires PlainNet(net) && PlainRung(rest) && PlainOutputs(rest)
    ensures Text.ReadLines(Text.Fresh, Listing(Then(net, rest)))
         == Success(Emitted(Text.Fresh, Program(Then(net, rest)), InputAtoms(Then(net, rest), {}), Targets(rest)))
  {
    hide Text.ReadLines, RungLines, TailLines, Code, NetTail, NetAtoms, OperandOf, PlainNet, PlainRung, PlainOutputs, InputAtoms;
    var r, head := Text.Fresh, [ContactLine(IL.Load, false, FirstContact(net))] + TailLines(net);
    var load := [IL.Logic(IL.Load, OperandOf(FirstContact(net)))] + NetTail(net);
    var loaded := Emitted(r, load, NetAtoms(net), {});
    var none: set<string> := {};
    NetRead(net);
    assert loaded.written == none;
    RungRead(loaded, rest);
    Text.ReadAppend(r, head, RungLines(rest));
    assert Listing(Then(net, rest)) == head + RungLines(rest);
    EmittedMore(r, load, Code(rest), NetAtoms(net), InputAtoms(rest, none), {}, Targets(rest));
    assert load + Code(rest) == Program(Then(net, rest));
    ThenAtoms(net, rest);
    assert {} + Targets(rest) == Targets(rest);
  }

  lemma ThenAtoms(net: Net, rest: Rung)
    ensures InputAtoms(Then(net, rest), {}) == NetAtoms(net) + InputAtoms(rest, {})
  {
    hide NetAtoms;
    assert NetAtoms(net) - {} == NetAtoms(net);
  }

  /** The network a rung starts with, loaded into the accumulator. */
  lemma NetRead(net: Net)
    requires PlainNet(net)
    ensures var first := FirstContact(net);
      Text.ReadLines(Text.Fresh, [ContactLine(IL.Load, false, first)] + TailLines(net))
      == Success(Emitted(Text.Fresh, [IL.Logic(IL.Load, OperandOf(first))] + NetTail(net), NetAtoms(net), {}))
  {
    hide Text.ReadLines, TailLines, NetTail, NetAtoms, OperandOf, PlainNet;
    var r, first, none: set<string> := Text.Fresh, FirstContact(net), {};
    var load, atom, all := [IL.Logic(IL.Load, OperandOf(first))], {AtomName(first)}, NetAtoms(net);
    var loaded := Emitted(r, load, atom, {});
    assert r.written == none && loaded.written == none;
    assert atom - none == atom && all - none == all;
    FirstPlain(net);
    FirstAtom(net);
    ContactRead(r, IL.Load, false, first);
    Text.ReadCons(r, ContactLine(IL.Load, false, first), TailLines(net));
    TailRead(loaded, net);
    EmittedTwice(r, load, NetTail(net), atom, all);
    assert atom + all == all;
  }

  // ----- The comparison the checker makes

  /** A rung that both stored forms can spell: its contacts have plain names, its outputs are no pins. */
  predicate Comparable(rung: Rung) {
    PlainRung(rung) && PlainOutputs(rung)
  }

  /** Names that Instruction List can spell are no constants. */
  lemma {:induction false} NoConstantAtoms(rung: Rung)
    requires PlainRung(rung)
    ensures "1" !in RungAtoms(rung) && "0" !in RungAtoms(rung)
  {
    match rung
    case Out(_) =>
    case Then(net, rest) =>
      NoConstantNames(net);
      NoConstantAtoms(rest);
    case Pass(_, rest) => NoConstantAtoms(rest);
    case Fork(upper, lower) =>
      NoConstantAtoms(upper);
      NoConstantAtoms(lower);
  }

  lemma {:induction false} NoConstantNames(net: Net)
    requires PlainNet(net)
    ensures "1" !in NetAtoms(net) && "0" !in NetAtoms(net)
  {
    match net
    case Leaf(contact) => NotConstant(contact);
    case Series(a, b) =>
      NoConstantNames(a);
      NoConstantNames(b);
    case Parallel(a, b) =>
      NoConstantNames(a);
      NoConstantNames(b);
  }

  /** From the parsed text on: unless the rung reads back what it wrote, both evaluators record the same map. */
  lemma SameOutputs(rung: Rung, env: map<string, bool>, parsed: Text.Parsed, swept: map<Key, bool>)
    returns (m: IL.Machine)
    requires Comparable(rung) && NoReadBack(rung, {}) && RungAtoms(rung) <= env.Keys
    requires Text.Reads(Listing(rung), parsed) && Drawing(rung, env).cells != []
    requires Records(Drawing(rung, env), MaxEnd(Drawing(rung, env).cells) + 1, 0, swept)
    ensures parsed.atoms == RungAtoms(rung)
    ensures IL.Exec(parsed.program, env, IL.Start) == Success(m)
    ensures m.results == swept
  {
    hide Records, DrawRung, IL.Exec, Text.ReadLines, NoReadBack, PlainRung, InputAtoms;
    ListingParses(rung);
    NoConstantAtoms(rung);
    InputsAreAtoms(rung, {});
    m := GridMatchesProgram(rung, env, swept);
  }
}
