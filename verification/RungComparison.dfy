/** The checker's verdict on one rung: names compared first, then values under each environment. */
module RungComparison {
  import opened Wrappers
  import opened RungOutputs
  import opened LadderGrid
  import opened GridProperties
  import opened ContactRungs
  import opened RungDrawings
  import opened RungEquivalence
  import IL = InstructionList
  import Text = IlParser

  // ----- No target of the rung is an internal temporary

  /** Nothing reads what was written before it. */
  predicate ReadsUnwritten(p: seq<IL.Instr>, written: set<string>) {
    p == []
    || ((p[0].Logic? || p[0].Open? ==> p[0].arg.atom !in written)
        && ReadsUnwritten(p[1..], if p[0].Store? then written + {p[0].target} else written))
  }

  lemma {:induction false} WrittenNotRead(p: seq<IL.Instr>, written: set<string>, w: int, r: int, target: string)
    requires ReadsUnwritten(p, written) && 0 <= r < |p|
    requires target in written || (0 <= w < r && p[w].Store? && p[w].target == target)
    ensures !Text.ReadsAtom(p[r], target)
  {
    if r > 0 {
      WrittenNotRead(p[1..], if p[0].Store? then written + {p[0].target} else written, w - 1, r - 1, target);
    }
  }

  /** Where a program reads back: instruction `r` reads what was written before, by instruction `w` or earlier still. */
  lemma {:induction false} FindReadBack(p: seq<IL.Instr>, written: set<string>) returns (w: int, r: nat)
    requires !ReadsUnwritten(p, written)
    ensures r < |p| && (p[r].Logic? || p[r].Open?)
    ensures p[r].arg.atom in written || (0 <= w < r && p[w].Store? && p[w].target == p[r].arg.atom)
  {
    if (p[0].Logic? || p[0].Open?) && p[0].arg.atom in written {
      w, r := -1, 0;
    } else {
      var w', r' := FindReadBack(p[1..], if p[0].Store? then written + {p[0].target} else written);
      w, r := w' + 1, r' + 1;
      if !(0 <= w' < r' && p[1..][w'].Store? && p[1..][w'].target == p[r].arg.atom) { w := 0; }
    }
  }

  lemma UnwrittenCons(i: IL.Instr, rest: seq<IL.Instr>, written: set<string>)
    ensures ReadsUnwritten([i] + rest, written) <==>
      && (i.Logic? || i.Open? ==> i.arg.atom !in written)
      && ReadsUnwritten(rest, if i.Store? then written + {i.target} else written)
  {
    assert ([i] + rest)[1..] == rest;
  }

  lemma {:induction false} TailUnwritten(net: Net, rest: seq<IL.Instr>, written: set<string>)
    requires AtomName(FirstContact(net)) !in written
    ensures ReadsUnwritten(NetTail(net) + rest, written) <==> NetAtoms(net) !! written && ReadsUnwritten(rest, written)
    decreases net, 0
  {
    hide ReadsUnwritten;
    match net
    case Leaf(_) => assert NetTail(net) + rest == rest;
    case Series(a, b) =>
      JoinedUnwritten(IL.And, b, rest, written);
      TailUnwritten(a, Joined(IL.And, b) + rest, written);
      assert NetTail(net) + rest == NetTail(a) + (Joined(IL.And, b) + rest);
    case Parallel(a, b) =>
      JoinedUnwritten(IL.Or, b, rest, written);
      TailUnwritten(a, Joined(IL.Or, b) + rest, written);
      assert NetTail(net) + rest == NetTail(a) + (Joined(IL.Or, b) + rest);
  }

  lemma {:induction false} JoinedUnwritten(op: IL.Operator, net: Net, rest: seq<IL.Instr>, written: set<string>)
    ensures ReadsUnwritten(Joined(op, net) + rest, written) <==> NetAtoms(net) !! written && ReadsUnwritten(rest, written)
    decreases net, 1
  {
    hide ReadsUnwritten, NetTail;
    RungPrograms.FirstAtom(net);
    if net.Leaf? {
      UnwrittenCons(IL.Logic(op, OperandOf(net.contact)), rest, written);
    } else {
      var first := FirstContact(net);
      UnwrittenCons(IL.Close, rest, written);
      UnwrittenCons(IL.Open(op, OperandOf(first)), NetTail(net) + ([IL.Close] + rest), written);
      assert Joined(op, net) + rest == [IL.Open(op, OperandOf(first))] + (NetTail(net) + ([IL.Close] + rest));
      if AtomName(first) !in written { TailUnwritten(net, [IL.Close] + rest, written); }
    }
  }

  lemma StageUnwritten(stage: Stage, rest: seq<IL.Instr>, written: set<string>)
    requires stage.Drive? ==> !stage.key.Pin?
    ensures ReadsUnwritten([StageCode(stage)] + rest, written) <==>
      StageAtoms(stage) !! written && ReadsUnwritten(rest, written + StageTargets(stage))
  {
    hide ReadsUnwritten;
    UnwrittenCons(StageCode(stage), rest, written);
    assert written + {} == written;
    if stage.Differ? { assert stage.name !in written <==> {stage.name} !! written; }
  }

  lemma {:induction false} CodeUnwritten(rung: Rung, rest: seq<IL.Instr>, written: set<string>)
    requires PlainOutputs(rung)
    ensures ReadsUnwritten(Code(rung) + rest, written) <==>
      NoReadBack(rung, written) && ReadsUnwritten(rest, written + Targets(rung))
    decreases rung, 1
  {
    hide ReadsUnwritten, Joined, NetAtoms;
    match rung
    case Out(key) =>
      assert key.Operation? ==> written + {} == written;
      UnwrittenCons(OutCode(key), rest, written);
    case Then(net, more) =>
      CodeUnwritten(more, rest, written);
      JoinedUnwritten(IL.And, net, Code(more) + rest, written);
      assert Code(rung) + rest == Joined(IL.And, net) + (Code(more) + rest);
    case Pass(stage, more) =>
      StageUnwritten(stage, Code(more) + rest, written);
      CodeUnwritten(more, rest, written + StageTargets(stage));
      assert written + StageTargets(stage) + Targets(more) == written + Targets(rung);
      assert Code(rung) + rest == [StageCode(stage)] + (Code(more) + rest);
    case Fork(upper, lower) =>
      assert written + Targets(upper) + Targets(lower) == written + Targets(rung);
      LowerUnwritten(lower, rest, written + Targets(upper));
      CodeUnwritten(upper, LowerCode(lower) + rest, written);
      UnwrittenCons(IL.Push, Code(upper) + (LowerCode(lower) + rest), written);
      assert Code(rung) + rest == [IL.Push] + (Code(upper) + (LowerCode(lower) + rest));
  }

  lemma {:induction false} LowerUnwritten(rung: Rung, rest: seq<IL.Instr>, written: set<string>)
    requires PlainOutputs(rung)
    ensures ReadsUnwritten(LowerCode(rung) + rest, written) <==>
      NoReadBack(rung, written) && ReadsUnwritten(rest, written + Targets(rung))
    decreases rung, 2
  {
    hide ReadsUnwritten, Code;
    if rung.Fork? {
      assert written + Targets(rung.upper) + Targets(rung.lower) == written + Targets(rung);
      LowerUnwritten(rung.lower, rest, written + Targets(rung.upper));
      CodeUnwritten(rung.upper, LowerCode(rung.lower) + rest, written);
      UnwrittenCons(IL.Peek, Code(rung.upper) + (LowerCode(rung.lower) + rest), written);
      assert LowerCode(rung) + rest == [IL.Peek] + (Code(rung.upper) + (LowerCode(rung.lower) + rest));
    } else {
      CodeUnwritten(rung, rest, written);
      UnwrittenCons(IL.Pop, Code(rung) + rest, written);
      assert LowerCode(rung) + rest == [IL.Pop] + (Code(rung) + rest);
    }
  }

  /** A rung's program reads something it wrote exactly when a contact of the rung does. */
  lemma ProgramUnwritten(rung: Rung)
    requires PlainOutputs(rung)
    ensures ReadsUnwritten(Program(rung), {}) <==> NoReadBack(rung, {})
  {
    hide ReadsUnwritten, Code, NetTail;
    var part, none: seq<IL.Instr> := if rung.Then? then rung.rest else rung, [];
    NothingRead({} + Targets(part));
    CodeUnwritten(part, none, {});
    assert Code(part) + none == Code(part);
    if rung.Then? {
      TailUnwritten(rung.net, Code(part), {});
      UnwrittenCons(IL.Logic(IL.Load, OperandOf(FirstContact(rung.net))), NetTail(rung.net) + Code(part), {});
    } else {
      UnwrittenCons(IL.Logic(IL.Load, IL.Operand("1", false)), Code(part), {});
    }
  }

  lemma NothingRead(written: set<string>)
    ensures ReadsUnwritten([], written)
  {
  }

  // ----- What a program records

  lemma {:induction false} KeysJoin(p: seq<IL.Instr>, q: seq<IL.Instr>)
    ensures IL.KeysOf(p + q) == IL.KeysOf(p) + IL.KeysOf(q)
  {
    if p == [] {
      assert p + q == q;
    } else {
      assert (p + q)[0] == p[0] && (p + q)[1..] == p[1..] + q;
      KeysJoin(p[1..], q);
    }
  }

  lemma KeysAlone(i: IL.Instr)
    ensures IL.KeysOf([i]) == IL.KeysOne(i)
  {
    assert [i][1..] == [];
  }

  lemma {:induction false} NetKeys(op: IL.Operator, net: Net)
    ensures IL.KeysOf(NetTail(net)) == {} && IL.KeysOf(Joined(op, net)) == {}
    decreases net
  {
    hide IL.KeysOf, IL.KeysOne;
    NoKeys(op, net);
    if !net.Leaf? {
      var inner, a, b := if net.Series? then IL.And else IL.Or,
                         if net.Series? then net.first else net.top,
                         if net.Series? then net.second else net.bottom;
      NetKeys(op, a);
      NetKeys(inner, b);
      KeysJoin(NetTail(a), Joined(inner, b));
      KeysJoin([IL.Open(op, OperandOf(FirstContact(net)))], NetTail(net) + [IL.Close]);
      KeysJoin(NetTail(net), [IL.Close]);
    }
  }

  lemma NoKeys(op: IL.Operator, net: Net)
    ensures IL.KeysOf([]) == {} && IL.KeysOf([IL.Close]) == {}
    ensures IL.KeysOf([IL.Open(op, OperandOf(FirstContact(net)))]) == {}
    ensures IL.KeysOf([IL.Logic(op, OperandOf(FirstContact(net)))]) == {}
  {
    KeysAlone(IL.Close);
    KeysAlone(IL.Open(op, OperandOf(FirstContact(net))));
    KeysAlone(IL.Logic(op, OperandOf(FirstContact(net))));
  }

  lemma {:induction false} CodeKeys(rung: Rung)
    requires PlainOutputs(rung)
    ensures IL.KeysOf(Code(rung)) == RungKeys(rung) && IL.KeysOf(LowerCode(rung)) == RungKeys(rung)
  {
    hide IL.KeysOf, Joined;
    KeysAlone(IL.Push);
    KeysAlone(IL.Peek);
    KeysAlone(IL.Pop);
    KeysJoin([IL.Pop], Code(rung));
    match rung
    case Out(key) => KeysAlone(OutCode(key));
    case Then(net, rest) =>
      NetKeys(IL.And, net);
      CodeKeys(rest);
      KeysJoin(Joined(IL.And, net), Code(rest));
    case Pass(stage, rest) =>
      KeysAlone(StageCode(stage));
      CodeKeys(rest);
      KeysJoin([StageCode(stage)], Code(rest));
    case Fork(upper, lower) =>
      CodeKeys(upper);
      CodeKeys(lower);
      KeysJoin(Code(upper), LowerCode(lower));
      KeysJoin([IL.Push], Code(upper) + LowerCode(lower));
      KeysJoin([IL.Peek], Code(upper) + LowerCode(lower));
  }

  lemma ProgramKeys(rung: Rung)
    requires PlainOutputs(rung)
    ensures IL.KeysOf(Program(rung)) == RungKeys(rung)
  {
    hide IL.KeysOf, Code, NetTail;
    if rung.Then? {
      NetKeys(IL.Load, rung.net);
      NoKeys(IL.Load, rung.net);
      CodeKeys(rung.rest);
      KeysJoin(NetTail(rung.net), Code(rung.rest));
      KeysJoin([IL.Logic(IL.Load, OperandOf(FirstContact(rung.net)))], NetTail(rung.net) + Code(rung.rest));
    } else {
      KeysAlone(IL.Logic(IL.Load, IL.Operand("1", false)));
      CodeKeys(rung);
      KeysJoin([IL.Logic(IL.Load, IL.Operand("1", false))], Code(rung));
    }
  }

  lemma {:induction false} StoreIsKey(p: seq<IL.Instr>, w: nat)
    requires w < |p| && p[w].Store?
    ensures Write(p[w].kind, p[w].target) in IL.KeysOf(p)
  {
    if w > 0 { StoreIsKey(p[1..], w - 1); }
  }

  /** The outputs reported of a program are its keys; all of them exactly when it reads back nothing it has written. */
  lemma OutputsOfProgram(lines: seq<Text.Line>, parsed: Text.Parsed)
    requires Text.Reads(lines, parsed)
    ensures parsed.outputs <= IL.KeysOf(parsed.program)
    ensures parsed.outputs == IL.KeysOf(parsed.program) <==> ReadsUnwritten(parsed.program, {})
  {
    hide Text.ReadLines, IL.KeysOf, ReadsUnwritten;
    if ReadsUnwritten(parsed.program, {}) {
      forall t ensures !Text.IsInternal(parsed.program, t) {
        if Text.IsInternal(parsed.program, t) {
          var w, r :| 0 <= w < r < |parsed.program| && parsed.program[w].Store? && parsed.program[w].target == t
                      && Text.ReadsAtom(parsed.program[r], t);
          WrittenNotRead(parsed.program, {}, w, r, t);
        }
      }
    } else {
      var w, r := FindReadBack(parsed.program, {});
      var i := parsed.program[w];
      StoreIsKey(parsed.program, w);
      assert Text.ReadsAtom(parsed.program[r], i.target) && Text.IsInternal(parsed.program, i.target);
      assert Write(i.kind, i.target) !in parsed.outputs;
    }
  }

  // ----- The names each side reports

  /**
   * What is parsed from a rung's listing: its program, the atoms its contacts do not read back,
   * and its outputs; all of the outputs exactly when no contact reads one back, which would make
   * it an internal temporary.
   */
  lemma ListingNames(rung: Rung, parsed: Text.Parsed)
    requires Comparable(rung) && Text.Reads(Listing(rung), parsed)
    ensures parsed.program == Program(rung) && parsed.atoms == InputAtoms(rung, {}) && parsed.outputs <= RungKeys(rung)
    ensures parsed.outputs == RungKeys(rung) <==> NoReadBack(rung, {})
    ensures NoReadBack(rung, {}) ==> parsed.atoms == RungAtoms(rung)
  {
    hide Text.ReadLines, Listing, Program, NoReadBack, InputAtoms, RungAtoms, RungKeys, IL.KeysOf, ReadsUnwritten;
    ListingParses(rung);
    ProgramUnwritten(rung);
    ProgramKeys(rung);
    OutputsOfProgram(Listing(rung), parsed);
    if NoReadBack(rung, {}) { InputsAreAtoms(rung, {}); }
  }

  /** Every contact of the rung is drawn. */
  lemma {:induction false} AtomsDrawn(net: Net, row: int, col: int, atom: string) returns (c: Cell)
    requires atom in NetAtoms(net)
    ensures c in DrawNet(net, row, col) && Atom(c) == Some(atom)
  {
    hide Joint, Lines, NetWidth, NetHeight;
    match net
    case Leaf(contact) => c := ContactCell(contact, row, col);
    case Series(a, b) =>
      if atom in NetAtoms(a) {
        c := AtomsDrawn(a, row, col, atom);
      } else {
        c := AtomsDrawn(b, row, col + NetWidth(a), atom);
      }
    case Parallel(a, b) =>
      if atom in NetAtoms(a) {
        c := AtomsDrawn(a, row, col + 1, atom);
      } else {
        c := AtomsDrawn(b, row + NetHeight(a), col + 1, atom);
      }
  }

  lemma StageAtomDrawn(stage: Stage, row: int, col: int, atom: string)
    requires atom in StageAtoms(stage)
    ensures Atom(StageCell(stage, row, col)) == Some(atom)
  {
  }

  lemma {:induction false} RungAtomsDrawn(rung: Rung, row: int, col: int, atom: string) returns (c: Cell)
    requires atom in RungAtoms(rung)
    ensures c in DrawRung(rung, row, col) && Atom(c) == Some(atom)
  {
    hide DrawRung, DrawNet, NetAtoms, NetWidth, RungHeight, Joint, Atom, StageWidth, StageCell, StageAtoms;
    var b := Box(row, 0, col, 0);
    match rung
    case Then(net, rest) =>
      DrawnThen(net, rest, b);
      if atom in NetAtoms(net) {
        c := AtomsDrawn(net, row, col, atom);
      } else {
        c := RungAtomsDrawn(rest, row, col + NetWidth(net), atom);
      }
    case Pass(stage, rest) =>
      DrawnPass(stage, rest, b);
      if atom in StageAtoms(stage) {
        StageAtomDrawn(stage, row, col, atom);
        c := StageCell(stage, row, col);
      } else {
        c := RungAtomsDrawn(rest, row, col + StageWidth(stage), atom);
      }
    case Fork(upper, lower) =>
      DrawnFork(upper, lower, b);
      if atom in RungAtoms(upper) {
        c := RungAtomsDrawn(upper, row, col + 1, atom);
      } else {
        c := RungAtomsDrawn(lower, row + RungHeight(upper), col + 1, atom);
      }
  }

  /** What is reported of a rung's drawing: its outputs and its atoms, all but a blank one. */
  lemma DrawingNames(rung: Rung, env: map<string, bool>, atoms: set<string>, keys: set<Key>)
    requires Comparable(rung)
    requires var g := Drawing(rung, env);
      && (forall atom :: atom in atoms <==> exists c :: c in g.cells && NamesAtom(g, c, atom))
      && (forall key :: key in keys <==> exists c :: c in g.cells && NamesKey(g, c, key))
    ensures atoms == RungAtoms(rung) - {""} && keys == RungKeys(rung)
  {
    hide DrawRung, RungAtoms, RungKeys;
    var g := Drawing(rung, env);
    RungUses(rung, Box(0, 0, 0, 0));
    forall atom ensures atom in atoms <==> atom in RungAtoms(rung) - {""} {
      if atom in RungAtoms(rung) && atom != "" {
        var c := RungAtomsDrawn(rung, 0, 0, atom);
        assert NamesAtom(g, c, atom);
      }
    }
    forall key ensures key in keys <==> key in RungKeys(rung) {
      if key in RungKeys(rung) {
        var c := OutputsDrawn(rung, 0, 0, key);
        assert NamesKey(g, c, key);
      }
    }
  }

  lemma NoBlocksDrawn(rung: Rung, env: map<string, bool>)
    requires Comparable(rung)
    ensures !exists c :: c in Drawing(rung, env).cells && !PinsKnown(Drawing(rung, env), c)
  {
    hide DrawRung, RungAtoms, RungKeys;
    RungUses(rung, Box(0, 0, 0, 0));
  }

  // ----- The verdict

  datatype Verdict = Unsupported | NamesDiffer | Differs(key: Key) | Matches

  /**
   * The checker's work on one rung, drawn and listed. Whatever environments it tries, it reports a
   * match, except for a contact with a blank descriptor, which the listing reads as an atom and
   * the drawing's model passes over, and for a contact that reads back a written target, whose
   * output the listing then takes for an internal temporary.
   */
  method CheckRung(rung: Rung, envs: seq<map<string, bool>>) returns (verdict: Verdict)
    requires Comparable(rung) && forall n :: 0 <= n < |envs| ==> RungAtoms(rung) - {""} <= envs[n].Keys
    ensures verdict == if "" in RungAtoms(rung) || !NoReadBack(rung, {}) then NamesDiffer else Matches
  {
    hide *;
    var parsed := Text.ParseIl(Listing(rung));
    if parsed.Failure? {
      assert false by { Parses(rung); }
      return Unsupported;
    }
    var drawn := GridModel(Drawing(rung, map[]));
    if drawn.Failure? {
      assert false by { NoBlocksDrawn(rung, map[]); }
      return Unsupported;
    }
    var atoms, keys := drawn.value.0, drawn.value.1;
    ListingNames(rung, parsed.value);
    DrawingNames(rung, map[], atoms, keys);
    BlankDiffers(RungAtoms(rung));
    if keys != parsed.value.outputs || atoms != parsed.value.atoms { return NamesDiffer; }
    for n := 0 to |envs| {
      var bad := Compare(rung, envs[n], parsed.value, keys);
      match bad {
        case Some(key) => return Differs(key);
        case None =>
      }
    }
    return Matches;
  }

  const BlankRung := Then(Leaf(Contact(Normal, "")), Out(Write(Plain, "Q")))

  /** A rung of one blank contact: its listing reports the blank atom, its drawing does not. */
  lemma BlankContactDiffers(parsed: Text.Parsed, env: map<string, bool>)
    requires Text.Reads(Listing(BlankRung), parsed)
    ensures Comparable(BlankRung) && NoReadBack(BlankRung, {})
    ensures "" in parsed.atoms && forall c :: c in Drawing(BlankRung, env).cells ==> !NamesAtom(Drawing(BlankRung, env), c, "")
  {
    hide Text.ReadLines, Listing;
    assert "" in NetAtoms(Leaf(Contact(Normal, "")));
    ListingNames(BlankRung, parsed);
    RungUses(BlankRung, Box(0, 0, 0, 0));
  }

  const ReadBackRung := Fork(Out(Write(Plain, "M")), Then(Leaf(Contact(Normal, "M")), Out(Write(Plain, "Q"))))

  /** A rung that drives M and, on a second branch, Q through a contact of M: its listing does not report M. */
  lemma ReadBackDiffers(parsed: Text.Parsed)
    requires Text.Reads(Listing(ReadBackRung), parsed)
    ensures Comparable(ReadBackRung) && "" !in RungAtoms(ReadBackRung)
    ensures parsed.outputs < RungKeys(ReadBackRung)
  {
    hide Text.ReadLines, Listing;
    var m := Contact(Normal, "M");
    assert m.name[0] == 'M' && PlainName(m);
    assert "M" in NetAtoms(Leaf(m)) && "M" in {} + Targets(Out(Write(Plain, "M")));
    ListingNames(ReadBackRung, parsed);
  }

  lemma BlankDiffers(atoms: set<string>)
    ensures atoms - {""} == atoms <==> "" !in atoms
  {
  }

  lemma Parses(rung: Rung)
    requires Comparable(rung)
    ensures Text.ReadLines(Text.Fresh, Listing(rung)).Success?
  {
    hide Text.ReadLines, Listing, Program;
    ListingParses(rung);
  }

  /** Both evaluators under one environment: the first output on which they differ, and there is none. */
  method Compare(rung: Rung, env: map<string, bool>, parsed: Text.Parsed, keys: set<Key>) returns (bad: Option<Key>)
    requires Comparable(rung) && NoReadBack(rung, {}) && RungAtoms(rung) <= env.Keys
    requires Text.Reads(Listing(rung), parsed)
    ensures bad == None
  {
    hide *;
    var swept := RunGrid(Drawing(rung, env));
    assert swept.Success? by { NoFault(rung, env); }
    ghost var m := SameOutputs(rung, env, parsed, swept.value);
    var run := IL.RunIl(parsed.program, env);
    assert run.value == swept.value;
    bad := FirstDifference(keys, swept.value, run.value);
  }

  /** Some key under which the two maps differ. */
  method FirstDifference(keys: set<Key>, a: map<Key, bool>, b: map<Key, bool>) returns (bad: Option<Key>)
    ensures bad == None <==> forall key :: key in keys ==> Recorded(a, key) == Recorded(b, key)
    ensures bad.Some? ==> bad.value in keys && Recorded(a, bad.value) != Recorded(b, bad.value)
  {
    var left := keys;
    while left != {}
      invariant left <= keys && forall key :: key in keys && key !in left ==> Recorded(a, key) == Recorded(b, key)
      decreases |left|
    {
      var key := AnyOf(left);
      if Recorded(a, key) != Recorded(b, key) { return Some(key); }
      left := left - {key};
    }
    return None;
  }

  lemma NoFault(rung: Rung, env: map<string, bool>)
    requires Comparable(rung) && RungAtoms(rung) <= env.Keys
    ensures !(Drawing(rung, env).cells == [] || AnyFault(Drawing(rung, env)))
  {
    hide Faulty, DrawRung;
    DrawingSound(rung, env);
  }
}
