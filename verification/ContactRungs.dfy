/**
 * Series-parallel contact networks with branching outputs, inversions and exclusive ors on the
 * way, and the two forms in which a rung is stored: a grid drawing and an Instruction List program.
 */
module ContactRungs {
  import opened RungOutputs
  import opened LadderGrid
  import IL = InstructionList

  datatype ContactKind = Normal | NegatedInput | Rising | Falling | Compare

  /** `name` is the descriptor, or the text of a comparison that is no assignment. */
  datatype Contact = Contact(kind: ContactKind, name: string)

  datatype Net =
    | Leaf(contact: Contact)
    | Series(first: Net, second: Net)
    | Parallel(top: Net, bottom: Net)

  /** What power can pass on its way through a rung, other than contacts. */
  datatype Stage =
    | Invert
    | Differ(name: string)                // exclusive or
    | Drive(key: Key)                     // a coil or an operation box that hands power on
    | Assign(expr: string)                // a comparison cell that holds an assignment

  datatype Rung =
    | Out(key: Key)                       // a coil or an operation box
    | Then(net: Net, rest: Rung)
    | Pass(stage: Stage, rest: Rung)
    | Fork(upper: Rung, lower: Rung)

  // ----- What a rung means

  predicate Holds(contact: Contact, env: map<string, bool>) {
    Lookup(env, AtomName(contact)) != contact.kind.NegatedInput?
  }

  function AtomName(contact: Contact): string {
    match contact.kind
    case Rising => "R:" + contact.name
    case Falling => "F:" + contact.name
    case Compare => "[" + contact.name + "]"
    case _ => contact.name
  }

  predicate Closes(net: Net, env: map<string, bool>) {
    match net
    case Leaf(contact) => Holds(contact, env)
    case Series(a, b) => Closes(a, env) && Closes(b, env)
    case Parallel(a, b) => Closes(a, env) || Closes(b, env)
  }

  /** The power behind a stage that is fed `power`. */
  predicate Passes(stage: Stage, env: map<string, bool>, power: bool) {
    match stage
    case Invert => !power
    case Differ(name) => power != Lookup(env, name)
    case Drive(_) => power
    case Assign(_) => power
  }

  function StageKeys(stage: Stage): set<Key> {
    match stage
    case Drive(key) => {key}
    case Assign(expr) => {Operation(expr)}
    case _ => {}
  }

  function StageAtoms(stage: Stage): set<string> {
    match stage
    case Differ(name) => {name}
    case _ => {}
  }

  function KeyTargets(key: Key): set<string> {
    if key.Write? then {key.target} else {}
  }

  function StageTargets(stage: Stage): set<string> {
    if stage.Drive? then KeyTargets(stage.key) else {}
  }

  /** Some output named `key` is energised when the rung is fed `power`. */
  predicate Fires(rung: Rung, key: Key, env: map<string, bool>, power: bool) {
    match rung
    case Out(k) => k == key && power
    case Then(net, rest) => Fires(rest, key, env, power && Closes(net, env))
    case Pass(stage, rest) => (power && key in StageKeys(stage)) || Fires(rest, key, env, Passes(stage, env, power))
    case Fork(upper, lower) => Fires(upper, key, env, power) || Fires(lower, key, env, power)
  }

  function NetAtoms(net: Net): set<string> {
    match net
    case Leaf(contact) => {AtomName(contact)}
    case Series(a, b) => NetAtoms(a) + NetAtoms(b)
    case Parallel(a, b) => NetAtoms(a) + NetAtoms(b)
  }

  function RungAtoms(rung: Rung): set<string> {
    match rung
    case Out(_) => {}
    case Then(net, rest) => NetAtoms(net) + RungAtoms(rest)
    case Pass(stage, rest) => StageAtoms(stage) + RungAtoms(rest)
    case Fork(upper, lower) => RungAtoms(upper) + RungAtoms(lower)
  }

  function RungKeys(rung: Rung): set<Key> {
    match rung
    case Out(key) => {key}
    case Then(_, rest) => RungKeys(rest)
    case Pass(stage, rest) => StageKeys(stage) + RungKeys(rest)
    case Fork(upper, lower) => RungKeys(upper) + RungKeys(lower)
  }

  function Targets(rung: Rung): set<string> {
    match rung
    case Out(key) => KeyTargets(key)
    case Then(_, rest) => Targets(rest)
    case Pass(stage, rest) => StageTargets(stage) + Targets(rest)
    case Fork(upper, lower) => Targets(upper) + Targets(lower)
  }

  /** No output is a block pin: those belong to function blocks, which are not drawn here. */
  predicate PlainOutputs(rung: Rung) {
    match rung
    case Out(key) => !key.Pin?
    case Then(_, rest) => PlainOutputs(rest)
    case Pass(stage, rest) => (stage.Drive? ==> !stage.key.Pin?) && PlainOutputs(rest)
    case Fork(upper, lower) => PlainOutputs(upper) && PlainOutputs(lower)
  }

  /** No contact reads a target that Instruction List has written by then (an internal temporary). */
  predicate NoReadBack(rung: Rung, written: set<string>) {
    match rung
    case Out(_) => true
    case Then(net, rest) => NetAtoms(net) !! written && NoReadBack(rest, written)
    case Pass(stage, rest) => StageAtoms(stage) !! written && NoReadBack(rest, written + StageTargets(stage))
    case Fork(upper, lower) => NoReadBack(upper, written) && NoReadBack(lower, written + Targets(upper))
  }

  /** The atoms that are not written targets read back. */
  function InputAtoms(rung: Rung, written: set<string>): set<string> {
    match rung
    case Out(_) => {}
    case Then(net, rest) => (NetAtoms(net) - written) + InputAtoms(rest, written)
    case Pass(stage, rest) => (StageAtoms(stage) - written) + InputAtoms(rest, written + StageTargets(stage))
    case Fork(upper, lower) => InputAtoms(upper, written) + InputAtoms(lower, written + Targets(upper))
  }

  lemma {:induction false} InputsAreAtoms(rung: Rung, written: set<string>)
    requires NoReadBack(rung, written)
    ensures InputAtoms(rung, written) == RungAtoms(rung)
  {
    match rung
    case Out(_) =>
    case Then(_, rest) => InputsAreAtoms(rest, written);
    case Pass(stage, rest) => InputsAreAtoms(rest, written + StageTargets(stage));
    case Fork(upper, lower) =>
      InputsAreAtoms(upper, written);
      InputsAreAtoms(lower, written + Targets(upper));
  }

  // ----- What a rung means when written targets are read back: later parts see them

  /** What a target holds after a write. */
  function Kept(key: Key, mem: map<string, bool>, power: bool): map<string, bool> {
    match key
    case Write(Plain, target) => mem[target := power]
    case Write(Negated, target) => mem[target := !power]
    case Write(_, target) => mem[target := target in mem && mem[target]]
    case _ => mem
  }

  function StageKept(stage: Stage, mem: map<string, bool>, power: bool): map<string, bool> {
    if stage.Drive? then Kept(stage.key, mem, power) else mem
  }

  /** The targets after the rung; a target written hides the input of its name. */
  function RungKept(rung: Rung, env: map<string, bool>, mem: map<string, bool>, power: bool): map<string, bool> {
    match rung
    case Out(key) => Kept(key, mem, power)
    case Then(net, rest) => RungKept(rest, env, mem, power && Closes(net, env + mem))
    case Pass(stage, rest) => RungKept(rest, env, StageKept(stage, mem, power), Passes(stage, env + mem, power))
    case Fork(upper, lower) => RungKept(lower, env, RungKept(upper, env, mem, power), power)
  }

  /** Some output named `key` is energised, in a run from the first output to the last. */
  predicate Runs(rung: Rung, key: Key, env: map<string, bool>, mem: map<string, bool>, power: bool) {
    match rung
    case Out(k) => k == key && power
    case Then(net, rest) => Runs(rest, key, env, mem, power && Closes(net, env + mem))
    case Pass(stage, rest) =>
      || (power && key in StageKeys(stage))
      || Runs(rest, key, env, StageKept(stage, mem, power), Passes(stage, env + mem, power))
    case Fork(upper, lower) =>
      Runs(upper, key, env, mem, power) || Runs(lower, key, env, RungKept(upper, env, mem, power), power)
  }

  lemma KeptKeys(key: Key, mem: map<string, bool>, power: bool)
    ensures Kept(key, mem, power).Keys == mem.Keys + KeyTargets(key)
  {
  }

  lemma {:induction false} RungKeptKeys(rung: Rung, env: map<string, bool>, mem: map<string, bool>, power: bool)
    ensures RungKept(rung, env, mem, power).Keys == mem.Keys + Targets(rung)
    decreases rung
  {
    hide Closes, Passes, Kept;
    match rung
    case Out(key) => KeptKeys(key, mem, power);
    case Then(net, rest) => RungKeptKeys(rest, env, mem, power && Closes(net, env + mem));
    case Pass(stage, rest) =>
      if stage.Drive? { KeptKeys(stage.key, mem, power); }
      RungKeptKeys(rest, env, StageKept(stage, mem, power), Passes(stage, env + mem, power));
    case Fork(upper, lower) =>
      RungKeptKeys(upper, env, mem, power);
      RungKeptKeys(lower, env, RungKept(upper, env, mem, power), power);
  }

  lemma {:induction false} ClosesUnwritten(net: Net, env: map<string, bool>, mem: map<string, bool>)
    requires NetAtoms(net) !! mem.Keys
    ensures Closes(net, env + mem) == Closes(net, env)
  {
    match net
    case Leaf(contact) => assert AtomName(contact) in NetAtoms(net);
    case Series(a, b) =>
      ClosesUnwritten(a, env, mem);
      ClosesUnwritten(b, env, mem);
    case Parallel(a, b) =>
      ClosesUnwritten(a, env, mem);
      ClosesUnwritten(b, env, mem);
  }

  /** Unless a written target is read back, writes do not matter to what fires. */
  lemma {:induction false} RunsFires(rung: Rung, key: Key, env: map<string, bool>, mem: map<string, bool>, power: bool)
    requires NoReadBack(rung, mem.Keys)
    ensures Runs(rung, key, env, mem, power) == Fires(rung, key, env, power)
    decreases rung
  {
    hide Closes, Kept, NetAtoms;
    match rung
    case Out(_) =>
    case Then(net, rest) =>
      ClosesUnwritten(net, env, mem);
      RunsFires(rest, key, env, mem, power && Closes(net, env));
    case Pass(stage, rest) =>
      if stage.Drive? { KeptKeys(stage.key, mem, power); }
      assert stage.Differ? ==> stage.name in StageAtoms(stage);
      assert StageKept(stage, mem, power).Keys == mem.Keys + StageTargets(stage);
      RunsFires(rest, key, env, StageKept(stage, mem, power), Passes(stage, env, power));
    case Fork(upper, lower) =>
      RunsFires(upper, key, env, mem, power);
      RungKeptKeys(upper, env, mem, power);
      RunsFires(lower, key, env, RungKept(upper, env, mem, power), power);
  }

  // ----- The drawing

  function Max(a: nat, b: nat): nat { if a > b then a else b }

  function NetWidth(net: Net): nat {
    match net
    case Leaf(contact) => if contact.kind.Compare? then 2 else 1
    case Series(a, b) => NetWidth(a) + NetWidth(b)
    case Parallel(a, b) => 2 + Max(NetWidth(a), NetWidth(b))
  }

  function NetHeight(net: Net): (h: nat)
    ensures h > 0
  {
    match net
    case Leaf(_) => 1
    case Series(a, b) => Max(NetHeight(a), NetHeight(b))
    case Parallel(a, b) => NetHeight(a) + NetHeight(b)
  }

  function ContactCell(contact: Contact, row: int, col: int): Cell {
    var element := match contact.kind
      case Normal => NormalContact
      case NegatedInput => NegatedContact
      case Rising => RisingEdge
      case Falling => FallingEdge
      case Compare => Comparison(contact.name);
    Cell(element, row, col, contact.name, true, true, false, false)
  }

  function LineCell(row: int, col: int): Cell {
    Cell(Line, row, col, "", true, true, false, false)
  }

  /** Line padding from column `col` to column `end`. */
  function Lines(row: int, col: int, end: int): (cells: seq<Cell>)
    decreases end - col
  {
    if col >= end then [] else [LineCell(row, col)] + Lines(row, col + 1, end)
  }

  /** Vertical wiring in the rows strictly between `row` and `end`. */
  function Verticals(row: int, end: int, col: int): seq<Cell>
    decreases end - row
  {
    if row + 1 >= end then []
    else [Cell(VerticalLine, row + 1, col, "", false, false, true, true)] + Verticals(row + 1, end, col)
  }

  /**
   * One column that joins row `row` to the row `drop` below it. Splitting, the lower end only
   * hangs on the joint; merging, the lower row is led in from the left as well.
   */
  function Joint(row: int, drop: nat, col: int, merge: bool): seq<Cell> {
    [Cell(Line, row, col, "", true, true, false, true)]
    + Verticals(row, row + drop, col)
    + [if merge then Cell(Line, row + drop, col, "", true, true, true, false)
       else Cell(VerticalLine, row + drop, col, "", false, true, true, false)]
  }

  function DrawNet(net: Net, row: int, col: int): seq<Cell>
    decreases net, 0
  {
    match net
    case Leaf(contact) => [ContactCell(contact, row, col)]
    case Series(a, b) => DrawNet(a, row, col) + DrawNet(b, row, col + NetWidth(a))
    case Parallel(a, b) =>
      var end := col + 1 + Max(NetWidth(a), NetWidth(b));
      (Joint(row, NetHeight(a), col, false)
       + (Padded(a, row, col + 1, end) + Padded(b, row + NetHeight(a), col + 1, end)))
      + Joint(row, NetHeight(a), end, true)
  }

  /** A drawn network, padded with lines up to column `end`. */
  function Padded(net: Net, row: int, col: int, end: int): seq<Cell>
    decreases net, 1
  {
    DrawNet(net, row, col) + Lines(row, col + NetWidth(net), end)
  }

  function KeyWidth(key: Key): nat {
    if key.Operation? then 2 else 1
  }

  function StageWidth(stage: Stage): nat {
    match stage
    case Drive(key) => KeyWidth(key)
    case Assign(_) => 2
    case _ => 1
  }

  function StageCell(stage: Stage, row: int, col: int): Cell {
    match stage
    case Invert => Cell(Not, row, col, "", true, true, false, false)
    case Differ(name) => Cell(XorContact, row, col, name, true, true, false, false)
    case Drive(key) => OutCell(key, row, col).(right := true)
    case Assign(expr) => Cell(Assignment(expr), row, col, "", true, true, false, false)
  }

  function RungWidth(rung: Rung): nat {
    match rung
    case Out(key) => KeyWidth(key)
    case Then(net, rest) => NetWidth(net) + RungWidth(rest)
    case Pass(stage, rest) => StageWidth(stage) + RungWidth(rest)
    case Fork(upper, lower) => 1 + Max(RungWidth(upper), RungWidth(lower))
  }

  function RungHeight(rung: Rung): (h: nat)
    ensures h > 0
  {
    match rung
    case Out(_) => 1
    case Then(net, rest) => Max(NetHeight(net), RungHeight(rest))
    case Pass(_, rest) => RungHeight(rest)
    case Fork(upper, lower) => RungHeight(upper) + RungHeight(lower)
  }

  function OutCell(key: Key, row: int, col: int): Cell {
    match key
    case Write(kind, target) => Cell(Coil(kind), row, col, target, true, false, false, false)
    case Operation(expr) => Cell(OperationBox(expr), row, col, "", true, false, false, false)
    case Pin(_, _) => Cell(Empty, row, col, "", true, false, false, false)
  }

  function DrawRung(rung: Rung, row: int, col: int): seq<Cell> {
    match rung
    case Out(key) => [OutCell(key, row, col)]
    case Then(net, rest) => DrawNet(net, row, col) + DrawRung(rest, row, col + NetWidth(net))
    case Pass(stage, rest) => [StageCell(stage, row, col)] + DrawRung(rest, row, col + StageWidth(stage))
    case Fork(upper, lower) =>
      Joint(row, RungHeight(upper), col, false)
      + (DrawRung(upper, row, col + 1) + DrawRung(lower, row + RungHeight(upper), col + 1))
  }

  function Drawing(rung: Rung, env: map<string, bool>): Grid {
    Grid(DrawRung(rung, 0, 0), map[], map[], env)
  }

  // ----- The program

  function OperandOf(contact: Contact): IL.Operand {
    IL.Operand(AtomName(contact), contact.kind.NegatedInput?)
  }

  /** The contact a network starts with, and the code that follows once it is loaded. */
  function FirstContact(net: Net): Contact {
    match net
    case Leaf(contact) => contact
    case Series(a, _) => FirstContact(a)
    case Parallel(a, _) => FirstContact(a)
  }

  function NetTail(net: Net): seq<IL.Instr>
    decreases net, 0
  {
    match net
    case Leaf(_) => []
    case Series(a, b) => NetTail(a) + Joined(IL.And, b)
    case Parallel(a, b) => NetTail(a) + Joined(IL.Or, b)
  }

  /** `AND x`, or `AND( x ... )` for more than one contact. */
  function Joined(op: IL.Operator, net: Net): seq<IL.Instr>
    decreases net, 1
  {
    if net.Leaf? then [IL.Logic(op, OperandOf(net.contact))]
    else [IL.Open(op, OperandOf(FirstContact(net)))] + (NetTail(net) + [IL.Close])
  }

  function OutCode(key: Key): IL.Instr {
    match key
    case Write(kind, target) => IL.Store(kind, target)
    case Operation(expr) => IL.Perform(expr)
    case Pin(block, pin) => IL.Feed(block, pin)
  }

  function StageCode(stage: Stage): IL.Instr {
    match stage
    case Invert => IL.Negate
    case Differ(name) => IL.Logic(IL.Xor, IL.Operand(name, false))
    case Drive(key) => OutCode(key)
    case Assign(expr) => IL.Perform(expr)
  }

  /** The code of a rung part whose power is in the accumulator. */
  function Code(rung: Rung): seq<IL.Instr>
    decreases rung, 1
  {
    match rung
    case Out(key) => [OutCode(key)]
    case Then(net, rest) => Joined(IL.And, net) + Code(rest)
    case Pass(stage, rest) => [StageCode(stage)] + Code(rest)
    case Fork(upper, lower) => [IL.Push] + (Code(upper) + LowerCode(lower))
  }

  /** Further branches take the saved power back: MRD before the last one, MPP for the last. */
  function LowerCode(rung: Rung): seq<IL.Instr>
    decreases rung, 2
  {
    if rung.Fork? then [IL.Peek] + (Code(rung.upper) + LowerCode(rung.lower))
    else [IL.Pop] + Code(rung)
  }

  function Program(rung: Rung): seq<IL.Instr> {
    if rung.Then? then [IL.Logic(IL.Load, OperandOf(FirstContact(rung.net)))] + (NetTail(rung.net) + Code(rung.rest))
    else [IL.Logic(IL.Load, IL.Operand("1", false))] + Code(rung)
  }
}

/** The Instruction List side: the program computes what the rung means. */
module RungPrograms {
  import opened Wrappers
  import opened RungOutputs
  import opened LadderGrid
  import opened ContactRungs
  import IL = InstructionList

  /** The network's atoms are defined or written, and no constants. */
  predicate Readable(net: Net, env: map<string, bool>, mem: map<string, bool>) {
    && NetAtoms(net) <= env.Keys + mem.Keys
    && "1" !in NetAtoms(net) && "0" !in NetAtoms(net)
  }

  lemma FirstReadable(net: Net, env: map<string, bool>, m: IL.Machine)
    requires Readable(net, env, m.mem)
    ensures IL.ValueOf(OperandOf(FirstContact(net)), m.mem, env) == Success(Holds(FirstContact(net), env + m.mem))
    ensures forall op ::
      (IL.Step(IL.Open(op, OperandOf(FirstContact(net))), env, m)
       == Success(m.(acc := Holds(FirstContact(net), env + m.mem), paren := m.paren + [(m.acc, op)])))
  {
    FirstAtom(net);
  }

  lemma {:induction false} FirstAtom(net: Net)
    ensures AtomName(FirstContact(net)) in NetAtoms(net)
  {
    if !net.Leaf? {
      FirstAtom(if net.Series? then net.first else net.top);
    }
  }

  lemma {:induction false} TailComputes(net: Net, env: map<string, bool>, m: IL.Machine)
    requires Readable(net, env, m.mem) && m.acc == Holds(FirstContact(net), env + m.mem)
    ensures IL.Exec(NetTail(net), env, m) == Success(m.(acc := Closes(net, env + m.mem)))
    decreases net, 0
  {
    if !net.Leaf? {
      var op, a, b := if net.Series? then IL.And else IL.Or,
                      if net.Series? then net.first else net.top,
                      if net.Series? then net.second else net.bottom;
      TailComputes(a, env, m);
      var afterFirst := m.(acc := Closes(a, env + m.mem));
      JoinedComputes(op, b, env, afterFirst);
      IL.ExecAppend(NetTail(a), Joined(op, b), env, m);
    }
  }

  lemma {:induction false} JoinedComputes(op: IL.Operator, net: Net, env: map<string, bool>, m: IL.Machine)
    requires Readable(net, env, m.mem) && (op == IL.And || op == IL.Or)
    ensures IL.Exec(Joined(op, net), env, m) == Success(m.(acc := IL.Combine(op, m.acc, Closes(net, env + m.mem))))
    decreases net, 1
  {
    hide Closes, Readable, NetTail, Holds, OperandOf, FirstContact, NetAtoms, IL.Exec, IL.Step;
    FirstReadable(net, env, m);
    if net.Leaf? {
      LeafComputes(op, net.contact, env, m);
    } else {
      var inside := m.(acc := Holds(FirstContact(net), env + m.mem), paren := m.paren + [(m.acc, op)]);
      TailComputes(net, env, inside);
      GroupComputes(op, OperandOf(FirstContact(net)), NetTail(net), Closes(net, env + m.mem), env, m, inside);
    }
  }

  lemma LeafComputes(op: IL.Operator, contact: Contact, env: map<string, bool>, m: IL.Machine)
    requires Readable(Leaf(contact), env, m.mem) && (op == IL.And || op == IL.Or)
    ensures IL.Exec(Joined(op, Leaf(contact)), env, m)
         == Success(m.(acc := IL.Combine(op, m.acc, Closes(Leaf(contact), env + m.mem))))
  {
    hide IL.Exec;
    IL.ExecOne(IL.Logic(op, OperandOf(contact)), env, m);
  }

  lemma GroupComputes(
    op: IL.Operator, first: IL.Operand, tail: seq<IL.Instr>, value: bool,
    env: map<string, bool>, m: IL.Machine, inside: IL.Machine)
    requires op != IL.Load
    requires IL.Step(IL.Open(op, first), env, m) == Success(inside)
    requires inside.mem == m.mem && inside.saved == m.saved && inside.results == m.results
    requires inside.paren == m.paren + [(m.acc, op)]
    requires IL.Exec(tail, env, inside) == Success(inside.(acc := value))
    ensures IL.Exec([IL.Open(op, first)] + (tail + [IL.Close]), env, m)
         == Success(m.(acc := IL.Combine(op, m.acc, value)))
  {
    hide IL.Exec, IL.ValueOf, IL.Combine;
    IL.ExecCons(IL.Open(op, first), tail + [IL.Close], env, m);
    IL.ExecAppend(tail, [IL.Close], env, inside);
    IL.ExecOne(IL.Close, env, inside.(acc := value));
    assert inside.paren[..|inside.paren| - 1] == m.paren;
  }

  // ----- Outputs

  /** The atoms that are not read back are defined, and no atom is a constant. */
  predicate RungReadable(rung: Rung, env: map<string, bool>, written: set<string>) {
    && InputAtoms(rung, written) <= env.Keys && "1" !in RungAtoms(rung) && "0" !in RungAtoms(rung)
    && PlainOutputs(rung)
  }

  lemma PlainWhenReadable(rung: Rung, env: map<string, bool>)
    requires RungReadable(rung, env, {})
    ensures PlainOutputs(rung)
  {
  }

  /** Machine `m'` has recorded the rung's outputs on top of what `m` had recorded, and kept what it wrote. */
  ghost predicate Recording(rung: Rung, env: map<string, bool>, power: bool, m: IL.Machine, m': IL.Machine) {
    && m'.paren == m.paren
    && m'.mem == RungKept(rung, env, m.mem, power)
    && m'.results.Keys == m.results.Keys + RungKeys(rung)
    && forall key :: Recorded(m'.results, key) <==> Recorded(m.results, key) || Runs(rung, key, env, m.mem, power)
  }

  lemma Parts(rung: Rung, env: map<string, bool>, written: set<string>)
    requires RungReadable(rung, env, written)
    ensures rung.Fork? ==>
      RungReadable(rung.upper, env, written) && RungReadable(rung.lower, env, written + Targets(rung.upper))
    ensures rung.Then? ==> RungReadable(rung.rest, env, written)
    ensures rung.Pass? ==> RungReadable(rung.rest, env, written + StageTargets(rung.stage))
    ensures rung.Pass? ==> StageAtoms(rung.stage) <= env.Keys + written
    ensures rung.Pass? ==> "1" !in StageAtoms(rung.stage) && "0" !in StageAtoms(rung.stage)
    ensures rung.Pass? && rung.stage.Drive? ==> !rung.stage.key.Pin?
    ensures rung.Out? ==> !rung.key.Pin?
    ensures rung.Then? ==> forall mem: map<string, bool> :: mem.Keys == written ==> Readable(rung.net, env, mem)
  {
  }

  lemma {:induction false} CodeRecords(rung: Rung, env: map<string, bool>, m: IL.Machine) returns (m': IL.Machine)
    requires RungReadable(rung, env, m.mem.Keys)
    ensures IL.Exec(Code(rung), env, m) == Success(m')
    ensures Recording(rung, env, m.acc, m, m') && m'.saved == m.saved
    decreases rung, 1
  {
    hide RungReadable, Readable, Closes, IL.Exec, RungAtoms, InputAtoms, Kept;
    Parts(rung, env, m.mem.Keys);
    match rung
    case Out(key) =>
      IL.ExecOne(OutCode(key), env, m);
      m' := OutRecords(key, env, m);
    case Then(net, rest) =>
      JoinedComputes(IL.And, net, env, m);
      IL.ExecAppend(Joined(IL.And, net), Code(rest), env, m);
      m' := CodeRecords(rest, env, m.(acc := m.acc && Closes(net, env + m.mem)));
    case Pass(stage, rest) =>
      var between := StageRecords(stage, env, m);
      IL.ExecCons(StageCode(stage), Code(rest), env, m);
      m' := CodeRecords(rest, env, between);
      PassRecords(rung, env, m, between, m');
    case Fork(upper, lower) =>
      var pushed := m.(saved := m.saved + [m.acc]);
      IL.ExecCons(IL.Push, Code(upper) + LowerCode(lower), env, m);
      var between := CodeRecords(upper, env, pushed);
      RungKeptKeys(upper, env, m.mem, m.acc);
      IL.ExecAppend(Code(upper), LowerCode(lower), env, pushed);
      m' := LowerRecords(lower, env, m.acc, between);
      assert between.saved[..|between.saved| - 1] == m.saved;
      ForkRecords(rung, env, m.acc, m, between, m');
  }

  /** One output instruction: it records its key and keeps what it writes. */
  lemma OutRecords(key: Key, env: map<string, bool>, m: IL.Machine) returns (m': IL.Machine)
    requires !key.Pin?
    ensures IL.Step(OutCode(key), env, m) == Success(m')
    ensures Recording(Out(key), env, m.acc, m, m') && m'.saved == m.saved && m'.acc == m.acc
  {
    m' := IL.Step(OutCode(key), env, m).value;
  }

  /** Machine `m'` is `m` behind a stage. */
  ghost predicate Passing(stage: Stage, env: map<string, bool>, m: IL.Machine, m': IL.Machine) {
    && m'.paren == m.paren && m'.saved == m.saved
    && m'.acc == Passes(stage, env + m.mem, m.acc) && m'.mem == StageKept(stage, m.mem, m.acc)
    && m'.mem.Keys == m.mem.Keys + StageTargets(stage)
    && m'.results.Keys == m.results.Keys + StageKeys(stage)
    && forall key :: Recorded(m'.results, key) <==> Recorded(m.results, key) || (m.acc && key in StageKeys(stage))
  }

  lemma StageRecords(stage: Stage, env: map<string, bool>, m: IL.Machine) returns (m': IL.Machine)
    requires StageAtoms(stage) <= env.Keys + m.mem.Keys && "1" !in StageAtoms(stage) && "0" !in StageAtoms(stage)
    requires stage.Drive? ==> !stage.key.Pin?
    ensures IL.Step(StageCode(stage), env, m) == Success(m')
    ensures Passing(stage, env, m, m')
  {
    match stage
    case Invert =>
      m' := m.(acc := !m.acc);
      assert m.mem.Keys + {} == m.mem.Keys && m.results.Keys + {} == m.results.Keys;
    case Differ(name) =>
      assert name in StageAtoms(stage);
      m' := m.(acc := m.acc != Lookup(env + m.mem, name));
      assert m.mem.Keys + {} == m.mem.Keys && m.results.Keys + {} == m.results.Keys;
    case Drive(key) =>
      m' := OutRecords(key, env, m);
      KeptKeys(key, m.mem, m.acc);
    case Assign(expr) =>
      m' := IL.Step(StageCode(stage), env, m).value;
      assert m.mem.Keys + {} == m.mem.Keys;
  }

  lemma PassRecords(rung: Rung, env: map<string, bool>, m: IL.Machine, between: IL.Machine, m': IL.Machine)
    requires rung.Pass? && Passing(rung.stage, env, m, between) && Recording(rung.rest, env, between.acc, between, m')
    ensures Recording(rung, env, m.acc, m, m')
  {
    hide Kept, Passes;
    assert m.results.Keys + StageKeys(rung.stage) + RungKeys(rung.rest) == m.results.Keys + RungKeys(rung);
  }

  /** Recording both branches of a fork, one after the other. */
  lemma ForkRecords(
    rung: Rung, env: map<string, bool>, power: bool, m: IL.Machine, between: IL.Machine, m': IL.Machine)
    requires rung.Fork?
    requires between.paren == m.paren
    requires between.mem == RungKept(rung.upper, env, m.mem, power)
    requires between.results.Keys == m.results.Keys + RungKeys(rung.upper)
    requires forall key ::
      Recorded(between.results, key) <==> Recorded(m.results, key) || Runs(rung.upper, key, env, m.mem, power)
    requires Recording(rung.lower, env, power, between, m')
    ensures Recording(rung, env, power, m, m')
  {
    assert m.results.Keys + RungKeys(rung.upper) + RungKeys(rung.lower) == m.results.Keys + RungKeys(rung);
  }

  lemma {:induction false} LowerRecords(rung: Rung, env: map<string, bool>, power: bool, m: IL.Machine)
    returns (m': IL.Machine)
    requires RungReadable(rung, env, m.mem.Keys)
    requires m.saved != [] && m.saved[|m.saved| - 1] == power
    ensures IL.Exec(LowerCode(rung), env, m) == Success(m')
    ensures Recording(rung, env, power, m, m') && m'.saved == m.saved[..|m.saved| - 1]
    decreases rung, 2
  {
    hide RungReadable, IL.Exec, RungAtoms, InputAtoms, Kept;
    Parts(rung, env, m.mem.Keys);
    if rung.Fork? {
      var peeked := m.(acc := power);
      IL.ExecCons(IL.Peek, Code(rung.upper) + LowerCode(rung.lower), env, m);
      var between := CodeRecords(rung.upper, env, peeked);
      RungKeptKeys(rung.upper, env, m.mem, power);
      IL.ExecAppend(Code(rung.upper), LowerCode(rung.lower), env, peeked);
      m' := LowerRecords(rung.lower, env, power, between);
      ForkRecords(rung, env, power, m, between, m');
    } else {
      var popped := m.(acc := power, saved := m.saved[..|m.saved| - 1]);
      IL.ExecCons(IL.Pop, Code(rung), env, m);
      m' := CodeRecords(rung, env, popped);
    }
  }

  /**
   * The whole program, from the interpreter's initial state: it records the rung's outputs as a
   * run of the rung energises them, and ends with the targets the run leaves.
   */
  lemma ProgramRecords(rung: Rung, env: map<string, bool>) returns (m: IL.Machine)
    requires RungReadable(rung, env, {})
    ensures IL.Exec(Program(rung), env, IL.Start) == Success(m)
    ensures m.results.Keys == RungKeys(rung) && m.mem == RungKept(rung, env, map[], true)
    ensures forall key :: Recorded(m.results, key) <==> Runs(rung, key, env, map[], true)
  {
    hide Closes, Kept, InputAtoms, RungAtoms, RungReadable, IL.Exec;
    assert IL.Start.mem.Keys == {} && env + map[] == env;
    Parts(rung, env, {});
    if rung.Then? {
      FirstReadable(rung.net, env, IL.Start);
      var loaded := IL.Start.(acc := Holds(FirstContact(rung.net), env));
      var load := IL.Logic(IL.Load, OperandOf(FirstContact(rung.net)));
      assert IL.Step(load, env, IL.Start) == Success(loaded);
      IL.ExecCons(load, NetTail(rung.net) + Code(rung.rest), env, IL.Start);
      TailComputes(rung.net, env, loaded);
      IL.ExecAppend(NetTail(rung.net), Code(rung.rest), env, loaded);
      m := CodeRecords(rung.rest, env, loaded.(acc := Closes(rung.net, env)));
    } else {
      IL.ExecCons(IL.Logic(IL.Load, IL.Operand("1", false)), Code(rung), env, IL.Start);
      m := CodeRecords(rung, env, IL.Start.(acc := true));
    }
  }
}
