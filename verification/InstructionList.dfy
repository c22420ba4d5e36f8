/** The accumulator machine that interprets Instruction List rungs. */
module InstructionList {
  import opened Wrappers
  import opened RungOutputs

  datatype Operator = Load | And | Or | Xor

  datatype Operand = Operand(atom: string, neg: bool)

  datatype Instr =
    | Logic(op: Operator, arg: Operand)
    | Open(op: Operator, arg: Operand)
    | Close
    | Negate
    | Push                      // MPS
    | Peek                      // MRD
    | Pop                       // MPP
    | Perform(expr: string)     // an operation between square brackets
    | Feed(block: string, pin: string)
    | Store(kind: WriteKind, target: string)

  /** What stops the interpreter: a missing key, an empty stack, or closing an `LD(` group. */
  datatype Fault = UndefinedAtom | EmptyStack | UnknownGroup

  type Env = map<string, bool>

  datatype Machine = Machine(
    acc: bool, mem: map<string, bool>,
    paren: seq<(bool, Operator)>, saved: seq<bool>, results: map<Key, bool>)

  const Start := Machine(false, map[], [], [], map[])

  predicate IsConstant(atom: string) {
    atom == "1" || atom == "0"
  }

  function ValueOf(arg: Operand, mem: map<string, bool>, env: Env): Result<bool, Fault> {
    if IsConstant(arg.atom) then Success((arg.atom == "1") != arg.neg)
    else if arg.atom in mem then Success(mem[arg.atom] != arg.neg)
    else if arg.atom in env then Success(env[arg.atom] != arg.neg)
    else Failure(UndefinedAtom)
  }

  function Combine(op: Operator, left: bool, right: bool): bool {
    match op
    case Load => right
    case And => left && right
    case Or => left || right
    case Xor => left != right
  }

  /** AND reads its operand only under a true accumulator, OR only under a false one. */
  predicate Reads(op: Operator, acc: bool) {
    (op == And ==> acc) && (op == Or ==> !acc)
  }

  function Stored(kind: WriteKind, target: string, m: Machine): bool {
    match kind
    case Plain => m.acc
    case Negated => !m.acc
    case _ => target in m.mem && m.mem[target]
  }

  /** One instruction. */
  function Step(i: Instr, env: Env, m: Machine): Result<Machine, Fault> {
    match i
    case Logic(op, arg) =>
      if Reads(op, m.acc) then
        var v :- ValueOf(arg, m.mem, env);
        Success(m.(acc := Combine(op, m.acc, v)))
      else
        Success(m)
    case Open(op, arg) =>
      var v :- ValueOf(arg, m.mem, env);
      Success(m.(acc := v, paren := m.paren + [(m.acc, op)]))
    case Close =>
      if m.paren == [] then Failure(EmptyStack)
      else
        var (prev, op) := m.paren[|m.paren| - 1];
        if op == Load then Failure(UnknownGroup)
        else Success(m.(acc := Combine(op, prev, m.acc), paren := m.paren[..|m.paren| - 1]))
    case Negate => Success(m.(acc := !m.acc))
    case Push => Success(m.(saved := m.saved + [m.acc]))
    case Peek =>
      if m.saved == [] then Failure(EmptyStack)
      else Success(m.(acc := m.saved[|m.saved| - 1]))
    case Pop =>
      if m.saved == [] then Failure(EmptyStack)
      else Success(m.(acc := m.saved[|m.saved| - 1], saved := m.saved[..|m.saved| - 1]))
    case Perform(expr) =>
      var key := Operation(expr);
      Success(m.(results := m.results[key := Recorded(m.results, key) || m.acc]))
    case Feed(block, pin) =>
      Success(m.(results := m.results[Key.Pin(block, pin) := m.acc]))
    case Store(kind, target) =>
      var key := Write(kind, target);
      Success(m.(mem := m.mem[target := Stored(kind, target, m)],
                 results := m.results[key := Recorded(m.results, key) || m.acc]))
  }

  /** A whole program, from a given machine state. */
  function Exec(program: seq<Instr>, env: Env, m: Machine): Result<Machine, Fault> {
    if program == [] then Success(m)
    else
      var m' :- Step(program[0], env, m);
      Exec(program[1..], env, m')
  }

  /** The interpreter loop. Its local variables are the machine's registers. */
  method RunIl(program: seq<Instr>, env: Env) returns (r: Result<map<Key, bool>, Fault>)
    ensures r == match Exec(program, env, Start)
                 case Success(m) => Success(m.results)
                 case Failure(e) => Failure(e)
  {
    var acc, mem := false, map[];
    var paren: seq<(bool, Operator)>, saved: seq<bool>, results: map<Key, bool> := [], [], map[];
    for n := 0 to |program|
      invariant Exec(program, env, Start)
             == Exec(program[n..], env, Machine(acc, mem, paren, saved, results))
    {
      ghost var before := Machine(acc, mem, paren, saved, results);
      assert program[n..][1..] == program[n + 1..];
      match program[n] {
        case Logic(op, arg) =>
          if Reads(op, acc) {
            var v :- ValueOf(arg, mem, env);
            acc := Combine(op, acc, v);
          }
        case Open(op, arg) =>
          paren := paren + [(acc, op)];
          acc :- ValueOf(arg, mem, env);
        case Close =>
          if paren == [] { return Failure(EmptyStack); }
          var (prev, op) := paren[|paren| - 1];
          paren := paren[..|paren| - 1];
          if op == Load { return Failure(UnknownGroup); }
          acc := Combine(op, prev, acc);
        case Negate =>
          acc := !acc;
        case Push =>
          saved := saved + [acc];
        case Peek =>
          if saved == [] { return Failure(EmptyStack); }
          acc := saved[|saved| - 1];
        case Pop =>
          if saved == [] { return Failure(EmptyStack); }
          acc, saved := saved[|saved| - 1], saved[..|saved| - 1];
        case Perform(expr) =>
          results := results[Operation(expr) := Recorded(results, Operation(expr)) || acc];
        case Feed(block, pin) =>
          results := results[Key.Pin(block, pin) := acc];
        case Store(kind, target) =>
          mem := mem[target := if kind == Plain then acc
                               else if kind == Negated then !acc
                               else target in mem && mem[target]];
          results := results[Write(kind, target) := Recorded(results, Write(kind, target)) || acc];
      }
      assert Step(program[n], env, before) == Success(Machine(acc, mem, paren, saved, results));
    }
    return Success(results);
  }

  // ----- Programs compose

  lemma {:induction false} ExecAppend(p: seq<Instr>, q: seq<Instr>, env: Env, m: Machine)
    ensures Exec(p + q, env, m) == match Exec(p, env, m)
                                   case Success(m') => Exec(q, env, m')
                                   case Failure(e) => Failure(e)
  {
    if p == [] {
      assert p + q == q;
    } else {
      assert (p + q)[1..] == p[1..] + q;
      match Step(p[0], env, m)
      case Success(m') => ExecAppend(p[1..], q, env, m');
      case Failure(_) =>
    }
  }

  lemma ExecCons(i: Instr, p: seq<Instr>, env: Env, m: Machine)
    requires Step(i, env, m).Success?
    ensures Exec([i] + p, env, m) == Exec(p, env, Step(i, env, m).value)
  {
    assert ([i] + p)[1..] == p;
  }

  lemma ExecOne(i: Instr, env: Env, m: Machine)
    ensures Exec([i], env, m) == Step(i, env, m)
  {
    assert [i][1..] == [];
  }

  // ----- What single lines mean

  /** What a line reads: a constant, else what the rung itself has written, else the environment. */
  lemma LoadLaw(atom: string, neg: bool, env: Env, m: Machine)
    ensures Exec([Logic(Load, Operand(atom, neg))], env, m)
         == if atom == "1" then Success(m.(acc := !neg))
            else if atom == "0" then Success(m.(acc := neg))
            else if atom in m.mem then Success(m.(acc := if neg then !m.mem[atom] else m.mem[atom]))
            else if atom in env then Success(m.(acc := if neg then !env[atom] else env[atom]))
            else Failure(UndefinedAtom)
  {
    ExecOne(Logic(Load, Operand(atom, neg)), env, m);
  }

  /**
   * AND, OR and XOR against LD on the same operand: XOR always needs the operand, AND only under
   * a true accumulator and OR only under a false one.
   */
  lemma LineLaw(arg: Operand, env: Env, m: Machine)
    ensures var read := Exec([Logic(Load, arg)], env, m);
      && Exec([Logic(And, arg)], env, m) == (if m.acc then read else Success(m))
      && Exec([Logic(Or, arg)], env, m) == (if m.acc then Success(m) else read)
      && Exec([Logic(Xor, arg)], env, m) == (if read.Success? then Success(m.(acc := m.acc != read.value.acc)) else read)
  {
    hide Exec;
    forall op ensures Exec([Logic(op, arg)], env, m) == Step(Logic(op, arg), env, m) {
      ExecOne(Logic(op, arg), env, m);
    }
  }

  /**
   * After a write that ends any run, the target reads back under any later environment: what ST
   * stored, the negation of what STN saw, and under S and R what was there before, or false. No
   * other target changes, and the write shows the OR of the powers it has seen.
   */
  lemma WriteThenRead(p: seq<Instr>, kind: WriteKind, target: string, neg: bool, env: Env, later: Env, m: Machine)
    returns (before: Machine, after: Machine)
    requires Exec(p, env, m).Success? && !IsConstant(target)
    ensures Exec(p, env, m) == Success(before)
    ensures Exec(p + [Store(kind, target)], env, m) == Success(after)
    ensures Exec([Logic(Load, Operand(target, neg))], later, after).Success?
    ensures var read := Exec([Logic(Load, Operand(target, neg))], later, after).value.acc != neg;
      && (kind == Plain ==> read == before.acc)
      && (kind == Negated ==> read == !before.acc)
      && (kind != Plain && kind != Negated ==> read == (target in before.mem && before.mem[target]))
    ensures after.mem.Keys == before.mem.Keys + {target}
    ensures forall other :: other in before.mem && other != target ==> after.mem[other] == before.mem[other]
    ensures after == before.(mem := after.mem, results := before.results[Write(kind, target) :=
      before.acc || (Write(kind, target) in before.results && before.results[Write(kind, target)])])
  {
    before := Exec(p, env, m).value;
    ExecAppend(p, [Store(kind, target)], env, m);
    ExecOne(Store(kind, target), env, before);
    after := Step(Store(kind, target), env, before).value;
    LoadLaw(target, neg, later, after);
  }

  /** An operation shows the OR of the powers it has seen, a block pin the last power it was fed. */
  lemma PerformLaw(expr: string, block: string, pin: string, env: Env, m: Machine)
    ensures Exec([Perform(expr)], env, m) == Success(m.(results := m.results[Operation(expr) :=
      m.acc || (Operation(expr) in m.results && m.results[Operation(expr)])]))
    ensures Exec([Feed(block, pin)], env, m) == Success(m.(results := m.results[Key.Pin(block, pin) := m.acc]))
  {
    ExecOne(Perform(expr), env, m);
    ExecOne(Feed(block, pin), env, m);
  }

  // ----- Bracket structure, read off the program text alone

  /** Which groups are open and how many accumulators are saved. */
  datatype Brackets = Brackets(groups: seq<Operator>, saved: nat)

  function TrackOne(i: Instr, b: Brackets): Result<Brackets, Fault> {
    match i
    case Open(op, _) => Success(b.(groups := b.groups + [op]))
    case Close =>
      if b.groups == [] then Failure(EmptyStack)
      else if b.groups[|b.groups| - 1] == Load then Failure(UnknownGroup)
      else Success(b.(groups := b.groups[..|b.groups| - 1]))
    case Push => Success(b.(saved := b.saved + 1))
    case Peek => if b.saved == 0 then Failure(EmptyStack) else Success(b)
    case Pop => if b.saved == 0 then Failure(EmptyStack) else Success(b.(saved := b.saved - 1))
    case _ => Success(b)
  }

  function Track(p: seq<Instr>, b: Brackets): Result<Brackets, Fault> {
    if p == [] then Success(b)
    else
      var b' :- TrackOne(p[0], b);
      Track(p[1..], b')
  }

  const Closed := Brackets([], 0)

  /** Every group closed is one entered inside, every saved accumulator is taken back inside. */
  predicate Balanced(p: seq<Instr>) {
    Track(p, Closed) == Success(Closed)
  }

  function GroupsOf(paren: seq<(bool, Operator)>): (groups: seq<Operator>)
    ensures |groups| == |paren|
    ensures forall k :: 0 <= k < |paren| ==> groups[k] == paren[k].1
  {
    seq(|paren|, k requires 0 <= k < |paren| => paren[k].1)
  }

  function Shape(m: Machine): Brackets {
    Brackets(GroupsOf(m.paren), |m.saved|)
  }

  // ----- Atoms a program reads before it has written them itself

  function ReadsOne(i: Instr, written: set<string>): set<string> {
    if (i.Logic? || i.Open?) && !IsConstant(i.arg.atom) && i.arg.atom !in written
    then {i.arg.atom} else {}
  }

  function WritesOne(i: Instr): set<string> {
    if i.Store? then {i.target} else {}
  }

  function InputsOf(p: seq<Instr>, written: set<string>): set<string> {
    if p == [] then {}
    else ReadsOne(p[0], written) + InputsOf(p[1..], written + WritesOne(p[0]))
  }

  function KeysOne(i: Instr): set<Key> {
    match i
    case Perform(expr) => {Operation(expr)}
    case Feed(block, pin) => {Key.Pin(block, pin)}
    case Store(kind, target) => {Write(kind, target)}
    case _ => {}
  }

  function KeysOf(p: seq<Instr>): set<Key> {
    if p == [] then {} else KeysOne(p[0]) + KeysOf(p[1..])
  }

  lemma StepFollowsBrackets(i: Instr, env: Env, m: Machine)
    requires ReadsOne(i, m.mem.Keys) <= env.Keys
    ensures Step(i, env, m).Success? ==>
      && TrackOne(i, Shape(m)) == Success(Shape(Step(i, env, m).value))
      && Step(i, env, m).value.mem.Keys == m.mem.Keys + WritesOne(i)
      && Step(i, env, m).value.results.Keys == m.results.Keys + KeysOne(i)
    ensures Step(i, env, m).Failure? ==> TrackOne(i, Shape(m)) == Failure(Step(i, env, m).error)
  {
    match i
    case Logic(op, arg) => assert i.arg.atom in m.mem || IsConstant(i.arg.atom) || i.arg.atom in ReadsOne(i, m.mem.Keys);
    case Open(op, arg) =>
      assert i.arg.atom in m.mem || IsConstant(i.arg.atom) || i.arg.atom in ReadsOne(i, m.mem.Keys);
      assert GroupsOf(m.paren + [(m.acc, op)]) == GroupsOf(m.paren) + [op];
    case Close =>
      if m.paren != [] {
        assert GroupsOf(m.paren[..|m.paren| - 1]) == GroupsOf(m.paren)[..|m.paren| - 1];
      }
    case _ =>
  }

  /**
   * Whether a run faults, and how, is decided by the bracket structure alone, as soon as the
   * environment defines what the program reads before writing it. The keys of the result are
   * exactly the outputs that occur in the program.
   */
  lemma {:induction false} RunFollowsBrackets(p: seq<Instr>, env: Env, m: Machine)
    requires InputsOf(p, m.mem.Keys) <= env.Keys
    ensures match Exec(p, env, m)
            case Success(m') =>
              && Track(p, Shape(m)) == Success(Shape(m'))
              && m'.results.Keys == m.results.Keys + KeysOf(p)
            case Failure(e) => Track(p, Shape(m)) == Failure(e)
  {
    if p != [] {
      StepFollowsBrackets(p[0], env, m);
      match Step(p[0], env, m)
      case Success(m') => RunFollowsBrackets(p[1..], env, m');
      case Failure(_) =>
    }
  }

  // ----- A fragment cannot see below its own part of the stacks

  function Above(paren: seq<(bool, Operator)>, saved: seq<bool>, m: Machine): Machine {
    m.(paren := paren + m.paren, saved := saved + m.saved)
  }

  lemma {:induction false} Frame(
    p: seq<Instr>, env: Env, m: Machine, paren: seq<(bool, Operator)>, saved: seq<bool>)
    requires Exec(p, env, m).Success?
    ensures Exec(p, env, Above(paren, saved, m))
         == Success(Above(paren, saved, Exec(p, env, m).value))
  {
    if p != [] {
      var m' := Step(p[0], env, m).value;
      StepFrame(p[0], env, m, paren, saved);
      Frame(p[1..], env, m', paren, saved);
    }
  }

  lemma StepFrame(i: Instr, env: Env, m: Machine, paren: seq<(bool, Operator)>, saved: seq<bool>)
    requires Step(i, env, m).Success?
    ensures Step(i, env, Above(paren, saved, m)) == Success(Above(paren, saved, Step(i, env, m).value))
  {
    hide ValueOf, Combine, Recorded, Reads;
    match i
    case Open(op, arg) => assert paren + m.paren + [(m.acc, op)] == paren + (m.paren + [(m.acc, op)]);
    case Close => LastOnTop(paren, m.paren);
    case Push => assert saved + m.saved + [m.acc] == saved + (m.saved + [m.acc]);
    case Peek => LastOnTop(saved, m.saved);
    case Pop => LastOnTop(saved, m.saved);
    case _ =>
  }

  lemma LastOnTop<T>(below: seq<T>, above: seq<T>)
    requires above != []
    ensures var all := below + above;
      all != [] && all[|all| - 1] == above[|above| - 1] && all[..|all| - 1] == below + above[..|above| - 1]
  {
  }

  /** A balanced fragment never underflows and leaves both stacks as it found them. */
  lemma BalancedFragment(p: seq<Instr>, env: Env, m: Machine) returns (m': Machine)
    requires Balanced(p) && InputsOf(p, m.mem.Keys) <= env.Keys
    ensures Exec(p, env, m) == Success(m')
    ensures m'.paren == m.paren && m'.saved == m.saved
    ensures Exec(p, env, m.(paren := [], saved := [])) == Success(m'.(paren := [], saved := []))
  {
    var bare := m.(paren := [], saved := []);
    RunFollowsBrackets(p, env, bare);
    assert Shape(bare) == Closed;
    var end := Exec(p, env, bare).value;
    Frame(p, env, bare, m.paren, m.saved);
    m' := Above(m.paren, m.saved, end);
    assert Above(m.paren, m.saved, bare) == m;
  }

  lemma GroupRun(op: Operator, arg: Operand, body: seq<Instr>, env: Env, m: Machine) returns (inner: Machine)
    requires Balanced(body) && op != Load
    requires InputsOf([Logic(Load, arg)] + body, m.mem.Keys) <= env.Keys
    ensures Exec([Logic(Load, arg)] + body, env, m) == Success(inner)
    ensures Exec([Open(op, arg)] + body + [Close], env, m)
         == Success(inner.(acc := Combine(op, m.acc, inner.acc)))
  {
    hide Recorded;
    var first := [Logic(Load, arg)] + body;
    assert first[1..] == body;
    var v := ValueOf(arg, m.mem, env).value;
    assert m.mem.Keys + {} == m.mem.Keys;
    inner := BalancedFragment(body, env, m.(acc := v));
    var entered := m.(acc := v, paren := m.paren + [(m.acc, op)]);
    var atClose := BalancedFragment(body, env, entered);
    assert entered.(paren := [], saved := []) == m.(acc := v).(paren := [], saved := []);
    var whole := [Open(op, arg)] + body + [Close];
    assert whole[1..] == body + [Close];
    ExecAppend(body, [Close], env, entered);
    assert [Close][1..] == [];
    assert entered.paren[..|entered.paren| - 1] == m.paren;
    assert Exec([Close], env, atClose) == Success(inner.(acc := Combine(op, m.acc, inner.acc)));
  }

  /** A bracketed group combines the accumulator before it with the value of its content. */
  lemma GroupLaw(op: Operator, arg: Operand, body: seq<Instr>, env: Env, m: Machine) returns (inner: Machine)
    requires Balanced(body) && op != Load
    requires InputsOf([Logic(Load, arg)] + body, m.mem.Keys) <= env.Keys
    ensures Exec([Logic(Load, arg)] + body, env, m) == Success(inner)
    ensures Exec([Open(op, arg)] + body + [Close], env, m)
         == Success(inner.(acc := if op == And then m.acc && inner.acc
                                  else if op == Or then m.acc || inner.acc
                                  else m.acc != inner.acc))
  {
    hide Exec, InputsOf, Balanced;
    inner := GroupRun(op, arg, body, env, m);
  }

  // ----- Saved accumulators

  /** What a fragment reads before writing, split at a point that the run has reached. */
  lemma {:induction false} InputsSplit(p: seq<Instr>, q: seq<Instr>, env: Env, m: Machine)
    requires InputsOf(p + q, m.mem.Keys) <= env.Keys
    ensures InputsOf(p, m.mem.Keys) <= env.Keys
    ensures Exec(p, env, m).Success? ==> InputsOf(q, Exec(p, env, m).value.mem.Keys) <= env.Keys
  {
    if p == [] {
      assert p + q == q;
    } else {
      assert (p + q)[0] == p[0] && (p + q)[1..] == p[1..] + q;
      StepFollowsBrackets(p[0], env, m);
      if Step(p[0], env, m).Success? {
        InputsSplit(p[1..], q, env, Step(p[0], env, m).value);
      } else {
        InputsFirst(p[1..], q, m.mem.Keys + WritesOne(p[0]));
      }
    }
  }

  lemma {:induction false} InputsFirst(p: seq<Instr>, q: seq<Instr>, written: set<string>)
    ensures InputsOf(p, written) <= InputsOf(p + q, written)
  {
    if p != [] {
      assert (p + q)[0] == p[0] && (p + q)[1..] == p[1..] + q;
      InputsFirst(p[1..], q, written + WritesOne(p[0]));
    }
  }

  /** The branches after the first: each starts with MRD. */
  function Branches(bodies: seq<seq<Instr>>): seq<Instr> {
    if bodies == [] then [] else [Peek] + (bodies[0] + Branches(bodies[1..]))
  }

  /** Well-bracketed branches under one saved accumulator run through and leave both stacks as they were. */
  lemma {:induction false} BranchesRun(bodies: seq<seq<Instr>>, env: Env, m: Machine) returns (end: Machine)
    requires forall k :: 0 <= k < |bodies| ==> Balanced(bodies[k])
    requires InputsOf(Branches(bodies), m.mem.Keys) <= env.Keys && m.saved != []
    ensures Exec(Branches(bodies), env, m) == Success(end)
    ensures end.saved == m.saved && end.paren == m.paren
    decreases |bodies|
  {
    hide Balanced, InputsOf, Step;
    if bodies == [] {
      end := m;
    } else {
      var body, rest := bodies[0], Branches(bodies[1..]);
      var read := m.(acc := m.saved[|m.saved| - 1]);
      PeekReads(body + rest, env, m);
      InputsSplit(body, rest, env, read);
      var between := BalancedFragment(body, env, read);
      ExecAppend(body, rest, env, read);
      end := BranchesRun(bodies[1..], env, between);
    }
  }

  lemma PeekReads(rest: seq<Instr>, env: Env, m: Machine)
    requires m.saved != []
    ensures Exec([Peek] + rest, env, m) == Exec(rest, env, m.(acc := m.saved[|m.saved| - 1]))
    ensures InputsOf([Peek] + rest, m.mem.Keys) == InputsOf(rest, m.mem.Keys)
  {
    assert ([Peek] + rest)[1..] == rest && m.mem.Keys + {} == m.mem.Keys;
  }

  lemma PushSaves(rest: seq<Instr>, env: Env, m: Machine)
    ensures Exec([Push] + rest, env, m) == Exec(rest, env, m.(saved := m.saved + [m.acc]))
    ensures InputsOf([Push] + rest, m.mem.Keys) == InputsOf(rest, m.mem.Keys)
  {
    assert ([Push] + rest)[1..] == rest && m.mem.Keys + {} == m.mem.Keys;
  }

  /**
   * MPS, any number of well-bracketed branches with MRD between them, and MPP: the run goes
   * through, and both the closing MPP and a further MRD give back the accumulator saved by the MPS.
   */
  lemma SavedLaw(first: seq<Instr>, bodies: seq<seq<Instr>>, env: Env, m: Machine) returns (end: Machine)
    requires Balanced(first) && forall k :: 0 <= k < |bodies| ==> Balanced(bodies[k])
    requires InputsOf([Push] + (first + Branches(bodies)), m.mem.Keys) <= env.Keys
    ensures end.saved == m.saved && end.paren == m.paren
    ensures (Exec([Push] + (first + Branches(bodies)) + [Pop], env, m)
             == Success(end.(acc := m.acc)))
    ensures (Exec([Push] + (first + Branches(bodies)) + [Peek], env, m)
             == Success(end.(acc := m.acc, saved := m.saved + [m.acc])))
  {
    hide Balanced, InputsOf, Branches;
    var all := first + Branches(bodies);
    var pushed := m.(saved := m.saved + [m.acc]);
    PushSaves(all, env, m);
    InputsSplit(first, Branches(bodies), env, pushed);
    var between := BalancedFragment(first, env, pushed);
    ExecAppend(first, Branches(bodies), env, pushed);
    var last := BranchesRun(bodies, env, between);
    end := last.(saved := m.saved);
    ExecAppend([Push] + all, [Pop], env, m);
    ExecAppend([Push] + all, [Peek], env, m);
    ExecOne(Pop, env, last);
    ExecOne(Peek, env, last);
    LastOnTop(m.saved, [m.acc]);
    assert pushed.saved[..|pushed.saved| - 1] == m.saved;
  }

  /** How many accumulators a fragment leaves saved, relative to its start. */
  function Depth(p: seq<Instr>): int {
    if p == [] then 0
    else
      var last := p[|p| - 1];
      Depth(p[..|p| - 1]) + (if last.Push? then 1 else if last.Pop? then -1 else 0)
  }

  /** `read` takes back what `push` saved: the MPS is the last one at its depth before the read. */
  predicate Matches(p: seq<Instr>, push: nat, read: nat)
    requires push < read < |p|
  {
    && p[push].Push? && (p[read].Peek? || p[read].Pop?)
    && Depth(p[..push]) + 1 == Depth(p[..read])
    && forall i :: push < i <= read ==> Depth(p[..i]) > Depth(p[..push])
  }

  lemma {:induction false} ExecPrefix(p: seq<Instr>, env: Env, m: Machine, n: nat)
    requires n <= |p| && Exec(p, env, m).Success?
    ensures Exec(p[..n], env, m).Success?
    ensures n < |p| ==>
      Exec(p[..n + 1], env, m) == Step(p[n], env, Exec(p[..n], env, m).value)
  {
    assert p == p[..n] + p[n..];
    ExecAppend(p[..n], p[n..], env, m);
    if n < |p| {
      var reached := Exec(p[..n], env, m).value;
      assert p[..n + 1] == p[..n] + [p[n]];
      ExecAppend(p[..n], [p[n]], env, m);
      ExecOne(p[n], env, reached);
    }
  }

  /** The saved stack holds as many accumulators as the MPS and MPP so far leave. */
  lemma {:induction false} DepthIsHeight(p: seq<Instr>, env: Env, m: Machine, n: nat)
    requires n <= |p| && Exec(p, env, m).Success?
    ensures Exec(p[..n], env, m).Success?
    ensures |Exec(p[..n], env, m).value.saved| == |m.saved| + Depth(p[..n])
  {
    hide Exec, ValueOf, Combine, Recorded, Reads;
    ExecPrefix(p, env, m, n);
    if n == 0 {
      NothingRun(p[..0], env, m);
    } else {
      DepthIsHeight(p, env, m, n - 1);
      ExecPrefix(p, env, m, n - 1);
      assert p[..n][..n - 1] == p[..n - 1];
    }
  }

  lemma NothingRun(p: seq<Instr>, env: Env, m: Machine)
    requires |p| == 0
    ensures Exec(p, env, m) == Success(m)
  {
  }

  /** Below the height it never goes under, a run leaves the saved stack alone. */
  lemma {:induction false} SavedKept(p: seq<Instr>, env: Env, m: Machine, k: nat, from: nat, n: nat)
    requires Exec(p, env, m).Success? && from <= n <= |p|
    requires forall i :: from <= i <= n ==> |m.saved| + Depth(p[..i]) > k
    ensures Exec(p[..from], env, m).Success? && |Exec(p[..from], env, m).value.saved| > k
    ensures Exec(p[..n], env, m).Success? && |Exec(p[..n], env, m).value.saved| > k
    ensures Exec(p[..n], env, m).value.saved[k] == Exec(p[..from], env, m).value.saved[k]
    decreases n
  {
    hide Exec, ValueOf, Combine, Recorded, Reads, Depth;
    DepthIsHeight(p, env, m, from);
    DepthIsHeight(p, env, m, n);
    if from < n {
      SavedKept(p, env, m, k, from, n - 1);
      ExecPrefix(p, env, m, n - 1);
    }
  }

  /** Every read at some depth has a push at that depth before it. */
  lemma {:induction false} PushBefore(p: seq<Instr>, read: nat, d: nat) returns (push: nat)
    requires read <= |p| && 0 < d <= Depth(p[..read])
    ensures push < read && p[push].Push? && Depth(p[..push]) == d - 1
    ensures forall i :: push < i <= read ==> Depth(p[..i]) >= d
  {
    assert p[..read][..read - 1] == p[..read - 1];
    if Depth(p[..read - 1]) >= d {
      push := PushBefore(p, read - 1, d);
    } else {
      push := read - 1;
    }
  }

  /**
   * In any run that starts with nothing saved, whatever brackets surround it, every MRD and MPP
   * has its MPS, and sets the accumulator to the value it had when that MPS was reached.
   */
  lemma EveryReadRestores(p: seq<Instr>, env: Env, m: Machine, read: nat) returns (push: nat)
    requires Exec(p, env, m).Success? && m.saved == []
    requires read < |p| && (p[read].Peek? || p[read].Pop?)
    ensures push < read && Matches(p, push, read)
    ensures Exec(p[..push], env, m).Success? && Exec(p[..read + 1], env, m).Success?
    ensures Exec(p[..read + 1], env, m).value.acc == Exec(p[..push], env, m).value.acc
  {
    hide Exec, ValueOf, Combine, Recorded, Reads, Depth;
    DepthIsHeight(p, env, m, read);
    ExecPrefix(p, env, m, read);
    ExecPrefix(p, env, m, read + 1);
    var d := Depth(p[..read]);
    push := PushBefore(p, read, d);
    DepthIsHeight(p, env, m, push);
    ExecPrefix(p, env, m, push);
    SavedKept(p, env, m, d - 1, push + 1, read);
  }
}
