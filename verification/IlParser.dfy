/** Reading a rung's tokenised Instruction List lines into a program. */
module IlParser {
  import opened Wrappers
  import opened RungOutputs
  import opened InstructionList

  datatype Modifier = NoModifier | Inverted | Rising | Falling

  datatype Grouping = NoGroup | Group | InvertedGroup

  /** The first word of a line, classified. */
  datatype Word =
    | Block | OutBlock | EndBlock
    | RisingBlock
    | SaveAcc | ReadAcc | RestoreAcc | Invert
    | Writing(kind: WriteKind)
    | Logical(op: Operator, modifier: Modifier, grouping: Grouping)
    | Unknown

  /** A stripped line; bracketed expressions carry their normalised text. */
  datatype Line =
    | Blank                                             // empty, or MULTIFB
    | Bracketed(expr: string)
    | CloseLine
    | Words(word: Word, spelling: string, arg: string)

  datatype Reader = Reader(
    program: seq<Instr>, atoms: set<string>, written: set<string>,
    pins: map<string, seq<string>>, outs: map<string, seq<string>>,
    block: string,                                      // "" outside a block
    afterOut: bool)

  const Fresh := Reader([], {}, {}, map[], map[], "", false)

  function Appended(m: map<string, seq<string>>, name: string, item: string): map<string, seq<string>> {
    m[name := Listed(m, name) + [item]]
  }

  /** `AND(N x` is rewritten to `AND( N x` before the negation is read. */
  function OperandText(op: Operator, grouping: Grouping, arg: string): string {
    if op == And && grouping == InvertedGroup then "N " + arg else arg
  }

  predicate MarkedInverted(text: string) {
    "N " <= text
  }

  function Unmarked(text: string): string {
    if MarkedInverted(text) then text[2..] else text
  }

  predicate IsInverted(op: Operator, modifier: Modifier, grouping: Grouping, text: string) {
    modifier == Inverted || (grouping == InvertedGroup && op != And) || MarkedInverted(text)
  }

  /** Inside a block, after OUT_BLK, a name without `%` is one of the block's outputs. */
  predicate NamesBlockOutput(r: Reader, text: string) {
    && r.block != "" && r.afterOut
    && !IsConstant(text) && !("[" <= text) && !("%" <= text)
  }

  function AtomOf(r: Reader, modifier: Modifier, text: string): string {
    if IsConstant(text) || "[" <= text then text
    else if NamesBlockOutput(r, text) then "out:" + r.block + "." + text
    else (match modifier case Rising => "R:" case Falling => "F:" case _ => "") + text
  }

  predicate NamesPin(r: Reader, word: Word, arg: string) {
    r.block != "" && arg == "" && !r.afterOut
    && !word.SaveAcc? && !word.ReadAcc? && !word.RestoreAcc? && !word.Invert?
  }

  function Emit(r: Reader, i: Instr): Reader {
    r.(program := r.program + [i])
  }

  function ReadLogical(r: Reader, op: Operator, modifier: Modifier, grouping: Grouping, arg: string): Reader {
    var text := OperandText(op, grouping, arg);
    var atom := AtomOf(r, modifier, Unmarked(text));
    var operand := Operand(atom, IsInverted(op, modifier, grouping, text));
    var instr := if grouping == NoGroup then Logic(op, operand) else Open(op, operand);
    var outs := if NamesBlockOutput(r, Unmarked(text)) then Appended(r.outs, r.block, Unmarked(text))
                else r.outs;
    var atoms := if IsConstant(atom) || atom in r.written then r.atoms else r.atoms + {atom};
    Emit(r.(outs := outs, atoms := atoms), instr)
  }

  /** One line; the failure is an instruction the reader does not know. */
  function ReadLine(r: Reader, line: Line): Result<Reader, string> {
    match line
    case Blank => Success(r)
    case Bracketed(expr) => Success(Emit(r, Perform(expr)))
    case CloseLine => Success(Emit(r, Close))
    case Words(word, spelling, arg) =>
      if word.Block? then Success(r.(block := arg, afterOut := false))
      else if word.OutBlock? then Success(r.(afterOut := true))
      else if word.EndBlock? then Success(r.(block := ""))
      else if NamesPin(r, word, arg) then
        Success(Emit(r.(pins := Appended(r.pins, r.block, spelling)), Feed(r.block, spelling)))
      else
        match word
        case RisingBlock =>
          Success(Emit(r.(atoms := r.atoms + {spelling}), Logic(And, Operand(spelling, false))))
        case SaveAcc => Success(Emit(r, Push))
        case ReadAcc => Success(Emit(r, Peek))
        case RestoreAcc => Success(Emit(r, Instr.Pop))
        case Invert => Success(Emit(r, Negate))
        case Writing(kind) => Success(Emit(r.(written := r.written + {arg}), Store(kind, arg)))
        case Logical(op, modifier, grouping) =>
          Success(ReadLogical(r, op, modifier, grouping, arg))
        case _ => Failure("il:" + spelling)
  }

  function ReadLines(r: Reader, lines: seq<Line>): Result<Reader, string>
    decreases lines
  {
    if lines == [] then Success(r)
    else
      var r' :- ReadLine(r, lines[0]);
      ReadLines(r', lines[1..])
  }

  lemma ReadCons(r: Reader, line: Line, rest: seq<Line>)
    requires ReadLine(r, line).Success?
    ensures ReadLines(r, [line] + rest) == ReadLines(ReadLine(r, line).value, rest)
  {
    assert ([line] + rest)[1..] == rest;
  }

  lemma {:induction false} ReadAppend(r: Reader, p: seq<Line>, q: seq<Line>)
    requires ReadLines(r, p).Success?
    ensures ReadLines(r, p + q) == ReadLines(ReadLines(r, p).value, q)
    decreases p
  {
    if p == [] {
      assert p + q == q;
    } else {
      assert (p + q)[1..] == p[1..] + q;
      ReadAppend(ReadLine(r, p[0]).value, p[1..], q);
    }
  }

  lemma ReadOne(r: Reader, line: Line)
    ensures ReadLines(r, [line]) == ReadLine(r, line)
  {
    assert [line][1..] == [];
  }

  /**
   * Edge modifiers do not reach constants, comparisons and outputs of the block a line is in:
   * a constant is no atom, and an output is noted under its block.
   */
  lemma EdgesIgnored(r: Reader, op: Operator, modifier: Modifier, grouping: Grouping, arg: string)
    ensures var text, r' := Unmarked(OperandText(op, grouping, arg)), ReadLogical(r, op, modifier, grouping, arg);
      && |r'.program| == |r.program| + 1
      && var i := r'.program[|r.program|];
      && (i.Logic? || i.Open?) && (i.Open? <==> grouping != NoGroup) && i.op == op
      && (text == "0" || text == "1" ==> i.arg.atom == text && r' == r.(program := r'.program))
      && ("[" <= text ==> i.arg.atom == text && r' == r.(program := r'.program, atoms := r.atoms + ({text} - r.written)))
      && (r.block != "" && r.afterOut && text != "0" && text != "1" && !("[" <= text) && !("%" <= text) ==>
            && i.arg.atom == "out:" + r.block + "." + text
            && Listed(r'.outs, r.block) == Listed(r.outs, r.block) + [text])
  {
    var text := Unmarked(OperandText(op, grouping, arg));
    assert "[" <= text ==> text[0] == '[';
    assert r.atoms + {} == r.atoms;
    assert text in r.written ==> {text} - r.written == {};
    assert text !in r.written ==> {text} - r.written == {text};
  }

  // ----- Internal temporaries

  predicate ReadsAtom(i: Instr, atom: string) {
    (i.Logic? || i.Open?) && i.arg.atom == atom
  }

  /** Written by one instruction of the rung and read by a later one. */
  ghost predicate IsInternal(program: seq<Instr>, target: string) {
    exists w, r :: 0 <= w < r < |program| && program[w].Store? && program[w].target == target
                   && ReadsAtom(program[r], target)
  }

  datatype Parsed = Parsed(
    program: seq<Instr>, atoms: set<string>, outputs: set<Key>, internal: set<string>,
    pins: map<string, seq<string>>, outs: map<string, seq<string>>)

  ghost predicate Reads(lines: seq<Line>, p: Parsed) {
    && ReadLines(Fresh, lines).Success?
    && var r := ReadLines(Fresh, lines).value;
    && p.program == r.program && p.atoms == r.atoms && p.pins == r.pins && p.outs == r.outs
    && (forall t :: t in p.internal <==> IsInternal(r.program, t))
    && (forall key :: key in p.outputs <==>
          key in KeysOf(r.program) && !(key.Write? && IsInternal(r.program, key.target)))
  }

  method ParseIl(lines: seq<Line>) returns (result: Result<Parsed, string>)
    ensures result.Failure? <==> ReadLines(Fresh, lines).Failure?
    ensures result.Failure? ==> result.error == ReadLines(Fresh, lines).error
    ensures result.Success? ==> Reads(lines, result.value)
  {
    var program: seq<Instr>, atoms, written: set<string> := [], {}, {};
    var pins, outs, block, afterOut := map[], map[], "", false;
    for n := 0 to |lines|
      invariant ReadLines(Fresh, lines)
             == ReadLines(Reader(program, atoms, written, pins, outs, block, afterOut), lines[n..])
    {
      ghost var before := Reader(program, atoms, written, pins, outs, block, afterOut);
      assert lines[n..][1..] == lines[n + 1..];
      match lines[n] {
        case Blank =>
        case Bracketed(expr) => program := program + [Perform(expr)];
        case CloseLine => program := program + [Close];
        case Words(word, spelling, arg) =>
          if word.Block? {
            block, afterOut := arg, false;
          } else if word.OutBlock? {
            afterOut := true;
          } else if word.EndBlock? {
            block := "";
          } else if NamesPin(Reader(program, atoms, written, pins, outs, block, afterOut), word, arg) {
            pins := Appended(pins, block, spelling);
            program := program + [Feed(block, spelling)];
          } else {
            match word {
              case RisingBlock =>
                atoms := atoms + {spelling};
                program := program + [Logic(And, Operand(spelling, false))];
              case SaveAcc => program := program + [Push];
              case ReadAcc => program := program + [Peek];
              case RestoreAcc => program := program + [Instr.Pop];
              case Invert => program := program + [Negate];
              case Writing(kind) =>
                written := written + {arg};
                program := program + [Store(kind, arg)];
              case Logical(op, modifier, grouping) =>
                var here := Reader(program, atoms, written, pins, outs, block, afterOut);
                var text := OperandText(op, grouping, arg);
                var neg := IsInverted(op, modifier, grouping, text);
                text := Unmarked(text);
                var atom := AtomOf(here, modifier, text);
                if NamesBlockOutput(here, text) {
                  outs := Appended(outs, block, text);
                }
                if !IsConstant(atom) && atom !in written {
                  atoms := atoms + {atom};
                }
                program := program + [if grouping == NoGroup then Logic(op, Operand(atom, neg))
                                      else Open(op, Operand(atom, neg))];
              case _ => return Failure("il:" + spelling);
            }
          }
      }
      assert ReadLine(before, lines[n]) == Success(Reader(program, atoms, written, pins, outs, block, afterOut));
    }
    var internal := InternalTargets(program);
    var outputs := RungKeys(program, internal);
    return Success(Parsed(program, atoms, outputs, internal, pins, outs));
  }

  method InternalTargets(program: seq<Instr>) returns (internal: set<string>)
    ensures forall t :: t in internal <==> IsInternal(program, t)
  {
    internal := {};
    var seen: set<string> := {};
    for n := 0 to |program|
      invariant forall t :: t in seen <==> exists w :: 0 <= w < n && program[w].Store? && program[w].target == t
      invariant forall t :: t in internal <==>
        exists w, r :: 0 <= w < r < n && program[w].Store? && program[w].target == t && ReadsAtom(program[r], t)
    {
      var i := program[n];
      if i.Store? {
        seen := seen + {i.target};
      } else if (i.Logic? || i.Open?) && i.arg.atom in seen {
        internal := internal + {i.arg.atom};
      }
    }
  }

  method RungKeys(program: seq<Instr>, internal: set<string>) returns (outputs: set<Key>)
    ensures forall key :: key in outputs <==>
      key in KeysOf(program) && !(key.Write? && key.target in internal)
  {
    outputs := {};
    for n := 0 to |program|
      invariant forall key :: key in outputs <==>
        key in KeysOf(program[..n]) && !(key.Write? && key.target in internal)
    {
      KeysAppend(program[..n], program[n]);
      assert program[..n] + [program[n]] == program[..n + 1];
      match program[n] {
        case Store(kind, target) => if target !in internal { outputs := outputs + {Write(kind, target)}; }
        case Perform(expr) => outputs := outputs + {Operation(expr)};
        case Feed(b, pin) => outputs := outputs + {Key.Pin(b, pin)};
        case _ =>
      }
    }
    assert program[..|program|] == program;
  }

  lemma {:induction false} KeysAppend(p: seq<Instr>, i: Instr)
    ensures KeysOf(p + [i]) == KeysOf(p) + KeysOne(i)
  {
    if p == [] {
      assert (p + [i])[1..] == [];
    } else {
      assert (p + [i])[1..] == p[1..] + [i];
      KeysAppend(p[1..], i);
    }
  }

  // ----- What the interpreter may rely on after parsing

  function WrittenBy(p: seq<Instr>): set<string> {
    set i | 0 <= i < |p| && p[i].Store? :: p[i].target
  }

  lemma {:induction false} InputsAppend(p: seq<Instr>, i: Instr, written: set<string>)
    ensures InputsOf(p + [i], written) == InputsOf(p, written) + ReadsOne(i, written + WrittenBy(p))
  {
    if p == [] {
      assert (p + [i])[1..] == [];
      assert written + WrittenBy(p) == written;
    } else {
      assert (p + [i])[1..] == p[1..] + [i];
      InputsAppend(p[1..], i, written + WritesOne(p[0]));
      WrittenByHead(p);
      assert written + WritesOne(p[0]) + WrittenBy(p[1..]) == written + WrittenBy(p);
    }
  }

  lemma WrittenByHead(p: seq<Instr>)
    requires p != []
    ensures WrittenBy(p) == WritesOne(p[0]) + WrittenBy(p[1..])
  {
    forall t | t in WrittenBy(p) ensures t in WritesOne(p[0]) + WrittenBy(p[1..]) {
      var i :| 0 <= i < |p| && p[i].Store? && p[i].target == t;
      if i > 0 { assert p[1..][i - 1] == p[i]; }
    }
    forall t | t in WrittenBy(p[1..]) ensures t in WrittenBy(p) {
      var i :| 0 <= i < |p[1..]| && p[1..][i].Store? && p[1..][i].target == t;
      assert p[i + 1].Store?;
    }
  }

  /** The RISINGn names a list of lines reads, in whatever reader state. */
  ghost predicate Consistent(r: Reader, rising: set<string>) {
    && r.written == WrittenBy(r.program)
    && InputsOf(r.program, {}) <= r.atoms <= InputsOf(r.program, {}) + rising
  }

  function RisingNames(lines: seq<Line>): set<string> {
    set n | 0 <= n < |lines| && lines[n].Words? && lines[n].word.RisingBlock? :: lines[n].spelling
  }

  lemma EmitConsistent(r: Reader, r': Reader, i: Instr, rising: set<string>)
    requires Consistent(r, rising)
    requires r'.program == r.program + [i] && r'.written == r.written + WritesOne(i)
    requires r.atoms + ReadsOne(i, r.written) <= r'.atoms <= r.atoms + ReadsOne(i, r.written) + rising
    ensures Consistent(r', rising)
  {
    InputsAppend(r.program, i, {});
    assert {} + WrittenBy(r.program) == r.written;
    assert WrittenBy(r'.program) == r'.written by {
      forall t | t in r.written ensures t in WrittenBy(r'.program) {
        var k :| 0 <= k < |r.program| && r.program[k].Store? && r.program[k].target == t;
        assert r'.program[k] == r.program[k];
      }
      assert r'.program[|r.program|] == i;
    }
  }

  lemma ReadLineConsistent(r: Reader, line: Line, rising: set<string>)
    requires Consistent(r, rising)
    requires line.Words? && line.word.RisingBlock? ==> line.spelling in rising
    requires ReadLine(r, line).Success?
    ensures Consistent(ReadLine(r, line).value, rising)
  {
    var r' := ReadLine(r, line).value;
    if r'.program != r.program {
      if line.Words? && line.word.Logical? && !NamesPin(r, line.word, line.arg) {
        LogicalConsistent(r, line.word.op, line.word.modifier, line.word.grouping, line.arg, rising);
      } else {
        var i := match line
                 case Bracketed(expr) => Perform(expr)
                 case CloseLine => Close
                 case Words(word, spelling, arg) =>
                   if NamesPin(r, word, arg) then Feed(r.block, spelling)
                   else (match word
                     case RisingBlock => Logic(And, Operand(spelling, false))
                     case SaveAcc => Push
                     case ReadAcc => Peek
                     case RestoreAcc => Instr.Pop
                     case Invert => Negate
                     case Writing(kind) => Store(kind, arg)
                     case _ => Close)
                 case Blank => Close;
        assert r'.program == r.program + [i];
        EmitConsistent(r, r', i, rising);
      }
    }
  }

  lemma LogicalConsistent(
    r: Reader, op: Operator, modifier: Modifier, grouping: Grouping, arg: string, rising: set<string>)
    requires Consistent(r, rising)
    ensures Consistent(ReadLogical(r, op, modifier, grouping, arg), rising)
  {
    var r' := ReadLogical(r, op, modifier, grouping, arg);
    var i := r'.program[|r.program|];
    assert WritesOne(i) == {};
    EmitConsistent(r, r', i, rising);
  }

  lemma {:induction false} ReadLinesConsistent(r: Reader, lines: seq<Line>, rising: set<string>)
    requires Consistent(r, rising) && RisingNames(lines) <= rising
    requires ReadLines(r, lines).Success?
    ensures Consistent(ReadLines(r, lines).value, rising)
    decreases lines
  {
    if lines != [] {
      assert lines[0].Words? && lines[0].word.RisingBlock? ==> lines[0].spelling in RisingNames(lines);
      ReadLineConsistent(r, lines[0], rising);
      assert RisingNames(lines[1..]) <= rising by {
        forall t | t in RisingNames(lines[1..]) ensures t in RisingNames(lines) {
          var n :| 0 <= n < |lines[1..]| && lines[1..][n].Words? && lines[1..][n].word.RisingBlock?
                   && lines[1..][n].spelling == t;
          assert lines[n + 1].spelling == t;
        }
      }
      ReadLinesConsistent(ReadLine(r, lines[0]).value, lines[1..], rising);
    }
  }

  /** The atoms reported are the atoms read before being written, and the RISINGn blocks. */
  lemma AtomsAreInputs(lines: seq<Line>, p: Parsed)
    requires Reads(lines, p)
    ensures InputsOf(p.program, {}) <= p.atoms <= InputsOf(p.program, {}) + RisingNames(lines)
  {
    assert WrittenBy([]) == {};
    ReadLinesConsistent(Fresh, lines, RisingNames(lines));
  }

  /**
   * After parsing, an environment defined on the reported atoms is enough: the interpreter
   * faults exactly when the brackets do not match, never on an atom, and what it records are
   * exactly the reported outputs and the writes to internal temporaries.
   */
  lemma ParseThenRun(lines: seq<Line>, p: Parsed, env: Env)
    requires Reads(lines, p) && p.atoms <= env.Keys
    ensures Exec(p.program, env, Start).Success? <==> Track(p.program, Closed).Success?
    ensures Exec(p.program, env, Start) != Failure(UndefinedAtom)
    ensures Exec(p.program, env, Start).Success? ==>
      forall key :: key in Exec(p.program, env, Start).value.results <==>
        key in p.outputs || (key in KeysOf(p.program) && key.Write? && key.target in p.internal)
  {
    AtomsAreInputs(lines, p);
    assert Start.mem.Keys == {};
    RunFollowsBrackets(p.program, env, Start);
    assert Shape(Start) == Closed;
    TrackNeverReads(p.program, Closed);
  }

  lemma {:induction false} TrackNeverReads(p: seq<Instr>, b: Brackets)
    ensures Track(p, b) != Failure(UndefinedAtom)
  {
    if p != [] {
      match TrackOne(p[0], b)
      case Success(b') => TrackNeverReads(p[1..], b');
      case Failure(_) =>
    }
  }
}
