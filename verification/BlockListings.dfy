/** The listing of a function block: what feeds its pins, and what its outputs are stored into. */
module BlockListings {
  import opened Wrappers
  import opened RungOutputs
  import IL = InstructionList
  import Text = IlParser

  /** `LD operand` and, on the next line, the pin it feeds. */
  datatype Wire = Wire(operand: string, pin: string)

  /** `LD output`, an output pin of the block, and `ST target`. */
  datatype Tap = Tap(output: string, target: string)

  function LoadLine(arg: string): Text.Line {
    Text.Words(Text.Logical(IL.Load, Text.NoModifier, Text.NoGroup), "LD", arg)
  }

  function WireLines(wires: seq<Wire>): seq<Text.Line> {
    if wires == [] then []
    else [LoadLine(wires[0].operand), Text.Words(Text.Unknown, wires[0].pin, "")] + WireLines(wires[1..])
  }

  function TapLines(taps: seq<Tap>): seq<Text.Line> {
    if taps == [] then []
    else [LoadLine(taps[0].output), Text.Words(Text.Writing(Plain), "ST", taps[0].target)] + TapLines(taps[1..])
  }

  function BlockLines(name: string, wires: seq<Wire>, taps: seq<Tap>): seq<Text.Line> {
    [Text.Words(Text.Block, "BLK", name)] + (WireLines(wires) + ([Text.Words(Text.OutBlock, "OUT_BLK", "")]
      + (TapLines(taps) + [Text.Words(Text.EndBlock, "END_BLK", "")])))
  }

  function OutputName(name: string, output: string): string {
    "out:" + name + "." + output
  }

  function WireCode(name: string, wires: seq<Wire>): seq<IL.Instr> {
    if wires == [] then []
    else [IL.Logic(IL.Load, IL.Operand(wires[0].operand, false)), IL.Feed(name, wires[0].pin)] + WireCode(name, wires[1..])
  }

  function TapCode(name: string, taps: seq<Tap>): seq<IL.Instr> {
    if taps == [] then []
    else [IL.Logic(IL.Load, IL.Operand(OutputName(name, taps[0].output), false)), IL.Store(Plain, taps[0].target)]
         + TapCode(name, taps[1..])
  }

  function PinsOf(wires: seq<Wire>): seq<string> {
    if wires == [] then [] else [wires[0].pin] + PinsOf(wires[1..])
  }

  function OutputsOf(taps: seq<Tap>): seq<string> {
    if taps == [] then [] else [taps[0].output] + OutputsOf(taps[1..])
  }

  function Operands(wires: seq<Wire>): set<string> {
    if wires == [] then {} else {wires[0].operand} + Operands(wires[1..])
  }

  function OutputNames(name: string, taps: seq<Tap>): set<string> {
    if taps == [] then {} else {OutputName(name, taps[0].output)} + OutputNames(name, taps[1..])
  }

  function Stored(taps: seq<Tap>): set<string> {
    if taps == [] then {} else {taps[0].target} + Stored(taps[1..])
  }

  lemma WireCons(name: string, w: Wire, rest: seq<Wire>)
    ensures WireCode(name, [w] + rest) == WireCode(name, [w]) + WireCode(name, rest)
    ensures PinsOf([w] + rest) == PinsOf([w]) + PinsOf(rest)
    ensures Operands([w] + rest) == Operands([w]) + Operands(rest)
  {
    assert ([w] + rest)[1..] == rest && [w][1..] == [];
  }

  lemma TapCons(name: string, x: Tap, rest: seq<Tap>)
    ensures TapCode(name, [x] + rest) == TapCode(name, [x]) + TapCode(name, rest)
    ensures OutputsOf([x] + rest) == OutputsOf([x]) + OutputsOf(rest)
    ensures OutputNames(name, [x] + rest) == OutputNames(name, [x]) + OutputNames(name, rest)
    ensures Stored([x] + rest) == Stored([x]) + Stored(rest)
  {
    hide OutputName;
    assert ([x] + rest)[1..] == rest && [x][1..] == [];
  }

  /** Written without marks that a reader would take for something else; a blank operand would make the line a pin. */
  predicate PlainText(s: string) {
    s != "" && !IL.IsConstant(s) && !("[" <= s) && !("N " <= s)
  }

  predicate PlainWires(wires: seq<Wire>) {
    forall w :: w in wires ==> PlainText(w.operand)
  }

  /** Names with a `%` are no block outputs, and the names of block outputs are no targets. */
  predicate PlainTaps(taps: seq<Tap>) {
    forall x :: x in taps ==> PlainText(x.output) && !("%" <= x.output) && "%" <= x.target
  }

  predicate Inside(r: Text.Reader, name: string, afterOut: bool) {
    r.block == name && name != "" && r.afterOut == afterOut && forall target :: target in r.written ==> "%" <= target
  }

  /** Reader `r` after the lines of some wires. */
  ghost predicate Wired(r: Text.Reader, wires: seq<Wire>, r': Text.Reader) {
    && r'.program == r.program + WireCode(r.block, wires)
    && Listed(r'.pins, r.block) == Listed(r.pins, r.block) + PinsOf(wires)
    && (forall other :: other != r.block ==> Listed(r'.pins, other) == Listed(r.pins, other))
    && r'.atoms == r.atoms + (Operands(wires) - r.written)
    && r' == r.(program := r'.program, pins := r'.pins, atoms := r'.atoms)
  }

  lemma {:induction false} WiresRead(r: Text.Reader, wires: seq<Wire>) returns (r': Text.Reader)
    requires Inside(r, r.block, false) && PlainWires(wires)
    ensures Text.ReadLines(r, WireLines(wires)) == Success(r') && Wired(r, wires, r')
    decreases |wires|
  {
    if wires == [] {
      r' := r;
    } else {
      var first, rest := wires[0], wires[1..];
      assert first in wires;
      var between := WireRead(r, first, WireLines(rest));
      r' := WiresRead(between, rest);
      WiredMore(r, first, rest, between, r');
      assert [first] + rest == wires;
    }
  }

  lemma WireRead(r: Text.Reader, w: Wire, rest: seq<Text.Line>) returns (r': Text.Reader)
    requires Inside(r, r.block, false) && PlainText(w.operand)
    ensures Text.ReadLines(r, WireLines([w]) + rest) == Text.ReadLines(r', rest) && Wired(r, [w], r')
  {
    var pin := Text.Words(Text.Unknown, w.pin, "");
    assert "" + w.operand == w.operand;
    var loaded := Text.ReadLine(r, LoadLine(w.operand)).value;
    r' := Text.ReadLine(loaded, pin).value;
    assert [w][1..] == [];
    assert WireLines([w]) + rest == [LoadLine(w.operand), pin] + rest;
    ReadTwo(r, LoadLine(w.operand), pin, rest);
  }

  lemma ReadTwo(r: Text.Reader, a: Text.Line, b: Text.Line, rest: seq<Text.Line>)
    requires Text.ReadLine(r, a).Success? && Text.ReadLine(Text.ReadLine(r, a).value, b).Success?
    ensures Text.ReadLines(r, [a, b] + rest) == Text.ReadLines(Text.ReadLine(Text.ReadLine(r, a).value, b).value, rest)
  {
    hide Text.ReadLine;
    assert ([a, b] + rest)[1..] == [b] + rest && ([b] + rest)[1..] == rest;
  }

  lemma WiredMore(r: Text.Reader, w: Wire, rest: seq<Wire>, between: Text.Reader, r': Text.Reader)
    requires Wired(r, [w], between) && Wired(between, rest, r')
    ensures Wired(r, [w] + rest, r')
  {
    hide WireCode, PinsOf, Operands;
    WireCons(r.block, w, rest);
  }

  /** Reader `r` after the lines of some taps. */
  ghost predicate Tapped(r: Text.Reader, taps: seq<Tap>, r': Text.Reader) {
    && r'.program == r.program + TapCode(r.block, taps)
    && Listed(r'.outs, r.block) == Listed(r.outs, r.block) + OutputsOf(taps)
    && (forall other :: other != r.block ==> Listed(r'.outs, other) == Listed(r.outs, other))
    && r'.atoms == r.atoms + OutputNames(r.block, taps) && r'.written == r.written + Stored(taps)
    && r' == r.(program := r'.program, outs := r'.outs, atoms := r'.atoms, written := r'.written)
  }

  lemma {:induction false} TapsRead(r: Text.Reader, taps: seq<Tap>) returns (r': Text.Reader)
    requires Inside(r, r.block, true) && PlainTaps(taps)
    ensures Text.ReadLines(r, TapLines(taps)) == Success(r') && Tapped(r, taps, r')
    decreases |taps|
  {
    hide Tapped, Text.ReadLine, Text.ReadLines, TapLines, TapCode, PlainText;
    if taps == [] {
      r' := r;
      TappedNone(r);
      ReadNone(r);
    } else {
      var first, rest := taps[0], taps[1..];
      assert first in taps && taps == [first] + rest;
      var between := TapRead(r, first, TapLines(rest));
      TapsInLine(first, rest);
      r' := TapsRead(between, rest);
      TappedMore(r, first, rest, between, r');
    }
  }

  lemma TappedNone(r: Text.Reader)
    ensures Tapped(r, [], r) && TapLines([]) == []
  {
    assert r.atoms + {} == r.atoms && r.written + {} == r.written;
  }

  lemma TapsInLine(x: Tap, rest: seq<Tap>)
    ensures TapLines([x] + rest) == TapLines([x]) + TapLines(rest)
  {
    assert ([x] + rest)[1..] == rest && [x][1..] == [];
  }

  lemma TapRead(r: Text.Reader, x: Tap, rest: seq<Text.Line>) returns (r': Text.Reader)
    requires Inside(r, r.block, true) && PlainTaps([x])
    ensures Text.ReadLines(r, TapLines([x]) + rest) == Text.ReadLines(r', rest)
    ensures Tapped(r, [x], r') && Inside(r', r.block, true)
  {
    assert x in [x] && [x][1..] == [];
    var store, name := Text.Words(Text.Writing(Plain), "ST", x.target), OutputName(r.block, x.output);
    assert name[0] == 'o' && name !in r.written && !IL.IsConstant(name);
    var loaded := Text.ReadLine(r, LoadLine(x.output)).value;
    r' := Text.ReadLine(loaded, store).value;
    assert TapLines([x]) + rest == [LoadLine(x.output), store] + rest;
    ReadTwo(r, LoadLine(x.output), store, rest);
  }

  lemma TappedMore(r: Text.Reader, x: Tap, rest: seq<Tap>, between: Text.Reader, r': Text.Reader)
    requires Tapped(r, [x], between) && Tapped(between, rest, r')
    ensures Tapped(r, [x] + rest, r')
  {
    hide TapCode, OutputsOf, OutputNames, Stored;
    TapCons(r.block, x, rest);
  }

  /**
   * A block on its own: its listing feeds each pin from its operand and stores each output into
   * its target; the pins and outputs are noted under the block's name, in the order of the listing.
   */
  lemma BlockParses(name: string, wires: seq<Wire>, taps: seq<Tap>) returns (r: Text.Reader)
    requires name != "" && PlainWires(wires) && PlainTaps(taps)
    ensures Text.ReadLines(Text.Fresh, BlockLines(name, wires, taps)) == Success(r)
    ensures r.program == WireCode(name, wires) + TapCode(name, taps)
    ensures Listed(r.pins, name) == PinsOf(wires) && Listed(r.outs, name) == OutputsOf(taps)
    ensures r.atoms == Operands(wires) + OutputNames(name, taps) && r.written == Stored(taps) && r.block == ""
  {
    hide Text.ReadLines, WireLines, TapLines, WireCode, TapCode;
    var start, out, stop := Text.Words(Text.Block, "BLK", name), Text.Words(Text.OutBlock, "OUT_BLK", ""),
                            Text.Words(Text.EndBlock, "END_BLK", "");
    var open := Text.Fresh.(block := name);
    var fed := WiresRead(open, wires);
    var turned := fed.(afterOut := true);
    var tapped := TapsRead(turned, taps);
    r := tapped.(block := "");
    var rest := TapLines(taps) + [stop];
    Text.ReadCons(Text.Fresh, start, WireLines(wires) + ([out] + rest));
    Text.ReadAppend(open, WireLines(wires), [out] + rest);
    Text.ReadCons(fed, out, rest);
    Text.ReadAppend(turned, TapLines(taps), [stop]);
    Text.ReadCons(tapped, stop, []);
    ReadNone(r);
    assert [stop] + [] == [stop];
    assert [] + WireCode(name, wires) == WireCode(name, wires);
    assert [] + PinsOf(wires) == PinsOf(wires) && [] + OutputsOf(taps) == OutputsOf(taps);
  }

  lemma ReadNone(r: Text.Reader)
    ensures Text.ReadLines(r, []) == Success(r)
  {
  }
}
