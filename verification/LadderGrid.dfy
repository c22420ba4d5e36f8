/** A rung drawn as a ladder grid, and what power reaches each of its nodes. */
module LadderGrid {
  import opened Wrappers
  import opened RungOutputs
  import opened RowJoins

  datatype BlockType = Timer | Counter | Drum | WriteVarBasic

  datatype Element =
    | Line | Short | VerticalLine | Empty
    | NormalContact | NegatedContact | RisingEdge | FallingEdge | RisingEdgeBlock | XorContact | Not
    | Comparison(expr: string)     // normalised text without `:=`
    | Assignment(expr: string)     // a Comparison cell holding `:=`
    | Coil(kind: WriteKind)
    | OperationBox(expr: string)
    | Block(blockType: BlockType)
    | Other(name: string)

  /** One stored cell. The four flags are the members of its ChosenConnection. */
  datatype Cell = Cell(
    element: Element, row: int, col: int, descriptor: string,
    left: bool, right: bool, up: bool, down: bool)

  /** A rung's cells, the pins and outputs its IL wires per block name, and an environment. */
  datatype Grid = Grid(
    cells: seq<Cell>, pins: map<string, seq<string>>, outs: map<string, seq<string>>, env: map<string, bool>)

  function Width(c: Cell): (w: nat)
    ensures w > 0
  {
    match c.element
    case Block(WriteVarBasic) => 4
    case Block(_) => 2
    case Comparison(_) => 2
    case Assignment(_) => 2
    case OperationBox(_) => 2
    case _ => 1
  }

  /** The node column a cell drives. */
  function End(c: Cell): int {
    c.col + Width(c)
  }

  function InRow(t: BlockType, pin: string): Option<int> {
    match t
    case Timer => if pin == "IN" then Some(0) else None
    case WriteVarBasic => if pin == "Execute" then Some(0) else None
    case Drum => if pin == "R" then Some(0) else if pin == "U" then Some(1) else None
    case Counter =>
      if pin == "R" then Some(0) else if pin == "S" then Some(1)
      else if pin == "CU" then Some(2) else if pin == "CD" then Some(3) else None
  }

  function OutRow(t: BlockType, pin: string): Option<int> {
    match t
    case Timer => if pin == "Q" then Some(0) else None
    case WriteVarBasic => if pin == "Done" then Some(0) else None
    case Drum => if pin == "F" then Some(0) else None
    case Counter =>
      if pin == "E" then Some(0) else if pin == "D" then Some(1) else if pin == "F" then Some(2) else None
  }

  /** The name under which the environment holds a cell's condition. */
  function Atom(c: Cell): Option<string> {
    match c.element
    case NormalContact => Some(c.descriptor)
    case NegatedContact => Some(c.descriptor)
    case XorContact => Some(c.descriptor)
    case RisingEdge => Some("R:" + c.descriptor)
    case FallingEdge => Some("F:" + c.descriptor)
    case RisingEdgeBlock => Some("RISING" + c.descriptor)
    case Comparison(expr) => Some("[" + expr + "]")
    case _ => None
  }

  function BlockAtom(name: string, pin: string): string {
    "out:" + name + "." + pin
  }

  function OutputKey(c: Cell): Option<Key> {
    match c.element
    case Coil(kind) => Some(Write(kind, c.descriptor))
    case OperationBox(expr) => Some(Operation(expr))
    case Assignment(expr) => Some(Operation(expr))
    case _ => None
  }

  function Lookup(env: map<string, bool>, atom: string): bool {
    atom in env && env[atom]
  }

  // ----- Power flow, column by column, stated without any loop

  /** What a non-block cell drives onto its own right node, given the power on its left. */
  function Conducts(c: Cell, power: bool, env: map<string, bool>): bool {
    match c.element
    case Line => power
    case Short => true
    case NegatedContact => power && !Lookup(env, c.descriptor)
    case XorContact => power != Lookup(env, c.descriptor)
    case Not => !power
    case Assignment(_) => power
    case Coil(_) => power && c.right
    case OperationBox(_) => power && c.right
    case _ => Atom(c).Some? && power && Lookup(env, Atom(c).value)
  }

  predicate Wired(cells: seq<Cell>, row: int, col: int) {
    exists n :: 0 <= n < |cells| && cells[n].row == row && cells[n].col == col && cells[n].left
  }

  /** A wired, true output pin of block `c` lands on `row`. */
  ghost predicate BlockDrives(g: Grid, c: Cell, row: int) {
    c.element.Block? && exists pin :: pin in Listed(g.outs, c.descriptor) && PinDrives(g, c, pin, row)
  }

  predicate PinDrives(g: Grid, c: Cell, pin: string, row: int)
    requires c.element.Block?
  {
    var offset := OutRow(c.element.blockType, pin);
    offset.Some? && row == c.row + offset.value
    && Wired(g.cells, row, End(c)) && Lookup(g.env, BlockAtom(c.descriptor, pin))
  }

  /** Rows `i` and `i + 1` are joined at node column `k`. */
  ghost predicate HasGap(cells: seq<Cell>, k: int, i: int) {
    exists c :: c in cells && End(c) == k && ((c.down && c.row == i) || (c.up && c.row == i + 1))
  }

  ghost function Gaps(cells: seq<Cell>, k: int): iset<int> {
    iset i | HasGap(cells, k, i)
  }

  /** Every row with a stored cell at or below it starts on the left rail. */
  ghost predicate RailRow(g: Grid, row: int) {
    row >= 0 && exists c :: c in g.cells && row <= c.row
  }

  ghost predicate Raw(g: Grid, k: nat, row: int)
    decreases k, 0
  {
    || (k == 0 && RailRow(g, row))
    || exists c :: c in g.cells && End(c) == k &&
         ((row == c.row && Conducts(c, c.left && Powered(g, c.row, c.col), g.env)) || BlockDrives(g, c, row))
  }

  /** Node `(row, k)` carries power: some row joined to it at column `k` is driven. */
  ghost predicate Powered(g: Grid, row: int, k: int)
    decreases k, 1
  {
    k >= 0 && exists s :: Raw(g, k, s) && Span(Gaps(g.cells, k), row, s)
  }

  ghost predicate Input(g: Grid, c: Cell) {
    c.left && Powered(g, c.row, c.col)
  }

  ghost predicate Drives(g: Grid, c: Cell, row: int) {
    (row == c.row && Conducts(c, Input(g, c), g.env)) || BlockDrives(g, c, row)
  }

  // ----- What stops the evaluator

  datatype Fault = NoCells | UnsupportedCell | MissingName

  /** The cell's condition is looked up: Python's `and` looks it up only under power. */
  predicate NeedsAtom(c: Cell, power: bool) {
    Atom(c).Some? && (power || c.element.XorContact?)
  }

  ghost predicate Faulty(g: Grid, c: Cell) {
    End(c) >= 0 && (
      || c.element.Other?
      || (NeedsAtom(c, Input(g, c)) && Atom(c).value !in g.env)
      || (c.element.Block? && (
            || (exists pin :: pin in Listed(g.pins, c.descriptor) && InRow(c.element.blockType, pin) == None)
            || (exists pin :: pin in Listed(g.outs, c.descriptor) && BadOutput(g, c, pin)))))
  }

  ghost predicate AnyFault(g: Grid) {
    exists c :: c in g.cells && Faulty(g, c)
  }

  predicate BadOutput(g: Grid, c: Cell, pin: string)
    requires c.element.Block?
  {
    var offset := OutRow(c.element.blockType, pin);
    offset == None || (Wired(g.cells, c.row + offset.value, End(c)) && BlockAtom(c.descriptor, pin) !in g.env)
  }

  // ----- What is recorded

  ghost predicate FeedsPin(g: Grid, c: Cell, name: string, pin: string) {
    c.element.Block? && c.descriptor == name && pin in Listed(g.pins, name)
  }

  ghost predicate PinPower(g: Grid, c: Cell, pin: string)
    requires c.element.Block?
  {
    var offset := InRow(c.element.blockType, pin);
    offset.Some? && Powered(g, c.row + offset.value, c.col)
  }

  /** Cell `i` was visited before column `k`, or in column `k` among the first `n` cells. */
  predicate Visited(g: Grid, k: int, n: int, i: int) {
    0 <= i < |g.cells| && 0 <= End(g.cells[i]) && (End(g.cells[i]) < k || (End(g.cells[i]) == k && i < n))
  }

  ghost predicate Recorder(g: Grid, k: int, n: int, i: int, key: Key) {
    Visited(g, k, n, i) && OutputKey(g.cells[i]) == Some(key)
  }

  ghost predicate PinRecorder(g: Grid, k: int, n: int, i: int, name: string, pin: string) {
    Visited(g, k, n, i) && FeedsPin(g, g.cells[i], name, pin)
  }

  /** No visited block of the same name feeds the pin after cell `i` does. */
  ghost predicate LastPinRecorder(g: Grid, k: int, n: int, i: int, name: string, pin: string) {
    PinRecorder(g, k, n, i, name, pin) &&
    forall j :: PinRecorder(g, k, n, j, name, pin) ==>
      End(g.cells[j]) < End(g.cells[i]) || (End(g.cells[j]) == End(g.cells[i]) && j <= i)
  }

  /** Outputs are the OR over their cells. */
  ghost predicate RecordsOutputs(g: Grid, k: int, n: int, results: map<Key, bool>) {
    && (forall key: Key :: !key.Pin? ==> (key in results <==> exists i :: Recorder(g, k, n, i, key)))
    && (forall key: Key :: !key.Pin? ==>
          (Recorded(results, key) <==> exists i :: Recorder(g, k, n, i, key) && Input(g, g.cells[i])))
  }

  /** A pin shows the power at the last block visited under its name. */
  ghost predicate RecordsPins(g: Grid, k: int, n: int, results: map<Key, bool>) {
    && (forall name, pin :: Key.Pin(name, pin) in results <==> exists i :: PinRecorder(g, k, n, i, name, pin))
    && (forall name, pin, i :: LastPinRecorder(g, k, n, i, name, pin) ==>
          (Recorded(results, Key.Pin(name, pin)) <==> PinPower(g, g.cells[i], pin)))
  }

  ghost predicate Records(g: Grid, k: int, n: int, results: map<Key, bool>) {
    RecordsOutputs(g, k, n, results) && RecordsPins(g, k, n, results)
  }

  // ----- The evaluator

  function MaxRow(cells: seq<Cell>): (m: int)
    requires cells != []
    ensures forall c :: c in cells ==> c.row <= m
    ensures exists c :: c in cells && c.row == m
  {
    if |cells| == 1 then cells[0].row
    else
      var rest := MaxRow(cells[1..]);
      if cells[0].row > rest then cells[0].row else rest
  }

  function MaxEnd(cells: seq<Cell>): (m: int)
    requires cells != []
    ensures forall c :: c in cells ==> End(c) <= m
    ensures exists c :: c in cells && End(c) == m
  {
    if |cells| == 1 then End(cells[0])
    else
      var rest := MaxEnd(cells[1..]);
      if End(cells[0]) > rest then End(cells[0]) else rest
  }

  /** `node.get((row, k), False)` */
  predicate At(node: map<(int, int), bool>, row: int, k: int) {
    (row, k) in node && node[(row, k)]
  }

  /** The node values are those of the columns before `k`. */
  ghost predicate Known(g: Grid, node: map<(int, int), bool>, k: int) {
    forall row, j :: At(node, row, j) <==> (j < k && Powered(g, row, j))
  }

  predicate On(raw: map<int, bool>, row: int) {
    row in raw && raw[row]
  }

  ghost predicate RawAmong(g: Grid, k: int, n: int, row: int) {
    || (k == 0 && RailRow(g, row))
    || exists i :: 0 <= i < n && i < |g.cells| && End(g.cells[i]) == k && Drives(g, g.cells[i], row)
  }

  lemma RawOfAll(g: Grid, k: nat, row: int)
    ensures RawAmong(g, k, |g.cells|, row) <==> Raw(g, k, row)
  {
    if RawAmong(g, k, |g.cells|, row) && !(k == 0 && RailRow(g, row)) {
      var i :| 0 <= i < |g.cells| && End(g.cells[i]) == k && Drives(g, g.cells[i], row);
      assert g.cells[i] in g.cells;
    }
    if Raw(g, k, row) && !(k == 0 && RailRow(g, row)) {
      var c :| c in g.cells && End(c) == k && Drives(g, c, row);
      var i :| 0 <= i < |g.cells| && g.cells[i] == c;
      assert Drives(g, g.cells[i], row);
    }
  }

  /** Cells that record nothing leave the recorded results right. */
  lemma RecordsGrow(g: Grid, k: int, n: int, k': int, n': int, results: map<Key, bool>)
    requires Records(g, k, n, results)
    requires forall i :: Visited(g, k, n, i) ==> Visited(g, k', n', i)
    requires forall i :: Visited(g, k', n', i) && !Visited(g, k, n, i) ==>
      OutputKey(g.cells[i]) == None && !g.cells[i].element.Block?
    ensures Records(g, k', n', results)
  {
    assert forall i, key :: Recorder(g, k', n', i, key) <==> Recorder(g, k, n, i, key);
    assert forall i, name, pin :: PinRecorder(g, k', n', i, name, pin) <==> PinRecorder(g, k, n, i, name, pin);
    forall name, pin, i | LastPinRecorder(g, k', n', i, name, pin)
      ensures Recorded(results, Key.Pin(name, pin)) <==> PinPower(g, g.cells[i], pin)
    {
      assert LastPinRecorder(g, k, n, i, name, pin);
    }
  }

  lemma RecordsOutput(g: Grid, k: int, n: nat, n': nat, results: map<Key, bool>, key: Key)
    requires n' == n + 1 <= |g.cells| && k >= 0 && End(g.cells[n]) == k && OutputKey(g.cells[n]) == Some(key)
    requires Records(g, k, n, results)
    ensures Records(g, k, n', results[key := Recorded(results, key) || Input(g, g.cells[n])])
  {
    var results' := results[key := Recorded(results, key) || Input(g, g.cells[n])];
    assert Recorder(g, k, n', n, key);
    assert forall i, key' :: Recorder(g, k, n', i, key') <==> Recorder(g, k, n, i, key') || (i == n && key' == key);
    assert forall i, name, pin :: PinRecorder(g, k, n', i, name, pin) <==> PinRecorder(g, k, n, i, name, pin);
    forall key': Key | !key'.Pin?
      ensures key' in results' <==> exists i :: Recorder(g, k, n', i, key')
      ensures Recorded(results', key') <==> exists i :: Recorder(g, k, n', i, key') && Input(g, g.cells[i])
    {
      if key' != key {
        assert forall i :: Recorder(g, k, n', i, key') <==> Recorder(g, k, n, i, key');
      } else if Recorded(results, key) {
        var i :| Recorder(g, k, n, i, key) && Input(g, g.cells[i]);
        assert Recorder(g, k, n', i, key);
      }
    }
    forall name, pin, i | LastPinRecorder(g, k, n', i, name, pin)
      ensures Recorded(results', Key.Pin(name, pin)) <==> PinPower(g, g.cells[i], pin)
    {
      assert LastPinRecorder(g, k, n, i, name, pin);
    }
  }

  /** The pins a block feeds now show the power at its own input rows. */
  ghost predicate PinsFed(g: Grid, c: Cell, results: map<Key, bool>, results': map<Key, bool>)
    requires c.element.Block?
  {
    forall key: Key :: if key.Pin? && FeedsPin(g, c, key.block, key.pin)
                  then key in results' && (results'[key] <==> PinPower(g, c, key.pin))
                  else (key in results' <==> key in results) && (key in results ==> results'[key] == results[key])
  }

  lemma RecordsBlock(g: Grid, k: int, n: nat, n': nat, results: map<Key, bool>, results': map<Key, bool>)
    requires n' == n + 1 <= |g.cells| && k >= 0 && End(g.cells[n]) == k && g.cells[n].element.Block?
    requires Records(g, k, n, results) && PinsFed(g, g.cells[n], results, results')
    ensures Records(g, k, n', results')
  {
    RecordsBlockPins(g, k, n, n', results, results');
    hide RecordsPins, Powered;
    assert forall i, key :: Recorder(g, k, n', i, key) <==> Recorder(g, k, n, i, key);
  }

  lemma RecordsBlockPins(g: Grid, k: int, n: nat, n': nat, results: map<Key, bool>, results': map<Key, bool>)
    requires n' == n + 1 <= |g.cells| && k >= 0 && End(g.cells[n]) == k && g.cells[n].element.Block?
    requires RecordsPins(g, k, n, results) && PinsFed(g, g.cells[n], results, results')
    ensures RecordsPins(g, k, n', results')
  {
    hide PinPower;
    var c := g.cells[n];
    forall i, name, pin
      ensures PinRecorder(g, k, n', i, name, pin)
         <==> PinRecorder(g, k, n, i, name, pin) || (i == n && FeedsPin(g, c, name, pin))
    {
      assert Visited(g, k, n', i) <==> Visited(g, k, n, i) || i == n;
    }
    forall name, pin, i | LastPinRecorder(g, k, n', i, name, pin)
      ensures Recorded(results', Key.Pin(name, pin)) <==> PinPower(g, g.cells[i], pin)
    {
      if FeedsPin(g, c, name, pin) {
        assert PinRecorder(g, k, n', n, name, pin);
        assert i == n;
      } else {
        assert LastPinRecorder(g, k, n, i, name, pin);
      }
    }
    forall name, pin
      ensures Key.Pin(name, pin) in results' <==> exists i :: PinRecorder(g, k, n', i, name, pin)
    {
      if FeedsPin(g, c, name, pin) {
        assert PinRecorder(g, k, n', n, name, pin);
      } else {
        assert forall i :: PinRecorder(g, k, n', i, name, pin) <==> PinRecorder(g, k, n, i, name, pin);
      }
    }
  }

  method FeedBlock(g: Grid, c: Cell, node: map<(int, int), bool>, raw: map<int, bool>, results: map<Key, bool>)
    returns (r: Result<(map<int, bool>, map<Key, bool>), Fault>)
    requires c.element.Block? && End(c) >= 0 && Known(g, node, End(c))
    ensures r.Failure? ==> Faulty(g, c)
    ensures r.Success? ==> !Faulty(g, c)
    ensures r.Success? ==> forall row :: On(r.value.0, row) <==> On(raw, row) || BlockDrives(g, c, row)
    ensures r.Success? ==> PinsFed(g, c, results, r.value.1)
  {
    var pins, outs, t := Listed(g.pins, c.descriptor), Listed(g.outs, c.descriptor), c.element.blockType;
    var fed := results;
    for n := 0 to |pins|
      invariant forall pin :: pin in pins[..n] ==> InRow(t, pin).Some?
      invariant forall key: Key :: if key.Pin? && key.block == c.descriptor && key.pin in pins[..n]
                              then key in fed && (fed[key] <==> PinPower(g, c, key.pin))
                              else (key in fed <==> key in results) && (key in results ==> fed[key] == results[key])
    {
      var offset := InRow(t, pins[n]);
      if offset == None { return Failure(MissingName); }
      fed := fed[Key.Pin(c.descriptor, pins[n]) := At(node, c.row + offset.value, c.col)];
      assert pins[..n + 1] == pins[..n] + [pins[n]];
    }
    assert pins[..|pins|] == pins;
    var driven := raw;
    for n := 0 to |outs|
      invariant forall pin :: pin in outs[..n] ==> !BadOutput(g, c, pin)
      invariant forall row :: On(driven, row) <==>
        On(raw, row) || exists pin :: pin in outs[..n] && PinDrives(g, c, pin, row)
    {
      var pin := outs[n];
      ghost var before := driven;
      assert outs[..n + 1] == outs[..n] + [pin];
      if pin !in outs[..n] {
        var offset := OutRow(t, pin);
        assert pin in outs;
        if offset == None { assert BadOutput(g, c, pin); return Failure(MissingName); }
        var row := c.row + offset.value;
        if Wired(g.cells, row, End(c)) {
          if BlockAtom(c.descriptor, pin) !in g.env { assert BadOutput(g, c, pin); return Failure(MissingName); }
          driven := driven[row := On(driven, row) || g.env[BlockAtom(c.descriptor, pin)]];
        }
      }
      forall row ensures On(driven, row) <==> On(before, row) || PinDrives(g, c, pin, row) {}
    }
    assert outs[..|outs|] == outs;
    return Success((driven, fed));
  }

  /** A cell that is not a block: the value it drives onto its right node, if any. */
  method Transfer(c: Cell, power: bool, env: map<string, bool>, results: map<Key, bool>)
    returns (r: Result<(Option<bool>, map<Key, bool>), Fault>)
    requires !c.element.Block?
    ensures r.Failure? <==> c.element.Other? || (NeedsAtom(c, power) && Atom(c).value !in env)
    ensures r.Success? ==> (r.value.0 == Some(true) <==> Conducts(c, power, env))
    ensures r.Success? ==>
      (r.value.1 == if OutputKey(c).None? then results
                    else results[OutputKey(c).value := Recorded(results, OutputKey(c).value) || power])
  {
    match c.element {
      case Line => return Success((Some(power), results));
      case Short => return Success((Some(true), results));
      case XorContact =>
        if c.descriptor !in env { return Failure(MissingName); }
        return Success((Some(power != env[c.descriptor]), results));
      case Not => return Success((Some(!power), results));
      case Coil(kind) =>
        var key := Write(kind, c.descriptor);
        return Success((if c.right then Some(power) else None, results[key := Recorded(results, key) || power]));
      case OperationBox(expr) =>
        var key := Operation(expr);
        return Success((if c.right then Some(power) else None, results[key := Recorded(results, key) || power]));
      case Assignment(expr) =>
        var key := Operation(expr);
        return Success((Some(power), results[key := Recorded(results, key) || power]));
      case VerticalLine => return Success((None, results));
      case Empty => return Success((None, results));
      case Other(_) => return Failure(UnsupportedCell);
      case Block(_) => assert false;
      case NegatedContact =>
        if !power { return Success((Some(false), results)); }
        if c.descriptor !in env { return Failure(MissingName); }
        return Success((Some(!env[c.descriptor]), results));
      case _ =>
        if !power { return Success((Some(false), results)); }
        if Atom(c).value !in env { return Failure(MissingName); }
        return Success((Some(env[Atom(c).value]), results));
    }
  }

  /** One cell of column `k`: it drives its rows and is recorded. */
  method VisitCell(
    g: Grid, k: nat, n: nat, n': nat, node: map<(int, int), bool>, raw: map<int, bool>, results: map<Key, bool>)
    returns (r: Result<(map<int, bool>, map<Key, bool>), Fault>)
    requires n' == n + 1 <= |g.cells| && End(g.cells[n]) == k && Known(g, node, k) && Records(g, k, n, results)
    ensures r.Failure? <==> Faulty(g, g.cells[n])
    ensures r.Success? ==> forall row :: On(r.value.0, row) <==> On(raw, row) || Drives(g, g.cells[n], row)
    ensures r.Success? ==> Records(g, k, n', r.value.1)
  {
    var c := g.cells[n];
    var power := c.left && At(node, c.row, c.col);
    assert power == Input(g, c);
    if c.element.Block? {
      r := FeedBlock(g, c, node, raw, results);
      if r.Success? { RecordsBlock(g, k, n, n', results, r.value.1); }
    } else {
      var out := Transfer(c, power, g.env, results);
      if out.Failure? { return Failure(out.error); }
      if OutputKey(c).Some? {
        RecordsOutput(g, k, n, n', results, OutputKey(c).value);
      } else {
        RecordsSkip(g, k, n, n', results);
      }
      var value := out.value.0;
      return Success((if value.Some? then raw[c.row := On(raw, c.row) || value.value] else raw, out.value.1));
    }
  }

  lemma RecordsSkip(g: Grid, k: int, n: nat, n': nat, results: map<Key, bool>)
    requires n' == n + 1 <= |g.cells| && Records(g, k, n, results)
    requires End(g.cells[n]) == k ==> OutputKey(g.cells[n]) == None && !g.cells[n].element.Block?
    ensures Records(g, k, n', results)
  {
    RecordsGrow(g, k, n, k, n', results);
  }

  lemma RecordsNextColumn(g: Grid, k: int, k': int, results: map<Key, bool>)
    requires k' == k + 1 && Records(g, k, |g.cells|, results)
    ensures Records(g, k', 0, results)
  {
    RecordsGrow(g, k, |g.cells|, k', 0, results);
  }

  lemma RecordsAll(g: Grid, k: int, k': int, results: map<Key, bool>)
    requires g.cells != [] && k' == MaxEnd(g.cells) + 1 && Records(g, k, 0, results)
    requires k == k' || (k == 0 && k' <= 0)
    ensures Records(g, k', 0, results)
  {
    forall i ensures Visited(g, k, 0, i) <==> Visited(g, k', 0, i) {
      if 0 <= i < |g.cells| { assert g.cells[i] in g.cells; }
    }
    RecordsGrow(g, k, 0, k', 0, results);
  }

  /** The first half of a column: every cell ending there is visited, in stored order. */
  method DriveColumn(g: Grid, k: nat, node: map<(int, int), bool>, results: map<Key, bool>)
    returns (r: Result<(map<int, bool>, map<Key, bool>), Fault>)
    requires g.cells != [] && Known(g, node, k) && Records(g, k, 0, results)
    ensures r.Failure? <==> exists i :: 0 <= i < |g.cells| && End(g.cells[i]) == k && Faulty(g, g.cells[i])
    ensures r.Success? ==> forall row :: On(r.value.0, row) <==> Raw(g, k, row)
    ensures r.Success? ==> Records(g, k, |g.cells|, r.value.1)
  {
    hide Known, Records, RawAmong, Raw, Faulty, Drives;
    var raw := Rail(g, k);
    var recorded := results;
    for n := 0 to |g.cells|
      invariant forall row :: On(raw, row) <==> RawAmong(g, k, n, row)
      invariant Records(g, k, n, recorded)
      invariant forall i :: 0 <= i < n && End(g.cells[i]) == k ==> !Faulty(g, g.cells[i])
    {
      ghost var n' := n + 1;
      if End(g.cells[n]) == k {
        var visited := VisitCell(g, k, n, n + 1, node, raw, recorded);
        if visited.Failure? { return Failure(visited.error); }
        RawStep(g, k, n, n', raw, visited.value.0);
        raw, recorded := visited.value.0, visited.value.1;
      } else {
        RecordsSkip(g, k, n, n', recorded);
        RawSkip(g, k, n, n');
      }
    }
    forall row ensures On(raw, row) <==> Raw(g, k, row) { RawOfAll(g, k, row); }
    return Success((raw, recorded));
  }

  /** Column 0 starts with every row on the left rail, the others with none. */
  method Rail(g: Grid, k: nat) returns (raw: map<int, bool>)
    requires g.cells != []
    ensures forall row :: On(raw, row) <==> RawAmong(g, k, 0, row)
  {
    var rows := MaxRow(g.cells) + 1;
    raw := map[];
    if k == 0 {
      for row := 0 to if rows > 0 then rows else 0
        invariant forall r :: On(raw, r) <==> 0 <= r < row
      {
        ghost var before := raw;
        raw := raw[row := true];
        assert forall r :: On(raw, r) <==> r == row || On(before, r);
      }
    }
    ghost var c :| c in g.cells && c.row == rows - 1;
  }

  lemma RawSkip(g: Grid, k: int, n: nat, n': nat)
    requires n' == n + 1 <= |g.cells| && End(g.cells[n]) != k
    ensures forall row :: RawAmong(g, k, n', row) <==> RawAmong(g, k, n, row)
  {
    hide Drives;
  }

  lemma RawStep(g: Grid, k: int, n: nat, n': nat, raw: map<int, bool>, raw': map<int, bool>)
    requires n' == n + 1 <= |g.cells| && End(g.cells[n]) == k
    requires forall row :: On(raw, row) <==> RawAmong(g, k, n, row)
    requires forall row :: On(raw', row) <==> On(raw, row) || Drives(g, g.cells[n], row)
    ensures forall row :: On(raw', row) <==> RawAmong(g, k, n', row)
  {
    forall row ensures RawAmong(g, k, n', row) <==> RawAmong(g, k, n, row) || Drives(g, g.cells[n], row) {
      if Drives(g, g.cells[n], row) { assert RawAmong(g, k, n', row); }
    }
  }

  /** The second half of a column: joined rows share the OR of what drives them. */
  method JoinColumn(g: Grid, k: nat, raw: map<int, bool>, node: map<(int, int), bool>)
    returns (node': map<(int, int), bool>)
    requires Known(g, node, k)
    requires forall row :: On(raw, row) <==> Raw(g, k, row)
    ensures Known(g, node', k + 1)
  {
    hide Raw, Powered, Forest, Grouped;
    var joins := JoinRows(g, k, raw.Keys);
    var groups := GroupRows(joins, raw);
    ghost var root := joins.root;
    node' := node;
    var rows := joins.parent.Keys;
    var todo := rows;
    while todo != {}
      invariant joins.Valid() && fresh(joins) && joins.root == root && joins.parent.Keys == rows && todo <= rows
      invariant forall x, j :: At(node', x, j) <==>
        if j == k then x in rows - todo && On(groups, root[x]) else At(node, x, j)
      decreases |todo|
    {
      var row := AnyOf(todo);
      var r := joins.Find(row);
      assert r == root[row];
      ghost var before := node';
      node' := node'[(row, k) := On(groups, r)];
      assert forall x, j :: At(node', x, j) <==> if x == row && j == k then On(groups, r) else At(before, x, j);
      todo := todo - {row};
    }
    forall x ensures (x in rows && On(groups, root[x])) <==> Powered(g, x, k) {
      GroupIsPower(g, k, raw, root, groups, x);
    }
  }

  method JoinRows(g: Grid, k: nat, driven: set<int>) returns (joins: Joins)
    ensures fresh(joins) && joins.Valid() && joins.gaps == Gaps(g.cells, k) && driven <= joins.parent.Keys
  {
    hide Forest, Grouped, HasGap;
    joins := new Joins();
    AddRows(joins, driven);
    assert Gaps(g.cells[..0], k) == iset{} by { NoCellsNoGaps(k); }
    for n := 0 to |g.cells|
      invariant fresh(joins) && joins.Valid() && driven <= joins.parent.Keys
      invariant joins.gaps == Gaps(g.cells[..n], k)
    {
      GapsStep(g.cells, k, n, n + 1);
      JoinCell(joins, g.cells[n], k);
    }
    assert g.cells[..|g.cells|] == g.cells;
  }

  lemma NoCellsNoGaps(k: int)
    ensures forall i :: !HasGap([], k, i)
  {
  }

  method AddRows(joins: Joins, rows: set<int>)
    requires joins.Valid()
    modifies joins
    ensures joins.Valid() && joins.gaps == old(joins.gaps) && rows <= joins.parent.Keys
  {
    hide Forest, Grouped;
    var todo := rows;
    while todo != {}
      invariant joins.Valid() && joins.gaps == old(joins.gaps)
      invariant todo <= rows <= todo + joins.parent.Keys
      decreases |todo|
    {
      var row := AnyOf(todo);
      var _ := joins.Find(row);
      todo := todo - {row};
    }
  }

  method JoinCell(joins: Joins, c: Cell, k: int)
    requires joins.Valid()
    modifies joins
    ensures joins.Valid() && old(joins.parent.Keys) <= joins.parent.Keys
    ensures joins.gaps == old(joins.gaps) + CellGaps(c, k)
  {
    hide Forest, Grouped;
    if End(c) == k && c.down { joins.Join(c.row, c.row + 1); }
    if End(c) == k && c.up { joins.Join(c.row, c.row - 1); }
  }

  /** Row `x`'s group is on when a driven row has the same root. */
  ghost predicate GroupOn(root: map<int, int>, raw: map<int, bool>, rows: set<int>, x: int)
    requires rows <= root.Keys && x in root
  {
    exists y :: y in rows && root[y] == root[x] && On(raw, y)
  }

  lemma NoGroup(root: map<int, int>, raw: map<int, bool>, rows: set<int>, x: int)
    requires rows == {} && x in root
    ensures !GroupOn(root, raw, rows, x)
  {
  }

  lemma GroupStep(root: map<int, int>, raw: map<int, bool>, rows: set<int>, todo: set<int>, row: int, x: int)
    requires rows <= root.Keys && todo <= rows && row in todo && x in rows
    ensures GroupOn(root, raw, rows - (todo - {row}), x)
       <==> GroupOn(root, raw, rows - todo, x) || (root[row] == root[x] && On(raw, row))
  {
    assert rows - (todo - {row}) == rows - todo + {row};
  }

  method GroupRows(joins: Joins, raw: map<int, bool>) returns (groups: map<int, bool>)
    requires joins.Valid()
    modifies joins
    ensures joins.Valid() && joins.gaps == old(joins.gaps)
    ensures joins.root == old(joins.root) && joins.parent.Keys == old(joins.parent.Keys)
    ensures forall x :: x in joins.root ==> (On(groups, joins.root[x]) <==> GroupOn(joins.root, raw, joins.root.Keys, x))
  {
    hide Forest, Grouped, GroupOn;
    groups := map[];
    ghost var root := joins.root;
    var rows := joins.parent.Keys;
    var todo := rows;
    forall x | x in rows ensures !GroupOn(root, raw, rows - todo, x) { NoGroup(root, raw, rows - todo, x); }
    while todo != {}
      invariant joins.Valid() && joins.gaps == old(joins.gaps)
      invariant joins.root == root && joins.parent.Keys == rows && todo <= rows
      invariant forall x :: x in rows ==> (On(groups, root[x]) <==> GroupOn(root, raw, rows - todo, x))
      decreases |todo|
    {
      var row := AnyOf(todo);
      var r := joins.Find(row);
      ghost var before := groups;
      groups := groups[r := On(groups, r) || On(raw, row)];
      assert forall q :: On(groups, q) <==> On(before, q) || (q == r && On(raw, row));
      forall x | x in rows
        ensures GroupOn(root, raw, rows - (todo - {row}), x)
           <==> GroupOn(root, raw, rows - todo, x) || (root[row] == root[x] && On(raw, row))
      {
        GroupStep(root, raw, rows, todo, row, x);
      }
      todo := todo - {row};
    }
    assert rows - todo == rows;
  }

  ghost function CellGaps(c: Cell, k: int): iset<int> {
    (if End(c) == k && c.down then iset{c.row} else iset{})
    + (if End(c) == k && c.up then iset{c.row - 1} else iset{})
  }

  lemma GapsStep(cells: seq<Cell>, k: int, n: nat, n': nat)
    requires n' == n + 1 <= |cells|
    ensures Gaps(cells[..n'], k) == Gaps(cells[..n], k) + CellGaps(cells[n], k)
  {
    assert cells[..n'] == cells[..n] + [cells[n]];
    forall i ensures HasGap(cells[..n'], k, i) <==> HasGap(cells[..n], k, i) || i in CellGaps(cells[n], k) {
      assert cells[n] in cells[..n'];
    }
  }

  lemma GroupIsPower(
    g: Grid, k: nat, raw: map<int, bool>, root: map<int, int>, groups: map<int, bool>, x: int)
    requires Grouped(root, Gaps(g.cells, k)) && raw.Keys <= root.Keys
    requires forall row :: On(raw, row) <==> Raw(g, k, row)
    requires x in root ==> (On(groups, root[x]) <==> GroupOn(root, raw, root.Keys, x))
    ensures (x in root && On(groups, root[x])) <==> Powered(g, x, k)
  {
    var gaps := Gaps(g.cells, k);
    if x in root && On(groups, root[x]) {
      var y :| y in root && root[y] == root[x] && On(raw, y);
      assert Raw(g, k, y) && Span(gaps, x, y);
    }
    if Powered(g, x, k) {
      var s :| Raw(g, k, s) && Span(gaps, x, s);
      assert On(raw, s);
      if x < s { assert x in gaps; } else if s < x { assert x - 1 in gaps; }
      assert x in root;
    }
  }

  lemma StartOfSweep(g: Grid)
    ensures Known(g, map[], 0) && Records(g, 0, 0, map[])
    ensures forall c :: End(c) < 0 ==> !Faulty(g, c)
  {
    assert forall i :: !Visited(g, 0, 0, i);
  }

  /** The whole sweep: every output and pin is recorded, or some visited cell is at fault. */
  method RunGrid(g: Grid) returns (r: Result<map<Key, bool>, Fault>)
    ensures r.Failure? <==> g.cells == [] || AnyFault(g)
    ensures r.Success? ==> Records(g, MaxEnd(g.cells) + 1, 0, r.value)
  {
    hide Known, Records, Raw, Faulty;
    if g.cells == [] { return Failure(NoCells); }
    var last := MaxEnd(g.cells);
    var node: map<(int, int), bool>, results: map<Key, bool> := map[], map[];
    StartOfSweep(g);
    var k := 0;
    while k <= last
      invariant 0 <= k && (k <= last + 1 || k == 0)
      invariant Known(g, node, k) && Records(g, k, 0, results)
      invariant forall i :: 0 <= i < |g.cells| && End(g.cells[i]) < k ==> !Faulty(g, g.cells[i])
    {
      var driven := DriveColumn(g, k, node, results);
      if driven.Failure? { return Failure(driven.error); }
      node := JoinColumn(g, k, driven.value.0, node);
      results := driven.value.1;
      RecordsNextColumn(g, k, k + 1, results);
      k := k + 1;
    }
    RecordsAll(g, k, last + 1, results);
    return Success(results);
  }
}
