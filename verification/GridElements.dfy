/** What each kind of cell does in any grid: the power behind it, its pins, and what stops the sweep there. */
module GridElements {
  import opened Wrappers
  import opened RungOutputs
  import opened RowJoins
  import opened LadderGrid
  import opened GridProperties

  /** The left rail feeds the rows from the first down to the last that holds a cell, and no other. */
  lemma RailPower(g: Grid, row: int)
    requires g.cells != [] && forall c :: c in g.cells ==> c.col >= 0
    ensures Powered(g, row, 0) <==> 0 <= row <= MaxRow(g.cells)
  {
    hide Conducts, BlockDrives;
    var gaps := Gaps(g.cells, 0);
    assert forall i :: i !in gaps;
    forall s ensures Span(gaps, row, s) <==> s == row {
      if s < row { assert Span(gaps, row, s) ==> row - 1 in gaps; }
      if s > row { assert Span(gaps, row, s) ==> row in gaps; }
    }
    assert Powered(g, row, 0) <==> Raw(g, 0, row);
    assert Raw(g, 0, row) <==> 0 <= row && exists c :: c in g.cells && row <= c.row;
  }

  /** Nothing is joined to the right node of the cell, and no other cell drives it. */
  ghost predicate Alone(g: Grid, c: Cell) {
    && c in g.cells && End(c) > 0
    && !HasGap(g.cells, End(c), c.row - 1) && !HasGap(g.cells, End(c), c.row)
    && forall d :: d in g.cells && End(d) == End(c) && d != c ==> d.row != c.row && !d.element.Block?
  }

  lemma AlonePower(g: Grid, c: Cell)
    requires Alone(g, c)
    ensures Powered(g, c.row, End(c)) <==> Drives(g, c, c.row)
  {
    var gaps := Gaps(g.cells, End(c));
    assert c.row - 1 !in gaps && c.row !in gaps;
    forall s ensures Span(gaps, c.row, s) <==> s == c.row {
      if s < c.row { assert Span(gaps, c.row, s) ==> c.row - 1 in gaps; }
      if s > c.row { assert Span(gaps, c.row, s) ==> c.row in gaps; }
    }
    assert Powered(g, c.row, End(c)) <==> Raw(g, End(c), c.row);
    hide Powered;
    assert Raw(g, End(c), c.row) <==> exists d :: d in g.cells && End(d) == End(c) && Drives(g, d, c.row);
  }

  /** The power behind a lone cell, from the power before it and the environment. */
  lemma ElementPower(g: Grid, c: Cell)
    requires Alone(g, c) && !c.element.Block?
    ensures var fed, x := c.left && Powered(g, c.row, c.col), c.descriptor;
      var on, wide := Powered(g, c.row, c.col + 1), Powered(g, c.row, c.col + 2);
      match c.element
      case Line => on <==> fed
      case Short => on
      case VerticalLine => !on
      case Empty => !on
      case Other(_) => !on
      case NormalContact => on <==> fed && Lookup(g.env, x)
      case NegatedContact => on <==> fed && !Lookup(g.env, x)
      case RisingEdge => on <==> fed && Lookup(g.env, "R:" + x)
      case FallingEdge => on <==> fed && Lookup(g.env, "F:" + x)
      case RisingEdgeBlock => on <==> fed && Lookup(g.env, "RISING" + x)
      case XorContact => on <==> (fed != Lookup(g.env, x))
      case Not => on <==> !fed
      case Comparison(expr) => wide <==> fed && Lookup(g.env, "[" + expr + "]")
      case Assignment(_) => wide <==> fed
      case Coil(_) => on <==> fed && c.right
      case OperationBox(_) => wide <==> fed && c.right
  {
    hide Powered;
    AlonePower(g, c);
  }

  /** The sweep stops at a cell of an unsupported kind, or where a condition it needs is missing: Xor always needs it. */
  lemma ElementFaults(g: Grid, c: Cell)
    requires c.col >= 0 && !c.element.Block?
    ensures var fed, x := c.left && Powered(g, c.row, c.col), c.descriptor;
      Faulty(g, c) <==>
        match c.element
        case Other(_) => true
        case NormalContact => fed && x !in g.env
        case NegatedContact => fed && x !in g.env
        case RisingEdge => fed && "R:" + x !in g.env
        case FallingEdge => fed && "F:" + x !in g.env
        case RisingEdgeBlock => fed && "RISING" + x !in g.env
        case Comparison(expr) => fed && "[" + expr + "]" !in g.env
        case XorContact => x !in g.env
        case _ => false
  {
    hide Powered;
  }

  // ----- Function blocks

  function InputPins(t: BlockType): set<string> {
    match t
    case Timer => {"IN"}
    case Counter => {"R", "S", "CU", "CD"}
    case Drum => {"R", "U"}
    case WriteVarBasic => {"Execute"}
  }

  function OutputPins(t: BlockType): set<string> {
    match t
    case Timer => {"Q"}
    case Counter => {"E", "D", "F"}
    case Drum => {"F"}
    case WriteVarBasic => {"Done"}
  }

  /** A block whose outputs are all defined stops the sweep exactly when it is wired to a pin it does not have. */
  lemma BlockFaults(g: Grid, c: Cell)
    requires c.col >= 0 && c.element.Block?
    requires forall pin :: pin in Listed(g.outs, c.descriptor) ==> "out:" + c.descriptor + "." + pin in g.env
    ensures Faulty(g, c) <==>
      || (exists pin :: pin in Listed(g.pins, c.descriptor) && pin !in InputPins(c.element.blockType))
      || (exists pin :: pin in Listed(g.outs, c.descriptor) && pin !in OutputPins(c.element.blockType))
  {
    hide Powered, Wired;
    var t := c.element.blockType;
    forall pin ensures InRow(t, pin).Some? <==> pin in InputPins(t) {}
    forall pin ensures OutRow(t, pin).Some? <==> pin in OutputPins(t) {}
    forall pin | pin in Listed(g.outs, c.descriptor) ensures BadOutput(g, c, pin) <==> pin !in OutputPins(t) {}
  }

  /** If `pin` is wired, it is recorded with the power at the left of the block, on row `row`. */
  ghost predicate Shows(g: Grid, c: Cell, results: map<Key, bool>, pin: string, row: int) {
    var key := Key.Pin(c.descriptor, pin);
    pin in Listed(g.pins, c.descriptor) ==> key in results && (results[key] <==> Powered(g, row, c.col))
  }

  lemma PinShows(g: Grid, c: Cell, results: map<Key, bool>, pin: string)
    requires c in g.cells && c.element.Block? && c.col >= 0 && DistinctBlocks(g.cells)
    requires Records(g, MaxEnd(g.cells) + 1, 0, results) && InRow(c.element.blockType, pin).Some?
    ensures Shows(g, c, results, pin, c.row + InRow(c.element.blockType, pin).value)
  {
    hide Powered, RecordsOutputs, RecordsPins, LastPinRecorder, DistinctBlocks, InRow;
    var k := MaxEnd(g.cells) + 1;
    if pin in Listed(g.pins, c.descriptor) {
      var i :| 0 <= i < |g.cells| && g.cells[i] == c;
      assert PinRecorder(g, k, 0, i, c.descriptor, pin);
      OnlyRecorder(g, k, i, c.descriptor, pin);
      PinRecorded(g, k, i, c.descriptor, pin, results);
    }
  }

  lemma PinRecorded(g: Grid, k: int, i: int, name: string, pin: string, results: map<Key, bool>)
    requires 0 <= i < |g.cells| && g.cells[i].element.Block?
    requires RecordsPins(g, k, 0, results) && LastPinRecorder(g, k, 0, i, name, pin)
    ensures Key.Pin(name, pin) in results && results[Key.Pin(name, pin)] == PinPower(g, g.cells[i], pin)
  {
    hide Visited, FeedsPin, PinPower;
    assert PinRecorder(g, k, 0, i, name, pin);
    assert Recorded(results, Key.Pin(name, pin)) <==> PinPower(g, g.cells[i], pin);
  }

  /** The rows of the input pins of each block. */
  lemma PinRows(g: Grid, c: Cell, results: map<Key, bool>)
    requires c in g.cells && c.element.Block? && c.col >= 0 && DistinctBlocks(g.cells)
    requires Records(g, MaxEnd(g.cells) + 1, 0, results)
    ensures match c.element.blockType
            case Timer => Shows(g, c, results, "IN", c.row)
            case WriteVarBasic => Shows(g, c, results, "Execute", c.row)
            case Drum => Shows(g, c, results, "R", c.row) && Shows(g, c, results, "U", c.row + 1)
            case Counter =>
              && Shows(g, c, results, "R", c.row) && Shows(g, c, results, "S", c.row + 1)
              && Shows(g, c, results, "CU", c.row + 2) && Shows(g, c, results, "CD", c.row + 3)
  {
    hide Shows, Records, DistinctBlocks, MaxEnd;
    match c.element.blockType
    case Timer => PinShows(g, c, results, "IN");
    case WriteVarBasic => PinShows(g, c, results, "Execute");
    case Drum =>
      PinShows(g, c, results, "R");
      PinShows(g, c, results, "U");
    case Counter =>
      PinShows(g, c, results, "R");
      PinShows(g, c, results, "S");
      PinShows(g, c, results, "CU");
      PinShows(g, c, results, "CD");
  }

  /** Output `pin` of a block is wired to a cell that starts at node (row, col), and true. */
  ghost predicate OutputOn(g: Grid, name: string, pin: string, row: int, col: int) {
    && pin in Listed(g.outs, name) && Lookup(g.env, "out:" + name + "." + pin)
    && exists d :: d in g.cells && d.row == row && d.col == col && d.left
  }

  lemma OutputDrives(g: Grid, c: Cell, pin: string, row: int)
    requires c.element.Block? && OutRow(c.element.blockType, pin).Some?
    ensures pin in Listed(g.outs, c.descriptor) && PinDrives(g, c, pin, row)
      <==> row == c.row + OutRow(c.element.blockType, pin).value && OutputOn(g, c.descriptor, pin, row, End(c))
  {
    WiredByMember(g.cells);
  }

  /** Where only a block ends, its true wired outputs drive the rows of their pins, and nothing else is driven. */
  lemma OutputRows(g: Grid, c: Cell, row: int)
    requires c in g.cells && c.element.Block? && End(c) > 0
    requires forall d :: d in g.cells && End(d) == End(c) ==> d == c
    requires !c.up && !c.down
    ensures var name := c.descriptor;
      match c.element.blockType
      case Timer => Powered(g, row, c.col + 2) <==> row == c.row && OutputOn(g, name, "Q", row, c.col + 2)
      case WriteVarBasic => Powered(g, row, c.col + 4) <==> row == c.row && OutputOn(g, name, "Done", row, c.col + 4)
      case Drum => Powered(g, row, c.col + 2) <==> row == c.row && OutputOn(g, name, "F", row, c.col + 2)
      case Counter => Powered(g, row, c.col + 2) <==>
        || (row == c.row && OutputOn(g, name, "E", row, c.col + 2))
        || (row == c.row + 1 && OutputOn(g, name, "D", row, c.col + 2))
        || (row == c.row + 2 && OutputOn(g, name, "F", row, c.col + 2))
  {
    BlockPower(g, c, row);
    hide Powered, Wired, OutputOn;
    forall pin | OutRow(c.element.blockType, pin).Some?
      ensures pin in Listed(g.outs, c.descriptor) && PinDrives(g, c, pin, row)
        <==> row == c.row + OutRow(c.element.blockType, pin).value && OutputOn(g, c.descriptor, pin, row, End(c))
    {
      OutputDrives(g, c, pin, row);
    }
  }

  lemma BlockPower(g: Grid, c: Cell, row: int)
    requires c in g.cells && c.element.Block? && End(c) > 0
    requires forall d :: d in g.cells && End(d) == End(c) ==> d == c
    requires !c.up && !c.down
    ensures Powered(g, row, End(c)) <==> BlockDrives(g, c, row)
  {
    var gaps := Gaps(g.cells, End(c));
    assert row - 1 !in gaps && row !in gaps;
    forall s ensures Span(gaps, row, s) <==> s == row {
      if s < row { assert Span(gaps, row, s) ==> row - 1 in gaps; }
      if s > row { assert Span(gaps, row, s) ==> row in gaps; }
    }
    assert Powered(g, row, End(c)) <==> Raw(g, End(c), row);
  }
}
