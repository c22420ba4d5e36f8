/** What the sweep over a ladder grid promises: no dependence on cell order, no missing names. */
module GridProperties {
  import opened Wrappers
  import opened RungOutputs
  import opened LadderGrid
  import opened RowJoins

  // ----- The order of the stored cells does not matter

  ghost predicate SameCells(g: Grid, h: Grid) {
    && multiset(g.cells) == multiset(h.cells)
    && g.pins == h.pins && g.outs == h.outs && g.env == h.env
  }

  /** Every function block in the rung has its own name. */
  ghost predicate DistinctBlocks(cells: seq<Cell>) {
    forall i, j | 0 <= i < |cells| && 0 <= j < |cells| && cells[i].element.Block? && cells[j].element.Block? ::
      cells[i].descriptor == cells[j].descriptor ==> i == j
  }

  lemma SameMembers(g: Grid, h: Grid)
    requires SameCells(g, h)
    ensures forall c :: c in g.cells <==> c in h.cells
    ensures forall row, k :: Wired(g.cells, row, k) <==> Wired(h.cells, row, k)
    ensures forall k :: Gaps(g.cells, k) == Gaps(h.cells, k)
    ensures forall c, row :: BlockDrives(g, c, row) <==> BlockDrives(h, c, row)
  {
    forall c ensures c in g.cells <==> c in h.cells {
      assert c in g.cells <==> c in multiset(g.cells);
      assert c in h.cells <==> c in multiset(h.cells);
    }
    WiredByMember(g.cells);
    WiredByMember(h.cells);
    forall k ensures Gaps(g.cells, k) == Gaps(h.cells, k) {
      forall i ensures HasGap(g.cells, k, i) <==> HasGap(h.cells, k, i) {}
    }
    forall c, row ensures BlockDrives(g, c, row) <==> BlockDrives(h, c, row) {
      if c.element.Block? {
        assert forall pin :: PinDrives(g, c, pin, row) <==> PinDrives(h, c, pin, row);
      }
    }
  }

  lemma WiredByMember(cells: seq<Cell>)
    ensures forall row, k :: Wired(cells, row, k) <==> exists c :: c in cells && c.row == row && c.col == k && c.left
  {
    forall row, k | exists c :: c in cells && c.row == row && c.col == k && c.left
      ensures Wired(cells, row, k)
    {
      var c :| c in cells && c.row == row && c.col == k && c.left;
      var n :| 0 <= n < |cells| && cells[n] == c;
    }
  }

  lemma {:induction false} SamePower(g: Grid, h: Grid, row: int, k: int)
    requires SameCells(g, h)
    ensures Powered(g, row, k) <==> Powered(h, row, k)
    decreases k
  {
    if k >= 0 {
      SameMembers(g, h);
      forall s ensures Raw(g, k, s) <==> Raw(h, k, s) {
        forall c: Cell | End(c) == k ensures Powered(g, c.row, c.col) <==> Powered(h, c.row, c.col) {
          SamePower(g, h, c.row, c.col);
        }
        assert RailRow(g, s) <==> RailRow(h, s);
      }
    }
  }

  lemma SameInputs(g: Grid, h: Grid)
    requires SameCells(g, h)
    ensures forall c :: Input(g, c) <==> Input(h, c)
    ensures forall c: Cell, pin | c.element.Block? :: PinPower(g, c, pin) <==> PinPower(h, c, pin)
    ensures forall c :: Faulty(g, c) <==> Faulty(h, c)
  {
    SameMembers(g, h);
    forall row, k: int ensures Powered(g, row, k) <==> Powered(h, row, k) { SamePower(g, h, row, k); }
    forall c ensures Faulty(g, c) <==> Faulty(h, c) {
      hide Powered, Wired;
      if c.element.Block? {
        assert forall pin :: BadOutput(g, c, pin) <==> BadOutput(h, c, pin);
      }
    }
  }

  /** Column `k` lies beyond every cell, so all cells from column 0 on have been visited. */
  ghost predicate Beyond(g: Grid, k: int) {
    forall c :: c in g.cells ==> End(c) < k
  }

  lemma MatchingCell(g: Grid, h: Grid, i: int) returns (j: int)
    requires SameCells(g, h) && 0 <= i < |g.cells|
    ensures 0 <= j < |h.cells| && h.cells[j] == g.cells[i]
  {
    SameMembers(g, h);
    assert g.cells[i] in h.cells;
    j :| 0 <= j < |h.cells| && h.cells[j] == g.cells[i];
  }

  /** One direction of the equality of two sweeps over the same cells. */
  lemma KeysCarry(g: Grid, k: int, a: map<Key, bool>, h: Grid, l: int, b: map<Key, bool>, key: Key)
    requires SameCells(g, h) && Beyond(g, k) && Beyond(h, l)
    requires Records(g, k, 0, a) && Records(h, l, 0, b)
    requires key in a
    ensures key in b
    ensures !key.Pin? && a[key] ==> b[key]
  {
    SameInputs(g, h);
    hide Powered, Faulty, Input, PinPower;
    if key.Pin? {
      var i :| PinRecorder(g, k, 0, i, key.block, key.pin);
      var j := MatchingCell(g, h, i);
      assert h.cells[j] in h.cells;
      assert PinRecorder(h, l, 0, j, key.block, key.pin);
    } else {
      var i :| Recorder(g, k, 0, i, key) && (Recorded(a, key) ==> Input(g, g.cells[i]));
      var j := MatchingCell(g, h, i);
      assert h.cells[j] in h.cells;
      assert Recorder(h, l, 0, j, key);
    }
  }

  /**
   * Permuting the stored cells changes neither whether the sweep succeeds nor anything it
   * records, as long as no two blocks share a name.
   */
  lemma OrderIrrelevant(g: Grid, h: Grid, a: map<Key, bool>, b: map<Key, bool>)
    requires SameCells(g, h) && DistinctBlocks(g.cells) && g.cells != [] && h.cells != []
    requires Records(g, MaxEnd(g.cells) + 1, 0, a) && Records(h, MaxEnd(h.cells) + 1, 0, b)
    ensures a == b
    ensures AnyFault(g) <==> AnyFault(h)
  {
    hide Records, Faulty, Powered, DistinctBlocks, AnyFault;
    SameFaults(g, h);
    SameRecords(g, MaxEnd(g.cells) + 1, a, h, MaxEnd(h.cells) + 1, b);
  }

  lemma SameRecords(g: Grid, k: int, a: map<Key, bool>, h: Grid, l: int, b: map<Key, bool>)
    requires SameCells(g, h) && SameCells(h, g) && DistinctBlocks(g.cells) && Beyond(g, k) && Beyond(h, l)
    requires Records(g, k, 0, a) && Records(h, l, 0, b)
    ensures a == b
  {
    hide *;
    forall key ensures key in a <==> key in b {
      if key in a { KeysCarry(g, k, a, h, l, b, key); }
      if key in b { KeysCarry(h, l, b, g, k, a, key); }
    }
    forall key | key in a ensures a[key] == b[key] {
      KeysCarry(g, k, a, h, l, b, key);
      KeysCarry(h, l, b, g, k, a, key);
      if key.Pin? {
        PinsAgree(g, k, a, h, l, b, key.block, key.pin);
      }
    }
  }

  lemma SameFaults(g: Grid, h: Grid)
    requires SameCells(g, h)
    ensures AnyFault(g) <==> AnyFault(h)
  {
    SameMembers(g, h);
    SameInputs(g, h);
  }

  lemma OnlyRecorder(g: Grid, k: int, i: int, name: string, pin: string)
    requires DistinctBlocks(g.cells) && PinRecorder(g, k, 0, i, name, pin)
    ensures LastPinRecorder(g, k, 0, i, name, pin)
  {
    forall j | PinRecorder(g, k, 0, j, name, pin) ensures j == i {}
  }

  lemma DistinctSurvives(g: Grid, h: Grid)
    requires SameCells(g, h) && DistinctBlocks(g.cells)
    ensures DistinctBlocks(h.cells)
  {
    forall i, j | 0 <= i < |h.cells| && 0 <= j < |h.cells| && h.cells[i].element.Block? && h.cells[j].element.Block?
                  && h.cells[i].descriptor == h.cells[j].descriptor
      ensures i == j
    {
      var p := MatchingCell(h, g, i);
      var q := MatchingCell(h, g, j);
      assert p == q;
      if i != j {
        TwiceInMultiset(h.cells, i, j);
        OnceInMultiset(g.cells, p);
      }
    }
  }

  lemma TwiceInMultiset(cells: seq<Cell>, i: int, j: int)
    requires 0 <= i < |cells| && 0 <= j < |cells| && i != j && cells[i] == cells[j]
    ensures multiset(cells)[cells[i]] >= 2
  {
    var lo, hi := if i < j then i else j, if i < j then j else i;
    assert cells == cells[..hi] + cells[hi..];
    assert cells[lo] in multiset(cells[..hi]);
    assert cells[hi..][0] in multiset(cells[hi..]);
  }

  lemma OnceInMultiset(cells: seq<Cell>, p: int)
    requires DistinctBlocks(cells) && 0 <= p < |cells| && cells[p].element.Block?
    ensures multiset(cells)[cells[p]] == 1
  {
    assert cells == cells[..p] + ([cells[p]] + cells[p + 1..]);
    assert cells[p] !in cells[..p] && cells[p] !in cells[p + 1..];
  }

  lemma PinsAgree(g: Grid, k: int, a: map<Key, bool>, h: Grid, l: int, b: map<Key, bool>, name: string, pin: string)
    requires SameCells(g, h) && DistinctBlocks(g.cells) && Beyond(g, k) && Beyond(h, l)
    requires Records(g, k, 0, a) && Records(h, l, 0, b)
    requires Key.Pin(name, pin) in a && Key.Pin(name, pin) in b
    ensures a[Key.Pin(name, pin)] == b[Key.Pin(name, pin)]
  {
    var i :| PinRecorder(g, k, 0, i, name, pin);
    var j := MatchingCell(g, h, i);
    SameInputs(g, h);
    DistinctSurvives(g, h);
    hide Powered, Faulty, PinPower, Input;
    assert h.cells[j] in h.cells;
    assert PinRecorder(h, l, 0, j, name, pin);
    OnlyRecorder(g, k, i, name, pin);
    OnlyRecorder(h, l, j, name, pin);
  }

  // ----- The check of a grid before it is evaluated

  ghost predicate PinsKnown(g: Grid, c: Cell) {
    c.element.Block? ==>
      && (forall pin :: pin in Listed(g.pins, c.descriptor) ==> InRow(c.element.blockType, pin).Some?)
      && (forall pin :: pin in Listed(g.outs, c.descriptor) ==> OutRow(c.element.blockType, pin).Some?)
  }

  /** An atom the evaluator can read; a contact without a descriptor is passed over. */
  ghost predicate NamesAtom(g: Grid, c: Cell, atom: string) {
    || (Atom(c) == Some(atom) && atom != "")
    || (c.element.Block? && exists pin :: pin in Listed(g.outs, c.descriptor) && WiredAtom(g, c, pin) == Some(atom))
  }

  function WiredAtom(g: Grid, c: Cell, pin: string): Option<string>
    requires c.element.Block?
  {
    var offset := OutRow(c.element.blockType, pin);
    if offset.Some? && Wired(g.cells, c.row + offset.value, End(c)) then Some(BlockAtom(c.descriptor, pin)) else None
  }

  ghost predicate NamesKey(g: Grid, c: Cell, key: Key) {
    OutputKey(c) == Some(key) || (key.Pin? && FeedsPin(g, c, key.block, key.pin))
  }

  /** The atoms and outputs of a grid, or the first pin its block types do not have. */
  method GridModel(g: Grid) returns (r: Result<(set<string>, set<Key>), string>)
    ensures r.Failure? <==> exists c :: c in g.cells && !PinsKnown(g, c)
    ensures r.Success? ==> forall atom :: atom in r.value.0 <==> exists c :: c in g.cells && NamesAtom(g, c, atom)
    ensures r.Success? ==> forall key :: key in r.value.1 <==> exists c :: c in g.cells && NamesKey(g, c, key)
  {
    hide NamesAtom, NamesKey, PinsKnown;
    var atoms: set<string>, outputs: set<Key> := {}, {};
    for n := 0 to |g.cells|
      invariant forall c :: c in g.cells[..n] ==> PinsKnown(g, c)
      invariant forall atom :: atom in atoms <==> exists c :: c in g.cells[..n] && NamesAtom(g, c, atom)
      invariant forall key :: key in outputs <==> exists c :: c in g.cells[..n] && NamesKey(g, c, key)
    {
      assert g.cells[..n + 1] == g.cells[..n] + [g.cells[n]];
      var more := CellModel(g, g.cells[n]);
      if more.Failure? { return Failure(more.error); }
      atoms, outputs := atoms + more.value.0, outputs + more.value.1;
    }
    assert g.cells[..|g.cells|] == g.cells;
    return Success((atoms, outputs));
  }

  method CellModel(g: Grid, c: Cell) returns (r: Result<(set<string>, set<Key>), string>)
    ensures r.Failure? <==> !PinsKnown(g, c)
    ensures r.Success? ==> forall atom :: atom in r.value.0 <==> NamesAtom(g, c, atom)
    ensures r.Success? ==> forall key :: key in r.value.1 <==> NamesKey(g, c, key)
  {
    var atoms: set<string>, outputs: set<Key> := {}, {};
    if Atom(c).Some? && Atom(c).value != "" { atoms := {Atom(c).value}; }
    if OutputKey(c).Some? { outputs := {OutputKey(c).value}; }
    if c.element.Block? {
      var pins, outs := Listed(g.pins, c.descriptor), Listed(g.outs, c.descriptor);
      for n := 0 to |pins|
        invariant forall pin :: pin in pins[..n] ==> InRow(c.element.blockType, pin).Some?
        invariant outputs == set pin | pin in pins[..n] :: Key.Pin(c.descriptor, pin)
      {
        assert pins[..n + 1] == pins[..n] + [pins[n]];
        if InRow(c.element.blockType, pins[n]) == None { return Failure("pin:" + pins[n]); }
        outputs := outputs + {Key.Pin(c.descriptor, pins[n])};
      }
      assert pins[..|pins|] == pins;
      for n := 0 to |outs|
        invariant forall pin :: pin in outs[..n] ==> OutRow(c.element.blockType, pin).Some?
        invariant forall atom :: atom in atoms <==> exists pin :: pin in outs[..n] && WiredAtom(g, c, pin) == Some(atom)
      {
        assert outs[..n + 1] == outs[..n] + [outs[n]];
        if OutRow(c.element.blockType, outs[n]) == None { return Failure("pin:" + outs[n]); }
        if WiredAtom(g, c, outs[n]).Some? { atoms := atoms + {WiredAtom(g, c, outs[n]).value}; }
      }
      assert outs[..|outs|] == outs;
    }
    return Success((atoms, outputs));
  }

  /**
   * Once the grid check has passed, the sweep can only stop at an unsupported cell or at a
   * contact without a descriptor that it has to look up, and it does stop there.
   */
  lemma CheckedGridFaults(g: Grid, c: Cell)
    requires c in g.cells && PinsKnown(g, c)
    requires forall atom :: NamesAtom(g, c, atom) ==> atom in g.env
    ensures Faulty(g, c) <==>
      End(c) >= 0 && (c.element.Other? || (Atom(c) == Some("") && NeedsAtom(c, Input(g, c)) && "" !in g.env))
  {
    hide Powered;
    if c.element.Block? {
      forall pin | pin in Listed(g.outs, c.descriptor) ensures !BadOutput(g, c, pin) {
        if WiredAtom(g, c, pin).Some? { assert NamesAtom(g, c, WiredAtom(g, c, pin).value); }
      }
    } else if Atom(c).Some? && Atom(c).value != "" {
      assert NamesAtom(g, c, Atom(c).value);
    }
  }

  /**
   * The sweep records exactly the outputs the grid check lists, but for those of cells that end
   * left of the rail, which no column visits.
   */
  lemma RecordedKeysAreListed(g: Grid, results: map<Key, bool>, key: Key)
    requires g.cells != [] && Records(g, MaxEnd(g.cells) + 1, 0, results)
    ensures key in results <==> exists c :: c in g.cells && End(c) >= 0 && NamesKey(g, c, key)
  {
    hide Powered, Input, PinPower, LastPinRecorder, NamesKey, Recorder, PinRecorder, MaxEnd;
    var k := MaxEnd(g.cells) + 1;
    if key in results {
      var i :| if key.Pin? then PinRecorder(g, k, 0, i, key.block, key.pin) else Recorder(g, k, 0, i, key);
      RecorderNames(g, k, i, key);
    }
    if c :| c in g.cells && End(c) >= 0 && NamesKey(g, c, key) {
      var i :| 0 <= i < |g.cells| && g.cells[i] == c;
      RecorderNames(g, k, i, key);
    }
  }

  /** Beyond every cell, the cells that record a key are the visited ones that name it. */
  lemma RecorderNames(g: Grid, k: int, i: int, key: Key)
    requires forall c :: c in g.cells ==> End(c) < k
    ensures (if key.Pin? then PinRecorder(g, k, 0, i, key.block, key.pin) else Recorder(g, k, 0, i, key))
      <==> 0 <= i < |g.cells| && End(g.cells[i]) >= 0 && NamesKey(g, g.cells[i], key)
  {
    if 0 <= i < |g.cells| { assert g.cells[i] in g.cells; }
  }

  // ----- A grid that passes its check and still faults

  /** One contact without a descriptor at the left rail, and an environment for the (no) atoms reported. */
  lemma BlankContactFaults()
    ensures var c := Cell(NormalContact, 0, 0, "", true, true, false, false);
      var g := Grid([c], map[], map[], map[]);
      PinsKnown(g, c) && (forall atom :: !NamesAtom(g, c, atom)) && AnyFault(g)
  {
    var c := Cell(NormalContact, 0, 0, "", true, true, false, false);
    var g := Grid([c], map[], map[], map[]);
    assert c in g.cells && RailRow(g, 0);
    assert Raw(g, 0, 0) && Span(Gaps(g.cells, 0), 0, 0);
    assert Powered(g, 0, 0);
  }
}
