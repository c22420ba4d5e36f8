/** The grid side: power flow through the drawing of a rung computes what the rung means. */
module RungDrawings {
  import opened Wrappers
  import opened RungOutputs
  import opened RowJoins
  import opened LadderGrid
  import opened ContactRungs

  // ----- Every drawing stays in its own box, without vertical links across its edges

  /** The box spans `h` rows from `row` and the node columns after `col`, up to `end`. */
  datatype Box = Box(row: int, h: nat, col: int, end: int)

  predicate Inside(b: Box, c: Cell) {
    b.row <= c.row < b.row + b.h && b.col < End(c) <= b.end
  }

  predicate Fits(b: Box, c: Cell) {
    && Inside(b, c) && !c.element.Block?
    && (c.up ==> c.row > b.row) && (c.down ==> c.row + 1 < b.row + b.h)
  }

  ghost predicate AllFit(b: Box, cells: seq<Cell>) {
    forall c :: c in cells ==> Fits(b, c)
  }

  lemma FitSideBySide(b: Box, p: seq<Cell>, q: seq<Cell>, mid: int)
    requires b.col <= mid <= b.end && AllFit(b.(end := mid), p) && AllFit(b.(col := mid), q)
    ensures AllFit(b, p + q)
  {
  }

  lemma FitStacked(b: Box, p: seq<Cell>, q: seq<Cell>, h: nat)
    requires h <= b.h && AllFit(b.(h := h), p) && AllFit(Box(b.row + h, b.h - h, b.col, b.end), q)
    ensures AllFit(b, p + q)
  {
  }

  lemma {:induction false} LinesFit(b: Box)
    requires b.h > 0
    ensures AllFit(b, Lines(b.row, b.col, b.end))
    decreases b.end - b.col
  {
    if b.col < b.end {
      LinesFit(b.(col := b.col + 1));
    }
  }

  lemma {:induction false} VerticalsAre(row: int, end: int, col: int)
    ensures forall c :: c in Verticals(row, end, col) <==>
      row < c.row < end && c == Cell(VerticalLine, c.row, col, "", false, false, true, true)
    decreases end - row
  {
    if row + 1 < end {
      VerticalsAre(row + 1, end, col);
    }
  }

  function JointTop(row: int, col: int): Cell {
    Cell(Line, row, col, "", true, true, false, true)
  }

  function JointEnd(row: int, col: int, merge: bool): Cell {
    if merge then Cell(Line, row, col, "", true, true, true, false)
    else Cell(VerticalLine, row, col, "", false, true, true, false)
  }

  lemma JointIs(row: int, drop: nat, col: int, merge: bool)
    ensures forall c :: c in Joint(row, drop, col, merge) <==>
      || c == JointTop(row, col)
      || c == JointEnd(row + drop, col, merge)
      || (row < c.row < row + drop && c == Cell(VerticalLine, c.row, col, "", false, false, true, true))
  {
    hide Verticals;
    VerticalsAre(row, row + drop, col);
  }

  lemma JointFits(b: Box, drop: nat, merge: bool)
    requires 0 < drop < b.h && b.end == b.col + 1
    ensures AllFit(b, Joint(b.row, drop, b.col, merge))
  {
    hide Joint;
    JointIs(b.row, drop, b.col, merge);
  }

  lemma {:induction false} PaddedFits(net: Net, b: Box)
    requires NetHeight(net) <= b.h && b.col + NetWidth(net) <= b.end
    ensures AllFit(b, Padded(net, b.row, b.col, b.end))
    decreases net, 2
  {
    hide DrawNet, Lines, AllFit;
    var mid := b.col + NetWidth(net);
    NetFits(net, b.(end := mid));
    LinesFit(b.(col := mid));
    FitSideBySide(b, DrawNet(net, b.row, b.col), Lines(b.row, mid, b.end), mid);
  }

  lemma {:induction false} NetFits(net: Net, b: Box)
    requires NetHeight(net) <= b.h && b.end == b.col + NetWidth(net)
    ensures AllFit(b, DrawNet(net, b.row, b.col))
    decreases net, 1
  {
    match net
    case Leaf(_) =>
    case Series(p, q) => SeriesFits(p, q, b);
    case Parallel(p, q) => ParallelFits(p, q, b);
  }

  lemma {:induction false} SeriesFits(p: Net, q: Net, b: Box)
    requires NetHeight(Series(p, q)) <= b.h && b.end == b.col + NetWidth(Series(p, q))
    ensures AllFit(b, DrawNet(Series(p, q), b.row, b.col))
    decreases Series(p, q), 0
  {
    hide AllFit, DrawNet, NetWidth, NetHeight, Max;
    DrawnSeries(p, q, b);
    var mid := b.col + NetWidth(p);
    NetFits(p, b.(end := mid));
    NetFits(q, b.(col := mid));
    FitSideBySide(b, DrawNet(p, b.row, b.col), DrawNet(q, b.row, mid), mid);
  }

  /** Both branches of a parallel drawing in box `b`, between its two joints. */
  function Middle(p: Net, q: Net, b: Box): seq<Cell> {
    Padded(p, b.row, b.col + 1, b.end - 1) + Padded(q, b.row + NetHeight(p), b.col + 1, b.end - 1)
  }

  lemma DrawnSeries(p: Net, q: Net, b: Box)
    ensures DrawNet(Series(p, q), b.row, b.col)
         == DrawNet(p, b.row, b.col) + DrawNet(q, b.row, b.col + NetWidth(p))
    ensures NetWidth(Series(p, q)) == NetWidth(p) + NetWidth(q)
    ensures NetHeight(p) <= NetHeight(Series(p, q)) && NetHeight(q) <= NetHeight(Series(p, q))
  {
  }

  lemma ParallelSize(p: Net, q: Net)
    ensures NetWidth(Parallel(p, q)) == 2 + Max(NetWidth(p), NetWidth(q))
    ensures NetHeight(Parallel(p, q)) == NetHeight(p) + NetHeight(q)
  {
    hide Max;
  }

  lemma ParallelPicture(p: Net, q: Net, b: Box)
    requires b.end == b.col + 2 + Max(NetWidth(p), NetWidth(q))
    ensures DrawNet(Parallel(p, q), b.row, b.col)
         == (Joint(b.row, NetHeight(p), b.col, false) + Middle(p, q, b)) + Joint(b.row, NetHeight(p), b.end - 1, true)
  {
    hide NetHeight, NetWidth, Max, Joint, Padded;
  }

  lemma DrawnParallel(p: Net, q: Net, b: Box)
    requires b.end == b.col + NetWidth(Parallel(p, q))
    ensures DrawNet(Parallel(p, q), b.row, b.col)
         == (Joint(b.row, NetHeight(p), b.col, false) + Middle(p, q, b)) + Joint(b.row, NetHeight(p), b.end - 1, true)
    ensures NetWidth(p) <= b.end - b.col - 2 && NetWidth(q) <= b.end - b.col - 2
    ensures NetHeight(Parallel(p, q)) == NetHeight(p) + NetHeight(q)
  {
    hide NetHeight, NetWidth, Joint, DrawNet, Middle;
    ParallelSize(p, q);
    ParallelPicture(p, q, b);
  }

  /** Every part of a parallel drawing fits its own box. */
  lemma {:induction false} ParallelFits(p: Net, q: Net, b: Box)
    requires NetHeight(p) + NetHeight(q) <= b.h && b.end == b.col + NetWidth(Parallel(p, q))
    ensures AllFit(Box(b.row, NetHeight(p), b.col + 1, b.end - 1), Padded(p, b.row, b.col + 1, b.end - 1))
    ensures AllFit(Box(b.row + NetHeight(p), b.h - NetHeight(p), b.col + 1, b.end - 1),
                   Padded(q, b.row + NetHeight(p), b.col + 1, b.end - 1))
    ensures AllFit(b.(end := b.col + 1), Joint(b.row, NetHeight(p), b.col, false))
    ensures AllFit(Box(b.row, b.h, b.col + 1, b.end - 1), Middle(p, q, b))
    ensures AllFit(b.(end := b.end - 1), Joint(b.row, NetHeight(p), b.col, false) + Middle(p, q, b))
    ensures AllFit(b.(col := b.end - 1), Joint(b.row, NetHeight(p), b.end - 1, true))
    ensures AllFit(b, DrawNet(Parallel(p, q), b.row, b.col))
    decreases Parallel(p, q), 0
  {
    hide DrawNet, Padded, Joint, AllFit, NetWidth, NetHeight, Max;
    DrawnParallel(p, q, b);
    var h, inner, end := NetHeight(p), b.col + 1, b.end - 1;
    var split, merge := Joint(b.row, h, b.col, false), Joint(b.row, h, end, true);
    var upper, lower := Padded(p, b.row, inner, end), Padded(q, b.row + h, inner, end);
    JointFits(b.(end := inner), h, false);
    JointFits(b.(col := end), h, true);
    PaddedFits(p, Box(b.row, h, inner, end));
    PaddedFits(q, Box(b.row + h, b.h - h, inner, end));
    FitStacked(Box(b.row, b.h, inner, end), upper, lower, h);
    FitSideBySide(b.(end := end), split, Middle(p, q, b), inner);
    FitSideBySide(b, split + Middle(p, q, b), merge, end);
  }

  lemma {:induction false} RungFits(rung: Rung, b: Box)
    requires RungHeight(rung) <= b.h && b.col + RungWidth(rung) <= b.end
    ensures AllFit(b, DrawRung(rung, b.row, b.col))
    decreases rung, 1
  {
    match rung
    case Out(_) =>
    case Then(net, rest) => ThenFits(net, rest, b);
    case Pass(stage, rest) => PassFits(stage, rest, b);
    case Fork(upper, lower) => ForkFits(upper, lower, b);
  }

  lemma DrawnThen(net: Net, rest: Rung, b: Box)
    ensures DrawRung(Then(net, rest), b.row, b.col)
         == DrawNet(net, b.row, b.col) + DrawRung(rest, b.row, b.col + NetWidth(net))
    ensures RungWidth(Then(net, rest)) == NetWidth(net) + RungWidth(rest)
    ensures NetHeight(net) <= RungHeight(Then(net, rest)) && RungHeight(rest) <= RungHeight(Then(net, rest))
  {
  }

  lemma DrawnFork(upper: Rung, lower: Rung, b: Box)
    ensures DrawRung(Fork(upper, lower), b.row, b.col)
         == Joint(b.row, RungHeight(upper), b.col, false)
            + (DrawRung(upper, b.row, b.col + 1) + DrawRung(lower, b.row + RungHeight(upper), b.col + 1))
    ensures RungWidth(upper) < RungWidth(Fork(upper, lower)) && RungWidth(lower) < RungWidth(Fork(upper, lower))
    ensures RungHeight(Fork(upper, lower)) == RungHeight(upper) + RungHeight(lower)
  {
    hide Joint;
  }

  lemma {:induction false} ThenFits(net: Net, rest: Rung, b: Box)
    requires RungHeight(Then(net, rest)) <= b.h && b.col + RungWidth(Then(net, rest)) <= b.end
    ensures AllFit(b.(end := b.col + NetWidth(net)), DrawNet(net, b.row, b.col))
    ensures AllFit(b.(col := b.col + NetWidth(net)), DrawRung(rest, b.row, b.col + NetWidth(net)))
    ensures AllFit(b, DrawRung(Then(net, rest), b.row, b.col))
    decreases Then(net, rest), 0
  {
    hide AllFit, DrawRung, DrawNet, RungWidth, RungHeight, NetWidth, NetHeight, Max;
    DrawnThen(net, rest, b);
    var mid := b.col + NetWidth(net);
    NetFits(net, b.(end := mid));
    RungFits(rest, b.(col := mid));
    FitSideBySide(b, DrawNet(net, b.row, b.col), DrawRung(rest, b.row, mid), mid);
  }

  lemma DrawnPass(stage: Stage, rest: Rung, b: Box)
    ensures DrawRung(Pass(stage, rest), b.row, b.col)
         == [StageCell(stage, b.row, b.col)] + DrawRung(rest, b.row, b.col + StageWidth(stage))
    ensures RungWidth(Pass(stage, rest)) == StageWidth(stage) + RungWidth(rest)
    ensures RungHeight(Pass(stage, rest)) == RungHeight(rest)
  {
  }

  /** The cell of a stage stands alone between its two nodes. */
  lemma StageFits(stage: Stage, b: Box)
    requires 0 < b.h && b.col + StageWidth(stage) == b.end && (stage.Drive? ==> !stage.key.Pin?)
    ensures var c := StageCell(stage, b.row, b.col);
      c.row == b.row && c.col == b.col && End(c) == b.end && !c.up && !c.down && c.left && AllFit(b, [c])
  {
  }

  lemma {:induction false} PassFits(stage: Stage, rest: Rung, b: Box)
    requires RungHeight(Pass(stage, rest)) <= b.h && b.col + RungWidth(Pass(stage, rest)) <= b.end
    ensures AllFit(b.(end := b.col + StageWidth(stage)), [StageCell(stage, b.row, b.col)])
    ensures AllFit(b.(col := b.col + StageWidth(stage)), DrawRung(rest, b.row, b.col + StageWidth(stage)))
    ensures AllFit(b, DrawRung(Pass(stage, rest), b.row, b.col))
    decreases Pass(stage, rest), 0
  {
    hide AllFit, DrawRung, RungWidth, RungHeight, StageWidth, StageCell;
    DrawnPass(stage, rest, b);
    var mid := b.col + StageWidth(stage);
    AnyStageFits(stage, b.(end := mid));
    RungFits(rest, b.(col := mid));
    FitSideBySide(b, [StageCell(stage, b.row, b.col)], DrawRung(rest, b.row, mid), mid);
  }

  lemma AnyStageFits(stage: Stage, b: Box)
    requires 0 < b.h && b.col + StageWidth(stage) == b.end
    ensures AllFit(b, [StageCell(stage, b.row, b.col)])
  {
  }

  /** Every part of a fork's drawing fits its own box. */
  lemma {:induction false} ForkFits(upper: Rung, lower: Rung, b: Box)
    requires RungHeight(upper) + RungHeight(lower) <= b.h && b.col + RungWidth(Fork(upper, lower)) <= b.end
    ensures AllFit(b.(end := b.col + 1), Joint(b.row, RungHeight(upper), b.col, false))
    ensures AllFit(Box(b.row, RungHeight(upper), b.col + 1, b.end), DrawRung(upper, b.row, b.col + 1))
    ensures AllFit(Box(b.row + RungHeight(upper), b.h - RungHeight(upper), b.col + 1, b.end),
                   DrawRung(lower, b.row + RungHeight(upper), b.col + 1))
    ensures AllFit(b.(col := b.col + 1),
                   DrawRung(upper, b.row, b.col + 1) + DrawRung(lower, b.row + RungHeight(upper), b.col + 1))
    ensures AllFit(b, DrawRung(Fork(upper, lower), b.row, b.col))
    decreases Fork(upper, lower), 0
  {
    hide AllFit, DrawRung, Joint, RungWidth, RungHeight, Max;
    DrawnFork(upper, lower, b);
    var h, inner := RungHeight(upper), b.col + 1;
    JointFits(b.(end := inner), h, false);
    RungFits(upper, Box(b.row, h, inner, b.end));
    RungFits(lower, Box(b.row + h, b.h - h, inner, b.end));
    FitStacked(b.(col := inner), DrawRung(upper, b.row, inner), DrawRung(lower, b.row + h, inner), h);
    FitSideBySide(b, Joint(b.row, h, b.col, false),
                  DrawRung(upper, b.row, inner) + DrawRung(lower, b.row + h, inner), inner);
  }

  // ----- A part of the grid that belongs to one drawing

  /** Inside box `b` the grid holds exactly `cells`, no block drives it, and no vertical link leaves it. */
  ghost predicate Owns(g: Grid, b: Box, cells: seq<Cell>) {
    && b.col >= 0 && b.h > 0
    && (forall c :: c in g.cells && c.element.Block? ==> !(b.col < End(c) <= b.end))
    && (forall c :: c in cells ==> c in g.cells)
    && (forall c :: c in g.cells && Inside(b, c) ==> c in cells)
    && Unlinked(g.cells, b, b.row - 1) && Unlinked(g.cells, b, b.row + b.h - 1)
  }

  /** No link between rows `i` and `i + 1` at the node columns of the box. */
  ghost predicate Unlinked(cells: seq<Cell>, b: Box, i: int) {
    forall k :: b.col < k <= b.end ==> !HasGap(cells, k, i)
  }

  /** Two drawings next to each other in the same rows. */
  lemma SideBySide(g: Grid, b: Box, p: seq<Cell>, q: seq<Cell>, mid: int)
    requires Owns(g, b, p + q) && b.col <= mid <= b.end
    requires AllFit(b.(end := mid), p) && AllFit(b.(col := mid), q)
    ensures Owns(g, b.(end := mid), p) && Owns(g, b.(col := mid), q)
  {
  }

  /** Two drawings below each other in the same columns. */
  lemma Stacked(g: Grid, b: Box, p: seq<Cell>, q: seq<Cell>, h: nat)
    requires Owns(g, b, p + q) && 0 < h < b.h
    requires AllFit(b.(h := h), p) && AllFit(Box(b.row + h, b.h - h, b.col, b.end), q)
    ensures Owns(g, b.(h := h), p) && Owns(g, Box(b.row + h, b.h - h, b.col, b.end), q)
  {
    var edge := b.row + h - 1;
    forall k | b.col < k <= b.end ensures !HasGap(g.cells, k, edge) {
      forall c | c in g.cells && End(c) == k && edge <= c.row <= edge + 1
        ensures !(c.down && c.row == edge) && !(c.up && c.row == edge + 1)
      {
        assert Inside(b, c);
        assert c in p || c in q;
      }
    }
  }

  // ----- One column of an owned box

  /** Away from the rail, a row is driven by its own cells. */
  lemma RawOwn(g: Grid, b: Box, cells: seq<Cell>, row: int, k: nat)
    requires Owns(g, b, cells) && b.col < k <= b.end && b.row <= row < b.row + b.h
    ensures Raw(g, k, row) <==>
      exists c :: c in cells && End(c) == k && c.row == row && Conducts(c, Input(g, c), g.env)
  {
    if Raw(g, k, row) {
      var c :| c in g.cells && End(c) == k && (
        (row == c.row && Conducts(c, c.left && Powered(g, c.row, c.col), g.env)) || BlockDrives(g, c, row));
      assert Inside(b, c);
    }
  }

  /** A row without links takes the power of its own cells. */
  lemma LoneRow(g: Grid, row: int, k: nat)
    requires !HasGap(g.cells, k, row - 1) && !HasGap(g.cells, k, row)
    ensures Powered(g, row, k) <==> Raw(g, k, row)
  {
    var gaps := Gaps(g.cells, k);
    assert Span(gaps, row, row);
    assert row - 1 !in gaps && row !in gaps;
    assert forall s :: Span(gaps, row, s) ==> s == row;
  }

  /** Links of an owned box come from its own cells. */
  lemma OwnGaps(g: Grid, b: Box, cells: seq<Cell>, k: int, i: int)
    requires Owns(g, b, cells) && b.col < k <= b.end && b.row - 1 <= i < b.row + b.h
    ensures HasGap(g.cells, k, i) <==>
      b.row <= i < b.row + b.h - 1
      && exists c :: c in cells && End(c) == k && ((c.down && c.row == i) || (c.up && c.row == i + 1))
  {
    if HasGap(g.cells, k, i) {
      var c :| c in g.cells && End(c) == k && ((c.down && c.row == i) || (c.up && c.row == i + 1));
      assert i != b.row - 1 && i != b.row + b.h - 1;
      assert Inside(b, c);
    }
  }

  /** A single cell in its row conducts from its left node to its right node. */
  lemma CellPower(g: Grid, b: Box, c: Cell)
    requires Owns(g, b, [c]) && b.row == c.row && c.col == b.col && End(c) == b.end && !c.up && !c.down
    ensures Powered(g, c.row, End(c)) <==> Conducts(c, Input(g, c), g.env)
  {
    OwnGaps(g, b, [c], End(c), c.row - 1);
    OwnGaps(g, b, [c], End(c), c.row);
    LoneRow(g, c.row, End(c));
    RawOwn(g, b, [c], c.row, End(c));
  }

  lemma {:induction false} LinesPower(g: Grid, b: Box)
    requires b.col <= b.end && Owns(g, b, Lines(b.row, b.col, b.end))
    ensures Powered(g, b.row, b.end) <==> Powered(g, b.row, b.col)
    decreases b.end - b.col
  {
    if b.col < b.end {
      var c, rest := LineCell(b.row, b.col), Lines(b.row, b.col + 1, b.end);
      LinesFit(b.(col := b.col + 1));
      SideBySide(g, b, [c], rest, b.col + 1);
      CellPower(g, b.(end := b.col + 1), c);
      LinesPower(g, b.(col := b.col + 1));
    }
  }

  /** A joint shares its power between its two ends. */
  lemma JointPower(g: Grid, b: Box, drop: nat, merge: bool)
    requires 0 < drop < b.h && b.end == b.col + 1 && Owns(g, b, Joint(b.row, drop, b.col, merge))
    ensures Powered(g, b.row, b.end) <==> Powered(g, b.row, b.col) || (merge && Powered(g, b.row + drop, b.col))
    ensures Powered(g, b.row + drop, b.end) <==> Powered(g, b.row, b.end)
  {
    hide Raw, Owns, HasGap, Joint;
    var gaps, k, top, low := Gaps(g.cells, b.end), b.end, b.row, b.row + drop;
    JointGaps(g, b, drop, merge);
    JointDrives(g, b, drop, merge);
    forall row, s | top <= row <= low ensures Span(gaps, row, s) <==> top <= s <= low {
      assert top - 1 !in gaps && low !in gaps;
    }
    assert Span(gaps, top, top) && Span(gaps, top, low) && Span(gaps, low, top) && Span(gaps, low, low);
  }

  lemma JointGaps(g: Grid, b: Box, drop: nat, merge: bool)
    requires 0 < drop < b.h && b.end == b.col + 1 && Owns(g, b, Joint(b.row, drop, b.col, merge))
    ensures forall i :: b.row - 1 <= i <= b.row + drop ==> (HasGap(g.cells, b.end, i) <==> b.row <= i < b.row + drop)
  {
    hide Joint, HasGap, Owns;
    var cells := Joint(b.row, drop, b.col, merge);
    JointIs(b.row, drop, b.col, merge);
    forall i | b.row - 1 <= i <= b.row + drop
      ensures HasGap(g.cells, b.end, i) <==> b.row <= i < b.row + drop
    {
      OwnGaps(g, b, cells, b.end, i);
      if i == b.row {
        assert JointTop(b.row, b.col) in cells;
      } else if b.row < i < b.row + drop {
        assert Cell(VerticalLine, i, b.col, "", false, false, true, true) in cells;
      }
    }
  }

  lemma JointDrives(g: Grid, b: Box, drop: nat, merge: bool)
    requires 0 < drop < b.h && b.end == b.col + 1 && Owns(g, b, Joint(b.row, drop, b.col, merge))
    ensures forall s :: b.row <= s <= b.row + drop ==>
      (Raw(g, b.end, s) <==>
        (s == b.row && Powered(g, s, b.col)) || (merge && s == b.row + drop && Powered(g, s, b.col)))
  {
    hide Joint, Raw, Powered, AllFit;
    var cells := Joint(b.row, drop, b.col, merge);
    JointIs(b.row, drop, b.col, merge);
    forall s | b.row <= s <= b.row + drop
      ensures Raw(g, b.end, s) <==>
        (s == b.row && Powered(g, s, b.col)) || (merge && s == b.row + drop && Powered(g, s, b.col))
    {
      RawOwn(g, b, cells, s, b.end);
      assert JointTop(b.row, b.col) in cells && JointEnd(b.row + drop, b.col, merge) in cells;
    }
  }

  // ----- Networks

  lemma LeafPower(contact: Contact, g: Grid, b: Box)
    requires b.end == b.col + NetWidth(Leaf(contact)) && Owns(g, b, [ContactCell(contact, b.row, b.col)])
    ensures Powered(g, b.row, b.end) <==> Powered(g, b.row, b.col) && Holds(contact, g.env)
  {
    CellPower(g, b, ContactCell(contact, b.row, b.col));
  }

  /** Power leaves a drawn network exactly when it enters and the network is closed. */
  lemma {:induction false} NetPower(net: Net, g: Grid, b: Box)
    requires NetHeight(net) <= b.h && b.end == b.col + NetWidth(net)
    requires Owns(g, b, DrawNet(net, b.row, b.col))
    ensures Powered(g, b.row, b.end) <==> Powered(g, b.row, b.col) && Closes(net, g.env)
    decreases net, 1
  {
    hide Powered, Owns;
    match net
    case Leaf(contact) => LeafPower(contact, g, b);
    case Series(p, q) => SeriesPower(p, q, g, b);
    case Parallel(p, q) => ParallelPower(p, q, g, b);
  }

  lemma {:induction false} SeriesPower(p: Net, q: Net, g: Grid, b: Box)
    requires NetHeight(Series(p, q)) <= b.h && b.end == b.col + NetWidth(Series(p, q))
    requires Owns(g, b, DrawNet(Series(p, q), b.row, b.col))
    ensures Powered(g, b.row, b.end) <==> Powered(g, b.row, b.col) && Closes(Series(p, q), g.env)
    decreases Series(p, q), 0
  {
    hide Powered, Owns, DrawNet, NetWidth, NetHeight, Max;
    var mid := b.col + NetWidth(p);
    DrawnSeries(p, q, b);
    SeriesParts(p, q, g, b);
    NetPower(p, g, b.(end := mid));
    NetPower(q, g, b.(col := mid));
  }

  lemma {:induction false} ParallelPower(p: Net, q: Net, g: Grid, b: Box)
    requires NetHeight(Parallel(p, q)) <= b.h && b.end == b.col + NetWidth(Parallel(p, q))
    requires Owns(g, b, DrawNet(Parallel(p, q), b.row, b.col))
    ensures Powered(g, b.row, b.end) <==> Powered(g, b.row, b.col) && Closes(Parallel(p, q), g.env)
    decreases Parallel(p, q), 0
  {
    hide Powered, Owns, DrawNet, Joint, Padded, NetWidth, NetHeight, Max;
    DrawnParallel(p, q, b);
    ParallelParts(p, q, g, b);
    var h, inner, end := NetHeight(p), b.col + 1, b.end - 1;
    JointPower(g, b.(end := inner), h, false);
    PaddedPower(p, g, Box(b.row, h, inner, end));
    PaddedPower(q, g, Box(b.row + h, b.h - h, inner, end));
    JointPower(g, b.(col := end), h, true);
  }

  lemma SeriesParts(p: Net, q: Net, g: Grid, b: Box)
    requires NetHeight(Series(p, q)) <= b.h && b.end == b.col + NetWidth(Series(p, q))
    requires Owns(g, b, DrawNet(Series(p, q), b.row, b.col))
    ensures Owns(g, b.(end := b.col + NetWidth(p)), DrawNet(p, b.row, b.col))
    ensures Owns(g, b.(col := b.col + NetWidth(p)), DrawNet(q, b.row, b.col + NetWidth(p)))
  {
    hide Owns, AllFit, DrawNet, NetWidth, NetHeight, Max;
    var mid := b.col + NetWidth(p);
    DrawnSeries(p, q, b);
    NetFits(p, b.(end := mid));
    NetFits(q, b.(col := mid));
    SideBySide(g, b, DrawNet(p, b.row, b.col), DrawNet(q, b.row, mid), mid);
  }

  lemma {:induction false} PaddedPower(net: Net, g: Grid, b: Box)
    requires NetHeight(net) <= b.h && b.col + NetWidth(net) <= b.end
    requires Owns(g, b, Padded(net, b.row, b.col, b.end))
    ensures Powered(g, b.row, b.end) <==> Powered(g, b.row, b.col) && Closes(net, g.env)
    decreases net, 2
  {
    hide DrawNet, Lines, AllFit, Owns, Powered;
    var mid := b.col + NetWidth(net);
    NetFits(net, b.(end := mid));
    LinesFit(b.(col := mid));
    SideBySide(g, b, DrawNet(net, b.row, b.col), Lines(b.row, mid, b.end), mid);
    NetPower(net, g, b.(end := mid));
    LinesPower(g, b.(col := mid));
  }

  lemma ParallelParts(p: Net, q: Net, g: Grid, b: Box)
    requires NetHeight(Parallel(p, q)) <= b.h && b.end == b.col + NetWidth(Parallel(p, q))
    requires Owns(g, b, DrawNet(Parallel(p, q), b.row, b.col))
    ensures Owns(g, b.(end := b.col + 1), Joint(b.row, NetHeight(p), b.col, false))
    ensures Owns(g, b.(col := b.end - 1), Joint(b.row, NetHeight(p), b.end - 1, true))
    ensures Owns(g, Box(b.row, NetHeight(p), b.col + 1, b.end - 1), Padded(p, b.row, b.col + 1, b.end - 1))
    ensures Owns(g, Box(b.row + NetHeight(p), b.h - NetHeight(p), b.col + 1, b.end - 1),
                 Padded(q, b.row + NetHeight(p), b.col + 1, b.end - 1))
  {
    hide DrawNet, Padded, Joint, Owns, AllFit, NetWidth, NetHeight, Max;
    DrawnParallel(p, q, b);
    ParallelFits(p, q, b);
    var h, inner, end := NetHeight(p), b.col + 1, b.end - 1;
    var split, merge := Joint(b.row, h, b.col, false), Joint(b.row, h, end, true);
    SideBySide(g, b, split + Middle(p, q, b), merge, end);
    SideBySide(g, b.(end := end), split, Middle(p, q, b), inner);
    Stacked(g, Box(b.row, b.h, inner, end), Padded(p, b.row, inner, end), Padded(q, b.row + h, inner, end), h);
  }

  // ----- Outputs

  /** An output named `key` is drawn and its cell is under power. */
  ghost predicate Energised(g: Grid, cells: seq<Cell>, key: Key) {
    exists c :: c in cells && OutputKey(c) == Some(key) && Input(g, c)
  }

  lemma EnergisedBoth(g: Grid, p: seq<Cell>, q: seq<Cell>, key: Key)
    ensures Energised(g, p + q, key) <==> Energised(g, p, key) || Energised(g, q, key)
  {
  }

  /** The cells look up only `atoms` and record only `keys`. */
  ghost predicate Uses(cells: seq<Cell>, atoms: set<string>, keys: set<Key>) {
    forall c :: c in cells ==>
      && !c.element.Other? && !c.element.Block?
      && (Atom(c).Some? ==> Atom(c).value in atoms)
      && (OutputKey(c).Some? ==> OutputKey(c).value in keys)
  }

  lemma UsesBoth(
    p: seq<Cell>, q: seq<Cell>, a: set<string>, b: set<string>, atoms: set<string>,
    k: set<Key>, l: set<Key>, keys: set<Key>)
    requires Uses(p, a, k) && Uses(q, b, l)
    requires a <= atoms && b <= atoms && k <= keys && l <= keys
    ensures Uses(p + q, atoms, keys)
  {
    hide OutputKey, Atom;
  }

  lemma JointUses(row: int, drop: nat, col: int, merge: bool)
    ensures Uses(Joint(row, drop, col, merge), {}, {})
  {
    hide Joint;
    JointIs(row, drop, col, merge);
  }

  lemma {:induction false} LinesUse(row: int, col: int, end: int)
    ensures Uses(Lines(row, col, end), {}, {})
    decreases end - col
  {
    if col < end { LinesUse(row, col + 1, end); }
  }

  lemma {:induction false} NetUses(net: Net, row: int, col: int)
    ensures Uses(DrawNet(net, row, col), NetAtoms(net), {})
    decreases net, 1
  {
    match net
    case Leaf(_) =>
    case Series(p, q) => SeriesUses(p, q, row, col);
    case Parallel(p, q) => ParallelUses(p, q, Box(row, 0, col, col + NetWidth(net)));
  }

  lemma {:induction false} SeriesUses(p: Net, q: Net, row: int, col: int)
    ensures Uses(DrawNet(Series(p, q), row, col), NetAtoms(Series(p, q)), {})
    decreases Series(p, q), 0
  {
    hide Uses, DrawNet, NetWidth, NetHeight;
    DrawnSeries(p, q, Box(row, 0, col, 0));
    NetUses(p, row, col);
    NetUses(q, row, col + NetWidth(p));
    UsesBoth(DrawNet(p, row, col), DrawNet(q, row, col + NetWidth(p)), NetAtoms(p), NetAtoms(q),
             NetAtoms(p) + NetAtoms(q), {}, {}, {});
  }

  lemma {:induction false} PaddedUses(net: Net, row: int, col: int, end: int)
    ensures Uses(Padded(net, row, col, end), NetAtoms(net), {})
    decreases net, 2
  {
    hide Uses, DrawNet, Lines, NetAtoms;
    NetUses(net, row, col);
    LinesUse(row, col + NetWidth(net), end);
    UsesBoth(DrawNet(net, row, col), Lines(row, col + NetWidth(net), end), NetAtoms(net), {}, NetAtoms(net), {}, {}, {});
  }

  lemma {:induction false} ParallelUses(p: Net, q: Net, b: Box)
    requires b.end == b.col + NetWidth(Parallel(p, q))
    ensures Uses(DrawNet(Parallel(p, q), b.row, b.col), NetAtoms(Parallel(p, q)), {})
    decreases Parallel(p, q), 0
  {
    hide DrawNet, Joint, Padded, Uses;
    DrawnParallel(p, q, b);
    var h, inner, end := NetHeight(p), b.col + 1, b.end - 1;
    var split, merge := Joint(b.row, h, b.col, false), Joint(b.row, h, end, true);
    var atoms := NetAtoms(p) + NetAtoms(q);
    PaddedUses(p, b.row, inner, end);
    PaddedUses(q, b.row + h, inner, end);
    UsesBoth(Padded(p, b.row, inner, end), Padded(q, b.row + h, inner, end), NetAtoms(p), NetAtoms(q), atoms, {}, {}, {});
    JointUses(b.row, h, b.col, false);
    JointUses(b.row, h, end, true);
    UsesBoth(split, Middle(p, q, b), {}, atoms, atoms, {}, {}, {});
    UsesBoth(split + Middle(p, q, b), merge, atoms, {}, atoms, {}, {}, {});
  }

  /** A drawn rung looks up the rung's atoms and records the rung's outputs. */
  lemma {:induction false} RungUses(rung: Rung, b: Box)
    requires PlainOutputs(rung)
    ensures Uses(DrawRung(rung, b.row, b.col), RungAtoms(rung), RungKeys(rung))
    decreases rung, 1
  {
    match rung
    case Out(_) =>
    case Then(net, rest) => ThenUses(net, rest, b);
    case Pass(stage, rest) => PassUses(stage, rest, b);
    case Fork(upper, lower) => ForkUses(upper, lower, b);
  }

  lemma {:induction false} ThenUses(net: Net, rest: Rung, b: Box)
    requires PlainOutputs(rest)
    ensures Uses(DrawRung(Then(net, rest), b.row, b.col), RungAtoms(Then(net, rest)), RungKeys(Then(net, rest)))
    decreases Then(net, rest), 0
  {
    hide Uses, DrawNet, DrawRung, NetWidth, NetAtoms, PlainOutputs;
    var atoms, keys := RungAtoms(Then(net, rest)), RungKeys(rest);
    DrawnThen(net, rest, b);
    NetUses(net, b.row, b.col);
    RungUses(rest, b.(col := b.col + NetWidth(net)));
    UsesBoth(DrawNet(net, b.row, b.col), DrawRung(rest, b.row, b.col + NetWidth(net)),
             NetAtoms(net), RungAtoms(rest), atoms, {}, keys, keys);
  }

  lemma StageUses(stage: Stage, row: int, col: int)
    requires stage.Drive? ==> !stage.key.Pin?
    ensures Uses([StageCell(stage, row, col)], StageAtoms(stage), StageKeys(stage))
  {
  }

  lemma {:induction false} PassUses(stage: Stage, rest: Rung, b: Box)
    requires PlainOutputs(Pass(stage, rest))
    ensures Uses(DrawRung(Pass(stage, rest), b.row, b.col), RungAtoms(Pass(stage, rest)), RungKeys(Pass(stage, rest)))
    decreases Pass(stage, rest), 0
  {
    hide Uses, DrawRung, StageWidth, StageCell, StageAtoms, StageKeys;
    var atoms, keys := RungAtoms(Pass(stage, rest)), RungKeys(Pass(stage, rest));
    DrawnPass(stage, rest, b);
    StageUses(stage, b.row, b.col);
    RungUses(rest, b.(col := b.col + StageWidth(stage)));
    UsesBoth([StageCell(stage, b.row, b.col)], DrawRung(rest, b.row, b.col + StageWidth(stage)),
             StageAtoms(stage), RungAtoms(rest), atoms, StageKeys(stage), RungKeys(rest), keys);
  }

  lemma {:induction false} ForkUses(upper: Rung, lower: Rung, b: Box)
    requires PlainOutputs(Fork(upper, lower))
    ensures Uses(DrawRung(Fork(upper, lower), b.row, b.col), RungAtoms(Fork(upper, lower)), RungKeys(Fork(upper, lower)))
    decreases Fork(upper, lower), 0
  {
    hide Uses, DrawRung, RungHeight, Joint;
    var atoms, keys := RungAtoms(upper) + RungAtoms(lower), RungKeys(upper) + RungKeys(lower);
    var h, inner := RungHeight(upper), b.col + 1;
    DrawnFork(upper, lower, b);
    JointUses(b.row, h, b.col, false);
    RungUses(upper, b.(col := inner));
    RungUses(lower, b.(row := b.row + h, col := inner));
    UsesBoth(DrawRung(upper, b.row, inner), DrawRung(lower, b.row + h, inner),
             RungAtoms(upper), RungAtoms(lower), atoms, RungKeys(upper), RungKeys(lower), keys);
    UsesBoth(Joint(b.row, h, b.col, false), DrawRung(upper, b.row, inner) + DrawRung(lower, b.row + h, inner),
             {}, atoms, atoms, {}, keys, keys);
  }

  lemma KeyCells(stage: Stage, key: Key, row: int, col: int)
    requires !key.Pin?
    ensures OutputKey(OutCell(key, row, col)) == Some(key)
    ensures key in StageKeys(stage) ==> OutputKey(StageCell(stage, row, col)) == Some(key)
  {
  }

  /** Every output of the rung is drawn. */
  lemma {:induction false} OutputsDrawn(rung: Rung, row: int, col: int, key: Key) returns (c: Cell)
    requires PlainOutputs(rung) && key in RungKeys(rung)
    ensures c in DrawRung(rung, row, col) && OutputKey(c) == Some(key)
  {
    hide DrawRung, DrawNet, NetWidth, RungHeight, Joint, StageWidth, StageCell, StageKeys, OutputKey, OutCell, RungWidth;
    var b := Box(row, 0, col, 0);
    match rung
    case Out(_) =>
      KeyCells(Invert, key, row, col);
      OutDrawn(key, row, col);
      c := OutCell(key, row, col);
    case Then(net, rest) =>
      DrawnThen(net, rest, b);
      c := OutputsDrawn(rest, row, col + NetWidth(net), key);
    case Pass(stage, rest) =>
      DrawnPass(stage, rest, b);
      if key in RungKeys(rest) {
        c := OutputsDrawn(rest, row, col + StageWidth(stage), key);
      } else {
        StageKeyPlain(stage, key);
        KeyCells(stage, key, row, col);
        c := StageCell(stage, row, col);
      }
    case Fork(upper, lower) =>
      DrawnFork(upper, lower, b);
      if key in RungKeys(upper) {
        c := OutputsDrawn(upper, row, col + 1, key);
      } else {
        c := OutputsDrawn(lower, row + RungHeight(upper), col + 1, key);
      }
  }

  lemma OutDrawn(key: Key, row: int, col: int)
    ensures OutCell(key, row, col) in DrawRung(Out(key), row, col)
  {
  }

  lemma StageKeyPlain(stage: Stage, key: Key)
    requires (stage.Drive? ==> !stage.key.Pin?) && key in StageKeys(stage)
    ensures !key.Pin?
  {
  }

  /** The drawn outputs that are energised are those that fire in the rung. */
  lemma {:induction false} RungPower(rung: Rung, g: Grid, b: Box, key: Key)
    requires RungHeight(rung) <= b.h && b.col + RungWidth(rung) <= b.end
    requires Owns(g, b, DrawRung(rung, b.row, b.col)) && PlainOutputs(rung)
    ensures Energised(g, DrawRung(rung, b.row, b.col), key) <==> Fires(rung, key, g.env, Powered(g, b.row, b.col))
    decreases rung, 1
  {
    hide Powered, Owns;
    match rung
    case Out(k) =>
      assert OutCell(k, b.row, b.col) in DrawRung(rung, b.row, b.col);
    case Then(net, rest) => ThenPower(net, rest, g, b, key);
    case Pass(stage, rest) => PassPower(stage, rest, g, b, key);
    case Fork(upper, lower) => ForkPower(upper, lower, g, b, key);
  }

  lemma {:induction false} ThenPower(net: Net, rest: Rung, g: Grid, b: Box, key: Key)
    requires RungHeight(Then(net, rest)) <= b.h && b.col + RungWidth(Then(net, rest)) <= b.end
    requires Owns(g, b, DrawRung(Then(net, rest), b.row, b.col)) && PlainOutputs(rest)
    ensures Energised(g, DrawRung(Then(net, rest), b.row, b.col), key)
       <==> Fires(Then(net, rest), key, g.env, Powered(g, b.row, b.col))
    decreases Then(net, rest), 0
  {
    hide Powered, Owns, Energised, Uses, AllFit, DrawNet, DrawRung, RungWidth, RungHeight, NetWidth, NetHeight, Closes;
    DrawnThen(net, rest, b);
    ThenFits(net, rest, b);
    var mid := b.col + NetWidth(net);
    SideBySide(g, b, DrawNet(net, b.row, b.col), DrawRung(rest, b.row, mid), mid);
    NetPower(net, g, b.(end := mid));
    RungPower(rest, g, b.(col := mid), key);
    NetUses(net, b.row, b.col);
    SilentNotEnergised(g, DrawNet(net, b.row, b.col), NetAtoms(net), key);
    EnergisedBoth(g, DrawNet(net, b.row, b.col), DrawRung(rest, b.row, mid), key);
  }

  /** The power behind a stage's cell, and the output it may drive. */
  lemma StagePower(stage: Stage, g: Grid, b: Box, key: Key)
    requires 0 < b.h && b.end == b.col + StageWidth(stage) && (stage.Drive? ==> !stage.key.Pin?)
    requires Owns(g, b, [StageCell(stage, b.row, b.col)])
    ensures Powered(g, b.row, b.end) <==> Passes(stage, g.env, Powered(g, b.row, b.col))
    ensures Energised(g, [StageCell(stage, b.row, b.col)], key) <==> Powered(g, b.row, b.col) && key in StageKeys(stage)
  {
    hide Powered, Owns;
    var c := StageCell(stage, b.row, b.col);
    StageFits(stage, b);
    CellPower(g, b, c);
    assert c in [c];
  }

  lemma {:induction false} PassPower(stage: Stage, rest: Rung, g: Grid, b: Box, key: Key)
    requires RungHeight(Pass(stage, rest)) <= b.h && b.col + RungWidth(Pass(stage, rest)) <= b.end
    requires Owns(g, b, DrawRung(Pass(stage, rest), b.row, b.col)) && PlainOutputs(Pass(stage, rest))
    ensures Energised(g, DrawRung(Pass(stage, rest), b.row, b.col), key)
       <==> Fires(Pass(stage, rest), key, g.env, Powered(g, b.row, b.col))
    decreases Pass(stage, rest), 0
  {
    hide Powered, Owns, Energised, AllFit, DrawRung, RungWidth, RungHeight, StageWidth, StageCell, Passes, StageKeys;
    DrawnPass(stage, rest, b);
    PassFits(stage, rest, b);
    var mid, cell := b.col + StageWidth(stage), [StageCell(stage, b.row, b.col)];
    SideBySide(g, b, cell, DrawRung(rest, b.row, mid), mid);
    StagePower(stage, g, b.(end := mid), key);
    RungPower(rest, g, b.(col := mid), key);
    EnergisedBoth(g, cell, DrawRung(rest, b.row, mid), key);
  }

  lemma SilentNotEnergised(g: Grid, cells: seq<Cell>, atoms: set<string>, key: Key)
    requires Uses(cells, atoms, {})
    ensures !Energised(g, cells, key)
  {
  }

  lemma {:induction false} ForkPower(upper: Rung, lower: Rung, g: Grid, b: Box, key: Key)
    requires RungHeight(upper) + RungHeight(lower) <= b.h && b.col + RungWidth(Fork(upper, lower)) <= b.end
    requires Owns(g, b, DrawRung(Fork(upper, lower), b.row, b.col)) && PlainOutputs(Fork(upper, lower))
    ensures Energised(g, DrawRung(Fork(upper, lower), b.row, b.col), key)
       <==> Fires(Fork(upper, lower), key, g.env, Powered(g, b.row, b.col))
    decreases Fork(upper, lower), 0
  {
    hide Powered, Owns, Energised, Joint, AllFit, Uses, DrawRung, RungWidth, RungHeight;
    DrawnFork(upper, lower, b);
    var h, inner := RungHeight(upper), b.col + 1;
    var split, top, low := Joint(b.row, h, b.col, false), DrawRung(upper, b.row, inner), DrawRung(lower, b.row + h, inner);
    ForkFits(upper, lower, b);
    SideBySide(g, b, split, top + low, inner);
    Stacked(g, b.(col := inner), top, low, h);
    JointPower(g, b.(end := inner), h, false);
    RungPower(upper, g, Box(b.row, h, inner, b.end), key);
    RungPower(lower, g, Box(b.row + h, b.h - h, inner, b.end), key);
    JointUses(b.row, h, b.col, false);
    SilentNotEnergised(g, split, {}, key);
    EnergisedBoth(g, split, top + low, key);
    EnergisedBoth(g, top, low, key);
  }

  // ----- The whole drawing

  lemma DrawingOwned(rung: Rung, env: map<string, bool>)
    ensures Owns(Drawing(rung, env), Box(0, RungHeight(rung), 0, RungWidth(rung)), DrawRung(rung, 0, 0))
    ensures AllFit(Box(0, RungHeight(rung), 0, RungWidth(rung)), DrawRung(rung, 0, 0))
  {
    var b := Box(0, RungHeight(rung), 0, RungWidth(rung));
    RungFits(rung, b);
  }

  lemma {:induction false} DrawingNotEmpty(rung: Rung, row: int, col: int)
    ensures DrawRung(rung, row, col) != []
  {
    if rung.Then? { DrawingNotEmpty(rung.rest, row, col + NetWidth(rung.net)); }
    if rung.Pass? { DrawingNotEmpty(rung.rest, row, col + StageWidth(rung.stage)); }
  }

  /** The left rail feeds the rung. */
  lemma RailFeeds(rung: Rung, env: map<string, bool>)
    ensures Powered(Drawing(rung, env), 0, 0)
  {
    var g := Drawing(rung, env);
    DrawingOwned(rung, env);
    DrawingNotEmpty(rung, 0, 0);
    assert g.cells[0] in g.cells && Fits(Box(0, RungHeight(rung), 0, RungWidth(rung)), g.cells[0]);
    assert RailRow(g, 0);
    assert Raw(g, 0, 0) && Span(Gaps(g.cells, 0), 0, 0);
  }

  /** What a sweep over the drawing records is what the rung means. */
  lemma DrawingRecords(rung: Rung, env: map<string, bool>, results: map<Key, bool>, key: Key)
    requires PlainOutputs(rung) && !key.Pin?
    requires Drawing(rung, env).cells != []
    requires Records(Drawing(rung, env), MaxEnd(Drawing(rung, env).cells) + 1, 0, results)
    ensures Recorded(results, key) <==> Fires(rung, key, env, true)
  {
    hide Powered, Owns, DrawRung, Fires, Energised, Records, AllFit, RungWidth, RungHeight;
    var g, b := Drawing(rung, env), Box(0, RungHeight(rung), 0, RungWidth(rung));
    DrawingOwned(rung, env);
    RailFeeds(rung, env);
    RungPower(rung, g, b, key);
    FitsRight(b, g.cells);
    SweepRecords(g, results, key);
  }

  ghost predicate RightOfRail(cells: seq<Cell>) {
    forall c :: c in cells ==> End(c) > 0
  }

  lemma FitsRight(b: Box, cells: seq<Cell>)
    requires b.col >= 0 && AllFit(b, cells)
    ensures RightOfRail(cells)
  {
    forall c | c in cells ensures End(c) > 0 { assert Fits(b, c); }
  }

  /** In a grid right of the rail, exactly the energised outputs are recorded as on. */
  lemma SweepRecords(g: Grid, results: map<Key, bool>, key: Key)
    requires g.cells != [] && RightOfRail(g.cells) && !key.Pin?
    requires Records(g, MaxEnd(g.cells) + 1, 0, results)
    ensures Recorded(results, key) <==> Energised(g, g.cells, key)
  {
    hide Powered, RecordsPins;
    var k := MaxEnd(g.cells) + 1;
    if Recorded(results, key) {
      var i :| Recorder(g, k, 0, i, key) && Input(g, g.cells[i]);
      assert g.cells[i] in g.cells;
    }
    if Energised(g, g.cells, key) {
      var c :| c in g.cells && OutputKey(c) == Some(key) && Input(g, c);
      var i :| 0 <= i < |g.cells| && g.cells[i] == c;
      assert Recorder(g, k, 0, i, key);
    }
  }

  lemma NoPinsRecorded(g: Grid, k: int, results: map<Key, bool>)
    requires Records(g, k, 0, results) && forall c :: c in g.cells ==> !c.element.Block?
    ensures forall key :: key in results ==> !key.Pin?
  {
    hide RecordsOutputs, Powered, PinPower, LastPinRecorder;
    forall name, pin, i ensures !PinRecorder(g, k, 0, i, name, pin) {
      if 0 <= i < |g.cells| { assert g.cells[i] in g.cells; }
    }
    forall name, pin ensures Key.Pin(name, pin) !in results {}
  }

  /** A sweep over the drawing records the rung's outputs and nothing else. */
  lemma DrawingKeys(rung: Rung, env: map<string, bool>, results: map<Key, bool>)
    requires PlainOutputs(rung) && Drawing(rung, env).cells != []
    requires Records(Drawing(rung, env), MaxEnd(Drawing(rung, env).cells) + 1, 0, results)
    ensures results.Keys == RungKeys(rung)
  {
    hide Records, DrawRung, AllFit, Uses, RungKeys, RungWidth, RungHeight, Owns;
    var g, b := Drawing(rung, env), Box(0, RungHeight(rung), 0, RungWidth(rung));
    DrawingOwned(rung, env);
    RungUses(rung, b);
    forall key ensures key in results <==> key in RungKeys(rung) {
      if key in RungKeys(rung) {
        var c := OutputsDrawn(rung, 0, 0, key);
        DrawnIsRecorded(g, b, results, key, c);
      }
      if key in results {
        RecordedIsUsed(g, RungAtoms(rung), RungKeys(rung), results, key);
      }
    }
  }

  lemma DrawnIsRecorded(g: Grid, b: Box, results: map<Key, bool>, key: Key, c: Cell)
    requires g.cells != [] && b.col == 0 && AllFit(b, g.cells)
    requires Records(g, MaxEnd(g.cells) + 1, 0, results)
    requires c in g.cells && OutputKey(c) == Some(key)
    ensures key in results
  {
    hide Powered, RecordsPins;
    var i :| 0 <= i < |g.cells| && g.cells[i] == c;
    assert Fits(b, c);
    assert Recorder(g, MaxEnd(g.cells) + 1, 0, i, key);
  }

  lemma RecordedIsUsed(g: Grid, atoms: set<string>, keys: set<Key>, results: map<Key, bool>, key: Key)
    requires g.cells != [] && Uses(g.cells, atoms, keys)
    requires Records(g, MaxEnd(g.cells) + 1, 0, results)
    requires key in results
    ensures key in keys
  {
    hide Powered, PinPower, LastPinRecorder, Input;
    var k := MaxEnd(g.cells) + 1;
    NoPinsRecorded(g, k, results);
    var i :| Recorder(g, k, 0, i, key);
    assert g.cells[i] in g.cells;
  }

  /** The sweep over a drawing never stops early, once the rung's atoms are defined. */
  lemma DrawingSound(rung: Rung, env: map<string, bool>)
    requires PlainOutputs(rung) && RungAtoms(rung) <= env.Keys
    ensures Drawing(rung, env).cells != []
    ensures forall c :: c in Drawing(rung, env).cells ==> !Faulty(Drawing(rung, env), c)
  {
    hide Powered, DrawRung;
    DrawingNotEmpty(rung, 0, 0);
    RungUses(rung, Box(0, 0, 0, 0));
  }
}
