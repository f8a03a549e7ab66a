/** The paged pool seen from one forward pass: slots, block tables, the gather, its mask. */
module PagedCache {
  import opened Wrappers
  import opened Transformer
  import opened Forward
  import opened Blocks

  /** The paged fields of a batch: row r writes its new tokens to the flat slots
      slotMapping[r] and reads through blockTables[r], padded with -1. */
  datatype PagedBatch = PagedBatch(
    inputIds: seq<seq<Token>>,
    positionIds: seq<seq<nat>>,
    mask: Option<Mask>,
    blockTables: seq<seq<int>>,
    slotMapping: seq<seq<nat>>,
    seqLens: seq<nat>)

  function Max(s: seq<nat>): (x: nat)
    requires |s| > 0
    ensures x in s && forall y | y in s :: y <= x
  {
    if |s| == 1 then s[0]
    else
      var rest := Max(s[1..]);
      assert s == [s[0]] + s[1..];
      if s[0] >= rest then s[0] else rest
  }

  /** Slot of a token: block times block size plus offset, flat over the pool. */
  function SlotFor(table: seq<nat>, i: nat, bs: nat): nat
    requires bs > 0 && i / bs < |table|
  {
    table[i / bs] * bs + i % bs
  }

  /** The cell a flat slot names in the (block, offset) layout. */
  function CellOf(slot: nat, bs: nat): Loc
    requires bs > 0
  {
    Loc(slot / bs, slot % bs)
  }

  /** The cell of a sequence's token i. */
  function TokenCell(table: seq<nat>, i: nat, bs: nat): Loc
    requires bs > 0 && i / bs < |table|
  {
    Loc(table[i / bs], i % bs)
  }

  lemma SlotIsTokenCell(table: seq<nat>, i: nat, bs: nat)
    requires bs > 0 && i / bs < |table|
    ensures CellOf(SlotFor(table, i, bs), bs) == TokenCell(table, i, bs)
  {
    var slot := SlotFor(table, i, bs);
    QuotientUnique(table[i / bs], i % bs, slot / bs, slot % bs, bs);
  }

  /** block_table + [-1] * (width - len(block_table)). */
  function Padded(table: seq<nat>, width: nat): (r: seq<int>)
    ensures |r| == if |table| <= width then width else |table|
    ensures forall i | 0 <= i < |table| :: r[i] == table[i]
    ensures forall i | |table| <= i < |r| :: r[i] == -1
  {
    var ids: seq<int> := table;
    ids + seq<int>(if |table| <= width then width - |table| else 0, _ => -1)
  }

  /** Cells of the first n columns gathered through a padded table; -1 reads block 0. */
  function Gathered(row: seq<int>, n: nat, bs: nat): (cells: seq<Loc>)
    requires bs > 0 && BlocksNeeded(n, bs) <= |row|
    ensures |cells| == n
  {
    ColumnsCovered(n, bs, |row|);
    seq(n, c requires 0 <= c < n && c / bs < |row| =>
      Loc(if row[c / bs] < 0 then 0 else row[c / bs], c % bs))
  }

  lemma ColumnsCovered(n: nat, bs: nat, k: nat)
    requires bs > 0 && BlocksNeeded(n, bs) <= k
    ensures forall c | 0 <= c < n :: 0 <= c / bs < k
  {
    forall c | 0 <= c < n ensures 0 <= c / bs < k {
      BlocksNeededMonotone(c + 1, n, bs);
      Covers(c, bs, k);
    }
  }

  lemma GatheredCell(table: seq<nat>, width: nat, n: nat, bs: nat, c: nat)
    requires bs > 0 && c < n && BlocksNeeded(n, bs) <= |Padded(table, width)| && c / bs < |table|
    ensures Gathered(Padded(table, width), n, bs)[c] == TokenCell(table, c, bs)
  {
  }

  /** A gathered column is the row's own cell while its table lasts; past that the clamp reads block
      0, which is the row's own only if its table happens to hold block 0. */
  lemma GatheredOwn(table: seq<nat>, width: nat, n: nat, bs: nat, c: nat)
    requires bs > 0 && c < n && BlocksNeeded(n, bs) <= |Padded(table, width)|
    ensures var cell := Gathered(Padded(table, width), n, bs)[c];
      && cell == (if c / bs < |table| then TokenCell(table, c, bs) else Loc(0, c % bs))
      && ((exists b :: 0 <= b < |table| && table[b] == cell.major) <==> c / bs < |table| || 0 in table)
  {
    ColumnsCovered(n, bs, |Padded(table, width)|);
    if c / bs < |table| {
      assert table[c / bs] == Gathered(Padded(table, width), n, bs)[c].major;
    }
  }

  /** What the shapes of a paged batch must satisfy for the pass to run at all. */
  predicate PagedShape(b: PagedBatch, bs: nat) {
    && bs > 0 && |b.seqLens| > 0
    && |b.inputIds| == |b.positionIds| == |b.blockTables| == |b.slotMapping| == |b.seqLens|
    && (forall r | 0 <= r < |b.inputIds| :: |b.inputIds[r]| == |b.positionIds[r]| == |b.slotMapping[r]|)
    && (forall r | 0 <= r < |b.inputIds| :: BlocksNeeded(Max(b.seqLens), bs) <= |b.blockTables[r]|)
  }

  function Cells(slots: seq<nat>, bs: nat): (cells: seq<Loc>)
    requires bs > 0
    ensures |cells| == |slots|
  {
    seq(|slots|, j requires 0 <= j < |slots| => CellOf(slots[j], bs))
  }

  function PagedPlan(b: PagedBatch, bs: nat): (p: Plan)
    requires PagedShape(b, bs)
  {
    Plan(b.inputIds, b.positionIds,
      seq(|b.inputIds|, r requires 0 <= r < |b.inputIds| => Cells(b.slotMapping[r], bs)),
      seq(|b.inputIds|, r requires 0 <= r < |b.inputIds| => Gathered(b.blockTables[r], Max(b.seqLens), bs)),
      b.mask)
  }

  // ----- the two batches the engine builds

  function Slots(table: seq<nat>, from: nat, n: nat, bs: nat): (s: seq<nat>)
    requires bs > 0 && BlocksNeeded(from + n, bs) <= |table|
    ensures |s| == n
  {
    ColumnsCovered(from + n, bs, |table|);
    seq<nat>(n, j requires 0 <= j < n && (from + j) / bs < |table| => SlotFor(table, from + j, bs))
  }

  /** Prefill of one sequence: all its tokens, causal, into the cells of its own table. */
  function PrefillBatch(toks: seq<Token>, table: seq<nat>, width: nat, bs: nat): (b: PagedBatch)
    requires bs > 0 && |toks| > 0 && BlocksNeeded(|toks|, bs) <= |table|
    ensures PagedShape(b, bs)
  {
    PagedBatch([toks], [seq(|toks|, i => i)], None, [Padded(table, width)],
      [Slots(table, 0, |toks|, bs)], [|toks|])
  }

  /** build_paged_decode_mask: row r of the batch sees its own first lens[r] columns. */
  function DecodeMask(lens: seq<nat>, n: nat): Mask {
    seq(|lens|, r requires 0 <= r < |lens| => [seq(n, c => c < lens[r])])
  }

  /** One row of a decode step: its last token, at the position the cache has reached. */
  datatype DecodeRow = DecodeRow(last: Token, computed: nat, table: seq<nat>)

  predicate DecodeRowOk(d: DecodeRow, width: nat, bs: nat) {
    bs > 0 && BlocksNeeded(d.computed + 1, bs) <= |d.table| <= width
  }

  predicate DecodeRowsOk(ds: seq<DecodeRow>, width: nat, bs: nat) {
    |ds| > 0 && bs > 0 && forall r | 0 <= r < |ds| :: DecodeRowOk(ds[r], width, bs)
  }

  /** Row lengths after this step's write. */
  function LensAfter(ds: seq<DecodeRow>): (lens: seq<nat>)
    ensures |lens| == |ds| && forall r | 0 <= r < |ds| :: lens[r] == ds[r].computed + 1
  {
    seq<nat>(|ds|, r requires 0 <= r < |ds| => ds[r].computed + 1)
  }

  function DecodeSlots(ds: seq<DecodeRow>, width: nat, bs: nat): (slots: seq<seq<nat>>)
    requires DecodeRowsOk(ds, width, bs)
    ensures |slots| == |ds|
    ensures forall r | 0 <= r < |ds| ::
      DecodeRowOk(ds[r], width, bs) && slots[r] == Slots(ds[r].table, ds[r].computed, 1, bs)
  {
    seq(|ds|, r requires 0 <= r < |ds| && DecodeRowOk(ds[r], width, bs) => Slots(ds[r].table, ds[r].computed, 1, bs))
  }

  function DecodeBatch(ds: seq<DecodeRow>, width: nat, bs: nat): (b: PagedBatch)
    requires DecodeRowsOk(ds, width, bs)
    ensures PagedShape(b, bs)
  {
    var lens := LensAfter(ds);
    WidthCovers(ds, width, bs);
    PagedBatch(
      seq(|ds|, r requires 0 <= r < |ds| => [ds[r].last]),
      seq(|ds|, r requires 0 <= r < |ds| => [ds[r].computed]),
      Some(DecodeMask(lens, Max(lens))),
      seq(|ds|, r requires 0 <= r < |ds| => Padded(ds[r].table, width)),
      DecodeSlots(ds, width, bs),
      lens)
  }

  lemma WidthCovers(ds: seq<DecodeRow>, width: nat, bs: nat)
    requires DecodeRowsOk(ds, width, bs)
    ensures BlocksNeeded(Max(LensAfter(ds)), bs) <= width
  {
    var lens := LensAfter(ds);
    var r :| 0 <= r < |lens| && lens[r] == Max(lens);
    assert DecodeRowOk(ds[r], width, bs);
  }

  // ----- both are faithful windows on their sequences

  ghost predicate OwnCells(tables: seq<seq<nat>>) {
    forall r, i, r', i' | 0 <= r < |tables| && 0 <= i < |tables[r]| && 0 <= r' < |tables| && 0 <= i' < |tables[r']|
      && tables[r][i] == tables[r'][i'] :: r == r' && i == i'
  }

  lemma TokenCellsDistinct(tables: seq<seq<nat>>, r: nat, c: nat, r': nat, c': nat, bs: nat)
    requires bs > 0 && OwnCells(tables) && r < |tables| && r' < |tables|
    requires c / bs < |tables[r]| && c' / bs < |tables[r']|
    requires TokenCell(tables[r], c, bs) == TokenCell(tables[r'], c', bs)
    ensures r == r' && c == c'
  {
    assert c == (c / bs) * bs + c % bs && c' == (c' / bs) * bs + c' % bs;
  }

  lemma PrefillShape(toks: seq<Token>, table: seq<nat>, width: nat, bs: nat)
    requires bs > 0 && |toks| > 0 && BlocksNeeded(|toks|, bs) <= |table|
    ensures Shape(PagedPlan(PrefillBatch(toks, table, width, bs), bs))
  {
    var p := PagedPlan(PrefillBatch(toks, table, width, bs), bs);
    assert RowShape(p, 0);
  }

  lemma PrefillCells(toks: seq<Token>, table: seq<nat>, width: nat, bs: nat, c: nat)
    requires bs > 0 && |toks| > 0 && BlocksNeeded(|toks|, bs) <= |table| && c < |toks|
    ensures var p := PagedPlan(PrefillBatch(toks, table, width, bs), bs);
      && c / bs < |table|
      && p.readAt[0][c] == TokenCell(table, c, bs) == p.writeAt[0][c]
  {
    ColumnsCovered(|toks|, bs, |table|);
    GatheredCell(table, width, |toks|, bs, c);
    SlotIsTokenCell(table, c, bs);
  }

  /** The pass reads each column where it writes it: in the cell the table gives the token. */
  lemma PrefillAddresses(toks: seq<Token>, table: seq<nat>, width: nat, bs: nat)
    requires bs > 0 && |toks| > 0 && BlocksNeeded(|toks|, bs) <= |table|
    ensures var p := PagedPlan(PrefillBatch(toks, table, width, bs), bs);
      && p.ids == [toks] && p.readAt == p.writeAt && |p.readAt| == 1 && |p.readAt[0]| == |toks|
      && forall c | 0 <= c < |toks| :: c / bs < |table| && p.readAt[0][c] == TokenCell(table, c, bs)
  {
    var p := PagedPlan(PrefillBatch(toks, table, width, bs), bs);
    forall c | 0 <= c < |toks|
      ensures c / bs < |table| && p.readAt[0][c] == TokenCell(table, c, bs) == p.writeAt[0][c]
    {
      PrefillCells(toks, table, width, bs, c);
    }
    assert p.readAt[0] == p.writeAt[0];
  }

  lemma PrefillDescribesRow(toks: seq<Token>, table: seq<nat>, width: nat, bs: nat)
    requires bs > 0 && |toks| > 0 && BlocksNeeded(|toks|, bs) <= |table|
    ensures var p := PagedPlan(PrefillBatch(toks, table, width, bs), bs);
      Shape(p) && |p.ids| == 1 && DescribesRow(p, 0, Row(toks, 0, 0))
  {
    hide BlocksNeeded, Padded, Slots, Gathered, Cells;
    PrefillShape(toks, table, width, bs);
    PrefillAddresses(toks, table, width, bs);
    var p := PagedPlan(PrefillBatch(toks, table, width, bs), bs);
    assert RowShape(p, 0);
  }

  lemma PrefillDescribes(toks: seq<Token>, table: seq<nat>, width: nat, bs: nat)
    requires bs > 0 && |toks| > 0 && BlocksNeeded(|toks|, bs) <= |table| && OwnCells([table])
    ensures var p := PagedPlan(PrefillBatch(toks, table, width, bs), bs);
      Shape(p) && Describes(p, [Row(toks, 0, 0)])
  {
    hide PagedPlan, PrefillBatch, BlocksNeeded, DescribesRow, Shape, OwnCells;
    var p := PagedPlan(PrefillBatch(toks, table, width, bs), bs);
    var rows := [Row(toks, 0, 0)];
    PrefillDescribesRow(toks, table, width, bs);
    PrefillAddresses(toks, table, width, bs);
    forall r, c, r', c' | 0 <= r < |rows| && 0 <= c < rows[r].start + |p.ids[r]| && c < |p.readAt[r]|
      && 0 <= r' < |rows| && 0 <= c' < rows[r'].start + |p.ids[r']| && c' < |p.readAt[r']|
      && p.readAt[r][c] == p.readAt[r'][c']
      ensures r == r' && c == c'
    {
      TokenCellsDistinct([table], 0, c, 0, c', bs);
    }
  }

  /** The row carries on the sequence toks: all but its last token is cached. */
  ghost predicate Continues(d: DecodeRow, toks: seq<Token>) {
    |toks| == d.computed + 1 && toks[d.computed] == d.last
  }

  function DecodeWindows(ds: seq<DecodeRow>, hist: seq<seq<Token>>): (rows: seq<Row>)
    requires |hist| == |ds|
    ensures |rows| == |ds| && forall r | 0 <= r < |ds| :: rows[r] == Row(hist[r], 0, ds[r].computed)
  {
    seq(|ds|, r requires 0 <= r < |ds| => Row(hist[r], 0, ds[r].computed))
  }

  function DecodeTables(ds: seq<DecodeRow>): (ts: seq<seq<nat>>)
    ensures |ts| == |ds| && forall r | 0 <= r < |ds| :: ts[r] == ds[r].table
  {
    seq(|ds|, r requires 0 <= r < |ds| => ds[r].table)
  }

  lemma DecodeCells(ds: seq<DecodeRow>, width: nat, bs: nat, r: nat)
    requires DecodeRowsOk(ds, width, bs) && r < |ds|
    ensures var p := PagedPlan(DecodeBatch(ds, width, bs), bs);
      var n := ds[r].computed + 1;
      && n <= |p.readAt[r]|
      && (forall c | 0 <= c < n :: c / bs < |ds[r].table| && p.readAt[r][c] == TokenCell(ds[r].table, c, bs))
      && p.writeAt[r] == [TokenCell(ds[r].table, n - 1, bs)]
  {
    var d := ds[r];
    var b := DecodeBatch(ds, width, bs);
    var p := PagedPlan(b, bs);
    var n := d.computed + 1;
    assert DecodeRowOk(d, width, bs);
    assert b.seqLens[r] in b.seqLens;
    ColumnsCovered(n, bs, |d.table|);
    forall c | 0 <= c < n ensures p.readAt[r][c] == TokenCell(d.table, c, bs) {
      GatheredCell(d.table, width, Max(b.seqLens), bs, c);
    }
    SlotIsTokenCell(d.table, n - 1, bs);
  }

  /** The columns a decode row gathers from blocks that are not its own are hidden from it. */
  lemma ForeignHidden(ds: seq<DecodeRow>, width: nat, bs: nat, r: nat, c: nat)
    requires DecodeRowsOk(ds, width, bs) && r < |ds| && c < Max(LensAfter(ds)) && c / bs >= |ds[r].table|
    ensures !DecodeMask(LensAfter(ds), Max(LensAfter(ds)))[r][0][c]
  {
    assert DecodeRowOk(ds[r], width, bs);
    if c < ds[r].computed + 1 {
      ColumnsCovered(ds[r].computed + 1, bs, |ds[r].table|);
    }
  }

  lemma DecodeShape(ds: seq<DecodeRow>, width: nat, bs: nat)
    requires DecodeRowsOk(ds, width, bs)
    ensures Shape(PagedPlan(DecodeBatch(ds, width, bs), bs))
  {
    var p := PagedPlan(DecodeBatch(ds, width, bs), bs);
    forall r | 0 <= r < |p.ids| ensures RowShape(p, r) {
      assert DecodeRowOk(ds[r], width, bs);
    }
  }

  lemma DecodeDescribesRow(ds: seq<DecodeRow>, width: nat, bs: nat, r: nat, toks: seq<Token>)
    requires DecodeRowsOk(ds, width, bs) && r < |ds|
    requires Continues(ds[r], toks)
    ensures var p := PagedPlan(DecodeBatch(ds, width, bs), bs);
      Shape(p) && DescribesRow(p, r, Row(toks, 0, ds[r].computed))
  {
    hide BlocksNeeded, Padded, Slots, Gathered, Cells, Max;
    DecodeShape(ds, width, bs);
    DecodeCells(ds, width, bs, r);
    assert DecodeRowOk(ds[r], width, bs);
    var p := PagedPlan(DecodeBatch(ds, width, bs), bs);
    assert RowShape(p, r);
    assert |p.ids[r]| == 1;
  }

  lemma DecodeDescribes(ds: seq<DecodeRow>, width: nat, bs: nat, hist: seq<seq<Token>>)
    requires DecodeRowsOk(ds, width, bs)
    requires |hist| == |ds| && forall r | 0 <= r < |ds| :: Continues(ds[r], hist[r])
    requires OwnCells(DecodeTables(ds))
    ensures var p := PagedPlan(DecodeBatch(ds, width, bs), bs);
      Shape(p) && Describes(p, DecodeWindows(ds, hist))
  {
    var p := PagedPlan(DecodeBatch(ds, width, bs), bs);
    var rows := DecodeWindows(ds, hist);
    DecodeShape(ds, width, bs);
    forall r | 0 <= r < |rows|
      ensures DescribesRow(p, r, rows[r]) && rows[r].start + |p.ids[r]| == ds[r].computed + 1 <= |p.readAt[r]|
    {
      DecodeDescribesRow(ds, width, bs, r, hist[r]);
    }
    forall r, c, r', c' | 0 <= r < |rows| && 0 <= c < rows[r].start + |p.ids[r]| && c < |p.readAt[r]|
      && 0 <= r' < |rows| && 0 <= c' < rows[r'].start + |p.ids[r']| && c' < |p.readAt[r']|
      && p.readAt[r][c] == p.readAt[r'][c']
      ensures r == r' && c == c'
    {
      DecodeCells(ds, width, bs, r);
      DecodeCells(ds, width, bs, r');
      TokenCellsDistinct(DecodeTables(ds), r, c, r', c', bs);
    }
  }

  /** Whatever row of the pool a column is gathered from, it is a cell of the pool. */
  lemma GatheredInPool(table: seq<nat>, width: nat, n: nat, bs: nat, numBlocks: nat, c: nat)
    requires bs > 0 && numBlocks > 0 && BlocksNeeded(n, bs) <= |Padded(table, width)| && c < n
    requires forall i | 0 <= i < |table| :: table[i] < numBlocks
    ensures var cell := Gathered(Padded(table, width), n, bs)[c];
      0 <= cell.major < numBlocks && 0 <= cell.minor < bs
  {
    ColumnsCovered(n, bs, |Padded(table, width)|);
  }

  /** Every cell a decode step names lies in the pool. */
  lemma DecodeInPool(ds: seq<DecodeRow>, width: nat, bs: nat, numBlocks: nat, r: nat)
    requires DecodeRowsOk(ds, width, bs) && r < |ds| && numBlocks > 0
    requires forall i | 0 <= i < |ds[r].table| :: ds[r].table[i] < numBlocks
    ensures var p := PagedPlan(DecodeBatch(ds, width, bs), bs);
      && (forall c | 0 <= c < |p.readAt[r]| :: 0 <= p.readAt[r][c].major < numBlocks && 0 <= p.readAt[r][c].minor < bs)
      && (forall j | 0 <= j < |p.writeAt[r]| ::
            0 <= p.writeAt[r][j].major < numBlocks && 0 <= p.writeAt[r][j].minor < bs)
  {
    var b := DecodeBatch(ds, width, bs);
    var p := PagedPlan(b, bs);
    var n := Max(b.seqLens);
    forall c | 0 <= c < |p.readAt[r]| ensures 0 <= p.readAt[r][c].major < numBlocks && 0 <= p.readAt[r][c].minor < bs {
      GatheredInPool(ds[r].table, width, n, bs, numBlocks, c);
    }
    DecodeCells(ds, width, bs, r);
    assert DecodeRowOk(ds[r], width, bs);
  }

  /** The addresses of one row of a decode step, and its shape. */
  lemma DecodeAddresses(ds: seq<DecodeRow>, width: nat, bs: nat)
    requires DecodeRowsOk(ds, width, bs)
    ensures var p := PagedPlan(DecodeBatch(ds, width, bs), bs);
      && Shape(p) && |p.ids| == |p.readAt| == |p.writeAt| == |ds|
      && (forall r | 0 <= r < |ds| :: |p.ids[r]| == 1)
  {
    DecodeShape(ds, width, bs);
  }
}
