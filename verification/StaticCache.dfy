/** The contiguous cache: one (row, column) grid per layer, written at one shared offset. */
module StaticCache {
  import opened Wrappers
  import opened Transformer
  import opened Forward

  // ----- which cells a pass touches

  function RowCells(r: nat, from: nat, n: nat): (cells: seq<Loc>)
    ensures |cells| == n && forall j | 0 <= j < n :: cells[j] == Loc(r, from + j)
  {
    seq(n, j requires 0 <= j < n => Loc(r, from + j))
  }

  function Rows(b: nat, from: nat, n: nat): (cells: seq<seq<Loc>>)
    ensures |cells| == b && forall r | 0 <= r < b :: cells[r] == RowCells(r, from, n)
  {
    seq(b, r requires 0 <= r < b => RowCells(r, from, n))
  }

  /** A pass of t new tokens per row into a cache of current length start: it writes columns
      start..start+t-1 and reads columns 0..start+t-1. */
  function StaticPlan(ids: seq<seq<Token>>, pos: seq<seq<nat>>, mask: Option<Mask>, start: nat, t: nat): Plan {
    Plan(ids, pos, Rows(|ids|, start, t), Rows(|ids|, 0, start + t), mask)
  }

  predicate StaticShape(ids: seq<seq<Token>>, pos: seq<seq<nat>>, t: nat) {
    |ids| == |pos| && forall r | 0 <= r < |ids| :: |ids[r]| == |pos[r]| == t
  }

  lemma StaticSeparate(ids: seq<seq<Token>>, pos: seq<seq<nat>>, mask: Option<Mask>, start: nat, t: nat, rows: seq<Row>)
    requires Shape(StaticPlan(ids, pos, mask, start, t)) && |rows| == |ids|
    ensures Separate(StaticPlan(ids, pos, mask, start, t), rows)
  {
  }

  // ----- the cache object

  class StaticKVCache {
    const nLayer: nat
    const rows: nat
    const width: nat
    const k: array3<Vec>
    const v: array3<Vec>
    const seqLens: array<nat>

    ghost predicate Valid() {
      && k.Length0 == nLayer && k.Length1 == rows && k.Length2 == width
      && v.Length0 == nLayer && v.Length1 == rows && v.Length2 == width
      && seqLens.Length == rows && k != v
    }

    constructor (nLayer: nat, rows: nat, width: nat)
      ensures Valid() && fresh(k) && fresh(v) && fresh(seqLens)
      ensures this.nLayer == nLayer && this.rows == rows && this.width == width
      ensures forall r | 0 <= r < rows :: seqLens[r] == 0
    {
      this.nLayer, this.rows, this.width := nLayer, rows, width;
      k := new Vec[nLayer, rows, width]((l, r, c) => []);
      v := new Vec[nLayer, rows, width]((l, r, c) => []);
      seqLens := new nat[rows](r => 0);
    }

    /** One layer of the grid as cells. */
    ghost function LayerView(l: nat): (layer: Layer)
      requires Valid() && l < nLayer
      reads k, v
      ensures forall r, c :: Loc(r, c) in layer <==> 0 <= r < rows && 0 <= c < width
      ensures forall r, c | 0 <= r < rows && 0 <= c < width :: layer[Loc(r, c)] == KV(k[l, r, c], v[l, r, c])
    {
      map r, c | 0 <= r < rows && 0 <= c < width :: Loc(r, c) := KV(k[l, r, c], v[l, r, c])
    }

    ghost function View(): (store: Store)
      requires Valid()
      reads k, v
      ensures |store| == nLayer && forall l | 0 <= l < nLayer :: store[l] == LayerView(l)
    {
      seq(nLayer, l requires 0 <= l < nLayer reads k, v => LayerView(l))
    }

    /** All rows stand at the same length. */
    ghost predicate Level(len: nat)
      requires Valid()
      reads seqLens
    {
      forall r | 0 <= r < rows :: seqLens[r] == len
    }

    method Write(l: nat, kvs: seq<seq<KV>>, start: nat, t: nat)
      requires Valid() && l < nLayer && |kvs| == rows
      requires forall r | 0 <= r < rows :: |kvs[r]| == t
      requires Level(start) && start + t <= width
      modifies k, v
      ensures View() == old(View())[l := ScatterRows(old(View())[l], Rows(rows, start, t), kvs)]
    {
      hide ScatterRows, Rows, RowCells, Rect, View;
      ghost var before := View();
      Paste(k, l, kvs, Keys(), start, t);
      Paste(v, l, kvs, Values(), start, t);
      forall i | 0 <= i < nLayer && i != l ensures LayerView(i) == before[i] {
        GridSame(before[i], LayerView(i), rows, width);
      }
      GridScatter(before[l], LayerView(l), rows, width, kvs, start, t);
    }

    method Read(l: nat, r: nat, n: nat) returns (cols: seq<KV>)
      requires Valid() && l < nLayer && r < rows && n <= width
      ensures Within(RowCells(r, 0, n), View()[l]) && cols == Gather(View()[l], RowCells(r, 0, n))
    {
      cols := seq(n, c requires 0 <= c < n && Valid() && l < nLayer && r < rows && n <= width reads this, k, v =>
        KV(k[l, r, c], v[l, r, c]));
    }

    method Advance(t: nat)
      requires Valid()
      modifies seqLens
      ensures forall r | 0 <= r < rows :: seqLens[r] == old(seqLens[r]) + t
    {
      forall r | 0 <= r < rows {
        seqLens[r] := seqLens[r] + t;
      }
    }
  }

  function Keys(): KV -> Vec {
    (e: KV) => e.k
  }

  function Values(): KV -> Vec {
    (e: KV) => e.v
  }

  /** The keys, or the values, into the band of columns start..start+t-1 of layer l. */
  method Paste(a: array3<Vec>, l: nat, kvs: seq<seq<KV>>, part: KV -> Vec, start: nat, t: nat)
    requires l < a.Length0 && |kvs| == a.Length1 && start + t <= a.Length2
    requires forall r | 0 <= r < |kvs| :: |kvs[r]| == t
    modifies a
    ensures forall i, r, c | 0 <= i < a.Length0 && 0 <= r < a.Length1 && 0 <= c < a.Length2 ::
      a[i, r, c] == if i == l && start <= c < start + t then part(kvs[r][c - start]) else old(a[i, r, c])
  {
    forall r, c | 0 <= r < |kvs| && start <= c < start + t {
      a[l, r, c] := part(kvs[r][c - start]);
    }
  }

  ghost predicate OnGrid(a: Layer, rows: nat, width: nat) {
    forall r, c :: Loc(r, c) in a <==> 0 <= r < rows && 0 <= c < width
  }

  lemma GridSame(a: Layer, b: Layer, rows: nat, width: nat)
    requires OnGrid(a, rows, width) && OnGrid(b, rows, width)
    requires forall r, c | 0 <= r < rows && 0 <= c < width :: a[Loc(r, c)] == b[Loc(r, c)]
    ensures a == b
  {
    forall x | x in a ensures x in b && a[x] == b[x] {
      assert Loc(x.major, x.minor) in a;
    }
    forall x | x in b ensures x in a {
      assert Loc(x.major, x.minor) in b;
    }
  }

  /** A grid updated on a band of columns is the scatter of that band. */
  lemma GridScatter(a: Layer, b: Layer, rows: nat, width: nat, kvs: seq<seq<KV>>, start: nat, t: nat)
    requires |kvs| == rows && start + t <= width && forall r | 0 <= r < rows :: |kvs[r]| == t
    requires forall r, c :: Loc(r, c) in a <==> 0 <= r < rows && 0 <= c < width
    requires forall r, c :: Loc(r, c) in b <==> 0 <= r < rows && 0 <= c < width
    requires forall r, c | 0 <= r < rows && 0 <= c < width ::
      b[Loc(r, c)] == if start <= c < start + t then kvs[r][c - start] else a[Loc(r, c)]
    ensures b == ScatterRows(a, Rows(rows, start, t), kvs)
  {
    hide ScatterRows;
    var w := Rows(rows, start, t);
    var s := ScatterRows(a, w, kvs);
    assert forall r | 0 <= r < rows :: Within(w[r], a);
    assert s.Keys == a.Keys;
    forall x | x in a ensures x in b && b[x] == s[x] {
      var Loc(r, c) := x;
      assert Loc(r, c) in a;
      if start <= c < start + t {
        assert w[r][c - start] == x;
        ScatterRowsAt(a, w, kvs, r, c - start);
      } else {
        assert !Writes(w, x);
        ScatterRowsElsewhere(a, w, kvs, x);
      }
    }
    assert forall x | x in b :: x == Loc(x.major, x.minor);
  }

  // ----- the forward pass over it

  /** The layer loop of the model: at each layer write, read back, attend. */
  method ForwardStatic(m: Model, ids: seq<seq<Token>>, pos: seq<seq<nat>>, mask: Option<Mask>, cache: StaticKVCache,
      start: nat, t: nat)
    returns (xs: seq<seq<Vec>>)
    requires cache.Valid() && cache.nLayer == m.nLayer && cache.rows == |ids| && cache.Level(start)
    requires StaticShape(ids, pos, t) && start + t <= cache.width
    requires Shape(StaticPlan(ids, pos, mask, start, t))
    requires forall r, j | 0 <= r < |ids| && 0 <= j < t :: pos[r][j] < m.blockSize
    modifies cache.k, cache.v
    ensures Fits(m, old(cache.View()), StaticPlan(ids, pos, mask, start, t))
    ensures (cache.View(), xs) == Run(m, old(cache.View()), StaticPlan(ids, pos, mask, start, t), m.nLayer)
  {
    hide Shape, Fits, LayerFits, EntryRows, MixRows, WriteLayer, StaticPlan, EmbedRows;
    var p := StaticPlan(ids, pos, mask, start, t);
    ghost var data := cache.View();
    StaticFits(m, cache, ids, pos, mask, start, t);
    xs := EmbedRows(m, p);
    RunZero(m, data, p);
    var l := 0;
    while l < m.nLayer
      invariant l <= m.nLayer
      invariant (cache.View(), xs) == Run(m, data, p, l)
    {
      xs := LayerStatic(m, ids, pos, mask, cache, start, t, l, xs, data);
      l := l + 1;
    }
  }

  lemma RunZero(m: Model, data: Store, p: Plan)
    requires Fits(m, data, p)
    ensures Run(m, data, p, 0) == (data, EmbedRows(m, p))
  {
  }

  /** One layer: write the new entries, read every column back, attend. */
  method LayerStatic(m: Model, ids: seq<seq<Token>>, pos: seq<seq<nat>>, mask: Option<Mask>, cache: StaticKVCache,
      start: nat, t: nat, l: nat, xs: seq<seq<Vec>>, ghost data: Store)
    returns (ys: seq<seq<Vec>>)
    requires cache.Valid() && cache.nLayer == m.nLayer && cache.rows == |ids| && cache.Level(start)
    requires StaticShape(ids, pos, t) && start + t <= cache.width && l < m.nLayer
    requires Shape(StaticPlan(ids, pos, mask, start, t)) && Fits(m, data, StaticPlan(ids, pos, mask, start, t))
    requires (cache.View(), xs) == Run(m, data, StaticPlan(ids, pos, mask, start, t), l)
    modifies cache.k, cache.v
    ensures (cache.View(), ys) == Run(m, data, StaticPlan(ids, pos, mask, start, t), l + 1)
  {
    hide Shape, RowShape, MixRow, ScatterRows, LayerFits, Within, EntryRows, Visible;
    var p := StaticPlan(ids, pos, mask, start, t);
    ghost var d := cache.View();
    ghost var layer := WriteLayer(m, l, d[l], xs, p);
    cache.Write(l, EntryRows(m, l, xs), start, t);
    assert cache.View() == d[l := layer];
    ys := AttendStatic(m, ids, pos, mask, cache, start, t, l, xs);
  }

  /** Every row's queries against its columns, read back from the cache. */
  method AttendStatic(m: Model, ids: seq<seq<Token>>, pos: seq<seq<nat>>, mask: Option<Mask>, cache: StaticKVCache,
      start: nat, t: nat, l: nat, xs: seq<seq<Vec>>)
    returns (ys: seq<seq<Vec>>)
    requires cache.Valid() && cache.nLayer == m.nLayer && cache.rows == |ids| && start + t <= cache.width
    requires l < m.nLayer
    requires Shape(StaticPlan(ids, pos, mask, start, t)) && Matches(StaticPlan(ids, pos, mask, start, t), xs)
    requires LayerFits(cache.View()[l], StaticPlan(ids, pos, mask, start, t))
    ensures ys == MixRows(m, l, cache.View()[l], xs, StaticPlan(ids, pos, mask, start, t))
  {
    hide Shape, RowShape, MixRow, LayerFits, Within, Visible;
    var p := StaticPlan(ids, pos, mask, start, t);
    ys := [];
    for r := 0 to |ids|
      invariant |ys| == r
      invariant forall i | 0 <= i < r :: ys[i] == MixRow(m, l, cache.View()[l], xs[i], p, i)
    {
      var cols := cache.Read(l, r, start + t);
      MixColsRow(m, l, cache.View()[l], xs[r], cols, p, r);
      ys := ys + [MixCols(m, l, xs[r], cols, p, r)];
    }
  }

  lemma StaticFits(m: Model, cache: StaticKVCache, ids: seq<seq<Token>>, pos: seq<seq<nat>>, mask: Option<Mask>,
      start: nat, t: nat)
    requires cache.Valid() && cache.nLayer == m.nLayer && cache.rows == |ids| && start + t <= cache.width
    requires Shape(StaticPlan(ids, pos, mask, start, t))
    ensures Fits(m, cache.View(), StaticPlan(ids, pos, mask, start, t))
  {
    hide Shape;
    var p := StaticPlan(ids, pos, mask, start, t);
    forall l | 0 <= l < |cache.View()| ensures LayerFits(cache.View()[l], p) {
      assert cache.View()[l] == cache.LayerView(l);
    }
  }

  // ----- what a faithful pass leaves in the cache

  /** Row r holds, from column off on, the reference entries of the first n tokens of toks. */
  ghost predicate RowHolds(m: Model, store: Store, r: nat, off: nat, toks: seq<Token>, n: nat) {
    && |store| == m.nLayer && n <= |toks|
    && forall l, i | 0 <= l < m.nLayer && 0 <= i < n :: EntryAt(m, store[l], r, off, toks, l, i)
  }

  ghost predicate EntryAt(m: Model, layer: Layer, r: nat, off: nat, toks: seq<Token>, l: nat, i: nat) {
    i < |toks| && Loc(r, off + i) in layer && layer[Loc(r, off + i)] == RefKV(m, toks, l)[i]
  }

  /** A longer sequence keeps what the cache holds of its prefix. */
  lemma RowHoldsAgree(m: Model, store: Store, r: nat, off: nat, s: seq<Token>, t: seq<Token>, n: nat)
    requires RowHolds(m, store, r, off, s, n) && n <= |t| && s[..n] == t[..n]
    ensures RowHolds(m, store, r, off, t, n)
  {
    forall l, i | 0 <= l < m.nLayer && 0 <= i < n ensures EntryAt(m, store[l], r, off, t, l, i) {
      assert EntryAt(m, store[l], r, off, s, l, i);
      RefKVAgree(m, s, t, n, l);
      assert RefKV(m, t, l)[..n][i] == RefKV(m, s, l)[..n][i];
    }
  }

  lemma RowHoldsFewer(m: Model, store: Store, r: nat, off: nat, toks: seq<Token>, n: nat, k: nat)
    requires RowHolds(m, store, r, off, toks, n) && k <= n
    ensures RowHolds(m, store, r, off, toks, k)
  {
    forall l, i | 0 <= l < m.nLayer && 0 <= i < k ensures EntryAt(m, store[l], r, off, toks, l, i) {
      assert EntryAt(m, store[l], r, off, toks, l, i);
    }
  }

  /** Row r of a pass continues the sequence toks, whose first token is at column off. */
  ghost predicate Feeds(ids: seq<seq<Token>>, pos: seq<seq<nat>>, mask: Option<Mask>, start: nat, t: nat, r: nat,
      off: nat, toks: seq<Token>)
    requires Shape(StaticPlan(ids, pos, mask, start, t)) && StaticShape(ids, pos, t) && r < |ids|
  {
    && off <= start + t && |toks| == start + t - off
    && (forall j | 0 <= j < t && off <= start + j ::
          ids[r][j] == toks[start + j - off] && pos[r][j] == start + j - off)
    && (forall j, c | 0 <= j < t && off <= start + j && 0 <= c < start + t ::
          Visible(StaticPlan(ids, pos, mask, start, t), r, j)[c] <==> off <= c <= start + j)
  }

  ghost predicate AllFeed(ids: seq<seq<Token>>, pos: seq<seq<nat>>, mask: Option<Mask>, start: nat, t: nat,
      offs: seq<nat>, hist: seq<seq<Token>>)
  {
    && Shape(StaticPlan(ids, pos, mask, start, t)) && StaticShape(ids, pos, t)
    && |offs| == |hist| == |ids|
    && forall r | 0 <= r < |ids| :: Feeds(ids, pos, mask, start, t, r, offs[r], hist[r])
  }

  /** Before the pass: the columns between the padding and the current length are right. */
  ghost predicate AllHold(m: Model, store: Store, offs: seq<nat>, hist: seq<seq<Token>>, len: nat)
    requires |offs| == |hist|
  {
    forall r | 0 <= r < |offs| :: offs[r] < len ==> RowHolds(m, store, r, offs[r], hist[r], len - offs[r])
  }

  function WindowRows(offs: seq<nat>, hist: seq<seq<Token>>, start: nat): (rows: seq<Row>)
    requires |offs| == |hist|
    ensures |rows| == |offs| && forall r | 0 <= r < |rows| :: rows[r] == Row(hist[r], offs[r], start)
  {
    seq(|offs|, r requires 0 <= r < |offs| => Row(hist[r], offs[r], start))
  }

  lemma FeedsDescribe(ids: seq<seq<Token>>, pos: seq<seq<nat>>, mask: Option<Mask>, start: nat, t: nat,
      offs: seq<nat>, hist: seq<seq<Token>>)
    requires AllFeed(ids, pos, mask, start, t, offs, hist)
    ensures Describes(StaticPlan(ids, pos, mask, start, t), WindowRows(offs, hist, start))
  {
    hide Separate, Visible, RowShape;
    var p, rows := StaticPlan(ids, pos, mask, start, t), WindowRows(offs, hist, start);
    StaticSeparate(ids, pos, mask, start, t, rows);
    forall r | 0 <= r < |rows| ensures DescribesRow(p, r, rows[r]) {
      assert Feeds(ids, pos, mask, start, t, r, offs[r], hist[r]);
      FeedsRow(ids, pos, mask, start, t, r, offs[r], hist[r]);
    }
  }

  lemma FeedsRow(ids: seq<seq<Token>>, pos: seq<seq<nat>>, mask: Option<Mask>, start: nat, t: nat, r: nat, off: nat,
      toks: seq<Token>)
    requires Shape(StaticPlan(ids, pos, mask, start, t)) && StaticShape(ids, pos, t) && r < |ids|
    requires Feeds(ids, pos, mask, start, t, r, off, toks)
    ensures DescribesRow(StaticPlan(ids, pos, mask, start, t), r, Row(toks, off, start))
  {
    hide Visible;
    assert RowShape(StaticPlan(ids, pos, mask, start, t), r);
  }

  lemma HoldsCells(m: Model, layer: Layer, l: nat, r: nat, cells: seq<Loc>, row: Row, n: nat, store: Store)
    requires n <= |cells| && cells == RowCells(r, 0, |cells|)
    requires row.off <= n && l < |store| && store[l] == layer
    requires RowHolds(m, store, r, row.off, row.toks, n - row.off)
    ensures Holds(m, layer, l, cells, row, n)
  {
    forall c | row.off <= c < n ensures cells[c] in layer && layer[cells[c]] == RefKV(m, row.toks, l)[c - row.off] {
      assert cells[c] == Loc(r, row.off + (c - row.off));
      assert EntryAt(m, store[l], r, row.off, row.toks, l, c - row.off);
    }
  }

  lemma StaticPrimed(m: Model, data: Store, ids: seq<seq<Token>>, pos: seq<seq<nat>>, mask: Option<Mask>, start: nat,
      t: nat, offs: seq<nat>, hist: seq<seq<Token>>)
    requires |offs| == |hist| == |ids| && AllHold(m, data, offs, hist, start)
    ensures Primed(m, data, StaticPlan(ids, pos, mask, start, t), WindowRows(offs, hist, start))
  {
    hide RowHolds, Holds;
    var p, rows := StaticPlan(ids, pos, mask, start, t), WindowRows(offs, hist, start);
    forall k, r | 0 <= k < |data| && 0 <= r < |rows|
      ensures rows[r].start <= rows[r].off || Holds(m, data[k], k, p.readAt[r], rows[r], rows[r].start)
    {
      if offs[r] < start {
        HoldsCells(m, data[k], k, r, p.readAt[r], rows[r], start, data);
      }
    }
  }

  /** A faithful pass over the contiguous cache: afterwards every row holds the entries of its
      whole sequence, and every real query has the reference's hidden state. */
  lemma StaticPassFaithful(m: Model, data: Store, ids: seq<seq<Token>>, pos: seq<seq<nat>>, mask: Option<Mask>,
      start: nat, t: nat, offs: seq<nat>, hist: seq<seq<Token>>)
    requires AllFeed(ids, pos, mask, start, t, offs, hist) && AllHold(m, data, offs, hist, start)
    requires Fits(m, data, StaticPlan(ids, pos, mask, start, t))
    ensures var out := Run(m, data, StaticPlan(ids, pos, mask, start, t), m.nLayer);
      forall r | 0 <= r < |ids| ::
        && RowHolds(m, out.0, r, offs[r], hist[r], start + t - offs[r])
        && RowStates(m, out.1, r, offs[r], hist[r], start, t)
  {
    hide Run, Fits, AllHold, RowHolds, Feeds, Describes, Primed, RightStates, RightColumns, Untouched, RowStates, Shape;
    var p, rows := StaticPlan(ids, pos, mask, start, t), WindowRows(offs, hist, start);
    FeedsDescribe(ids, pos, mask, start, t, offs, hist);
    StaticPrimed(m, data, ids, pos, mask, start, t, offs, hist);
    FitsShape(m, data, p);
    RunFaithful(m, data, p, rows, m.nLayer);
    FitsShape(m, Run(m, data, p, m.nLayer).0, p);
    OffsInside(ids, pos, mask, start, t, offs, hist);
    forall r | 0 <= r < |ids|
      ensures RowHolds(m, Run(m, data, p, m.nLayer).0, r, offs[r], hist[r], start + t - offs[r])
      ensures RowStates(m, Run(m, data, p, m.nLayer).1, r, offs[r], hist[r], start, t)
    {
      StaticRowResult(m, p, rows, Run(m, data, p, m.nLayer), ids, pos, mask, start, t, r);
    }
  }

  lemma OffsInside(ids: seq<seq<Token>>, pos: seq<seq<nat>>, mask: Option<Mask>, start: nat, t: nat, offs: seq<nat>,
      hist: seq<seq<Token>>)
    requires AllFeed(ids, pos, mask, start, t, offs, hist)
    ensures forall r | 0 <= r < |ids| :: offs[r] <= start + t && |hist[r]| == start + t - offs[r]
  {
    forall r | 0 <= r < |ids| ensures offs[r] <= start + t && |hist[r]| == start + t - offs[r] {
      assert Feeds(ids, pos, mask, start, t, r, offs[r], hist[r]);
    }
  }

  lemma FitsShape(m: Model, data: Store, p: Plan)
    requires Fits(m, data, p)
    ensures Shape(p) && |data| == m.nLayer
  {
  }

  /** The hidden states of row r after the last layer. */
  ghost predicate RowStates(m: Model, xs: seq<seq<Vec>>, r: nat, off: nat, toks: seq<Token>, start: nat, t: nat) {
    && r < |xs| && |xs[r]| == t && off <= start + t && |toks| == start + t - off
    && forall j | 0 <= j < t && off <= start + j :: xs[r][j] == Hidden(m, toks, m.nLayer)[start + j - off]
  }

  lemma StaticRowResult(m: Model, p: Plan, rows: seq<Row>, out: (Store, seq<seq<Vec>>), ids: seq<seq<Token>>,
      pos: seq<seq<nat>>, mask: Option<Mask>, start: nat, t: nat, r: nat)
    requires p == StaticPlan(ids, pos, mask, start, t) && Shape(p) && StaticShape(ids, pos, t) && r < |ids|
    requires Matches(p, out.1) && |out.0| == m.nLayer && |rows| == |ids| && rows[r].start == start
    requires Describes(p, rows) && RightStates(m, m.nLayer, out.1, p, rows) && RightColumns(m, out.0, m.nLayer, p, rows)
    ensures RowHolds(m, out.0, r, rows[r].off, rows[r].toks, start + t - rows[r].off)
    ensures RowStates(m, out.1, r, rows[r].off, rows[r].toks, start, t)
  {
    hide Hidden, RefKV, RowShape, Separate;
    assert DescribesRow(p, r, rows[r]) && RightState(m, m.nLayer, out.1[r], rows[r]);
    forall l, i | 0 <= l < m.nLayer && 0 <= i < start + t - rows[r].off
      ensures EntryAt(m, out.0[l], r, rows[r].off, rows[r].toks, l, i)
    {
      assert Holds(m, out.0[l], l, p.readAt[r], rows[r], start + |p.ids[r]|);
      assert p.readAt[r][rows[r].off + i] == Loc(r, rows[r].off + i);
    }
  }
}
