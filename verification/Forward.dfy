/** One forward pass of the cached model: at every layer write the new entries to
    the cache, read the cached columns back, and attend under a mask.

    Both caches are stores of cells addressed by two coordinates: (row, column) in the
    contiguous cache, (block, offset) in the paged pool.  A `Plan` is what a batch and
    its cache amount to: which cells the new tokens are written to, which cells the
    columns of each row are read from, and which columns each query may see. */
module Forward {
  import opened Wrappers
  import opened Transformer

  datatype Loc = Loc(major: int, minor: int)

  type Layer = map<Loc, KV>

  /** One layer map per transformer layer. */
  type Store = seq<Layer>

  type Mask = seq<seq<seq<bool>>>

  datatype Plan = Plan(
    ids: seq<seq<Token>>,
    pos: seq<seq<nat>>,
    writeAt: seq<seq<Loc>>,
    readAt: seq<seq<Loc>>,
    mask: Option<Mask>)

  // ----- what a pass demands of its batch and its cache

  predicate RowShape(p: Plan, r: nat)
    requires r < |p.ids| == |p.pos| == |p.writeAt| == |p.readAt|
  {
    && |p.ids[r]| == |p.pos[r]| == |p.writeAt[r]|
    && match p.mask {
         case Some(mk) =>
           && r < |mk| && |mk[r]| == |p.ids[r]|
           && forall j | 0 <= j < |mk[r]| :: |mk[r][j]| == |p.readAt[r]|
         case None => |p.readAt[r]| == |p.ids[r]| || |p.ids[r]| == 1
       }
  }

  predicate Shape(p: Plan) {
    && |p.ids| == |p.pos| == |p.writeAt| == |p.readAt|
    && (forall r | 0 <= r < |p.ids| :: RowShape(p, r))
    && Rect(p.writeAt, p.ids)
  }

  predicate Rect<A, B>(a: seq<seq<A>>, b: seq<seq<B>>) {
    |a| == |b| && forall r | 0 <= r < |a| :: |a[r]| == |b[r]|
  }

  predicate Within(locs: seq<Loc>, layer: Layer) {
    forall i | 0 <= i < |locs| :: locs[i] in layer
  }

  predicate LayerFits(layer: Layer, p: Plan)
    requires Shape(p)
  {
    forall r | 0 <= r < |p.ids| :: Within(p.writeAt[r], layer) && Within(p.readAt[r], layer)
  }

  /** Every cell the pass names exists in every layer. */
  predicate Fits(m: Model, data: Store, p: Plan) {
    && Shape(p)
    && |data| == m.nLayer
    && forall l | 0 <= l < |data| :: LayerFits(data[l], p)
  }

  // ----- writing

  function Scatter(layer: Layer, locs: seq<Loc>, kvs: seq<KV>): (r: Layer)
    requires |locs| == |kvs|
    ensures layer.Keys <= r.Keys
    ensures forall c | c in layer && c !in locs :: r[c] == layer[c]
    ensures Within(locs, layer) ==> r.Keys == layer.Keys
  {
    if |locs| == 0 then layer
    else
      var n := |locs| - 1;
      Scatter(layer, locs[..n], kvs[..n])[locs[n] := kvs[n]]
  }

  lemma {:induction false} ScatterAt(layer: Layer, locs: seq<Loc>, kvs: seq<KV>, j: nat)
    requires |locs| == |kvs| && j < |locs|
    requires forall i, k | 0 <= i < k < |locs| :: locs[i] != locs[k]
    ensures locs[j] in Scatter(layer, locs, kvs) && Scatter(layer, locs, kvs)[locs[j]] == kvs[j]
  {
    var n := |locs| - 1;
    if j < n {
      ScatterAt(layer, locs[..n], kvs[..n], j);
    }
  }

  function ScatterRows(layer: Layer, writes: seq<seq<Loc>>, kvs: seq<seq<KV>>): (r: Layer)
    requires Rect(writes, kvs)
    ensures layer.Keys <= r.Keys
    ensures (forall i | 0 <= i < |writes| :: Within(writes[i], layer)) ==> r.Keys == layer.Keys
  {
    if |writes| == 0 then layer
    else
      var n := |writes| - 1;
      var rest := ScatterRows(layer, writes[..n], kvs[..n]);
      Scatter(rest, writes[n], kvs[n])
  }

  ghost predicate Writes(writes: seq<seq<Loc>>, c: Loc) {
    exists r | 0 <= r < |writes| :: c in writes[r]
  }

  lemma {:induction false} ScatterRowsElsewhere(layer: Layer, writes: seq<seq<Loc>>, kvs: seq<seq<KV>>, c: Loc)
    requires Rect(writes, kvs)
    requires c in layer && !Writes(writes, c)
    ensures ScatterRows(layer, writes, kvs)[c] == layer[c]
  {
    hide Writes, Scatter;
    if |writes| > 0 {
      var n := |writes| - 1;
      WritesFront(writes, n, c);
      ScatterRowsElsewhere(layer, writes[..n], kvs[..n], c);
    }
  }

  lemma WritesFront(writes: seq<seq<Loc>>, n: nat, c: Loc)
    requires n < |writes| && !Writes(writes, c)
    ensures c !in writes[n] && !Writes(writes[..n], c)
  {
    forall r | 0 <= r < n ensures c !in writes[..n][r] {
      assert writes[..n][r] == writes[r];
    }
  }

  ghost predicate DistinctWrites(writes: seq<seq<Loc>>) {
    forall r, j, r', j' | 0 <= r < |writes| && 0 <= j < |writes[r]| && 0 <= r' < |writes| && 0 <= j' < |writes[r']|
      && writes[r][j] == writes[r'][j'] :: r == r' && j == j'
  }

  lemma {:induction false} ScatterRowsAt(layer: Layer, writes: seq<seq<Loc>>, kvs: seq<seq<KV>>, r: nat, j: nat)
    requires Rect(writes, kvs)
    requires DistinctWrites(writes)
    requires r < |writes| && j < |writes[r]|
    ensures writes[r][j] in ScatterRows(layer, writes, kvs)
    ensures ScatterRows(layer, writes, kvs)[writes[r][j]] == kvs[r][j]
  {
    var n := |writes| - 1;
    var rest := ScatterRows(layer, writes[..n], kvs[..n]);
    if r == n {
      ScatterAt(rest, writes[n], kvs[n], j);
    } else {
      assert writes[..n][r] == writes[r] && kvs[..n][r] == kvs[r];
      ScatterRowsAt(layer, writes[..n], kvs[..n], r, j);
      assert writes[r][j] !in writes[n];
    }
  }

  // ----- reading and mixing

  function Gather(layer: Layer, locs: seq<Loc>): (cols: seq<KV>)
    requires Within(locs, layer)
    ensures |cols| == |locs|
  {
    seq(|locs|, c requires 0 <= c < |locs| => layer[locs[c]])
  }

  /** The columns a mask row leaves visible, in order. */
  function Select(cols: seq<KV>, vis: seq<bool>): seq<KV>
    requires |cols| == |vis|
  {
    if |cols| == 0 then []
    else
      var n := |cols| - 1;
      Select(cols[..n], vis[..n]) + (if vis[n] then [cols[n]] else [])
  }

  /** A mask row that shows exactly columns lo..hi-1 selects exactly those. */
  lemma {:induction false} SelectWindow(cols: seq<KV>, vis: seq<bool>, lo: nat, hi: nat)
    requires |cols| == |vis| && lo <= hi <= |cols|
    requires forall c | 0 <= c < |vis| :: vis[c] <==> lo <= c < hi
    ensures Select(cols, vis) == cols[lo..hi]
  {
    if |cols| > 0 {
      var n := |cols| - 1;
      if hi <= n {
        SelectWindow(cols[..n], vis[..n], lo, hi);
        assert cols[..n][lo..hi] == cols[lo..hi];
      } else if lo <= n {
        SelectWindow(cols[..n], vis[..n], lo, n);
        assert cols[..n][lo..n] + [cols[n]] == cols[lo..hi];
      } else {
        SelectWindow(cols[..n], vis[..n], n, n);
      }
    }
  }

  /** One query against the columns of its row. */
  function Mix(m: Model, l: nat, x: Vec, cols: seq<KV>, vis: seq<bool>): Vec
    requires |cols| == |vis|
  {
    var seen := Select(cols, vis);
    if seen == [] then m.blind(l, x, cols) else m.attend(l, x, seen)
  }

  /** The mask row of query j: the explicit mask when there is one, else causal when
      there are as many queries as columns, else everything (a single query). */
  function Visible(p: Plan, r: nat, j: nat): (vis: seq<bool>)
    requires Shape(p) && r < |p.ids| && j < |p.ids[r]|
    ensures |vis| == |p.readAt[r]|
  {
    assert RowShape(p, r);
    match p.mask
    case Some(mk) => mk[r][j]
    case None =>
      if |p.readAt[r]| == |p.ids[r]|
      then seq(|p.readAt[r]|, c => c <= j)
      else seq(|p.readAt[r]|, c => true)
  }

  predicate Matches(p: Plan, xs: seq<seq<Vec>>) {
    Rect(xs, p.ids)
  }

  function EmbedRows(m: Model, p: Plan): (xs: seq<seq<Vec>>)
    requires Shape(p)
    ensures Matches(p, xs)
  {
    seq(|p.ids|, r requires 0 <= r < |p.ids| =>
      assert RowShape(p, r);
      seq(|p.ids[r]|, j requires 0 <= j < |p.ids[r]| => m.embed(p.ids[r][j], p.pos[r][j])))
  }

  function EntryRows(m: Model, l: nat, xs: seq<seq<Vec>>): (kvs: seq<seq<KV>>)
    ensures Rect(kvs, xs)
  {
    seq(|xs|, r requires 0 <= r < |xs| => Entries(m, l, xs[r]))
  }

  function MixRow(m: Model, l: nat, layer: Layer, xs: seq<Vec>, p: Plan, r: nat): (ys: seq<Vec>)
    requires Shape(p) && LayerFits(layer, p) && r < |p.ids| && |xs| == |p.ids[r]|
    ensures |ys| == |xs|
  {
    var cols := Gather(layer, p.readAt[r]);
    seq(|xs|, j requires 0 <= j < |xs| => Mix(m, l, xs[j], cols, Visible(p, r, j)))
  }

  /** The queries of one row against columns already read. */
  function MixCols(m: Model, l: nat, xs: seq<Vec>, cols: seq<KV>, p: Plan, r: nat): (ys: seq<Vec>)
    requires Shape(p) && r < |p.ids| && |xs| == |p.ids[r]| && |cols| == |p.readAt[r]|
    ensures |ys| == |xs|
  {
    seq(|xs|, j requires 0 <= j < |xs| => Mix(m, l, xs[j], cols, Visible(p, r, j)))
  }

  lemma MixColsRow(m: Model, l: nat, layer: Layer, xs: seq<Vec>, cols: seq<KV>, p: Plan, r: nat)
    requires Shape(p) && LayerFits(layer, p) && r < |p.ids| && |xs| == |p.ids[r]|
    requires cols == Gather(layer, p.readAt[r])
    ensures MixCols(m, l, xs, cols, p, r) == MixRow(m, l, layer, xs, p, r)
  {
    hide Mix, Visible;
  }

  function MixRows(m: Model, l: nat, layer: Layer, xs: seq<seq<Vec>>, p: Plan): (ys: seq<seq<Vec>>)
    requires Shape(p) && LayerFits(layer, p) && Matches(p, xs)
    ensures Matches(p, ys)
  {
    seq(|xs|, r requires 0 <= r < |xs| => MixRow(m, l, layer, xs[r], p, r))
  }

  function WriteLayer(m: Model, l: nat, layer: Layer, xs: seq<seq<Vec>>, p: Plan): (r: Layer)
    requires Shape(p) && LayerFits(layer, p) && Matches(p, xs)
    ensures r.Keys == layer.Keys && LayerFits(r, p)
  {
    ScatterRows(layer, p.writeAt, EntryRows(m, l, xs))
  }

  /** The pass after its first l layers: the store and the hidden states of the queries. */
  function Run(m: Model, data: Store, p: Plan, l: nat): (out: (Store, seq<seq<Vec>>))
    requires Fits(m, data, p) && l <= m.nLayer
    ensures Fits(m, out.0, p) && Matches(p, out.1)
    ensures forall k | 0 <= k < |data| :: out.0[k].Keys == data[k].Keys
    ensures forall k | l <= k < |data| :: out.0[k] == data[k]
  {
    if l == 0 then (data, EmbedRows(m, p))
    else
      var (d, xs) := Run(m, data, p, l - 1);
      var layer := WriteLayer(m, l - 1, d[l - 1], xs, p);
      (d[l - 1 := layer], MixRows(m, l - 1, layer, xs, p))
  }

  /** Logits of query j of row r. */
  function Logits(m: Model, out: (Store, seq<seq<Vec>>), r: nat, j: nat): seq<real>
    requires r < |out.1| && j < |out.1[r]|
  {
    m.head(out.1[r][j])
  }

  // ----- when a pass computes what the reference computes

  /** A row of the pass, read as part of a token sequence: its column `off` is position 0
      of `toks`, columns before it are padding, and its first query sits at column `start`. */
  datatype Row = Row(toks: seq<Token>, off: nat, start: nat)

  ghost predicate DescribesRow(p: Plan, r: nat, row: Row)
    requires Shape(p) && r < |p.ids|
  {
    var t := |p.ids[r]|;
    assert RowShape(p, r);
    && row.off <= row.start + t
    && |row.toks| == row.start + t - row.off
    && row.start + t <= |p.readAt[r]|
    && (forall j | 0 <= j < t :: p.writeAt[r][j] == p.readAt[r][row.start + j])
    && (forall j | 0 <= j < t && row.off <= row.start + j ::
          && p.ids[r][j] == row.toks[row.start + j - row.off]
          && p.pos[r][j] == row.start + j - row.off)
    && (forall j, c | 0 <= j < t && row.off <= row.start + j && 0 <= c < |p.readAt[r]| ::
          Visible(p, r, j)[c] <==> row.off <= c <= row.start + j)
  }

  /** No two columns in use share a cell. */
  ghost predicate Separate(p: Plan, rows: seq<Row>)
    requires Shape(p) && |rows| == |p.ids|
  {
    forall r, c, r', c' | 0 <= r < |rows| && 0 <= c < rows[r].start + |p.ids[r]| && c < |p.readAt[r]|
      && 0 <= r' < |rows| && 0 <= c' < rows[r'].start + |p.ids[r']| && c' < |p.readAt[r']|
      && p.readAt[r][c] == p.readAt[r'][c'] :: r == r' && c == c'
  }

  ghost predicate Describes(p: Plan, rows: seq<Row>)
    requires Shape(p)
  {
    && |rows| == |p.ids|
    && (forall r | 0 <= r < |rows| :: DescribesRow(p, r, rows[r]))
    && Separate(p, rows)
  }

  /** Columns off..n-1 of a row hold the reference entries of its sequence at layer l. */
  ghost predicate Holds(m: Model, layer: Layer, l: nat, cells: seq<Loc>, row: Row, n: nat) {
    && n <= |cells| && n <= row.off + |row.toks|
    && forall c | row.off <= c < n :: cells[c] in layer && layer[cells[c]] == RefKV(m, row.toks, l)[c - row.off]
  }

  ghost predicate RightState(m: Model, l: nat, xs: seq<Vec>, row: Row)
    requires row.off <= row.start + |xs| && |row.toks| == row.start + |xs| - row.off
  {
    forall j | 0 <= j < |xs| && row.off <= row.start + j ::
      xs[j] == Hidden(m, row.toks, l)[row.start + j - row.off]
  }

  lemma WritesDistinct(p: Plan, rows: seq<Row>)
    requires Shape(p) && Describes(p, rows)
    ensures DistinctWrites(p.writeAt)
  {
    forall r, j, r', j' | 0 <= r < |p.writeAt| && 0 <= j < |p.writeAt[r]|
      && 0 <= r' < |p.writeAt| && 0 <= j' < |p.writeAt[r']|
      && p.writeAt[r][j] == p.writeAt[r'][j']
      ensures r == r' && j == j'
    {
      assert RowShape(p, r) && RowShape(p, r');
      assert DescribesRow(p, r, rows[r]) && DescribesRow(p, r', rows[r']);
      assert p.readAt[r][rows[r].start + j] == p.readAt[r'][rows[r'].start + j'];
    }
  }

  /** A column that held its entry before the pass is not overwritten by it. */
  lemma OldColumnKept(p: Plan, rows: seq<Row>, r: nat, c: nat)
    requires Shape(p) && Describes(p, rows) && r < |rows| && c < rows[r].start
    ensures c < |p.readAt[r]| && !Writes(p.writeAt, p.readAt[r][c])
  {
    assert DescribesRow(p, r, rows[r]);
    forall r' | 0 <= r' < |p.writeAt| ensures p.readAt[r][c] !in p.writeAt[r'] {
      assert DescribesRow(p, r', rows[r']) && RowShape(p, r');
      forall j | 0 <= j < |p.writeAt[r']| ensures p.writeAt[r'][j] != p.readAt[r][c] {
        assert p.writeAt[r'][j] == p.readAt[r'][rows[r'].start + j];
      }
    }
  }

  /** Writing one layer leaves every used column of a row holding its reference entry. */
  lemma WriteHolds(m: Model, l: nat, layer: Layer, xs: seq<seq<Vec>>, p: Plan, rows: seq<Row>, r: nat)
    requires Shape(p) && LayerFits(layer, p) && Matches(p, xs) && Describes(p, rows) && r < |rows|
    requires DescribesRow(p, r, rows[r]) && RightState(m, l, xs[r], rows[r])
    requires Holds(m, layer, l, p.readAt[r], rows[r], rows[r].start) || rows[r].start <= rows[r].off
    ensures Holds(m, WriteLayer(m, l, layer, xs, p), l, p.readAt[r], rows[r], rows[r].start + |p.ids[r]|)
  {
    hide Hidden, Select, ScatterRows, Visible, Separate;
    var row := rows[r];
    var layer' := WriteLayer(m, l, layer, xs, p);
    var kvs := EntryRows(m, l, xs);
    assert RowShape(p, r);
    assert Within(p.readAt[r], layer);
    WritesDistinct(p, rows);
    forall c | row.off <= c < row.start + |p.ids[r]|
      ensures p.readAt[r][c] in layer' && layer'[p.readAt[r][c]] == RefKV(m, row.toks, l)[c - row.off]
    {
      if c < row.start {
        OldColumnKept(p, rows, r, c);
        ScatterRowsElsewhere(layer, p.writeAt, kvs, p.readAt[r][c]);
      } else {
        var j := c - row.start;
        ScatterRowsAt(layer, p.writeAt, kvs, r, j);
        assert p.writeAt[r][j] == p.readAt[r][c];
      }
    }
  }

  /** A query that sees exactly the entries of positions 0..i moves to the reference state. */
  lemma MixOne(m: Model, l: nat, toks: seq<Token>, i: nat, off: nat, x: Vec, cols: seq<KV>, vis: seq<bool>)
    requires i < |toks| && x == Hidden(m, toks, l)[i]
    requires |cols| == |vis| && off + i < |cols|
    requires forall c | 0 <= c < |vis| :: vis[c] <==> off <= c <= off + i
    requires forall c | off <= c <= off + i :: cols[c] == RefKV(m, toks, l)[c - off]
    ensures Mix(m, l, x, cols, vis) == Hidden(m, toks, l + 1)[i]
  {
    var ref := RefKV(m, toks, l);
    SelectWindow(cols, vis, off, off + i + 1);
    assert cols[off..off + i + 1] == ref[..i + 1];
  }

  /** With the right columns in place, every real query of a row moves to the right state. */
  lemma MixRight(m: Model, l: nat, layer: Layer, xs: seq<Vec>, p: Plan, r: nat, row: Row)
    requires Shape(p) && LayerFits(layer, p) && r < |p.ids| && |xs| == |p.ids[r]|
    requires DescribesRow(p, r, row) && RightState(m, l, xs, row)
    requires Holds(m, layer, l, p.readAt[r], row, row.start + |xs|)
    ensures RightState(m, l + 1, MixRow(m, l, layer, xs, p, r), row)
  {
    hide Select, RowShape, Mix, Hidden, RefKV;
    var cols := Gather(layer, p.readAt[r]);
    forall j | 0 <= j < |xs| && row.off <= row.start + j
      ensures MixRow(m, l, layer, xs, p, r)[j] == Hidden(m, row.toks, l + 1)[row.start + j - row.off]
    {
      var i := row.start + j - row.off;
      MixOne(m, l, row.toks, i, row.off, xs[j], cols, Visible(p, r, j));
    }
  }

  /** The cached columns a pass relies on: each row's history before its first query. */
  ghost predicate Primed(m: Model, data: Store, p: Plan, rows: seq<Row>)
    requires |rows| <= |p.readAt|
  {
    forall k, r | 0 <= k < |data| && 0 <= r < |rows| ::
      rows[r].start <= rows[r].off || Holds(m, data[k], k, p.readAt[r], rows[r], rows[r].start)
  }

  /** Every real query of every row has the reference hidden state after l layers. */
  ghost predicate RightStates(m: Model, l: nat, xs: seq<seq<Vec>>, p: Plan, rows: seq<Row>)
    requires Shape(p) && Matches(p, xs) && |rows| == |p.ids|
  {
    forall r | 0 <= r < |rows| :: DescribesRow(p, r, rows[r]) && RightState(m, l, xs[r], rows[r])
  }

  /** The first l layers hold the reference entry in every used column of every row. */
  ghost predicate RightColumns(m: Model, data: Store, l: nat, p: Plan, rows: seq<Row>)
    requires l <= |data| && |rows| == |p.ids| == |p.readAt|
  {
    forall k, r | 0 <= k < l && 0 <= r < |rows| ::
      Holds(m, data[k], k, p.readAt[r], rows[r], rows[r].start + |p.ids[r]|)
  }

  /** Cells the pass does not write keep their content. */
  ghost predicate Untouched(data: Store, data': Store, writes: seq<seq<Loc>>) {
    && |data| == |data'|
    && forall k, c | 0 <= k < |data| && c in data[k] && !Writes(writes, c) :: c in data'[k] && data'[k][c] == data[k][c]
  }

  /** The refinement lemma every driver uses.  When the rows of a plan are faithful windows on
      token sequences and the history columns hold reference entries, then after every layer
      each real query has the reference hidden state, every used column holds its reference
      entry, and no other cell has changed. */
  lemma {:induction false} RunFaithful(m: Model, data: Store, p: Plan, rows: seq<Row>, l: nat)
    requires Fits(m, data, p) && Describes(p, rows) && Primed(m, data, p, rows) && l <= m.nLayer
    ensures RightStates(m, l, Run(m, data, p, l).1, p, rows)
    ensures RightColumns(m, Run(m, data, p, l).0, l, p, rows)
    ensures Untouched(data, Run(m, data, p, l).0, p.writeAt)
  {
    hide RightStates, RightColumns, Untouched, Describes, Primed, MixRows, WriteLayer, EmbedRows;
    if l == 0 {
      EmbedRight(m, data, p, rows);
    } else {
      RunFaithful(m, data, p, rows, l - 1);
      RunStep(m, data, p, rows, l - 1, Run(m, data, p, l - 1));
    }
  }

  lemma RunStep(m: Model, data: Store, p: Plan, rows: seq<Row>, l: nat, out: (Store, seq<seq<Vec>>))
    requires Fits(m, data, p) && Describes(p, rows) && Primed(m, data, p, rows) && l < m.nLayer
    requires Fits(m, out.0, p) && Matches(p, out.1) && out.0[l] == data[l]
    requires RightStates(m, l, out.1, p, rows)
    requires RightColumns(m, out.0, l, p, rows)
    requires Untouched(data, out.0, p.writeAt)
    ensures var layer := WriteLayer(m, l, out.0[l], out.1, p);
      && RightStates(m, l + 1, MixRows(m, l, layer, out.1, p), p, rows)
      && RightColumns(m, out.0[l := layer], l + 1, p, rows)
      && Untouched(data, out.0[l := layer], p.writeAt)
  {
    hide DescribesRow, RightState, RightStates, MixRows, WriteLayer, RowShape, Separate;
    assert forall r | 0 <= r < |rows| ::
      rows[r].start <= rows[r].off || Holds(m, data[l], l, p.readAt[r], rows[r], rows[r].start);
    LayerRight(m, l, data[l], out.1, p, rows);
    LayerElsewhere(m, l, data[l], out.1, p);
    ColumnsExtend(m, out.0, l, WriteLayer(m, l, out.0[l], out.1, p), p, rows);
  }

  lemma ColumnsExtend(m: Model, data: Store, l: nat, layer: Layer, p: Plan, rows: seq<Row>)
    requires l < |data| && |rows| == |p.ids| == |p.readAt|
    requires RightColumns(m, data, l, p, rows)
    requires forall r | 0 <= r < |rows| :: Holds(m, layer, l, p.readAt[r], rows[r], rows[r].start + |p.ids[r]|)
    ensures RightColumns(m, data[l := layer], l + 1, p, rows)
  {
    hide Holds;
  }

  lemma EmbedRight(m: Model, data: Store, p: Plan, rows: seq<Row>)
    requires Shape(p) && Describes(p, rows)
    ensures RightStates(m, 0, EmbedRows(m, p), p, rows)
    ensures RightColumns(m, data, 0, p, rows) && Untouched(data, data, p.writeAt)
  {
    forall r | 0 <= r < |rows| ensures DescribesRow(p, r, rows[r]) && RightState(m, 0, EmbedRows(m, p)[r], rows[r]) {
      assert DescribesRow(p, r, rows[r]) && RowShape(p, r);
    }
  }

  lemma LayerRight(m: Model, l: nat, layer: Layer, xs: seq<seq<Vec>>, p: Plan, rows: seq<Row>)
    requires Shape(p) && LayerFits(layer, p) && Matches(p, xs) && Describes(p, rows)
    requires RightStates(m, l, xs, p, rows)
    requires forall r | 0 <= r < |rows| ::
      rows[r].start <= rows[r].off || Holds(m, layer, l, p.readAt[r], rows[r], rows[r].start)
    ensures var layer' := WriteLayer(m, l, layer, xs, p);
      && RightStates(m, l + 1, MixRows(m, l, layer', xs, p), p, rows)
      && forall r | 0 <= r < |rows| :: Holds(m, layer', l, p.readAt[r], rows[r], rows[r].start + |p.ids[r]|)
  {
    hide Holds, RightState, MixRow, WriteLayer;
    var layer' := WriteLayer(m, l, layer, xs, p);
    forall r | 0 <= r < |rows|
      ensures DescribesRow(p, r, rows[r]) && RightState(m, l + 1, MixRow(m, l, layer', xs[r], p, r), rows[r])
      ensures Holds(m, layer', l, p.readAt[r], rows[r], rows[r].start + |p.ids[r]|)
    {
      assert DescribesRow(p, r, rows[r]) && RightState(m, l, xs[r], rows[r]);
      WriteHolds(m, l, layer, xs, p, rows, r);
      MixRight(m, l, layer', xs[r], p, r, rows[r]);
    }
  }

  lemma LayerElsewhere(m: Model, l: nat, layer: Layer, xs: seq<seq<Vec>>, p: Plan)
    requires Shape(p) && LayerFits(layer, p) && Matches(p, xs)
    ensures var layer' := WriteLayer(m, l, layer, xs, p);
      forall c | c in layer && !Writes(p.writeAt, c) :: c in layer' && layer'[c] == layer[c]
  {
    forall c | c in layer && !Writes(p.writeAt, c) ensures WriteLayer(m, l, layer, xs, p)[c] == layer[c] {
      ScatterRowsElsewhere(layer, p.writeAt, EntryRows(m, l, xs), c);
    }
  }
}
