/** The paged cache object: one (block, offset) pool per layer, scattered into by slot and
    gathered through block tables, and the model's pass over it. */
module PagedPool {
  import opened Wrappers
  import opened Transformer
  import opened Forward
  import opened Blocks
  import opened PagedCache

  predicate InPool(x: Loc, numBlocks: nat, bs: nat) {
    0 <= x.major < numBlocks && 0 <= x.minor < bs
  }

  lemma {:induction false} ScatterSnoc(layer: Layer, locs: seq<Loc>, kvs: seq<KV>, n: nat)
    requires |locs| == |kvs| && n < |locs|
    ensures Scatter(layer, locs[..n + 1], kvs[..n + 1]) == Scatter(layer, locs[..n], kvs[..n])[locs[n] := kvs[n]]
  {
    assert locs[..n + 1][..n] == locs[..n] && kvs[..n + 1][..n] == kvs[..n];
  }

  lemma {:induction false} ScatterRowsSnoc(layer: Layer, writes: seq<seq<Loc>>, kvs: seq<seq<KV>>, n: nat)
    requires Rect(writes, kvs) && n < |writes|
    ensures Rect(writes[..n + 1], kvs[..n + 1]) && Rect(writes[..n], kvs[..n])
    ensures var front := ScatterRows(layer, writes[..n], kvs[..n]);
      ScatterRows(layer, writes[..n + 1], kvs[..n + 1]) == Scatter(front, writes[n], kvs[n])
  {
    assert writes[..n + 1][..n] == writes[..n] && kvs[..n + 1][..n] == kvs[..n];
  }

  /** Every cell of a new pool is zero. */
  function ZeroStore(nLayer: nat, numBlocks: nat, bs: nat): (store: Store)
    ensures |store| == nLayer
    ensures forall l | 0 <= l < nLayer :: forall x :: x in store[l] <==> InPool(x, numBlocks, bs)
    ensures forall l, x | 0 <= l < nLayer && x in store[l] :: store[l][x] == KV([], [])
  {
    seq(nLayer, l => ZeroLayer(numBlocks, bs))
  }

  function ZeroLayer(numBlocks: nat, bs: nat): (layer: Layer)
    ensures forall x :: x in layer <==> InPool(x, numBlocks, bs)
    ensures forall x | x in layer :: layer[x] == KV([], [])
  {
    var layer := map b, o | 0 <= b < numBlocks && 0 <= o < bs :: Loc(b, o) := KV([], []);
    assert forall x: Loc :: x == Loc(x.major, x.minor);
    layer
  }

  lemma ScatterNothing(layer: Layer)
    ensures Scatter(layer, [], []) == layer && ScatterRows(layer, [], []) == layer
  {
  }

  class PagedKVCache {
    const nLayer: nat
    const numBlocks: nat
    const blockSize: nat
    const kPool: array3<Vec>
    const vPool: array3<Vec>
    /** The cells of every layer as the arrays hold them. */
    ghost var view: Store

    ghost function Repr(): set<object> {
      {this, kPool, vPool}
    }

    ghost predicate Sized() {
      && kPool.Length0 == nLayer && kPool.Length1 == numBlocks && kPool.Length2 == blockSize
      && vPool.Length0 == nLayer && vPool.Length1 == numBlocks && vPool.Length2 == blockSize
      && kPool != vPool && blockSize > 0
    }

    /** Layer l of the arrays is the map `layer`. */
    ghost predicate LayerIs(l: nat, layer: Layer)
      requires Sized() && l < nLayer
      reads kPool, vPool
    {
      && (forall x :: x in layer <==> InPool(x, numBlocks, blockSize))
      && (forall x | x in layer :: layer[x] == KV(kPool[l, x.major, x.minor], vPool[l, x.major, x.minor]))
    }

    ghost predicate Valid()
      reads this, kPool, vPool
    {
      Sized() && |view| == nLayer && forall l | 0 <= l < nLayer :: LayerIs(l, view[l])
    }

    constructor (nLayer: nat, numBlocks: nat, blockSize: nat)
      requires blockSize > 0
      ensures Valid() && fresh(kPool) && fresh(vPool)
      ensures this.nLayer == nLayer && this.numBlocks == numBlocks && this.blockSize == blockSize
      ensures view == ZeroStore(nLayer, numBlocks, blockSize)
    {
      this.nLayer, this.numBlocks, this.blockSize := nLayer, numBlocks, blockSize;
      kPool := new Vec[nLayer, numBlocks, blockSize]((l, b, o) => []);
      vPool := new Vec[nLayer, numBlocks, blockSize]((l, b, o) => []);
      view := ZeroStore(nLayer, numBlocks, blockSize);
    }

    /** One cell of one layer. */
    method StoreCell(l: nat, x: Loc, e: KV)
      requires Valid() && l < nLayer && InPool(x, numBlocks, blockSize)
      modifies this, kPool, vPool
      ensures Valid() && view == old(view)[l := old(view)[l][x := e]]
    {
      kPool[l, x.major, x.minor] := e.k;
      vPool[l, x.major, x.minor] := e.v;
      view := view[l := view[l][x := e]];
    }

    /** Scatter the new entries of every row to its slots. */
    method Write(l: nat, kvs: seq<seq<KV>>, cells: seq<seq<Loc>>)
      requires Valid() && l < nLayer && Rect(cells, kvs)
      requires forall r, j | 0 <= r < |cells| && 0 <= j < |cells[r]| :: InPool(cells[r][j], numBlocks, blockSize)
      modifies this, kPool, vPool
      ensures Valid() && view == old(view)[l := ScatterRows(old(view)[l], cells, kvs)]
    {
      hide Scatter, ScatterRows, LayerIs;
      ghost var before := view[l];
      ScatterNothing(before);
      assert view == view[l := before];
      for r := 0 to |cells|
        invariant Valid() && Rect(cells[..r], kvs[..r])
        invariant view == old(view)[l := ScatterRows(before, cells[..r], kvs[..r])]
      {
        WriteRow(l, kvs[r], cells[r]);
        ScatterRowsSnoc(before, cells, kvs, r);
      }
      assert cells[..|cells|] == cells && kvs[..|kvs|] == kvs;
    }

    method WriteRow(l: nat, kvs: seq<KV>, cells: seq<Loc>)
      requires Valid() && l < nLayer && |cells| == |kvs|
      requires forall j | 0 <= j < |cells| :: InPool(cells[j], numBlocks, blockSize)
      modifies this, kPool, vPool
      ensures Valid() && view == old(view)[l := Scatter(old(view)[l], cells, kvs)]
    {
      hide Scatter, LayerIs;
      ghost var before := view[l];
      ScatterNothing(before);
      assert view == view[l := before];
      for j := 0 to |cells|
        invariant Valid() && view == old(view)[l := Scatter(before, cells[..j], kvs[..j])]
      {
        StoreCell(l, cells[j], kvs[j]);
        ScatterSnoc(before, cells, kvs, j);
      }
      assert cells[..|cells|] == cells && kvs[..|kvs|] == kvs;
    }

    /** The columns of one row. */
    method Read(l: nat, cells: seq<Loc>) returns (cols: seq<KV>)
      requires Valid() && l < nLayer && Within(cells, view[l])
      ensures cols == Gather(view[l], cells)
    {
      assert LayerIs(l, view[l]);
      cols := [];
      for c := 0 to |cells|
        invariant |cols| == c && forall i | 0 <= i < c :: cols[i] == view[l][cells[i]]
      {
        var x := cells[c];
        cols := cols + [KV(kPool[l, x.major, x.minor], vPool[l, x.major, x.minor])];
      }
    }
  }

  // ----- the forward pass over it

  lemma FitsParts(m: Model, data: Store, p: Plan, l: nat)
    requires Fits(m, data, p) && l < m.nLayer
    ensures |data| == m.nLayer && Shape(p) && LayerFits(data[l], p)
    ensures forall r | 0 <= r < |p.ids| :: Within(p.writeAt[r], data[l]) && Within(p.readAt[r], data[l])
  {
  }

  lemma RunStart(m: Model, data: Store, p: Plan)
    requires Fits(m, data, p)
    ensures Run(m, data, p, 0) == (data, EmbedRows(m, p))
  {
  }

  lemma RunNext(m: Model, data: Store, p: Plan, l: nat)
    requires Fits(m, data, p) && l < m.nLayer
    ensures var (d, xs) := Run(m, data, p, l);
      var layer := WriteLayer(m, l, d[l], xs, p);
      Run(m, data, p, l + 1) == (d[l := layer], MixRows(m, l, layer, xs, p))
  {
  }

  /** The layer loop over the pool: scatter, gather, attend. */
  method ForwardPaged(m: Model, p: Plan, cache: PagedKVCache) returns (xs: seq<seq<Vec>>)
    requires cache.Valid() && cache.nLayer == m.nLayer && Fits(m, cache.view, p)
    modifies cache, cache.kPool, cache.vPool
    ensures cache.Valid() && (cache.view, xs) == Run(m, old(cache.view), p, m.nLayer)
  {
    hide *;
    ghost var data := cache.view;
    FitsShape(m, data, p);
    xs := EmbedRows(m, p);
    RunStart(m, data, p);
    var l := 0;
    while l < m.nLayer
      invariant l <= m.nLayer && cache.Valid()
      invariant (cache.view, xs) == Run(m, data, p, l)
    {
      xs := LayerPaged(m, p, cache, l, xs, data);
      l := l + 1;
    }
  }

  lemma FitsShape(m: Model, data: Store, p: Plan)
    requires Fits(m, data, p)
    ensures Shape(p) && |data| == m.nLayer
  {
  }

  method LayerPaged(m: Model, p: Plan, cache: PagedKVCache, l: nat, xs: seq<seq<Vec>>, ghost data: Store)
    returns (ys: seq<seq<Vec>>)
    requires cache.Valid() && cache.nLayer == m.nLayer && l < m.nLayer && Fits(m, data, p)
    requires (cache.view, xs) == Run(m, data, p, l)
    modifies cache, cache.kPool, cache.vPool
    ensures cache.Valid() && (cache.view, ys) == Run(m, data, p, l + 1)
  {
    hide Run, Fits, Shape, RowShape, MixRow, ScatterRows, LayerFits, Within, EntryRows, Visible;
    RunNext(m, data, p, l);
    FitsParts(m, data, p, l);
    FitsParts(m, cache.view, p, l);
    ghost var layer := WriteLayer(m, l, cache.view[l], xs, p);
    CellsInPool(m, cache, p, l);
    ShapeRect(p);
    cache.Write(l, EntryRows(m, l, xs), p.writeAt);
    FitsParts(m, Run(m, data, p, l + 1).0, p, l);
    ys := AttendPaged(m, p, cache, l, xs);
  }

  lemma ShapeRect(p: Plan)
    requires Shape(p)
    ensures Rect(p.writeAt, p.ids) && |p.ids| == |p.readAt|
  {
  }

  lemma CellsInPool(m: Model, cache: PagedKVCache, p: Plan, l: nat)
    requires cache.Valid() && cache.nLayer == m.nLayer && l < m.nLayer && Fits(m, cache.view, p)
    ensures Shape(p)
    ensures forall r, j | 0 <= r < |p.writeAt| && 0 <= j < |p.writeAt[r]| ::
      InPool(p.writeAt[r][j], cache.numBlocks, cache.blockSize)
  {
    assert cache.LayerIs(l, cache.view[l]);
    FitsParts(m, cache.view, p, l);
    forall r, j | 0 <= r < |p.writeAt| && 0 <= j < |p.writeAt[r]|
      ensures InPool(p.writeAt[r][j], cache.numBlocks, cache.blockSize)
    {
      assert Within(p.writeAt[r], cache.view[l]);
    }
  }

  method AttendPaged(m: Model, p: Plan, cache: PagedKVCache, l: nat, xs: seq<seq<Vec>>) returns (ys: seq<seq<Vec>>)
    requires cache.Valid() && cache.nLayer == m.nLayer && l < m.nLayer
    requires Shape(p) && Matches(p, xs) && LayerFits(cache.view[l], p)
    ensures ys == MixRows(m, l, cache.view[l], xs, p)
  {
    hide Shape, RowShape, MixRow, LayerFits, Within, Visible;
    ys := [];
    for r := 0 to |xs|
      invariant |ys| == r && forall i | 0 <= i < r :: ys[i] == MixRow(m, l, cache.view[l], xs[i], p, i)
    {
      RowWithin(cache.view[l], p, r);
      var cols := cache.Read(l, p.readAt[r]);
      MixColsRow(m, l, cache.view[l], xs[r], cols, p, r);
      ys := ys + [MixCols(m, l, xs[r], cols, p, r)];
    }
  }

  lemma RowWithin(layer: Layer, p: Plan, r: nat)
    requires Shape(p) && LayerFits(layer, p) && r < |p.ids|
    ensures r < |p.readAt| && Within(p.readAt[r], layer)
  {
  }
}
