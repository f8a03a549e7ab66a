/** Synchronous generation over the contiguous cache: rows of one length, and left-padded
    batches of ragged prompts. */
module Generation {
  import opened Wrappers
  import opened Transformer
  import opened Forward
  import opened StaticCache

  // ----- one pass for every row

  ghost predicate AllLogits(m: Model, logits: seq<seq<real>>, hist: seq<seq<Token>>) {
    |logits| == |hist| && forall r | 0 <= r < |hist| :: |hist[r]| > 0 && logits[r] == RefLogits(m, hist[r])
  }

  /** The cache holds the reference entries of every row's tokens and `logits` what follows them. */
  ghost predicate InStep(m: Model, cache: StaticKVCache, offs: seq<nat>, hist: seq<seq<Token>>, len: nat,
      logits: seq<seq<real>>)
    reads cache, cache.k, cache.v, cache.seqLens
  {
    && |offs| == |hist|
    && cache.Valid() && cache.rows == |hist| && cache.nLayer == m.nLayer && cache.Level(len)
    && AllHold(m, cache.View(), offs, hist, len)
    && AllLogits(m, logits, hist)
  }

  lemma InStepLogits(m: Model, cache: StaticKVCache, offs: seq<nat>, hist: seq<seq<Token>>, len: nat,
      logits: seq<seq<real>>)
    requires InStep(m, cache, offs, hist, len, logits)
    ensures |logits| == |hist| && AllLogits(m, logits, hist)
  {
  }

  /** Run the model on t new tokens per row and move the cache forward. */
  method ForwardRows(m: Model, cache: StaticKVCache, ids: seq<seq<Token>>, pos: seq<seq<nat>>, mask: Option<Mask>,
      start: nat, t: nat, ghost offs: seq<nat>, ghost hist: seq<seq<Token>>)
    returns (logits: seq<seq<real>>)
    requires cache.Valid() && cache.nLayer == m.nLayer && cache.rows == |ids| && cache.Level(start)
    requires AllFeed(ids, pos, mask, start, t, offs, hist) && start + t <= cache.width && t > 0
    requires forall r, j | 0 <= r < |ids| && 0 <= j < t :: pos[r][j] < m.blockSize
    requires AllHold(m, cache.View(), offs, hist, start)
    requires forall r | 0 <= r < |hist| :: |hist[r]| > 0
    modifies cache.k, cache.v, cache.seqLens
    ensures InStep(m, cache, offs, hist, start + t, logits)
  {
    hide Run, Fits, Shape, Feeds, RowHolds, Hidden;
    ghost var data := cache.View();
    var xs := ForwardStatic(m, ids, pos, mask, cache, start, t);
    StaticPassFaithful(m, data, ids, pos, mask, start, t, offs, hist);
    OffsInside(ids, pos, mask, start, t, offs, hist);
    assert forall r | 0 <= r < |ids| :: RowStates(m, xs, r, offs[r], hist[r], start, t);
    logits := seq(|ids|, r requires 0 <= r < |ids| && |xs| == |ids| && |xs[r]| == t => m.head(xs[r][t - 1]));
    cache.Advance(t);
  }

  // ----- the masks and the padded batch

  /** A key is visible when it is at or before the query and not padding. */
  function CausalPlusPadding(padMask: seq<seq<bool>>, n: nat): (mk: Mask)
    requires forall r | 0 <= r < |padMask| :: |padMask[r]| == n
    ensures |mk| == |padMask| && forall r | 0 <= r < |mk| :: |mk[r]| == n
    ensures forall r, j | 0 <= r < |mk| && 0 <= j < n :: |mk[r][j]| == n
    ensures forall r, j, c | 0 <= r < |mk| && 0 <= j < n && 0 <= c < n :: mk[r][j][c] <==> c <= j && !padMask[r][c]
  {
    seq(|padMask|, r requires 0 <= r < |padMask| =>
      seq(n, j requires 0 <= j < n =>
        seq(n, c requires 0 <= c < n && |padMask[r]| == n => c <= j && !padMask[r][c])))
  }

  /** The prompt's padding, and nothing hidden after it. */
  function ExtendDecodeMask(padMask: seq<seq<bool>>, promptLen: nat, newLen: nat): (mk: Mask)
    requires promptLen <= newLen && forall r | 0 <= r < |padMask| :: |padMask[r]| == promptLen
    ensures |mk| == |padMask|
    ensures forall r | 0 <= r < |mk| :: |mk[r]| == 1 && |mk[r][0]| == newLen
    ensures forall r, c | 0 <= r < |mk| && 0 <= c < newLen :: mk[r][0][c] <==> !(c < promptLen && padMask[r][c])
  {
    seq(|padMask|, r requires 0 <= r < |padMask| =>
      [seq(newLen, c requires 0 <= c < newLen && |padMask[r]| == promptLen => !(c < promptLen && padMask[r][c]))])
  }

  method Longest(prompts: seq<seq<Token>>) returns (n: nat)
    requires prompts != []
    ensures forall r | 0 <= r < |prompts| :: |prompts[r]| <= n
    ensures exists r | 0 <= r < |prompts| :: |prompts[r]| == n
  {
    n := |prompts[0]|;
    for i := 1 to |prompts|
      invariant forall r | 0 <= r < i :: |prompts[r]| <= n
      invariant exists r | 0 <= r < i :: |prompts[r]| == n
    {
      if |prompts[i]| > n {
        n := |prompts[i]|;
      }
    }
  }

  /** Token ids, positions and padding of one row. */
  function PadRow(p: seq<Token>, n: nat, pad: Token): (ids: seq<Token>)
    requires |p| <= n
    ensures |ids| == n
    ensures forall c | n - |p| <= c < n :: ids[c] == p[c - (n - |p|)]
  {
    seq(n - |p|, c => pad) + p
  }

  /** Running count of real tokens, minus one, never below zero. */
  method RowPositions(padMask: seq<bool>, ghost off: nat) returns (pos: seq<nat>)
    requires off <= |padMask| && forall c | 0 <= c < |padMask| :: padMask[c] <==> c < off
    ensures |pos| == |padMask| && forall c | 0 <= c < |pos| :: pos[c] == if c < off then 0 else c - off
  {
    pos := [];
    var count: nat := 0;
    for c := 0 to |padMask|
      invariant |pos| == c && count == if c < off then 0 else c - off
      invariant forall k | 0 <= k < c :: pos[k] == if k < off then 0 else k - off
    {
      if !padMask[c] {
        count := count + 1;
      }
      pos := pos + [if count == 0 then 0 else count - 1];
    }
  }

  ghost predicate LeftPadded(prompts: seq<seq<Token>>, n: nat, ids: seq<seq<Token>>, pos: seq<seq<nat>>,
      padMask: seq<seq<bool>>)
  {
    && |ids| == |pos| == |padMask| == |prompts|
    && forall r | 0 <= r < |prompts| :: LeftPaddedRow(prompts[r], n, ids[r], pos[r], padMask[r])
  }

  ghost predicate LeftPaddedRow(p: seq<Token>, n: nat, ids: seq<Token>, pos: seq<nat>, padMask: seq<bool>) {
    && 0 < |p| <= n && |ids| == |pos| == |padMask| == n
    && (forall c | 0 <= c < n :: padMask[c] <==> c < n - |p|)
    && (forall c | n - |p| <= c < n :: ids[c] == p[c - (n - |p|)] && pos[c] == c - (n - |p|))
    && (forall c | 0 <= c < n - |p| :: pos[c] == 0)
  }

  /** Left-pad a ragged batch so that every prompt ends at the same column. */
  method BuildLeftPaddedBatch(prompts: seq<seq<Token>>, pad: Token)
    returns (n: nat, ids: seq<seq<Token>>, pos: seq<seq<nat>>, mask: Mask, padMask: seq<seq<bool>>)
    requires prompts != [] && forall r | 0 <= r < |prompts| :: prompts[r] != []
    ensures LeftPadded(prompts, n, ids, pos, padMask) && mask == CausalPlusPadding(padMask, n)
    ensures forall r | 0 <= r < |prompts| :: |prompts[r]| <= n
    ensures exists r | 0 <= r < |prompts| :: |prompts[r]| == n
  {
    n := Longest(prompts);
    ids, pos, padMask := [], [], [];
    for r := 0 to |prompts|
      invariant |ids| == |pos| == |padMask| == r
      invariant forall i | 0 <= i < r :: LeftPaddedRow(prompts[i], n, ids[i], pos[i], padMask[i])
    {
      var off := n - |prompts[r]|;
      var row := seq(n, c => c < off);
      var p := RowPositions(row, off);
      ids, pos, padMask := ids + [PadRow(prompts[r], n, pad)], pos + [p], padMask + [row];
    }
    assert forall r | 0 <= r < |padMask| :: LeftPaddedRow(prompts[r], n, ids[r], pos[r], padMask[r]);
    mask := CausalPlusPadding(padMask, n);
  }

  function Offsets(prompts: seq<seq<Token>>, n: nat): (offs: seq<nat>)
    requires forall r | 0 <= r < |prompts| :: |prompts[r]| <= n
    ensures |offs| == |prompts| && forall r | 0 <= r < |offs| :: offs[r] == n - |prompts[r]|
  {
    seq(|prompts|, r requires 0 <= r < |prompts| => n - |prompts[r]|)
  }

  lemma PrefillFeeds(prompts: seq<seq<Token>>, n: nat, ids: seq<seq<Token>>, pos: seq<seq<nat>>,
      padMask: seq<seq<bool>>)
    requires LeftPadded(prompts, n, ids, pos, padMask)
    ensures forall r | 0 <= r < |prompts| :: |padMask[r]| == n && |prompts[r]| <= n
    ensures AllFeed(ids, pos, Some(CausalPlusPadding(padMask, n)), 0, n, Offsets(prompts, n), prompts)
  {
    assert forall r | 0 <= r < |prompts| :: LeftPaddedRow(prompts[r], n, ids[r], pos[r], padMask[r]);
    var mask := Some(CausalPlusPadding(padMask, n));
    var p := StaticPlan(ids, pos, mask, 0, n);
    assert forall r | 0 <= r < |ids| :: RowShape(p, r);
    assert forall r | 0 <= r < |prompts| :: Feeds(ids, pos, mask, 0, n, r, Offsets(prompts, n)[r], prompts[r]);
  }

  /** Every row one token further. */
  function Fed(hist: seq<seq<Token>>, next: seq<Token>): (hist': seq<seq<Token>>)
    requires |hist| == |next|
    ensures |hist'| == |hist| && forall r | 0 <= r < |hist| :: hist'[r] == hist[r] + [next[r]]
  {
    seq(|hist|, r requires 0 <= r < |hist| => hist[r] + [next[r]])
  }

  function Column<T>(xs: seq<T>): (rows: seq<seq<T>>)
    ensures |rows| == |xs| && forall r | 0 <= r < |xs| :: rows[r] == [xs[r]]
  {
    seq(|xs|, r requires 0 <= r < |xs| => [xs[r]])
  }

  /** Each row's own position: its left padding does not count. */
  function DecodePositions(len: nat, padLens: seq<nat>): (pos: seq<nat>)
    requires forall r | 0 <= r < |padLens| :: padLens[r] <= len
    ensures |pos| == |padLens| && forall r | 0 <= r < |pos| :: pos[r] == len - padLens[r]
  {
    seq(|padLens|, r requires 0 <= r < |padLens| => len - padLens[r])
  }

  ghost predicate PadColumns(padMask: seq<seq<bool>>, offs: seq<nat>, n: nat) {
    && |padMask| == |offs|
    && forall r | 0 <= r < |offs| ::
         offs[r] <= n && |padMask[r]| == n && forall c | 0 <= c < n :: padMask[r][c] <==> c < offs[r]
  }

  lemma DecodeFeeds(next: seq<Token>, hist: seq<seq<Token>>, offs: seq<nat>, mask: Option<Mask>,
      padMask: seq<seq<bool>>, n: nat, len: nat)
    requires |next| == |hist| == |offs| && PadColumns(padMask, offs, n) && n <= len
    requires forall r | 0 <= r < |hist| :: |hist[r]| == len - offs[r]
    requires mask == Some(ExtendDecodeMask(padMask, n, len + 1))
      || (mask == None && forall r | 0 <= r < |offs| :: offs[r] == 0)
    ensures AllFeed(Column(next), Column(DecodePositions(len, offs)), mask, len, 1, offs, Fed(hist, next))
  {
    var ids, pos := Column(next), Column(DecodePositions(len, offs));
    var p := StaticPlan(ids, pos, mask, len, 1);
    forall r | 0 <= r < |ids| ensures RowShape(p, r) {
    }
    forall r | 0 <= r < |ids| ensures Feeds(ids, pos, mask, len, 1, r, offs[r], Fed(hist, next)[r]) {
    }
  }

  lemma HoldFed(m: Model, store: Store, offs: seq<nat>, hist: seq<seq<Token>>, next: seq<Token>, len: nat)
    requires |offs| == |hist| == |next| && AllHold(m, store, offs, hist, len)
    requires forall r | 0 <= r < |hist| :: offs[r] <= len && |hist[r]| == len - offs[r]
    ensures AllHold(m, store, offs, Fed(hist, next), len)
  {
    hide RowHolds;
    forall r | 0 <= r < |offs| && offs[r] < len
      ensures RowHolds(m, store, r, offs[r], Fed(hist, next)[r], len - offs[r])
    {
      RowHoldsAgree(m, store, r, offs[r], hist[r], hist[r] + [next[r]], len - offs[r]);
    }
  }

  /** One decode step for every row. */
  method DecodeRows(m: Model, cache: StaticKVCache, next: seq<Token>, mask: Option<Mask>, padLens: seq<nat>, len: nat,
      ghost padMask: seq<seq<bool>>, ghost n: nat, ghost hist: seq<seq<Token>>, ghost before: seq<seq<real>>)
    returns (logits: seq<seq<real>>)
    requires InStep(m, cache, padLens, hist, len, before) && len < cache.width && |next| == |hist|
    requires PadColumns(padMask, padLens, n) && n <= len
    requires forall r | 0 <= r < |hist| :: |hist[r]| == len - padLens[r] < m.blockSize
    requires mask == Some(ExtendDecodeMask(padMask, n, len + 1))
      || (mask == None && forall r | 0 <= r < |padLens| :: padLens[r] == 0)
    modifies cache.k, cache.v, cache.seqLens
    ensures InStep(m, cache, padLens, Fed(hist, next), len + 1, logits)
  {
    hide AllFeed, AllHold, AllLogits;
    DecodeFeeds(next, hist, padLens, mask, padMask, n, len);
    HoldFed(m, cache.View(), padLens, hist, next, len);
    var pos := Column(DecodePositions(len, padLens));
    logits := ForwardRows(m, cache, Column(next), pos, mask, len, 1, padLens, Fed(hist, next));
  }

  lemma NothingHeld(m: Model, store: Store, offs: seq<nat>, hist: seq<seq<Token>>)
    requires |offs| == |hist|
    ensures AllHold(m, store, offs, hist, 0)
  {
  }

  /** A new cache and the first pass over the prompts. */
  method PrefillRows(m: Model, prompts: seq<seq<Token>>, ids: seq<seq<Token>>, pos: seq<seq<nat>>, mask: Option<Mask>,
      n: nat, width: nat, ghost offs: seq<nat>)
    returns (cache: StaticKVCache, logits: seq<seq<real>>)
    requires 0 < n <= width && AllFeed(ids, pos, mask, 0, n, offs, prompts)
    requires forall r, j | 0 <= r < |pos| && 0 <= j < |pos[r]| :: pos[r][j] < m.blockSize
    requires forall r | 0 <= r < |prompts| :: prompts[r] != []
    ensures fresh(cache) && fresh(cache.k) && fresh(cache.v) && fresh(cache.seqLens) && cache.width == width
    ensures InStep(m, cache, offs, prompts, n, logits)
  {
    hide AllHold, Shape, Feeds, AllLogits;
    cache := new StaticKVCache(m.nLayer, |ids|, width);
    NothingHeld(m, cache.View(), offs, prompts);
    logits := ForwardRows(m, cache, ids, pos, mask, 0, n, offs, prompts);
  }

  // ----- rows of one length

  function Picked(m: Model, logits: seq<seq<real>>): (next: seq<Token>)
    ensures |next| == |logits| && forall r | 0 <= r < |next| :: next[r] == Greedy(m, logits[r])
  {
    seq(|logits|, r requires 0 <= r < |logits| => Greedy(m, logits[r]))
  }

  function Zeros(n: nat): (z: seq<nat>)
    ensures |z| == n && forall i | 0 <= i < n :: z[i] == 0
  {
    seq(n, i => 0)
  }

  ghost function NoPadding(rows: nat): (padMask: seq<seq<bool>>)
    ensures PadColumns(padMask, Zeros(rows), 0)
  {
    seq(rows, r => [])
  }

  function UpTo(n: nat): (pos: seq<nat>)
    ensures |pos| == n && forall i | 0 <= i < n :: pos[i] == i
  {
    seq(n, i requires 0 <= i < n => i)
  }

  lemma EqualFeeds(idx: seq<seq<Token>>, n: nat)
    requires n > 0 && forall r | 0 <= r < |idx| :: |idx[r]| == n
    ensures AllFeed(idx, seq(|idx|, r => UpTo(n)), None, 0, n, Zeros(|idx|), idx)
  {
    var pos := seq(|idx|, r => UpTo(n));
    var p := StaticPlan(idx, pos, None, 0, n);
    assert forall r | 0 <= r < |idx| :: RowShape(p, r);
    assert forall r | 0 <= r < |idx| :: Feeds(idx, pos, None, 0, n, r, Zeros(|idx|)[r], idx[r]);
  }

  ghost predicate AllGenerated(m: Model, idx: seq<seq<Token>>, gen: seq<seq<Token>>, k: nat) {
    m.blockSize > 0 && |gen| == |idx|
    && forall r | 0 <= r < |idx| :: |idx[r]| > 0 && gen[r] == GreedyGenerate(m, idx[r], k)
  }

  lemma GeneratedStep(m: Model, idx: seq<seq<Token>>, gen: seq<seq<Token>>, k: nat, n: nat, logits: seq<seq<real>>)
    requires AllGenerated(m, idx, gen, k) && AllLogits(m, logits, gen)
    requires forall r | 0 <= r < |idx| :: |idx[r]| == n && n + k <= m.blockSize
    ensures |logits| == |gen| && AllGenerated(m, idx, Fed(gen, Picked(m, logits)), k + 1)
    ensures forall r | 0 <= r < |gen| :: |gen[r]| == n + k
  {
    hide GreedyGenerate, RefLogits, Greedy;
    forall r | 0 <= r < |idx|
      ensures Fed(gen, Picked(m, logits))[r] == GreedyGenerate(m, idx[r], k + 1) && |gen[r]| == n + k
    {
      GreedySnoc(m, idx[r], k);
    }
  }

  /** Prefill once, then decode every row token by token: each row is the reference's. */
  method RunCached(m: Model, idx: seq<seq<Token>>, n: nat, maxNew: nat) returns (generated: seq<seq<Token>>)
    requires idx != [] && n > 0 && forall r | 0 <= r < |idx| :: |idx[r]| == n
    requires n + maxNew <= m.blockSize
    ensures |generated| == |idx| && forall r | 0 <= r < |idx| :: generated[r] == GreedyGenerate(m, idx[r], maxNew)
  {
    hide RefLogits, GreedyGenerate, AllHold, AllFeed, AllLogits;
    EqualFeeds(idx, n);
    var cache, logits := PrefillRows(m, idx, idx, seq(|idx|, r => UpTo(n)), None, n, m.blockSize, Zeros(|idx|));
    generated := idx;
    var k := 0;
    GeneratedStart(m, idx);
    while k < maxNew
      invariant k <= maxNew && fresh(cache) && fresh(cache.k) && fresh(cache.v) && fresh(cache.seqLens)
      invariant InStep(m, cache, Zeros(|idx|), generated, n + k, logits) && cache.width == m.blockSize
      invariant AllGenerated(m, idx, generated, k)
    {
      var next := Picked(m, logits);
      ghost var before := generated;
      GeneratedStep(m, idx, generated, k, n, logits);
      generated := Fed(generated, next);
      var len := cache.seqLens[0];
      logits := DecodeRows(m, cache, next, None, Zeros(|idx|), len, NoPadding(|idx|), 0, before, logits);
      k := k + 1;
    }
  }

  lemma GeneratedStart(m: Model, idx: seq<seq<Token>>)
    requires m.blockSize > 0 && forall r | 0 <= r < |idx| :: |idx[r]| > 0
    ensures AllGenerated(m, idx, idx, 0)
  {
  }

  // ----- ragged prompts

  /** One row after k rounds: what it has been fed, what it returns, and whether it is done. */
  ghost predicate RowAt(m: Model, prompt: seq<Token>, hist: seq<Token>, gen: seq<Token>, done: bool, k: nat,
      eot: Option<Token>)
  {
    && |prompt| > 0 && m.blockSize > 0
    && |hist| == |prompt| + k && prompt <= gen
    && var out := gen[|prompt|..];
      && GreedyRun(m, prompt, out, eot) && |out| <= k
      && (done <==> Ended(out, eot))
      && (!done ==> gen == hist)
  }

  /** A round for one row: a finished row is fed end-of-text and returns nothing more. */
  lemma RowStep(m: Model, prompt: seq<Token>, hist: seq<Token>, gen: seq<Token>, done: bool, k: nat,
      eot: Option<Token>, next: Token)
    requires RowAt(m, prompt, hist, gen, done, k, eot) && |hist| <= m.blockSize
    requires !done ==> next == Greedy(m, RefLogits(m, hist))
    ensures RowAt(m, prompt, hist + [next], if done then gen else gen + [next], done || eot == Some(next), k + 1, eot)
  {
    hide Next, IsGreedy, Greedy, RefLogits;
    if !done {
      var out := gen[|prompt|..];
      assert prompt + out == gen;
      NextIs(m, gen);
      IsGreedyExtend(m, prompt, out);
      assert (gen + [next])[|prompt|..] == out + [next];
    }
  }

  lemma NextIs(m: Model, toks: seq<Token>)
    requires 0 < |toks| <= m.blockSize
    ensures Next(m, toks) == Greedy(m, RefLogits(m, toks))
  {
  }

  lemma RowEnd(m: Model, prompt: seq<Token>, hist: seq<Token>, gen: seq<Token>, done: bool, k: nat, maxNew: nat,
      eot: Option<Token>)
    requires RowAt(m, prompt, hist, gen, done, k, eot) && k <= maxNew && (done || k == maxNew)
    ensures gen == prompt + GreedyUntil(m, prompt, maxNew, eot)
  {
    hide Next, IsGreedy;
    var out := gen[|prompt|..];
    GreedyUntilUnique(m, prompt, out, maxNew, eot);
    assert prompt + out == gen;
  }

  ghost predicate AllRows(m: Model, prompts: seq<seq<Token>>, hist: seq<seq<Token>>, gen: seq<seq<Token>>,
      done: seq<bool>, k: nat, eot: Option<Token>)
  {
    && |hist| == |gen| == |done| == |prompts|
    && forall r | 0 <= r < |prompts| :: RowAt(m, prompts[r], hist[r], gen[r], done[r], k, eot)
  }

  /** The tokens fed back: end-of-text for the rows that are done. */
  function Forced(next: seq<Token>, done: seq<bool>, eot: Option<Token>): (fed: seq<Token>)
    requires |next| == |done|
    ensures |fed| == |next|
    ensures forall r | 0 <= r < |fed| :: fed[r] == if eot.Some? && done[r] then eot.value else next[r]
  {
    seq(|next|, r requires 0 <= r < |next| => if eot.Some? && done[r] then eot.value else next[r])
  }

  function Marked(done: seq<bool>, next: seq<Token>, eot: Option<Token>): (done': seq<bool>)
    requires |next| == |done|
    ensures |done'| == |done| && forall r | 0 <= r < |done'| :: done'[r] == (done[r] || eot == Some(next[r]))
  {
    seq(|done|, r requires 0 <= r < |done| => done[r] || eot == Some(next[r]))
  }

  /** Rows still running take their token. */
  method AppendRows(gen: seq<seq<Token>>, next: seq<Token>, done: seq<bool>) returns (gen': seq<seq<Token>>)
    requires |gen| == |next| == |done|
    ensures |gen'| == |gen| && forall r | 0 <= r < |gen| :: gen'[r] == if done[r] then gen[r] else gen[r] + [next[r]]
  {
    gen' := [];
    for r := 0 to |gen|
      invariant |gen'| == r && forall i | 0 <= i < r :: gen'[i] == if done[i] then gen[i] else gen[i] + [next[i]]
    {
      gen' := gen' + [if done[r] then gen[r] else gen[r] + [next[r]]];
    }
  }

  lemma AllRowsStep(m: Model, prompts: seq<seq<Token>>, hist: seq<seq<Token>>, gen: seq<seq<Token>>, done: seq<bool>,
      k: nat, eot: Option<Token>, logits: seq<seq<real>>, next: seq<Token>, gen': seq<seq<Token>>)
    requires AllRows(m, prompts, hist, gen, done, k, eot) && AllLogits(m, logits, hist)
    requires forall r | 0 <= r < |prompts| :: |prompts[r]| + k <= m.blockSize
    requires |next| == |prompts| && next == Forced(Picked(m, logits), done, eot)
    requires |gen'| == |gen| && forall r | 0 <= r < |gen| :: gen'[r] == if done[r] then gen[r] else gen[r] + [next[r]]
    ensures AllRows(m, prompts, Fed(hist, next), gen', Marked(done, next, eot), k + 1, eot)
  {
    hide RowAt, Greedy, RefLogits;
    forall r | 0 <= r < |prompts|
      ensures RowAt(m, prompts[r], Fed(hist, next)[r], gen'[r], Marked(done, next, eot)[r], k + 1, eot)
    {
      RowLengths(m, prompts[r], hist[r], gen[r], done[r], k, eot);
      RowStep(m, prompts[r], hist[r], gen[r], done[r], k, eot, next[r]);
    }
  }

  lemma RowLengths(m: Model, prompt: seq<Token>, hist: seq<Token>, gen: seq<Token>, done: bool, k: nat,
      eot: Option<Token>)
    requires RowAt(m, prompt, hist, gen, done, k, eot)
    ensures |hist| == |prompt| + k && (done ==> eot.Some?)
  {
  }

  lemma AllRowsStart(m: Model, prompts: seq<seq<Token>>, eot: Option<Token>)
    requires m.blockSize > 0 && forall r | 0 <= r < |prompts| :: prompts[r] != []
    ensures AllRows(m, prompts, prompts, prompts, seq(|prompts|, r => false), 0, eot)
  {
  }

  lemma AllRowsLengths(m: Model, prompts: seq<seq<Token>>, hist: seq<seq<Token>>, gen: seq<seq<Token>>,
      done: seq<bool>, k: nat, eot: Option<Token>)
    requires AllRows(m, prompts, hist, gen, done, k, eot)
    ensures |hist| == |gen| == |done| == |prompts| && forall r | 0 <= r < |prompts| :: |hist[r]| == |prompts[r]| + k
  {
  }

  lemma AllRowsEnd(m: Model, prompts: seq<seq<Token>>, hist: seq<seq<Token>>, gen: seq<seq<Token>>, done: seq<bool>,
      k: nat, maxNew: nat, eot: Option<Token>)
    requires AllRows(m, prompts, hist, gen, done, k, eot) && k <= maxNew
    requires k == maxNew || forall r | 0 <= r < |done| :: done[r]
    requires m.blockSize > 0 && forall r | 0 <= r < |prompts| :: prompts[r] != []
    ensures |gen| == |prompts|
    ensures forall r | 0 <= r < |prompts| :: gen[r] == prompts[r] + GreedyUntil(m, prompts[r], maxNew, eot)
  {
    hide RowAt, GreedyUntil;
    forall r | 0 <= r < |prompts| ensures gen[r] == prompts[r] + GreedyUntil(m, prompts[r], maxNew, eot) {
      RowEnd(m, prompts[r], hist[r], gen[r], done[r], k, maxNew, eot);
    }
  }

  lemma PaddedFacts(m: Model, prompts: seq<seq<Token>>, n: nat, ids: seq<seq<Token>>, pos: seq<seq<nat>>,
      padMask: seq<seq<bool>>)
    requires LeftPadded(prompts, n, ids, pos, padMask) && n <= m.blockSize
    requires forall r | 0 <= r < |prompts| :: |prompts[r]| <= n
    ensures |ids| == |prompts| && PadColumns(padMask, Offsets(prompts, n), n)
    ensures forall r | 0 <= r < |padMask| :: |padMask[r]| == n
    ensures forall r, j | 0 <= r < |pos| && 0 <= j < |pos[r]| :: pos[r][j] < m.blockSize
    ensures |pos| == |ids| && forall r | 0 <= r < |pos| :: |pos[r]| == |ids[r]| == n
  {
    assert forall r | 0 <= r < |prompts| :: LeftPaddedRow(prompts[r], n, ids[r], pos[r], padMask[r]);
  }

  /** The padded batch, a cache with room for all new tokens, and the first pass. */
  method PrefillBatch(m: Model, prompts: seq<seq<Token>>, maxNew: nat, pad: Token)
    returns (n: nat, padMask: seq<seq<bool>>, cache: StaticKVCache, logits: seq<seq<real>>)
    requires prompts != [] && m.blockSize > 0
    requires forall r | 0 <= r < |prompts| :: prompts[r] != [] && |prompts[r]| + maxNew <= m.blockSize
    ensures n + maxNew <= m.blockSize && forall r | 0 <= r < |prompts| :: |prompts[r]| <= n
    ensures PadColumns(padMask, Offsets(prompts, n), n) && forall r | 0 <= r < |padMask| :: |padMask[r]| == n
    ensures fresh(cache) && fresh(cache.k) && fresh(cache.v) && fresh(cache.seqLens) && cache.width == n + maxNew
    ensures InStep(m, cache, Offsets(prompts, n), prompts, n, logits)
  {
    hide *;
    var ids, pos, mask;
    n, ids, pos, mask, padMask := BuildLeftPaddedBatch(prompts, pad);
    PaddedFacts(m, prompts, n, ids, pos, padMask);
    PrefillFeeds(prompts, n, ids, pos, padMask);
    cache, logits := PrefillRows(m, prompts, ids, pos, Some(mask), n, n + maxNew, Offsets(prompts, n));
  }

  /** Left-padded greedy generation: every row is its own solo greedy run, cut after its first
      end-of-text, whatever the padding columns hold and however long finished rows keep being fed. */
  method RunBatched(m: Model, prompts: seq<seq<Token>>, maxNew: nat, pad: Token, eot: Option<Token>)
    returns (generated: seq<seq<Token>>)
    requires prompts != [] && m.blockSize > 0
    requires forall r | 0 <= r < |prompts| :: prompts[r] != [] && |prompts[r]| + maxNew <= m.blockSize
    ensures |generated| == |prompts|
    ensures forall r | 0 <= r < |prompts| :: generated[r] == prompts[r] + GreedyUntil(m, prompts[r], maxNew, eot)
  {
    hide *;
    var n, padMask, cache, logits := PrefillBatch(m, prompts, maxNew, pad);
    var padLens := Offsets(prompts, n);
    var finished := seq(|prompts|, r => false);
    generated := prompts;
    ghost var hist := prompts;
    AllRowsStart(m, prompts, eot);
    var k := 0;
    while k < maxNew
      invariant k <= maxNew && fresh(cache) && fresh(cache.k) && fresh(cache.v) && fresh(cache.seqLens)
      invariant |hist| == |prompts| == |finished| && cache.width == n + maxNew
      invariant InStep(m, cache, padLens, hist, n + k, logits)
      invariant AllRows(m, prompts, hist, generated, finished, k, eot)
    {
      InStepLogits(m, cache, padLens, hist, n + k, logits);
      AllRowsLengths(m, prompts, hist, generated, finished, k, eot);
      var next := Forced(Picked(m, logits), finished, eot);
      var grown := AppendRows(generated, next, finished);
      AllRowsStep(m, prompts, hist, generated, finished, k, eot, logits, next, grown);
      generated := grown;
      finished := Marked(finished, next, eot);
      ghost var before := hist;
      hist := Fed(hist, next);
      k := k + 1;
      if forall r | 0 <= r < |finished| :: finished[r] {
        break;
      }
      var decodeMask := ExtendDecodeMask(padMask, n, n + k);
      logits := DecodeRows(m, cache, next, Some(decodeMask), padLens, n + k - 1, padMask, n, before, logits);
    }
    AllRowsEnd(m, prompts, hist, generated, finished, k, maxNew, eot);
  }
}