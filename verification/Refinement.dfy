/** Continuous batching refines solo decoding: the invariant of every reachable engine state
    and its preservation by every transition. */
module Refinement {
  import opened Wrappers
  import opened Transformer
  import opened Forward
  import opened Utf8
  import opened Tokenizer
  import opened Requests
  import opened Blocks
  import opened PagedCache
  import opened Scheduling
  import opened Ownership
  import opened Capacity
  import opened Serving

  // ----- one sequence

  ghost predicate ReqOk(m: Model, r: Request) {
    |r.prompt| > 0 && Acceptable(m, r)
  }

  /** The tokens so far: the reference's choices when decoding greedily, and no stop skipped. */
  ghost predicate History(m: Model, enc: Table, r: Request, output: seq<Token>)
    requires |r.prompt| > 0 && m.blockSize > 0
  {
    (r.Greedy() ==> IsGreedy(m, r.prompt, output)) && RunsOn(enc, r, output)
  }

  ghost predicate LiveOk(enc: Table, q: Seq, d: Detok) {
    && q.text == SafeText(enc, q.output)
    && d == Detok(q.output, q.text)
    && q.reason == None
    && (q.output != [] ==> !Stops(enc, q.request, q.output))
  }

  function FinishReason(enc: Table, r: Request, output: seq<Token>): Reason
    requires |output| > 0 && Stops(enc, r, output)
  {
    if exists x | x in r.stop :: Occurs(x, FullText(enc, output)) then Stop
    else CheckFinish(r, output, SafeText(enc, output)).value
  }

  ghost predicate DoneOk(enc: Table, q: Seq) {
    && q.reason.Some?
    && (q.reason.value != Cancelled ==>
          && q.output != [] && Stops(enc, q.request, q.output)
          && q.text == FullText(enc, q.output)
          && q.reason.value == FinishReason(enc, q.request, q.output))
  }

  ghost predicate SeqOk(m: Model, enc: Table, detoks: map<RequestId, Detok>, q: Seq) {
    && m.blockSize > 0 && ReqOk(m, q.request) && History(m, enc, q.request, q.output)
    && if q.status == Finished then DoneOk(enc, q)
       else q.request.id in detoks && LiveOk(enc, q, detoks[q.request.id])
  }

  // ----- the pool

  ghost predicate CellsExist(m: Model, store: Store, numBlocks: nat, bs: nat) {
    && |store| == m.nLayer
    && forall l, b, o | 0 <= l < |store| && 0 <= b < numBlocks && 0 <= o < bs :: Loc(b, o) in store[l]
  }

  /** The first n tokens of the sequence are in the pool, at every layer, as the reference
      entries, each in the cell its block table gives it. */
  ghost predicate Cached(m: Model, store: Store, q: Seq, n: nat, bs: nat) {
    && bs > 0 && n <= |q.Tokens()| && |store| == m.nLayer && BlocksNeeded(n, bs) <= |q.table|
    && forall l, i | 0 <= l < m.nLayer && 0 <= i < n :: HasEntry(m, store[l], q, l, i, bs)
  }

  ghost predicate HasEntry(m: Model, layer: Layer, q: Seq, l: nat, i: nat, bs: nat) {
    && bs > 0 && i < |q.Tokens()| && i / bs < |q.table|
    && TokenCell(q.table, i, bs) in layer
    && layer[TokenCell(q.table, i, bs)] == RefKV(m, q.Tokens(), l)[i]
  }

  // ----- where a running sequence stands within a step

  /** Let in, with blocks for all its tokens and none of them computed. */
  ghost predicate Admitted(e: Engine, q: Seq) {
    e.s.blockSize > 0 && q.computed == 0 && |q.table| == BlocksNeeded(q.NumTokens(), e.s.blockSize)
  }

  /** All its tokens are in the pool and the next one is about to be sampled. */
  ghost predicate Computed(e: Engine, q: Seq) {
    && e.s.blockSize > 0 && q.computed == q.NumTokens() && Tight(q, e.s.blockSize)
    && Cached(e.m, e.store, q, q.computed, e.s.blockSize)
  }

  /** Between steps: all its tokens but the last are in the pool, in exactly enough blocks. */
  ghost predicate Settled(e: Engine, q: Seq) {
    && e.s.blockSize > 0 && q.output != [] && q.computed + 1 == q.NumTokens() && Tight(q, e.s.blockSize)
    && Cached(e.m, e.store, q, q.computed, e.s.blockSize)
  }

  ghost predicate Base(e: Engine) {
    && Ledger(e.s) && e.m.blockSize > 0
    && CellsExist(e.m, e.store, e.s.numBlocks, e.s.blockSize)
    && forall id | id in e.s.seqs :: SeqOk(e.m, e.enc, e.detoks, e.s.seqs[id])
  }

  ghost predicate Phases(e: Engine, toPrefill: seq<RequestId>, toSample: seq<RequestId>)
    requires Known(e.s)
  {
    forall id | id in e.s.running ::
      if id in toPrefill then Admitted(e, e.s.seqs[id])
      else if id in toSample then Computed(e, e.s.seqs[id])
      else Settled(e, e.s.seqs[id])
  }

  /** Midway through a step: `toPrefill` still have to be prefilled, `toSample` sampled. */
  ghost predicate Mid(e: Engine, toPrefill: seq<RequestId>, toSample: seq<RequestId>) {
    && Base(e) && Phases(e, toPrefill, toSample)
    && NoDup(toPrefill) && NoDup(toSample)
    && (forall id | id in toPrefill :: id in e.s.running && id !in toSample)
    && (forall id | id in toSample :: id in e.s.running)
  }

  /** The invariant of every state between steps. */
  ghost predicate Inv(e: Engine) {
    Base(e) && Phases(e, [], [])
  }

  // ----- sampling one row

  lemma AdvanceText(enc: Table, o: seq<Token>, tok: Token)
    ensures SafeText(enc, o) + Beyond(SafeText(enc, o + [tok]), SafeText(enc, o)) == SafeText(enc, o + [tok])
    ensures var full, safe := FullText(enc, o + [tok]), SafeText(enc, o + [tok]);
      safe + Beyond(full, safe) == full
  {
    hide SafeText, FullText, Beyond;
    var o' := o + [tok];
    assert o'[..|o|] == o;
    SafeTextGrows(enc, o', |o|);
    JoinBeyond(SafeText(enc, o'), SafeText(enc, o));
    StreamingIsExact(enc, o');
    JoinBeyond(FullText(enc, o'), SafeText(enc, o'));
  }

  /** What advancing a live sequence by one token does, in closed form. */
  ghost function Advanced(e: Engine, id: RequestId, tok: Token): Engine
    requires Known(e.s) && id in e.s.seqs
  {
    var q := e.s.seqs[id];
    var o := q.output + [tok];
    if Stops(e.enc, q.request, o) then
      var e1 := SetSeq(e, id, q.(output := o, text := FullText(e.enc, o)));
      var s' := Finish(e1.s, id, FinishReason(e.enc, q.request, o));
      e1.(s := s', detoks := e.detoks[id := Detok(o, FullText(e.enc, o))])
    else
      var e1 := SetSeq(e, id, q.(output := o, text := SafeText(e.enc, o)));
      e1.(detoks := e.detoks[id := Detok(o, SafeText(e.enc, o))])
  }

  lemma AdvanceSpec(e: Engine, id: RequestId, tok: Token)
    requires Known(e.s) && id in e.s.seqs && id in e.detoks && LiveOk(e.enc, e.s.seqs[id], e.detoks[id])
    ensures Advance(e, id, tok).0 == Advanced(e, id, tok)
  {
    AdvanceText(e.enc, e.s.seqs[id].output, tok);
    hide Finish, SafeText, FullText, Beyond;
  }

  /** The advanced sequence still tells a true history, whether it goes on or has stopped. */
  lemma AdvanceHistory(m: Model, enc: Table, r: Request, output: seq<Token>, tok: Token)
    requires m.blockSize > 0 && |r.prompt| > 0 && History(m, enc, r, output)
    requires output != [] ==> !Stops(enc, r, output)
    requires r.Greedy() ==> tok == Next(m, r.prompt + output)
    ensures History(m, enc, r, output + [tok])
  {
    hide Stops, Next;
    var o := output + [tok];
    if r.Greedy() {
      IsGreedyExtend(m, r.prompt, output);
    }
    forall k | 0 < k < |o| ensures !Stops(enc, r, o[..k]) {
      assert o[..k] == output[..k];
      assert k == |output| ==> o[..k] == output;
    }
  }

  lemma AdvanceSeqOk(e: Engine, id: RequestId, tok: Token)
    requires Known(e.s) && id in e.s.seqs && e.s.seqs[id].status == Running && e.s.seqs[id].request.id == id
    requires SeqOk(e.m, e.enc, e.detoks, e.s.seqs[id])
    requires e.s.seqs[id].request.Greedy() ==> tok == Next(e.m, e.s.seqs[id].Tokens())
    ensures var e' := Advanced(e, id, tok); SeqOk(e.m, e.enc, e'.detoks, e'.s.seqs[id])
  {
    AdvanceHistory(e.m, e.enc, e.s.seqs[id].request, e.s.seqs[id].output, tok);
    hide SafeText, FullText, Stops, Next, FinishReason, History, Acceptable, Remove;
  }

  lemma CachedExtends(m: Model, store: Store, q: Seq, q': Seq, n: nat, bs: nat)
    requires Cached(m, store, q, n, bs)
    requires q'.table == q.table && q.Tokens() <= q'.Tokens()
    ensures Cached(m, store, q', n, bs)
  {
    var s, t := q.Tokens(), q'.Tokens();
    assert s[..n] == t[..n];
    forall l, i | 0 <= l < m.nLayer && 0 <= i < n ensures HasEntry(m, store[l], q', l, i, bs) {
      assert HasEntry(m, store[l], q, l, i, bs);
      RefKVAgree(m, s, t, n, l);
      assert RefKV(m, t, l)[..n][i] == RefKV(m, s, l)[..n][i];
    }
  }

  lemma AdvanceSettles(e: Engine, q: Seq, q': Seq)
    requires Computed(e, q)
    requires q' == q.(output := q'.output, text := q'.text) && |q'.output| == |q.output| + 1 && q.output <= q'.output
    ensures Settled(e, q')
  {
    CachedExtends(e.m, e.store, q, q', q.computed, e.s.blockSize);
  }

  lemma AdvanceLedger(e: Engine, id: RequestId, tok: Token)
    requires Ledger(e.s) && id in e.s.running
    ensures Ledger(Advanced(e, id, tok).s)
  {
    var q := e.s.seqs[id];
    var o := q.output + [tok];
    var q1 := q.(output := o, text := FullText(e.enc, o));
    var q2 := q.(output := o, text := SafeText(e.enc, o));
    hide SafeText, FullText, Stops;
    PutLedger(e.s, id, (e.s.free, q1));
    PutLedger(e.s, id, (e.s.free, q2));
    if Stops(e.enc, q.request, o) {
      FinishLedger(SetSeq(e, id, q1).s, id, FinishReason(e.enc, q.request, o));
    }
  }

  /** What advancing leaves alone. */
  lemma AdvanceFrame(e: Engine, id: RequestId, tok: Token)
    requires Ledger(e.s) && id in e.s.running
    ensures var e' := Advanced(e, id, tok);
      && e'.m == e.m && e'.enc == e.enc && e'.store == e.store
      && e'.s.blockSize == e.s.blockSize && e'.s.numBlocks == e.s.numBlocks && e'.s.waiting == e.s.waiting
      && e'.s.seqs.Keys == e.s.seqs.Keys
      && (forall x | x in e.s.seqs && x != id :: e'.s.seqs[x] == e.s.seqs[x])
      && (forall x | x in e.detoks && x != id :: x in e'.detoks && e'.detoks[x] == e.detoks[x])
      && id in e'.detoks
      && (forall x | x in e.s.running && x != id :: x in e'.s.running)
      && (forall x | x in e'.s.running :: x in e.s.running)
      && (id in e'.s.running ==> !Stops(e.enc, e.s.seqs[id].request, e.s.seqs[id].output + [tok]))
  {
    hide SafeText, FullText, Stops, FinishReason;
    RemoveNoDup(e.s.running, id);
  }

  lemma SeqOkElsewhere(m: Model, enc: Table, a: map<RequestId, Detok>, b: map<RequestId, Detok>, q: Seq)
    requires SeqOk(m, enc, a, q)
    requires q.request.id in a ==> q.request.id in b && a[q.request.id] == b[q.request.id]
    ensures SeqOk(m, enc, b, q)
  {
  }

  lemma AdvanceBase(e: Engine, id: RequestId, tok: Token)
    requires Base(e) && id in e.s.running
    requires e.s.seqs[id].request.Greedy() ==> tok == Next(e.m, e.s.seqs[id].Tokens())
    ensures Base(Advanced(e, id, tok))
  {
    var e' := Advanced(e, id, tok);
    AdvanceLedger(e, id, tok);
    AdvanceFrame(e, id, tok);
    AdvanceSeqOk(e, id, tok);
    hide SeqOk, Advanced, OnlyRunningOwn, Conserved;
    forall x | x in e'.s.seqs ensures SeqOk(e'.m, e'.enc, e'.detoks, e'.s.seqs[x]) {
      if x != id {
        SeqOkElsewhere(e.m, e.enc, e.detoks, e'.detoks, e.s.seqs[x]);
      }
    }
  }

  lemma PhaseElsewhere(e: Engine, e': Engine, q: Seq)
    requires e'.m == e.m && e'.store == e.store && e'.s.blockSize == e.s.blockSize
    ensures Admitted(e, q) ==> Admitted(e', q)
    ensures Computed(e, q) ==> Computed(e', q)
    ensures Settled(e, q) ==> Settled(e', q)
  {
  }

  lemma AdvancedRunning(e: Engine, id: RequestId, tok: Token)
    requires Ledger(e.s) && id in e.s.running && id in Advanced(e, id, tok).s.running
    ensures var q, q' := e.s.seqs[id], Advanced(e, id, tok).s.seqs[id];
      q' == q.(output := q.output + [tok], text := q'.text)
  {
    AdvanceFrame(e, id, tok);
  }

  /** The sampled row is settled if it is still running. */
  lemma AdvancedSettled(e: Engine, id: RequestId, tok: Token)
    requires Ledger(e.s) && id in e.s.running && Computed(e, e.s.seqs[id]) && id in Advanced(e, id, tok).s.running
    ensures var e' := Advanced(e, id, tok); Settled(e', e'.s.seqs[id])
  {
    var e' := Advanced(e, id, tok);
    AdvanceFrame(e, id, tok);
    AdvancedRunning(e, id, tok);
    hide Ledger, Advanced, Computed, Settled;
    AdvanceSettles(e, e.s.seqs[id], e'.s.seqs[id]);
    PhaseElsewhere(e, e', e'.s.seqs[id]);
  }

  lemma RunningListed(e: Engine, id: RequestId)
    requires Ledger(e.s) && id in e.s.running
    ensures Known(e.s) && forall x | x in e.s.running :: x in e.s.seqs
  {
  }

  lemma AdvancePhases(e: Engine, toPrefill: seq<RequestId>, id: RequestId, rest: seq<RequestId>, tok: Token)
    requires Ledger(e.s) && id in e.s.running && id !in toPrefill && id !in rest
    requires Phases(e, toPrefill, [id] + rest)
    ensures Phases(Advanced(e, id, tok), toPrefill, rest)
  {
    hide Advanced, Ledger, Computed, Settled, Admitted, Stops;
    RunningListed(e, id);
    var e' := Advanced(e, id, tok);
    AdvanceFrame(e, id, tok);
    assert id in [id] + rest;
    forall x | x in e'.s.running
      ensures if x in toPrefill then Admitted(e', e'.s.seqs[x])
        else if x in rest then Computed(e', e'.s.seqs[x])
        else Settled(e', e'.s.seqs[x])
    {
      if x == id {
        AdvancedSettled(e, id, tok);
      } else {
        assert x in [id] + rest <==> x in rest;
        PhaseElsewhere(e, e', e.s.seqs[x]);
      }
    }
  }

  /** Sampling the next row of a batch. */
  lemma AdvanceMid(e: Engine, toPrefill: seq<RequestId>, id: RequestId, rest: seq<RequestId>, tok: Token)
    requires Mid(e, toPrefill, [id] + rest)
    requires e.s.seqs[id].request.Greedy() ==> tok == Next(e.m, e.s.seqs[id].Tokens())
    ensures Mid(Advanced(e, id, tok), toPrefill, rest)
  {
    MidMembers(e, toPrefill, id, rest);
    AdvanceBase(e, id, tok);
    AdvanceFrame(e, id, tok);
    AdvancePhases(e, toPrefill, id, rest, tok);
    hide Base, Phases, Advanced, Ledger, NoDup;
  }

  lemma MidMembers(e: Engine, toPrefill: seq<RequestId>, id: RequestId, rest: seq<RequestId>)
    requires Mid(e, toPrefill, [id] + rest)
    ensures Base(e) && Ledger(e.s) && id in e.s.running && id !in toPrefill && id !in rest
    ensures NoDup(toPrefill) && NoDup(rest)
    ensures forall x | x in toPrefill :: x in e.s.running && x != id && x !in rest
    ensures forall x | x in rest :: x in e.s.running && x != id
  {
    hide Base, Phases;
    var all := [id] + rest;
    assert all[0] == id && all[1..] == rest;
    assert forall x | x in rest :: x in all;
    NoDupTail(all);
    forall i | 0 <= i < |rest| ensures rest[i] != id {
      assert all[i + 1] != all[0];
    }
    assert Ledger(e.s) by { BaseLedger(e); }
  }

  lemma BaseLedger(e: Engine)
    requires Base(e)
    ensures Ledger(e.s) && Known(e.s) && e.m.blockSize > 0
  {
  }

  // ----- the prefill pass

  /** Live sequences stay within the position table and hold no more blocks than its width. */
  lemma LiveLength(e: Engine, id: RequestId)
    requires Base(e) && id in e.s.seqs && e.s.seqs[id].status != Finished
    ensures 0 < e.s.seqs[id].NumTokens() <= e.m.blockSize
    ensures BlocksNeeded(e.s.seqs[id].NumTokens(), e.s.blockSize) <= e.Width()
    ensures |e.s.seqs[id].Tokens()| == e.s.seqs[id].NumTokens()
  {
    var q := e.s.seqs[id];
    assert SeqOk(e.m, e.enc, e.detoks, q);
    if q.output != [] {
      StopsByLength(e.enc, q.request, q.output);
    }
    BlocksNeededMonotone(q.NumTokens(), e.m.blockSize, e.s.blockSize);
  }

  lemma StopsByLength(enc: Table, r: Request, output: seq<Token>)
    requires output != [] && !Stops(enc, r, output)
    ensures |output| < r.maxTokens
  {
  }

  lemma InRunning(e: Engine, id: RequestId)
    requires Base(e) && id in e.s.running
    ensures id in e.s.seqs && id in e.detoks && e.s.seqs[id].status == Running && e.s.seqs[id].request.id == id
    ensures SeqOk(e.m, e.enc, e.detoks, e.s.seqs[id]) && |e.s.seqs[id].request.prompt| > 0
    ensures LiveOk(e.enc, e.s.seqs[id], e.detoks[id])
    ensures |e.s.seqs[id].Tokens()| == e.s.seqs[id].NumTokens()
  {
    assert SeqOk(e.m, e.enc, e.detoks, e.s.seqs[id]);
  }

  /** A running sequence's cells exist. */
  lemma OwnCell(e: Engine, id: RequestId, i: nat, l: nat)
    requires Base(e) && id in e.s.running && i / e.s.blockSize < |e.s.seqs[id].table| && l < |e.store|
    ensures TokenCell(e.s.seqs[id].table, i, e.s.blockSize) in e.store[l]
  {
    OwnedInPool(e.s, id, i / e.s.blockSize);
    var c := TokenCell(e.s.seqs[id].table, i, e.s.blockSize);
    assert c == Loc(c.major, c.minor);
  }

  /** No two running sequences share a cell. */
  lemma CellsApart(e: Engine, id: RequestId, i: nat, id': RequestId, i': nat)
    requires Base(e) && id in e.s.running && id' in e.s.running
    requires i / e.s.blockSize < |e.s.seqs[id].table| && i' / e.s.blockSize < |e.s.seqs[id'].table|
    requires TokenCell(e.s.seqs[id].table, i, e.s.blockSize) == TokenCell(e.s.seqs[id'].table, i', e.s.blockSize)
    ensures id == id' && i == i'
  {
    hide Base, Ledger;
    BaseLedger(e);
    Exclusive(e.s, id, i / e.s.blockSize, id', i' / e.s.blockSize);
    SameQuotient(i, i', e.s.blockSize);
  }

  lemma SameQuotient(i: nat, j: nat, d: nat)
    requires d > 0 && i / d == j / d && i % d == j % d
    ensures i == j
  {
    assert i == (i / d) * d + i % d && j == (j / d) * d + j % d;
  }

  lemma OwnTableApart(e: Engine, id: RequestId)
    requires Base(e) && id in e.s.running
    ensures OwnCells([e.s.seqs[id].table])
  {
    var t := [e.s.seqs[id].table];
    forall r, i, r', i' | 0 <= r < |t| && 0 <= i < |t[r]| && 0 <= r' < |t| && 0 <= i' < |t[r']|
      && t[r][i] == t[r'][i']
      ensures r == r' && i == i'
    {
      Exclusive(e.s, id, i, id, i');
    }
  }

  /** The cells written are those of one running sequence. */
  ghost predicate WritesOwn(s: Sched, id: RequestId, writes: seq<seq<Loc>>)
    requires s.blockSize > 0 && id in s.seqs
  {
    |writes| == 1 && forall j | 0 <= j < |writes[0]| ::
      j / s.blockSize < |s.seqs[id].table| && writes[0][j] == TokenCell(s.seqs[id].table, j, s.blockSize)
  }

  /** The prefill pass reads and writes exactly the cells of its own tokens. */
  ghost predicate PrefillAt(e: Engine, id: RequestId, p: Plan)
    requires Known(e.s) && id in e.s.seqs
  {
    var q := e.s.seqs[id];
    && p.ids == [q.Tokens()] && |q.Tokens()| == q.NumTokens()
    && WritesOwn(e.s, id, p.writeAt) && p.readAt == p.writeAt && |p.readAt[0]| == q.NumTokens()
  }

  lemma PrefillAddresses(e: Engine, id: RequestId)
    requires Base(e) && id in e.s.running && Admitted(e, e.s.seqs[id])
    ensures 0 < e.s.seqs[id].NumTokens() && PrefillAt(e, id, PrefillPlan(e, id))
    ensures Shape(PrefillPlan(e, id)) && Describes(PrefillPlan(e, id), [Row(e.s.seqs[id].Tokens(), 0, 0)])
  {
    hide Base, Describes, PagedPlan, PrefillBatch, Shape, BlocksNeeded;
    BaseLedger(e);
    var q, bs := e.s.seqs[id], e.s.blockSize;
    RunningBasics(e, id);
    LiveLength(e, id);
    OwnTableApart(e, id);
    PrefillDescribes(q.Tokens(), q.table, e.Width(), bs);
    PagedCache.PrefillAddresses(q.Tokens(), q.table, e.Width(), bs);
  }

  lemma PrefillIsLegal(e: Engine, id: RequestId)
    requires Base(e) && id in e.s.running && Admitted(e, e.s.seqs[id])
    ensures PrefillLegal(e, id)
  {
    hide Base, Ledger, PrefillPlan, Shape, Describes, BlocksNeeded, LayerFits;
    BaseLedger(e);
    RunningBasics(e, id);
    LiveLength(e, id);
    PrefillAddresses(e, id);
    StoreSize(e);
    forall l | 0 <= l < |e.store| ensures LayerFits(e.store[l], PrefillPlan(e, id)) {
      PrefillLayerFits(e, id, l, PrefillPlan(e, id));
    }
  }

  lemma StoreSize(e: Engine)
    requires Base(e)
    ensures |e.store| == e.m.nLayer
  {
  }

  lemma PrefillLayerFits(e: Engine, id: RequestId, l: nat, p: Plan)
    requires Known(e.s) && id in e.s.seqs && Shape(p) && PrefillAt(e, id, p)
    requires Base(e) && id in e.s.running && l < |e.store|
    ensures LayerFits(e.store[l], p)
  {
    hide Base, Ledger, Shape, BlocksNeeded;
    forall c | 0 <= c < e.s.seqs[id].NumTokens() ensures p.readAt[0][c] in e.store[l] && p.writeAt[0][c] in e.store[l] {
      OwnCell(e, id, c, l);
    }
  }

  lemma CachedFromHolds(m: Model, store: Store, q: Seq, cells: seq<Loc>, row: Row, n: nat, bs: nat)
    requires bs > 0 && |store| == m.nLayer && n <= |q.Tokens()| && BlocksNeeded(n, bs) <= |q.table|
    requires row.off == 0 && row.toks == q.Tokens() && n <= |cells|
    requires forall l | 0 <= l < m.nLayer :: Holds(m, store[l], l, cells, row, n)
    requires forall c | 0 <= c < n :: c / bs < |q.table| && cells[c] == TokenCell(q.table, c, bs)
    ensures Cached(m, store, q, n, bs)
  {
    forall l, i | 0 <= l < m.nLayer && 0 <= i < n ensures HasEntry(m, store[l], q, l, i, bs) {
      assert Holds(m, store[l], l, cells, row, n);
      assert cells[i] == TokenCell(q.table, i, bs);
    }
  }

  /** After the pass the sequence is cached and the logits are the reference's. */
  lemma PrefillRun(e: Engine, id: RequestId)
    requires Base(e) && id in e.s.running && Admitted(e, e.s.seqs[id]) && PrefillLegal(e, id)
    ensures var q := e.s.seqs[id];
      var out := Run(e.m, e.store, PrefillPlan(e, id), e.m.nLayer);
      && Cached(e.m, out.0, q, q.NumTokens(), e.s.blockSize)
      && Untouched(e.store, out.0, PrefillPlan(e, id).writeAt)
      && |q.Tokens()| == q.NumTokens() > 0
      && Logits(e.m, out, 0, q.NumTokens() - 1) == RefLogits(e.m, q.Tokens())
  {
    hide Base, PrefillPlan, Describes, Run, Hidden, Holds, Cached, DescribesRow, Ledger, PagedPlan, PrefillBatch,
      BlocksNeeded;
    BaseLedger(e);
    var q, p := e.s.seqs[id], PrefillPlan(e, id);
    var row := Row(q.Tokens(), 0, 0);
    RunningBasics(e, id);
    PrefillAddresses(e, id);
    PrimedFresh(e.m, e.store, p, [row]);
    RunFaithful(e.m, e.store, p, [row], e.m.nLayer);
    var out := Run(e.m, e.store, p, e.m.nLayer);
    OneRow(e.m, p, row, out);
    CachedFromHolds(e.m, out.0, q, p.readAt[0], row, q.NumTokens(), e.s.blockSize);
  }

  /** A pass that starts from an empty history relies on nothing. */
  lemma PrimedFresh(m: Model, data: Store, p: Plan, rows: seq<Row>)
    requires |rows| <= |p.readAt| && forall r | 0 <= r < |rows| :: rows[r].start == 0
    ensures Primed(m, data, p, rows)
  {
  }

  lemma OneRow(m: Model, p: Plan, row: Row, out: (Store, seq<seq<Vec>>))
    requires Shape(p) && Matches(p, out.1) && |p.ids| == 1 && |out.0| == m.nLayer
    requires RightStates(m, m.nLayer, out.1, p, [row]) && RightColumns(m, out.0, m.nLayer, p, [row])
    requires row.off == 0 && row.start == 0 && |row.toks| == |p.ids[0]| > 0
    ensures Logits(m, out, 0, |row.toks| - 1) == RefLogits(m, row.toks)
    ensures forall l | 0 <= l < m.nLayer :: Holds(m, out.0[l], l, p.readAt[0], row, |row.toks|)
  {
    var rows := [row];
    assert DescribesRow(p, 0, rows[0]) && RightState(m, m.nLayer, out.1[0], rows[0]);
    hide Hidden;
    forall l | 0 <= l < m.nLayer ensures Holds(m, out.0[l], l, p.readAt[0], row, |row.toks|) {
      assert Holds(m, out.0[l], l, p.readAt[0], rows[0], rows[0].start + |p.ids[0]|);
    }
  }

  lemma CachedElsewhere(e: Engine, id: RequestId, other: RequestId, n: nat, store: Store, writes: seq<seq<Loc>>)
    requires Base(e) && id in e.s.running && other in e.s.running && other != id
    requires Cached(e.m, e.store, e.s.seqs[other], n, e.s.blockSize)
    requires Untouched(e.store, store, writes)
    requires WritesOwn(e.s, id, writes)
    ensures Cached(e.m, store, e.s.seqs[other], n, e.s.blockSize)
  {
    hide Base, RefKV, WritesOwn, BlocksNeeded;
    RunningBasics(e, id);
    RunningBasics(e, other);
    var q, bs := e.s.seqs[other], e.s.blockSize;
    forall l, i | 0 <= l < e.m.nLayer && 0 <= i < n ensures HasEntry(e.m, store[l], q, l, i, bs) {
      assert HasEntry(e.m, e.store[l], q, l, i, bs);
      NotWritten(e, id, other, i, writes);
    }
  }

  /** Nobody writes into another sequence's cells. */
  lemma NotWritten(e: Engine, id: RequestId, other: RequestId, i: nat, writes: seq<seq<Loc>>)
    requires Base(e) && id in e.s.running && other in e.s.running && other != id
    requires WritesOwn(e.s, id, writes) && i / e.s.blockSize < |e.s.seqs[other].table|
    ensures !Writes(writes, TokenCell(e.s.seqs[other].table, i, e.s.blockSize))
  {
    hide Base, Ledger;
    BaseLedger(e);
    var c := TokenCell(e.s.seqs[other].table, i, e.s.blockSize);
    forall j | 0 <= j < |writes[0]| ensures writes[0][j] != c {
      if writes[0][j] == c {
        CellsApart(e, id, j, other, i);
      }
    }
  }

  lemma CellsExistAfter(m: Model, store: Store, store': Store, numBlocks: nat, bs: nat)
    requires CellsExist(m, store, numBlocks, bs)
    requires |store'| == |store| && forall k | 0 <= k < |store| :: store'[k].Keys == store[k].Keys
    ensures CellsExist(m, store', numBlocks, bs)
  {
    forall l, b, o | 0 <= l < |store| && 0 <= b < numBlocks && 0 <= o < bs ensures Loc(b, o) in store'[l] {
      assert Loc(b, o) in store[l].Keys;
    }
  }

  /** Only counting computed tokens keeps everything but the phases. */
  lemma CountLedger(s: Sched, s': Sched)
    requires Ledger(s) && s' == s.(seqs := s'.seqs) && s'.seqs.Keys == s.seqs.Keys
    requires forall id | id in s.seqs :: s'.seqs[id] == s.seqs[id].(computed := s'.seqs[id].computed)
    requires forall id | id in s.seqs && id !in s.running :: s'.seqs[id] == s.seqs[id]
    ensures Ledger(s')
  {
    TablesAgree(s.running, s.seqs, s'.seqs);
  }

  lemma CountBase(e: Engine, e': Engine)
    requires Base(e) && e' == e.(s := e'.s, store := e'.store)
    requires e'.s == e.s.(seqs := e'.s.seqs) && e'.s.seqs.Keys == e.s.seqs.Keys
    requires forall id | id in e.s.seqs :: e'.s.seqs[id] == e.s.seqs[id].(computed := e'.s.seqs[id].computed)
    requires forall id | id in e.s.seqs && id !in e.s.running :: e'.s.seqs[id] == e.s.seqs[id]
    requires |e'.store| == |e.store| && forall k | 0 <= k < |e.store| :: e'.store[k].Keys == e.store[k].Keys
    ensures Base(e')
  {
    CountLedger(e.s, e'.s);
    CellsExistAfter(e.m, e.store, e'.store, e.s.numBlocks, e.s.blockSize);
    hide Ledger, CellsExist, History, Stops, SafeText, FullText;
    forall id | id in e'.s.seqs ensures SeqOk(e'.m, e'.enc, e'.detoks, e'.s.seqs[id]) {
      assert SeqOk(e.m, e.enc, e.detoks, e.s.seqs[id]);
    }
  }

  lemma PrefillBase(e: Engine, id: RequestId)
    requires Base(e) && id in e.s.running && PrefillLegal(e, id)
    ensures Base(PrefillPass(e, id).0)
  {
    hide Base, Ledger, Run, PrefillPlan, BlocksNeeded, LayerFits, Shape;
    BaseLedger(e);
    CountBase(e, PrefillPass(e, id).0);
  }

  lemma CachedComputed(m: Model, store: Store, q: Seq, n: nat, bs: nat, c: nat)
    requires Cached(m, store, q, n, bs)
    ensures Cached(m, store, q.(computed := c), n, bs)
  {
    forall l, i | 0 <= l < m.nLayer && 0 <= i < n ensures HasEntry(m, store[l], q.(computed := c), l, i, bs) {
      assert HasEntry(m, store[l], q, l, i, bs);
    }
  }

  lemma SettledElsewhere(e: Engine, e1: Engine, id: RequestId, x: RequestId, writes: seq<seq<Loc>>)
    requires Base(e) && id in e.s.running && x in e.s.running && x != id && Settled(e, e.s.seqs[x])
    requires e1.m == e.m && e1.s.blockSize == e.s.blockSize
    requires Untouched(e.store, e1.store, writes) && WritesOwn(e.s, id, writes)
    ensures Settled(e1, e.s.seqs[x])
  {
    CachedElsewhere(e, id, x, e.s.seqs[x].computed, e1.store, writes);
  }

  lemma PhasesAfterPrefill(e: Engine, e1: Engine, id: RequestId, rest: seq<RequestId>, writes: seq<seq<Loc>>)
    requires Base(e) && id in e.s.running && id !in rest && Phases(e, [id] + rest, [])
    requires e1 == SetSeq(e, id, e.s.seqs[id].(computed := e.s.seqs[id].NumTokens())).(store := e1.store)
    requires Admitted(e, e.s.seqs[id]) && Cached(e.m, e1.store, e.s.seqs[id], e.s.seqs[id].NumTokens(), e.s.blockSize)
    requires Untouched(e.store, e1.store, writes) && WritesOwn(e.s, id, writes)
    ensures Phases(e1, rest, [id])
  {
    var q := e.s.seqs[id];
    BaseLedger(e);
    CachedComputed(e.m, e1.store, q, q.NumTokens(), e.s.blockSize, q.NumTokens());
    assert Computed(e1, e1.s.seqs[id]);
    hide Base, Untouched, WritesOwn, Settled, Computed, Ledger;
    forall x | x in e1.s.running
      ensures if x in rest then Admitted(e1, e1.s.seqs[x])
        else if x in [id] then Computed(e1, e1.s.seqs[x])
        else Settled(e1, e1.s.seqs[x])
    {
      assert x in [id] + rest <==> x == id || x in rest;
      if x != id && x !in rest {
        SettledElsewhere(e, e1, id, x, writes);
      }
    }
  }

  lemma PrefillPhases(e: Engine, id: RequestId, rest: seq<RequestId>)
    requires Base(e) && id in e.s.running && id !in rest && PrefillLegal(e, id) && Phases(e, [id] + rest, [])
    ensures Phases(PrefillPass(e, id).0, rest, [id])
    ensures |e.s.seqs[id].Tokens()| > 0 && PrefillPass(e, id).1 == RefLogits(e.m, e.s.seqs[id].Tokens())
  {
    var p := PrefillPlan(e, id);
    assert id in [id] + rest;
    BaseLedger(e);
    assert Admitted(e, e.s.seqs[id]);
    PrefillRun(e, id);
    PrefillAddresses(e, id);
    hide Base, Run, PrefillPlan, Untouched, Cached, Phases, Admitted, Ledger, PrefillLegal, WritesOwn, RefLogits,
      Fits, Shape, Describes, LayerFits;
    PhasesAfterPrefill(e, PrefillPass(e, id).0, id, rest, p.writeAt);
  }

  // ----- the decode pass

  /** Every running sequence has room for its next token and everything before it cached. */
  ghost predicate DecodeReady(e: Engine, q: Seq) {
    && e.s.blockSize > 0 && q.output != [] && q.computed + 1 == q.NumTokens() && Ready(q, e.s.blockSize)
    && Cached(e.m, e.store, q, q.computed, e.s.blockSize)
  }

  ghost predicate AllReady(e: Engine) {
    && Base(e) && e.s.running != []
    && forall id | id in e.s.running :: DecodeReady(e, e.s.seqs[id])
  }

  lemma ReadyBase(e: Engine)
    requires AllReady(e)
    ensures Base(e) && Ledger(e.s) && Known(e.s) && e.m.blockSize > 0 && |e.store| == e.m.nLayer
    ensures CellsExist(e.m, e.store, e.s.numBlocks, e.s.blockSize) && NoDup(e.s.running)
    ensures e.s.running != []
  {
  }

  lemma ReadyOne(e: Engine, id: RequestId)
    requires AllReady(e) && id in e.s.running
    ensures id in e.s.seqs && DecodeReady(e, e.s.seqs[id])
  {
  }

  function Histories(e: Engine, ids: seq<RequestId>): (hist: seq<seq<Token>>)
    requires forall id | id in ids :: id in e.s.seqs
    ensures |hist| == |ids| && forall r | 0 <= r < |ids| :: hist[r] == e.s.seqs[ids[r]].Tokens()
  {
    seq(|ids|, r requires 0 <= r < |ids| && ids[r] in e.s.seqs => e.s.seqs[ids[r]].Tokens())
  }

  /** A running sequence, without what its text says. */
  lemma RunningBasics(e: Engine, id: RequestId)
    requires Base(e) && id in e.s.running
    ensures id in e.s.seqs && id in e.detoks && |e.s.seqs[id].request.prompt| > 0
    ensures e.s.seqs[id].status == Running && |e.s.seqs[id].Tokens()| == e.s.seqs[id].NumTokens()
  {
    InRunning(e, id);
  }

  lemma TableInPool(e: Engine, id: RequestId)
    requires Base(e) && id in e.s.running
    ensures forall i | 0 <= i < |e.s.seqs[id].table| :: e.s.seqs[id].table[i] < e.s.numBlocks
  {
    hide Base, Ledger;
    BaseLedger(e);
    forall i | 0 <= i < |e.s.seqs[id].table| ensures e.s.seqs[id].table[i] < e.s.numBlocks {
      OwnedInPool(e.s, id, i);
    }
  }

  lemma RowReady(e: Engine, id: RequestId)
    requires AllReady(e) && id in e.s.running
    ensures var q := e.s.seqs[id];
      && id in e.s.seqs && id in e.detoks && |q.request.prompt| > 0 && q.computed < e.m.blockSize
      && DecodeReady(e, q) && |q.Tokens()| == q.NumTokens()
      && DecodeRowOk(DecodeRow(LastToken(q), q.computed, q.table), e.Width(), e.s.blockSize)
      && Continues(DecodeRow(LastToken(q), q.computed, q.table), q.Tokens())
      && (forall i | 0 <= i < |q.table| :: q.table[i] < e.s.numBlocks) && e.s.numBlocks > 0
  {
    hide AllReady, Base, Cached, BlocksNeeded;
    ReadyBase(e);
    ReadyOne(e, id);
    RunningBasics(e, id);
    LiveLength(e, id);
    TableInPool(e, id);
    var q := e.s.seqs[id];
    Covers(q.computed, e.s.blockSize, |q.table|);
    assert q.table[0] < e.s.numBlocks;
  }

  lemma RowsReady(e: Engine)
    requires AllReady(e)
    ensures forall id | id in e.s.running ::
      id in e.s.seqs && id in e.detoks && |e.s.seqs[id].request.prompt| > 0 && e.s.seqs[id].computed < e.m.blockSize
    ensures e.s.blockSize > 0 && DecodeRowsOk(DecodeRows(e, e.s.running), e.Width(), e.s.blockSize)
  {
    hide AllReady, Base, Ledger, DecodeReady, Continues, DecodeRowOk, BlocksNeeded;
    ReadyBase(e);
    forall id | id in e.s.running ensures
      id in e.s.seqs && id in e.detoks && |e.s.seqs[id].request.prompt| > 0 && e.s.seqs[id].computed < e.m.blockSize
    {
      RowReady(e, id);
    }
    var ds := DecodeRows(e, e.s.running);
    forall r | 0 <= r < |ds| ensures DecodeRowOk(ds[r], e.Width(), e.s.blockSize) {
      RowReady(e, e.s.running[r]);
    }
  }

  lemma RowTablesApart(e: Engine)
    requires AllReady(e) && forall id | id in e.s.running :: id in e.s.seqs && |e.s.seqs[id].request.prompt| > 0
    ensures OwnCells(DecodeTables(DecodeRows(e, e.s.running)))
  {
    hide AllReady, Ledger, Base;
    ReadyBase(e);
    var ids := e.s.running;
    var t := DecodeTables(DecodeRows(e, ids));
    forall r, i, r', i' | 0 <= r < |t| && 0 <= i < |t[r]| && 0 <= r' < |t| && 0 <= i' < |t[r']|
      && t[r][i] == t[r'][i']
      ensures r == r' && i == i'
    {
      Exclusive(e.s, ids[r], i, ids[r'], i');
    }
  }

  lemma DecodeWindowsDescribe(e: Engine)
    requires AllReady(e)
    requires forall id | id in e.s.running :: id in e.s.seqs && |e.s.seqs[id].request.prompt| > 0
    requires e.s.blockSize > 0 && DecodeRowsOk(DecodeRows(e, e.s.running), e.Width(), e.s.blockSize)
    ensures var ds := DecodeRows(e, e.s.running);
      var p := PagedPlan(DecodeBatch(ds, e.Width(), e.s.blockSize), e.s.blockSize);
      Shape(p) && Describes(p, DecodeWindows(ds, Histories(e, e.s.running)))
  {
    hide AllReady, Base, Describes, Continues, PagedPlan, DecodeBatch, BlocksNeeded, DecodeReady;
    ReadyBase(e);
    var ds := DecodeRows(e, e.s.running);
    var hist := Histories(e, e.s.running);
    RowTablesApart(e);
    forall r | 0 <= r < |ds| ensures Continues(ds[r], hist[r]) {
      RowReady(e, e.s.running[r]);
    }
    DecodeDescribes(ds, e.Width(), e.s.blockSize, hist);
  }

  lemma DecodeFits(e: Engine)
    requires AllReady(e)
    requires forall id | id in e.s.running :: id in e.s.seqs && |e.s.seqs[id].request.prompt| > 0
    requires e.s.blockSize > 0 && DecodeRowsOk(DecodeRows(e, e.s.running), e.Width(), e.s.blockSize)
    ensures Fits(e.m, e.store, DecodePlan(e, e.s.running))
  {
    hide AllReady, Base, Ledger, DecodeRowsOk, Shape, CellsExist, Within, DecodeRows, PagedPlan, DecodeBatch,
      BlocksNeeded;
    var ds := DecodeRows(e, e.s.running);
    ReadyBase(e);
    var p := DecodePlan(e, e.s.running);
    DecodeAddresses(ds, e.Width(), e.s.blockSize);
    forall l, r | 0 <= l < |e.store| && 0 <= r < |p.ids|
      ensures Within(p.writeAt[r], e.store[l]) && Within(p.readAt[r], e.store[l])
    {
      DecodeRowWithin(e, l, r);
    }
  }

  lemma DecodeRowWithin(e: Engine, l: nat, r: nat)
    requires AllReady(e) && r < |e.s.running| && l < |e.store|
    requires forall id | id in e.s.running :: id in e.s.seqs && |e.s.seqs[id].request.prompt| > 0
    requires e.s.blockSize > 0 && DecodeRowsOk(DecodeRows(e, e.s.running), e.Width(), e.s.blockSize)
    ensures var p := DecodePlan(e, e.s.running);
      r < |p.readAt| && r < |p.writeAt| && Within(p.readAt[r], e.store[l]) && Within(p.writeAt[r], e.store[l])
  {
    hide AllReady, Base, Ledger, DecodePlan, DecodeRows, DecodeRowsOk, InPool, CellsExist, Within, BlocksNeeded;
    ReadyBase(e);
    DecodeInPoolRow(e, r);
    var p := DecodePlan(e, e.s.running);
    CellsWithin(e, p.readAt[r], l);
    CellsWithin(e, p.writeAt[r], l);
  }

  lemma DecodeInPoolRow(e: Engine, r: nat)
    requires AllReady(e) && r < |e.s.running|
    requires forall id | id in e.s.running :: id in e.s.seqs && |e.s.seqs[id].request.prompt| > 0
    requires e.s.blockSize > 0 && DecodeRowsOk(DecodeRows(e, e.s.running), e.Width(), e.s.blockSize)
    ensures var p := DecodePlan(e, e.s.running);
      r < |p.readAt| && r < |p.writeAt| && InPool(e.s, p.readAt[r]) && InPool(e.s, p.writeAt[r])
  {
    hide AllReady, Base, Ledger, BlocksNeeded, DecodeReady, Continues, PagedPlan, DecodeBatch;
    ReadyBase(e);
    var ds := DecodeRows(e, e.s.running);
    RowReady(e, e.s.running[r]);
    DecodeAddresses(ds, e.Width(), e.s.blockSize);
    DecodeInPool(ds, e.Width(), e.s.blockSize, e.s.numBlocks, r);
  }

  ghost predicate InPool(s: Sched, cells: seq<Loc>) {
    forall c | 0 <= c < |cells| :: 0 <= cells[c].major < s.numBlocks && 0 <= cells[c].minor < s.blockSize
  }

  lemma CellsWithin(e: Engine, cells: seq<Loc>, l: nat)
    requires CellsExist(e.m, e.store, e.s.numBlocks, e.s.blockSize) && l < |e.store| && InPool(e.s, cells)
    ensures Within(cells, e.store[l])
  {
    forall c | 0 <= c < |cells| ensures cells[c] in e.store[l] {
      assert cells[c] == Loc(cells[c].major, cells[c].minor);
    }
  }

  lemma DecodeIsLegal(e: Engine)
    requires AllReady(e)
    ensures DecodeLegal(e, e.s.running)
  {
    hide AllReady, Fits, DecodePlan, DecodeRowsOk, Base, Ledger, DecodeRows, BlocksNeeded;
    ReadyBase(e);
    RowsReady(e);
    DecodeFits(e);
  }

  /** The plan's columns for one running sequence are the cells of its own tokens. */
  lemma DecodeRowCells(e: Engine, r: nat)
    requires AllReady(e) && DecodeLegal(e, e.s.running) && r < |e.s.running|
    ensures var p := DecodePlan(e, e.s.running);
      var q := e.s.seqs[e.s.running[r]];
      && r < |p.readAt| && q.computed + 1 <= |p.readAt[r]| && r < |p.ids| && |p.ids[r]| == 1
      && (forall c | 0 <= c < q.computed + 1 ::
            c / e.s.blockSize < |q.table| && p.readAt[r][c] == TokenCell(q.table, c, e.s.blockSize))
  {
    hide AllReady, Fits, BlocksNeeded, PagedPlan, DecodeBatch, DecodeRowsOk;
    var ds := DecodeRows(e, e.s.running);
    DecodeAddresses(ds, e.Width(), e.s.blockSize);
    DecodeCells(ds, e.Width(), e.s.blockSize, r);
  }

  lemma HoldsFromCached(m: Model, store: Store, l: nat, q: Seq, cells: seq<Loc>, row: Row, n: nat, bs: nat)
    requires Cached(m, store, q, n, bs) && l < m.nLayer
    requires row.off == 0 && row.toks == q.Tokens() && n <= |cells|
    requires forall c | 0 <= c < n :: c / bs < |q.table| && cells[c] == TokenCell(q.table, c, bs)
    ensures Holds(m, store[l], l, cells, row, n)
  {
    forall c | 0 <= c < n ensures cells[c] in store[l] && store[l][cells[c]] == RefKV(m, row.toks, l)[c] {
      assert HasEntry(m, store[l], q, l, c, bs);
    }
  }

  function Windows(e: Engine): (rows: seq<Row>)
    requires forall id | id in e.s.running :: id in e.s.seqs && |e.s.seqs[id].request.prompt| > 0
    ensures |rows| == |e.s.running| && forall r | 0 <= r < |rows| ::
      rows[r] == Row(e.s.seqs[e.s.running[r]].Tokens(), 0, e.s.seqs[e.s.running[r]].computed)
  {
    DecodeWindows(DecodeRows(e, e.s.running), Histories(e, e.s.running))
  }

  lemma DecodeReads(e: Engine)
    requires AllReady(e) && DecodeLegal(e, e.s.running)
    ensures |DecodePlan(e, e.s.running).readAt| == |e.s.running| == |DecodePlan(e, e.s.running).ids|
  {
    hide AllReady, Fits, BlocksNeeded, PagedPlan, DecodeBatch, DecodeRowsOk;
    DecodeAddresses(DecodeRows(e, e.s.running), e.Width(), e.s.blockSize);
  }

  lemma DecodePrimed(e: Engine)
    requires AllReady(e) && DecodeLegal(e, e.s.running)
    ensures Primed(e.m, e.store, DecodePlan(e, e.s.running), Windows(e))
  {
    hide AllReady, Base, Ledger, DecodePlan, BlocksNeeded, Holds, Cached, Fits, DecodeRowsOk, Windows;
    ReadyBase(e);
    DecodeReads(e);
    var p, rows := DecodePlan(e, e.s.running), Windows(e);
    forall k, r | 0 <= k < |e.store| && 0 <= r < |rows|
      ensures Holds(e.m, e.store[k], k, p.readAt[r], rows[r], rows[r].start)
    {
      var q := e.s.seqs[e.s.running[r]];
      ReadyOne(e, e.s.running[r]);
      DecodeRowCells(e, r);
      HoldsFromCached(e.m, e.store, k, q, p.readAt[r], rows[r], q.computed, e.s.blockSize);
    }
  }

  /** What one decode pass yields for one running sequence. */
  ghost predicate RowDecoded(e: Engine, out: (Store, seq<seq<Vec>>), r: nat)
    requires e.s.blockSize > 0 && r < |e.s.running| && e.s.running[r] in e.s.seqs
  {
    var q := e.s.seqs[e.s.running[r]];
    && r < |out.1| && |out.1[r]| == 1 && |q.Tokens()| > 0
    && Logits(e.m, out, r, 0) == RefLogits(e.m, q.Tokens())
    && Cached(e.m, out.0, q, q.computed + 1, e.s.blockSize)
  }

  lemma RowLogits(m: Model, p: Plan, rows: seq<Row>, out: (Store, seq<seq<Vec>>), r: nat)
    requires Shape(p) && Matches(p, out.1) && |rows| == |p.ids| && r < |rows| && |p.ids[r]| == 1
    requires RightStates(m, m.nLayer, out.1, p, rows)
    requires rows[r].off == 0 && |rows[r].toks| == rows[r].start + 1
    ensures |out.1[r]| == 1 && Logits(m, out, r, 0) == RefLogits(m, rows[r].toks)
  {
    assert DescribesRow(p, r, rows[r]) && RightState(m, m.nLayer, out.1[r], rows[r]);
  }

  lemma RowColumns(m: Model, p: Plan, rows: seq<Row>, store: Store, r: nat)
    requires |store| == m.nLayer && |rows| == |p.ids| == |p.readAt| && r < |rows|
    requires RightColumns(m, store, m.nLayer, p, rows)
    ensures forall l | 0 <= l < m.nLayer :: Holds(m, store[l], l, p.readAt[r], rows[r], rows[r].start + |p.ids[r]|)
  {
  }

  lemma DecodeRow1(e: Engine, out: (Store, seq<seq<Vec>>), r: nat)
    requires AllReady(e) && DecodeLegal(e, e.s.running) && r < |e.s.running|
    requires var p := DecodePlan(e, e.s.running);
      && Shape(p) && Matches(p, out.1) && |p.ids| == |e.s.running| == |p.readAt| && |out.0| == e.m.nLayer
      && RightStates(e.m, e.m.nLayer, out.1, p, Windows(e))
      && RightColumns(e.m, out.0, e.m.nLayer, p, Windows(e))
    ensures Known(e.s) && RowDecoded(e, out, r)
  {
    hide AllReady, Base, Ledger, DecodePlan, BlocksNeeded, Holds, Cached, Fits, DecodeRowsOk, Windows, RightStates,
      RightColumns, Shape, RefLogits;
    ReadyBase(e);
    var q := e.s.seqs[e.s.running[r]];
    var p, rows := DecodePlan(e, e.s.running), Windows(e);
    ReadyOne(e, e.s.running[r]);
    RunningBasics(e, e.s.running[r]);
    DecodeRowCells(e, r);
    RowLogits(e.m, p, rows, out, r);
    RowColumns(e.m, p, rows, out.0, r);
    CachedFromHolds(e.m, out.0, q, p.readAt[r], rows[r], q.computed + 1, e.s.blockSize);
  }

  lemma WindowsDescribe(e: Engine)
    requires AllReady(e) && DecodeLegal(e, e.s.running)
    ensures Describes(DecodePlan(e, e.s.running), Windows(e))
  {
    hide AllReady, Base, Ledger, BlocksNeeded, Fits, DecodeRowsOk, Describes, PagedPlan, DecodeBatch;
    DecodeWindowsDescribe(e);
  }

  /** After the pass every row has the reference's logits and one more token cached. */
  lemma DecodeRun(e: Engine)
    requires AllReady(e) && DecodeLegal(e, e.s.running)
    ensures forall r | 0 <= r < |e.s.running| ::
      RowDecoded(e, Run(e.m, e.store, DecodePlan(e, e.s.running), e.m.nLayer), r)
  {
    hide AllReady, Base, Ledger, DecodePlan, BlocksNeeded, DecodeRowsOk, Windows, Run, RightStates, RightColumns,
      Describes, Primed, RowDecoded, Untouched;
    ReadyBase(e);
    var p, rows := DecodePlan(e, e.s.running), Windows(e);
    DecodeReads(e);
    DecodePrimed(e);
    WindowsDescribe(e);
    RunFaithful(e.m, e.store, p, rows, e.m.nLayer);
    forall r | 0 <= r < |e.s.running| ensures RowDecoded(e, Run(e.m, e.store, p, e.m.nLayer), r) {
      DecodeRow1(e, Run(e.m, e.store, p, e.m.nLayer), r);
    }
  }

  lemma DecodeComputed(e: Engine, e1: Engine, q: Seq)
    requires DecodeReady(e, q) && Cached(e.m, e1.store, q, q.computed + 1, e.s.blockSize)
    requires e1.m == e.m && e1.s.blockSize == e.s.blockSize
    ensures Computed(e1, q.(computed := q.computed + 1))
  {
    CachedComputed(e.m, e1.store, q, q.computed + 1, e.s.blockSize, q.computed + 1);
  }

  lemma DecodePassBase(e: Engine)
    requires AllReady(e) && DecodeLegal(e, e.s.running)
    ensures Base(DecodePass(e, e.s.running).0)
  {
    hide AllReady, Base, Ledger, DecodePlan, DecodeRowsOk, Run, LayerFits, Shape;
    ReadyBase(e);
    CountBase(e, DecodePass(e, e.s.running).0);
  }

  /** The batch holds, for each row still to be sampled, the reference's logits. */
  ghost predicate RightLogits(e: Engine, ids: seq<RequestId>, logits: seq<seq<real>>) {
    && |logits| == |ids|
    && forall r | 0 <= r < |ids| ::
         ids[r] in e.s.seqs && |e.s.seqs[ids[r]].Tokens()| > 0 && logits[r] == RefLogits(e.m, e.s.seqs[ids[r]].Tokens())
  }

  lemma DecodePassPhases(e: Engine)
    requires AllReady(e) && DecodeLegal(e, e.s.running)
    ensures Phases(DecodePass(e, e.s.running).0, [], e.s.running)
    ensures RightLogits(e, e.s.running, DecodePass(e, e.s.running).1)
  {
    hide AllReady, Base, Ledger, DecodePlan, DecodeRowsOk, Fits, Run, Computed, DecodeReady, Cached, RefLogits,
      BlocksNeeded;
    ReadyBase(e);
    DecodeRun(e);
    var ids := e.s.running;
    var e1 := DecodePass(e, ids).0;
    forall id | id in e1.s.running ensures Computed(e1, e1.s.seqs[id]) {
      var r :| 0 <= r < |ids| && ids[r] == id;
      assert RowDecoded(e, Run(e.m, e.store, DecodePlan(e, ids), e.m.nLayer), r);
      ReadyOne(e, id);
      DecodeComputed(e, e1, e.s.seqs[id]);
    }
    var logits := DecodePass(e, ids).1;
    forall r | 0 <= r < |ids|
      ensures ids[r] in e.s.seqs && |e.s.seqs[ids[r]].Tokens()| > 0
      ensures logits[r] == RefLogits(e.m, e.s.seqs[ids[r]].Tokens())
    {
      assert RowDecoded(e, Run(e.m, e.store, DecodePlan(e, ids), e.m.nLayer), r);
    }
  }

  lemma DecodePassMid(e: Engine)
    requires AllReady(e) && DecodeLegal(e, e.s.running)
    ensures Mid(DecodePass(e, e.s.running).0, [], e.s.running)
  {
    hide AllReady, Base, Ledger, DecodePlan, DecodeRowsOk, Fits, Run, Phases, NoDup;
    ReadyBase(e);
    DecodePassBase(e);
    DecodePassPhases(e);
    NoDupEmpty();
  }

  lemma NoDupEmpty()
    ensures NoDup([])
  {
  }
}
