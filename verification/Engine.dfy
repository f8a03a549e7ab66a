/** The engine object: requests in, one synchronous step, outputs out.  Each method performs,
    on the scheduler, the pool and the detokenizers it holds, one transition of the engine
    state machine. */
module EngineObject {
  import opened Wrappers
  import opened Transformer
  import opened Forward
  import opened Utf8
  import opened Tokenizer
  import opened Requests
  import opened Blocks
  import opened PagedCache
  import opened PagedPool
  import opened Scheduling
  import opened SchedulerObject
  import opened Ownership
  import opened Serving
  import opened Refinement
  import opened Stepping

  /** These detokenizer objects, by request id, are in these states; no two share an object. */
  ghost predicate DetoksAre(objects: map<RequestId, IncrementalDetokenizer>, enc: Table, detoks: map<RequestId, Detok>)
    reads objects.Values
  {
    && objects.Keys == detoks.Keys
    && (forall id | id in objects ::
          objects[id].enc == enc && Detok(objects[id].tokenIds, objects[id].emittedText) == detoks[id])
    && (forall a, b | a in objects && b in objects && objects[a] == objects[b] :: a == b)
  }

  ghost predicate OtherDetoks(objects: map<RequestId, IncrementalDetokenizer>, enc: Table,
      detoks: map<RequestId, Detok>, d: IncrementalDetokenizer)
    reads objects.Values - {d}
  {
    && objects.Keys == detoks.Keys
    && (forall id | id in objects :: objects[id].enc == enc)
    && (forall id | id in objects && objects[id] != d ::
          Detok(objects[id].tokenIds, objects[id].emittedText) == detoks[id])
    && (forall a, b | a in objects && b in objects && objects[a] == objects[b] :: a == b)
  }

  lemma DetoksApart(objects: map<RequestId, IncrementalDetokenizer>, enc: Table, detoks: map<RequestId, Detok>,
      id: RequestId)
    requires DetoksAre(objects, enc, detoks) && id in objects
    ensures OtherDetoks(objects, enc, detoks, objects[id]) && id in detoks
    ensures objects[id].enc == enc && detoks[id] == Detok(objects[id].tokenIds, objects[id].emittedText)
  {
  }

  lemma DetoksTogether(objects: map<RequestId, IncrementalDetokenizer>, enc: Table, detoks: map<RequestId, Detok>,
      id: RequestId)
    requires id in objects && OtherDetoks(objects, enc, detoks, objects[id])
    ensures DetoksAre(objects, enc, detoks[id := Detok(objects[id].tokenIds, objects[id].emittedText)])
  {
  }

  lemma DetoksNone(enc: Table)
    ensures DetoksAre(map[], enc, map[])
  {
  }

  lemma DetoksJoin(objects: map<RequestId, IncrementalDetokenizer>, enc: Table, detoks: map<RequestId, Detok>,
      id: RequestId, d: IncrementalDetokenizer)
    requires DetoksAre(objects, enc, detoks) && d !in objects.Values && d.enc == enc
    ensures DetoksAre(objects[id := d], enc, detoks[id := Detok(d.tokenIds, d.emittedText)])
  {
  }

  lemma DetoksDrop(objects: map<RequestId, IncrementalDetokenizer>, enc: Table, detoks: map<RequestId, Detok>,
      id: RequestId)
    requires DetoksAre(objects, enc, detoks)
    ensures DetoksAre(objects - {id}, enc, detoks - {id})
  {
  }

  lemma MoreValues<V>(objects: map<RequestId, V>, id: RequestId, x: V)
    ensures objects[id := x].Values <= objects.Values + {x}
  {
  }

  /** What a token does to its own sequence and detokenizer: their new values, the text delta to
      send, and why the sequence ends here if it does. */
  function Absorbed(enc: Table, q: Seq, d: Detok, tok: Token): (r: (Seq, Detok, string, Option<Reason>))
    ensures r.0.status == q.status && r.0.reason == q.reason && r.0.request == q.request
    ensures r.0.output == q.output + [tok] && r.3 != Some(Cancelled)
  {
    var ids := d.ids + [tok];
    var safe := SafeText(enc, ids);
    var delta := Beyond(safe, d.emitted);
    var q1 := q.(output := q.output + [tok], text := q.text + delta);
    match CheckFinish(q.request, q1.output, q1.text)
    case None => (q1, Detok(ids, safe), delta, None)
    case Some(reason) =>
      var full := FullText(enc, ids);
      var tail := Beyond(full, safe);
      var q2 := q1.(text := q1.text + tail);
      var (cut, hit) := TruncateAtStop(q.request, q2.text, delta + tail);
      (q2, Detok(ids, full), cut, Some(if hit then Stop else reason))
  }

  lemma AdvanceIs(e: Engine, id: RequestId, tok: Token)
    requires Known(e.s) && id in e.s.seqs && id in e.detoks
    ensures var (q, d, delta, why) := Absorbed(e.enc, e.s.seqs[id], e.detoks[id], tok);
      var e' := SetSeq(e, id, q).(detoks := e.detoks[id := d]);
      Advance(e, id, tok) == match why
        case None => (e', RequestOutput(id, [tok], delta, q.status.Finished?, q.reason))
        case Some(reason) =>
          (e'.(s := Scheduling.Finish(e'.s, id, reason)), RequestOutput(id, [tok], delta, true, Some(reason)))
  {
  }

  method Absorb(x: SequenceState, d: IncrementalDetokenizer, tok: Token) returns (delta: string, why: Option<Reason>)
    modifies x, d
    ensures (x.View(), Detok(d.tokenIds, d.emittedText), delta, why)
      == Absorbed(d.enc, old(x.View()), old(Detok(d.tokenIds, d.emittedText)), tok)
  {
    hide CheckFinish, TruncateAtStop, SafeText, FullText, Beyond;
    x.outputTokenIds := x.outputTokenIds + [tok];
    delta := d.AddToken(tok);
    x.detokenizedText := x.detokenizedText + delta;
    var reason := CheckFinish(x.request, x.outputTokenIds, x.detokenizedText);
    if reason == None {
      return delta, None;
    }
    var tail := d.Finalize();
    x.detokenizedText := x.detokenizedText + tail;
    var (cut, hit) := TruncateAtStop(x.request, x.detokenizedText, delta + tail);
    return cut, Some(if hit then Stop else reason.value);
  }

  /** The rows of a batch are known to the engine. */
  ghost predicate AdvanceOk(e: Engine, ids: seq<RequestId>) {
    Known(e.s) && forall id | id in ids :: id in e.s.seqs && id in e.detoks
  }

  lemma AdvanceOkRest(e: Engine, ids: seq<RequestId>, i: nat)
    requires AdvanceOk(e, ids) && i <= |ids|
    ensures AdvanceOk(e, ids[i..])
  {
  }

  lemma AdvanceOkKept(e: Engine, ids: seq<RequestId>, id: RequestId, tok: Token)
    requires AdvanceOk(e, ids) && id in e.s.seqs && id in e.detoks
    ensures AdvanceOk(Advance(e, id, tok).0, ids)
  {
    hide Advance;
  }

  lemma AdvanceAllStep(e: Engine, ids: seq<RequestId>, logits: seq<seq<real>>, i: nat, coin: Coin)
    requires i < |ids| == |logits| && AdvanceOk(e, ids) && AdvanceOk(e, ids[i..])
    ensures ids[i] in e.s.seqs && ids[i] in e.detoks
    ensures var (e1, out) := Advance(e, ids[i], Sampled(e, ids[i], logits[i], coin));
      AdvanceOk(e1, ids[i + 1..]) &&
      var (e2, outs) := AdvanceAll(e1, ids[i + 1..], logits[i + 1..], coin);
      AdvanceAll(e, ids[i..], logits[i..], coin) == (e2, [out] + outs)
  {
    hide Advance;
    assert ids[i..][0] == ids[i] && ids[i..][1..] == ids[i + 1..];
    assert logits[i..][0] == logits[i] && logits[i..][1..] == logits[i + 1..];
  }

  lemma AdvanceAllDone(e: Engine, ids: seq<RequestId>, logits: seq<seq<real>>, coin: Coin)
    requires AdvanceOk(e, ids) && |ids| == |logits|
    ensures AdvanceAll(e, ids[|ids|..], logits[|ids|..], coin) == (e, [])
  {
  }

  lemma PrefillOneRow(e: Engine, id: RequestId)
    requires PrefillLegal(e, id)
    ensures e.s.blockSize > 0 && id in e.s.seqs && |e.s.seqs[id].Tokens()| > 0
    ensures BlocksNeeded(|e.s.seqs[id].Tokens()|, e.s.blockSize) <= |e.s.seqs[id].table|
    ensures var p := PrefillPlan(e, id); Fits(e.m, e.store, p) && |p.ids| == 1 && p.ids[0] == e.s.seqs[id].Tokens()
    ensures forall out: (Store, seq<seq<Vec>>) :: Shape(PrefillPlan(e, id)) && Matches(PrefillPlan(e, id), out.1) ==>
      |out.1| == 1 && |out.1[0]| == |e.s.seqs[id].Tokens()|
  {
  }

  lemma PrefillOneIs(e: Engine, id: RequestId, coin: Coin)
    requires PrefillLegal(e, id)
    ensures var (e1, logits) := PrefillPass(e, id);
      Serving.PrefillOne(e, id, coin) == Some(Advance(e1, id, Sampled(e1, id, logits, coin)))
  {
  }

  lemma PrefillAllStep(e: Engine, ids: seq<RequestId>, i: nat, coin: Coin)
    requires i < |ids| && PrefillAll(e, ids[i..], coin).Some?
    ensures PrefillLegal(e, ids[i]) && Serving.PrefillOne(e, ids[i], coin).Some?
    ensures var (e1, out) := Serving.PrefillOne(e, ids[i], coin).value;
      && PrefillAll(e1, ids[i + 1..], coin).Some?
      && PrefillAll(e, ids[i..], coin).value.0 == PrefillAll(e1, ids[i + 1..], coin).value.0
      && PrefillAll(e, ids[i..], coin).value.1 == [out] + PrefillAll(e1, ids[i + 1..], coin).value.1
  {
    hide PrefillLegal, PrefillPass, Advance, Sampled;
    assert ids[i..][0] == ids[i] && ids[i..][1..] == ids[i + 1..];
  }

  lemma PrefillAllDone(e: Engine, ids: seq<RequestId>, coin: Coin)
    ensures PrefillAll(e, ids[|ids|..], coin) == Some((e, []))
  {
  }

  ghost predicate Distinct(batch: seq<SequenceState>) {
    forall i, j | 0 <= i < j < |batch| :: batch[i] != batch[j]
  }

  function RowsOf(batch: seq<SequenceState>): (ds: seq<DecodeRow>)
    requires forall x | x in batch :: x.request.prompt != []
    reads batch
    ensures |ds| == |batch|
    ensures forall r | 0 <= r < |ds| ::
      ds[r] == DecodeRow(batch[r].LastTokenId(), batch[r].numComputedTokens, batch[r].blockTable)
  {
    seq(|batch|, r requires 0 <= r < |batch| && batch[r].request.prompt != [] reads batch =>
      DecodeRow(batch[r].LastTokenId(), batch[r].numComputedTokens, batch[r].blockTable))
  }

  lemma DecodePassIs(e: Engine, ids: seq<RequestId>)
    requires DecodeLegal(e, ids)
    ensures DecodeRowsOk(DecodeRows(e, ids), e.Width(), e.s.blockSize) && Fits(e.m, e.store, DecodePlan(e, ids))
    ensures DecodePlan(e, ids) == PagedPlan(DecodeBatch(DecodeRows(e, ids), e.Width(), e.s.blockSize), e.s.blockSize)
    ensures var out := Run(e.m, e.store, DecodePlan(e, ids), e.m.nLayer);
      DecodePass(e, ids) == (e.(store := out.0, s := e.s.(seqs := CountComputed(e.s.seqs, ids))), FirstLogits(e.m, out))
  {
  }

  lemma CountComputedStep(seqs: map<RequestId, Seq>, ids: seq<RequestId>, i: nat)
    requires i < |ids| && ids[i] in CountComputed(seqs, ids[..i]) && ids[i] !in ids[..i]
    ensures ids[..i + 1] == ids[..i] + [ids[i]]
    ensures CountComputed(seqs, ids[..i + 1]) ==
      CountComputed(seqs, ids[..i])[ids[i] := seqs[ids[i]].(computed := seqs[ids[i]].computed + 1)]
    ensures CountComputed(seqs, ids[..i])[ids[i]] == seqs[ids[i]]
  {
    assert ids[..i + 1] == ids[..i] + [ids[i]];
  }

  function FirstHeads(m: Model, xs: seq<seq<Vec>>): (r: seq<seq<real>>)
    ensures |r| == |xs|
  {
    seq(|xs|, i requires 0 <= i < |xs| => if |xs[i]| > 0 then m.head(xs[i][0]) else [])
  }

  lemma HeadsAre(m: Model, out: (Store, seq<seq<Vec>>))
    ensures FirstHeads(m, out.1) == FirstLogits(m, out)
  {
  }

  lemma CountComputedNone(seqs: map<RequestId, Seq>)
    ensures CountComputed(seqs, []) == seqs
  {
  }

  /** Each sequence of the batch has one more token in the cache. */
  method CountOne(scheduler: Scheduler, batch: seq<SequenceState>)
    requires scheduler.Valid() && scheduler.AllHave(batch) && Distinct(batch)
    modifies scheduler`view, batch
    ensures scheduler.Valid()
    ensures scheduler.view == old(scheduler.view).(seqs := CountComputed(old(scheduler.view.seqs), Ids(batch)))
  {
    hide InStates, Scheduler.Has, Scheduler.AllHave, Scheduler.Valid, CountComputed, Distinct, Ids;
    ghost var before, ids := scheduler.view, Ids(batch);
    CountComputedNone(before.seqs);
    assert ids[..0] == [] && before.(seqs := before.seqs) == before;
    for i := 0 to |batch|
      invariant scheduler.Valid() && scheduler.view == before.(seqs := CountComputed(before.seqs, ids[..i]))
    {
      CountNext(scheduler, batch, i, before);
    }
    assert ids[..|batch|] == ids;
  }

  method CountNext(scheduler: Scheduler, batch: seq<SequenceState>, i: nat, ghost before: Sched)
    requires scheduler.Valid() && scheduler.AllHave(batch) && Distinct(batch) && i < |batch| == |Ids(batch)|
    requires scheduler.view == before.(seqs := CountComputed(before.seqs, Ids(batch)[..i]))
    modifies scheduler`view, batch[i]
    ensures scheduler.Valid()
    ensures scheduler.view == before.(seqs := CountComputed(before.seqs, Ids(batch)[..i + 1]))
  {
    hide InStates, Scheduler.AllHave, Scheduler.Valid, CountComputed, Distinct, Ids, Scheduler.Has, SequenceState.View;
    scheduler.HasAt(batch, batch[i]);
    NewId(scheduler, batch, i);
    CountMore(scheduler, batch[i]);
    CountComputedStep(before.seqs, Ids(batch), i);
  }

  method CountMore(scheduler: Scheduler, x: SequenceState)
    requires scheduler.Valid() && scheduler.Has(x)
    modifies scheduler`view, x
    ensures scheduler.Valid() && x.request.id in old(scheduler.view).seqs
    ensures var q := old(scheduler.view).seqs[x.request.id];
      var seqs := old(scheduler.view).seqs[x.request.id := q.(computed := q.computed + 1)];
      scheduler.view == old(scheduler.view).(seqs := seqs)
  {
    hide InStates, Scheduler.Has, Scheduler.Others, Scheduler.Pool, Scheduler.Fields, Scheduler.AllHave,
      Scheduler.Valid;
    scheduler.Unpack();
    scheduler.Apart(x);
    CountTo(scheduler, x, x.numComputedTokens + 1);
  }

  method CountTo(scheduler: Scheduler, x: SequenceState, n: nat)
    requires scheduler.Valid() && scheduler.Has(x)
    modifies scheduler`view, x
    ensures scheduler.Valid() && x.request.id in old(scheduler.view).seqs
    ensures var q := old(scheduler.view).seqs[x.request.id];
      scheduler.view == old(scheduler.view).(seqs := old(scheduler.view).seqs[x.request.id := q.(computed := n)])
  {
    hide InStates, Scheduler.Has, Scheduler.Others, Scheduler.Pool, Scheduler.Fields, Scheduler.AllHave,
      Scheduler.Valid;
    ghost var seqs := scheduler.view.seqs;
    scheduler.Unpack();
    scheduler.Apart(x);
    x.SetComputed(n);
    scheduler.Resync(x, seqs);
  }

  lemma NewId(scheduler: Scheduler, batch: seq<SequenceState>, i: nat)
    requires scheduler.Valid() && scheduler.AllHave(batch) && Distinct(batch) && i < |batch|
    ensures Ids(batch)[i] !in Ids(batch)[..i]
  {
    forall j | 0 <= j < i ensures Ids(batch)[j] != Ids(batch)[i] {
      scheduler.HasAt(batch, batch[i]);
      scheduler.HasAt(batch, batch[j]);
    }
  }

  /** What the state machine guarantees about a step from a good state. */
  lemma StepFacts(e: Engine, coin: Coin)
    requires Inv(e)
    ensures Known(e.s) && Serving.Step(e, coin).Some? && Inv(Serving.Step(e, coin).value.0)
    ensures var (s1, batch, prefill) := Scheduling.Schedule(e.s);
      batch != [] ==>
        && (prefill ==> PrefillAll(e.(s := s1), batch, coin).Some?)
        && (!prefill ==>
              var s2 := EnsureCapacity(s1, s1.running);
              s2.running != [] ==> DecodeLegal(e.(s := s2), s2.running) && NoDup(s2.running))
  {
    hide Inv, Scheduling.Schedule, EnsureCapacity, PrefillAll, DecodeLegal, AdvanceAll, Shown;
    InvBase(e);
    StepRefines(e, coin, map id | id in e.s.seqs :: (e.s.seqs[id].output, Shown(e.enc, e.s.seqs[id])));
    var (s1, batch, prefill) := Scheduling.Schedule(e.s);
    if batch != [] && !prefill {
      ScheduleIdle(e.s);
      if EnsureCapacity(s1, s1.running).running != [] {
        RoomReady(e);
        ReadyBase(Roomy(e));
      }
    }
  }

  class LLMEngine {
    const m: Model
    const enc: Table
    const scheduler: Scheduler
    const cache: PagedKVCache
    var detokenizers: map<RequestId, IncrementalDetokenizer>
    ghost var detoks: map<RequestId, Detok>

    ghost function Repr(): set<object>
      reads this, scheduler
    {
      {this, cache, cache.kPool, cache.vPool} + scheduler.Repr() + detokenizers.Values
    }

    ghost predicate Valid()
      reads this, scheduler, scheduler.blockManager, scheduler.known.Values, cache, cache.kPool, cache.vPool
      reads detokenizers.Values
    {
      && scheduler.Valid() && cache.Valid()
      && cache.nLayer == m.nLayer
      && DetoksAre(detokenizers, enc, detoks)
    }

    ghost function View(): Engine
      reads this, scheduler, cache
    {
      Engine(m, enc, scheduler.view, cache.view, detoks)
    }

    constructor (m: Model, enc: Table, numBlocks: nat, blockSize: nat, maxBatchSize: nat)
      requires blockSize > 0
      ensures Valid() && fresh(Repr()) && this.m == m && this.enc == enc && detokenizers == map[]
      ensures View().s == Sched(numBlocks, blockSize, maxBatchSize, seq(numBlocks, i => i), [], [], map[], 0)
      ensures View().detoks == map[] && View().store == ZeroStore(m.nLayer, numBlocks, blockSize)
    {
      hide InStates, DetoksAre, PagedKVCache.Valid, SequenceState.View, Scheduler.Valid, Known, ZeroStore;
      this.m, this.enc := m, enc;
      cache := new PagedKVCache(m.nLayer, numBlocks, blockSize);
      var blocks := new BlockManager(numBlocks, blockSize);
      scheduler := new Scheduler(blocks, maxBatchSize);
      detokenizers := map[];
      detoks := map[];
      new;
      DetoksNone(enc);
    }

    /** Queue a request, unless it asks for several completions or could outgrow the position table. */
    method AddRequest(r: Request) returns (ok: bool)
      requires Valid() && r.id !in scheduler.known
      modifies this, scheduler
      ensures Valid() && ok == Serving.AddRequest(old(View()), r).Some?
      ensures View() == if ok then Serving.AddRequest(old(View()), r).value else old(View())
      ensures fresh(Repr() - old(Repr()))
    {
      hide InStates, DetoksAre, Scheduler.Valid, PagedKVCache.Valid, Scheduling.Add;
      if r.n != 1 || |r.prompt| > m.blockSize || |r.prompt| + r.maxTokens > m.blockSize {
        return false;
      }
      Enqueue(r);
      ok := true;
    }

    method Enqueue(r: Request)
      requires Valid() && r.id !in scheduler.known
      modifies this, scheduler
      ensures Valid()
      ensures fresh(scheduler.known.Values - old(scheduler.known.Values))
      ensures fresh(detokenizers.Values - old(detokenizers.Values))
      ensures var e := old(View());
        View() == e.(s := Scheduling.Add(e.s, r), detoks := e.detoks[r.id := Detok([], "")])
    {
      hide InStates, SequenceState.View, DetoksAre, Scheduler.Valid, PagedKVCache.Valid, Scheduling.Add, Repr,
        Scheduler.Repr;
      OpenDetokenizer(r.id);
      var x := new SequenceState(r);
      MoreValues(scheduler.known, r.id, x);
      scheduler.AddRequest(x);
    }

    method OpenDetokenizer(id: RequestId)
      requires DetoksAre(detokenizers, enc, detoks)
      modifies this`detokenizers, this`detoks
      ensures DetoksAre(detokenizers, enc, detoks) && detoks == old(detoks)[id := Detok([], "")]
      ensures fresh(detokenizers.Values - old(detokenizers.Values))
    {
      hide DetoksAre, IncrementalDetokenizer.Streaming;
      var d := new IncrementalDetokenizer(enc);
      DetoksJoin(detokenizers, enc, detoks, id, d);
      MoreValues(detokenizers, id, d);
      detokenizers := detokenizers[id := d];
      detoks := detoks[id := Detok([], "")];
    }

    predicate HasUnfinishedRequests(): (unfinished: bool)
      requires Valid()
      reads this, scheduler, scheduler.blockManager, scheduler.known.Values, cache, cache.kPool, cache.vPool
      reads detokenizers.Values
      ensures unfinished <==> View().s.waiting != [] || View().s.running != []
    {
      scheduler.HasWork()
    }

    method CancelRequest(id: RequestId) returns (found: bool)
      requires Valid()
      modifies this, scheduler, scheduler.blockManager, scheduler.known.Values
      ensures Valid() && Known(old(View()).s)
      ensures (View(), found) == Serving.CancelRequest(old(View()), id)
      ensures scheduler.known == old(scheduler.known) && detokenizers == old(detokenizers) - {id}
    {
      hide InStates, DetoksAre, Scheduler.Valid, PagedKVCache.Valid, Cancel, Known, Scheduler.Has, Repr, Scheduler.Repr;
      CloseDetokenizer(id);
      found := scheduler.CancelById(id);
    }

    method CloseDetokenizer(id: RequestId)
      requires DetoksAre(detokenizers, enc, detoks)
      modifies this`detokenizers, this`detoks
      ensures DetoksAre(detokenizers, enc, detoks)
      ensures detokenizers == old(detokenizers) - {id} && detoks == old(detoks) - {id}
    {
      hide DetoksAre;
      DetoksDrop(detokenizers, enc, detoks, id);
      detokenizers := detokenizers - {id};
      detoks := detoks - {id};
    }

    /** The token goes into its sequence and detokenizer; nothing is retired yet. */
    method Take(x: SequenceState, tok: Token) returns (delta: string, why: Option<Reason>)
      requires Valid() && scheduler.Has(x) && x.request.id in detokenizers
      modifies this`detoks, scheduler`view, x, detokenizers[x.request.id]
      ensures Valid() && x.request.id in old(View()).s.seqs && x.request.id in old(detoks)
      ensures var e, id := old(View()), x.request.id;
        var (q, d, text, reason) := Absorbed(enc, e.s.seqs[id], e.detoks[id], tok);
        && delta == text && why == reason && x.View() == q
        && View() == SetSeq(e, id, q).(detoks := e.detoks[id := d])
    {
      hide InStates, DetoksAre, Absorbed, Known, SequenceState.View, Scheduler.Has,
        Scheduler.Others, Scheduler.Pool, Scheduler.Fields, Scheduler.AllHave, Scheduler.Valid, PagedKVCache.Valid;
      ghost var seqs := scheduler.view.seqs;
      scheduler.Unpack();
      scheduler.Apart(x);
      delta, why := Detokenize(x, tok);
      scheduler.Resync(x, seqs);
    }

    method Detokenize(x: SequenceState, tok: Token) returns (delta: string, why: Option<Reason>)
      requires DetoksAre(detokenizers, enc, detoks) && x.request.id in detokenizers
      modifies this`detoks, x, detokenizers[x.request.id]
      ensures DetoksAre(detokenizers, enc, detoks) && x.request.id in old(detoks)
      ensures var (q, d, text, reason) := Absorbed(enc, old(x.View()), old(detoks)[x.request.id], tok);
        delta == text && why == reason && x.View() == q && detoks == old(detoks)[x.request.id := d]
    {
      hide DetoksAre, OtherDetoks, Absorbed, SequenceState.View;
      var id := x.request.id;
      var d := detokenizers[id];
      ghost var dts := detoks;
      DetoksApart(detokenizers, enc, detoks, id);
      delta, why := Absorb(x, d, tok);
      detoks := dts[id := Detok(d.tokenIds, d.emittedText)];
      DetoksTogether(detokenizers, enc, dts, id);
    }

    /** One sampled token into its sequence: detokenize, check the stopping rule, retire if done. */
    method AdvanceOne(x: SequenceState, tok: Token) returns (out: RequestOutput)
      requires Valid() && scheduler.Has(x) && x.request.id in detokenizers
      modifies this`detoks, scheduler, scheduler.blockManager, x, detokenizers[x.request.id]
      ensures Valid() && scheduler.known == old(scheduler.known)
      ensures Known(old(View()).s) && x.request.id in old(View()).s.seqs && x.request.id in old(View()).detoks
      ensures (View(), out) == Advance(old(View()), x.request.id, tok)
    {
      hide InStates, DetoksAre, Absorbed, Advance, Scheduling.Finish, Known, Scheduler.Has, Scheduler.Valid,
        PagedKVCache.Valid;
      scheduler.Unpack();
      ghost var e := View();
      var delta, why := Take(x, tok);
      AdvanceIs(e, x.request.id, tok);
      if why.Some? {
        scheduler.Finish(x, why.value);
      }
      out := RequestOutput(x.request.id, [tok], delta, x.status == Finished, x.finishReason);
    }

    /** Sample one row of a batch. */
    method SampleRow(batch: seq<SequenceState>, i: nat, logits: seq<real>, coin: Coin) returns (out: RequestOutput)
      requires Valid() && scheduler.AllHave(batch) && i < |batch| == |Ids(batch)| && AdvanceOk(View(), Ids(batch))
      modifies this`detoks, scheduler, scheduler.blockManager, scheduler.known.Values, detokenizers.Values
      ensures Valid() && scheduler.known == old(scheduler.known) && AdvanceOk(View(), Ids(batch))
      ensures Known(old(View()).s) && Ids(batch)[i] in old(View()).s.seqs && Ids(batch)[i] in old(View()).detoks
      ensures (View(), out) == Advance(old(View()), Ids(batch)[i], Sampled(old(View()), Ids(batch)[i], logits, coin))
    {
      hide Advance, Sampled, InStates, DetoksAre, Known, Scheduler.Has, Scheduler.Valid, PagedKVCache.Valid,
        SequenceState.View, View;
      var x := batch[i];
      scheduler.HasAt(batch, x);
      InBatch(batch, i);
      SampledIs(x, logits, coin);
      ghost var before := View();
      var tok := if x.request.Greedy() then Greedy(m, logits) else coin(x.request.id);
      out := AdvanceOne(x, tok);
      AdvanceOkKept(before, Ids(batch), x.request.id, tok);
    }

    /** Sample the rows of a batch in order. */
    method SampleAndAdvance(batch: seq<SequenceState>, logits: seq<seq<real>>, coin: Coin)
      returns (outs: seq<RequestOutput>)
      requires Valid() && scheduler.AllHave(batch) && |logits| == |batch|
      requires forall id | id in Ids(batch) :: id in detokenizers
      modifies this`detoks, scheduler, scheduler.blockManager, scheduler.known.Values, detokenizers.Values
      ensures Valid() && scheduler.known == old(scheduler.known) && AdvanceOk(old(View()), Ids(batch))
      ensures (View(), outs) == AdvanceAll(old(View()), Ids(batch), logits, coin)
    {
      hide AdvanceAll, Advance, Sampled, InStates, DetoksAre, Known, Scheduler.Has, Scheduler.Valid, PagedKVCache.Valid,
        SequenceState.View, View;
      ghost var ids, start := Ids(batch), View();
      BatchOk(batch);
      AdvanceOkRest(start, ids, 0);
      outs := [];
      assert ids[0..] == ids && logits[0..] == logits;
      assert [] + AdvanceAll(start, ids, logits, coin).1 == AdvanceAll(start, ids, logits, coin).1;
      for i := 0 to |batch|
        invariant Valid() && scheduler.known == old(scheduler.known)
        invariant AdvanceOk(View(), ids) && AdvanceOk(View(), ids[i..]) && AdvanceOk(start, ids)
        invariant AdvanceAll(start, ids, logits, coin).0 == AdvanceAll(View(), ids[i..], logits[i..], coin).0
        invariant AdvanceAll(start, ids, logits, coin).1 == outs + AdvanceAll(View(), ids[i..], logits[i..], coin).1
      {
        AdvanceAllStep(View(), ids, logits, i, coin);
        var out := SampleRow(batch, i, logits[i], coin);
        AdvanceOkRest(View(), ids, i + 1);
        ghost var rest := AdvanceAll(View(), ids[i + 1..], logits[i + 1..], coin).1;
        assert outs + ([out] + rest) == (outs + [out]) + rest;
        outs := outs + [out];
      }
      AdvanceAllDone(View(), ids, logits, coin);
      assert outs + [] == outs;
    }

    lemma BatchOk(batch: seq<SequenceState>)
      requires Valid() && scheduler.AllHave(batch) && forall id | id in Ids(batch) :: id in detokenizers
      ensures AdvanceOk(View(), Ids(batch))
    {
      scheduler.Unpack();
      forall i | 0 <= i < |batch| ensures Ids(batch)[i] in View().s.seqs {
        scheduler.HasAt(batch, batch[i]);
      }
    }

    lemma InBatch(batch: seq<SequenceState>, i: nat)
      requires i < |batch| && Valid() && scheduler.AllHave(batch) && AdvanceOk(View(), Ids(batch))
      ensures batch[i].request.id == Ids(batch)[i] && Ids(batch)[i] in detokenizers
      ensures batch[i] in scheduler.known.Values
      ensures detokenizers[Ids(batch)[i]] in detokenizers.Values
    {
      assert Ids(batch)[i] in Ids(batch);
      scheduler.HasAt(batch, batch[i]);
    }

    lemma SampledIs(x: SequenceState, logits: seq<real>, coin: Coin)
      requires Valid() && scheduler.Has(x)
      ensures x.request.id in View().s.seqs
      ensures Sampled(View(), x.request.id, logits, coin) ==
        if x.request.Greedy() then Greedy(m, logits) else coin(x.request.id)
    {
      scheduler.Unpack();
      scheduler.Apart(x);
    }

    /** All tokens of a sequence through the model into its own blocks. */
    method PrefillForward(x: SequenceState) returns (logits: seq<real>)
      requires Valid() && scheduler.Has(x) && PrefillLegal(View(), x.request.id)
      modifies scheduler`view, x, cache, cache.kPool, cache.vPool
      ensures Valid() && PrefillLegal(old(View()), x.request.id)
      ensures (View(), logits) == PrefillPass(old(View()), x.request.id)
    {
      hide InStates, DetoksAre, Run, Fits, Shape, Known, PagedPlan, PrefillBatch, BlocksNeeded, SequenceState.View,
        Scheduler.Has, Repr, Scheduler.Repr, Scheduler.Others, Scheduler.Pool, Scheduler.Fields, Scheduler.AllHave,
        Scheduler.Valid, PagedKVCache.Valid;
      ghost var e := View();
      scheduler.Unpack();
      scheduler.Apart(x);
      var toks, bs := x.Tokens(), scheduler.blockManager.blockSize;
      var p := PagedPlan(PrefillBatch(toks, x.Table(), BlocksNeeded(m.blockSize, bs), bs), bs);
      PrefillOneRow(e, x.request.id);
      var xs := ForwardPaged(m, p, cache);
      CountTo(scheduler, x, |toks|);
      logits := m.head(xs[0][|toks| - 1]);
    }

    method PrefillOne(x: SequenceState, coin: Coin) returns (out: RequestOutput)
      requires Valid() && scheduler.Has(x) && PrefillLegal(View(), x.request.id)
      modifies this`detoks, scheduler, scheduler.blockManager, x, cache, cache.kPool, cache.vPool, detokenizers.Values
      ensures Valid() && scheduler.known == old(scheduler.known)
      ensures Some((View(), out)) == Serving.PrefillOne(old(View()), x.request.id, coin)
    {
      hide PrefillPass, PrefillLegal, Advance, Sampled, InStates, DetoksAre, Known, Scheduler.Has, Scheduler.Valid,
        PagedKVCache.Valid, SequenceState.View;
      PrefillNamed(x);
      PrefillOneIs(View(), x.request.id, coin);
      var logits := PrefillForward(x);
      SampledIs(x, logits, coin);
      out := AdvanceOne(x, if x.request.Greedy() then Greedy(m, logits) else coin(x.request.id));
    }

    lemma PrefillNamed(x: SequenceState)
      requires Valid() && PrefillLegal(View(), x.request.id)
      ensures x.request.id in detokenizers && detokenizers[x.request.id] in detokenizers.Values
    {
    }

    /** A freshly admitted batch, one sequence after the other. */
    method PrefillBatchOf(batch: seq<SequenceState>, coin: Coin) returns (outs: seq<RequestOutput>)
      requires Valid() && scheduler.AllHave(batch) && PrefillAll(View(), Ids(batch), coin).Some?
      modifies this`detoks, scheduler, scheduler.blockManager, scheduler.known.Values, cache, cache.kPool
      modifies cache.vPool, detokenizers.Values
      ensures Valid() && scheduler.known == old(scheduler.known)
      ensures (View(), outs) == PrefillAll(old(View()), Ids(batch), coin).value
    {
      hide PrefillAll, Serving.PrefillOne, PrefillLegal, InStates, DetoksAre, Scheduler.Has, Scheduler.Valid,
        PagedKVCache.Valid, SequenceState.View, View;
      ghost var ids, start := Ids(batch), View();
      outs := [];
      assert ids[0..] == ids;
      assert [] + PrefillAll(start, ids, coin).value.1 == PrefillAll(start, ids, coin).value.1;
      for i := 0 to |batch|
        invariant Valid() && scheduler.known == old(scheduler.known)
        invariant PrefillAll(View(), ids[i..], coin).Some?
        invariant PrefillAll(start, ids, coin).value.0 == PrefillAll(View(), ids[i..], coin).value.0
        invariant PrefillAll(start, ids, coin).value.1 == outs + PrefillAll(View(), ids[i..], coin).value.1
      {
        var x := batch[i];
        scheduler.HasAt(batch, x);
        scheduler.InRepr(x);
        PrefillAllStep(View(), ids, i, coin);
        var out := PrefillOne(x, coin);
        ghost var rest := PrefillAll(View(), ids[i + 1..], coin).value.1;
        assert outs + ([out] + rest) == (outs + [out]) + rest;
        outs := outs + [out];
      }
      PrefillAllDone(View(), ids, coin);
      assert outs + [] == outs;
    }

    lemma RowIs(batch: seq<SequenceState>, i: nat)
      requires Valid() && scheduler.AllHave(batch) && i < |batch|
      ensures Ids(batch)[i] in View().s.seqs && View().s.seqs[Ids(batch)[i]] == batch[i].View()
    {
      hide InStates, DetoksAre, PagedKVCache.Valid, Scheduler.Valid, Scheduler.Has;
      scheduler.Unpack();
      scheduler.HasAt(batch, batch[i]);
      scheduler.Apart(batch[i]);
    }

    lemma RowsAre(batch: seq<SequenceState>)
      requires Valid() && scheduler.AllHave(batch) && DecodeLegal(View(), Ids(batch))
      ensures forall x | x in batch :: x.request.prompt != []
      ensures RowsOf(batch) == DecodeRows(View(), Ids(batch))
    {
      hide Fits, DecodeRowsOk, DecodePlan, Valid, Scheduler.AllHave;
      forall i | 0 <= i < |batch|
        ensures batch[i].request.prompt != []
        ensures Ids(batch)[i] in View().s.seqs && View().s.seqs[Ids(batch)[i]] == batch[i].View()
      {
        RowIs(batch, i);
        assert Ids(batch)[i] in Ids(batch);
      }
    }

    /** The last token of every running sequence through the model, each into its own block. */
    method DecodeForward(batch: seq<SequenceState>) returns (logits: seq<seq<real>>)
      requires Valid() && scheduler.AllHave(batch) && Distinct(batch) && DecodeLegal(View(), Ids(batch))
      modifies scheduler`view, batch, cache, cache.kPool, cache.vPool
      ensures Valid() && DecodeLegal(old(View()), Ids(batch))
      ensures (View(), logits) == DecodePass(old(View()), Ids(batch))
    {
      hide InStates, DetoksAre, Run, Fits, Shape, Known, PagedPlan, DecodeBatch, BlocksNeeded, SequenceState.View,
        Scheduler.Has, Scheduler.Others, Scheduler.Pool, Scheduler.Fields, Scheduler.AllHave, Scheduler.Valid,
        PagedKVCache.Valid, DecodeRowsOk;
      ghost var e := View();
      scheduler.Unpack();
      var bs := scheduler.blockManager.blockSize;
      RowsAre(batch);
      var ds := RowsOf(batch);
      DecodePassIs(e, Ids(batch));
      var p := PagedPlan(DecodeBatch(ds, BlocksNeeded(m.blockSize, bs), bs), bs);
      var xs := ForwardPaged(m, p, cache);
      HeadsAre(m, (cache.view, xs));
      logits := FirstHeads(m, xs);
      CountOne(scheduler, batch);
    }

    /** The decode of a batch. */
    method RunDecode(batch: seq<SequenceState>, coin: Coin) returns (outs: seq<RequestOutput>)
      requires Valid() && scheduler.AllHave(batch) && Distinct(batch) && DecodeLegal(View(), Ids(batch))
      modifies this`detoks, scheduler, scheduler.blockManager, scheduler.known.Values, cache, cache.kPool
      modifies cache.vPool, detokenizers.Values
      ensures Valid() && scheduler.known == old(scheduler.known)
      ensures Some((View(), outs)) == DecodeBatchStep(old(View()), Ids(batch), coin)
    {
      hide DecodeLegal, DecodePass, AdvanceAll, InStates, DetoksAre, Scheduler.Has, Scheduler.Valid,
        PagedKVCache.Valid, SequenceState.View, View;
      DecodeNamed(batch);
      var logits := DecodeForward(batch);
      outs := SampleAndAdvance(batch, logits, coin);
    }

    lemma DecodeNamed(batch: seq<SequenceState>)
      requires Valid() && scheduler.AllHave(batch) && DecodeLegal(View(), Ids(batch))
      ensures forall id | id in Ids(batch) :: id in detokenizers
      ensures forall x | x in batch :: x in scheduler.known.Values
    {
      forall x | x in batch ensures x in scheduler.known.Values {
        scheduler.HasAt(batch, x);
        scheduler.InRepr(x);
      }
    }

    lemma RunningDistinct()
      requires Valid() && NoDup(scheduler.view.running)
      ensures Distinct(scheduler.running) && scheduler.AllHave(scheduler.running)
    {
      forall i, j | 0 <= i < j < |scheduler.running| ensures scheduler.running[i] != scheduler.running[j] {
        assert scheduler.view.running[i] != scheduler.view.running[j];
      }
    }

    /** One synchronous step.  Started in a state the engine can be in, it never fails, and its
        outputs and the state it leaves are those of the state machine. */
    method Step(coin: Coin) returns (outs: seq<RequestOutput>)
      requires Valid() && Inv(View())
      modifies Repr()
      ensures Valid() && Known(old(View()).s) && Inv(View())
      ensures Some((View(), outs)) == Serving.Step(old(View()), coin)
      ensures scheduler.known == old(scheduler.known) && detokenizers == old(detokenizers)
    {
      hide Scheduling.Schedule, EnsureCapacity, DecodeLegal, DecodeBatchStep, PrefillAll, Inv, InStates, DetoksAre,
        Scheduler.Has, PagedKVCache.Valid, SequenceState.View, Scheduler.Sequences, Scheduler.Pool;
      ghost var e := View();
      StepFacts(e, coin);
      scheduler.Unpack();
      var batch, isPrefill := scheduler.Schedule();
      if batch == [] {
        return [];
      }
      if isPrefill {
        outs := PrefillBatchOf(batch, coin);
        return;
      }
      scheduler.EnsureCapacityForDecodeStep();
      if scheduler.running == [] {
        return [];
      }
      RunningDistinct();
      outs := RunDecode(scheduler.running, coin);
    }
  }
}

