/** What one engine step emits: an output for each request that ran, and nothing else. */
module Emission {
  import opened Wrappers
  import opened Transformer
  import opened Forward
  import opened Tokenizer
  import opened Requests
  import opened Blocks
  import opened PagedCache
  import opened Scheduling
  import opened Ownership
  import opened Capacity
  import opened Serving
  import opened Refinement
  import opened Stepping
  import opened EngineObject

  predicate Live(e: Engine, id: RequestId) {
    id in e.s.seqs && e.s.seqs[id].status != Finished
  }

  predicate EndsIn(outs: seq<RequestOutput>, id: RequestId) {
    exists i | 0 <= i < |outs| :: outs[i].id == id && outs[i].finished
  }

  /** The tokens the outputs carry for one request. */
  function TokensFor(outs: seq<RequestOutput>, id: RequestId): seq<Token> {
    if outs == [] then []
    else (if outs[0].id == id then outs[0].tokens else []) + TokensFor(outs[1..], id)
  }

  /** A request gains the tokens of its outputs, and ends exactly if one of them says so. */
  ghost predicate Gains(q: Seq, q': Seq, outs: seq<RequestOutput>, id: RequestId) {
    && q'.request == q.request && q'.output == q.output + TokensFor(outs, id)
    && (q'.status == Finished <==> q.status == Finished || EndsIn(outs, id))
    && (q'.reason == Some(Cancelled) ==> q.reason == Some(Cancelled))
  }

  ghost predicate SameShape(e: Engine, e': Engine) {
    && e'.m == e.m && e'.enc == e.enc && e'.s.seqs.Keys == e.s.seqs.Keys
    && e'.s.numBlocks == e.s.numBlocks && e'.s.blockSize == e.s.blockSize && e'.s.maxBatch == e.s.maxBatch
  }

  /** One output of one token for each of ids, in order, and every request gains just its own. */
  ghost predicate Emits(e: Engine, e': Engine, ids: seq<RequestId>, outs: seq<RequestOutput>) {
    && |outs| == |ids| && (forall i | 0 <= i < |ids| :: outs[i].id == ids[i] && |outs[i].tokens| == 1)
    && SameShape(e, e')
    && forall id | id in e.s.seqs :: Gains(e.s.seqs[id], e'.s.seqs[id], outs, id)
  }

  lemma AdvanceEmits(e: Engine, id: RequestId, tok: Token)
    requires Known(e.s) && Live(e, id) && id in e.detoks
    ensures Emits(e, Advance(e, id, tok).0, [id], [Advance(e, id, tok).1])
  {
    hide Absorbed, Advance, TokensFor, EndsIn, Remove;
    AdvanceIs(e, id, tok);
    var out := Advance(e, id, tok).1;
    forall x ensures TokensFor([out], x) == (if x == id then [tok] else []) {
      TokensOne(out, x);
    }
    forall x ensures EndsIn([out], x) <==> x == id && out.finished {
      EndsOne(out, x);
    }
  }

  lemma TokensOne(out: RequestOutput, id: RequestId)
    ensures TokensFor([out], id) == if out.id == id then out.tokens else []
  {
    assert [out][1..] == [];
  }

  lemma EndsOne(out: RequestOutput, id: RequestId)
    ensures EndsIn([out], id) <==> out.id == id && out.finished
  {
    assert [out][0] == out;
  }

  lemma GainsThen(q: Seq, q1: Seq, q2: Seq, id: RequestId, out: RequestOutput, outs: seq<RequestOutput>)
    requires Gains(q, q1, [out], id) && Gains(q1, q2, outs, id)
    ensures Gains(q, q2, [out] + outs, id)
  {
    hide TokensFor, EndsIn;
    TokensThen(out, outs, id);
    EndsThen(out, outs, id);
  }

  lemma TokensThen(out: RequestOutput, outs: seq<RequestOutput>, id: RequestId)
    ensures TokensFor([out] + outs, id) == TokensFor([out], id) + TokensFor(outs, id)
  {
    TokensOne(out, id);
    assert ([out] + outs)[1..] == outs;
  }

  lemma EndsThen(out: RequestOutput, outs: seq<RequestOutput>, id: RequestId)
    ensures EndsIn([out] + outs, id) <==> EndsIn([out], id) || EndsIn(outs, id)
  {
    var all := [out] + outs;
    EndsOne(out, id);
    if EndsIn(outs, id) {
      var i :| 0 <= i < |outs| && outs[i].id == id && outs[i].finished;
      assert all[i + 1] == outs[i];
    }
    if out.id == id && out.finished {
      assert all[0] == out;
    }
  }

  lemma EmitsThen(e: Engine, e1: Engine, e2: Engine, id: RequestId, out: RequestOutput, rest: seq<RequestId>,
      outs: seq<RequestOutput>)
    requires Emits(e, e1, [id], [out]) && Emits(e1, e2, rest, outs)
    ensures Emits(e, e2, [id] + rest, [out] + outs)
  {
    hide Gains;
    assert [out][0].id == [id][0] && |[out][0].tokens| == 1;
    forall x | x in e.s.seqs ensures Gains(e.s.seqs[x], e2.s.seqs[x], [out] + outs, x) {
      GainsThen(e.s.seqs[x], e1.s.seqs[x], e2.s.seqs[x], x, out, outs);
    }
  }

  lemma HeadAlone(ids: seq<RequestId>)
    requires ids != [] && NoDup(ids)
    ensures ids[0] !in ids[1..]
  {
  }

  lemma {:induction false} TokensCount(ids: seq<RequestId>, outs: seq<RequestOutput>, id: RequestId)
    requires NoDup(ids) && |outs| == |ids|
    requires forall i | 0 <= i < |ids| :: outs[i].id == ids[i] && |outs[i].tokens| == 1
    ensures |TokensFor(outs, id)| == if id in ids then 1 else 0
    decreases |ids|
  {
    hide NoDup;
    if ids != [] {
      var rest := ids[1..];
      NoDupTail(ids);
      HeadAlone(ids);
      assert ids == [ids[0]] + rest;
      forall i | 0 <= i < |rest| ensures outs[1..][i].id == rest[i] && |outs[1..][i].tokens| == 1 {
        assert outs[1..][i] == outs[i + 1] && rest[i] == ids[i + 1];
      }
      TokensCount(rest, outs[1..], id);
    }
  }

  ghost predicate AllLive(e: Engine, ids: seq<RequestId>) {
    Known(e.s) && NoDup(ids) && forall id | id in ids :: Live(e, id) && id in e.detoks
  }

  /** After an output for the first, the others of the batch are still live. */
  lemma RestLive(e: Engine, e1: Engine, ids: seq<RequestId>, out: RequestOutput)
    requires ids != [] && AllLive(e, ids) && Known(e1.s) && Emits(e, e1, [ids[0]], [out])
    requires e1.detoks.Keys == e.detoks.Keys
    ensures AllLive(e1, ids[1..]) && ids == [ids[0]] + ids[1..]
  {
    hide TokensFor;
    var rest := ids[1..];
    assert [out][0].id == [ids[0]][0];
    forall i | 0 <= i < |rest| ensures Live(e1, rest[i]) && rest[i] in e1.detoks {
      assert rest[i] == ids[i + 1] && ids[i + 1] in ids;
      EndsOne(out, rest[i]);
    }
    NoDupTail(ids);
  }

  lemma {:induction false} AdvanceAllEmits(e: Engine, ids: seq<RequestId>, logits: seq<seq<real>>, coin: Coin)
    requires AllLive(e, ids) && |logits| == |ids|
    ensures var (e', outs) := AdvanceAll(e, ids, logits, coin); Emits(e, e', ids, outs)
    decreases |ids|
  {
    hide Advance, Emits, Sampled, NoDup;
    if ids == [] {
      NothingEmitted(e);
    } else {
      var (e1, out) := Advance(e, ids[0], Sampled(e, ids[0], logits[0], coin));
      AdvanceEmits(e, ids[0], Sampled(e, ids[0], logits[0], coin));
      RestLive(e, e1, ids, out);
      AdvanceAllEmits(e1, ids[1..], logits[1..], coin);
      var (e2, outs) := AdvanceAll(e1, ids[1..], logits[1..], coin);
      EmitsThen(e, e1, e2, ids[0], out, ids[1..], outs);
    }
  }

  lemma NothingEmitted(e: Engine)
    ensures Emits(e, e, [], [])
  {
  }

  lemma PrefillOneEmits(e: Engine, id: RequestId, coin: Coin)
    requires Live(e, id) && PrefillLegal(e, id)
    ensures Serving.PrefillOne(e, id, coin).Some?
    ensures var (e', out) := Serving.PrefillOne(e, id, coin).value;
      Known(e'.s) && Emits(e, e', [id], [out]) && e'.detoks.Keys == e.detoks.Keys
  {
    hide Advance, Sampled, Run, PrefillPlan, Fits, BlocksNeeded, TokensFor, EndsIn;
    var (e1, logits) := PrefillPass(e, id);
    AdvanceEmits(e1, id, Sampled(e1, id, logits, coin));
  }

  lemma {:induction false} PrefillAllEmits(e: Engine, ids: seq<RequestId>, coin: Coin)
    requires AllLive(e, ids) && PrefillAll(e, ids, coin).Some?
    ensures var (e', outs) := PrefillAll(e, ids, coin).value; Emits(e, e', ids, outs)
    decreases |ids|
  {
    hide Serving.PrefillOne, PrefillLegal, Emits, Live, NoDup;
    if ids == [] {
      NothingEmitted(e);
    } else {
      PrefillNeedsLegal(e, ids[0], coin);
      PrefillOneEmits(e, ids[0], coin);
      var (e1, out) := Serving.PrefillOne(e, ids[0], coin).value;
      RestLive(e, e1, ids, out);
      PrefillAllEmits(e1, ids[1..], coin);
      var (e2, outs) := PrefillAll(e1, ids[1..], coin).value;
      EmitsThen(e, e1, e2, ids[0], out, ids[1..], outs);
    }
  }

  lemma PrefillNeedsLegal(e: Engine, id: RequestId, coin: Coin)
    requires Serving.PrefillOne(e, id, coin).Some?
    ensures PrefillLegal(e, id)
  {
  }

  /** Nothing was emitted; tables, counters and places in the queues may have changed. */
  ghost predicate SameLive(e: Engine, e': Engine) {
    && SameShape(e, e') && e'.detoks == e.detoks
    && forall id | id in e.s.seqs :: Gains(e.s.seqs[id], e'.s.seqs[id], [], id)
  }

  lemma EmitsSame(e: Engine, e1: Engine, e2: Engine, ids: seq<RequestId>, outs: seq<RequestOutput>)
    requires SameLive(e, e1) && Emits(e1, e2, ids, outs)
    ensures Emits(e, e2, ids, outs)
  {
    hide Gains;
    forall id | id in e.s.seqs ensures Gains(e.s.seqs[id], e2.s.seqs[id], outs, id) {
      GainsLater(e.s.seqs[id], e1.s.seqs[id], e2.s.seqs[id], outs, id);
    }
  }

  lemma GainsLater(q: Seq, q1: Seq, q2: Seq, outs: seq<RequestOutput>, id: RequestId)
    requires Gains(q, q1, [], id) && Gains(q1, q2, outs, id)
    ensures Gains(q, q2, outs, id)
  {
    hide EndsIn;
    NothingEnds(id);
  }

  lemma NothingEnds(id: RequestId)
    ensures !EndsIn([], id)
  {
  }

  lemma SameIsLive(e: Engine, e1: Engine, id: RequestId)
    requires SameLive(e, e1)
    ensures Live(e1, id) <==> Live(e, id)
  {
    hide TokensFor;
  }

  lemma SameAllLive(e: Engine, e1: Engine, ids: seq<RequestId>)
    requires SameLive(e, e1) && Known(e1.s) && AllLive(e, ids)
    ensures AllLive(e1, ids)
  {
    hide NoDup, TokensFor;
  }

  lemma DecodePassSame(e: Engine, ids: seq<RequestId>)
    requires DecodeLegal(e, ids)
    ensures SameLive(e, DecodePass(e, ids).0)
  {
    hide DecodeLegal, Run, Fits, DecodeRowsOk, EndsIn;
    DecodePassIs(e, ids);
    forall id ensures !EndsIn([], id) {
      NothingEnds(id);
    }
  }

  lemma DecodeEmits(e: Engine, ids: seq<RequestId>, coin: Coin)
    requires AllLive(e, ids) && DecodeLegal(e, ids)
    ensures var (e', outs) := DecodeBatchStep(e, ids, coin).value; Emits(e, e', ids, outs)
  {
    hide AdvanceAll, DecodeLegal, DecodePass, Gains, NoDup;
    DecodePassSame(e, ids);
    var (e1, logits) := DecodePass(e, ids);
    SameAllLive(e, e1, ids);
    AdvanceAllEmits(e1, ids, logits, coin);
    EmitsSame(e, e1, AdvanceAll(e1, ids, logits, coin).0, ids, AdvanceAll(e1, ids, logits, coin).1);
  }

  lemma ScheduleLive(e: Engine)
    requires Inv(e) && Known(e.s) && Scheduling.Schedule(e.s).2
    ensures var (s1, batch, _) := Scheduling.Schedule(e.s);
      SameLive(e, e.(s := s1)) && AllLive(e.(s := s1), batch)
  {
    hide Inv, Base, Ledger, Scheduling.Schedule, NoDup;
    InvBase(e);
    ScheduledShape(e.s);
    var (s1, batch, _) := Scheduling.Schedule(e.s);
    forall id | id in e.s.seqs ensures Gains(e.s.seqs[id], s1.seqs[id], [], id) {
      ScheduledSeq(e.s, id);
    }
    forall id | id in batch ensures Live(e.(s := s1), id) && id in e.detoks {
      ScheduledSeq(e.s, id);
      DetokKept(e, id);
    }
  }

  lemma DetokKept(e: Engine, id: RequestId)
    requires Base(e) && Live(e, id)
    ensures id in e.detoks
  {
    assert SeqOk(e.m, e.enc, e.detoks, e.s.seqs[id]);
    assert e.s.seqs[id].request.id == id;
  }

  lemma RoomLive(e: Engine)
    requires Inv(e) && Known(e.s)
    ensures SameLive(e, Roomy(e)) && Known(Roomy(e).s)
    ensures AllLive(Roomy(e), Roomy(e).s.running)
  {
    hide Inv, Base, EnsureCapacity, SeqEvolves, BlocksNeeded;
    RoomSpec(e);
    RoomBase(e);
    BaseLedger(Roomy(e));
    var e1 := Roomy(e);
    forall id | id in e.s.seqs ensures Gains(e.s.seqs[id], e1.s.seqs[id], [], id) {
      EvolvedSeq(e.s, e1.s, id);
      EvolvesLive(e.s.seqs[id], e1.s.seqs[id], id);
    }
    forall id | id in e1.s.running ensures Live(e1, id) && id in e1.detoks {
      assert id in e1.s.seqs && e1.s.seqs[id].status == Running;
      DetokKept(e1, id);
    }
  }

  lemma EvolvesLive(q: Seq, q': Seq, id: RequestId)
    requires SeqEvolves(q, q')
    ensures Gains(q, q', [], id)
  {
  }

  lemma {:induction false} OwnedBounds(ids: seq<RequestId>, seqs: map<RequestId, Seq>, id: RequestId)
    requires (forall x | x in ids :: x in seqs) && id in ids
    ensures |seqs[id].table| <= Owned(ids, seqs)
  {
    if ids[|ids| - 1] != id {
      OwnedBounds(ids[..|ids| - 1], seqs, id);
    }
  }

  /** No table is longer than the pool. */
  lemma TableBound(s: Sched, id: RequestId)
    requires Ledger(s) && id in s.running
    ensures |s.seqs[id].table| <= s.numBlocks
  {
    hide Conserved, OnlyRunningOwn;
    ConservedCount(s);
    OwnedBounds(s.running, s.seqs, id);
  }

  /** The pool can hold the request at its present length. */
  ghost predicate Holdable(s: Sched, id: RequestId) {
    s.blockSize > 0 && id in s.seqs && BlocksNeeded(s.seqs[id].NumTokens(), s.blockSize) <= s.numBlocks
  }

  lemma ScheduledHoldable(s: Sched, id: RequestId)
    requires Ledger(s) && Scheduling.Schedule(s).2 && id in Scheduling.Schedule(s).1
    ensures Holdable(s, id)
  {
    hide Ledger, Scheduling.Schedule, BlocksNeeded, NoDup;
    LedgerQueues(s);
    ScheduledShape(s);
    ScheduledSeq(s, id);
    ScheduleLedger(s);
    TableBound(Scheduling.Schedule(s).0, id);
  }

  lemma RoomHoldable(e: Engine, id: RequestId)
    requires Inv(e) && Known(e.s) && id in Roomy(e).s.running
    ensures Holdable(e.s, id)
  {
    hide Inv, Ledger, EnsureCapacity, BlocksNeeded, SeqEvolves, Evolves, Cached;
    RoomSpec(e);
    RoomReadyOne(e, id);
    TableBound(Roomy(e).s, id);
    InvBase(e);
    EvolvedRunning(e.s, Roomy(e).s, id);
    EvolvedSeq(e.s, Roomy(e).s, id);
    EvolvesLength(e.s.seqs[id], Roomy(e).s.seqs[id]);
  }

  lemma EvolvesLength(q: Seq, q': Seq)
    requires SeqEvolves(q, q')
    ensures q'.NumTokens() == q.NumTokens()
  {
  }

  /** What a step of a good engine returns: at most one output per request, only for requests it
      has unfinished and the pool can hold; each gains exactly the token of its output, and those
      that end are exactly the ones whose output says so. */
  lemma StepEmits(e: Engine, coin: Coin) returns (ids: seq<RequestId>)
    requires Inv(e)
    ensures Known(e.s) && Serving.Step(e, coin).Some? && Inv(Serving.Step(e, coin).value.0) && NoDup(ids)
    ensures forall id | id in ids :: Live(e, id) && Holdable(e.s, id)
    ensures var (e', outs) := Serving.Step(e, coin).value; Emits(e, e', ids, outs)
  {
    hide Inv, Scheduling.Schedule, EnsureCapacity, PrefillAll, DecodeLegal, DecodeBatchStep, Emits, NoDup,
      SameLive, Live, Holdable, Ledger;
    StepFacts(e, coin);
    var (s1, batch, prefill) := Scheduling.Schedule(e.s);
    ids := [];
    NoDupNone();
    if prefill {
      ScheduleLive(e);
      InvBase(e);
      ScheduledShape(e.s);
      ids := batch;
      forall id | id in ids ensures Live(e, id) && Holdable(e.s, id) {
        SameIsLive(e, e.(s := s1), id);
        ScheduledHoldable(e.s, id);
      }
      PrefillAllEmits(e.(s := s1), batch, coin);
      EmitsSame(e, e.(s := s1), PrefillAll(e.(s := s1), batch, coin).value.0, batch,
        PrefillAll(e.(s := s1), batch, coin).value.1);
    } else {
      ScheduleIdle(e.s);
      NothingEmitted(e);
      if batch != [] {
        RoomLive(e);
        if Roomy(e).s.running == [] {
          NothingEmitted(Roomy(e));
          EmitsSame(e, Roomy(e), Roomy(e), [], []);
        } else {
          ids := Roomy(e).s.running;
          forall id | id in ids ensures Live(e, id) && Holdable(e.s, id) {
            SameIsLive(e, Roomy(e), id);
            RoomHoldable(e, id);
          }
          DecodeEmits(Roomy(e), ids, coin);
          DecodeSome(Roomy(e), ids, coin);
          var (e', outs) := DecodeBatchStep(Roomy(e), ids, coin).value;
          EmitsSame(e, Roomy(e), e', ids, outs);
        }
      }
    }
  }

  // ----- whose draws they are

  /** What comes out for a request that does not decode greedily is the draw made for it. */
  ghost predicate Drawn(e: Engine, outs: seq<RequestOutput>, coin: Coin) {
    forall i | 0 <= i < |outs| ::
      outs[i].id in e.s.seqs
      && (e.s.seqs[outs[i].id].request.temperature > 0.0 ==> outs[i].tokens == [coin(outs[i].id)])
  }

  lemma DrawnThen(e: Engine, e1: Engine, ids: seq<RequestId>, first: seq<RequestOutput>, outs: seq<RequestOutput>,
      coin: Coin)
    requires Drawn(e, first, coin) && Drawn(e1, outs, coin) && Emits(e, e1, ids, first)
    ensures Drawn(e, first + outs, coin)
  {
    hide TokensFor, EndsIn;
    var all := first + outs;
    forall i | 0 <= i < |all|
      ensures all[i].id in e.s.seqs
      ensures e.s.seqs[all[i].id].request.temperature > 0.0 ==> all[i].tokens == [coin(all[i].id)]
    {
      assert all[i] == if i < |first| then first[i] else outs[i - |first|];
    }
  }

  lemma DrawnBefore(e: Engine, e1: Engine, outs: seq<RequestOutput>, coin: Coin)
    requires Drawn(e1, outs, coin) && SameLive(e, e1)
    ensures Drawn(e, outs, coin)
  {
    hide TokensFor, EndsIn;
  }

  lemma AdvanceDrawn(e: Engine, id: RequestId, logits: seq<real>, coin: Coin)
    requires Known(e.s) && id in e.s.seqs && id in e.detoks
    ensures Drawn(e, [Advance(e, id, Sampled(e, id, logits, coin)).1], coin)
  {
    hide Absorbed, Advance, Remove;
    AdvanceIs(e, id, Sampled(e, id, logits, coin));
  }

  lemma {:induction false} AdvanceAllDrawn(e: Engine, ids: seq<RequestId>, logits: seq<seq<real>>, coin: Coin)
    requires AllLive(e, ids) && |logits| == |ids|
    ensures Drawn(e, AdvanceAll(e, ids, logits, coin).1, coin)
    decreases |ids|
  {
    hide Advance, Emits, Sampled, NoDup, Drawn;
    if ids == [] {
      NoneDrawn(e, coin);
    } else {
      var (e1, out) := Advance(e, ids[0], Sampled(e, ids[0], logits[0], coin));
      AdvanceEmits(e, ids[0], Sampled(e, ids[0], logits[0], coin));
      AdvanceDrawn(e, ids[0], logits[0], coin);
      RestLive(e, e1, ids, out);
      AdvanceAllDrawn(e1, ids[1..], logits[1..], coin);
      DrawnThen(e, e1, [ids[0]], [out], AdvanceAll(e1, ids[1..], logits[1..], coin).1, coin);
    }
  }

  lemma NoneDrawn(e: Engine, coin: Coin)
    ensures Drawn(e, [], coin)
  {
  }

  lemma PrefillOneDrawn(e: Engine, id: RequestId, coin: Coin)
    requires Live(e, id) && PrefillLegal(e, id) && Serving.PrefillOne(e, id, coin).Some?
    ensures Drawn(e, [Serving.PrefillOne(e, id, coin).value.1], coin)
  {
    hide Advance, Sampled, Run, PrefillPlan, Fits, BlocksNeeded, Drawn;
    var (e1, logits) := PrefillPass(e, id);
    AdvanceDrawn(e1, id, logits, coin);
    PassDrawn(e, id, [Advance(e1, id, Sampled(e1, id, logits, coin)).1], coin);
  }

  lemma PassDrawn(e: Engine, id: RequestId, outs: seq<RequestOutput>, coin: Coin)
    requires PrefillLegal(e, id) && Drawn(PrefillPass(e, id).0, outs, coin)
    ensures Drawn(e, outs, coin)
  {
    hide Run, PrefillPlan, Fits, BlocksNeeded;
  }

  lemma {:induction false} PrefillAllDrawn(e: Engine, ids: seq<RequestId>, coin: Coin)
    requires AllLive(e, ids) && PrefillAll(e, ids, coin).Some?
    ensures Drawn(e, PrefillAll(e, ids, coin).value.1, coin)
    decreases |ids|
  {
    hide Serving.PrefillOne, PrefillLegal, Emits, Live, NoDup, Drawn;
    if ids == [] {
      NoneDrawn(e, coin);
    } else {
      PrefillNeedsLegal(e, ids[0], coin);
      PrefillOneEmits(e, ids[0], coin);
      PrefillOneDrawn(e, ids[0], coin);
      var (e1, out) := Serving.PrefillOne(e, ids[0], coin).value;
      RestLive(e, e1, ids, out);
      PrefillAllDrawn(e1, ids[1..], coin);
      DrawnThen(e, e1, [ids[0]], [out], PrefillAll(e1, ids[1..], coin).value.1, coin);
    }
  }

  lemma DecodeDrawn(e: Engine, ids: seq<RequestId>, coin: Coin)
    requires AllLive(e, ids) && DecodeLegal(e, ids)
    ensures Drawn(e, DecodeBatchStep(e, ids, coin).value.1, coin)
  {
    hide AdvanceAll, DecodeLegal, DecodePass, Gains, NoDup, Drawn;
    DecodePassSame(e, ids);
    var (e1, logits) := DecodePass(e, ids);
    SameAllLive(e, e1, ids);
    AdvanceAllDrawn(e1, ids, logits, coin);
    DrawnBefore(e, e1, AdvanceAll(e1, ids, logits, coin).1, coin);
  }

  /** Whatever a step emits for a request that does not decode greedily is the draw made for that
      request, not for another row of the batch. */
  lemma StepDraws(e: Engine, coin: Coin)
    requires Inv(e)
    ensures Known(e.s) && Serving.Step(e, coin).Some? && Drawn(e, Serving.Step(e, coin).value.1, coin)
  {
    hide Inv, Scheduling.Schedule, EnsureCapacity, PrefillAll, DecodeLegal, DecodeBatchStep, NoDup, SameLive, Live,
      Ledger, Drawn;
    StepFacts(e, coin);
    var (s1, batch, prefill) := Scheduling.Schedule(e.s);
    if batch == [] {
      NoneDrawn(e, coin);
    } else if prefill {
      ScheduleLive(e);
      PrefillAllDrawn(e.(s := s1), batch, coin);
      DrawnBefore(e, e.(s := s1), PrefillAll(e.(s := s1), batch, coin).value.1, coin);
    } else {
      ScheduleIdle(e.s);
      RoomLive(e);
      if Roomy(e).s.running == [] {
        NoneDrawn(e, coin);
      } else {
        DecodeDrawn(Roomy(e), Roomy(e).s.running, coin);
        DecodeSome(Roomy(e), Roomy(e).s.running, coin);
        DrawnBefore(e, Roomy(e), DecodeBatchStep(Roomy(e), Roomy(e).s.running, coin).value.1, coin);
      }
    }
  }

  lemma NoDupNone()
    ensures NoDup([])
  {
  }

  lemma DecodeSome(e: Engine, ids: seq<RequestId>, coin: Coin)
    requires DecodeLegal(e, ids)
    ensures DecodeBatchStep(e, ids, coin).Some?
  {
    hide DecodeLegal;
  }
}
