/** No livelock: while there is work, every step emits a token, so any workload drains. */
module Progress {
  import opened Wrappers
  import opened Transformer
  import opened Forward
  import opened Tokenizer
  import opened Requests
  import opened Blocks
  import opened PagedCache
  import opened Scheduling
  import opened Ownership
  import opened Capacity
  import opened Serving
  import opened Refinement
  import opened Stepping

  /** Tokens a request may emit: at least one, whatever it asked for. */
  function Allowance(r: Request): nat {
    if r.maxTokens > 1 then r.maxTokens else 1
  }

  /** Tokens a request emits if left alone: those of its solo run when it decodes greedily, and no
      more than it may emit otherwise. */
  function Limit(m: Model, enc: Table, r: Request): (n: nat)
    ensures n > 0
  {
    if r.Greedy() && |r.prompt| > 0 && m.blockSize > 0 then |Solo(m, enc, r)| else Allowance(r)
  }

  /** Tokens a sequence may still emit. */
  function Due(e: Engine, id: RequestId): nat
    requires id in e.s.seqs
  {
    var q := e.s.seqs[id];
    var limit := Limit(e.m, e.enc, q.request);
    if q.status == Finished || |q.output| >= limit then 0 else limit - |q.output|
  }

  /** The pool could hold the request alone, up to the last token it caches. */
  predicate FitsAlone(e: Engine, r: Request) {
    e.s.blockSize > 0 && BlocksNeeded(|r.prompt| + Limit(e.m, e.enc, r) - 1, e.s.blockSize) <= e.s.numBlocks
  }

  ghost predicate Feasible(e: Engine) {
    && e.s.maxBatch > 0 && e.s.blockSize > 0
    && forall id | id in e.s.seqs && e.s.seqs[id].status != Finished :: FitsAlone(e, e.s.seqs[id].request)
  }

  function HasWork(e: Engine): bool {
    e.s.waiting != [] || e.s.running != []
  }

  /** A live sequence is owed at least one token and fits the pool at its present length. */
  lemma LiveDue(e: Engine, id: RequestId)
    requires Base(e) && Feasible(e) && id in e.s.seqs && e.s.seqs[id].status != Finished
    ensures Due(e, id) > 0
    ensures BlocksNeeded(e.s.seqs[id].NumTokens(), e.s.blockSize) <= e.s.numBlocks
  {
    hide BlocksNeeded, Limit, Ledger;
    var q := e.s.seqs[id];
    BelowLimit(e, q);
    BlocksNeededMonotone(q.NumTokens(), |q.request.prompt| + Limit(e.m, e.enc, q.request) - 1, e.s.blockSize);
  }

  /** A live sequence has not reached its limit. */
  lemma BelowLimit(e: Engine, q: Seq)
    requires SeqOk(e.m, e.enc, e.detoks, q) && q.status != Finished
    ensures |q.output| < Limit(e.m, e.enc, q.request)
  {
    hide Stops, SafeText, Next, SoloFrom;
    if q.output != [] {
      StopsByLength(e.enc, q.request, q.output);
    }
    if q.request.Greedy() {
      assert q.output[..0] == [];
      SoloPrefix(e.m, e.enc, q.request, q.output, 0);
    }
  }

  // ----- somebody always gets a turn

  /** An empty engine can always admit the head of its line. */
  lemma IdleAdmits(e: Engine)
    requires Inv(e) && Feasible(e) && e.s.running == [] && e.s.waiting != []
    ensures Known(e.s) && Schedule(e.s).2
  {
    hide Base, Ledger, BlocksNeeded, Schedule;
    InvBase(e);
    var id := e.s.waiting[0];
    WaitingOwnsNothing(e.s, id);
    LiveDue(e, id);
    ConservedCount(e.s);
    HeadAdmitted(e.s);
  }

  lemma HeadAdmitted(s: Sched)
    requires Known(s) && |s.running| < s.maxBatch && HeadFits(s)
    ensures Schedule(s).2
  {
    AdmitGrows(AdmitHead(s), [] + [s.waiting[0]]);
  }

  /** Making room never empties an engine that was running something. */
  lemma RoomKeeps(e: Engine)
    requires Inv(e) && Known(e.s) && Feasible(e) && e.s.running != []
    ensures Roomy(e).s.running != []
  {
    hide Inv, Base, Ledger, BlocksNeeded, EnsureCapacity, Settled;
    InvBase(e);
    SettledTight(e);
    forall id | id in e.s.running ensures BlocksNeeded(e.s.seqs[id].computed + 1, e.s.blockSize) <= e.s.numBlocks {
      InvSettled(e, id);
      SettledLength(e, id);
      RunningBasics(e, id);
      LiveDue(e, id);
    }
    EnsureCapacityKeeps(e.s, e.s.running);
  }

  lemma SettledLength(e: Engine, id: RequestId)
    requires id in e.s.seqs && Settled(e, e.s.seqs[id])
    ensures e.s.seqs[id].computed + 1 == e.s.seqs[id].NumTokens()
  {
  }

  // ----- what a step spends

  /** No sequence is owed more than before. */
  ghost predicate Spends(e: Engine, e': Engine) {
    && e'.s.seqs.Keys == e.s.seqs.Keys
    && forall id | id in e.s.seqs :: Due(e', id) <= Due(e, id)
  }

  ghost predicate SpendsOn(e: Engine, e': Engine, id: RequestId) {
    Spends(e, e') && id in e.s.seqs && Due(e', id) < Due(e, id)
  }

  lemma AdvanceSpends(e: Engine, id: RequestId, tok: Token)
    requires Base(e) && Feasible(e) && id in e.s.running
    ensures id in e.s.seqs && Known(e.s) && SpendsOn(e, Advanced(e, id, tok), id)
  {
    hide Base, Ledger, Stops, SafeText, FullText, FinishReason, BlocksNeeded;
    BaseLedger(e);
    RunningBasics(e, id);
    LiveDue(e, id);
    AdvanceFrame(e, id, tok);
  }

  /** Requests, limits and liveness only ever shrink, so feasibility is kept. */
  ghost predicate SameRequests(e: Engine, e': Engine) {
    && e'.m == e.m && e'.enc == e.enc && e'.s.seqs.Keys == e.s.seqs.Keys
    && e'.s.maxBatch == e.s.maxBatch && e'.s.blockSize == e.s.blockSize && e'.s.numBlocks == e.s.numBlocks
    && forall id | id in e.s.seqs ::
         && e'.s.seqs[id].request == e.s.seqs[id].request
         && (e.s.seqs[id].status == Finished ==> e'.s.seqs[id].status == Finished)
  }

  lemma FeasibleKept(e: Engine, e': Engine)
    requires Feasible(e) && SameRequests(e, e')
    ensures Feasible(e')
  {
    hide BlocksNeeded;
  }

  lemma AdvanceRequests(e: Engine, id: RequestId, tok: Token)
    requires Ledger(e.s) && id in e.s.running
    ensures Known(e.s) && id in e.s.seqs && SameRequests(e, Advanced(e, id, tok))
  {
    hide Stops, SafeText, FullText, FinishReason, Conserved;
  }

  lemma {:induction false} AdvanceAllSpends(e: Engine, toPrefill: seq<RequestId>, ids: seq<RequestId>,
      logits: seq<seq<real>>, coin: Coin)
    requires Mid(e, toPrefill, ids) && |logits| == |ids| && RightLogits(e, ids, logits) && Feasible(e)
    requires Known(e.s) && forall id | id in ids :: id in e.s.seqs && id in e.detoks
    ensures var e' := AdvanceAll(e, ids, logits, coin).0;
      SameRequests(e, e') && Spends(e, e') && (ids != [] ==> SpendsOn(e, e', ids[0]))
    decreases |ids|
  {
    hide Mid, Base, Ledger, Advance, Advanced, RefLogits, RightLogits, LiveOk, Sampled, Feasible, Due;
    if ids != [] {
      var id, rest := ids[0], ids[1..];
      assert ids == [id] + rest;
      MidMembers(e, toPrefill, id, rest);
      InRunning(e, id);
      FirstSampled(e, ids, logits, coin);
      var tok := Sampled(e, id, logits[0], coin);
      var e1 := Advanced(e, id, tok);
      AdvanceSpec(e, id, tok);
      AdvanceMid(e, toPrefill, id, rest, tok);
      RightLogitsRest(e, ids, logits, tok);
      AdvanceFrame(e, id, tok);
      AdvanceSpends(e, id, tok);
      AdvanceRequests(e, id, tok);
      FeasibleKept(e, e1);
      AdvanceAllSpends(e1, toPrefill, rest, logits[1..], coin);
    }
  }

  lemma PrefillOneSpends(e: Engine, id: RequestId, rest: seq<RequestId>, coin: Coin)
    requires Mid(e, [id] + rest, []) && Feasible(e) && PrefillOne(e, id, coin).Some?
    ensures var e' := PrefillOne(e, id, coin).value.0; SameRequests(e, e') && SpendsOn(e, e', id)
  {
    hide Mid, Base, Ledger, Advance, Advanced, RefLogits, LiveOk, PrefillPass, PrefillLegal, Phases, Sampled,
      Admitted, Due, Feasible;
    MidPending(e, id, rest);
    BaseLedger(e);
    PrefillIsLegal(e, id);
    PrefillMid(e, id, rest);
    var (e1, logits) := PrefillPass(e, id);
    PrefillPassRequests(e, id);
    FeasibleKept(e, e1);
    MidMembers(e1, rest, id, []);
    InRunning(e1, id);
    assert [id] + [] == [id];
    var tok := Sampled(e1, id, logits, coin);
    AdvanceSpec(e1, id, tok);
    AdvanceSpends(e1, id, tok);
    AdvanceRequests(e1, id, tok);
  }

  lemma PrefillPassRequests(e: Engine, id: RequestId)
    requires PrefillLegal(e, id)
    ensures var e1 := PrefillPass(e, id).0;
      SameRequests(e, e1) && Spends(e, e1) && Spends(e1, e)
  {
    hide Run, PrefillPlan, Fits, BlocksNeeded;
  }

  lemma {:induction false} PrefillAllSpends(e: Engine, ids: seq<RequestId>, coin: Coin, st: Streamed)
    requires Mid(e, ids, []) && Feasible(e) && Streams(e, st) && PrefillAll(e, ids, coin).Some?
    ensures var e' := PrefillAll(e, ids, coin).value.0;
      SameRequests(e, e') && Spends(e, e') && (ids != [] ==> SpendsOn(e, e', ids[0]))
    decreases |ids|
  {
    hide Mid, PrefillOne, Streams, Deliver, Feasible, Due;
    if ids != [] {
      var id, rest := ids[0], ids[1..];
      assert ids == [id] + rest;
      PrefillOneMid(e, id, rest, coin, st);
      PrefillOneSpends(e, id, rest, coin);
      var (e1, out) := PrefillOne(e, id, coin).value;
      FeasibleKept(e, e1);
      PrefillAllSpends(e1, rest, coin, Deliver(st, out));
    }
  }

  lemma ScheduleRequests(e: Engine)
    requires Base(e) && Known(e.s) && Schedule(e.s).2
    ensures var e1 := e.(s := Schedule(e.s).0); SameRequests(e, e1) && Spends(e, e1) && Spends(e1, e)
  {
    hide Base, Ledger, BlocksNeeded, Schedule;
    BaseLedger(e);
    ScheduledShape(e.s);
    var e1 := e.(s := Schedule(e.s).0);
    forall id | id in e.s.seqs ensures e1.s.seqs[id].request == e.s.seqs[id].request
      && e1.s.seqs[id].output == e.s.seqs[id].output
      && (e1.s.seqs[id].status == Finished <==> e.s.seqs[id].status == Finished)
    {
      ScheduledSeq(e.s, id);
    }
  }

  lemma RoomRequests(e: Engine)
    requires Inv(e) && Known(e.s)
    ensures SameRequests(e, Roomy(e)) && Spends(e, Roomy(e)) && Spends(Roomy(e), e)
  {
    hide Inv, Ledger, BlocksNeeded, EnsureCapacity, Evolves;
    RoomSpec(e);
    var e1 := Roomy(e);
    EvolvesSizes(e.s, e1.s);
    InvBase(e);
    EvolvesKeys(e.s, e1.s);
    forall id | id in e.s.seqs
      ensures id in e1.s.seqs && e1.s.seqs[id].request == e.s.seqs[id].request
        && e1.s.seqs[id].output == e.s.seqs[id].output
        && (e1.s.seqs[id].status == Finished <==> e.s.seqs[id].status == Finished)
    {
      EvolvedSeq(e.s, e1.s, id);
    }
  }

  lemma EvolvesKeys(s: Sched, s': Sched)
    requires Evolves(s, s')
    ensures s'.seqs.Keys == s.seqs.Keys
  {
  }

  lemma DecodeSpends(e: Engine, coin: Coin)
    requires AllReady(e) && Feasible(e) && DecodeBatchStep(e, e.s.running, coin).Some?
    ensures var e' := DecodeBatchStep(e, e.s.running, coin).value.0;
      SameRequests(e, e') && SpendsOn(e, e', e.s.running[0])
  {
    hide AllReady, Base, Mid, Ledger, DecodeLegal, DecodePass, AdvanceAll, RefLogits, Feasible, Due, Streams,
      RightLogits;
    ReadyBase(e);
    DecodeIsLegal(e);
    DecodePassMid(e);
    DecodePassPhases(e);
    DecodePassRequests(e);
    DecodePassLogits(e);
    var (e1, logits) := DecodePass(e, e.s.running);
    FeasibleKept(e, e1);
    AdvanceAllSpends(e1, [], e.s.running, logits, coin);
  }

  lemma DecodePassLogits(e: Engine)
    requires AllReady(e) && DecodeLegal(e, e.s.running)
    ensures var (e1, logits) := DecodePass(e, e.s.running);
      && Known(e1.s) && |logits| == |e.s.running| && RightLogits(e1, e.s.running, logits)
      && forall id | id in e.s.running :: id in e1.s.seqs && id in e1.detoks
  {
    hide AllReady, Base, Ledger, DecodePlan, DecodeRowsOk, Fits, Run, RefLogits, BlocksNeeded;
    ReadyBase(e);
    DecodePassPhases(e);
  }

  lemma DecodePassRequests(e: Engine)
    requires DecodeLegal(e, e.s.running)
    ensures var e1 := DecodePass(e, e.s.running).0;
      SameRequests(e, e1) && Spends(e, e1) && Spends(e1, e)
  {
    hide Run, DecodePlan, Fits, BlocksNeeded, DecodeRowsOk;
  }

  /** No livelock: a step with work to do emits a token, and what is owed in all goes down. */
  lemma StepSpends(e: Engine, coin: Coin, st: Streamed) returns (id: RequestId)
    requires Inv(e) && Known(e.s) && Streams(e, st) && Feasible(e) && HasWork(e) && Step(e, coin).Some?
    ensures var (e', outs) := Step(e, coin).value;
      SameRequests(e, e') && SpendsOn(e, e', id) && outs != []
  {
    hide Inv, Base, Mid, Ledger, Streams, Schedule, DecodeBatchStep, PrefillAll, EnsureCapacity, Feasible, Due;
    InvBase(e);
    if Schedule(e.s).2 {
      ScheduledShape(e.s);
      ScheduleMid(e);
      ScheduleStreams(e, st);
      ScheduleRequests(e);
      var e1, batch := e.(s := Schedule(e.s).0), Schedule(e.s).1;
      FeasibleKept(e, e1);
      PrefillAllMid(e1, batch, coin, st);
      PrefillAllSpends(e1, batch, coin, st);
      id := batch[0];
    } else {
      ScheduleIdle(e.s);
      if e.s.running == [] {
        IdleAdmits(e);
        assert false;
      }
      RoomKeeps(e);
      RoomStreams(e, st);
      RoomRequests(e);
      RoomReady(e);
      FeasibleKept(e, Roomy(e));
      DecodeStep(Roomy(e), coin, st);
      DecodeSpends(Roomy(e), coin);
      id := Roomy(e).s.running[0];
    }
  }

  /** All that is owed to the requests that have arrived. */
  function Owed(arrivals: seq<RequestId>, e: Engine): nat
    requires forall id | id in arrivals :: id in e.s.seqs
  {
    if arrivals == [] then 0 else Owed(arrivals[1..], e) + Due(e, arrivals[0])
  }

  lemma {:induction false} OwedShrinks(arrivals: seq<RequestId>, e: Engine, e': Engine)
    requires (forall id | id in arrivals :: id in e.s.seqs) && Spends(e, e')
    ensures Owed(arrivals, e') <= Owed(arrivals, e)
  {
    hide Due;
    if arrivals != [] {
      assert arrivals[0] in arrivals;
      OwedShrinks(arrivals[1..], e, e');
    }
  }

  lemma {:induction false} OwedDrops(arrivals: seq<RequestId>, e: Engine, e': Engine, id: RequestId)
    requires (forall x | x in arrivals :: x in e.s.seqs) && SpendsOn(e, e', id) && id in arrivals
    ensures Owed(arrivals, e') < Owed(arrivals, e)
  {
    hide Due;
    assert arrivals[0] in arrivals;
    if arrivals[0] == id {
      OwedShrinks(arrivals[1..], e, e');
    } else {
      OwedDrops(arrivals[1..], e, e', id);
    }
  }
}
