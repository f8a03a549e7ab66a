/** A run in which the newest sequence needs a block, none is free, and an older one is evicted. */
module Eviction {
  import opened Wrappers
  import opened Transformer
  import opened Forward
  import opened Tokenizer
  import opened Requests
  import opened Blocks
  import opened Scheduling
  import opened Ownership
  import opened Capacity
  import opened Serving
  import opened Refinement
  import opened Stepping
  import opened Emission
  import opened Runs
  import Ordering

  const OLDER := Request("older", [0], 3, 0.0, 1, [], None)
  const NEWER := Request("newer", [0, 0], 3, 0.0, 1, [], None)

  // ----- a batch nobody leaves keeps its order

  predicate KeptOrShrunk(a: seq<RequestId>, b: seq<RequestId>) {
    b == a || |b| < |a|
  }

  lemma AdvanceRunning(e: Engine, id: RequestId, tok: Token)
    requires Known(e.s) && id in e.s.seqs && id in e.detoks
    ensures KeptOrShrunk(e.s.running, Advance(e, id, tok).0.s.running)
  {
    hide SafeText, FullText, Beyond, CheckFinish, TruncateAtStop;
  }

  lemma PrefillOneRunning(e: Engine, id: RequestId, coin: Coin)
    requires PrefillOne(e, id, coin).Some?
    ensures KeptOrShrunk(e.s.running, PrefillOne(e, id, coin).value.0.s.running)
  {
    hide Advance, Run, PrefillPlan, Fits, BlocksNeeded, Sampled;
    var (e1, logits) := PrefillPass(e, id);
    AdvanceRunning(e1, id, Sampled(e1, id, logits, coin));
  }

  lemma {:induction false} PrefillAllRunning(e: Engine, ids: seq<RequestId>, coin: Coin)
    requires PrefillAll(e, ids, coin).Some?
    ensures KeptOrShrunk(e.s.running, PrefillAll(e, ids, coin).value.0.s.running)
    decreases |ids|
  {
    hide PrefillOne;
    if ids != [] {
      PrefillOneRunning(e, ids[0], coin);
      PrefillAllRunning(PrefillOne(e, ids[0], coin).value.0, ids[1..], coin);
    }
  }

  // ----- the run

  /** The two requests wait in an engine with two blocks of two tokens each. */
  ghost predicate BothWait(e: Engine) {
    && Inv(e) && e.s.numBlocks == e.s.blockSize == e.s.maxBatch == |e.s.free| == 2
    && e.s.waiting == [OLDER.id, NEWER.id] && e.s.running == []
    && OLDER.id in e.s.seqs && e.s.seqs[OLDER.id] == Fresh(OLDER)
    && NEWER.id in e.s.seqs && e.s.seqs[NEWER.id] == Fresh(NEWER)
  }

  lemma Submitted(m: Model, enc: Table, zero: KV)
    requires m.blockSize >= 5
    ensures var w := Play(Start(m, enc, 2, 2, 2, zero), [Submit(OLDER), Submit(NEWER)]);
      w.Some? && Good(w.value) && BothWait(w.value.e)
  {
    hide Inv, Streams, EmptyStore, CancelRequest, Step, Starting;
    var w := Start(m, enc, 2, 2, 2, zero);
    var evs := [Submit(OLDER), Submit(NEWER)];
    StartGood(m, enc, 2, 2, 2, zero);
    PerformGood(w, evs[0]);
    var w1 := Perform(w, evs[0]).value;
    PerformGood(w1, evs[1]);
    assert evs[..1] == [evs[0]] && evs[..1][..0] == [];
    assert Play(w, evs[..1][..0]) == Some(w);
    assert Play(w, evs[..1]) == Perform(w, evs[0]);
    assert Play(w, evs) == Perform(w1, evs[1]);
  }

  lemma BothAdmitted(s: Sched)
    requires Ledger(s) && s.blockSize == s.maxBatch == |s.free| == 2 && s.running == [] && |s.waiting| == 2
    requires s.seqs[s.waiting[0]].NumTokens() == 1 && s.seqs[s.waiting[1]].NumTokens() == 2
    ensures var (s', batch, prefill) := Schedule(s);
      prefill && batch == s.waiting && s'.running == s.waiting && s'.waiting == []
  {
    hide Conserved, NoDup, OnlyRunningOwn;
    AdmissionExact(s);
    assert Demand(s, 0) == 0;
    assert Demand(s, 1) == 1;
    assert Demand(s, 2) == 2;
    var k := |s.waiting| - |Schedule(s).0.waiting|;
    assert k == 2;
    assert s.waiting[..2] == s.waiting;
  }

  /** Both are running, with one block each, and none is left. */
  ghost predicate BothRun(e: Engine) {
    && Inv(e) && e.s.blockSize == 2 && e.s.free == [] && e.s.waiting == []
    && e.s.running == [OLDER.id, NEWER.id]
    && OLDER.id in e.s.seqs && NEWER.id in e.s.seqs
    && e.s.seqs[OLDER.id].computed == 1 && e.s.seqs[NEWER.id].computed == 2
    && |e.s.seqs[OLDER.id].table| == 1 && |e.s.seqs[NEWER.id].table| == 1
  }

  /** A request with a longer allowance and no other stop has not ended after its first token. */
  lemma NotOver(e: Engine, q: Seq)
    requires SeqOk(e.m, e.enc, e.detoks, q) && |q.output| == 1 && q.reason != Some(Cancelled)
    requires q.request.eot == None && q.request.stop == [] && q.request.maxTokens > 1
    ensures q.status != Finished
  {
    hide SafeText, FullText, History;
  }

  lemma OneMore(e: Engine, e': Engine, ids: seq<RequestId>, outs: seq<RequestOutput>, id: RequestId)
    requires Inv(e') && Emits(e, e', ids, outs) && id in ids && NoDup(ids) && id in e.s.seqs
    requires e.s.seqs[id].output == [] && e.s.seqs[id].reason == None
    requires var r := e.s.seqs[id].request; r.eot == None && r.stop == [] && r.maxTokens > 1
    ensures id in e'.s.seqs && |e'.s.seqs[id].output| == 1 && e'.s.seqs[id].status != Finished
    ensures e'.s.seqs[id].request == e.s.seqs[id].request
  {
    hide TokensFor, EndsIn, SeqOk, Ledger, NoDup;
    TokensCount(ids, outs, id);
    assert Gains(e.s.seqs[id], e'.s.seqs[id], outs, id);
    NotOver(e', e'.s.seqs[id]);
  }

  lemma BothPrefilled(e: Engine, coin: Coin)
    requires BothWait(e)
    ensures Known(e.s) && Step(e, coin).Some? && BothRun(Step(e, coin).value.0)
  {
    hide Inv, Ledger, Schedule, PrefillAll, EnsureCapacity, DecodeBatchStep, Emits, NoDup, BlocksNeeded, Holdable,
      Gains, KeptOrShrunk, Tight;
    InvBase(e);
    BothAdmitted(e.s);
    var (s1, batch, _) := Schedule(e.s);
    var e1 := e.(s := s1);
    var _ := StepEmits(e, coin);
    var (e', outs) := Step(e, coin).value;
    ScheduleLive(e);
    ScheduledShape(e.s);
    ScheduledSeq(e.s, OLDER.id);
    ScheduledSeq(e.s, NEWER.id);
    PrefillAllEmits(e1, batch, coin);
    OneMore(e1, e', batch, outs, OLDER.id);
    OneMore(e1, e', batch, outs, NEWER.id);
    Ordering.PrefillAllSpares(e1, batch, coin);
    PrefillAllRunning(e1, batch, coin);
    EmitsShape(e1, e', batch, outs);
    StillBoth(e');
    Filled(e');
  }

  lemma EmitsShape(e: Engine, e': Engine, ids: seq<RequestId>, outs: seq<RequestOutput>)
    requires Emits(e, e', ids, outs)
    ensures e'.s.numBlocks == e.s.numBlocks && e'.s.blockSize == e.s.blockSize
  {
    hide Gains;
  }

  lemma StillBoth(e: Engine)
    requires Inv(e) && e.s.waiting == [] && KeptOrShrunk([OLDER.id, NEWER.id], e.s.running)
    requires OLDER.id in e.s.seqs && NEWER.id in e.s.seqs
    requires e.s.seqs[OLDER.id].status != Finished && e.s.seqs[NEWER.id].status != Finished
    ensures e.s.running == [OLDER.id, NEWER.id]
  {
    hide SeqOk, CellsExist, Conserved, OnlyRunningOwn, Settled;
    var i :| 0 <= i < |e.s.running| && e.s.running[i] == OLDER.id;
    var j :| 0 <= j < |e.s.running| && e.s.running[j] == NEWER.id;
    assert OLDER.id != NEWER.id;
  }

  lemma Filled(e: Engine)
    requires Inv(e) && e.s.numBlocks == e.s.blockSize == 2 && e.s.running == [OLDER.id, NEWER.id]
    requires OLDER.id in e.s.seqs && e.s.seqs[OLDER.id].NumTokens() == 2
    requires NEWER.id in e.s.seqs && e.s.seqs[NEWER.id].NumTokens() == 3
    ensures e.s.free == []
    ensures e.s.seqs[OLDER.id].computed == 1 && e.s.seqs[NEWER.id].computed == 2
    ensures |e.s.seqs[OLDER.id].table| == 1 && |e.s.seqs[NEWER.id].table| == 1
  {
    hide Inv, Ledger;
    InvBase(e);
    ExactFit(e);
    ConservedCount(e.s);
    assert e.s.running[..1] == [OLDER.id] && e.s.running[..1][..0] == [];
    assert Owned([], e.s.seqs) == 0;
    assert Owned(e.s.running[..1], e.s.seqs) == 1;
  }

  /** Making room for the newer one takes the older one's block. */
  lemma OlderGoes(e: Engine)
    requires BothRun(e)
    ensures Known(e.s) && Appended(e.s.free, e.s.seqs[NEWER.id], e.s.blockSize).None?
    ensures Victim(e.s, NEWER.id) == OLDER.id
    ensures var s' := EnsureCapacity(e.s, e.s.running);
      s'.running == [NEWER.id] && s'.waiting == [OLDER.id]
  {
    hide Inv, Ledger, MakeRoom, Appended, NewestOther, Preempt;
    InvBase(e);
    LedgerStatus(e.s, OLDER.id);
    LedgerStatus(e.s, NEWER.id);
    var s := e.s;
    assert s.running[1..] == [NEWER.id] && [NEWER.id][1..] == [];
    VisitOlder(s);
    VisitNewer(s);
    assert EnsureCapacity(s, s.running) == EnsureCapacity(s, s.running[1..]);
    assert EnsureCapacity(s, [NEWER.id]) == EnsureCapacity(MakeRoom(s, NEWER.id), []);
  }

  /** The older one's block has room for its next token. */
  lemma VisitOlder(s: Sched)
    requires Known(s) && s.blockSize == 2 && OLDER.id in s.seqs
    requires s.seqs[OLDER.id].computed == 1 && |s.seqs[OLDER.id].table| == 1
    ensures MakeRoom(s, OLDER.id) == s
  {
    assert s.seqs[OLDER.id := s.seqs[OLDER.id]] == s.seqs;
  }

  /** The newer one's has not, and the other running sequence is the older one. */
  lemma VisitNewer(s: Sched)
    requires Known(s) && s.blockSize == 2 && s.free == [] && s.waiting == [] && s.running == [OLDER.id, NEWER.id]
    requires s.seqs[OLDER.id].status == Running && |s.seqs[OLDER.id].table| == 1
    requires s.seqs[NEWER.id].computed == 2 && |s.seqs[NEWER.id].table| == 1
    ensures Appended(s.free, s.seqs[NEWER.id], s.blockSize).None? && Victim(s, NEWER.id) == OLDER.id
    ensures MakeRoom(s, NEWER.id).running == [NEWER.id] && MakeRoom(s, NEWER.id).waiting == [OLDER.id]
  {
    assert s.running[..1] == [OLDER.id];
    assert NewestOther(s, s.running, NEWER.id) == NewestOther(s, s.running[..1], NEWER.id) == Some(OLDER.id);
    var t := Preempt(s, OLDER.id);
    assert |t.free| == 1 && t.seqs[NEWER.id] == s.seqs[NEWER.id];
    assert MakeRoom(s, NEWER.id) == MakeRoom(t, NEWER.id);
  }

  /** The documented rule fails in a run: two requests fill a pool of two blocks, the newer one needs
      a third, and it is the older one that is evicted for it. */
  lemma OlderIsEvicted(m: Model, enc: Table, zero: KV, coin: Coin)
    requires m.blockSize >= 5
    ensures var w := Play(Start(m, enc, 2, 2, 2, zero), [Submit(OLDER), Submit(NEWER), Tick(coin)]);
      && w.Some? && Known(w.value.e.s)
      && var s := w.value.e.s;
         && s.running == [OLDER.id, NEWER.id] && s.free == []
         && EnsureCapacity(s, s.running).running == [NEWER.id]
         && EnsureCapacity(s, s.running).waiting == [OLDER.id]
  {
    hide Inv, Streams, Step, EnsureCapacity, MakeRoom, Start;
    var start := Start(m, enc, 2, 2, 2, zero);
    var evs := [Submit(OLDER), Submit(NEWER), Tick(coin)];
    Submitted(m, enc, zero);
    assert evs[..2] == [Submit(OLDER), Submit(NEWER)];
    var w := Play(start, evs[..2]).value;
    BothPrefilled(w.e, coin);
    assert Play(start, evs) == Perform(w, evs[2]);
    OlderGoes(Step(w.e, coin).value.0);
  }
}
