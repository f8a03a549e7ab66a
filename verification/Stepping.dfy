/** One engine step, from admission to the last sampled row: it never fails an assertion,
    keeps the invariant, and streams exactly what the sequences gained. */
module Stepping {
  import opened Wrappers
  import opened Transformer
  import opened Forward
  import opened Utf8
  import opened Tokenizer
  import opened Requests
  import opened Blocks
  import opened PagedCache
  import opened Scheduling
  import opened Ownership
  import opened Capacity
  import opened Serving
  import opened Refinement

  // ----- what consumers have been sent

  /** Tokens and text delivered so far, by request. */
  type Streamed = map<RequestId, (seq<Token>, string)>

  function Deliver(st: Streamed, out: RequestOutput): Streamed {
    var (toks, text) := if out.id in st then st[out.id] else ([], "");
    st[out.id := (toks + out.tokens, text + out.delta)]
  }

  function DeliverAll(st: Streamed, outs: seq<RequestOutput>): Streamed
    decreases |outs|
  {
    if outs == [] then st else DeliverAll(Deliver(st, outs[0]), outs[1..])
  }

  /** The text a normally finished request has streamed: its decoded text, cut where the
      selected stop string starts or at what had been sent before the last token. */
  function FinalShown(enc: Table, r: Request, output: seq<Token>): string
    requires output != []
  {
    var full := FullText(enc, output);
    match SelectedStop(r.stop, full)
    case None => full
    case Some(stop) =>
      var idx := Find(stop, full).value;
      var before := |SafeText(enc, output[..|output| - 1])|;
      if idx <= before then (if before <= |full| then full[..before] else full) else full[..idx]
  }

  function Shown(enc: Table, q: Seq): string {
    if q.status == Finished && q.reason != Some(Cancelled) && q.output != [] then FinalShown(enc, q.request, q.output)
    else SafeText(enc, q.output)
  }

  ghost predicate Streams(e: Engine, st: Streamed) {
    forall id | id in e.s.seqs :: id in st && st[id] == (e.s.seqs[id].output, Shown(e.enc, e.s.seqs[id]))
  }

  lemma CutText(pre: string, delta: string, idx: nat)
    requires idx <= |pre + delta|
    ensures pre + delta[..if idx <= |pre| then 0 else idx - |pre|] ==
      (pre + delta)[..if idx <= |pre| then |pre| else idx]
  {
  }

  /** The last delta, cut at the stop string, completes what has been shown. */
  lemma TruncateShows(enc: Table, r: Request, o: seq<Token>, tok: Token, delta: string)
    requires SafeText(enc, o) + delta == FullText(enc, o + [tok])
    ensures SafeText(enc, o) + TruncateAtStop(r, FullText(enc, o + [tok]), delta).0 == FinalShown(enc, r, o + [tok])
    ensures TruncateAtStop(r, FullText(enc, o + [tok]), delta).1 <==>
      exists x | x in r.stop :: Occurs(x, FullText(enc, o + [tok]))
  {
    hide SafeText, FullText, StartsAt;
    assert (o + [tok])[..|o + [tok]| - 1] == o;
    var full := FullText(enc, o + [tok]);
    match SelectedStop(r.stop, full)
    case None =>
    case Some(stop) =>
      FindWithin(stop, full);
      CutText(SafeText(enc, o), delta, Find(stop, full).value);
  }

  lemma FindWithin(needle: string, hay: string)
    requires Occurs(needle, hay)
    ensures Find(needle, hay).value + |needle| <= |hay|
  {
  }

  /** The output of advancing one row is what its sequence gained. */
  lemma AdvanceOutput(e: Engine, id: RequestId, tok: Token)
    requires Known(e.s) && id in e.s.seqs && id in e.detoks && LiveOk(e.enc, e.s.seqs[id], e.detoks[id])
    requires e.s.seqs[id].status == Running
    ensures var out := Advance(e, id, tok).1;
      var q, q' := e.s.seqs[id], Advanced(e, id, tok).s.seqs[id];
      && out.id == id && out.tokens == [tok] && q'.output == q.output + out.tokens
      && Shown(e.enc, q') == Shown(e.enc, q) + out.delta
      && (out.finished <==> q'.status == Finished) && out.reason == q'.reason
  {
    hide SafeText, FullText, FinalShown, Beyond;
    var q := e.s.seqs[id];
    var o := q.output + [tok];
    AdvanceText(e.enc, q.output, tok);
    if Stops(e.enc, q.request, o) {
      var delta := Beyond(SafeText(e.enc, o), SafeText(e.enc, q.output));
      var tail := Beyond(FullText(e.enc, o), SafeText(e.enc, o));
      assert SafeText(e.enc, q.output) + (delta + tail) == SafeText(e.enc, q.output) + delta + tail;
      TruncateShows(e.enc, q.request, q.output, tok, delta + tail);
    }
  }

  lemma AdvanceStreams(e: Engine, id: RequestId, tok: Token, st: Streamed)
    requires Base(e) && id in e.s.running && id in e.s.seqs && id in e.detoks && Streams(e, st)
    ensures Streams(Advanced(e, id, tok), Deliver(st, Advance(e, id, tok).1))
  {
    hide Base, Advanced, Advance, Shown, Ledger, LiveOk, SeqOk;
    BaseLedger(e);
    InRunning(e, id);
    AdvanceOutput(e, id, tok);
    AdvanceFrame(e, id, tok);
  }

  /** What consumers see of a sequence is unchanged. */
  predicate SameOutput(q: Seq, q': Seq) {
    && q'.request == q.request && q'.output == q.output && q'.reason == q.reason
    && (q'.status == Finished <==> q.status == Finished)
  }

  /** Sequences whose output, status and reason are unchanged show what they showed. */
  lemma StreamsKept(e: Engine, e': Engine, st: Streamed)
    requires Streams(e, st) && e'.enc == e.enc && e'.s.seqs.Keys == e.s.seqs.Keys
    requires forall id | id in e.s.seqs :: var q, q' := e.s.seqs[id], e'.s.seqs[id];
      SameOutput(q, q')
    ensures Streams(e', st)
  {
    hide FinalShown, SafeText;
  }

  // ----- sampling a whole batch

  /** The token sampled from the reference's logits is the reference's token. */
  lemma SampledRight(e: Engine, id: RequestId, coin: Coin)
    requires Base(e) && id in e.s.running
    ensures |e.s.seqs[id].Tokens()| > 0
    ensures e.s.seqs[id].request.Greedy() ==>
      Sampled(e, id, RefLogits(e.m, e.s.seqs[id].Tokens()), coin) == Next(e.m, e.s.seqs[id].Tokens())
  {
    hide Base, RefLogits, BlocksNeeded;
    BaseLedger(e);
    RunningBasics(e, id);
    LiveLength(e, id);
  }

  lemma RightLogitsRest(e: Engine, ids: seq<RequestId>, logits: seq<seq<real>>, tok: Token)
    requires ids != [] && RightLogits(e, ids, logits) && Ledger(e.s) && ids[0] in e.s.running && ids[0] !in ids[1..]
    requires Known(e.s) && |logits| == |ids|
    ensures RightLogits(Advanced(e, ids[0], tok), ids[1..], logits[1..])
  {
    hide RefLogits, Advanced, Ledger;
    AdvanceFrame(e, ids[0], tok);
    var e' := Advanced(e, ids[0], tok);
    forall r | 0 <= r < |ids[1..]| ensures
      ids[1..][r] in e'.s.seqs && |e'.s.seqs[ids[1..][r]].Tokens()| > 0
      && logits[1..][r] == RefLogits(e'.m, e'.s.seqs[ids[1..][r]].Tokens())
    {
      assert ids[1..][r] == ids[r + 1];
    }
  }

  lemma {:induction false} AdvanceAllMid(e: Engine, toPrefill: seq<RequestId>, ids: seq<RequestId>,
      logits: seq<seq<real>>, coin: Coin, st: Streamed)
    requires Mid(e, toPrefill, ids) && |logits| == |ids| && RightLogits(e, ids, logits) && Streams(e, st)
    requires Known(e.s) && forall id | id in ids :: id in e.s.seqs && id in e.detoks
    ensures var (e', outs) := AdvanceAll(e, ids, logits, coin);
      Mid(e', toPrefill, []) && Streams(e', DeliverAll(st, outs)) && |outs| == |ids|
    decreases |ids|
  {
    hide Mid, Base, Ledger, Streams, Advance, Advanced, RefLogits, RightLogits, LiveOk, Deliver, Sampled;
    if ids != [] {
      var id, rest := ids[0], ids[1..];
      assert ids == [id] + rest;
      MidMembers(e, toPrefill, id, rest);
      InRunning(e, id);
      FirstSampled(e, ids, logits, coin);
      var tok := Sampled(e, id, logits[0], coin);
      AdvanceSpec(e, id, tok);
      AdvanceMid(e, toPrefill, id, rest, tok);
      AdvanceStreams(e, id, tok, st);
      RightLogitsRest(e, ids, logits, tok);
      AdvanceFrame(e, id, tok);
      AdvanceAllMid(Advanced(e, id, tok), toPrefill, rest, logits[1..], coin, Deliver(st, Advance(e, id, tok).1));
    }
  }

  lemma FirstSampled(e: Engine, ids: seq<RequestId>, logits: seq<seq<real>>, coin: Coin)
    requires ids != [] && RightLogits(e, ids, logits) && Base(e) && ids[0] in e.s.running
    ensures e.s.seqs[ids[0]].request.Greedy() ==>
      Sampled(e, ids[0], logits[0], coin) == Next(e.m, e.s.seqs[ids[0]].Tokens())
  {
    hide Base, RefLogits, Next, Sampled;
    SampledRight(e, ids[0], coin);
  }

  // ----- prefilling a batch

  lemma PrefillOneMid(e: Engine, id: RequestId, rest: seq<RequestId>, coin: Coin, st: Streamed)
    requires Mid(e, [id] + rest, []) && Streams(e, st)
    ensures PrefillOne(e, id, coin).Some?
    ensures var (e', out) := PrefillOne(e, id, coin).value; Mid(e', rest, []) && Streams(e', Deliver(st, out))
  {
    hide Mid, Base, Ledger, Streams, Advance, Advanced, RefLogits, LiveOk, Deliver, PrefillPass, PrefillLegal, Phases,
      Sampled, Admitted;
    MidPending(e, id, rest);
    BaseLedger(e);
    PrefillIsLegal(e, id);
    PrefillMid(e, id, rest);
    var (e1, logits) := PrefillPass(e, id);
    PrefillFrame(e, id, st);
    MidMembers(e1, rest, id, []);
    InRunning(e1, id);
    SampledRight(e1, id, coin);
    var tok := Sampled(e1, id, logits, coin);
    assert [id] + [] == [id];
    AdvanceSpec(e1, id, tok);
    AdvanceMid(e1, rest, id, [], tok);
    AdvanceStreams(e1, id, tok, st);
  }

  lemma MidPending(e: Engine, id: RequestId, rest: seq<RequestId>)
    requires Mid(e, [id] + rest, [])
    ensures Base(e) && Known(e.s) && id in e.s.running && Admitted(e, e.s.seqs[id]) && id !in rest
    ensures Phases(e, [id] + rest, [])
    ensures NoDup(rest) && forall x | x in rest :: x in e.s.running
  {
    hide Base, Admitted, Computed, Settled;
    var all := [id] + rest;
    BaseLedger(e);
    assert all[0] == id && all[1..] == rest;
    NoDupTail(all);
    forall i | 0 <= i < |rest| ensures rest[i] != id {
      assert all[i + 1] != all[0];
    }
    assert forall x | x in rest :: x in all;
  }

  lemma PrefillMid(e: Engine, id: RequestId, rest: seq<RequestId>)
    requires Mid(e, [id] + rest, []) && PrefillLegal(e, id)
    ensures Mid(PrefillPass(e, id).0, rest, [id] + [])
    ensures |e.s.seqs[id].Tokens()| > 0 && PrefillPass(e, id).1 == RefLogits(e.m, e.s.seqs[id].Tokens())
  {
    hide Mid, Base, Ledger, PrefillLegal, Phases, RefLogits, PrefillPass, Admitted;
    MidPending(e, id, rest);
    BaseLedger(e);
    PrefillBase(e, id);
    PrefillPhases(e, id, rest);
    assert [id] + [] == [id];
    PrefillRunning(e, id);
    MidFrom(PrefillPass(e, id).0, id, rest);
  }

  lemma MidFrom(e: Engine, id: RequestId, rest: seq<RequestId>)
    requires Base(e) && Known(e.s) && Phases(e, rest, [id]) && id in e.s.running && id !in rest && NoDup(rest)
    requires forall x | x in rest :: x in e.s.running
    ensures Mid(e, rest, [id])
  {
    hide Base, Phases;
  }

  lemma PrefillRunning(e: Engine, id: RequestId)
    requires PrefillLegal(e, id)
    ensures PrefillPass(e, id).0.s.running == e.s.running
  {
    hide PrefillLegal, Run, PrefillPlan;
  }

  lemma PrefillFrame(e: Engine, id: RequestId, st: Streamed)
    requires PrefillLegal(e, id) && Streams(e, st)
    ensures var e1 := PrefillPass(e, id).0;
      && Streams(e1, st) && e1.m == e.m && e1.s.seqs[id].Tokens() == e.s.seqs[id].Tokens()
  {
    hide Run, PrefillPlan, Fits, BlocksNeeded, Shown;
    StreamsKept(e, PrefillPass(e, id).0, st);
  }

  lemma {:induction false} PrefillAllMid(e: Engine, ids: seq<RequestId>, coin: Coin, st: Streamed)
    requires Mid(e, ids, []) && Streams(e, st)
    ensures PrefillAll(e, ids, coin).Some?
    ensures var (e', outs) := PrefillAll(e, ids, coin).value;
      Mid(e', [], []) && Streams(e', DeliverAll(st, outs)) && |outs| == |ids|
    decreases |ids|
  {
    hide Mid, PrefillOne, Streams, Deliver;
    if ids != [] {
      var id, rest := ids[0], ids[1..];
      assert ids == [id] + rest;
      PrefillOneMid(e, id, rest, coin, st);
      var (e1, out) := PrefillOne(e, id, coin).value;
      PrefillAllMid(e1, rest, coin, Deliver(st, out));
    }
  }

  // ----- scheduling

  lemma {:induction false} AdmitGrows(s: Sched, a: seq<RequestId>)
    requires Known(s) && forall id | id in a :: id in s.seqs
    ensures |Admit(s, a).1| >= |a|
    decreases |s.waiting|
  {
    if |s.running| + |a| < s.maxBatch && HeadFits(s) {
      AdmitGrows(AdmitHead(s), a + [s.waiting[0]]);
    }
  }

  /** When nobody is admitted, scheduling changes nothing. */
  lemma ScheduleIdle(s: Sched)
    requires Known(s) && !Schedule(s).2
    ensures Schedule(s) == (s, s.running, false)
  {
    if |s.running| < s.maxBatch && HeadFits(s) {
      AdmitGrows(AdmitHead(s), [] + [s.waiting[0]]);
    }
  }

  /** What scheduling does to one sequence. */
  lemma ScheduledSeq(s: Sched, id: RequestId)
    requires Ledger(s) && id in s.seqs && Schedule(s).2
    ensures var (s', batch, _) := Schedule(s);
      var q, q' := s.seqs[id], s'.seqs[id];
      if id in batch
        then
          && q.status == Waiting && q' == q.(status := Running, table := q'.table)
          && |q'.table| == BlocksNeeded(q.NumTokens(), s.blockSize)
        else q' == q
  {
    hide Conserved, BlocksNeeded;
    AdmissionExact(s);
    var k := |Schedule(s).1|;
    var s' := Schedule(s).0;
    assert AdmittedFirst(s, s'.(running := s.running), k);
    if id in s.waiting[..k] {
      assert id in s.waiting;
    }
  }

  lemma ScheduledShape(s: Sched)
    requires Ledger(s) && Schedule(s).2
    ensures var (s', batch, _) := Schedule(s);
      && s'.running == s.running + batch
      && s'.blockSize == s.blockSize && s'.numBlocks == s.numBlocks && s'.maxBatch == s.maxBatch
      && s'.seqs.Keys == s.seqs.Keys && batch != [] && NoDup(batch)
      && (forall id | id in batch :: id in s.waiting && id in s.seqs)
  {
    hide Conserved, BlocksNeeded, OnlyRunningOwn;
    AdmissionExact(s);
    assert forall id | id in Schedule(s).1 :: id in s.waiting;
  }

  lemma AdmittedOk(e: Engine, e1: Engine, q: Seq, q': Seq)
    requires SeqOk(e.m, e.enc, e.detoks, q) && q.status != Finished
    requires e1.m == e.m && e1.enc == e.enc && e1.detoks == e.detoks
    requires q' == q.(status := q'.status, table := q'.table, computed := q'.computed) && q'.status != Finished
    ensures SeqOk(e1.m, e1.enc, e1.detoks, q')
  {
  }

  lemma ScheduleBase(e: Engine)
    requires Base(e) && Known(e.s) && Schedule(e.s).2
    ensures Base(e.(s := Schedule(e.s).0))
  {
    hide SeqOk, Ledger, BlocksNeeded, Schedule, CellsExist;
    ScheduleLedger(e.s);
    ScheduledShape(e.s);
    var e1 := e.(s := Schedule(e.s).0);
    forall id | id in e1.s.seqs ensures SeqOk(e1.m, e1.enc, e1.detoks, e1.s.seqs[id]) {
      ScheduledSeq(e.s, id);
      if e1.s.seqs[id] != e.s.seqs[id] {
        AdmittedOk(e, e1, e.s.seqs[id], e1.s.seqs[id]);
      }
    }
  }

  lemma WaitingOwnsNothing(s: Sched, id: RequestId)
    requires Ledger(s) && id in s.waiting
    ensures id in s.seqs && s.seqs[id].computed == 0 && s.seqs[id].table == [] && id !in s.running
    ensures s.seqs[id].status == Waiting
  {
  }

  lemma ScheduleMid(e: Engine)
    requires Inv(e) && Known(e.s) && Schedule(e.s).2
    ensures Mid(e.(s := Schedule(e.s).0), Schedule(e.s).1, [])
  {
    hide Base, Ledger, Settled, Computed, BlocksNeeded, Schedule, Admitted;
    BaseLedger(e);
    ScheduleBase(e);
    ScheduledShape(e.s);
    var (s1, batch, _) := Schedule(e.s);
    var e1 := e.(s := s1);
    forall id | id in s1.running
      ensures if id in batch then Admitted(e1, s1.seqs[id]) else Settled(e1, s1.seqs[id])
    {
      ScheduledSeq(e.s, id);
      if id in batch {
        WaitingOwnsNothing(e.s, id);
        AdmittedFrom(e1, s1.seqs[id]);
      } else {
        PhaseElsewhere(e, e1, e.s.seqs[id]);
      }
    }
  }

  lemma AdmittedFrom(e: Engine, q: Seq)
    requires e.s.blockSize > 0 && q.computed == 0 && |q.table| == BlocksNeeded(q.NumTokens(), e.s.blockSize)
    ensures Admitted(e, q)
  {
  }

  lemma ScheduleStreams(e: Engine, st: Streamed)
    requires Base(e) && Known(e.s) && Schedule(e.s).2 && Streams(e, st)
    ensures Streams(e.(s := Schedule(e.s).0), st)
  {
    hide Base, Ledger, BlocksNeeded, Schedule, Shown, Streams;
    BaseLedger(e);
    ScheduledShape(e.s);
    var e1 := e.(s := Schedule(e.s).0);
    forall id | id in e.s.seqs
      ensures var q, q' := e.s.seqs[id], e1.s.seqs[id];
        SameOutput(q, q')
    {
      ScheduledSeq(e.s, id);
    }
    StreamsKept(e, e1, st);
  }

  // ----- making room

  ghost function Roomy(e: Engine): Engine
    requires Known(e.s)
  {
    e.(s := EnsureCapacity(e.s, e.s.running))
  }

  lemma SettledTight(e: Engine)
    requires Inv(e)
    ensures Visiting(e.s, e.s.running)
  {
  }

  lemma RoomSpec(e: Engine)
    requires Inv(e) && Known(e.s)
    ensures var s' := EnsureCapacity(e.s, e.s.running);
      && Ledger(s') && Evolves(e.s, s')
      && forall id | id in s'.running :: Ready(s'.seqs[id], e.s.blockSize)
  {
    hide Inv, Ledger, Evolves, BlocksNeeded, EnsureCapacity;
    SettledTight(e);
    EnsureCapacitySpec(e.s, e.s.running);
  }

  lemma EvolvedSeq(s: Sched, s': Sched, id: RequestId)
    requires Evolves(s, s') && id in s.seqs && Ledger(s')
    ensures id in s'.seqs && SeqEvolves(s.seqs[id], s'.seqs[id])
    ensures id in s'.running ==> id in s.running && s'.seqs[id].status == Running
    ensures s'.seqs.Keys == s.seqs.Keys && s'.blockSize == s.blockSize && s'.numBlocks == s.numBlocks
  {
  }

  lemma EvolvedOk(e: Engine, q: Seq, q': Seq)
    requires SeqOk(e.m, e.enc, e.detoks, q) && SeqEvolves(q, q')
    ensures SeqOk(e.m, e.enc, e.detoks, q')
  {
    if q != q' {
      AdmittedOk(e, e, q, q');
    }
  }

  lemma RoomBase(e: Engine)
    requires Inv(e) && Known(e.s)
    ensures Base(Roomy(e))
  {
    hide Inv, SeqOk, Ledger, BlocksNeeded, EnsureCapacity, CellsExist, Evolves, SeqEvolves;
    RoomSpec(e);
    InvBase(e);
    var e1 := Roomy(e);
    EvolvesSizes(e.s, e1.s);
    forall id | id in e1.s.seqs ensures SeqOk(e1.m, e1.enc, e1.detoks, e1.s.seqs[id]) {
      EvolvedSeq(e.s, e1.s, id);
      EvolvedOk(e, e.s.seqs[id], e1.s.seqs[id]);
    }
  }

  lemma InvBase(e: Engine)
    requires Inv(e)
    ensures Base(e) && Known(e.s) && Ledger(e.s)
  {
  }

  lemma InvSettled(e: Engine, id: RequestId)
    requires Inv(e) && id in e.s.running
    ensures id in e.s.seqs && Settled(e, e.s.seqs[id])
  {
  }

  lemma CachedLonger(m: Model, store: Store, q: Seq, q': Seq, n: nat, bs: nat)
    requires Cached(m, store, q, n, bs) && q.table <= q'.table && q'.Tokens() == q.Tokens()
    ensures Cached(m, store, q', n, bs)
  {
    hide RefKV, BlocksNeeded;
    forall l, i | 0 <= l < m.nLayer && 0 <= i < n ensures HasEntry(m, store[l], q', l, i, bs) {
      assert HasEntry(m, store[l], q, l, i, bs);
    }
  }

  lemma RoomReadyOne(e: Engine, id: RequestId)
    requires Inv(e) && Known(e.s) && id in Roomy(e).s.running
    ensures id in Roomy(e).s.seqs && DecodeReady(Roomy(e), Roomy(e).s.seqs[id])
  {
    hide Inv, Ledger, BlocksNeeded, EnsureCapacity, Evolves, Cached;
    RoomSpec(e);
    InvBase(e);
    var e1 := Roomy(e);
    EvolvesSizes(e.s, e1.s);
    EvolvedRunning(e.s, e1.s, id);
    EvolvedSeq(e.s, e1.s, id);
    InvSettled(e, id);
    CachedLonger(e.m, e.store, e.s.seqs[id], e1.s.seqs[id], e.s.seqs[id].computed, e.s.blockSize);
  }

  lemma EvolvedRunning(s: Sched, s': Sched, id: RequestId)
    requires Evolves(s, s') && id in s'.running && Ledger(s)
    ensures id in s.running && id in s.seqs
  {
  }

  lemma RoomReady(e: Engine)
    requires Inv(e) && Known(e.s) && Roomy(e).s.running != []
    ensures AllReady(Roomy(e))
  {
    hide Inv, Base, Roomy, DecodeReady;
    RoomBase(e);
    BaseLedger(Roomy(e));
    forall id | id in Roomy(e).s.running ensures id in Roomy(e).s.seqs && DecodeReady(Roomy(e), Roomy(e).s.seqs[id]) {
      RoomReadyOne(e, id);
    }
  }

  lemma RoomStreams(e: Engine, st: Streamed)
    requires Inv(e) && Known(e.s) && Streams(e, st)
    ensures Streams(Roomy(e), st)
  {
    hide Inv, Ledger, BlocksNeeded, EnsureCapacity, Evolves, Shown, Streams;
    RoomSpec(e);
    var e1 := Roomy(e);
    forall id | id in e.s.seqs
      ensures id in e1.s.seqs
      ensures var q, q' := e.s.seqs[id], e1.s.seqs[id];
        SameOutput(q, q')
    {
      EvolvedSeq(e.s, e1.s, id);
    }
    StreamsKept(e, e1, st);
  }

  // ----- the step

  lemma DecodeStep(e: Engine, coin: Coin, st: Streamed)
    requires AllReady(e) && Streams(e, st)
    ensures DecodeBatchStep(e, e.s.running, coin).Some?
    ensures var (e', outs) := DecodeBatchStep(e, e.s.running, coin).value;
      Mid(e', [], []) && Streams(e', DeliverAll(st, outs)) && |outs| == |e.s.running|
  {
    hide AllReady, Base, Mid, Ledger, Streams, DecodeLegal, DecodePass, AdvanceAll, DeliverAll, RefLogits;
    DecodeIsLegal(e);
    DecodePassMid(e);
    DecodePassPhases(e);
    DecodeFrame(e, st);
    var (e1, logits) := DecodePass(e, e.s.running);
    AdvanceAllMid(e1, [], e.s.running, logits, coin, st);
  }

  lemma DecodeFrame(e: Engine, st: Streamed)
    requires AllReady(e) && DecodeLegal(e, e.s.running) && Streams(e, st)
    ensures var (e1, logits) := DecodePass(e, e.s.running);
      && Known(e1.s) && Streams(e1, st) && RightLogits(e1, e.s.running, logits)
      && forall id | id in e.s.running :: id in e1.s.seqs && id in e1.detoks
  {
    hide AllReady, Base, Ledger, DecodePlan, DecodeRowsOk, Fits, Run, RefLogits, BlocksNeeded, Shown, Streams;
    ReadyBase(e);
    DecodePassPhases(e);
    StreamsKept(e, DecodePass(e, e.s.running).0, st);
  }

  lemma MidIsInv(e: Engine)
    ensures Mid(e, [], []) ==> Inv(e)
  {
  }

  /** Every step from a good state succeeds, leads to a good state, and streams exactly what
      the sequences gained. */
  lemma StepRefines(e: Engine, coin: Coin, st: Streamed)
    requires Inv(e) && Known(e.s) && Streams(e, st)
    ensures Step(e, coin).Some?
    ensures var (e', outs) := Step(e, coin).value; Inv(e') && Streams(e', DeliverAll(st, outs))
  {
    hide Inv, Base, Mid, Ledger, Streams, Schedule, DecodeBatchStep, PrefillAll, EnsureCapacity;
    InvBase(e);
    if Schedule(e.s).2 {
      ScheduledShape(e.s);
      ScheduleMid(e);
      ScheduleStreams(e, st);
      PrefillAllMid(e.(s := Schedule(e.s).0), Schedule(e.s).1, coin, st);
      MidIsInv(PrefillAll(e.(s := Schedule(e.s).0), Schedule(e.s).1, coin).value.0);
    } else {
      ScheduleIdle(e.s);
      if e.s.running != [] {
        RoomStreams(e, st);
        RoomBase(e);
        if Roomy(e).s.running == [] {
          EmptyInv(Roomy(e));
        } else {
          RoomReady(e);
          DecodeStep(Roomy(e), coin, st);
          MidIsInv(DecodeBatchStep(Roomy(e), Roomy(e).s.running, coin).value.0);
        }
      }
    }
  }

  lemma EmptyInv(e: Engine)
    requires Base(e) && e.s.running == []
    ensures Inv(e)
  {
  }
}
