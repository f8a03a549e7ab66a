/** Admission and preemption: who is let in, who is evicted, and that room is found. */
module Capacity {
  import opened Wrappers
  import opened Requests
  import opened Blocks
  import opened Scheduling
  import opened Ownership

  /** The table covers exactly the cached tokens. */
  ghost predicate Tight(q: Seq, bs: nat)
    requires bs > 0
  {
    |q.table| == BlocksNeeded(q.computed, bs)
  }

  /** The table covers exactly the cached tokens and the one about to be written. */
  ghost predicate Ready(q: Seq, bs: nat)
    requires bs > 0
  {
    |q.table| == BlocksNeeded(q.computed + 1, bs)
  }

  // ----- preemption

  /** What a pass of making room may do to one sequence: leave it alone, let its table grow,
      or evict it with nothing left to its name. */
  ghost predicate SeqEvolves(q: Seq, q': Seq) {
    || q' == q
    || (q.status == Running && q' == q.(table := q'.table) && q.table <= q'.table)
    || (q.status == Running && q' == q.(table := [], computed := 0, status := Waiting))
  }

  ghost predicate Evolves(s: Sched, s': Sched) {
    && s'.blockSize == s.blockSize && s'.numBlocks == s.numBlocks && s'.maxBatch == s.maxBatch
    && s'.seqs.Keys == s.seqs.Keys
    && (forall id | id in s.seqs :: SeqEvolves(s.seqs[id], s'.seqs[id]))
    && |s.waiting| <= |s'.waiting|
    && s'.waiting[|s'.waiting| - |s.waiting|..] == s.waiting
    && (forall i | 0 <= i < |s'.waiting| - |s.waiting| :: s'.waiting[i] in s.running)
    && (forall id | id in s'.running :: id in s.running)
  }

  lemma EvolvesTransitive(a: Sched, b: Sched, c: Sched)
    requires Evolves(a, b) && Evolves(b, c)
    ensures Evolves(a, c)
  {
    var i, j := |b.waiting| - |a.waiting|, |c.waiting| - |b.waiting|;
    assert c.waiting[i + j..] == c.waiting[j..][i..];
    forall k | 0 <= k < i + j ensures c.waiting[k] in a.running {
      if k >= j {
        assert c.waiting[k] == c.waiting[j..][k - j];
      }
    }
    forall id | id in a.seqs ensures SeqEvolves(a.seqs[id], c.seqs[id]) {
      assert SeqEvolves(a.seqs[id], b.seqs[id]) && SeqEvolves(b.seqs[id], c.seqs[id]);
    }
  }

  lemma PreemptEvolves(s: Sched, id: RequestId)
    requires Ledger(s) && id in s.running
    ensures Evolves(s, Preempt(s, id))
  {
    RemoveNoDup(s.running, id);
  }

  lemma AppendEvolves(s: Sched, id: RequestId)
    requires Ledger(s) && id in s.running && Appended(s.free, s.seqs[id], s.blockSize).Some?
    ensures Evolves(s, Put(s, id, Appended(s.free, s.seqs[id], s.blockSize).value))
  {
  }

  /** Appending to a tight table makes it ready. */
  lemma AppendReady(free: seq<nat>, q: Seq, bs: nat)
    requires bs > 0 && Tight(q, bs) && Appended(free, q, bs).Some?
    ensures Ready(Appended(free, q, bs).value.1, bs)
  {
    BlocksNeededStep(q.computed, bs);
  }

  /** Making room for one sequence evicts others, newest first, and touches no other table;
      the sequence itself ends ready or, when it was the last one running, evicted too. */
  lemma {:induction false} MakeRoomSpec(s: Sched, id: RequestId)
    requires Ledger(s) && id in s.running && Tight(s.seqs[id], s.blockSize)
    ensures var s' := MakeRoom(s, id);
      && Ledger(s') && Evolves(s, s')
      && (id in s'.running ==> Ready(s'.seqs[id], s.blockSize))
      && (forall x | x in s'.running && x != id :: s'.seqs[x] == s.seqs[x])
      && (id !in s'.running ==> s'.running == [])
    decreases |s.running|
  {
    hide Conserved, OnlyRunningOwn, BlocksNeeded;
    MakeRoomLedger(s, id);
    if Appended(s.free, s.seqs[id], s.blockSize).Some? {
      AppendEvolves(s, id);
      AppendReady(s.free, s.seqs[id], s.blockSize);
    } else {
      match NewestOther(s, s.running, id)
      case None =>
        PreemptEvolves(s, id);
        RemoveNoDup(s.running, id);
        OnlyOne(s, id);
      case Some(victim) =>
        PreemptEvolves(s, victim);
        PreemptLedger(s, victim);
        RemoveNoDup(s.running, victim);
        var t := Preempt(s, victim);
        MakeRoomSpec(t, id);
        EvolvesTransitive(s, t, MakeRoom(t, id));
    }
  }

  lemma OnlyOne(s: Sched, id: RequestId)
    requires Ledger(s) && id in s.running && NewestOther(s, s.running, id).None?
    ensures s.running == [id]
  {
    forall i | 0 <= i < |s.running| ensures s.running[i] == id {
      assert s.running[i] in s.running;
    }
  }

  /** Who is evicted when a block for id is needed and none is free. */
  function Victim(s: Sched, id: RequestId): RequestId
    requires Known(s)
  {
    match NewestOther(s, s.running, id) case None => id case Some(victim) => victim
  }

  /** Eviction takes the newest running sequence exactly when that is not the one being served, or
      is the only one; otherwise it takes the newest but one. */
  lemma NewestEvictedExactly(s: Sched, id: RequestId)
    requires Ledger(s) && id in s.running
    ensures var n := |s.running|;
      && (Victim(s, id) == s.running[n - 1] <==> id != s.running[n - 1] || n == 1)
      && (n > 1 && id == s.running[n - 1] ==> Victim(s, id) == s.running[n - 2])
    ensures Appended(s.free, s.seqs[id], s.blockSize).None? ==>
      MakeRoom(s, id) == (if Victim(s, id) == id then Preempt(s, id) else MakeRoom(Preempt(s, Victim(s, id)), id))
  {
    hide Conserved, OnlyRunningOwn, Preempt, Appended;
    var n, front := |s.running|, s.running[..|s.running| - 1];
    assert s.running[n - 1] in s.running;
    if n > 1 {
      assert front[n - 2] == s.running[n - 2] && front[n - 2] in s.running;
      assert s.running[n - 2] != s.running[n - 1];
      if id == s.running[n - 1] {
        assert NewestOther(s, s.running, id) == NewestOther(s, front, id) == Some(front[n - 2]);
      }
    } else {
      OnlyOneListed(s, id);
    }
  }

  lemma OnlyOneListed(s: Sched, id: RequestId)
    requires Known(s) && s.running == [id]
    ensures NewestOther(s, s.running, id).None?
  {
    assert s.running[..0] == [];
  }

  lemma OwnsAll(s: Sched, id: RequestId)
    requires Ledger(s) && s.running == [id] && s.free == []
    ensures |s.seqs[id].table| == s.numBlocks
  {
    ConservedCount(s);
    assert s.running[..0] == [];
  }

  lemma RoomAlone(s: Sched, id: RequestId)
    requires Ledger(s) && s.running == [id]
    requires BlocksNeeded(s.seqs[id].computed + 1, s.blockSize) <= s.numBlocks
    ensures Appended(s.free, s.seqs[id], s.blockSize).Some?
  {
    hide Ledger, BlocksNeeded;
    if s.free == [] {
      OwnsAll(s, id);
    }
  }

  /** A sequence the pool could hold alone is never evicted in its own favour. */
  lemma {:induction false} MakeRoomKeeps(s: Sched, id: RequestId)
    requires Ledger(s) && id in s.running
    requires BlocksNeeded(s.seqs[id].computed + 1, s.blockSize) <= s.numBlocks
    ensures id in MakeRoom(s, id).running
    decreases |s.running|
  {
    hide Conserved, OnlyRunningOwn, BlocksNeeded, NoDup, Appended;
    if Appended(s.free, s.seqs[id], s.blockSize).None? {
      match NewestOther(s, s.running, id)
      case None =>
        OnlyOne(s, id);
        RoomAlone(s, id);
      case Some(victim) =>
        PreemptLedger(s, victim);
        RemoveNoDup(s.running, victim);
        MakeRoomKeeps(Preempt(s, victim), id);
    }
  }

  /** Every running sequence is either ready or still to be visited, and tight. */
  ghost predicate Visiting(s: Sched, ids: seq<RequestId>) {
    && Ledger(s) && NoDup(ids) && (forall id | id in ids :: id in s.seqs)
    && forall id | id in s.running ::
         if id in ids then Tight(s.seqs[id], s.blockSize) else Ready(s.seqs[id], s.blockSize)
  }

  function Visit(s: Sched, id: RequestId): Sched
    requires Known(s) && id in s.seqs
  {
    if s.seqs[id].status != Running then s else MakeRoom(s, id)
  }

  lemma LedgerStatus(s: Sched, id: RequestId)
    requires Ledger(s)
    ensures id in s.running ==> id in s.seqs && s.seqs[id].status == Running
    ensures id in s.seqs && s.seqs[id].status == Running ==> id in s.running
  {
  }

  lemma LedgerQueues(s: Sched)
    requires Ledger(s)
    ensures Queues(s) && Known(s)
  {
  }

  lemma VisitSpec(s: Sched, ids: seq<RequestId>)
    requires ids != [] && Visiting(s, ids)
    ensures Visiting(Visit(s, ids[0]), ids[1..]) && Evolves(s, Visit(s, ids[0]))
  {
    var id, rest := ids[0], ids[1..];
    var t := Visit(s, id);
    assert id !in rest && ids == [id] + rest;
    LedgerStatus(s, id);
    EvolvesSelf(s);
    if s.seqs[id].status == Running {
      MakeRoomSpec(s, id);
    }
    EvolvesSizes(s, t);
    assert forall x | x in t.running :: x in s.running;
    hide Ledger, MakeRoom, Evolves, Tight, Ready, NoDup;
    forall x | x in t.running
      ensures if x in rest then Tight(t.seqs[x], t.blockSize) else Ready(t.seqs[x], t.blockSize)
    {
      assert x in ids <==> x == id || x in rest;
    }
    assert NoDup(rest) by { NoDupTail(ids); }
  }

  lemma NoDupTail(ids: seq<RequestId>)
    requires ids != [] && NoDup(ids)
    ensures NoDup(ids[1..])
  {
  }

  lemma EvolvesSelf(s: Sched)
    ensures Evolves(s, s)
  {
  }

  /** After the pass every sequence still running is ready for its next token, also those
      visited before later evictions; nothing is lost, and whoever was evicted waits at the
      front with an empty table and nothing computed. */
  lemma {:induction false} EnsureCapacitySpec(s: Sched, ids: seq<RequestId>)
    requires Visiting(s, ids)
    ensures var s' := EnsureCapacity(s, ids);
      && Ledger(s') && Evolves(s, s')
      && forall id | id in s'.running :: Ready(s'.seqs[id], s.blockSize)
    decreases |ids|
  {
    if ids != [] {
      hide Ledger, Evolves, MakeRoom;
      VisitSpec(s, ids);
      var t := Visit(s, ids[0]);
      EnsureCapacitySpec(t, ids[1..]);
      EvolvesTransitive(s, t, EnsureCapacity(t, ids[1..]));
      assert t.blockSize == s.blockSize by { EvolvesSizes(s, t); }
    }
  }

  lemma EvolvesSizes(s: Sched, t: Sched)
    requires Evolves(s, t)
    ensures t.blockSize == s.blockSize && t.numBlocks == s.numBlocks && t.maxBatch == s.maxBatch
  {
  }

  lemma {:induction false} MakeRoomCounts(s: Sched, id: RequestId)
    requires Known(s) && id in s.seqs
    ensures var s' := MakeRoom(s, id); s'.preemptions - s.preemptions == |s'.waiting| - |s.waiting|
    decreases |s.running|
  {
    if Appended(s.free, s.seqs[id], s.blockSize).None? && NewestOther(s, s.running, id).Some? {
      MakeRoomCounts(Preempt(s, NewestOther(s, s.running, id).value), id);
    }
  }

  /** Every eviction of the pass is counted, once. */
  lemma {:induction false} EvictionsCounted(s: Sched, ids: seq<RequestId>)
    requires Known(s) && forall id | id in ids :: id in s.seqs
    ensures var s' := EnsureCapacity(s, ids); s'.preemptions - s.preemptions == |s'.waiting| - |s.waiting|
    decreases |ids|
  {
    hide MakeRoom;
    if ids != [] {
      if s.seqs[ids[0]].status != Running {
        EvictionsCounted(s, ids[1..]);
      } else {
        MakeRoomCounts(s, ids[0]);
        EvictionsCounted(MakeRoom(s, ids[0]), ids[1..]);
      }
    }
  }

  /** The pool can hold each running sequence, with its next token, alone. */
  ghost predicate EachFits(s: Sched)
    requires Known(s)
  {
    forall id | id in s.running :: BlocksNeeded(s.seqs[id].computed + 1, s.blockSize) <= s.numBlocks
  }

  lemma EvolvesComputed(s: Sched, t: Sched, x: RequestId)
    requires Queues(s) && Queues(t) && Evolves(s, t) && x in t.running
    ensures x in s.running && t.seqs[x].computed == s.seqs[x].computed
  {
    assert SeqEvolves(s.seqs[x], t.seqs[x]) && t.seqs[x].status == Running;
  }

  lemma EachFitsEvolves(s: Sched, t: Sched)
    requires Queues(s) && Queues(t) && Evolves(s, t) && EachFits(s)
    ensures EachFits(t)
  {
    hide Evolves, BlocksNeeded, NoDup;
    EvolvesSizes(s, t);
    forall x | x in t.running ensures BlocksNeeded(t.seqs[x].computed + 1, t.blockSize) <= t.numBlocks {
      EvolvesComputed(s, t, x);
    }
  }

  lemma VisitKeeps(s: Sched, ids: seq<RequestId>)
    requires ids != [] && Visiting(s, ids) && EachFits(s) && s.running != []
    ensures var t := Visit(s, ids[0]); EachFits(t) && t.running != []
  {
    hide Ledger, Queues, Evolves, MakeRoom, BlocksNeeded, NoDup, Tight, Ready;
    VisitSpec(s, ids);
    LedgerStatus(s, ids[0]);
    LedgerQueues(s);
    LedgerQueues(Visit(s, ids[0]));
    EachFitsEvolves(s, Visit(s, ids[0]));
    if s.seqs[ids[0]].status == Running {
      MakeRoomKeeps(s, ids[0]);
    }
  }

  /** Then the pass leaves somebody running. */
  lemma {:induction false} EnsureCapacityKeeps(s: Sched, ids: seq<RequestId>)
    requires Visiting(s, ids) && EachFits(s) && s.running != []
    ensures EnsureCapacity(s, ids).running != []
    decreases |ids|
  {
    if ids != [] {
      hide Ledger, MakeRoom, EachFits;
      VisitSpec(s, ids);
      VisitKeeps(s, ids);
      EnsureCapacityKeeps(Visit(s, ids[0]), ids[1..]);
    }
  }

  // ----- admission

  /** Blocks the first k waiting sequences ask for. */
  function Demand(s: Sched, k: nat): nat
    requires Known(s) && k <= |s.waiting|
  {
    if k == 0 then 0
    else Demand(s, k - 1) + BlocksNeeded(s.seqs[s.waiting[k - 1]].NumTokens(), s.blockSize)
  }

  /** The state after admitting the first k waiting sequences. */
  ghost predicate AdmittedFirst(s: Sched, s': Sched, k: nat)
    requires Known(s) && k <= |s.waiting|
  {
    && s' == s.(free := s'.free, waiting := s.waiting[k..], seqs := s'.seqs)
    && s'.seqs.Keys == s.seqs.Keys
    && Demand(s, k) <= |s.free| && |s'.free| == |s.free| - Demand(s, k)
    && forall id | id in s.seqs ::
         if id in s.waiting[..k]
         then
           && s'.seqs[id] == s.seqs[id].(status := Running, table := s'.seqs[id].table)
           && |s'.seqs[id].table| == BlocksNeeded(s.seqs[id].NumTokens(), s.blockSize)
         else s'.seqs[id] == s.seqs[id]
  }

  lemma DistinctPrefix(ids: seq<RequestId>, k: nat)
    requires NoDup(ids) && k < |ids|
    ensures ids[k] !in ids[..k]
  {
  }

  lemma AdmitHeadSpec(t: Sched)
    requires Known(t) && HeadFits(t) && t.seqs[t.waiting[0]].table == []
    ensures var id, t' := t.waiting[0], AdmitHead(t);
      var needed := BlocksNeeded(t.seqs[id].NumTokens(), t.blockSize);
      && t' == t.(free := t'.free, waiting := t.waiting[1..], seqs := t.seqs[id := t'.seqs[id]])
      && t'.seqs[id] == t.seqs[id].(status := Running, table := t'.seqs[id].table)
      && |t'.seqs[id].table| == needed && |t'.free| == |t.free| - needed
  {
    hide Take, BlocksNeeded;
  }

  lemma AdmitOneMore(s: Sched, t: Sched, k: nat)
    requires Queues(s) && OnlyRunningOwn(s) && k < |s.waiting| && AdmittedFirst(s, t, k) && Known(t) && HeadFits(t)
    ensures AdmittedFirst(s, AdmitHead(t), k + 1)
  {
    hide AdmitHead, BlocksNeeded, NoDup;
    DistinctPrefix(s.waiting, k);
    AdmitHeadSpec(t);
    var id := s.waiting[k];
    assert id == t.waiting[0] && id !in s.waiting[..k];
    assert s.waiting[..k + 1] == s.waiting[..k] + [id];
    assert s.waiting[k..][1..] == s.waiting[k + 1..];
  }

  /** Admission stopped at the longest prefix of the line that the limits allow. */
  ghost predicate LongestFit(s: Sched, s': Sched, admitted: seq<RequestId>)
    requires Known(s)
  {
    var k := |admitted|;
    && k <= |s.waiting| && admitted == s.waiting[..k] && AdmittedFirst(s, s', k)
    && (k == 0 || |s.running| + k <= s.maxBatch)
    && (k == |s.waiting| || |s.running| + k >= s.maxBatch || Demand(s, k + 1) > |s.free|)
  }

  lemma AdmitStops(s: Sched, t: Sched, k: nat)
    requires Queues(s) && k <= |s.waiting| && AdmittedFirst(s, t, k) && Known(t)
    requires |s.running| + k <= s.maxBatch || k == 0
    requires |t.running| + k >= t.maxBatch || !HeadFits(t)
    ensures LongestFit(s, t, s.waiting[..k])
  {
    if k < |s.waiting| {
      assert t.waiting[0] == s.waiting[k] && s.waiting[k] !in s.waiting[..k];
    }
  }

  lemma AdmitGoesOn(s: Sched, t: Sched, k: nat)
    requires Queues(s) && OnlyRunningOwn(s) && k <= |s.waiting| && AdmittedFirst(s, t, k) && Known(t)
    requires |t.running| + k < t.maxBatch && HeadFits(t)
    ensures k < |s.waiting| && s.waiting[..k] + [t.waiting[0]] == s.waiting[..k + 1]
    ensures |s.running| + k + 1 <= s.maxBatch && AdmittedFirst(s, AdmitHead(t), k + 1)
  {
    AdmitOneMore(s, t, k);
  }

  lemma {:induction false} AdmitSpec(s: Sched, t: Sched, k: nat)
    requires Queues(s) && OnlyRunningOwn(s) && k <= |s.waiting| && AdmittedFirst(s, t, k) && Known(t)
    requires |s.running| + k <= s.maxBatch || k == 0
    requires forall id | id in s.waiting[..k] :: id in t.seqs
    ensures var (s', a) := Admit(t, s.waiting[..k]); LongestFit(s, s', a)
    decreases |s.waiting| - k
  {
    hide AdmittedFirst, OnlyRunningOwn, Queues, LongestFit;
    if |t.running| + |s.waiting[..k]| < t.maxBatch && HeadFits(t) {
      AdmitGoesOn(s, t, k);
      AdmitSpec(s, AdmitHead(t), k + 1);
    } else {
      AdmitStops(s, t, k);
    }
  }

  lemma AdmitNone(s: Sched)
    requires Known(s)
    ensures AdmittedFirst(s, s, 0)
  {
    assert s.waiting[0..] == s.waiting;
  }

  /** schedule() admits exactly the longest prefix of the waiting line that the batch limit and
      the free blocks allow, and prefills it when it is not empty. */
  lemma AdmissionExact(s: Sched)
    requires Ledger(s)
    ensures var (s', batch, prefill) := Schedule(s);
      var k := |s.waiting| - |s'.waiting|;
      && 0 <= k && (prefill <==> k > 0)
      && batch == (if prefill then s.waiting[..k] else s.running)
      && s'.running == s.running + s.waiting[..k]
      && LongestFit(s, s'.(running := s.running), s.waiting[..k])
  {
    hide Conserved, BlocksNeeded, Demand, NoDup, OnlyRunningOwn;
    AdmitNone(s);
    assert s.waiting[..0] == [];
    AdmitSpec(s, s, 0);
    var (t, a) := Admit(s, []);
    assert s.running + [] == s.running;
    assert t.waiting == s.waiting[|a|..];
    assert t.(running := t.running + a).(running := t.running) == t;
  }
}
