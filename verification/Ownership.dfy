/** Who owns which block: in every state the free list and the tables of the running sequences
    are an exact partition of the pool, and nobody else owns anything. */
module Ownership {
  import opened Wrappers
  import opened Requests
  import opened Blocks
  import opened Scheduling

  ghost predicate NoDup(ids: seq<RequestId>) {
    forall i, j | 0 <= i < j < |ids| :: ids[i] != ids[j]
  }

  /** All blocks in the tables of ids, with multiplicity. */
  ghost function Tables(ids: seq<RequestId>, seqs: map<RequestId, Seq>): multiset<nat>
    requires forall id | id in ids :: id in seqs
  {
    if ids == [] then multiset{}
    else Tables(ids[..|ids| - 1], seqs) + multiset(seqs[ids[|ids| - 1]].table)
  }

  /** Blocks 0..n-1, each once. */
  ghost function Pool(n: nat): (p: multiset<nat>)
    ensures |p| == n
    ensures forall b: nat :: p[b] == if b < n then 1 else 0
  {
    if n == 0 then multiset{} else Pool(n - 1) + multiset{n - 1}
  }

  ghost predicate Conserved(s: Sched)
    requires Known(s)
  {
    multiset(s.free) + Tables(s.running, s.seqs) == Pool(s.numBlocks)
  }

  /** The two queues name each live sequence exactly once and statuses agree with them. */
  ghost predicate Queues(s: Sched) {
    && Known(s)
    && NoDup(s.waiting) && NoDup(s.running)
    && (forall id | id in s.seqs ::
          && s.seqs[id].request.id == id
          && (s.seqs[id].status == Running <==> id in s.running)
          && (s.seqs[id].status == Waiting <==> id in s.waiting))
  }

  /** Only running sequences own blocks or have computed anything; requests still waiting
      start from nothing. */
  ghost predicate OnlyRunningOwn(s: Sched) {
    forall id | id in s.seqs ::
      && (s.seqs[id].status != Running ==> s.seqs[id].table == [])
      && (s.seqs[id].status == Waiting ==> s.seqs[id].computed == 0)
  }

  ghost predicate Ledger(s: Sched) {
    Queues(s) && OnlyRunningOwn(s) && Conserved(s)
  }

  // ----- arithmetic of tables

  lemma {:induction false} TablesAgree(ids: seq<RequestId>, a: map<RequestId, Seq>, b: map<RequestId, Seq>)
    requires forall id | id in ids :: id in a && id in b && a[id].table == b[id].table
    ensures Tables(ids, a) == Tables(ids, b)
  {
    if ids != [] {
      TablesAgree(ids[..|ids| - 1], a, b);
    }
  }

  lemma {:induction false} TablesConcat(xs: seq<RequestId>, ys: seq<RequestId>, seqs: map<RequestId, Seq>)
    requires forall id | id in xs + ys :: id in seqs
    ensures forall id | id in xs :: id in seqs
    ensures forall id | id in ys :: id in seqs
    ensures Tables(xs + ys, seqs) == Tables(xs, seqs) + Tables(ys, seqs)
  {
    assert forall id | id in xs :: id in xs + ys;
    assert forall id | id in ys :: id in xs + ys;
    if ys == [] {
      assert xs + ys == xs;
    } else {
      var n := |ys| - 1;
      assert (xs + ys)[..|xs + ys| - 1] == xs + ys[..n];
      TablesConcat(xs, ys[..n], seqs);
    }
  }

  lemma {:induction false} RemoveSplits(ids: seq<RequestId>, id: RequestId) returns (k: nat)
    requires id in ids
    ensures k < |ids| && ids[k] == id && Remove(ids, id) == ids[..k] + ids[k + 1..]
    ensures id !in ids[..k]
  {
    if ids[0] == id {
      k := 0;
    } else {
      var j := RemoveSplits(ids[1..], id);
      k := j + 1;
      assert ids[..k] == [ids[0]] + ids[1..][..j];
      assert ids[k + 1..] == ids[1..][j + 1..];
    }
  }

  lemma RemoveNoDup(ids: seq<RequestId>, id: RequestId)
    requires NoDup(ids)
    ensures NoDup(Remove(ids, id))
    ensures forall x :: x in Remove(ids, id) <==> x in ids && x != id
  {
    if id in ids {
      var k := RemoveSplits(ids, id);
      var r := Remove(ids, id);
      assert ids == ids[..k] + [id] + ids[k + 1..];
      assert id !in ids[k + 1..];
    }
  }

  lemma TablesRemove(ids: seq<RequestId>, id: RequestId, seqs: map<RequestId, Seq>)
    requires id in ids && forall x | x in ids :: x in seqs
    ensures Tables(ids, seqs) == Tables(Remove(ids, id), seqs) + multiset(seqs[id].table)
  {
    var k := RemoveSplits(ids, id);
    assert ids == ids[..k] + ([id] + ids[k + 1..]);
    TablesConcat(ids[..k], [id] + ids[k + 1..], seqs);
    TablesConcat([id], ids[k + 1..], seqs);
    TablesConcat(ids[..k], ids[k + 1..], seqs);
    TablesOne(id, seqs);
  }

  lemma TablesOne(id: RequestId, seqs: map<RequestId, Seq>)
    requires id in seqs
    ensures Tables([id], seqs) == multiset(seqs[id].table)
  {
    assert [id][..0] == [];
  }

  /** Updating one listed sequence changes the tables by its own difference. */
  lemma TablesPut(ids: seq<RequestId>, id: RequestId, seqs: map<RequestId, Seq>, q: Seq)
    requires NoDup(ids) && id in ids && forall x | x in ids :: x in seqs
    ensures Tables(ids, seqs[id := q]) + multiset(seqs[id].table) == Tables(ids, seqs) + multiset(q.table)
  {
    TablesRemove(ids, id, seqs);
    TablesRemove(ids, id, seqs[id := q]);
    RemoveNoDup(ids, id);
    TablesAgree(Remove(ids, id), seqs, seqs[id := q]);
  }

  // ----- every transition keeps the ledger

  lemma AddLedger(s: Sched, r: Request)
    requires Ledger(s) && r.id !in s.seqs
    ensures Ledger(Add(s, r))
  {
    hide Tables, Pool;
    TablesAgree(s.running, s.seqs, Add(s, r).seqs);
  }

  /** A running sequence may trade blocks with the free list. */
  lemma PutLedger(s: Sched, id: RequestId, r: (seq<nat>, Seq))
    requires Ledger(s) && id in s.running
    requires r.1.status == Running && r.1.request.id == id
    requires multiset(r.0) + multiset(r.1.table) == multiset(s.free) + multiset(s.seqs[id].table)
    ensures Ledger(Put(s, id, r))
  {
    TablesPut(s.running, id, s.seqs, r.1);
    Trade(multiset(s.free), multiset(r.0), Tables(s.running, s.seqs), Tables(s.running, s.seqs[id := r.1]),
      multiset(s.seqs[id].table), multiset(r.1.table));
  }

  lemma Trade(f: multiset<nat>, f': multiset<nat>, t: multiset<nat>, t': multiset<nat>, o: multiset<nat>,
      n: multiset<nat>)
    requires f' + n == f + o && t' + o == t + n
    ensures f' + t' == f + t
  {
    forall x: nat ensures (f' + t')[x] == (f + t)[x] {
      assert (f' + n)[x] == (f + o)[x] && (t' + o)[x] == (t + n)[x];
    }
  }

  lemma AppendLedger(s: Sched, id: RequestId)
    requires Ledger(s) && id in s.running && Appended(s.free, s.seqs[id], s.blockSize).Some?
    ensures Ledger(Put(s, id, Appended(s.free, s.seqs[id], s.blockSize).value))
  {
    var r := Appended(s.free, s.seqs[id], s.blockSize).value;
    if s.free != [] {
      assert s.free == s.free[..|s.free| - 1] + [s.free[|s.free| - 1]];
    }
    PutLedger(s, id, r);
  }

  /** A running sequence gives up everything and leaves the running list. */
  lemma ReleaseConserves(s: Sched, id: RequestId, q: Seq)
    requires Ledger(s) && id in s.running && q.table == []
    ensures var s' := Put(s, id, (s.free + s.seqs[id].table, q)).(running := Remove(s.running, id));
      && (forall x | x in s'.running :: x in s'.seqs)
      && multiset(s'.free) + Tables(s'.running, s'.seqs) == Pool(s.numBlocks)
  {
    TablesRemove(s.running, id, s.seqs);
    RemoveNoDup(s.running, id);
    TablesAgree(Remove(s.running, id), s.seqs, s.seqs[id := q]);
  }

  lemma PreemptLedger(s: Sched, id: RequestId)
    requires Ledger(s) && id in s.running
    ensures Ledger(Preempt(s, id))
  {
    hide Tables, Pool, Remove;
    var q := Preempt(s, id).seqs[id];
    ReleaseConserves(s, id, q);
    RemoveNoDup(s.running, id);
    assert id !in s.waiting;
  }

  lemma FinishLedger(s: Sched, id: RequestId, reason: Reason)
    requires Ledger(s) && id in s.running
    ensures Ledger(Finish(s, id, reason))
  {
    hide Tables, Pool, Remove;
    var q := Finish(s, id, reason).seqs[id];
    ReleaseConserves(s, id, q);
    RemoveNoDup(s.running, id);
    assert id !in s.waiting;
  }

  /** Cancelling a waiting request without freeing anything leaks nothing. */
  lemma CancelLedger(s: Sched, id: RequestId)
    requires Ledger(s)
    ensures Ledger(Cancel(s, id).0)
  {
    hide Tables, Pool, Remove, Finish;
    if id in s.running {
      FinishLedger(s, id, Cancelled);
    } else if id in s.waiting {
      RemoveNoDup(s.waiting, id);
      TablesAgree(s.running, s.seqs, Cancel(s, id).0.seqs);
    }
  }

  lemma {:induction false} MakeRoomLedger(s: Sched, id: RequestId)
    requires Ledger(s) && id in s.running
    ensures Ledger(MakeRoom(s, id))
    decreases |s.running|
  {
    if Appended(s.free, s.seqs[id], s.blockSize).Some? {
      AppendLedger(s, id);
    } else {
      match NewestOther(s, s.running, id)
      case None => PreemptLedger(s, id);
      case Some(victim) =>
        PreemptLedger(s, victim);
        RemoveNoDup(s.running, victim);
        MakeRoomLedger(Preempt(s, victim), id);
    }
  }

  lemma {:induction false} EnsureCapacityLedger(s: Sched, ids: seq<RequestId>)
    requires Ledger(s) && forall id | id in ids :: id in s.seqs
    ensures Ledger(EnsureCapacity(s, ids))
    decreases |ids|
  {
    if ids != [] {
      if s.seqs[ids[0]].status == Running {
        MakeRoomLedger(s, ids[0]);
        EnsureCapacityLedger(MakeRoom(s, ids[0]), ids[1..]);
      } else {
        EnsureCapacityLedger(s, ids[1..]);
      }
    }
  }

  // ----- admission

  /** The state a scheduling pass has reached, with those already admitted counted as running. */
  ghost function Joined(s: Sched, admitted: seq<RequestId>): Sched {
    s.(running := s.running + admitted)
  }

  lemma AdmitHeadLedger(s: Sched, admitted: seq<RequestId>)
    requires Known(s) && Ledger(Joined(s, admitted)) && HeadFits(s)
    ensures Ledger(Joined(AdmitHead(s), admitted + [s.waiting[0]]))
  {
    AdmitHeadQueues(s, admitted);
    AdmitHeadConserves(s, admitted);
  }

  lemma AdmitHeadQueues(s: Sched, admitted: seq<RequestId>)
    requires Known(s) && Ledger(Joined(s, admitted)) && HeadFits(s)
    ensures var j := Joined(AdmitHead(s), admitted + [s.waiting[0]]); Queues(j) && OnlyRunningOwn(j)
  {
    hide Conserved, Take, BlocksNeeded;
    var id := s.waiting[0];
    var a := s.running + admitted;
    assert s.running + (admitted + [id]) == a + [id];
    assert s.seqs[id].status == Waiting && id !in a;
    assert s.waiting == [id] + s.waiting[1..];
  }

  lemma HeadWaits(s: Sched, admitted: seq<RequestId>)
    requires Known(s) && Queues(Joined(s, admitted)) && HeadFits(s)
    ensures s.seqs[s.waiting[0]].status == Waiting && s.waiting[0] !in s.running + admitted
  {
  }

  lemma AdmitHeadConserves(s: Sched, admitted: seq<RequestId>)
    requires Known(s) && Ledger(Joined(s, admitted)) && HeadFits(s)
    requires Known(Joined(AdmitHead(s), admitted + [s.waiting[0]]))
    ensures Conserved(Joined(AdmitHead(s), admitted + [s.waiting[0]]))
  {
    hide Queues;
    var id := s.waiting[0];
    var s' := AdmitHead(s);
    var a := s.running + admitted;
    assert s.running + (admitted + [id]) == a + [id];
    assert s.seqs[id].status == Waiting && id !in a by {
      HeadWaits(s, admitted);
    }
    TablesAgree(a, s.seqs, s'.seqs);
    TablesConcat(a, [id], s'.seqs);
    TablesOne(id, s'.seqs);
    assert s.seqs[id].table == [];
    var r := Allocated(s.free, s.seqs[id].(status := Running), s.seqs[id].NumTokens(), s.blockSize);
    Trade(multiset(s.free), multiset(r.0), Tables(a, s.seqs), Tables(a + [id], s'.seqs), multiset{},
      multiset(r.1.table));
  }

  lemma {:induction false} AdmitLedger(s: Sched, admitted: seq<RequestId>)
    requires Known(s) && Ledger(Joined(s, admitted)) && forall id | id in admitted :: id in s.seqs
    ensures var (s', admitted') := Admit(s, admitted); Ledger(Joined(s', admitted'))
    decreases |s.waiting|
  {
    if |s.running| + |admitted| < s.maxBatch && HeadFits(s) {
      AdmitHeadLedger(s, admitted);
      AdmitLedger(AdmitHead(s), admitted + [s.waiting[0]]);
    }
  }

  lemma ScheduleLedger(s: Sched)
    requires Ledger(s)
    ensures Ledger(Schedule(s).0)
  {
    assert Joined(s, []) == s by {
      assert s.running + [] == s.running;
    }
    AdmitLedger(s, []);
    var (s', admitted) := Admit(s, []);
    if admitted == [] {
      assert s'.running + [] == s'.running;
    }
  }

  // ----- what the ledger means

  lemma {:induction false} TablesContains(ids: seq<RequestId>, seqs: map<RequestId, Seq>, id: RequestId, i: nat)
    requires (forall x | x in ids :: x in seqs) && id in ids && i < |seqs[id].table|
    ensures Tables(ids, seqs)[seqs[id].table[i]] >= 1
  {
    TablesRemove(ids, id, seqs);
  }

  /** Exclusive ownership: two table entries of running sequences never name the same block,
      and no free block is in any table. */
  lemma Exclusive(s: Sched, id: RequestId, i: nat, id': RequestId, i': nat)
    requires Ledger(s) && id in s.running && id' in s.running
    requires i < |s.seqs[id].table| && i' < |s.seqs[id'].table|
    requires s.seqs[id].table[i] == s.seqs[id'].table[i']
    ensures id == id' && i == i'
  {
    var b := s.seqs[id].table[i];
    assert Pool(s.numBlocks)[b] <= 1;
    TablesRemove(s.running, id, s.seqs);
    if id != id' {
      RemoveNoDup(s.running, id);
      TablesContains(Remove(s.running, id), s.seqs, id', i');
    } else if i != i' {
      TwiceIn(s.seqs[id].table, i, i');
    }
  }

  lemma TwiceIn(t: seq<nat>, i: nat, j: nat)
    requires i < |t| && j < |t| && i != j && t[i] == t[j]
    ensures multiset(t)[t[i]] >= 2
  {
    var lo, hi := if i < j then i else j, if i < j then j else i;
    assert t == t[..lo] + [t[lo]] + t[lo + 1..hi] + [t[hi]] + t[hi + 1..];
  }

  lemma OwnedInPool(s: Sched, id: RequestId, i: nat)
    requires Ledger(s) && id in s.running && i < |s.seqs[id].table|
    ensures s.seqs[id].table[i] < s.numBlocks && s.seqs[id].table[i] !in s.free
  {
    var b := s.seqs[id].table[i];
    TablesContains(s.running, s.seqs, id, i);
    assert Pool(s.numBlocks)[b] >= 1;
  }

  /** Blocks are conserved in number: free ones plus owned ones are the whole pool. */
  lemma {:induction false} TablesSize(ids: seq<RequestId>, seqs: map<RequestId, Seq>)
    requires forall x | x in ids :: x in seqs
    ensures |Tables(ids, seqs)| == Owned(ids, seqs)
  {
    if ids != [] {
      TablesSize(ids[..|ids| - 1], seqs);
    }
  }

  function Owned(ids: seq<RequestId>, seqs: map<RequestId, Seq>): nat
    requires forall x | x in ids :: x in seqs
  {
    if ids == [] then 0 else Owned(ids[..|ids| - 1], seqs) + |seqs[ids[|ids| - 1]].table|
  }

  lemma ConservedCount(s: Sched)
    requires Ledger(s)
    ensures |s.free| + Owned(s.running, s.seqs) == s.numBlocks
  {
    TablesSize(s.running, s.seqs);
    assert |multiset(s.free) + Tables(s.running, s.seqs)| == |s.free| + |Tables(s.running, s.seqs)|;
  }
}
