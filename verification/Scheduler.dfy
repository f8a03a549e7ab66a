/** The scheduler as the object the engine holds: a queue, a list and a counter updated in
    place, each method performing exactly one transition of the scheduling state. */
module SchedulerObject {
  import opened Wrappers
  import opened Requests
  import opened Blocks
  import opened Scheduling

  function Ids(xs: seq<SequenceState>): (ids: seq<RequestId>)
    ensures |ids| == |xs| && forall i | 0 <= i < |ids| :: ids[i] == xs[i].request.id
  {
    seq(|xs|, i requires 0 <= i < |xs| => xs[i].request.id)
  }

  lemma IdsAppend(xs: seq<SequenceState>, ys: seq<SequenceState>)
    ensures Ids(xs + ys) == Ids(xs) + Ids(ys)
  {
  }

  lemma IdsSnoc(xs: seq<SequenceState>, x: SequenceState)
    ensures Ids(xs + [x]) == Ids(xs) + [x.request.id]
  {
  }

  function RemoveObject(xs: seq<SequenceState>, x: SequenceState): (r: seq<SequenceState>)
    ensures forall y | y in r :: y in xs
  {
    if xs == [] then []
    else if xs[0] == x then xs[1..]
    else [xs[0]] + RemoveObject(xs[1..], x)
  }

  lemma {:induction false} IdsRemove(xs: seq<SequenceState>, x: SequenceState)
    requires forall y | y in xs :: y.request.id == x.request.id ==> y == x
    ensures Ids(RemoveObject(xs, x)) == Remove(Ids(xs), x.request.id)
    decreases |xs|
  {
    if xs != [] {
      IdsRemove(xs[1..], x);
      assert Ids(xs)[1..] == Ids(xs[1..]);
      if xs[0] != x {
        IdsAppend([xs[0]], RemoveObject(xs[1..], x));
        assert Ids([xs[0]]) == [xs[0].request.id];
      }
    }
  }

  /** What admitting the head changes, in the order the object does it. */
  lemma AdmitHeadParts(s: Sched, q: Seq)
    requires Known(s) && HeadFits(s) && q == s.seqs[s.waiting[0]]
    ensures Lacking(q.table, q.NumTokens(), s.blockSize) <= |s.free|
    ensures var (free, q') := Allocated(s.free, q, q.NumTokens(), s.blockSize);
      var seqs := s.seqs[s.waiting[0] := q'.(status := Running)];
      AdmitHead(s) == s.(free := free, waiting := s.waiting[1..], seqs := seqs)
  {
  }

  lemma AdmitUnfold(s: Sched, admitted: seq<RequestId>)
    requires Known(s) && forall id | id in admitted :: id in s.seqs
    ensures Admit(s, admitted) ==
      if |s.running| + |admitted| < s.maxBatch && HeadFits(s)
        then Admit(AdmitHead(s), admitted + [s.waiting[0]])
        else (s, admitted)
  {
  }

  lemma NewestStep(s: Sched, ids: seq<RequestId>, i: nat, id: RequestId)
    requires i < |ids| && forall x | x in ids[..i + 1] :: x in s.seqs
    ensures ids[i] in s.seqs && forall x | x in ids[..i] :: x in s.seqs
    ensures NewestOther(s, ids[..i + 1], id) ==
      if ids[i] != id && s.seqs[ids[i]].status == Running then Some(ids[i]) else NewestOther(s, ids[..i], id)
  {
    assert ids[..i + 1][..i] == ids[..i];
    assert ids[..i + 1][i] == ids[i];
  }

  lemma NewestEmpty(s: Sched, ids: seq<RequestId>, id: RequestId)
    ensures NewestOther(s, ids[..0], id) == None
  {
  }

  lemma IdsMember(xs: seq<SequenceState>, x: SequenceState)
    requires forall y | y in xs :: y.request.id == x.request.id ==> y == x
    ensures x in xs <==> x.request.id in Ids(xs)
  {
    if x in xs {
      var i :| 0 <= i < |xs| && xs[i] == x;
      assert Ids(xs)[i] == x.request.id;
    }
  }

  lemma {:induction false} RemoveShrinks(xs: seq<SequenceState>, x: SequenceState)
    requires x in xs
    ensures |RemoveObject(xs, x)| == |xs| - 1
    decreases |xs|
  {
    if xs[0] != x {
      RemoveShrinks(xs[1..], x);
    }
  }

  lemma MakeRoomUnfold(s: Sched, id: RequestId)
    requires Known(s) && id in s.seqs
    ensures Scheduling.MakeRoom(s, id) ==
      match Appended(s.free, s.seqs[id], s.blockSize)
      case Some(r) => Put(s, id, r)
      case None =>
        match NewestOther(s, s.running, id)
        case None => Scheduling.Preempt(s, id)
        case Some(victim) => Scheduling.MakeRoom(Scheduling.Preempt(s, victim), id)
  {
  }

  lemma KnownRunning(s: Sched)
    requires Known(s)
    ensures forall id | id in s.running :: id in s.seqs
  {
  }

  lemma CapacityUnfold(s: Sched, ids: seq<RequestId>, i: nat)
    requires Known(s) && i < |ids| && forall id | id in ids :: id in s.seqs
    ensures EnsureCapacity(s, ids[i..]) ==
      if s.seqs[ids[i]].status != Running then EnsureCapacity(s, ids[i + 1..])
      else EnsureCapacity(Scheduling.MakeRoom(s, ids[i]), ids[i + 1..])
  {
    assert ids[i..][0] == ids[i] && ids[i..][1..] == ids[i + 1..];
  }

  lemma CapacityDone(s: Sched, ids: seq<RequestId>)
    requires Known(s)
    ensures EnsureCapacity(s, ids[|ids|..]) == s
  {
  }

  /** Finishing, in the order the object does it. */
  lemma FinishParts(s: Sched, id: RequestId, reason: Reason)
    requires Known(s) && id in s.seqs
    ensures Scheduling.Finish(s, id, reason) == s.(
      free := s.free + s.seqs[id].table, running := Remove(s.running, id),
      seqs := s.seqs[id := s.seqs[id].(status := Finished, reason := Some(reason), table := [])])
  {
  }

  /** The first sequence with this request id. */
  method FindById(xs: seq<SequenceState>, id: RequestId) returns (x: SequenceState?)
    ensures x != null ==> x in xs && x.request.id == id && id in Ids(xs)
    ensures x == null ==> id !in Ids(xs)
  {
    for i := 0 to |xs|
      invariant forall k | 0 <= k < i :: xs[k].request.id != id
    {
      if xs[i].request.id == id {
        assert Ids(xs)[i] == id;
        return xs[i];
      }
    }
    x := null;
  }

  /** These objects, by request id, are in these states. */
  ghost predicate InStates(known: map<RequestId, SequenceState>, seqs: map<RequestId, Seq>)
    reads known.Values
  {
    && seqs.Keys == known.Keys
    && forall id | id in known :: known[id].request.id == id && seqs[id] == known[id].View()
  }

  lemma InStatesJoin(known: map<RequestId, SequenceState>, seqs: map<RequestId, Seq>, x: SequenceState)
    requires InStates(known, seqs)
    ensures x.request.id !in known ==> InStates(known[x.request.id := x], seqs[x.request.id := x.View()])
  {
  }

  class Scheduler {
    const blockManager: BlockManager
    const maxBatchSize: nat
    var waiting: seq<SequenceState>
    var running: seq<SequenceState>
    var numPreemptions: nat
    /** Every sequence ever added, by request id. */
    ghost var known: map<RequestId, SequenceState>
    /** The scheduling state these objects amount to. */
    ghost var view: Sched

    ghost function Repr(): set<object>
      reads this
    {
      {this, blockManager} + known.Values
    }

    ghost predicate Has(x: SequenceState)
      reads this`known
    {
      x.request.id in known && known[x.request.id] == x
    }

    ghost predicate AllHave(xs: seq<SequenceState>)
      reads this`known
    {
      forall x | x in xs :: Has(x)
    }

    ghost predicate Fields()
      reads this
    {
      && view.maxBatch == maxBatchSize && view.preemptions == numPreemptions
      && view.waiting == Ids(waiting) && view.running == Ids(running)
    }

    ghost predicate Pool()
      reads this, blockManager
    {
      && view.numBlocks == blockManager.numBlocks && view.blockSize == blockManager.blockSize > 0
      && view.free == blockManager.free
    }

    /** The known sequences are as seqs says. */
    ghost predicate Sequences(seqs: map<RequestId, Seq>)
      reads this`known, known.Values
    {
      InStates(known, seqs)
    }

    /** The sequences other than x are as seqs says; changing x cannot disturb it. */
    ghost predicate Others(x: SequenceState, seqs: map<RequestId, Seq>)
      reads this`known, known.Values - {x}
    {
      && seqs.Keys == known.Keys
      && (forall id | id in known :: known[id].request.id == id)
      && forall id | id in known && known[id] != x :: seqs[id] == known[id].View()
    }

    lemma Apart(x: SequenceState)
      requires Sequences(view.seqs) && Has(x)
      ensures Others(x, view.seqs) && x.request.id in view.seqs && view.seqs[x.request.id] == x.View()
    {
    }

    lemma Together(x: SequenceState, seqs: map<RequestId, Seq>)
      requires Has(x) && Others(x, seqs)
      ensures Sequences(seqs[x.request.id := x.View()])
    {
    }

    ghost predicate Valid()
      reads this, blockManager, known.Values
    {
      Fields() && Pool() && Sequences(view.seqs) && AllHave(waiting) && AllHave(running)
    }

    lemma Knows()
      requires Valid()
      ensures Known(view)
      ensures forall x | x in waiting || x in running ::
        x.request.id in view.seqs && view.seqs[x.request.id] == x.View()
    {
      forall i | 0 <= i < |waiting| ensures view.waiting[i] in view.seqs {
        assert waiting[i] in waiting;
      }
      forall i | 0 <= i < |running| ensures view.running[i] in view.seqs {
        assert running[i] in running;
      }
    }

    lemma Unpack()
      requires Valid()
      ensures Sequences(view.seqs) && Known(view) && Pool() && Fields() && AllHave(waiting) && AllHave(running)
      ensures view.blockSize == blockManager.blockSize > 0 && view.free == blockManager.free
      ensures view.waiting == Ids(waiting) && view.running == Ids(running)
    {
      Knows();
    }

    lemma Pack()
      requires Sequences(view.seqs) && Pool() && Fields() && AllHave(waiting) && AllHave(running)
      ensures Valid()
    {
    }

    lemma HasAt(xs: seq<SequenceState>, x: SequenceState)
      requires AllHave(xs) && x in xs
      ensures Has(x)
    {
    }

    lemma HeadFitsIff(x: SequenceState)
      requires Valid() && Known(view) && waiting != [] && x == waiting[0]
      ensures blockManager.blockSize > 0 && (HeadFits(view) <==> blockManager.CanAllocate(x.NumTokens()))
    {
      HasAt(waiting, x);
    }

    constructor (blockManager: BlockManager, maxBatchSize: nat)
      requires blockManager.blockSize > 0
      ensures Valid() && known == map[] && this.blockManager == blockManager
      ensures var pool := blockManager;
        view == Sched(pool.numBlocks, pool.blockSize, maxBatchSize, pool.free, [], [], map[], 0)
    {
      this.blockManager, this.maxBatchSize := blockManager, maxBatchSize;
      waiting, running, numPreemptions := [], [], 0;
      known := map[];
      view := Sched(blockManager.numBlocks, blockManager.blockSize, maxBatchSize, blockManager.free, [], [], map[], 0);
    }

    method AddRequest(x: SequenceState)
      requires Valid() && x.request.id !in known && x.View() == Fresh(x.request)
      modifies this
      ensures Valid() && known == old(known)[x.request.id := x]
      ensures view == Add(old(view), x.request)
    {
      hide InStates, SequenceState.View, Ids;
      IdsSnoc(waiting, x);
      InStatesJoin(known, view.seqs, x);
      waiting := waiting + [x];
      known := known[x.request.id := x];
      view := Add(view, x.request);
    }

    predicate HasWork()
      reads this
    {
      waiting != [] || running != []
    }

    method AdmitOne(x: SequenceState)
      requires Valid() && waiting != [] && x == waiting[0] && Known(view) && HeadFits(view)
      modifies this, blockManager, x
      ensures Valid() && known == old(known) && running == old(running) && waiting == old(waiting)[1..]
      ensures view == AdmitHead(old(view))
    {
      hide Take, Allocated, BlocksNeeded, Lacking, HeadFits, AdmitHead, Known, Others, Sequences, Has, Valid, Ids,
        SequenceState.View;
      ghost var seqs := view.seqs;
      Unpack();
      HasAt(waiting, x);
      Apart(x);
      AdmitHeadParts(view, x.View());
      blockManager.Allocate(x, x.NumTokens());
      x.SetStatus(Running);
      assert Ids(waiting[1..]) == Ids(waiting)[1..];
      waiting := waiting[1..];
      view := AdmitHead(view);
      Together(x, seqs);
      Pack();
    }

    /** Admit from the head of the queue while it fits, else run what is running. */
    method Schedule() returns (batch: seq<SequenceState>, isPrefill: bool)
      requires Valid()
      modifies this, blockManager, known.Values
      ensures Valid() && known == old(known) && AllHave(batch) && Known(old(view))
      ensures (view, Ids(batch), isPrefill) == Scheduling.Schedule(old(view))
    {
      hide Admit, AdmitHead, Others, Sequences, Has, SequenceState.View;
      Unpack();
      ghost var start := view;
      var admitted: seq<SequenceState> := [];
      while waiting != [] && |running| + |admitted| < maxBatchSize
        invariant Valid() && known == old(known) && running == old(running) && AllHave(admitted)
        invariant Known(view) && Known(start) && start == old(view)
        invariant forall id | id in Ids(admitted) :: id in view.seqs
        invariant view.running == Ids(running) && view.waiting == Ids(waiting) && view.maxBatch == maxBatchSize
        invariant Admit(view, Ids(admitted)) == Admit(start, [])
        decreases |waiting|
      {
        var x := waiting[0];
        HasAt(waiting, x);
        HeadFitsIff(x);
        AdmitUnfold(view, Ids(admitted));
        if !blockManager.CanAllocate(x.NumTokens()) {
          break;
        }
        AdmitOne(x);
        Unpack();
        IdsSnoc(admitted, x);
        admitted := admitted + [x];
      }
      AdmitUnfold(view, Ids(admitted));
      if admitted != [] {
        IdsAppend(running, admitted);
        running := running + admitted;
        view := view.(running := view.running + Ids(admitted));
        return admitted, true;
      }
      return running, false;
    }

    /** The last running sequence that is not x. */
    method NewestRunningOtherThan(x: SequenceState) returns (victim: SequenceState?)
      requires Valid() && Has(x)
      ensures Known(view)
      ensures victim != null ==>
        victim in running && victim != x && NewestOther(view, view.running, x.request.id) == Some(victim.request.id)
      ensures victim == null ==> NewestOther(view, view.running, x.request.id) == None
    {
      hide NewestOther, InStates, Pool, SequenceState.View, Known, Has;
      Unpack();
      var i := |running|;
      assert view.running[..i] == view.running;
      while i > 0
        invariant 0 <= i <= |running|
        invariant forall id | id in view.running[..i] :: id in view.seqs
        invariant NewestOther(view, view.running[..i], x.request.id) == NewestOther(view, view.running, x.request.id)
      {
        i := i - 1;
        var candidate := running[i];
        HasAt(running, candidate);
        NewestStep(view, view.running, i, x.request.id);
        SameObject(candidate, x);
        if candidate != x && candidate.status == Running {
          return candidate;
        }
      }
      NewestEmpty(view, view.running, x.request.id);
      victim := null;
    }

    lemma SameObject(x: SequenceState, y: SequenceState)
      requires Valid() && Has(x) && Has(y)
      ensures x == y <==> x.request.id == y.request.id
      ensures x.request.id in view.seqs && view.seqs[x.request.id].status == x.status
    {
    }

    /** Evict: give the blocks back, forget what was computed, return to the head of the queue. */
    method Preempt(x: SequenceState)
      requires Valid() && Has(x)
      modifies this, blockManager, x
      ensures Valid() && known == old(known) && Known(old(view)) && x.request.id in old(view).seqs
      ensures view == Scheduling.Preempt(old(view), x.request.id)
      ensures running == RemoveObject(old(running), x)
    {
      hide InStates, Others, Known, SequenceState.View, Has, AllHave, Remove, RemoveObject, Repr;
      ghost var seqs := view.seqs;
      Unpack();
      Apart(x);
      RemoveRunning(x);
      blockManager.Free(x);
      x.Reset();
      running := RemoveObject(running, x);
      IdsAppend([x], waiting);
      assert Ids([x]) == [x.request.id];
      waiting := [x] + waiting;
      numPreemptions := numPreemptions + 1;
      view := Scheduling.Preempt(view, x.request.id);
      Together(x, seqs);
      Pack();
    }

    lemma RemoveRunning(x: SequenceState)
      requires Valid() && Has(x)
      ensures Ids(RemoveObject(running, x)) == Remove(view.running, x.request.id)
      ensures Ids(RemoveObject(waiting, x)) == Remove(view.waiting, x.request.id)
      ensures AllHave(RemoveObject(running, x)) && AllHave(RemoveObject(waiting, x))
      ensures x in running <==> x.request.id in view.running
      ensures x in waiting <==> x.request.id in view.waiting
    {
      IdsRemove(running, x);
      IdsRemove(waiting, x);
      IdsMember(running, x);
      IdsMember(waiting, x);
    }

    /** Find a block for x's next token, evicting others while there are any, else x itself. */
    method MakeRoom(x: SequenceState)
      requires Valid() && Has(x)
      modifies this, blockManager, known.Values
      ensures Valid() && known == old(known) && Known(old(view)) && x.request.id in old(view).seqs
      ensures view == Scheduling.MakeRoom(old(view), x.request.id)
    {
      hide Scheduling.MakeRoom, Scheduling.Preempt, NewestOther, InStates, Others, Known, SequenceState.View, Pool,
        Fields, AllHave;
      ghost var start := view;
      Unpack();
      SameObject(x, x);
      while true
        invariant Valid() && known == old(known) && Has(x)
        invariant Known(view) && x.request.id in view.seqs && Known(start) && x.request.id in start.seqs
        invariant Scheduling.MakeRoom(view, x.request.id) == Scheduling.MakeRoom(start, x.request.id)
        decreases |running|
      {
        ghost var before := view;
        MakeRoomUnfold(before, x.request.id);
        var ok := AppendSlot(x);
        if ok {
          break;
        }
        var victim := NewestRunningOtherThan(x);
        if victim == null {
          Preempt(x);
          break;
        }
        HasAt(running, victim);
        RemoveShrinks(running, victim);
        Preempt(victim);
        Unpack();
      }
    }

    /** The allocator's append_slot, seen from the scheduling state. */
    method AppendSlot(x: SequenceState) returns (ok: bool)
      requires Valid() && Has(x)
      modifies this`view, blockManager, x
      ensures Valid() && Known(old(view)) && x.request.id in old(view).seqs
      ensures ok == Appended(old(view).free, old(view).seqs[x.request.id], old(view).blockSize).Some?
      ensures var s, id := old(view), x.request.id;
        view == if ok then Put(s, id, Appended(s.free, s.seqs[id], s.blockSize).value) else s
    {
      hide InStates, Others, Known, SequenceState.View, Has, Appended;
      ghost var seqs := view.seqs;
      Unpack();
      Apart(x);
      ghost var r := Appended(view.free, x.View(), view.blockSize);
      ok := blockManager.AppendSlot(x);
      if ok {
        view := Put(view, x.request.id, r.value);
        Together(x, seqs);
      } else {
        Together(x, seqs);
        assert seqs == seqs[x.request.id := x.View()];
      }
      Pack();
    }

    /** Room for one more token for every sequence that is still running when its turn comes. */
    method EnsureCapacityForDecodeStep()
      requires Valid()
      modifies this, blockManager, known.Values
      ensures Valid() && known == old(known) && Known(old(view))
      ensures forall id | id in old(view).running :: id in old(view).seqs
      ensures view == EnsureCapacity(old(view), old(view).running)
    {
      hide EnsureCapacity, Scheduling.MakeRoom, InStates, Others, Known, SequenceState.View, Pool, Fields;
      Unpack();
      ghost var start := view;
      KnownRunning(start);
      var snapshot := running;
      ghost var ids := Ids(snapshot);
      for i := 0 to |snapshot|
        invariant Valid() && known == old(known) && AllHave(snapshot)
        invariant Known(view) && view.seqs.Keys == start.seqs.Keys
        invariant EnsureCapacity(view, ids[i..]) == EnsureCapacity(start, ids)
      {
        var x := snapshot[i];
        SameObject(x, x);
        CapacityUnfold(view, ids, i);
        if x.status == Running {
          MakeRoom(x);
        }
        Unpack();
      }
      CapacityDone(view, ids);
    }

    /** Retire a sequence: its blocks return to the pool in the same step. */
    method Finish(x: SequenceState, reason: Reason)
      requires Valid() && Has(x)
      modifies this, blockManager, x
      ensures Valid() && known == old(known) && Known(old(view)) && x.request.id in old(view).seqs
      ensures view == Scheduling.Finish(old(view), x.request.id, reason)
      ensures x.View().request == x.request && x.status == Finished && x.finishReason == Some(reason)
      ensures x.outputTokenIds == old(x.outputTokenIds) && x.detokenizedText == old(x.detokenizedText)
    {
      hide InStates, Others, Known, Has, Remove, RemoveObject;
      ghost var seqs := view.seqs;
      Unpack();
      Apart(x);
      RemoveRunning(x);
      FinishParts(view, x.request.id, reason);
      x.Close(reason);
      blockManager.Free(x);
      if x in running {
        running := RemoveObject(running, x);
      }
      view := Scheduling.Finish(view, x.request.id, reason);
      Together(x, seqs);
      Pack();
    }

    method CancelById(id: RequestId) returns (found: bool)
      requires Valid()
      modifies this, blockManager, known.Values
      ensures Valid() && known == old(known) && Known(old(view))
      ensures (view, found) == Cancel(old(view), id)
    {
      hide InStates, Others, Known, SequenceState.View, Has, Remove, RemoveObject, Scheduling.Finish, Pool;
      Unpack();
      var x := FindById(running, id);
      if x != null {
        HasAt(running, x);
        InRepr(x);
        Finish(x, Cancelled);
        return true;
      }
      x := FindById(waiting, id);
      if x != null {
        HasAt(waiting, x);
        InRepr(x);
        Withdraw(x);
        return true;
      }
      found := false;
    }

    lemma InRepr(x: SequenceState)
      requires Has(x)
      ensures x in known.Values
    {
    }

    /** A waiting sequence leaves the queue; it owns no blocks. */
    method Withdraw(x: SequenceState)
      requires Valid() && Has(x) && x in waiting && x.request.id !in view.running
      modifies this, x
      ensures Valid() && known == old(known) && Known(old(view))
      ensures (view, true) == Cancel(old(view), x.request.id)
    {
      hide InStates, Others, Known, SequenceState.View, Has, Remove, RemoveObject;
      ghost var seqs := view.seqs;
      Unpack();
      Apart(x);
      RemoveRunning(x);
      waiting := RemoveObject(waiting, x);
      x.Close(Cancelled);
      view := Cancel(view, x.request.id).0;
      Together(x, seqs);
      Pack();
    }

    /** After the engine has written to a sequence's own fields, the scheduling state again says
        what the objects hold. */
    ghost method Resync(x: SequenceState, seqs: map<RequestId, Seq>)
      requires Has(x) && Others(x, seqs) && Pool() && Fields() && AllHave(waiting) && AllHave(running)
      modifies this`view
      ensures Valid() && view == old(view).(seqs := seqs[x.request.id := x.View()])
    {
      hide InStates, Others, SequenceState.View, Has;
      view := view.(seqs := seqs[x.request.id := x.View()]);
      Together(x, seqs);
      Pack();
    }
  }
}
