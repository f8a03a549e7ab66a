/** The continuous-batching scheduler as a state and its transitions.  Sequences are named by
    their request id; `waiting` and `running` order them. */
module Scheduling {
  import opened Wrappers
  import opened Requests
  import opened Blocks

  datatype Sched = Sched(
    numBlocks: nat,
    blockSize: nat,
    maxBatch: nat,
    free: seq<nat>,
    waiting: seq<RequestId>,
    running: seq<RequestId>,
    seqs: map<RequestId, Seq>,
    preemptions: nat)

  predicate Known(s: Sched) {
    && s.blockSize > 0
    && (forall id | id in s.waiting :: id in s.seqs)
    && (forall id | id in s.running :: id in s.seqs)
  }

  /** list.remove: the list without the first occurrence of id. */
  function Remove(ids: seq<RequestId>, id: RequestId): (r: seq<RequestId>)
    ensures forall x | x in r :: x in ids
    ensures id in ids ==> |r| == |ids| - 1
    ensures id !in ids ==> r == ids
  {
    if ids == [] then []
    else if ids[0] == id then ids[1..]
    else [ids[0]] + Remove(ids[1..], id)
  }

  function Put(s: Sched, id: RequestId, r: (seq<nat>, Seq)): Sched {
    s.(free := r.0, seqs := s.seqs[id := r.1])
  }

  function Add(s: Sched, r: Request): Sched {
    s.(waiting := s.waiting + [r.id], seqs := s.seqs[r.id := Fresh(r)])
  }

  // ----- admission

  /** There is a head of the line and the free blocks cover all its tokens. */
  predicate HeadFits(s: Sched)
    requires Known(s)
  {
    s.waiting != [] && BlocksNeeded(s.seqs[s.waiting[0]].NumTokens(), s.blockSize) <= |s.free|
  }

  function AdmitHead(s: Sched): (s': Sched)
    requires Known(s) && HeadFits(s)
    ensures Known(s') && s'.seqs.Keys == s.seqs.Keys
    ensures s'.waiting == s.waiting[1..] && s'.running == s.running
  {
    var id := s.waiting[0];
    var q := s.seqs[id];
    Put(s, id, Allocated(s.free, q.(status := Running), q.NumTokens(), s.blockSize)).(waiting := s.waiting[1..])
  }

  function Admit(s: Sched, admitted: seq<RequestId>): (r: (Sched, seq<RequestId>))
    requires Known(s) && forall id | id in admitted :: id in s.seqs
    ensures Known(r.0) && r.0.seqs.Keys == s.seqs.Keys && r.0.running == s.running
    ensures forall id | id in r.1 :: id in s.seqs
    decreases |s.waiting|
  {
    if |s.running| + |admitted| < s.maxBatch && HeadFits(s) then Admit(AdmitHead(s), admitted + [s.waiting[0]])
    else (s, admitted)
  }

  /** The state after scheduling, the batch, and whether it is a prefill batch. */
  function Schedule(s: Sched): (r: (Sched, seq<RequestId>, bool))
    requires Known(s)
    ensures Known(r.0) && r.0.seqs.Keys == s.seqs.Keys
  {
    var (s', admitted) := Admit(s, []);
    if admitted != [] then (s'.(running := s'.running + admitted), admitted, true)
    else (s', s'.running, false)
  }

  // ----- making room for a decode step

  function Preempt(s: Sched, id: RequestId): (s': Sched)
    requires Known(s) && id in s.seqs
    ensures Known(s') && s'.seqs.Keys == s.seqs.Keys
    ensures id in s.running ==> |s'.running| < |s.running|
  {
    var (f, q) := Freed(s.free, s.seqs[id]);
    Put(s, id, (f, q.(computed := 0, status := Waiting))).(
      running := Remove(s.running, id),
      waiting := [id] + s.waiting,
      preemptions := s.preemptions + 1)
  }

  /** The last running sequence that is not id. */
  function NewestOther(s: Sched, ids: seq<RequestId>, id: RequestId): (r: Option<RequestId>)
    requires forall x | x in ids :: x in s.seqs
    ensures r.Some? ==> r.value in ids && r.value != id && s.seqs[r.value].status == Running
    ensures r.None? ==> forall x | x in ids && x != id :: s.seqs[x].status != Running
  {
    if ids == [] then None
    else
      var last := ids[|ids| - 1];
      if last != id && s.seqs[last].status == Running then Some(last)
      else NewestOther(s, ids[..|ids| - 1], id)
  }

  /** Find a block for the next token of id, evicting others as long as there are any. */
  function MakeRoom(s: Sched, id: RequestId): (s': Sched)
    requires Known(s) && id in s.seqs
    ensures Known(s') && s'.seqs.Keys == s.seqs.Keys
    decreases |s.running|
  {
    match Appended(s.free, s.seqs[id], s.blockSize)
    case Some(r) => Put(s, id, r)
    case None =>
      match NewestOther(s, s.running, id)
      case None => Preempt(s, id)
      case Some(victim) => MakeRoom(Preempt(s, victim), id)
  }

  function EnsureCapacity(s: Sched, ids: seq<RequestId>): (s': Sched)
    requires Known(s) && forall id | id in ids :: id in s.seqs
    ensures Known(s') && s'.seqs.Keys == s.seqs.Keys
    decreases |ids|
  {
    if ids == [] then s
    else if s.seqs[ids[0]].status != Running then EnsureCapacity(s, ids[1..])
    else EnsureCapacity(MakeRoom(s, ids[0]), ids[1..])
  }

  // ----- leaving

  function Finish(s: Sched, id: RequestId, reason: Reason): (s': Sched)
    requires Known(s) && id in s.seqs
    ensures Known(s') && s'.seqs.Keys == s.seqs.Keys
  {
    var (f, q) := Freed(s.free, s.seqs[id].(status := Finished, reason := Some(reason)));
    Put(s, id, (f, q)).(running := Remove(s.running, id))
  }

  function Cancel(s: Sched, id: RequestId): (r: (Sched, bool))
    requires Known(s)
    ensures Known(r.0) && r.0.seqs.Keys == s.seqs.Keys
  {
    if id in s.running then (Finish(s, id, Cancelled), true)
    else if id in s.waiting then
      (s.(waiting := Remove(s.waiting, id),
          seqs := s.seqs[id := s.seqs[id].(status := Finished, reason := Some(Cancelled))]), true)
    else (s, false)
  }
}
