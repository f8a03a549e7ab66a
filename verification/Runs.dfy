/** Whole runs of the engine: any sequence of arrivals, cancellations and steps, with any
    draws for the requests that do not decode greedily. */
module Runs {
  import opened Wrappers
  import opened Transformer
  import opened Forward
  import opened Tokenizer
  import opened Requests
  import opened Blocks
  import opened PagedCache
  import opened Scheduling
  import opened Ownership
  import opened Capacity
  import opened Serving
  import opened Refinement
  import opened Stepping
  import opened Progress

  datatype Event = Submit(r: Request) | Cancel(id: RequestId) | Tick(coin: Coin)

  /** The engine, what its consumers were sent, the requests it accepted in order of arrival,
      and those it prefilled for the first time in the order it did. */
  datatype World = World(e: Engine, st: Streamed, arrivals: seq<RequestId>, started: seq<RequestId>)

  /** The members of a batch that have never run. */
  function NeverRun(s: Sched, batch: seq<RequestId>): (r: seq<RequestId>)
    requires forall id | id in batch :: id in s.seqs
    ensures forall id | id in r :: id in batch && s.seqs[id].output == []
  {
    if batch == [] then []
    else (if s.seqs[batch[0]].output == [] then [batch[0]] else []) + NeverRun(s, batch[1..])
  }

  function Starting(e: Engine): seq<RequestId>
    requires Known(e.s)
  {
    var (s1, batch, prefill) := Schedule(e.s);
    if prefill && forall id | id in batch :: id in e.s.seqs then NeverRun(e.s, batch) else []
  }

  /** None when the engine fails. A submission that does not fit the position table is refused. */
  function Perform(w: World, ev: Event): Option<World> {
    if !Known(w.e.s) then None
    else match ev
      case Submit(r) =>
        (match AddRequest(w.e, r)
         case None => Some(w)
         case Some(e') => Some(World(e', w.st[r.id := ([], "")], w.arrivals + [r.id], w.started)))
      case Cancel(id) => Some(w.(e := CancelRequest(w.e, id).0))
      case Tick(coin) =>
        (match Step(w.e, coin)
         case None => None
         case Some((e', outs)) => Some(World(e', DeliverAll(w.st, outs), w.arrivals, w.started + Starting(w.e))))
  }

  function Play(w: World, evs: seq<Event>): Option<World>
    decreases |evs|
  {
    if evs == [] then Some(w)
    else match Play(w, evs[..|evs| - 1])
      case None => None
      case Some(w1) => Perform(w1, evs[|evs| - 1])
  }

  function EmptyStore(m: Model, numBlocks: nat, bs: nat, zero: KV): Store {
    seq(m.nLayer, _ => map b, o | 0 <= b < numBlocks && 0 <= o < bs :: Loc(b, o) := zero)
  }

  /** A new engine: every block free, every pool cell zero, nobody queued. */
  function Start(m: Model, enc: Table, numBlocks: nat, bs: nat, maxBatch: nat, zero: KV): World {
    World(
      Engine(m, enc, Sched(numBlocks, bs, maxBatch, seq(numBlocks, i => i), [], [], map[], 0),
        EmptyStore(m, numBlocks, bs, zero), map[]),
      map[], [], [])
  }

  /** Prompts are not empty and no two submissions share an id. */
  ghost predicate WellPosed(evs: seq<Event>) {
    && (forall i | 0 <= i < |evs| && evs[i].Submit? :: |evs[i].r.prompt| > 0)
    && (forall i, j | 0 <= i < j < |evs| && evs[i].Submit? && evs[j].Submit? :: evs[i].r.id != evs[j].r.id)
  }

  // ----- the invariant of runs

  ghost predicate Good(w: World) {
    Inv(w.e) && Streams(w.e, w.st)
  }

  /** Arrivals are the accepted requests, each once. */
  ghost predicate Arrived(w: World) {
    && NoDup(w.arrivals)
    && (forall id :: id in w.arrivals <==> id in w.e.s.seqs)
  }

  lemma {:induction false} RangeIsPool(n: nat)
    ensures multiset(seq<nat>(n, i => i)) == Pool(n)
  {
    if n > 0 {
      RangeIsPool(n - 1);
      assert seq<nat>(n, i => i) == seq<nat>(n - 1, i => i) + [n - 1];
    }
  }

  lemma StartGood(m: Model, enc: Table, numBlocks: nat, bs: nat, maxBatch: nat, zero: KV)
    requires m.blockSize > 0 && bs > 0
    ensures Good(Start(m, enc, numBlocks, bs, maxBatch, zero)) && Arrived(Start(m, enc, numBlocks, bs, maxBatch, zero))
  {
    RangeIsPool(numBlocks);
  }

  lemma SubmitGood(w: World, r: Request)
    requires Good(w) && r.id !in w.e.s.seqs && |r.prompt| > 0 && AddRequest(w.e, r).Some?
    ensures var e' := AddRequest(w.e, r).value;
      Inv(e') && Streams(e', w.st[r.id := ([], "")])
  {
    hide Base, Ledger, Settled, Shown, Acceptable;
    var e' := AddRequest(w.e, r).value;
    InvBase(w.e);
    AddBase(w.e, r);
    FreshShown(w.e.enc, r);
    forall id | id in e'.s.running ensures Settled(e', e'.s.seqs[id]) {
      InvSettled(w.e, id);
      PhaseElsewhere(w.e, e', w.e.s.seqs[id]);
    }
  }

  lemma FreshShown(enc: Table, r: Request)
    ensures Shown(enc, Requests.Fresh(r)) == ""
  {
    EmptySafe();
  }

  lemma AddBase(e: Engine, r: Request)
    requires Base(e) && Known(e.s) && r.id !in e.s.seqs && |r.prompt| > 0 && AddRequest(e, r).Some?
    ensures Base(AddRequest(e, r).value)
  {
    hide SeqOk, Ledger, CellsExist;
    BaseLedger(e);
    AddLedger(e.s, r);
    var e' := AddRequest(e, r).value;
    FreshOk(e.m, e.enc, e'.detoks, r);
    forall id | id in e'.s.seqs ensures SeqOk(e'.m, e'.enc, e'.detoks, e'.s.seqs[id]) {
      if id != r.id {
        LedgerIds(e.s, id);
        SeqOkElsewhere(e.m, e.enc, e.detoks, e'.detoks, e.s.seqs[id]);
      }
    }
  }

  lemma LedgerIds(s: Sched, id: RequestId)
    requires Ledger(s) && id in s.seqs
    ensures s.seqs[id].request.id == id
  {
  }

  lemma FreshOk(m: Model, enc: Table, detoks: map<RequestId, Detok>, r: Request)
    requires m.blockSize > 0 && |r.prompt| > 0 && Acceptable(m, r) && r.id in detoks && detoks[r.id] == Detok([], "")
    ensures SeqOk(m, enc, detoks, Requests.Fresh(r))
  {
    EmptySafe();
  }

  lemma CancelGood(w: World, id: RequestId)
    requires Good(w) && Known(w.e.s)
    ensures var e' := CancelRequest(w.e, id).0; Inv(e') && Streams(e', w.st)
  {
    hide Base, Ledger, Settled, Shown, Inv, Streams;
    InvBase(w.e);
    CancelBase(w.e, id);
    var e' := CancelRequest(w.e, id).0;
    CancelShape(w.e, id);
    forall x | x in e'.s.running ensures Settled(e', e'.s.seqs[x]) {
      InvSettled(w.e, x);
      PhaseElsewhere(w.e, e', w.e.s.seqs[x]);
    }
    CancelStreams(w.e, id, w.st);
    InvFrom(e');
  }

  lemma InvFrom(e: Engine)
    requires Base(e) && Known(e.s) && forall id | id in e.s.running :: id in e.s.seqs && Settled(e, e.s.seqs[id])
    ensures Inv(e)
  {
    hide Base, Settled;
  }

  ghost predicate CancelsSeq(q: Seq, q': Seq) {
    && q'.output == q.output && q'.request == q.request
    && (q' == q || (q.status != Finished && q'.status == Finished && q'.reason == Some(Cancelled)))
  }

  /** What cancelling does: one live sequence becomes finished and leaves its queue. */
  lemma CancelShape(e: Engine, id: RequestId)
    requires Ledger(e.s)
    ensures var e' := CancelRequest(e, id).0;
      && e'.m == e.m && e'.enc == e.enc && e'.store == e.store && e'.s.seqs.Keys == e.s.seqs.Keys
      && e'.s.blockSize == e.s.blockSize && e'.s.numBlocks == e.s.numBlocks && e'.s.maxBatch == e.s.maxBatch
      && (forall x | x in e'.s.running :: x in e.s.running && x != id)
      && (forall x | x in e.s.seqs && x != id :: e'.s.seqs[x] == e.s.seqs[x])
      && (id in e.s.seqs ==> CancelsSeq(e.s.seqs[id], e'.s.seqs[id]))
      && (id in e.s.seqs && e.s.seqs[id].status != Finished ==> e'.s.seqs[id].status == Finished)
      && e'.s.waiting == (if id in e.s.running then e.s.waiting else Remove(e.s.waiting, id))
  {
    hide Ledger, Scheduling.Cancel, CancelsSeq;
    CancelSched(e.s, id);
  }

  lemma CancelSched(s: Sched, id: RequestId)
    requires Ledger(s)
    ensures Known(s)
    ensures var s' := Scheduling.Cancel(s, id).0;
      && s' == s.(free := s'.free, waiting := s'.waiting, running := s'.running, seqs := s'.seqs)
      && s'.seqs.Keys == s.seqs.Keys
      && (forall x | x in s'.running :: x in s.running && x != id)
      && (forall x | x in s.seqs && x != id :: s'.seqs[x] == s.seqs[x])
      && (id in s.seqs ==> CancelsSeq(s.seqs[id], s'.seqs[id]))
      && (id in s.seqs && s.seqs[id].status != Finished ==> s'.seqs[id].status == Finished)
      && s'.waiting == (if id in s.running then s.waiting else Remove(s.waiting, id))
  {
    hide Ledger, Remove, NoDup;
    LedgerQueues(s);
    QueuePlace(s, id);
    if id in s.running {
      RemoveNoDup(s.running, id);
    } else if id in s.waiting {
    } else {
      assert Remove(s.waiting, id) == s.waiting;
    }
  }

  /** Each sequence is in the queue its status names, finished ones in none. */
  lemma QueuePlace(s: Sched, id: RequestId)
    requires Ledger(s)
    ensures NoDup(s.running)
    ensures id in s.running ==> id in s.seqs && s.seqs[id].status == Running && id !in s.waiting
    ensures id in s.waiting ==> id in s.seqs && s.seqs[id].status == Waiting && id !in s.running
    ensures id in s.seqs && id !in s.running && id !in s.waiting ==> s.seqs[id].status == Finished
  {
  }

  lemma CancelBase(e: Engine, id: RequestId)
    requires Base(e) && Known(e.s)
    ensures Base(CancelRequest(e, id).0)
  {
    hide SeqOk, Ledger, CellsExist;
    BaseLedger(e);
    CancelLedger(e.s, id);
    CancelShape(e, id);
    var e' := CancelRequest(e, id).0;
    forall x | x in e'.s.seqs ensures SeqOk(e'.m, e'.enc, e'.detoks, e'.s.seqs[x]) {
      LedgerIds(e.s, x);
      if x == id {
        CancelledOk(e.m, e.enc, e.detoks, e'.detoks, e.s.seqs[x], e'.s.seqs[x]);
      } else {
        SeqOkElsewhere(e.m, e.enc, e.detoks, e'.detoks, e.s.seqs[x]);
      }
    }
  }

  lemma CancelledOk(m: Model, enc: Table, a: map<RequestId, Detok>, b: map<RequestId, Detok>, q: Seq, q': Seq)
    requires SeqOk(m, enc, a, q) && q'.output == q.output && q'.request == q.request && q'.status == Finished
    requires q' == q || q'.reason == Some(Cancelled)
    ensures SeqOk(m, enc, b, q')
  {
  }

  lemma CancelStreams(e: Engine, id: RequestId, st: Streamed)
    requires Ledger(e.s) && Base(e) && Streams(e, st)
    ensures Streams(CancelRequest(e, id).0, st)
  {
    hide Ledger, FinalShown, Base;
    CancelShape(e, id);
  }

  lemma StepKeys(e: Engine, coin: Coin, st: Streamed)
    requires Inv(e) && Known(e.s) && Streams(e, st) && Step(e, coin).Some?
    ensures Step(e, coin).value.0.s.seqs.Keys == e.s.seqs.Keys && Step(e, coin).value.0.m == e.m
    ensures Step(e, coin).value.0.enc == e.enc
  {
    hide Inv, Schedule, DecodeBatchStep, PrefillAll, EnsureCapacity, Streams;
    StepKeysAt(e, coin);
  }

  lemma StepKeysAt(e: Engine, coin: Coin)
    requires Known(e.s) && Step(e, coin).Some?
    ensures Step(e, coin).value.0.s.seqs.Keys == e.s.seqs.Keys && Step(e, coin).value.0.m == e.m
    ensures Step(e, coin).value.0.enc == e.enc
  {
    hide Schedule, PrefillLegal, EnsureCapacity, DecodeLegal, Advance, Run, PrefillOne;
    var (s1, batch, prefill) := Schedule(e.s);
    if batch != [] {
      if prefill {
        PrefillAllKeys(e.(s := s1), batch, coin);
      } else {
        var s2 := EnsureCapacity(s1, s1.running);
        if s2.running != [] {
          DecodeKeys(e.(s := s2), s2.running, coin);
        }
      }
    }
  }

  lemma AdvanceKeys(e: Engine, id: RequestId, tok: Token)
    requires Known(e.s) && id in e.s.seqs && id in e.detoks
    ensures var e' := Advance(e, id, tok).0; e'.s.seqs.Keys == e.s.seqs.Keys && e'.m == e.m && e'.enc == e.enc
  {
    hide SafeText, FullText, Beyond, CheckFinish, TruncateAtStop;
  }

  lemma {:induction false} AdvanceAllKeys(e: Engine, ids: seq<RequestId>, logits: seq<seq<real>>, coin: Coin)
    requires Known(e.s) && |logits| == |ids|
    requires forall id | id in ids :: id in e.s.seqs && id in e.detoks
    ensures var e' := AdvanceAll(e, ids, logits, coin).0;
      e'.s.seqs.Keys == e.s.seqs.Keys && e'.m == e.m && e'.enc == e.enc
    decreases |ids|
  {
    hide Advance, Sampled;
    if ids != [] {
      var tok := Sampled(e, ids[0], logits[0], coin);
      AdvanceKeys(e, ids[0], tok);
      AdvanceAllKeys(Advance(e, ids[0], tok).0, ids[1..], logits[1..], coin);
    }
  }

  lemma PrefillOneKeys(e: Engine, id: RequestId, coin: Coin)
    requires PrefillOne(e, id, coin).Some?
    ensures var e' := PrefillOne(e, id, coin).value.0;
      Known(e.s) && e'.s.seqs.Keys == e.s.seqs.Keys && e'.m == e.m && e'.enc == e.enc
  {
    hide Advance, Run, PrefillPlan, Fits, BlocksNeeded, Sampled;
    var (e1, logits) := PrefillPass(e, id);
    AdvanceKeys(e1, id, Sampled(e1, id, logits, coin));
  }

  lemma {:induction false} PrefillAllKeys(e: Engine, ids: seq<RequestId>, coin: Coin)
    requires Known(e.s) && PrefillAll(e, ids, coin).Some?
    ensures var e' := PrefillAll(e, ids, coin).value.0;
      e'.s.seqs.Keys == e.s.seqs.Keys && e'.m == e.m && e'.enc == e.enc
    decreases |ids|
  {
    hide PrefillOne;
    if ids != [] {
      PrefillOneKeys(e, ids[0], coin);
      PrefillAllKeys(PrefillOne(e, ids[0], coin).value.0, ids[1..], coin);
    }
  }

  lemma DecodeKeys(e: Engine, ids: seq<RequestId>, coin: Coin)
    requires Known(e.s) && DecodeBatchStep(e, ids, coin).Some?
    ensures var e' := DecodeBatchStep(e, ids, coin).value.0;
      e'.s.seqs.Keys == e.s.seqs.Keys && e'.m == e.m && e'.enc == e.enc
  {
    hide DecodePlan, Run, Fits, BlocksNeeded, AdvanceAll, DecodeRowsOk;
    var (e1, logits) := DecodePass(e, ids);
    AdvanceAllKeys(e1, ids, logits, coin);
  }

  // ----- every run

  /** Every run from a new engine goes through: no assertion or index check ever fails, and the
      invariant holds at its end. */
  lemma {:induction false} EveryRunIsGood(w: World, evs: seq<Event>)
    requires Good(w) && Arrived(w) && WellPosed(evs)
    requires forall i | 0 <= i < |evs| && evs[i].Submit? :: evs[i].r.id !in w.arrivals
    ensures Play(w, evs).Some? && Good(Play(w, evs).value) && Arrived(Play(w, evs).value)
    ensures Play(w, evs).value.e.m == w.e.m && Play(w, evs).value.e.enc == w.e.enc
    ensures forall id | id in Play(w, evs).value.arrivals :: id in w.arrivals || Submitted(evs, id)
    decreases |evs|
  {
    hide Good, Arrived, Perform;
    if evs != [] {
      var n := |evs| - 1;
      assert WellPosed(evs[..n]);
      EveryRunIsGood(w, evs[..n]);
      var w1 := Play(w, evs[..n]).value;
      LastIsNew(w, evs, w1.arrivals);
      PerformGood(w1, evs[n]);
      forall id | id in Play(w, evs).value.arrivals ensures id in w.arrivals || Submitted(evs, id) {
        if id in w1.arrivals && id !in w.arrivals {
          SubmittedPrefix(evs, n, id);
        }
      }
    }
  }

  ghost predicate Submitted(evs: seq<Event>, id: RequestId) {
    exists i :: 0 <= i < |evs| && evs[i].Submit? && evs[i].r.id == id
  }

  lemma SubmittedPrefix(evs: seq<Event>, n: nat, id: RequestId)
    requires n <= |evs| && Submitted(evs[..n], id)
    ensures Submitted(evs, id)
  {
    var i :| 0 <= i < n && evs[..n][i].Submit? && evs[..n][i].r.id == id;
    assert evs[i] == evs[..n][i];
  }

  lemma LastIsNew(w: World, evs: seq<Event>, arrivals: seq<RequestId>)
    requires evs != [] && WellPosed(evs)
    requires forall i | 0 <= i < |evs| && evs[i].Submit? :: evs[i].r.id !in w.arrivals
    requires forall id | id in arrivals :: id in w.arrivals || Submitted(evs[..|evs| - 1], id)
    ensures evs[|evs| - 1].Submit? ==> evs[|evs| - 1].r.id !in arrivals && |evs[|evs| - 1].r.prompt| > 0
  {
  }

  lemma PerformGood(w: World, ev: Event)
    requires Good(w) && Arrived(w)
    requires ev.Submit? ==> ev.r.id !in w.arrivals && |ev.r.prompt| > 0
    ensures Perform(w, ev).Some? && Good(Perform(w, ev).value) && Arrived(Perform(w, ev).value)
    ensures Perform(w, ev).value.e.m == w.e.m && Perform(w, ev).value.e.enc == w.e.enc
    ensures forall id | id in Perform(w, ev).value.arrivals :: id in w.arrivals || (ev.Submit? && ev.r.id == id)
  {
    hide Inv, Streams, Step, CancelRequest, Starting;
    InvBase(w.e);
    match ev
    case Submit(r) =>
      if AddRequest(w.e, r).Some? {
        SubmitGood(w, r);
      }
    case Cancel(id) =>
      CancelGood(w, id);
      CancelShape(w.e, id);
    case Tick(coin) =>
      StepRefines(w.e, coin, w.st);
      StepKeys(w.e, coin, w.st);
  }

  /** Continuous batching refines solo decoding.  In every state of every run, whatever the
      arrivals, the other requests' cancellations and draws, the batch limit, the block size
      and the pool size: a greedy request that has finished and was not cancelled has output,
      and was streamed, exactly its own solo run, and one still in progress a prefix of it. */
  lemma ContinuousBatchingRefinesSolo(w: World, id: RequestId)
    requires Good(w) && id in w.e.s.seqs && w.e.s.seqs[id].request.temperature <= 0.0
    ensures var q := w.e.s.seqs[id];
      && |q.request.prompt| > 0 && w.e.m.blockSize > 0
      && id in w.st && w.st[id].0 == q.output
      && (q.status == Finished && q.reason != Some(Cancelled) ==> q.output == Solo(w.e.m, w.e.enc, q.request))
      && (q.status != Finished ==> q.output < Solo(w.e.m, w.e.enc, q.request))
  {
    hide Stops, Next, SafeText, FullText, Shown;
    var q := w.e.s.seqs[id];
    assert SeqOk(w.e.m, w.e.enc, w.e.detoks, q);
    if q.status == Finished {
      if q.reason != Some(Cancelled) {
        assert q.output[..0] == [];
        SoloUnique(w.e.m, w.e.enc, q.request, q.output, 0);
      }
    } else {
      SoloPrefix(w.e.m, w.e.enc, q.request, q.output, 0);
      assert q.output[..0] == [];
    }
  }

  /** The same, from the first state on. */
  lemma SoloInEveryRun(m: Model, enc: Table, numBlocks: nat, bs: nat, maxBatch: nat, zero: KV, evs: seq<Event>)
    requires m.blockSize > 0 && bs > 0 && WellPosed(evs)
    ensures var end := Play(Start(m, enc, numBlocks, bs, maxBatch, zero), evs);
      && end.Some?
      && forall id | id in end.value.e.s.seqs && end.value.e.s.seqs[id].request.temperature <= 0.0 ::
           var q := end.value.e.s.seqs[id];
           && |q.request.prompt| > 0 && id in end.value.st && end.value.st[id].0 == q.output
           && (q.status == Finished && q.reason != Some(Cancelled) ==> q.output == Solo(m, enc, q.request))
           && (q.status != Finished ==> q.output < Solo(m, enc, q.request))
  {
    hide Good, Arrived, WellPosed, Solo;
    StartGood(m, enc, numBlocks, bs, maxBatch, zero);
    EveryRunIsGood(Start(m, enc, numBlocks, bs, maxBatch, zero), evs);
    var w := Play(Start(m, enc, numBlocks, bs, maxBatch, zero), evs).value;
    forall id | id in w.e.s.seqs && w.e.s.seqs[id].request.temperature <= 0.0 ensures
      var q := w.e.s.seqs[id];
      && |q.request.prompt| > 0 && id in w.st && w.st[id].0 == q.output
      && (q.status == Finished && q.reason != Some(Cancelled) ==> q.output == Solo(m, enc, q.request))
      && (q.status != Finished ==> q.output < Solo(m, enc, q.request))
    {
      ContinuousBatchingRefinesSolo(w, id);
    }
  }

  /** The text a normally finished request streamed is its decoded text cut at the selected
      stop string, or at what had been sent before its last token when that is further; less
      than the stop string's own length ever leaks, and the reason is "stop" exactly when a
      stop string occurs in the decoded text. */
  lemma StopTruncation(w: World, id: RequestId)
    requires Good(w) && id in w.e.s.seqs
    requires w.e.s.seqs[id].status == Finished && w.e.s.seqs[id].reason != Some(Cancelled)
    ensures var q := w.e.s.seqs[id];
      var full := FullText(w.e.enc, q.output);
      && q.output != [] && id in w.st && q.reason.Some?
      && (q.reason == Some(Stop) <==> exists x | x in q.request.stop :: Occurs(x, full))
      && match SelectedStop(q.request.stop, full) {
           case None => w.st[id].1 == full
           case Some(stop) =>
             var idx := Find(stop, full).value;
             var before := |SafeText(w.e.enc, q.output[..|q.output| - 1])|;
             && idx <= |full| && before <= |full|
             && w.st[id].1 == full[..if idx <= before then before else idx]
             && |w.st[id].1| - idx <= (if |stop| == 0 then 0 else |stop| - 1)
         }
  {
    hide StartsAt, SafeText, FullText, History, Acceptable;
    var q := w.e.s.seqs[id];
    assert SeqOk(w.e.m, w.e.enc, w.e.detoks, q);
    ReasonStop(w.e.enc, q.request, q.output);
    match SelectedStop(q.request.stop, FullText(w.e.enc, q.output))
    case None =>
    case Some(stop) =>
      HistoryRunsOn(w.e.m, w.e.enc, q.request, q.output);
      LeakBound(w.e.enc, q.request, q.output, stop);
  }

  /** In every state: a sequence that is not finished has met none of the conditions to end, and one
      that finished normally met one with its last token and none before.  Its reason is "stop" if
      a stop string occurs in its decoded text, else "eot" if its last token is end-of-text, else
      "length". */
  lemma EndsRight(w: World, id: RequestId)
    requires Good(w) && id in w.e.s.seqs
    ensures var q := w.e.s.seqs[id];
      && (forall k | 0 < k < |q.output| :: !AtEnd(w.e.enc, q.request, q.output[..k]))
      && (q.status != Finished && q.output != [] ==> !AtEnd(w.e.enc, q.request, q.output))
      && (q.status == Finished && q.reason != Some(Cancelled) ==>
            && q.output != [] && AtEnd(w.e.enc, q.request, q.output)
            && ReasonIs(q, exists x | x in q.request.stop :: Occurs(x, FullText(w.e.enc, q.output))))
  {
    hide AtEnd, Stops, SafeText, FullText, CheckFinish, Occurs, Acceptable, Ledger, CellsExist;
    var q, enc := w.e.s.seqs[id], w.e.enc;
    assert SeqOk(w.e.m, enc, w.e.detoks, q);
    HistoryRunsOn(w.e.m, enc, q.request, q.output);
    forall k | 0 < k < |q.output| ensures !AtEnd(enc, q.request, q.output[..k]) {
      StopsMeans(enc, q.request, q.output[..k]);
    }
    if q.output != [] {
      StopsMeans(enc, q.request, q.output);
    }
    if q.status == Finished && q.reason != Some(Cancelled) {
      ReasonNamed(enc, q);
    }
  }

  /** The finish reason, `stopped` telling whether a stop string occurs in the decoded text. */
  predicate ReasonIs(q: Seq, stopped: bool) {
    && q.output != []
    && var last := q.output[|q.output| - 1];
       && (q.reason == Some(Stop) <==> stopped)
       && (q.reason == Some(Eot) <==> !stopped && Some(last) == q.request.eot)
       && (q.reason == Some(Length) <==>
             !stopped && Some(last) != q.request.eot && |q.output| >= q.request.maxTokens)
       && (q.reason == Some(Stop) || q.reason == Some(Eot) || q.reason == Some(Length))
  }

  lemma ReasonNamed(enc: Table, q: Seq)
    requires q.output != [] && Stops(enc, q.request, q.output)
    requires q.reason == Some(FinishReason(enc, q.request, q.output))
    ensures ReasonIs(q, exists x | x in q.request.stop :: Occurs(x, FullText(enc, q.output)))
  {
    hide SafeText, FullText, CheckFinish, Occurs;
    ReasonStop(enc, q.request, q.output);
    StopsMeans(enc, q.request, q.output);
  }

  /** No token of a greedy request is banned by the vocabulary mask. */
  lemma GreedyNeverBanned(w: World, id: RequestId)
    requires Good(w) && id in w.e.s.seqs && w.e.s.seqs[id].request.temperature <= 0.0
    requires w.e.m.Valid() && SomeAllowed(w.e.m)
    ensures forall t | t in w.e.s.seqs[id].output :: t < w.e.m.vocab && t !in w.e.m.banned
  {
    hide Next, Stops, SafeText, FullText, Ledger, CellsExist;
    var q := w.e.s.seqs[id];
    assert SeqOk(w.e.m, w.e.enc, w.e.detoks, q);
    forall j | 0 <= j < |q.output| ensures q.output[j] < w.e.m.vocab && q.output[j] !in w.e.m.banned {
      NextAllowed(w.e.m, q.request.prompt + q.output[..j]);
    }
  }

  lemma HistoryRunsOn(m: Model, enc: Table, r: Request, output: seq<Token>)
    requires |r.prompt| > 0 && m.blockSize > 0 && History(m, enc, r, output)
    ensures RunsOn(enc, r, output)
  {
  }

  lemma ReasonStop(enc: Table, r: Request, output: seq<Token>)
    requires |output| > 0 && Stops(enc, r, output)
    ensures FinishReason(enc, r, output) == Stop <==> exists x | x in r.stop :: Occurs(x, FullText(enc, output))
  {
    hide SafeText, FullText, StartsAt;
    if CheckFinish(r, output, SafeText(enc, output)) == Some(Stop) {
      StopInFull(enc, r, output);
    }
  }

  lemma StopInFull(enc: Table, r: Request, output: seq<Token>)
    requires |output| > 0 && CheckFinish(r, output, SafeText(enc, output)) == Some(Stop)
    ensures exists x | x in r.stop :: Occurs(x, FullText(enc, output))
  {
    hide SafeText, FullText;
    var x := SelectedStop(r.stop, SafeText(enc, output)).value;
    StreamingIsExact(enc, output);
    OccursLonger(x, SafeText(enc, output), FullText(enc, output));
  }

  lemma OccursLonger(x: string, a: string, b: string)
    requires a <= b && Occurs(x, a)
    ensures Occurs(x, b)
  {
    var i :| 0 <= i <= |a| && StartsAt(x, a, i);
    assert b[i..i + |x|] == a[i..i + |x|];
    assert StartsAt(x, b, i);
  }

  lemma OccursWithin(stop: string, prev: string, full: string, idx: nat)
    requires prev <= full && StartsAt(stop, full, idx) && idx + |stop| <= |prev|
    ensures Occurs(stop, prev)
  {
    assert prev[idx..idx + |stop|] == full[idx..idx + |stop|];
    assert StartsAt(stop, prev, idx);
  }

  lemma LeakBound(enc: Table, r: Request, output: seq<Token>, stop: string)
    requires output != [] && RunsOn(enc, r, output) && SelectedStop(r.stop, FullText(enc, output)) == Some(stop)
    ensures var full := FullText(enc, output);
      var idx := Find(stop, full).value;
      var before := |SafeText(enc, output[..|output| - 1])|;
      && before <= |full| && idx <= |full|
      && (before > idx ==> before < idx + |stop|)
  {
    hide SafeText, FullText, Stops, StartsAt;
    var n := |output| - 1;
    var full, prev := FullText(enc, output), SafeText(enc, output[..n]);
    var idx := Find(stop, full).value;
    StreamingIsExact(enc, output);
    SafeTextGrows(enc, output, n);
    assert prev <= full;
    if n == 0 {
      EmptySafeText(enc, output[..n]);
    }
    if |prev| >= idx + |stop| && |prev| > idx {
      OccursWithin(stop, prev, full, idx);
      NotStopped(enc, r, output[..n], stop);
      assert false;
    }
  }

  lemma EmptySafeText(enc: Table, o: seq<Token>)
    requires o == []
    ensures SafeText(enc, o) == ""
  {
    EmptySafe();
  }

  lemma NotStopped(enc: Table, r: Request, o: seq<Token>, stop: string)
    requires o != [] && !Stops(enc, r, o) && stop in r.stop
    ensures !Occurs(stop, SafeText(enc, o))
  {
    hide SafeText, StartsAt;
  }

  // ----- exact fit

  function Slack(ids: seq<RequestId>, seqs: map<RequestId, Seq>, bs: nat): int
    requires forall id | id in ids :: id in seqs
  {
    if ids == [] then 0
    else Slack(ids[1..], seqs, bs) + |seqs[ids[0]].table| * bs - seqs[ids[0]].computed
  }

  /** Between steps every running sequence is one token ahead of its cache and holds exactly
      the blocks that cache needs, so internal fragmentation stays below one block each. */
  lemma ExactFit(e: Engine)
    requires Inv(e)
    ensures Known(e.s)
    ensures forall id | id in e.s.running ::
      && e.s.seqs[id].computed == e.s.seqs[id].NumTokens() - 1
      && |e.s.seqs[id].table| == BlocksNeeded(e.s.seqs[id].computed, e.s.blockSize)
    ensures 0 <= Slack(e.s.running, e.s.seqs, e.s.blockSize) <= |e.s.running| * (e.s.blockSize - 1)
  {
    hide BlocksNeeded, Cached, Base;
    InvBase(e);
    forall id | id in e.s.running
      ensures e.s.seqs[id].computed == e.s.seqs[id].NumTokens() - 1
      ensures |e.s.seqs[id].table| == BlocksNeeded(e.s.seqs[id].computed, e.s.blockSize)
    {
      InvSettled(e, id);
    }
    SlackBound(e.s.running, e.s.seqs, e.s.blockSize);
  }

  lemma {:induction false} SlackBound(ids: seq<RequestId>, seqs: map<RequestId, Seq>, bs: nat)
    requires bs > 0 && forall id | id in ids :: id in seqs && |seqs[id].table| == BlocksNeeded(seqs[id].computed, bs)
    ensures 0 <= Slack(ids, seqs, bs) <= |ids| * (bs - 1)
  {
    hide BlocksNeeded;
    if ids != [] {
      assert ids[0] in ids;
      TableSlack(seqs[ids[0]], bs);
      SlackBound(ids[1..], seqs, bs);
      OneMore(|ids[1..]|, bs - 1);
    }
  }

  lemma TableSlack(q: Seq, bs: nat)
    requires bs > 0 && |q.table| == BlocksNeeded(q.computed, bs)
    ensures 0 <= |q.table| * bs - q.computed <= bs - 1
  {
    hide BlocksNeeded;
    BlocksNeededSpan(q.computed, bs);
  }

  lemma OneMore(n: int, k: int)
    ensures (n + 1) * k == n * k + k
  {
  }
}
