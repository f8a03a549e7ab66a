/** When a workload drains: exactly when the pool could hold each of its requests alone.  A request
    it could not hold is accepted all the same, is never served, and blocks the line behind it. */
module Draining {
  import opened Wrappers
  import opened Transformer
  import opened Forward
  import opened Tokenizer
  import opened Requests
  import opened Blocks
  import opened Scheduling
  import opened Ownership
  import opened Serving
  import opened Refinement
  import opened Stepping
  import opened Progress
  import opened Emission
  import opened Runs
  import opened Ordering

  /** n steps with no arrivals. */
  function Ticks(e: Engine, coins: seq<Coin>): Option<Engine>
    decreases |coins|
  {
    if coins == [] then Some(e)
    else if !Known(e.s) then None
    else match Step(e, coins[0])
      case None => None
      case Some((e', _)) => Ticks(e', coins[1..])
  }

  /** Any workload drains within as many steps as tokens are owed. */
  lemma {:induction false} Drains(w: World, coins: seq<Coin>)
    requires Good(w) && Arrived(w) && Feasible(w.e)
    requires |coins| >= Owed(w.arrivals, w.e)
    ensures Ticks(w.e, coins).Some? && !HasWork(Ticks(w.e, coins).value)
    decreases |coins|
  {
    hide Inv, Streams, Step, Feasible, DeliverAll, Known;
    InvBase(w.e);
    if HasWork(w.e) {
      if coins == [] {
        OwedWhileWork(w);
        assert false;
      }
      StepRefines(w.e, coins[0], w.st);
      var (e', outs) := Step(w.e, coins[0]).value;
      var id := StepSpends(w.e, coins[0], w.st);
      FeasibleKept(w.e, e');
      OwedDrops(w.arrivals, w.e, e', id);
      var w' := World(e', DeliverAll(w.st, outs), w.arrivals, w.started);
      Drains(w', coins[1..]);
    } else {
      TicksIdle(w.e, coins);
    }
  }

  lemma {:induction false} TicksIdle(e: Engine, coins: seq<Coin>)
    requires Known(e.s) && !HasWork(e)
    ensures Ticks(e, coins) == Some(e)
    decreases |coins|
  {
    if coins != [] {
      TicksIdle(e, coins[1..]);
    }
  }

  lemma OwedWhileWork(w: World)
    requires Good(w) && Arrived(w) && Feasible(w.e) && HasWork(w.e)
    ensures Owed(w.arrivals, w.e) > 0
  {
    hide Inv, Streams, Feasible, Due, Ledger;
    InvBase(w.e);
    var id := if w.e.s.running != [] then w.e.s.running[0] else w.e.s.waiting[0];
    QueuedIsLive(w.e.s, id);
    LiveDue(w.e, id);
    OwedAtLeast(w.arrivals, w.e, id);
  }

  lemma QueuedIsLive(s: Sched, id: RequestId)
    requires Ledger(s) && (id in s.running || id in s.waiting)
    ensures id in s.seqs && s.seqs[id].status != Finished
  {
  }

  lemma {:induction false} OwedAtLeast(arrivals: seq<RequestId>, e: Engine, id: RequestId)
    requires (forall x | x in arrivals :: x in e.s.seqs) && id in arrivals
    ensures Owed(arrivals, e) >= Due(e, id)
  {
    hide Due;
    if arrivals[0] != id {
      OwedAtLeast(arrivals[1..], e, id);
    }
  }

  // ----- what has been served fitted the pool

  /** Before its last token the sequence fitted the pool. */
  ghost predicate Affordable(s: Sched, q: Seq) {
    q.output != [] ==>
      s.blockSize > 0 && BlocksNeeded(|q.request.prompt| + |q.output| - 1, s.blockSize) <= s.numBlocks
  }

  ghost predicate Afforded(e: Engine) {
    forall id | id in e.s.seqs :: Affordable(e.s, e.s.seqs[id])
  }

  /** Tokens go only to sequences the pool can hold. */
  lemma GainAfforded(e: Engine, e': Engine, ids: seq<RequestId>, outs: seq<RequestOutput>, id: RequestId)
    requires Emits(e, e', ids, outs) && NoDup(ids) && id in e.s.seqs && Affordable(e.s, e.s.seqs[id])
    requires id in ids ==> Holdable(e.s, id)
    ensures Affordable(e'.s, e'.s.seqs[id])
  {
    hide TokensFor, EndsIn, BlocksNeeded, NoDup;
    TokensCount(ids, outs, id);
    assert Gains(e.s.seqs[id], e'.s.seqs[id], outs, id);
  }

  lemma StepAffords(e: Engine, coin: Coin)
    requires Inv(e) && Afforded(e)
    ensures Known(e.s) && Step(e, coin).Some?
    ensures var e' := Step(e, coin).value.0; Inv(e') && Afforded(e') && Onward(e, e')
  {
    hide Inv, Step, Emits, Affordable, Gains, NoDup, Holdable;
    var ids := StepEmits(e, coin);
    var (e', outs) := Step(e, coin).value;
    EmitsOnward(e, e', ids, outs);
    forall id | id in e.s.seqs ensures Affordable(e'.s, e'.s.seqs[id]) {
      GainAfforded(e, e', ids, outs, id);
    }
  }

  /** The same requests, none of them newly cancelled. */
  ghost predicate Onward(e: Engine, e': Engine) {
    && SameShape(e, e')
    && forall id | id in e.s.seqs ::
         && e'.s.seqs[id].request == e.s.seqs[id].request
         && (e'.s.seqs[id].reason == Some(Cancelled) ==> e.s.seqs[id].reason == Some(Cancelled))
  }

  lemma EmitsOnward(e: Engine, e': Engine, ids: seq<RequestId>, outs: seq<RequestOutput>)
    requires Emits(e, e', ids, outs)
    ensures Onward(e, e')
  {
    hide TokensFor, EndsIn;
    assert forall id | id in e.s.seqs :: Gains(e.s.seqs[id], e'.s.seqs[id], outs, id);
  }

  lemma PerformAffords(w: World, ev: Event)
    requires Good(w) && Arrived(w) && Afforded(w.e)
    requires ev.Submit? ==> ev.r.id !in w.arrivals
    requires Perform(w, ev).Some?
    ensures Afforded(Perform(w, ev).value.e)
  {
    hide Inv, Streams, Step, CancelRequest, AddRequest, Starting, Ledger, Afforded, Onward;
    InvBase(w.e);
    match ev {
      case Submit(r) => AddAffords(w.e, r);
      case Cancel(id) => CancelAffords(w.e, id);
      case Tick(coin) => StepAffords(w.e, coin);
    }
  }

  lemma AddAffords(e: Engine, r: Request)
    requires Afforded(e)
    ensures AddRequest(e, r).Some? ==> Afforded(AddRequest(e, r).value)
  {
    hide Acceptable, BlocksNeeded;
  }

  lemma CancelAffords(e: Engine, id: RequestId)
    requires Ledger(e.s) && Afforded(e)
    ensures Afforded(CancelRequest(e, id).0)
  {
    hide Ledger, CancelRequest, BlocksNeeded;
    CancelShape(e, id);
  }

  /** In every run, whatever has output fitted the pool before its last token. */
  lemma {:induction false} EveryRunAffords(w: World, evs: seq<Event>)
    requires Good(w) && Arrived(w) && Afforded(w.e) && WellPosed(evs)
    requires forall i | 0 <= i < |evs| && evs[i].Submit? :: evs[i].r.id !in w.arrivals
    ensures Play(w, evs).Some? && Afforded(Play(w, evs).value.e)
    decreases |evs|
  {
    hide Good, Arrived, Perform, Afforded;
    EveryRunIsGood(w, evs);
    if evs != [] {
      var n := |evs| - 1;
      assert WellPosed(evs[..n]);
      EveryRunIsGood(w, evs[..n]);
      EveryRunAffords(w, evs[..n]);
      LastIsNew(w, evs, Play(w, evs[..n]).value.arrivals);
      PerformAffords(Play(w, evs[..n]).value, evs[n]);
    }
  }

  lemma StartAffords(m: Model, enc: Table, numBlocks: nat, bs: nat, maxBatch: nat, zero: KV)
    ensures Afforded(Start(m, enc, numBlocks, bs, maxBatch, zero).e)
  {
  }

  lemma ReachedAffords(m: Model, enc: Table, numBlocks: nat, bs: nat, maxBatch: nat, zero: KV, evs: seq<Event>)
    requires m.blockSize > 0 && bs > 0 && WellPosed(evs)
    ensures var end := Play(Start(m, enc, numBlocks, bs, maxBatch, zero), evs);
      end.Some? && Good(end.value) && Arrived(end.value) && Afforded(end.value.e) && InOrder(end.value)
  {
    hide Good, Arrived, Afforded, InOrder, WellPosed, Play;
    var w := Start(m, enc, numBlocks, bs, maxBatch, zero);
    StartGood(m, enc, numBlocks, bs, maxBatch, zero);
    StartAffords(m, enc, numBlocks, bs, maxBatch, zero);
    StartInOrder(m, enc, numBlocks, bs, maxBatch, zero);
    EveryRunIsGood(w, evs);
    EveryRunAffords(w, evs);
    FirstComeFirstServed(w, evs);
  }

  // ----- the request that can never be served

  /** The prompt alone is more than the whole pool. */
  predicate Oversize(s: Sched, r: Request) {
    s.blockSize > 0 && BlocksNeeded(|r.prompt|, s.blockSize) > s.numBlocks
  }

  /** In every run, a request whose prompt exceeds the pool never gets a token; as long as nobody
      cancels it, it waits, and nobody who arrived after it has ever been started. */
  lemma OversizeBlocksLine(m: Model, enc: Table, numBlocks: nat, bs: nat, maxBatch: nat, zero: KV, evs: seq<Event>,
      id: RequestId)
    requires m.blockSize > 0 && bs > 0 && WellPosed(evs)
    requires Play(Start(m, enc, numBlocks, bs, maxBatch, zero), evs).Some?
    requires var e := Play(Start(m, enc, numBlocks, bs, maxBatch, zero), evs).value.e;
      id in e.s.seqs && Oversize(e.s, e.s.seqs[id].request)
    ensures var w := Play(Start(m, enc, numBlocks, bs, maxBatch, zero), evs).value;
      && w.e.s.seqs[id].output == []
      && (w.e.s.seqs[id].reason != Some(Cancelled) ==>
            id in w.e.s.waiting && forall x | x in w.started :: Pos(w.arrivals, x) < Pos(w.arrivals, id))
  {
    hide Play, Start, WellPosed, Good, Arrived, InOrder, Pos, BlocksNeeded;
    ReachedAffords(m, enc, numBlocks, bs, maxBatch, zero, evs);
    var w := Play(Start(m, enc, numBlocks, bs, maxBatch, zero), evs).value;
    NeverServed(w, id);
    if w.e.s.seqs[id].reason != Some(Cancelled) {
      Waits(w, id);
      NobodyBehind(w, id);
    }
  }

  lemma NeverServed(w: World, id: RequestId)
    requires Afforded(w.e) && id in w.e.s.seqs && Oversize(w.e.s, w.e.s.seqs[id].request)
    ensures w.e.s.seqs[id].output == []
  {
    hide BlocksNeeded;
    var q := w.e.s.seqs[id];
    if q.output != [] {
      BlocksNeededMonotone(|q.request.prompt|, |q.request.prompt| + |q.output| - 1, w.e.s.blockSize);
    }
  }

  lemma Waits(w: World, id: RequestId)
    requires Good(w) && id in w.e.s.seqs && w.e.s.seqs[id].output == [] && w.e.s.seqs[id].reason != Some(Cancelled)
    ensures id in w.e.s.waiting
  {
    hide Stops, SafeText, History, Conserved, OnlyRunningOwn, Cached, BlocksNeeded;
    var q := w.e.s.seqs[id];
    assert SeqOk(w.e.m, w.e.enc, w.e.detoks, q);
    if q.status == Running {
      InvSettled(w.e, id);
    }
  }

  lemma NobodyBehind(w: World, id: RequestId)
    requires InOrder(w) && id in w.e.s.waiting && id in w.e.s.seqs && w.e.s.seqs[id].output == []
    ensures forall x | x in w.started :: Pos(w.arrivals, x) < Pos(w.arrivals, id)
  {
    hide Pos;
    var i :| 0 <= i < |w.e.s.waiting| && w.e.s.waiting[i] == id;
  }

  /** When feasibility fails at the head of an idle engine's line, a step does nothing at all: the
      line never moves again, whatever else waits behind it. */
  lemma Stuck(e: Engine, coin: Coin)
    requires Inv(e) && e.s.running == [] && e.s.waiting != [] && e.s.waiting[0] in e.s.seqs && e.s.blockSize > 0
    requires BlocksNeeded(e.s.seqs[e.s.waiting[0]].NumTokens(), e.s.blockSize) > e.s.numBlocks
    ensures Known(e.s) && Step(e, coin) == Some((e, []))
  {
    hide Base, BlocksNeeded, EnsureCapacity, PrefillAll;
    InvBase(e);
    ConservedCount(e.s);
  }

  /** Such requests are accepted: one of them, submitted to a new engine, keeps it busy for ever
      without a single token. */
  lemma OversizeForever(m: Model, enc: Table, numBlocks: nat, bs: nat, maxBatch: nat, zero: KV, r: Request,
      coins: seq<Coin>)
    requires m.blockSize > 0 && bs > 0 && |r.prompt| > 0 && Acceptable(m, r)
    requires BlocksNeeded(|r.prompt|, bs) > numBlocks
    ensures var end := Play(Start(m, enc, numBlocks, bs, maxBatch, zero), [Submit(r)]);
      && end.Some? && HasWork(end.value.e) && r.id in end.value.e.s.seqs
      && Ticks(end.value.e, coins) == Some(end.value.e)
  {
    hide Streams, BlocksNeeded, Acceptable, Inv, Ticks;
    var w := Start(m, enc, numBlocks, bs, maxBatch, zero);
    var evs := [Submit(r)];
    StartGood(m, enc, numBlocks, bs, maxBatch, zero);
    assert evs[..0] == [] && Play(w, evs[..0]) == Some(w);
    PerformGood(w, evs[0]);
    var e := Perform(w, evs[0]).value.e;
    assert Play(w, evs) == Perform(w, evs[0]);
    assert e.s.waiting == [r.id];
    StuckForever(e, coins);
  }

  lemma {:induction false} StuckForever(e: Engine, coins: seq<Coin>)
    requires Inv(e) && e.s.running == [] && e.s.waiting != [] && e.s.waiting[0] in e.s.seqs && e.s.blockSize > 0
    requires BlocksNeeded(e.s.seqs[e.s.waiting[0]].NumTokens(), e.s.blockSize) > e.s.numBlocks
    ensures Ticks(e, coins) == Some(e)
    decreases |coins|
  {
    hide Inv, Step, BlocksNeeded;
    if coins != [] {
      Stuck(e, coins[0]);
      StuckForever(e, coins[1..]);
    }
  }

  // ----- exactly when

  /** How many tokens the request emits does not depend on draws: it decodes greedily, or nothing but
      its allowance stops it. */
  predicate LengthKnown(r: Request) {
    r.Greedy() || (r.eot == None && r.stop == [])
  }

  lemma {:induction false} TicksKeep(e: Engine, coins: seq<Coin>)
    requires Inv(e) && Afforded(e)
    ensures Ticks(e, coins).Some?
    ensures var e' := Ticks(e, coins).value; Inv(e') && Afforded(e') && Onward(e, e')
    decreases |coins|
  {
    hide Inv, Step, Afforded;
    if coins != [] {
      StepAffords(e, coins[0]);
      TicksKeep(Step(e, coins[0]).value.0, coins[1..]);
    }
  }

  /** Stopped by nothing but its allowance, a sequence stops at it. */
  lemma StopsAtAllowance(enc: Table, r: Request, output: seq<Token>)
    requires r.eot == None && r.stop == [] && output != []
    ensures Stops(enc, r, output) <==> |output| >= r.maxTokens
  {
  }

  /** Without early stops the limit is what the request asked for. */
  lemma LimitIsAllowance(m: Model, enc: Table, r: Request)
    requires |r.prompt| > 0 && m.blockSize > 0 && r.eot == None && r.stop == []
    ensures Limit(m, enc, r) == Allowance(r)
  {
    hide Stops, Next, IsGreedy, GreedyGenerate;
    if r.Greedy() {
      assert IsGreedy(m, r.prompt, []) by { IsGreedyEmpty(m, r.prompt); }
      SoloIsReference(m, enc, r, []);
      StopsAtAllowance(enc, r, Solo(m, enc, r));
    }
  }

  /** A sequence that ran to its end has emitted its limit. */
  lemma EndsAtLimit(m: Model, enc: Table, q: Seq)
    requires m.blockSize > 0 && |q.request.prompt| > 0 && History(m, enc, q.request, q.output)
    requires q.output != [] && Stops(enc, q.request, q.output) && LengthKnown(q.request)
    ensures |q.output| >= Limit(m, enc, q.request)
  {
    hide Stops, Next, IsGreedy, SoloFrom;
    if q.request.Greedy() {
      assert q.output[..0] == [];
      SoloUnique(m, enc, q.request, q.output, 0);
    } else {
      StopsAtAllowance(enc, q.request, q.output);
    }
  }

  /** A live request that has ended normally since fitted the pool alone. */
  lemma EndedFits(e: Engine, e': Engine, id: RequestId)
    requires Inv(e) && Inv(e') && Onward(e, e') && Afforded(e')
    requires id in e.s.seqs && e.s.seqs[id].status != Finished && e'.s.seqs[id].status == Finished
    requires LengthKnown(e.s.seqs[id].request)
    ensures FitsAlone(e, e.s.seqs[id].request)
  {
    hide Ledger, BlocksNeeded, Stops, History, Limit, SafeText, FullText, FinishReason, Settled, CellsExist;
    var q, q' := e.s.seqs[id], e'.s.seqs[id];
    assert SeqOk(e.m, e.enc, e.detoks, q) && SeqOk(e'.m, e'.enc, e'.detoks, q');
    EndsAtLimit(e.m, e.enc, q');
    BaseLedger(e);
    BlocksNeededMonotone(|q.request.prompt| + Limit(e.m, e.enc, q.request) - 1, |q.request.prompt| + |q'.output| - 1,
      e.s.blockSize);
  }

  lemma NothingLive(e: Engine, id: RequestId)
    requires Inv(e) && !HasWork(e) && id in e.s.seqs
    ensures e.s.seqs[id].status == Finished
  {
    hide SeqOk, Conserved, CellsExist, OnlyRunningOwn;
  }

  /** Requests of known length drain within the tokens owed if and only if the pool could hold each
      of the live ones alone. */
  lemma DrainsExactly(w: World, coins: seq<Coin>)
    requires Good(w) && Arrived(w) && Afforded(w.e) && w.e.s.maxBatch > 0
    requires forall id | id in w.e.s.seqs && w.e.s.seqs[id].status != Finished :: LengthKnown(w.e.s.seqs[id].request)
    requires |coins| >= Owed(w.arrivals, w.e)
    ensures Ticks(w.e, coins).Some?
    ensures !HasWork(Ticks(w.e, coins).value) <==> Feasible(w.e)
  {
    hide Inv, Streams, Afforded, Onward, FitsAlone, Ticks, Arrived, LengthKnown, Owed, HasWork;
    TicksKeep(w.e, coins);
    var e' := Ticks(w.e, coins).value;
    InvBase(w.e);
    if Feasible(w.e) {
      Drains(w, coins);
    }
    if !HasWork(e') {
      forall id | id in w.e.s.seqs && w.e.s.seqs[id].status != Finished ensures FitsAlone(w.e, w.e.s.seqs[id].request) {
        SameKeys(w.e, e');
        NothingLive(e', id);
        EndedFits(w.e, e', id);
      }
    }
  }

  lemma SameKeys(e: Engine, e': Engine)
    requires Onward(e, e')
    ensures e'.s.seqs.Keys == e.s.seqs.Keys
  {
  }
}
