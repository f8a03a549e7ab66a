/** Any sequence of arrivals, cancellations and steps performed on an engine object is the same
    run of the state machine, so whatever holds of every run holds of the object. */
module Replay {
  import opened Wrappers
  import opened Transformer
  import opened Forward
  import opened Tokenizer
  import opened Requests
  import opened Scheduling
  import opened Serving
  import opened Refinement
  import opened Stepping
  import opened Runs
  import opened PagedPool
  import opened EngineObject

  /** One event on the object, and what its consumers have then been sent. */
  method Handle(engine: LLMEngine, st: Streamed, ev: Event, ghost w: World) returns (st': Streamed)
    requires engine.Valid() && engine.View() == w.e && st == w.st && Good(w) && Arrived(w)
    requires ev.Submit? ==> ev.r.id !in w.arrivals && |ev.r.prompt| > 0
    modifies engine.Repr()
    ensures engine.Valid() && fresh(engine.Repr() - old(engine.Repr()))
    ensures Perform(w, ev).Some? && engine.View() == Perform(w, ev).value.e && st' == Perform(w, ev).value.st
  {
    hide Inv, Streams, Serving.Step, Serving.AddRequest, Serving.CancelRequest, Starting, LLMEngine.Valid, DeliverAll;
    PerformGood(w, ev);
    GoodInv(w);
    match ev {
      case Submit(r) =>
        UnknownId(engine, r.id);
        var ok := engine.AddRequest(r);
        st' := if ok then st[r.id := ([], "")] else st;
      case Cancel(id) =>
        var found := engine.CancelRequest(id);
        st' := st;
      case Tick(coin) =>
        var outs := engine.Step(coin);
        st' := DeliverAll(st, outs);
    }
  }

  lemma GoodInv(w: World)
    requires Good(w)
    ensures Inv(w.e) && Known(w.e.s)
  {
  }

  lemma UnknownId(engine: LLMEngine, id: RequestId)
    requires engine.Valid() && id !in engine.View().s.seqs
    ensures id !in engine.scheduler.known
  {
  }

  /** Play a whole run on a new engine object. */
  method Run(m: Model, enc: Table, numBlocks: nat, blockSize: nat, maxBatchSize: nat, evs: seq<Event>)
    returns (engine: LLMEngine, st: Streamed)
    requires m.blockSize > 0 && blockSize > 0 && WellPosed(evs)
    ensures fresh(engine) && engine.Valid()
    ensures var end := Play(Start(m, enc, numBlocks, blockSize, maxBatchSize, KV([], [])), evs);
      end.Some? && engine.View() == end.value.e && st == end.value.st
  {
    hide Play, Perform, Good, Arrived, LLMEngine.Valid, Start;
    ghost var start := Start(m, enc, numBlocks, blockSize, maxBatchSize, KV([], []));
    engine := new LLMEngine(m, enc, numBlocks, blockSize, maxBatchSize);
    st := map[];
    StartGood(m, enc, numBlocks, blockSize, maxBatchSize, KV([], []));
    StartsAs(engine, start, blockSize, numBlocks, maxBatchSize);
    assert evs[..0] == [];
    for i := 0 to |evs|
      invariant fresh(engine.Repr()) && engine.Valid()
      invariant Play(start, evs[..i]).Some?
      invariant engine.View() == Play(start, evs[..i]).value.e && st == Play(start, evs[..i]).value.st
    {
      PrefixGood(start, evs, i);
      st := Handle(engine, st, evs[i], Play(start, evs[..i]).value);
    }
    assert evs[..|evs|] == evs;
  }

  lemma StartsAs(engine: LLMEngine, start: World, blockSize: nat, numBlocks: nat, maxBatchSize: nat)
    requires blockSize > 0 && engine.Valid() && engine.detokenizers == map[]
    requires start == Start(engine.m, engine.enc, numBlocks, blockSize, maxBatchSize, KV([], []))
    requires engine.View().s == Sched(numBlocks, blockSize, maxBatchSize, seq(numBlocks, i => i), [], [], map[], 0)
    requires engine.View().detoks == map[]
    requires engine.View().store == ZeroStore(engine.m.nLayer, numBlocks, blockSize)
    ensures engine.View() == start.e && start.st == map[] && start.arrivals == [] && Play(start, []) == Some(start)
  {
  }

  lemma PrefixGood(start: World, evs: seq<Event>, i: nat)
    requires i < |evs| && WellPosed(evs) && Good(start) && Arrived(start) && start.arrivals == []
    ensures Play(start, evs[..i]).Some? && Good(Play(start, evs[..i]).value) && Arrived(Play(start, evs[..i]).value)
    ensures evs[i].Submit? ==> evs[i].r.id !in Play(start, evs[..i]).value.arrivals && |evs[i].r.prompt| > 0
    ensures Play(start, evs[..i + 1]) == Perform(Play(start, evs[..i]).value, evs[i])
  {
    hide Good, Arrived, Perform;
    var before := evs[..i];
    assert evs[..i + 1][..i] == before && evs[..i + 1][i] == evs[i];
    EveryRunIsGood(start, before);
    if evs[i].Submit? {
      forall j | 0 <= j < |before| && before[j].Submit? ensures before[j].r.id != evs[i].r.id {
        assert before[j] == evs[j];
      }
    }
  }
}
