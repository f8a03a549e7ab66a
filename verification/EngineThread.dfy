/** The engine and the protocol run together: submissions, cancellations and steps act on both.  The
    protocol's picture of unfinished requests stays the engine's own, and what a consumer receives
    is what its request decodes to alone. */
module EngineThread {
  import opened Wrappers
  import opened Transformer
  import opened Tokenizer
  import opened Requests
  import opened Ownership
  import opened Scheduling
  import opened Serving
  import opened Refinement
  import opened Stepping
  import opened Emission
  import Progress
  import Runs
  import Async = AsyncEngine

  /** The protocol state and the engine agree on what is unfinished. */
  ghost predicate Agrees(e: Engine, s: Async.State) {
    forall id :: (id in s.streams && s.streams[id].live) <==> Live(e, id)
  }

  /** The thread's step is a step of the engine: its outputs are ones the protocol accepts, and
      handing them over keeps the two in agreement. */
  lemma StepIsStepOk(e: Engine, coin: Coin, s: Async.State)
    requires Inv(e) && Agrees(e, s) && s.pc == Async.Stepping
    ensures Known(e.s) && Serving.Step(e, coin).Some?
    ensures var (e', outs) := Serving.Step(e, coin).value;
      && Async.Next(s, Async.StepOk(outs)).Some?
      && Agrees(e', Async.Next(s, Async.StepOk(outs)).value)
  {
    hide Inv, Serving.Step, Live, Gains, NoDup, Agrees, Async.OutputFor, Async.Distinct, Async.Stepped;
    var ids := StepEmits(e, coin);
    var (e', outs) := Serving.Step(e, coin).value;
    AcceptsOutputs(e, s, ids, outs);
    var s' := Async.Next(s, Async.StepOk(outs)).value;
    forall id ensures (id in s'.streams && s'.streams[id].live) <==> Live(e', id) {
      AgreesOn(e, s, id);
      if id in s.streams {
        SteppedAgrees(s.streams[id], outs, id);
      }
      LiveAfter(e, e', outs, id);
    }
    AgreesFrom(e', s');
  }

  /** The thread sees work exactly when the engine has some. */
  lemma WorkAgrees(e: Engine, s: Async.State)
    requires Inv(e) && Agrees(e, s)
    ensures Async.HasWork(s) <==> Progress.HasWork(e)
  {
    hide SeqOk, CellsExist, Conserved, OnlyRunningOwn, Settled;
    if e.s.waiting != [] {
      assert e.s.waiting[0] in e.s.waiting && Live(e, e.s.waiting[0]);
    }
    if e.s.running != [] {
      assert e.s.running[0] in e.s.running && Live(e, e.s.running[0]);
    }
    if Async.HasWork(s) {
      var id :| id in s.streams && s.streams[id].live;
      assert Live(e, id);
    }
  }

  lemma AcceptsOutputs(e: Engine, s: Async.State, ids: seq<RequestId>, outs: seq<RequestOutput>)
    requires Agrees(e, s) && NoDup(ids) && |outs| == |ids| && forall i | 0 <= i < |ids| :: outs[i].id == ids[i]
    requires forall id | id in ids :: Live(e, id)
    ensures Async.StepOutputs(s, outs) && Async.Distinct(outs)
  {
    hide Live;
    forall i, j | 0 <= i < j < |outs| ensures outs[i].id != outs[j].id {
      assert ids[i] != ids[j];
    }
    forall i | 0 <= i < |outs| ensures outs[i].id in s.streams && s.streams[outs[i].id].live {
      assert ids[i] in ids;
    }
  }

  lemma AgreesOn(e: Engine, s: Async.State, id: RequestId)
    requires Agrees(e, s)
    ensures (id in s.streams && s.streams[id].live) <==> Live(e, id)
  {
    hide Live;
  }

  lemma AgreesFrom(e: Engine, s: Async.State)
    requires forall id :: (id in s.streams && s.streams[id].live) <==> Live(e, id)
    ensures Agrees(e, s)
  {
    hide Live;
  }

  lemma LiveAfter(e: Engine, e': Engine, outs: seq<RequestOutput>, id: RequestId)
    requires e'.s.seqs.Keys == e.s.seqs.Keys
    requires id in e.s.seqs ==> Gains(e.s.seqs[id], e'.s.seqs[id], outs, id)
    ensures Live(e', id) <==> Live(e, id) && !EndsIn(outs, id)
    ensures Live(e, id) ==> id in e.s.seqs
  {
    hide TokensFor, EndsIn;
  }

  lemma SteppedAgrees(t: Async.Stream, outs: seq<RequestOutput>, id: RequestId)
    requires Async.Distinct(outs)
    ensures Async.Stepped(t, outs, id).live <==> t.live && !EndsIn(outs, id)
  {
    if Async.Listed(outs, id) {
      var o := Async.OutputFor(outs, id);
      var k :| 0 <= k < |outs| && outs[k] == o;
      assert forall i | 0 <= i < |outs| && i != k :: outs[i].id != outs[k].id;
    }
  }

  // ----- engine and protocol together

  /** The engine with its history, and the protocol around it.  Once a step has failed, the engine
      is the last one known to be consistent; the protocol makes no further step with it. */
  datatype Both = Both(w: Runs.World, s: Async.State)

  datatype Move = Submit(r: Request) | Step(coin: Coin) | Other(ev: Async.Event)

  /** What a move is to the engine, if it reaches it, and to the protocol. */
  function Parts(x: Both, mv: Move): Option<(Option<Runs.Event>, Async.Event)>
    requires Known(x.w.e.s)
  {
    match mv
    case Submit(r) =>
      var accepted := AddRequest(x.w.e, r).Some?;
      Some((Some(Runs.Submit(r)), if accepted then Async.Submit(r.id) else Async.SubmitRefused(r.id)))
    case Step(coin) =>
      (match Serving.Step(x.w.e, coin)
       case None => None
       case Some((_, outs)) => Some((Some(Runs.Tick(coin)), Async.StepOk(outs))))
    case Other(ev) =>
      if ev.Submit? || ev.SubmitRefused? || ev.StepOk? then None
      else if ev.Cancel? || ev.Close? then Some((Some(Runs.Cancel(ev.id)), ev))
      else Some((None, ev))
  }

  /** None when the move cannot happen. */
  function Act(x: Both, mv: Move): Option<Both> {
    if !Known(x.w.e.s) || Parts(x, mv).None? then None
    else
      var (onEngine, onProtocol) := Parts(x, mv).value;
      var w' := if onEngine.Some? then Runs.Perform(x.w, onEngine.value) else Some(x.w);
      var s' := Async.Next(x.s, onProtocol);
      if w'.Some? && s'.Some? then Some(Both(w'.value, s'.value)) else None
  }

  function Play(x: Both, moves: seq<Move>): Option<Both>
    decreases |moves|
  {
    if moves == [] then Some(x)
    else match Play(x, moves[..|moves| - 1])
      case None => None
      case Some(x1) => Act(x1, moves[|moves| - 1])
  }

  function Begin(m: Model, enc: Table, numBlocks: nat, bs: nat, maxBatch: nat, zero: KV): Both {
    Both(Runs.Start(m, enc, numBlocks, bs, maxBatch, zero), Async.START)
  }

  ghost predicate Prompted(moves: seq<Move>) {
    forall i | 0 <= i < |moves| && moves[i].Submit? :: |moves[i].r.prompt| > 0
  }

  /** Tokens and text a consumer has taken off its queue. */
  function Taken(items: seq<Async.Item>): (seq<Token>, string) {
    if items == [] then ([], "")
    else
      var n := |items| - 1;
      var (tokens, text) := Taken(items[..n]);
      if items[n].Out? then (tokens + items[n].o.tokens, text + items[n].o.delta) else (tokens, text)
  }

  function Told(outs: seq<RequestOutput>): (seq<Token>, string) {
    Taken(Async.Items(outs))
  }

  /** What was produced for a request is what the engine's history says its consumer was sent, and
      an output that says the request is over tells the truth. */
  ghost predicate StreamMatches(w: Runs.World, id: RequestId, t: Async.Stream) {
    && id in w.e.s.seqs && id in w.st && w.st[id] == Told(t.produced)
    && (t.produced != [] && t.produced[|t.produced| - 1].finished ==> NormallyOver(w.e.s.seqs[id]))
  }

  predicate NormallyOver(q: Seq) {
    q.status == Finished && q.reason != Some(Cancelled)
  }

  ghost predicate Matched(x: Both) {
    && Runs.Good(x.w) && Runs.Arrived(x.w) && Async.Inv(x.s)
    && (forall id | id in x.w.e.s.seqs :: id in x.s.streams && StreamMatches(x.w, id, x.s.streams[id]))
    && (Async.EraOf(x.s.pc) == Async.Serving ==> Agrees(x.w.e, x.s))
  }

  // ----- the agreement is kept

  lemma BeginMatched(m: Model, enc: Table, numBlocks: nat, bs: nat, maxBatch: nat, zero: KV)
    requires m.blockSize > 0 && bs > 0
    ensures Matched(Begin(m, enc, numBlocks, bs, maxBatch, zero))
  {
    hide Runs.Good, Runs.Arrived, Async.Inv;
    Runs.StartGood(m, enc, numBlocks, bs, maxBatch, zero);
    Async.StartInv();
  }

  /** A thread that serves has always served. */
  lemma EraOnward(s: Async.State, ev: Async.Event)
    requires Async.Next(s, ev).Some? && Async.EraOf(Async.Next(s, ev).value.pc) == Async.Serving
    ensures Async.EraOf(s.pc) == Async.Serving
  {
    hide Async.OneStream, Async.StepOutputs, Async.Registered, Async.HasWork, Async.Stepped, Async.Handled;
  }

  lemma ProtocolKept(s: Async.State, ev: Async.Event)
    requires Async.Inv(s) && Async.Next(s, ev).Some?
    ensures Async.Inv(Async.Next(s, ev).value)
  {
    hide Async.PcOk, Async.StreamsOk, Async.NoLostWakeup, Async.Next;
    Async.NextOk(s, ev);
    Async.NextAwake(s, ev);
  }

  // submission

  lemma SubmitMatched(x: Both, r: Request)
    requires Matched(x) && |r.prompt| > 0 && Act(x, Submit(r)).Some?
    ensures Matched(Act(x, Submit(r)).value)
  {
    hide Runs.Good, Runs.Arrived, Async.Inv, Runs.Perform, StreamMatches, Agrees, Acceptable;
    var ev := if AddRequest(x.w.e, r).Some? then Async.Submit(r.id) else Async.SubmitRefused(r.id);
    var x' := Act(x, Submit(r)).value;
    SubmitIsNew(x, r);
    Runs.PerformGood(x.w, Runs.Submit(r));
    ProtocolKept(x.s, ev);
    forall id | id in x'.w.e.s.seqs ensures id in x'.s.streams && StreamMatches(x'.w, id, x'.s.streams[id]) {
      SubmitStream(x, r, id);
    }
    if Async.EraOf(x'.s.pc) == Async.Serving {
      SubmitAgrees(x, r);
    }
  }

  lemma SubmitIsNew(x: Both, r: Request)
    requires Matched(x) && Act(x, Submit(r)).Some?
    ensures r.id !in x.s.streams && r.id !in x.w.e.s.seqs && r.id !in x.w.arrivals
  {
    hide Runs.Good, Async.Inv, Runs.Perform, StreamMatches, Agrees, Acceptable;
  }

  lemma SubmitActs(x: Both, r: Request)
    requires Act(x, Submit(r)).Some?
    ensures var x', e' := Act(x, Submit(r)).value, AddRequest(x.w.e, r);
      && x'.s.streams == x.s.streams[r.id := if e'.Some? then Async.ACCEPTED else Async.REFUSED]
      && (e'.None? ==> x'.w == x.w)
      && (e'.Some? ==> x'.w.e == e'.value && x'.w.st == x.w.st[r.id := ([], "")])
  {
    hide Acceptable;
  }

  lemma SubmitStream(x: Both, r: Request, id: RequestId)
    requires Matched(x) && Act(x, Submit(r)).Some? && id in Act(x, Submit(r)).value.w.e.s.seqs
    ensures var x' := Act(x, Submit(r)).value; id in x'.s.streams && StreamMatches(x'.w, id, x'.s.streams[id])
  {
    hide Runs.Good, Runs.Arrived, Async.Inv, Agrees, Acceptable, Taken, NormallyOver, Act;
    SubmitActs(x, r);
    SubmitIsNew(x, r);
    NothingTold();
  }

  lemma NothingTold()
    ensures Told([]) == ([], "")
  {
  }

  lemma SubmitAgrees(x: Both, r: Request)
    requires Matched(x) && Act(x, Submit(r)).Some? && Agrees(x.w.e, x.s)
    ensures Agrees(Act(x, Submit(r)).value.w.e, Act(x, Submit(r)).value.s)
  {
    hide Runs.Good, Runs.Arrived, Async.Inv, StreamMatches, Acceptable, Act;
    SubmitActs(x, r);
    SubmitIsNew(x, r);
  }

  // a step

  /** What one step adds to what a consumer was sent. */
  lemma {:induction false} DeliveredTo(st: Streamed, outs: seq<RequestOutput>, id: RequestId)
    requires id in st && Async.Distinct(outs)
    ensures id in DeliverAll(st, outs)
    ensures DeliverAll(st, outs)[id] ==
      if Async.Listed(outs, id) then var o := Async.OutputFor(outs, id); (st[id].0 + o.tokens, st[id].1 + o.delta)
      else st[id]
    decreases |outs|
  {
    hide Async.OutputFor, Async.Listed;
    if outs == [] {
      Async.NothingListed(id);
    } else {
      Async.DueTail(outs, id);
      DeliveredTo(Deliver(st, outs[0]), outs[1..], id);
    }
  }

  lemma ToldMore(outs: seq<RequestOutput>, o: RequestOutput)
    ensures Told(outs + [o]) == (Told(outs).0 + o.tokens, Told(outs).1 + o.delta)
  {
    assert Async.Items(outs + [o])[..|outs|] == Async.Items(outs);
  }

  lemma StepStream(w: Runs.World, w': Runs.World, t: Async.Stream, outs: seq<RequestOutput>, id: RequestId)
    requires StreamMatches(w, id, t) && Async.Distinct(outs) && Runs.Good(w)
    requires id in w'.e.s.seqs && w'.st == DeliverAll(w.st, outs) && Gains(w.e.s.seqs[id], w'.e.s.seqs[id], outs, id)
    requires Async.Listed(outs, id) ==> Live(w.e, id)
    ensures StreamMatches(w', id, Async.Stepped(t, outs, id))
  {
    hide Runs.Good, Told, TokensFor, DeliverAll, Async.OutputFor, Async.Listed;
    DeliveredTo(w.st, outs, id);
    if Async.Listed(outs, id) {
      var o := Async.OutputFor(outs, id);
      ToldMore(t.produced, o);
      LiveReason(w, id);
      if o.finished {
        ListedEnds(outs, id);
      }
    }
  }

  lemma LiveReason(w: Runs.World, id: RequestId)
    requires Runs.Good(w) && Live(w.e, id)
    ensures w.e.s.seqs[id].reason == None
  {
    hide Stops, SafeText, History;
    assert SeqOk(w.e.m, w.e.enc, w.e.detoks, w.e.s.seqs[id]);
  }

  lemma ListedEnds(outs: seq<RequestOutput>, id: RequestId)
    requires Async.Listed(outs, id) && Async.OutputFor(outs, id).finished
    ensures EndsIn(outs, id)
  {
    var o := Async.OutputFor(outs, id);
    var i :| 0 <= i < |outs| && outs[i] == o;
  }

  lemma StepMatched(x: Both, coin: Coin)
    requires Matched(x) && Act(x, Step(coin)).Some?
    ensures Matched(Act(x, Step(coin)).value)
  {
    hide Runs.Good, Runs.Arrived, Async.Inv, StreamMatches, Agrees, Emits, Serving.Step, Runs.Starting, Async.Stepped,
      DeliverAll, Live, NoDup;
    var x' := Act(x, Step(coin)).value;
    GoodInv(x.w);
    StepIsStepOk(x.w.e, coin, x.s);
    var ids := StepEmits(x.w.e, coin);
    var (e', outs) := Serving.Step(x.w.e, coin).value;
    Runs.PerformGood(x.w, Runs.Tick(coin));
    ProtocolKept(x.s, Async.StepOk(outs));
    forall id | id in x'.w.e.s.seqs ensures id in x'.s.streams && StreamMatches(x'.w, id, x'.s.streams[id]) {
      EmitsAt(x.w.e, e', ids, outs, id);
      ListedLive(ids, outs, id);
      StepStream(x.w, x'.w, x.s.streams[id], outs, id);
    }
  }

  /** The thread's step is always possible. */
  lemma StepGoesThrough(x: Both, coin: Coin)
    requires Matched(x) && x.s.pc == Async.Stepping
    ensures Act(x, Step(coin)).Some?
  {
    hide Runs.Good, Runs.Arrived, Async.Inv, StreamMatches, Agrees, Serving.Step, Async.Next, DeliverAll, Runs.Starting;
    GoodInv(x.w);
    StepIsStepOk(x.w.e, coin, x.s);
  }

  lemma GoodInv(w: Runs.World)
    requires Runs.Good(w)
    ensures Inv(w.e) && Known(w.e.s)
  {
  }

  lemma EmitsAt(e: Engine, e': Engine, ids: seq<RequestId>, outs: seq<RequestOutput>, id: RequestId)
    requires Emits(e, e', ids, outs) && id in e'.s.seqs
    ensures id in e.s.seqs && Gains(e.s.seqs[id], e'.s.seqs[id], outs, id)
    ensures |outs| == |ids| && forall i | 0 <= i < |ids| :: outs[i].id == ids[i]
  {
    hide Gains;
  }

  lemma ListedLive(ids: seq<RequestId>, outs: seq<RequestOutput>, id: RequestId)
    requires |outs| == |ids| && forall i | 0 <= i < |ids| :: outs[i].id == ids[i]
    ensures Async.Listed(outs, id) ==> id in ids
  {
  }

  // everything else

  lemma OtherMatched(x: Both, ev: Async.Event)
    requires Matched(x) && Act(x, Other(ev)).Some?
    ensures Matched(Act(x, Other(ev)).value)
  {
    hide Runs.Good, Runs.Arrived, Async.Inv, StreamMatches, Agrees, CancelRequest, Async.Next, Act;
    OtherActs(x, ev);
    var x' := Act(x, Other(ev)).value;
    GoodInv(x.w);
    ProtocolKept(x.s, ev);
    if ev.Cancel? || ev.Close? {
      Runs.PerformGood(x.w, Runs.Cancel(ev.id));
    }
    forall id | id in x'.w.e.s.seqs ensures id in x'.s.streams && StreamMatches(x'.w, id, x'.s.streams[id]) {
      OtherStream(x, ev, id);
    }
    if Async.EraOf(x'.s.pc) == Async.Serving {
      EraOnward(x.s, ev);
      OtherAgrees(x, ev);
    }
  }

  /** Only a step produces outputs. */
  lemma ProducedKept(s: Async.State, ev: Async.Event, id: RequestId)
    requires Async.Next(s, ev).Some? && !ev.StepOk? && !ev.Submit? && !ev.SubmitRefused?
    ensures id in s.streams <==> id in Async.Next(s, ev).value.streams
    ensures id in s.streams ==> Async.Next(s, ev).value.streams[id].produced == s.streams[id].produced
  {
    hide Async.StepOutputs, Async.Registered, Async.HasWork, Async.EngineTurn, Async.OneStream;
    if ev.Turn? {
      Async.TurnLive(s);
    } else if OfOne(ev) {
      Async.OneStreamKeeps(s.streams[ev.id], ev);
    }
  }

  /** The moves that are about one request only. */
  predicate OfOne(ev: Async.Event) {
    ev.Cancel? || ev.CancelPut? || ev.Receive? || ev.Leave? || ev.Close?
  }

  lemma OtherActs(x: Both, ev: Async.Event)
    requires Act(x, Other(ev)).Some?
    ensures !ev.Submit? && !ev.SubmitRefused? && !ev.StepOk? && Async.Next(x.s, ev) == Some(Act(x, Other(ev)).value.s)
    ensures Known(x.w.e.s) && Act(x, Other(ev)).value.w ==
      if ev.Cancel? || ev.Close? then x.w.(e := CancelRequest(x.w.e, ev.id).0) else x.w
  {
    hide Async.Next, CancelRequest;
  }

  lemma OtherStream(x: Both, ev: Async.Event, id: RequestId)
    requires Matched(x) && Act(x, Other(ev)).Some? && id in Act(x, Other(ev)).value.w.e.s.seqs
    ensures var x' := Act(x, Other(ev)).value; id in x'.s.streams && StreamMatches(x'.w, id, x'.s.streams[id])
  {
    hide Runs.Good, Runs.Arrived, Async.Inv, Agrees, CancelRequest, Async.Next, Act, StreamMatches, Ledger,
      Runs.CancelsSeq;
    var x' := Act(x, Other(ev)).value;
    OtherActs(x, ev);
    ProducedKept(x.s, ev, id);
    if ev.Cancel? || ev.Close? {
      GoodInv(x.w);
      InvBase(x.w.e);
      Runs.CancelShape(x.w.e, ev.id);
      CancelMatches(x.w, x'.w, ev.id, id, x.s.streams[id], x'.s.streams[id]);
    } else {
      StreamLike(x.w, id, x.s.streams[id], x'.s.streams[id]);
    }
  }

  lemma StreamLike(w: Runs.World, id: RequestId, t: Async.Stream, t': Async.Stream)
    requires StreamMatches(w, id, t) && t'.produced == t.produced
    ensures StreamMatches(w, id, t')
  {
    hide Told, NormallyOver;
  }

  lemma CancelMatches(w: Runs.World, w': Runs.World, cancelled: RequestId, id: RequestId, t: Async.Stream,
      t': Async.Stream)
    requires Ledger(w.e.s) && w' == w.(e := CancelRequest(w.e, cancelled).0) && id in w'.e.s.seqs
    requires StreamMatches(w, id, t) && t'.produced == t.produced
    ensures StreamMatches(w', id, t')
  {
    hide Ledger, CancelRequest, Told;
    Runs.CancelShape(w.e, cancelled);
  }

  lemma OtherAgrees(x: Both, ev: Async.Event)
    requires Matched(x) && Act(x, Other(ev)).Some? && Agrees(x.w.e, x.s)
    requires Async.EraOf(Act(x, Other(ev)).value.s.pc) == Async.Serving
    ensures Agrees(Act(x, Other(ev)).value.w.e, Act(x, Other(ev)).value.s)
  {
    hide Runs.Good, Runs.Arrived, Async.Inv, StreamMatches, CancelRequest, Async.Next, Agrees, Live, Act;
    OtherActs(x, ev);
    var x' := Act(x, Other(ev)).value;
    GoodInv(x.w);
    InvBase(x.w.e);
    forall id ensures (id in x'.s.streams && x'.s.streams[id].live) <==> Live(x'.w.e, id) {
      AgreesOn(x.w.e, x.s, id);
      LiveProtocol(x.s, ev, id);
      if ev.Cancel? || ev.Close? {
        LiveEngine(x.w.e, ev.id, id);
      }
    }
    AgreesFrom(x'.w.e, x'.s);
  }

  lemma LiveProtocol(s: Async.State, ev: Async.Event, id: RequestId)
    requires Async.Next(s, ev).Some? && !ev.StepOk? && !ev.Submit? && !ev.SubmitRefused?
    requires Async.EraOf(Async.Next(s, ev).value.pc) == Async.Serving
    ensures id in s.streams <==> id in Async.Next(s, ev).value.streams
    ensures id in s.streams ==>
      (Async.Next(s, ev).value.streams[id].live <==> s.streams[id].live && !((ev.Cancel? || ev.Close?) && ev.id == id))
  {
    hide Async.StepOutputs, Async.Registered, Async.HasWork, Async.EngineTurn, Async.OneStream;
    if ev.Turn? {
      Async.TurnLive(s);
    } else if OfOne(ev) {
      Async.OneStreamKeeps(s.streams[ev.id], ev);
    }
  }

  lemma LiveEngine(e: Engine, cancelled: RequestId, id: RequestId)
    requires Ledger(e.s)
    ensures Live(CancelRequest(e, cancelled).0, id) <==> Live(e, id) && id != cancelled
  {
    hide Ledger, CancelRequest;
    Runs.CancelShape(e, cancelled);
  }

  /** In every run of the two together the protocol and the engine agree, as long as the thread
      serves, on what is unfinished, and in every state on what was produced. */
  lemma {:induction false} EveryRunMatches(x: Both, moves: seq<Move>)
    requires Matched(x) && Prompted(moves) && Play(x, moves).Some?
    ensures Matched(Play(x, moves).value)
    decreases |moves|
  {
    hide Matched, Act;
    if moves != [] {
      var n := |moves| - 1;
      EveryRunMatches(x, moves[..n]);
      var x1 := Play(x, moves[..n]).value;
      match moves[n] {
        case Submit(r) => SubmitMatched(x1, r);
        case Step(coin) => StepMatched(x1, coin);
        case Other(ev) => OtherMatched(x1, ev);
      }
    }
  }

  // ----- end to end

  lemma {:induction false} TakenPrefix(items: seq<Async.Item>, k: nat)
    requires k <= |items|
    ensures Taken(items[..k]).0 <= Taken(items).0
    decreases |items|
  {
    if k < |items| {
      var n := |items| - 1;
      assert items[..n][..k] == items[..k];
      TakenPrefix(items[..n], k);
    } else {
      assert items[..k] == items;
    }
  }

  lemma TakenEnd(items: seq<Async.Item>, end: Async.Item)
    requires !end.Out?
    ensures Taken(items + [end]) == Taken(items)
  {
    assert (items + [end])[..|items|] == items;
  }

  /** What an undisturbed consumer has taken, against all that was produced for it. */
  lemma ReceivedTokens(t: Async.Stream)
    requires t.received <= Async.Items(t.produced)
      || (t.received == Async.Items(t.produced) + [Async.Sentinel] && Async.Over(t.produced))
      || (t.received == Async.Items(t.produced) + [Async.Crash] && t.failed)
    ensures Taken(t.received).0 <= Told(t.produced).0
    ensures Async.Sentinel in t.received ==>
      Taken(t.received) == Told(t.produced) && t.produced != [] && t.produced[|t.produced| - 1].finished
  {
    hide Taken;
    var all := Async.Items(t.produced);
    if t.received <= all {
      assert t.received == all[..|t.received|];
      TakenPrefix(all, |t.received|);
    } else if t.received == all + [Async.Sentinel] {
      TakenEnd(all, Async.Sentinel);
    } else {
      TakenEnd(all, Async.Crash);
    }
  }

  /** A greedy request's tokens so far, however it ended, are where its solo run passes through. */
  lemma WithinSolo(m: Model, enc: Table, r: Request, output: seq<Token>)
    requires |r.prompt| > 0 && m.blockSize > 0 && r.Greedy() && History(m, enc, r, output)
    ensures output <= Solo(m, enc, r)
  {
    hide Stops, Next;
    assert output[..0] == [];
    if output != [] && Stops(enc, r, output) {
      SoloUnique(m, enc, r, output, 0);
    } else {
      SoloPrefix(m, enc, r, output, 0);
    }
  }

  lemma EngineSolo(w: Runs.World, id: RequestId)
    requires Runs.Good(w) && id in w.e.s.seqs && w.e.s.seqs[id].request.Greedy()
    ensures var q := w.e.s.seqs[id];
      && |q.request.prompt| > 0 && w.e.m.blockSize > 0 && id in w.st
      && w.st[id].0 == q.output <= Solo(w.e.m, w.e.enc, q.request)
      && (NormallyOver(q) ==>
            && q.output == Solo(w.e.m, w.e.enc, q.request) != []
            && w.st[id].1 == FinalShown(w.e.enc, q.request, q.output))
  {
    hide Stops, Solo, FinalShown, SafeText, FullText, History;
    var q := w.e.s.seqs[id];
    assert SeqOk(w.e.m, w.e.enc, w.e.detoks, q);
    Runs.ContinuousBatchingRefinesSolo(w, id);
    WithinSolo(w.e.m, w.e.enc, q.request, q.output);
  }

  /** End to end.  In every run of submitters, cancellers, consumers and the engine thread, in any
      interleaving and with any crash: a greedy request nobody cancelled is received as a prefix
      of the tokens it decodes to alone, and once its end mark has been taken as exactly those,
      with exactly the text they decode to, cut at the stop string. */
  lemma ReceivedIsSolo(m: Model, enc: Table, numBlocks: nat, bs: nat, maxBatch: nat, zero: KV, moves: seq<Move>,
      id: RequestId)
    requires m.blockSize > 0 && bs > 0 && Prompted(moves)
    requires Play(Begin(m, enc, numBlocks, bs, maxBatch, zero), moves).Some?
    requires var x := Play(Begin(m, enc, numBlocks, bs, maxBatch, zero), moves).value;
      && id in x.w.e.s.seqs && x.w.e.s.seqs[id].request.temperature <= 0.0
      && id in x.s.streams && Async.Undisturbed(x.s.streams[id])
    ensures var x := Play(Begin(m, enc, numBlocks, bs, maxBatch, zero), moves).value;
      var r, t := x.w.e.s.seqs[id].request, x.s.streams[id];
      && |r.prompt| > 0
      && Taken(t.received).0 <= Solo(m, enc, r)
      && (Async.Sentinel in t.received ==>
            && Solo(m, enc, r) != []
            && Taken(t.received) == (Solo(m, enc, r), FinalShown(enc, r, Solo(m, enc, r))))
  {
    hide Play, Begin, Solo, FinalShown, Taken, Told, Runs.Good, Runs.Arrived, Agrees, Async.StreamOk, Async.DueTo,
      Async.PcOk, Async.NoLostWakeup;
    BeginMatched(m, enc, numBlocks, bs, maxBatch, zero);
    EveryRunMatches(Begin(m, enc, numBlocks, bs, maxBatch, zero), moves);
    var x := Play(Begin(m, enc, numBlocks, bs, maxBatch, zero), moves).value;
    SameModel(Begin(m, enc, numBlocks, bs, maxBatch, zero), moves);
    BeginModel(m, enc, numBlocks, bs, maxBatch, zero);
    var t := x.s.streams[id];
    Async.StreamAt(x.s, id);
    Async.ReceivedShape(t, Async.DueTo(x.s.pc, id), Async.EraOf(x.s.pc));
    ReceivedTokens(t);
    EngineSolo(x.w, id);
  }

  lemma BeginModel(m: Model, enc: Table, numBlocks: nat, bs: nat, maxBatch: nat, zero: KV)
    ensures var x := Begin(m, enc, numBlocks, bs, maxBatch, zero); x.w.e.m == m && x.w.e.enc == enc
  {
  }

  lemma {:induction false} SameModel(x: Both, moves: seq<Move>)
    requires Matched(x) && Prompted(moves) && Play(x, moves).Some?
    ensures Play(x, moves).value.w.e.m == x.w.e.m && Play(x, moves).value.w.e.enc == x.w.e.enc
    decreases |moves|
  {
    hide Matched, Act;
    if moves != [] {
      var n := |moves| - 1;
      SameModel(x, moves[..n]);
      EveryRunMatches(x, moves[..n]);
      ActModel(Play(x, moves[..n]).value, moves[n]);
    }
  }

  lemma ActModel(x: Both, mv: Move)
    requires Matched(x) && (mv.Submit? ==> |mv.r.prompt| > 0) && Act(x, mv).Some?
    ensures Act(x, mv).value.w.e.m == x.w.e.m && Act(x, mv).value.w.e.enc == x.w.e.enc
  {
    hide Runs.Good, Runs.Arrived, Async.Inv, StreamMatches, Agrees, Runs.Perform, Async.Next, Serving.Step;
    match mv {
      case Submit(r) =>
        SubmitIsNew(x, r);
        Runs.PerformGood(x.w, Runs.Submit(r));
      case Step(coin) => Runs.PerformGood(x.w, Runs.Tick(coin));
      case Other(ev) =>
        if ev.Cancel? || ev.Close? {
          Runs.PerformGood(x.w, Runs.Cancel(ev.id));
        }
    }
  }
}
