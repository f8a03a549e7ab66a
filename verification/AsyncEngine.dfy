/** The engine behind threads: submitters, cancellers and consumers interleave with the one
    engine thread.  A transition is one critical section, one queue operation or one event
    operation; a run is any interleaving of them. */
module AsyncEngine {
  import opened Wrappers
  import opened Requests

  /** What travels on a request's queue: an output, the end-of-stream mark, or the exception. */
  datatype Item = Out(o: RequestOutput) | Sentinel | Crash

  /** Where the engine thread stands.  `outs` are the outputs of the last step still to be
      handed out; in End and Pop the first of them has been put already. */
  datatype Pc =
    | Top
    | CheckWork
    | Parked
    | Clearing
    | Stepping
    | Get(outs: seq<RequestOutput>)
    | Put(outs: seq<RequestOutput>)
    | End(outs: seq<RequestOutput>)
    | Pop(outs: seq<RequestOutput>)
    | Crashed
    | Failing(pending: seq<RequestId>)
    | Done

  datatype Reader = Reading | Closing | Closed

  /** All there is about one request.  `live`: the engine has it unfinished.  `registered`: its
      queue is in the registry.  `box`: the items on its queue.  `closing`: a cancellation has
      unregistered the queue and not put the mark yet.  The rest is history: what the consumer
      has taken, what the engine produced, whether it was cancelled, refused at submission, or
      registered when a crash was handled. */
  datatype Stream = Stream(
    live: bool,
    registered: bool,
    box: seq<Item>,
    closing: bool,
    reader: Reader,
    received: seq<Item>,
    produced: seq<RequestOutput>,
    cancelled: bool,
    refused: bool,
    failed: bool)
  {
    /** Everything ever put on the queue, in order. */
    function Sent(): seq<Item> {
      received + box
    }

    function Deposit(x: Item): Stream {
      this.(box := box + [x])
    }

    /** The critical section of a cancellation. */
    function Unregister(): Stream {
      this.(live := false, registered := false, closing := closing || registered)
    }
  }

  /** `setters` have left submit's critical section and not set the event yet. */
  datatype State = State(streams: map<RequestId, Stream>, event: bool, stop: bool, setters: set<RequestId>, pc: Pc)

  datatype Event =
    | Submit(id: RequestId)
    | SubmitRefused(id: RequestId)
    | Notify(id: RequestId)
    | Cancel(id: RequestId)
    | CancelPut(id: RequestId)
    | Receive(id: RequestId)
    | Leave(id: RequestId)
    | Close(id: RequestId)
    | Shutdown
    | ShutdownNotify
    | Turn
    | StepOk(outs: seq<RequestOutput>)
    | StepFails(left: set<RequestId>)
    | Handle(pending: seq<RequestId>)

  const START := State(map[], false, false, {}, Top)

  const ACCEPTED := Stream(true, true, [], false, Reading, [], [], false, false, false)

  /** A submission the engine raises on leaves its queue in the registry. */
  const REFUSED := Stream(false, true, [], false, Reading, [], [], false, true, false)

  function With(s: State, id: RequestId, t: Stream): State {
    s.(streams := s.streams[id := t])
  }

  predicate Listed(outs: seq<RequestOutput>, id: RequestId) {
    exists i | 0 <= i < |outs| :: outs[i].id == id
  }

  function OutputFor(outs: seq<RequestOutput>, id: RequestId): (o: RequestOutput)
    requires Listed(outs, id)
    ensures o in outs && o.id == id
  {
    if outs[0].id == id then outs[0] else OutputFor(outs[1..], id)
  }

  predicate Distinct(outs: seq<RequestOutput>) {
    forall i, j | 0 <= i < j < |outs| :: outs[i].id != outs[j].id
  }

  /** What one engine step may return: at most one output per request, for requests it has. */
  predicate StepOutputs(s: State, outs: seq<RequestOutput>) {
    Distinct(outs) && forall i | 0 <= i < |outs| :: outs[i].id in s.streams && s.streams[outs[i].id].live
  }

  function Stepped(t: Stream, outs: seq<RequestOutput>, id: RequestId): Stream {
    if Listed(outs, id) then
      var o := OutputFor(outs, id);
      t.(produced := t.produced + [o], live := t.live && !o.finished)
    else t
  }

  predicate HasWork(s: State) {
    exists id | id in s.streams :: s.streams[id].live
  }

  /** The engine thread's next move, where it has no choice. */
  function EngineTurn(s: State): Option<State> {
    match s.pc
    case Top => Some(s.(pc := if s.stop then Done else CheckWork))
    case CheckWork => Some(s.(pc := if HasWork(s) then Stepping else Parked))
    case Parked => Some(s.(pc := Clearing))
    case Clearing => Some(s.(pc := Top, event := false))
    case Get(outs) => if outs == [] then Some(s.(pc := Top)) else TurnGet(s, outs)
    case Put(outs) => TurnPut(s, outs)
    case End(outs) => TurnEnd(s, outs)
    case Pop(outs) => TurnPop(s, outs)
    case Failing(pending) => if pending == [] then Some(s.(pc := Done)) else TurnFail(s, pending)
    case _ => None
  }

  /** Look the queue up; an output for an unregistered one is dropped. */
  function TurnGet(s: State, outs: seq<RequestOutput>): Option<State>
    requires outs != []
  {
    var id := outs[0].id;
    if id !in s.streams then None
    else Some(s.(pc := if s.streams[id].registered then Put(outs) else Get(outs[1..])))
  }

  function TurnPut(s: State, outs: seq<RequestOutput>): Option<State> {
    if outs == [] || outs[0].id !in s.streams then None
    else
      var id := outs[0].id;
      var put := With(s, id, s.streams[id].Deposit(Out(outs[0])));
      Some(put.(pc := if outs[0].finished then End(outs) else Get(outs[1..])))
  }

  function TurnEnd(s: State, outs: seq<RequestOutput>): Option<State> {
    if outs == [] || outs[0].id !in s.streams then None
    else Some(With(s, outs[0].id, s.streams[outs[0].id].Deposit(Sentinel)).(pc := Pop(outs)))
  }

  function TurnPop(s: State, outs: seq<RequestOutput>): Option<State> {
    if outs == [] || outs[0].id !in s.streams then None
    else Some(With(s, outs[0].id, s.streams[outs[0].id].(registered := false)).(pc := Get(outs[1..])))
  }

  function TurnFail(s: State, pending: seq<RequestId>): Option<State>
    requires pending != []
  {
    if pending[0] !in s.streams then None
    else Some(With(s, pending[0], s.streams[pending[0]].Deposit(Crash)).(pc := Failing(pending[1..])))
  }

  function TakeItem(t: Stream): Stream
    requires t.box != []
  {
    t.(box := t.box[1..], received := t.received + [t.box[0]], reader := if t.box[0].Out? then t.reader else Closing)
  }

  /** The request a transition is about, for those of one request. */
  function OneStream(t: Stream, ev: Event): Option<Stream> {
    match ev
    case Cancel(_) => Some(t.Unregister().(cancelled := true))
    case CancelPut(_) => if t.closing then Some(t.Deposit(Sentinel).(closing := false)) else None
    case Receive(_) => if t.reader == Reading && t.box != [] then Some(TakeItem(t)) else None
    case Leave(_) => if t.reader == Reading then Some(t.(reader := Closing, cancelled := true)) else None
    case Close(_) => if t.reader == Closing then Some(t.Unregister().(reader := Closed)) else None
    case _ => None
  }

  predicate Registered(s: State, pending: seq<RequestId>) {
    && (forall i | 0 <= i < |pending| :: pending[i] in s.streams && s.streams[pending[i]].registered)
    && (forall id | id in s.streams && s.streams[id].registered :: id in pending)
    && (forall i, j | 0 <= i < j < |pending| :: pending[i] != pending[j])
  }

  /** None when the transition cannot happen. */
  function Next(s: State, ev: Event): Option<State> {
    match ev
    case Submit(id) => if id in s.streams then None else Some(With(s, id, ACCEPTED).(setters := s.setters + {id}))
    case SubmitRefused(id) => if id in s.streams then None else Some(With(s, id, REFUSED))
    case Notify(id) => if id !in s.setters then None else Some(s.(event := true, setters := s.setters - {id}))
    case Shutdown => Some(s.(stop := true))
    case ShutdownNotify => Some(s.(event := true))
    case Turn => EngineTurn(s)
    case StepOk(outs) =>
      if s.pc != Stepping || !StepOutputs(s, outs) then None
      else Some(s.(streams := map id | id in s.streams :: Stepped(s.streams[id], outs, id), pc := Get(outs)))
    case StepFails(left) =>
      if s.pc != Stepping then None
      else Some(s.(streams := map id | id in s.streams :: Broke(s.streams[id], id in left), pc := Crashed))
    case Handle(pending) =>
      if s.pc != Crashed || !Registered(s, pending) then None
      else Some(s.(streams := map id | id in s.streams :: Handled(s.streams[id]), pc := Failing(pending)))
    case _ =>
      if ev.id !in s.streams then None
      else match OneStream(s.streams[ev.id], ev)
        case None => None
        case Some(t) => Some(With(s, ev.id, t))
  }

  /** A failing step may have ended any of the requests it had. */
  function Broke(t: Stream, left: bool): Stream {
    t.(live := t.live && left)
  }

  function Handled(t: Stream): Stream {
    t.(registered := false, failed := t.failed || t.registered)
  }

  function Play(s: State, evs: seq<Event>): Option<State>
    decreases |evs|
  {
    if evs == [] then Some(s)
    else match Play(s, evs[..|evs| - 1])
      case None => None
      case Some(s1) => Next(s1, evs[|evs| - 1])
  }

  // ----- the invariant

  function Outs(pc: Pc): seq<RequestOutput> {
    if pc.Get? || pc.Put? || pc.End? || pc.Pop? then pc.outs else []
  }

  /** Outputs not yet put on their queues. */
  function Ahead(pc: Pc): seq<RequestOutput> {
    if pc.Get? || pc.Put? then pc.outs
    else if (pc.End? || pc.Pop?) && pc.outs != [] then pc.outs[1..]
    else []
  }

  /** What the engine thread still owes one request. */
  datatype Due = Nothing | Output(o: RequestOutput) | Mark | Removal | Failure

  /** Whether a step is going to be, is being, or can no longer be handed out. */
  datatype Era = Serving | Broken | Failed

  function DueTo(pc: Pc, id: RequestId): Due {
    if Listed(Ahead(pc), id) then Output(OutputFor(Ahead(pc), id))
    else if pc.End? && pc.outs != [] && pc.outs[0].id == id then Mark
    else if pc.Pop? && pc.outs != [] && pc.outs[0].id == id then Removal
    else if pc.Failing? && id in pc.pending then Failure
    else Nothing
  }

  function EraOf(pc: Pc): Era {
    if pc == Crashed then Broken else if pc.Failing? || pc == Done then Failed else Serving
  }

  predicate HasEnd(items: seq<Item>) {
    exists i | 0 <= i < |items| :: !items[i].Out?
  }

  function Items(outs: seq<RequestOutput>): (items: seq<Item>)
    ensures |items| == |outs| && forall i | 0 <= i < |outs| :: items[i] == Out(outs[i])
  {
    seq(|outs|, i requires 0 <= i < |outs| => Out(outs[i]))
  }

  predicate Ongoing(outs: seq<RequestOutput>) {
    forall i | 0 <= i < |outs| :: !outs[i].finished
  }

  predicate Over(outs: seq<RequestOutput>) {
    outs != [] && outs[|outs| - 1].finished && Ongoing(outs[..|outs| - 1])
  }

  // the stages of a request nobody cancels

  ghost predicate Streaming(t: Stream, due: Due, era: Era) {
    && due == Nothing && t.registered && (t.live || era == Broken) && !t.failed
    && t.Sent() == Items(t.produced) && Ongoing(t.produced)
  }

  ghost predicate Delivering(t: Stream, due: Due) {
    && due.Output? && t.registered && !t.failed
    && t.Sent() + [Out(due.o)] == Items(t.produced)
    && (if due.o.finished then Over(t.produced) && !t.live else Ongoing(t.produced) && t.live)
  }

  ghost predicate Ending(t: Stream, due: Due) {
    && due == Mark && t.registered && !t.live && !t.failed
    && t.Sent() == Items(t.produced) && Over(t.produced)
  }

  /** The consumer's own clean-up may add one more mark behind the first. */
  ghost predicate Ended(t: Stream, due: Due) {
    && (due == Removal || (due == Nothing && !t.registered)) && !t.live && !t.failed
    && Over(t.produced)
    && (t.closing ==> t.reader == Closed)
    && (|| t.Sent() == Items(t.produced) + [Sentinel]
        || (t.Sent() == Items(t.produced) + [Sentinel, Sentinel] && t.reader == Closed && !t.closing && !t.registered))
  }

  ghost predicate Aborted(t: Stream, due: Due, era: Era) {
    && t.failed && !t.registered && era == Failed
    && (due == Nothing || due == Failure)
    && Ongoing(t.produced)
    && t.Sent() == if due == Failure then Items(t.produced) else Items(t.produced) + [Crash]
  }

  ghost predicate Stage(t: Stream, due: Due, era: Era) {
    && (Streaming(t, due, era) || Delivering(t, due) || Ending(t, due) || Ended(t, due) || Aborted(t, due, era))
    && (t.closing ==> Ended(t, due))
    && (t.reader != Reading ==> HasEnd(t.received))
  }

  /** A queue that is not registered has its end on it, or someone about to put it there. */
  ghost predicate Terminates(t: Stream, due: Due) {
    && (!t.registered ==> HasEnd(t.Sent()) || t.closing || due == Failure)
    && (due == Removal ==> HasEnd(t.Sent()))
    && (due == Failure ==> !t.registered)
  }

  /** A consumer takes nothing after an end. */
  ghost predicate ReadsUpToEnd(t: Stream) {
    && (forall i | 0 <= i < |t.received| - 1 :: t.received[i].Out?)
    && (t.reader == Reading ==> !HasEnd(t.received))
  }

  /** The queue of a refused submission: it stays registered until a crash is handled or someone
      cancels that id, and never holds anything but the exception or the cancellation's mark. */
  ghost predicate Orphan(t: Stream, due: Due) {
    && !t.live && t.produced == []
    && (if t.registered then t.Sent() == [] && !t.failed && due == Nothing else t.cancelled || t.failed)
    && (t.failed ==> !t.closing && (due == Nothing || due == Failure))
    && (t.failed ==> t.Sent() == if due == Failure then [] else [Crash])
    && (!t.failed ==> due == Nothing && (t.Sent() == [] || (t.Sent() == [Sentinel] && t.cancelled && !t.closing)))
    && (t.closing ==> t.cancelled)
    && (t.reader != Reading ==> t.cancelled || t.Sent() != [])
  }

  ghost predicate StreamOk(t: Stream, due: Due, era: Era) {
    && (t.closing ==> !t.registered)
    && (t.refused ==> Orphan(t, due))
    && ReadsUpToEnd(t)
    && Terminates(t, due)
    && (!t.cancelled && !t.refused ==> Stage(t, due, era))
  }

  ghost predicate StreamsOk(s: State) {
    forall id | id in s.streams :: StreamOk(s.streams[id], DueTo(s.pc, id), EraOf(s.pc))
  }

  /** Requests named by the engine thread exist, once each. */
  ghost predicate PcOk(s: State) {
    && Distinct(Outs(s.pc))
    && (forall o | o in Outs(s.pc) :: o.id in s.streams)
    && (s.pc.Put? || s.pc.End? || s.pc.Pop? ==> s.pc.outs != [])
    && (s.pc.Failing? ==> forall i, j | 0 <= i < j < |s.pc.pending| :: s.pc.pending[i] != s.pc.pending[j])
    && (s.pc.Failing? ==> forall id | id in s.pc.pending :: id in s.streams)
  }

  /** Parked without the event although there is work: only while a submitter is on its way to set it. */
  ghost predicate NoLostWakeup(s: State) {
    s.pc == Parked && HasWork(s) && !s.event ==> s.setters != {}
  }

  ghost predicate Inv(s: State) {
    PcOk(s) && StreamsOk(s) && NoLostWakeup(s)
  }

  // ----- what a transition does to one request

  lemma AcceptedOk(era: Era)
    ensures StreamOk(ACCEPTED, Nothing, era) && StreamOk(REFUSED, Nothing, era)
  {
    assert ACCEPTED.Sent() == Items([]);
  }

  lemma EndAppended(items: seq<Item>, x: Item)
    ensures HasEnd(items + [x]) <==> HasEnd(items) || !x.Out?
  {
    assert (items + [x])[|items|] == x;
    if HasEnd(items) {
      var i :| 0 <= i < |items| && !items[i].Out?;
      assert (items + [x])[i] == items[i];
    }
  }

  lemma SentDeposit(t: Stream, x: Item)
    ensures t.Deposit(x).Sent() == t.Sent() + [x]
    ensures HasEnd(t.Deposit(x).Sent()) <==> HasEnd(t.Sent()) || !x.Out?
  {
    assert t.received + (t.box + [x]) == t.received + t.box + [x];
    EndAppended(t.Sent(), x);
  }

  lemma SentTaken(t: Stream)
    requires t.box != []
    ensures TakeItem(t).Sent() == t.Sent()
    ensures HasEnd(TakeItem(t).received) <==> HasEnd(t.received) || !t.box[0].Out?
    ensures !HasEnd(t.received) ==> forall i | 0 <= i < |TakeItem(t).received| - 1 :: TakeItem(t).received[i].Out?
  {
    assert t.received + [t.box[0]] + t.box[1..] == t.received + t.box;
    EndAppended(t.received, t.box[0]);
  }

  /** While its outputs are all that was sent, a request's consumer has not met an end. */
  lemma NoEndInOutputs(t: Stream)
    requires t.Sent() <= Items(t.produced)
    ensures !HasEnd(t.Sent()) && !HasEnd(t.received)
  {
    forall i | 0 <= i < |t.Sent()| ensures t.Sent()[i].Out? {
      assert t.Sent()[i] == Items(t.produced)[i];
    }
    forall i | 0 <= i < |t.received| ensures t.received[i].Out? {
      assert t.received[i] == t.Sent()[i];
    }
  }

  lemma StillReading(t: Stream, due: Due, era: Era)
    requires Stage(t, due, era) && (Streaming(t, due, era) || Delivering(t, due) || Ending(t, due) || due == Failure)
    ensures t.reader == Reading && !HasEnd(t.Sent())
  {
    NoEndInOutputs(t);
  }

  lemma OneStreamOrphan(t: Stream, ev: Event, due: Due)
    requires Orphan(t, due) && (t.closing ==> !t.registered) && OneStream(t, ev).Some?
    ensures Orphan(OneStream(t, ev).value, due)
  {
    match ev {
      case CancelPut(_) => SentDeposit(t, Sentinel);
      case Receive(_) => SentTaken(t);
      case _ =>
    }
  }

  lemma OneStreamOk(t: Stream, ev: Event, due: Due, era: Era)
    requires StreamOk(t, due, era) && OneStream(t, ev).Some?
    ensures StreamOk(OneStream(t, ev).value, due, era)
  {
    hide HasEnd, Items, Over, Ongoing, Orphan;
    if t.refused {
      OneStreamOrphan(t, ev, due);
    }
    match ev {
      case CancelPut(_) => SentDeposit(t, Sentinel);
      case Receive(_) => TakeOk(t, due, era);
      case Close(_) => CloseOk(t, due, era);
      case _ =>
    }
  }

  lemma TakeOk(t: Stream, due: Due, era: Era)
    requires StreamOk(t, due, era) && t.reader == Reading && t.box != []
    requires t.refused ==> Orphan(TakeItem(t), due)
    ensures StreamOk(TakeItem(t), due, era)
  {
    hide HasEnd, Items, Over, Ongoing, Orphan;
    SentTaken(t);
  }

  lemma CloseOk(t: Stream, due: Due, era: Era)
    requires StreamOk(t, due, era) && t.reader == Closing
    requires t.refused ==> Orphan(t.Unregister().(reader := Closed), due)
    ensures StreamOk(t.Unregister().(reader := Closed), due, era)
  {
    hide HasEnd, Items, Over, Ongoing, Orphan;
    if !t.cancelled && !t.refused {
      if Streaming(t, due, era) || Delivering(t, due) || Ending(t, due) || due == Failure {
        StillReading(t, due, era);
      }
    }
  }

  lemma PutOk(t: Stream, o: RequestOutput, era: Era)
    requires StreamOk(t, Output(o), era)
    ensures StreamOk(t.Deposit(Out(o)), if o.finished then Mark else Nothing, era)
  {
    hide HasEnd, Items, Over, Ongoing;
    SentDeposit(t, Out(o));
  }

  lemma EndOk(t: Stream, era: Era)
    requires StreamOk(t, Mark, era)
    ensures StreamOk(t.Deposit(Sentinel), Removal, era)
  {
    hide HasEnd, Items, Over, Ongoing;
    SentDeposit(t, Sentinel);
  }

  lemma PopOk(t: Stream, era: Era)
    requires StreamOk(t, Removal, era)
    ensures StreamOk(t.(registered := false), Nothing, era)
  {
    hide HasEnd, Items, Over, Ongoing;
  }

  lemma FailOk(t: Stream)
    requires StreamOk(t, Failure, Failed)
    ensures StreamOk(t.Deposit(Crash), Nothing, Failed)
  {
    hide HasEnd, Items, Over, Ongoing;
    SentDeposit(t, Crash);
  }

  lemma DropOk(t: Stream, o: RequestOutput, era: Era)
    requires StreamOk(t, Output(o), era) && !t.registered
    ensures StreamOk(t, Nothing, era)
  {
    hide HasEnd, Items, Over, Ongoing;
  }

  lemma SteppedOk(t: Stream, outs: seq<RequestOutput>, id: RequestId)
    requires StreamOk(t, Nothing, Serving) && (Listed(outs, id) ==> t.live)
    ensures StreamOk(Stepped(t, outs, id), if Listed(outs, id) then Output(OutputFor(outs, id)) else Nothing, Serving)
  {
    hide HasEnd, Listed, OutputFor;
    if Listed(outs, id) {
      var o := OutputFor(outs, id);
      assert Items(t.produced + [o]) == Items(t.produced) + [Out(o)];
      assert (t.produced + [o])[..|t.produced|] == t.produced;
    }
  }

  lemma BrokenOk(t: Stream, live: bool)
    requires StreamOk(t, Nothing, Serving) && (live ==> t.live)
    ensures StreamOk(t.(live := live), Nothing, Broken)
  {
    hide HasEnd, Items, Over, Ongoing;
  }

  lemma HandledOk(t: Stream)
    requires StreamOk(t, Nothing, Broken)
    ensures StreamOk(Handled(t), if t.registered then Failure else Nothing, Failed)
  {
    hide HasEnd, Items, Over, Ongoing;
  }

  lemma StoppedOk(t: Stream)
    requires StreamOk(t, Nothing, Serving)
    ensures StreamOk(t, Nothing, Failed)
  {
    hide HasEnd, Items, Over, Ongoing;
  }

  // ----- a transition of the whole system

  /** How what is owed changes when the first output is dealt with. */
  lemma DueTail(outs: seq<RequestOutput>, id: RequestId)
    requires outs != [] && Distinct(outs)
    ensures Distinct(outs[1..])
    ensures outs[0].id == id ==> Listed(outs, id) && OutputFor(outs, id) == outs[0] && !Listed(outs[1..], id)
    ensures outs[0].id != id ==> (Listed(outs, id) <==> Listed(outs[1..], id))
    ensures outs[0].id != id && Listed(outs, id) ==> OutputFor(outs, id) == OutputFor(outs[1..], id)
  {
    assert outs == [outs[0]] + outs[1..];
    if Listed(outs, id) && outs[0].id != id {
      var i :| 0 <= i < |outs| && outs[i].id == id;
      assert outs[1..][i - 1].id == id;
    }
    if Listed(outs[1..], id) {
      var i :| 0 <= i < |outs[1..]| && outs[1..][i].id == id;
      assert outs[i + 1].id == id;
    }
  }

  lemma StreamAt(s: State, id: RequestId)
    requires StreamsOk(s) && id in s.streams
    ensures StreamOk(s.streams[id], DueTo(s.pc, id), EraOf(s.pc))
  {
  }

  /** A request the engine thread does not name is owed nothing. */
  lemma NotDue(s: State, id: RequestId)
    requires PcOk(s) && id !in s.streams
    ensures DueTo(s.pc, id) == Nothing
  {
    forall i | 0 <= i < |Ahead(s.pc)| ensures Ahead(s.pc)[i].id != id {
      assert Ahead(s.pc)[i] in Outs(s.pc);
    }
  }

  lemma OpenOk(s: State, id: RequestId, t: Stream)
    requires PcOk(s) && StreamsOk(s) && id !in s.streams && (t == ACCEPTED || t == REFUSED)
    ensures PcOk(With(s, id, t)) && StreamsOk(With(s, id, t))
  {
    hide DueTo, EraOf, StreamOk;
    NotDue(s, id);
    AcceptedOk(EraOf(s.pc));
  }

  lemma WithOk(s: State, id: RequestId, t: Stream)
    requires PcOk(s) && StreamsOk(s) && id in s.streams && StreamOk(t, DueTo(s.pc, id), EraOf(s.pc))
    ensures PcOk(With(s, id, t)) && StreamsOk(With(s, id, t))
  {
    hide DueTo, EraOf, StreamOk;
  }

  /** The thread moves on from the first output or the first pending failure: only that request is touched. */
  lemma HeadOk(s: State, s': State, head: RequestId)
    requires PcOk(s) && StreamsOk(s) && head in s.streams && s'.streams.Keys == s.streams.Keys
    requires forall id | id in s.streams && id != head :: s'.streams[id] == s.streams[id]
    requires forall id | id in s.streams && id != head :: DueTo(s'.pc, id) == DueTo(s.pc, id)
    requires EraOf(s'.pc) == EraOf(s.pc)
    requires StreamOk(s'.streams[head], DueTo(s'.pc, head), EraOf(s'.pc))
    ensures StreamsOk(s')
  {
    hide DueTo, EraOf, StreamOk;
  }

  /** The four moves of handing out one output. */
  predicate HandOut(pc: Pc, pc': Pc, registered: bool) {
    match pc
    case Get(outs) => outs != [] && pc' == if registered then Put(outs) else Get(outs[1..])
    case Put(outs) => outs != [] && pc' == if outs[0].finished then End(outs) else Get(outs[1..])
    case End(outs) => outs != [] && pc' == Pop(outs)
    case Pop(outs) => outs != [] && pc' == Get(outs[1..])
    case _ => false
  }

  lemma HandOutDue(pc: Pc, pc': Pc, registered: bool, id: RequestId)
    requires HandOut(pc, pc', registered) && Distinct(Outs(pc))
    ensures Distinct(Outs(pc')) && EraOf(pc) == EraOf(pc') == Serving
    ensures Outs(pc)[0].id != id ==> DueTo(pc', id) == DueTo(pc, id)
    ensures Outs(pc)[0].id == id ==>
      && DueTo(pc, id) == (if pc.End? then Mark else if pc.Pop? then Removal else Output(pc.outs[0]))
      && DueTo(pc', id) ==
        (if pc'.Put? then Output(pc.outs[0]) else if pc'.End? then Mark else if pc'.Pop? then Removal else Nothing)
  {
    hide Listed, OutputFor;
    DueTail(Outs(pc), id);
  }

  function HandedOut(t: Stream, pc: Pc): Stream {
    match pc
    case Put(outs) => if outs == [] then t else t.Deposit(Out(outs[0]))
    case End(_) => t.Deposit(Sentinel)
    case Pop(_) => t.(registered := false)
    case _ => t
  }

  lemma HandOutShape(s: State)
    requires Outs(s.pc) != [] && EngineTurn(s).Some?
    ensures Outs(s.pc)[0].id in s.streams
    ensures var s', head := EngineTurn(s).value, Outs(s.pc)[0].id;
      && HandOut(s.pc, s'.pc, s.streams[head].registered)
      && s'.streams == s.streams[head := HandedOut(s.streams[head], s.pc)]
  {
  }

  lemma HandOutStream(t: Stream, pc: Pc, pc': Pc)
    requires HandOut(pc, pc', t.registered) && Distinct(Outs(pc)) && StreamOk(t, DueTo(pc, Outs(pc)[0].id), Serving)
    ensures StreamOk(HandedOut(t, pc), DueTo(pc', Outs(pc)[0].id), Serving)
  {
    hide StreamOk, DueTo;
    HandOutDue(pc, pc', t.registered, Outs(pc)[0].id);
    match pc {
      case Get(outs) =>
        if !t.registered {
          DropOk(t, outs[0], Serving);
        }
      case Put(outs) => PutOk(t, outs[0], Serving);
      case End(_) => EndOk(t, Serving);
      case Pop(_) => PopOk(t, Serving);
    }
  }

  lemma HandOutKnown(pc: Pc, pc': Pc, registered: bool)
    requires HandOut(pc, pc', registered)
    ensures !pc'.Failing? && (pc'.Put? || pc'.End? || pc'.Pop? ==> pc'.outs != [])
    ensures forall o | o in Outs(pc') :: o in Outs(pc)
  {
  }

  lemma OutsTurnOk(s: State)
    requires PcOk(s) && StreamsOk(s) && Outs(s.pc) != [] && EngineTurn(s).Some?
    ensures PcOk(EngineTurn(s).value) && StreamsOk(EngineTurn(s).value)
  {
    hide StreamOk, StreamsOk, DueTo, EraOf, Distinct, HandOut, HandedOut, EngineTurn;
    var s' := EngineTurn(s).value;
    assert Outs(s.pc)[0] in Outs(s.pc);
    var head := Outs(s.pc)[0].id;
    var t := s.streams[head];
    HandOutShape(s);
    HandOutKnown(s.pc, s'.pc, t.registered);
    StreamAt(s, head);
    HandOutDue(s.pc, s'.pc, t.registered, head);
    forall id | id in s.streams && id != head ensures DueTo(s'.pc, id) == DueTo(s.pc, id) {
      HandOutDue(s.pc, s'.pc, t.registered, id);
    }
    HandOutStream(t, s.pc, s'.pc);
    HeadOk(s, s', head);
  }

  lemma FailTurnOk(s: State)
    requires PcOk(s) && StreamsOk(s) && s.pc.Failing? && s.pc.pending != [] && EngineTurn(s).Some?
    ensures PcOk(EngineTurn(s).value) && StreamsOk(EngineTurn(s).value)
  {
    hide StreamOk, StreamsOk, Listed, OutputFor;
    var s' := EngineTurn(s).value;
    var pending := s.pc.pending;
    assert pending == [pending[0]] + pending[1..];
    NothingListed(pending[0]);
    StreamAt(s, pending[0]);
    FailOk(s.streams[pending[0]]);
    HeadOk(s, s', pending[0]);
  }

  lemma NothingListed(id: RequestId)
    ensures !Listed([], id)
  {
  }

  /** Moves between positions at which nothing is owed to anybody. */
  lemma IdleOk(s: State, s': State)
    requires PcOk(s) && StreamsOk(s) && s'.streams == s.streams
    requires Ahead(s.pc) == Outs(s.pc) == [] && Ahead(s'.pc) == Outs(s'.pc) == []
    requires (s.pc.Failing? ==> s.pc.pending == []) && !s'.pc.Failing? && !s'.pc.Put? && !s'.pc.End? && !s'.pc.Pop?
    requires EraOf(s'.pc) == EraOf(s.pc) || (EraOf(s.pc) == Serving && EraOf(s'.pc) == Failed)
    ensures PcOk(s') && StreamsOk(s')
  {
    hide StreamOk, StreamsOk, Listed, OutputFor;
    forall id | id in s.streams ensures StreamOk(s'.streams[id], DueTo(s'.pc, id), EraOf(s'.pc)) {
      NothingListed(id);
      StreamAt(s, id);
      if EraOf(s'.pc) != EraOf(s.pc) {
        StoppedOk(s.streams[id]);
      }
    }
    StreamsIntro(s');
  }

  lemma StreamsIntro(s: State)
    requires forall id | id in s.streams :: StreamOk(s.streams[id], DueTo(s.pc, id), EraOf(s.pc))
    ensures StreamsOk(s)
  {
  }

  lemma TurnOk(s: State)
    requires PcOk(s) && StreamsOk(s) && EngineTurn(s).Some?
    ensures PcOk(EngineTurn(s).value) && StreamsOk(EngineTurn(s).value)
  {
    hide StreamsOk, PcOk;
    if Outs(s.pc) != [] {
      OutsTurnOk(s);
    } else if s.pc.Failing? && s.pc.pending != [] {
      FailTurnOk(s);
    } else {
      IdleOk(s, EngineTurn(s).value);
    }
  }

  lemma StepTurnOk(s: State, outs: seq<RequestOutput>)
    requires PcOk(s) && StreamsOk(s) && Next(s, StepOk(outs)).Some?
    ensures PcOk(Next(s, StepOk(outs)).value) && StreamsOk(Next(s, StepOk(outs)).value)
  {
    hide StreamOk, StreamsOk, Listed, OutputFor, StepOutputs, Stepped, Distinct;
    var s' := Next(s, StepOk(outs)).value;
    forall id | id in s.streams ensures StreamOk(s'.streams[id], DueTo(s'.pc, id), EraOf(s'.pc)) {
      NothingListed(id);
      StreamAt(s, id);
      ListedLive(s, outs, id);
      SteppedOk(s.streams[id], outs, id);
    }
    StreamsIntro(s');
    ListedKnown(s, outs);
  }

  lemma BreakTurnOk(s: State, left: set<RequestId>)
    requires PcOk(s) && StreamsOk(s) && Next(s, StepFails(left)).Some?
    ensures PcOk(Next(s, StepFails(left)).value) && StreamsOk(Next(s, StepFails(left)).value)
  {
    hide StreamOk, StreamsOk, Listed, OutputFor;
    var s' := Next(s, StepFails(left)).value;
    forall id | id in s.streams ensures StreamOk(s'.streams[id], DueTo(s'.pc, id), EraOf(s'.pc)) {
      NothingListed(id);
      StreamAt(s, id);
      BrokenOk(s.streams[id], s.streams[id].live && id in left);
    }
    StreamsIntro(s');
  }

  lemma HandleTurnOk(s: State, pending: seq<RequestId>)
    requires PcOk(s) && StreamsOk(s) && Next(s, Handle(pending)).Some?
    ensures PcOk(Next(s, Handle(pending)).value) && StreamsOk(Next(s, Handle(pending)).value)
  {
    hide StreamOk, StreamsOk, Listed, OutputFor, Handled;
    var s' := Next(s, Handle(pending)).value;
    forall id | id in s.streams ensures StreamOk(s'.streams[id], DueTo(s'.pc, id), EraOf(s'.pc)) {
      NothingListed(id);
      StreamAt(s, id);
      HandledOk(s.streams[id]);
    }
    StreamsIntro(s');
  }

  lemma ListedLive(s: State, outs: seq<RequestOutput>, id: RequestId)
    requires StepOutputs(s, outs) && id in s.streams
    ensures Listed(outs, id) ==> s.streams[id].live
  {
  }

  lemma ListedKnown(s: State, outs: seq<RequestOutput>)
    requires StepOutputs(s, outs)
    ensures Distinct(outs) && forall o | o in outs :: o.id in s.streams
  {
  }

  /** Every transition keeps what every stream is promised. */
  lemma NextOk(s: State, ev: Event)
    requires PcOk(s) && StreamsOk(s) && Next(s, ev).Some?
    ensures PcOk(Next(s, ev).value) && StreamsOk(Next(s, ev).value)
  {
    hide StreamOk, DueTo;
    match ev {
      case Submit(id) => OpenOk(s, id, ACCEPTED);
      case SubmitRefused(id) => OpenOk(s, id, REFUSED);
      case Turn => TurnOk(s);
      case StepOk(outs) => StepTurnOk(s, outs);
      case StepFails(left) => BreakTurnOk(s, left);
      case Handle(pending) => HandleTurnOk(s, pending);
      case Notify(_) =>
      case Shutdown =>
      case ShutdownNotify =>
      case _ =>
        var t := s.streams[ev.id];
        StreamAt(s, ev.id);
        OneStreamOk(t, ev, DueTo(s.pc, ev.id), EraOf(s.pc));
        WithOk(s, ev.id, OneStream(t, ev).value);
    }
  }

  /** A turn touches at most one stream, and neither whether it is live nor what was produced. */
  ghost predicate OneTouched(a: map<RequestId, Stream>, b: map<RequestId, Stream>) {
    || a == b
    || exists id | id in a && id in b ::
         b == a[id := b[id]] && b[id].live == a[id].live && b[id].produced == a[id].produced
  }

  lemma TurnTouches(s: State)
    requires EngineTurn(s).Some?
    ensures OneTouched(s.streams, EngineTurn(s).value.streams)
  {
    hide HasWork;
    var b := EngineTurn(s).value.streams;
    if Outs(s.pc) != [] {
      HandOutShape(s);
      var id := Outs(s.pc)[0].id;
      assert b == s.streams[id := b[id]];
    } else if s.pc.Failing? && s.pc.pending != [] {
      var id := s.pc.pending[0];
      assert b == s.streams[id := b[id]];
    }
  }

  lemma TurnLive(s: State)
    requires EngineTurn(s).Some?
    ensures EngineTurn(s).value.streams.Keys == s.streams.Keys
    ensures forall id | id in s.streams ::
      && EngineTurn(s).value.streams[id].live == s.streams[id].live
      && EngineTurn(s).value.streams[id].produced == s.streams[id].produced
  {
    hide EngineTurn;
    TurnTouches(s);
  }

  lemma OneStreamLive(t: Stream, ev: Event)
    requires OneStream(t, ev).Some? && OneStream(t, ev).value.live
    ensures t.live
  {
  }

  lemma OneStreamKeeps(t: Stream, ev: Event)
    requires OneStream(t, ev).Some?
    ensures OneStream(t, ev).value.produced == t.produced
    ensures OneStream(t, ev).value.live == (t.live && !ev.Cancel? && !ev.Close?)
  {
    match ev {
      case Cancel(_) =>
      case Close(_) =>
      case _ =>
    }
  }

  lemma SteppedLive(t: Stream, outs: seq<RequestOutput>, id: RequestId)
    requires Stepped(t, outs, id).live
    ensures t.live
  {
  }

  /** Only a submission makes work. */
  lemma WorkFromSubmit(s: State, ev: Event)
    requires Next(s, ev).Some? && !HasWork(s) && !ev.Submit?
    ensures !HasWork(Next(s, ev).value)
  {
    hide Listed, OutputFor, StepOutputs, Registered, EngineTurn, OneStream, Stepped;
    var s' := Next(s, ev).value;
    forall id | id in s'.streams ensures !s'.streams[id].live {
      match ev {
        case Turn => TurnLive(s);
        case StepOk(outs) =>
          if s'.streams[id].live {
            SteppedLive(s.streams[id], outs, id);
          }
        case Cancel(x) => OneLive(s, ev, id);
        case CancelPut(x) => OneLive(s, ev, id);
        case Receive(x) => OneLive(s, ev, id);
        case Leave(x) => OneLive(s, ev, id);
        case Close(x) => OneLive(s, ev, id);
        case _ =>
      }
    }
  }

  lemma OneLive(s: State, ev: Event, id: RequestId)
    requires Next(s, ev).Some? && !HasWork(s) && (ev.Cancel? || ev.CancelPut? || ev.Receive? || ev.Leave? || ev.Close?)
    requires id in Next(s, ev).value.streams
    ensures !Next(s, ev).value.streams[id].live
  {
    hide OneStream;
    if id == ev.id && Next(s, ev).value.streams[id].live {
      OneStreamLive(s.streams[id], ev);
    }
  }

  lemma NextAwake(s: State, ev: Event)
    requires NoLostWakeup(s) && Next(s, ev).Some?
    ensures NoLostWakeup(Next(s, ev).value)
  {
    hide HasWork, StepOutputs, Registered, Stepped, Handled;
    if !HasWork(s) && !ev.Submit? {
      WorkFromSubmit(s, ev);
    }
  }

  lemma {:induction false} PlayInv(evs: seq<Event>)
    requires Play(START, evs).Some?
    ensures Inv(Play(START, evs).value)
    decreases |evs|
  {
    hide PcOk, StreamsOk, NoLostWakeup, Next;
    if evs == [] {
      StartInv();
    } else {
      var s := Play(START, evs[..|evs| - 1]).value;
      PlayInv(evs[..|evs| - 1]);
      NextOk(s, evs[|evs| - 1]);
      NextAwake(s, evs[|evs| - 1]);
    }
  }

  lemma StartInv()
    ensures Inv(START)
  {
  }

  // ----- what holds in every run

  predicate Undisturbed(t: Stream) {
    !t.cancelled && !t.refused
  }

  lemma ReachedStream(evs: seq<Event>, id: RequestId)
    requires Play(START, evs).Some? && id in Play(START, evs).value.streams
    ensures var s := Play(START, evs).value; StreamOk(s.streams[id], DueTo(s.pc, id), EraOf(s.pc))
  {
    hide StreamOk, DueTo;
    PlayInv(evs);
    StreamAt(Play(START, evs).value, id);
  }

  /** What the consumer of a request nobody cancelled has been given: its outputs in order and
      none missing, then the end after the last one, or the exception if the thread failed it. */
  lemma StreamedInOrder(evs: seq<Event>, id: RequestId)
    requires Play(START, evs).Some? && id in Play(START, evs).value.streams
    requires Undisturbed(Play(START, evs).value.streams[id])
    ensures var t := Play(START, evs).value.streams[id];
      || t.received <= Items(t.produced)
      || (t.received == Items(t.produced) + [Sentinel] && Over(t.produced))
      || (t.received == Items(t.produced) + [Crash] && t.failed)
  {
    hide Play;
    ReachedStream(evs, id);
    var s := Play(START, evs).value;
    ReceivedShape(s.streams[id], DueTo(s.pc, id), EraOf(s.pc));
  }

  lemma ReceivedShape(t: Stream, due: Due, era: Era)
    requires StreamOk(t, due, era) && Undisturbed(t)
    ensures || t.received <= Items(t.produced)
      || (t.received == Items(t.produced) + [Sentinel] && Over(t.produced))
      || (t.received == Items(t.produced) + [Crash] && t.failed)
  {
    hide Over, Ongoing, HasEnd;
    var n := |t.produced|;
    var r := t.received;
    assert r <= t.Sent();
    if |r| <= n {
      forall i | 0 <= i < |r| ensures r[i] == Items(t.produced)[i] {
        assert r[i] == t.Sent()[i];
        if Delivering(t, due) {
          assert (t.Sent() + [Out(due.o)])[i] == t.Sent()[i];
        }
      }
    } else {
      assert t.Sent()[n] == r[n] && !r[n].Out?;
      assert |r| == n + 1;
      assert r == t.Sent()[..n + 1];
    }
  }

  /** A refused submission leaves an empty queue registered, until a crash is handled or someone
      cancels that id; nothing but the exception or the cancellation's mark is ever put on it. */
  lemma RefusedStays(evs: seq<Event>, id: RequestId)
    requires Play(START, evs).Some? && id in Play(START, evs).value.streams
    requires Play(START, evs).value.streams[id].refused
    ensures var t := Play(START, evs).value.streams[id];
      && t.produced == [] && (t.registered || t.cancelled || t.failed)
      && (t.registered ==> t.Sent() == [])
      && (t.Sent() == [] || (t.Sent() == [Crash] && t.failed) || (t.Sent() == [Sentinel] && t.cancelled))
  {
    hide Play, Stage, HasEnd;
    ReachedStream(evs, id);
  }

  /** Whenever the thread is not in the middle of handing out, all that was produced has been put,
      and a finished request's queue has its end. */
  lemma NothingHeldBack(evs: seq<Event>, id: RequestId)
    requires Play(START, evs).Some? && id in Play(START, evs).value.streams
    requires Undisturbed(Play(START, evs).value.streams[id])
    requires var pc := Play(START, evs).value.pc;
      pc.Top? || pc.CheckWork? || pc.Parked? || pc.Clearing? || pc.Stepping? || pc.Crashed? || pc.Done?
    ensures var t := Play(START, evs).value.streams[id];
      || (t.Sent() == Items(t.produced) && Ongoing(t.produced))
      || (Items(t.produced) + [Sentinel] <= t.Sent() && Over(t.produced))
      || (t.Sent() == Items(t.produced) + [Crash] && t.failed)
  {
    hide Play, Over, Ongoing, HasEnd;
    ReachedStream(evs, id);
    NothingListed(id);
  }

  /** After a crash has been handled, every request registered then ends with the exception. */
  lemma CrashReported(evs: seq<Event>, id: RequestId)
    requires Play(START, evs).Some? && Play(START, evs).value.pc == Done && id in Play(START, evs).value.streams
    requires Undisturbed(Play(START, evs).value.streams[id]) && Play(START, evs).value.streams[id].failed
    ensures var t := Play(START, evs).value.streams[id]; t.Sent() == Items(t.produced) + [Crash]
  {
    hide Play, Over, Ongoing, HasEnd;
    ReachedStream(evs, id);
    NothingListed(id);
  }

  /** Nobody waits on a queue that has been given up: an unregistered queue still being read has an
      item on it, or someone is about to put its end there -- cancelled or not. */
  lemma NoStreamHangs(evs: seq<Event>, id: RequestId)
    requires Play(START, evs).Some? && id in Play(START, evs).value.streams
    ensures var s := Play(START, evs).value; var t := s.streams[id];
      t.reader == Reading && !t.registered && t.box == [] ==> t.closing || DueTo(s.pc, id) == Failure
  {
    hide Play, Stage;
    ReachedStream(evs, id);
    var s := Play(START, evs).value;
    var t := s.streams[id];
    if t.box == [] {
      assert t.Sent() == t.received;
    }
  }

  /** The thread is never parked with the event unset and work pending unless a submitter is still
      about to set the event. */
  lemma NeverLost(evs: seq<Event>)
    requires Play(START, evs).Some?
    ensures var s := Play(START, evs).value; s.pc == Parked && HasWork(s) && !s.event ==> s.setters != {}
  {
    hide Play;
    PlayInv(evs);
  }

  /** Only submitters and shutdown set the event, and the thread unsets it each time it wakes, so
      that without new work it goes back to waiting. */
  lemma EventSetBy(s: State, ev: Event)
    requires Next(s, ev).Some?
    ensures Next(s, ev).value.event <==>
      ev.Notify? || ev == ShutdownNotify || (s.event && !(ev == Turn && s.pc == Clearing))
  {
    hide Registered, StepOutputs, OneStream, HasWork, Stepped;
  }

  ghost predicate CrashHandled(evs: seq<Event>) {
    exists i | 0 <= i < |evs| :: evs[i].Handle?
  }

  /** The stop flag is up exactly when shutdown has been asked for, and the thread has ended only
      if that happened or a crash was handled. */
  lemma {:induction false} EndsOnlyWhenAsked(evs: seq<Event>)
    requires Play(START, evs).Some?
    ensures var s := Play(START, evs).value;
      && (s.stop <==> Shutdown in evs)
      && (s.pc.Failing? ==> CrashHandled(evs))
      && (s.pc == Done ==> Shutdown in evs || CrashHandled(evs))
    decreases |evs|
  {
    if evs != [] {
      var n := |evs| - 1;
      EndsOnlyWhenAsked(evs[..n]);
      assert evs == evs[..n] + [evs[n]];
      StopBefore(Play(START, evs[..n]).value, evs[n]);
      if CrashHandled(evs[..n]) {
        var i :| 0 <= i < n && evs[..n][i].Handle?;
        assert evs[i].Handle?;
      }
    }
  }

  lemma StopBefore(s: State, ev: Event)
    requires Next(s, ev).Some?
    ensures var s' := Next(s, ev).value;
      && (s'.stop <==> s.stop || ev == Shutdown)
      && (s'.pc.Failing? ==> s.pc.Failing? || ev.Handle?)
      && (s'.pc == Done ==> s.pc == Done || s.pc.Failing? || s.stop)
  {
    hide Registered, StepOutputs, OneStream, HasWork, Stepped;
  }

  /** Once shutdown has been asked for, the thread ends at the top of its loop, where it comes back
      to from everywhere but a step; then it makes no move any more. */
  lemma ShutdownEnds(s: State, ev: Event)
    requires s.stop
    ensures s.pc == Top ==> EngineTurn(s).Some? && EngineTurn(s).value.pc == Done
    ensures s.pc == Parked || s.pc == Clearing || s.pc == Get([]) ==>
      EngineTurn(s).Some? && (EngineTurn(s).value.pc == Top || EngineTurn(s).value.pc == Clearing)
    ensures s.pc == Done && Next(s, ev).Some? ==> Next(s, ev).value.pc == Done
  {
    hide Registered, StepOutputs, OneStream, HasWork, Stepped;
  }

  /** Moves left until the outputs of the last step, or the failures, are handed out. */
  function Remaining(pc: Pc): nat {
    match pc
    case Get(outs) => 4 * |outs| + 1
    case Put(outs) => 4 * |outs|
    case End(outs) => if outs == [] then 0 else 4 * |outs| - 1
    case Pop(outs) => if outs == [] then 0 else 4 * |outs| - 2
    case Failing(pending) => |pending| + 1
    case _ => 0
  }

  /** Handing out is never blocked and takes a bounded number of the thread's moves; nobody else
      moves the thread. */
  lemma HandingOutEnds(evs: seq<Event>, ev: Event)
    requires Play(START, evs).Some? && Remaining(Play(START, evs).value.pc) > 0
    ensures EngineTurn(Play(START, evs).value).Some?
    ensures Remaining(EngineTurn(Play(START, evs).value).value.pc) < Remaining(Play(START, evs).value.pc)
    ensures Next(Play(START, evs).value, ev).Some? && ev != Turn ==>
      Next(Play(START, evs).value, ev).value.pc == Play(START, evs).value.pc
  {
    hide Play, Next, EngineTurn, Remaining;
    PlayInv(evs);
    TurnShrinks(Play(START, evs).value);
    if Next(Play(START, evs).value, ev).Some? && ev != Turn {
      OthersStay(Play(START, evs).value, ev);
    }
  }

  lemma TurnShrinks(s: State)
    requires PcOk(s) && Remaining(s.pc) > 0
    ensures EngineTurn(s).Some? && Remaining(EngineTurn(s).value.pc) < Remaining(s.pc)
  {
    if Outs(s.pc) != [] {
      assert Outs(s.pc)[0] in Outs(s.pc);
    }
    if s.pc.Failing? && s.pc.pending != [] {
      assert s.pc.pending[0] in s.pc.pending;
    }
  }

  lemma OthersStay(s: State, ev: Event)
    requires Next(s, ev).Some? && ev != Turn && Remaining(s.pc) > 0
    ensures Next(s, ev).value.pc == s.pc
  {
    hide Registered, StepOutputs, OneStream, HasWork;
  }
}
