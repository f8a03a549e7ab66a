/** Admission order: preempted sequences wait in front of those that have never run, and
    requests are run for the first time in the order they arrived. */
module Ordering {
  import opened Wrappers
  import opened Transformer
  import opened Forward
  import opened Tokenizer
  import opened Requests
  import opened Blocks
  import opened PagedCache
  import opened Scheduling
  import opened Ownership
  import opened Capacity
  import opened Serving
  import opened Refinement
  import opened Stepping
  import opened Emission
  import opened Runs

  /** Place of an id in the order of arrival. */
  function Pos(arrivals: seq<RequestId>, id: RequestId): (p: nat)
    ensures p <= |arrivals| && (id in arrivals <==> p < |arrivals|)
    ensures id in arrivals ==> arrivals[p] == id
  {
    if arrivals == [] then 0
    else if arrivals[0] == id then 0
    else 1 + Pos(arrivals[1..], id)
  }

  lemma {:induction false} PosAppend(arrivals: seq<RequestId>, id: RequestId, more: RequestId)
    requires id in arrivals
    ensures Pos(arrivals + [more], id) == Pos(arrivals, id)
  {
    if arrivals[0] != id {
      assert (arrivals + [more])[1..] == arrivals[1..] + [more];
      PosAppend(arrivals[1..], id, more);
    }
  }

  lemma {:induction false} PosLast(arrivals: seq<RequestId>, id: RequestId)
    requires id !in arrivals
    ensures Pos(arrivals + [id], id) == |arrivals|
  {
    if arrivals != [] {
      assert (arrivals + [id])[1..] == arrivals[1..] + [id];
      PosLast(arrivals[1..], id);
    }
  }

  /** ids in strictly increasing order of arrival. */
  ghost predicate Increasing(arrivals: seq<RequestId>, ids: seq<RequestId>) {
    forall i, j | 0 <= i < j < |ids| :: Pos(arrivals, ids[i]) < Pos(arrivals, ids[j])
  }

  /** The line: first those that have run before, then those that have not, by arrival. */
  ghost predicate Line(arrivals: seq<RequestId>, waiting: seq<RequestId>, seqs: map<RequestId, Seq>)
    requires forall id | id in waiting :: id in seqs
  {
    forall i, j | 0 <= i < j < |waiting| && seqs[waiting[i]].output == [] ::
      seqs[waiting[j]].output == [] && Pos(arrivals, waiting[i]) < Pos(arrivals, waiting[j])
  }

  /** Everyone who has started arrived before anyone who has not. */
  ghost predicate StartedFirst(arrivals: seq<RequestId>, started: seq<RequestId>, waiting: seq<RequestId>,
      seqs: map<RequestId, Seq>)
    requires forall id | id in waiting :: id in seqs
  {
    forall a, i | 0 <= a < |started| && 0 <= i < |waiting| && seqs[waiting[i]].output == [] ::
      Pos(arrivals, started[a]) < Pos(arrivals, waiting[i])
  }

  ghost predicate InOrder(w: World) {
    && Known(w.e.s)
    && (forall id | id in w.started :: id in w.arrivals)
    && (forall id | id in w.e.s.waiting :: id in w.arrivals)
    && Line(w.arrivals, w.e.s.waiting, w.e.s.seqs)
    && Increasing(w.arrivals, w.started)
    && StartedFirst(w.arrivals, w.started, w.e.s.waiting, w.e.s.seqs)
  }

  // ----- what a step leaves of the line

  /** The waiting line and everybody not in ids are untouched. */
  ghost predicate Spares(e: Engine, e': Engine, ids: seq<RequestId>) {
    && e'.s.waiting == e.s.waiting && e'.s.seqs.Keys == e.s.seqs.Keys
    && forall x | x in e.s.seqs && x !in ids :: e'.s.seqs[x] == e.s.seqs[x]
  }

  lemma AdvanceSpares(e: Engine, id: RequestId, tok: Token)
    requires Known(e.s) && id in e.s.seqs && id in e.detoks
    ensures Spares(e, Advance(e, id, tok).0, [id])
  {
    hide SafeText, FullText, Beyond, CheckFinish, TruncateAtStop;
  }

  lemma SparesJoin(a: Engine, b: Engine, c: Engine, id: RequestId, ids: seq<RequestId>)
    requires ids != [] && ids[0] == id && Spares(a, b, [id]) && Spares(b, c, ids[1..])
    ensures Spares(a, c, ids)
  {
    assert ids == [id] + ids[1..];
  }

  lemma {:induction false} AdvanceAllSpares(e: Engine, ids: seq<RequestId>, logits: seq<seq<real>>, coin: Coin)
    requires Known(e.s) && |logits| == |ids|
    requires forall id | id in ids :: id in e.s.seqs && id in e.detoks
    ensures Spares(e, AdvanceAll(e, ids, logits, coin).0, ids)
    decreases |ids|
  {
    hide Advance, Sampled;
    if ids != [] {
      var tok := Sampled(e, ids[0], logits[0], coin);
      var e1 := Advance(e, ids[0], tok).0;
      AdvanceSpares(e, ids[0], tok);
      AdvanceAllSpares(e1, ids[1..], logits[1..], coin);
      SparesJoin(e, e1, AdvanceAll(e, ids, logits, coin).0, ids[0], ids);
    }
  }

  lemma PrefillOneSpares(e: Engine, id: RequestId, coin: Coin)
    requires PrefillOne(e, id, coin).Some?
    ensures Spares(e, PrefillOne(e, id, coin).value.0, [id])
  {
    hide Advance, Run, PrefillPlan, Fits, BlocksNeeded, Sampled;
    var (e1, logits) := PrefillPass(e, id);
    AdvanceSpares(e1, id, Sampled(e1, id, logits, coin));
  }

  lemma {:induction false} PrefillAllSpares(e: Engine, ids: seq<RequestId>, coin: Coin)
    requires PrefillAll(e, ids, coin).Some?
    ensures Spares(e, PrefillAll(e, ids, coin).value.0, ids)
    decreases |ids|
  {
    hide PrefillOne;
    if ids != [] {
      var e1 := PrefillOne(e, ids[0], coin).value.0;
      PrefillOneSpares(e, ids[0], coin);
      PrefillAllSpares(e1, ids[1..], coin);
      SparesJoin(e, e1, PrefillAll(e, ids, coin).value.0, ids[0], ids);
    }
  }

  lemma DecodeSpares(e: Engine, ids: seq<RequestId>, coin: Coin)
    requires DecodeBatchStep(e, ids, coin).Some?
    ensures Spares(e, DecodeBatchStep(e, ids, coin).value.0, ids)
  {
    hide DecodePlan, Run, Fits, BlocksNeeded, AdvanceAll, DecodeRowsOk;
    var (e1, logits) := DecodePass(e, ids);
    AdvanceAllSpares(e1, ids, logits, coin);
  }

  // ----- each event keeps the order

  /** The part of a step that only moves the front of the line: dropping a prefix. */
  lemma LineTail(arrivals: seq<RequestId>, waiting: seq<RequestId>, seqs: map<RequestId, Seq>, k: nat)
    requires (forall id | id in waiting :: id in seqs) && Line(arrivals, waiting, seqs) && k <= |waiting|
    ensures forall id | id in waiting[k..] :: id in seqs
    ensures Line(arrivals, waiting[k..], seqs)
  {
    forall i, j | 0 <= i < j < |waiting[k..]| && seqs[waiting[k..][i]].output == []
      ensures seqs[waiting[k..][j]].output == [] && Pos(arrivals, waiting[k..][i]) < Pos(arrivals, waiting[k..][j])
    {
      assert waiting[k..][i] == waiting[i + k] && waiting[k..][j] == waiting[j + k];
    }
  }

  /** Putting sequences that have run before in front keeps the line. */
  lemma LineFront(arrivals: seq<RequestId>, pre: seq<RequestId>, waiting: seq<RequestId>, seqs: map<RequestId, Seq>)
    requires (forall id | id in waiting :: id in seqs) && Line(arrivals, waiting, seqs)
    requires forall id | id in pre :: id in seqs && seqs[id].output != []
    ensures forall id | id in pre + waiting :: id in seqs
    ensures Line(arrivals, pre + waiting, seqs)
  {
    var all := pre + waiting;
    assert forall i | 0 <= i < |pre| :: pre[i] in pre && all[i] == pre[i];
    forall i, j | 0 <= i < j < |all| && seqs[all[i]].output == []
      ensures seqs[all[j]].output == [] && Pos(arrivals, all[i]) < Pos(arrivals, all[j])
    {
      assert all[i] == waiting[i - |pre|] && all[j] == waiting[j - |pre|];
    }
  }

  lemma LineAgree(arrivals: seq<RequestId>, waiting: seq<RequestId>, a: map<RequestId, Seq>, b: map<RequestId, Seq>)
    requires forall id | id in waiting :: id in a && id in b && a[id].output == b[id].output
    requires Line(arrivals, waiting, a)
    ensures Line(arrivals, waiting, b)
  {
    forall i, j | 0 <= i < j < |waiting| && b[waiting[i]].output == []
      ensures b[waiting[j]].output == [] && Pos(arrivals, waiting[i]) < Pos(arrivals, waiting[j])
    {
      assert waiting[i] in waiting && waiting[j] in waiting;
    }
  }

  /** The never-run members of a batch taken from the line, in order. */
  lemma {:induction false} NeverRunOrder(s: Sched, arrivals: seq<RequestId>, batch: seq<RequestId>)
    requires (forall id | id in batch :: id in s.seqs) && Line(arrivals, batch, s.seqs)
    ensures Increasing(arrivals, NeverRun(s, batch))
    decreases |batch|
  {
    hide Pos, Line, Increasing;
    if batch == [] {
      IncreasingNone(arrivals);
    } else {
      var rest := batch[1..];
      LineTail(arrivals, batch, s.seqs, 1);
      NeverRunOrder(s, arrivals, rest);
      if s.seqs[batch[0]].output == [] {
        forall y | y in NeverRun(s, rest) ensures Pos(arrivals, batch[0]) < Pos(arrivals, y) {
          HeadFirst(arrivals, batch, s.seqs, y);
        }
        IncreasingCons(arrivals, batch[0], NeverRun(s, rest));
      } else {
        assert [] + NeverRun(s, rest) == NeverRun(s, rest);
      }
    }
  }

  lemma IncreasingNone(arrivals: seq<RequestId>)
    ensures Increasing(arrivals, [])
  {
  }

  lemma IncreasingCons(arrivals: seq<RequestId>, x: RequestId, ids: seq<RequestId>)
    requires Increasing(arrivals, ids) && forall y | y in ids :: Pos(arrivals, x) < Pos(arrivals, y)
    ensures Increasing(arrivals, [x] + ids)
  {
    hide Pos;
  }

  lemma HeadFirst(arrivals: seq<RequestId>, batch: seq<RequestId>, seqs: map<RequestId, Seq>, y: RequestId)
    requires (forall id | id in batch :: id in seqs) && Line(arrivals, batch, seqs)
    requires batch != [] && seqs[batch[0]].output == [] && y in batch[1..]
    ensures Pos(arrivals, batch[0]) < Pos(arrivals, y)
  {
    hide Pos;
    var k :| 0 <= k < |batch[1..]| && batch[1..][k] == y;
    assert batch[k + 1] == y;
  }

  /** The seams of one admission: those starting now arrived after all who started before and
      before all who keep waiting. */
  lemma StartingFits(w: World, k: nat)
    requires InOrder(w) && k <= |w.e.s.waiting|
    ensures forall id | id in w.e.s.waiting[..k] :: id in w.e.s.seqs
    ensures var now := NeverRun(w.e.s, w.e.s.waiting[..k]);
      && Increasing(w.arrivals, w.started + now)
      && (forall id | id in now :: id in w.arrivals)
  {
    hide NeverRun;
    var s := w.e.s;
    var batch := s.waiting[..k];
    assert forall id | id in batch :: id in s.waiting;
    LinePrefix(w.arrivals, s.waiting, s.seqs, k);
    NeverRunOrder(s, w.arrivals, batch);
    var now := NeverRun(s, batch);
    forall a, b | 0 <= a < |w.started| && 0 <= b < |now|
      ensures Pos(w.arrivals, w.started[a]) < Pos(w.arrivals, now[b])
    {
      assert now[b] in now;
      var i :| 0 <= i < |batch| && batch[i] == now[b];
      assert s.waiting[i] == now[b];
    }
    IncreasingJoin(w.arrivals, w.started, now);
  }

  lemma IncreasingJoin(arrivals: seq<RequestId>, a: seq<RequestId>, b: seq<RequestId>)
    requires Increasing(arrivals, a) && Increasing(arrivals, b)
    requires forall i, j | 0 <= i < |a| && 0 <= j < |b| :: Pos(arrivals, a[i]) < Pos(arrivals, b[j])
    ensures Increasing(arrivals, a + b)
  {
  }

  lemma LinePrefix(arrivals: seq<RequestId>, waiting: seq<RequestId>, seqs: map<RequestId, Seq>, k: nat)
    requires (forall id | id in waiting :: id in seqs) && Line(arrivals, waiting, seqs) && k <= |waiting|
    ensures forall id | id in waiting[..k] :: id in seqs
    ensures Line(arrivals, waiting[..k], seqs)
  {
  }

  lemma StartedStillFirst(w: World, k: nat)
    requires InOrder(w) && k <= |w.e.s.waiting|
    ensures forall id | id in w.e.s.waiting[..k] :: id in w.e.s.seqs
    ensures forall id | id in w.e.s.waiting[k..] :: id in w.e.s.seqs
    ensures StartedFirst(w.arrivals, w.started + NeverRun(w.e.s, w.e.s.waiting[..k]), w.e.s.waiting[k..], w.e.s.seqs)
  {
    hide Pos, NeverRun, Increasing;
    var s := w.e.s;
    assert forall id | id in s.waiting[..k] :: id in s.waiting;
    assert forall id | id in s.waiting[k..] :: id in s.waiting;
    var now := NeverRun(s, s.waiting[..k]);
    var all := w.started + now;
    forall a, i | 0 <= a < |all| && 0 <= i < |s.waiting[k..]| && s.seqs[s.waiting[k..][i]].output == []
      ensures Pos(w.arrivals, all[a]) < Pos(w.arrivals, s.waiting[k..][i])
    {
      assert s.waiting[k..][i] == s.waiting[k + i];
      if a < |w.started| {
        assert all[a] == w.started[a];
      } else {
        assert all[a] == now[a - |w.started|] && all[a] in now;
        var b :| 0 <= b < |s.waiting[..k]| && s.waiting[..k][b] == all[a];
        assert s.waiting[b] == all[a];
      }
    }
  }

  lemma StartedAgree(arrivals: seq<RequestId>, started: seq<RequestId>, waiting: seq<RequestId>,
      a: map<RequestId, Seq>, b: map<RequestId, Seq>)
    requires forall id | id in waiting :: id in a && id in b && a[id].output == b[id].output
    requires StartedFirst(arrivals, started, waiting, a)
    ensures StartedFirst(arrivals, started, waiting, b)
  {
    forall x, i | 0 <= x < |started| && 0 <= i < |waiting| && b[waiting[i]].output == []
      ensures Pos(arrivals, started[x]) < Pos(arrivals, waiting[i])
    {
      assert waiting[i] in waiting;
    }
  }

  lemma PrefillLine(s: Sched, x: RequestId)
    requires Ledger(s) && Schedule(s).2
    ensures var (s1, batch, _) := Schedule(s);
      && |batch| <= |s.waiting| && batch == s.waiting[..|batch|] && s1.waiting == s.waiting[|batch|..]
      && (x in s1.waiting ==> x !in batch && x in s.seqs && x in s1.seqs && s1.seqs[x] == s.seqs[x])
  {
    hide Ledger, Schedule, BlocksNeeded, NoDup;
    LedgerQueues(s);
    ScheduledQueue(s);
    var (s1, batch, _) := Schedule(s);
    if x in s1.waiting {
      Behind(s.waiting, |batch|, x);
      ScheduledSeq(s, x);
    }
  }

  lemma ScheduledQueue(s: Sched)
    requires Ledger(s) && Schedule(s).2
    ensures var (s1, batch, _) := Schedule(s);
      && |batch| <= |s.waiting| && batch == s.waiting[..|batch|] && s1.waiting == s.waiting[|batch|..]
      && NoDup(s.waiting)
  {
    hide Conserved, BlocksNeeded, OnlyRunningOwn, Demand, NoDup;
    AdmissionExact(s);
  }

  lemma Behind(ids: seq<RequestId>, k: nat, x: RequestId)
    requires NoDup(ids) && k <= |ids| && x in ids[k..]
    ensures x in ids && x !in ids[..k]
  {
    var i :| 0 <= i < |ids[k..]| && ids[k..][i] == x;
    assert ids[k + i] == x;
  }

  /** A step that starts the first k of the line and leaves the rest of it alone. */
  lemma OrderAfterStart(w: World, w': World, k: nat)
    requires InOrder(w) && Known(w'.e.s) && k <= |w.e.s.waiting| && w'.arrivals == w.arrivals
    requires w'.e.s.waiting == w.e.s.waiting[k..]
    requires (forall id | id in w.e.s.waiting[..k] :: id in w.e.s.seqs)
    requires w'.started == w.started + NeverRun(w.e.s, w.e.s.waiting[..k])
    requires forall x | x in w.e.s.waiting[k..] ::
      x in w.e.s.seqs && x in w'.e.s.seqs && w'.e.s.seqs[x].output == w.e.s.seqs[x].output
    ensures InOrder(w')
  {
    hide Increasing, Line, StartedFirst, NeverRun;
    var s := w.e.s;
    StartingFits(w, k);
    StartedStillFirst(w, k);
    LineTail(w.arrivals, s.waiting, s.seqs, k);
    LineAgree(w.arrivals, s.waiting[k..], s.seqs, w'.e.s.seqs);
    StartedAgree(w.arrivals, w'.started, s.waiting[k..], s.seqs, w'.e.s.seqs);
    assert forall id | id in s.waiting[k..] :: id in s.waiting;
  }

  lemma PrefillWorld(w: World, coin: Coin)
    requires Known(w.e.s) && Ledger(w.e.s) && Schedule(w.e.s).2 && Perform(w, Tick(coin)).Some?
    ensures var w' := Perform(w, Tick(coin)).value;
      var k := |Schedule(w.e.s).1|;
      && k <= |w.e.s.waiting| && w'.arrivals == w.arrivals && w'.e.s.waiting == w.e.s.waiting[k..]
      && (forall id | id in w.e.s.waiting[..k] :: id in w.e.s.seqs)
      && w'.started == w.started + NeverRun(w.e.s, w.e.s.waiting[..k])
      && (forall x | x in w.e.s.waiting[k..] :: x in w.e.s.seqs && x in w'.e.s.seqs && w'.e.s.seqs[x] == w.e.s.seqs[x])
  {
    hide Ledger, Schedule, PrefillAll, DecodeBatchStep, EnsureCapacity, NeverRun, DeliverAll;
    var s := w.e.s;
    var (s1, batch, _) := Schedule(s);
    ScheduledShape(s);
    PrefillLine(s, "");
    PrefillAllSpares(w.e.(s := s1), batch, coin);
    forall x | x in s.waiting[|batch|..]
      ensures x in s.seqs && x in Perform(w, Tick(coin)).value.e.s.seqs
      ensures Perform(w, Tick(coin)).value.e.s.seqs[x] == s.seqs[x]
    {
      PrefillLine(s, x);
    }
  }

  lemma PrefillKeepsOrder(w: World, coin: Coin)
    requires Good(w) && InOrder(w) && Schedule(w.e.s).2 && Perform(w, Tick(coin)).Some?
    requires Known(Perform(w, Tick(coin)).value.e.s)
    ensures InOrder(Perform(w, Tick(coin)).value)
  {
    hide Inv, Ledger, Streams, Schedule, Perform, InOrder, NeverRun;
    InvBase(w.e);
    PrefillWorld(w, coin);
    OrderAfterStart(w, Perform(w, Tick(coin)).value, |Schedule(w.e.s).1|);
  }

  lemma RoomLine(e: Engine) returns (pre: seq<RequestId>)
    requires Inv(e) && Known(e.s)
    ensures Roomy(e).s.waiting == pre + e.s.waiting
    ensures forall id | id in pre :: id in e.s.seqs && e.s.seqs[id].output != []
    ensures forall id | id in e.s.seqs :: id in Roomy(e).s.seqs && Roomy(e).s.seqs[id].output == e.s.seqs[id].output
    ensures Ledger(Roomy(e).s)
  {
    hide Inv, Ledger, BlocksNeeded, EnsureCapacity;
    RoomSpec(e);
    var s' := Roomy(e).s;
    pre := s'.waiting[..|s'.waiting| - |e.s.waiting|];
    assert s'.waiting == pre + s'.waiting[|s'.waiting| - |e.s.waiting|..];
    forall id | id in pre ensures id in e.s.seqs && e.s.seqs[id].output != [] {
      InvSettled(e, id);
    }
    forall id | id in e.s.seqs ensures id in s'.seqs && s'.seqs[id].output == e.s.seqs[id].output {
      assert SeqEvolves(e.s.seqs[id], s'.seqs[id]);
    }
  }

  lemma WaitingNotRunning(s: Sched)
    requires Ledger(s)
    ensures forall id | id in s.waiting :: id !in s.running && id in s.seqs
  {
  }

  lemma StartedFront(arrivals: seq<RequestId>, started: seq<RequestId>, pre: seq<RequestId>, waiting: seq<RequestId>,
      seqs: map<RequestId, Seq>)
    requires (forall id | id in waiting :: id in seqs) && StartedFirst(arrivals, started, waiting, seqs)
    requires forall id | id in pre :: id in seqs && seqs[id].output != []
    ensures forall id | id in pre + waiting :: id in seqs
    ensures StartedFirst(arrivals, started, pre + waiting, seqs)
  {
    var all := pre + waiting;
    assert forall i | 0 <= i < |pre| :: pre[i] in pre && all[i] == pre[i];
    forall a, i | 0 <= a < |started| && 0 <= i < |all| && seqs[all[i]].output == []
      ensures Pos(arrivals, started[a]) < Pos(arrivals, all[i])
    {
      assert all[i] == waiting[i - |pre|];
    }
  }

  /** A step that puts some that have run before in front of the line. */
  lemma OrderAfterEviction(w: World, w': World, pre: seq<RequestId>)
    requires Arrived(w) && InOrder(w) && Known(w'.e.s) && w'.arrivals == w.arrivals && w'.started == w.started
    requires w'.e.s.waiting == pre + w.e.s.waiting
    requires forall id | id in pre :: id in w.e.s.seqs && w.e.s.seqs[id].output != []
    requires forall x | x in pre + w.e.s.waiting ::
      x in w.e.s.seqs && x in w'.e.s.seqs && w'.e.s.seqs[x].output == w.e.s.seqs[x].output
    ensures InOrder(w')
  {
    hide Increasing, Line, StartedFirst;
    var s := w.e.s;
    LineFront(w.arrivals, pre, s.waiting, s.seqs);
    LineAgree(w.arrivals, pre + s.waiting, s.seqs, w'.e.s.seqs);
    StartedFront(w.arrivals, w.started, pre, s.waiting, s.seqs);
    StartedAgree(w.arrivals, w.started, pre + s.waiting, s.seqs, w'.e.s.seqs);
  }

  lemma DecodeWorld(w: World, coin: Coin) returns (pre: seq<RequestId>)
    requires Inv(w.e) && Known(w.e.s) && !Schedule(w.e.s).2 && Perform(w, Tick(coin)).Some?
    ensures var w' := Perform(w, Tick(coin)).value;
      && w'.arrivals == w.arrivals && w'.started == w.started && w'.e.s.waiting == pre + w.e.s.waiting
      && (forall id | id in pre :: id in w.e.s.seqs && w.e.s.seqs[id].output != [])
      && (forall x | x in pre + w.e.s.waiting ::
            x in w.e.s.seqs && x in w'.e.s.seqs && w'.e.s.seqs[x].output == w.e.s.seqs[x].output)
  {
    hide Inv, Ledger, Schedule, PrefillAll, DecodeBatchStep, EnsureCapacity, DeliverAll;
    ScheduleIdle(w.e.s);
    InvBase(w.e);
    WaitingNotRunning(w.e.s);
    if w.e.s.running != [] {
      pre := RoomLine(w.e);
      WaitingNotRunning(Roomy(w.e).s);
      if Roomy(w.e).s.running != [] {
        DecodeSpares(Roomy(w.e), Roomy(w.e).s.running, coin);
      }
    } else {
      pre := [];
    }
  }

  lemma DecodeKeepsOrder(w: World, coin: Coin)
    requires Good(w) && Arrived(w) && InOrder(w) && !Schedule(w.e.s).2
    requires Perform(w, Tick(coin)).Some? && Known(Perform(w, Tick(coin)).value.e.s)
    ensures InOrder(Perform(w, Tick(coin)).value)
  {
    hide Inv, Ledger, Streams, Schedule, Perform, InOrder, Arrived;
    InvBase(w.e);
    var pre := DecodeWorld(w, coin);
    OrderAfterEviction(w, Perform(w, Tick(coin)).value, pre);
  }

  /** A newcomer at the end of the line arrived after everybody. */
  lemma OrderAfterArrival(w: World, w': World, id: RequestId)
    requires InOrder(w) && Known(w'.e.s) && id !in w.arrivals && w'.arrivals == w.arrivals + [id]
    requires w'.started == w.started
    requires w'.e.s.waiting == w.e.s.waiting + [id] && id in w'.e.s.seqs && w'.e.s.seqs[id].output == []
    requires forall x | x in w.e.s.waiting ::
      x in w.e.s.seqs && x in w'.e.s.seqs && w'.e.s.seqs[x].output == w.e.s.seqs[x].output
    ensures InOrder(w')
  {
    hide Pos;
    forall x | x in w.arrivals ensures Pos(w'.arrivals, x) == Pos(w.arrivals, x) < |w.arrivals| {
      PosAppend(w.arrivals, x, id);
    }
    PosLast(w.arrivals, id);
    forall i | 0 <= i < |w.e.s.waiting|
      ensures w'.e.s.waiting[i] == w.e.s.waiting[i] && w.e.s.waiting[i] in w.arrivals
    {
      assert w.e.s.waiting[i] in w.e.s.waiting;
    }
    forall i | 0 <= i < |w.started| ensures w.started[i] in w.arrivals {
      assert w.started[i] in w.started;
    }
  }

  lemma SubmitKeepsOrder(w: World, r: Request)
    requires Arrived(w) && InOrder(w) && r.id !in w.arrivals && Known(Perform(w, Submit(r)).value.e.s)
    ensures InOrder(Perform(w, Submit(r)).value)
  {
    hide InOrder;
    InOrderKnown(w);
    if AddRequest(w.e, r).Some? {
      OrderAfterArrival(w, Perform(w, Submit(r)).value, r.id);
    }
  }

  lemma InOrderKnown(w: World)
    requires InOrder(w)
    ensures Known(w.e.s)
  {
  }

  /** Leaving the line keeps the order of the others. */
  lemma OrderAfterLeaving(w: World, w': World, k: nat)
    requires InOrder(w) && Known(w'.e.s) && w'.arrivals == w.arrivals && w'.started == w.started && k <= |w.e.s.waiting|
    requires w'.e.s.waiting == w.e.s.waiting[..k] + w.e.s.waiting[if k < |w.e.s.waiting| then k + 1 else k..]
    requires forall x | x in w.e.s.seqs :: x in w'.e.s.seqs && w'.e.s.seqs[x].output == w.e.s.seqs[x].output
    ensures InOrder(w')
  {
    hide Pos;
    var a, b := w.e.s.waiting, w'.e.s.waiting;
    assert forall i | 0 <= i < |b| :: b[i] == a[if i < k then i else i + 1] && b[i] in a && b[i] in b;
  }

  lemma CancelKeepsOrder(w: World, id: RequestId)
    requires Good(w) && InOrder(w) && Known(Perform(w, Cancel(id)).value.e.s)
    ensures InOrder(Perform(w, Cancel(id)).value)
  {
    hide Inv, Streams, Ledger, InOrder, CancelRequest, NoDup;
    InvBase(w.e);
    CancelShape(w.e, id);
    var w' := Perform(w, Cancel(id)).value;
    var s, s' := w.e.s, w'.e.s;
    forall x | x in s.seqs ensures x in s'.seqs && s'.seqs[x].output == s.seqs[x].output {
      assert x == id || s'.seqs[x] == s.seqs[x];
    }
    if s'.waiting != s.waiting && id in s.waiting {
      var k := RemoveSplits(s.waiting, id);
      OrderAfterLeaving(w, w', k);
    } else {
      assert s.waiting[..|s.waiting|] + s.waiting[|s.waiting|..] == s.waiting;
      OrderAfterLeaving(w, w', |s.waiting|);
    }
  }

  /** In every state of every run the line is in order, and requests have been run for the
      first time in the order they arrived. */
  lemma {:induction false} FirstComeFirstServed(w: World, evs: seq<Event>)
    requires Good(w) && Arrived(w) && InOrder(w) && WellPosed(evs)
    requires forall i | 0 <= i < |evs| && evs[i].Submit? :: evs[i].r.id !in w.arrivals
    ensures Play(w, evs).Some? && InOrder(Play(w, evs).value)
    decreases |evs|
  {
    hide Good, Arrived, Perform, InOrder;
    EveryRunIsGood(w, evs);
    if evs != [] {
      var n := |evs| - 1;
      assert WellPosed(evs[..n]);
      FirstComeFirstServed(w, evs[..n]);
      EveryRunIsGood(w, evs[..n]);
      var w1 := Play(w, evs[..n]).value;
      LastIsNew(w, evs, w1.arrivals);
      GoodKnown(Play(w, evs).value);
      PerformKeepsOrder(w1, evs[n]);
    }
  }

  // ----- who has started

  /** The requests that have been started are exactly those that have output. */
  ghost predicate StartedRan(w: World) {
    forall id | id in w.e.s.seqs :: w.e.s.seqs[id].output != [] <==> id in w.started
  }

  lemma {:induction false} NeverRunAll(s: Sched, batch: seq<RequestId>, id: RequestId)
    requires forall x | x in batch :: x in s.seqs
    ensures id in NeverRun(s, batch) <==> id in batch && s.seqs[id].output == []
    decreases |batch|
  {
    if batch != [] {
      assert batch == [batch[0]] + batch[1..];
      NeverRunAll(s, batch[1..], id);
    }
  }

  /** Every member of an admitted batch gets its token, and nobody else does. */
  lemma PrefillStarts(w: World, coin: Coin, id: RequestId)
    requires Good(w) && StartedRan(w) && Known(w.e.s) && Schedule(w.e.s).2 && Perform(w, Tick(coin)).Some?
    requires id in w.e.s.seqs
    ensures var w' := Perform(w, Tick(coin)).value;
      id in w'.e.s.seqs && (w'.e.s.seqs[id].output != [] <==> id in w'.started)
  {
    hide Inv, Ledger, Streams, Schedule, PrefillAll, DecodeBatchStep, EnsureCapacity, NeverRun, NoDup, TokensFor,
      EndsIn, DeliverAll;
    InvBase(w.e);
    ScheduledShape(w.e.s);
    ScheduleLive(w.e);
    var (s1, batch, _) := Schedule(w.e.s);
    PrefillAllEmits(w.e.(s := s1), batch, coin);
    var (e', outs) := PrefillAll(w.e.(s := s1), batch, coin).value;
    assert Gains(w.e.s.seqs[id], s1.seqs[id], [], id) && Gains(s1.seqs[id], e'.s.seqs[id], outs, id);
    TokensNone(id);
    TokensCount(batch, outs, id);
    NeverRunAll(w.e.s, batch, id);
  }

  lemma TokensNone(id: RequestId)
    ensures TokensFor([], id) == []
  {
  }

  /** A decode step gives tokens only to sequences that have some. */
  lemma DecodeStarts(w: World, coin: Coin, id: RequestId)
    requires Good(w) && StartedRan(w) && Known(w.e.s) && !Schedule(w.e.s).2 && Perform(w, Tick(coin)).Some?
    requires id in w.e.s.seqs
    ensures var w' := Perform(w, Tick(coin)).value;
      id in w'.e.s.seqs && (w'.e.s.seqs[id].output != [] <==> id in w'.started)
  {
    hide Inv, Ledger, Streams, Step, Schedule, NoDup, TokensFor, EndsIn, DeliverAll, Holdable;
    InvBase(w.e);
    var pre := DecodeWorld(w, coin);
    var ids := StepEmits(w.e, coin);
    var (e', outs) := Step(w.e, coin).value;
    assert Gains(w.e.s.seqs[id], e'.s.seqs[id], outs, id);
    TokensCount(ids, outs, id);
    if w.e.s.seqs[id].output == [] && id in ids {
      QueuedOrRunning(w.e.s, id);
      if id in w.e.s.running {
        InvSettled(w.e, id);
      }
    }
  }

  lemma QueuedOrRunning(s: Sched, id: RequestId)
    requires Ledger(s) && id in s.seqs && s.seqs[id].status != Finished
    ensures id in s.waiting || id in s.running
  {
  }

  lemma PerformStarts(w: World, ev: Event)
    requires Good(w) && Arrived(w) && InOrder(w) && StartedRan(w) && Perform(w, ev).Some?
    requires ev.Submit? ==> ev.r.id !in w.arrivals
    ensures StartedRan(Perform(w, ev).value)
  {
    hide Inv, Streams, Ledger, Schedule, Step, CancelRequest, Line, Increasing, StartedFirst, DeliverAll, Starting,
      Acceptable;
    InvBase(w.e);
    var w' := Perform(w, ev).value;
    match ev {
      case Submit(r) =>
      case Cancel(id) => CancelShape(w.e, id);
      case Tick(coin) =>
        TickKeys(w, coin);
        forall id | id in w'.e.s.seqs ensures w'.e.s.seqs[id].output != [] <==> id in w'.started {
          if Schedule(w.e.s).2 {
            PrefillStarts(w, coin, id);
          } else {
            DecodeStarts(w, coin, id);
          }
        }
    }
  }

  lemma TickKeys(w: World, coin: Coin)
    requires Good(w) && Perform(w, Tick(coin)).Some?
    ensures Perform(w, Tick(coin)).value.e.s.seqs.Keys == w.e.s.seqs.Keys
  {
    hide Inv, Streams, Step, Starting, DeliverAll;
    InvBase(w.e);
    StepKeys(w.e, coin, w.st);
  }

  /** In every run. */
  lemma {:induction false} StartedHaveRun(w: World, evs: seq<Event>)
    requires Good(w) && Arrived(w) && InOrder(w) && StartedRan(w) && WellPosed(evs)
    requires forall i | 0 <= i < |evs| && evs[i].Submit? :: evs[i].r.id !in w.arrivals
    ensures Play(w, evs).Some? && StartedRan(Play(w, evs).value)
    decreases |evs|
  {
    hide Good, Arrived, Perform, InOrder, StartedRan;
    FirstComeFirstServed(w, evs);
    if evs != [] {
      var n := |evs| - 1;
      assert WellPosed(evs[..n]);
      EveryRunIsGood(w, evs[..n]);
      FirstComeFirstServed(w, evs[..n]);
      StartedHaveRun(w, evs[..n]);
      LastIsNew(w, evs, Play(w, evs[..n]).value.arrivals);
      PerformStarts(Play(w, evs[..n]).value, evs[n]);
    }
  }

  lemma StartInOrder(m: Model, enc: Table, numBlocks: nat, bs: nat, maxBatch: nat, zero: KV)
    requires bs > 0
    ensures InOrder(Start(m, enc, numBlocks, bs, maxBatch, zero))
    ensures StartedRan(Start(m, enc, numBlocks, bs, maxBatch, zero))
  {
  }

  /** The same from a new engine on: whatever arrives, is cancelled or evicted, the line is those
      that have run before, then the others by arrival, and requests start in order of arrival.
      Those that have started are those with output. */
  lemma FirstComeInEveryRun(m: Model, enc: Table, numBlocks: nat, bs: nat, maxBatch: nat, zero: KV, evs: seq<Event>)
    requires m.blockSize > 0 && bs > 0 && WellPosed(evs)
    ensures var end := Play(Start(m, enc, numBlocks, bs, maxBatch, zero), evs);
      && end.Some?
      && (forall id | id in end.value.e.s.waiting :: id in end.value.e.s.seqs)
      && Line(end.value.arrivals, end.value.e.s.waiting, end.value.e.s.seqs)
      && Increasing(end.value.arrivals, end.value.started)
      && (forall id | id in end.value.e.s.seqs :: end.value.e.s.seqs[id].output != [] <==> id in end.value.started)
  {
    hide Good, Arrived, WellPosed, Line, Increasing, StartedFirst, Play;
    StartGood(m, enc, numBlocks, bs, maxBatch, zero);
    StartInOrder(m, enc, numBlocks, bs, maxBatch, zero);
    FirstComeFirstServed(Start(m, enc, numBlocks, bs, maxBatch, zero), evs);
    StartedHaveRun(Start(m, enc, numBlocks, bs, maxBatch, zero), evs);
  }

  lemma GoodKnown(w: World)
    requires Good(w)
    ensures Known(w.e.s)
  {
  }

  lemma PerformKeepsOrder(w: World, ev: Event)
    requires Good(w) && Arrived(w) && InOrder(w) && Perform(w, ev).Some? && Known(Perform(w, ev).value.e.s)
    requires ev.Submit? ==> ev.r.id !in w.arrivals
    ensures InOrder(Perform(w, ev).value)
  {
    hide Good, Arrived, Perform, Schedule;
    match ev
    case Submit(r) => SubmitKeepsOrder(w, r);
    case Cancel(id) => CancelKeepsOrder(w, id);
    case Tick(coin) =>
      if Schedule(w.e.s).2 {
        PrefillKeepsOrder(w, coin);
      } else {
        DecodeKeepsOrder(w, coin);
      }
  }
}
