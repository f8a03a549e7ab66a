/** The serving engine as a state machine: submitting, cancelling, and one synchronous step.
    A step that would fail an assertion or an index check of the program yields None. */
module Serving {
  import opened Wrappers
  import opened Transformer
  import opened Forward
  import opened Utf8
  import opened Tokenizer
  import opened Requests
  import opened Blocks
  import opened PagedCache
  import opened Scheduling

  /** The state of one request's detokenizer. */
  datatype Detok = Detok(ids: seq<Token>, emitted: string)

  datatype Engine = Engine(
    m: Model,
    enc: Table,
    s: Sched,
    store: Store,
    detoks: map<RequestId, Detok>)
  {
    /** max_blocks_per_seq */
    function Width(): nat
      requires s.blockSize > 0
    {
      BlocksNeeded(m.blockSize, s.blockSize)
    }
  }

  /** Draws for the rows that do not decode greedily. */
  type Coin = RequestId -> Token

  // ----- arrivals and departures

  /** The checks a new request has to pass: one completion, within the position table. */
  predicate Acceptable(m: Model, r: Request) {
    r.n == 1 && |r.prompt| <= m.blockSize && |r.prompt| + r.maxTokens <= m.blockSize
  }

  /** Accepted are exactly the requests for one completion that fit the position table whatever they
      generate within their allowance. */
  lemma AcceptedExactly(e: Engine, r: Request)
    ensures AddRequest(e, r).Some? <==>
      r.n == 1 && forall out: seq<Token> | out == [] || |out| <= r.maxTokens :: |r.prompt + out| <= e.m.blockSize
  {
    var longest: seq<Token> := seq(if r.maxTokens > 0 then r.maxTokens else 0, _ => 0);
    assert |r.prompt + longest| == |r.prompt| + |longest|;
  }

  function AddRequest(e: Engine, r: Request): Option<Engine> {
    if !Acceptable(e.m, r) then None
    else Some(e.(s := Add(e.s, r), detoks := e.detoks[r.id := Detok([], "")]))
  }

  function CancelRequest(e: Engine, id: RequestId): (Engine, bool)
    requires Known(e.s)
  {
    var (s', found) := Cancel(e.s, id);
    (e.(s := s', detoks := e.detoks - {id}), found)
  }

  // ----- sampling one row

  function SetSeq(e: Engine, id: RequestId, q: Seq): Engine {
    e.(s := e.s.(seqs := e.s.seqs[id := q]))
  }

  /** Append a token to its sequence, detokenize it, and retire the sequence if it is done. */
  function Advance(e: Engine, id: RequestId, tok: Token): (r: (Engine, RequestOutput))
    requires Known(e.s) && id in e.s.seqs && id in e.detoks
    ensures Known(r.0.s) && r.0.s.seqs.Keys == e.s.seqs.Keys && r.0.detoks.Keys == e.detoks.Keys
  {
    var q := e.s.seqs[id];
    var d := e.detoks[id];
    var ids := d.ids + [tok];
    var safe := SafeText(e.enc, ids);
    var delta := Beyond(safe, d.emitted);
    var q1 := q.(output := q.output + [tok], text := q.text + delta);
    match CheckFinish(q.request, q1.output, q1.text)
    case None =>
      (SetSeq(e, id, q1).(detoks := e.detoks[id := Detok(ids, safe)]),
       RequestOutput(id, [tok], delta, q1.status.Finished?, q1.reason))
    case Some(reason) =>
      var full := FullText(e.enc, ids);
      var tail := Beyond(full, safe);
      var q2 := q1.(text := q1.text + tail);
      var (cut, hit) := TruncateAtStop(q.request, q2.text, delta + tail);
      var why := if hit then Stop else reason;
      var e2 := SetSeq(e, id, q2);
      (e2.(s := Finish(e2.s, id, why), detoks := e.detoks[id := Detok(ids, full)]),
       RequestOutput(id, [tok], cut, true, Some(why)))
  }

  function Sampled(e: Engine, id: RequestId, logits: seq<real>, coin: Coin): Token
    requires id in e.s.seqs
  {
    if e.s.seqs[id].request.Greedy() then Greedy(e.m, logits) else coin(id)
  }

  /** Sample the rows of a batch in order. */
  function AdvanceAll(e: Engine, ids: seq<RequestId>, logits: seq<seq<real>>,
      coin: Coin): (r: (Engine, seq<RequestOutput>))
    requires Known(e.s) && |logits| == |ids|
    requires forall id | id in ids :: id in e.s.seqs && id in e.detoks
    ensures Known(r.0.s) && r.0.s.seqs.Keys == e.s.seqs.Keys && r.0.detoks.Keys == e.detoks.Keys
    decreases |ids|
  {
    if ids == [] then (e, [])
    else
      var (e1, out) := Advance(e, ids[0], Sampled(e, ids[0], logits[0], coin));
      var (e2, outs) := AdvanceAll(e1, ids[1..], logits[1..], coin);
      (e2, [out] + outs)
  }

  // ----- prefill

  predicate PrefillLegal(e: Engine, id: RequestId)
  {
    && Known(e.s) && id in e.s.seqs && id in e.detoks
    && var q := e.s.seqs[id];
       && q.computed == 0
       && 0 < q.NumTokens() <= e.m.blockSize
       && BlocksNeeded(q.NumTokens(), e.s.blockSize) <= |q.table|
       && Fits(e.m, e.store, PrefillPlan(e, id))
  }

  function PrefillPlan(e: Engine, id: RequestId): Plan
    requires Known(e.s) && id in e.s.seqs
    requires var q := e.s.seqs[id]; 0 < q.NumTokens() && BlocksNeeded(q.NumTokens(), e.s.blockSize) <= |q.table|
  {
    var q := e.s.seqs[id];
    PagedPlan(PrefillBatch(q.Tokens(), q.table, e.Width(), e.s.blockSize), e.s.blockSize)
  }

  /** The pass itself: all tokens of the sequence go through the model into the pool. */
  function PrefillPass(e: Engine, id: RequestId): (r: (Engine, seq<real>))
    requires PrefillLegal(e, id)
    ensures Known(r.0.s) && r.0.s.seqs.Keys == e.s.seqs.Keys && r.0.detoks == e.detoks
  {
    var q := e.s.seqs[id];
    var out := Run(e.m, e.store, PrefillPlan(e, id), e.m.nLayer);
    (SetSeq(e, id, q.(computed := q.NumTokens())).(store := out.0), Logits(e.m, out, 0, q.NumTokens() - 1))
  }

  function PrefillOne(e: Engine, id: RequestId, coin: Coin): (r: Option<(Engine, RequestOutput)>)
    ensures r.Some? ==> Known(r.value.0.s)
  {
    if !PrefillLegal(e, id) then None
    else
      var (e1, logits) := PrefillPass(e, id);
      Some(Advance(e1, id, Sampled(e1, id, logits, coin)))
  }

  function PrefillAll(e: Engine, ids: seq<RequestId>, coin: Coin): Option<(Engine, seq<RequestOutput>)>
    decreases |ids|
  {
    if ids == [] then Some((e, []))
    else match PrefillOne(e, ids[0], coin)
      case None => None
      case Some((e1, out)) =>
        (match PrefillAll(e1, ids[1..], coin)
         case None => None
         case Some((e2, outs)) => Some((e2, [out] + outs)))
  }

  // ----- decode

  function LastToken(q: Seq): Token
    requires |q.request.prompt| > 0
  {
    if q.output != [] then q.output[|q.output| - 1] else q.request.prompt[|q.request.prompt| - 1]
  }

  function DecodeRows(e: Engine, ids: seq<RequestId>): (ds: seq<DecodeRow>)
    requires forall id | id in ids :: id in e.s.seqs && |e.s.seqs[id].request.prompt| > 0
    ensures |ds| == |ids|
    ensures forall r | 0 <= r < |ds| ::
      var q := e.s.seqs[ids[r]]; ds[r] == DecodeRow(LastToken(q), q.computed, q.table)
  {
    seq(|ids|, r requires 0 <= r < |ids| && ids[r] in e.s.seqs && |e.s.seqs[ids[r]].request.prompt| > 0 =>
      var q := e.s.seqs[ids[r]];
      DecodeRow(LastToken(q), q.computed, q.table))
  }

  predicate DecodeLegal(e: Engine, ids: seq<RequestId>) {
    && Known(e.s)
    && (forall id | id in ids :: id in e.s.seqs && id in e.detoks && |e.s.seqs[id].request.prompt| > 0
          && e.s.seqs[id].computed < e.m.blockSize)
    && DecodeRowsOk(DecodeRows(e, ids), e.Width(), e.s.blockSize)
    && Fits(e.m, e.store, DecodePlan(e, ids))
  }

  function DecodePlan(e: Engine, ids: seq<RequestId>): Plan
    requires Known(e.s)
    requires forall id | id in ids :: id in e.s.seqs && |e.s.seqs[id].request.prompt| > 0
    requires DecodeRowsOk(DecodeRows(e, ids), e.Width(), e.s.blockSize)
  {
    PagedPlan(DecodeBatch(DecodeRows(e, ids), e.Width(), e.s.blockSize), e.s.blockSize)
  }

  function CountComputed(seqs: map<RequestId, Seq>, ids: seq<RequestId>): (r: map<RequestId, Seq>)
    ensures r.Keys == seqs.Keys
    ensures forall id | id in seqs ::
      r[id] == if id in ids then seqs[id].(computed := seqs[id].computed + 1) else seqs[id]
  {
    map id | id in seqs :: if id in ids then seqs[id].(computed := seqs[id].computed + 1) else seqs[id]
  }

  /** Logits of the first query of every row. */
  function FirstLogits(m: Model, out: (Store, seq<seq<Vec>>)): (r: seq<seq<real>>)
    ensures |r| == |out.1|
    ensures forall i | 0 <= i < |r| && 0 < |out.1[i]| :: r[i] == Logits(m, out, i, 0)
  {
    seq(|out.1|, i requires 0 <= i < |out.1| => if |out.1[i]| > 0 then Logits(m, out, i, 0) else [])
  }

  function DecodePass(e: Engine, ids: seq<RequestId>): (r: (Engine, seq<seq<real>>))
    requires DecodeLegal(e, ids)
    ensures Known(r.0.s) && r.0.s.seqs.Keys == e.s.seqs.Keys && r.0.detoks == e.detoks
    ensures |r.1| == |ids|
  {
    var p := DecodePlan(e, ids);
    var out := Run(e.m, e.store, p, e.m.nLayer);
    (e.(store := out.0, s := e.s.(seqs := CountComputed(e.s.seqs, ids))), FirstLogits(e.m, out))
  }

  function DecodeBatchStep(e: Engine, ids: seq<RequestId>, coin: Coin): Option<(Engine, seq<RequestOutput>)> {
    if !DecodeLegal(e, ids) then None
    else
      var (e1, logits) := DecodePass(e, ids);
      Some(AdvanceAll(e1, ids, logits, coin))
  }

  // ----- one step

  function Step(e: Engine, coin: Coin): Option<(Engine, seq<RequestOutput>)>
    requires Known(e.s)
  {
    var (s1, batch, prefill) := Schedule(e.s);
    if batch == [] then Some((e.(s := s1), []))
    else if prefill then PrefillAll(e.(s := s1), batch, coin)
    else
      var s2 := EnsureCapacity(s1, s1.running);
      if s2.running == [] then Some((e.(s := s2), []))
      else DecodeBatchStep(e.(s := s2), s2.running, coin)
  }
}
