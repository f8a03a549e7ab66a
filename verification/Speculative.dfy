/** The speculative generation loop: propose, verify in one pass, keep the accepted prefix,
    and feed the correction.  Drafts that are rejected stay in the cache past its length. */
module Speculative {
  import opened Wrappers
  import opened Transformer
  import opened Forward
  import opened StaticCache
  import opened SpecDecode

  // ----- single-row passes

  /** Query row of the verification block sees the cached prefix, itself and what precedes it. */
  function VerifyMask(cacheLen: nat, n: nat): (mk: Mask)
    ensures |mk| == 1 && |mk[0]| == n
    ensures forall row | 0 <= row < n :: |mk[0][row]| == cacheLen + n
    ensures forall row, col | 0 <= row < n && 0 <= col < cacheLen + n :: mk[0][row][col] <==> col <= cacheLen + row
  {
    [seq(n, row requires 0 <= row < n =>
      seq(cacheLen + n, col requires 0 <= col < cacheLen + n => col <= cacheLen + row))]
  }

  function Positions(start: nat, n: nat): (pos: seq<nat>)
    ensures |pos| == n && forall j | 0 <= j < n :: pos[j] == start + j
  {
    seq(n, j requires 0 <= j < n => start + j)
  }

  /** The masks a single row is run under: none for a fresh prompt or a single token, else the
      verification mask. */
  predicate RowMask(mask: Option<Mask>, start: nat, n: nat) {
    match mask
    case None => start == 0 || n == 1
    case Some(mk) => mk == VerifyMask(start, n)
  }

  lemma SingleRowFeeds(toks: seq<Token>, start: nat, mask: Option<Mask>, hist: seq<Token>)
    requires |hist| == start && RowMask(mask, start, |toks|)
    ensures AllFeed([toks], [Positions(start, |toks|)], mask, start, |toks|, [0], [hist + toks])
  {
    var n := |toks|;
    var p := StaticPlan([toks], [Positions(start, n)], mask, start, n);
    assert RowShape(p, 0);
    assert Feeds([toks], [Positions(start, n)], mask, start, n, 0, 0, hist + toks);
  }

  /** Append tokens to the one sequence a cache holds. */
  method ForwardRow(m: Model, toks: seq<Token>, start: nat, mask: Option<Mask>, cache: StaticKVCache,
      ghost hist: seq<Token>)
    returns (states: seq<Vec>)
    requires cache.Valid() && cache.rows == 1 && cache.nLayer == m.nLayer && cache.Level(start)
    requires start + |toks| <= cache.width && start + |toks| <= m.blockSize && RowMask(mask, start, |toks|)
    requires |hist| == start && RowHolds(m, cache.View(), 0, 0, hist, start)
    modifies cache.k, cache.v
    ensures RowHolds(m, cache.View(), 0, 0, hist + toks, start + |toks|)
    ensures states == Hidden(m, hist + toks, m.nLayer)[start..]
  {
    hide RowHolds, Run, Fits, Feeds, Hidden;
    var n := |toks|;
    ghost var data := cache.View();
    SingleRowFeeds(toks, start, mask, hist);
    RowHoldsAgree(m, data, 0, 0, hist, hist + toks, start);
    var xs := ForwardStatic(m, [toks], [Positions(start, n)], mask, cache, start, n);
    ghost var offs, seqs: seq<seq<Token>> := [0], [hist + toks];
    StaticPassFaithful(m, data, [toks], [Positions(start, n)], mask, start, n, offs, seqs);
    assert offs[0] == 0 && seqs[0] == hist + toks;
    assert RowStates(m, xs, 0, offs[0], seqs[0], start, n);
    states := xs[0];
  }

  /** One decode step of the cached sequence. */
  method AdvanceOneStep(m: Model, cache: StaticKVCache, token: Token, position: nat, ghost hist: seq<Token>)
    returns (logits: seq<real>)
    requires cache.Valid() && cache.rows == 1 && cache.nLayer == m.nLayer && cache.Level(position)
    requires position < cache.width && position < m.blockSize
    requires |hist| == position && RowHolds(m, cache.View(), 0, 0, hist, position)
    modifies cache.k, cache.v, cache.seqLens
    ensures cache.Level(position + 1) && RowHolds(m, cache.View(), 0, 0, hist + [token], position + 1)
    ensures logits == RefLogits(m, hist + [token])
  {
    hide RowHolds, Hidden;
    var states := ForwardRow(m, [token], position, None, cache, hist);
    logits := m.head(states[0]);
    cache.Advance(1);
  }

  /** Logits after every prefix of the draft, from one pass over the whole draft. */
  method VerifyForward(m: Model, cache: StaticKVCache, draft: seq<Token>, cacheLen: nat, ghost hist: seq<Token>)
    returns (rows: seq<seq<real>>)
    requires cache.Valid() && cache.rows == 1 && cache.nLayer == m.nLayer && cache.Level(cacheLen)
    requires cacheLen + |draft| <= cache.width && cacheLen + |draft| <= m.blockSize
    requires |hist| == cacheLen && RowHolds(m, cache.View(), 0, 0, hist, cacheLen)
    modifies cache.k, cache.v
    ensures RowHolds(m, cache.View(), 0, 0, hist + draft, cacheLen + |draft|)
    ensures |rows| == |draft| && forall i | 0 <= i < |draft| :: rows[i] == RefLogits(m, hist + draft[..i + 1])
  {
    hide RowHolds, Hidden;
    var g := |draft|;
    var states := ForwardRow(m, draft, cacheLen, Some(VerifyMask(cacheLen, g)), cache, hist);
    rows := seq(g, i requires 0 <= i < g && |states| == g => m.head(states[i]));
    forall i | 0 <= i < g ensures rows[i] == RefLogits(m, hist + draft[..i + 1]) {
      HiddenCausal(m, hist + draft, cacheLen + i + 1, m.nLayer);
      assert (hist + draft)[..cacheLen + i + 1] == hist + draft[..i + 1];
    }
  }

  // ----- drafters

  predicate InVocab(m: Model, toks: seq<Token>) {
    forall i | 0 <= i < |toks| :: toks[i] < m.vocab
  }

  type Proposal = Option<(seq<Token>, seq<Weights>)>

  /** A drafter: from the round, the context and the allowance to a proposal. */
  type Drafter = (nat, seq<Token>, nat) -> Proposal

  /** What the loop relies on: between one and g tokens of the vocabulary, one row of weights for each. */
  ghost predicate WellProposed(m: Model, p: Proposal, g: nat) {
    p.Some? ==>
      && 1 <= |p.value.0| <= g && InVocab(m, p.value.0) && |p.value.1| == |p.value.0|
      && forall i | 0 <= i < |p.value.1| :: |p.value.1[i]| == m.vocab && NonNegative(p.value.1[i])
  }

  ghost predicate DrafterOk(m: Model, propose: Drafter) {
    forall round, context, g | InVocab(m, context) && g > 0 :: WellProposed(m, propose(round, context, g), g)
  }

  // ----- one round

  /** What the loop holds between rounds: the cache covers exactly the tokens generated so far
      with reference entries, and the pending logits are the reference's after them. */
  ghost predicate InStep(m: Model, cache: StaticKVCache, generated: seq<Token>, pending: seq<real>)
    reads cache, cache.k, cache.v, cache.seqLens
  {
    && |generated| > 0
    && cache.Valid() && cache.rows == 1 && cache.nLayer == m.nLayer && cache.width == m.blockSize
    && cache.Level(|generated|)
    && RowHolds(m, cache.View(), 0, 0, generated, |generated|)
    && pending == RefLogits(m, generated)
  }

  /** A round without a draft: sample from the pending logits. */
  method SamplePending(m: Model, pending: seq<real>, temperature: real, exp: real -> real,
      ghost generated: seq<Token>)
    returns (next: Token)
    requires m.Valid() && ExpOk(m, temperature, exp)
    requires 0 < |generated| <= m.blockSize && pending == RefLogits(m, generated)
    ensures next < m.vocab
    ensures var p := ToProbs(m, RefLogits(m, generated), temperature, exp); next < |p| && p[next] > 0.0
    ensures temperature <= 0.0 ==> next == Next(m, generated)
  {
    ToProbsDist(m, pending, temperature, exp);
    var probs := ToProbs(m, pending, temperature, exp);
    ghost var some := PositiveTerm(probs);
    next := Pick(probs, some);
  }

  /** The target's distribution after every prefix of the draft. */
  ghost predicate TargetRows(m: Model, target: seq<Weights>, generated: seq<Token>, draft: seq<Token>,
      temperature: real, exp: real -> real)
  {
    && |generated| > 0 && |target| == |draft| + 1
    && forall i | 0 <= i < |target| :: target[i] == ToProbs(m, RefLogits(m, generated + draft[..i]), temperature, exp)
  }

  lemma TargetVerifiable(m: Model, target: seq<Weights>, generated: seq<Token>, draft: seq<Token>, q: seq<Weights>,
      temperature: real, exp: real -> real)
    requires m.Valid() && ExpOk(m, temperature, exp) && TargetRows(m, target, generated, draft, temperature, exp)
    requires WellProposed(m, Some((draft, q)), |draft|)
    ensures Verifiable(target, draft, q)
    ensures forall i | 0 <= i < |target| :: |target[i]| == m.vocab
  {
    hide IsDist, RefLogits, ToProbs;
    forall i | 0 <= i < |target| ensures IsDist(target[i]) && |target[i]| == m.vocab {
      LogitsWidth(m, generated + draft[..i]);
      ToProbsDist(m, RefLogits(m, generated + draft[..i]), temperature, exp);
    }
  }

  lemma LogitsWidth(m: Model, toks: seq<Token>)
    requires m.Valid() && |toks| > 0
    ensures |RefLogits(m, toks)| == m.vocab
  {
  }

  /** At temperature zero the verified tokens are the ones greedy decoding appends. */
  lemma VerifiedGreedy(m: Model, target: seq<Weights>, generated: seq<Token>, draft: seq<Token>, q: seq<Weights>,
      temperature: real, exp: real -> real, draws: seq<real>, accepted: seq<Token>, num: nat)
    requires m.Valid() && ExpOk(m, temperature, exp) && TargetRows(m, target, generated, draft, temperature, exp)
    requires temperature <= 0.0
    requires WellProposed(m, Some((draft, q)), |draft|) && Verifiable(target, draft, q)
    requires |generated| + |draft| <= m.blockSize
    requires |draws| == |draft| && Uniforms(draws) && Verified(target, draft, q, draws, accepted, num)
    ensures IsGreedy(m, generated, accepted)
  {
    hide IsDist, RefLogits, Resample, AcceptProb, Greedy, Verifiable;
    var best := seq(|target|, i requires 0 <= i < |target| => Greedy(m, RefLogits(m, generated + draft[..i])));
    forall i | 0 <= i < |target| ensures best[i] < m.vocab && target[i] == OneHot(m.vocab, best[i]) {
      LogitsWidth(m, generated + draft[..i]);
      GreedyBound(m, RefLogits(m, generated + draft[..i]));
    }
    GreedyVerify(target, draft, q, draws, accepted, num, m.vocab, best);
    forall j | 0 <= j < |accepted| ensures accepted[j] == Next(m, generated + accepted[..j]) {
      assert accepted[..j] == accepted[..num][..j] == draft[..num][..j] == draft[..j];
      assert accepted[j] == best[j];
    }
  }

  /** The target's distributions after every prefix of a draft. */
  ghost function TargetOf(m: Model, context: seq<Token>, draft: seq<Token>, temperature: real,
      exp: real -> real): (target: seq<Weights>)
    requires |context| > 0
    ensures |target| == |draft| + 1
    ensures forall i | 0 <= i < |target| ::
      target[i] == ToProbs(m, RefLogits(m, context + draft[..i]), temperature, exp)
  {
    seq(|draft| + 1, i requires 0 <= i < |draft| + 1 =>
      ToProbs(m, RefLogits(m, context + draft[..i]), temperature, exp))
  }

  /** accepted is an outcome of verifying the draft after this context against the reference. */
  ghost predicate DraftOk(m: Model, context: seq<Token>, draft: seq<Token>, q: seq<Weights>, draws: seq<real>,
      temperature: real, exp: real -> real, accepted: seq<Token>)
  {
    && |context| > 0 && |accepted| > 0 && |draws| == |draft|
    && var target := TargetOf(m, context, draft, temperature, exp);
      Verifiable(target, draft, q) && Verified(target, draft, q, draws, accepted, |accepted| - 1)
  }

  /** The uniform draws, by round and position in the draft. */
  ghost predicate UniformOk(uniform: (nat, nat) -> real) {
    forall round, i {:trigger uniform(round, i)} :: 0.0 <= uniform(round, i) < 1.0
  }

  /** The draws of a round. */
  function Draws(uniform: (nat, nat) -> real, round: nat, n: nat): (draws: seq<real>)
    ensures |draws| == n && forall i | 0 <= i < n :: draws[i] == uniform(round, i)
  {
    seq(n, i requires 0 <= i < n => uniform(round, i))
  }

  /** accepted is an outcome of this round: a verified draft, or a token the target can yield. */
  ghost predicate RoundOk(m: Model, context: seq<Token>, proposal: Proposal, uniform: (nat, nat) -> real, round: nat,
      temperature: real, exp: real -> real, accepted: seq<Token>)
  {
    match proposal
    case None =>
      && |context| > 0 && |accepted| == 1
      && var p := ToProbs(m, RefLogits(m, context), temperature, exp);
        accepted[0] < |p| && p[accepted[0]] > 0.0
    case Some((draft, q)) => DraftOk(m, context, draft, q, Draws(uniform, round, |draft|), temperature, exp, accepted)
  }

  /** A round with a draft, up to the end-of-text check: one verification pass, acceptance, and
      the cache moved past the accepted tokens only. */
  method DraftRound(m: Model, cache: StaticKVCache, generated: seq<Token>, pending: seq<real>, draft: seq<Token>,
      q: seq<Weights>, draws: seq<real>, temperature: real, exp: real -> real)
    returns (accepted: seq<Token>)
    requires m.Valid() && ExpOk(m, temperature, exp) && InStep(m, cache, generated, pending)
    requires draft != [] && WellProposed(m, Some((draft, q)), |draft|) && |draws| == |draft| && Uniforms(draws)
    requires |generated| + |draft| < m.blockSize
    modifies cache.k, cache.v, cache.seqLens
    ensures 1 <= |accepted| <= |draft| + 1 && InVocab(m, accepted)
    ensures temperature <= 0.0 ==> IsGreedy(m, generated, accepted)
    ensures DraftOk(m, generated, draft, q, draws, temperature, exp, accepted)
    ensures var done := generated + accepted[..|accepted| - 1];
      cache.Level(|done|) && RowHolds(m, cache.View(), 0, 0, done, |done|)
  {
    hide RowHolds, RefLogits, Verifiable, IsGreedy, WellProposed, ToProbs, TargetRows, DraftOk;
    var rows := VerifyForward(m, cache, draft, |generated|, generated);
    var num;
    accepted, num := AcceptRows(m, [pending] + rows, generated, draft, q, draws, temperature, exp);
    cache.Advance(num);
    AcceptedHold(m, cache.View(), generated, draft, accepted, num);
  }

  /** Turn the rows of logits into the target's distributions and verify the draft against them. */
  method AcceptRows(m: Model, raw: seq<seq<real>>, ghost generated: seq<Token>, draft: seq<Token>, q: seq<Weights>,
      draws: seq<real>, temperature: real, exp: real -> real)
    returns (accepted: seq<Token>, num: nat)
    requires |draws| == |draft| && Uniforms(draws)
    requires m.Valid() && ExpOk(m, temperature, exp) && WellProposed(m, Some((draft, q)), |draft|)
    requires |generated| > 0 && |generated| + |draft| <= m.blockSize && |raw| == |draft| + 1
    requires raw[0] == RefLogits(m, generated)
    requires forall i | 0 <= i < |draft| :: raw[1..][i] == RefLogits(m, generated + draft[..i + 1])
    ensures num <= |draft| && |accepted| == num + 1 && accepted[..num] == draft[..num]
    ensures InVocab(m, accepted)
    ensures temperature <= 0.0 ==> IsGreedy(m, generated, accepted)
    ensures DraftOk(m, generated, draft, q, draws, temperature, exp, accepted)
  {
    hide RefLogits, Verifiable, IsGreedy, Resample, AcceptProb, IsDist, ToProbs;
    var target := seq(|raw|, i requires 0 <= i < |raw| => ToProbs(m, raw[i], temperature, exp));
    assert TargetRows(m, target, generated, draft, temperature, exp) by {
      assert generated + draft[..0] == generated;
      assert forall i | 0 < i < |raw| :: raw[i] == raw[1..][i - 1];
    }
    TargetVerifiable(m, target, generated, draft, q, temperature, exp);
    accepted, num := VerifyAndAccept(target, draft, q, draws);
    if temperature <= 0.0 {
      VerifiedGreedy(m, target, generated, draft, q, temperature, exp, draws, accepted, num);
    }
    assert draft[..num] + [accepted[num]] == accepted;
    assert target == TargetOf(m, generated, draft, temperature, exp);
  }

  /** What the verification pass left behind covers the accepted prefix of the draft. */
  lemma AcceptedHold(m: Model, store: Store, generated: seq<Token>, draft: seq<Token>, accepted: seq<Token>, num: nat)
    requires num <= |draft| && |accepted| == num + 1 && accepted[..num] == draft[..num]
    requires RowHolds(m, store, 0, 0, generated + draft, |generated| + |draft|)
    ensures var done := generated + accepted[..num]; RowHolds(m, store, 0, 0, done, |done|)
  {
    hide RowHolds;
    var done := generated + accepted[..num];
    RowHoldsFewer(m, store, 0, 0, generated + draft, |generated| + |draft|, |done|);
    assert (generated + draft)[..|done|] == done == done[..|done|];
    RowHoldsAgree(m, store, 0, 0, generated + draft, done, |done|);
  }

  lemma OneGreedy(m: Model, generated: seq<Token>, next: Token, temperature: real)
    requires 0 < |generated| <= m.blockSize && (temperature <= 0.0 ==> next == Next(m, generated))
    ensures temperature <= 0.0 ==> IsGreedy(m, generated, [next])
  {
    hide Next;
    assert generated + [next][..0] == generated;
  }

  /** A round: a verified draft, or one sampled token when there is no allowance or no proposal. */
  method Round(m: Model, cache: StaticKVCache, generated: seq<Token>, pending: seq<real>, proposal: Proposal,
      ghost g: nat, uniform: (nat, nat) -> real, round: nat, temperature: real, exp: real -> real)
    returns (accepted: seq<Token>)
    requires m.Valid() && ExpOk(m, temperature, exp) && InStep(m, cache, generated, pending)
    requires WellProposed(m, proposal, g) && |generated| + g < m.blockSize && UniformOk(uniform)
    modifies cache.k, cache.v, cache.seqLens
    ensures 1 <= |accepted| <= g + 1 && InVocab(m, accepted)
    ensures temperature <= 0.0 ==> IsGreedy(m, generated, accepted)
    ensures RoundOk(m, generated, proposal, uniform, round, temperature, exp, accepted)
    ensures var done := generated + accepted[..|accepted| - 1];
      && cache.Valid() && cache.rows == 1 && cache.nLayer == m.nLayer && cache.width == m.blockSize
      && cache.Level(|done|) && RowHolds(m, cache.View(), 0, 0, done, |done|)
  {
    hide RowHolds, RefLogits, IsGreedy, DraftOk, ToProbs;
    match proposal
    case None =>
      var next := SamplePending(m, pending, temperature, exp, generated);
      accepted := [next];
      OneGreedy(m, generated, next, temperature);
      assert generated + accepted[..0] == generated;
    case Some((draft, q)) =>
      accepted := DraftRound(m, cache, generated, pending, draft, q, Draws(uniform, round, |draft|), temperature, exp);
  }

  // ----- the loop

  /** A round's tokens up to and including the first end-of-text. */
  function CutAtEnd(tokens: seq<Token>, eot: Option<Token>): (cut: seq<Token>)
    ensures cut <= tokens && (tokens != [] ==> cut != [])
    ensures forall i | 0 <= i < |cut| - 1 :: Some(cut[i]) != eot
    ensures cut == tokens || Ended(cut, eot)
    ensures Ended(cut, eot) <==> exists i | 0 <= i < |tokens| :: Some(tokens[i]) == eot
    decreases |tokens|
  {
    if tokens == [] then []
    else if Some(tokens[0]) == eot then [tokens[0]]
    else
      var rest := CutAtEnd(tokens[1..], eot);
      assert rest <= tokens[1..] && tokens == [tokens[0]] + tokens[1..];
      assert forall i | 0 < i < |tokens| :: tokens[i] == tokens[1..][i - 1];
      [tokens[0]] + rest
  }

  /** The output so far: vocabulary tokens with end-of-text at most last, greedy at temperature zero. */
  ghost predicate Sound(m: Model, prompt: seq<Token>, out: seq<Token>, eot: Option<Token>, temperature: real)
    requires |prompt| > 0 && m.blockSize > 0
  {
    && InVocab(m, out)
    && (forall i | 0 <= i < |out| - 1 :: Some(out[i]) != eot)
    && (temperature <= 0.0 ==> IsGreedy(m, prompt, out))
  }

  lemma SoundExtend(m: Model, prompt: seq<Token>, out: seq<Token>, more: seq<Token>, eot: Option<Token>,
      temperature: real)
    requires |prompt| > 0 && m.blockSize > 0
    requires Sound(m, prompt, out, eot, temperature) && !Ended(out, eot)
    requires InVocab(m, more) && (temperature <= 0.0 ==> IsGreedy(m, prompt + out, more))
    ensures Sound(m, prompt, out + CutAtEnd(more, eot), eot, temperature)
  {
    hide IsGreedy;
    var cut := CutAtEnd(more, eot);
    var all := out + cut;
    forall i | 0 <= i < |all| - 1 ensures Some(all[i]) != eot {
      if i >= |out| {
        assert all[i] == cut[i - |out|];
      }
    }
    if temperature <= 0.0 {
      IsGreedyPrefix(m, prompt + out, more, |cut|);
      assert more[..|cut|] == cut;
      IsGreedyAppend(m, prompt, out, cut);
    }
  }

  lemma CutEnds(toks: seq<Token>, tokens: seq<Token>, eot: Option<Token>)
    requires tokens != []
    ensures var cut := CutAtEnd(tokens, eot);
      && (Ended(toks + cut, eot) <==> eot == Some(cut[|cut| - 1]))
      && (Ended(toks + cut, eot) || cut == tokens)
  {
  }

  lemma SoundStart(m: Model, prompt: seq<Token>, eot: Option<Token>, temperature: real)
    requires |prompt| > 0 && m.blockSize > 0
    ensures Sound(m, prompt, [], eot, temperature) && !Ended([], eot)
  {
  }

  lemma SoundVocab(m: Model, prompt: seq<Token>, out: seq<Token>, eot: Option<Token>, temperature: real)
    requires |prompt| > 0 && m.blockSize > 0 && InVocab(m, prompt) && Sound(m, prompt, out, eot, temperature)
    ensures InVocab(m, prompt + out)
  {
  }

  lemma SoundEnd(m: Model, prompt: seq<Token>, out: seq<Token>, maxNew: nat, eot: Option<Token>, temperature: real)
    requires |prompt| > 0 && m.blockSize > 0 && Sound(m, prompt, out, eot, temperature)
    requires |out| <= maxNew && (|out| == maxNew || Ended(out, eot))
    ensures InVocab(m, out) && forall i | 0 <= i < |out| - 1 :: Some(out[i]) != eot
    ensures temperature <= 0.0 ==> out == GreedyUntil(m, prompt, maxNew, eot)
  {
    hide IsGreedy;
    if temperature <= 0.0 {
      GreedyUntilUnique(m, prompt, out, maxNew, eot);
    }
  }

  lemma ProposalFits(m: Model, propose: Drafter, proposal: Proposal, round: nat, context: seq<Token>, g: nat)
    requires DrafterOk(m, propose) && InVocab(m, context)
    requires proposal == Proposed(propose, round, context, g)
    ensures WellProposed(m, proposal, g)
  {
  }

  /** Feed the one confirmed token the verification pass did not write: the cache and the pending
      logits are in step again. */
  method FeedLast(m: Model, cache: StaticKVCache, token: Token, ghost done: seq<Token>) returns (pending: seq<real>)
    requires cache.Valid() && cache.rows == 1 && cache.nLayer == m.nLayer && cache.width == m.blockSize
    requires cache.Level(|done|) && |done| < m.blockSize && RowHolds(m, cache.View(), 0, 0, done, |done|)
    modifies cache.k, cache.v, cache.seqLens
    ensures InStep(m, cache, done + [token], pending)
  {
    hide RowHolds, RefLogits;
    pending := AdvanceOneStep(m, cache, token, cache.seqLens[0], done);
  }

  /** A cache of one row, and the prompt in one causal pass. */
  method Prefill(m: Model, prompt: seq<Token>) returns (cache: StaticKVCache, pending: seq<real>)
    requires 0 < |prompt| <= m.blockSize
    ensures fresh(cache) && fresh(cache.k) && fresh(cache.v) && fresh(cache.seqLens)
    ensures InStep(m, cache, prompt, pending)
  {
    hide Hidden;
    cache := new StaticKVCache(m.nLayer, 1, m.blockSize);
    var states := ForwardRow(m, prompt, 0, None, cache, []);
    assert [] + prompt == prompt;
    pending := m.head(states[|states| - 1]);
    cache.Advance(|prompt|);
  }

  /** As many draft tokens as gamma and the budget allow, leaving room for one token of the target's
      own. */
  function Allowance(gamma: int, remaining: nat): (g: nat)
    requires remaining > 0
    ensures g < remaining && (g > 0 ==> g <= gamma)
    ensures g + 1 == remaining || g >= gamma
  {
    var room := remaining - 1;
    if gamma < 0 then 0 else if gamma < room then gamma else room
  }

  /** What the rounds of a run put out. */
  function Output(trace: seq<seq<Token>>, eot: Option<Token>): seq<Token> {
    if trace == [] then [] else Output(trace[..|trace| - 1], eot) + CutAtEnd(trace[|trace| - 1], eot)
  }

  /** Each round of the run was offered the drafter's proposal for the context it started from and
      the allowance the budget left it, and had an outcome of that. */
  ghost predicate TraceOk(m: Model, propose: Drafter, prompt: seq<Token>, maxNew: nat, gamma: int,
      uniform: (nat, nat) -> real,
      temperature: real, exp: real -> real, eot: Option<Token>, trace: seq<seq<Token>>)
  {
    forall k | 0 <= k < |trace| ::
      var out := Output(trace[..k], eot);
      && |out| < maxNew
      && var proposal := Proposed(propose, k, prompt + out, Allowance(gamma, maxNew - |out|));
         RoundOk(m, prompt + out, proposal, uniform, k, temperature, exp, trace[k])
  }

  /** No allowance, no proposal. */
  function Proposed(propose: Drafter, round: nat, context: seq<Token>, g: nat): Proposal {
    if g > 0 then propose(round, context, g) else None
  }

  lemma TraceExtend(m: Model, propose: Drafter, prompt: seq<Token>, maxNew: nat, gamma: int,
      uniform: (nat, nat) -> real,
      temperature: real, exp: real -> real, eot: Option<Token>, trace: seq<seq<Token>>, accepted: seq<Token>)
    requires TraceOk(m, propose, prompt, maxNew, gamma, uniform, temperature, exp, eot, trace)
    requires var out := Output(trace, eot);
      && |out| < maxNew
      && var proposal := Proposed(propose, |trace|, prompt + out, Allowance(gamma, maxNew - |out|));
         RoundOk(m, prompt + out, proposal, uniform, |trace|, temperature, exp, accepted)
    ensures TraceOk(m, propose, prompt, maxNew, gamma, uniform, temperature, exp, eot, trace + [accepted])
    ensures Output(trace + [accepted], eot) == Output(trace, eot) + CutAtEnd(accepted, eot)
  {
    hide RoundOk, Output, CutAtEnd;
    var all := trace + [accepted];
    assert all[..|trace|] == trace;
    forall k | 0 <= k < |all| ensures
      var out := Output(all[..k], eot);
      && |out| < maxNew
      && var proposal := Proposed(propose, k, prompt + out, Allowance(gamma, maxNew - |out|));
         RoundOk(m, prompt + out, proposal, uniform, k, temperature, exp, all[k])
    {
      if k < |trace| {
        assert all[..k] == trace[..k];
      }
    }
    OutputSnoc(trace, accepted, eot);
  }

  lemma OutputSnoc(trace: seq<seq<Token>>, accepted: seq<Token>, eot: Option<Token>)
    ensures Output(trace + [accepted], eot) == Output(trace, eot) + CutAtEnd(accepted, eot)
  {
    assert (trace + [accepted])[..|trace|] == trace;
  }

  lemma TraceEmpty(m: Model, propose: Drafter, prompt: seq<Token>, maxNew: nat, gamma: int, uniform: (nat, nat) -> real,
      temperature: real, exp: real -> real, eot: Option<Token>)
    ensures TraceOk(m, propose, prompt, maxNew, gamma, uniform, temperature, exp, eot, []) && Output([], eot) == []
  {
  }

  /** Generate up to maxNew tokens with drafts verified in parallel.  At temperature zero the
      result is the reference's, for every drafter, every draft length and every draw. */
  method SpeculativeGenerate(m: Model, propose: Drafter, prompt: seq<Token>, maxNew: nat, gamma: int,
      uniform: (nat, nat) -> real, temperature: real, exp: real -> real, eot: Option<Token>)
    returns (tokens: seq<Token>, ghost trace: seq<seq<Token>>)
    requires m.Valid() && ExpOk(m, temperature, exp) && DrafterOk(m, propose) && UniformOk(uniform)
    requires prompt != [] && InVocab(m, prompt) && |prompt| + maxNew <= m.blockSize
    ensures |tokens| <= maxNew && InVocab(m, tokens)
    ensures forall i | 0 <= i < |tokens| - 1 :: Some(tokens[i]) != eot
    ensures |tokens| == maxNew || Ended(tokens, eot)
    ensures temperature <= 0.0 ==> tokens == GreedyUntil(m, prompt, maxNew, eot)
    ensures tokens == Output(trace, eot)
    ensures TraceOk(m, propose, prompt, maxNew, gamma, uniform, temperature, exp, eot, trace)
  {
    hide *;
    var cache, pending := Prefill(m, prompt);
    var generated := prompt;
    ghost var out: seq<Token> := [];
    var finished := false;
    var round := 0;
    SoundStart(m, prompt, eot, temperature);
    TraceEmpty(m, propose, prompt, maxNew, gamma, uniform, temperature, exp, eot);
    trace := [];
    while |generated| - |prompt| < maxNew && !finished
      invariant fresh(cache) && fresh(cache.k) && fresh(cache.v) && fresh(cache.seqLens)
      invariant generated == prompt + out && |out| <= maxNew
      invariant Sound(m, prompt, out, eot, temperature)
      invariant out == Output(trace, eot) && |trace| == round
      invariant TraceOk(m, propose, prompt, maxNew, gamma, uniform, temperature, exp, eot, trace)
      invariant finished <==> Ended(out, eot)
      invariant !finished ==> InStep(m, cache, generated, pending)
      decreases maxNew - |out|
    {
      var remaining := maxNew - (|generated| - |prompt|);
      var g := Allowance(gamma, remaining);
      SoundVocab(m, prompt, out, eot, temperature);
      var proposal := Proposed(propose, round, generated, g);
      ProposalFits(m, propose, proposal, round, generated, g);
      var accepted := Round(m, cache, generated, pending, proposal, g, uniform, round, temperature, exp);
      SoundExtend(m, prompt, out, accepted, eot, temperature);
      var cut := CutAtEnd(accepted, eot);
      ghost var before := generated + accepted[..|accepted| - 1];
      CutEnds(out, accepted, eot);
      TraceExtend(m, propose, prompt, maxNew, gamma, uniform, temperature, exp, eot, trace, accepted);
      trace := trace + [accepted];
      generated := generated + cut;
      out := out + cut;
      round := round + 1;
      finished := eot == Some(cut[|cut| - 1]);
      if !finished {
        assert before + [accepted[|accepted| - 1]] == generated;
        pending := FeedLast(m, cache, accepted[|accepted| - 1], before);
      }
    }
    tokens := generated[|prompt|..if |prompt| + maxNew < |generated| then |prompt| + maxNew else |generated|];
    assert tokens == out;
    SoundEnd(m, prompt, out, maxNew, eot, temperature);
  }
}
