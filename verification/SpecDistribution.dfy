/** The law of speculative sampling: summed over every draft and every acceptance draw, the loop
    returns each output with exactly the probability target sampling gives it. */
module SpecDistribution {
  import opened Wrappers
  import opened Transformer
  import opened SpecDecode
  import opened Speculative
  import opened Exponential

  // ----- sums of finite families

  lemma {:induction false} SumLinear(f: Weights, g: Weights, h: Weights, a: real, b: real)
    requires |f| == |g| == |h| && forall i | 0 <= i < |h| :: h[i] == a * f[i] + b * g[i]
    ensures Sum(h) == a * Sum(f) + b * Sum(g)
  {
    if h != [] {
      var n := |h| - 1;
      SumLinear(f[..n], g[..n], h[..n], a, b);
      Distribute(a, Sum(f[..n]), f[n]);
      Distribute(b, Sum(g[..n]), g[n]);
    }
  }

  lemma Distribute(a: real, x: real, y: real)
    ensures a * (x + y) == a * x + a * y
  {
  }

  /** The part of the target the draft already covers. */
  function Overlap(p: Weights, q: Weights): (o: Weights)
    requires |p| == |q|
    ensures |o| == |p| && forall i | 0 <= i < |p| :: o[i] == if p[i] < q[i] then p[i] else q[i]
  {
    seq(|p|, i requires 0 <= i < |p| => if p[i] < q[i] then p[i] else q[i])
  }

  /** Probability of drafting a token and having it rejected. */
  function Rejected(p: Weights, q: Weights): (r: Weights)
    requires |p| == |q|
    ensures |r| == |p| && forall i | 0 <= i < |p| :: r[i] == q[i] * (1.0 - AcceptProb(p[i], q[i]))
  {
    seq(|p|, i requires 0 <= i < |p| => q[i] * (1.0 - AcceptProb(p[i], q[i])))
  }

  lemma AcceptedMass(p: real, q: real)
    requires p >= 0.0 && q >= 0.0
    ensures q * AcceptProb(p, q) == if p < q then p else q
    ensures q * (1.0 - AcceptProb(p, q)) == q - (if p < q then p else q)
  {
    if q > 0.0 {
      assert q * (p / q) == p;
    }
    assert q * (1.0 - AcceptProb(p, q)) == q - q * AcceptProb(p, q);
  }

  /** One position: accept the draft or draw a correction, and the token has the target's law. */
  lemma PositionPreserved(p: Weights, q: Weights, y: nat)
    requires |p| == |q| && IsDist(p) && IsDist(q) && y < |p|
    ensures q[y] * AcceptProb(p[y], q[y]) + Sum(Rejected(p, q)) * Resample(p, q)[y] == p[y]
  {
    hide AcceptProb, Sum;
    var o, r := Overlap(p, q), Residual(p, q);
    forall i | 0 <= i < |p|
      ensures Rejected(p, q)[i] == 1.0 * q[i] + (-1.0) * o[i] && r[i] == 1.0 * p[i] + (-1.0) * o[i]
    {
      AcceptedMass(p[i], q[i]);
    }
    SumLinear(q, o, Rejected(p, q), 1.0, -1.0);
    SumLinear(p, o, r, 1.0, -1.0);
    SumNonNegative(r);
    AcceptedMass(p[y], q[y]);
    if Sum(r) > 0.0 {
      assert Sum(r) * (r[y] / Sum(r)) == r[y];
    }
  }

  // ----- the process

  /** `target` is the target's distribution after a context.  `draft` is the drafter: from the
      context a round starts at, what it has drafted and its allowance, the distribution of the
      next draft token, or None when it stops there (at once: no proposal).  Generation ends with
      `eot` where there is one. */
  datatype Sampler = Sampler(
    vocab: nat,
    target: seq<Token> -> Weights,
    draft: (seq<Token>, seq<Token>, nat) -> Option<Weights>,
    gamma: int,
    eot: Option<Token>)
  {
    ghost predicate Valid() {
      && (forall c :: |target(c)| == vocab && IsDist(target(c)))
      && (forall c, d, g :: draft(c, d, g).Some? ==> |draft(c, d, g).value| == vocab && IsDist(draft(c, d, g).value))
    }
  }

  predicate Within(s: Sampler, y: seq<Token>) {
    forall i | 0 <= i < |y| :: y[i] < s.vocab
  }

  /** d is a draft the drafter can have produced so far. */
  ghost predicate Drafted(s: Sampler, ctx: seq<Token>, g: nat, d: seq<Token>) {
    |d| <= g && Within(s, d) && forall k | 0 <= k < |d| :: s.draft(ctx, d[..k], g).Some?
  }

  lemma DraftedExtend(s: Sampler, ctx: seq<Token>, g: nat, d: seq<Token>, x: Token)
    requires Drafted(s, ctx, g, d) && |d| < g && x < s.vocab && s.draft(ctx, d, g).Some?
    ensures Drafted(s, ctx, g, d + [x]) && forall i | 0 <= i <= |d| :: (d + [x])[..i] == d[..i]
  {
    forall k | 0 <= k < |d + [x]| ensures s.draft(ctx, (d + [x])[..k], g).Some? {
      assert (d + [x])[..k] == d[..k];
      assert k == |d| ==> d[..k] == d;
    }
  }

  /** Probability that target sampling continues ctx with y. */
  ghost function TargetProb(s: Sampler, ctx: seq<Token>, y: seq<Token>): real
    requires s.Valid() && Within(s, y)
    decreases |y|
  {
    if y == [] then 1.0 else s.target(ctx)[y[0]] * TargetProb(s, ctx + [y[0]], y[1..])
  }

  /** y is an output of a loop with n tokens to go: the budget used up, or ended by the first
      end-of-text. */
  ghost predicate Whole(s: Sampler, n: nat, y: seq<Token>) {
    && |y| <= n && (forall i | 0 <= i < |y| - 1 :: Some(y[i]) != s.eot)
    && (|y| == n || Ended(y, s.eot))
  }

  /** Probability that target sampling with n tokens to go returns y. */
  ghost function SampleProb(s: Sampler, ctx: seq<Token>, n: nat, y: seq<Token>): real
    requires s.Valid() && Within(s, y)
    decreases |y|, 1
  {
    if n == 0 || y == [] then (if n == 0 && y == [] then 1.0 else 0.0)
    else s.target(ctx)[y[0]] * SampleRest(s, ctx, n, y, 1)
  }

  /** The same once the first k tokens of y are out. */
  ghost function SampleRest(s: Sampler, ctx: seq<Token>, n: nat, y: seq<Token>, k: nat): real
    requires s.Valid() && Within(s, y) && 0 < k <= |y| && k <= n
    decreases |y|, 0
  {
    if Ended(y[..k], s.eot) then (if k == |y| then 1.0 else 0.0)
    else SampleProb(s, ctx + y[..k], n - k, y[k..])
  }

  /** Probability that the loop, with n tokens to go, returns y. */
  ghost function LoopProb(s: Sampler, ctx: seq<Token>, n: nat, y: seq<Token>): real
    requires s.Valid() && Within(s, y)
    decreases |y|, 3
  {
    if n == 0 || y == [] then (if n == 0 && y == [] then 1.0 else 0.0)
    else DraftProb(s, ctx, n, y, Allowance(s.gamma, n), [], 0)
  }

  /** The same from inside a round that has drafted d, counting only what verification does from
      position i on: average over what the drafter adds to d, then verify. */
  ghost function DraftProb(s: Sampler, ctx: seq<Token>, n: nat, y: seq<Token>, g: nat, d: seq<Token>, i: nat): real
    requires s.Valid() && Within(s, y) && y != [] && g < n
    requires Drafted(s, ctx, g, d) && i <= |d| && i <= |y| && d[..i] == y[..i]
    decreases |y|, 2, g - |d|, 1
  {
    var q := s.draft(ctx, d, g);
    if |d| == g || q.None? then VerifyProb(s, ctx, n, y, g, d, i)
    else Sum(Branches(s, ctx, n, y, g, d, i))
  }

  ghost function Branches(s: Sampler, ctx: seq<Token>, n: nat, y: seq<Token>, g: nat, d: seq<Token>,
      i: nat): (w: Weights)
    requires s.Valid() && Within(s, y) && y != [] && g < n
    requires Drafted(s, ctx, g, d) && |d| < g && i <= |d| && i <= |y| && d[..i] == y[..i]
    requires s.draft(ctx, d, g).Some?
    ensures |w| == s.vocab
    decreases |y|, 2, g - |d|, 0
  {
    var q := s.draft(ctx, d, g).value;
    seq(s.vocab, x requires 0 <= x < s.vocab =>
      DraftedExtend(s, ctx, g, d, x);
      q[x] * DraftProb(s, ctx, n, y, g, d + [x], i))
  }

  /** With the first i tokens of y out, in the middle of a round, it is settled whether y is returned:
      they end with end-of-text, where the round is cut, or they are all of y and more follows. */
  ghost predicate Settled(s: Sampler, y: seq<Token>, i: nat)
    requires i <= |y|
  {
    i == |y| || Ended(y[..i], s.eot)
  }

  ghost function Verdict(s: Sampler, y: seq<Token>, i: nat): real
    requires i <= |y|
  {
    if i == |y| && Ended(y, s.eot) then 1.0 else 0.0
  }

  /** The verification of a finished draft d from position i on, its first i tokens accepted. */
  ghost function VerifyProb(s: Sampler, ctx: seq<Token>, n: nat, y: seq<Token>, g: nat, d: seq<Token>, i: nat): real
    requires s.Valid() && Within(s, y) && y != [] && g < n
    requires Drafted(s, ctx, g, d) && i <= |d| && i <= |y| && d[..i] == y[..i]
    decreases |y|, 1, |d| - i
  {
    if Settled(s, y, i) then Verdict(s, y, i)
    else if i == |d| then s.target(ctx + y[..i])[y[i]] * Rest(s, ctx, n, y, i + 1)
    else
      Hit(s, ctx, g, d, y, i) * (if d[i] == y[i] then VerifyProb(s, ctx, n, y, g, d, i + 1) else 0.0)
      + Miss(s, ctx, g, d, y, i) * Rest(s, ctx, n, y, i + 1)
  }

  /** The rounds after this one, which has put out the first k tokens of y. */
  ghost function Rest(s: Sampler, ctx: seq<Token>, n: nat, y: seq<Token>, k: nat): real
    requires s.Valid() && Within(s, y) && 0 < k <= |y| && k <= n
    decreases |y|, 0
  {
    if Ended(y[..k], s.eot) then (if k == |y| then 1.0 else 0.0)
    else LoopProb(s, ctx + y[..k], n - k, y[k..])
  }

  /** Probability that draft token i is accepted. */
  ghost function Hit(s: Sampler, ctx: seq<Token>, g: nat, d: seq<Token>, y: seq<Token>, i: nat): real
    requires s.Valid() && Drafted(s, ctx, g, d) && i < |d| && i <= |y| && d[..i] == y[..i]
  {
    AcceptProb(s.target(ctx + y[..i])[d[i]], s.draft(ctx, d[..i], g).value[d[i]])
  }

  /** Probability that it is rejected and y's token drawn in its place. */
  ghost function Miss(s: Sampler, ctx: seq<Token>, g: nat, d: seq<Token>, y: seq<Token>, i: nat): real
    requires s.Valid() && Within(s, y) && Drafted(s, ctx, g, d) && i < |d| && i < |y| && d[..i] == y[..i]
  {
    (1.0 - Hit(s, ctx, g, d, y, i)) * Resample(s.target(ctx + y[..i]), s.draft(ctx, d[..i], g).value)[y[i]]
  }

  // ----- the theorem

  /** Target sampling puts its probability on whole outputs, as the product of its choices. */
  lemma {:induction false} SampleWhole(s: Sampler, ctx: seq<Token>, n: nat, y: seq<Token>)
    requires s.Valid() && Within(s, y)
    ensures SampleProb(s, ctx, n, y) == if Whole(s, n, y) then TargetProb(s, ctx, y) else 0.0
    decreases |y|
  {
    if n > 0 && y != [] {
      var rest := y[1..];
      assert y[..1] == [y[0]] && y == [y[0]] + rest;
      SampleWhole(s, ctx + [y[0]], n - 1, rest);
      WholeStep(s, n, y);
    }
  }

  lemma WholeStep(s: Sampler, n: nat, y: seq<Token>)
    requires n > 0 && y != []
    ensures Whole(s, n, y) <==> if Some(y[0]) == s.eot then |y| == 1 else Whole(s, n - 1, y[1..])
    ensures Some(y[0]) == s.eot && |y| == 1 ==> y[1..] == []
  {
    var rest := y[1..];
    assert forall i | 0 <= i < |rest| :: rest[i] == y[i + 1];
    if Some(y[0]) != s.eot && |y| > 1 {
      assert rest[|rest| - 1] == y[|y| - 1];
      if Whole(s, n - 1, rest) {
        forall i | 0 <= i < |y| - 1 ensures Some(y[i]) != s.eot {
          assert i > 0 ==> y[i] == rest[i - 1];
        }
      }
    }
  }

  /** One more token of y by target sampling. */
  lemma SampleStep(s: Sampler, ctx: seq<Token>, n: nat, y: seq<Token>, k: nat)
    requires s.Valid() && Within(s, y) && k < |y| && k < n
    ensures SampleProb(s, ctx + y[..k], n - k, y[k..]) == s.target(ctx + y[..k])[y[k]] * SampleRest(s, ctx, n, y, k + 1)
  {
    var z := y[k..];
    assert z[..1] == [y[k]] && z[1..] == y[k + 1..];
    assert ctx + y[..k] + [y[k]] == ctx + y[..k + 1];
    assert y[..k + 1][k] == y[k];
  }

  /** Once it is settled whether y is returned, nothing that is still drafted or verified matters. */
  lemma {:induction false} DraftSettled(s: Sampler, ctx: seq<Token>, n: nat, y: seq<Token>, g: nat, d: seq<Token>,
      i: nat)
    requires s.Valid() && Within(s, y) && y != [] && g < n
    requires Drafted(s, ctx, g, d) && i <= |y| && i <= |d| && d[..i] == y[..i] && Settled(s, y, i)
    ensures DraftProb(s, ctx, n, y, g, d, i) == Verdict(s, y, i)
    decreases g - |d|
  {
    hide Settled, Verdict;
    var q := s.draft(ctx, d, g);
    if |d| < g && q.Some? {
      var b := Branches(s, ctx, n, y, g, d, i);
      var v := Verdict(s, y, i);
      forall x | 0 <= x < s.vocab ensures b[x] == v * q.value[x] + 0.0 * q.value[x] {
        DraftedExtend(s, ctx, g, d, x);
        DraftSettled(s, ctx, n, y, g, d + [x], i);
      }
      SumLinear(q.value, q.value, b, v, 0.0);
    }
  }

  /** What follows when draft token i is accepted: nothing unless it is y's. */
  ghost function After(s: Sampler, ctx: seq<Token>, n: nat, y: seq<Token>, g: nat, d: seq<Token>, i: nat): real
    requires s.Valid() && Within(s, y) && y != [] && g < n
    requires Drafted(s, ctx, g, d) && i < |d| && i < |y| && d[..i] == y[..i]
  {
    if d[i] == y[i] then (assert d[..i + 1] == y[..i + 1]; DraftProb(s, ctx, n, y, g, d, i + 1)) else 0.0
  }

  predicate DraftsOn(s: Sampler, ctx: seq<Token>, g: nat, d: seq<Token>) {
    |d| < g && s.draft(ctx, d, g).Some?
  }

  /** Averaging over the next draft token. */
  lemma AfterAverage(s: Sampler, ctx: seq<Token>, n: nat, y: seq<Token>, g: nat, d: seq<Token>, i: nat)
    returns (f: Weights)
    requires s.Valid() && Within(s, y) && y != [] && g < n
    requires Drafted(s, ctx, g, d) && i < |d| && i < |y| && d[..i] == y[..i] && DraftsOn(s, ctx, g, d)
    ensures |f| == s.vocab && Sum(f) == After(s, ctx, n, y, g, d, i)
    ensures forall x | 0 <= x < s.vocab ::
      && Drafted(s, ctx, g, d + [x]) && (d + [x])[..i] == d[..i]
      && f[x] == s.draft(ctx, d, g).value[x] * After(s, ctx, n, y, g, d + [x], i)
  {
    hide VerifyProb, LoopProb, Drafted;
    forall x | 0 <= x < s.vocab ensures Drafted(s, ctx, g, d + [x]) && (d + [x])[..i] == d[..i] {
      DraftedExtend(s, ctx, g, d, x);
    }
    if d[i] == y[i] {
      assert d[..i + 1] == y[..i + 1];
      f := Branches(s, ctx, n, y, g, d, i + 1);
    } else {
      f := seq(s.vocab, x => 0.0);
      SumZero(f);
    }
  }

  lemma DraftAverage(s: Sampler, ctx: seq<Token>, n: nat, y: seq<Token>, g: nat, d: seq<Token>, i: nat)
    returns (b: Weights)
    requires s.Valid() && Within(s, y) && y != [] && g < n
    requires Drafted(s, ctx, g, d) && i <= |d| && i <= |y| && d[..i] == y[..i] && DraftsOn(s, ctx, g, d)
    ensures |b| == s.vocab && Sum(b) == DraftProb(s, ctx, n, y, g, d, i)
    ensures forall x | 0 <= x < s.vocab ::
      && Drafted(s, ctx, g, d + [x]) && (d + [x])[..i] == d[..i]
      && b[x] == s.draft(ctx, d, g).value[x] * DraftProb(s, ctx, n, y, g, d + [x], i)
  {
    hide VerifyProb, LoopProb, Drafted;
    forall x | 0 <= x < s.vocab ensures Drafted(s, ctx, g, d + [x]) && (d + [x])[..i] == d[..i] {
      DraftedExtend(s, ctx, g, d, x);
    }
    b := Branches(s, ctx, n, y, g, d, i);
  }

  /** What becomes of draft token i does not depend on what is drafted after it. */
  lemma {:induction false} DraftPosition(s: Sampler, ctx: seq<Token>, n: nat, y: seq<Token>, g: nat, d: seq<Token>,
      i: nat)
    requires s.Valid() && Within(s, y) && y != [] && g < n
    requires Drafted(s, ctx, g, d) && i < |d| && i < |y| && d[..i] == y[..i] && !Settled(s, y, i)
    ensures DraftProb(s, ctx, n, y, g, d, i) ==
      Hit(s, ctx, g, d, y, i) * After(s, ctx, n, y, g, d, i) + Miss(s, ctx, g, d, y, i) * Rest(s, ctx, n, y, i + 1)
    decreases g - |d|
  {
    hide Hit, Miss, Rest, After, DraftProb, Branches, VerifyProb, LoopProb, Drafted, Sum, Within, Settled;
    DraftBound(s, ctx, g, d);
    var hit, miss := Hit(s, ctx, g, d, y, i), Miss(s, ctx, g, d, y, i) * Rest(s, ctx, n, y, i + 1);
    if DraftsOn(s, ctx, g, d) {
      var q := s.draft(ctx, d, g).value;
      var b := DraftAverage(s, ctx, n, y, g, d, i);
      var f := AfterAverage(s, ctx, n, y, g, d, i);
      forall x | 0 <= x < s.vocab ensures b[x] == hit * f[x] + miss * q[x] {
        DraftPosition(s, ctx, n, y, g, d + [x], i);
        SamePosition(s, ctx, g, d, x, y, i);
        Regroup(q[x], hit, After(s, ctx, n, y, g, d + [x], i), miss);
      }
      DraftDist(s, ctx, d, g);
      SumLinear(f, q, b, hit, miss);
    } else {
      DraftDone(s, ctx, n, y, g, d, i);
    }
  }

  lemma DraftDist(s: Sampler, ctx: seq<Token>, d: seq<Token>, g: nat)
    requires s.Valid() && s.draft(ctx, d, g).Some?
    ensures |s.draft(ctx, d, g).value| == s.vocab && IsDist(s.draft(ctx, d, g).value)
    ensures Sum(s.draft(ctx, d, g).value) == 1.0
  {
  }

  /** A draft that is finished is verified from position i. */
  lemma DraftDone(s: Sampler, ctx: seq<Token>, n: nat, y: seq<Token>, g: nat, d: seq<Token>, i: nat)
    requires s.Valid() && Within(s, y) && y != [] && g < n
    requires Drafted(s, ctx, g, d) && i < |d| && i < |y| && d[..i] == y[..i]
    requires !Settled(s, y, i) && !DraftsOn(s, ctx, g, d)
    ensures DraftProb(s, ctx, n, y, g, d, i) ==
      Hit(s, ctx, g, d, y, i) * After(s, ctx, n, y, g, d, i) + Miss(s, ctx, g, d, y, i) * Rest(s, ctx, n, y, i + 1)
  {
    hide Hit, Miss, Rest, Within;
    if d[i] == y[i] {
      assert d[..i + 1] == y[..i + 1];
    }
  }

  lemma Regroup(q: real, a: real, f: real, c: real)
    ensures q * (a * f + c) == a * (q * f) + c * q
  {
  }

  lemma SamePosition(s: Sampler, ctx: seq<Token>, g: nat, d: seq<Token>, x: Token, y: seq<Token>, i: nat)
    requires s.Valid() && Within(s, y) && Drafted(s, ctx, g, d) && Drafted(s, ctx, g, d + [x])
    requires i < |d| && i < |y| && d[..i] == y[..i] && (d + [x])[..i] == d[..i]
    ensures (d + [x])[i] == d[i]
    ensures Hit(s, ctx, g, d + [x], y, i) == Hit(s, ctx, g, d, y, i)
    ensures Miss(s, ctx, g, d + [x], y, i) == Miss(s, ctx, g, d, y, i)
  {
    hide AcceptProb, Resample;
  }

  /** The branch of a round that drafts x next, against the target's own step. */
  lemma BranchExact(s: Sampler, ctx: seq<Token>, n: nat, y: seq<Token>, g: nat, d: seq<Token>, x: Token, t: real)
    requires s.Valid() && Within(s, y) && y != [] && g < n
    requires Drafted(s, ctx, g, d) && |d| < |y| && d == y[..|d|] && DraftsOn(s, ctx, g, d) && x < s.vocab
    requires Drafted(s, ctx, g, d + [x]) && (d + [x])[..|d|] == d && !Settled(s, y, |d|)
    requires Rest(s, ctx, n, y, |d| + 1) == t
    requires x == y[|d|] ==> (d + [x])[..|d| + 1] == y[..|d| + 1] && DraftProb(s, ctx, n, y, g, d + [x], |d| + 1) == t
    ensures var p, q := s.target(ctx + y[..|d|]), s.draft(ctx, d, g).value;
      q[x] * DraftProb(s, ctx, n, y, g, d + [x], |d|) ==
        t * (if x == y[|d|] then q[x] * AcceptProb(p[x], q[x]) else 0.0)
        + t * Resample(p, q)[y[|d|]] * Rejected(p, q)[x]
  {
    hide DraftProb, Branches, VerifyProb, LoopProb, Rest, AcceptProb, Resample, Sum, Drafted;
    var i := |d|;
    var p, q := s.target(ctx + y[..i]), s.draft(ctx, d, g).value;
    DraftDist(s, ctx, d, g);
    assert IsDist(p);
    DraftPosition(s, ctx, n, y, g, d + [x], i);
    assert (d + [x])[i] == x;
    var a, r := AcceptProb(p[x], q[x]), Resample(p, q)[y[i]];
    assert After(s, ctx, n, y, g, d + [x], i) == if x == y[i] then t else 0.0;
    assert Hit(s, ctx, g, d + [x], y, i) == a && Miss(s, ctx, g, d + [x], y, i) == (1.0 - a) * r;
    Factor(q[x], a, r, t, if x == y[i] then 1.0 else 0.0);
  }

  lemma Factor(q: real, a: real, r: real, t: real, h: real)
    requires h == 0.0 || h == 1.0
    ensures q * (a * (if h == 1.0 then t else 0.0) + (1.0 - a) * r * t) ==
      t * (if h == 1.0 then q * a else 0.0) + t * r * (q * (1.0 - a))
  {
    assert q * ((1.0 - a) * r * t) == t * r * (q * (1.0 - a));
  }

  /** From a draft all of whose tokens so far are y's and about to be accepted, the rest of y has
      the target's probability. */
  lemma {:induction false} DraftExact(s: Sampler, ctx: seq<Token>, n: nat, y: seq<Token>, g: nat, d: seq<Token>)
    requires s.Valid() && Within(s, y) && y != [] && g < n
    requires Drafted(s, ctx, g, d) && |d| <= |y| && d == y[..|d|]
    ensures d[..|d|] == y[..|d|]
    ensures DraftProb(s, ctx, n, y, g, d, |d|) ==
      if d == [] then SampleProb(s, ctx, n, y) else SampleRest(s, ctx, n, y, |d|)
    decreases |y|, 0, g - |d|
  {
    hide Branches, DraftProb, LoopProb, VerifyProb, Sum, Drafted, AcceptProb, Resample, Hit, Miss, IsDist, Settled,
      Verdict, Within, SampleProb, SampleRest, Rest;
    var i := |d|;
    assert d[..i] == d;
    DraftBound(s, ctx, g, d);
    if Settled(s, y, i) {
      DraftSettled(s, ctx, n, y, g, d, i);
      SampleSettled(s, ctx, n, y, i);
    } else {
      NotSettled(s, ctx, n, y, i);
      SampleStep(s, ctx, n, y, i);
      if !Ended(y[..i + 1], s.eot) {
        WithinTail(s, y, i + 1);
        LoopExact(s, ctx + y[..i + 1], n - i - 1, y[i + 1..]);
      }
      RestExact(s, ctx, n, y, i + 1);
      if DraftsOn(s, ctx, g, d) {
        DraftOnExact(s, ctx, n, y, g, d);
      } else {
        DraftOffExact(s, ctx, n, y, g, d);
      }
    }
  }

  lemma DraftBound(s: Sampler, ctx: seq<Token>, g: nat, d: seq<Token>)
    requires Drafted(s, ctx, g, d)
    ensures |d| <= g
  {
  }

  lemma WithinTail(s: Sampler, y: seq<Token>, k: nat)
    requires Within(s, y) && k <= |y|
    ensures Within(s, y[k..])
  {
  }

  lemma SampleSettled(s: Sampler, ctx: seq<Token>, n: nat, y: seq<Token>, i: nat)
    requires s.Valid() && Within(s, y) && y != [] && i <= |y| && i < n && Settled(s, y, i)
    ensures i > 0 && SampleRest(s, ctx, n, y, i) == Verdict(s, y, i)
  {
    assert i == |y| ==> y[..i] == y;
  }

  lemma NotSettled(s: Sampler, ctx: seq<Token>, n: nat, y: seq<Token>, i: nat)
    requires s.Valid() && Within(s, y) && i <= |y| && i < n && !Settled(s, y, i)
    ensures i < |y|
    ensures (if i == 0 then SampleProb(s, ctx, n, y) else SampleRest(s, ctx, n, y, i))
      == SampleProb(s, ctx + y[..i], n - i, y[i..])
  {
    assert i == 0 ==> ctx + y[..i] == ctx && y[i..] == y;
  }

  lemma RestExact(s: Sampler, ctx: seq<Token>, n: nat, y: seq<Token>, k: nat)
    requires s.Valid() && Within(s, y) && 0 < k <= |y| && k <= n
    requires !Ended(y[..k], s.eot) ==>
      LoopProb(s, ctx + y[..k], n - k, y[k..]) == SampleProb(s, ctx + y[..k], n - k, y[k..])
    ensures Rest(s, ctx, n, y, k) == SampleRest(s, ctx, n, y, k)
  {
    hide LoopProb, SampleProb;
  }

  lemma DraftOffExact(s: Sampler, ctx: seq<Token>, n: nat, y: seq<Token>, g: nat, d: seq<Token>)
    requires s.Valid() && Within(s, y) && y != [] && g < n
    requires Drafted(s, ctx, g, d) && |d| < |y| && d[..|d|] == y[..|d|]
    requires !Settled(s, y, |d|) && !DraftsOn(s, ctx, g, d)
    ensures DraftProb(s, ctx, n, y, g, d, |d|) == s.target(ctx + y[..|d|])[y[|d|]] * Rest(s, ctx, n, y, |d| + 1)
  {
    hide Rest, Within;
  }

  lemma {:induction false} DraftOnExact(s: Sampler, ctx: seq<Token>, n: nat, y: seq<Token>, g: nat, d: seq<Token>)
    requires s.Valid() && Within(s, y) && y != [] && g < n
    requires Drafted(s, ctx, g, d) && |d| < |y| && d == y[..|d|] && DraftsOn(s, ctx, g, d) && !Settled(s, y, |d|)
    requires Rest(s, ctx, n, y, |d| + 1) == SampleRest(s, ctx, n, y, |d| + 1)
    ensures d[..|d|] == y[..|d|]
    ensures DraftProb(s, ctx, n, y, g, d, |d|) == s.target(ctx + y[..|d|])[y[|d|]] * SampleRest(s, ctx, n, y, |d| + 1)
    decreases |y|, 0, g - |d|, 0
  {
    hide DraftProb, Branches, VerifyProb, LoopProb, Rest, AcceptProb, Resample, Sum, Drafted, IsDist, Within, Settled,
      SampleProb, SampleRest;
    var i := |d|;
    assert d[..i] == d;
    var t := Rest(s, ctx, n, y, i + 1);
    var p, q := s.target(ctx + y[..i]), s.draft(ctx, d, g).value;
    DraftDist(s, ctx, d, g);
    TargetDist(s, ctx + y[..i]);
    WithinAt(s, y, i);
    var b := DraftAverage(s, ctx, n, y, g, d, i);
    var hit := seq(s.vocab, x requires 0 <= x < s.vocab => if x == y[i] then q[x] * AcceptProb(p[x], q[x]) else 0.0);
    var rej := Rejected(p, q);
    var r := Resample(p, q)[y[i]];
    forall x | 0 <= x < s.vocab ensures b[x] == t * hit[x] + t * r * rej[x] {
      if x == y[i] {
        assert d + [x] == y[..i + 1];
        DraftExact(s, ctx, n, y, g, d + [x]);
      }
      BranchExact(s, ctx, n, y, g, d, x, t);
    }
    SumLinear(hit, rej, b, t, t * r);
    SumSingle(hit, y[i]);
    PositionPreserved(p, q, y[i]);
    Collect(t, r, hit[y[i]], Sum(rej), p[y[i]]);
  }

  lemma Collect(t: real, r: real, h: real, e: real, p: real)
    requires h + e * r == p
    ensures t * h + t * r * e == p * t
  {
  }

  lemma TargetDist(s: Sampler, ctx: seq<Token>)
    requires s.Valid()
    ensures |s.target(ctx)| == s.vocab && IsDist(s.target(ctx)) && Sum(s.target(ctx)) == 1.0
  {
  }

  lemma WithinAt(s: Sampler, y: seq<Token>, i: nat)
    requires Within(s, y) && i < |y|
    ensures y[i] < s.vocab
  {
  }

  lemma {:induction false} LoopExact(s: Sampler, ctx: seq<Token>, n: nat, y: seq<Token>)
    requires s.Valid() && Within(s, y)
    ensures LoopProb(s, ctx, n, y) == SampleProb(s, ctx, n, y)
    decreases |y|, 1
  {
    if n > 0 && y != [] {
      DraftExact(s, ctx, n, y, Allowance(s.gamma, n), []);
    }
  }

  /** Speculative sampling is target sampling: for every target, every drafter, every draft length,
      every budget and end-of-text, the loop returns each whole output with exactly its target
      probability, and nothing else. */
  lemma LoopIsTarget(s: Sampler, ctx: seq<Token>, n: nat, y: seq<Token>)
    requires s.Valid() && Within(s, y)
    ensures LoopProb(s, ctx, n, y) == if Whole(s, n, y) then TargetProb(s, ctx, y) else 0.0
  {
    hide LoopProb, SampleProb, TargetProb, Whole;
    LoopExact(s, ctx, n, y);
    SampleWhole(s, ctx, n, y);
  }

  // ----- the model as a sampler

  /** The distributions the loop computes from the model's logits; sampling never starts from an
      empty context. */
  function ModelTarget(m: Model, temperature: real, exp: real -> real, ctx: seq<Token>): Weights {
    if ctx == [] then OneHot(m.vocab, 0) else ToProbs(m, RefLogits(m, ctx), temperature, exp)
  }

  function ModelSampler(m: Model, temperature: real, exp: real -> real,
      draft: (seq<Token>, seq<Token>, nat) -> Option<Weights>, gamma: int, eot: Option<Token>): Sampler
  {
    Sampler(m.vocab, ctx => ModelTarget(m, temperature, exp, ctx), draft, gamma, eot)
  }

  lemma ModelTargetDist(m: Model, temperature: real, exp: real -> real, ctx: seq<Token>)
    requires m.Valid() && ExpOk(m, temperature, exp)
    ensures |ModelTarget(m, temperature, exp, ctx)| == m.vocab && IsDist(ModelTarget(m, temperature, exp, ctx))
  {
    hide IsDist, ToProbs, RefLogits;
    if ctx == [] {
      OneHotDist(m.vocab, 0);
    } else {
      LogitsWidth(m, ctx);
      ToProbsDist(m, RefLogits(m, ctx), temperature, exp);
    }
  }

  lemma ModelSamplerValid(m: Model, temperature: real, exp: real -> real,
      draft: (seq<Token>, seq<Token>, nat) -> Option<Weights>, gamma: int, eot: Option<Token>)
    requires m.Valid() && ExpOk(m, temperature, exp)
    requires forall c, d, g ::
      draft(c, d, g).Some? ==> |draft(c, d, g).value| == m.vocab && IsDist(draft(c, d, g).value)
    ensures ModelSampler(m, temperature, exp, draft, gamma, eot).Valid()
  {
    hide IsDist, ModelTarget;
    forall ctx
      ensures |ModelTarget(m, temperature, exp, ctx)| == m.vocab && IsDist(ModelTarget(m, temperature, exp, ctx))
    {
      ModelTargetDist(m, temperature, exp, ctx);
    }
  }

  /** At temperature zero all the probability is on the greedy continuation. */
  lemma {:induction false} GreedyCertain(m: Model, temperature: real, exp: real -> real,
      draft: (seq<Token>, seq<Token>, nat) -> Option<Weights>, gamma: int, eot: Option<Token>, ctx: seq<Token>,
      y: seq<Token>)
    requires m.Valid() && ExpOk(m, temperature, exp) && temperature <= 0.0
    requires ModelSampler(m, temperature, exp, draft, gamma, eot).Valid()
    requires ctx != [] && |ctx| + |y| <= m.blockSize && IsGreedy(m, ctx, y)
    ensures Within(ModelSampler(m, temperature, exp, draft, gamma, eot), y)
    ensures TargetProb(ModelSampler(m, temperature, exp, draft, gamma, eot), ctx, y) == 1.0
    decreases |y|
  {
    hide IsDist, RefLogits, Greedy;
    if y != [] {
      assert ctx + y[..0] == ctx;
      var rest := y[1..];
      forall j | 0 <= j < |rest| ensures rest[j] == Next(m, ctx + [y[0]] + rest[..j]) {
        assert ctx + [y[0]] + rest[..j] == ctx + y[..j + 1];
      }
      GreedyCertain(m, temperature, exp, draft, gamma, eot, ctx + [y[0]], rest);
      LogitsWidth(m, ctx);
      GreedyBound(m, RefLogits(m, ctx));
      assert y == [y[0]] + rest;
    }
  }

  // ----- the loop's own code

  /** Every token of out has positive probability where it stands. */
  ghost predicate Likely(s: Sampler, ctx: seq<Token>, out: seq<Token>)
    requires s.Valid()
  {
    Within(s, out) && forall j | 0 <= j < |out| :: s.target(ctx + out[..j])[out[j]] > 0.0
  }

  lemma LikelyJoin(s: Sampler, ctx: seq<Token>, a: seq<Token>, b: seq<Token>)
    requires s.Valid() && Likely(s, ctx, a) && Likely(s, ctx + a, b)
    ensures Likely(s, ctx, a + b)
  {
    var all := a + b;
    forall j | 0 <= j < |all| ensures all[j] < s.vocab && s.target(ctx + all[..j])[all[j]] > 0.0 {
      if j < |a| {
        assert all[..j] == a[..j];
      } else {
        assert ctx + all[..j] == ctx + a + b[..j - |a|];
      }
    }
  }

  lemma LikelyPrefix(s: Sampler, ctx: seq<Token>, a: seq<Token>, b: seq<Token>)
    requires s.Valid() && a <= b && Likely(s, ctx, b)
    ensures Likely(s, ctx, a)
  {
    forall j | 0 <= j < |a| ensures a[j] < s.vocab && s.target(ctx + a[..j])[a[j]] > 0.0 {
      assert a[..j] == b[..j] && a[j] == b[j];
    }
  }

  lemma {:induction false} LikelyPositive(s: Sampler, ctx: seq<Token>, y: seq<Token>)
    requires s.Valid() && Likely(s, ctx, y)
    ensures TargetProb(s, ctx, y) > 0.0
    decreases |y|
  {
    if y != [] {
      var rest := y[1..];
      assert ctx + y[..0] == ctx;
      forall j | 0 <= j < |rest| ensures rest[j] < s.vocab && s.target(ctx + [y[0]] + rest[..j])[rest[j]] > 0.0 {
        assert ctx + [y[0]] + rest[..j] == ctx + y[..j + 1] && rest[j] == y[j + 1];
      }
      LikelyPositive(s, ctx + [y[0]], rest);
    }
  }

  /** Whatever verification lets through, the target can yield. */
  lemma AcceptedLikely(p: real, q: real, draw: real)
    requires 0.0 <= draw < AcceptProb(p, q)
    ensures p > 0.0
  {
  }

  lemma ResampleLikely(p: Weights, q: Weights, x: nat)
    requires |p| == |q| && IsDist(p) && NonNegative(q) && x < |p| && Resample(p, q)[x] > 0.0
    ensures p[x] > 0.0
  {
    hide Sum;
    assert p[x] >= 0.0;
  }

  lemma VerifiedLikely(target: seq<Weights>, draft: seq<Token>, q: seq<Weights>, draws: seq<real>,
      accepted: seq<Token>, num: nat)
    requires Verifiable(target, draft, q) && |draws| == |draft| && Uniforms(draws)
    requires Verified(target, draft, q, draws, accepted, num)
    ensures |accepted| == num + 1 <= |draft| + 1
    ensures forall j | 0 <= j <= num :: accepted[j] < |target[j]| && target[j][accepted[j]] > 0.0
  {
    hide Sum, Resample, AcceptProb, IsDist;
    forall j | 0 <= j < num ensures accepted[j] < |target[j]| && target[j][accepted[j]] > 0.0 {
      assert accepted[..num][j] == draft[..num][j];
      AcceptedLikely(target[j][draft[j]], q[j][draft[j]], draws[j]);
    }
    if num < |draft| {
      assert IsDist(target[num]);
      ResampleLikely(target[num], q[num], accepted[num]);
    }
  }

  /** One round of the loop puts out tokens the target can yield one after the other. */
  lemma RoundLikely(m: Model, context: seq<Token>, proposal: Proposal, uniform: (nat, nat) -> real, round: nat,
      temperature: real, exp: real -> real, accepted: seq<Token>, s: Sampler)
    requires RoundOk(m, context, proposal, uniform, round, temperature, exp, accepted) && UniformOk(uniform)
    requires s.Valid() && context != []
    requires forall c | c != [] :: s.target(c) == ToProbs(m, RefLogits(m, c), temperature, exp)
    ensures Likely(s, context, accepted)
  {
    hide ToProbs, RefLogits, Verified, Verifiable, IsDist;
    match proposal
    case None =>
      assert context + accepted[..0] == context;
    case Some((draft, q)) =>
      var target := TargetOf(m, context, draft, temperature, exp);
      VerifiedLikely(target, draft, q, Draws(uniform, round, |draft|), accepted, |accepted| - 1);
      VerifiedPrefix(target, draft, q, Draws(uniform, round, |draft|), accepted, |accepted| - 1);
      forall j | 0 <= j < |accepted|
        ensures accepted[j] < s.vocab && s.target(context + accepted[..j])[accepted[j]] > 0.0
      {
        assert s.target(context + draft[..j]) == target[j];
      }
  }

  lemma VerifiedPrefix(target: seq<Weights>, draft: seq<Token>, q: seq<Weights>, draws: seq<real>,
      accepted: seq<Token>, num: nat)
    requires Verifiable(target, draft, q) && |draws| == |draft| && Verified(target, draft, q, draws, accepted, num)
    ensures |accepted| == num + 1 <= |draft| + 1
    ensures forall j | 0 <= j <= num :: accepted[..j] == draft[..j]
  {
    hide Sum, Resample, AcceptProb, IsDist;
    forall j | 0 <= j <= num ensures accepted[..j] == draft[..j] {
      assert accepted[..j] == accepted[..num][..j] && draft[..j] == draft[..num][..j];
    }
  }

  lemma {:induction false} TraceLikely(m: Model, propose: Drafter, prompt: seq<Token>, maxNew: nat, gamma: int,
      uniform: (nat, nat) -> real,
      temperature: real, exp: real -> real, eot: Option<Token>, trace: seq<seq<Token>>, s: Sampler)
    requires TraceOk(m, propose, prompt, maxNew, gamma, uniform, temperature, exp, eot, trace) && UniformOk(uniform)
    requires prompt != []
    requires s.Valid() && forall c | c != [] :: s.target(c) == ToProbs(m, RefLogits(m, c), temperature, exp)
    ensures Likely(s, prompt, Output(trace, eot))
    decreases |trace|
  {
    hide RoundOk, ToProbs, RefLogits, Likely, TraceOk;
    if trace == [] {
      NothingLikely(s, prompt);
    } else {
      var n := |trace| - 1;
      var out := Output(trace[..n], eot);
      TraceLast(m, propose, prompt, maxNew, gamma, uniform, temperature, exp, eot, trace);
      TraceLikely(m, propose, prompt, maxNew, gamma, uniform, temperature, exp, eot, trace[..n], s);
      RoundLikely(m, prompt + out, Proposed(propose, n, prompt + out, Allowance(gamma, maxNew - |out|)), uniform, n,
        temperature, exp, trace[n], s);
      LikelyPrefix(s, prompt + out, CutAtEnd(trace[n], eot), trace[n]);
      LikelyJoin(s, prompt, out, CutAtEnd(trace[n], eot));
    }
  }

  lemma TraceLast(m: Model, propose: Drafter, prompt: seq<Token>, maxNew: nat, gamma: int, uniform: (nat, nat) -> real,
      temperature: real, exp: real -> real, eot: Option<Token>, trace: seq<seq<Token>>)
    requires TraceOk(m, propose, prompt, maxNew, gamma, uniform, temperature, exp, eot, trace) && trace != []
    ensures var n := |trace| - 1;
      var out := Output(trace[..n], eot);
      && TraceOk(m, propose, prompt, maxNew, gamma, uniform, temperature, exp, eot, trace[..n])
      && |out| < maxNew
      && var proposal := Proposed(propose, n, prompt + out, Allowance(gamma, maxNew - |out|));
         RoundOk(m, prompt + out, proposal, uniform, n, temperature, exp, trace[n])
  {
    hide RoundOk, Output;
    var n := |trace| - 1;
    assert forall k | 0 <= k < n :: trace[..n][..k] == trace[..k] && trace[..n][k] == trace[k];
  }

  lemma NothingLikely(s: Sampler, ctx: seq<Token>)
    requires s.Valid()
    ensures Likely(s, ctx, [])
  {
  }

  /** The law is that of the loop's code: an output the loop can return, whatever its drafter and its
      draws were, is one the law gives positive probability, for any drafter. */
  lemma LoopReturnsLikely(m: Model, propose: Drafter, prompt: seq<Token>, maxNew: nat, gamma: int,
      uniform: (nat, nat) -> real,
      temperature: real, exp: real -> real, eot: Option<Token>, trace: seq<seq<Token>>, tokens: seq<Token>,
      draft: (seq<Token>, seq<Token>, nat) -> Option<Weights>)
    requires m.Valid() && ExpOk(m, temperature, exp) && UniformOk(uniform) && prompt != []
    requires ModelSampler(m, temperature, exp, draft, gamma, eot).Valid()
    requires tokens == Output(trace, eot)
    requires TraceOk(m, propose, prompt, maxNew, gamma, uniform, temperature, exp, eot, trace)
    requires |tokens| <= maxNew && (|tokens| == maxNew || Ended(tokens, eot))
    requires forall i | 0 <= i < |tokens| - 1 :: Some(tokens[i]) != eot
    ensures var s := ModelSampler(m, temperature, exp, draft, gamma, eot);
      Within(s, tokens) && LoopProb(s, prompt, maxNew, tokens) == TargetProb(s, prompt, tokens) > 0.0
  {
    hide TraceOk, ToProbs, RefLogits, LoopProb, TargetProb, Output;
    var s := ModelSampler(m, temperature, exp, draft, gamma, eot);
    TraceLikely(m, propose, prompt, maxNew, gamma, uniform, temperature, exp, eot, trace, s);
    LikelyPositive(s, prompt, tokens);
    LoopIsTarget(s, prompt, maxNew, tokens);
  }

  /** No output of the loop holds a banned token, at any temperature, with any drafter and any draws,
      as long as some token is allowed. */
  lemma LoopObeysMask(m: Model, propose: Drafter, prompt: seq<Token>, maxNew: nat, gamma: int,
      uniform: (nat, nat) -> real, temperature: real, exp: real -> real, eot: Option<Token>, trace: seq<seq<Token>>)
    requires m.Valid() && ExpOk(m, temperature, exp) && SomeAllowed(m) && UniformOk(uniform) && prompt != []
    requires TraceOk(m, propose, prompt, maxNew, gamma, uniform, temperature, exp, eot, trace)
    ensures forall t | t in Output(trace, eot) :: t < m.vocab && t !in m.banned
  {
    hide TraceOk, ToProbs, RefLogits, Output, IsDist, ExpLike, SomeAllowed;
    var none: (seq<Token>, seq<Token>, nat) -> Option<Weights> := (c, d, g) => None;
    var s := ModelSampler(m, temperature, exp, none, gamma, eot);
    ModelSamplerValid(m, temperature, exp, none, gamma, eot);
    TraceLikely(m, propose, prompt, maxNew, gamma, uniform, temperature, exp, eot, trace, s);
    var out := Output(trace, eot);
    forall j | 0 <= j < |out| ensures out[j] < m.vocab && out[j] !in m.banned {
      LogitsWidth(m, prompt + out[..j]);
      ToProbsObeysMask(m, RefLogits(m, prompt + out[..j]), temperature, exp, out[j]);
    }
  }
}
