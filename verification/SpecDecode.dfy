/** Speculative decoding: verification of drafts by rejection, and the loop around it. */
module SpecDecode {
  import opened Wrappers
  import opened Transformer
  import opened Forward
  import opened StaticCache
  import opened Exponential

  /** A finite distribution, or just a row of non-negative weights, over the vocabulary. */
  type Weights = seq<real>

  function Sum(p: Weights): real {
    if p == [] then 0.0 else Sum(p[..|p| - 1]) + p[|p| - 1]
  }

  ghost predicate NonNegative(p: Weights) {
    forall i | 0 <= i < |p| :: p[i] >= 0.0
  }

  ghost predicate IsDist(p: Weights) {
    NonNegative(p) && Sum(p) == 1.0
  }

  function OneHot(n: nat, i: nat): (p: Weights)
    ensures |p| == n && forall j | 0 <= j < n :: p[j] == if j == i then 1.0 else 0.0
  {
    seq(n, j => if j == i then 1.0 else 0.0)
  }

  // ----- the acceptance rule

  /** min(1, p/q) for the proposed token, and 0 when the drafter claims it impossible. */
  function AcceptProb(p: real, q: real): real {
    if q > 0.0 then (if p / q < 1.0 then p / q else 1.0) else 0.0
  }

  /** max(0, p - q) at every token. */
  function Residual(p: Weights, q: Weights): (r: Weights)
    requires |p| == |q|
    ensures |r| == |p| && NonNegative(r)
  {
    seq(|p|, i requires 0 <= i < |p| => if p[i] - q[i] > 0.0 then p[i] - q[i] else 0.0)
  }

  /** The distribution of the correction: the normalised residual, or the target itself when
      the residual vanishes. */
  function Resample(p: Weights, q: Weights): (d: Weights)
    requires |p| == |q| && Sum(p) > 0.0
    ensures |d| == |p|
  {
    var r := Residual(p, q);
    var s := Sum(r);
    if s <= 0.0 then seq(|p|, i requires 0 <= i < |p| => p[i] / Sum(p))
    else seq(|p|, i requires 0 <= i < |p| => r[i] / s)
  }

  // ----- sums

  lemma {:induction false} SumNonNegative(p: Weights)
    requires NonNegative(p)
    ensures Sum(p) >= 0.0
    ensures forall i | 0 <= i < |p| :: p[i] <= Sum(p)
  {
    if p != [] {
      SumNonNegative(p[..|p| - 1]);
      assert forall i | 0 <= i < |p| - 1 :: p[i] == p[..|p| - 1][i];
    }
  }

  /** A positive sum has a positive term. */
  lemma {:induction false} PositiveTerm(p: Weights) returns (i: nat)
    requires Sum(p) > 0.0
    ensures i < |p| && p[i] > 0.0
  {
    if p[|p| - 1] > 0.0 {
      i := |p| - 1;
    } else {
      i := PositiveTerm(p[..|p| - 1]);
    }
  }

  lemma {:induction false} SumZero(p: Weights)
    requires forall i | 0 <= i < |p| :: p[i] == 0.0
    ensures Sum(p) == 0.0
  {
    if p != [] {
      SumZero(p[..|p| - 1]);
    }
  }

  lemma {:induction false} SumSingle(p: Weights, k: nat)
    requires k < |p| && forall i | 0 <= i < |p| && i != k :: p[i] == 0.0
    ensures Sum(p) == p[k]
  {
    if k == |p| - 1 {
      SumZero(p[..k]);
    } else {
      SumSingle(p[..|p| - 1], k);
    }
  }

  lemma OneHotDist(n: nat, i: nat)
    requires i < n
    ensures IsDist(OneHot(n, i))
  {
    SumSingle(OneHot(n, i), i);
  }

  /** The correction has a token to be drawn. */
  lemma ResamplePositive(p: Weights, q: Weights) returns (i: nat)
    requires |p| == |q| && IsDist(p)
    ensures i < |p| && Resample(p, q)[i] > 0.0
  {
    var r := Residual(p, q);
    if Sum(r) <= 0.0 {
      i := PositiveTerm(p);
    } else {
      i := PositiveTerm(r);
      PositiveQuotient(r[i], Sum(r));
    }
  }

  lemma PositiveQuotient(a: real, b: real)
    requires a > 0.0 && b > 0.0
    ensures a / b > 0.0
  {
  }

  /** Any token of positive weight, as a multinomial draw returns. */
  method Pick(d: Weights, ghost some: nat) returns (i: nat)
    requires some < |d| && d[some] > 0.0
    ensures i < |d| && d[i] > 0.0
  {
    i :| 0 <= i < |d| && d[i] > 0.0;
  }

  // ----- verification

  ghost predicate Verifiable(target: seq<Weights>, draft: seq<Token>, q: seq<Weights>) {
    && |target| == |draft| + 1 && |q| == |draft|
    && (forall i | 0 <= i < |target| :: IsDist(target[i]))
    && (forall i | 0 <= i < |draft| :: draft[i] < |target[i]| == |q[i]| && NonNegative(q[i]))
  }

  /** Draws of torch.rand: at least 0, below 1. */
  ghost predicate Uniforms(draws: seq<real>) {
    forall i | 0 <= i < |draws| :: 0.0 <= draws[i] < 1.0
  }

  /** The outcome of verification: tokens are accepted up to the first whose draw is not below its
      acceptance probability; there a correction is drawn, or a bonus token when there is none. */
  ghost predicate Verified(target: seq<Weights>, draft: seq<Token>, q: seq<Weights>, draws: seq<real>,
      accepted: seq<Token>, num: nat)
    requires Verifiable(target, draft, q) && |draws| == |draft|
  {
    && num <= |draft| && |accepted| == num + 1 && accepted[..num] == draft[..num]
    && (forall i | 0 <= i < num :: draws[i] < AcceptProb(target[i][draft[i]], q[i][draft[i]]))
    && (num < |draft| ==>
          && IsDist(target[num])
          && draws[num] >= AcceptProb(target[num][draft[num]], q[num][draft[num]])
          && accepted[num] < |target[num]| && Resample(target[num], q[num])[accepted[num]] > 0.0)
    && (num == |draft| ==> accepted[num] < |target[num]| && target[num][accepted[num]] > 0.0)
  }

  /** Verify a draft against the target.  The uniform draws decide where the first rejection is;
      the correction and the bonus are any tokens their distributions can yield. */
  method VerifyAndAccept(target: seq<Weights>, draft: seq<Token>, q: seq<Weights>, draws: seq<real>)
    returns (accepted: seq<Token>, num: nat)
    requires Verifiable(target, draft, q) && |draws| == |draft| && Uniforms(draws)
    ensures Verified(target, draft, q, draws, accepted, num)
  {
    accepted := [];
    for i := 0 to |draft|
      invariant accepted == draft[..i]
      invariant forall j | 0 <= j < i :: draws[j] < AcceptProb(target[j][draft[j]], q[j][draft[j]])
    {
      assert IsDist(target[i]);
      var a := AcceptProb(target[i][draft[i]], q[i][draft[i]]);
      if draws[i] < a {
        accepted := accepted + [draft[i]];
      } else {
        ghost var some := ResamplePositive(target[i], q[i]);
        var correction := Pick(Resample(target[i], q[i]), some);
        accepted := accepted + [correction];
        return accepted, i;
      }
    }
    assert IsDist(target[|draft|]);
    ghost var some := PositiveTerm(target[|draft|]);
    var bonus := Pick(target[|draft|], some);
    accepted := accepted + [bonus];
    num := |draft|;
  }

  /** A one-hot target leaves a correction no choice. */
  lemma ResampleOneHot(n: nat, a: nat, q: Weights, i: nat)
    requires a < n && |q| == n && NonNegative(q) && i < n
    requires Sum(OneHot(n, a)) > 0.0 && Resample(OneHot(n, a), q)[i] > 0.0
    ensures i == a
  {
    var p := OneHot(n, a);
    var r := Residual(p, q);
    assert forall j | 0 <= j < n && j != a :: r[j] == 0.0 && p[j] == 0.0;
  }

  /** Greedy verification: against one-hot targets every token that comes out is the target's,
      whatever the drafter proposed and whatever was drawn. */
  lemma GreedyVerify(target: seq<Weights>, draft: seq<Token>, q: seq<Weights>, draws: seq<real>, accepted: seq<Token>,
      num: nat, n: nat, best: seq<nat>)
    requires Verifiable(target, draft, q) && |draws| == |draft| && Uniforms(draws)
    requires |best| == |target| && forall i | 0 <= i < |best| :: best[i] < n && target[i] == OneHot(n, best[i])
    requires Verified(target, draft, q, draws, accepted, num)
    ensures |accepted| == num + 1 <= |draft| + 1
    ensures forall i | 0 <= i <= num :: accepted[i] == best[i]
  {
    hide Sum, Resample, Residual, IsDist;
    forall i | 0 <= i < num ensures accepted[i] == best[i] {
      assert accepted[..num][i] == draft[..num][i];
      AcceptedOneHot(n, best[i], draft[i], q[i][draft[i]]);
    }
    if num < |draft| {
      assert IsDist(target[num]);
      CorrectionOneHot(n, best[num], q[num], accepted[num]);
    }
  }

  lemma AcceptedOneHot(n: nat, best: nat, x: nat, q: real)
    requires x < n && AcceptProb(OneHot(n, best)[x], q) > 0.0
    ensures x == best
  {
  }

  lemma CorrectionOneHot(n: nat, best: nat, q: Weights, x: nat)
    requires best < n && |q| == n && NonNegative(q) && x < n
    requires IsDist(OneHot(n, best)) && Resample(OneHot(n, best), q)[x] > 0.0
    ensures x == best
  {
    ResampleOneHot(n, best, q, x);
  }

  // ----- the target's distribution

  /** exp of the logits over the temperature, and 0 for -inf. */
  function Exps(exp: real -> real, x: seq<Logit>, temperature: real): (w: Weights)
    requires temperature > 0.0
    ensures |w| == |x|
  {
    seq(|x|, i requires 0 <= i < |x| => match x[i] case NegInf => 0.0 case Fin(r) => exp(r / temperature))
  }

  /** Each weight over their sum.  When all are zero there is no distribution, and nothing to draw. */
  function Normalised(w: Weights): (p: Weights)
    ensures |p| == |w|
  {
    if Sum(w) <= 0.0 then w else seq(|w|, i requires 0 <= i < |w| => w[i] / Sum(w))
  }

  /** Temperature zero and below put all mass on the argmax; otherwise a softmax of the masked
      logits over the temperature. */
  function ToProbs(m: Model, logits: seq<real>, temperature: real, exp: real -> real): (p: Weights)
    ensures |p| == |logits|
  {
    if temperature <= 0.0 then OneHot(|logits|, Greedy(m, logits))
    else Normalised(Exps(exp, Masked(m, logits), temperature))
  }

  /** What sampling needs: at positive temperature the mask must leave something to draw. */
  ghost predicate ExpOk(m: Model, temperature: real, exp: real -> real) {
    ExpLike(exp) && (temperature > 0.0 ==> SomeAllowed(m))
  }

  /** A product under a name, to keep sums linear. */
  function Times(a: real, b: real): real {
    a * b
  }

  lemma {:induction false} SumQuotient(w: Weights, p: Weights, d: real)
    requires d > 0.0 && |p| == |w| && forall i | 0 <= i < |w| :: p[i] == w[i] / d
    ensures Times(Sum(p), d) == Sum(w)
  {
    if w != [] {
      var n := |w| - 1;
      SumQuotient(w[..n], p[..n], d);
      assert (w[n] / d) * d == w[n];
      assert Sum(p) * d == Sum(p[..n]) * d + p[n] * d;
    }
  }

  lemma NormalisedDist(w: Weights, i: nat)
    requires NonNegative(w) && i < |w| && w[i] > 0.0
    ensures Sum(w) > 0.0 && IsDist(Normalised(w))
    ensures forall j | 0 <= j < |w| :: Normalised(w)[j] * Sum(w) == w[j]
    ensures forall j | 0 <= j < |w| :: Normalised(w)[j] > 0.0 <==> w[j] > 0.0
  {
    hide Sum;
    SumNonNegative(w);
    var p := Normalised(w);
    forall j | 0 <= j < |w| ensures p[j] >= 0.0 && p[j] * Sum(w) == w[j] && (p[j] > 0.0 <==> w[j] > 0.0) {
      QuotientSign(w[j], Sum(w));
    }
    QuotientsSumToOne(w, p, Sum(w));
  }

  lemma QuotientsSumToOne(w: Weights, p: Weights, d: real)
    requires d == Sum(w) > 0.0 && |p| == |w| && forall i | 0 <= i < |w| :: p[i] == w[i] / d
    ensures Sum(p) == 1.0
  {
    hide Times, Sum;
    SumQuotient(w, p, d);
    OneFactor(Sum(p), d);
  }

  lemma OneFactor(a: real, d: real)
    requires Times(a, d) == d && d > 0.0
    ensures a == 1.0
  {
  }

  lemma QuotientSign(a: real, d: real)
    requires a >= 0.0 && d > 0.0
    ensures a / d >= 0.0 && (a / d) * d == a && (a / d > 0.0 <==> a > 0.0)
  {
  }

  lemma ExpsSign(m: Model, logits: seq<real>, temperature: real, exp: real -> real)
    requires ExpLike(exp) && temperature > 0.0
    ensures var w := Exps(exp, Masked(m, logits), temperature);
      && NonNegative(w)
      && forall i | 0 <= i < |logits| ::
           if i in m.banned then w[i] == 0.0 else w[i] == exp(logits[i] / temperature) > 0.0
  {
    hide ExpLike;
    forall x ensures exp(x) > 0.0 {
      ExpPositive(exp, x);
    }
  }

  /** At positive temperature the law is the softmax: a banned token has probability zero, an allowed
      one a positive one, and any two stand in the ratio of exp of their logits over the
      temperature. */
  lemma ToProbsSoftmax(m: Model, logits: seq<real>, temperature: real, exp: real -> real, i: nat, j: nat)
    requires ExpLike(exp) && temperature > 0.0 && i < |logits| && j < |logits| && i !in m.banned
    ensures var p := ToProbs(m, logits, temperature, exp);
      && IsDist(p) && p[i] > 0.0
      && (j in m.banned ==> p[j] == 0.0)
      && (j !in m.banned ==> p[i] * exp(logits[j] / temperature) == p[j] * exp(logits[i] / temperature))
  {
    hide ExpLike, Sum, IsDist, NonNegative, Exps, Normalised;
    ExpsSign(m, logits, temperature, exp);
    var w := Exps(exp, Masked(m, logits), temperature);
    NormalisedDist(w, i);
    var p := Normalised(w);
    if j in m.banned {
      assert p[j] * Sum(w) == 0.0;
      ZeroFactor(p[j], Sum(w));
    } else {
      Ratio(p[i], p[j], w[i], w[j], Sum(w));
    }
  }

  lemma ZeroFactor(a: real, d: real)
    requires a * d == 0.0 && d > 0.0
    ensures a == 0.0
  {
  }

  lemma Ratio(a: real, b: real, x: real, y: real, d: real)
    requires a * d == x && b * d == y
    ensures a * y == b * x
  {
    assert a * y == a * (b * d) == b * (a * d);
  }

  lemma AllowedIndex(m: Model, logits: seq<real>) returns (i: nat)
    requires SomeAllowed(m) && |logits| == m.vocab
    ensures i < |logits| && i !in m.banned
  {
    i :| i < m.vocab && i !in m.banned;
  }

  lemma GreedyBound(m: Model, logits: seq<real>)
    requires |logits| > 0
    ensures Greedy(m, logits) < |logits|
  {
  }

  lemma ToProbsDist(m: Model, logits: seq<real>, temperature: real, exp: real -> real)
    requires ExpOk(m, temperature, exp) && |logits| == m.vocab > 0
    ensures |ToProbs(m, logits, temperature, exp)| == |logits| && IsDist(ToProbs(m, logits, temperature, exp))
  {
    hide ExpLike, IsDist, Exps, Normalised, Greedy;
    if temperature <= 0.0 {
      GreedyBound(m, logits);
      OneHotDist(|logits|, Greedy(m, logits));
    } else {
      var i := AllowedIndex(m, logits);
      ToProbsSoftmax(m, logits, temperature, exp, i, i);
    }
  }

  /** At every temperature a token the target can yield is allowed, as long as some token is. */
  lemma ToProbsObeysMask(m: Model, logits: seq<real>, temperature: real, exp: real -> real, t: nat)
    requires ExpLike(exp) && SomeAllowed(m) && |logits| == m.vocab
    requires t < |logits| && ToProbs(m, logits, temperature, exp)[t] > 0.0
    ensures t !in m.banned
  {
    hide ExpLike, IsDist, Exps, Normalised, Greedy;
    var i := AllowedIndex(m, logits);
    if temperature <= 0.0 {
      GreedyObeysMask(m, logits);
    } else {
      ToProbsSoftmax(m, logits, temperature, exp, i, t);
    }
  }
}
