/** Weight-only int8 linear layers: per-channel quantisation, the dequantise-then-multiply
    forward, and the fused tiled kernel that never materialises the dequantised matrix. */
module Int8 {
  import opened Wrappers

  function Abs(x: real): real {
    if x < 0.0 then -x else x
  }

  /** A product under a name, so that sums of products stay linear where only their sum matters. */
  function Mul(a: real, b: real): real {
    a * b
  }

  // ----- quantisation

  /** Any rounding to a nearest integer. */
  ghost predicate Nearest(round: real -> int) {
    forall x: real {:trigger round(x)} :: Abs(round(x) as real - x) <= 0.5
  }

  /** Largest magnitude of a row. */
  function Amax(w: seq<real>): (a: real)
    ensures a >= 0.0 && forall i | 0 <= i < |w| :: Abs(w[i]) <= a
  {
    if w == [] then 0.0
    else
      var rest := Amax(w[..|w| - 1]);
      assert forall i | 0 <= i < |w| - 1 :: w[i] == w[..|w| - 1][i];
      if rest < Abs(w[|w| - 1]) then Abs(w[|w| - 1]) else rest
  }

  /** It is the magnitude of one of the entries. */
  lemma {:induction false} AmaxAttained(w: seq<real>) returns (i: nat)
    requires w != []
    ensures i < |w| && Abs(w[i]) == Amax(w)
    decreases |w|
  {
    var n := |w| - 1;
    if n == 0 || Amax(w[..n]) < Abs(w[n]) {
      i := n;
    } else {
      i := AmaxAttained(w[..n]);
    }
  }

  const MIN_SCALE := 0.00000001

  /** max|w| / 127, kept away from zero for a dead channel. */
  function Scale(w: seq<real>): (s: real)
    ensures s >= MIN_SCALE
  {
    var s := Amax(w) / 127.0;
    if s < MIN_SCALE then MIN_SCALE else s
  }

  /** Half a quantisation step. */
  function HalfStep(w: seq<real>): real {
    Scale(w) / 2.0
  }

  function Clamp(q: int): int {
    if q < -127 then -127 else if q > 127 then 127 else q
  }

  /** The stored integers of one output channel. */
  function QuantizeRow(w: seq<real>, round: real -> int): (q: seq<int>)
    ensures |q| == |w|
  {
    var s := Scale(w);
    seq(|w|, i requires 0 <= i < |w| => Clamp(round(w[i] / s)))
  }

  function Dequantize(q: seq<int>, scale: real): (w: seq<real>)
    ensures |w| == |q| && forall i | 0 <= i < |w| :: w[i] == Mul(q[i] as real, scale)
  {
    seq(|q|, i requires 0 <= i < |q| => Mul(q[i] as real, scale))
  }

  /** What is kept of a channel: its integers and its scale. */
  function Quantized(w: seq<real>, round: real -> int): (seq<int>, real) {
    (QuantizeRow(w, round), Scale(w))
  }

  /** The largest magnitude of the row is a. */
  ghost predicate Largest(w: seq<real>, a: real) {
    (forall j | 0 <= j < |w| :: Abs(w[j]) <= a) && exists k :: 0 <= k < |w| && Abs(w[k]) == a
  }

  lemma AmaxIs(w: seq<real>, a: real)
    requires Largest(w, a)
    ensures Amax(w) == a
  {
    hide Amax;
    var i := AmaxAttained(w);
  }

  /** The clamp never fires: what is stored is the rounded quotient itself, in [-127, 127]. */
  lemma ClampIdle(w: seq<real>, round: real -> int, i: nat)
    requires Nearest(round) && i < |w|
    ensures QuantizeRow(w, round)[i] == round(w[i] / Scale(w))
    ensures -127 <= round(w[i] / Scale(w)) <= 127
  {
    var s, x := Scale(w), w[i] / Scale(w);
    assert x * s == w[i];
    assert 127.0 * s >= Amax(w);
    Bounded(x, s, 127.0, w[i]);
    assert Abs(round(x) as real - x) <= 0.5;
  }

  lemma Bounded(x: real, s: real, k: real, w: real)
    requires s > 0.0 && x * s == w && Abs(w) <= k * s
    ensures Abs(x) <= k
  {
    if x > k {
      assert (x - k) * s > 0.0;
    }
    if x < -k {
      assert (-k - x) * s > 0.0;
    }
  }

  /** Each dequantised weight is within half a step of the original. */
  lemma WeightError(w: seq<real>, round: real -> int, i: nat)
    requires Nearest(round) && i < |w|
    ensures Abs(w[i] - Dequantize(QuantizeRow(w, round), Scale(w))[i]) <= HalfStep(w)
  {
    hide Mul, QuantizeRow;
    ClampIdle(w, round, i);
    assert Abs(round(w[i] / Scale(w)) as real - w[i] / Scale(w)) <= 0.5;
    StepError(w[i] / Scale(w), Scale(w), w[i], round(w[i] / Scale(w)) as real);
  }

  /** A weight on the grid of steps of a/127 is stored as its own multiple and comes back exactly. */
  lemma OnGrid(w: seq<real>, round: real -> int, a: real, i: nat, k: int)
    requires Nearest(round) && Largest(w, a) && a / 127.0 >= 0.00000001
    requires i < |w| && w[i] == Mul(k as real, a / 127.0)
    ensures var (q, scale) := Quantized(w, round); |q| == |w| && q[i] == k && Dequantize(q, scale)[i] == w[i]
  {
    hide Amax;
    AmaxIs(w, a);
    ClampIdle(w, round, i);
    Divide(w[i], a / 127.0, k as real);
    assert Abs(round(k as real) as real - k as real) <= 0.5;
  }

  /** A channel whose largest magnitude is a has steps of a/127, unless that is below the floor of
      1e-8: each weight comes back within a/254, the largest ones are stored as 127 or -127 by their
      sign, zero is stored as zero, and these come back exactly. */
  lemma QuantizedWell(w: seq<real>, round: real -> int, a: real, i: nat)
    requires Nearest(round) && Largest(w, a) && a / 127.0 >= 0.00000001 && i < |w|
    ensures var (q, scale) := Quantized(w, round);
      && |q| == |w| && scale == a / 127.0
      && Abs(w[i] - Dequantize(q, scale)[i]) <= a / 254.0
      && (w[i] == a ==> q[i] == 127) && (w[i] == -a ==> q[i] == -127) && (w[i] == 0.0 ==> q[i] == 0)
      && (Abs(w[i]) == a || w[i] == 0.0 ==> Dequantize(q, scale)[i] == w[i])
  {
    hide Amax, QuantizeRow, Nearest, Mul;
    AmaxIs(w, a);
    WeightError(w, round, i);
    if w[i] == a {
      Multiples(a);
      OnGrid(w, round, a, i, 127);
    }
    if w[i] == -a {
      Multiples(a);
      OnGrid(w, round, a, i, -127);
    }
    if w[i] == 0.0 {
      Multiples(a);
      OnGrid(w, round, a, i, 0);
    }
  }

  lemma Multiples(a: real)
    ensures Mul(127.0, a / 127.0) == a && Mul(-127.0, a / 127.0) == -a && Mul(0.0, a / 127.0) == 0.0
  {
  }

  lemma Divide(x: real, s: real, k: real)
    requires s > 0.0 && k * s == x
    ensures x / s == k
  {
    assert (x / s) * s == x;
    assert (x / s - k) * s == 0.0;
  }

  /** A channel below the floor uses the floor as its step; a dead one is stored and comes back as
      zeros. */
  lemma QuantizedSmall(w: seq<real>, round: real -> int, a: real, i: nat)
    requires Nearest(round) && Largest(w, a) && a / 127.0 < 0.00000001 && i < |w|
    ensures var (q, scale) := Quantized(w, round);
      && |q| == |w| && scale == 0.00000001
      && Abs(w[i] - Dequantize(q, scale)[i]) <= 0.000000005
      && (a == 0.0 ==> q[i] == 0 && Dequantize(q, scale)[i] == 0.0)
  {
    hide Amax;
    AmaxIs(w, a);
    WeightError(w, round, i);
    ClampIdle(w, round, i);
    if a == 0.0 {
      assert Abs(w[i]) <= 0.0;
      Divide(w[i], 0.00000001, 0.0);
      assert Abs(round(0.0) as real - 0.0) <= 0.5;
    }
  }

  lemma StepError(x: real, s: real, w: real, k: real)
    requires s > 0.0 && x == w / s && Abs(k - x) <= 0.5
    ensures Abs(w - Mul(k, s)) <= s / 2.0
  {
    var d := k - x;
    assert x * s == w;
    assert k * s == x * s + d * s;
    MulBound(d, s, 0.5);
  }

  lemma MulBound(d: real, s: real, e: real)
    requires s >= 0.0 && -e <= d <= e
    ensures -(e * s) <= d * s <= e * s
  {
    Product(e - d, s);
    Product(e + d, s);
    assert (e - d) * s == e * s - d * s;
    assert (e + d) * s == e * s + d * s;
  }

  lemma Product(a: real, b: real)
    requires a >= 0.0 && b >= 0.0
    ensures a * b >= 0.0
  {
  }

  /** Round half to even. */
  function HalfEven(x: real): int {
    var f := x.Floor;
    var d := x - f as real;
    if d < 0.5 then f else if d > 0.5 then f + 1 else if f % 2 == 0 then f else f + 1
  }

  /** Halfway between two integers it takes the even one. */
  lemma HalfEvenTie(k: int)
    ensures HalfEven(k as real + 0.5) % 2 == 0
  {
    assert (k as real + 0.5).Floor == k;
  }

  lemma HalfEvenNearest()
    ensures Nearest(x => HalfEven(x))
  {
    var round := (x: real) => HalfEven(x);
    forall x: real ensures Abs(round(x) as real - x) <= 0.5 {
    }
  }

  // ----- the linear layer

  /** Sum of w[k] * x[k] over k < n. */
  function Dot(w: seq<real>, x: seq<real>, n: nat): real
    requires n <= |w| && n <= |x|
  {
    if n == 0 then 0.0 else Dot(w, x, n - 1) + Mul(w[n - 1], x[n - 1])
  }

  function IntDot(q: seq<int>, x: seq<real>, n: nat): real
    requires n <= |q| && n <= |x|
  {
    if n == 0 then 0.0 else IntDot(q, x, n - 1) + q[n - 1] as real * x[n - 1]
  }

  function AbsSum(x: seq<real>, n: nat): real
    requires n <= |x|
  {
    if n == 0 then 0.0 else AbsSum(x, n - 1) + Abs(x[n - 1])
  }

  function BiasAt(bias: Option<seq<real>>, o: nat): real
    requires bias.Some? ==> o < |bias.value|
  {
    if bias.Some? then bias.value[o] else 0.0
  }

  /** One output of the layer: dequantise the channel, then multiply. */
  function Output(q: seq<int>, scale: real, bias: real, x: seq<real>): real
    requires |q| == |x|
  {
    Dot(Dequantize(q, scale), x, |x|) + bias
  }

  /** Accumulating the integers and scaling once is the same. */
  lemma {:induction false} FusedDot(q: seq<int>, scale: real, x: seq<real>, n: nat)
    requires n <= |q| && n <= |x|
    ensures IntDot(q, x, n) * scale == Dot(Dequantize(q, scale), x, n)
  {
    if n > 0 {
      FusedDot(q, scale, x, n - 1);
      Expand(IntDot(q, x, n - 1), q[n - 1] as real, x[n - 1], scale);
    }
  }

  lemma Expand(t: real, q: real, x: real, s: real)
    ensures (t + q * x) * s == t * s + (q * s) * x
  {
    assert (q * x) * s == (q * s) * x;
  }

  /** Each output differs from the unquantised one by at most half a step per unit of input. */
  lemma OutputError(w: seq<real>, round: real -> int, bias: real, x: seq<real>)
    requires Nearest(round) && |w| == |x|
    ensures var out := Output(QuantizeRow(w, round), Scale(w), bias, x);
      Abs(Dot(w, x, |x|) + bias - out) <= Mul(HalfStep(w), AbsSum(x, |x|))
  {
    hide Scale, QuantizeRow, Dot, AbsSum, Nearest, HalfStep, Mul;
    var v := Dequantize(QuantizeRow(w, round), Scale(w));
    forall i | 0 <= i < |w| ensures Abs(w[i] - v[i]) <= HalfStep(w) {
      WeightError(w, round, i);
    }
    DotError(w, v, x, HalfStep(w), |x|);
  }

  /** In terms of the channel's largest magnitude: each output is off by at most a/254 for each unit
      of input. */
  lemma OutputClose(w: seq<real>, round: real -> int, a: real, bias: real, x: seq<real>)
    requires Nearest(round) && Largest(w, a) && a / 127.0 >= 0.00000001 && |w| == |x|
    ensures var (q, scale) := Quantized(w, round);
      Abs(Dot(w, x, |x|) + bias - Output(q, scale, bias, x)) <= (a / 254.0) * AbsSum(x, |x|)
  {
    hide Amax, QuantizeRow, Dot, AbsSum, Nearest, Output;
    AmaxIs(w, a);
    OutputError(w, round, bias, x);
  }

  lemma {:induction false} DotError(w: seq<real>, v: seq<real>, x: seq<real>, e: real, n: nat)
    requires n <= |x| == |w| == |v| && forall i | 0 <= i < |w| :: Abs(w[i] - v[i]) <= e
    ensures Abs(Dot(w, x, n) - Dot(v, x, n)) <= Mul(e, AbsSum(x, n))
  {
    hide Mul;
    if n > 0 {
      DotError(w, v, x, e, n - 1);
      TermError(w[n - 1], v[n - 1], x[n - 1], e);
      MulAdd(e, AbsSum(x, n - 1), Abs(x[n - 1]));
    } else {
      MulZero(e);
    }
  }

  lemma MulZero(e: real)
    ensures Mul(e, 0.0) == 0.0
  {
  }

  lemma MulAdd(e: real, s: real, t: real)
    ensures Mul(e, s + t) == Mul(e, s) + Mul(e, t)
  {
  }

  lemma TermError(w: real, v: real, x: real, e: real)
    requires Abs(w - v) <= e
    ensures Abs(Mul(w, x) - Mul(v, x)) <= Mul(e, Abs(x))
  {
    var d := w - v;
    assert w * x - v * x == d * x;
    if x >= 0.0 {
      MulBound(d, x, e);
    } else {
      MulBound(d, -x, e);
      assert d * -x == -(d * x);
    }
  }

  // ----- the fused kernel

  /** One tile of one output lane: masked lanes load zero. */
  function TileSum(q: seq<int>, x: seq<real>, k0: nat, n: nat): real
    requires |q| == |x|
  {
    if n == 0 then 0.0
    else
      var k := k0 + n - 1;
      TileSum(q, x, k0, n - 1) + (if k < |x| then q[k] as real * x[k] else 0.0)
  }

  lemma {:induction false} TileDot(q: seq<int>, x: seq<real>, k0: nat, n: nat)
    requires |q| == |x|
    ensures TileSum(q, x, k0, n) == IntDot(q, x, Min(k0 + n, |x|)) - IntDot(q, x, Min(k0, |x|))
  {
    if n > 0 {
      TileDot(q, x, k0, n - 1);
    }
  }

  /** One program: a block of output channels for one input row. */
  method GemvBlock(x: seq<real>, wq: seq<seq<int>>, scale: seq<real>, bias: Option<seq<real>>, out: array2<real>,
      b: nat, oBlock: nat, blockO: nat, blockK: nat)
    requires blockK > 0 && |scale| == |wq| == out.Length1 && b < out.Length0
    requires bias.Some? ==> |bias.value| == |wq|
    requires forall o | 0 <= o < |wq| :: |wq[o]| == |x|
    modifies out
    ensures forall r, o | 0 <= r < out.Length0 && 0 <= o < out.Length1 ::
      out[r, o] == if r == b && oBlock * blockO <= o < oBlock * blockO + blockO
        then Output(wq[o], scale[o], BiasAt(bias, o), x) else old(out[r, o])
  {
    hide TileSum, IntDot, Output, AccHolds, Scaled, BiasAt;
    var lo := oBlock * blockO;
    var acc := seq(blockO, lane => 0.0);
    var k0 := 0;
    AccStart(acc, wq, x, lo);
    while k0 < |x|
      invariant AccHolds(acc, wq, x, lo, Min(k0, |x|))
      invariant |acc| == blockO
      modifies {}
      decreases |x| - k0
    {
      AddTileHolds(acc, wq, x, lo, k0, blockK);
      acc := AddTile(acc, wq, x, lo, k0, blockK);
      k0 := k0 + blockK;
    }
    AccDone(acc, wq, x, lo, scale, bias);
    forall o | lo <= o < lo + blockO && o < |wq| {
      out[b, o] := Scaled(acc[o - lo], scale[o], BiasAt(bias, o));
    }
  }

  function Scaled(acc: real, scale: real, bias: real): real {
    acc * scale + bias
  }

  /** Scaled once and biased, the accumulator is the layer's output. */
  lemma AccDone(acc: seq<real>, wq: seq<seq<int>>, x: seq<real>, lo: nat, scale: seq<real>, bias: Option<seq<real>>)
    requires |scale| == |wq| && (bias.Some? ==> |bias.value| == |wq|)
    requires (forall o | 0 <= o < |wq| :: |wq[o]| == |x|) && AccHolds(acc, wq, x, lo, |x|)
    ensures forall o | lo <= o < lo + |acc| && o < |wq| ::
      Scaled(acc[o - lo], scale[o], BiasAt(bias, o)) == Output(wq[o], scale[o], BiasAt(bias, o), x)
  {
    hide IntDot, Output, Scaled;
    forall o | lo <= o < lo + |acc| && o < |wq|
      ensures Scaled(acc[o - lo], scale[o], BiasAt(bias, o)) == Output(wq[o], scale[o], BiasAt(bias, o), x)
    {
      assert acc[o - lo] == IntDot(wq[lo + (o - lo)], x, |x|);
      Fused(wq[o], scale[o], BiasAt(bias, o), x, acc[o - lo]);
    }
  }

  /** The accumulator after the first n input features. */
  ghost predicate AccHolds(acc: seq<real>, wq: seq<seq<int>>, x: seq<real>, lo: nat, n: nat)
    requires n <= |x| && forall o | 0 <= o < |wq| :: |wq[o]| == |x|
  {
    forall lane | 0 <= lane < |acc| && lo + lane < |wq| :: acc[lane] == IntDot(wq[lo + lane], x, n)
  }

  lemma AccStart(acc: seq<real>, wq: seq<seq<int>>, x: seq<real>, lo: nat)
    requires forall o | 0 <= o < |wq| :: |wq[o]| == |x|
    requires forall lane | 0 <= lane < |acc| :: acc[lane] == 0.0
    ensures AccHolds(acc, wq, x, lo, Min(0, |x|))
  {
  }

  function AddTile(acc: seq<real>, wq: seq<seq<int>>, x: seq<real>, lo: nat, k0: nat, blockK: nat): (acc': seq<real>)
    requires forall o | 0 <= o < |wq| :: |wq[o]| == |x|
    ensures |acc'| == |acc|
  {
    seq(|acc|, lane requires 0 <= lane < |acc| =>
      acc[lane] + (if lo + lane < |wq| then TileSum(wq[lo + lane], x, k0, blockK) else 0.0))
  }

  lemma AddTileHolds(acc: seq<real>, wq: seq<seq<int>>, x: seq<real>, lo: nat, k0: nat, blockK: nat)
    requires forall o | 0 <= o < |wq| :: |wq[o]| == |x|
    requires AccHolds(acc, wq, x, lo, Min(k0, |x|))
    ensures AccHolds(AddTile(acc, wq, x, lo, k0, blockK), wq, x, lo, Min(k0 + blockK, |x|))
  {
    hide TileSum, IntDot, Min;
    var acc' := AddTile(acc, wq, x, lo, k0, blockK);
    forall lane | 0 <= lane < |acc'| && lo + lane < |wq|
      ensures acc'[lane] == IntDot(wq[lo + lane], x, Min(k0 + blockK, |x|))
    {
      TileDot(wq[lo + lane], x, k0, blockK);
    }
  }

  lemma Fused(q: seq<int>, scale: real, bias: real, x: seq<real>, acc: real)
    requires |q| == |x| && acc == IntDot(q, x, |x|)
    ensures Scaled(acc, scale, bias) == Output(q, scale, bias, x)
  {
    hide Dot, IntDot, Dequantize;
    FusedDot(q, scale, x, |x|);
  }

  /** The grid of programs computes the layer, for every width and every tile size. */
  method DequantGemv(x: seq<seq<real>>, wq: seq<seq<int>>, scale: seq<real>, bias: Option<seq<real>>, blockO: nat,
      blockK: nat)
    returns (out: array2<real>)
    requires blockO > 0 && blockK > 0 && |scale| == |wq| && (bias.Some? ==> |bias.value| == |wq|)
    requires forall b, o | 0 <= b < |x| && 0 <= o < |wq| :: |wq[o]| == |x[b]|
    ensures fresh(out) && out.Length0 == |x| && out.Length1 == |wq|
    ensures bias.None? ==>
      forall b, o | 0 <= b < |x| && 0 <= o < |wq| :: out[b, o] == Output(wq[o], scale[o], 0.0, x[b])
    ensures bias.Some? ==>
      forall b, o | 0 <= b < |x| && 0 <= o < |wq| :: out[b, o] == Output(wq[o], scale[o], bias.value[o], x[b])
  {
    hide Output;
    out := new real[|x|, |wq|];
    var blocks := (|wq| + blockO - 1) / blockO;
    assert blocks * blockO >= |wq|;
    for b := 0 to |x|
      invariant forall r, o | 0 <= r < b && 0 <= o < |wq| :: out[r, o] == Output(wq[o], scale[o], BiasAt(bias, o), x[r])
    {
      for oBlock := 0 to blocks
        invariant forall r, o | 0 <= r < b && 0 <= o < |wq| ::
          out[r, o] == Output(wq[o], scale[o], BiasAt(bias, o), x[r])
        invariant forall o | 0 <= o < |wq| && o < oBlock * blockO ::
          out[b, o] == Output(wq[o], scale[o], BiasAt(bias, o), x[b])
      {
        assert forall o | 0 <= o < |wq| :: |wq[o]| == |x[b]|;
        GemvBlock(x[b], wq, scale, bias, out, b, oBlock, blockO, blockK);
      }
    }
  }
}
