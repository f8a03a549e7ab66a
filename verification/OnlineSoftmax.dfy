/** The paged decode kernel: one query walks its block table with a running maximum, a running
    sum and a running accumulator, rescaling all three whenever the maximum moves. */
module OnlineSoftmax {
  import opened Wrappers
  import opened Transformer
  import opened Forward
  import opened Blocks
  import opened PagedCache
  import opened Exponential

  // ----- exp, and what softmax attention is

  /** exp with exp(-inf) = 0, of a score less a finite shift. */
  function ExpShift(e: real -> real, s: Logit, shift: real): real {
    match s
    case NegInf => 0.0
    case Fin(r) => e(r - shift)
  }

  /** Sum of exp(s[j] - shift) * w[j] over j < n. */
  function Weighted(e: real -> real, s: seq<real>, w: seq<real>, shift: real, n: nat): real
    requires n <= |s| && n <= |w|
  {
    if n == 0 then 0.0 else Weighted(e, s, w, shift, n - 1) + e(s[n - 1] - shift) * w[n - 1]
  }

  function Ones(n: nat): (w: seq<real>)
    ensures |w| == n && forall j | 0 <= j < n :: w[j] == 1.0
  {
    seq(n, j => 1.0)
  }

  /** Moving the shift multiplies every term, so the whole sum, by one factor. */
  lemma {:induction false} Rescale(e: real -> real, s: seq<real>, w: seq<real>, a: real, b: real, n: nat)
    requires ExpLike(e) && n <= |s| && n <= |w|
    ensures Weighted(e, s, w, b, n) == Weighted(e, s, w, a, n) * e(a - b)
  {
    hide ExpLike;
    if n > 0 {
      Rescale(e, s, w, a, b, n - 1);
      var x := s[n - 1] - a;
      ExpAdd(e, x, a - b);
      assert s[n - 1] - b == x + (a - b);
      Pull(Weighted(e, s, w, a, n - 1), e(x), w[n - 1], e(a - b));
    }
  }

  lemma Pull(t: real, x: real, w: real, f: real)
    ensures t * f + x * f * w == (t + x * w) * f
  {
  }

  lemma {:induction false} OnesPositive(e: real -> real, s: seq<real>, shift: real, n: nat)
    requires ExpLike(e) && n <= |s|
    ensures Weighted(e, s, Ones(|s|), shift, n) >= 0.0
    ensures n > 0 ==> Weighted(e, s, Ones(|s|), shift, n) > 0.0
  {
    hide ExpLike;
    if n > 0 {
      OnesPositive(e, s, shift, n - 1);
      ExpPositive(e, s[n - 1] - shift);
    }
  }

  // ----- one program of the kernel

  function DotUpTo(k: Vec, q: Vec, n: nat): real
    requires n <= |k| && n <= |q|
  {
    if n == 0 then 0.0 else DotUpTo(k, q, n - 1) + k[n - 1] * q[n - 1]
  }

  /** What one (sequence, head) program is given; `table` has MAX_BLOCKS entries. */
  datatype Program = Program(
    q: Vec,
    kPool: seq<seq<Vec>>,
    vPool: seq<seq<Vec>>,
    table: seq<nat>,
    seqLen: nat,
    blockSize: nat,
    scale: real)
  {
    ghost predicate PoolOk(pool: seq<seq<Vec>>) {
      forall b | 0 <= b < |pool| :: |pool[b]| == blockSize && forall i | 0 <= i < blockSize :: |pool[b][i]| == |q|
    }

    /** Table entries past what the sequence needs may be anything. */
    ghost predicate Valid() {
      && blockSize > 0 && |kPool| == |vPool| && PoolOk(kPool) && PoolOk(vPool)
      && forall b | 0 <= b < |table| && b < Needed() :: table[b] < |kPool|
    }

    function Needed(): nat
      requires blockSize > 0
    {
      BlocksNeeded(seqLen, blockSize)
    }

    /** Tokens covered by the first b blocks. */
    function Covered(b: nat): (n: nat)
      ensures n <= seqLen
    {
      if b * blockSize < seqLen then b * blockSize else seqLen
    }

    predicate Active(b: nat, lane: nat)
      requires blockSize > 0
    {
      b < Needed() && b * blockSize + lane < seqLen
    }

    /** Keys and values in token order, as the table places them. */
    ghost function Key(j: nat): (k: Vec)
      requires Valid() && j < Covered(|table|)
      ensures |k| == |q|
    {
      TokenBlock(j);
      kPool[table[j / blockSize]][j % blockSize]
    }

    ghost function Value(j: nat): (v: Vec)
      requires Valid() && j < Covered(|table|)
      ensures |v| == |q|
    {
      TokenBlock(j);
      vPool[table[j / blockSize]][j % blockSize]
    }

    ghost function Scores(): (s: seq<real>)
      requires Valid()
      ensures |s| == Covered(|table|) && forall j | 0 <= j < |s| :: s[j] == DotUpTo(Key(j), q, |q|) * scale
    {
      seq(Covered(|table|), j requires 0 <= j < Covered(|table|) => DotUpTo(Key(j), q, |q|) * scale)
    }

    ghost function Column(d: nat): (w: seq<real>)
      requires Valid() && d < |q|
      ensures |w| == Covered(|table|) && forall j | 0 <= j < |w| :: w[j] == Value(j)[d]
    {
      seq(Covered(|table|), j requires 0 <= j < Covered(|table|) => Value(j)[d])
    }

    lemma TokenBlock(j: nat)
      requires blockSize > 0 && j < Covered(|table|)
      ensures j / blockSize < |table| && j / blockSize < Needed() && j % blockSize < blockSize
    {
      if j / blockSize >= |table| {
        MulMonotone(|table|, j / blockSize, blockSize);
      }
      Covers(j, blockSize, Needed());
      BlocksNeededMonotone(j + 1, seqLen, blockSize);
    }

    /** A lane the mask switches off lies past everything the table covers. */
    lemma LaneIdle(b: nat, lane: nat)
      requires blockSize > 0 && b < |table| && lane < blockSize && !Active(b, lane)
      ensures b * blockSize + lane >= Covered(|table|)
    {
      if b * blockSize + lane < Covered(|table|) {
        LaneToken(b, lane);
      }
    }

    lemma CoveredAll()
      requires blockSize > 0
      ensures Needed() <= |table| ==> Covered(|table|) == seqLen
      ensures seqLen > 0 && table != [] ==> Covered(|table|) > 0
    {
      BlocksNeededSpan(seqLen, blockSize);
      if Needed() <= |table| {
        MulMonotone(Needed(), |table|, blockSize);
      }
      if table != [] {
        MulMonotone(1, |table|, blockSize);
      }
    }

    lemma LaneToken(b: nat, lane: nat)
      requires blockSize > 0 && b < |table| && lane < blockSize && b * blockSize + lane < seqLen
      ensures var j := b * blockSize + lane;
        j < Covered(|table|) && j / blockSize == b && j % blockSize == lane && b < Needed()
    {
      MulMonotone(b + 1, |table|, blockSize);
      var j := b * blockSize + lane;
      QuotientUnique(j / blockSize, j % blockSize, b, lane, blockSize);
      TokenBlock(j);
    }
  }

  // ----- the walk

  function MaxLogit(s: seq<Logit>): (m: Logit)
    ensures m.NegInf? || exists i | 0 <= i < |s| :: s[i] == m
    ensures forall i | 0 <= i < |s| && s[i].Fin? :: m.Fin? && s[i].r <= m.r
  {
    if s == [] then NegInf
    else
      var rest := MaxLogit(s[..|s| - 1]);
      var last := s[|s| - 1];
      assert forall i | 0 <= i < |s| - 1 :: s[i] == s[..|s| - 1][i];
      Larger(rest, last)
  }

  function Larger(a: Logit, b: Logit): Logit {
    if a.NegInf? then b else if b.NegInf? then a else if a.r < b.r then b else a
  }

  /** tl.where(m == -inf, 0, m). */
  function Finite(m: Logit): real {
    match m case NegInf => 0.0 case Fin(r) => r
  }

  /** The registers after n tokens: sums shifted by a bound on every score so far, so that no
      exponent is positive. */
  ghost predicate Registers(e: real -> real, s: seq<real>, ws: seq<seq<real>>, m: Logit, l: real, acc: Vec, n: nat) {
    && n <= |s| && |acc| == |ws| && (n > 0 ==> m.Fin?)
    && (forall j | 0 <= j < n :: s[j] <= Finite(m))
    && l == Weighted(e, s, Ones(|s|), Finite(m), n)
    && forall d | 0 <= d < |ws| :: |ws[d]| == |s| && acc[d] == Weighted(e, s, ws[d], Finite(m), n)
  }

  function LaneScore(h: Program, b: nat, i: nat): (s: Logit)
    requires h.Valid() && b < |h.table| && i < h.blockSize
    ensures var all, j := h.Scores(), b * h.blockSize + i; s == if j < |all| then Fin(all[j]) else NegInf
  {
    if h.Active(b, i) then
      h.LaneToken(b, i);
      Fin(DotUpTo(h.kPool[h.table[b]][i], h.q, |h.q|) * h.scale)
    else
      h.LaneIdle(b, i);
      NegInf
  }

  function LaneValue(h: Program, b: nat, d: nat, i: nat): (x: real)
    requires h.Valid() && b < |h.table| && d < |h.q| && i < h.blockSize
    ensures var w, j := h.Column(d), b * h.blockSize + i; j < |w| ==> x == w[j]
  {
    if h.Active(b, i) then
      h.LaneToken(b, i);
      h.vPool[h.table[b]][i][d]
    else
      h.LaneIdle(b, i);
      0.0
  }

  /** A block's scores, masked lanes at -inf. */
  function LoadScores(h: Program, b: nat): (scores: seq<Logit>)
    requires h.Valid() && b < |h.table|
    ensures |scores| == h.blockSize && BlockOf(h.Scores(), b * h.blockSize, scores)
  {
    seq(h.blockSize, i requires 0 <= i < h.blockSize => LaneScore(h, b, i))
  }

  /** One dimension of a block's values, masked lanes at 0. */
  function LoadValues(h: Program, b: nat, d: nat): (lanes: seq<real>)
    requires h.Valid() && b < |h.table| && d < |h.q|
    ensures |lanes| == h.blockSize && LanesOf(h.Column(d), b * h.blockSize, lanes)
  {
    seq(h.blockSize, i requires 0 <= i < h.blockSize => LaneValue(h, b, d, i))
  }

  ghost function Columns(h: Program): (ws: seq<seq<real>>)
    requires h.Valid()
    ensures |ws| == |h.q| && forall d | 0 <= d < |ws| :: ws[d] == h.Column(d)
  {
    seq(|h.q|, d requires 0 <= d < |h.q| => h.Column(d))
  }

  function Weights(e: real -> real, scores: seq<Logit>, shift: real): (p: seq<real>)
    ensures |p| == |scores| && forall i | 0 <= i < |p| :: p[i] == ExpShift(e, scores[i], shift)
  {
    seq(|scores|, i requires 0 <= i < |scores| => ExpShift(e, scores[i], shift))
  }

  /** The scores of one block: the tokens from base on, then -inf. */
  ghost predicate BlockOf(s: seq<real>, base: nat, scores: seq<Logit>) {
    && (forall i | 0 <= i < |scores| && base + i < |s| :: scores[i] == Fin(s[base + i]))
    && (forall i | 0 <= i < |scores| && base + i >= |s| :: scores[i] == NegInf)
  }

  ghost predicate LanesOf(w: seq<real>, base: nat, lanes: seq<real>) {
    forall i | 0 <= i < |lanes| && base + i < |w| :: lanes[i] == w[base + i]
  }

  lemma CarryOld(e: real -> real, s: seq<real>, w: seq<real>, m: Logit, shift: real, n: nat)
    requires ExpLike(e) && n <= |s| == |w| && (n > 0 ==> m.Fin?)
    ensures Weighted(e, s, w, Finite(m), n) * ExpShift(e, m, shift) == Weighted(e, s, w, shift, n)
  {
    hide ExpLike;
    if n > 0 {
      Rescale(e, s, w, Finite(m), shift, n);
    }
  }

  /** Sum over the first k lanes of a block; lanes past the sequence carry weight zero. */
  lemma {:induction false} LaneSum(e: real -> real, s: seq<real>, w: seq<real>, shift: real, base: nat,
      scores: seq<Logit>, lanes: seq<real>, k: nat)
    requires |s| == |w| && |lanes| == |scores| && BlockOf(s, base, scores) && LanesOf(w, base, lanes) && k <= |scores|
    ensures DotUpTo(Weights(e, scores, shift), lanes, k)
      == Weighted(e, s, w, shift, Min(base + k, |s|)) - Weighted(e, s, w, shift, Min(base, |s|))
  {
    hide BlockOf, LanesOf;
    if k > 0 {
      LaneSum(e, s, w, shift, base, scores, lanes, k - 1);
      LaneTerm(s, w, base, scores, lanes, k - 1);
    }
  }

  lemma LaneTerm(s: seq<real>, w: seq<real>, base: nat, scores: seq<Logit>, lanes: seq<real>, i: nat)
    requires |s| == |w| && |lanes| == |scores| && BlockOf(s, base, scores) && LanesOf(w, base, lanes) && i < |scores|
    ensures if base + i < |s| then scores[i] == Fin(s[base + i]) && lanes[i] == w[base + i] else scores[i] == NegInf
  {
  }

  /** One register carried over a block: rescale what is there, add the block's lanes. */
  lemma Carry(e: real -> real, s: seq<real>, w: seq<real>, m: Logit, shift: real, x: real, base: nat,
      scores: seq<Logit>, lanes: seq<real>)
    requires ExpLike(e) && |s| == |w| && |lanes| == |scores| && (Min(base, |s|) > 0 ==> m.Fin?)
    requires x == Weighted(e, s, w, Finite(m), Min(base, |s|))
    requires BlockOf(s, base, scores) && LanesOf(w, base, lanes)
    ensures x * ExpShift(e, m, shift) + DotUpTo(Weights(e, scores, shift), lanes, |scores|)
      == Weighted(e, s, w, shift, Min(base + |scores|, |s|))
  {
    hide ExpLike, Weighted, DotUpTo, BlockOf, LanesOf, ExpShift, Finite, Weights, Min;
    CarryOld(e, s, w, m, shift, Min(base, |s|));
    LaneSum(e, s, w, shift, base, scores, lanes, |scores|);
    assert x * ExpShift(e, m, shift) == Weighted(e, s, w, shift, Min(base, |s|));
  }

  /** The loop over blocks. */
  method Walk(h: Program, e: real -> real) returns (m: Logit, l: real, acc: Vec)
    requires h.Valid() && ExpLike(e)
    ensures Registers(e, h.Scores(), Columns(h), m, l, acc, h.Covered(|h.table|))
  {
    hide ExpLike, Weighted, DotUpTo, BlocksNeeded;
    ghost var s, ws := h.Scores(), Columns(h);
    m, l, acc := NegInf, 0.0, seq(|h.q|, d => 0.0);
    WalkStart(e, s, ws, acc);
    for b := 0 to |h.table|
      invariant Registers(e, s, ws, m, l, acc, Min(b * h.blockSize, |s|))
    {
      m, l, acc := WalkBlock(h, e, b, m, l, acc);
      assert (b + 1) * h.blockSize == b * h.blockSize + h.blockSize;
    }
  }

  lemma WalkStart(e: real -> real, s: seq<real>, ws: seq<seq<real>>, acc: Vec)
    requires |acc| == |ws| && forall d | 0 <= d < |ws| :: |ws[d]| == |s| && acc[d] == 0.0
    ensures Registers(e, s, ws, NegInf, 0.0, acc, 0)
  {
  }

  method WalkBlock(h: Program, e: real -> real, b: nat, m: Logit, l: real, acc: Vec)
    returns (m': Logit, l': real, acc': Vec)
    requires h.Valid() && ExpLike(e) && b < |h.table|
    requires Registers(e, h.Scores(), Columns(h), m, l, acc, Min(b * h.blockSize, |h.Scores()|))
    ensures Registers(e, h.Scores(), Columns(h), m', l', acc', Min(b * h.blockSize + h.blockSize, |h.Scores()|))
  {
    hide ExpLike, Weighted, DotUpTo, BlocksNeeded, ExpShift, BlockOf, LanesOf, Finite, Larger, LoadScores;
    ghost var s, base := h.Scores(), b * h.blockSize;
    var scores := LoadScores(h, b);
    var top := Larger(m, MaxLogit(scores));
    Bounded(s, scores, m, Min(base, |s|), base);
    m' := Fin(Finite(top));
    FiniteFin(Finite(top));
    LanesOnes(|s|, base, h.blockSize);
    Carry(e, s, Ones(|s|), m, Finite(m'), l, base, scores, Ones(h.blockSize));
    l' := l * ExpShift(e, m, Finite(m')) + DotUpTo(Weights(e, scores, Finite(m')), Ones(h.blockSize), h.blockSize);
    acc' := WalkValues(h, e, b, m, acc, scores, Finite(m'));
  }

  lemma FiniteFin(r: real)
    ensures Finite(Fin(r)) == r
  {
  }

  lemma LanesOnes(n: nat, base: nat, lanes: nat)
    ensures LanesOf(Ones(n), base, Ones(lanes))
  {
  }

  method WalkValues(h: Program, e: real -> real, b: nat, m: Logit, acc: Vec, scores: seq<Logit>, shift: real)
    returns (acc': Vec)
    requires h.Valid() && ExpLike(e) && b < |h.table|
    requires |scores| == h.blockSize && BlockOf(h.Scores(), b * h.blockSize, scores)
    requires Min(b * h.blockSize, |h.Scores()|) > 0 ==> m.Fin?
    requires |acc| == |h.q|
    requires forall d | 0 <= d < |h.q| ::
      acc[d] == Weighted(e, h.Scores(), Columns(h)[d], Finite(m), Min(b * h.blockSize, |h.Scores()|))
    ensures |acc'| == |h.q|
    ensures forall d | 0 <= d < |h.q| ::
      acc'[d] == Weighted(e, h.Scores(), Columns(h)[d], shift, Min(b * h.blockSize + h.blockSize, |h.Scores()|))
  {
    hide *;
    ghost var s, ws, base := h.Scores(), Columns(h), b * h.blockSize;
    var alpha, p := ExpShift(e, m, shift), Weights(e, scores, shift);
    acc' := [];
    for d := 0 to |h.q|
      invariant |acc'| == d
      invariant forall i | 0 <= i < d :: acc'[i] == Weighted(e, s, ws[i], shift, Min(base + h.blockSize, |s|))
    {
      var lanes := LoadValues(h, b, d);
      Carry(e, s, ws[d], m, shift, acc[d], base, scores, lanes);
      acc' := acc' + [acc[d] * alpha + DotUpTo(p, lanes, h.blockSize)];
    }
  }

  /** The new maximum bounds the scores seen before and those of the block. */
  lemma Bounded(s: seq<real>, scores: seq<Logit>, m: Logit, n: nat, base: nat)
    requires n == Min(base, |s|) && (n > 0 ==> m.Fin?) && forall j | 0 <= j < n :: s[j] <= Finite(m)
    requires BlockOf(s, base, scores)
    ensures forall j | 0 <= j < Min(base + |scores|, |s|) :: s[j] <= Finite(Larger(m, MaxLogit(scores)))
  {
    var max := MaxLogit(scores);
    forall j | 0 <= j < Min(base + |scores|, |s|) ensures s[j] <= Finite(Larger(m, max)) {
      if j >= base {
        assert scores[j - base] == Fin(s[base + (j - base)]);
      }
    }
  }

  /** Softmax attention over the tokens the table covers: all of them when it has enough blocks. */
  method PagedDecodeAttention(h: Program, e: real -> real) returns (out: Vec)
    requires h.Valid() && ExpLike(e) && h.seqLen > 0 && h.table != []
    ensures h.Needed() <= |h.table| ==> h.Covered(|h.table|) == h.seqLen
    ensures |out| == |h.q|
    ensures Weighted(e, h.Scores(), Ones(|h.Scores()|), 0.0, h.Covered(|h.table|)) > 0.0
    ensures forall d | 0 <= d < |out| ::
      out[d] == Weighted(e, h.Scores(), h.Column(d), 0.0, h.Covered(|h.table|))
        / Weighted(e, h.Scores(), Ones(|h.Scores()|), 0.0, h.Covered(|h.table|))
  {
    hide ExpLike, Weighted, DotUpTo, BlocksNeeded;
    ghost var s, n := h.Scores(), h.Covered(|h.table|);
    h.CoveredAll();
    var m, l, acc := Walk(h, e);
    OnesPositive(e, s, Finite(m), n);
    OnesPositive(e, s, 0.0, n);
    out := seq(|acc|, d requires 0 <= d < |acc| && l > 0.0 => acc[d] / l);
    forall d | 0 <= d < |out|
      ensures out[d] == Weighted(e, s, h.Column(d), 0.0, n) / Weighted(e, s, Ones(|s|), 0.0, n)
    {
      assert Columns(h)[d] == h.Column(d);
      ExpPositive(e, Finite(m) - 0.0);
      Rescale(e, s, h.Column(d), Finite(m), 0.0, n);
      Rescale(e, s, Ones(|s|), Finite(m), 0.0, n);
      Cancel(acc[d], l, e(Finite(m) - 0.0));
    }
  }

  lemma Cancel(a: real, l: real, f: real)
    requires l > 0.0 && f > 0.0
    ensures l * f > 0.0 && a / l == (a * f) / (l * f)
  {
    var x := a / l;
    assert x * l == a;
    assert x * (l * f) == a * f;
  }

  // ----- against the gather it replaces

  /** The kernel's pools hold the entries of one layer of the cache. */
  ghost predicate PoolsAre(h: Program, layer: Layer) {
    && |h.kPool| == |h.vPool| && h.PoolOk(h.kPool) && h.PoolOk(h.vPool)
    && forall b, i | 0 <= b < |h.kPool| && 0 <= i < h.blockSize ::
         Loc(b, i) in layer && layer[Loc(b, i)] == KV(h.kPool[b][i], h.vPool[b][i])
  }

  /** The tokens the kernel walks are exactly the columns the gathered read leaves visible to a row
      of that length, and their keys and values are the entries gathered there. */
  lemma KernelReadsGathered(h: Program, layer: Layer, width: nat, n: nat, c: nat)
    requires h.Valid() && PoolsAre(h, layer) && h.Needed() <= |h.table|
    requires h.seqLen <= n && BlocksNeeded(n, h.blockSize) <= |Padded(h.table, width)| && c < n
    ensures DecodeMask([h.seqLen], n)[0][0][c] <==> c < h.Covered(|h.table|)
    ensures c < h.Covered(|h.table|) ==>
      && c / h.blockSize < |h.table|
      && var cell := Gathered(Padded(h.table, width), n, h.blockSize)[c];
         && cell == TokenCell(h.table, c, h.blockSize)
         && cell in layer && layer[cell] == KV(h.Key(c), h.Value(c))
  {
    hide BlocksNeeded, Gathered, Padded;
    h.CoveredAll();
    if c < h.Covered(|h.table|) {
      h.TokenBlock(c);
      GatheredCell(h.table, width, n, h.blockSize, c);
    }
  }
}
