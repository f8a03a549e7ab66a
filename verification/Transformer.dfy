/** The specification every fast path is measured against: an abstract causal
    transformer, its full re-forward over a whole sequence, and greedy decoding.

    The arithmetic of a layer is left abstract.  What is kept is what the cache,
    the masks and the positions must get right: the entry a layer stores for
    position i is computed from the hidden state at i, and a query at i is mixed
    with the entries of positions 0..i and no others. */
module Transformer {
  import opened Wrappers

  type Token = nat

  /** An activation vector; floats are idealised to reals. */
  type Vec = seq<real>

  /** What one layer stores for one position. */
  datatype KV = KV(k: Vec, v: Vec)

  /** A logit, with the -inf a vocabulary mask writes. */
  datatype Logit = NegInf | Fin(r: real)

  /** `embed` is token plus position embedding.  For layer l, `kv` projects a hidden
      state to its key and value; `attend` is the rest of the block for one query
      against the columns its mask leaves visible (masked columns have weight zero);
      `blind` is the block for a query whose mask hides every column, where the
      finite mask value makes attention uniform over all columns.  `head` is the
      final norm and the vocabulary projection.  `banned` is the vocabulary mask. */
  datatype Model = Model(
    nLayer: nat,
    blockSize: nat,
    vocab: nat,
    embed: (Token, nat) -> Vec,
    kv: (nat, Vec) -> KV,
    attend: (nat, Vec, seq<KV>) -> Vec,
    blind: (nat, Vec, seq<KV>) -> Vec,
    head: Vec -> seq<real>,
    banned: set<Token>)
  {
    ghost predicate Valid() {
      && 0 < vocab
      && forall x :: |head(x)| == vocab
    }
  }

  // ----- full re-forward

  function Embedded(m: Model, toks: seq<Token>): (h: seq<Vec>)
    ensures |h| == |toks|
  {
    seq(|toks|, i requires 0 <= i < |toks| => m.embed(toks[i], i))
  }

  /** The entries layer l derives from the hidden states h. */
  function Entries(m: Model, l: nat, h: seq<Vec>): (e: seq<KV>)
    ensures |e| == |h|
  {
    seq(|h|, i requires 0 <= i < |h| => m.kv(l, h[i]))
  }

  function Block(m: Model, l: nat, h: seq<Vec>): (h': seq<Vec>)
    ensures |h'| == |h|
  {
    seq(|h|, i requires 0 <= i < |h| => m.attend(l, h[i], Entries(m, l, h)[..i + 1]))
  }

  /** Hidden states of every position after the first l layers. */
  function Hidden(m: Model, toks: seq<Token>, l: nat): (h: seq<Vec>)
    ensures |h| == |toks|
  {
    if l == 0 then Embedded(m, toks) else Block(m, l - 1, Hidden(m, toks, l - 1))
  }

  /** The key/value entries layer l holds for the sequence toks. */
  function RefKV(m: Model, toks: seq<Token>, l: nat): (e: seq<KV>)
    ensures |e| == |toks|
  {
    Entries(m, l, Hidden(m, toks, l))
  }

  /** Causality: what the layers compute for a prefix does not depend on what follows it. */
  lemma {:induction false} HiddenCausal(m: Model, toks: seq<Token>, n: nat, l: nat)
    requires n <= |toks|
    ensures Hidden(m, toks[..n], l) == Hidden(m, toks, l)[..n]
    ensures RefKV(m, toks[..n], l) == RefKV(m, toks, l)[..n]
  {
    if l > 0 {
      HiddenCausal(m, toks, n, l - 1);
      var h, hn := Hidden(m, toks, l - 1), Hidden(m, toks[..n], l - 1);
      var b, bn := Block(m, l - 1, h), Block(m, l - 1, hn);
      forall i | 0 <= i < n ensures bn[i] == b[i] {
        assert Entries(m, l - 1, hn)[..i + 1] == Entries(m, l - 1, h)[..i + 1];
      }
    }
  }

  /** The same, for two sequences that agree on their first n tokens. */
  lemma RefKVAgree(m: Model, s: seq<Token>, t: seq<Token>, n: nat, l: nat)
    requires n <= |s| && n <= |t| && s[..n] == t[..n]
    ensures Hidden(m, s, l)[..n] == Hidden(m, t, l)[..n]
    ensures RefKV(m, s, l)[..n] == RefKV(m, t, l)[..n]
  {
    HiddenCausal(m, s, n, l);
    HiddenCausal(m, t, n, l);
  }

  // ----- greedy next token

  predicate Above(a: Logit, b: Logit) {
    a.Fin? && (b.NegInf? || a.r > b.r)
  }

  function Masked(m: Model, logits: seq<real>): (r: seq<Logit>)
    ensures |r| == |logits|
  {
    seq(|logits|, i requires 0 <= i < |logits| => if i in m.banned then NegInf else Fin(logits[i]))
  }

  /** Index of the first maximal logit. */
  function Argmax(s: seq<Logit>): (i: nat)
    requires |s| > 0
    ensures i < |s|
    ensures forall j | 0 <= j < |s| :: !Above(s[j], s[i])
    ensures forall j | 0 <= j < i :: Above(s[i], s[j])
  {
    if |s| == 1 then 0
    else
      var best := Argmax(s[..|s| - 1]);
      if Above(s[|s| - 1], s[best]) then |s| - 1 else best
  }

  function Greedy(m: Model, logits: seq<real>): (t: Token)
  {
    if |logits| == 0 then 0 else Argmax(Masked(m, logits))
  }

  /** The vocabulary mask at work: as long as some token is allowed, the chosen one is allowed, no
      allowed token has a larger logit, and those before it have smaller ones. */
  lemma GreedyObeysMask(m: Model, logits: seq<real>)
    requires exists i :: 0 <= i < |logits| && i !in m.banned
    ensures var t := Greedy(m, logits);
      && t < |logits| && t !in m.banned
      && (forall j | 0 <= j < |logits| && j !in m.banned :: logits[j] <= logits[t])
      && (forall j | 0 <= j < t && j !in m.banned :: logits[j] < logits[t])
  {
    var i :| 0 <= i < |logits| && i !in m.banned;
    var s, t := Masked(m, logits), Greedy(m, logits);
    assert !Above(s[i], s[t]);
    forall j | 0 <= j < |logits| && j !in m.banned
      ensures logits[j] <= logits[t] && (j < t ==> logits[j] < logits[t])
    {
      assert !Above(s[j], s[t]) && (j < t ==> Above(s[t], s[j]));
    }
  }

  /** With every token banned all logits are -inf, and the first index is chosen. */
  lemma GreedyAllBanned(m: Model, logits: seq<real>)
    requires forall i | 0 <= i < |logits| :: i in m.banned
    ensures Greedy(m, logits) == 0
  {
    if |logits| > 0 {
      assert Masked(m, logits)[0] == NegInf;
    }
  }

  /** Logits of the last position of a non-empty sequence. */
  function RefLogits(m: Model, toks: seq<Token>): seq<real>
    requires |toks| > 0
  {
    m.head(Hidden(m, toks, m.nLayer)[|toks| - 1])
  }

  /** The last blockSize tokens, all of them when there are no more. */
  function Crop(m: Model, toks: seq<Token>): (w: seq<Token>)
    requires |toks| > 0 && m.blockSize > 0
    ensures |w| > 0
    ensures |toks| <= m.blockSize ==> w == toks
  {
    if |toks| <= m.blockSize then toks else toks[|toks| - m.blockSize..]
  }

  /** Whatever came before, the window is the longest suffix the position table has room for. */
  lemma CropIsSuffix(m: Model, before: seq<Token>, window: seq<Token>)
    requires |window| > 0 && |window| <= m.blockSize && (before != [] ==> |window| == m.blockSize)
    ensures Crop(m, before + window) == window
  {
    if before != [] {
      assert (before + window)[|before|..] == window;
    } else {
      assert before + window == window;
    }
  }

  function Next(m: Model, toks: seq<Token>): Token
    requires |toks| > 0 && m.blockSize > 0
  {
    Greedy(m, RefLogits(m, Crop(m, toks)))
  }

  /** Reference greedy decoding: prompt followed by n tokens. */
  function GreedyGenerate(m: Model, toks: seq<Token>, n: nat): (r: seq<Token>)
    requires |toks| > 0 && m.blockSize > 0
    ensures |r| == |toks| + n && r[..|toks|] == toks
    decreases n
  {
    if n == 0 then toks else GreedyGenerate(m, toks + [Next(m, toks)], n - 1)
  }

  /** The vocabulary is not all banned. */
  ghost predicate SomeAllowed(m: Model) {
    exists t: Token :: t < m.vocab && t !in m.banned
  }

  lemma NextAllowed(m: Model, toks: seq<Token>)
    requires |toks| > 0 && m.blockSize > 0 && m.Valid() && SomeAllowed(m)
    ensures Next(m, toks) < m.vocab && Next(m, toks) !in m.banned
  {
    var t: Token :| t < m.vocab && t !in m.banned;
    var logits := RefLogits(m, Crop(m, toks));
    assert 0 <= t < |logits| && t !in m.banned;
    GreedyObeysMask(m, logits);
  }

  /** No token the reference appends is banned. */
  lemma {:induction false} GenerateObeysMask(m: Model, toks: seq<Token>, n: nat)
    requires |toks| > 0 && m.blockSize > 0 && m.Valid() && SomeAllowed(m)
    ensures forall i | |toks| <= i < |toks| + n :: GreedyGenerate(m, toks, n)[i] !in m.banned
    decreases n
  {
    hide Next;
    if n > 0 {
      var more := toks + [Next(m, toks)];
      NextAllowed(m, toks);
      GenerateObeysMask(m, more, n - 1);
      assert GreedyGenerate(m, more, n - 1)[..|more|] == more;
    }
  }

  /** out continues prompt with exactly the tokens greedy decoding picks. */
  ghost predicate IsGreedy(m: Model, prompt: seq<Token>, out: seq<Token>)
    requires |prompt| > 0 && m.blockSize > 0
  {
    forall j | 0 <= j < |out| :: out[j] == Next(m, prompt + out[..j])
  }

  lemma IsGreedyExtend(m: Model, prompt: seq<Token>, out: seq<Token>)
    requires |prompt| > 0 && m.blockSize > 0
    requires IsGreedy(m, prompt, out)
    ensures IsGreedy(m, prompt, out + [Next(m, prompt + out)])
  {
    hide Next;
    var o := out + [Next(m, prompt + out)];
    forall j | 0 <= j < |o| ensures o[j] == Next(m, prompt + o[..j]) {
      assert o[..j] == out[..j];
      assert out[..|out|] == out;
    }
  }

  lemma IsGreedyPrefix(m: Model, prompt: seq<Token>, out: seq<Token>, n: nat)
    requires |prompt| > 0 && m.blockSize > 0 && n <= |out|
    requires IsGreedy(m, prompt, out)
    ensures IsGreedy(m, prompt, out[..n])
  {
    hide Next;
    forall j | 0 <= j < n ensures out[..n][j] == Next(m, prompt + out[..n][..j]) {
      assert out[..n][..j] == out[..j];
    }
  }

  lemma IsGreedyAppend(m: Model, prompt: seq<Token>, out: seq<Token>, more: seq<Token>)
    requires |prompt| > 0 && m.blockSize > 0
    requires IsGreedy(m, prompt, out) && IsGreedy(m, prompt + out, more)
    ensures IsGreedy(m, prompt, out + more)
  {
    hide Next;
    var all := out + more;
    forall j | 0 <= j < |all| ensures all[j] == Next(m, prompt + all[..j]) {
      if j < |out| {
        assert all[..j] == out[..j];
      } else {
        assert prompt + all[..j] == prompt + out + more[..j - |out|];
      }
    }
  }

  lemma {:induction false} GreedySnoc(m: Model, toks: seq<Token>, n: nat)
    requires |toks| > 0 && m.blockSize > 0
    ensures var g := GreedyGenerate(m, toks, n); GreedyGenerate(m, toks, n + 1) == g + [Next(m, g)]
    decreases n
  {
    hide Next;
    if n == 0 {
      assert GreedyGenerate(m, toks, 1) == GreedyGenerate(m, toks + [Next(m, toks)], 0);
    } else {
      GreedySnoc(m, toks + [Next(m, toks)], n - 1);
    }
  }

  /** Being greedy token by token is the same as being what the reference loop appends. */
  lemma {:induction false} IsGreedyIff(m: Model, prompt: seq<Token>, out: seq<Token>)
    requires |prompt| > 0 && m.blockSize > 0
    ensures IsGreedy(m, prompt, out) <==> GreedyGenerate(m, prompt, |out|) == prompt + out
    decreases |out|
  {
    hide Next;
    if |out| == 0 {
      assert prompt + out == prompt;
    } else {
      var n := |out| - 1;
      var o := out[..n];
      assert out == o + [out[n]];
      IsGreedyIff(m, prompt, o);
      GreedySnoc(m, prompt, n);
      assert prompt + out == (prompt + o) + [out[n]];
      if IsGreedy(m, prompt, out) {
        IsGreedyPrefix(m, prompt, out, n);
      } else if IsGreedy(m, prompt, o) && out[n] == Next(m, prompt + o) {
        IsGreedyExtend(m, prompt, o);
      }
      var g := GreedyGenerate(m, prompt, n);
      assert (g + [Next(m, g)])[..|g|] == g;
      assert (prompt + out)[..|prompt + o|] == prompt + o;
    }
  }

  // ----- greedy decoding cut at an end-of-text token

  /** At most n greedy tokens after toks, stopping after the first end-of-text. */
  function GreedyUntil(m: Model, toks: seq<Token>, n: nat, eot: Option<Token>): (out: seq<Token>)
    requires |toks| > 0 && m.blockSize > 0
    ensures |out| <= n
    decreases n
  {
    if n == 0 then []
    else
      var t := Next(m, toks);
      if eot == Some(t) then [t] else [t] + GreedyUntil(m, toks + [t], n - 1, eot)
  }

  /** out is a greedy continuation in which end-of-text can only be last. */
  ghost predicate GreedyRun(m: Model, toks: seq<Token>, out: seq<Token>, eot: Option<Token>)
    requires |toks| > 0 && m.blockSize > 0
  {
    IsGreedy(m, toks, out) && forall i | 0 <= i < |out| - 1 :: Some(out[i]) != eot
  }

  ghost predicate Ended(out: seq<Token>, eot: Option<Token>) {
    out != [] && Some(out[|out| - 1]) == eot
  }

  /** A greedy run that has used up its budget or just met end-of-text is the reference's. */
  lemma {:induction false} GreedyUntilUnique(m: Model, toks: seq<Token>, out: seq<Token>, n: nat, eot: Option<Token>)
    requires |toks| > 0 && m.blockSize > 0
    requires GreedyRun(m, toks, out, eot) && |out| <= n && (|out| == n || Ended(out, eot))
    ensures out == GreedyUntil(m, toks, n, eot)
    decreases n
  {
    hide Next;
    if n > 0 {
      assert toks + out[..0] == toks;
      var rest := out[1..];
      var toks' := toks + [out[0]];
      forall j | 0 <= j < |rest| ensures rest[j] == Next(m, toks' + rest[..j]) {
        assert toks' + rest[..j] == toks + out[..j + 1];
      }
      if eot == Some(out[0]) {
        assert out == [out[0]];
      } else {
        GreedyUntilUnique(m, toks', rest, n - 1, eot);
        assert out == [out[0]] + rest;
      }
    }
  }

  /** The cut run is a prefix of what the reference loop appends, ends at its first end-of-text,
      and is cut nowhere else. */
  lemma {:induction false} GreedyUntilIsCut(m: Model, toks: seq<Token>, n: nat, eot: Option<Token>)
    requires |toks| > 0 && m.blockSize > 0
    ensures var out := GreedyUntil(m, toks, n, eot);
      && GreedyRun(m, toks, out, eot) && (|out| == n || Ended(out, eot))
      && GreedyGenerate(m, toks, |out|) == toks + out
    decreases n
  {
    hide Next, GreedyGenerate, IsGreedy;
    var out := GreedyUntil(m, toks, n, eot);
    IsGreedyEmpty(m, toks);
    if n > 0 {
      var t := Next(m, toks);
      if eot == Some(t) {
        assert out == [t] + [];
        IsGreedyEmpty(m, toks + [t]);
        IsGreedyCons(m, toks, t, []);
      } else {
        var rest := GreedyUntil(m, toks + [t], n - 1, eot);
        assert out == [t] + rest;
        GreedyUntilIsCut(m, toks + [t], n - 1, eot);
        IsGreedyCons(m, toks, t, rest);
      }
    }
    IsGreedyIff(m, toks, out);
  }

  lemma IsGreedyEmpty(m: Model, toks: seq<Token>)
    requires |toks| > 0 && m.blockSize > 0
    ensures IsGreedy(m, toks, [])
  {
  }

  lemma IsGreedyCons(m: Model, toks: seq<Token>, t: Token, rest: seq<Token>)
    requires |toks| > 0 && m.blockSize > 0
    requires t == Next(m, toks) && IsGreedy(m, toks + [t], rest)
    ensures IsGreedy(m, toks, [t] + rest)
  {
    hide Next;
    var out := [t] + rest;
    forall j | 0 <= j < |out| ensures out[j] == Next(m, toks + out[..j]) {
      if j == 0 {
        assert toks + out[..0] == toks;
      } else {
        assert toks + out[..j] == toks + [t] + rest[..j - 1];
      }
    }
  }
}
