/** The n-gram drafter: propose whatever followed the latest earlier occurrence of the last n tokens. */
module PromptLookup {
  import opened Wrappers
  import opened Transformer
  import opened SpecDecode
  import opened Speculative

  /** The last n tokens; the whole context when n is 0, as a negative-zero slice gives. */
  function Needle(context: seq<Token>, n: nat): seq<Token>
    requires n <= |context|
  {
    if n == 0 then context else context[|context| - n..]
  }

  predicate MatchAt(context: seq<Token>, n: nat, start: nat)
    requires n <= |context|
  {
    start + n <= |context| && context[start..start + n] == Needle(context, n)
  }

  /** The latest match that starts before `limit`. */
  function LatestMatch(context: seq<Token>, n: nat, limit: nat): (start: Option<nat>)
    requires n <= |context| && limit + n <= |context|
    ensures start.Some? ==> start.value < limit && MatchAt(context, n, start.value)
    ensures forall s | (if start.Some? then start.value < s else 0 <= s) && s < limit :: !MatchAt(context, n, s)
  {
    if limit == 0 then None
    else if MatchAt(context, n, limit - 1) then Some(limit - 1)
    else LatestMatch(context, n, limit - 1)
  }

  function Follow(context: seq<Token>, at: nat, gamma: nat): (draft: seq<Token>)
    requires at < |context|
    ensures |draft| <= gamma && (gamma > 0 ==> draft != [])
    ensures forall i | 0 <= i < |draft| :: at + i < |context| && draft[i] == context[at + i]
  {
    context[at..if at + gamma < |context| then at + gamma else |context|]
  }

  function OneHotRows(vocab: nat, draft: seq<Token>): (q: seq<Weights>)
    ensures |q| == |draft| && forall i | 0 <= i < |q| :: q[i] == OneHot(vocab, draft[i])
  {
    seq(|draft|, i requires 0 <= i < |draft| => OneHot(vocab, draft[i]))
  }

  function Lookup(m: Model, n: nat, context: seq<Token>, gamma: nat): (p: Proposal) {
    if |context| < n then None
    else
      match LatestMatch(context, n, |context| - n)
      case None => None
      case Some(start) =>
        if start + n < |context| then
          var draft := Follow(context, start + n, gamma);
          if draft == [] then None else Some((draft, OneHotRows(m.vocab, draft)))
        else None
  }

  /** The needle occurs at s, before its own place at the end, and nowhere later than that. */
  ghost predicate LatestAt(context: seq<Token>, n: nat, s: nat)
    requires n <= |context|
  {
    && s + n < |context| && MatchAt(context, n, s)
    && forall t | s < t && t + n < |context| :: !MatchAt(context, n, t)
  }

  /** The draft is what follows that occurrence, up to gamma tokens of it. */
  ghost predicate FollowsLatest(context: seq<Token>, n: nat, gamma: nat, draft: seq<Token>)
    requires n <= |context|
  {
    exists s: nat :: LatestAt(context, n, s) && draft == context[s + n..Min(s + n + gamma, |context|)]
  }

  /** The backward search finds the latest match. */
  method Search(context: seq<Token>, n: nat) returns (matchEnd: Option<nat>)
    requires n <= |context|
    ensures match LatestMatch(context, n, |context| - n)
      case None => matchEnd.None?
      case Some(start) => start + n < |context| && matchEnd == Some(start + n)
  {
    hide MatchAt;
    matchEnd := None;
    var start := |context| - n;
    while start > 0
      invariant 0 <= start && start + n <= |context|
      invariant LatestMatch(context, n, |context| - n) == LatestMatch(context, n, start)
    {
      start := start - 1;
      if MatchAt(context, n, start) {
        return Some(start + n);
      }
    }
  }

  /** The draft is the up to gamma tokens that followed the latest earlier occurrence of the last n
      tokens, each proposed with certainty; there is none exactly when there is no such occurrence,
      the context is shorter than n, or no draft is allowed. */
  method Propose(m: Model, n: nat, context: seq<Token>, gamma: nat) returns (p: Proposal)
    ensures p == Lookup(m, n, context, gamma)
    ensures p.Some? <==> gamma > 0 && n <= |context| && exists s: nat :: s + n < |context| && MatchAt(context, n, s)
    ensures p.Some? ==> n <= |context| && FollowsLatest(context, n, gamma, p.value.0)
    ensures p.Some? ==>
      |p.value.1| == |p.value.0| && forall i | 0 <= i < |p.value.0| :: p.value.1[i] == OneHot(m.vocab, p.value.0[i])
  {
    hide LatestMatch, MatchAt;
    LookupMeans(m, n, context, gamma);
    if |context| < n {
      return None;
    }
    var matchEnd := Search(context, n);
    if matchEnd.None? {
      return None;
    }
    var draft := Follow(context, matchEnd.value, gamma);
    if draft == [] {
      return None;
    }
    p := Some((draft, OneHotRows(m.vocab, draft)));
  }

  lemma LookupMeans(m: Model, n: nat, context: seq<Token>, gamma: nat)
    ensures var p := Lookup(m, n, context, gamma);
      && (p.Some? <==> gamma > 0 && n <= |context| && exists s: nat :: s + n < |context| && MatchAt(context, n, s))
      && (p.Some? ==> FollowsLatest(context, n, gamma, p.value.0))
      && (p.Some? ==> p.value.1 == OneHotRows(m.vocab, p.value.0))
  {
    hide MatchAt;
    if n <= |context| {
      if gamma > 0 {
        LookupProposesIff(m, n, context, gamma);
      }
      var found := LatestMatch(context, n, |context| - n);
      if found.Some? {
        assert LatestAt(context, n, found.value);
      }
    }
  }

  /** The drafter proposes exactly when the last n tokens occurred before. */
  lemma LookupProposesIff(m: Model, n: nat, context: seq<Token>, gamma: nat)
    requires gamma > 0 && n <= |context|
    ensures Lookup(m, n, context, gamma).Some? <==> exists s: nat :: s + n < |context| && MatchAt(context, n, s)
  {
    var found := LatestMatch(context, n, |context| - n);
    if found.Some? {
      assert MatchAt(context, n, found.value) && found.value + n < |context|;
    }
  }

  /** It is a drafter the speculative loop accepts. */
  lemma LookupDrafterOk(m: Model, n: nat)
    ensures DrafterOk(m, (round, context, g) => Lookup(m, n, context, g))
  {
    var propose: Drafter := (round, context, g) => Lookup(m, n, context, g);
    forall round, context, g | InVocab(m, context) && g > 0 ensures WellProposed(m, propose(round, context, g), g) {
      assert propose(round, context, g) == Lookup(m, n, context, g);
    }
  }
}
