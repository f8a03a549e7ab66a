/** A request and the bookkeeping of running it. */
module Requests {
  import opened Wrappers
  import opened Transformer
  import opened Tokenizer

  type RequestId = string

  /** temperature <= 0 asks for greedy decoding; `n` is the number of completions asked for. */
  datatype Request = Request(
    id: RequestId,
    prompt: seq<Token>,
    maxTokens: int,
    temperature: real,
    n: int,
    stop: seq<string>,
    eot: Option<Token>)
  {
    predicate Greedy() {
      temperature <= 0.0
    }
  }

  datatype Status = Waiting | Running | Finished

  datatype Reason = Eot | Length | Stop | Cancelled

  /** The value of a SequenceState. */
  datatype Seq = Seq(
    request: Request,
    output: seq<Token>,
    status: Status,
    table: seq<nat>,
    computed: nat,
    reason: Option<Reason>,
    text: string)
  {
    function Tokens(): seq<Token> {
      request.prompt + output
    }

    function NumTokens(): nat {
      |request.prompt| + |output|
    }
  }

  function Fresh(r: Request): Seq {
    Seq(r, [], Waiting, [], 0, None, "")
  }

  class SequenceState {
    const request: Request
    var outputTokenIds: seq<Token>
    var status: Status
    var blockTable: seq<nat>
    var numComputedTokens: nat
    var finishReason: Option<Reason>
    var detokenizedText: string

    constructor (request: Request)
      ensures this.request == request && View() == Fresh(request)
    {
      this.request := request;
      outputTokenIds, status, blockTable := [], Waiting, [];
      numComputedTokens, finishReason, detokenizedText := 0, None, "";
    }

    function View(): (q: Seq)
      reads this
      ensures q.request == request
    {
      Seq(request, outputTokenIds, status, blockTable, numComputedTokens, finishReason, detokenizedText)
    }

    function NumTokens(): (n: nat)
      reads this
      ensures n == View().NumTokens()
    {
      |request.prompt| + |outputTokenIds|
    }

    function Tokens(): (t: seq<Token>)
      reads this
      ensures t == View().Tokens()
    {
      request.prompt + outputTokenIds
    }

    function Table(): (t: seq<nat>)
      reads this
      ensures t == View().table
    {
      blockTable
    }

    /** The token to feed on the next decode step. */
    function LastTokenId(): Token
      requires request.prompt != []
      reads this
    {
      if outputTokenIds != [] then outputTokenIds[|outputTokenIds| - 1] else request.prompt[|request.prompt| - 1]
    }

    method SetComputed(n: nat)
      modifies this`numComputedTokens
      ensures View() == old(View()).(computed := n)
    {
      numComputedTokens := n;
    }

    method Reset()
      modifies this`numComputedTokens, this`status
      ensures View() == old(View()).(computed := 0, status := Waiting)
    {
      numComputedTokens := 0;
      status := Waiting;
    }

    method Close(reason: Reason)
      modifies this`status, this`finishReason
      ensures View() == old(View()).(status := Finished, reason := Some(reason))
    {
      status := Finished;
      finishReason := Some(reason);
    }

    method SetStatus(status: Status)
      modifies this`status
      ensures View() == old(View()).(status := status)
    {
      this.status := status;
    }
  }

  datatype RequestOutput = RequestOutput(
    id: RequestId,
    tokens: seq<Token>,
    delta: string,
    finished: bool,
    reason: Option<Reason>)

  // ----- the stopping rule

  predicate StartsAt(needle: string, hay: string, i: nat) {
    i + |needle| <= |hay| && hay[i..i + |needle|] == needle
  }

  predicate Occurs(needle: string, hay: string) {
    exists i | 0 <= i <= |hay| :: StartsAt(needle, hay, i)
  }

  /** hay.find(needle): the first index where needle starts. */
  function Find(needle: string, hay: string): (r: Option<nat>)
    ensures r.Some? <==> Occurs(needle, hay)
    ensures r.Some? ==> StartsAt(needle, hay, r.value)
    ensures r.Some? ==> forall i | 0 <= i < r.value :: !StartsAt(needle, hay, i)
  {
    FindFrom(needle, hay, 0)
  }

  function FindFrom(needle: string, hay: string, from: nat): (r: Option<nat>)
    requires forall i | 0 <= i < from :: !StartsAt(needle, hay, i)
    ensures r.Some? <==> Occurs(needle, hay)
    ensures r.Some? ==> StartsAt(needle, hay, r.value)
    ensures r.Some? ==> forall i | 0 <= i < r.value :: !StartsAt(needle, hay, i)
    decreases |hay| - from
  {
    if from + |needle| > |hay| then None
    else if StartsAt(needle, hay, from) then Some(from)
    else FindFrom(needle, hay, from + 1)
  }

  /** The first stop string, in the order given, that occurs in the text. */
  function SelectedStop(stop: seq<string>, text: string): (r: Option<string>)
    ensures r.Some? ==> r.value in stop && Occurs(r.value, text)
    ensures r.None? ==> forall s | s in stop :: !Occurs(s, text)
  {
    if stop == [] then None
    else if Occurs(stop[0], text) then Some(stop[0])
    else SelectedStop(stop[1..], text)
  }

  /** Of several that occur, the one listed first is selected. */
  lemma {:induction false} SelectedFirst(stop: seq<string>, text: string, k: nat)
    requires k < |stop| && Occurs(stop[k], text) && forall j | 0 <= j < k :: !Occurs(stop[j], text)
    ensures SelectedStop(stop, text) == Some(stop[k])
    decreases k
  {
    hide Occurs;
    if k > 0 {
      assert !Occurs(stop[0], text);
      SelectedFirst(stop[1..], text, k - 1);
    }
  }

  /** Why the sequence ends after the tokens `output`, the text streamed so far being `text`. */
  function CheckFinish(r: Request, output: seq<Token>, text: string): Option<Reason>
    requires |output| > 0
  {
    if r.eot == Some(output[|output| - 1]) then Some(Eot)
    else if |output| >= r.maxTokens then Some(Length)
    else if SelectedStop(r.stop, text).Some? then Some(Stop)
    else None
  }

  /** The last delta cut where the selected stop string starts, and whether one was found. */
  function TruncateAtStop(r: Request, text: string, delta: string): (out: (string, bool))
    requires |delta| <= |text|
    ensures out.0 <= delta
    ensures out.1 <==> exists s | s in r.stop :: Occurs(s, text)
  {
    match SelectedStop(r.stop, text)
    case None => (delta, false)
    case Some(s) =>
      var idx := Find(s, text).value;
      var before := |text| - |delta|;
      var cut := if idx <= before then 0 else idx - before;
      (delta[..cut], true)
  }

  // ----- what a request asks for on its own

  /** The sequence has to stop after `output`. */
  predicate Stops(enc: Table, r: Request, output: seq<Token>)
    requires |output| > 0
  {
    CheckFinish(r, output, SafeText(enc, output)).Some?
  }

  /** What has to be true for a sequence to end: its last token is end-of-text, its allowance is used
      up, or a stop string occurs in the text streamed so far. */
  ghost predicate AtEnd(enc: Table, r: Request, output: seq<Token>)
    requires |output| > 0
  {
    || Some(output[|output| - 1]) == r.eot
    || |output| >= r.maxTokens
    || exists s | s in r.stop :: Occurs(s, SafeText(enc, output))
  }

  /** The stopping rule stops exactly there, and its reason is the first of the three that applies. */
  lemma StopsMeans(enc: Table, r: Request, output: seq<Token>)
    requires |output| > 0
    ensures Stops(enc, r, output) <==> AtEnd(enc, r, output)
    ensures var why := CheckFinish(r, output, SafeText(enc, output));
      && (why == Some(Eot) <==> Some(output[|output| - 1]) == r.eot)
      && (why == Some(Length) <==> Some(output[|output| - 1]) != r.eot && |output| >= r.maxTokens)
      && why != Some(Cancelled)
  {
    hide SafeText, Occurs;
  }

  /** The reference run of one request alone: greedy tokens, cut at the first stop. */
  function SoloFrom(m: Model, enc: Table, r: Request, output: seq<Token>): (out: seq<Token>)
    requires |r.prompt| > 0 && m.blockSize > 0
    ensures |out| > |output|
    decreases if r.maxTokens > |output| then r.maxTokens - |output| else 0
  {
    var next := output + [Next(m, r.prompt + output)];
    if Stops(enc, r, next) then next else SoloFrom(m, enc, r, next)
  }

  function Solo(m: Model, enc: Table, r: Request): seq<Token>
    requires |r.prompt| > 0 && m.blockSize > 0
  {
    SoloFrom(m, enc, r, [])
  }

  /** No proper non-empty prefix of `output` stops. */
  ghost predicate RunsOn(enc: Table, r: Request, output: seq<Token>) {
    forall k | 0 < k < |output| :: !Stops(enc, r, output[..k])
  }

  /** A greedy output that stops at its end and not before is the solo run. */
  lemma {:induction false} SoloUnique(m: Model, enc: Table, r: Request, output: seq<Token>, n: nat)
    requires |r.prompt| > 0 && m.blockSize > 0
    requires n < |output| && IsGreedy(m, r.prompt, output) && RunsOn(enc, r, output) && Stops(enc, r, output)
    ensures SoloFrom(m, enc, r, output[..n]) == output
    decreases |output| - n
  {
    hide Stops, Next;
    assert output[..n] + [output[n]] == output[..n + 1];
    if n + 1 < |output| {
      SoloUnique(m, enc, r, output, n + 1);
    } else {
      assert output[..n + 1] == output;
    }
  }

  /** The solo run is what the reference loop appends to the prompt, cut at the first point
      where the stopping rule holds. */
  lemma {:induction false} SoloIsReference(m: Model, enc: Table, r: Request, output: seq<Token>)
    requires |r.prompt| > 0 && m.blockSize > 0
    requires IsGreedy(m, r.prompt, output) && RunsOn(enc, r, output)
    requires |output| > 0 ==> !Stops(enc, r, output)
    ensures var out := SoloFrom(m, enc, r, output);
      && GreedyGenerate(m, r.prompt, |out|) == r.prompt + out
      && RunsOn(enc, r, out) && Stops(enc, r, out)
      && |out| <= (if r.maxTokens > |output| then r.maxTokens else |output| + 1)
    decreases if r.maxTokens > |output| then r.maxTokens - |output| else 0
  {
    hide Next;
    var next := output + [Next(m, r.prompt + output)];
    IsGreedyExtend(m, r.prompt, output);
    assert next[..|output|] == output;
    forall k | 0 < k < |next| ensures !Stops(enc, r, next[..k]) {
      assert next[..k] == output[..k];
      assert k == |output| ==> next[..k] == output;
    }
    if Stops(enc, r, next) {
      IsGreedyIff(m, r.prompt, next);
    } else {
      SoloIsReference(m, enc, r, next);
    }
  }

  /** Greedy tokens that have not stopped yet are where the solo run passes through. */
  lemma {:induction false} SoloPrefix(m: Model, enc: Table, r: Request, output: seq<Token>, n: nat)
    requires |r.prompt| > 0 && m.blockSize > 0 && n <= |output|
    requires IsGreedy(m, r.prompt, output) && RunsOn(enc, r, output) && (output != [] ==> !Stops(enc, r, output))
    ensures SoloFrom(m, enc, r, output[..n]) == SoloFrom(m, enc, r, output)
    ensures output < SoloFrom(m, enc, r, output)
    decreases |output| - n
  {
    hide Stops, Next;
    SoloExtends(m, enc, r, output);
    if n < |output| {
      assert output[..n] + [output[n]] == output[..n + 1];
      assert n + 1 == |output| ==> output[..n + 1] == output;
      SoloPrefix(m, enc, r, output, n + 1);
    } else {
      assert output[..n] == output;
    }
  }

  lemma {:induction false} SoloExtends(m: Model, enc: Table, r: Request, output: seq<Token>)
    requires |r.prompt| > 0 && m.blockSize > 0
    ensures output < SoloFrom(m, enc, r, output)
    decreases if r.maxTokens > |output| then r.maxTokens - |output| else 0
  {
    hide Next;
    var next := output + [Next(m, r.prompt + output)];
    if !Stops(enc, r, next) {
      SoloExtends(m, enc, r, next);
    }
  }

  /** The solo run ends where the three conditions first hold. */
  lemma SoloEndsFirst(m: Model, enc: Table, r: Request)
    requires |r.prompt| > 0 && m.blockSize > 0
    ensures var out := Solo(m, enc, r);
      && out != [] && AtEnd(enc, r, out) && (forall k | 0 < k < |out| :: !AtEnd(enc, r, out[..k]))
      && |out| <= (if r.maxTokens > 1 then r.maxTokens else 1)
      && IsGreedy(m, r.prompt, out)
  {
    hide Stops, AtEnd, SoloFrom, IsGreedy, GreedyGenerate;
    IsGreedyEmpty(m, r.prompt);
    SoloIsReference(m, enc, r, []);
    var out := Solo(m, enc, r);
    IsGreedyIff(m, r.prompt, out);
    StopsMeans(enc, r, out);
    forall k | 0 < k < |out| ensures !AtEnd(enc, r, out[..k]) {
      StopsMeans(enc, r, out[..k]);
    }
  }

  /** Without stop strings it is the reference run stopped at its first end-of-text. */
  lemma SoloIsGreedyUntil(m: Model, enc: Table, r: Request)
    requires |r.prompt| > 0 && m.blockSize > 0 && r.stop == []
    ensures Solo(m, enc, r) == GreedyUntil(m, r.prompt, if r.maxTokens > 1 then r.maxTokens else 1, r.eot)
  {
    hide SoloFrom, IsGreedy, SafeText, GreedyUntil, Solo;
    SoloEndsFirst(m, enc, r);
    var out := Solo(m, enc, r);
    forall i | 0 <= i < |out| - 1 ensures Some(out[i]) != r.eot {
      assert !AtEnd(enc, r, out[..i + 1]) && out[..i + 1][i] == out[i];
    }
    GreedyUntilUnique(m, r.prompt, out, if r.maxTokens > 1 then r.maxTokens else 1, r.eot);
  }
}
