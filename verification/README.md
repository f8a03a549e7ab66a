# Verified model of the minigpt-infer token-generation core

minigpt-infer generates tokens from a small GPT in several ways: a full re-forward on every
step (the reference), cached generation over a contiguous cache, left-padded batches,
speculative decoding, and a continuous-batching engine over a paged key/value pool that admits,
evicts and recomputes sequences.  This project models that core in Dafny and proves that every
fast way computes what the reference computes, and that the machinery around them -- block
allocator, scheduler, detokenizer, attention kernel, delivery to consumers, int8 layers -- does
what it is for.

`dafny verify dfyconfig.toml` checks everything.

## How it is organised

The specification is `Transformer.dfy`: an abstract causal transformer.  The arithmetic of a
layer is left as functions; what is kept is that position i stores an entry computed from its
own hidden state and that a query at i is mixed with the entries of positions 0..i.

| files | what they hold |
|---|---|
| Transformer, Forward | the specification; one pass over any cache, and the lemma every driver uses: faithful windows in, reference states and entries out |
| StaticCache, Generation | the contiguous cache object, cached generation, left-padded batches |
| SpecDecode, Speculative, PromptLookup | sampling rows, verification of drafts, the speculative loop, the n-gram drafter |
| SpecDistribution | the law of the loop, summed over drafts and draws |
| Requests (Request.dfy), Blocks, Scheduling, Serving | the engine's state and transitions as values, with the small mutable objects of the source |
| Ownership, Capacity, PagedCache, Refinement, Stepping, Progress, Runs, Ordering | what every transition keeps, and what holds of every run |
| Emission, Draining, Eviction | what one step emits; exactly which workloads drain; a run in which the documented eviction rule fails |
| SchedulerObject (Scheduler.dfy), PagedPool, EngineObject (Engine.dfy), Replay | scheduler, pool and engine as objects updated in place, each method proved to be one transition of the values; a run on the object is a run of the state machine |
| Utf8, Tokenizer | UTF-8 decoding and the streaming detokenizer |
| AsyncEngine, EngineThread | submitters, cancellers, consumers and the engine thread interleaved; engine and protocol run together, from submission to what a consumer receives |
| OnlineSoftmax, Int8 | the paged attention kernel and the int8 linear layer |
| Exponential, Wrappers | what attention and sampling use of exp; Option and Min |

## Idealisations

- Floats are reals.  A masked column has attention weight exactly zero, so attention is a
  function of the visible columns.  A query whose mask hides every column -- it only occurs in
  left padding -- attends uniformly to all of them; `blind` stands for whatever that yields, and
  no result depends on it.
- `exp` is any function that is positive and turns sums into products, with exp(-inf) = 0; the
  kernel and the sampling rows of the speculative loop use it.
- A softmax over a vocabulary that is banned entirely is no distribution, and drawing from it
  fails in the source; at positive temperature some token has to be allowed.
- Request ids are unique and prompts are not empty; block_size is at least 1.  The source removes
  sequences from its lists by value, which under unique ids is removal of the object.
- A token's bytes are an arbitrary function of the token.
- Random draws are arbitrary: uniform draws are parameters with values in [0, 1), a multinomial
  draw returns any token of positive weight.  In the law of the loop they have the probabilities they should.
- When the thread's step fails, the engine is left as it was before that step; the protocol
  never steps it again, so this only concerns what later cancellations find.
- A step that would fail an assertion or an index check of the source is `None`; every run is
  proved never to meet one.

## Where the code and its own documentation differ

The model follows the code.

- The detokenizer's comments say only an incomplete trailing character is held back.  An
  ill-formed byte anywhere stops streaming until finalisation, and nothing else does
  (`Utf8.StallsExactly`, `Tokenizer.StreamStallsExactly`; `Utf8.OneBadByte` is an input).
- Eviction is documented as taking the newest running sequence.  The sequence being served is
  exempt, so the rule holds exactly when the newest is not the one being served, or is alone
  (`Capacity.NewestEvictedExactly`; `Eviction.OlderIsEvicted` is a run in which it fails);
  progress is proved for the rule as it is.
- A request is accepted by comparing it with the position table only.  One the block pool cannot
  hold is accepted, never served, and blocks those behind it (`Draining.OversizeForever`,
  `Draining.OversizeBlocksLine`); what drains is exactly what the pool can hold
  (`Draining.DrainsExactly`).
- The verification mask's comment counts gamma + 1 new tokens, one of them an anchor; the loop
  passes the draft tokens only, and the anchor is fed by the step before.
- The paged read's comment says clamped table entries name a block of the same row.  They name
  block 0, whoever owns it (`PagedCache.GatheredOwn`); those columns are masked
  (`PagedCache.ForeignHidden`).
- A submission the engine refuses leaves its queue in the registry; nothing is ever produced for
  it (`AsyncEngine.RefusedStays`).

## Model

| member | source | states |
|---|---|---|
| `Transformer.HiddenCausal` | src/minigpt_infer/reference.py:105-115 | causality of the full re-forward: hidden states and cache entries of a prefix do not depend on what follows it, at every layer |
| `Transformer.Argmax` | src/minigpt_infer/reference.py:173 | the first of the maximal elements, -inf below everything finite |
| `Transformer.GreedyObeysMask` | src/minigpt_infer/reference.py:171-174 | in terms of the raw logits and the banned set: when some token is allowed, the one chosen is allowed, no allowed logit is larger, and every allowed one before it is smaller |
| `Transformer.GenerateObeysMask` | src/minigpt_infer/reference.py:150-175 | no token the reference loop appends is banned, unless the whole vocabulary is |
| `Transformer.CropIsSuffix` | src/minigpt_infer/reference.py:168 | the window is the whole sequence, or its last block_size tokens |
| `Transformer.IsGreedyIff` | src/minigpt_infer/reference.py:150-175 | a token sequence is what the reference loop appends if and only if each token is the argmax after its own prefix |
| `Transformer.GreedyUntilIsCut` | src/minigpt_infer/generation.py:127-137 | the stopped run is a prefix of the unstopped reference output, ends at its first end-of-text and is cut nowhere else |
| `Transformer.GreedyUntilUnique` | src/minigpt_infer/generation.py:127-137 | any greedy run that used up its budget or just met end-of-text is that stopped run |
| `Forward.SelectWindow` | src/minigpt_infer/model.py:67-73 | a mask row that shows exactly a window of columns makes attention a function of exactly that window |
| `Forward.ScatterRowsAt` | src/minigpt_infer/cache/paged.py:125-137 | with distinct target cells, each new entry is found at its own cell after the scatter |
| `Forward.ScatterRowsElsewhere` | src/minigpt_infer/cache/paged.py:125-137 | a cell that is not written keeps its entry |
| `Forward.MixOne` | src/minigpt_infer/model.py:61-90 | a query that sees exactly the reference entries of positions 0..i moves to the reference hidden state |
| `Forward.RunFaithful` | src/minigpt_infer/model.py:152-187 | the layer loop over any cache: if each row is a faithful window on a token sequence and its history columns hold reference entries, then after every layer all real queries have reference states, all used columns hold reference entries and no other cell has changed |
| `StaticCache.StaticKVCache.Write` | src/minigpt_infer/cache/static.py:44-61 | one layer after a write is the old layer with exactly the band start..start+T-1 of every row replaced; other layers unchanged |
| `StaticCache.StaticKVCache.Read` | src/minigpt_infer/cache/static.py:63-67 | the first n columns of a row, in order |
| `StaticCache.ForwardStatic` | src/minigpt_infer/model.py:152-187 | the write-read-attend loop over the contiguous cache computes the abstract pass, state and cache both |
| `StaticCache.StaticPassFaithful` | src/minigpt_infer/cache/static.py:44-67 | a pass whose rows continue cached sequences leaves every row holding the reference entries of its whole sequence and yields reference states, whatever padding columns and overwritten entries held |
| `PagedCache.SlotIsTokenCell` | src/minigpt_infer/engine/engine.py:123-125 | the flat slot of token i names the (block, offset) cell the block table gives it |
| `PagedCache.PrefillDescribes` | src/minigpt_infer/engine/engine.py:210-245 | the prefill batch is a faithful window: writes and reads meet in the sequence's own cells under the causal branch |
| `PagedCache.DecodeDescribes` | src/minigpt_infer/engine/engine.py:247-283 | the decode batch is one too: garbage columns gathered past a row's length are exactly the masked ones |
| `PagedPool.PagedKVCache.Write` | src/minigpt_infer/cache/paged.py:125-137 | the pool after a write is the scatter of the new entries, in place, other layers unchanged |
| `PagedPool.PagedKVCache.Read` | src/minigpt_infer/cache/paged.py:155-165 | the entries returned are those the pool holds in the given cells, in order; which cells a block table gives is PagedCache.Gathered |
| `PagedCache.GatheredOwn` | src/minigpt_infer/cache/paged.py:147-153 | column c of the gather is the row's own cell for token c while its table lasts, and a cell of block 0 past that, which is a block of the row if and only if its table holds block 0 |
| `PagedCache.ForeignHidden` | src/minigpt_infer/batch.py:174-199 | the decode mask hides from a row every column gathered past its own table |
| `PagedPool.ForwardPaged` | src/minigpt_infer/model.py:152-187 | the layer loop over the pool computes the abstract pass |
| `Blocks.Covers` | src/minigpt_infer/cache/paged.py:45-46 | position n lies inside k blocks exactly when ceil((n+1)/block_size) <= k |
| `Blocks.BlockManager.Allocate` | src/minigpt_infer/cache/paged.py:51-63 | grows a table by just the missing blocks, popped from the free list |
| `Blocks.BlockManager.AppendSlot` | src/minigpt_infer/cache/paged.py:65-77 | one more block only when the tail is full; False and no mutation when none is free |
| `Blocks.BlockManager.Free` | src/minigpt_infer/cache/paged.py:79-81 | all blocks back to the free list, the table empty |
| `Blocks.Take` | src/minigpt_infer/cache/paged.py:51-63 | blocks move from the free list to the table and none is lost or duplicated |
| `Ownership.ScheduleLedger` | src/minigpt_infer/engine/scheduler.py:37-56 | admission keeps the ledger: free list and running tables are together exactly the pool, queues name each live sequence once, others own nothing |
| `Ownership.EnsureCapacityLedger` | src/minigpt_infer/engine/scheduler.py:58-76 | making room with any pattern of evictions keeps it |
| `Ownership.PreemptLedger` | src/minigpt_infer/engine/scheduler.py:84-90 | evicting keeps it |
| `Ownership.FinishLedger` | src/minigpt_infer/engine/scheduler.py:92-99 | finishing keeps it |
| `Ownership.CancelLedger` | src/minigpt_infer/engine/scheduler.py:101-117 | cancelling keeps it, also for a waiting sequence, whose blocks are not freed because it has none |
| `Ownership.AddLedger` | src/minigpt_infer/engine/scheduler.py:31-32 | arrival keeps it |
| `Ownership.Exclusive` | src/minigpt_infer/cache/paged.py:51-81 | no block is in two places: two table positions naming one block are the same position of the same sequence |
| `Ownership.ConservedCount` | src/minigpt_infer/cache/paged.py:83-94 | free blocks and table lengths add up to the pool size |
| `Capacity.EnsureCapacitySpec` | src/minigpt_infer/engine/scheduler.py:58-90 | afterwards every sequence still running has a block for its next position, even if it was visited before later evictions; each sequence is untouched, has only grown its table, or is back in the queue with nothing to its name; the old queue is a suffix of the new one |
| `Capacity.EnsureCapacityKeeps` | src/minigpt_infer/engine/scheduler.py:58-90 | if the pool could hold each sequence alone, somebody is still running afterwards |
| `Capacity.MakeRoomSpec` | src/minigpt_infer/engine/scheduler.py:68-76 | the eviction loop for one sequence: it ends with the room found or with nobody left running |
| `Capacity.NewestEvictedExactly` | src/minigpt_infer/engine/scheduler.py:68-82 | the sequence evicted first is the newest running one if and only if that is not the one being served, or is the only one; otherwise it is the newest but one, and making room goes on from the state after that eviction |
| `Eviction.OlderIsEvicted` | src/minigpt_infer/engine/scheduler.py:58-82 | a run of two requests from a new engine of two blocks: both running, no block free, the newer one needs one, and making room evicts the older one |
| `Capacity.AdmissionExact` | src/minigpt_infer/engine/scheduler.py:37-56 | admission takes exactly the longest prefix of the queue that fits the free blocks and the batch limit |
| `SchedulerObject.Scheduler.Schedule` | src/minigpt_infer/engine/scheduler.py:37-56 | the object's admission loop is the scheduling transition, batch and kind included |
| `SchedulerObject.Scheduler.EnsureCapacityForDecodeStep` | src/minigpt_infer/engine/scheduler.py:58-76 | the nested loops over a snapshot, with in-place evictions, are the capacity transition |
| `SchedulerObject.Scheduler.MakeRoom` | src/minigpt_infer/engine/scheduler.py:68-76 | the inner while loop terminates and is its transition |
| `SchedulerObject.Scheduler.NewestRunningOtherThan` | src/minigpt_infer/engine/scheduler.py:78-82 | the last running sequence other than the given one, or null when there is none |
| `SchedulerObject.Scheduler.Preempt` | src/minigpt_infer/engine/scheduler.py:84-90 | blocks freed, counters reset, moved from the running list to the head of the queue |
| `SchedulerObject.Scheduler.Finish` | src/minigpt_infer/engine/scheduler.py:92-99 | status, reason, blocks and running list change together; tokens and text stay |
| `SchedulerObject.Scheduler.CancelById` | src/minigpt_infer/engine/scheduler.py:101-117 | running, waiting and unknown ids, each as the transition says |
| `SchedulerObject.Scheduler.AddRequest` | src/minigpt_infer/engine/scheduler.py:31-32 | appended to the queue |
| `Stepping.StepRefines` | src/minigpt_infer/engine/engine.py:101-118 | from every good state a step fails no assertion or index check, leads to a good state, and streams exactly what the sequences gained |
| `Refinement.AdvanceSpec` | src/minigpt_infer/engine/engine.py:161-184 | detokenise, check, finalise, truncate and finish, in closed form |
| `Refinement.PrefillPhases` | src/minigpt_infer/engine/engine.py:210-245 | prefill (first or after eviction) rebuilds the reference entries of prompt and output in the sequence's own cells and disturbs no other sequence's entries |
| `Refinement.DecodePassPhases` | src/minigpt_infer/engine/engine.py:247-283 | a decode pass extends every running sequence's cached entries by one, at every layer, and its logits are the reference's |
| `Refinement.CellsApart` | src/minigpt_infer/engine/engine.py:123-125 | cells of tokens of different running sequences, or of different tokens, are different |
| `Stepping.TruncateShows` | src/minigpt_infer/engine/engine.py:196-208 | text sent before plus the truncated last delta is the final text cut at max(first index of the selected stop, length already sent) |
| `Requests.Find` | src/minigpt_infer/engine/engine.py:201-207 | str.find: an occurrence, and the first one |
| `Requests.SelectedStop` | src/minigpt_infer/engine/engine.py:191-193 | None only if no stop string occurs; otherwise one of those that do |
| `Requests.SelectedFirst` | src/minigpt_infer/engine/engine.py:191-193 | of several stop strings that occur, the one listed first is selected |
| `Requests.StopsMeans` | src/minigpt_infer/engine/engine.py:186-194 | a sequence stops if and only if its last token is end-of-text, its allowance is used up, or a stop string occurs in the streamed text; reason eot exactly in the first case, reason length exactly in the second without the first |
| `Requests.SoloEndsFirst` | src/minigpt_infer/engine/engine.py:186-194 | the solo run is greedy, ends at the first point where one of the three holds, and never runs past max(1, max_tokens) |
| `Requests.SoloIsGreedyUntil` | src/minigpt_infer/engine/engine.py:186-194 | without stop strings the solo run is the reference output of max(1, max_tokens) tokens cut after its first end-of-text |
| `Requests.SoloUnique` | src/minigpt_infer/engine/engine.py:186-194 | a greedy history that ran on and has now stopped is the request's solo run |
| `Requests.SoloIsReference` | src/minigpt_infer/reference.py:150-175 | the solo run's tokens are what the reference loop appends to the prompt |
| `Runs.EveryRunIsGood` | src/minigpt_infer/engine/engine.py:69-118 | every finite sequence of submissions, cancellations and steps goes through and ends in a good state |
| `Runs.ContinuousBatchingRefinesSolo` | src/minigpt_infer/engine/engine.py:101-283 | in every good state a greedy request that finished and was not cancelled has output, and was streamed, exactly its solo run; one still live a proper prefix of it |
| `Runs.SoloInEveryRun` | src/minigpt_infer/engine/engine.py:101-283 | the same stated over every run from a new engine, for every request with temperature <= 0: any arrival order, batch limit, block size, pool size, other requests' draws and cancellations; what the solo run is, is said by Requests.SoloEndsFirst and SoloIsGreedyUntil |
| `Runs.StopTruncation` | src/minigpt_infer/engine/engine.py:161-208 | the streamed text of a normally finished request, the bound on what leaks past the stop, and reason "stop" if and only if a stop string occurs in the decoded text |
| `Runs.EndsRight` | src/minigpt_infer/engine/engine.py:186-194 | greedy or not, in every good state: nobody has run past an end-of-text, its allowance or a streamed stop string; who finished normally met one of them with its last token; reason stop, eot and length each if and only if the text or that token says so |
| `Runs.GreedyNeverBanned` | src/minigpt_infer/engine/engine.py:127-159 | no token of a greedy request is banned, unless the whole vocabulary is |
| `Runs.ExactFit` | src/minigpt_infer/cache/paged.py:83-94 | between steps num_computed_tokens == num_tokens - 1, tables are ceil-exact, and internal fragmentation is within [0, running * (block_size - 1)] |
| `Progress.StepSpends` | src/minigpt_infer/engine/engine.py:101-118 | no livelock: if each live request could fit the pool alone, a step with work emits a token and nobody's remaining allowance grows |
| `Draining.Drains` | src/minigpt_infer/engine/engine.py:101-118 | any such workload is drained within as many steps as tokens are owed |
| `Draining.DrainsExactly` | src/minigpt_infer/engine/scheduler.py:37-76 | in every state a run reaches: live requests that decode greedily or have no early stop are drained within the tokens owed if and only if the pool could hold each of them alone up to its last cached token |
| `Draining.LimitIsAllowance` | src/minigpt_infer/engine/engine.py:186-194 | for a request without end-of-text and stop strings that length is the prompt plus what it asked for, at least one token, less one |
| `Draining.ReachedAffords` | src/minigpt_infer/engine/scheduler.py:37-76 | in every run each sequence with output fitted the pool at the length it had before its last token, so the condition is necessary |
| `Draining.Stuck` | src/minigpt_infer/engine/scheduler.py:40-46 | when the head of an idle engine's queue exceeds the pool, a step changes nothing |
| `Draining.OversizeForever` | src/minigpt_infer/engine/engine.py:69-90 | such a request is accepted: submitted alone to a new engine it keeps it busy for ever without a token |
| `Draining.OversizeBlocksLine` | src/minigpt_infer/engine/scheduler.py:37-46 | in every run a request whose prompt exceeds the pool never gets a token, and until it is cancelled nobody who arrived after it is ever started |
| `Ordering.FirstComeInEveryRun` | src/minigpt_infer/engine/scheduler.py:37-90 | in every run from a new engine the queue is sequences that have run before, then never-run ones in arrival order; first admissions happen in arrival order, and those admitted so far are exactly those with output |
| `Ordering.OrderAfterEviction` | src/minigpt_infer/engine/scheduler.py:84-90 | evicted sequences go in front without breaking that order |
| `Capacity.EvictionsCounted` | src/minigpt_infer/engine/scheduler.py:84-90 | the preemption counter grows by exactly the number of sequences put back in the queue |
| `EngineObject.LLMEngine.Step` | src/minigpt_infer/engine/engine.py:101-118 | the engine object's step, over its scheduler, pool and detokenizers, is the state machine's step and keeps the invariant |
| `EngineObject.LLMEngine.AddRequest` | src/minigpt_infer/engine/engine.py:69-90 | refused exactly when it asks for other than one completion or could outgrow the position table; otherwise queued with a new detokenizer |
| `Serving.AcceptedExactly` | src/minigpt_infer/engine/engine.py:69-90 | accepted exactly when it asks for one completion and no output within its allowance leaves the position table |
| `EngineObject.LLMEngine.HasUnfinishedRequests` | src/minigpt_infer/engine/engine.py:92-93 | true if and only if somebody is waiting or running |
| `EngineObject.LLMEngine.CancelRequest` | src/minigpt_infer/engine/engine.py:95-99 | detokenizer dropped, scheduler told |
| `EngineObject.LLMEngine.SampleAndAdvance` | src/minigpt_infer/engine/engine.py:161-184 | the sampling loop, with sequences retired while it runs |
| `EngineObject.LLMEngine.PrefillForward` | src/minigpt_infer/engine/engine.py:221-244 | slots, padded table, pass and counter of a prefill |
| `EngineObject.LLMEngine.DecodeForward` | src/minigpt_infer/engine/engine.py:247-282 | rows, slots, mask, pass and counters of a decode step |
| `Replay.Run` | src/minigpt_infer/engine/engine.py:69-118 | any run performed on a new engine object is the same run of the state machine, outputs included, so every theorem about runs holds of the object |
| `Tokenizer.IncrementalDetokenizer.AddToken` | src/minigpt_infer/tokenizer.py:73-90 | the emitted text becomes the safe text of all tokens and the delta is what it gained |
| `Tokenizer.IncrementalDetokenizer.Finalize` | src/minigpt_infer/tokenizer.py:92-97 | the emitted text becomes the replace-mode decode of all tokens |
| `Tokenizer.StreamingIsExact` | src/minigpt_infer/tokenizer.py:73-97 | for any byte strings, the deltas join to a prefix of the replace-mode decode and with finalisation to all of it |
| `Tokenizer.BytesConcat` | src/minigpt_infer/tokenizer.py:76-80 | the bytes of a token list are those of its tokens joined in order |
| `Tokenizer.FinalReplaces` | src/minigpt_infer/tokenizer.py:92-97 | behind text with one ill-formed subpart, finalisation yields one replacement character for it and all the text after it |
| `Tokenizer.StreamingWellFormed` | src/minigpt_infer/tokenizer.py:73-97 | well-formed text, however its characters are cut over tokens, is streamed completely with nothing left for finalisation |
| `Utf8.SafeGrows` | src/minigpt_infer/tokenizer.py:82-89 | more bytes only extend the safe text |
| `Utf8.SafeWithinReplace` | src/minigpt_infer/tokenizer.py:92-97 | the safe text is a prefix of the replace-mode decode |
| `Utf8.DecodeEncode` | src/minigpt_infer/tokenizer.py:82-88 | decoding inverts encoding (section 3 of RFC 3629) |
| `Utf8.ReplaceBad` | src/minigpt_infer/tokenizer.py:92-97 | text, then an ill-formed subpart (the longest beginning of an encoding that stands there, or one byte), then anything: replace mode gives the text, one U+FFFD, and the decode of the rest; the strict decode stops at that byte |
| `Utf8.ReplaceCutOff` | src/minigpt_infer/tokenizer.py:92-97 | text and then a beginning of an encoding give the text and one U+FFFD |
| `Utf8.EveryFront` | src/minigpt_infer/tokenizer.py:92-97 | every non-empty byte string starts with the encoding of a character or with such a subpart, so the above determines replace mode everywhere |
| `Utf8.EncodeExamples` | src/minigpt_infer/tokenizer.py:82-88 | the encoding of the examples in section 7 of RFC 3629 |
| `Utf8.EncodeDecode` | src/minigpt_infer/tokenizer.py:82-88 | and encoding inverts strict decoding where it succeeds |
| `Utf8.BrokenStalls` | src/minigpt_infer/tokenizer.py:84-88 | once an ill-formed subpart is in the buffer, more bytes leave the safe text as it is |
| `Utf8.UnbrokenCompletes` | src/minigpt_infer/tokenizer.py:84-88 | without one, at most three bytes make the whole buffer decodable |
| `Utf8.StallsExactly` | src/minigpt_infer/tokenizer.py:84-88 | the safe text stays the same under every continuation if and only if the buffer holds an ill-formed subpart |
| `Utf8.OneBadByte` | src/minigpt_infer/tokenizer.py:84-88 | the single byte FF is one, and hides all well-formed text behind it |
| `Tokenizer.BrokenStreamStalls` | src/minigpt_infer/tokenizer.py:73-90 | with any vocabulary, after tokens that hold an ill-formed subpart no token streams anything before finalisation |
| `Tokenizer.StreamStallsExactly` | src/minigpt_infer/tokenizer.py:73-90 | with a vocabulary that has every single byte, that happens if and only if there is such a subpart |
| `SpecDecode.VerifyAndAccept` | src/minigpt_infer/engine/spec_decode.py:187-233 | tokens are accepted exactly up to the first whose uniform draw is not below min(1, p/q); there a token the normalised residual can yield replaces it, and after a fully accepted draft comes one the target can yield |
| `SpecDecode.GreedyVerify` | src/minigpt_infer/engine/spec_decode.py:187-233 | against one-hot targets every token that comes out is the target's, for any draft and any draws |
| `SpecDecode.ToProbsDist` | src/minigpt_infer/engine/spec_decode.py:167-180 | the target rows are distributions |
| `SpecDecode.ToProbsSoftmax` | src/minigpt_infer/engine/spec_decode.py:167-180 | at positive temperature the probabilities of two allowed tokens are in the ratio of exp(logit / temperature), and a banned token has probability zero |
| `SpecDecode.ToProbsObeysMask` | src/minigpt_infer/engine/spec_decode.py:171-177 | at any temperature a token of positive probability is allowed |
| `Speculative.VerifyMask` | src/minigpt_infer/batch.py:202-227 | query row r sees columns up to cache_len + r and no others |
| `Speculative.ForwardRow` | src/minigpt_infer/engine/spec_decode.py:293-320 | a single-row pass appends reference entries for the new tokens and yields their reference states |
| `Speculative.VerifyForward` | src/minigpt_infer/engine/spec_decode.py:317-325 | row i of the verification logits is the reference's after the context and the first i+1 draft tokens |
| `Speculative.DraftRound` | src/minigpt_infer/engine/spec_decode.py:313-346 | rejected drafts leave no trace: the cache length and its entries are those of the accepted prefix |
| `Speculative.SpeculativeGenerate` | src/minigpt_infer/engine/spec_decode.py:268-363 | for every drafter, draft length and draw: at most max_new_tokens, end-of-text only last, the final slice drops nothing; each round had an outcome its draws, its proposal and the reference's rows allow; and at temperature <= 0 the result is exactly the reference greedy run |
| `PromptLookup.LatestMatch` | src/minigpt_infer/engine/spec_decode.py:93-101 | the latest earlier occurrence, and none later |
| `PromptLookup.Search` | src/minigpt_infer/engine/spec_decode.py:93-101 | the backward loop finds it |
| `PromptLookup.Propose` | src/minigpt_infer/engine/spec_decode.py:83-110 | the draft is the up to gamma tokens that followed the latest earlier occurrence of the last n tokens, with one-hot rows; none if and only if there is no such occurrence, the context is too short, or no draft is allowed |
| `PromptLookup.LookupProposesIff` | src/minigpt_infer/engine/spec_decode.py:83-110 | it proposes if and only if the last n tokens occurred before |
| `PromptLookup.LookupDrafterOk` | src/minigpt_infer/engine/spec_decode.py:83-110 | it meets what the speculative loop asks of a drafter |
| `SpecDistribution.PositionPreserved` | src/minigpt_infer/engine/spec_decode.py:209-227 | one position: accept-or-resample gives every token exactly its target probability, the vanishing residual included |
| `SpecDistribution.DraftPosition` | src/minigpt_infer/engine/spec_decode.py:187-233 | what becomes of draft token i does not depend on what was drafted after it |
| `SpecDistribution.DraftExact` | src/minigpt_infer/engine/spec_decode.py:187-233 | summed over all drafts, a round and what follows it give the rest of any sequence its target probability |
| `SpecDistribution.LoopExact` | src/minigpt_infer/engine/spec_decode.py:299-362 | the loop returns every token sequence with the probability that sampling token by token from the target, stopped by budget or end-of-text, returns it |
| `SpecDistribution.LoopIsTarget` | src/minigpt_infer/engine/spec_decode.py:299-362 | speculative sampling is target sampling: a whole output -- budget used up, or ended by the first end-of-text -- is returned with exactly its target probability and nothing else is returned, for every target, drafter, gamma, budget and end-of-text |
| `SpecDistribution.LoopReturnsLikely` | src/minigpt_infer/engine/spec_decode.py:268-363 | every output the loop's code can return, whatever its drafter and draws, has positive probability in that law |
| `SpecDistribution.LoopObeysMask` | src/minigpt_infer/engine/spec_decode.py:268-363 | no output of the loop holds a banned token, at any temperature, with any drafter and any draws |
| `SpecDistribution.ModelSamplerValid` | src/minigpt_infer/engine/spec_decode.py:327-330 | the model's own rows are such a target |
| `SpecDistribution.GreedyCertain` | src/minigpt_infer/engine/spec_decode.py:167-180 | at temperature <= 0 the greedy continuation has probability one |
| `Generation.BuildLeftPaddedBatch` | src/minigpt_infer/batch.py:67-120 | real tokens end at one column, positions count from each prompt's first token, pad columns are marked, and the mask is causal-and-not-padding |
| `Generation.CausalPlusPadding` | src/minigpt_infer/batch.py:123-142 | a key is visible if and only if it is not after the query and not padding |
| `Generation.ExtendDecodeMask` | src/minigpt_infer/batch.py:145-171 | only the prompt's pad columns stay hidden |
| `Generation.DecodeRows` | src/minigpt_infer/generation.py:143-154 | a decode step extends every row's reference entries by one, at the row's own position |
| `Generation.RunBatched` | src/minigpt_infer/generation.py:85-156 | every row of a left-padded batch is its prompt's solo greedy run cut after its first end-of-text, whatever pad columns hold and although finished rows keep being fed |
| `Generation.RunCached` | src/minigpt_infer/generation.py:35-63 | cached generation equals the reference for every row |
| `OnlineSoftmax.Rescale` | src/minigpt_infer/attention/triton_paged.py:101-114 | changing the shift multiplies the whole sum by one factor |
| `OnlineSoftmax.LaneSum` | src/minigpt_infer/attention/triton_paged.py:84-114 | the masked lanes of a block add exactly its tokens' terms |
| `OnlineSoftmax.WalkBlock` | src/minigpt_infer/attention/triton_paged.py:76-115 | one block keeps the registers right: shifted sums under a bound on all scores so far, so no exponent is positive; inactive blocks change nothing |
| `OnlineSoftmax.KernelReadsGathered` | src/minigpt_infer/attention/triton_paged.py:76-107 | the tokens the kernel walks are the columns the gathered read leaves visible, and its keys and values are the entries gathered there |
| `OnlineSoftmax.PagedDecodeAttention` | src/minigpt_infer/attention/triton_paged.py:57-123 | the output is sum(exp(s_j) v_j) / sum(exp(s_j)) over the tokens the table covers, with a positive divisor, for any block size and placement |
| `AsyncEngine.PlayInv` | src/minigpt_infer/engine/async_engine.py:69-167 | the protocol invariant in every interleaving, shutdown and crashes included |
| `AsyncEngine.StreamedInOrder` | src/minigpt_infer/engine/async_engine.py:94-116 | a consumer nobody cancelled receives its outputs in order, then the end after the last or the exception, even if it starts late |
| `AsyncEngine.NothingHeldBack` | src/minigpt_infer/engine/async_engine.py:157-167 | when the thread is not handing out, everything produced has been put and finished streams have their end mark |
| `AsyncEngine.CrashReported` | src/minigpt_infer/engine/async_engine.py:143-155 | every request registered when a crash is handled ends with the exception |
| `AsyncEngine.NoStreamHangs` | src/minigpt_infer/engine/async_engine.py:111-116 | an unregistered queue still being read has an item on it or someone about to put its end there, cancelled or not |
| `AsyncEngine.NeverLost` | src/minigpt_infer/engine/async_engine.py:82-91 | the thread is never parked with the event unset and work pending unless a submitter is still about to set the event |
| `AsyncEngine.EndsOnlyWhenAsked` | src/minigpt_infer/engine/async_engine.py:125-156 | the stop flag is up exactly when shutdown has been asked for, and the thread has ended only if it was or a crash was handled |
| `AsyncEngine.ShutdownEnds` | src/minigpt_infer/engine/async_engine.py:125-139 | once asked for, shutdown ends the thread at the top of its loop, where waiting and handing out come back to, and it makes no move after that |
| `AsyncEngine.HandingOutEnds` | src/minigpt_infer/engine/async_engine.py:157-167 | handing out is never blocked, takes boundedly many moves, and no other thread moves the engine thread |
| `AsyncEngine.RefusedStays` | src/minigpt_infer/engine/async_engine.py:84-91 | the queue of a refused submission stays registered and empty until a crash is handled or someone cancels that id; nothing but the exception or the cancellation's mark is ever put on it |
| `Emission.StepEmits` | src/minigpt_infer/engine/engine.py:101-118 | a step returns at most one output, of one token, per unfinished request the pool can hold; each request gains exactly the token of its output, and those that end are exactly those whose output says so |
| `Emission.StepDraws` | src/minigpt_infer/engine/engine.py:137-159 | what a step emits for a request with positive temperature is the draw made for that request |
| `EngineThread.StepIsStepOk` | src/minigpt_infer/engine/async_engine.py:141-142 | the outputs of an engine step are ones the protocol accepts, and handing them over keeps both in agreement on what is unfinished |
| `EngineThread.WorkAgrees` | src/minigpt_infer/engine/async_engine.py:133-135 | the thread sees work exactly when the engine has some |
| `EngineThread.EveryRunMatches` | src/minigpt_infer/engine/async_engine.py:69-167 | engine and protocol run together from a new engine, with submissions, refusals, cancellations, closings, steps and crashes interleaved: as long as the thread serves they agree on what is unfinished, and always on every token and text delta produced |
| `EngineThread.ReceivedIsSolo` | src/minigpt_infer/engine/async_engine.py:94-116 | end to end: in every such run a greedy request nobody cancelled is received as a prefix of its solo tokens, and once its end mark has been taken as exactly those, with their decoded text cut at the stop string |
| `Int8.ClampIdle` | src/minigpt_infer/quant/int8.py:52-66 | for any nearest rounding the clamp never fires and stored integers lie in [-127, 127] |
| `Int8.WeightError` | src/minigpt_infer/quant/int8.py:52-72 | each dequantised weight is within half a step of the original |
| `Int8.AmaxAttained` | src/minigpt_infer/quant/int8.py:60-61 | the largest magnitude of a row is the magnitude of one of its entries |
| `Int8.QuantizedWell` | src/minigpt_infer/quant/int8.py:52-72 | with a the largest magnitude and a/127 at or above the floor: every stored weight is within a/254 of its original, and an entry of magnitude a is stored as 127 or -127 by its sign |
| `Int8.OnGrid` | src/minigpt_infer/quant/int8.py:52-72 | then rows whose entries are multiples of a/127 are stored without error |
| `Int8.QuantizedSmall` | src/minigpt_infer/quant/int8.py:61-64 | below the floor, a dead channel included: stored weights are within 0.5e-8, and an all-zero row is stored as zeros |
| `Int8.HalfEvenNearest` | src/minigpt_infer/quant/int8.py:65 | rounding half to even is a nearest rounding |
| `Int8.HalfEvenTie` | src/minigpt_infer/quant/int8.py:65 | halfway between two integers it takes the even one |
| `Int8.FusedDot` | src/minigpt_infer/quant/int8.py:95-97 | accumulating integers and scaling once equals dequantise-then-multiply |
| `Int8.OutputError` | src/minigpt_infer/quant/int8.py:95-97 | each output differs from the unquantised one by at most scale/2 times the sum of |x_i| |
| `Int8.OutputClose` | src/minigpt_infer/quant/int8.py:95-97 | in terms of the weights alone: each output is within a/254 times the sum of |x_i| |
| `Int8.TileDot` | src/minigpt_infer/quant/int8.py:157-174 | a masked tile adds exactly its own terms |
| `Int8.GemvBlock` | src/minigpt_infer/quant/int8.py:144-181 | one program writes exactly its block of outputs |
| `Int8.DequantGemv` | src/minigpt_infer/quant/int8.py:144-213 | the grid of programs computes the layer for every width and every tile size |

## Left out

- Transformer arithmetic (normalisation, activation, projections, weight initialisation): abstract functions.
- Floating-point rounding, finite mask values and their overflow, NaN: reals and exact masks instead.
- `sampling.py` (top-k, top-p, repetition penalty): the engine's token for a request with positive temperature is an arbitrary draw.
- Speculative.SpeculativeGenerate: at positive temperature asks that the vocabulary mask leaves some token, because a softmax of nothing but -inf is NaN and the source's draw raises; at temperature <= 0 it asks nothing of the mask.
- `SelfSpeculativeDrafter`: covered by quantifying over all drafters.
- `graphs.py`, CUDA streams, strides, device placement: runtime behaviour outside the logic modelled.
- `loader.py`, `server/`, `bench/`, `scripts/`, tiktoken's merge tables: input, output and measurement.
- `quantize_model`, byte counts, metrics snapshots and speculative-decoding counters: they would only add easy members.
- Threads: `AsyncEngine` is a transition system whose steps are critical sections and queue or event operations, since the language has no threads; wait time-outs are steps that may always happen, and fairness of the thread scheduler is not modelled, so liveness is stated as bounded, never-blocked handing out.
- Requests submitted after the engine thread has crashed or been shut down: nobody is left to serve them.
- PagedPool.PagedKVCache.Write: writes in row order; for a slot named twice the source leaves the order open, which never matters because the engine's slots are distinct (Ownership.Exclusive).
- Draining.DrainsExactly: leaves out requests with positive temperature that may stop early, because how many tokens they emit depends on their draws; for those fitting the pool alone at full allowance suffices (Draining.Drains) and is not necessary.
- SpecDistribution.LoopIsTarget: the process is the recursion written there, sharing the acceptance rule, residual, allowance and target rows with the loop's code; that the code's draws realise each branch with its probability is what independent uniform and multinomial draws mean and is not modelled further.
- Generation.RunCached: asks for prompt length plus new tokens within block_size, because the loop also feeds the last token it generates.
- Nothing here was executed; the claims are about the model.
