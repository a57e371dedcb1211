# Bifrost core: a verified model

Bifrost is an LLM gateway written in Go.  This project models the parts of it where the reasoning is
hardest, and proves what they promise:

- **Provider queues** (`core/bifrost.go`).  Requests, workers, provider updates, lazy preparation,
  removal, clean-up of replaced workers and shutdown share bounded queues that are never closed, a
  closing flag and a done signal per queue, current and retired wait groups, two locks, and pooled
  messages and reply channels.  `LifecycleModel` makes every atomic action one step of a state machine
  over `MessageLayer` (channels, pools, messages, queue buffers); `LifecycleInvariant` is the inductive
  invariant, `ControlProof`, `MessageProof` and `MessageHistory` show that every step keeps it, and
  `LifecycleTheorems`, `PublicationTheorems` and `StrandedMessage` state what follows for whole runs:
  any number of requests, workers, generations and updates, in every interleaving.
- **Retries and key rotation** (`core/bifrost.go`, `core/utils.go`).  `Retry` is the retry loop with its
  key providers, against an adversarial provider, selector, filter and tracer.
- **Session stickiness** (`core/bifrost.go`).  `Stickiness` runs any number of concurrent requests of one
  session against an atomic cell.
- **Stream translation** (`core/schemas/mux.go`).  `StreamTranslation` and `StreamState` turn chat chunks
  into Responses events; `StreamTheorems` and `StreamRoundTrip` decode the events again.
- **Message conversion** (`core/schemas/mux.go`).  `MessageConversion` and `ConversionRoundTrip` expand
  chat messages into Responses items and put them together again.
- **Ordered maps** (`core/schemas/orderedmap.go`, `core/schemas/jsonkeyorder.go`).  `OrderedValues`,
  `OrderedCopies`, `OrderedCodec`, `OrderedMaps` and `KeyReordering`: canonical order, printing and
  decoding, skipping, key order.
- **Span filter, pagination, weighted selection** (`core/schemas/span_filter.go`,
  `core/schemas/models.go`, `core/keyselectors/weightedrandom.go`): `SpanFilter`, `Pagination`,
  `WeightedSelection`.

Code that works by changing things step by step is a class or a method with loops, proved against a
function on values about which the main results are stated; code made of expressions is functions.  The
queue protocol is a relation between states, because its subject is interleaving.  Where a promise does
not hold for every input the project says exactly when it does: `Stickiness.AgreementExact`,
`Pagination.PanicsExactly`, `Pagination.FollowingCoversAll`, `StreamRoundTrip.FinishComesBack`,
`StreamRoundTrip.RoundTrip`, `ConversionRoundTrip.Idempotent`, `OrderedCopies.SortExact`, `OrderedCodec.RoundTrip` and
`KeyReordering.RepeatsExactly` are all if-and-only-if statements.

`dafny verify dfyconfig.toml` checks the whole project.

## Model

| member | source | states |
|---|---|---|
| LifecycleTheorems.RunInv | core/bifrost.go:3041-3345 | the inductive invariant (ownership of channels and messages, whereabouts, wait-group counts, who holds which lock) holds in every state of every run |
| ControlProof.NextKeepsControl | core/bifrost.go:3121-3345 | every step of producers, workers, updater, remover, clean-ups and shutdown keeps the invariant on generations, wait groups and locks |
| MessageProof.NextKeepsMessages | core/bifrost.go:4082-4308 | every step keeps the invariant on messages, channels and pools |
| MessageHistory.StepMoves | core/bifrost.go:5606-5660 | in one step a message moves at most once along its life (unsent, queued, held, answered or dropped), only an update may requeue it, and it becomes answered exactly when a value is put on one of its channels |
| LifecycleTheorems.OnePlace | core/bifrost.go:3233-3278 | in every reachable state a message is in exactly one place: unsent, at one position of one queue, in one busy actor's hand, answered, or dropped by its holder |
| LifecycleTheorems.AtMostOneReply | core/bifrost.go:5606-5660 | over a whole run at most one value is put on the reply channels of a request |
| LifecycleTheorems.RepliesNeverBlock | core/bifrost.go:6520-6544 | whoever holds a message finds the capacity-one channel it is to answer on empty |
| LifecycleTheorems.TimerNeverFires | core/bifrost.go:5611-5660 | the five-second timer around a worker's reply never fires, in any run |
| LifecycleTheorems.OwnReply | core/bifrost.go:4229-4307 | a caller receives the outcome produced for its own request, put earlier in the run, however channels and messages were pooled and reused |
| LifecycleTheorems.AnswersCanBeReceived | core/bifrost.go:4229-4307 | an answer put and not yet received lies in the channel the waiting caller reads |
| LifecycleTheorems.DropsAreCancelled | core/bifrost.go:5176-5209 | a message is dropped without an answer only after its caller cancelled |
| LifecycleTheorems.HooksRunOnce | core/bifrost.go:5676-5690 | the post-hooks of a request run at most once: on receipt or when its holder bills it as abandoned |
| LifecycleTheorems.PooledChannelsAreQuiet | core/bifrost.go:6470-6503 | a pooled channel is empty, no request holds it, and no message in a queue or in a hand names it |
| LifecycleTheorems.PooledObjectsAreQuiet | core/bifrost.go:6547-6569 | a pooled message is in no queue and in no hand |
| PublicationTheorems.EveryWorkerIsWaitedFor | core/bifrost.go:3217-3316 | whenever no update is under way, every live worker of every generation is counted in the current wait group or, through its clean-up, in the retired one |
| PublicationTheorems.RemovedMeansIdle | core/bifrost.go:3041-3098 | while a provider has no queue entry, no worker of any of its generations runs |
| PublicationTheorems.ShutdownLeavesNobody | core/bifrost.go:6997-7048 | when shutdown is done no worker runs of any generation that was complete when it took the lifecycle lock |
| PublicationTheorems.PublishedIsOpen | core/bifrost.go:3157-3222 | while no removal or shutdown has begun the published queue is not closing, across any number of updates |
| PublicationTheorems.ClosedByWhom | core/bifrost.go:3054-3067 | a published queue that is closing is closed by the removal holding the mutex or by shutdown, never by an update |
| PublicationTheorems.NeverRepublished | core/bifrost.go:3157-3222 | a generation that was replaced or removed is never published again |
| PublicationTheorems.PublishedGrow | core/bifrost.go:3459-3498 | published generations only go up |
| PublicationTheorems.UpdatesHandOver | core/bifrost.go:3257-3279 | an update always finds a wait group to hand to a clean-up, so its fallback of sweeping the old queue itself is never taken |
| PublicationTheorems.LateSendsOnly | core/bifrost.go:4161-4225 | a message enters a closing queue only from a sender that was past its last closing check when the flag went up |
| PublicationTheorems.WhatCanBeLeft | core/bifrost.go:6505-6544 | after the workers' wait and the final sweep nobody serves the queue, and what is in it came from those senders, at most one message from each |
| StrandedMessage.AMessageCanBeStranded | core/bifrost.go:6505-6519 | the documented window is real: a run in which the provider is removed, nobody is left to look, and a message of a caller that has not cancelled lies in the queue |
| Retry.ExecuteRequestWithRetries | core/bifrost.go:4621-5155 | the history of attempts is legal (whom each attempt uses, when it waits, when it follows), the trail and the context values tell that history, and each outcome occurs exactly when the history says, all-keys-dead exactly when every key failed for good |
| Retry.RunAttempt | core/bifrost.go:4674-4850 | one pass of the loop extends the legal history by one attempt or ends it |
| Retry.Judge | core/bifrost.go:5036-5152 | classification: finish, or note the failure, its reason in the trail, and go on |
| Retry.Learn | core/bifrost.go:5103-5134 | the dead set, the used set and the pending rotation mark are those of the history |
| Retry.PickKey | core/bifrost.go:5396-5461 | the pick is that of the specification, from the pool in order, and is never dead and never used in its round; none alive exactly when all are dead; without a filter a fresh round starts exactly when all keys are dead or used |
| Retry.NeverDead | core/bifrost.go:5411-5461 | no attempt uses a key that failed for good before it |
| Retry.DeadNeverReused | core/bifrost.go:5103-5123 | a key that failed with 401, 402 or 403 and was to be retried is never used again in the request, fixed or pooled |
| Retry.UsedAndDeadDisjoint | core/bifrost.go:5103-5123 | with a rotating pool no key is both used and dead |
| Retry.ReuseNeedsFullRound | core/bifrost.go:5418-5461 | without a pool filter a rate-limited key is used again only after a fresh round that began when every key had failed for good or been rate-limited since the round before |
| Retry.RotationsAreReal | core/bifrost.go:4741-4779 | a record is marked as a rotation if and only if a next record exists and names another key, and then its failure was the key's; with a tracer every record is of a call |
| Stickiness.AgreementExact | core/bifrost.go:6910-6955 | with at least two keys, all interleavings of all requests of a session agree on one key if and only if the stored binding names a supported key, or is absent and no supported ID is empty |
| Stickiness.SoundAgrees | core/bifrost.go:6910-6955 | the same in one direction, for any set of keys |
| Stickiness.ReturnsTheBinding | core/bifrost.go:6910-6955 | a returned key is supported and is the one bound in the store, and the binding found at first is kept |
| Stickiness.StaleEntryDisagrees | core/bifrost.go:6964-6993 | two requests that saw a stale entry can return different keys, because the second deletes what the first has bound |
| Stickiness.EmptyEntryDisagrees | core/bifrost.go:6964-6993 | an empty stored ID is never found and never replaced |
| Stickiness.EmptyIdDisagrees | core/bifrost.go:6964-6993 | a supported key with an empty ID, once bound, is not found by the next request |
| StreamState.ChatToResponsesStreamState.Translate | core/schemas/mux.go:1635-2231 | the new state and the events of a chunk are those of the step function, numbered on from the last event |
| StreamState.ChatToResponsesStreamState.Tool | core/schemas/mux.go:1785-1952 | tool-call phase: by ID, else by index; given up when unknown; a text item with content is closed before a new call |
| StreamState.ChatToResponsesStreamState.CloseToolItems | core/schemas/mux.go:2058-2113 | closing events of the calls with arguments, in any order of map iteration |
| StreamState.ChatToResponsesStreamState.CollectOutput | core/schemas/mux.go:2115-2217 | the terminal output is the text item and then the calls by output index |
| StreamTranslation.StepOk | core/schemas/mux.go:1511-1528 | output indices stay below the counter and belong to one call each, after every chunk |
| StreamRoundTrip.TranslateAll | core/schemas/mux.go:1635-2231 | over a whole stream the sequence numbers are 0, 1, 2, ... without gap or repeat |
| StreamRoundTrip.ReceivedMatchesState | core/schemas/mux.go:1655-1952 | after any stream of at most 65536 calls the text a client has decoded is the text buffer, and its calls, indexed 0, 1, 2, ..., are those of the state in order of first appearance, each with the arguments buffered for it |
| StreamRoundTrip.TerminalTellsAll | core/schemas/mux.go:1980-2217 | the terminal event holds the whole text and every call with all its arguments, in order of first appearance, for every order of map iteration |
| StreamRoundTrip.RoundTrip | core/schemas/mux.go:2234-2458 | translating a well-formed chat stream and decoding the events gives the same text, reasoning, refusal, call IDs and arguments, renumbered by first appearance; the calls come back with all their names if and only if no call begun without a name is given one later |
| StreamRoundTrip.TrimmedRun | core/schemas/mux.go:1785-1952 | the events of a stream are those of the stream without its late names |
| StreamRoundTrip.FinishComesBack | core/schemas/mux.go:1343-1383 | the finish reason comes back unchanged exactly for "length", for "tool_calls" with calls, and for "stop" without |
| StreamRoundTrip.EachCallClosedOnce | core/schemas/mux.go:1980-2217 | at the finish every call with arguments gets exactly one arguments-done event and a call without gets none, in any order of iteration |
| StreamRoundTrip.ClosedWithAllArgs | core/schemas/mux.go:1980-2217 | an arguments-done event carries all the arguments of its call |
| StreamRoundTrip.OtherToolCallsIgnored | core/schemas/mux.go:1785-1952 | only the first tool call of a chunk has an effect |
| StreamRoundTrip.LateNameIgnored | core/schemas/mux.go:1785-1952 | a name that comes with a later fragment of a call has no effect |
| MessageConversion.ToChatMessages | core/schemas/mux.go:708-973 | the loop over pending calls and reasoning computes the conversion function |
| MessageConversion.CallsKept | core/schemas/mux.go:708-973 | the tool calls of the output, flattened, are the function calls that carry a tool part, in order |
| MessageConversion.OneMessageEach | core/schemas/mux.go:708-973 | every item that is neither reasoning nor a function call becomes exactly one message, in order, and every other message is put together from function calls |
| ConversionRoundTrip.ReasoningKept | core/schemas/mux.go:708-973 | the reasoning details of all items are attached to assistant messages in order; only those no assistant message follows are dropped |
| ConversionRoundTrip.MessageByMessage | core/schemas/mux.go:391-704 | when every turn with tool calls is followed by a turn that is not the assistant's, chat to Responses to chat works message by message |
| ConversionRoundTrip.NormTwice | core/schemas/mux.go:391-704 | a second trip changes nothing about a message if and only if its content carries over |
| ConversionRoundTrip.Idempotent | core/schemas/mux.go:391-973 | chat to Responses to chat is idempotent on such conversations if and only if every message's content carries over |
| SpanFilter.BuildReparentMap | core/schemas/span_filter.go:94-123 | every removed span whose parent chain leaves the removed spans is sent to the first ID on it that is not removed, and every one caught in a cycle to a removed span, for every order of iteration although entries are overwritten; nil exactly when nothing is removed |
| SpanFilter.ResolveAll | core/schemas/span_filter.go:107-121 | the second pass, in any order of iteration |
| SpanFilter.Resolve | core/schemas/span_filter.go:110-119 | following the map as it now is, at most as many hops as it has entries, reaches the ancestor |
| SpanFilter.DepthBound | core/schemas/span_filter.go:107-119 | a chain that leaves the removed spans does so within as many hops as there are removed spans, so the cap suffices |
| SpanFilter.AcyclicLeaves | core/schemas/span_filter.go:86-93 | without cycles every chain leaves the removed spans |
| SpanFilter.NamesPlugin | core/schemas/span_filter.go:52-69 | a span names plugin p exactly when it is a plugin span called "plugin.p.stage" |
| OrderedValues.SortCanonical | core/schemas/orderedmap.go:312-354 | sorting depends only, and injectively, on which fields there are |
| OrderedCopies.CopyExact | core/schemas/orderedmap.go:365-433 | two values have the same sorted copy if and only if they are equal as nested maps, whatever their key orders |
| OrderedCopies.SortExact | core/schemas/orderedmap.go:308-358 | in-place sorting gives the sorted copy if and only if the tree has no nil slice and no ordered map that was never made |
| OrderedCopies.KeepErases | core/schemas/orderedmap.go:435-558 | the property-preserving copy forgets every order but that of the names held by an ordered map under "properties" |
| OrderedCopies.KeepExact | core/schemas/orderedmap.go:435-558 | where no plain map stands under "properties" it forgets nothing else: same copy if and only if equal up to those orders |
| OrderedMaps.OrderedMap.SortKeys | core/schemas/orderedmap.go:324-343 | keys and nested maps are sorted in place to the specified value, in any order of iteration over the values |
| OrderedMaps.OrderedMap.Set | core/schemas/orderedmap.go:85-93 | a new key goes to the end, a known one keeps its place |
| OrderedMaps.OrderedMap.Delete | core/schemas/orderedmap.go:96-110 | the key goes, the others keep their order |
| OrderedMaps.DeleteUndoesSet | core/schemas/orderedmap.go:85-110 | setting a new key and deleting it changes nothing |
| OrderedMaps.OrderedMap.UnmarshalJSON | core/schemas/orderedmap.go:250-306 | reads exactly the objects the decoder reads, replaces the contents by the decoded value, and makes null an unmade map |
| OrderedMaps.Decoder.DecodeOrderedValue | core/schemas/orderedmap.go:564-634 | moving the position computes the decoder function, failures included |
| OrderedMaps.Decoder.SkipJSONValue | core/schemas/jsonkeyorder.go:88-123 | moving the position computes the skipping function, failures included |
| OrderedMaps.ExtractTopLevelKeyOrder | core/schemas/jsonkeyorder.go:59-86 | the keys read before the first error or the closing brace |
| OrderedCodec.DecodePrint | core/schemas/orderedmap.go:564-634 | decoding undoes printing and leaves what follows |
| OrderedCodec.RoundTrip | core/schemas/orderedmap.go:176-207 | printing and decoding gives the canonical form, and the value itself if and only if it has no nil or unmade container and no plain map |
| OrderedCodec.SkipMatchesDecode | core/schemas/jsonkeyorder.go:88-123 | skipping consumes exactly the tokens decoding does and fails exactly when it fails |
| OrderedCodec.KeyOrder | core/schemas/jsonkeyorder.go:59-86 | the decoded keys are the first occurrences of the extracted ones, and the same list when none repeats |
| OrderedCodec.PrintedKeyOrder | core/schemas/jsonkeyorder.go:59-86 | the keys extracted from a printed object are its keys in its own order |
| KeyReordering.ReorderJSONKeys | core/schemas/jsonkeyorder.go:130-206 | the keys of the order that are present, repeats included, and then the other fields in their own order |
| KeyReordering.ReorderKeepsMeaning | core/schemas/jsonkeyorder.go:130-206 | every key keeps the value a reader finds for it, even when the order or the object repeats keys |
| KeyReordering.RepeatsExactly | core/schemas/jsonkeyorder.go:174-188 | from an object without repeated keys the result repeats none if and only if the order gives each present key once |
| Pagination.AnyToken | core/schemas/models.go:88-147 | whatever the token, a page is a contiguous slice of at most pageSize items, full unless it reaches the end, and a next token that names its end is given exactly when items follow |
| Pagination.ResumesOrRestarts | core/schemas/models.go:247-287 | a token naming the item before the page resumes right behind it or, when that item is not there, restarts |
| Pagination.PanicsExactly | core/schemas/models.go:108-123 | the call panics if and only if offset plus page size overflows 64 bits for a page not past the end |
| Pagination.FollowingCoversAll | core/schemas/models.go:88-147 | following tokens from the empty one returns every model once, in order, in max(1, ceil(n/pageSize)) pages, if and only if the end of the last page can be computed without overflow |
| WeightedSelection.WeightedRandom | core/keyselectors/weightedrandom.go:9-35 | the position chosen is the first whose running weight is above the draw; it panics exactly when there are no keys or the total is negative, and never reaches the last return |
| WeightedSelection.ExactShare | core/keyselectors/weightedrandom.go:9-35 | exactly as many of the draws below the total select a position as its weight says |
| WeightedSelection.OnePosition | core/keyselectors/weightedrandom.go:9-35 | every draw selects exactly one position, one of positive weight |

## Left out

Provider queues
- The protocol is a relation on values rather than objects on a heap: one provider key, so a map over providers has at most one entry; the copy-on-write list of providers and a failure to take an entry out of it are not modelled.
- Queue capacities are at least one; a configured capacity below one is replaced by a default before it is used.
- PublicationTheorems.ShutdownLeavesNobody: lazy preparation does not take the lifecycle lock, so it speaks of the generations complete when shutdown took the lock; one call of shutdown is modelled.
- LifecycleTheorems.HooksRunOnce: at most once, not exactly once; after a cancelled wait a reply can already lie in a buffered channel, and then neither side runs the hooks.
- LifecycleTheorems.TimerNeverFires: time is nondeterminism; cancellation may come at any step, and a timer beside a send may fire at any step at which the send is blocked.
- Plugin bodies, tracer and plugin shutdown, fallback to other providers, stripping of raw fields; an error from key selection in a worker is one more error reply.

Retries
- Matching of error texts against fixed patterns enters as flags of the failure; the error of a stream's first chunk is part of the provider's answer.
- The length of the backoff, spans, logs and the routing log.
- With a negative retry limit the loop does not run and nothing is returned, as in the source; a keyless request leaves its failure reasons in the last record of whatever trail its context already holds, as in the source.

Stickiness
- Store errors, expiry of entries, and the paths that skip the store (one key, or a key named by the caller); keys stand for their IDs.

Streams
- Usage, time stamps, search results, videos, citations, and reuse of pooled stream states.
- StreamRoundTrip.RoundTrip: a stream is well formed if it has at most one tool call in a chunk and an ID on each call's first chunk; OtherToolCallsIgnored shows what happens to further calls in a chunk.  The item IDs are those of the map, so a call with the ID "text" overwrites the text item's.

Message conversion
- Random item IDs, annotations, cache control, file types, audio formats, and the index of a reasoning detail, which is its position.  The source fills a missing content of the caller's item in place; here the item is a value.

Ordered maps
- Nested values are values: two maps that share a nested map are not modelled.  Number text, and commas and colons as tokens, belong to encoding/json.
- OrderedCopies.KeepExact: the converse needs that no plain map stands under "properties", because a plain map there can have the copy of an ordered one whose names are already sorted.
- OrderedMaps.OrderedMap.UnmarshalJSON: says nothing about the contents after a failure.
- KeyReordering.ReorderJSONKeys: text that does not parse as an object is returned unchanged by the source and is not modelled; values are uninterpreted.

The rest
- Pagination: a nil response, and the JSON and base64 text of a cursor (an inverse pair).
- Weighted selection: rounding of floating-point weights; weights are real numbers.
- Span filter: validation of the configuration.
- Provider implementations, HTTP, the public request wrappers and dispatch, schema structs, secrets, networking: long but one-branch, or foreign code.
