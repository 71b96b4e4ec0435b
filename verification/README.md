# A model of the gateway's protocols and transducers

The gateway puts one chat API in front of several language-model providers. It caches answers in two
layers over Redis (an exact key, and a semantic entry found by text or by vector), limits request rates
and concurrent streams, retries and falls back between model aliases, and speaks the Anthropic Messages
format at one of its facades. This project models the parts where that is hard to get right and proves
what they promise over all inputs, all interleavings and whole runs.

| file | models |
|---|---|
| `SemanticUpsert.dfy` | HSETNX claim, then MULTI, with a heal path; any number of writers, crashes, expiries, deletes |
| `TokenBucket.dfy` | the Lua token bucket: floor, cap, denial without a write, 60 s expiry |
| `StreamSlots.dfy` | the INCR/DECR counter of concurrent streams, with the faults that make it drift |
| `CircuitBreaker.dfy`, `SemanticCache.dfy`, `LastUserMessage.dfy`, `Trimming.dfy` | the embedding circuit breaker under overlapping calls, and the service that drives it |
| `ResilientStream.dfy` | retry, backoff, deadline and fallback around a streaming attempt |
| `AnthropicStream.dfy` | the stateful stream mapper, a strict consumer of its output, and the JSON mapper |
| `StreamReplay.dfy`, `StreamedAnswer.dfy` | storing and replaying an answer, and the whole way of a streamed request |
| `MessageMapping.dfy` | facade messages to gateway turns to provider messages |
| `TagQuery.dfy`, `SseText.dfy`, `EnvFile.dfy` | text formats with a reader for each |
| `Singleflight.dfy`, `CoalescedChat.dfy` | coalescing of identical work in flight, and the answer a coalesced caller gets |
| `CacheProvenance.dfy` | both cache layers over whole runs, and where a served reply came from |

Code that updates state is a class with the source's fields, or a method with the source's loop, proved
against a specification function; concurrency is a step relation over atomic commands, with theorems
about every run. Clocks, provider outcomes, embeddings, search results and abort signals are parameters.

Some claims one would make about the code are false, and the exact condition is proved instead:

- The rate bound survives the bucket's expiry exactly when burst <= 60 * rps.
- A replayed answer is what the first client saw exactly when no failed attempt had sent text.
- The stream limit can be relied on exactly when the counter is not below the slots in use.
- A conversation reaches the provider unchanged exactly when it is in normal form.
- A TAG value matches only itself exactly when it is not empty, has no comma and no white space at either
  end. The configuration check is for ids, but the cache partitions by a client's display name: a reply
  stored for client c is served by vector to exactly the clients c's name is indexed under.
- Two clients share an entry identity exactly when one display name extends the other by an alias, the
  embedding model and a digest, joined by pipes.
- A coalesced answer is the caller's own exactly when its request and conversation ids are those of the
  caller that started the work.
- A `.env` value is read back exactly when it has no newline and no trailing carriage return.
- A write that finishes leaves a complete entry exactly when someone has claimed since the key last
  vanished; otherwise it leaves a vector without a reply, as after an expiry between the two probes of the
  heal path, which the source's comment calls the recreate path.

## Model

| member | source | states |
|---|---|---|
| `SemanticUpsert.RedisEntry.HSetNx` | src/cache/semantic/adapters/redis-vector-store.adapter.ts:385-389 | the claim sets `reply` only when it is absent and says whether it did |
| `SemanticUpsert.RedisEntry.HSetAndExpire` | src/cache/semantic/adapters/redis-vector-store.adapter.ts:339-350 | the transaction sets vector and TTL together and leaves `reply` alone |
| `SemanticUpsert.RedisEntry.Write` | src/cache/semantic/adapters/redis-vector-store.adapter.ts:372-410 | from any of the four shapes a writer alone ends on a complete entry; an earlier reply stays, and a complete entry is not touched |
| `SemanticUpsert.EveryReachableEntryIsWellShaped` | src/cache/semantic/adapters/redis-vector-store.adapter.ts:339-410 | under every interleaving of writers, crashes, restarts, expiries and deletes the entry is absent, reply-only without TTL, vector-only with TTL, or complete with TTL |
| `SemanticUpsert.ReplyIsStableUntilItVanishes` | src/cache/semantic/adapters/redis-vector-store.adapter.ts:383-389 | over every run in which the key does not vanish, a reply that is present stays the same |
| `SemanticUpsert.FinishIsCompleteExactlyWhenClaimedSince` | src/cache/semantic/adapters/redis-vector-store.adapter.ts:352-410 | over every run, at the step by which a writer finishes the entry is complete if and only if someone has claimed since the key last vanished, and then holds the first such claimant's reply; otherwise it is a vector without a reply |
| `SemanticUpsert.FinishedWriteIsComplete` | src/cache/semantic/adapters/redis-vector-store.adapter.ts:352-410 | a condition on the writer's own span alone: if the key does not vanish between its start and its end the entry is complete then, with the first claimant's reply, whatever the others did |
| `SemanticUpsert.OrphanIsHealedWithItsOwnReply` | src/cache/semantic/adapters/redis-vector-store.adapter.ts:396-405 | a claimant that died between claim and transaction has its entry completed by the next finishing writer, with the dead claimant's reply |
| `SemanticUpsert.TextReaderSeesOnlyCompleteEntries` | src/cache/semantic/adapters/redis-vector-store.adapter.ts:291-310 | over every run a text-identity read returns a reply only from a complete entry, and that reply is some writer's |
| `SemanticUpsert.FinishedWriteIsReadBack` | src/cache/semantic/adapters/redis-vector-store.adapter.ts:277-316 | after a finished write, and until the key vanishes, every text-identity read returns the first claimant's reply |
| `SemanticUpsert.ExpiryCanLeaveAVectorWithoutReply` | src/cache/semantic/adapters/redis-vector-store.adapter.ts:396-405 | a run in which the key expires between the two probes of the only writer left, which then finishes on a vector without a reply |
| `TokenBucket.TokenBucketKey.CheckRateLimit` | src/rate-limit/smart-rate-limiter.service.ts:86-121 | the script's steps on a key that expires after 60 s decide and store what the specification `CheckExpiring` says; with valid limits a denial changes nothing |
| `TokenBucket.AdmissionDropsPotential` | src/rate-limit/smart-rate-limiter.service.ts:106-117 | an admission lowers 1000 * tokens - rps * lastRefill by at least 1000, on any clock |
| `TokenBucket.RunDropsPotential` | src/rate-limit/smart-rate-limiter.service.ts:94-117 | over any run the potential falls by at least 1000 per admission |
| `TokenBucket.AdmissionsAreBounded` | src/rate-limit/smart-rate-limiter.service.ts:86-121 | after any past and on any clock, requests whose first and last are admitted at s and t include at most burst + floor(rps * (t - s) / 1000) admissions |
| `TokenBucket.MonotoneRunsAreBounded` | src/rate-limit/smart-rate-limiter.service.ts:86-121 | on a monotone clock the same bound holds for every contiguous segment of every run, admitted or not at its ends |
| `TokenBucket.DenialsChangeNothing` | src/rate-limit/smart-rate-limiter.service.ts:112-120 | any number of denials leaves the bucket as it was |
| `TokenBucket.LastRefillIsLastAdmission` | src/rate-limit/smart-rate-limiter.service.ts:109-117 | the stored refill time is the time of the last admission, however many denials followed |
| `TokenBucket.WaitingIsEnough` | src/rate-limit/smart-rate-limiter.service.ts:94-120 | with the expiry, whatever the burst and however many denials since: a request at least ceil(1000 / rps) ms after the last admission is admitted |
| `TokenBucket.WaitEarnsExactly` | src/rate-limit/smart-rate-limiter.service.ts:94-120 | of n requests that arrive together while the key lives, exactly min(n, burst, tokens left + floor(elapsed * rps / 1000)) are admitted |
| `TokenBucket.ExpiryIsInvisible` | src/rate-limit/smart-rate-limiter.service.ts:94-117 | with burst <= 60 * rps the bucket that expires after 60 s decides and stores the same as one that never does, over every run |
| `TokenBucket.ExpiryRefillsWholeBurst` | src/rate-limit/smart-rate-limiter.service.ts:115-117 | two bursts 60 s apart are admitted whole: 2 * burst requests |
| `TokenBucket.BoundHoldsExactlyWhenBurstFitsAMinute` | src/rate-limit/smart-rate-limiter.service.ts:86-121 | the deployed bucket, expiry included, keeps the rate bound on every segment of every monotone run if and only if burst <= 60 * rps |
| `StreamSlots.StreamCounter.CheckConcurrentStreams` | src/rate-limit/smart-rate-limiter.service.ts:193-210 | the method is the run Acquire, or Acquire then Undo, of the step relation; it admits exactly when the counter is below the limit, and a refusal leaves all slots as they were |
| `StreamSlots.StreamCounter.ReleaseStream` | src/rate-limit/smart-rate-limiter.service.ts:221-230 | the method is the Release step of its stream and keeps the conservation invariant; unless slots have leaked the next request is then admitted |
| `StreamSlots.SlotsAreConserved` | src/rate-limit/smart-rate-limiter.service.ts:193-230 | over every fault-free interleaving the counter is live streams plus refusals not yet undone, live streams stay within the limit, a refusal needs those two to fill the limit, and the counter ends at 0 |
| `StreamSlots.DriftBoundsOveruse` | src/rate-limit/smart-rate-limiter.service.ts:193-230 | over every run with leaks, spurious releases, key expiries and requests let in by a Redis error, live streams are at most the limit, plus streams forced in and not yet released, less the drift |
| `StreamSlots.LimitHoldsExactlyWithoutDebt` | src/guards/smart-rate-limit-guard.ts:83-101 | from any state within the limit, every fault-free continuation stays within it if and only if the counter is not below the slots in use |
| `StreamSlots.LeaksShrinkTheLimit` | src/integrations/anthropic/controllers/anthropic-messages.controller.ts:156-232 | a mapping error between acquire and `try` costs a slot for good: with all streams ended the counter equals the leaks, and a request is refused exactly when they use up the limit |
| `StreamSlots.SpuriousReleaseAdmitsOneTooMany` | src/common/interceptors/stream-cleanup.interceptor.ts:17-30 | a release with no acquisition behind it lets two streams in under a limit of one |
| `CircuitBreaker.EmbeddingCircuitBreaker.ShouldSkipEmbed` | src/cache/semantic/embedding-circuit-breaker.ts:21-28 | the method is the Ask event of the step relation, and skips exactly when that event leaves no more calls outstanding |
| `CircuitBreaker.EmbeddingCircuitBreaker.RecordEmbedFailure` | src/cache/semantic/embedding-circuit-breaker.ts:37-43 | the method is the Fail event of the step relation and keeps its invariant |
| `CircuitBreaker.EmbeddingCircuitBreaker.RecordEmbedSuccess` | src/cache/semantic/embedding-circuit-breaker.ts:45-49 | the method is the Succeed event of the step relation and keeps its invariant |
| `CircuitBreaker.FailuresCountTheTrailingRun` | src/cache/semantic/embedding-circuit-breaker.ts:21-49 | over every run of overlapping, possibly stale calls `failures` is the length of the trailing run of reported failures |
| `CircuitBreaker.AdmissionFollowsReports` | src/cache/semantic/embedding-circuit-breaker.ts:21-43 | both thresholds on the history alone: with fewer than openAfter failures at the end of the reports every call is admitted; with at least that many it is refused until cooldownMs after the last Fail, and admitted from then on when none is outstanding |
| `CircuitBreaker.TrialIsAlone` | src/cache/semantic/embedding-circuit-breaker.ts:25-27 | after a trial has been let in the next call is refused |
| `CircuitBreaker.NeverWedges` | src/cache/semantic/embedding-circuit-breaker.ts:21-28 | in every reachable state with no call outstanding the next call is admitted exactly when the breaker is not tripped or has cooled down |
| `CircuitBreaker.UnreportedTrialBlocksForever` | src/cache/semantic/embedding-circuit-breaker.ts:21-35 | a trial that never reports blocks every later call: the pairing of admissions and reports is needed |
| `CircuitBreaker.OpenAdmissionsAreSpaced` | src/cache/semantic/embedding-circuit-breaker.ts:21-49 | while no success is reported, admissions of the tripped breaker are pairwise at least the cooldown apart, however late failures come in |
| `CircuitBreaker.OpenAdmissionsAreRare` | src/cache/semantic/embedding-circuit-breaker.ts:21-49 | so at most 1 + floor(T / cooldown) of them fall within T milliseconds |
| `SemanticCache.FirstAboveIsBest` | src/cache/semantic/semantic-cache.service.ts:116 | in results sorted by distance the first hit above the threshold is the best of all, and there is none exactly when all are below |
| `SemanticCache.SemanticCacheService.EmbedThroughCircuit` | src/cache/semantic/semantic-cache.service.ts:91-105 | the breaker goes through Ask alone, or Ask and the one report of the outcome; the backend is called exactly when it lets the call in |
| `SemanticCache.EmbedIsARun` | src/cache/semantic/semantic-cache.service.ts:91-105 | that is a run of the breaker's machine, leaves as many calls outstanding as it found, and reports exactly the calls let in |
| `SemanticCache.DeadBackendIsLeftAlone` | src/cache/semantic/semantic-cache.service.ts:91-105 | a dead backend is called for the first openAfter requests and for none within the cooldown after the last of them |
| `SemanticCache.SemanticCacheService.Lookup` | src/cache/semantic/semantic-cache.service.ts:63-132 | result and breaker state on the request's own fields: nothing is touched when the layer is off, the request not one user message with text, or a text hit found; otherwise one embedding is asked for, and the reply is the first hit at the threshold |
| `SemanticCache.SemanticCacheService.StoreReply` | src/cache/semantic/semantic-cache.service.ts:134-181 | a vector from the lookup is stored without asking again, a lookup that already tried is not retried, and one that did not is followed by one embedding, with the breaker's state in each case |
| `SemanticCache.SemanticCacheService.MissThenStore` | src/chat/services/chat-cache-pipeline.service.ts:78-137 | lookup and store of one request together embed at most once, the lookup's vector is the one stored, and the breaker sees the store's call only when the lookup's was not let in |
| `LastUserMessage.LastUserMessageText` | src/cache/semantic/last-user-message.ts:3-14 | the backward loop returns the trimmed text of the last user message that is not blank, or nothing when there is none |
| `LastUserMessage.LastUserTextIsTheLast` | src/cache/semantic/last-user-message.ts:3-14 | that text is of a user message with text in it after which no user message has any, and there is none exactly when no user message has |
| `Trimming.TrimCutsExactlyTheEnds` | src/cache/semantic/last-user-message.ts:3-14 | trimming cuts off white space on both sides, only that and all of it |
| `LastUserMessage.IsSingleTurnUserRequest` | src/cache/semantic/last-user-message.ts:16-25 | the counting loop recognises exactly one user message and no other |
| `LastUserMessage.SingleTurnText` | src/cache/semantic/last-user-message.ts:3-25 | for a single-turn request the lookup text is its one message, trimmed |
| `ResilientStream.Session.StreamOnce` | src/chat/services/chat-provider-call.service.ts:189-220 | an attempt emits meta at most once per session, then each chunk, and assembles exactly the chunks it emitted |
| `ResilientStream.Session.TryAlias` | src/chat/resilience/resilient-executor.ts:138-202 | attempts on one alias stop at the first that is not a retryable failure or at the limit; events, calls and sleep are those of the attempts made |
| `ResilientStream.Session.ExecuteWithRetryAndFallback` | src/chat/resilience/resilient-executor.ts:34-136 | the result is read off the calls made: value, alias and text of the last on success, its error without a fallback, status of the last call on the primary when both failed; the events are the first opener's alias and every chunk of every call, and sleep and time are those of the calls |
| `ResilientStream.ResultTellsOutcome` | src/chat/resilience/resilient-executor.ts:34-136 | the same about result and call log, for every outcome oracle |
| `ResilientStream.EventsTellCalls` | src/chat/services/chat-provider-call.service.ts:189-220 | the same about events and call log, for every outcome oracle |
| `ResilientStream.Session.ExecuteStreamMiss` | src/chat/chat.service.ts:425-520 | one meta first, then deltas, then exactly one done if and only if the request succeeded; the text handed to the cache is the end of the text sent, and only when the primary alias answered |
| `ResilientStream.TraceIsWellFormed` | src/chat/services/chat-provider-call.service.ts:189-220 | for every outcome oracle the trace is empty or one meta followed by deltas, and on success the assembled text is a suffix of all text sent |
| `ResilientStream.StopsAtFirstFinalAttempt` | src/chat/resilience/resilient-executor.ts:150-200 | every attempt before the last one made failed retryably, and the last did not or was the last allowed |
| `ResilientStream.CallLogIsAccounted` | src/chat/resilience/resilient-executor.ts:34-202 | the call log is primary 1..p, then fallback 1..f, within the limit; f > 0 exactly when the primary failed and a fallback exists; every call but the last on an alias failed with a retryable status and the last did not or was the last allowed; attempts reported on success are the calls made |
| `ResilientStream.ReportedTotalIsAnUpperBound` | src/chat/resilience/resilient-executor.ts:270-305 | the total in the exhausted error is at least the calls made, and equal exactly when both aliases used all their attempts |
| `ResilientStream.SleepIsBounded` | src/chat/resilience/resilient-executor.ts:204-217 | sleep over m attempts is at most initial * (2^(m-1) - 1) and at most (m-1) * maxDelay |
| `ResilientStream.BackoffDoublesUntilCapped` | src/chat/resilience/resilient-executor.ts:208-217 | the delay starts at the initial one and doubles until it meets the cap, exactly |
| `ResilientStream.WholeSleepIsBounded` | src/chat/resilience/resilient-executor.ts:34-136 | both aliases together sleep at most twice as long as one that uses all its attempts |
| `ResilientStream.DeadlineCutsTheAttempt` | src/chat/resilience/resilient-executor.ts:223-268 | an attempt past its deadline ends there as a 504 having sent exactly the chunks before it; any other is left as it is |
| `ResilientStream.DeadlineBoundsAttempts` | src/chat/resilience/resilient-executor.ts:223-268 | with a deadline per attempt, n attempts take at most n deadlines |
| `ResilientStream.RetryReEmitsText` | src/chat/resilience/resilient-executor.ts:150-200 | an example where a retry sends `Hello` after a partial `Hel`: sent and cached text differ |
| `AnthropicStream.AnthropicStreamState.NextBlockIndex` | src/integrations/anthropic/mappers/anthropic-stream.mapper.ts:34-44 | the next index is one past the text block when there is one |
| `AnthropicStream.AnthropicStreamState.MapToolCalls` | src/integrations/anthropic/mappers/anthropic-stream.mapper.ts:138-169 | tool calls become whole blocks with consecutive indices |
| `AnthropicStream.AnthropicStreamState.MapDone` | src/integrations/anthropic/mappers/anthropic-stream.mapper.ts:118-180 | text block closed, thinking, tool calls, message_delta, message_stop, in that order |
| `AnthropicStream.AnthropicStreamState.MapSseEvent` | src/integrations/anthropic/mappers/anthropic-stream.mapper.ts:67-185 | each event produces the lines and next state of the specification transducer |
| `AnthropicStream.OpenStreamIsRead` | src/integrations/anthropic/mappers/anthropic-stream.mapper.ts:82-116 | after meta and any deltas a consumer of the event flow is inside one text block holding their text, so a stream that breaks off is still well formed |
| `AnthropicStream.StreamIsWellFormed` | src/integrations/anthropic/mappers/anthropic-stream.mapper.ts:67-185 | for every meta, deltas, done trace a strict consumer (indices 0..n-1, start, one or more deltas, stop, no overlap, message_delta, message_stop) accepts the output and reassembles id, model, text, thinking, tool calls, stop reason and usage |
| `AnthropicStream.RejectionIsFinal` | src/integrations/anthropic/mappers/anthropic-stream.mapper.ts:67-185 | the consumer never recovers from a violation, so acceptance at the end covers every event |
| `AnthropicStream.MapGatewayResponse` | src/integrations/anthropic/mappers/anthropic-response.mapper.ts:8-68 | thinking, text and tools in that order, each only when present; every tool call with its id, name and parsed arguments, an empty object for none; the gateway's id prefix replaced; each usage counter from its own field; the stop reason |
| `AnthropicStream.StreamAgreesWithJson` | src/integrations/anthropic/mappers/anthropic-response.mapper.ts:31-68 | however the text is chunked, the reassembled stream is the JSON answer, thinking moved to the front and empty text dropped |
| `StreamReplay.Replay` | src/chat/services/stream-cache-replay.service.ts:32-96 | the events sent are the full replay cut exactly at the first abort check that answers true |
| `StreamReplay.ChunksSpellTheText` | src/chat/services/stream-cache-replay.service.ts:61-69 | chunks have 1 to 64 units, all but the last 64, number ceil(n / 64), and spell the cached text |
| `StreamReplay.ReplayedDoneIsTheOriginal` | src/chat/helpers/to-cached-chat-response.ts:10-38 | a stored non-fallback reply replays with the very done event of the live stream |
| `StreamReplay.DoneTellsOutcome` | src/chat/services/chat-response-builder.service.ts:45-129 | live and replayed done events carry the outcome's tokens and their sum, tool calls, reason, fingerprint, thinking, cache counters, alias and warnings |
| `StreamedAnswer.LiveStreamTellsTheCalls` | src/chat/chat.service.ts:425-483 | the live stream read off the calls made: a meta event for the first that opened, every chunk of every call, a done event that tells the last call's outcome and, after a fallback, its alias |
| `StreamedAnswer.ReplayedMetaIsTheLiveOne` | src/chat/services/stream-cache-replay.service.ts:44-58 | the replayed meta event is the live one but for the asker's request and conversation ids and the cache mark |
| `StreamedAnswer.SuccessIsOneMessage` | src/chat/chat.service.ts:425-483 | through any retries and fallback, a successful streamed request is one complete vendor message that equals the JSON answer for the text sent, and that text ends with the assembled text |
| `StreamedAnswer.ReplayEqualsLiveExactlyWhenNoRetrySpoke` | src/chat/chat.service.ts:486-520 | a stored answer replays as the very message the first client reassembled if and only if no attempt before the successful one sent text |
| `StreamedAnswer.SentIsAssembled` | src/chat/services/chat-provider-call.service.ts:189-220 | on one alias the text sent is what the last attempt assembled if and only if the earlier attempts sent nothing |
| `MessageMapping.CollectBlocks` | src/integrations/anthropic/mappers/anthropic-tools.mapper.ts:58-97 | the block loop joins text and collects valid tool uses and results, dropping the rest |
| `MessageMapping.MapContentBlocks` | src/integrations/anthropic/mappers/anthropic-tools.mapper.ts:58-116 | images and messages with nothing usable are refused; otherwise the message's own turn comes before its tool results |
| `MessageMapping.MappingKeepsBlockOrder` | src/integrations/anthropic/mappers/anthropic-tools.mapper.ts:58-116 | what any message says, calls and brings is the concatenation, in order, of what its parts do, however its blocks are cut in two |
| `MessageMapping.MappingOfOneBlock` | src/integrations/anthropic/mappers/anthropic-tools.mapper.ts:58-97 | one block says its text, makes its call or brings its result when valid, and nothing else |
| `MessageMapping.MappedMessageShape` | src/integrations/anthropic/mappers/anthropic-tools.mapper.ts:58-116 | the message's own turn comes first and has its role; it is refused for an image exactly when a block is one, and as unsupported exactly when a user message has nothing to send |
| `MessageMapping.ConversationIsItsMessages` | src/integrations/anthropic/mappers/anthropic-request.mapper.ts:12-31 | a conversation is its messages one after the other and fails with the first that does |
| `MessageMapping.OnlyNoMessagesIsNoMessages` | src/integrations/anthropic/mappers/anthropic-request.mapper.ts:12-31 | it is refused as having no messages exactly when it has none |
| `MessageMapping.ToProviderTurns` | src/chat/helpers/provider-input.ts:18-47 | turns pass through unchanged, or the first tool turn without an id is refused |
| `MessageMapping.TakeToolResults` | src/providers/anthropic/anthropic-tools.mapper.ts:75-95 | the inner loop takes exactly the run of tool turns and keeps their order |
| `MessageMapping.MapTurns` | src/providers/anthropic/anthropic-tools.mapper.ts:70-110 | the index loop computes the grouping |
| `MessageMapping.GroupingIsLossless` | src/providers/anthropic/anthropic-tools.mapper.ts:70-110 | taken apart again, the grouped messages are the turns one by one, in order |
| `MessageMapping.GroupingIsMaximal` | src/providers/anthropic/anthropic-tools.mapper.ts:70-110 | no two tool-result messages are adjacent |
| `MessageMapping.DeliveredUnchangedExactlyWhenNormal` | src/providers/anthropic/anthropic-tools.mapper.ts:70-193 | facade to gateway to provider is the identity on a conversation if and only if it is in normal form |
| `MessageMapping.DeliveryNormalises` | src/providers/anthropic/anthropic-tools.mapper.ts:70-193 | whatever is delivered is in normal form |
| `MessageMapping.DeliveryIsIdempotent` | src/providers/anthropic/anthropic-tools.mapper.ts:70-193 | delivering what was delivered changes nothing |
| `MessageMapping.RefusalsAreTheFacades` | src/chat/helpers/provider-input.ts:18-47 | a conversation from the facade is refused only for an image or an unusable message, never later for a missing tool call id |
| `TagQuery.ReadsEscapedValue` | src/cache/semantic/escape-tag.ts:6-19 | for all strings an escaped value, read up to the first unescaped brace, is the value |
| `TagQuery.FilterReadsBack` | src/cache/semantic/adapters/redis-vector-store.adapter.ts:172-180 | any filter reads back as the tags it was written from |
| `TagQuery.KnnQueryReadsBack` | src/cache/semantic/adapters/redis-vector-store.adapter.ts:172-180 | a KNN query reads back as its five fields by name with their values, for all strings, and as the number of neighbours |
| `TagQuery.SyntaxIsEscaped` | src/cache/semantic/escape-tag.ts:1-19 | every punctuation character of the query syntax is escaped |
| `TagQuery.TagMatchIsEqualityExactlyWhenClean` | src/cache/semantic/semantic-cache.constants.ts:33-41 | a stored TAG value, split at commas, trimmed and without empty tags, is found under itself and nothing else if and only if it is not empty, has no comma and no white space at either end |
| `TagQuery.TagSafeIdsAreCleanUnlessPadded` | src/cache/semantic/escape-tag.ts:14-23 | an id that passes the configuration check has that form unless a tab or line break pads it, which the check lets pass |
| `TagQuery.IdentityIsInjective` | src/cache/semantic/adapters/redis-vector-store.adapter.ts:252-275 | with configured aliases and an embedding model that is no digest and has no pipe, the pipe-joined identity determines client, alias, signatures and text, unless one client's name extends the other's as below |
| `TagQuery.PipeInClientNameCollides` | src/cache/semantic/adapters/redis-vector-store.adapter.ts:252-275 | a display name made of another client's name, an alias, the model and two digests, joined by pipes, shares its identities with that client |
| `TagQuery.ClientsMeetExactlyWhenOneExtendsTheOther` | src/cache/semantic/adapters/redis-vector-store.adapter.ts:252-275 | two different clients can meet under one identity if and only if one name is the other followed by an alias, the model and one or two digests, joined by pipes, and then anything |
| `TagQuery.PlainClientsAreApart` | src/cache/semantic/adapters/redis-vector-store.adapter.ts:252-275 | clients without a pipe in their names never meet |
| `Singleflight.InProcessSingleflight.Call` | src/chat/helpers/in-process-singleflight.ts:9-20 | the method is the Call step; it hands out the pending work of the key and starts none when there is one |
| `Singleflight.InProcessSingleflight.Cleanup` | src/chat/helpers/in-process-singleflight.ts:14-17 | the method is the Cleanup step; it ends exactly its own work, and no work of that key is pending afterwards |
| `Singleflight.OnePendingWorkPerKey` | src/chat/helpers/in-process-singleflight.ts:9-20 | in every interleaving the map's keys are exactly those with unsettled work, and no key has two |
| `Singleflight.CallerReceivesPendingWork` | src/chat/helpers/in-process-singleflight.ts:9-20 | a caller is given work unsettled at its call, or new work exactly when there was none; what it receives is the outcome a step of the run finished that work with, and never changes afterwards |
| `CoalescedChat.CoalescedAnswerIsOwnUpToIds` | src/chat/chat.service.ts:245-270 | a coalesced caller's answer was built for the same client, alias, parameters and messages and is its own but for request and conversation id, which are those of the caller that started the work; it may be a fallback's |
| `Singleflight.OverlappingCallersShareWork` | src/chat/helpers/in-process-singleflight.ts:9-20 | two callers of a key share work if and only if the first one's is unsettled at the second call |
| `SseText.ParsesOneEvent` | src/chat/sse/sse.serializer.ts:2-4 | a serialized event in front of any text dispatches exactly that event and leaves the text |
| `SseText.BodyParsesBack` | src/chat/sse/sse.serializer.ts:2-4 | any list of events with single-line payloads parses back to that list under section 9.2.6 of the WHATWG HTML standard |
| `SseText.CutInsideEventDropsOnlyIt` | src/chat/sse/sse.serializer.ts:2-4 | a body cut anywhere inside an event loses that event and nothing before it |
| `EnvFile.EnvPatch.GetVar` | src/cli/services/env-patch.service.ts:29-38 | the loop returns the value of the first matching line |
| `EnvFile.EnvPatch.SetVar` | src/cli/services/env-patch.service.ts:40-54 | the new text is the specification `Set`: every matching line replaced, or one appended |
| `EnvFile.EnvPatch.RemoveVar` | src/cli/services/env-patch.service.ts:56-61 | the new text is the specification `Remove`: every matching line gone |
| `EnvFile.WriteThenReadIsIdentity` | src/cli/services/env-patch.service.ts:19-27 | written lines read back the same if and only if none ends in a carriage return |
| `EnvFile.GetAfterSet` | src/cli/services/env-patch.service.ts:29-54 | get after set returns the value if and only if it has no newline and no trailing carriage return |
| `EnvFile.SetIsAMapUpdate` | src/cli/services/env-patch.service.ts:40-54 | set changes its own key and no other, up to the carriage return a rewrite strips |
| `EnvFile.RemoveIsAMapRemove` | src/cli/services/env-patch.service.ts:56-61 | remove makes its key undefined and leaves every other, up to the same |
| `EnvFile.OtherLinesStay` | src/cli/services/env-patch.service.ts:40-61 | set and remove leave every line that does not assign the key, comments included, in order |
| `EnvFile.SetReplacesInPlace` | src/cli/services/env-patch.service.ts:40-54 | set replaces the key's lines where they stand and appends one exactly when there is none |
| `EnvFile.PatchingRefinesAMap` | src/cli/services/env-patch.service.ts:29-61 | any sequence of sets and removes does to the file what it does to a finite map |
| `EnvFile.TrailingCrIsLost` | src/cli/services/env-patch.service.ts:19-27 | a value ending in a carriage return on the last, unterminated line changes when another key is set |
| `CacheProvenance.ChatCachePipeline.GetCachedIfAllowed` | src/chat/services/chat-cache-pipeline.service.ts:45-90 | nothing for a request with tools, without a key or client, or with its provider off; otherwise the exact layer answers first, then the entry under the request's text, then the first search hit at the threshold; a miss means none had one; only entries without a reply are deleted |
| `CacheProvenance.ChatCachePipeline.SetCachedIfAllowed` | src/chat/services/chat-cache-pipeline.service.ts:102-138 | nothing changes for such a request, a fallback's answer, one cut short, blank or with tool calls; any other leaves both layers filled, the first writer's reply kept and no other entry changed |
| `CacheProvenance.CacheIsBypassedExactly` | src/chat/helpers/tooling-request.ts:3-9 | the caches are used exactly by requests without tool definitions, tool calls or tool messages, with a key, a known client and an enabled provider |
| `CacheProvenance.StoreIsRefusedExactly` | src/chat/helpers/cache-policy.ts:19-24 | of their answers exactly those of the primary alias that stopped by themselves, are not blank and call no tools are stored |
| `CacheProvenance.SemanticTextExactly` | src/cache/semantic/semantic-cache.service.ts:63-70 | the semantic layer takes exactly the requests of one user message with text in it, when it is on |
| `CacheProvenance.BypassingRequestsAreNeverServed` | src/chat/services/chat-cache-pipeline.service.ts:51-63 | no run serves a request with tools, without a key or client, or with its provider off |
| `CacheProvenance.FreshStoreIsServed` | src/chat/services/chat-cache-pipeline.service.ts:102-138 | every other request is served the answer just stored for the same client, alias, messages and parameters |
| `CacheProvenance.OnlyWholeRepliesAreServed` | src/cache/helpers/is-unservable-cached-reply.ts:3-6 | whatever the stores hold, no reply that was cut short or is blank is served |
| `CacheProvenance.KeysSeparatePrompts` | src/cache/cache-identity.ts:10-21 | requests share an exact key or an entry key only under the same prompts for their alias |
| `CacheProvenance.ChatCachePipeline.StoreExact` | src/cache/adapters/redis-cache/redis-cache.adapter.ts:52-81 | SET NX: the first writer of an exact key wins and no other key changes |
| `CacheProvenance.ChatCachePipeline.Upsert` | src/cache/semantic/adapters/redis-vector-store.adapter.ts:372-410 | the claimed reply stays, the fields are there afterwards, and no other entry changes |
| `CacheProvenance.DeleteCorrupt` | src/cache/semantic/adapters/redis-vector-store.adapter.ts:212-216 | search hits without a reply are gone, and nothing else has changed |
| `CacheProvenance.StoredRepliesAreServable` | src/cache/helpers/is-unservable-cached-reply.ts:3-6 | everything the gateway stored passes the check for servable replies, so no lookup deletes it |
| `CacheProvenance.ExactHitIsAccounted` | src/cache/response-cache.service.ts:42-62 | an exact hit was stored for the same client, alias, parameters and equal messages |
| `CacheProvenance.TextHitIsAccounted` | src/cache/semantic/adapters/redis-vector-store.adapter.ts:277-316 | a text hit was stored for the same client, alias and parameters and the same trimmed single user message, whatever the clients' names unless one extends the other |
| `CacheProvenance.VectorHitIsAccounted` | src/cache/semantic/semantic-cache.service.ts:107-125 | a vector hit was stored for the same alias and parameters and a client whose name is indexed under the asker's, and is at or above the threshold, measured against a vector of the very message the reply answers |
| `CacheProvenance.ServedRepliesAreAccounted` | src/cache/semantic/semantic-cache.service.ts:63-132 | over every run of both layers, any reply served was stored by a non-tool request that the primary alias answered with finish reason stop and text that is not blank, for the same alias and parameters, and matches in client and messages as its layer requires |
| `CacheProvenance.ServedWithinOneClient` | src/cache/semantic/semantic-cache.service.ts:63-132 | if besides that the clients that stored have clean names, every reply served was stored for the asker's own client |
| `CacheProvenance.VectorHitCrossesExactlyToIndexedTags` | src/cache/semantic/semantic-cache.service.ts:107-125 | after one store for client c, the run serves the reply by vector to client d if and only if d is one of the tags c's name is indexed under, alias and parameters agree and the vectors are near enough; for d other than c no store of d's accounts for it |
| `CacheProvenance.TextHitCrossesExactlyWhenIdentitiesMeet` | src/cache/semantic/adapters/redis-vector-store.adapter.ts:277-316 | after one store the run serves the reply by text to exactly the requests whose identity meets the stored one; for another client no store of its own accounts for it |
| `CacheProvenance.PaddedAndListedNamesMix` | src/config/configuration.ts:84-95 | display names the configuration accepts that mix: one padded with a space, and one with a comma behind it, are indexed under the plain name |
| `CacheProvenance.SameEntryKey` | src/cache/semantic/adapters/redis-vector-store.adapter.ts:252-275 | equal entry keys mean equal client, alias, parameters and text, unless one client's name extends the other's |
| `CacheProvenance.SameExactKey` | src/cache/response-cache.service.ts:42-62 | equal exact keys mean equal client, alias, parameters and messages |
| `CacheProvenance.MatchIsSearchedPartition` | src/cache/semantic/adapters/redis-vector-store.adapter.ts:172-180 | a query matches an entry if and only if alias and parameters are those it was stored for and the asker's name is one of the tags the stored name is indexed under |

## Left out

- Floating point: the Lua refill is exact integer arithmetic with a floor, similarity an ordered real number.
- TokenBucket.TokenBucketKey.CheckRateLimit: the gateway's clock and Redis's expiry clock are taken as one, and a key is gone at exactly 60000 ms.
- Redis that is not ready, and the fail-open branches taken then, in the rate limiter and the cache: they admit or miss without touching the state. For streams they are the steps FailOpen, ForceOpen and UndoFails.
- StreamSlots.SlotsAreConserved: INCR and the branch on its reply are one step, since nothing between them reads the counter; the 300 s expiry is the step KeyExpired.
- SHA-256, also truncated to 32 digits, is an injective function by hypothesis; JSON text is an abstract printing and parsing pair.
- TagQuery.KnnQueryReadsBack: an unescaped tab or line break inside a tag value is read literally; how the search engine's lexer treats it is not modelled.
- TagQuery.IdentityIsInjective: an embedding model whose name holds the separator or is itself hexadecimal is not covered; digests are hexadecimal of any length, so that hashing can be injective.
- CacheProvenance.ServedRepliesAreAccounted: aliases padded with a tab or line break, which their check accepts, are not covered.
- ResilientStream.TraceIsWellFormed: an aborted attempt emits nothing more; a provider that ignores its abort signal and goes on emitting is not modelled.
- ResilientStream.Session.ExecuteWithRetryAndFallback: at least one attempt is allowed, as the branded attempt count guarantees.
- Class methods of the Redis-backed parts show one caller alone; interleavings are in the step relations beside them.
- CacheProvenance.SameExactKey: tool calls in a message enter the exact key through flags of the request, and system prompts are fixed during a run.
- CacheProvenance.ChatCachePipeline.Upsert: TTLs are left to SemanticUpsert, where an entry with a vector always has one.
- Entries written by something other than the gateway, with text that does not parse: deleting them is the drop step.
- parseKnnHits, creation and recreation of the vector index, and index names: input plumbing with no property across operations.
- CircuitBreaker.AdmissionFollowsReports: a threshold of zero failures, which the gateway never configures, is not covered.
- AnthropicStreamState.activeToolBlockIndex: it is written and never read.
- SseText.BodyParsesBack: the id and retry fields and a byte order mark, which the serializer never writes.
- The OpenAI facade and adapters, vendor SDKs, the interactive command line, YAML writing, configuration validation, authentication, metrics and logging.
