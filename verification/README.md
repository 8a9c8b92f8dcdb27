# Verified model of the RocketMQ client's protocols

The Go code wraps the RocketMQ SDK; this project models the stateful protocols around it and proves what they keep in every run. Sends, DNS lookups, clocks and the broker are oracles: parameters of a step, or values chosen arbitrarily. `dafny verify dfyconfig.toml` checks everything.

| file | what it models |
|---|---|
| `Batching.dfy` | `BatchMessage`, `SendBatch` and one iteration of the batching producer's loop, as classes proved against `Iteration` |
| `BatchRuns.dfy` | whole runs of the producer: senders, the one-slot error channel, close; conservation and order |
| `BatchLimits.dfy` | byte and count limits, the topic check, back-pressure |
| `Greedy.dfy` | optimality of the packing |
| `ShutdownGate.dfy` | the processing counter, `shutdownStarted`, `processingDone`; consumer handlers and `closeWithContext` running against them |
| `FanOut.dfy` | `GracefulShutdown` over any number of clients, each a whole `ShutdownGate` system |
| `Registry.dfy` | the client registry and its default name |
| `Dns.dfy` | the DNS resolver with its cache, retry and list resolution |
| `RequestProtocol.dfy` | request/response correlation as single operations of many callers, handlers, the cleaner and `Close` |
| `RequestCorrelation.dfy` | what every interleaving of these keeps |
| `RequestDiscipline.dfy` | the client's sections, what it means not to interrupt one, and what then keeps channels safe |
| `RequestInterruptions.dfy` | exactly which sections must not be interrupted for the client never to panic |
| `RequestSparing.dfy` | exactly which must not be for cleanup to spare calls that wait |
| `RequestClient.dfy` | the same client as imperative methods, proved equal to the undisturbed steps |
| `ChatRpc.dfy` | the chat RPC end to end: clients, servers and a lossy, repeating, reordering broker |

## How to read it

Code that updates fields is a class whose methods are proved equal to a function of the old state. Runs are sequences of labelled steps: `Next` performs a step, or nothing if the step is not enabled, and `Exec` a sequence. A theorem about `Exec(Start(), steps)` is about every reachable state of every interleaving.

Granularity is chosen per protocol. In `ShutdownGate` every mutex-protected section is a step. In `RequestProtocol` every single operation on the map, a status or a channel is a step; `Exclusive` describes the runs in which nobody moves while another actor is within one of a given set of sections. In `ChatRpc` a handler call is one step: the Go map of waiting requests has no lock, and this atomicity is assumed.

## Where the code does not do what one might expect

Each of these is a lemma below.

- `BatchBytes` is not a bound on a batch's `Size()`, because `AddMessage` counts only the body of the new message. `ExceedsExactly` says which messages can push a batch over it: with `BatchSize` at least 2, exactly those whose body fits and that have any topic, tag or key.
- An empty body can make the eager flush send two batches where one would do (`EmptyBodiesDefeatOptimality`), exactly when the batch is filled to the byte (`FlushedTooSoonExactly`); with non-empty bodies packing is optimal as long as no error is reported, whatever the topics.
- A batch that mixes topics is never sent and never cleared (`MixedForever`). `MixedExactly`: callers can get into this exactly when they send two messages of different topics of which one's body still fits on top of the other.
- With the cache on, failures are cached too, so under the default configuration the three retries repeat the cached failure: one lookup is made (`DefaultRetriesLookUpOnce`). `OneLookupExactly` says for which configurations.
- The comment at `pkg/rocketmq-client/request_response.go:278` says a closed channel is skipped. A send on a closed channel panics even in a `select` with `default`, and such a run exists (`SendOnClosedReachable`), as do runs in which `Close` or the cleaner closes a channel the caller has closed (`DoubleCloseReachable`, `CleanerDoubleCloseReachable`). `DisciplineExactly`: the client never panics exactly if handlers, the cleaner's treatment of an entry and `Close`'s are not interrupted; whether the deferred function is does not matter.
- The cleaner is meant to select only requests that have timed out or were pending beyond their timeout. One of the latter may have been sent off, and be waiting for its reply, by the time it is removed or marked; `SparingExactly` says which interruptions allow this.
- A caller whose own properties set `CORRELATION_ID` to another call's ID can have its reply delivered to that call, and only such a caller can (`OverriddenIdMisdelivers`); `IntactExactly` says when IDs are safe.
- `GracefulShutdown` may return nil although a client failed to close. `NilDespiteFailure`: this can happen for any set of clients of which one has a producer or a consumer, as every registered client has, and otherwise not.
- A chat reply that arrives in time is lost if the publish call then reports an error although the broker had stored the request (`TimelyReplyMissed`); `ReplyNotMissed` says what happens in every other case.
- A successful `GracefulShutdown` keeps the default name, so a client registered later need not become the default (`StaleDefault`); `DefaultExactly` says when `Default` succeeds.

## Model

| member | source | states |
|---|---|---|
| Batching.BatchMessage.CalculateBatchSize | pkg/rocketmq-client/batch_message.go:64-73 | the loop adds up body, topic, tag and key of every message |
| Batching.SizeAdds | pkg/rocketmq-client/batch_message.go:64-73 | the size of no message is 0, of one the sum of its four lengths, and sizes add up |
| Batching.BatchMessage.AddMessage | pkg/rocketmq-client/batch_message.go:47-61 | admits exactly when the count limit and the size so far plus the new body allow; otherwise the batch is unchanged and the error says which limit |
| Batching.BatchMessage.Clear | pkg/rocketmq-client/batch_message.go:76-78 | empties the batch |
| Batching.BatchMessage.IsFull | pkg/rocketmq-client/batch_message.go:91-93 | full exactly at either limit |
| Batching.SendBatch | pkg/rocketmq-client/batch_message.go:117-157 | succeeds exactly for an empty batch or a single-topic batch whose send succeeds, and says which failed |
| Batching.BatchProducer.Flush | pkg/rocketmq-client/batch_message.go:255-279 | a failed flush keeps the batch and reports one error, a successful one moves the batch to the sent ones and offers its result to resultCh |
| Batching.OfferedIsPrefix | pkg/rocketmq-client/batch_message.go:269-276 | unread results are the earliest that fit, in order; those that find resultCh full are dropped |
| Batching.BatchProducer.AddOrMakeRoom | pkg/rocketmq-client/batch_message.go:221-231 | the two attempts to add with the overflow flush between them |
| Batching.BatchProducer.OnMessage | pkg/rocketmq-client/batch_message.go:220-236 | the whole message case equals the specified iteration |
| Batching.BatchProducer.Iterate | pkg/rocketmq-client/batch_message.go:219-250 | whichever case select takes equals the specified iteration; a tick or close sends any non-empty one-topic batch, or keeps it and reports that the send failed |
| Batching.BatchProducer.Run | pkg/rocketmq-client/batch_message.go:214-252 | the loop does the specified iterations, up to and including the close case; unread, resultCh holds what `Offered` says of the batches sent |
| Batching.DropExactly | pkg/rocketmq-client/batch_message.go:220-231 | a received message is dropped if and only if it overflows and the overflow flush fails or it does not fit an empty batch |
| Batching.ErrorsPerIteration | pkg/rocketmq-client/batch_message.go:218-266 | at most two errors an iteration, two if and only if the overflow flush failed, and then the message is dropped and nothing else changes |
| Batching.ErrorsExactly | pkg/rocketmq-client/batch_message.go:219-265 | for every case, batch and outcome of the sends, exactly which errors are reported and in which order |
| BatchRuns.IterationConserves | pkg/rocketmq-client/batch_message.go:218-279 | an iteration neither loses nor reorders messages: sent then current batch is the old batch plus the message if kept |
| BatchRuns.Conservation | pkg/rocketmq-client/batch_message.go:213-306 | in every run, accepted messages are the dropped ones, the sent ones, the current batch and the queue, as multisets and, dropped ones removed, in order |
| BatchRuns.FlushSendsAll | pkg/rocketmq-client/batch_message.go:238-249 | in every run a tick or close whose send succeeds on a one-topic batch leaves nothing behind: all that was kept so far has been sent, in order |
| BatchRuns.SendsUpToCapacity | pkg/rocketmq-client/batch_message.go:204-287 | with the loop busy, Send accepts messages up to twice BatchSize and refuses the rest |
| BatchRuns.SystemRunsTheLoop | pkg/rocketmq-client/batch_message.go:214-294 | in every run of the whole system the loop's work is that of `Run` on the cases it took |
| BatchLimits.ByteBound | pkg/rocketmq-client/batch_message.go:47-73 | all of a batch but its last message's topic, tag and key fits in BatchBytes |
| BatchLimits.ExceedsExactly | pkg/rocketmq-client/batch_message.go:47-73 | some run builds or sends a batch ending in m that is larger than BatchBytes if and only if m's body fits and m has any topic, tag or key (BatchSize 1: m as a whole does not fit) |
| BatchLimits.Limits | pkg/rocketmq-client/batch_message.go:47-73 | in every run all batches are admissible, sent ones non-empty and single-topic; the loop stops only after Close; a full batch at the loop head, or any batch left after the loop stopped, means the latest flush failed |
| BatchLimits.BatchesInRuns | pkg/rocketmq-client/batch_message.go:47-93 | count and byte bound for the current and every sent batch of every run |
| BatchLimits.SizeMayExceedBatchBytes | pkg/rocketmq-client/batch_message.go:54-55 | every message whose body fits but whose total does not is accepted and sent above BatchBytes |
| BatchLimits.MixedIteration | pkg/rocketmq-client/batch_message.go:122-127 | on a mixed batch nothing is sent, the batch only grows by the kept message, and every flush reports the mix first |
| BatchLimits.MixedForever | pkg/rocketmq-client/batch_message.go:122-127 | once mixed, in every continuation nothing more is sent and the batch keeps all it holds |
| BatchLimits.MixedExactly | pkg/rocketmq-client/batch_message.go:47-127 | from given messages some run builds a mixed batch, and in some run the topic check fails, if and only if two of them have different topics and the body of one fits on top of the other |
| BatchLimits.OneTopicNeverRejected | pkg/rocketmq-client/batch_message.go:122-127 | while all accepted messages share a topic the check never fails |
| BatchLimits.StuckExactlyWhenBlocked | pkg/rocketmq-client/batch_message.go:219-265 | until it has closed, the loop has no step if and only if an error is buffered and another is due |
| BatchLimits.BlockedForever | pkg/rocketmq-client/batch_message.go:204-265 | without a reader of the errors the block is permanent; only sendCh fills, to its capacity |
| BatchLimits.QueueBoundsIterations | pkg/rocketmq-client/batch_message.go:218-249 | without further sends, message iterations plus queued messages stay constant |
| BatchLimits.CloseCanFinish | pkg/rocketmq-client/batch_message.go:244-306 | from any state with close requested, reading errors lets the loop flush and close without receiving another message |
| Greedy.ReceiveOutcome | pkg/rocketmq-client/batch_message.go:220-236 | when no error results a message joins the batch or starts a new one, and a batch then full is sent |
| Greedy.FullOnlyAtEnd | pkg/rocketmq-client/batch_message.go:91-93 | a full batch could not have taken the next message, so the eager flush loses nothing |
| Greedy.KeepsUp | pkg/rocketmq-client/batch_message.go:218-242 | the exchange argument: along any run without errors the loop starts no more batches than the parts still to come, plus ticks |
| Greedy.NearOptimal | pkg/rocketmq-client/batch_message.go:218-242 | at every moment of a run without errors, batches started are at most the parts of any admissible partition of what was received, plus ticks that flushed; nothing is dropped |
| Greedy.Optimal | pkg/rocketmq-client/batch_message.go:218-242 | without such ticks the sent batches are an admissible partition and none is shorter |
| Greedy.OneTopicOptimal | pkg/rocketmq-client/batch_message.go:218-242 | both hold for messages of one topic whose bodies are non-empty and fit, whenever all sends succeed |
| Greedy.FlushedTooSoonExactly | pkg/rocketmq-client/batch_message.go:47-93 | a batch that is flushed as full could still take a message if and only if it is filled to the byte, below the count limit, and the message's body is empty |
| Greedy.EmptyBodiesDefeatOptimality | pkg/rocketmq-client/batch_message.go:91-93 | a message that fills a batch exactly and then one of its topic with an empty body cost a batch too many |
| ShutdownGate.Client.IncrementProcessing | pkg/rocketmq-client/client.go:253-264 | admits and counts exactly before shutdown |
| ShutdownGate.Client.DecrementProcessing | pkg/rocketmq-client/client.go:267-275 | counts down and closes processingDone when the last one leaves after shutdown |
| ShutdownGate.Client.StartShutdown | pkg/rocketmq-client/client.go:285-299 | sets the flag, keeps the count, and closes processingDone at once when nothing is in flight; a second call does nothing |
| ShutdownGate.HandleAll | pkg/rocketmq-client/unified_api.go:266-285 | the loop calls the handler up to the first failure and answers by mode |
| ShutdownGate.Client.OnBatch | pkg/rocketmq-client/consumer.go:110-159 | a wrapped handler turns messages away after shutdown, otherwise handles up to the first failure, and leaves the gate as it was |
| ShutdownGate.BatchSection | pkg/rocketmq-client/consumer.go:110-159 | the steps of a handler run undisturbed are OnBatch |
| ShutdownGate.NextInv | pkg/rocketmq-client/client.go:253-309 | every step of handlers, shutdown and closers keeps the whole invariant |
| ShutdownGate.GateSafety | pkg/rocketmq-client/client.go:253-299 | in every state the count is that of admitted unfinished handlers, processingDone is closed if and only if shutdown started and the count is zero, and it is never closed twice |
| ShutdownGate.ShutdownTakesEffect | pkg/rocketmq-client/client.go:253-309 | in every run, once shutdown was started processingDone is closed, and a closer's wait can succeed, exactly when nothing is in flight, and every later arrival or admission is turned away |
| ShutdownGate.DrainedForever | pkg/rocketmq-client/client.go:302-309 | once the wait can return nil no handler is in flight, then or later |
| ShutdownGate.DrainEndsAfterCountLeaves | pkg/rocketmq-client/client.go:267-299 | after shutdown started, processingDone is closed exactly when as many handlers have left as were in flight |
| ShutdownGate.DrainBeforeDisconnect | pkg/rocketmq-client/health.go:191-247 | closeWithContext returning nil has called Shutdown on the producer and consumer it has, each successfully and with nothing in flight |
| ShutdownGate.CloseOutcome | pkg/rocketmq-client/health.go:191-247 | closeWithContext returns an error exactly if its wait timed out or a Shutdown it made failed; after a timeout it makes all Shutdown calls, otherwise up to the first failure and with nothing in flight |
| ShutdownGate.AckSoundness | pkg/rocketmq-client/consumer.go:110-159 | acknowledged messages are ones the handler succeeded on and include every batch answered with success; rejected batches are never acknowledged; answers of both modes are determined by the outcomes |
| FanOut.NeverBlocksOnErrCh | pkg/rocketmq-client/health.go:143-166 | for any number of clients, a goroutine with an error to report always finds room on errCh |
| FanOut.NilMeansAllFinished | pkg/rocketmq-client/health.go:168-188 | nil: all goroutines finished, successful clients were drained before disconnecting with nothing in flight, and the errors of the others are left unread on errCh |
| FanOut.MapKeptUntilJoined | pkg/rocketmq-client/health.go:168-188 | in every run the client map is complete while a goroutine is unfinished |
| FanOut.NilDespiteFailure | pkg/rocketmq-client/health.go:126-187 | for any clients not yet being closed, some run returns nil although a client failed to close if and only if one of them has a producer or a consumer |
| Registry.ClientRegistry.Register | pkg/rocketmq-client/client.go:64-178 | the order of the checks, the empty name's default, and what a success adds |
| Registry.ClientRegistry.CloseAll | pkg/rocketmq-client/client.go:203-217 | empties the map and the default name |
| Registry.ClientRegistry.FinishGracefulShutdown | pkg/rocketmq-client/health.go:176-180 | empties the map and keeps the default name |
| Registry.ClientRegistry.GetDefault | pkg/rocketmq-client/client.go:181-200 | the client under the default name, or not found |
| Registry.DefaultIsFirst | pkg/rocketmq-client/client.go:166-217 | with Register and CloseAll only, the default name is empty if and only if the map is, otherwise the first name since CloseAll, and Default returns the client registered then |
| Registry.DefaultExactly | pkg/rocketmq-client/health.go:175-180 | with graceful shutdowns too, Default succeeds if and only if the first name since CloseAll was registered again, and returns the client of that registration |
| Registry.StaleDefault | pkg/rocketmq-client/health.go:175-180 | a run after which a client is registered and Default fails |
| Registry.NeverOverwritten | pkg/rocketmq-client/client.go:70-72 | registering never replaces a name's client |
| Dns.DNSResolver.PickAddress | pkg/rocketmq-client/config.go:344-352 | the first IPv4 address, or else the first address |
| Dns.PreferredIsFirstV4 | pkg/rocketmq-client/config.go:344-349 | the preferred address is the earliest IPv4 one |
| Dns.PreferredElseFirst | pkg/rocketmq-client/config.go:344-352 | it is one of the addresses, IPv4 if any is, and the first if none is |
| Dns.DNSResolver.DoResolve | pkg/rocketmq-client/config.go:328-353 | one real lookup of the host, recorded: an address exactly if it finds some, the first IPv4 one or else the first, joined with the port asked for; which error otherwise |
| Dns.ResolvedDescribes | pkg/rocketmq-client/config.go:328-353 | the specified answer is described in the same way, at every time |
| Dns.DNSResolver.GetCachedResult | pkg/rocketmq-client/config.go:356-375 | a hit if and only if caching is on and the entry has not expired |
| Dns.DNSResolver.SetCachedResult | pkg/rocketmq-client/config.go:378-392 | stores success or failure with the current time |
| Dns.DNSResolver.ClearCache | pkg/rocketmq-client/config.go:395-405 | afterwards only later lookups can be answered from the cache |
| Dns.DNSResolver.ResolveName | pkg/rocketmq-client/config.go:223-253 | which names are rejected and how, that an IP address is its own answer, and that every other answer is what a real lookup of the name found, since the last ClearCache and at most RefreshInterval ago; at most one lookup, only when nothing cached is fresh |
| Dns.DNSResolver.ResolveWithRetry | pkg/rocketmq-client/config.go:256-272 | the lookup and time bounds of a retried resolution; success and the wrapped last error are justified answers; after a failure every sleep was made, and with a single lookup the last attempt repeated a cached failure older than them; the uncached answer when DNS is stationary |
| Dns.AttemptMade | pkg/rocketmq-client/config.go:259-269 | each further lookup of a retry is more than RefreshInterval of idle time after the one before |
| Dns.DNSResolver.Attempt | pkg/rocketmq-client/config.go:259-269 | one turn of the retry loop: the attempt, and the sleep unless it succeeded or was the last |
| Dns.BackoffSum | pkg/rocketmq-client/config.go:266-268 | the sleeps of i attempts add up to RetryInterval*i*(i+1)/2 |
| Dns.LookupBound | pkg/rocketmq-client/config.go:256-272 | with L lookups, L-1 refresh intervals fit in RetryInterval*M*(M+1)/2 plus time lost elsewhere |
| Dns.OneLookup | pkg/rocketmq-client/config.go:256-272 | exactly one lookup when the backoff does not exceed RefreshInterval, whether or not it fails |
| Dns.OneLookupExactly | pkg/rocketmq-client/config.go:256-272 | a failing retry makes exactly one lookup only if there are no retries or the whole backoff is at most RefreshInterval, and it does if it still is with the time lost elsewhere added |
| Dns.DefaultRetriesLookUpOnce | pkg/rocketmq-client/config.go:159-168 | so it is for the default configuration |
| Dns.StationaryAnswer | pkg/rocketmq-client/config.go:223-253 | when DNS does not change a cached answer is the uncached one |
| Dns.DNSResolver.ResolveNameServers | pkg/rocketmq-client/config.go:275-298 | the addresses of the names that resolve, in order, or the last error if none does; every success and every failure is that of a real lookup of its name since the last ClearCache |
| Dns.ListFailsExactly | pkg/rocketmq-client/config.go:277-297 | a list fails if and only if it is empty or none of its names resolves |
| Dns.ListAnswerMeans | pkg/rocketmq-client/config.go:275-298 | the addresses found, each in the place its name has among those that resolve; without any the error of the last name |
| Dns.DNSResolver.Perform | pkg/rocketmq-client/config.go:223-298 | over any sequence of resolver operations and cache clears, stationary DNS is answered as without a cache |
| RequestClient.RequestResponseClient.HandleResponse | pkg/rocketmq-client/request_response.go:242-283 | which replies reach which slot, and when the send panics |
| RequestClient.RequestResponseClient.Seal | pkg/rocketmq-client/request_response.go:322-329 | sets the status, then drains a ready channel or closes an empty open one |
| RequestClient.RequestResponseClient.SealKeys | pkg/rocketmq-client/request_response.go:319-331 | the second loop of the cleanup removes and seals exactly the selected keys |
| RequestClient.RequestResponseClient.PerformSafeCleanup | pkg/rocketmq-client/request_response.go:302-332 | exactly the expired entries are removed and their channels drained or closed; all other contexts are untouched |
| RequestClient.RequestResponseClient.GetPendingRequestCount | pkg/rocketmq-client/request_response.go:335-345 | counts the registered calls that are pending or processing |
| RequestClient.RequestResponseClient.Close | pkg/rocketmq-client/request_response.go:353-369 | closes stopChan and empties the map, every registered context failed with its channel drained or closed |
| RequestClient.HandlerSection | pkg/rocketmq-client/request_response.go:242-283 | the handler's steps run undisturbed are HandleResponse |
| RequestClient.DeferredSection | pkg/rocketmq-client/request_response.go:176-185 | the deferred function's steps run undisturbed remove the entry and drain or close the channel |
| RequestClient.CleanerSection | pkg/rocketmq-client/request_response.go:319-331 | the cleaner's steps on one entry likewise, and change nothing else |
| RequestClient.CloseSection | pkg/rocketmq-client/request_response.go:354-367 | Close's steps on one entry likewise |
| RequestClient.CleanupPass | pkg/rocketmq-client/request_response.go:302-332 | the steps of a whole pass, in any order of the keys, are PerformSafeCleanup |
| RequestClient.ClosePass | pkg/rocketmq-client/request_response.go:348-370 | the steps of a whole Close, in any order of the keys, are the method Close |
| RequestCorrelation.NextInv | pkg/rocketmq-client/request_response.go:149-370 | every single operation of every actor keeps the invariant |
| RequestCorrelation.Correlated | pkg/rocketmq-client/request_response.go:161-283 | in every interleaving a returned response carries the call's own correlation ID, has the reply's body and properties, is a success exactly if these carry no ERROR, and stays the call's one result whatever arrives later |
| RequestCorrelation.ResultExactly | pkg/rocketmq-client/request_response.go:217-239 | in every interleaving Request returns what the first of a failed send, a receive and the end of its context brought |
| RequestCorrelation.FinalStatus | pkg/rocketmq-client/request_response.go:176-239 | which status each result leaves in the context, before the deferred function makes it Failed |
| RequestCorrelation.PropertiesExactly | pkg/rocketmq-client/request_response.go:204-214 | a request carries the caller's properties and the three reserved ones they do not set |
| RequestCorrelation.IntactExactly | pkg/rocketmq-client/request_response.go:204-214 | the request carries its own ID if and only if the caller's properties do not set another |
| RequestCorrelation.OriginCarriesId | pkg/rocketmq-client/request_response.go:161-283 | with echoing responders a call gets the reply to another only if the other's request carried its ID |
| RequestCorrelation.OwnReply | pkg/rocketmq-client/request_response.go:161-283 | with intact IDs and echoing responders a returned response answers that very request |
| RequestCorrelation.OverriddenIdMisdelivers | pkg/rocketmq-client/request_response.go:210-214 | with echoing responders some run gives a call the reply to another if and only if the other's properties set CORRELATION_ID to its ID |
| RequestCorrelation.NoLeak | pkg/rocketmq-client/request_response.go:173-185 | in every interleaving the map holds only calls between Store and the deferred Delete, so its size and the pending count are bounded by the calls in flight, and an ID never reappears after its Delete |
| RequestCorrelation.TimeoutMeansClosed | pkg/rocketmq-client/request_response.go:228-232 | ErrRequestTimeout is returned only if the cleaner or Close closed the channel |
| RequestDiscipline.NextDisciplined | pkg/rocketmq-client/request_response.go:176-370 | every step keeps the channel discipline while handlers, the cleaner's entry and Close's entry are not interrupted |
| RequestDiscipline.ChannelDiscipline | pkg/rocketmq-client/request_response.go:176-370 | in runs that interrupt none of these three nothing panics and registered contexts have open channels |
| RequestInterruptions.SendOnClosedReachable | pkg/rocketmq-client/request_response.go:274-279 | interrupting only a handler, a run in which it panics by sending on the channel the caller has closed |
| RequestInterruptions.DoubleCloseReachable | pkg/rocketmq-client/request_response.go:354-367 | interrupting only Close's treatment of an entry, a run in which it panics by closing the channel the caller has closed |
| RequestInterruptions.CleanerDoubleCloseReachable | pkg/rocketmq-client/request_response.go:319-331 | interrupting only the cleaner's treatment of an entry, a run in which it panics likewise |
| RequestInterruptions.DisciplineExactly | pkg/rocketmq-client/request_response.go:176-370 | of the five sections, the client never panics if and only if these three are among the uninterrupted ones |
| RequestSparing.CleanupSparesWaiting | pkg/rocketmq-client/request_response.go:302-331 | while a cleanup pass is not interrupted, before Close a call that is sending or waiting is Processing and no cleanup touches it |
| RequestSparing.SparingExactly | pkg/rocketmq-client/request_response.go:302-331 | this needs both of the cleaner's sections uninterrupted and no other |
| ChatRpc.ChatClient.HandleResponse | websocket-service/main.go:134-144 | fills a registered empty channel, discards on a full one, and removes the entry |
| ChatRpc.ChatClient.Register | websocket-service/main.go:188-189 | a fresh empty open channel, registered under the request ID |
| ChatRpc.ChatClient.CleanUp | websocket-service/main.go:192-195 | removes the entry and closes the channel |
| ChatRpc.NextInv | websocket-service/main.go:124-219 | every step of clients, servers and broker keeps the protocol's invariant |
| ChatRpc.ProcessedMeans | chat-service/main.go:178-213 | the reply echoes the ID and says field by field what each action calls for, with its clock readings; it succeeds exactly on the two known actions, carries an error exactly otherwise, and repeats agree up to timestamps |
| ChatRpc.EndToEnd | chat-service/main.go:140-213 | whatever the broker loses, repeats or reorders, a returned response says, field by field, what that very request calls for, and no call returns twice |
| ChatRpc.ChannelsAreSafe | websocket-service/main.go:134-141 | no send on a closed channel, no second close, and the channel-full branch is never taken |
| ChatRpc.DeliveryFills | websocket-service/main.go:187-206 | a reply delivered while its call is unfinished, even before the publish call has returned, leaves that reply, or one that was there before, in the channel |
| ChatRpc.ReplyWaits | websocket-service/main.go:206-219 | in every continuation it stays there until the call takes it, times out or its publish call fails, and whichever comes first decides the result |
| ChatRpc.ReplyNotMissed | websocket-service/main.go:187-219 | both together for every run: a timely reply is the result unless the call first times out or its publish call reports an error |
| ChatRpc.TimelyReplyMissed | websocket-service/main.go:206-208 | a run in which the reply is in the channel and the call answers that publishing failed |

## Left out

- The SDK, broker storage, credentials, namespaces, consumer options, topic administration and health checks: library code or stubs; sends succeed or fail by choice.
- JSON and message-property encoding: assumed faithful. `SplitHostPort`, `ParseIP`, `LookupIP` and `JoinHostPort` are oracles; address strings are not parsed.
- Machine integers: sizes, counts and times are unbounded, since none of them can come near 64 bits.
- Readers of the batching producer's results channel, which only make room in it; a result stands for its batch, its IDs and offsets come from the SDK. The retry fields of the configuration, which no shown code uses; its timeout is one way for a send to fail.
- `BatchProducer.Flush` called from outside while `run` is active: an unsynchronised race on the batch.
- Closing twice: `BatchProducer.Close` and `RequestResponseClient.Close` panic on a second call; one call each is modelled.
- closeWithContext, GracefulShutdown, Request and SendRequest as single methods: they wait for other goroutines, so they are steps of a system instead.
- Request contexts as shared objects behind a mutex: `RequestClient` keeps them as values in a map by ID, so aliasing and locking are represented only by the steps of `RequestProtocol`.
- `RequestResponseClient.WithTimeout`: copies a `sync.Map`, so its meaning depends on library internals.
- A response handler or user handler that panics; the deferred decrement would still run.
- The uniqueness of correlation IDs and request IDs: assumed (a call begins with an unused one).
- The `lastRefresh` map of the resolver and concurrent use of one resolver: the first is only reported, the second is outside the bounds on lookups.
- Consumers: every Subscribe replaces `c.consumer`, so only the last one is closed; nothing is claimed about earlier ones.
- Event topics of the chat services, the message manager, logging, metrics and the main functions.
