# AI agents wrapper: a Dafny model

The system is a facade over three AI providers: OpenAI, HuggingFace and Gemini. A prompt is sent to all three, and the answers come back as one merged response. The model covers five pieces:

- **Configuration.** It is loaded from the environment. The three API keys and the broker URL are required. Each provider URL falls back to a fixed default. The timeout and retry settings are fixed.
- **The resilient provider call.** Each client owns its own circuit breaker. It trips once consecutive failures exceed 5, stays Open for 30 s, and then admits at most 2 trial requests while HalfOpen. The failure count is reset every 60 s while Closed. A retry loop makes at most `maxRetries` attempts and retries every error. The breaker wraps only the HTTP transport. A non-200 status therefore fails the attempt but counts as a breaker success. A breaker rejection is itself an attempt error and is retried.
- **The aggregator.** `GetMergedResults` calls every client once. It collects the responses in the order the calls complete.
- **The HTTP handler.** It answers 400 when the prompt is missing, 500 naming the first failed entry, and 200 otherwise.
- **The queue worker.** It takes task messages one at a time. A message that does not decode is skipped. A decoded message is aggregated, and the result is stored under the task id. A failed store write is skipped. The stop signal ends the loop.

Modules:

- `Types` holds the response types.
- `Config` is configuration loading.
- `Breaker` is the circuit breaker. It has a specification on values (`Snapshot`, `Step`) and the `CircuitBreaker` class, whose `Execute` is proved against `Step`.
- `Clients` holds the attempt, the retry loop and the clients. `CallAPI` is a loop proved against the recursive specification `Retry`/`CallSpec`.
- `Facade` holds the aggregator and the handler. `GetMergedResults` is a loop proved against a permutation of the clients' specified outputs.
- `Worker` is the consume loop. `Run` is proved against the recursive specification `Consume`.

The network is an input to the model:

- **One attempt.** An `Exchange` gives the time elapsed before the attempt and what the network did. Either the request cannot be built locally (marshalling the payload or constructing the request fails, so nothing is sent), or the transport reports an error, or the server returns a response, or it returns a 200 whose body cannot be read.
- **Completion order.** The order in which the concurrent calls complete is an input permutation `order`.
- **Worker events.** Each worker event carries the exchanges and the completion order its aggregation meets. It also says whether the store accepted the write.

## Model

| member | source | states |
|---|---|---|
| Config.ApplyDefaults | internal/facade/config.go:47-55 | every provider URL ends non-empty; an empty URL becomes its fixed default, a non-empty one is kept, and no other field changes |
| Config.DefaultsIdempotent | internal/facade/config.go:47-55 | applying the defaults to an already defaulted configuration changes nothing |
| Config.LoadConfig | internal/facade/config.go:26-61 | the missing-keys error exactly when one of the three keys is empty; the missing-broker error exactly when all keys are present and `RABBITMQ_URL` is empty, so the key check wins; on success the keys and broker URL equal the environment's values, the URLs are the values or their defaults, and timeout 10 s, 3 retries and 1 s delay are fixed |
| Config.LoadedIsDefaulted | internal/facade/config.go:44-58 | a successfully loaded configuration is a fixed point of defaulting |
| Breaker.Step | internal/facade/clients.go:36-44 | one request offered to the breaker keeps the breaker invariant: Closed count at most 5, HalfOpen admissions at most 2. It leaves the clock alone, and a rejected request changes nothing but the time-driven transitions |
| Breaker.FailuresAccumulate | internal/facade/clients.go:39-43 | within one 60 s window, failures that keep the count at or below 5 only add to the count and leave the breaker Closed |
| Breaker.SixthFailureTrips | internal/facade/clients.go:41-43 | from a fresh breaker, five consecutive failures inside the window leave it Closed with count 5; the sixth opens it at that instant |
| Breaker.OpenRejects | internal/facade/clients.go:40 | while Open and before 30 s have elapsed, every request is rejected without running, whatever it would have done, and the breaker state is unchanged |
| Breaker.CooldownAdmits | internal/facade/clients.go:38-40 | once 30 s have elapsed the Open breaker is HalfOpen and admits the request; a failure re-opens it at once |
| Breaker.HalfOpenTrials | internal/facade/clients.go:38 | HalfOpen admits a request exactly while fewer than 2 have been admitted, rejects it as too many otherwise, re-opens on a failure and closes after enough successes. A success that does not yet close it is counted, and nothing else changes |
| Breaker.TrialSuccessesClose | internal/facade/clients.go:38-40 | after the 30 s cooldown, with 1 or 2 successes needed, successful trials close the breaker again: the first trial when one suffices, otherwise the second, whenever it arrives. The breaker is then Closed with a new count window at that instant |
| Breaker.WindowRollover | internal/facade/clients.go:39 | once 60 s have passed since the Closed count window began, the count is reset before the request: the request is admitted, a new window starts at the current instant, and the count is 1 after a failure and 0 after a success |
| Breaker.SuccessResetsCount | internal/facade/clients.go:41-43 | a success while Closed is admitted and clears the consecutive-failure count. Inside the count window nothing else changes, so the window start stays where it was |
| Breaker.CircuitBreaker.constructor | internal/facade/clients.go:36-44 | a new breaker is Closed, with no failures, its count window starting now and the invariant holding |
| Breaker.CircuitBreaker.Execute | internal/facade/clients.go:189-195 | the breaker's new state and the admission decision are those of `Step` on its old state |
| Clients.RetryIf | internal/facade/clients.go:219-232 | the retry predicate holds exactly when the attempt returned an error, because `IsPermanentError` classifies no error as permanent |
| Clients.AuthHeader | internal/facade/clients.go:184-186 | an Authorization header exactly when both the key and the scheme are non-empty, and then it is the scheme, one space character and the key |
| Clients.AttemptOnce | internal/facade/clients.go:173-215 | one attempt keeps the breaker invariant and advances the clock by the elapsed time. It delivers a body exactly when the breaker admits the request and the response is a 200, and the delivered body is the response's body. A request that cannot be built fails without touching the breaker. Otherwise the breaker records the attempt as a failure exactly when the transport failed. Each failure reports its own error: a request that cannot be built, a transport error, an Open rejection, a too-many-requests rejection, a non-200 status with its code, or an unreadable body |
| Clients.BreakerSeesOnlyTransport | internal/facade/clients.go:189-206 | the breaker state after an attempt depends only on whether the transport failed, not on the status code or body |
| Clients.BadStatusIsBreakerSuccess | internal/facade/clients.go:201-206 | an admitted non-200 response fails the attempt with that status and is recorded by the breaker as a success |
| Clients.Retry | internal/facade/clients.go:172-222 | the retry loop makes at most one attempt per planned exchange and at least one; every attempt before the last failed; it stops early only on a delivered body; the breaker invariant is kept |
| Clients.Errors | internal/facade/clients.go:224-225 | when every attempt failed, the reported errors are the attempts' errors, one per attempt, in order |
| Clients.CallSpec | internal/facade/clients.go:169-228 | the provider call makes between 1 and `maxRetries` attempts, and its response names the source. The error is absent exactly when the last attempt delivered a body, and then the message is that body. Otherwise exactly `maxRetries` attempts were made, the message is empty, and the error lists their errors in order. |
| Clients.OpenShortCircuits | internal/facade/clients.go:189-199 | an Open breaker whose cooldown outlasts the whole plan turns every attempt into a breaker rejection, all of them retried, without the network playing any part |
| Clients.OutageIsFailures | internal/facade/clients.go:172-222 | when every planned attempt meets a transport error, the retry loop makes every attempt, and the breaker ends as after that many consecutive failures with the same elapsed times |
| Clients.OutageCountsFailures | internal/facade/clients.go:189-195 | a Closed breaker inside its count window that meets such an outage short of tripping ends with its consecutive-failure count raised by the number of attempts |
| Clients.GeminiUrl | internal/facade/clients.go:141 | the Gemini URL is the base URL, then `?key=`, then the key |
| Clients.RequestAuthorization | internal/facade/clients.go:64-186 | the key and scheme each client passes (`Bearer` and its key for OpenAI at line 64 and HuggingFace at line 109, empty strings for Gemini at line 155) give a header exactly when the client is not Gemini and has a key, and the header is then `Bearer `, followed by the key |
| Clients.SourceNamesDistinct | internal/facade/clients.go:73-166 | the `Source()` names of OpenAI (lines 73-75), HuggingFace (118-120) and Gemini (164-166) are pairwise distinct |
| Clients.NewClient | internal/facade/clients.go:35-147 | each client gets its own new Closed breaker, its provider's key and URL (Gemini's with the key appended) and the configured retry settings. The three constructors are at lines 35-55, 82-102 and 127-147 |
| Clients.RunAttempt | internal/facade/clients.go:173-215 | one attempt against the client's breaker: its outcome and the breaker's new state are those of `AttemptOnce` |
| Clients.CallAPI | internal/facade/clients.go:169-228 | the attempt loop's response and the breaker's final state are those of `CallSpec` |
| Clients.Call | internal/facade/clients.go:57-162 | a provider's call is the resilient call tagged with that provider's name. The three `Call` methods are at lines 57-71, 104-116 and 149-162 |
| Facade.CollectedIsPermutation | internal/facade/facade.go:47-50 | collecting along a permutation of the client indices gives every client's element exactly once |
| Facade.NewFacade | internal/facade/facade.go:16-24 | exactly three clients, OpenAI, HuggingFace and Gemini, in that order, each with its own new Closed breaker and the configured retry count and delay. Each client has its own provider's key and URL from the configuration, and Gemini's URL carries its key |
| Facade.GetMergedResults | internal/facade/facade.go:27-53 | the merged result is the clients' specified responses picked in completion order; every breaker ends in the state its own client's call leaves it in |
| Facade.CallClient | internal/facade/facade.go:34-37 | one client's call moves only that client's breaker; every other client's breaker is unchanged |
| Facade.MergedIsPermutation | internal/facade/facade.go:29-52 | one entry per client, however many failed, and the entries are a permutation of the clients' responses: entry `j` is client `order[j]`'s response |
| Facade.MergedSources | internal/facade/facade.go:18-22 | the multiset of sources in the merged result is exactly {OpenAI, HuggingFace, Gemini} |
| Facade.FirstError | internal/facade/facade.go:64-69 | finds the first entry with an error, if there is one; none is found exactly when no entry has an error |
| Facade.Respond | internal/facade/facade.go:63-71 | 200 with the whole result exactly when no entry carries an error; otherwise 500 naming the source and error of the first failed entry in collection order |
| Facade.Handler | internal/facade/facade.go:56-72 | an empty prompt is answered 400 with no breaker touched; otherwise the reply is `Respond` of the merged result, and every breaker ends in the state its own client's call leaves it in |
| Worker.Handle | cmd/worker/main.go:51-67 | an undecodable message changes nothing. A decoded one moves the breakers by one aggregation. When its write succeeds, the store gains exactly its task id, holding the aggregation's merged result (the clients' responses in completion order, one entry per client), and every other entry is unchanged. A failed write leaves the store as it was. |
| Worker.Consume | cmd/worker/main.go:49-72 | the loop leaves one breaker state per client; its behaviour is stated by the lemmas below |
| Worker.StopsOnSignal | cmd/worker/main.go:69-71 | the loop reports stopping exactly when a stop signal is among the events |
| Worker.SignalEndsRun | cmd/worker/main.go:69-71 | events after a stop signal change neither the breakers nor the store |
| Worker.StoreWrites | cmd/worker/main.go:63-67 | the store ends with its old keys plus the task ids of the decoded deliveries whose write succeeded, and every other entry is untouched |
| Worker.ConsumeSplit | cmd/worker/main.go:49-68 | deliveries are handled one at a time in arrival order: without a signal, handling `pre + post` is handling `pre`, then `post` from where it left off |
| Worker.LastWriteWins | cmd/worker/main.go:63 | when no later delivery stores under the same task id, the final store holds the result the delivery wrote |
| Worker.Worker.Deliver | cmd/worker/main.go:51-68 | handling one delivered message moves the breakers and the store as `Handle` says |
| Worker.Worker.Run | cmd/worker/main.go:49-73 | the breakers, the store and whether the loop stopped are those of `Consume` over the events |

## Left out

- Clients.Call: the JSON payload and the extraction of the answer text from the provider's response body (clients.go lines 58-69, 105-115, 150-161) are not modelled. On success the message is the raw body. A body of unexpected shape makes the source panic on its unchecked type assertions, and the model does not capture that panic.
- Clients.CallAPI: `maxRetries` must be at least 1. With 0 the retry library retries without bound, and the configuration always sets 3.
- Clients.CallAPI: the request's URL and headers do not influence the `Exchange`, so no modelled call reads `url`, `AuthArgs` or `AuthHeader`. The header rule (`Clients.AuthHeader`, `Clients.RequestAuthorization`) and the Gemini URL rule (`Clients.GeminiUrl`) are stated about these functions on their own.
- Clients.CallAPI: the retry delay, the HTTP client timeout and the transport are not modelled. The time between attempts and the network's behaviour are inputs (`Exchange`), and the prompt does not affect them.
- Breaker: how many HalfOpen successes close the breaker again is decided inside the breaker library, which is not part of this model. Here it is the parameter `successesToClose`. `Clients.NewClient` and `Facade.NewFacade` require it to be between 1 and `MaxRequests` (2). A larger value would leave a HalfOpen breaker that can never close and rejects every request once its 2 trials succeed.
- Breaker: the boundary instants follow the settings' comments. Open becomes HalfOpen once 30 s have elapsed (at exactly 30 s included). The Closed window rolls over once 60 s have elapsed. The library's generation counters and its exact treatment of the boundary instant are not modelled.
- Breaker: time is a natural-number clock in seconds that only moves forward; `time.Duration` nanoseconds appear only in the configuration constants.
- Facade.GetMergedResults: goroutines, the wait group and the result channel are replaced by a sequential loop over an input completion order, which must be a permutation of the client indices. The calls are independent because each touches only its own breaker.
- Facade.Handler: the HTTP framework, the query parsing and the JSON bodies are replaced by a status and a reply body. The 500 body's formatted text is the failed entry's source and error.
- Worker.Worker.Run: the broker connection, JSON decoding of messages (a parameter `decode`), the signal channel and the blocking `select` are replaced by a finite sequence of events. A closed message channel is not modelled.
- Worker.Worker.Run: process setup (loading the configuration, connecting to the broker and the store) is not modelled. The store is the map `store`. Its one-hour expiry and the JSON encoding of stored results are not modelled. The Redis URL the worker reads is not a field of the configuration, and no validation is invented for it.
- Config.LoadConfig: `godotenv.Load()` (config.go line 28) merging a `.env` file into the process environment is not modelled. The `env` map stands for the environment after that merge.
- Worker.Worker.Run: the worker's logging and printing (cmd/worker/main.go lines 53-70) are not modelled.
- The broker wrapper, the Redis wrapper, the API server and the command-line client are not part of this model.
