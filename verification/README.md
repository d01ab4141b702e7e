# Kubernetes pod manager: a verified model

This project models the stateful parts of a Kubernetes management API written in Go and proves
properties of them: the middleware chain and the default middleware stack, the in-memory rate
limiter, the subscription pipelines, the scale protocol, the restart logic, the GraphQL mutations,
the selector and age printers, and the health cache.

| file | models |
|---|---|
| `GoErrors.dfy`, `Text.dfy`, `ApiServer.dfy` | error and panic values, `%d`, and the part of an API server the services use |
| `Chain.dfy`, `ChainContext.dfy` | the index-driven chain executor, as functions over contexts and as the context object itself |
| `Flattening.dfy` | exactly when a chain with built chains inside runs as its flat list |
| `Stack.dfy`, `ErrorBodies.dfy` | request ID, recovery, error handling, logging and rate limiting, run by that executor, and what the client gets |
| `RateLimiter.dfy` | the fixed-window limiter: object, operations, whole runs |
| `Pipeline.dfy`, `Cancellation.dfy`, `Subscription.dfy` | pod watch and log stream as interleaved atomic steps, what ends them, and the objects that take the steps |
| `Scale.dfy`, `ScaleCalls.dfy`, `ScaleLog.dfy`, `ScaleService.dfy` | scale calls against a shared API server, interleaved with other callers, their records and the order of the log |
| `Restart.dfy`, `Detection.dfy`, `Mutations.dfy`, `MutationEffects.dfy` | controller detection, restart strategies, and the four mutations with their audit and their effects |
| `Selectors.dfy`, `Ages.dfy`, `HealthCache.dfy` | printers and the TTL cache |

How to read it. Where the program changes objects in place, a class holds the program's fields and
each method is proved equal to a specification function of the old state; the lemmas are about
those functions and about runs of them. Handler code is an arbitrary function of an arbitrary
world, cut at its `Next()` calls, and of what it saw before each of them, so the chain theorems hold
for every middleware. Several laws one would expect hold only under a condition; then the theorem is
an equivalence with that condition (`Chain.CompositionIffStartedOnce`,
`Flattening.NestingIsFlatteningIff`, `RateLimiter.CleanupIsInvisibleIff`,
`Pipeline.EndedStreamDeliversIffDrained`, `ScaleLog.LogTellsHistory`,
`Restart.ListAndDetailAgree`). Clock readings are parameters, because the limiter reads its clock
before it takes its lock: lemmas that need readings to follow lock order say `Monotone`, and the
others hold without it.

What the proofs say about the code's own documentation. The repository's README.md:326 calls the
limit "per minute"; `Stack.HandlerLoadIsBounded` and `RateLimiter.TwiceLimitIsReached` show that
the exact bound for an arbitrary minute is `2 * limit - 1`. README.md:83 promises rollout restarts
for Deployments; `Restart.DeploymentPodNeedsReplicaSet` shows that this holds exactly when the
ReplicaSet can be read, and that the pod is deleted otherwise. A subscription whose stream ends
without cancellation loses events and panics exactly when something is still between its two
channels at that time (`Pipeline.EndedStreamDeliversIffDrained`). Masking keeps error details from
the client but not from the audit (`Stack.MaskingHidesDetails`). Updates with a stale resource
version are rejected as the Kubernetes API Conventions say in the section "Concurrency Control and
Consistency".

## Model

| member | source | states |
|---|---|---|
| Chain.ExecuteChainIsComposition | internal/middleware/builder.go:178-207 | when no handler calls `Next()` twice, the chain run through the shared index has the world, result and handler starts of right-to-left function composition |
| Chain.NextRefines | internal/middleware/builder.go:200-207 | `Next()` on any stack of contexts, at any index, behaves as the composition of what is still pending, when that calls `Next()` at most once each |
| Chain.HandleRefines | internal/middleware/builder.go:170-175 | a handler that calls `Next()` at most once, plain or itself a built chain, behaves as under composition in any context, whatever is pending there |
| Chain.ChainRefines | internal/middleware/builder.go:178-191 | the same for a chain started inside any stack of contexts |
| Chain.LinkRefines | internal/middleware/builder.go:200-207 | the split law: handlers that call `Next()` at most once are composed around `Next()` at a later index, whatever the handlers from there on do |
| Chain.OncePrefixComposes | internal/middleware/builder.go:178-207 | the same for a list in two parts: the first part is composed around the chain of the second, which is arbitrary, in any context |
| Chain.SameChain | internal/middleware/builder.go:193-207 | a chain run depends on its contexts only through the handlers pending in them, for any handlers |
| Chain.NestingIsFlattening | internal/middleware/builder.go:170-207 | chains nested to any depth run as the flat list of their plain middlewares, with arbitrary handlers after them |
| Chain.BuildChainSplices | internal/middleware/builder.go:170-191 | a built chain, even an empty one, can be replaced by its members in place, with arbitrary handlers after it |
| Chain.StartsInOrderAtMostOnce | internal/middleware/builder.go:200-207 | whatever the handlers do and however often they call `Next()`, the handlers started come in list order, each at most once, and are a prefix of a flat list |
| Chain.ChainInOrder | internal/middleware/builder.go:178-207 | the started handlers followed by those still pending are, in order, part of those pending before |
| Chain.CompositionIffStartedOnce | internal/middleware/builder.go:178-207 | for every list, nested or not, any handlers and any context: the chain run is composition if and only if composition would start no handler twice, which is when it would start an initial part of the list |
| Chain.ChainOnce | internal/middleware/builder.go:178-207 | the harder half of it, which needs no distinct ids: where composition starts no handler twice, the run through the shared indices is composition |
| Chain.StartedOnceFlattens | internal/middleware/builder.go:170-207 | on such runs the chain also runs as its flat list |
| Flattening.NestingIsFlatteningIff | internal/middleware/builder.go:170-207 | for any handlers: a chain with built chains inside runs as its flat list if and only if no `Next()` is called after a built chain has returned with handlers left |
| Flattening.SimChain | internal/middleware/builder.go:178-207 | the simulation behind it: a nested run against one flat link, up to the `Next()` call that parts them, and for ever after it |
| Flattening.OnceSkipsNothing | internal/middleware/builder.go:200-207 | handlers that call `Next()` at most once never make such a call |
| Chain.SecondNextCallSkipsAhead | internal/middleware/builder.go:200-207 | concrete chains on which the two laws fail because a handler calls `Next()` twice |
| ChainContext.ChainHTTPContext.constructor | internal/middleware/builder.go:183-188 | a new context starts at index zero and continues in its parent |
| ChainContext.ChainHTTPContext.Next | internal/middleware/builder.go:200-207 | the in-place index update has the effect and leaves the contexts of the specification |
| ChainContext.Execute | internal/middleware/builder.go:178-191 | executing a chain on context objects is the specified executor |
| Stack.StackMeans | internal/middleware/builder.go:210-229 | the five default middlewares run by the executor are one straight line of code around the handler |
| Stack.DefaultStackContains | internal/middleware/error_handler.go:86-153 | if response writes succeed, every handler outcome ends in nil with exactly one error body after an error, panic or denial and none after success, even when error logging itself panics; what the bodies say is in the rows of ErrorBodies |
| Stack.NoPanicEscapes | internal/middleware/error_handler.go:262-348 | no panic leaves the stack, whatever the handler and whichever writes fail |
| Stack.ErrorEscapesIff | internal/middleware/error_handler.go:363-369 | an error leaves the stack exactly when the write of its body, or of a denial and then of its replacement, failed |
| Stack.OneAuditPerReturn | internal/middleware/logging.go:81-176 | one audit entry per unskipped request that returns, none after a panic, with the request id as it was before the handler ran, the text of the error and status 500 exactly for an error |
| Stack.MaskingHidesDetails | internal/middleware/error_handler.go:142-148 | with masking, the messages, details and causes of server errors, and the values of panics, do not change what the client gets; the audit still differs, exactly when the request is neither denied nor skipped and the error texts differ |
| Stack.StackAroundMore | internal/middleware/builder.go:159-175 | any middlewares added after the stack, flat or as a nested chain, however often they call `Next()`, are part of the handler it contains: no panic leaves, and no error if writes succeed |
| Stack.HandlerRunsIffAllowed | internal/middleware/rate_limiter.go:173-224 | the handler runs exactly when the path is skipped or the call is allowed, and one call is counted |
| Stack.HandlerLoadIsBounded | internal/middleware/rate_limiter.go:173-224 | through the whole stack, with clean-ups running in between, at most `2 * limit - 1` unskipped requests per address reach the handler in any closed window-long interval |
| ErrorBodies.ErrorReachesClient | internal/middleware/error_handler.go:128-152 | the client gets an application error's own message, details, type and code, the path and the id in force, unless it is a server error and masking is on: then two fixed texts and no details |
| ErrorBodies.PlainErrorReachesClient | internal/middleware/error_handler.go:156-218 | any other error is an internal one, its text a detail that masking hides |
| ErrorBodies.PanicReachesClient | internal/middleware/error_handler.go:262-348 | a panic is reported as PANIC_RECOVERED with the text of its value, and so is a server error without a cause, whose logging panics |
| ErrorBodies.DenialReachesClient | internal/middleware/rate_limiter.go:203-220 | a denied request gets the reset time and the configured limit, and its handler does not run |
| ErrorBodies.OneBodyPerWrite | internal/middleware/error_handler.go:150-152 | whichever writes fail, a body is left exactly by a write that succeeded, and at most one |
| ErrorBodies.HandlerRunSees | internal/middleware/request_id.go:55-68 | the handler finds the header's request id, or a fresh one if it is empty, and one call counted unless the path is skipped |
| ErrorBodies.AuditNamesEndpoint | internal/middleware/logging.go:196-230 | the action, type and name in the audit entry are those of the endpoint |
| ErrorBodies.ErrorTextShows | internal/middleware/error_handler.go:37-42 | an error's text is its code and message, with the text of its cause after it in brackets |
| RateLimiter.InMemoryRateLimiter.constructor | internal/middleware/rate_limiter.go:32-53 | an empty limiter with the configured limit and the default for a zero window |
| RateLimiter.InMemoryRateLimiter.Allow | internal/middleware/rate_limiter.go:56-85 | the map updates and the result are those of the specification, and the result tells the count and reset time now in the maps |
| RateLimiter.InMemoryRateLimiter.Reset | internal/middleware/rate_limiter.go:88-96 | exactly the key's entries are removed |
| RateLimiter.InMemoryRateLimiter.Cleanup | internal/middleware/rate_limiter.go:114-126 | in every iteration order, exactly the expired entries are removed |
| RateLimiter.AtMostLimitPerWindow | internal/middleware/rate_limiter.go:63-78 | in any run, with any clock readings, at most `limit` calls are allowed from one window restart of a key to the next |
| RateLimiter.WithinBudget | internal/middleware/rate_limiter.go:69-78 | while a window stays open, a key's allowed calls fit in what is left of its limit |
| RateLimiter.AtMostTwiceLimitPerInterval | internal/middleware/rate_limiter.go:63-78 | on a clock-monotone run without a reset of the key, at most `2 * limit - 1` allowed calls in any closed interval of window length |
| RateLimiter.TwiceLimitIsReached | internal/middleware/rate_limiter.go:63-78 | for every limit and window of at least one, a run reaches that bound |
| RateLimiter.CleanupIsInvisibleIff | internal/middleware/rate_limiter.go:114-126 | with any clock readings, a run answers as without its clean-ups if and only if no call reads a clock at or before the reset time of an entry of its own key that a clean-up removed and nothing has replaced |
| RateLimiter.CleanupIsInvisible | internal/middleware/rate_limiter.go:114-126 | on clock-monotone runs, clean-ups inserted or deleted anywhere change no result |
| RateLimiter.CleanupsDropped | internal/middleware/rate_limiter.go:114-126 | the simulation behind it, in both directions: a state with removed entries against the same state with nothing removed |
| RateLimiter.LateReadingSeesCleanup | internal/middleware/rate_limiter.go:57-65 | for every window and limit of at least one, a reading one tick older than the clean-up before it changes a result |
| RateLimiter.DenialIsHonest | internal/middleware/rate_limiter.go:74-82 | after a denial, whatever calls for other keys do, every call up to the announced reset time is denied with that same time, and the first one after it is allowed if and only if the limit is at least one |
| RateLimiter.DeniedUntilReset | internal/middleware/rate_limiter.go:63-82 | an exhausted window denies every call it covers, in any order of readings |
| RateLimiter.ResultIsExact | internal/middleware/rate_limiter.go:69-82 | `remaining` is exactly the number of further calls the window allows, the first ones; the first call after `resetTime` finds a new window; only a denied caller is told to wait |
| RateLimiter.KeysAreIndependent | internal/middleware/rate_limiter.go:63-96 | the results for a key are those of the run restricted to its own operations and the clean-ups |
| Pipeline.DeliveryIsPrefix | graph/schema.resolvers.go:449-477 | in every run, cancelled, closed or panicked, what was delivered and is still receivable is a prefix of the converted events taken |
| Pipeline.NothingLost | internal/services/pod_service_impl.go:293-327 | while not cancelled and the service call runs, delivered, buffered and held events are exactly the events taken, in order, and both buffers hold at most 100 |
| Pipeline.CloseDiscipline | graph/schema.resolvers.go:453-477 | each channel is closed at most once, sends on closed channels need a cancellation or the end of the service call, and given-up events, at most one per goroutine, are accounted for in place |
| Pipeline.ConservedStep | internal/services/pod_service_impl.go:320-324 | every atomic step of every goroutine keeps the account of events |
| Pipeline.DisciplinedStep | graph/schema.resolvers.go:550-575 | every atomic step of every goroutine keeps the close discipline, in the pod watch and in the log stream |
| Pipeline.QuietPipelineDelivers | graph/schema.resolvers.go:466-477 | without new input, cancellation or return, any order of moves takes exactly as many steps as the backlog says, is never stuck before, and delivers everything |
| Pipeline.BacklogCanMove | internal/services/pod_service_impl.go:320-324 | while anything is undelivered some move is enabled |
| Pipeline.MoveShrinksBacklog | graph/schema.resolvers.go:468-476 | every move lowers the backlog by one and keeps the pipeline live |
| Pipeline.EndedStreamDeliversIffDrained | graph/schema.resolvers.go:453-477 | after a stream ends uncancelled, every schedule takes a fixed number of further steps; then everything taken has been delivered if and only if nothing was between the channels at the close, and otherwise the converter has panicked and exactly what it held and `serviceChan` is lost |
| Pipeline.EndInFlightPanics | graph/schema.resolvers.go:453-475 | for every event, in both streams, a run without cancellation that loses it in this way |
| Pipeline.ClosedMeansNoDelivery | graph/schema.resolvers.go:466-477 | in every run after the output channel is closed, cancelled or not, nothing more is delivered; if nothing was on its way the converter waits for ever and never panics |
| Cancellation.CancelledIff | graph/schema.resolvers.go:449-477 | the context is cancelled after a run exactly when the run has cancelled it |
| Cancellation.CancelledProducerLeaves | internal/services/pod_service_impl.go:293-327 | after a cancellation, with the buffers as full as may be and nobody consuming, a producer that checks, holds an event or waits in the pod watch ends in two steps of its own; a log stream that waits for a line cannot |
| Cancellation.CancelledConverterLeaves | graph/schema.resolvers.go:466-477 | likewise a converter that holds an event, without a panic |
| Cancellation.CancelledLogStreamIsSilent | internal/services/pod_service_impl.go:432-451 | in every run, what the log stream has passed on is an initial part of the lines that came before the cancellation, and at most one more line is read |
| Cancellation.ForeignEventsLeaveNoTrace | internal/services/pod_service_impl.go:303-306 | watch events that are not about pods change nothing in any run |
| Cancellation.SendsBlockAtHundred | graph/schema.resolvers.go:449-450 | in every reachable state both buffers hold at most 100, and a send on an open channel blocks exactly at 100 |
| Cancellation.PanicIffSendOnClosed | graph/schema.resolvers.go:453-477 | over any run, a goroutine panics exactly when it sends after the other has closed the channel |
| Subscription.Channel.Send | graph/schema.resolvers.go:471-475 | a send appends to an open channel and fails on a closed one |
| Subscription.EventStream.CloseEvents | graph/schema.resolvers.go:454-457 | the producer's deferred close is the only one of its channel |
| Subscription.EventStream.CloseService | graph/schema.resolvers.go:466-477 | the converter's deferred close is the only one of its channel |
| Subscription.EventStream.Consume | graph/schema.resolvers.go:479-479 | the consumer's output grows by one event and stays a prefix of the converted events taken |
| Scale.AuditsAreTheHistory | internal/services/deployment_service_impl.go:67-143 | over any interleaving, an object's successful updates chain without a gap from its first count to its current one; in every state the audit records are, one for one, the decisions of finished calls, none of them "no-change" |
| ScaleLog.LogTellsHistory | internal/services/deployment_service_impl.go:117-143 | the log lists an object's updates in the order they were made if and only if each call logs the oldest one not yet logged; then its records chain from the first count, and to the current one when all have logged |
| ScaleLog.LogOrderIff | internal/services/statefulset_service_impl.go:117-143 | the same from any reachable state on: one record logged out of turn keeps the log out of order for ever |
| ScaleLog.OvertakingBreaksLog | internal/services/deployment_service_impl.go:117-143 | for every object and any two changes of its count, a run on which every update is logged and the log does not chain |
| Scale.AcceptedIffUnchanged | internal/services/statefulset_service_impl.go:117-128 | an Update succeeds exactly when the object is still what the call read and the API does not fail; a rejected one changes nothing |
| Scale.HistoryStep | internal/services/deployment_service_impl.go:117-131 | every step of every caller, rollout patches included, keeps the chain of counts |
| Scale.AuditedStep | internal/services/deployment_service_impl.go:119-131 | every step keeps the books: one decision per call, and a record exactly for the finished ones |
| Scale.ActionNamesTheChange | internal/services/deployment_service_impl.go:210-223 | the action word tells the direction of the change, and "no-change" exactly an unchanged non-zero count |
| ScaleCalls.CallsAnswerTheirRequests | internal/services/deployment_service_impl.go:67-143 | over any interleaving, a call is refused exactly for its parameters, its result is about the count asked for, and every record names the object, count and user of its call's request |
| ScaleCalls.ActionReadsBack | internal/services/deployment_service_impl.go:210-223 | both counts can be read back from the action word |
| ScaleService.Server.ScaleWorkload | internal/services/statefulset_service_impl.go:67-143 | the code of a scale call takes the server through exactly its own steps in order with the other callers' steps in between, returns what the protocol records, and leaves one audit record with that result exactly when it came to an Update |
| ScaleService.Server.Write | internal/services/deployment_service_impl.go:104-131 | the update with the object as read is the protocol's Update step |
| Restart.TypeOf | internal/services/controller.go:106-116 | an owner's kind becomes a controller type that prints as that kind, so restart messages name it |
| Restart.RestartWritesOneObject | internal/services/restart_orchestrator.go:40-204 | a restart succeeds exactly when the pod is read, its type can be restarted and its target exists, has a name and can be written; it fails without writing or writes only the object its controller type calls for; the switch fallbacks are unreachable; a warning marks exactly the standalone pods |
| Restart.RestartReports | internal/services/restart_orchestrator.go:40-176 | which error a failed restart gives, and the method, message and warning of a successful one by controller type |
| Restart.JobPodsUntouched | internal/services/controller.go:265-276 | a pod controlled by a Job or CronJob is never touched |
| Restart.DeploymentPodNeedsReplicaSet | internal/services/controller.go:58-76 | a Deployment's pod is restarted by rollout when its ReplicaSet can be read and by deletion when not |
| Restart.ControllingOwnerDecides | internal/services/controller.go:60-117 | the first owner with the controller flag alone decides the detected controller |
| Restart.UncontrolledFallsThrough | internal/services/controller.go:119-138 | without a controlling owner, labels, node and default decide |
| Detection.JobPodsBelongToCronJob | internal/services/controller.go:77-90 | a Job's pod is the CronJob's that controls the Job, by its own name, if the Job can be read and the CronJob has a name, and the Job's otherwise |
| Detection.ReplicaSetPodsBelongToDeployment | internal/services/controller.go:63-76 | the same for a ReplicaSet and its Deployment |
| Detection.OtherOwnersAreTheAnswer | internal/services/controller.go:91-115 | any other controlling owner's kind and name are the answer of both queries |
| Detection.LabelsNodeStandalone | internal/services/controller.go:119-138 | without a controlling owner: the managed-by label, the job labels, the node, standalone, in this order, with the names that go with them |
| Detection.LabelledJobPodsUntouched | internal/services/controller.go:198-214 | a pod that only a job label marks is never touched by a restart |
| Restart.ListAndDetailAgree | internal/services/pod_converter.go:168-203 | for every pod, labels included, the list query's detection gives the controller type and name of the single-pod query's if and only if the stated condition on owners, labels and node holds |
| Mutations.FailedMutationsErasable | graph/schema.resolvers.go:16-242 | replaying only the requests audited as successes reaches the same cluster with the same replies |
| Mutations.FailureChangesNothing | graph/schema.resolvers.go:34-38 | a mutation that returns an error has left the cluster as it was, under any API faults |
| Mutations.ValidatedRequestsReachService | graph/validation.go:33-116 | validated requests never fail a service parameter check, and the replica count sent is the one set and reported |
| Mutations.ToInt32 | graph/schema.resolvers.go:136-136 | the 32-bit conversion is congruent to its argument and lossless exactly on the 32-bit range |
| Mutations.ScaleOnceIsTheProtocol | graph/resolver.go:206-221 | an uninterrupted scale call is the interleaved protocol with nothing in between |
| Mutations.WarningMeansStandalone | graph/resolver.go:166-191 | the restart response carries a warning exactly when a standalone pod was deleted |
| Mutations.MutationResolver.Resolve | graph/schema.resolvers.go:16-242 | each mutation appends exactly one audit record, flagged a success exactly when no error is returned, and acts as specified |
| MutationEffects.RefusedRequests | graph/validation.go:33-116 | from the strings and counts themselves, which requests are refused and for which field; a refused request changes nothing |
| MutationEffects.ServicesRefuseMissingParameters | internal/services/pod_service_impl.go:208-219 | called directly, the services refuse exactly the requests that lack a namespace, a name or a user, or scale to a negative count, without effect |
| MutationEffects.DeletionDeletes | internal/services/pod_service_impl.go:99-130 | when a deletion succeeds, and that it then removes that pod and nothing else |
| MutationEffects.ScaleSetsTheCount | internal/services/deployment_service_impl.go:67-143 | when a scale request succeeds, and that it then sets that object's count, changes nothing else and reports the count before |
| MutationEffects.RestartRestarts | internal/services/pod_service_impl.go:133-160 | when a restart request succeeds, what it then writes, and what it reports |
| MutationEffects.AuditNamesRequest | graph/schema.resolvers.go:16-242 | the audit record names the operation, the object and the user of the request, or "system" |
| Selectors.SelectorRoundTripsIff | internal/services/pod_service_impl.go:232-254 | in every map order, the printed selector reads back as the filter exactly when no key holds a comma or equals sign and no value a comma |
| Selectors.BuildSelector | internal/services/deployment_service_impl.go:236-258 | the loop with its separator test prints the pairs of some order of the map, comma-separated |
| Selectors.OrderDoesNotMatter | internal/services/pod_service_impl.go:266-288 | any two map orders of a clean filter print selectors that read back alike |
| Selectors.BuildListOptions | internal/services/namespace_service_impl.go:116-152 | both filters can be read back from the options exactly when they are clean; limit and token are passed on |
| Ages.FormatDuration | internal/services/pod_converter.go:277-308 | the list of parts, grown and cut to two, joins to the specified age |
| Ages.PodAgeLoss | internal/services/pod_converter.go:277-308 | a pod age reads back as the duration less an exact loss: none below an hour, under a minute below a day, under an hour beyond |
| Ages.NamespaceAgeLoss | internal/services/namespace_service_impl.go:89-114 | a namespace age reads back as the duration less an exact loss |
| Ages.AgesAreMonotone | internal/services/pod_converter.go:282-307 | neither printer makes an older object read back as younger |
| Ages.NamespaceAgeIsCoarser | internal/services/namespace_service_impl.go:94-113 | the namespace age never reads back as more than the pod age, nor the pod age as more than the duration |
| Ages.PodAgeByRange | internal/services/pod_converter.go:277-308 | the pod age string for every duration, range by range |
| Ages.NamespaceAgeByRange | internal/services/namespace_service_impl.go:89-114 | the namespace age string for every duration, range by range |
| Text.DecimalReadsBack | internal/services/pod_converter.go:290-299 | printed numbers read back |
| HealthCache.AnswersAreFresh | graph/health.go:144-151 | every answer is what the wrapped service gave to a call at most the TTL earlier, and a nil answer is never kept |
| HealthCache.RefreshesAreSpaced | graph/health.go:154-161 | while the service answers, r consecutive refreshes of one kind, r at least two, span more than (r - 1) times the TTL |
| HealthCache.KeptFromLastRefresh | graph/health.go:144-151 | what is cached is the answer of the last call that refreshed |
| HealthCache.CachedHealthService.GetHealth | graph/health.go:144-151 | answers from its own calls alone and leaves the other two caches unchanged |
| HealthCache.CachedHealthService.GetReadiness | graph/health.go:154-161 | answers from its own calls alone and leaves the other two caches unchanged |
| HealthCache.CachedHealthService.GetSystemInfo | graph/health.go:164-171 | answers from its own calls alone and leaves the other two caches unchanged |

## Left out

- GraphQL dispatch, HTTP and WebSocket serving, configuration, database and migrations: generated code or input and output around libraries.
- The framework adapter and the final HTTP status; response headers and the seconds format of reset times.
- Handlers that keep a context and call `Next()` after they have returned, or from another goroutine.
- Error values whose `Error()` method panics, and response writers that panic.
- The asynchronous audit write of the logging middleware is modelled as the entry handed to it; whether the database accepts it is not.
- Stack traces added to panic errors by the development stack.
- The time of delivery: a goroutine that panics ends the process, and the model lets the other goroutines go on taking steps, so it covers every prefix the process may reach.
- Object creation and deletion by other parties during a scale call, and API errors that are reported although the write was applied.
- A replica count of nil is read as zero throughout, as the scale code does; the converter's default of one is not modelled.
- The error texts in the audit records of mutations.
- The service-level audit records of pod deletions and restarts, and the `Details` map of restart results.
- GraphQL response fields that the adapter never fills (`type`, `deployment`, `statefulset`, `controller`, `action`).
- The case mapping of the managed-by label is an arbitrary function.
- Concurrent use of the health cache, which has no lock.
- Ages below whole seconds, and rounding of the floating-point hours.
- Converters that copy fields from Kubernetes objects, validators and loggers that combine others, and the text format of the metrics.
- The `Kind` text of a detected controller, which repeats its type or is empty; only type and name are modelled.
