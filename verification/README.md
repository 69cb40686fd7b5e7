# Verification of the Kubernetes network service provider

A Dafny model of the parts of the service provider where state, interleaving and inverse structure
meet, and proofs about it. `dafny verify dfyconfig.toml` checks everything.

## What is modelled

**Lifecycle.** `Lifecycle` is the interleaving machine of `Server.Run`, the goroutine around
`Serve`, any number of callers of `Registrar.Start`, the registration goroutine and the environment.
A step moves one goroutine past one synchronisation point: the context, the capacity-1 channel that
is sent to and then closed, the `sync.Once`, the `done` channel, the timer with its stop-and-drain,
and every case of every `select`. `LifecycleInvariant` holds the inductive invariant,
`LifecycleProperties` the results over all reachable states. `Registration` has the retry loop as a
class and the exact language of its histories; `Backoff` has the int64 schedule.

**Responses.** `ResponseStack` is the stack on values: the server's own writer, any number of status
recorders over it, and any nesting of recovery, logging and validation around arbitrary handlers.
`ResponseProperties` proves what reaches the wire. `Recorders` has the same code as objects that
hold the writer they wrap and update their own fields; every method is proved equal to the value
level, so the results carry over.

**Wire format.** `Json` and `Codec` are encoding/json at the level of JSON values for every resource
type, with nil, empty and absent kept apart; `Hints` has `ProviderHints` as the object its methods
mutate. `Exchange` joins strict handler, middlewares and client parser into one exchange.

**Addresses.** `Urls` has the client's URL building, resolution by sections 5.2.2 to 5.2.4 of
RFC 3986 and the route table; `Ids` gives the OpenAPI patterns their regular-expression meaning.

**Chains.** `Chain` folds middlewares and request editors, `Scrub` reduces an error chain to the
detail a client may see.

## Where the code and its documents disagree

The model follows the code; each point is a theorem.

- Requirement REQ-HTTP-070 has every handler panic before the response starts answered with a 500
  problem. That holds if and only if the handler called nothing or its calls commit a response
  (`ResponseProperties.PanicPromiseIff`, decided on the calls by `Commits`). A recorder also counts
  an informational status, a rejected status and a flush nobody can perform as a started response;
  the client then gets an empty 200. Smallest inputs: `ResponseProperties.EarlyHintsThenPanic`.
- Requirement REQ-HTTP-060 has each request logged. A panicking one passes the logging middleware
  without a line, since that logs only after the next handler has returned
  (`ResponseProperties.LoggedIffReturns`).
- Requirement REQ-REG-050 has a 4xx stop the retries at once. It does only if the client can read
  and decode its body; otherwise the status is never looked at and the attempt is repeated
  (`Registration.Classify`).
- Acceptance criterion AC-REG-040 has the maximum backoff enforced. The first wait is never
  clamped (`Backoff.CapIffInitialWithinMax`), and a setting of 2^62 ns or more wraps into waits that
  do not pause at all (`Backoff.PositiveIffSafe`, `Backoff.JustUnsafeRunsHot`).
- `NewClient` promises a slash at the end of the server URL so that request paths go below it. With
  a query or a fragment the slash lands there, and the last path segment is replaced. The request
  then goes where it should if and only if that segment is ".", or ".." with nothing before it to
  remove (`Urls.QueryLosesLastSegment`; over all base URLs `Urls.RequestPathDecided`).
- The metadata name is described as a DNS-1035 label, but names that start with a digit are accepted
  (`Ids.NameVersusDns1035`).

Promised nowhere, but likely to be assumed otherwise:

- The logged status is the last one asked for, the client has the first: they differ after a failed
  body write (`ResponseProperties.LoggedStatusIff`).
- A failure of `Serve` is what `Run` returns unless the context is cancelled as well
  (`LifecycleProperties.ServeFailureNotLost`); then either may win the `select`, in every
  configuration (`LifecycleProperties.CancellationMayLoseFailure`).
- A context cancelled before readiness does not always prevent the callback: a probe request in
  flight at that moment may still be answered with 200. That is the only exception
  (`LifecycleProperties.CallbackAfterCancellationIff`).
- A cancellation does not bound the number of registration attempts that follow it, because the
  expired timer may win the `select` each time: n waits and n + 1 attempts are possible for every n
  (`LifecycleProperties.AttemptMayFollowCancellation`), and not more attempts than that. Only a
  request in flight at the cancellation can still be answered, all later ones fail
  (`LifecycleProperties.AttemptsAfterCancellation`).
- A `Set` of the key "kubernetes" shadows the typed member and is what breaks the round trip of a
  network (`Codec.NetworkRoundTripIff`, `Hints.OnlySetShadows`).

## Model

| member | source | states |
|---|---|---|
| `Backoff.DoubleWraps` | internal/registration/registration.go:171 | doubling an int64 duration is multiplication by two followed by two's-complement truncation |
| `Backoff.WaitIsIdeal` | internal/registration/registration.go:146-175 | with both settings positive and below 2^62, the k-th wait is the initial one for k = 0 and min(initial·2^k, max) after, and nothing wraps |
| `Backoff.PositiveIffSafe` | internal/registration/registration.go:161-174 | over all int64 settings: every wait of the loop is positive if and only if both settings are positive and below 2^62 |
| `Backoff.IdealIffSafe` | internal/registration/registration.go:171-174 | for positive settings the wrapped schedule equals the unbounded one if and only if both can be doubled |
| `Backoff.CapIffInitialWithinMax` | internal/registration/registration.go:148-174 | from the second wait on the cap always holds; it holds for every wait if and only if the initial wait does not exceed it |
| `Backoff.NeverShrinks` | internal/registration/registration.go:171-174 | safe settings: waits never get shorter when initial <= max; otherwise all waits after the first equal the maximum |
| `Backoff.JustUnsafeRunsHot` | internal/registration/registration.go:171-174 | with both settings at 2^62 every wait from the third on is zero |
| `Backoff.DefaultsAreSafe` | internal/registration/registration.go:79-80 | the default one second and sixty seconds give positive waits within the cap, for ever |
| `Backoff.Saturation` | internal/registration/registration.go:172-173 | the least number of doublings that reaches the maximum |
| `Backoff.TotalClosedForm` | internal/registration/registration.go:148-174 | time slept before attempt n + 1: initial·(2^n − 1) until the cap is reached, then linear in max |
| `Backoff.TotalAtLeast` | internal/registration/registration.go:148-174 | once saturated, q further waits take at least q times the maximum |
| `Backoff.WaitsWithin` | internal/registration/registration.go:148-174 | at most k* + T/max waits fit into T nanoseconds |
| `Registration.Classify` | internal/registration/registration.go:178-201 | success is a readable 200 or 201 and nothing else, giving up is a readable 400 to 499 and nothing else; every other status, every transport error and every response whose body cannot be read or decoded is retried |
| `Registration.InitialIsLastSet` | internal/registration/registration.go:45-49 | the last option for the initial wait decides it, one second without any, and options for the maximum never do |
| `Registration.MaxIsLastSet` | internal/registration/registration.go:52-56 | the same for the maximum, sixty seconds without any |
| `Registration.Registrar.constructor` | internal/registration/registration.go:76-85 | options are applied in order over the defaults, the last of each kind wins |
| `Registration.Registrar.Run` | internal/registration/registration.go:146-176 | the loop over mutable backoff produces the history and the ending its environment determines |
| `Registration.Registrar.Start` | internal/registration/registration.go:132-139 | only the first call runs the loop; done is closed when that run has returned, later calls change nothing |
| `Registration.HistoryIsLegal` | internal/registration/registration.go:150-175 | every run is (retryable attempt, full wait of the schedule)* and ends as its last event says: success, 4xx, or cancellation of a wait |
| `Registration.LegalIsHistory` | internal/registration/registration.go:150-175 | conversely every such sequence is a run for some replies, so the language of histories is exact |
| `Registration.NothingAfterAnEnd` | internal/registration/registration.go:151-167 | no event ever follows a success, a 4xx or a cancelled wait |
| `Registration.LegalCounts` | internal/registration/registration.go:150-175 | attempts and waits pair up, and the completed waits of any run add up to the schedule's total |
| `Registration.RetryRate` | internal/registration/registration.go:146-176 | whatever the replies, there are at most 1 + k* + T/max attempts around T nanoseconds of completed waiting |
| `LifecycleInvariant.KeepsInv` | internal/apiserver/server.go:334-377 | every step of every goroutine keeps the invariant that ties positions, channels, once, timer and log together |
| `LifecycleInvariant.KeepsPositions` | internal/apiserver/server.go:334-377 | the part of the invariant about positions, channels, once and timer is inductive by itself |
| `LifecycleInvariant.RegKeepsHistory` | internal/registration/registration.go:146-176 | each step of the registration goroutine extends its history legally and keeps backoff on the schedule |
| `LifecycleInvariant.OthersKeepHistory` | internal/registration/registration.go:132-139 | no other goroutine disturbs the loop; spawning starts it with the initial backoff |
| `LifecycleInvariant.ReachableInv` | internal/apiserver/server.go:334-377 | the invariant holds in every reachable state of every configuration |
| `LifecycleProperties.AttemptNeedsReadiness` | cmd/k8s-network-service-provider/main.go:68-70 | as wired, every registration event comes after the spawn, after onReady, after this server answered its own probe with 200, in that order |
| `LifecycleProperties.GoroutineNeedsReadiness` | cmd/k8s-network-service-provider/main.go:68-70 | as wired, even a request still in flight implies the 200 answer and the callback, and no abandoned probe |
| `LifecycleProperties.FailedProbeNeverRegisters` | internal/apiserver/server.go:345-348 | an abandoned probe, for whatever reason, means no registration attempt, ever |
| `LifecycleProperties.CancelledNeverRegisters` | internal/apiserver/server.go:233-252 | as wired, from any reachable state cancelled before the callback in which no request of the probe can still succeed: no callback and no registration attempt in any state reached later |
| `LifecycleProperties.CancelledBeforeProbe` | internal/apiserver/server.go:233-252 | in particular when the cancellation finds the probe not yet sent or between two requests |
| `LifecycleProperties.CallbackAfterCancellationIff` | internal/apiserver/server.go:233-252 | a server cancelled before its callback can still call it if and only if a probe request is in flight, or answered with 200, at that moment |
| `LifecycleProperties.AtMostOnce` | internal/registration/registration.go:132-139 | the callback, the spawn, the close of done, the end of Serve and Shutdown each happen at most once under any interleaving |
| `LifecycleProperties.RegistrarRefinesLoop` | internal/registration/registration.go:146-176 | what the goroutine does in the interleaved system is a prefix of a run of the sequential loop |
| `LifecycleProperties.RetryRateUnderInterleaving` | internal/registration/registration.go:146-176 | the retry-rate bound holds in the interleaved system |
| `LifecycleProperties.DoneMeansFinished` | internal/registration/registration.go:134-137 | done is closed only after a success, a 4xx or a cancelled wait, and nothing is attempted afterwards |
| `LifecycleProperties.NoGoroutineStuck` | internal/apiserver/server.go:337-343 | nothing is closed twice or sent to after its close; the send to serveCh and the timer drain never block |
| `LifecycleProperties.ReleaseOnce` | internal/registration/registration.go:133-138 | the caller inside the Once completes it by its own steps alone |
| `LifecycleProperties.StartReturns` | internal/registration/registration.go:132-139 | every caller of Start can return within three steps of callers, whatever the other goroutines do |
| `LifecycleProperties.RunResultMeans` | internal/apiserver/server.go:360-376 | nil if and only if Shutdown succeeded; a serving error if and only if Shutdown was not called, and then Serve failed; any other result only after a cancellation |
| `LifecycleProperties.ServeFailureNotLost` | internal/apiserver/server.go:360-366 | a failure of Serve at any moment, also during probing or a panicking callback, is what Run returns unless the context was cancelled |
| `LifecycleProperties.CancellationMayLoseFailure` | internal/apiserver/server.go:360-366 | in every configuration, with a cancellation as well, the same failure is reported in one run and lost in another |
| `LifecycleProperties.ReadyRun` | internal/apiserver/server.go:233-252 | after any number of failed probe requests, answered or not, one answered with 200 leads to the callback, with exactly the log that shows it |
| `LifecycleProperties.DeadlineRun` | internal/apiserver/server.go:246-252 | or the probe gives up at its deadline after any failed request, without a cancellation |
| `LifecycleProperties.ProbeIsDecided` | internal/apiserver/server.go:345-360 | Run reaches its final select only after the callback was called or given up, and never both |
| `LifecycleProperties.ProbeRetries` | internal/apiserver/server.go:233-252 | while nothing is cancelled, a failed probe request is never the last: the callback can still be reached |
| `LifecycleProperties.ProbePace` | internal/apiserver/server.go:230-252 | the probe sends at most one request more than its ticker has fired |
| `LifecycleProperties.CallbackCompletes` | internal/apiserver/server.go:349-356 | Run goes on only once a Start called by the callback has returned |
| `LifecycleProperties.TimerReleased` | internal/registration/registration.go:161-169 | outside its waits the registration goroutine leaves no timer running and no timer value unread |
| `LifecycleProperties.CancelledWait` | internal/registration/registration.go:163-167 | a cancelled wait reads the value of an expired timer exactly where Stop leaves it behind, and then returns |
| `LifecycleProperties.NormalLife` | cmd/k8s-network-service-provider/main.go:68-72 | one whole life with its exact log: probe, callback, registration, done, cancellation, shutdown with either result, nothing left |
| `LifecycleProperties.LateAttemptFails` | internal/registration/registration.go:179-182 | in every reachable state, an attempt begun after the cancellation, by the spawn or by a wait that ended, fails without an answer |
| `LifecycleProperties.AttemptsAfterCancellation` | internal/registration/registration.go:161-182 | in every reachable state: after the cancellation there is at most one attempt more than waits completed since, and all but the first fail without an answer, so only a request in flight at the cancellation can succeed or be given up |
| `LifecycleProperties.AttemptMayFollowCancellation` | internal/registration/registration.go:161-169 | that bound is reached: some run has n waits and n + 1 attempts after the cancellation, the last with any reply for n = 0 and a failure otherwise |
| `LifecycleProperties.ReplyAfterCancellationIff` | internal/registration/registration.go:161-182 | a reply can end such a run with n waits if and only if n = 0 or it is a transport error |
| `LifecycleProperties.AlwaysStoppable` | internal/apiserver/server.go:360-376 | from every reachable state a bounded schedule ends every goroutine and returns every caller of Start: there is no deadlock |
| `ResponseStack.Serve` | internal/apiserver/server.go:169-221 | whatever middlewares push, the stack they leave has the depth they found |
| `ResponseProperties.ServeRefinesIdeal` | internal/apiserver/server.go:138-221 | for any nesting of middlewares over any number of recorders, a well-behaved handler leaves every recorder flag equal to "the wire has committed", and wire and ending are those of a server without recorders |
| `ResponseProperties.OneFinalStatus` | internal/apiserver/server.go:169-192 | however handlers, middlewares and panics combine, a committed status, its headers and bytes already sent never change |
| `ResponseProperties.ResponseIs` | internal/apiserver/server.go:138-163 | the response is decided by the first call that commits: its status, the headers set before it, the informational responses before it, and the documents written from it on |
| `ResponseProperties.RecoveryCatches` | internal/apiserver/server.go:173-187 | recovery lets nothing but an abort out and logs nothing of its own |
| `ResponseProperties.AbortPasses` | internal/apiserver/server.go:175-177 | an intended abort comes out of any nesting, with what was written before it and nothing added |
| `ResponseProperties.TrackedOpsKeepSync` | internal/apiserver/server.go:144-163 | any sequence of final statuses, writes and supported flushes keeps all flags equal to the wire's state |
| `ResponseProperties.SyncedIffFirstCallTracked` | internal/apiserver/server.go:144-163 | for arbitrary calls the flags agree with the wire after every call if and only if the first call is a final status, a write or a flush the server supports |
| `ResponseProperties.CommitsIff` | internal/apiserver/server.go:144-163 | whether calls commit a response is decided by the calls and by whether the server can flush |
| `ResponseProperties.PanickingHandlers` | internal/apiserver/server.go:169-221 | a panic comes out of a well-behaved nesting exactly when its innermost handler panics under logging and passing validations only |
| `ResponseProperties.PanicAnswer` | internal/apiserver/server.go:173-187 | for every endpoint that panics and every strict reply with a rejected status, under any logging and validation: no call before the panic gives exactly one 500 problem+json, overriding the Content-Type set before; after a commit recovery leaves the wire alone |
| `ResponseProperties.WellBehavedPanicAnswer` | internal/apiserver/server.go:173-187 | a well-behaved nesting whose panic leaves the wire uncommitted is always answered with that 500 |
| `ResponseProperties.PanicPromiseIff` | internal/apiserver/server.go:181-186 | for the same handlers: recovery does what it promises if and only if nothing was called or the calls commit; otherwise the client sees an empty 200 |
| `ResponseProperties.EarlyHintsThenPanic` | internal/apiserver/server.go:144-148 | any informational or too small status followed by a panic reaches the client as 200 |
| `ResponseProperties.ProblemOnWire` | internal/httperror/write.go:13-26 | on an uncommitted response the problem arrives with its status, content type and whole document |
| `ResponseProperties.TopRecordsLastCode` | internal/apiserver/server.go:144-163 | a fresh recorder ends up with the last code asked for and knows whether anything was called |
| `ResponseProperties.LoggedIsLastCode` | internal/apiserver/server.go:207-221 | a handler that returns is logged with the code of its last WriteHeader, 200 without one |
| `ResponseProperties.LoggedIffReturns` | internal/apiserver/server.go:207-221 | for any endpoint under any logging and validation: one line with the last code per logging middleware if it returns, no line at all if it panics |
| `ResponseProperties.PanicPasses` | internal/apiserver/server.go:207-221 | calls and panic of such a handler pass through logging and validation unchanged, and none of them logs the request |
| `ResponseProperties.LoggedStatusIff` | internal/api/server/server.gen.go:659-669 | a strict handler is logged with the status the client got if and only if there is no body, the body was written, or the status was 500 anyway |
| `ResponseProperties.StrictIsLogged` | internal/api/server/server.gen.go:659-669 | which status is logged and which the client gets, for every outcome of a strict handler |
| `ResponseProperties.RequestLog` | internal/apiserver/server.go:260-275 | under the middlewares as New nests them: one line for every request rejected or answered, with the status asked for last |
| `Recorders.RecorderObject.constructor` | internal/apiserver/server.go:172 | a new recorder over a writer has clean fields and sits on top of that writer's chain |
| `Recorders.RecorderObject.WriteHeader` | internal/apiserver/server.go:144-148 | on the objects: flags of every recorder below and the wire change as the value-level call says, and a rejected code panics |
| `Recorders.RecorderObject.Write` | internal/apiserver/server.go:150-156 | the same for a body write, whose error is the base writer's |
| `Recorders.RecorderObject.Flush` | internal/apiserver/server.go:158-163 | the same for a flush: recorded as a start even when nothing below can flush |
| `Recorders.RecorderObject.SetHeader` | internal/apiserver/server.go:138-142 | header edits go through to the server's own map and leave every recorder as it was |
| `Recorders.Run` | internal/apiserver/server.go:138-163 | a handler's calls, made one by one on the objects, give the stack of the value-level run and stop at the first panic |
| `Recorders.WriteResponse` | internal/httperror/write.go:13-26 | content type, status and document are written in that order to whatever writer is given |
| `Recorders.VisitResponse` | internal/api/server/server.gen.go:368-378 | a visit writes header, status and one document, and reports exactly a failed body write |
| `Recorders.StrictHandler` | internal/api/server/server.gen.go:659-669 | every error of handler, response type or visit ends in the internal problem, a nil response in nothing |
| `Recorders.RequestLogging` | internal/apiserver/server.go:207-221 | the middleware object logs what the value level logs, and only when the handler returns |
| `Recorders.Recover` | internal/apiserver/server.go:169-192 | the middleware object answers a panic on the writer below its recorder, re-raises an abort, and leaves the value-level stack |
| `Recorders.ServeRecorded` | internal/apiserver/server.go:171-189 | calling the next handler with a fresh recorder over w is pushing one and popping it again |
| `Recorders.ServeHTTP` | internal/apiserver/server.go:169-221 | any nesting of middleware objects serves a request exactly as the value level does |
| `Json.AnyRoundTrip` | api/v1alpha1/types.gen.go:407-438 | a JSON-shaped value in an interface comes back with nil slices and maps, at any depth, as nil and all else equal |
| `Json.DecodedIsNormal` | api/v1alpha1/types.gen.go:407-417 | decoding into an interface never yields a nil slice or map inside it |
| `Json.DocumentRoundTrip` | api/v1alpha1/types.gen.go:407-438 | a document that goes through an interface comes out as it went in, kind by kind and at any depth |
| `Json.EncodedIsCanonical` | api/v1alpha1/types.gen.go:433-438 | whole numbers are always written as integer literals |
| `Json.SliceRoundTrip` | api/v1alpha1/types.gen.go:278 | a slice makes the round trip if and only if each element does; nil stays nil and empty stays empty |
| `Json.MapRoundTrip` | api/v1alpha1/types.gen.go:199-202 | a pointer to a map makes the round trip, a pointer to a nil map becomes nil |
| `Codec.ProblemRoundTrip` | api/v1alpha1/types.gen.go:142-157 | every problem is decoded from its encoding unchanged |
| `Codec.ProblemMembers` | api/v1alpha1/types.gen.go:142-157 | the members of section 3.1 of RFC 7807 under their names; type and title always, the others exactly when set |
| `Codec.ProblemAccepts` | api/v1alpha1/types.gen.go:142-157 | exactly the documents of the prescribed member types decode as a problem |
| `Codec.NullIsZero` | api/v1alpha1/types.gen.go:142-157 | null leaves a field of a fresh value at its zero value |
| `Codec.HealthRoundTrip` | api/v1alpha1/types.gen.go:163-188 | every health document is decoded from its encoding unchanged |
| `Codec.HealthMembers` | api/v1alpha1/types.gen.go:163-188 | status is always written, every other member exactly when it is set |
| `Codec.HealthAccepts` | api/v1alpha1/types.gen.go:163-188 | exactly the documents of the prescribed member types decode |
| `Codec.KubernetesHintsRoundTrip` | api/v1alpha1/types.gen.go:191-203 | decode after encode is the identity up to pointers to nil maps |
| `Codec.KubernetesHintsMembers` | api/v1alpha1/types.gen.go:191-203 | each member is written exactly when it is set |
| `Codec.KubernetesHintsAccepts` | api/v1alpha1/types.gen.go:191-203 | exactly the documents of the prescribed member types decode |
| `Codec.KubernetesStateRoundTrip` | api/v1alpha1/types.gen.go:207-219 | decode after encode is the identity up to pointers to nil slices and maps |
| `Codec.KubernetesStateMembers` | api/v1alpha1/types.gen.go:207-219 | each member is written exactly when it is set |
| `Codec.KubernetesStateAccepts` | api/v1alpha1/types.gen.go:207-219 | exactly the documents of the prescribed member types decode |
| `Codec.HintsRoundTripIff` | api/v1alpha1/types.gen.go:392-440 | decode after encode yields the normal form if and only if no additional property is called "kubernetes" |
| `Codec.DecodedHints` | api/v1alpha1/types.gen.go:392-419 | every decoded value leaves the "kubernetes" key out of the additional properties and is in normal form |
| `Codec.HintsMembers` | api/v1alpha1/types.gen.go:422-440 | which members an encoded value has, and which value is written under each |
| `Codec.HintsAccepts` | api/v1alpha1/types.gen.go:392-419 | exactly the objects whose kubernetes member has its shape decode |
| `Codec.HintsDecoded` | api/v1alpha1/types.gen.go:392-419 | every member but the kubernetes one becomes an additional property, and the map is nil without any |
| `Codec.HintsNormaliser` | api/v1alpha1/types.gen.go:392-440 | encode after decode is an idempotent normaliser of all accepted documents and keeps what they decode to |
| `Codec.MetadataRoundTrip` | api/v1alpha1/types.gen.go:260-269 | metadata is decoded from its encoding, up to a pointer to a nil label map |
| `Codec.MetadataMembers` | api/v1alpha1/types.gen.go:260-269 | name is always written, labels and namespace exactly when they are set |
| `Codec.MetadataAccepts` | api/v1alpha1/types.gen.go:260-269 | exactly the documents of the prescribed member types decode |
| `Codec.PortRoundTrip` | api/v1alpha1/types.gen.go:307-332 | every port is decoded from its encoding unchanged |
| `Codec.PortMembers` | api/v1alpha1/types.gen.go:307-332 | port is always written, every other member exactly when it is set |
| `Codec.PortAccepts` | api/v1alpha1/types.gen.go:307-332 | exactly the documents of the prescribed member types and 32-bit ranges decode |
| `Codec.SpecRoundTripIff` | api/v1alpha1/types.gen.go:273-290 | a spec makes the round trip into its normal form if and only if its hints leave the "kubernetes" key alone |
| `Codec.SpecMembers` | api/v1alpha1/types.gen.go:273-290 | metadata, ports and service_type are always written, the others exactly when they are set |
| `Codec.SpecAccepts` | api/v1alpha1/types.gen.go:273-290 | exactly the documents of the prescribed shape decode |
| `Codec.NetworkRoundTripIff` | api/v1alpha1/types.gen.go:225-250 | the same for a whole network: the body the client builds is what the strict handler decodes |
| `Codec.NetworkMembers` | api/v1alpha1/types.gen.go:225-250 | spec is always written, every other member exactly when it is set |
| `Codec.NetworkAccepts` | api/v1alpha1/types.gen.go:225-250 | exactly the documents of the prescribed shape, at every level, decode as a network |
| `Codec.ZeroDocuments` | api/v1alpha1/types.gen.go:142-332 | null and the empty object leave every member of every resource type at its zero value |
| `Codec.NetworkNormaliser` | api/v1alpha1/types.gen.go:225-250 | whatever decodes is in normal form and survives any further trip unchanged |
| `Codec.ListRoundTripIff` | api/v1alpha1/types.gen.go:253-257 | a list of networks makes the round trip if and only if each of its networks does |
| `Codec.ListMembers` | api/v1alpha1/types.gen.go:253-257 | each member is written exactly when it is set |
| `Codec.NetworkListAccepts` | api/v1alpha1/types.gen.go:253-257 | exactly the documents of the prescribed shape decode |
| `Hints.HintsObject.UnmarshalJSON` | api/v1alpha1/types.gen.go:392-419 | for any receiver and any document: which documents fail, what a failure leaves behind, how a used kubernetes member is merged into, and that additional properties are replaced only when there are some |
| `Hints.IntoFresh` | api/v1alpha1/types.gen.go:392-419 | into a fresh receiver UnmarshalJSON accepts and yields exactly what the value-level codec does |
| `Hints.UsedReceiver` | api/v1alpha1/types.gen.go:399-403 | into a used kubernetes member: unmentioned members stay, null clears, maps are merged, a mismatch in one does not stop the others |
| `Hints.ReceiverAfter` | api/v1alpha1/types.gen.go:392-419 | null or a refused document changes nothing, a failed kubernetes member leaves the additional properties, and these are replaced whole or not at all |
| `Hints.AcceptanceIsOfTheDocument` | api/v1alpha1/types.gen.go:392-419 | whether a document is accepted does not depend on the receiver |
| `Hints.HintsObject.DecodeAll` | api/v1alpha1/types.gen.go:408-416 | ranging over the remaining members in any order decodes every one of them |
| `Hints.HintsObject.EncodeOver` | api/v1alpha1/types.gen.go:433-438 | ranging over the additional properties in any order writes every one over what is there and keeps the rest |
| `Hints.HintsObject.MarshalJSON` | api/v1alpha1/types.gen.go:422-440 | the object's encoding is the value-level one: additional properties override the typed member |
| `Hints.HintsObject.Get` | api/v1alpha1/types.gen.go:376-381 | found exactly when the key is an additional property, with its value |
| `Hints.HintsObject.Set` | api/v1alpha1/types.gen.go:384-389 | exactly the one key changes, the map being made if it is nil |
| `Hints.OnlySetShadows` | api/v1alpha1/types.gen.go:384-419 | over any sequence of Set and UnmarshalJSON calls, failed ones included, the typed member is shadowed exactly when some Set used its key and no later document replaced the map |
| `Hints.EditedValueRoundTrip` | api/v1alpha1/types.gen.go:384-440 | a fresh value after any such sequence makes the round trip if and only if no Set of "kubernetes" is left standing |
| `Hints.SetIsVisible` | api/v1alpha1/types.gen.go:384-440 | a Set value is what is encoded under its key, and every other member of the encoding is untouched |
| `Exchange.ReplyArrives` | internal/api/server/server.gen.go:659-669 | under any nesting of middlewares a visited response reaches the client with its status, content type and document |
| `Exchange.TornReply` | internal/api/server/server.gen.go:368-378 | on a connection that takes no body the client has the original status and type but no readable document |
| `Exchange.PayloadIs` | pkg/client/client.gen.go:926-931 | the client can read the body as a document exactly when one whole document was sent and nothing besides |
| `Exchange.ListAgreement` | pkg/client/client.gen.go:926-963 | for every list reply the client sets exactly the field for its status, to the normalised value (200: if and only if its networks survive the wire) |
| `Exchange.CreateAgreement` | pkg/client/client.gen.go:966-1010 | the same for create: 201, 400, 409, 500 |
| `Exchange.HealthAgreement` | pkg/client/client.gen.go:1013-1036 | the health document arrives unchanged in its field |
| `Exchange.DeleteAgreement` | pkg/client/client.gen.go:1039-1072 | 204 sets no field; 404 and 500 set exactly theirs |
| `Exchange.GetAgreement` | pkg/client/client.gen.go:1075-1112 | the same for get: 200, 404, 500 |
| `Exchange.OtherRepliesAreUntyped` | pkg/client/client.gen.go:925-1112 | a reply of another type or with an undocumented status sets no typed field and is no error |
| `Exchange.ContainsJsonIff` | pkg/client/client.gen.go:939 | the content types taken for JSON are those with "json" anywhere in them |
| `Exchange.FailureAnswer` | internal/api/server/server.gen.go:661-668 | an error of the handler or a result of the wrong type reaches the client as the internal problem |
| `Exchange.NilAnswer` | internal/api/server/server.gen.go:667-669 | a handler that returns nothing gets an empty 200 sent in its name |
| `Exchange.InternalSays` | internal/apiserver/server.go:50-55 | every field of the internal problem: nothing of the cause shows |
| `Exchange.TornReplyIsAnError` | pkg/client/client.gen.go:925-1112 | a reply torn by the connection is never taken for a typed value: each parser reports an error exactly for the statuses it has a field for |
| `Exchange.RejectionAgreement` | internal/apiserver/server.go:322-325 | a request refused by validation or for its body reaches the client as the 400 problem and nothing else |
| `Exchange.UnreadableBody` | internal/api/server/server.gen.go:678-682 | a body that does not decode is answered with the generic detail whatever the decoder's message says |
| `Exchange.ReadableIff` | internal/api/server/server.gen.go:678-682 | exactly a body that is not JSON or not of the shape of a network is refused |
| `Exchange.CreateReaches` | internal/api/server/server.gen.go:686-698 | any other body reaches the handler decoded, and the client gets the typed reply the handler gives to it |
| `Exchange.CreateFails` | internal/api/server/server.gen.go:692-695 | an error of the handler for a readable body is the internal problem at the client |
| `Exchange.BadRequestSays` | internal/apiserver/server.go:34-39 | every field of the problem for a refused request |
| `Exchange.CreateEchoIff` | internal/api/server/server.gen.go:673-703 | a network sent by the client and echoed with 201 comes back to the client in normal form if and only if no additional hint is called "kubernetes" |
| `Ids.IdPatternIsRules` | api/v1alpha1/openapi.yaml:84-94 | the id pattern denotes exactly the four documented rules, with or without the length bounds |
| `Ids.ValidatorsAgree` | api/v1alpha1/openapi.yaml:314-316 | path id, query id and metadata name accept the same strings |
| `Ids.NameVersusDns1035` | api/v1alpha1/openapi.yaml:313-316 | the accepted names are the DNS-1035 labels of section 2.3.1 of RFC 1035 and those that start with a digit |
| `Urls.Client.constructor` | pkg/client/client.gen.go:62-65 | the stored server string ends in a slash, added only if it was missing |
| `Urls.NewClient` | pkg/client/client.gen.go:51-71 | options are applied in order, the first error is reported, and whatever server string they leave ends in a slash |
| `Urls.NormalisedRenders` | pkg/client/client.gen.go:62-65 | which URL component the added slash belongs to: the last one present |
| `Urls.Turn` | pkg/client/client.gen.go:462 | each turn of dot-segment removal shortens the input |
| `Urls.DirectoryFirst` | pkg/client/client.gen.go:462 | a path closed by a slash is resolved without looking at what follows it |
| `Urls.RemoveDotsBySegments` | pkg/client/client.gen.go:462 | for every absolute path, dot removal is a walk over its segments: "." skipped, ".." taking the last kept one back |
| `Urls.RelativeDots` | pkg/client/client.gen.go:462 | dot segments at the start of a relative input are dropped |
| `Urls.RequestPathIff` | pkg/client/client.gen.go:442-473 | for every base URL whose path takes the slash: the request path is the dot-free base path, the collection and the segment unchanged, if and only if the segment is not "." or ".." |
| `Urls.QueryLosesLastSegment` | pkg/client/client.gen.go:62-65 | with a query or fragment the slash lands there and resolution replaces the base path's last segment; the request goes below the closed base path if and only if that segment stood for nothing and the id is no dot segment |
| `Urls.RequestPathDecided` | pkg/client/client.gen.go:442-473 | for every base URL and every segment, exactly when the request goes below the closed base path |
| `Urls.ClientReachesOperation` | internal/api/server/server.gen.go:339-353 | at a root base URL every legal id is dispatched to the operation meant with that id, the only exception being GET of "health", which is the health check |
| `Urls.CollectionReachesOperations` | pkg/client/client.gen.go:248-264 | list and create requests reach their operations at a root base URL |
| `Urls.OnlyThesePathsReach` | internal/api/server/server.gen.go:339-353 | each operation, guard and not-found answer is reached exactly on the stated method and paths |
| `Urls.EmptyIdIsGuarded` | internal/apiserver/server.go:278-287 | an empty id never reaches an operation: the trailing-slash guards answer it |
| `Chain.Fold` | internal/api/server/server.gen.go:116-124 | the loop builds the fold of the middleware list |
| `Chain.Stop` | internal/api/server/server.gen.go:116-124 | where a request stops: after the last middleware that answers by itself |
| `Chain.LastIsOutermost` | internal/api/server/server.gen.go:120-124 | entries in reverse list order, exits in list order, around the handler or the middleware that answers by itself |
| `Chain.HandledIffAllPass` | internal/api/server/server.gen.go:655-659 | the handler is reached if and only if every middleware passes the request on |
| `Chain.ApplyEditors` | pkg/client/client.gen.go:475-487 | the client's editors run before the call's, in order, up to the first error |
| `Chain.DoIffAllSucceed` | pkg/client/client.gen.go:146-156 | the request is sent if and only if every editor succeeds, as the last one left it; otherwise the first error is reported |
| `Scrub.DetailNotEmpty` | internal/apiserver/server.go:75-136 | the client is always told something |
| `Scrub.WrappingKeepsDetail` | internal/apiserver/server.go:75-136 | any number of unrecognised wrappers leaves the detail as it was |
| `Scrub.MessagesDoNotShow` | internal/apiserver/server.go:75-136 | non-interference: chains that differ only in private messages, at any depth, have the same detail |
| `Scrub.AsIsOutermost` | internal/apiserver/server.go:79 | the error found in a chain is the outermost of its type |
| `Scrub.RequestErrorDecides` | internal/apiserver/server.go:78-103 | a request error anywhere in the chain decides: its parameter or body first, the schema's reason before its own last, without a reason the generic message |
| `Scrub.SchemaReasonFirst` | internal/apiserver/server.go:87-93 | the reason of the outermost schema error beneath a request error is shown, whatever reason the request error gives itself |
| `Scrub.OwnReasonOtherwise` | internal/apiserver/server.go:95-102 | without one its own reason is shown, and without that the generic message |
| `Scrub.KindWords` | internal/apiserver/server.go:105-133 | the words for each kind of parameter error |
| `Scrub.CausesShow` | internal/api/server/server.gen.go:226-293 | a missing or repeated parameter hides its cause, every other parameter error lets a request error beneath it decide |
| `Scrub.FirstKindDecides` | internal/apiserver/server.go:105-135 | without a request error in the chain, the parameter-error types are looked for in order and the first found decides the detail |
| `Scrub.DetailTellsKindAndName` | internal/apiserver/server.go:105-133 | two such details are equal only for the same type of error and the same parameter |
| `Scrub.UnrecognisedIsGeneric` | internal/apiserver/server.go:135 | an error nobody recognises, such as one from decoding a body, gives the generic message |

## Left out

- LifecycleProperties.AlwaysStoppable: shows that a terminating schedule exists from every state; fairness of Go's scheduler, and so termination of every schedule, is not stated.
- Registration.Registrar.Start: runs the loop inside the call and stops at the end of the replies it is given; the goroutine and its interleavings are in `Lifecycle`.
- net/http's response writer, the select statement, sync.Once, channels and timers are modelled as their documentation describes them, since they are not part of the repository; the timer in both its forms, with and without a value left behind by Stop.
- One context stands for all: callers of Start other than the callback are taken to pass the context that Run was given. A request whose goroutine was spawned before the cancellation counts as in flight.
- After Shutdown was called Serve may still fail with another error in the model, since its error may have been read just before.
- Sockets, real clocks and connection reuse: events of the environment, and a number of body writes the connection will still accept.
- The OpenAPI validator and its filling in of defaults: a verdict with the problem it leads to; no round trip through it is claimed.
- chi's tree and the binding of query and path parameters: a table in which a static segment goes before a parameter.
- JSON text: escapes, spelling and rounding of numbers, duplicate members, case-insensitive member names; timestamps stay text.
- Encoders that fail: none can for the modelled values, so the visit's early return on an encoding error never occurs.
- The parsers and visits are functions on values; the raw body and response fields the parsers also fill in are not kept.
- Percent-encoding of path parameters, query fragments of list and create requests, and parsing of the server string: a server URL is given in its parts. net/url's resolution is modelled by the algorithm of RFC 3986.
- Quoting of names in details is plain quotation marks; error trees made by joining errors are chains here.
- Hijacking and other access to the server's writer through Unwrap, and the request-timeout middleware, which passes requests through.
- BuildPayload, checking of the registration URL, configuration, Kubernetes client, health store and uptime, logging format, embedded specification: settled by reading one branch.
- Service-type inference, network status, pagination and node-port allocation are described in the documents but not implemented.
