# Verified model of lib-service-discovery

A Dafny 4.11 model of the hard logic of the service-discovery library: the
watch-and-cache protocol behind every resolve, the life of registrations and their
heartbeats up to shutdown, the codec that carries two optional endpoints through a
string map, the rule that keeps internal endpoints away from external consumers, and the
arithmetic of backoff, TTLs and round-robin. `dafny verify dfyconfig.toml` checks it all.

## How it is built

* **Step systems** for what runs concurrently. A state holds every goroutine's position;
  one action is one atomic operation, or one section under a lock that touches only what
  that lock guards. Actions come in any order, so a statement about all runs is one about
  all interleavings. There are three:
  `WatchCache` (one name: catalogue, poller, 16-slot channel, the writer of the cache,
  any number of requests), `Resolvers` (all names: the table, the once, the contexts,
  Close) and `Lifecycle` (registrations, retry loops, Deregister, callers of Close over
  the heartbeat ledger). `Shutdown` runs the first two together, and `ManagerClose` all
  three under one Close.
* **Classes and loops** for what the source updates in place: `Types.ServiceRecord`,
  `Cache.ManagedResolver`, `DynamicResolvers.DynamicResolver`,
  `Heartbeats.ConsulRegistry`, `RoundRobin.Cursor`, and the loops of `ServiceMeta`,
  `watchLoop`, `RegisterAsync` and the two update loops. Each method is proved against a
  function of the old state, and that function is the one the step systems use or the
  lemmas speak of. The atomic writes of a store or a clear are proved to add up to the
  class's method (`WritesMakeTheOperation`), and the concurrent cache to refine the
  sequential one (`RequestsReadTheLastWord`).

The modules build on each other in this order: `Wrappers`, `Decimal`, `Types`, `Timing`,
`RoundRobin`, `Codec`, `ManagerRegister`, `SelfHeal`, `Cache`, `WatchIndex`, `WatchCache`
and its proofs (`WatchCacheEvents` against the index machine first), `ResolvePaths`, `EndToEnd`, `DynamicResolvers`, `Resolvers`,
`Shutdown`, `Heartbeats`, `Lifecycle`, `ManagerClose`.

## Where the code does less than one might expect

Each of these is a theorem with the exact condition, or a concrete run.

* An index advance with an empty list of instances emits no event, so the cache keeps
  serving the instance that left (`AgreementExactly`: agreement at rest if and only if
  the last batch was not empty). A transient failure on the last event is not retried
  either (`RetriesMatterExactly`: agreement if and only if it was not transient).
* The cache is not linearizable. Three disturbances are to blame, each on its own: the
  end of a clear between the two loads of a hit, and, after a seed that failed
  transiently, the end of a store between those of a miss, or a miss in the middle of a
  store; requests that meet none of them are linearizable in every run
  (`LinearizableExactly`). Freshness holds always.
* A request begun after an authoritative clear can surface the error of the long-past
  seed, although the comment at managed_resolver.go:92-97 says it never does: exactly
  when that seed failed transiently (`StaleErrorExactly`).
* An endpoint with an empty address does not survive the round trip
  (`RoundTripExactly`); an internal-only provider with an empty address even becomes
  visible through the external view (`InternalOnlyStaysInternalExactly`), against
  types.go:292-296. A service registered with no endpoint at all is read back with one
  (`EntriesAlwaysReachable`), built from the caller's own metadata if it has the keys
  (`CallerMetaMattersExactly`).
* `Resolve` knows no view: of an internal-only provider it returns the internal address
  (`ResolveIsExternalExactly`).
* A Deregister does not stop a registration of the same ID that is still on its way
  (`DeregisterHoldsExactly`).
* The refusal at consul.go:291-297 is not the last word: a registration already past it
  creates a context, and makes its first pass, also after Close has returned
  (`LateContextsExactly`), but never publishes it (`ShutdownLeavesNothing`).
* The comment at resolver.go:72-74 says a resolver made by WatchResolve leaves its scheme
  empty; its updates store the real one (`AddressOnlySchemeExactly`).
* Past 2^63 draws the round-robin index can be negative (`IndexInRangeExactly`).

## Assumptions on the environment

The registry is one view of the catalogue: a read, filtered or blocking, returns what
that view holds at some moment during the call, or fails. What a registry call replies to
a registration is an input of the model. Agreement further assumes that every change moves
the index to a positive value other than the one the poller holds. Contexts, mutexes, `sync.Once` and atomics behave as Go documents them.

## Model

| member | source | states |
|---|---|---|
| Decimal.PrintThenParse | consul.go:632-639 | for every 64-bit integer, parsing its decimal text gives it back |
| Decimal.ParsingLaws | consul.go:629-639 | digits with or without a sign are read as their number where it fits a machine integer, else as zero |
| Decimal.MalformedIsZero | consul.go:629-639 | text with anything else in it is read as zero |
| Types.ServiceRecord.MirrorFlat | types.go:232-245 | overwrites exactly the flat fields, with the root endpoint or zero |
| Types.ServiceRecord.NormalizeEndpoints | types.go:259-272 | takes the record to its normal form |
| Types.NormalFormLaws | types.go:219-272 | the normal form is idempotent, keeps advertised endpoints and everything else, has flat fields equal to the external endpoint, else the internal, else zero, and promotes the flat fields exactly when no endpoint but some flat field is set |
| Types.ViewLaws | types.go:286-305 | off the internal view a service answers with e if and only if e is its external endpoint; on it, if and only if e is its internal endpoint, or its external one and there is no internal; so off the internal view two services answer alike if and only if their external endpoints are equal |
| Codec.ServiceMeta | consul.go:662-707 | the map built in place has, key by key, the value the normalised endpoints give to each reserved key and the caller's value for every other key; with no endpoint it is the caller's map |
| Codec.BuildRegistration | consul.go:191-237 | the registration, field by field: identity, name and tags are the service's, the address is the external endpoint's, else the internal's, the metadata is as above, and there is a TTL check exactly when a TTL is set |
| Codec.WireFormat | consul.go:662-707 | which metadata keys are on the wire, by name: those of each endpoint the service has, with its values, and no other reserved key |
| Codec.EntriesAreRead | consul.go:575-627 | how any entry is read: an external address key gives the external endpoint, neither address key makes the entry's own address and port external, an internal key alone gives none; identity, tags and metadata are the entry's |
| Codec.IdentityIsReadBack | consul.go:201-206 | identity, name and tags read back are those published |
| Codec.RoundTripExactly | consul.go:575-707 | for a service with an endpoint, both endpoints and the flat mirror come back unchanged if and only if no internal endpoint has an empty address and an external one has an empty address only without an internal one |
| Codec.InternalOnlyStaysInternalExactly | consul.go:585-607 | an internal-only provider stays unavailable through every external view if and only if its internal address is non-empty; otherwise its port leaks as an external endpoint |
| Codec.InternalMattersOutsideExactly | consul.go:575-627 | the external endpoint read back is the one published whatever internal endpoint goes with it, if and only if its address is not empty |
| Codec.EntriesAlwaysReachable | consul.go:594-627 | any entry whatever is read as a service with at least one endpoint, mirrored in its flat fields |
| Codec.CallerMetaMattersExactly | consul.go:662-682 | the endpoints and flat fields read back are independent of the caller's metadata if and only if the service has an endpoint after normalisation |
| Codec.OtherKeysSurvive | consul.go:669-682 | every key that is not reserved reaches the reader with the caller's value, and no other does |
| Timing.BackoffIsCappedExponential | consul.go:711-726 | the backoff is min(100ms * 2^attempt, 30s) for every non-negative attempt, and 100ms below: the cut-off at nine changes nothing |
| Timing.TotalWaitExactly | consul.go:711-726 | k failures in a row wait 100ms * (2^k - 1) up to nine, then 51.1s + 30s * (k - 9) |
| Timing.RegisterAsyncLoop | manager.go:330-359 | the retry loop ends at the first turn that finds the base context cancelled, succeeds or is woken from its sleep; it has called Register once a turn, not at all in one that finds it cancelled, and has waited the partial sum of the backoffs plus what it slept of the last |
| Timing.IntervalIsHalf | consul.go:302-306 | the heartbeat interval is half the TTL rounded down, and never below one second |
| Timing.OneMissedTickSurvivesExactly | consul.go:299-306 | successful passes with at most one missed tick between them are never more than one TTL apart if and only if the TTL is at least two seconds |
| Timing.AcceptedTtlsAreSafe | config.go:305-323 | only unparseable text is refused; what is accepted is at least 15s, a fixed point of the normalisation, unchanged above the floor, and survives a missed tick |
| RoundRobin.Cursor.NextIndex | consul.go:642-648 | draws one ticket, wrapping at 2^64, unless there is at most one choice |
| RoundRobin.IndexInRangeExactly | consul.go:647 | a ticket gives a valid index if and only if it is below 2^63 or its distance to 2^64 is a multiple of n |
| RoundRobin.Fairness | consul.go:641-648 | over any k consecutive tickets below 2^63, each of n instances is chosen k/n times rounded down or up |
| ManagerRegister.DeriveEndpoints | manager.go:186-244 | both endpoints are those the configuration advertises, given the caller's port and scheme; the caller's address and endpoints are gone |
| ManagerRegister.ApplyHealthCheck | manager.go:278-312 | a TTL is sent as at least 15s, the caller's own if above; without one the probe URL is that of the internal endpoint, else of the external; only a bad TTL is refused, and nothing else changes |
| ManagerRegister.Register | manager.go:177-270 | exactly when nothing is sent and with which error, and what is sent: endpoints, normal form, tags, identity, metadata, a TTL of at least 15s or the probe URL of the internal endpoint if advertised, else of the external |
| ManagerRegister.HealthCheckURLs | manager.go:365-379 | a probe URL is scheme://host:port/path, with http and /health where nothing is said and one slash before the path |
| ManagerRegister.RegisterThenRead | manager.go:190-255 | after Register and a read of the catalogue a consumer's answer for any view is the one the configuration gives; the caller's address, endpoints and metadata play no part |
| Cache.ManagedResolver.Store | managed_resolver.go:69-73 | the value is current and seeded, and authEmpty is lowered |
| Cache.ManagedResolver.Clear | managed_resolver.go:87-90 | unseeded and authoritatively empty; nothing else changes |
| Cache.ManagedResolver.Read | managed_resolver.go:103-124 | the cached service, or the error by the precedence of an empty cache |
| Cache.ManagedResolver.Seed | managed_resolver.go:198-223 | a success is stored, a failure only recorded |
| Cache.ManagedResolver.RunManagedUpdates | managed_resolver.go:266-309 | the loop applies every outcome in order: store, clear on an authoritative empty, keep on a transient failure |
| Cache.WritesMakeTheOperation | managed_resolver.go:69-90 | the atomic writes of a store or clear, taken one by one, add up to the operation |
| Cache.FlagsMeanTheLastWord | managed_resolver.go:69-113 | for any seed and any updates, the three flags serve the last outcome that was not transient: its value, or its error; with only transient updates, the seed's |
| WatchIndex.WatchLoop | consul.go:472-544 | the polls emitted are, in order, exactly the successful ones above the index held, and the time spent is the sum of the backoffs |
| WatchIndex.LastAnswerDecides | consul.go:525-538 | the index held is that of the last successful poll, or zero if that was a rewind |
| WatchIndex.RewindReemits | consul.go:527-532 | the first successful poll after a rewind is emitted if and only if its index is positive |
| WatchIndex.EmittedIndicesIncrease | consul.go:527-540 | between rewinds the emitted indices strictly increase |
| WatchIndex.OutageWaits | consul.go:504-525 | an outage of k polls waits exactly the partial sum, whatever came before it |
| WatchIndex.AnswersCostNothing | consul.go:504-525 | an answered poll costs no wait, and the next failure waits the shortest |
| WatchCache.ReadsWhatIsOffered | consul.go:436-452 | a filtered read holds a service if and only if some instance of it is passing and carries the tag |
| WatchCacheEvents.RunsFollowTheIndexMachine | consul.go:525-543 | in every run of the protocol the poller holds the index of the machine, has begun a batch at exactly the polls that are emitted, with their entries, and between rewinds the indices of its batches strictly increase |
| WatchCacheEvents.EventsArriveInOrder | consul.go:546-558 | in every run no event is lost, doubled or reordered: received and buffered are what was sent, sent is all entries of the emitted polls unless the poller was stopped amid them, and each received event is re-resolved once |
| WatchCacheEvents.OnlyCancellationEnds | consul.go:480-525 | in every run the poller and the consumer end only once cancelled, however long the registry fails |
| WatchCacheReads.HitsAreGenuine | managed_resolver.go:115-124 | in every run a hit is the service of an instance that was passing and carried the tag in some catalogue of the run, no older than the newest value stored when the request began |
| WatchCacheReads.LaterHitsAreNeverOlder | managed_resolver.go:115-124 | in every run, a hit of a request begun after some moment is no older than the newest value stored by then, nor than any hit finished by then |
| WatchCacheReads.ReadsAreTruthful | managed_resolver.go:198-302 | in every run each read of the seed or the consumer that is no transient failure is true of some catalogue of the run: what it found was passing with the tag, or nothing was |
| WatchCacheReads.EveryReadIsPossible | consul.go:436-452 | a read may return any service now offered, none when there is none, or any transient error |
| WatchCacheReads.QuietReadsObserve | managed_resolver.go:103-124 | a request that runs while nobody writes gets exactly the sequential reading |
| WatchCacheLinear.UndisturbedRequestsAreLinearizable | managed_resolver.go:69-124 | in every run the requests that no clear or store overtakes in one of three named ways are linearizable together: one order of whole updates and reads, in keeping with real time, gives all their answers |
| WatchCacheRaces.LinearizableExactly | managed_resolver.go:69-124 | for any outcome of the seed: requests disturbed in no other ways than the given are linearizable in every run if and only if none is given, or the seed cannot have it, or it is no transient failure and no clear may overtake a hit |
| WatchCacheRaces.HitsAreNotLinearizable | managed_resolver.go:116-124 | for any possible outcome of the seed, a run with a clear between the two loads of a hit: it returns a value whose store is unfinished, and a later request finds nothing; no order explains both |
| WatchCacheRaces.MissesAreNotLinearizable | managed_resolver.go:69-113 | for any transient seed error, a run with a store between the loads of a miss, and one with the miss amid the store, whose answer no order explains |
| WatchCacheRaces.ErrorsAreTheSeeds | managed_resolver.go:92-113 | in every run an error read is ErrNoHealthyInstances or the seed's own |
| WatchCacheRaces.StaleErrorExactly | managed_resolver.go:92-113 | a request begun after an authoritative clear can surface another error than ErrNoHealthyInstances if and only if the seed failed transiently |
| WatchCacheRefines.RequestsReadTheLastWord | managed_resolver.go:266-309 | in every run of the protocol, a request undisturbed by a write reads the last outcome that was not transient, of the seed and re-resolves so far |
| WatchCacheAgreement.AgreementAtRest | managed_resolver.go:266-309 | in every honest run, a cache at rest after a non-empty batch serves an instance of the current catalogue that is passing and carries the tag, or is empty and no instance is |
| WatchCacheAgreement.AgreementExactly | consul.go:538-558 | all runs that come to rest with a batch agree with the catalogue if and only if that batch was not empty |
| WatchCacheAgreement.TransientFailureIsNotRetried | managed_resolver.go:293-299 | for any transient error of the last re-resolve, a quiescent run whose cache serves an instance no longer passing |
| WatchCacheAgreement.RetriesMatterExactly | managed_resolver.go:277-302 | all quiescent runs whose last batch is not empty and whose last re-resolve had the outcome o agree with the catalogue if and only if o is not transient |
| WatchCacheCancel.CancelledRunsAreBounded | consul.go:480-558 | in every run, after cancellation, at most one more poll is answered, at most the rest of one batch is sent, at most what is buffered and sent is received, and all steps of both goroutines are bounded |
| WatchCacheCancel.CancelledIsNeverStuck | consul.go:548-558 | after cancellation a goroutine that has not ended can always step, also a sender facing a full channel; no step is left exactly when both have ended |
| WatchCacheCancel.NeverBothWait | consul.go:454-558 | in every run an opened watch's poller waits only with an event in hand and sixteen in the channel, its consumer only on an open empty channel, so one of them can always go on |
| WatchCacheCancel.CancelledDoesNotBackOff | consul.go:504-518 | after cancellation the poller neither falls asleep again nor starts another poll |
| WatchCacheCancel.ClosedChannelOnlyDrains | consul.go:462-473 | at every moment of every run the channel holds at most 16 events and is closed exactly when the poller has stopped; it is never sent to afterwards, and only drains |
| EndToEnd.AnswersAtRestAreDirectAnswers | manager.go:544-635 | at rest after a non-empty batch, the cached answer for any view and fallback is one a direct registry read could give now |
| EndToEnd.RegisterThenOffered | manager.go:177-270 | a provider registered through a Manager and passing is found by a read filtered by a tag if and only if the tag is empty, the caller's, or its workload's |
| EndToEnd.PublishedInternalsDoNotInterfere | consul.go:575-707 | off the internal view, providers with an external address may publish any internal endpoints: what a resolver exposes after reading them back is the same |
| ResolvePaths.FastPathRefinesDirect | resolver.go:257-313 | for any seed and updates the managed path answers, address or error, as the direct path would on the last outcome that was not transient; with no update, on the seed's |
| ResolvePaths.CachedAnswersHideTheInternal | manager.go:563-635 | off the internal view two caches whose services have the same external endpoint give the same answer, error or URL, whatever else they hold |
| ResolvePaths.AnswersAreTheViews | manager.go:544-635 | a cached service with an endpoint for the view (and a scheme, for a URL) is answered with its address or URL whatever the fallback; any other question gets the fallback, or exactly the error of the case |
| ResolvePaths.DirectAnswersAreTheViews | resolver.go:249-313 | a service found is answered with the address of its endpoint for the view; any other question gets the fallback, or exactly the error |
| ResolvePaths.ResolveAnswers | manager.go:435-461 | Resolve differs from the above only on a hit, where it answers with the flat fields |
| ResolvePaths.ResolveIsExternalExactly | manager.go:435-461 | of a mirrored cached service Resolve answers as the external view if and only if there is an external endpoint (or the fallback is the same address); else as the internal view |
| DynamicResolvers.DynamicResolver.RunResolverUpdates | resolver.go:422-481 | the loop leaves the snapshot the outcomes call for, and that is what the accessors for address and scheme return |
| DynamicResolvers.WatchResolve | resolver.go:113-172 | fails exactly when disabled without a fallback, or when enabled and the watch does not open, with that error; else seeds with the direct answer or the fallback, and an empty scheme |
| DynamicResolvers.WatchResolveService | resolver.go:183-247 | fails exactly when disabled without a fallback, or when enabled and the watch does not open, with that error; else seeds with the endpoint of the view or the fallback, address and scheme together |
| DynamicResolvers.StartResolverWatch | resolver.go:386-416 | nothing to do when disabled; else the resolver, or the error of the watch and no resolver |
| DynamicResolvers.OneMoreOutcome | resolver.go:422-481 | for every view, a service with an endpoint for it replaces the exposed pair by that endpoint's address and scheme, a failure by the fallback and its scheme if there is one, and all else leaves it |
| DynamicResolvers.SeedsAreTheViews | resolver.go:113-247 | for every view the seeds store the endpoint's address, WatchResolveService its scheme too, or else the fallback |
| DynamicResolvers.ExposedIsTheLastDecision | resolver.go:422-481 | after any events, what is exposed is the address and scheme of the last outcome that decides, as one pair, or the seed |
| DynamicResolvers.OnlyExternalsAreExposed | resolver.go:433-474 | off the internal view, only the fallback or the address of the external endpoint of a service the seed or an update resolved is ever exposed |
| DynamicResolvers.InternalEndpointsDoNotInterfere | resolver.go:433-474 | off the internal view, two runs whose answers agree on the external endpoints, whatever else they hold, expose the same at every moment |
| DynamicResolvers.AddressOnlySchemeExactly | resolver.go:160-169 | a WatchResolve resolver keeps an empty scheme throughout if and only if no update resolves an endpoint with one |
| ResolversProofs.StepKeepsInv | managed_resolver.go:144-258 | every step of every request and of Close keeps the invariants of table, contexts, onces and ledgers |
| ResolversProofs.OncePerName | managed_resolver.go:144-226 | in every run no name enters the table twice, and no resolver is seeded or watched twice |
| ResolversProofs.RequestsGetSeededResolvers | managed_resolver.go:151-188 | a request holds a resolver of its own name whose seed is over, and an unregistered one only once Close has begun |
| ResolversProofs.OneWriterPerResolver | managed_resolver.go:184-256 | at most one request runs a resolver's seed, and its consumer does not exist before the seed is over |
| ResolversProofs.FailedWatchesAreCancelled | managed_resolver.go:237-251 | in every run a resolver whose once has returned has an open watch or a cancelled context |
| ResolversProofs.WatchesOpenUnlessTheyFail | managed_resolver.go:198-256 | in every run in which no watch fails to open, each resolver whose once has returned has its watch |
| ResolversProofs.WatchesLiveUntilClose | managed_resolver.go:228-251 | in every run, until Close cancels the base context the context of an opened watch is not cancelled, whatever becomes of other names, and no two resolvers share one |
| ResolversProofs.CloseHasTheTable | manager.go:706-724 | while Close holds the lock no request looks up or inserts, and the table shrinks only by its drain |
| ResolversProofs.NobodyIsStuck | managed_resolver.go:144-226 | in every run a request can step, or waits for a lock or a once whose holder can; none takes more than nine steps |
| ResolversProofs.NoWatchSurvivesClose | manager.go:706-727 | in every run and continuation, once Close has cancelled the base context every watch context ever created is cancelled, later ones too, and nothing is added to the table |
| ResolversProofs.RequestsAfterCloseGetNothing | managed_resolver.go:159-170 | a request begun after Close never reaches a registered resolver, so it starts no seed and no watch |
| Shutdown.WholeRefinesHalves | managed_resolver.go:198-258 | table and caches run together: every run of the whole is a run of the table's protocol and, for each resolver, of the watch-and-cache protocol |
| Shutdown.HeldResolversAreServed | managed_resolver.go:184-258 | in every run of the whole a request that holds a resolver finds its seed over, and its watch open and uncancelled until Close, or failed and cancelled; a poller was started exactly for the opened watches |
| Shutdown.RequestsReadTheirOwnCache | managed_resolver.go:144-189 | in every run of the whole a cache is read only by requests that hold its resolver, which is of their own name |
| Shutdown.TheTableIsNotHeldUp | managed_resolver.go:184-226 | in every run of the whole a step of the table waits for a cache only inside a seed, and then that seed can go on |
| Shutdown.EveryNameAgreesAtRest | managed_resolver.go:198-309 | in every honest run of the whole, the cache of each name that is at rest after a non-empty batch agrees with its catalogue |
| Shutdown.CloseStopsEveryWatch | manager.go:706-727 | in every run and continuation, once Close has cancelled the base context the goroutines of every resolver, one opened later too, take at most the steps left to them and one more batch, answer at most one more poll, and can stop only by ending |
| ManagerClose.CloseLeavesNothing | manager.go:690-740 | after a caller's Close returned, in every continuation: no live heartbeat, an empty table, bounded steps of every watch, bounded late contexts; once settled every opened watch has ended and every heartbeat context is cancelled |
| Heartbeats.ConsulRegistry.Begin | consul.go:308 | past the check, makes a fresh context that is neither published nor cancelled, also when Close has run since |
| Heartbeats.ConsulRegistry.Publish | consul.go:347-364 | replaces the ID's heartbeat, cancelling the previous; refused exactly when closed; the ledger invariant is kept |
| Heartbeats.ConsulRegistry.Deregister | consul.go:390-396 | afterwards no heartbeat of the ID is live and every other is as before |
| Heartbeats.ConsulRegistry.Close | consul.go:415-434 | the loop, in any order, cancels every live heartbeat, leaves all other contexts alone and empties the map |
| Heartbeats.PublishedKeeps | consul.go:358-363 | exactly which heartbeats are live after publishing |
| LifecycleProofs.StepKeepsInv | consul.go:288-434 | every step keeps the ledger exact, every context accounted for, every retry loop within its bound, and the teardown in order |
| LifecycleProofs.LiveHeartbeatsAreTheMap | consul.go:345-364 | in every run the live heartbeats are exactly the map's values, at most one per service ID, and none once closed |
| LifecycleProofs.AtMostOneLateRegister | manager.go:330-359 | in every run a retry loop starts at most one Register after the base context is cancelled |
| LifecycleProofs.RetriesUntilDone | manager.go:329-360 | in every run a retry loop has stopped only if its registration succeeded, Close cancelled it, or its sleep was cut short |
| LifecycleProofs.LateLoopsNeverCall | manager.go:329-340 | in every run a retry loop begun after Close has cancelled the base context never calls Register |
| LifecycleProofs.NobodyIsStuck | manager.go:329-360 | in every run each registration that has not ended can step, a sleeping loop can end at once after Close, and each caller of Close, or the one that runs the teardown, can step |
| LifecycleProofs.CloseRunsOnce | manager.go:690-740 | in every run no caller of Close returns before the base context is cancelled and the registry closed; given a once as documented, the closer has then run exactly once and all callers get the error it returned |
| LifecycleProofs.ShutdownLeavesNothing | consul.go:288-364 | after Close returned, in every continuation, no heartbeat is live; a context created after it is one of a registration that was past the check of closed, at most one each, and is never published; once nothing is in flight every context is cancelled |
| LifecycleProofs.LateContextsExactly | consul.go:291-308 | after Close returned a context can still be created if and only if a registration was between the check of closed and the creation |
| LifecycleProofs.CloseBetweenCheckAndCreation | consul.go:291-308 | a run in which Close begins and returns between the two |
| LifecycleProofs.DeregisterHoldsExactly | consul.go:385-396 | after Deregister the ID can come back without a new registration if and only if the registry is open and one of that ID is on its way to a heartbeat: in startHeartbeat, or before it with a TTL check |
| SelfHeal.Pass | consul.go:310-343 | a pass whose calls get through leaves the check passing under its registration, or under the service's if it was lost; no other check is touched and none made worse |

## Left out

- ManagerRegister.RegisterThenRead: the caller's map and slices are values here, so that they are never written through an alias is not a statement of the model.
- SelfHeal.Pass: the reply of each call is an input; matching the text of an unknown-check error is not part of this model.
- LifecycleProofs.DeregisterHoldsExactly: speaks of heartbeats, not of the agent's catalogue; a pass in flight during a Deregister could re-register the service there.
- WatchCache: the length of a backoff, which is that of `WatchIndex`; here a sleep is a step.
- Resolvers: the table is a value of the step system, not a heap object; that a request and the table share one resolver object is its number.
- WatchCache: reads in stale mode from two followers that lag differently; the model has one view of the catalogue.
- A nil map and an empty map of metadata are the same value; nil receivers and nil registries are not modelled.
- Durations are integers and TTL text is abstract: parsing and printing of durations is assumed to be inverse.
- ResolveService: hands out the whole cached service, or the fallback; its branches are those of `Resolve`.
- HTTP transport, TLS, the SDK client, environment parsing, URL splitting, logging, panic recovery and the event's type.
- Registries other than Consul's without a Close of their own: the teardown then has one step less.
- The ticking goroutine of a heartbeat: it runs while its context is live, and its passes do not change the ledger.
