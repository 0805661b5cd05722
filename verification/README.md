# CargoTrack: a verified model of its decision cores

CargoTrack is a logistics platform. This project models, in Dafny 4.11, the parts of it whose
behaviour is decided by loops, counters, state machines and protocols, and proves what they
promise over every input and every run. `dafny verify dfyconfig.toml` checks it.

| module | what it models |
|---|---|
| `Geofences` | ray-casting point-in-polygon, with the textbook orientation test as its reference |
| `TokenRefresh` | the API client's 401 interceptor, as steps of a JavaScript event loop |
| `EventStreams` | the Redis Streams bus: publishers, several crashing workers, reclaims, dead letters |
| `ColdChain` | temperature excursions, their escalation and resolution, and the SLA record |
| `Demurrage` | the day-by-day tariff loop and its closed form |
| `Abac` | the attribute-based policy engine and its built-in policies |
| `Lockout` | the failed-login counter and the login view that drives it |
| `Moneys`, `RateMatching` | half-up rounding of money, weights and quotes |
| `Polylines` | arc-length interpolation along a route |
| `OfflineQueue` | the mobile client's offline mutation queue and its sync |

`Common` and `Text` hold shared datatypes and the ASCII string operations the services rely on.

Source that updates fields in place is a class whose methods are proved against functions on
values; protocols are state machines with a `Step` per stretch between two suspension points,
and the main results are about `Run`, the fold of `Step` over a list of events of which only one
thing is assumed: each was possible (`Enabled`) when it happened. Clocks, servers, storage and
handlers are parameters: they appear as fields of the events.

## Where the code and its documentation differ

The model follows the code; each difference is a lemma.

- Dead letters. The consumer's comment says that messages failing more than `MAX_RETRIES` times
  move to the dead-letter stream. The retry count is written to the worker's own copy of the
  entry only, so a redelivered entry reads zero again. `DeadLetteredIffStoredCount` gives the
  exact condition; `DeadLetterStreamStaysEmpty` shows it is never met by entries that `publish`
  wrote; `RetriesAreUnbounded` builds, for every number of passes, a run in which one entry fails
  that often and is still pending.
- Stored extremes. `peak_temp_c or -100` takes a stored zero for a missing value.
  `RecordedExtremes` and `ResolvedExtremes` say exactly when the stored peak and minimum are the
  true ones;
  `ZeroIsForgotten` has two short runs where they are not.
- Escalation. A new excursion is BREACH and its first check may lower it to WARNING:
  `FirstCheckMayLower`. Only breaching readings are checks, so an excursion of up to two
  tolerances may be closed as WARNING: `TwoTolerancesClosedAsWarning`.
- Severity and the clock. Resolution raises a severity but never lowers one, so a wall clock that
  steps back after a late check leaves a short excursion graded as a long one:
  `SeverityNeedsTheClock`. `SeverityMatchesLengthExactlyWhen` gives the exact condition, and
  `ResolvedSeverity` the severity on any clock.
- Offline queue. A failed storage read counts as an empty queue, a sync overwrites what was
  enqueued while it ran, and of two overlapping enqueues one is overwritten.
  `RunConservesExactlyWhen` gives the exact condition; `ConservedExactlyWhenRead`,
  `ConservedExactlyOutsideSync`, `EnqueuedDuringSyncIsLost` and `OverlappingEnqueuesLoseOne` are
  its main cases.
- Demurrage past day 99 charges nothing: `ConstantPastCap`, `SuperadditiveExactlyWhen`.
- Self access compares the user id with the id of the resource whatever its type, and with the
  default policies it is the only way in for a non-administrator: `DefaultEngineGrants`.

## Model

| member | source | states |
|---|---|---|
| Geofences.Geofence.Contains | libs/rust-core/src/lib.rs:73-94 | the vertex loop answers the parity of crossed edges of the closed polygon, false below three vertices |
| Geofences.CrossesIsOrientation | libs/rust-core/src/lib.rs:83-88 | the quotient test of an edge holds exactly when the edge straddles the meridian, half-open to the east, and the point's orientation sign says it is south of it |
| Geofences.CrossesSymmetric | libs/rust-core/src/lib.rs:83-88 | an edge is crossed in one direction exactly when it is crossed in the other |
| Geofences.InsideIsCycleParity | libs/rust-core/src/lib.rs:75-77 | the early exit for fewer than three vertices never changes the parity answer |
| Geofences.CutAlongDiagonal | libs/rust-core/src/lib.rs:78-94 | for any polygon, any two vertices and any point: inside the whole exactly when inside one and only one of the two parts |
| Geofences.InsideIsFanParity | libs/rust-core/src/lib.rs:78-94 | containment is the parity of the fan triangles that contain the point |
| Geofences.TriangleAgreesWithOrientation | libs/rust-core/src/lib.rs:80-93 | on every triangle, in either winding or collinear, and every point off its border, the loop agrees with the three orientation signs |
| Geofences.InsideCountsTriangles | libs/rust-core/src/lib.rs:73-94 | for every polygon, self-crossing ones included, and every point off the borders of its fan triangles, the loop answers whether an odd number of them strictly enclose the point |
| Geofences.RotationKeepsInside | libs/rust-core/src/lib.rs:78-93 | the choice of first vertex does not matter |
| Geofences.ReversalKeepsInside | libs/rust-core/src/lib.rs:78-93 | the winding direction does not matter |
| Geofences.InsertingCollinearVertex | libs/rust-core/src/lib.rs:78-93 | a vertex on the line through any edge, the closing edge included, can be inserted into it without changing any answer |
| Geofences.StraddlesAreEven | libs/rust-core/src/lib.rs:84 | along a path the number of meridian straddles is odd exactly when its ends lie on different sides, so even on a cycle |
| Geofences.InsideImpliesBoundingBox | libs/rust-core/src/lib.rs:78-93 | a contained point has a vertex strictly east, one not east, one strictly north and one not north of it |
| TokenRefresh.ApiClient.constructor | libs/shared-types/api/client.ts:56-60 | a fresh client is the initial state and satisfies the invariant |
| TokenRefresh.ApiClient.Send | libs/shared-types/api/client.ts:48-54 | a first send is one step of the machine |
| TokenRefresh.ApiClient.DrainQueue | libs/shared-types/api/client.ts:62-65 | the loop resends every waiter in queue order, counts each send and empties the queue |
| TokenRefresh.ApiClient.RejectQueue | libs/shared-types/api/client.ts:67-70 | the loop rejects every waiter and empties the queue |
| TokenRefresh.ApiClient.Intercept | libs/shared-types/api/client.ts:74-106 | the interceptor up to its first await is exactly one step and keeps the invariant |
| TokenRefresh.ApiClient.Resume | libs/shared-types/api/client.ts:108-131 | the leader's continuation, success or any thrown error, is exactly one step and keeps the invariant |
| TokenRefresh.ResponseOutcome | libs/shared-types/api/client.ts:77-106 | a response settles its request unless it is a refreshable 401, which leads a refresh, marked, or joins the end of the queue; it touches no other request, and calls the unauthorized callback exactly when a 401 settles |
| TokenRefresh.RefreshOkResendsEveryWaiter | libs/shared-types/api/client.ts:120-124 | after a successful refresh the leader and every waiter, and nobody else, are in flight with the new token, one send each, none settled |
| TokenRefresh.RefreshFailRejectsEveryWaiter | libs/shared-types/api/client.ts:125-131 | a failed refresh rejects the leader and every waiter, each settled once, and calls the unauthorized callback once however many waited |
| TokenRefresh.StepKeepsInv | libs/shared-types/api/client.ts:56-131 | every step that can happen keeps: at most one refresh in flight, led by a marked request; only then a queue, without duplicates, holding exactly the waiting, unmarked requests |
| TokenRefresh.RunKeepsInv | libs/shared-types/api/client.ts:56-131 | that holds wherever any sequence of possible events leads; a run assumes nothing else |
| TokenRefresh.StepDoes | libs/shared-types/api/client.ts:48-131 | in every step the sends are exactly the requests that go into flight; a first send and a successful refresh never call the unauthorized callback, a failed refresh calls it once |
| TokenRefresh.CallbackCount | libs/shared-types/api/client.ts:77-131 | over every run the callback is called exactly once per failed refresh and per 401 that settles its request, and the sends are exactly the take-offs of requests |
| TokenRefresh.StepSpendsBudget | libs/shared-types/api/client.ts:77-131 | every step lowers a termination measure and never raises the send budget, although waiters are not marked |
| TokenRefresh.SendsAreBounded | libs/shared-types/api/client.ts:77-131 | for n requests and every sequence of possible events, so any server: at most n refreshes, at most n + n(n+1)/2 sends, and runs of bounded length |
| TokenRefresh.SendBoundIsReached | libs/shared-types/api/client.ts:90-131 | the send bound is exact: for every n some run reaches it |
| TokenRefresh.SettledIsFinal | libs/shared-types/api/client.ts:74-131 | a settled request is the same after any continuation |
| TokenRefresh.NothingIsStranded | libs/shared-types/api/client.ts:56-131 | wherever a run has stopped because nothing more can happen, all n requests have settled exactly once and no refresh or queue is left |
| EventStreams.Bus.Publish | services/api/cargotrack/streams.py:61-80 | an answered call appends one entry without a retry count and returns its id; one that raised returns none, and the entry is there exactly if the call had reached Redis |
| EventStreams.Bus.DispatchNext | services/api/cargotrack/streams.py:163-187 | reading the count, running the handler and branching is one step; the raised count stays in the worker's copy |
| EventStreams.Bus.AddToDeadLetters | services/api/cargotrack/streams.py:170-173 | copying to the dead-letter stream is one step of its own, before the acknowledgement |
| EventStreams.Bus.Acknowledge | services/api/cargotrack/streams.py:168-174 | acknowledging moves a pending entry to acknowledged and leaves any other alone |
| EventStreams.Bus.DispatchAll | services/api/cargotrack/streams.py:161-187 | the dispatch loop makes exactly the calls of its trace, in order, and empties the batch |
| EventStreams.StepKeepsInv | services/api/cargotrack/streams.py:116-194 | every possible step keeps the partition of entries, the reason for each acknowledgement, and the exactness of every message in a worker's hands |
| EventStreams.RunKeepsInv | services/api/cargotrack/streams.py:116-194 | so does every sequence of possible events: any interleaving of workers, crashes, errors, reclaims and lost replies |
| EventStreams.AtLeastOnce | services/api/cargotrack/streams.py:120-122 | in every reachable state an entry is exactly one of undelivered, pending, acknowledged; an acknowledged one was accepted, has no handler, or has a dead-letter copy |
| EventStreams.AcceptedOnlyByHandlers | services/api/cargotrack/streams.py:93-113 | an entry becomes accepted exactly when a registered handler run on it succeeds |
| EventStreams.RunExtends | services/api/cargotrack/streams.py:116-194 | over any run, crashes included, entries, deliveries, acknowledgements and dead letters are only added to |
| EventStreams.ReadIsFresh | services/api/cargotrack/streams.py:142-147 | reading with '>' returns only entries that were neither pending nor acknowledged, now pending for the reader |
| EventStreams.ReaderGetsWhatIsPending | services/api/cargotrack/streams.py:142-147 | a reader is handed exactly the entries its read made pending, in every domain, once each, in log order and with the stored fields |
| EventStreams.ReadMovesTheMark | services/api/cargotrack/streams.py:142-147 | in each stream the read moves the mark by the batch size or to the end, makes the entries pending for the reader and changes nothing else |
| EventStreams.ClaimHandsOver | services/api/cargotrack/streams.py:149-159 | a reclaim of any pending entries up to the batch size hands over exactly those, in the order listed, pending now for the claimer; a lost reply hands over nothing; the next domain follows |
| EventStreams.AnythingMayHappen | services/api/cargotrack/streams.py:140-194 | in every state entries may be published, workers may start, and any worker may lose Redis or die |
| EventStreams.OthersAreLeftAlone | services/api/cargotrack/streams.py:140-194 | no step touches another worker, and a crash, a Redis error or the end of a pass touches no stream |
| EventStreams.MessageFate | services/api/cargotrack/streams.py:163-187 | one turn of the dispatch loop acknowledges the message iff its handler accepts it, none is registered, or the stored count is at least three, then with a copy in the dead letters; otherwise it stays pending; nothing else changes |
| EventStreams.DeadLetteredIffStoredCount | services/api/cargotrack/streams.py:164-187 | a handled message goes to the dead letters exactly when its handler exists and failed and the count stored in the log is at least three |
| EventStreams.DeadLetterStreamStaysEmpty | services/api/cargotrack/streams.py:68-75 | no run over published entries ever writes a dead letter |
| EventStreams.FailingEntryIsNeverAcked | services/api/cargotrack/streams.py:179-187 | a published entry is acknowledged only if its handler accepted it or none exists |
| EventStreams.RetriesAreUnbounded | services/api/cargotrack/streams.py:206-208 | for every number of failing passes there is a run after which the entry is pending and the dead-letter streams are empty |
| ColdChain.TemperatureExcursion.TryAutoResolve | services/api/coldchain/models.py:115-133 | resolves exactly on an in-range reading after the tolerance, recording time, whole minutes and severity |
| ColdChain.TemperatureExcursion.CheckEscalation | services/api/coldchain/models.py:135-151 | regrades in place and reports exactly whether the grade changed |
| ColdChain.ColdChainSla.CheckBreach | services/api/coldchain/models.py:180-187 | marks and dates the first breach only, and reports exactly that |
| ColdChain.ColdChainShipment.DetectExcursion | services/api/coldchain/views.py:186-230 | one reading changes the stored excursions and SLA as specified, and keeps at most one open excursion |
| ColdChain.ColdChainShipment.DetectExcursionsBulk | services/api/coldchain/views.py:232-234 | the bulk loop is the run of its readings, in order |
| ColdChain.ColdChainShipment.AcknowledgeExcursion | services/api/coldchain/views.py:47-62 | acknowledges an open excursion of the shipment, and reports not found exactly for a missing or resolved one |
| ColdChain.OpenedExactlyWhen | services/api/coldchain/views.py:194-222 | with none open, a reading opens an excursion iff it is below the minimum or above the maximum, on that side, at its own time, counted by the SLA with its exact breach; otherwise nothing changes |
| ColdChain.OpenUnderReading | services/api/coldchain/views.py:199-230 | an open one is resolved iff the reading is within the limits and examined a tolerance after the start, and regraded iff it is outside them; every other field and excursion stays |
| ColdChain.AcknowledgementIsRecorded | services/api/coldchain/views.py:47-62 | recorded with user, time and notes on an open excursion, ignored on any other, changing nothing else |
| ColdChain.AtMostOneActive | services/api/coldchain/views.py:199-225 | no run of readings and acknowledgements leaves two unresolved excursions |
| ColdChain.ResolvedNeverChanges | services/api/coldchain/views.py:199-230 | over any run excursions are only appended, resolved ones are frozen, and open ones keep start and side |
| ColdChain.ResolvedExactlyWhen | services/api/coldchain/models.py:115-133 | an open excursion is resolved by an event exactly when that is an in-range reading at least the tolerance after the start |
| ColdChain.EveryResolvedRowHasHistory | services/api/coldchain/views.py:199-230 | in a run that begins without excursions every resolved one was opened by one event, stayed open up to another, and was resolved by that one |
| ColdChain.OpenSeverity | services/api/coldchain/models.py:135-147 | on any clock the severity of an open excursion is that of its last check alone, or the one it had when there was none |
| ColdChain.ResolvedSeverity | services/api/coldchain/models.py:115-133 | on any clock, what stays on record whatever happens later: start, end, whole minutes, and a severity given by the length above two tolerances and by the last check up to two, BREACH without one |
| ColdChain.SeverityOverRuns | services/api/coldchain/models.py:115-147 | the same for every resolved excursion of every run that begins without any |
| ColdChain.SeverityMatchesLengthExactlyWhen | services/api/coldchain/models.py:126-151 | the severity is that of the length iff that is above two tolerances or no check came later than two tolerances after the start; it is WARNING iff the length is at most two tolerances and the last check came within one |
| ColdChain.ClockAheadSuffices | services/api/coldchain/models.py:126-131 | a clock that has not stepped back by the time of the resolution is enough for that |
| ColdChain.FinalSeverity | services/api/coldchain/models.py:126-151 | over every run on a non-decreasing clock all resolved excursions are SPOILAGE_ALERT iff they lasted over four tolerances, CRITICAL iff over two and at most four, with their length in whole minutes |
| ColdChain.SeverityNeedsTheClock | services/api/coldchain/models.py:127-131 | a clock stepping back resolves a 40 minute excursion as CRITICAL at tolerance 30 |
| ColdChain.TwoTolerancesClosedAsWarning | services/api/coldchain/models.py:126-147 | on an honest clock 60 minutes at tolerance 30 are closed as WARNING, the last check having come after 10 |
| ColdChain.SeverityCountsThresholds | services/api/coldchain/models.py:135-147 | the grade counts how many of one, two and four tolerances have passed, so later checks never lower it |
| ColdChain.FirstCheckMayLower | services/api/coldchain/views.py:202-216 | an excursion opens at BREACH on its side of the range, and the next breaching reading lowers it to WARNING exactly within the tolerance |
| ColdChain.ExtremesAreFolds | services/api/coldchain/views.py:202-205 | while open, the stored extremes depend on the breaching readings only |
| ColdChain.RecordedExtremes | services/api/coldchain/views.py:203-204 | the stored peak of an open excursion is the true maximum iff that is not zero or the last breaching reading is zero; likewise the minimum |
| ColdChain.ResolvedExtremes | services/api/coldchain/views.py:203-204 | the same for what stays on record of a resolved excursion, whatever happens later |
| ColdChain.ZeroIsForgotten | services/api/coldchain/views.py:203-204 | readings of 0 and then -2 degrees on a frozen load leave -2 as the stored peak, and 0 and then 2 on a warm one leave 2 as the minimum |
| ColdChain.SlaOverRuns | services/api/coldchain/views.py:217-222 | with excursion minutes within their limit, the SLA counts the excursions ever opened, is breached iff they exceed the limit, and its breach time never changes |
| ColdChain.BreachedByTheExcessExcursion | services/api/coldchain/models.py:180-187 | the breach is declared by the very reading that opens one excursion too many, with its clock |
| Demurrage.CalculateDemurrage | services/api/demurrage/calculator.py:99-198 | the day loop's total is the closed form, its running totals are the closed form's prefixes, its daily rates their differences, for all dates, overrides and container types |
| Demurrage.FindDailyRate | services/api/demurrage/calculator.py:164-170 | the tier search returns the first covering tier's rate, or nothing |
| Demurrage.ChargeGrowsByDailyRate | services/api/demurrage/calculator.py:163-172 | on any table of contiguous tiers one more day adds exactly that day's rate to the sum over tiers of rate times days |
| Demurrage.TariffsAreSound | services/api/demurrage/calculator.py:52-79 | every port's table covers days 1 to 99 once each, its rates rise, and dry 40ft days cost twice dry 20ft days |
| Demurrage.DailyRatesInDollars | services/api/demurrage/calculator.py:52-79 | the tables as daily rates in dollars, days 1 to 99, for each port and container, a reefer day costing most |
| Demurrage.FreeDaysByPurpose | services/api/demurrage/calculator.py:82-96 | free days per port and purpose, the same for every size of container and any case of letters, unknown ports as Mombasa |
| Demurrage.RateByType | services/api/demurrage/calculator.py:148-158 | the reefer rate iff REEFER occurs in the type, whatever the size, else the 40ft rate iff 40FT does |
| Demurrage.Superadditive | services/api/demurrage/calculator.py:163-172 | up to day 99 keeping a container a + b days costs at least two keepings of a and b days |
| Demurrage.ConstantPastCap | services/api/demurrage/calculator.py:168 | past day 99 the charge stands still |
| Demurrage.SuperadditiveExactlyWhen | services/api/demurrage/calculator.py:163-172 | from 99 days in all on it holds exactly when the shorter keeping costs no more than the days the longer one has left before the cap; in the last tier, when the days past the cap cost no more than the discount of the earlier tiers |
| Demurrage.NotSuperadditivePastCap | services/api/demurrage/calculator.py:168 | extending a keeping beyond day 99 always costs less than a separate keeping |
| Demurrage.TotalIsMonotone | services/api/demurrage/calculator.py:122-172 | returning later never costs less, arriving later never costs more |
| Demurrage.DryFortyCostsDouble | services/api/demurrage/calculator.py:82-178 | the dry 40ft total is twice the dry 20ft total at every port, shipment type, date pair and override |
| Abac.ABACPolicyEngine.constructor | services/api/domains/_abac.py:246-249 | the engine starts from the stable sort of its policies |
| Abac.ABACPolicyEngine.Register | services/api/domains/_abac.py:251-254 | append and sort is one insertion behind all policies of no greater priority |
| Abac.ABACPolicyEngine.Unregister | services/api/domains/_abac.py:256-260 | removes exactly the policies of that name, keeps the order, and reports whether there was one |
| Abac.ABACPolicyEngine.Decide | services/api/domains/_abac.py:262-323 | the evaluation loop, with its accumulated obligations and last ALLOW, returns the specified decision |
| Abac.StableSortSorts | services/api/domains/_abac.py:247-254 | sorted by priority, a permutation, and equal priorities in their old order |
| Abac.AllowedExactlyWhen | services/api/domains/_abac.py:268-275 | granted exactly when the first deciding policy is a bypass, or none decides and some ALLOW matches |
| Abac.ObligationsMeaning | services/api/domains/_abac.py:276-323 | the obligations are those of the matching policies up to and including the deciding one |
| Abac.NamedPolicyMatches | services/api/domains/_abac.py:286-323 | a decision names a matching policy with the decision's effect, or none exactly when nothing matched |
| Abac.OwnDecision | services/api/domains/_abac.py:205-227 | a policy decides exactly when its condition holds, with its own effect, description, name and obligations |
| Abac.DecisionMeaning | services/api/domains/_abac.py:276-323 | a deciding policy gives its effect, description and name; without one the last matching ALLOW is named, or the request refused for want of one |
| Abac.RaisingIsNoMatch | services/api/domains/_abac.py:212-216 | a policy whose condition raises changes no decision |
| Abac.DenyOverrides | services/api/domains/_abac.py:270-274 | without BYPASS, granted iff some ALLOW matches and no DENY does |
| Abac.OrderIsIrrelevant | services/api/domains/_abac.py:246-254 | without BYPASS, engines holding the same policies decide alike whatever their priorities and order |
| Abac.RegisterIsMonotone | services/api/domains/_abac.py:251-323 | registering a DENY never turns a refusal into a grant, and a non-BYPASS ALLOW never a grant into a refusal, BYPASS policies present or not |
| Abac.UnregisterUndoesRegister | services/api/domains/_abac.py:251-260 | unregistering a newly named policy restores the list, order included |
| Abac.DefaultEngineGrants | services/api/domains/_abac.py:336-516 | closed form, in attributes, of who is let in by the eight built-in policies: administrators, or a GET of the resource carrying one's own user id to which no rule objects |
| Abac.DefaultEngineDecides | services/api/domains/_abac.py:336-516 | every whole decision of the default engine: which policy is named, the bypass, and an audit entry asked for exactly when one of the six rules, the working hours included, objects |
| Abac.RegisteredAllowsGrant | services/api/domains/_abac.py:251-323 | with any ALLOW policies without BYPASS registered, at any priorities, a non-administrator is let in iff none of the six rules objects and one of them, or self access, matches |
| Abac.TenantIsolationHolds | services/api/domains/_abac.py:367-388 | from the default engine, after any registrations and removals that add no BYPASS below priority 20 and keep tenant isolation, cross-tenant access by a non-administrator is refused |
| Abac.BypassOpensExactlyBelowTwenty | services/api/domains/_abac.py:251-254 | a matching BYPASS opens the default engine to cross-tenant access iff its priority is below 20 |
| Lockout.CustomUser.IsLockedOut | services/api/accounts/models.py:147-158 | reports a lock exactly before its expiry, and clears an expired one |
| Lockout.CustomUser.RecordFailedLogin | services/api/accounts/models.py:160-169 | counts a failure and locks for 15 minutes at the fifth |
| Lockout.CustomUser.ClearFailedLogins | services/api/accounts/models.py:171-176 | resets counter and lock |
| Lockout.Post | services/api/accounts/api_views.py:108-211 | one login request answers and changes the account as specified, on every path |
| Lockout.AnswerMeaning | services/api/accounts/api_views.py:123-199 | success iff unlocked with every required factor right; the second factor is asked for iff unlocked, enabled, not given and the password right; a failure is counted iff unlocked with a given factor wrong |
| Lockout.StepMeaning | services/api/accounts/api_views.py:123-203 | a lock in force changes nothing, an expired one counts for nothing, the fifth failure locks for 15 minutes, a success clears, a request for the second factor leaves the count |
| Lockout.CounterStaysWithinLimit | services/api/accounts/models.py:147-169 | over every run the counter is at most five and a lock is set exactly at five |
| Lockout.LockHolds | services/api/accounts/api_views.py:123-135 | until expiry every request is turned away, right credentials included, and the account does not change |
| Lockout.FailuresWithinAllowance | services/api/accounts/models.py:160-176 | in any window of at most 15 minutes failures are bounded by what the counter leaves, or five after an expiry, plus four per success; a lock outlasting the window allows neither |
| Lockout.FailureRate | services/api/accounts/models.py:147-176 | at most five failures are recorded per started quarter of an hour, over any number of them, and at most four more per success |
| Lockout.FailureBoundIsReached | services/api/accounts/models.py:171-176 | the bound is exact: for every n a run with n successes in one instant records 5 + 4n failures |
| Moneys.RoundingIsNearest | services/api/domains/_value_objects.py:37-39 | quantisation is the unique nearest integer, the one farther from zero on a tie |
| Moneys.MakeNormalises | services/api/domains/_value_objects.py:33-41 | construction fails exactly outside the eight currencies, in any case of letters, and otherwise gives the nearest cent and the currency in capitals |
| Moneys.AddSubExact | services/api/domains/_value_objects.py:43-62 | addition, subtraction and negation are exact on normalised amounts and fail exactly on different currencies |
| Moneys.SubUndoesAdd | services/api/domains/_value_objects.py:43-55 | subtracting what was added restores the amount |
| Moneys.MulInCents | services/api/domains/_value_objects.py:57-59 | a product is rounded once, in cents |
| Moneys.MulIsOdd | services/api/domains/_value_objects.py:57-62 | negating the amount or the factor negates the product |
| Moneys.ScalingCommutesWithTotal | services/api/domains/_value_objects.py:43-59 | for any n amounts of a currency and any factor, summing rounded products and rounding the scaled sum differ by at most (n+1)/2 cents |
| Moneys.WeightIsNearest | services/api/domains/_value_objects.py:117-148 | a weight is the nearest hundredth of a kilogram and its tons the nearest thousandth, ties away from zero; sums and differences are exact, a product is rounded once |
| Moneys.TonsRoundTrip | services/api/domains/_value_objects.py:117-139 | through tons and back a weight is within half a kilogram, and stable from then on |
| RateMatching.QuoteIsAccurate | services/api/contracts/services.py:47-63 | subtotal plus surcharge is within 1.075 cents of 1.15 times weight times rate |
| RateMatching.QuoteIsRounded | services/api/contracts/services.py:47-53 | each amount is rounded once, the surcharge from the rounded subtotal |
| RateMatching.QuoteUsesCorridor | services/api/contracts/services.py:27-45 | the rates are those of the row naming the two cities, in that direction, any case and surrounding blanks, and the standard ones when there is no such row |
| RateMatching.BorderFeeExactlyWhen | services/api/contracts/services.py:61-62 | 50 dollars are due iff kampala or kigali occurs in the joined names |
| RateMatching.ContractNeverLoses | services/api/contracts/services.py:30-50 | for every non-negative weight and corridor the savings are the difference of the two subtotals, never negative, and the contract total is no greater |
| Polylines.RunningLengths | frontends/mobile/components/CargoTrackMap.tsx:64-69 | the first loop pushes the length of the route up to each vertex |
| Polylines.TravelledAccumulates | frontends/mobile/components/CargoTrackMap.tsx:64-69 | the lengths up to the vertices are the one list from zero that grows by each segment's length |
| Polylines.InterpolateAlong | frontends/mobile/components/CargoTrackMap.tsx:61-84 | the first segment reaching the target is divided in the proportion of the length covered to its own, coordinate by coordinate, its start when it has no length; the last vertex when none reaches it, for every t; for t from 0 to 1 the result lies at arc length exactly t times the total |
| Polylines.PositionDivides | frontends/mobile/components/CargoTrackMap.tsx:75-81 | the same proportion for the point that the interpolation formula gives |
| Polylines.ArcLengthIsExact | frontends/mobile/components/CargoTrackMap.tsx:71-81 | for t from 0 to 1 a segment is always found and the point lies on it at arc length exactly t times the total, zero-length segments included |
| Polylines.PassesThroughVertices | frontends/mobile/components/CargoTrackMap.tsx:73-81 | at a vertex's own arc length the result is that vertex, so t = 0 and t = 1 are the ends |
| OfflineQueue.Client.EnqueueMutation | frontends/mobile/lib/offlineSync.ts:38-50 | stores the newest mutations, at most 100, or nothing when the write fails |
| OfflineQueue.Client.RemoveFromQueue | frontends/mobile/lib/offlineSync.ts:52-55 | keeps exactly the others, in order |
| OfflineQueue.Client.SyncOfflineQueue | frontends/mobile/lib/offlineSync.ts:66-98 | sends the queue in order, leaves exactly the failed mutations in order, counts both kinds, and does nothing while another sync runs |
| OfflineQueue.CallIsItsSteps | frontends/mobile/lib/offlineSync.ts:38-55 | an enqueue or removal that nothing interleaves is the run of its read and its write |
| OfflineQueue.SyncIsItsSteps | frontends/mobile/lib/offlineSync.ts:71-95 | an uninterrupted sync is the run of its steps, and sends in queue order |
| OfflineQueue.SentInQueueOrder | frontends/mobile/lib/offlineSync.ts:76-90 | each mutation is sent, or kept, behind exactly those before it in the queue that fared alike |
| OfflineQueue.EnqueueKeepsTheNewest | frontends/mobile/lib/offlineSync.ts:40-48 | the cap drops the oldest: the newest mutations up to 100 stay |
| OfflineQueue.StepConservesExactlyWhen | frontends/mobile/lib/offlineSync.ts:25-98 | the exact condition under which a step keeps what was enqueued equal to what was sent, dropped, removed or waits: outside a sync a write needs storage to be what its call had read; inside one it must change nothing that counts; the write ending a sync must work or be redundant |
| OfflineQueue.RunConservesExactlyWhen | frontends/mobile/lib/offlineSync.ts:25-98 | over every run, overlapping calls, failing storage and interleaved syncs included, conservation holds throughout exactly when every step meets its condition |
| OfflineQueue.CleanRunConserves | frontends/mobile/lib/offlineSync.ts:38-98 | with working storage and enqueues, removals and syncs one at a time, what was enqueued is what was sent, dropped, removed or waits, with multiplicities |
| OfflineQueue.ExactlyOnePlace | frontends/mobile/lib/offlineSync.ts:38-98 | after a clean run from the empty queue a mutation enqueued once is in exactly one of those places, once |
| OfflineQueue.ConservedExactlyWhenRead | frontends/mobile/lib/offlineSync.ts:25-32 | between syncs an enqueue or removal conserves iff the read worked or the queue was empty |
| OfflineQueue.ConservedExactlyOutsideSync | frontends/mobile/lib/offlineSync.ts:38-55 | with working storage a new mutation's enqueue conserves iff no sync is running, a removal iff none is running or it finds nothing |
| OfflineQueue.ConservedExactlyWhenSaved | frontends/mobile/lib/offlineSync.ts:92 | a sync whose last write fails conserves iff storage holds just what failed |
| OfflineQueue.OverlappingEnqueuesLoseOne | frontends/mobile/lib/offlineSync.ts:38-50 | of two enqueues that both read before either writes, the first to write ends in no place at all |
| OfflineQueue.EnqueuedDuringSyncIsLost | frontends/mobile/lib/offlineSync.ts:72-92 | a new mutation enqueued at any moment of a sync is in storage afterwards iff the last write of the sync fails, and in no other place |
| OfflineQueue.EnqueuedDuringSyncIsNeverSent | frontends/mobile/lib/offlineSync.ts:66-98 | whatever else happens during the sync and after its last write, such a mutation is never sent unless a call that has read it still writes |
| OfflineQueue.OrderAndSizeOverRuns | frontends/mobile/lib/offlineSync.ts:38-98 | over every run, overlapping calls, failing storage and interleaved syncs included, the queue has at most 100 mutations and is an order-preserving subsequence of what was enqueued |
| OfflineQueue.EmptyIsInOrder | frontends/mobile/lib/offlineSync.ts:20-32 | the empty start satisfies what the run results assume, so they hold of every reachable state |

## Left out

- Floating-point rounding in geofences, temperatures and interpolation: exact reals throughout.
- Haversine distance, bearing and Mean Kinetic Temperature: transcendental functions.
- Polylines.InterpolateAlong: the Euclidean length is a parameter, any non-negative function; that it vanishes only between equal points is assumed where it matters.
- TokenRefresh.ApiClient.Send: the token that the request interceptor adds is not modelled; the three awaits of a refresh are one step because nothing else of the client changes between them.
- TokenRefresh.RefreshOkResendsEveryWaiter: the request interceptor runs again on every resend and replaces the header it speaks of whenever the token store has one; that is not modelled.
- TokenRefresh.SendsAreBounded: the retry mark of a request is assumed to survive its resend, which is up to the HTTP library; the bound rests on that.
- EventStreams: the group creation, the read and the reclaim calls appear as machine steps but not as class methods; stream trimming, blocking, back-off times and liveness of redelivery are not modelled.
- EventStreams.DispatchAll: the class method covers a batch in which no Redis call fails; failures and crashes between any two calls are steps of the machine.
- EventStreams: a retry field that parses to something other than an object would end the worker; such fields are not modelled.
- ColdChain.ColdChainShipment.DetectExcursion: the lookup of the shipment by device, websocket pushes and alert records are not modelled; concurrent requests on one row are not either.
- ColdChain.SlaOverRuns: excursion minutes are never written by this code, so they are assumed within their limit.
- Demurrage: attribution texts, the constant detention field, echoed inputs, and calendar limits of dates.
- Text: only ASCII letters change case.
- Lockout.Post: unknown users, audit entries, throttling and the consumption of backup codes; requests for one account run one after another.
- Moneys: the 28-digit decimal context, currency conversion, comparison operators and number formatting.
- RateMatching: the savings percentage, corridor display names and contract reconciliation.
- OfflineQueue.Client.EnqueueMutation: the method is a call that nothing interleaves; overlapping calls are runs of the machine.
- OfflineQueue.Client.RemoveFromQueue: the same.
- OfflineQueue: setting the flag of a sync and its first read are one step, because between them only other syncs are turned away.
- OfflineQueue.Client.SyncOfflineQueue: the method is a sync that nothing interleaves; interleaved ones are runs of the machine.
- Abac: attribute extraction from Django objects and unused attributes such as tags and client address; countries are plain codes.
- Everything else: ORM queries, serializers, HTTP, JWT contents, dashboards, user interface.
