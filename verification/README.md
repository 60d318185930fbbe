# llm-cluster-router, verified

A Dafny model of the stateful cores of the LLM cluster router and of its egress gateway ("channel"), with proofs
of what they keep over every run. `dafny verify dfyconfig.toml` checks the whole project.

## What is modelled

**The key-rotation store** (`KeyAccounting`, `RotationPolicies`, `StoreSpec`, `RotationStore`). A gateway route owns
several vendor keys. Each key has a request and a token budget per tumbling window, and the store leases keys to
requests. Windows roll and leaked leases are reclaimed lazily, by whichever call comes next. A settlement does not say
which lease it ends: it consumes an orphan or pops the oldest stamp. `StoreSpec.Step` is the store as a state machine;
the class `RotationStore.Store` performs every step in place, with the loops the code has, and each of its methods is
proved equal to a step. The theorems are about arbitrary sequences of steps with a clock that does not go back:

- `LeaseLedger`: a ledger records the truth (every reservation ever granted, every one not yet settled), and
  reclamation by anonymous stamps is proved sound against it.
- `BudgetCaps`: `Spent` recounts each window's charges from the history of calls alone. Request caps are exact up to
  the reclaimed leases; token caps bound the overshoot by a closed formula.
- `LazyRollover`: dropping any set of observer calls from any run changes no other answer.
- `CapFlags`: over every run a key is soft-retired or drained exactly if the recounted charges of its window have reached
  the share or the whole of a limit, and the settlement that gets there emits the one cap event. A token limit comes
  with an estimate that is not negative, which `internal/channel/config.go:772` checks.
- `AdvertisedWait`: the advertised wait is exact to the nanosecond, and the header built from it is truthful.
- `Retirement`: retirement only extends, and each window emits one cap event at most.
- `StoreAnswers`, `KeyBalance`: what a reservation is answered and which key a policy takes, in plain arithmetic.
- `KeyHistory`: the capstone. After any legal run, whether a reservation is granted, what a snapshot reports and which
  retirement events are emitted follow from the history of calls alone: charges, failures, retirements asked for and
  leases not settled (`AdmissionFromHistory`, `SnapshotFromHistory`, `RetireEventExact`).

**The gateway around it** (`Gateway`, `UsageExtractor`, `TunnelDeadlines`, `InetAton`). Any number of proxy handlers
interleave; the audit trail is proved to add up to what the store charged, and the calls handlers make are proved to be
a legal run of the store, so the theorems above apply to it. The usage scanner is proved against a definition of "the
last total in the tail" that mentions no scanning. The two copy loops of a CONNECT tunnel share deadlines that only
tighten. The numeric IPv4 parser is proved to decide a grammar and to undo a printer.

**The encrypting record layer** (`RecordLayer`, `RecordCut`, `RecordConn`). Writer and resumable reader against a
transport that may split and time out at any byte. `RecordConn.WrapConn` works on byte arrays and refines the pure
reader. `RecordCut` cuts a byte stream into frames by its own length prefixes and proves that, for any cipher and any
bytes, the reader delivers exactly what the frames open to and refuses and counts exactly those that do not.

**The router** (`Admission`, `NodeSelection`, `CircuitBreaker`, `KeyPool`, `Failover`, `FailoverCases`,
`FailoverScores`, `Fleet`, `FairShare`, `LiveProbe`). Concurrent handlers as interleaved atomic steps, weighted selection, the failover walk, and
token buckets that are garbage-collected. The walk reads and writes the breakers, health flags, selection cursor and key
pools in atomic steps between which other requests may change them arbitrarily; `Fleet.Fleet.Walk` is the loop,
`Failover.Run` the state machine it is proved to be. `FailoverScores` replays, from the log of walks that nobody
disturbs, what each node's breaker and health flag were told, across any number of walks.

Conventions: times and durations are integers (nanoseconds); a zero time is `None`; floating-point ratios and token
counts are `real`; round-robin cursors are unbounded naturals. Clock readings, policy answers of custom policies,
upstream replies, nonces and network events are parameters, so every theorem holds for all of them.

## Where the code does not keep what is written about it

The model follows the code. In each case below a lemma exhibits the failure and another says exactly when the promise
holds.

- `main.go:1140-1143` calls queue limit plus concurrency limit a ceiling on bodies in memory. A handler gives back its
  queue slot or permit before its body, so there is no such ceiling (`Admission.NoBoundWithoutTail`): it holds if and
  only if there are never more handlers than that, or the queue admits nobody (`Admission.CeilingExact`). With the
  handlers in their exit tail added it always holds (`Admission.BufferingBounded`).
- `main.go:1403-1405` says each upstream is tried at most once. A node on its own that keeps answering with quota errors
  is tried once per warm key up to the ceiling of five, and with cooling disabled five times even on a single key, with
  nothing cooled and its breaker never told (`FailoverCases.LoneNodeAttempts`, `FailoverCases.DisabledCooling`). An
  attempt is on a node already tried if and only if the attempt before it was retried (`Failover.RepeatsExactly`), so the
  promise holds exactly for walks that retry nothing but perhaps their last attempt (`Failover.TriedOnce`);
  `Failover.StreakBound` bounds the repeats.
- `main.go:1416-1418` relays the last real response. If the node is offered again after a quota error but selection names
  another, the response has been closed before it is relayed (`FailoverCases.RelaysClosedResponse`);
  `Failover.WalkConcludes` states that this is the only case. The same case scores the node's breaker although a key is
  still warm.
- `internal/channel/server.go:1158-1182` calls both directions of a tunnel bounded. Writes have no deadline before the
  linger bound is armed, so a tunnel whose two loops are both blocked in Write is not bounded
  (`TunnelDeadlines.WritersUnbounded`); every other silent tunnel is (`TunnelDeadlines.SilenceEnds`).
- An audit line is lost when a handler dies after settling and before reporting (`Gateway.ReportLost`). The audit trail
  is exact if and only if every handler that died there had been charged nothing (`Gateway.AuditExact`).

The one exception the store documents to its exact request cap (`internal/channel/rotation_store.go:603-613`, a
reclaimed lease that was in fact still running) is proved to be real (`ReclaimBreach.CapExceeded`), to cost no
more than the leases reclaimed (`BudgetCaps.RequestCapHolds`), and to be the only one (`BudgetCaps.InTimeRequestsExact`).

## Model

| member | source | states |
|---|---|---|
| `KeyAccounting.StaleRun` | internal/channel/rotation_store.go:374-389 | the leading stale stamps: everything before the result is at or before the cutoff and the next stamp is after it |
| `KeyAccounting.ReclaimCounts` | internal/channel/rotation_store.go:374-389 | reclaiming moves stamps to orphans one for one and counts each as reclaimed |
| `KeyAccounting.SettleLeases` | internal/channel/rotation_store.go:665-679 | a settlement frees exactly one of the slots and orphans outstanding, as a release does, reclaims nothing and touches no deadline |
| `KeyAccounting.SettleCounters` | internal/channel/rotation_store.go:665-700 | a settlement adds one request and its charge unless it failed, and never lifts a cap |
| `StoreSpec.CandidatesSound` | internal/channel/rotation_store.go:557-573 | candidates are admissible keys in index order |
| `StoreSpec.CandidatesComplete` | internal/channel/rotation_store.go:557-573 | no admissible key is left out |
| `StoreSpec.StepOnKey` | internal/channel/rotation_store.go:540-860 | every operation acts on every key by exactly one event (nothing, time, a grant of an admissible key, a settlement, a retirement) and neither adds nor drops keys or routes |
| `StoreSpec.WindowContains` | internal/channel/rotation_store.go:872-890 | a rolled window contains the clock reading and starts on a later boundary |
| `LeaseLedger.ReclaimKeeps` | internal/channel/rotation_store.go:374-389 | reclaiming never orphans more slots than there are unsettled leases truly overdue |
| `LeaseLedger.ReleaseKeeps` | internal/channel/rotation_store.go:359-367 | an anonymous release keeps the accounts whichever lease really ended |
| `LeaseLedger.ReclamationSound` | internal/channel/rotation_store.go:359-389 | in every legal run: stored stamps are a suffix of the reservation history, stamps plus orphans are exactly the unsettled leases, and orphans never exceed the truly overdue ones |
| `LeaseLedger.InTimeNeverReclaims` | internal/channel/rotation_store.go:369-389 | a run whose leases all settle within the timeout reclaims nothing |
| `BudgetCaps.CountersReconcile` | internal/channel/rotation_store.go:665-679 | over every run a key's counters are the recount of its current window and no later window has been charged |
| `BudgetCaps.RequestCapHolds` | internal/channel/rotation_store.go:540-584 | over every run, across rollovers that carry live leases: requests + leases + orphans <= cap + reclaimed |
| `BudgetCaps.WindowRequestsWithinCap` | internal/channel/rotation_store.go:872-890 | no window, past or current, charges more requests than the cap plus the leases reclaimed |
| `BudgetCaps.InTimeRequestsExact` | internal/channel/rotation_store.go:620-635 | if leases settle in time no window exceeds the request cap |
| `ReclaimBreach.CapExceeded` | internal/channel/rotation_store.go:605-613 | a legal run from a new store with a cap of one whose only window is charged two requests, because a reclaimed lease was still running |
| `ReclaimBreach.ReclaimReadmits` | internal/channel/rotation_store.go:374-389 | the key events behind it: a lease that outlives the timeout frees its slot for another grant |
| `BudgetCaps.ConcurrentLeases` | internal/channel/budget_advisory.go:73-78 | the result n satisfies (n-1)*estimate < tokens <= n*estimate: it is the rounded-up quotient |
| `BudgetCaps.InFlightBounded` | internal/channel/rotation_store.go:620-635 | over every run a token-capped key never has more than ConcurrentLeases leases in flight |
| `BudgetCaps.OvershootHolds` | internal/channel/rotation_store.go:665-679 | with largest charge M and nothing reclaimed, tokens charged plus M per live lease stay within T-1 + M + (C-1)(M-E) |
| `BudgetCaps.WindowTokensWithinOvershoot` | internal/channel/rotation_store.go:665-679 | no window's recounted tokens exceed that bound |
| `CapFlags.CapsAreExact` | internal/channel/rotation_store.go:684-706 | after every run from an unused store: soft-retired exactly if the window's recounted requests or tokens have reached softRatio times a positive limit, drained exactly if one has reached a positive limit in full |
| `CapFlags.CapEventExact` | internal/channel/rotation_store.go:684-706 | a settlement emits a cap event exactly if it carries its window's recounted charges over the soft share of a limit |
| `LazyRollover.ReclaimTwice` | internal/channel/rotation_store.go:374-389 | reclaiming at t1 then t2 is reclaiming at t2 |
| `LazyRollover.RolledStartTwice` | internal/channel/rotation_store.go:872-890 | rolling in two stages lands on the same window boundary and expires in the same cases |
| `LazyRollover.AdvanceTwice` | internal/channel/rotation_store.go:402-407 | advancing twice is advancing once, up to an expired retirement deadline |
| `LazyRollover.StepsAgree` | internal/channel/rotation_store.go:540-860 | every operation answers alike on agreeing stores and leaves them agreeing |
| `LazyRollover.ObserversInvisible` | internal/channel/rotation_store.go:788-860 | dropping any Snapshot and RetryAfter calls from any run leaves an agreeing store |
| `LazyRollover.LaterAnswersUnchanged` | internal/channel/rotation_store.go:788-860 | so no later lease, refusal, event, wait or snapshot differs under the shipped policies |
| `AdvertisedWait.KeyWaitExact` | internal/channel/rotation_store.go:824-840 | an unselectable key is selectable again exactly from the end of its wait on |
| `AdvertisedWait.RouteWaitExact` | internal/channel/rotation_store.go:788-819 | a drained route is selectable exactly from the end of its least wait on |
| `AdvertisedWait.RefusalMeansWait` | internal/channel/rotation_store.go:557-573 | a reservation is refused as drained if and only if a wait is reported, or the route is unknown or empty |
| `AdvertisedWait.WaitIsExact` | internal/channel/rotation_store.go:788-840 | whatever is called meanwhile that neither settles nor retires, before or after the end of the wait: a reservation is refused as drained exactly before the unclamped wait ends |
| `AdvertisedWait.BackForGood` | internal/channel/rotation_store.go:788-840 | once the wait is over some key is selectable and stays so under any calls that neither settle nor retire |
| `AdvertisedWait.HeaderSeconds` | internal/channel/server.go:797-804 | the least positive whole number of seconds that covers the wait |
| `AdvertisedWait.HeaderIsTruthful` | internal/channel/server.go:797-814 | a client that waits as told by an unclamped answer is not refused as drained again, whoever else reserved meanwhile |
| `AdvertisedWait.ReachableDrained` | internal/channel/rotation_store.go:684-700 | every reachable drained route meets the premises of these theorems |
| `AdvertisedWait.AnswerIsExact` | internal/channel/rotation_store.go:788-819 | the answer w in every reachable state: between one second and the maximum a reservation is refused as drained if and only if it comes before now + w; at the maximum every earlier one is refused, at the one-second floor none from then on is; w keeps to those bounds and the header is the least whole second covering it |
| `Retirement.StaysParked` | internal/channel/rotation_store.go:742-754 | once a deadline is named the key carries one at least as late until it passes |
| `Retirement.DeadlineRespected` | internal/channel/rotation_store.go:716-784 | no call sequence grants the key, or emits another explicit retirement for it, before the deadline |
| `Retirement.CapHoldsForWindow` | internal/channel/rotation_store.go:684-700 | a capped key gets no lease before its window ends |
| `Retirement.EventEmitsCap` | internal/channel/rotation_store.go:684-700 | a settlement emits a cap event exactly when it takes the key from uncapped to capped |
| `Retirement.OneCapEventPerWindow` | internal/channel/rotation_store.go:684-700 | per key and window one cap event if the key was capped in it, none otherwise |
| `KeyBalance.LeasesExactlyTheAdmissible` | internal/channel/rotation_store.go:557-584 | for any policy answer: a key is leased if and only if some key is admissible, and the leased key is |
| `KeyBalance.LeastUsedPicksLeast` | internal/channel/rotation.go:133-135 | least_used grants go to a key of least load |
| `KeyBalance.LeastUsedBalances` | internal/channel/rotation.go:133-181 | loads within one of each other stay so over every calm run |
| `KeyBalance.CursorCounts` | internal/channel/rotation.go:119-124 | the cursor advances once per reservation and by nothing else |
| `KeyBalance.RoundRobinTakesTurns` | internal/channel/rotation.go:119-124 | of any n consecutive reservations exactly one leases key i, at its turn |
| `StoreAnswers.ReserveExact` | internal/channel/rotation_store.go:557-635 | leased if and only if some key has no cap flag, no deadline ahead and, with a window, room for one more under each positive limit; `AdmissionLimited` if and only if keys are free but each is at a limit; `Drained` if and only if none is free |
| `StoreAnswers.PositionsHonoured` | internal/channel/rotation.go:119-124 | round robin takes the key whose turn it is among those that may be leased; a custom answer that names a position is honoured, any other gives way to the fallback cursor's turn |
| `StoreAnswers.LeastIsTaken` | internal/channel/rotation.go:133-181 | least_used takes a key of least load; least_tokens one charged fewest tokens, or of least load if a total among the candidates is estimated |
| `KeyHistory.DeadlinesFromHistory` | internal/channel/rotation_store.go:716-784 | a key has a deadline ahead of an instant exactly if some call asked for a later one, a quota signal asking for the end of the window or for five minutes |
| `KeyHistory.RetireEventExact` | internal/channel/rotation_store.go:716-784 | a retirement event is emitted exactly by a call that asks for a later instant while no earlier call did |
| `KeyHistory.AdmissionFromHistory` | internal/channel/rotation_store.go:540-635 | after any legal run a reservation is granted if and only if the history leaves some key in: no retirement asked for, charges below the soft share, and with the live leases room for one more under each limit |
| `KeyHistory.LiveLeases` | internal/channel/rotation_store.go:359-389 | live slots are the unsettled leases, short of at most those that outlived the timeout |
| `KeyHistory.MarksReconcile` | internal/channel/rotation_store.go:665-679 | the error count and the estimated mark are the recount of the current window's settlements |
| `KeyHistory.SnapshotFromHistory` | internal/channel/rotation_store.go:845-860 | every field a snapshot shows of charges, errors, flags, selectability and leases in flight is what the history says |
| `KeyHistory.LatestReasonShows` | internal/channel/rotation_store.go:925-934 | a retirement that outlasts the earlier ones gives an uncapped key its reason |
| `KeyHistory.ChargesPlainly` | internal/channel/rotation_store.go:645-679 | a call charges a key only by completing a lease on it: one request and the reported tokens, or the estimate |
| `KeyHistory.WindowsTile` | internal/channel/rotation_store.go:872-890 | each window begins a whole number of windows after the first, and the latest contains the clock |
| `KeyHistory.NothingStaleStays` | internal/channel/rotation_store.go:374-389 | once a route is up to date no live stamp on it has outlived the timeout |
| `Arithmetic.RoundRobinTurns` | internal/channel/rotation.go:119-124 | n consecutive cursor values reach each position exactly once |
| `RotationPolicies.LeastPositions` | internal/channel/rotation.go:166-181 | the loop over best and tied collects exactly the positions of least score |
| `RotationPolicies.Policy.PickMinimum` | internal/channel/rotation.go:166-181 | the answer is a tied minimum chosen by the cursor, which advances by one |
| `RotationPolicies.Policy.Select` | internal/channel/rotation.go:114-156 | each policy answers its specification function, moving its cursor as that function says |
| `RotationStore.Effectively` | internal/channel/rotation_store.go:439-474 | every store runs with a positive lease timeout and clamp and a soft ratio in (0, 1] |
| `RotationStore.InitialUnused` | internal/channel/rotation_store.go:439-474 | a new store meets the premises of the run theorems |
| `RotationStore.CountStale` | internal/channel/rotation_store.go:374-389 | the loop counts the leading stale stamps |
| `RotationStore.Store.constructor` | internal/channel/rotation_store.go:439-474 | a fresh record per key, the window starting now |
| `RotationStore.Store.AdvanceRoute` | internal/channel/rotation_store.go:402-407 | the loops bring a route up to date as the specification does |
| `RotationStore.Store.RollWindow` | internal/channel/rotation_store.go:872-890 | the new window start is the boundary the specification names |
| `RotationStore.Store.Eligible` | internal/channel/rotation_store.go:557-573 | one pass finds the candidates and counts the selectable keys |
| `RotationStore.Store.Reserve` | internal/channel/rotation_store.go:540-584 | the answer, the cursors and the whole new state are those of the specification step, whose answers `StoreAnswers.ReserveExact` and `KeyHistory.AdmissionFromHistory` pin |
| `RotationStore.Store.RecordSample` | internal/channel/rotation_store.go:645-679 | the whole new state and the events are those of the specification step, out-of-range indices ignored; `CapFlags` and `KeyHistory.ChargesPlainly` say what it charges, flags and emits |
| `RotationStore.Store.RetireWithReason` | internal/channel/rotation_store.go:716-754 | equals the specification step, whose deadline and event `KeyHistory` states |
| `RotationStore.Store.RetireForWindow` | internal/channel/rotation_store.go:765-784 | equals the specification step, whose deadline is the end of the window (`KeyHistory.DeadlinesFromHistory`) |
| `RotationStore.Store.ShortestWait` | internal/channel/rotation_store.go:788-840 | the loop finds the least wait, or that some key is selectable |
| `RotationStore.Store.RetryAfter` | internal/channel/rotation_store.go:788-819 | equals the specification step, whose answer `AdvertisedWait.AnswerIsExact` pins to when reservations are refused |
| `RotationStore.Store.Snapshot` | internal/channel/rotation_store.go:845-860 | equals the specification step, whose views `KeyHistory.SnapshotFromHistory` states |
| `RotationStore.KeyLease.Settle` | internal/channel/rotation_store.go:940-954 | settles the store once however often it is called |
| `Gateway.AuditFigureExact` | internal/channel/server.go:694-705 | the audit figure equals the store's charge if and only if the sample failed, its count is genuine or unknown, or it equals the estimate |
| `Gateway.AnswerRetires` | internal/channel/server.go:614-630 | a vendor code that retires the key does so until its own instant, one that does not absolves it, and without one 429 and 402 park the key for its window |
| `Gateway.QuotaParksKey` | internal/channel/server.go:614-630 | after a quota status was judged, every instant before the end of the window finds the key with a deadline ahead |
| `Gateway.StatusCharges` | internal/channel/server.go:666-677 | a server error charges nothing and no request, another refusal without a count a request and no tokens, anything else the reported tokens or the estimate |
| `Gateway.NextSettlesOnce` | internal/channel/server.go:517-529 | every step of every handler keeps: one settlement per finished lease, none before |
| `Gateway.NextHeldApart` | internal/channel/server.go:485-586 | no two handlers ever hold the same lease, and each holds one the store really granted |
| `Gateway.TokensAddedExact` | internal/channel/rotation_store.go:645-679 | what an operation adds to a token counter is the charge of its normalised sample |
| `Gateway.BooksMove` | internal/channel/server.go:603-639 | only settling, reporting and dying move a charge between store, handler and audit trail |
| `Gateway.AuditReconciles` | internal/channel/server.go:603-705 | when all handlers are done every lease was settled exactly once and the audit lines sum to the store's charges, less what dying handlers had not reported |
| `Gateway.LostIsSum` | internal/channel/server.go:603-639 | what is missing from the audit trail is exactly the figures of handlers that died between settling and reporting |
| `Gateway.AuditExact` | internal/channel/server.go:603-705 | the audit lines sum to the store's charges if and only if all those figures are zero |
| `Gateway.ReportLost` | internal/channel/server.go:577-585 | a run of one request in which any given number of tokens is charged and reported nowhere |
| `Gateway.GatewayRunsAreLegal` | internal/channel/server.go:485-783 | the calls of any interleaving of handlers, refusals asking for their wait and health probes included, are a legal run of the store |
| `UsageExtractor.ParseUsageValue` | internal/channel/usage.go:116-134 | finds a complete in-range integer after the colon exactly when there is one |
| `UsageExtractor.SkipSpace` | internal/channel/usage.go:147-152 | the first position at or after the start that is not white space |
| `UsageExtractor.LastTotalUnique` | internal/channel/usage.go:82-95 | a text has at most one last total |
| `UsageExtractor.OverlappingIsDead` | internal/channel/usage.go:82-95 | a marker overlapping a later one can carry no value |
| `UsageExtractor.CutAtMarker` | internal/channel/usage.go:82-95 | cutting the text at a later marker changes no earlier reading, so shrinking the slice is safe |
| `UsageExtractor.ScanTail` | internal/channel/usage.go:82-95 | the backward scan over shrinking slices returns the last total, and an estimate exactly when there is none |
| `UsageExtractor.TailExtractor.Observe` | internal/channel/usage.go:70-80 | however the body is cut, the tail is its last 8192 bytes |
| `UsageExtractor.TailExtractor.Result` | internal/channel/usage.go:82-95 | the last total of the last 8192 bytes of the whole body |
| `TunnelDeadlines.RunSound` | internal/channel/server.go:956-999 | every state of every interleaving: before arming no write deadline and the recorded read deadline in force, after it all deadlines within the bound; a blocked read ends within one idle period |
| `TunnelDeadlines.ArmOnlyTightens` | internal/channel/server.go:979-999 | arming never moves a read deadline later |
| `TunnelDeadlines.LingerBound` | internal/channel/server.go:956-999 | from the first arming on no deadline of either connection ever exceeds arming time plus linger |
| `TunnelDeadlines.ReadDeadlineExact` | internal/channel/server.go:956-999 | until its next refresh a loop's read deadline is its last refresh plus idle, cut short only by the linger bound |
| `TunnelDeadlines.WriteDeadlineExact` | internal/channel/server.go:979-999 | arming bounds writes by the linger period or the read deadline then in force, whichever is earlier, for good |
| `TunnelDeadlines.BothHalvesStop` | internal/channel/server.go:1014-1031 | both copy loops are finished by then |
| `TunnelDeadlines.FewLateSteps` | internal/channel/server.go:1014-1031 | after the bound at most eight steps remain and no loop goes round again |
| `TunnelDeadlines.LateStepEnds` | internal/channel/server.go:1014-1031 | a step after the bound moves its loop towards the end and writes nothing |
| `TunnelDeadlines.SilenceEnds` | internal/channel/server.go:908-939 | a tunnel silent for longer than idle and linger is over, unless unarmed with both loops blocked in Write |
| `TunnelDeadlines.WritersUnbounded` | internal/channel/server.go:1014-1031 | in that one case no deadline ends it |
| `TunnelDeadlines.BothPeersSend` | internal/channel/server.go:1014-1031 | and that case is reachable |
| `TunnelDeadlines.TunnelDeadlines.RefreshIdle` | internal/channel/server.go:956-972 | the new read deadline and record, clamped once armed; nothing else changes |
| `TunnelDeadlines.TunnelDeadlines.ArmBoth` | internal/channel/server.go:979-999 | each connection gets the earlier of the linger bound and its idle deadline, once |
| `InetAton.ParsePartExact` | internal/channel/connect_target.go:147-166 | a part is accepted with value v if and only if the grammar writes v below 2^32 |
| `InetAton.SplitJoin` | internal/channel/connect_target.go:113-117 | splitting on dots loses nothing and leaves no dots |
| `InetAton.JoinSplit` | internal/channel/connect_target.go:113-117 | joining dot-free parts and splitting gives them back |
| `InetAton.FieldsAddress` | internal/channel/connect_target.go:126-142 | an address cut into n parts fits their ranges and assembles to itself |
| `InetAton.AddressFields` | internal/channel/connect_target.go:126-142 | in-range parts assemble below 2^32 and are recovered |
| `InetAton.DenotesOne` | internal/channel/connect_target.go:113-143 | a string denotes at most one address, and it is in range |
| `InetAton.ParseIPv4Numeric` | internal/channel/connect_target.go:113-143 | an address exactly for the strings that denote one, and that address |
| `InetAton.PrintedAddressDenotes` | internal/channel/connect_target.go:102-109 | every address in any number of parts and any mix of bases is denoted by its printed form |
| `InetAton.RoundTrip` | internal/channel/connect_target.go:113-166 | and parses back to itself |
| `RecordLayer.Uint32RoundTrip` | internal/crypto/wrap.go:209-234 | the length prefix decodes to what was encoded |
| `RecordLayer.FrameBounds` | internal/crypto/wrap.go:59-78 | an honest record's frame is within the bounds the reader enforces and opens to its chunk |
| `RecordLayer.ChunksCover` | internal/crypto/wrap.go:186-205 | chunking loses nothing, every chunk but the last is a full frame, and the last is empty only for an empty payload |
| `RecordLayer.TamperCountExact` | internal/crypto/wrap.go:244-329 | a read counts tampering exactly when it reports it |
| `RecordLayer.ReadInStep` | internal/crypto/wrap.go:244-329 | any read, completed, timed out or failed, keeps reader and wire in step with the records ahead |
| `RecordLayer.DeliveredIsPrefix` | internal/crypto/wrap.go:186-329 | for all writes, one that fails at any byte included, wire splittings, timeouts and buffer sizes: delivered plus buffered bytes are a prefix of those reported as written, plus the last record of a failed write only if it went out whole; no honest record counts as tampering |
| `RecordLayer.DrainedIsComplete` | internal/crypto/wrap.go:244-329 | once the wire is drained and no record is half read they are everything deliverable |
| `RecordLayer.TearTracks` | internal/crypto/wrap.go:186-234 | a failed write leaves the reader in step with its whole records, the torn one among them exactly if all of it went out |
| `RecordLayer.ReadDelivers` | internal/crypto/wrap.go:244-329 | with a record ahead and a transport that keeps delivering, a read completes it |
| `RecordLayer.EverythingArrives` | internal/crypto/wrap.go:244-329 | from any session not yet broken, if the transport delivers something whenever asked, boundedly many reads of any size deliver everything deliverable |
| `RecordLayer.CompletedFrameDropped` | internal/crypto/wrap.go:291-305 | a frame whose last bytes arrive together with a transport error is dropped and counted |
| `RecordCut.ReadJudges` | internal/crypto/wrap.go:244-329 | for any cipher and wire a read judges at most one frame: it delivers and buffers what the frame opens to, and a frame that does not open or a prefix outside [28, 65564] yields no data, buffers nothing, reports tampering and adds one to the count |
| `RecordCut.ReadsAreCut` | internal/crypto/wrap.go:244-329 | over any sequence of reads until the transport breaks: delivered plus buffered bytes are what the cipher opens of the successive frames the wire's own prefixes cut, and reads that report tampering are as many as frames that do not open |
| `RecordCut.BrokenReadRestarts` | internal/crypto/wrap.go:244-305 | a read the transport breaks delivers nothing, starts afresh, and is counted exactly if a whole prefix had arrived |
| `RecordCut.WrittenIsCut` | internal/crypto/wrap.go:186-234 | what the writer puts on the wire is whole frames of that cut, big-endian prefixes included, and opens to what was written |
| `RecordConn.WrapConn.Write` | internal/crypto/wrap.go:186-205 | the wire gains exactly the records of the chunks accepted and, on failure, the torn start of the next; the count is the plaintext of the whole ones |
| `RecordConn.WrapConn.WriteRecord` | internal/crypto/wrap.go:209-234 | one length-prefixed sealed record |
| `RecordConn.WrapConn.FillBuffer` | internal/crypto/wrap.go:244-329 | resumes at the kept position and keeps what arrived |
| `RecordConn.WrapConn.Read` | internal/crypto/wrap.go:244-329 | header, frame, buffer, tamper count, data and error are those of the pure reader, which `RecordCut.ReadsAreCut` ties to the reference cut |
| `RecordConn.WrapConn.ResetFrames` | internal/crypto/wrap.go:364-368 | header and frame progress are forgotten, buffered plaintext is not |
| `Admission.CountUpdate` | main.go:1206-1241 | moving one handler changes each count by what that handler gained and lost |
| `Admission.AdmissionSound` | main.go:1206-1241 | in every interleaving each counter is the number of handlers holding what it counts, limits hold, and the peak is right or about to be |
| `Admission.NextTiersCounted` | main.go:1588-1600 | each tier's gauge is its waiting handlers, so the clamp at zero never acts |
| `Admission.NextWithinLimits` | main.go:1206-1241 | admitted queue holders and permit holders stay within their limits |
| `Admission.BuffersPartition` | main.go:1206-1241 | every body in memory belongs to exactly one of: an admitted handler without a permit, a permit holder, an exit tail |
| `Admission.BufferingBounded` | main.go:1362-1373 | bodies in memory are those three counts together and never exceed queue limit plus concurrency limit plus exit tails |
| `Admission.NothingLeaks` | main.go:1206-1241 | when every handler has ended every counter is zero |
| `Admission.RefusedOnlyWhenFull` | main.go:1206-1241 | whatever others do meanwhile, a caller is admitted exactly if it joined the queue behind fewer callers than the limit |
| `Admission.BlockedOnlyWhenFull` | main.go:1206-1241 | a waiting caller is blocked exactly while as many callers as the concurrency limit hold a permit |
| `Admission.SomebodyMoves` | main.go:1206-1241 | no interleaving deadlocks: while a caller is not done, one can go on |
| `Admission.PeakExact` | main.go:854-863 | outside the compare-and-swap loop the recorded peak is the true maximum of the run |
| `Admission.CeilingExact` | main.go:1140-1143 | queue limit plus concurrency limit bounds the bodies of n handlers in every interleaving if and only if n is within it or the queue admits nobody |
| `Admission.NoBoundWithoutTail` | main.go:1140-1143 | without the tail there is no bound at all |
| `NodeSelection.BucketWeights` | main.go:1706-1767 | each eligible node of a bucket occurs exactly its weight times |
| `NodeSelection.WeightsHonoured` | main.go:1706-1767 | over any L consecutive selections of a run that are offered the same list of length L, each node of least priority is chosen exactly its weight times and no other at all |
| `NodeSelection.ForeignSelectionsSkew` | main.go:1764-1766 | selections for other requests move the same cursor: alternating with one for another node, a request with two candidates always gets the same one |
| `NodeSelection.ChosenChooses` | main.go:1706-1767 | the selection function meets its description: none exactly if none is eligible, else the cursor's turn among the eligible nodes of least priority |
| `NodeSelection.ChosenIsSafe` | main.go:1706-1767 | a chosen node passes the class, personal-data, tier and model filters, is not excluded, and its breaker is not open and uncooled |
| `NodeSelection.SelectionExact` | main.go:1706-1767 | a selection is empty if and only if no node meets the constraints, is healthy, not excluded and has a breaker that is absent, not open or cooled; else it names such a node of least priority |
| `NodeSelection.Router.Select` | main.go:1706-1767 | chooses by the cursor among the eligible nodes of least priority, none only if none is eligible; only asked breakers change |
| `CircuitBreaker.ClosedWhileBelowThreshold` | internal/circuit/breaker.go:113-139 | closed if and only if fewer failures than the threshold followed the last success |
| `CircuitBreaker.StaysOpen` | internal/circuit/breaker.go:93-139 | open until somebody asks after the cooldown or a success is recorded |
| `CircuitBreaker.NoneBeforeCooldown` | internal/circuit/breaker.go:93-110 | no call is permitted before the cooldown has passed |
| `CircuitBreaker.ThresholdOpens` | internal/circuit/breaker.go:123-139 | the failure that makes a streak of `threshold` opens the breaker |
| `CircuitBreaker.PermitsAfterCooldown` | internal/circuit/breaker.go:93-110 | an open breaker that was asked only before its cooldown ended lets a call through exactly from then on |
| `CircuitBreaker.ProbeDecides` | internal/circuit/breaker.go:93-139 | a cooled breaker lets a probe through; its success lets everything through, its failure nothing for another cooldown |
| `CircuitBreaker.Breaker.Allow` | internal/circuit/breaker.go:93-110 | permits and moves to half-open as the specification says |
| `CircuitBreaker.Breaker.RecordSuccess` | internal/circuit/breaker.go:113-120 | closes and clears the streak |
| `CircuitBreaker.Breaker.RecordFailure` | internal/circuit/breaker.go:123-139 | counts, opens or reopens as the specification says |
| `KeyPool.WarmKeysTakeTurns` | internal/keypool/keypool.go:47-62 | of any n consecutive hand-outs from a pool of n keys all warm each time, exactly one hands out key i, at its turn |
| `KeyPool.ColdOnlyIfAllCold` | internal/keypool/keypool.go:47-62 | a cooling key is handed out only if all are cooling |
| `KeyPool.SearchHands` | internal/keypool/keypool.go:47-62 | the search from the cursor on finds the nearest warm key, or the cursor's own when none is warm |
| `KeyPool.Pool.Next` | internal/keypool/keypool.go:47-62 | the nearest warm key from the cursor on, else the cursor's own |
| `KeyPool.Pool.MarkExhausted` | internal/keypool/keypool.go:66-71 | cools exactly that key, ignoring bad indices and a non-positive cooldown |
| `KeyPool.Pool.AllCooling` | internal/keypool/keypool.go:74-89 | true exactly if there are keys and all are cooling |
| `Failover.SelectedKeeps` | main.go:1467-1526 | what selection answers suits the request and is not excluded, whatever state others left |
| `Failover.AdvanceKeepsSound` | main.go:1431-1538 | one turn of the loop keeps every promise below, whatever others do between its steps |
| `Failover.Run` | main.go:1431-1538 | every stage of every walk: each node contacted suits the request and is the one the attempt before it named; a node repeats only right after a retried attempt on it; an attempt is retried exactly if a quota reply blamed a pooled key, the pool was not all cooling and selection named the same node; each attempt is scored once unless retried |
| `Failover.RepeatsExactly` | main.go:1504-1513 | in every finished walk an attempt is on a node already tried if and only if the attempt just before it was retried |
| `Failover.TriedOnce` | main.go:1403-1405 | so no upstream is tried twice if and only if no attempt but the last is retried |
| `Failover.WalkConcludes` | main.go:1540-1559 | one to five attempts; the first servable response is served open; else the last response is relayed, closed exactly if its node was offered again and another named; else bad gateway, only without any response; every other response is closed |
| `Failover.VerdictCools` | internal/keypool/keypool.go:66-71 | a quota verdict leaves the blamed key cold if cooling is enabled and changes nothing otherwise |
| `Failover.RetryCosts` | main.go:1492-1513 | with cooling enabled and no key re-warming a retried attempt uses up a warm key and leaves one |
| `Failover.StreakBound` | main.go:1492-1513 | so a node gets no more attempts in a row than it had warm keys |
| `FailoverCases.LoneNodeAttempts` | main.go:1492-1513 | a node on its own that answers quota errors gets exactly one attempt per warm key (at least one, at most five), and five with cooling disabled |
| `FailoverCases.DisabledCooling` | internal/config/config.go:495-496 | at a negative key cooldown: five attempts on the only key, nothing cooled, breaker never told |
| `FailoverCases.RelaysClosedResponse` | main.go:1498-1526 | two nodes of one priority: the first response is relayed closed and scored although a key is warm |
| `FailoverScores.AdvanceTells` | main.go:1459-1536 | a turn of an undisturbed walk does to every node's breaker and health flag exactly what its attempt tells it: the looks of its selections and one score |
| `FailoverScores.WalkTells` | main.go:1419-1538 | at every stage of an undisturbed walk each node's breaker has gone through the asks of the selections that considered it, one failure per attempt on it that was neither served nor retried and one success if it was served; its health flag is cleared exactly if it is probed and an attempt on it ended in a transport error |
| `FailoverScores.AcrossTells` | main.go:1419-1538 | the same across any number of walks, one after another |
| `FailoverScores.MissesHoldBack` | main.go:1515-1517 | fewer than `threshold` unserved attempts, over any number of walks, leave a fresh breaker closed; the one that makes them `threshold` takes the node out of every selection until its cooldown is over |
| `Fleet.Fleet.Send` | main.go:1072-1114 | the key to blame: of the last hand-out with a key that is not blank, after at most one resend |
| `Fleet.Fleet.Judge` | main.go:1492-1496 | marks the key and asks the pool, as two atomic steps |
| `Fleet.Fleet.Score` | main.go:1459-1465 | ejects a probed node on a transport error and tells its breaker of the failure or success, as `FailoverScores.WalkTells` replays |
| `Fleet.Fleet.Turn` | main.go:1431-1538 | one turn of the loop equals one step of the state machine, shared state included |
| `Fleet.Fleet.Walk` | main.go:1419-1559 | the loop's log, result, closed responses and shared state are those of the state machine after five turns |
| `TokenBucket.TakeConserves` | internal/fairshare/fairshare.go:137-159 | tokens taken and left never exceed tokens held plus accrued |
| `FairShare.SweptIsFull` | internal/fairshare/fairshare.go:85-97 | a bucket idle long enough to be deleted would be full |
| `FairShare.StepConserves` | internal/fairshare/fairshare.go:50-97 | acquiring and sweeping both keep the conservation law, deletion and re-creation included |
| `FairShare.IntervalBound` | internal/fairshare/fairshare.go:50-159 | any interval of any run from an acquisition on admits at most max + max*length/window, even with sweeps whose clock reading is stale |
| `FairShare.TotalBound` | internal/fairshare/fairshare.go:50-159 | from a user's first request on at most min(burst, max) + max*time/window |
| `FairShare.PauseReadmits` | internal/fairshare/fairshare.go:137-159 | after a pause of window/max a user is admitted, swept or not |
| `FairShare.BurstExact` | internal/fairshare/fairshare.go:120-159 | of n requests a new user makes at one instant, min(n, burst, max) are admitted |
| `FairShare.UnwindowedForgets` | internal/fairshare/fairshare.go:85-97 | without a positive window sweeping breaks the bound: n requests between sweeps are all admitted |
| `FairShare.Scheduler.AcquireToken` | internal/fairshare/fairshare.go:50-59 | equals the specification step |
| `FairShare.Scheduler.Allow` | internal/fairshare/fairshare.go:137-159 | refill, cap and take as the specification says, other users untouched |
| `FairShare.Scheduler.CollectGarbage` | internal/fairshare/fairshare.go:85-97 | the loop deletes exactly the buckets not used for more than two windows |
| `LiveProbe.ProbeBound` | internal/health/liveprobe.go:106-126 | for every configuration and call pattern at most burst + elapsed/interval probes |
| `LiveProbe.BurstExact` | internal/health/liveprobe.go:106-126 | of n probes at once, min(n, burst) are admitted |
| `LiveProbe.PauseReadmits` | internal/health/liveprobe.go:106-126 | a probe an interval after the one before it is admitted |
| `LiveProbe.ProbeLimiter.constructor` | internal/health/liveprobe.go:64-81 | a full bucket; non-positive settings take the defaults |
| `LiveProbe.ProbeLimiter.Allow` | internal/health/liveprobe.go:106-126 | refill, cap and take as the specification says |

## Left out

- HTTP servers and clients, TLS, SSH and SOCKS5 dialing, metrics, tracing, chat notifications, release checks, command line and benchmarks: input and output.
- YAML and JSON decoding, regular-expression detectors and secret backends: their results are parameters.
- AES-GCM and nonce randomness: the cipher is a parameter that opens what it sealed; nothing cryptographic is claimed.
- Configuration reload: old and new limits coexist during a reload, so admission is modelled for one snapshot.
- Configuration validators, header deny-lists and vendor code tables: fixed case tables, not part of the stateful cores modelled here.
- Budget advisories other than `ConcurrentLeases`: text collectors.
- Settling a key that was never reserved: outside the store's contract (`internal/channel/rotation_store.go:83-84`).
- Request rewriting, request defaults and per-attempt timeouts of the failover loop: transformations of one request; replies are arbitrary.
- Failover.AttemptSound: `scores` counts where the breaker is told, whether or not the node has one.
- Fleet.Fleet.Walk: key pools and breakers are values here, each atomic access being the function `KeyPool.Pool` and `CircuitBreaker.Breaker` are proved to compute.
- NodeSelection.Router.Select: one atomic step with one clock reading, although the code asks each breaker under its own lock and clock and then moves the cursor (`main.go:1716-1766`).
- Fleet.Fleet.Score: storing the health flag and telling the breaker are one atomic step, although the code does one after the other (`main.go:1459-1465`).
- KeyPool.Pool.Next: one atomic step, although the code moves the cursor before it reads the keys one by one (`internal/keypool/keypool.go:47-62`).
- LazyRollover.LaterAnswersUnchanged: says nothing of custom policies, which may look at deadlines already expired.
- AdvertisedWait.HeaderIsTruthful: covers answers that were not clamped to the configured maximum; a clamped answer advertises less than the true wait on purpose.
- RecordLayer.DeliveredIsPrefix: says nothing of reads after the transport has failed for good or of writes after one has failed; the connection is given up then, and the code keeps no framing to resume from.
- FairShare.IntervalBound: Acquire is one step, as if the map's lock were held while the bucket is used; buckets are values in the map rather than objects with their own lock.
- InetAton.ParseIPv4Numeric: returns the 32-bit address; the bitwise or of disjoint byte fields is written as a sum, and its four bytes are not taken apart again.
- TunnelDeadlines.BothHalvesStop: local steps of a loop take no time, and an operation at or past its deadline returns an error.
- Traffic in one direction does not keep the other alive, and no such claim is made: idle deadlines are per reading direction.
- KeyLease settlement racing between goroutines: the once-guard is modelled as a flag under one lock.
