# Verification of sing-box-manager

A Dafny 4.11 model of the parts of sing-box-manager in which state, time and failure meet, and proofs of what
these parts promise. `dafny verify dfyconfig.toml` checks everything.

## What is modelled

**Traffic of streams** (`Accounting`, `ConnectionTracking`, `StreamStore`, `StreamSystem`, `StreamAttribution`,
`StreamCompaction`, `ConnectionStats`, `NodeFrames`). The aggregator turns a replaying stream of connection events into dated deltas and replay
checkpoints; the store commits a batch of them in one transaction; completed days are compacted. The aggregator,
the store and the collector are classes with the source's fields, and each method is proved against a function of
the old state. `StreamSystem` then puts the server, the aggregator, the tables and every failure between them into
one state machine - each lock-protected region and each transaction is one step - and proves an invariant of every
run. Ghost ledgers record every byte that is charged to a connection; `StreamAttribution` says whom each of them is
charged to, and `StreamCompaction` what a compaction leaves of a day. The collector class carries the run that its
code goes through, so the theorems about runs hold of it; frames, lost streams, the server, midnight and the other
services may act between any two of its methods and in every gap of a flush, and any commit may break off or lose its
answer. What the environment is assumed to do:
the server's totals never shrink and are final once a connection closes; a connection's user, host and address do not
change, and its events name them; every event of a frame says what the server
looked like when that event was written, and the server moves on from one event to the next, so that a connection
may open, grow and close in one frame; an update reports what was added since the last report; a reset replays every
live connection and the latest 4000 closed ones, of which the server forgets the oldest first - ties in the order of
retention -, and what it forgot never returns; a closing event carries the time of closing, its own or its
connection's; local dates never go backwards.

**Polled traffic** (`Calendar`, `Metering`, `Polling`, `BillingDay`, `Reconciliation`, `UsageStore`). Polled
counters are folded into days and billing months, months are rebuilt when the billing day moves, and what the
stream did not attribute is matched greedily across midnight. Days are numbered from 1 January of year 0, and
`Calendar` proves that the numbering agrees with the proleptic Gregorian calendar, section 3.2.1 of ISO 8601:2004.

**Startup** (`Startup`, `StartupGuard`). Any number of processes - operations, `sbc run` wrappers, engines and
observers - take three advisory locks without waiting, and any of them may die at any moment, also between the first
and the last of many files that an upgrade replaces. A command first recovers if there is a recovery record, then
settles, and only then writes or starts. The safety theorems are not vacuous: `Startup.UpgradeCanStart` and
`Startup.RecoveryCanStart` are runs that end with a ready engine. `StartupGuard` is the operation's own code, step by step. The answers of the
system are its inputs: each method is proved against a function of the old state and of a script of answers, its
phases are proved to be a path of the state machine, and `Installer.Refresh` relies on it.

**Chrome's languages** (`ChromeLanguage`). Enable and Disable over a state file and preferences files; every
replacement of a file is one atomic step, which may fail, succeed and still report an error, or be the last thing
a process does; other programs may edit, create or remove profiles between any two steps. A constant `healthy` says
that nothing of the kind happens, and the contracts say when the commands then succeed.

**Two smaller algorithms** (`Observer`, `TunRules`). Attribution of engine connections to the sockets of a
diagnostic command; a first-match rule list, where it sends every connection and query in every mode, and its
rewriting for TUN and mobile clients.

## Where the code and its documentation differ

- `record_snapshot` documents the daily/monthly identity as holding forever. It survives every poll
  (`Metering.RecordKeepsDrift`), but not every move of the billing day: months after the last rebuilt one keep
  their old rows, and a cycle that begins before the first daily row is skipped, so that its row may lack bytes or
  be absent. `BillingDay.RebuildIsExact` says for every month exactly when the identity holds after a rebuild;
  `BillingDay.StaleRowSurvives` and `BillingDay.PartlyCoveredIsSkipped` give an input for each failure.
- Polling of one run is exact if and only if the user never returned with bytes that had been seen before a poll
  left it out (`Polling.OneRunIsExact`); `Polling.OneRunTelescopes` says by how much it is off, and
  `Polling.InterruptedRunCountsTwice` is a run of three polls that records everything twice.
- Refresh promises that a configuration which does not come up is taken back. Apart from a shutdown that was not
  confirmed, it leaves an engine that loaded other bytes than the live file exactly in the cases that
  `StartupGuard.RefreshDisagrees` names. `StartupGuard.RefusedRefreshDisagrees` is one: the lease cannot be probed
  before the restart, and the old file cannot be renamed back. `StartupGuard.RefreshBesideForeignEngine` is the other:
  an engine started by hand beside a service that is not running.
- Evidence is exact as long as the table of owners has room. A new connection that matches when 4096 are known is not
  noted, and `Observer.FullTableForgets` says exactly when that does no harm; `Observer.FullTableVerifiesTwo` is a
  run after which a socket is verified although two connections matched it.

## Model

| member | source | states |
|---|---|---|
| ConnectionTracking.EventKeepsTracked | sing_box_manager/connection_tracking.py:169-248 | every event leaves each tracked record with an unretired, counted checkpoint of equal counters, so retiring never misses |
| ConnectionTracking.ExcessIsSortedTail | sing_box_manager/connection_tracking.py:341-350 | the set form of retention equals sorting the retired checkpoints newest first and slicing after 4000 |
| ConnectionTracking.RetentionHolds | sing_box_manager/connection_tracking.py:341-350 | at most 4000 retired checkpoints stay, and every checkpoint that is not retired does |
| ConnectionTracking.FrameRetains | sing_box_manager/connection_tracking.py:150-163 | so after every frame |
| ConnectionTracking.ConnectionAggregator.ApplyFrame | sing_box_manager/connection_tracking.py:150-163 | a frame has exactly the effect of dropping what a reset no longer replays, its events in order, and retention |
| ConnectionTracking.ConnectionAggregator.Disconnected | sing_box_manager/connection_tracking.py:165-167 | a lost stream hides live records and changes nothing else |
| ConnectionTracking.ConnectionAggregator.ApplyEvent | sing_box_manager/connection_tracking.py:169-176 | each kind of event has its specified effect and keeps records and checkpoints in step |
| ConnectionTracking.ConnectionAggregator.ApplyNew | sing_box_manager/connection_tracking.py:178-195 | settles a new or replayed connection to its totals, retires it if already closed, ignores user-less ones |
| ConnectionTracking.ConnectionAggregator.ApplyUpdate | sing_box_manager/connection_tracking.py:197-221 | adds a known connection's increments to bucket, record and checkpoint; unknown ids and zero increments change nothing |
| ConnectionTracking.ConnectionAggregator.ApplyClosed | sing_box_manager/connection_tracking.py:223-248 | settles what updates did not cover when totals are present, counts an uncounted connection, then retires it |
| ConnectionTracking.ConnectionAggregator.EnsureRecord | sing_box_manager/connection_tracking.py:250-277 | a connection seen before starts from its checkpoint and is not counted again; the record names its user and destination, which StreamAttribution.EveryChargeBelongs relies on |
| ConnectionTracking.ConnectionAggregator.AttributeToTotal | sing_box_manager/connection_tracking.py:279-304 | charges only what is owed beyond the accounted counters, never negative |
| ConnectionTracking.ConnectionAggregator.AddPending | sing_box_manager/connection_tracking.py:306-325 | adds to the bucket of the local day, user, host and address; an empty charge creates none |
| ConnectionTracking.ConnectionAggregator.PutCheckpoint | sing_box_manager/connection_tracking.py:327-332 | a changed checkpoint becomes dirty, and a checkpointed id is no longer to be removed |
| ConnectionTracking.ConnectionAggregator.Retire | sing_box_manager/connection_tracking.py:334-339 | the record goes, the checkpoint stays with its time of closing |
| ConnectionTracking.ConnectionAggregator.PruneRetired | sing_box_manager/connection_tracking.py:341-350 | forgets exactly the retired checkpoints beyond the retention limit and remembers to delete their rows |
| ConnectionTracking.ConnectionAggregator.PrepareBatch | sing_box_manager/connection_tracking.py:352-374 | returns the same batch until acknowledged; a new one holds every pending bucket once, the dirty and the removed sets |
| ConnectionTracking.ConnectionAggregator.Acknowledge | sing_box_manager/connection_tracking.py:376-379 | releases exactly the batch in flight; any other is refused without effect |
| ConnectionTracking.ConnectionAggregator.OldestPendingDate | sing_box_manager/connection_tracking.py:381-385 | the least day of any pending or in-flight delta, or none |
| NodeFrames.Partition | sing_box_manager/connection_stats.py:237-254 | a service is given the node's updates and the events of its own inbound, user names stripped |
| NodeFrames.StrippingNames | sing_box_manager/connection_stats.py:249-253 | a name behind its protocol prefix comes out alone; every other name, and every name of naive, stays, and so does the rest of the event |
| NodeFrames.PartIsOwnPart | sing_box_manager/connection_stats.py:237-254 | updates of other services' connections, and events that name no inbound, leave an aggregator as it was |
| NodeFrames.SplitIsExact | sing_box_manager/connection_stats.py:237-254 | every aggregator ends up as if it had been sent the updates of its own connections and the events that name its inbound, and nothing else, resets included |
| NodeFrames.BareCloseIsLost | sing_box_manager/connection_stats.py:237-254 | a closing event without its connection reaches no aggregator: every one ends up as without it |
| NodeFrames.ResetForgets | sing_box_manager/connection_tracking.py:150-163 | after a reset frame nothing is known but what the frame named, and what it left out will be deleted |
| StreamStore.TrafficStore.CommitStreamBatch | sing_box_manager/traffic_store.py:535-690 | rows per domain and per destination, checkpoints, days and batch id change together, and every delta of a new batch has its day known afterwards; a repeated batch or a compacted day changes nothing |
| StreamStore.DeltaDaysKnown | sing_box_manager/traffic_store.py:565-568 | the known days grow by exactly the days of the deltas |
| StreamStore.CommitRetains | sing_box_manager/traffic_store.py:647-690 | whatever the table held, at most 4000 retired rows stay, every unretired checkpoint of the batch is there, and nothing that it removes |
| StreamStore.FoldConserves | sing_box_manager/traffic_store.py:774-850 | folding a user's day changes no sum of uploads, downloads or connections |
| StreamStore.FoldKeepsTop | sing_box_manager/traffic_store.py:774-850 | at most top_n ordinary domains remain, and each has more bytes than every folded one, or as many and the smaller name |
| StreamStore.FoldKeepsReserved | sing_box_manager/traffic_store.py:774-850 | only visited hosts are folded, and into the other row alone: the remaining bookkeeping rows stay as they are |
| StreamStore.FoldSplits | sing_box_manager/traffic_store.py:774-850 | survivors are exactly the ordinary domains outside the tail, unchanged |
| StreamStore.FoldTwice | sing_box_manager/traffic_store.py:774-850 | folding again finds nothing to fold |
| StreamStore.TrafficStore.FoldGroup | sing_box_manager/traffic_store.py:798-850 | deleting the tail and adding its sums to the other row folds one user's day, and the result counts the deleted rows |
| StreamStore.TrafficStore.CompactDomainUsage | sing_box_manager/traffic_store.py:774-850 | folds every user of one day and no other day; the result counts the folded rows |
| StreamStore.TrafficStore.CompactCompletedDays | sing_box_manager/traffic_store.py:748-772 | folds exactly the due days, marks them, and returns how many rows were folded |
| StreamSystem.ExactlyOnce | sing_box_manager/connection_tracking.py:150-379 | over every run with reconnects, lost acknowledgements and crashes, stored bytes of a connection equal its stored checkpoint, never exceed the truth, equal it once retired with final totals; it is counted once |
| StreamSystem.RetiredStaysExact | sing_box_manager/connection_tracking.py:334-350 | once the table holds a connection retired with final totals, its stored bytes equal the truth and it is counted once in every later state, also after its checkpoint is pruned |
| StreamSystem.EventsKeep | sing_box_manager/connection_tracking.py:150-163 | the books hold after the events of a frame, each judged by the server as it was when the event was written |
| StreamSystem.AnotherEvent | sing_box_manager/connection_stats.py:31-35 | a frame may go on with any event of a server that has moved on since the event before |
| StreamSystem.ShortConnectionIsOneFrame | sing_box_manager/connection_stats.py:31-35 | a connection may open, carry bytes and close within one frame |
| StreamSystem.RowsHoldTheLedger | sing_box_manager/traffic_store.py:535-645 | stored rows add up to the committed charges for every user's day, and row by row until the day is compacted |
| StreamSystem.DestinationsHoldTheLedger | sing_box_manager/traffic_store.py:602-636 | per day, user and address, this service's share of the destination table is the sum of the committed charges that carried the address |
| StreamSystem.CheckpointRefinement | sing_box_manager/traffic_store.py:647-690 | the table overlaid with the batch in flight and the dirty and removed sets is the map in memory; the store's own limit deletes nothing more |
| StreamSystem.StorePruneDeletesNothing | sing_box_manager/traffic_store.py:680-690 | the retention limit of the store never deletes a row that memory keeps |
| StreamSystem.PruneForgetsOnlyGone | sing_box_manager/connection_tracking.py:341-350 | retention forgets only connections that can no longer be replayed |
| StreamSystem.CompactionNeverStrandsABatch | sing_box_manager/connection_stats.py:301-315 | a batch never names a compacted day, however many commits failed across midnights |
| StreamSystem.DurableGrows | sing_box_manager/traffic_store.py:535-645 | what was committed is never lost by any later step |
| StreamSystem.DeltasSumLedger | sing_box_manager/connection_tracking.py:352-374 | the deltas of a batch sum to the charges it carries, however they are grouped |
| StreamSystem.RunKeeps | sing_box_manager/connection_stats.py:208-330 | the invariant behind these results holds in every state of every run |
| StreamAttribution.EveryChargeBelongs | sing_box_manager/connection_tracking.py:250-325 | over every run each charge, stored or not, names the user, host and address of its own connection, and the day on which a frame with an event of that connection was applied |
| StreamAttribution.TablesHoldTheTraffic | sing_box_manager/traffic_store.py:535-645 | so what is stored of a user's day, of one of its hosts until the day is compacted, and of one of its addresses is what connections with that user, host or address carried |
| StreamCompaction.RowsHaveDays | sing_box_manager/traffic_store.py:565-645 | over every run each stored row has its day among the known days |
| StreamCompaction.CompactionIsComplete | sing_box_manager/traffic_store.py:748-850 | a compaction overlooks no day: each earlier day that was not compacted keeps of every user at most top_n hosts, the top ones and unchanged, and is marked; later days stay |
| ConnectionStats.ConnectionStreamCollector.Deliver | sing_box_manager/connection_stats.py:208-227 | a frame applied under the lock is one step of the system |
| ConnectionStats.ConnectionStreamCollector.StreamEnded | sing_box_manager/connection_stats.py:225-235 | however a stream ends, visibility goes and checkpoints stay |
| ConnectionStats.ConnectionStreamCollector.Flush | sing_box_manager/connection_stats.py:256-280 | whatever fails and whatever happens in its gaps, no charge is lost; when no commit fails it is clean, and then every charge made before it is durable; if nothing happened meanwhile either, everything is durable, nothing is in flight and the table equals memory |
| ConnectionStats.ConnectionStreamCollector.Meanwhile | sing_box_manager/connection_stats.py:208-235 | whatever may happen between two regions leaves the batch in flight and the stored ledger alone and only adds charges |
| ConnectionStats.ConnectionStreamCollector.ChooseLimit | sing_box_manager/connection_stats.py:301-309 | the cutoff is the least of the day that the flush began with and every unacknowledged day, of this service and of the others, even if midnight has passed since |
| ConnectionStats.ConnectionStreamCollector.CompactCompletedDays | sing_box_manager/connection_stats.py:301-330 | compaction, unless it breaks off, folds and marks exactly the due days before that cutoff, and touches no ledger and no aggregator |
| ConnectionStats.IdleIsSettled | sing_box_manager/connection_stats.py:256-280 | an idle aggregator without a batch means that all charges are stored and both checkpoint maps agree |
| Reconciliation.MatchBoundary | sing_box_manager/traffic_reconciliation.py:60-88 | one boundary takes from each day in its interval exactly min(excess, remaining shortfall, remaining capacity), oldest first, and lists every nonzero share |
| Reconciliation.OldestFirst | sing_box_manager/traffic_reconciliation.py:68-88 | while a day keeps excess, no later day of the same poll gave anything |
| Reconciliation.SortBoundaries | sing_box_manager/traffic_reconciliation.py:60-62 | the boundaries in the order of end date, protocol and user, each as often as given |
| Reconciliation.BisectLeft | sing_box_manager/traffic_reconciliation.py:69-70 | the first position whose day is not before the given one |
| Reconciliation.ReconcileBoundaries | sing_box_manager/traffic_reconciliation.py:38-95 | gaps are the positive remainders; for any input each poll in turn takes what it can of what the ones before it left, the offsets balance every residual, none changes sign or grows, and they fall into one part per poll, each inside its interval and in sum within its counters; for disjoint polls every gap is exact |
| Reconciliation.MatchingIsExact | sing_box_manager/traffic_reconciliation.py:38-95 | for disjoint polls each gap is what is left of the shortfall when it, the poll's counters, or the whole excess of the covered days is used up, and no more than these is used |
| Reconciliation.LateFlushNeverRaisesAGap | sing_box_manager/traffic_reconciliation.py:42-48 | lowering residuals, as a late stream flush does, raises no gap |
| Reconciliation.RerunAgrees | sing_box_manager/traffic_reconciliation.py:38-95 | running again on the same data gives the same gaps and the same offset rows |
| Reconciliation.MatchingConserves | sing_box_manager/traffic_reconciliation.py:75-88 | per user, protocol and direction the residuals' sum is unchanged |
| Calendar.CyclesTile | sing_box_manager/traffic_models.py:284-312 | a day has a cycle key exactly when it lies between that key's start and the next, for billing days 1 to 31 and every month |
| Calendar.OwnWindow | sing_box_manager/traffic_models.py:284-312 | every day lies in the window of its own key |
| Calendar.WindowsTile | sing_box_manager/traffic_models.py:295-312 | a date lies in its window, the window's dates are those with its key, and the day after starts the next month's cycle |
| Calendar.BoundsAre | sing_box_manager/traffic_models.py:274-312 | the month arithmetic of the source names the key's month, its clamped start, and the day before the next start |
| Calendar.OrdinalOrders | sing_box_manager/traffic_models.py:305-308 | comparing dates is comparing the days they number |
| Calendar.OrdinalOfDate | sing_box_manager/traffic_models.py:295-312 | numbering days loses no date |
| Calendar.YearsAreGregorian | sing_box_manager/traffic_models.py:295-312 | the days before a year are those of the Gregorian calendar |
| Calendar.StartsOnBillingDay | sing_box_manager/traffic_models.py:284-293 | a cycle starts on the billing day, or on the last day of a month without it |
| Metering.RecordKeepsDrift | sing_box_manager/traffic_store.py:341-477 | a snapshot never changes how far a month row is from the sum of its days |
| Metering.MonthsEqualTheirDays | sing_box_manager/traffic_store.py:350-368 | from an empty store, after any polls under one billing day, every month row is the sum of its daily rows |
| Metering.RecordedBuckets | sing_box_manager/traffic_store.py:378-477 | each reported user's row of the day, and of the month whose cycle holds it, grows by what the counter gained since the last poll, or by all it shows after a restart or a fall; no other row changes |
| Metering.RecordedBoundaries | sing_box_manager/traffic_store.py:397-417 | a boundary is new exactly for the reported users of a service that was polled on an earlier day and has not restarted, if none ends on that day yet; it starts on that earlier day |
| Metering.RecordedBoundaryHolds | sing_box_manager/traffic_store.py:397-417 | in each direction it holds what the user's row of the day grew by, or nothing if the counter fell |
| Metering.RecordedBaselines | sing_box_manager/traffic_store.py:479-506 | the service remembers day and uptime, and the counters of exactly the users that were reported |
| Metering.RecordKeepsPollsFollowing | sing_box_manager/traffic_store.py:397-417 | with nondecreasing dates poll intervals stay disjoint, and the conflict clause of the insert is never used |
| Metering.PollsStayFollowing | sing_box_manager/traffic_store.py:397-417 | so they do over every run of polls |
| Metering.PollsAreDisjoint | sing_box_manager/traffic_store.py:881-891 | so the matching always works on disjoint intervals |
| Polling.NeverOvercounts | sing_box_manager/traffic_store.py:378-506 | over every run of serving, restarting and polling, recorded bytes of a user never exceed what was served |
| Polling.DeltaIsOwed | sing_box_manager/traffic_models.py:356-359 | whether or not a restart is noticed, a delta is at most what is not yet recorded, and exactly that within a run |
| Polling.OneRunTelescopes | sing_box_manager/traffic_models.py:356-359 | without a restart, whichever polls leave the user out, recorded bytes are the last counter less the first baseline plus, at each return, the counter last seen before it |
| Polling.OneRunIsExact | sing_box_manager/traffic_store.py:466-490 | recorded bytes are never less than the counter's growth, and equal to it if and only if every return came after a last counter of zero |
| Polling.InterruptedRunCountsTwice | sing_box_manager/traffic_store.py:466-490 | an input: three polls of one counter from an empty store, the second without its user, record it twice |
| Polling.AbsentUserIsCountedAgain | sing_box_manager/traffic_store.py:466-490 | a poll that leaves a user out deletes the baseline: the next one adds the whole counter again, exactly then |
| BillingDay.RecomputeMonthlyUsage | sing_box_manager/traffic_store.py:1591-1656 | inside the rewritten span every row is the sum of its days and stale rows are gone; outside it, and without covered cycles, nothing changes |
| BillingDay.RebuildIsExact | sing_box_manager/traffic_store.py:1617-1655 | for every month, its row equals its days after a rebuild if and only if it lies in the rewritten span, or its old row was empty (cycle covered from its first day) or already equal to its days (cycle begun before the first daily row) |
| BillingDay.StaleRowSurvives | sing_box_manager/traffic_store.py:1641-1646 | an input for which the identity fails after a rebuild, reached by two polls from an empty store and one move of the billing day: a row after the last rebuilt key |
| BillingDay.PartlyCoveredIsSkipped | sing_box_manager/traffic_store.py:1617-1622 | another input, reached by one poll from an empty store and one move of the billing day: a cycle begun before the first daily row has days and no row |
| BillingDay.SpanIsCovered | sing_box_manager/traffic_store.py:1624-1631 | every cycle of the rewritten span is covered by daily rows from its first day |
| UsageStore.UsageStore.RecordSnapshot | sing_box_manager/traffic_store.py:341-506 | one poll's deltas go to the day and to the month whose cycle holds it; boundaries, baselines and service state follow |
| UsageStore.UsageStore.ReconcileBillingDay | sing_box_manager/traffic_store.py:1227-1247 | rebuilds exactly when the billing day differs from the stored basis, and stores it with the rows |
| UsageStore.UsageStore.ReconcileDomainAttribution | sing_box_manager/traffic_store.py:852-951 | unattributed rows and offsets become what one matching pass over all residuals and polls leaves; the result is the bytes by which gaps grew |
| UsageStore.ParkedNothing | sing_box_manager/traffic_store.py:904-917 | nothing was parked exactly when no gap grew |
| UsageStore.ParkedIsNew | sing_box_manager/traffic_store.py:904-917 | what is parked is all bytes of the gaps less those that were there before |
| UsageStore.RerunParksNothing | sing_box_manager/traffic_store.py:852-951 | without new data a second run writes the same rows and parks nothing |
| UsageStore.FlushNeverRaisesAGap | sing_box_manager/traffic_store.py:852-858 | bytes attributed late never raise a gap |
| Startup.StartupIsSafe | internal/cli/startup.go:83-177 | while live files are replaced nobody is authorized but not ready: the lease is free, held by a ready engine, or by a wrapper whose grant test fails |
| Startup.OneEngine | internal/cli/startup.go:215-265 | at most one engine runs, starting or ready |
| Startup.StartsFromCompleteFiles | internal/cli/startup.go:226-265 | nobody is cleared to start from incomplete files, and they do not change under a start, also after operations that died while they replaced many files |
| Startup.GrantLifetime | internal/cli/startup.go:142-177 | a grant is held by one operation that is starting the engine, and by nobody else, and the files are complete because it recovered or settled before |
| Startup.PartialFilesAreRecorded | internal/install/upgrade.go:171-217 | files that do not belong together always have a recovery record, whoever died and whenever |
| Startup.OnlyAFullRewriteMends | internal/install/upgrade.go:171-217 | files do not belong together while somebody replaces many of them, and only a rewrite that finishes, never a crash, makes them complete |
| Startup.UpgradeCanStart | internal/install/upgrade.go:171-220 | a run in which an operation replaces many files and then starts the engine, which gets ready under its grant |
| Startup.RecoveryCanStart | internal/cli/startup.go:226-245 | a run in which an operation dies among its files, and a wrapper recovers by itself and starts the engine |
| Startup.MoveKeeps | internal/cli/maintenance.go:47-60 | every move of every process keeps the locks, the calm of operations, the record and the soundness of the files |
| Startup.WritesAfterAGrantFollowAStop | internal/cli/startup.go:140-177 | between a grant and the next write its holder saw a free lease or a ready engine |
| Startup.NobodyAuthorized | internal/cli/startup.go:81-102 | a probe that gets the lease, or an engine that answers, shows that nobody is starting |
| Startup.NobodyCalm | internal/cli/startup.go:247-254 | whoever finds a grant finds no operation that may write |
| StartupGuard.StartupGuard.EngineBusy | internal/maintenance/lock.go:60-70 | for every answer, takes and releases the lease as specified: a free one leaves the operation stopped, any other leaves its phase |
| StartupGuard.ProbeKeeps | internal/maintenance/lock.go:60-70 | a free lease means no engine, and under blocked permission that none is about to start |
| StartupGuard.OthersDrift | internal/cli/startup.go:81-102 | in every invariant state of the machine, whatever another process does is a drift that the guard's host admits |
| StartupGuard.NoStartUnderCalm | internal/cli/startup.go:247-254 | while an operation knows that nobody is authorized, no move of another process starts an engine |
| StartupGuard.FreeLeaseShows | internal/maintenance/lock.go:60-70 | a probe that gets the lease sees no engine anywhere in the machine |
| StartupGuard.StartupGuard.WaitEngine | internal/cli/startup.go:50-79 | stopped needs a free lease; started needs a held lease and an answer of an engine that loaded the live file |
| StartupGuard.StartupGuard.Stop | internal/cli/startup.go:104-126 | only a free lease and an inactive service count as stopped, and an active service, or one beside a busy lease, was asked to stop; every failure is unconfirmed; nothing is granted |
| StartupGuard.StartupGuard.BeforeRestore | internal/cli/startup.go:128-138 | success means startup is blocked and an attempted engine is gone |
| StartupGuard.StartupGuard.Grant | internal/cli/startup.go:157-176 | the grant is revoked on every way out; failure without an unconfirmed error leaves the lease free |
| StartupGuard.StartupGuard.Start | internal/cli/startup.go:142-177 | success leaves an engine that answered under the grant; failure leaves it stopped, or came before anything was touched, or says it is unconfirmed; without a confirmed stop and a vacant port startup is never granted |
| StartupGuard.StartSucceeds | internal/cli/startup.go:142-177 | a start with nothing in its way is done |
| StartupGuard.Installer.Refresh | internal/install/install.go:498-590 | for every script of answers, which file is live at each outcome; a configuration that was not staged, checked, saved and renamed is never published and changes nothing; unless a shutdown was not confirmed, engine and file disagree if and only if the script is one of those that RefreshDisagrees names |
| StartupGuard.RefreshDisagrees | internal/install/install.go:498-590 | the exact condition on the answers: published, and either the service was not running beside an engine, or its first restart was refused before any attempt, the rename back failed, and the engine lived on |
| StartupGuard.RefusedRefreshDisagrees | internal/install/install.go:569-582 | an input for which engine and file disagree: the probe before the restart fails, and so does the rename back |
| StartupGuard.RefreshBesideForeignEngine | internal/cli/maintenance.go:386-397 | another one: an engine started by hand beside an inactive service |
| StartupGuard.Installer.Restart | internal/cli/maintenance.go:386-401 | a service that was not running is not started and nothing changes; otherwise it is one start |
| ChromeLanguage.RestoreRecovers | internal/browserlanguage/language.go:432-485 | wherever a crash left things, restoring gives back the profile as it was, with or without its intl container |
| ChromeLanguage.RestoreUndoesApply | internal/browserlanguage/language.go:432-485 | restoring undoes either of the two values a record owns |
| ChromeLanguage.RestoreIsOwned | internal/browserlanguage/language.go:448-479 | a restore changes only values that the record owns, and nothing unrelated |
| ChromeLanguage.RestoreIsComplete | internal/browserlanguage/language.go:448-479 | every value of sbc's goes back, field by field, whatever somebody else chose for the others |
| ChromeLanguage.ApplyIsOwned | internal/browserlanguage/language.go:314-355 | so does an application |
| ChromeLanguage.ApplyKeeps | internal/browserlanguage/language.go:336-363 | before and after the write, and after the old target is forgotten, the record can undo the profile |
| ChromeLanguage.CaptureAccount | internal/browserlanguage/language.go:366-387 | account originals only grow, hold the values met first, and a foreign value or a non-string is refused |
| ChromeLanguage.PlanOwned | internal/browserlanguage/language.go:314-340 | the next record owns the old target until the profile holds the new one; foreign changes and unfinished other targets are refused |
| ChromeLanguage.PlanNew | internal/browserlanguage/language.go:321-331 | a new record holds exactly the profile's own languages, or is refused |
| ChromeLanguage.RestoreIntl | internal/browserlanguage/language.go:448-464 | field by field: originals and foreign values stay, sbc's values go back or go away |
| ChromeLanguage.RestoreAccount | internal/browserlanguage/language.go:465-479 | account fields go back only where they still exist with sbc's value |
| ChromeLanguage.Manager.WritePreferences | internal/browserlanguage/files.go:95-139 | a file is replaced only if it is still what was read, under a durable record |
| ChromeLanguage.Manager.Save | internal/browserlanguage/files.go:197-242 | the state file is the old or the new one, whatever is reported |
| ChromeLanguage.Manager.ApplyProfile | internal/browserlanguage/language.go:299-364 | at every crash point an unedited profile stays recoverable; originals are kept; done means that both containers speak the target, and nothing but a failure or a profile that is not ready prevents it |
| ChromeLanguage.Manager.Read | internal/browserlanguage/language.go:304-313 | a profile whose languages a policy forces, in either container, is never taken |
| ChromeLanguage.Manager.RestoreProfile | internal/browserlanguage/language.go:432-485 | done means that no value of sbc's is left, and that an unedited profile is as before the first command |
| ChromeLanguage.Manager.Enable | internal/browserlanguage/language.go:255-297 | never runs over a pending cleanup, alters no original, replaces no profile whose languages are forced; when done every unedited profile, its account included, speaks the target; when nothing fails and every profile is ready, it is done |
| ChromeLanguage.Manager.Disable | internal/browserlanguage/language.go:391-430 | when done nothing is left to recover and every unedited profile is exactly as before the first command; when nothing fails, it is done |
| ChromeLanguage.Manager.NoteTarget | internal/browserlanguage/language.go:220-252 | changes only the target, never records |
| Observer.VerifiedIsOneToOne | internal/diagnostic/observer.go:94-146 | a socket is verified if and only if it matched one connection only and that connection no other socket |
| Observer.PathOf | internal/diagnostic/observer.go:148-168 | the one path that the recognised tags name, unknown if none or several |
| Observer.OwnedByAnother | internal/diagnostic/observer.go:128-132 | a connection that fits two sockets verifies neither |
| Observer.OwnedHere | internal/diagnostic/observer.go:133-143 | a first match verifies, a second connection on the same socket invalidates |
| Observer.Observer.Observe | internal/diagnostic/observer.go:99-146 | at any time after the snapshot, records exactly the pairs of a new TCP connection of the inbound and a socket with its source and ports, host and, under TUN, destination, whose life holds the snapshot; ambiguity is for ever |
| Observer.Observer.MatchOne | internal/diagnostic/observer.go:128-143 | one fitting pair has exactly one of three effects: both sockets invalidated, nothing noted because the table is full, or the socket learns the connection and its path |
| Observer.FullTableForgets | internal/diagnostic/observer.go:133-135 | a new connection that matches while the table is full leaves evidence exact if and only if the socket was ambiguous already |
| Observer.FullTableVerifiesTwo | internal/diagnostic/observer.go:128-143 | 4096 matches on two fresh sockets and one more leave a verified socket that two connections matched |
| Observer.Observer.Track | internal/diagnostic/observer.go:172-192 | a new socket with nothing known of it, unless there are 256 |
| Observer.Observer.Finish | internal/diagnostic/observer.go:194-200 | a socket ends once |
| Observer.Observer.Report | internal/diagnostic/observer.go:223-230 | reported evidence is one-to-one, and a connection like the socket, in a snapshot inside the socket's life, took the reported path; anything else reports nothing |
| TunRules.ModeSends | sing_box_manager/desktop_config.py:473-526 | where every mode, under each of its names, sends a connection |
| TunRules.ModeAsks | sing_box_manager/desktop_config.py:430-470 | which resolver every mode asks |
| TunRules.TunDecides | sing_box_manager/desktop_config.py:264-305 | the complete meaning of the TUN list: DNS intercepted, private direct, public IPv6 and UDP rejected but time, all else as mixed with direct-system read as direct |
| TunRules.TunKeepsTcp | sing_box_manager/desktop_config.py:264-305 | every IPv4 TCP connection that is not DNS gets the mixed decision |
| TunRules.TunResolves | sing_box_manager/desktop_config.py:258-271 | every query goes to the mixed list's server with system read as aliyun |
| TunRules.MobileDecides | sing_box_manager/desktop_config.py:212-219 | moving the interception forward changes a decision exactly for DNS at a private address |
| TunRules.MovePast | sing_box_manager/desktop_config.py:288-305 | on arbitrary lists a rule can move past rules that never apply with it |
| TunRules.AliasDecidesAlike | sing_box_manager/desktop_config.py:418-427 | an older mode name decides every connection exactly as its mode |
| TunRules.AliasResolvesAlike | sing_box_manager/desktop_config.py:430-470 | and resolves every query as its mode |
| TunRules.AliasTunsAlike | sing_box_manager/desktop_config.py:264-305 | and so under TUN |
| TunRules.EveryModeDecides | sing_box_manager/desktop_config.py:473-526 | every offered mode ends in a rule of its own, so the final outbound is never used |
| TunRules.LinuxTun | sing_box_manager/desktop_config.py:276-305 | the list edited in place: renamed, interception moved behind sniffing, rejections inserted behind the private rule |
| TunRules.Mobile | sing_box_manager/desktop_config.py:212-219 | the list edited in place: interception moved to the second position |
| TunRules.BuildLinuxTun | sing_box_manager/desktop_config.py:224-305 | the TUN configuration is always built, and for every connection and query its lists mean what TunDecides and TunResolves say of the mixed ones |
| TunRules.BuildMobile | sing_box_manager/desktop_config.py:188-220 | the mobile configuration is always built, and its list decides as the mixed one except exactly for DNS at a private address |

## Left out

- The live-connection table and the reporting queries.
- StreamStore.TrafficStore.CommitStreamBatch: other services' rows in the destination table, which all services share; the table here is one service's share of it.
- Text: ids, hostnames, protocols and polled users are the ranks of their text; only equality and order matter.
- The order of deltas inside a batch and of the groups that compaction visits; both are arbitrary here.
- A transaction that fails for reasons outside the model changes nothing; SQL, schema and migration are not modelled.
- Hostname cleaning, timestamps of rows (`updated_at`) and time zones: days and domains are given values.
- StreamSystem.RunKeeps: one service; other services appear only through the shared marks of days and, in ConnectionStats, through the cutoff.
- ConnectionStats.ConnectionStreamCollector.Flush: one service; the publication of live connections, and the compaction at its end, which is a method of its own.
- NodeFrames.BareCloseIsLost: says that the aggregators are unaffected, not when the server sends such events; StreamSystem admits them on a service's own stream, where an event needs no inbound.
- Calendar.CyclesTile: dates begin with year 1; a cycle that would start in year 0, where the source raises, is given its proleptic date.
- Polling.NeverOvercounts: the polled user set changes only at a restart, because baselines of absent users are deleted; OneRunTelescopes and OneRunIsExact state the exact failure otherwise.
- StreamAttribution.EveryChargeBelongs: a connection whose host or address changes between two of its events; the record keeps the first ones until a reset.
- StreamSystem.ExactlyOnce: closing events without any time, for which the source takes the time of arrival; retention then orders connections by another time than the server does.
- UsageStore.UsageStore.ReconcileDomainAttribution: takes the stream's domain rows as sums per day, user and protocol, and keeps offsets as a set.
- Startup: Windows locks, TUN operations and their recovery, and how long a process retries a busy lock; a retry is a later step.
- Startup.StartsFromCompleteFiles: installation and removal, which write and delete files without a recovery record; commands that neither write the engine's files nor start it, apart from a plain stop.
- StartupGuard.Installer.Refresh: the download, the subscription's format and the check of a staged file are answers of the script; an unconfirmed shutdown is reported to the caller, and nothing is said of the engine then.
- ChromeLanguage: JSON syntax, symbolic links, file ownership, the table of language names, policy files (an arbitrary refusal) and Status; the order of profiles is arbitrary.
- Observer: the polling thread and the clock; times are given and never go backwards.
- TunRules: rule sets and the portal's exceptions are named conditions; what sniffing learns is given.
- Region matching, service managers, installation of binaries, deployment and all user interfaces.
