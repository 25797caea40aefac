# Delivery, store and codec of Ibis in Dafny

Ibis indexes Starknet events: a subscriber (`internal/provider`) brings events in over
WebSocket and HTTP, an engine (`internal/engine`) numbers and stores them, a store
(`internal/store`) can take them back, and a codec (`internal/abi`) decodes them. This
project models the parts that must not lose an event and proves what they keep over
whole runs. `dafny verify dfyconfig.toml` checks everything.

**Delivery.** A chain is a function from block to a sequence of events. `Events.dfy` has
it; `Reconcile.dfy` is one session's reconcile state, an object whose methods are tied
to a value; `Recovery.dfy` is what `missing` gives back and what a retry of it gives;
`StaleTicks.dfy` is every interleaving of reorgs with a tick. `Delivery.dfy` runs ticks
against a live path and registrations that may do anything in between: `Feed.Interleave`
is called wherever the source lets another goroutine in. On top of it,
`ContractTransport.dfy` and `KeysTransport.dfy` are the two transports over whole runs of
failed dials, dropped sessions, partial backfills and failed ticks, and `Collective.dfy`
compares the collective tick with the individual one. `SeedProtocol.dfy` (the seed lock
and the resume floor), `Liveness.dfy` (the counters behind the promote gate) and
`History.dfy` (markers, crashes, freezes and restarts) are labelled state machines whose
theorems range over every sequence of steps. `Backfills.dfy` is the retried background
backfill with its generations.

**Reversible store.** `Store.dfy` and `Indexer.dfy`: after any events and reorgs the
store shows exactly what the surviving operations alone would have put there.

**Codec and keys.** `AbiTypes.dfy`, `AbiDecoder.dfy` and `AbiParser.dfy` prove the felt
decoder inverse to an encoder and the type-name parser inverse to a printer;
`Bytes.dfy` and `BadgerKeys.dfy` prove the order of Badger's event keys.

RPCs, dials, timers and the scheduler are nondeterministic choices. Event identities are
the hashed content itself, so the hash is taken as injective.

## Where the code does less than it is meant to

Each of these is a lemma or method with the input that shows it, beside the exact
condition or the theorem that holds without it.

- The live path of a firehose-keys stream counts an event as delivered before its cursor
  guard can discard it, although the comment at `internal/provider/firehose_keys.go:842`
  says the live stream did deliver it. An event observed below its address's cursor is
  lost (`KeysTransport.LateEventIsLost`), and so is one that another step overtakes
  between the two (`KeysTransport.OvertakenEventIsLost`). `Delivery.GuardLosesIff` says
  when the guard costs an event; all others are sent
  (`KeysTransport.KeysStream.NoGapMeansSent`).
- Pruning counts outside the window delivers twice (`Recovery.WindowPruneRedelivers`,
  condition in `Recovery.FullRetryIsCleanIff`).
- A rollback from block 0 leaves a started reconciler's `last` (`StaleTicks.RollbackLowersIff`).
- Without reconcile, a reconnect can resume past unfetched blocks
  (`ContractTransport.SkippedEventIsLost`, exactly when in
  `ContractTransport.ResumeSkipsIff`), and so can a firehose-keys stream
  (`KeysTransport.KeysStream.CloseSession` names the blocks). All others are sent.
- An address that joins a firehose-keys stream at a block that reconcile has read, or has in
  hand, can miss events (`KeysTransport.JoinedBehindIsLost`), and so can one that joins a
  session whose backfill does not complete (`KeysTransport.JoinedUnreconciledIsLost`). Any
  other joiner misses none from its join point on, but for what the guard discards
  (`KeysTransport.KeysStream.CloseSession`).
- The three loads of TransportStatus can read complete although no instant was
  (`Liveness.TornReadHappens`; `Liveness.CompleteReadingIff` says exactly which readings
  are right).
- A pending completion of a registration without a backfill clears the marker a freeze
  relies on (`History.FreezeBeforeCompletionLosesHistory`, exactly when in
  `History.RegisteredWithoutLosesIff`), and so does a look that comes after the run's
  context ended (`History.LateCheckLosesHistory`, exactly when in `History.LateCheckIff`).
- A freeze of a live contract asks for no backfill, so a crash before the engine took what
  the stream had sent loses it (`History.CrashAfterFreezeLosesHistory`, exactly when in
  `History.CrashLosesIff`).
- Reverting an insert on a unique table removes the entry without restoring the older one
  (`Store.RevertDropsTheEntry`, exactly when in `Store.RevertKeepsEntriesIff`), and
  InverseOp is not an involution (`Store.InverseTwiceIff`).
- A confirmed block's log indices restart, so that late rows can take the place of others
  (`Indexer.LateRowsOverwriteIff`).
- Negative numbers in Cairo's own serialization are misread (`AbiDecoder.FieldSignedIff`).
- FeltSize is too small for types with a variable-size part (`AbiDecoder.FeltSizeIff`).
- "(T,)" resolves to two members (`AbiParser.TrailingCommaAddsAMember`).

## Model

| member | source | states |
|---|---|---|
| Reconcile.Reconciler.AddLocked | internal/provider/reconcile.go:113-126 | one more occurrence of the event is counted; a new highest block slides the window of 1024 blocks |
| Reconcile.Reconciler.Prune | internal/provider/reconcile.go:129-135 | exactly the blocks from the floor on stay counted |
| Reconcile.Reconciler.Observe | internal/provider/reconcile.go:138-148 | a live delivery is counted unless its block is already reconciled |
| Reconcile.Reconciler.Start | internal/provider/reconcile.go:151-165 | `last` becomes p, or one below a reorg noted before the hand-off if that is not above p; older counts go |
| Reconcile.Reconciler.Snapshot | internal/provider/reconcile.go:175-179 | `last` and the epoch of one instant |
| Reconcile.Reconciler.Advance | internal/provider/reconcile.go:183-194 | refused, with nothing changed, exactly when the epoch moved; otherwise `last` never goes back |
| Reconcile.Reconciler.ResumeFloor | internal/provider/reconcile.go:198-207 | 0 before the hand-off, the first unreconciled block after it |
| Reconcile.Reconciler.Rollback | internal/provider/reconcile.go:213-231 | whole new state of a reorg rollback: epoch, counts below the reorg, `last` below it once started, lowest reorg before that |
| Reconcile.Reconciler.MissingOf | internal/provider/reconcile.go:238-259 | the loop with its local counters returns the specified missing events, or refuses a stale epoch |
| Reconcile.Reconciler.Mark | internal/provider/reconcile.go:262-270 | counts the event unless the epoch moved, then changes nothing |
| Recovery.MissingCount | internal/provider/reconcile.go:238-259 | for every event, `missing` returns exactly max(0, fetched - seen) occurrences |
| Recovery.MissingInOrder | internal/provider/reconcile.go:238-259 | `missing` returns a subsequence of the fetch |
| Recovery.RetryReturnsTheRest | internal/provider/reconcile.go:238-270 | if the first j missing events count as seen, the same fetch yields exactly the others, in order |
| Recovery.MarksCount | internal/provider/reconcile.go:113-126 | marking never counts an event more often than it was marked, and exactly as often if no mark slides the window past it |
| Recovery.RetryIsExact | internal/provider/reconcile.go:238-270 | after any prefix of the missing events is sent and marked, with the fetch inside the window, a retry returns exactly the remaining suffix |
| Recovery.RetryNeverLoses | internal/provider/reconcile.go:113-126 | window pruning can only make a retry return more, never less |
| Recovery.FullRetryIsCleanIff | internal/provider/reconcile.go:113-126 | a fully delivered fetch is found complete again if and only if no mark of its own slid the window past one of its blocks |
| Recovery.ShortFetchIsInWindow | internal/provider/reconcile.go:113-126 | fetches of at most 1025 blocks always meet that condition |
| Recovery.WindowPruneRedelivers | internal/provider/reconcile.go:113-126 | a concrete fetch outside the window whose event is delivered twice |
| StaleTicks.EpochsStayInOrder | internal/provider/reconcile.go:183-270 | in every interleaving a tick holds an epoch the reconciler has had |
| StaleTicks.RollbackStopsTheTick | internal/provider/reconcile.go:213-231 | whatever follows a rollback, until a new tick begins nothing is marked or advanced, at most one more event is sent, and a started reconciler stays below the reorg |
| StaleTicks.StaleInvariant | internal/provider/reconcile.go:213-231 | a tick whose epoch is gone never marks or advances and has at most one send left |
| StaleTicks.OneLateSendHappens | internal/provider/reconcile.go:436-462 | the bound of one late send is reached |
| StaleTicks.PendingReorgLowersTheHandOff | internal/provider/reconcile.go:151-165 | after any live deliveries and reorgs before the hand-off at p, `last` is min(p, lowest reorg start - 1), clamped at 0 |
| StaleTicks.LowestIsLeast | internal/provider/reconcile.go:213-231 | that block is the least some reorg before the hand-off started at |
| StaleTicks.RollbackLowersIff | internal/provider/reconcile.go:213-231 | a rollback brings `last` below the reorg if and only if the reorg does not start at block 0 |
| Delivery.SeedBlock | internal/provider/firehose_keys.go:952-961 | a registration starts at the largest of its start block, tip + 1 and the resume floor |
| Delivery.CoverageLasts | internal/provider/reconcile.go:344-378 | what a session has covered stays covered through any deliveries, registrations and removals |
| Delivery.FetchCovers | internal/provider/reconcile.go:344-378 | handing on every routed occurrence of a fetched range covers that range |
| Delivery.MissingCovers | internal/provider/reconcile.go:436-462 | delivering only what is missing is enough: every counted occurrence had been handed on |
| Delivery.Feed.LiveObserve | internal/provider/firehose_keys.go:833-843 | a tracked event is counted and taken in hand, any other changes nothing; the reconciler stays backed by deliveries |
| Delivery.Feed.LiveGuard | internal/provider/firehose_keys.go:845-851 | discards the event in hand exactly when it is below its address's cursor, and accounts for it; a per-contract stream never discards |
| Delivery.Feed.LiveSend | internal/provider/firehose_keys.go:869-878 | the event in hand goes out once, and the cursor or the last live block rises to it, never back |
| Delivery.Feed.LiveRollback | internal/provider/subscriber.go:1158-1231 | a reorg on the per-contract stream keeps coverage up to the lowered `last` |
| Delivery.Feed.Seed | internal/provider/firehose_keys.go:936-973 | a new address joins the gap-fill set at its join point, at or above the resume floor, and an open session answers for it from there or from the end of the range in hand, if later |
| Delivery.Feed.Leave | internal/provider/firehose_keys.go:985-1003 | removal changes no join point and no coverage claim of the others |
| Delivery.Feed.Interleave | internal/provider/firehose_keys.go:792-878 | any number of steps of the rest of the program keep everything a tick relies on; `last` moves only together with the epoch |
| Delivery.Feed.DeliverMissed | internal/provider/reconcile.go:436-462 | on success every routed occurrence of the fetch is handed on and the epoch still holds |
| Delivery.Feed.DeliverOne | internal/provider/reconcile.go:436-462 | send, mark and cursor move, with anything in between, hand the event on once more; unless a reorg came, the cursor is at it |
| Delivery.Feed.Handle | internal/provider/reconcile.go:352-372 | success means the range is covered and `last` is its end; otherwise `last` did not move in the same epoch |
| Delivery.Feed.Advance | internal/provider/reconcile.go:183-194 | `last` passes a range only if the range is covered |
| Delivery.Feed.SplitRetry | internal/provider/reconcile.go:407-418 | success handles exactly [from, to]; on any error `last` is the end of a handled prefix; at most 2n - 1 calls, and exactly ceil(log2 n) + 1 when every call finds its range too big |
| Delivery.Feed.ReconcileRange | internal/provider/reconcile.go:344-378 | over all chunks `last` never jumps an unhandled block, and at most two calls per block are made |
| Delivery.Feed.ReconcileTick | internal/provider/reconcile.go:329-339 | success leaves `last` within the lag of the tip just read; whatever happens, what is covered stays covered |
| Delivery.Feed.StartReconcile | internal/provider/reconcile.go:151-165 | the hand-off happens only over a covered range |
| Delivery.Feed.FinishHand | internal/provider/subscriber.go:1158-1231 | the live loop ends with nothing in hand |
| Delivery.GuardLosesIff | internal/provider/firehose_keys.go:833-878 | at the guard: a later tick leaves the held event short if and only if it is below its cursor and was counted, but not sent, once too little |
| Delivery.SettledIsSent | internal/provider/firehose_keys.go:845-851 | what was sent or discarded as often as emitted was sent that often, unless it was observed below its cursor or overtaken in hand |
| Delivery.CeilLog2IsLeast | internal/provider/reconcile.go:407-418 | the count of SplitRetry's calls: the exponent is that of the least power of two not below n |
| ContractTransport.ResumeSkipsIff | internal/provider/subscriber.go:1083-1114 | a reconnect resumes past where the session's backfill or reconcile brought the stream if and only if reconcile never ran after a complete backfill and a live event was ahead of it |
| ContractTransport.ContractStream.BackfillFrom | internal/provider/subscriber.go:1395-1441 | everything below the returned block was sent, also on failure; success returns to + 1 |
| ContractTransport.ContractStream.BackfillAndReconcile | internal/provider/subscribe_backfill.go:140-176 | reconcile starts exactly after a complete backfill; what is in stays in through any ticks |
| ContractTransport.ContractStream.Session | internal/provider/subscriber.go:1028-1153 | a session that drops anywhere leaves no gap below the resume block, but for the blocks it skipped without reconcile |
| ContractTransport.ContractStream.CloseSession | internal/provider/subscriber.go:1083-1114 | the resume block follows from where the backfill stopped, the last live block, p and the reconcile floor; with reconcile on it is never past what is in, with reconcile off the blocks it passes are exactly those from there on |
| ContractTransport.ContractStream.PollRange | internal/provider/subscriber.go:984-1022 | a polled range moves the block only after all its events were sent |
| ContractTransport.ContractStream.PollUntilCaughtUp | internal/provider/subscriber.go:922-976 | no gap; success means the tip is within the threshold |
| ContractTransport.ContractStream.PollEvents | internal/provider/subscriber.go:1235-1352 | no gap through any number of polls |
| ContractTransport.ContractStream.SubscribeWSS | internal/provider/subscriber.go:1028-1153 | no gap over any pattern of failed dials and ended sessions, up to giving up |
| ContractTransport.ContractStream.SubscribeContract | internal/provider/subscriber.go:888-915 | whole runs: at every session boundary every emission of [StartBlock, lastBlock) was sent, except in blocks that a reconnect without reconcile resumed past; with reconcile on there are none |
| ContractTransport.SkippedEventIsLost | internal/provider/subscriber.go:1083-1114 | a run of two sessions without reconcile: the live stream begins past an emitted event, the reconnect resumes there, and the next backfill, up to any block, does not send it |
| KeysTransport.RoutedRangeIn | internal/provider/subscribe_backfill.go:291-332 | sending what routing keeps of a range brings in every routed emission of it |
| KeysTransport.KeysStream.NoGapMeansSent | internal/provider/firehose_keys.go:545-569 | without a gap, every emission of a tracked fill from the start of its answer to its cursor was sent, except in skipped blocks and those the guard discarded after they came late or were overtaken |
| KeysTransport.KeysStream.OrderedMeansSent | internal/provider/firehose_keys.go:845-851 | if the live stream never delivers an unsent event below its address's cursor, only overtaken events are discarded |
| KeysTransport.LateEventIsLost | internal/provider/firehose_keys.go:833-878 | for any two consecutive events of an address, delivered live in the wrong order: the first is never sent, the tick misses nothing and advances past it |
| KeysTransport.OvertakenEventIsLost | internal/provider/firehose_keys.go:833-878 | the race: the tick recovers the second event while the first is in hand; the guard then discards the first, and the tick advances past it |
| KeysTransport.JoinedBehindIsLost | internal/provider/firehose_keys.go:936-973 | an address joins inside the range a tick has in hand, and the live stream begins behind that range: the event between is never sent, and the cursor is past it |
| KeysTransport.JoinedUnreconciledIsLost | internal/provider/subscribe_backfill.go:264-272 | an address joins a session whose backfill does not complete, and the live stream begins past its join point: the event between is never sent, and the cursor, which is not capped, is past it |
| KeysTransport.KeysStream.PollFill | internal/provider/firehose_keys.go:746-787 | one fill is caught up from its cursor without a gap, registrations happening meanwhile |
| KeysTransport.KeysStream.FillPass | internal/provider/firehose_keys.go:746-787 | after a pass the returned number is the least cursor of the snapshot's fills, and some fill has it; whoever registers meanwhile adds to the fills |
| KeysTransport.KeysStream.FillBehind | internal/provider/firehose_keys.go:196-206 | commits the block if and only if no fill is behind it |
| KeysTransport.KeysStream.GapFill | internal/provider/firehose_keys.go:614-736 | ends for any finite number of registrations; with none, passes are bounded by the first measured gap; success means no fill is behind the resume block and that block is near the tip |
| KeysTransport.KeysStream.Backfill | internal/provider/subscribe_backfill.go:291-332 | on success every emission of [from, p] the base routes is in |
| KeysTransport.KeysStream.BackfillAndReconcile | internal/provider/subscribe_backfill.go:140-176 | reconcile runs exactly after a complete backfill; the base stays in |
| KeysTransport.KeysStream.CapCursors | internal/provider/subscribe_backfill.go:264-272 | cursors go back to the base, never forward |
| KeysTransport.KeysStream.CapCursorsTo | internal/provider/subscribe_backfill.go:277-285 | cursors go back to at most the given block |
| KeysTransport.KeysStream.OpenSession | internal/provider/subscribe_backfill.go:254-261 | the base is the fills' cursors, none behind the committed block, all in; the session answers for each from where the stream does |
| KeysTransport.KeysStream.CloseSession | internal/provider/firehose_keys.go:545-569 | after capping, for every tracked fill all of [start, cursor) is in and sent, bar late and overtaken events and, with reconcile off, the blocks between where a complete backfill brought it and its cursor; for one that joined during a session that reconciled the start is its join point or the end of what had been or was being read when it joined, if later; else the cursor it is left with |
| KeysTransport.KeysStream.Session | internal/provider/firehose_keys.go:520-569 | one session, dropped anywhere, keeps that |
| KeysTransport.KeysStream.Run | internal/provider/firehose_keys.go:481-585 | whole runs, with reconcile on or off: that holds at every session boundary for any pattern of failures and registrations, for all addresses that joined before or during earlier sessions |
| SeedProtocol.StepKeepsInvariant | internal/provider/firehose_keys.go:105-206 | every step of registrations, forwarding, rollbacks and gap-fill keeps the seed invariant |
| SeedProtocol.InvariantHolds | internal/provider/firehose_keys.go:105-206 | so does every interleaving |
| SeedProtocol.NoFillBehindTheFloor | internal/provider/firehose_keys.go:196-206 | from a committed resume block to the end of its session no fill is behind the floor |
| SeedProtocol.HistorySplits | internal/provider/firehose_keys.go:896-926 | a registration's history is split between its backfill and its live stream, which starts at the seeded cursor: the largest of the start block, tip + 1 and the resume floor of that moment; they overlap in the deploy block alone and exactly when the live stream starts there |
| SeedProtocol.RollbackMissesNoChild | internal/provider/firehose_keys.go:408-428 | a rollback that got the lock lists every child, and each is rolled back however late |
| SeedProtocol.WithoutTheLockItFails | internal/provider/firehose_keys.go:196-206 | the same steps without the lock leave a fill below the committed block |
| Collective.RecoveryInTwo | internal/provider/reconcile.go:532-612 | recovering a range in two pieces delivers what one piece would |
| Collective.ShareRecovered | internal/provider/reconcile.go:344-378 | one chunk more, delivered and advanced over, extends what one piece would have delivered |
| Collective.BatchIsShare | internal/provider/reconcile.go:574-588 | what a collective chunk assigns to a child is the child's own share above what it has reconciled |
| Collective.IndividualTick | internal/provider/reconcile.go:329-378 | a tick on one child's scope delivers exactly what is recoverable, whatever the chunking |
| Collective.MemberTurn | internal/provider/reconcile.go:532-612 | one member's part of a chunk delivers that member's events only |
| Collective.Chunk | internal/provider/reconcile.go:532-612 | one chunk moves every member on, in any order |
| Collective.CollectiveTick | internal/provider/reconcile.go:532-612 | a collective tick recovers every member up to the target |
| Collective.Earliest | internal/provider/reconcile.go:538-550 | the shared query starts at the first block some member lacks |
| Collective.CollectiveRefinesIndividual | internal/provider/reconcile.go:532-612 | a collective tick gives each member the same events in the same order and the same final `last` as a tick of its own |
| Backfills.NextIsPrefix | internal/provider/subscriber.go:1395-1441 | the next event of a chunk continues a prefix of the whole delivery |
| Backfills.Subscriber.Track | internal/provider/subscriber.go:726-740 | a re-add takes a new generation and cancels the one it supersedes |
| Backfills.Subscriber.Cancel | internal/provider/subscriber.go:829-836 | cancels the generation in flight, if any |
| Backfills.Subscriber.Untrack | internal/provider/subscriber.go:741-750 | removes one's own entry only |
| Backfills.Subscriber.Others | internal/provider/subscriber.go:704-825 | registration, supersession, cancellation and other deliveries under generations that were given out keep this backfill's promise |
| Backfills.Subscriber.BackfillFrom | internal/provider/subscriber.go:1395-1441 | a failed fetch leaves exactly the chunks before it delivered, and uses up a failure |
| Backfills.Subscriber.Chunk | internal/provider/subscriber.go:1395-1441 | a chunk is delivered whole unless its fetch failed before the first event or the backfill was cancelled |
| Backfills.Subscriber.Complete | internal/provider/subscriber.go:791-809 | only a current, uncancelled backfill signals completion, behind its last event |
| Backfills.Subscriber.Run | internal/provider/subscriber.go:726-825 | for any finite failures it ends; it put each event of its range into the channel at most once, in order, completion last; uncancelled, exactly once and completed before it is untracked; the tip is read once |
| Backfills.Subscriber.Launch | internal/provider/subscriber.go:704-825 | from any valid state, a new generation: it supersedes the address's previous backfill and delivers its own range as Run says, leaving a valid state |
| Backfills.Subscriber.Attempt | internal/provider/subscriber.go:726-825 | one attempt at the rest of the range: it ends with the whole, or with a failure used up and the delivered prefix to resume from |
| Liveness.StepKeepsExact | internal/provider/subscriber.go:848-858 | every step keeps the counters exact |
| Liveness.CountersAreExact | internal/provider/subscriber.go:848-858 | in every interleaving streamsLive counts the live streams, streamsTotal the reserved ones, backfillsPending the reservations, and live never passes total |
| Liveness.CompleteIff | internal/provider/subscriber.go:628-632 | an atomic snapshot reads complete if and only if some stream is reserved, every reserved one is live and no backfill reservation is out |
| Liveness.CompleteMeansCovered | internal/provider/subscriber.go:689-702 | so nothing that reads as covered still lacks its history |
| Liveness.CompleteReadingIff | internal/provider/subscriber.go:628-632 | three loads with anything in between: a complete reading is right about the streams at the first load if and only if streamsTotal was the same at the second, and always right about the backfills at the third |
| Liveness.SteadyReadIsSound | internal/provider/subscriber.go:628-632 | the three separate loads are right if no stream is reserved or released between the first two |
| Liveness.TornReadHappens | internal/provider/subscriber.go:628-632 | otherwise they can read complete although no instant was |
| Liveness.CountingLateFails | internal/provider/firehose_keys.go:430-443 | counting a stream only when its goroutine runs reads complete too early; counting it first does not |
| History.StepKeepsInvariant | internal/engine/engine.go:656-747 | every step keeps: an unmarked config on disk, in memory or being written means that the history was taken, or that a live stream's catch-up brings it, or that a freeze or crash cut the catch-up |
| History.InvariantHolds | internal/engine/engine.go:656-747 | so does every run |
| History.HistoryIsCrashSafe | internal/engine/engine.go:656-747 | over any runs, crashes, freezes and restarts, whenever the config on disk has no marker the engine took every event of a backfill covering the history |
| History.LateCheckIff | internal/engine/engine.go:700-717 | a look after the run's context ended can end in an unmarked config on disk without the history taken, with no other such look, if and only if the contract is still there, its history is not in, and its backfill is untracked with events left to send |
| History.UnmarkedIsSafe | internal/engine/engine.go:656-747 | over any runs, registrations without a backfill included: no unmarked config on disk without its history taken, under way, in the channel or coming back, unless it was cut or the run ended between its freeze and its last events |
| History.RegisteredWithoutLosesIff | internal/engine/engine.go:448-518 | registered without a backfill, once everything under way is done: the history is lost if and only if a freeze found the marker still on and stopped the live stream before it had caught up |
| History.CrashLosesIff | internal/engine/engine.go:448-518 | a freeze between completion and tip, saved, and a crash before the engine took everything lose the rest if and only if the freeze found the live stream caught up and no backfill tracked |
| History.LossIsFinal | internal/engine/engine.go:656-747 | nothing but the deletion of the config ends a loss, restarts included |
| History.FreezeBeforeCompletionLosesHistory | internal/engine/engine.go:448-518 | for every n: a run in which a registration without a backfill is frozen before its completion is taken and loses the n events its live stream had yet to send |
| History.CrashAfterFreezeLosesHistory | internal/engine/engine.go:448-518 | for every n: a run in which a live contract is frozen and saved with n events still in the channel, and a crash then loses them for good |
| History.LateCheckLosesHistory | internal/engine/engine.go:700-717 | for every n: a run in which the context ends before addSubscription looks, and the marker goes with the backfill's n events never taken |
| Store.InverseTwiceIff | internal/store/operations.go:39-72 | InverseOp undoes itself if and only if the operation is an update or carries no data |
| Store.DeltaShows | internal/store/memory/memory.go:164-203 | applyAggDelta moves every sum, count and average of a table by exactly one row |
| Store.InsertMatches | internal/store/memory/memory.go:74-116 | an inserted row adds exactly itself to rows, unique entries and aggregates |
| Store.RevertMatches | internal/store/memory/memory.go:66-72 | reverting any one inserted row leaves a store that shows exactly the others; unique entries stay the latest live row of their key |
| Store.FreshKey | internal/store/memory/memory.go:74-83 | rows at distinct places have distinct keys |
| Store.RevertDropsTheEntry | internal/store/memory/memory.go:142-155 | reverting the newer of two rows with one unique key leaves no entry, although the older row is live |
| Store.RevertKeepsEntriesIff | internal/store/memory/memory.go:142-155 | for all operations: reverting one leaves the unique entries complete if and only if it has no unique key or no other row has the same one |
| Store.InsertKeepsEntries | internal/store/memory/memory.go:74-116 | an insert keeps them complete |
| Store.MemoryStore.ApplyAggDelta | internal/store/memory/memory.go:164-203 | the loop over the aggregate specs |
| Store.MemoryStore.ApplyOp | internal/store/memory/memory.go:74-162 | the whole new contents of one operation |
| Store.MemoryStore.ApplyOperations | internal/store/memory/memory.go:56-64 | operations applied in order |
| Store.MemoryStore.RevertOperations | internal/store/memory/memory.go:66-72 | inverses applied last first |
| Indexer.RevertingABlock | internal/store/memory/memory.go:66-72 | reverting a block's operations leaves a store that shows exactly the rows of the other blocks |
| Indexer.NumberedIsDistinct | internal/engine/processor.go:157-161 | rows numbered by position in their block never share a place |
| Indexer.PendingTracker.Track | internal/engine/pending.go:27-31 | appends to the block |
| Indexer.PendingTracker.RemoveBlock | internal/engine/pending.go:49-53 | forgets the block only |
| Indexer.PendingTracker.ConfirmUpTo | internal/engine/pending.go:57-65 | forgets exactly the blocks up to the given one |
| Indexer.PendingTracker.BlockRange | internal/engine/pending.go:76-85 | exactly the pending blocks, strictly ascending |
| Indexer.Engine.Record | internal/engine/processor.go:50-83 | a row gets its block's next log index, is stored and tracked; on time, the store then shows one row more |
| Indexer.Engine.ProcessEvent | internal/engine/processor.go:50-91 | the new contents and cursor for any event; for one that is on time also that nothing else changed |
| Indexer.Engine.ConfirmBlocks | internal/engine/reorg.go:90-103 | what is confirmed grows to current - depth and everything stays consistent |
| Indexer.Engine.RevertBlock | internal/engine/reorg.go:22-41 | a pending block is taken out of store, tracker and counters, and only it |
| Indexer.Engine.HandleReorg | internal/engine/reorg.go:12-85 | exactly the unconfirmed rows of [start, end] are gone; cursors at or past the start are just before it |
| Indexer.Engine.Run | internal/engine/reorg.go:12-103 | whole runs: after any events and reorgs, none late, the store shows exactly the surviving rows, log indices being positions in their block |
| Indexer.MatchesMeansReplay | internal/engine/reorg.go:12-103 | such a store equals one that only ever applied the survivors, but for unique entries it may lack |
| Indexer.ArrivalKeepsRowsIff | internal/engine/processor.go:50-91 | an event, late or not, costs a row if and only if the key made of its block's counter already belongs to a different row |
| Indexer.LateRowsOverwriteIff | internal/engine/reorg.go:90-103 | of two rows that arrive for a confirmed block the first costs a row if and only if index 0 of the block is taken by a different one, the second if and only if index 1 is |
| BadgerKeys.EvtKeyOrder | internal/store/badger/badger.go:88-103 | byte order of primary keys is (block, log index) order, for all uint64 values |
| BadgerKeys.RevKeyOrder | internal/store/badger/badger.go:95-108 | byte order of reverse keys reverses blocks and keeps log indices ascending |
| BadgerKeys.ScanSeesOneTable | internal/store/badger/badger.go:125-133 | a prefix scan sees the keys of one table only, for names without the separator |
| BadgerKeys.IndexedEvent.ParseKey | internal/store/badger/badger.go:697-725 | block and log index come back from both kinds of key, whatever bytes they contain; a short key changes nothing |
| AbiTypes.ComputeFeltSize | internal/abi/types.go:47-82 | the loops of FeltSize |
| AbiDecoder.FeltSizeIff | internal/abi/types.go:46-82 | FeltSize never exceeds the felts a value takes, and equals them if and only if no part of the type varies in size |
| AbiDecoder.RoundTrip | internal/abi/decoder.go:72-349 | for every type tree and well-typed value, wherever its serialization stands in the stream, decoding gives the value and consumes exactly the serialization |
| AbiDecoder.DecodesInPlace | internal/abi/decoder.go:72-117 | the same for any prefix and suffix |
| AbiDecoder.PrimitiveComesBack | internal/abi/decoder.go:119-207 | every leaf decoder inverts its encoding |
| AbiDecoder.ByteArrayComesBack | internal/abi/decoder.go:209-250 | a byte array survives its 31-byte chunks and pending word |
| AbiDecoder.EventComesBack | internal/abi/decoder.go:12-40 | an event's fields survive being split between keys and data |
| AbiDecoder.FieldSignedIff | internal/abi/decoder.go:168-199 | a signed number written as a field element is read back if and only if it is not negative |
| AbiDecoder.MinusOneMisread | internal/abi/decoder.go:168-183 | an i8 of -1 written that way reads as -256 |
| AbiDecoder.DecodeType | internal/abi/decoder.go:72-117 | the recursive decoder computes the specified result, errors included |
| AbiDecoder.ReadByteArray | internal/abi/decoder.go:209-250 | so does the chunk loop |
| AbiDecoder.ReadArray | internal/abi/decoder.go:252-279 | so does the element loop |
| AbiDecoder.ReadMembers | internal/abi/decoder.go:281-314 | so does the member loop of structs and tuples |
| AbiParser.SplitTupleMembers | internal/abi/parser.go:235-257 | the scanning loop computes the specified split |
| AbiParser.SplitInvertsJoin | internal/abi/parser.go:235-257 | splitting inverts comma-joining on parts with balanced brackets and no comma outside them |
| AbiParser.JoinInvertsSplit | internal/abi/parser.go:235-257 | joining inverts splitting on every string |
| AbiParser.ResolveTuple | internal/abi/parser.go:216-233 | the loop that fills the members |
| AbiParser.ResolveInvertsPrint | internal/abi/parser.go:181-214 | for every tree of primitives, registered plain names, Array, Span and non-empty tuples, resolving the printed name gives the type back |
| AbiParser.SnapshotResolves | internal/abi/parser.go:182-184 | a snapshot resolves like what it is a snapshot of |
| AbiParser.TrailingCommaAddsAMember | internal/abi/parser.go:216-257 | a one-element tuple written with a trailing comma resolves to two members, the second a felt |

## Left out

- Recovery.RetryIsExact: assumes the whole fetch inside the window, a condition a caller can check; without it `RetryNeverLoses` still holds.
- ContractTransport.ContractStream.SubscribeContract: at least once, not exactly once (overlaps and window pruning deliver again); of a skipped block nothing is claimed, although the live stream may have delivered it.
- KeysTransport.KeysStream.Run: no reorgs, because a rollback during a gap-fill pass can be overwritten by the pass's own cursor; an address joins at most once per run.
- KeysTransport.KeysStream.CloseSession: events observed below their address's cursor or overtaken in hand are outside the claim, because the guard discards them.
- KeysTransport.KeysStream.FillPass: the fan-out runs one fill after the other; the fills touch disjoint cursors.
- KeysTransport.KeysStream.GapFill: of uint64 wrap-around only `tip - minLast` is modelled; block numbers are naturals everywhere else.
- Delivery.Feed.Seed: a registration's seed is one step here; its own interleavings are those of SeedProtocol.
- Collective.CollectiveTick: a stable chain, no failure (hence no splitting) and no rollback; reconcilers are values, and each member delivers and advances in one turn where the source delivers to all and then advances all.
- SeedProtocol.HistorySplits: one registration of an address at a time; the backfill itself is Backfills.
- Backfills.Subscriber.Run: the semaphore appears only as an exit on cancellation; timestamps and logging are left out.
- Liveness.CompleteMeansCovered: a stream counts as live from its `Add(1)` to its `Add(-1)`, so one that is just going down still does.
- History.HistoryIsCrashSafe: one registration of the address per run, each with a launched backfill and looked for in time (the other cases are LateCheckIff, UnmarkedIsSafe and RegisteredWithoutLosesIff); events are counted, not named; store writes may fail but do not tear.
- History.RegisteredWithoutLosesIff: within the run of the registration, once nothing is under way; what a crash can lose is CrashLosesIff, for a freeze after the completion that is saved.
- Indexer.Engine.ProcessEvent: begins where the event is matched and decoded; freezes, factory children, views and notifications are left out, and the memory store cannot fail.
- Indexer.Engine.HandleReorg: the discovery cursor and children deployed in the reverted range are left out.
- Indexer.MatchesMeansReplay: aggregate columns of one table have distinct names, and the internal sum and count columns clash with none.
- Store.MemoryStore.ApplyOp: keys are structured values where the source formats text; the row fields that populateFromData copies, equal to the operation's own for engine rows, are left out.
- AbiDecoder.RoundTrip: felts and lengths are naturals, so oversized lengths truncated to int64 are left out; a record is a map by member name, so members of one name share a value.
- AbiParser.ResolveInvertsPrint: names are ASCII, TrimSpace knows ASCII white space, and a resolved primitive does not keep the name it was resolved from.
- BadgerKeys.IndexedEvent.ParseKey: the fields then copied from the event's own data.
- gapFillRegrew: it only chooses a log line.
- The single shared firehose (firehose.go), which repeats the cursor and cap ideas with one stream.
- Real RPC and WSS, socket multiplexing, backoff and jitter values, block timestamps.
- PostgreSQL, BadgerDB itself, JSON, float64 rounding.
- HTTP API, SSE, CLI, config validation, view polling, UDC discovery.
