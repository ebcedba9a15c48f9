# Verified model of the persistence pipeline and its bounded-resource loops

The library turns a block or time-ordered event source that may reorg into stored rows plus a position to resume from. A
subscription replays the archive, backfills the gap up to the source's tip, and follows the live tail. Backfilled positions
at or below `tip - depth` are written at once by the settled writer (`BlockWriter`); everything above stays in the
`ConfirmationWindow`, which the live tail extends, rewinds and flushes. This project models that pipeline, the SQL store
below it, and three loops around it (rate limit, transaction replacement, collector reconnection), and proves what they
promise over whole runs.

## How the model is laid out

| files | what they hold |
|---|---|
| `Base`, `Streams`, `Positions` | saturating 64-bit arithmetic, keyed sequences, block numbers and time frontiers as one `Position` type |
| `Store`, `WindowSpec`, `Pipeline`, `Subscribe`, `Slices` | the state functions: writes, the window, the settled writer, one subscription, sliced range queries |
| `Writers` | the writers as classes (`GapFreeWriter`, `ConfirmationWindow`, `BlockWriter`) sharing one `SharedStore`, and `PersistAndEmit`; every method equals its state function |
| `Chain`, `Canonical`, `Backfill`, `Session`, `Guarantees`, `Watermarks`, `Durable` | invariants of steps, runs and one session |
| `Archives`, `Reorgs`, `BoundedReorgs`, `CatchUp`, `StartBlock`, `Delivery`, `Resubscribes`, `Replays`, `BoundaryLaws`, `GroupBy`, `Frontier`, `Retention`, `Identities` | results over whole histories of subscriptions and over delivered streams |
| `Decimal`, `Sql`, `SqlStores`, `SqlLaws` | encoded positions, multi-row inserts, the `SqlStore` class, its refinement of the abstract store |
| `RateLimits`, `Pricing`, `Replacement`, `Reconnect` | the bounded-resource loops |

Asynchronous code is read as sequential steps: streams are sequences, a crash is stopping anywhere, `Env.fails(n)` decides
whether the `n`-th attempted write fails, and `Env.encode` is a partial function. A block number is a `Position` without
identities (`Positions.BlocksEmbed`). Arbitrary answers from outside (provider verdicts, watch outcomes,
cancellation, clock readings) are parameters.

## What holds, and under which conditions

* **Reorgs.** In any run of live events and retractions the stored groups followed by the buffered ones are the chain the
  source announced (`Canonical.CanonicalChain`, `Chain.StoredPlusBuffered`); over any history of subscriptions, crashes,
  failed writes and failed chunks the archive is a gap-free prefix of the final chain, provided that what is buried `depth`
  deep stays (`Reorgs.ArchiveStaysFinal`). Deeper reorgs halt the writer and freeze the store.
* **Bounded subscriptions and reorgs.** With `to_block` set the whole range through the bound (or the tip) is settled at
  once, so the promise that a reorg shallower than `depth` never leaves an orphaned row fails there
  (`BoundedReorgs.BoundedStoresOrphan`): for a bounded subscription `Reorgs.ArchiveStaysFinal` asks finality through the
  bound. Exactly when the archive stays on the final chain, however the subscription ends and whatever fails:
  `BoundedReorgs.BoundedIsFinalExactly`, `CompleteBoundedIsFinalExactly` with the range known beforehand, and
  `HistoryIsFinalExactly` for histories that mix bounded and unbounded subscriptions.
* **No reorgs.** The same without any finality hypothesis (`Archives.ArchiveGapFree`), and working writes bring the archive
  up to the cut (`CatchUp.VisitCatchesUp`) and then within `depth` of an ordered live tail (`CatchUp.VisitKeepsUp`). A first
  subscription delivers the source exactly once and in order if and only if the window is healthy while the live tail
  repeats what the backfill delivered (`Delivery.FirstSubscriptionDelivers`): a write that fails before that leaves the
  overlap unsuppressed (`Delivery.FailedWriteRepeats`), while a live tail that starts past the backfill, or a bounded
  subscription (`Delivery.BoundedSubscriptionDelivers`), is exact whatever writes fail. A backfill window that fails cuts
  delivery short at that window. Over all subscriptions of a process nothing is left out, and a subscription delivers again
  only what lies above the position stored when it resubscribed, provided that its live tail starts above that too
  (`Resubscribes.ProcessDelivers`, `VisitShape`).
* **Frontiers.** At-least-once delivery has an at-most-once effect (`Frontier.AtMostOnce`), and over working writes a
  subscription keeps exactly what it delivers (`Retention.KeptIsDelivered`): each identity that settles or is buried is
  stored exactly once, for ever, unless it lay strictly below the watermark's instant when it arrived
  (`Identities.EveryIdentityIsStored`). That is for subscriptions whose settled writer does not halt, which it does exactly
  at a new event below its open group (`Retention.HaltsExactly`), so never over an ordered backfill.
* **Arithmetic.** Keys below `u64::MAX` are assumed where maturity matters: the saturating add flushes a group at that key
  at once. Ranges end below `u64::MAX`: at that bound the chunk loop asks for one window for ever, whatever the comment in
  it says, and `Slices.LoopsForeverIffAtMax` shows that this is the only bound where it does.
* **Start block.** It bounds the backfill only. A live event below it is stored once buried, so the archive is gap-free from
  the start block exactly when the live tail starts at or above it, or has not been buried, or starts at or below the
  watermark and so halts the window (`StartBlock.StartBlockOnLiveTail`, with `StartBlock.BelowStartIsStored` as a run).
* **Boundary suppression.** The backfill copy suppresses live rows through one rewind, wherever it falls. A second rewind at
  or below a position drops the converted group together with the copy, and its rows are delivered again:
  `BoundaryLaws.SuppressionSurvivesOneRewind` is the exact condition, `BoundaryLaws.SecondRewindRepeats` a run.
* **Replay.** The flag is read when a stream is opened and set by the first poll of one. So two streams opened before
  either is polled both replay the archive (`Replays.TwoEarlyStreams`), and a stream dropped midway strands the rest of it
  for the life of the process (`Replays.DroppedStreamStrands`), which the comment on the flag means to rule out.
  `Replays.TwiceExactly` and `Replays.WholeExactly` say exactly when either happens.
* **NULL positions.** A progress row whose `position` is NULL resumes from `last_block`, but the write transaction takes it
  for "no previous"; the fold survives exactly when the write is not behind that block
  (`SqlLaws.NullForgetsExactlyBackwards`). The refinement of the store assumes no such row.
* **Escalation.** The bump is rounded down, so the documented 10% rise of both fields fails for small fees
  (`Pricing.TinyFeesDoNotRise`); `Pricing.RaiseVisibleExactly` and `Pricing.FullTenthExactly` say exactly when it holds.

## Model

| member | source | states |
|---|---|---|
| Reorgs.ArchiveStaysFinal | src/persistence/persisted.rs:341-445 | through any history of subscriptions, crashes, failed writes, failed chunks and reorgs above the depth (for a bounded subscription: above its bound), the store is a gap-free prefix of the final chain: no orphaned row |
| Reorgs.VisitStaysFinal | src/persistence/persisted.rs:361-444 | one subscription, however it ends, keeps the archive on the final chain, if what it reads at or below its cut (bounded: through its bound) and what gets buried `depth` deep is final |
| BoundedReorgs.BoundedIsFinalExactly | src/persistence/persisted.rs:429-433 | however a bounded subscription ends and whatever fails, the archive stays on the final chain if and only if the snapshot it read and the final chain have the same rows, all encodable, from the resume point through the position it has stored; the depth plays no part |
| BoundedReorgs.HistoryIsFinalExactly | src/persistence/persisted.rs:341-445 | over any history whose unbounded subscriptions see only reorgs above the depth, the archive is on the final chain after every subscription if and only if each bounded one read, over the range it stored, what became final |
| BoundedReorgs.CompleteBoundedIsFinalExactly | src/persistence/persisted.rs:429-433 | over working writes and a complete backfill that range ends at the last position of the snapshot through the bound or the tip |
| BoundedReorgs.BoundedStoresOrphan | src/persistence/persisted.rs:291-303 | a concrete run with depth two in which nothing two deep differs and the orphaned tip is stored for good |
| BoundedReorgs.ExtensionIsFinalExactly | src/persistence/writer/mod.rs:31-40 | groups read from a snapshot continue an archive of the final chain if and only if both chains have the same rows where they lie |
| BoundedReorgs.BoundedAdds | src/persistence/writer/mod.rs:196-219 | a bounded subscription adds complete positions of its snapshot, gap-free from the resume point, and nothing else |
| Reorgs.SessionStaysFinal | src/persistence/writer/mod.rs:167-234 | a whole backfill, boundary and reorging live tail stores final positions only, continuing the archive without a gap |
| Reorgs.CrashStaysFinal | src/persistence/writer/mod.rs:196-206 | stopping anywhere in the backfill leaves only complete, final positions stored |
| Reorgs.RunTrails | src/persistence/writer/window.rs:360-392 | whatever arrives live, the watermark stays at its start or trails the highest key ever seen by the depth |
| Reorgs.OneBlockReorgIsShallow | src/persistence/writer/window.rs:277-314 | a withdrawn and replaced tip block is a history that `ArchiveStaysFinal` covers |
| Archives.ArchiveGapFree | src/persistence/persisted.rs:341-445 | without reorgs, through any subscribes, crashes, failed writes and failed chunks, the archive is gap-free from the start block |
| Archives.VisitGapFree | src/persistence/persisted.rs:361-444 | one subscription, however it ends, keeps the archive gap-free |
| Archives.GapFreeIsExact | src/persistence/writer/mod.rs:31-40 | a gap-free archive holds the source events from the start block through the stored position, in order, each once |
| Archives.LiveSessionGapFree | src/persistence/writer/mod.rs:185-233 | a session whose live tail re-announces whole positions keeps the archive gap-free |
| Archives.CrashGapFree | src/persistence/writer/mod.rs:196-206 | so does a crash anywhere in the backfill |
| StartBlock.StartBlockOnLiveTail | src/persistence/persisted.rs:388-392 | the archive is gap-free from the start block if and only if the live tail does not start below it, or starts at or below the watermark, or what it started with is not buried yet |
| StartBlock.BelowStartIsStored | src/persistence/persisted.rs:388-392 | a concrete run in which a block below the start block is stored |
| Canonical.CanonicalChain | src/persistence/writer/window.rs:95-314 | after any live events and retractions, store and buffer together hold the announced chain; after a halt the store stays that chain as it then stood |
| Canonical.LiveStepKeepsChain | src/persistence/writer/window.rs:114-194 | one live item either moves chain and window alike or halts with nothing written |
| Canonical.HaltedStays | src/persistence/writer/window.rs:95-98 | an unhealthy window and its store never change again |
| Chain.StoredPlusBuffered | src/persistence/writer/window.rs:33-47 | stored rows followed by buffered rows are the chain, row for row |
| Chain.FlushKeepsChain | src/persistence/writer/window.rs:360-392 | flushing moves complete groups of the chain from buffer to store, in key order, up to the watermark |
| Chain.RecordKeepsChain | src/persistence/writer/window.rs:136-193 | a live event below the head truncates the chain at its key, any other extends it, and buffer and store follow |
| Chain.RetractKeepsChain | src/persistence/writer/window.rs:301-314 | a retraction truncates the chain at its key and lowers the head |
| Chain.SeedKeepsChain | src/persistence/writer/window.rs:228-249 | a backfill-tail event extends chain and buffer |
| Chain.LogIsStream | src/persistence/writer/mod.rs:31-40 | a log in key order that holds a stream's rows key by key is that stream |
| Backfill.BackfillKeepsChain | src/persistence/writer/mod.rs:196-206 | the backfill loop stores settled positions through the open group's predecessor and seeds the others, however they interleave |
| Session.SessionKeepsChain | src/persistence/writer/mod.rs:185-233 | after a whole session the store is the settled prefix followed by the announced chain up to the watermark |
| Session.BoundaryTracks | src/persistence/writer/mod.rs:207-219 | `finish` completes the settled prefix; the window lives on only above a healthy one |
| Guarantees.WriteOrder | src/persistence/writer/mod.rs:185-219 | a session's writes have strictly increasing keys, settled ones at or below the cut and first; nothing is written above a hole |
| Guarantees.SettledConfirmed | src/persistence/persisted.rs:424-433 | every group an unbounded session settles has `key + depth <= tip`, and every group its window writes does not |
| Guarantees.LiveStepConfirmed | src/persistence/writer/window.rs:360-392 | every group a live step writes has `key + depth <= head`, measured after any rewind |
| Guarantees.FlushConfirmed | src/persistence/writer/window.rs:360-392 | a flush writes matured groups only and, while healthy, leaves none |
| Guarantees.LiveBufferBounded | src/persistence/writer/window.rs:33-35 | a live-only window never buffers more than `depth` groups |
| Guarantees.HaltsExactlyAtWatermark | src/persistence/writer/window.rs:114-127 | with encodable events and working writes a live item halts the window if and only if it lies at or below the watermark |
| Guarantees.DeepReorgFreezesStore | src/persistence/writer/window.rs:301-311 | after a re-emission or retraction at or below the watermark the store never changes again |
| Guarantees.HaltedHoldsNothing | src/persistence/writer/block.rs:20-24 | in every subscription, of either policy and wherever it stops, a halted writer holds no rows |
| Guarantees.ShallowReorgsNeverHalt | src/persistence/writer/window.rs:136-151 | items whose `key + depth` exceeds every key seen, above the watermark, never halt the window |
| Guarantees.ShallowSessionNeverHalts | src/persistence/writer/mod.rs:221-231 | the same for a session, from the subscribe tip, the cut and the stored position |
| Watermarks.WatermarksAgree | src/persistence/writer/mod.rs:207-219 | the settled writer hands over the durable position; after every later flush the window's watermark is that position advanced with the cut, for both policies |
| Durable.FoldIsLast | src/persistence/sqlstore.rs:417-466 | on an increasing block log the durable position is the last key written |
| Frontier.AtMostOnce | src/persistence/writer/window.rs:101-107 | over any duplicated, jittered or restarted delivery each identity has at most one row at its instant |
| Retention.KeptIsDelivered | src/persistence/writer/window.rs:155-193 | over working writes, what is stored, open or buffered at an instant is what was stored there before followed by the row of every event the subscription has delivered, in order: nothing is delivered without being kept, nothing kept without being delivered, nothing lost |
| Retention.ArrivalHolds | src/persistence/writer/window.rs:101-193 | one arrival of backfill or live tail is delivered and kept exactly if its writer does not cover it, and takes back nothing written |
| Retention.UncoveredIsKept | src/persistence/writer/window.rs:155-193 | from any healthy window, an encodable event that was not covered when it arrived stays in the group at its instant or in the log there, whatever arrives later |
| Retention.LiveStepHolds | src/persistence/writer/window.rs:95-194 | one live item over working writes adds its row exactly when it is not covered, keeps every other row, and leaves the window healthy |
| Retention.TailStepHolds | src/persistence/writer/window.rs:208-250 | the same for a seeded event |
| Retention.SettledStepHolds | src/persistence/writer/block.rs:62-120 | the same for a settled event, which halts the writer exactly if it is new and lies below the open group |
| Retention.BoundaryHolds | src/persistence/writer/mod.rs:207-219 | finishing the settled writer moves its open group to the log and loses nothing |
| Retention.HaltsExactly | src/persistence/writer/block.rs:90-97 | over a whole backfill the settled writer is healthy if and only if no new event arrived below its open group |
| Retention.OrderedNeverHalts | src/persistence/writer/block.rs:90-97 | a settled part in key order never halts it |
| Retention.OutIsDelivered | src/persistence/writer/mod.rs:196-231 | the delivered events are what went downstream |
| Identities.EveryIdentityIsStored | src/persistence/writer/window.rs:351-392 | over any history of fair subscriptions and working writes, an identity that settles or is buried `depth` deep was strictly below the watermark's instant when it arrived, or has exactly one row at its instant from then on, through all later subscriptions |
| Identities.FirstIsStored | src/persistence/writer/window.rs:155-193 | a concrete run: at depth one the first of two live events is stored, once, when the second has arrived |
| Identities.KeptOnce | src/persistence/writer/window.rs:155-193 | within a subscription, an identity that was not too late has exactly one row stored or buffered at its instant after whatever arrives later |
| Identities.BuriedIsStored | src/persistence/writer/window.rs:360-392 | and in the log once the window has met anything `depth` above it |
| Identities.SettledIsStored | src/persistence/writer/block.rs:148-160 | and in the log once the backfill is finished, if it settled |
| Identities.CoveredIsKept | src/persistence/writer/window.rs:351-357 | what either writer takes for covered was too late or has its row |
| Frontier.SuppressedIsKnown | src/persistence/writer/window.rs:351-357 | what the window suppresses is stored, buffered, or strictly below the watermark's instant |
| Frontier.SettledSuppressedIsKnown | src/persistence/writer/block.rs:133-139 | the same for the settled writer |
| BoundaryLaws.BoundaryMultisets | src/persistence/writer/window.rs:136-187 | over any increasing re-announced positions, whether their groups are still seeded, already converted by the first rewind, or absent: buffered groups end with their live rows in order, and downstream receives, key by key and in order, the multiset difference from the backfill copy |
| BoundaryLaws.BoundaryMultiset | src/persistence/writer/window.rs:165-187 | the same law at one position, from any state no live row has touched |
| BoundaryLaws.SessionBoundary | src/persistence/writer/mod.rs:196-231 | over a whole healthy session, downstream receives at each live position exactly the live rows minus the rows of the unsettled backfill |
| BoundaryLaws.FoldBalances | src/persistence/writer/window.rs:177-187 | suppression set and delivered rows stay complementary at every row |
| BoundaryLaws.SuppressionSurvivesOneRewind | src/persistence/writer/window.rs:324-337 | after any live items without an event at a seeded position, the law holds there if and only if the window has been rewound at or below it at most once (or live and backfilled rows share nothing) |
| BoundaryLaws.SecondRewindRepeats | src/persistence/writer/window.rs:290-338 | a concrete run: two retractions of a backfilled block, then its event is delivered a second time |
| BoundaryLaws.RewindsDecide | src/persistence/writer/window.rs:316-338 | the number of rewinds alone decides whether a seeded group is still seeded, converted, or gone |
| Delivery.FirstSubscriptionDelivers | src/persistence/persisted.rs:361-444 | whatever writes fail, replay, backfill and live events of a first subscription are the source sequence from the start block, once and in order, if and only if the window is healthy while the live tail repeats the overlap; when a backfill window fails, they are exactly the source before that window |
| Delivery.WorkingWritesDeliver | src/persistence/persisted.rs:361-444 | with working writes and an overlap above the cut and the stored position, that condition holds |
| Delivery.FailedWriteRepeats | src/persistence/writer/mod.rs:207-219 | a concrete run: one failed settled write, and the overlapping event is delivered twice |
| Delivery.OverlapDelivers | src/persistence/writer/window.rs:95-98 | from a window that buffers the backfill's tail, the overlap is suppressed if and only if the window is healthy when its last event arrives |
| Delivery.OrderedLiveIsHealthy | src/persistence/writer/window.rs:95-194 | ordered, encodable events above the watermark never halt the window when writes succeed |
| Delivery.BoundedSubscriptionDelivers | src/persistence/persisted.rs:363-430 | with `to_block` set and whatever writes fail, clamped replay and settled backfill deliver exactly the source through the bound (or the tip, or what the archive already held below the bound); when a backfill window fails, the source before that window |
| Delivery.FailedChunkDelivers | src/persistence/persisted.rs:574-625 | a subscription whose backfill window fails delivers replay and backfill as exactly the source before that window, and no live event; failing at the first window fails the subscribe |
| Delivery.ReplayIsClamped | src/persistence/persisted.rs:367-375 | in bounded mode replay delivers nothing past the bound, and everything stored up to it |
| Delivery.SessionOut | src/persistence/writer/mod.rs:196-231 | one session delivers its backfill and then only the live events beyond it, if and only if the window is healthy while the overlap is repeated |
| Delivery.ReplayIsSource | src/persistence/persisted.rs:526-562 | replaying a gap-free archive yields the source events it covers |
| Delivery.ReplaySkipsNothing | src/persistence/persisted.rs:526-562 | replay fails if and only if a row in range does not decode, and otherwise delivers one event a row, in order |
| Delivery.BackfillHealthy | src/persistence/writer/block.rs:74-120 | an ordered, encodable backfill over working writes never halts either writer |
| CatchUp.VisitCatchesUp | src/persistence/persisted.rs:388-439 | over working writes, a bounded subscription leaves every source event from the start block through the bound and the tip stored, and one that stops when the live tail starts every event with `key + depth <= tip` |
| CatchUp.BackfillCatchesUp | src/persistence/writer/mod.rs:196-212 | a complete backfill over working writes leaves the stored position at the last source key at or below the cut |
| CatchUp.VisitKeepsUp | src/persistence/persisted.rs:361-444 | for an unbounded subscription over working writes, a complete backfill and an ordered live tail above cut and stored position, every source event from the start block with `key + depth` at most the last live key is stored |
| CatchUp.LiveCatchesUp | src/persistence/writer/mod.rs:221-231 | the same for one session |
| Resubscribes.ProcessDelivers | src/persistence/persisted.rs:341-445 | over any number of subscriptions of one process, with failed writes, failed chunks, halts and ended streams, replay and all that is delivered afterwards are stretches of the source without a gap between them, from the start block through everything delivered and stored |
| Resubscribes.VisitShape | src/persistence/persisted.rs:388-439 | one subscription delivers one stretch from the resume point and one live stretch that leaves no gap to it, stores nothing past what has been delivered, and delivers nothing at or below the stored position again when its live tail starts above that |
| Resubscribes.OverlapShape | src/persistence/writer/mod.rs:221-231 | whatever happens to the window, the live part of a delivery is one stretch that starts no later than the backfill ends |
| Resubscribes.SeamlessCovers | src/persistence/persisted.rs:382-392 | stretches that each start within what the earlier ones reached contain every event in between |
| Replays.Drive | src/persistence/persisted.rs:482-502 | over any interleaving of subscribes and polls, each stream hands its consumer one archive event a poll if it was opened before any replaying stream was polled, and nothing otherwise; two streams both deliver archive events if and only if both were opened so early and polled; a stream's archive arrives whole if and only if it was opened so early and read to its end |
| Replays.TwiceExactly | src/persistence/persisted.rs:493-501 | two consumers receive archive events if and only if both streams were opened before the first such poll and both are polled |
| Replays.WholeExactly | src/persistence/persisted.rs:493-501 | a stream delivers the whole archive if and only if it was opened before the first such poll and is polled once for every archive event |
| Replays.DroppedStreamStrands | src/persistence/persisted.rs:475-501 | a concrete run: a stream dropped after one of two events, after which no stream delivers the other |
| Replays.TwoEarlyStreams | src/persistence/persisted.rs:493-501 | two streams opened before either is polled both replay |
| Replays.ReplayGate.Poll | src/persistence/persisted.rs:497-500 | polling a stream that carries the archive sets the flag and hands over the next event; no other poll does either |
| GroupBy.WindowIsGroupBy | src/persistence/writer/window.rs:360-392 | on ordered input the write log of a depth-`d` window is exactly the input grouped by key, for keys with `key + d <=` last key, one write a group |
| GroupBy.WriterIsGroupBy | src/persistence/writer/block.rs:62-120 | before `finish` the settled writer's write log is exactly the groups below the last key, one write each |
| GroupBy.DepthOneIsWriter | src/persistence/writer/block.rs:62-120 | depth 1 and the settled writer before `finish` produce identical write logs |
| GroupBy.LogDetermined | src/persistence/writer/block.rs:11-13 | a log of full block groups in key order is determined by the rows at each key |
| Writers.GapFreeWriter.Encode | src/persistence/writer/mod.rs:75-92 | captures the schema on success, goes unhealthy on failure |
| Writers.GapFreeWriter.Flush | src/persistence/writer/mod.rs:99-122 | writes nothing without a schema, else attempts the store and goes unhealthy on failure |
| Writers.ConfirmationWindow.constructor | src/persistence/writer/window.rs:74-86 | starts empty at the seed |
| Writers.ConfirmationWindow.Record | src/persistence/writer/window.rs:95-194 | equals the state function on window, store and delivery flag |
| Writers.ConfirmationWindow.RecordSeeded | src/persistence/writer/window.rs:208-250 | equals the state function on window, store and delivery flag |
| Writers.ConfirmationWindow.Retract | src/persistence/writer/window.rs:290-314 | equals the state function |
| Writers.ConfirmationWindow.RewindTo | src/persistence/writer/window.rs:324-338 | the two loops drop live-origin groups at or above the key and convert the seeded ones |
| Writers.ConfirmationWindow.FoldIn | src/persistence/writer/window.rs:155-188 | adds a row to its group and decides delivery |
| Writers.ConfirmationWindow.FlushMatured | src/persistence/writer/window.rs:360-392 | the collected-keys loop is the lowest-first flush of everything matured, stopped by a failed write |
| Writers.ConfirmationWindow.Absorb | src/persistence/writer/window.rs:267-275 | folds the settled watermark in |
| Writers.ConfirmationWindow.Halt | src/persistence/writer/window.rs:256-259 | goes unhealthy and drops the buffer |
| Writers.BlockWriter.Record | src/persistence/writer/block.rs:62-120 | equals the state function on writer, store and delivery flag |
| Writers.BlockWriter.Finish | src/persistence/writer/block.rs:148-160 | writes the trailing group and folds it |
| Writers.PersistAndEmit | src/persistence/writer/mod.rs:167-234 | the two loops over two mutable writers and one store equal backfill run, boundary and live run |
| Store.SharedStore.TryWrite | src/persistence/store.rs:18-24 | a write is all or nothing |
| Positions.BlocksEmbed | src/persistence/position.rs:112-136 | block positions behave as frontiers without identities |
| Positions.JoinLaws | src/persistence/position.rs:210-227 | advancing is associative, commutative and idempotent |
| Positions.ContainsIffAbsorbed | src/persistence/position.rs:229-234 | a watermark contains a position if and only if advancing by it changes nothing |
| Positions.ResumeReachesUncovered | src/persistence/position.rs:80-82 | a backfill from the resume key reaches every uncovered position; for blocks it reads nothing covered |
| Positions.ResumeIsLargest | src/persistence/position.rs:236-240 | the resume key is the largest start from which every uncovered position is reached |
| Subscribe.CutIsUnripe | src/persistence/persisted.rs:429-433 | nothing above the cut is mature at the tip |
| Subscribe.CutExactly | src/persistence/persisted.rs:429-433 | what settles is exactly what has `key + depth <= tip`, or in bounded mode everything through the bound and the tip |
| Slices.ChunkedQuery | src/persistence/persisted.rs:574-625 | the chunk loop yields the single query, or a key-aligned prefix before the failed window, over tiling windows; no query asks for more than `chunk` positions; it fails on the first fatal answer, with nothing asked after it, and on nothing else |
| Slices.ChunksAreQuery | src/persistence/persisted.rs:588-624 | slicing changes neither items nor order, for any pattern of size rejections |
| Slices.ChunkBoundsQueries | src/persistence/persisted.rs:588-592 | every query asked and every window yielded spans at least one and at most `chunk` positions of the range, whatever the answers |
| Slices.ChunksAreAligned | src/persistence/persisted.rs:588-622 | when every answer fits, the `i`-th query is the `i`-th run of `chunk` positions, the last one cut at the end of the range, and there are no others |
| Slices.ChunksFailExactly | src/persistence/persisted.rs:594-622 | the sliced query fails if and only if its last query was answered by an error other than a size rejection, or by one for a single position; every earlier answer was neither |
| Slices.SplitFailsExactly | src/persistence/persisted.rs:654-672 | the same for bisection |
| Slices.SplitStaysLarge | src/persistence/persisted.rs:659-668 | against a provider that takes at most `limit` positions, what fits is the whole window or at least half of the limit |
| Slices.SplitIsQuery | src/persistence/persisted.rs:644-672 | bisection returns the window's query, its leaves adjacent, in order and not inverted |
| Slices.SplitSucceeds | src/persistence/persisted.rs:644-672 | size rejections alone never fail a backfill; fewer than two calls per position |
| Slices.ProgressIffBelowMax | src/persistence/persisted.rs:601-622 | one round makes progress from every window if and only if the range ends below `u64::MAX` |
| Slices.LoopsForeverIffAtMax | src/persistence/persisted.rs:601-622 | from any start the loop guard holds after every round, for ever, if and only if the range ends at `u64::MAX` |
| Decimal.RenderParses | src/persistence/position.rs:138-149 | the decimal text of a block parses back to it up to `u64::MAX`; a larger number is refused |
| Decimal.ParsesExactly | src/persistence/position.rs:138-149 | what parses is an optional plus sign, at least one digit and nothing else, with a value up to `u64::MAX` |
| Decimal.CanonicalText | src/persistence/position.rs:138-149 | digits without a leading zero are the encoding of their value |
| Decimal.NegativeRefused | src/persistence/sqlstore.rs:485-497 | a negative column is refused, never resumed from |
| Sql.PlaceholdersCount | src/persistence/query.rs:134-146 | placeholders of a multi-row insert are numbered exactly 1..n |
| Sql.ChunkInserts | src/persistence/sqlstore.rs:391-412 | binding a chunk row by row and executing it appends the chunk's rows in order under the key |
| Sql.RowsPerChunk | src/persistence/sqlstore.rs:101-111 | the largest row count under the bind cap, at least one |
| SqlStores.StatementFits | src/persistence/sqlstore.rs:388-411 | a statement binds as many values as it has placeholders, at most 999 when one row needs at most 999 |
| SqlStores.SqlStore.InsertRows | src/persistence/sqlstore.rs:381-415 | all rows appended in order, or an error; a misshapen row is always an error |
| SqlStores.SqlStore.BindRows | src/persistence/sqlstore.rs:403-410 | the bound values are the rows laid end to end behind their keys, exactly when every row has the table's width |
| SqlStores.SqlStore.MigrateIfNeeded | src/persistence/sqlstore.rs:336-372 | adds and fills the position column of an old archive, leaves a current one alone |
| SqlStores.SqlStore.AdvanceWatermark | src/persistence/sqlstore.rs:421-466 | upserts the previous position advanced by the written one, or fails |
| SqlStores.SqlStore.WriteOnce | src/persistence/sqlstore.rs:287-310 | the transaction commits the specified database or changes nothing |
| SqlLaws.WriteRefines | src/persistence/sqlstore.rs:287-310 | a write appends the group and folds the position, or fails exactly for a misshapen row or an oversized key |
| SqlLaws.HistoryRefines | src/persistence/sqlstore.rs:196-207 | any sequence of writes with any failures leaves what the abstract store holds, for any codec that carries the positions being folded |
| SqlLaws.BlockHistoryRefines | src/persistence/sqlstore.rs:196-207 | the same for every history of a block archive |
| SqlLaws.WriteTouchesOneTable | src/persistence/query.rs:154-180 | other tables keep rows and resume point, migration included |
| SqlLaws.MigrationKeepsPosition | src/persistence/sqlstore.rs:336-372 | migration never changes where an archive resumes |
| SqlLaws.NeverRestartsSilently | src/persistence/sqlstore.rs:209-244 | an archive starts from nothing if and only if it has no progress row; a row that cannot be read is an error |
| SqlLaws.LegacyArchiveContinues | src/persistence/sqlstore.rs:468-497 | an old archive resumes at its last block, and its first write continues from there |
| SqlLaws.BlocksSurvive | src/persistence/position.rs:38-39 | a block position survives its encoding |
| SqlLaws.BlockColumnsAgree | src/persistence/sqlstore.rs:417-420 | after a block write the integer and the encoded column name the same position |
| SqlLaws.NullForgetsExactlyBackwards | src/persistence/sqlstore.rs:435-447 | over a NULL position the fold survives if and only if the write is not behind the last block |
| SqlLaws.ReplayReturns | src/persistence/query.rs:226-235 | replay returns the rows written up to the bound, by key, and per key in write order |
| SqlLaws.ReplayRefusesExactly | src/persistence/sqlstore.rs:246-260 | replay refuses exactly a bound whose key does not fit 64 signed bits, and is empty without a table |
| SqlLaws.OrderedReplay | src/persistence/sqlstore.rs:246-260 | a log in key order replays as written |
| SqlLaws.SortedIsStable | src/persistence/query.rs:221-235 | ordering by key and tie-breaker is a stable sort |
| RateLimits.RateLimit.Execute | src/executor_ext/rate_limit.rs:51-66 | with only the pruned deque, submits when the whole history allows it, and keeps the history spaced |
| RateLimits.NeverOverCap | src/executor_ext/rate_limit.rs:9-22 | in every run submissions `per_second` apart are a second apart, so no window holds more than the cap |
| RateLimits.ExactSleepsAreEarliest | src/executor_ext/rate_limit.rs:56-60 | with exact sleeps no schedule that respects the cap submits anything earlier |
| Pricing.BidIsShare | src/executors/pricing.rs:100-124 | a bid over 100 percent or with unknown gas is refused and no other; a priced one caps the fee at exactly the whole units in its share of the profit per gas, and tips the bumped suggestion, rounded down, or the cap if that is smaller |
| Pricing.BidWithinShare | src/executors/pricing.rs:111-124 | a bid spends at most its share of the profit, and one more unit of fee would exceed the share of what divides evenly over the gas |
| Pricing.NoBidKeepsHeadroom | src/executors/pricing.rs:95-125 | without a bid the tip is exactly the bumped suggestion, rounded down, and the cap exceeds it by exactly the provider's headroom, up to the largest value |
| Pricing.EscalationRises | src/executors/pricing.rs:134-139 | escalation keeps the pair valid without clamping, lowers nothing, and meets the bump rounded down |
| Pricing.RaiseVisibleExactly | src/executors/pricing.rs:75-80 | a scaled fee strictly rises if and only if the raise is worth a unit |
| Pricing.FullTenthExactly | src/executors/mempool_executor.rs:31-42 | a raise is worth a full tenth if and only if the rounding loss is covered |
| Pricing.TinyFeesDoNotRise | src/executors/pricing.rs:127-139 | at 110 percent fees below ten units stay where they are |
| Pricing.CompoundingDrift | src/executors/pricing.rs:134-139 | after `k` escalations the fee is within a bounded drift of exact geometric growth |
| Replacement.ReplacementSchedule.Next | src/executors/mempool_executor.rs:152-172 | equals the step function |
| Replacement.CountersMeanOutcomes | src/executors/mempool_executor.rs:118-131 | counters are timeouts and trailing other errors of the watches; fewer than `4 (R + 1)` undecided watches |
| Replacement.GivesUpExactly | src/executors/mempool_executor.rs:133-172 | finishes exactly on a mined watch, gives up exactly on the timeout after the last replacement or the fourth other error in a row, replaces exactly on any other timeout and watches again exactly on any other error |
| Replacement.FeesRise | src/executors/mempool_executor.rs:174-185 | across a whole schedule neither fee falls and the tip stays within the cap |
| Replacement.Client.AnyMined | src/executors/mempool_executor.rs:368-383 | sweeps in order to the first receipt, all hashes when there is none |
| Replacement.SendWithReplacement | src/executors/mempool_executor.rs:268-383 | the verdict is the one the answers call for: success exactly if the last watch was mined (nothing looked up then) or a receipt turned up, else rejection exactly if the last send was refused, else unconfirmed after `min(R, timeouts)` replacements on the `R + 1`-st timeout or the fourth error in a row; the loop ends at the first watch or send that decides, has sent once and once more per timeout up to `R`, one nonce at escalating fees, always watches the newest submission, and sweeps receipts in order up to the first found or all of them |
| Reconnect.ReconnectPolicy.OnStreamEnded | src/engine/reconnect.rs:99-108 | a healthy end resets and retries, any other counts as a failure |
| Reconnect.RunDriver | src/engine/driver.rs:39-132 | shuts down if and only if one of the awaits it would make uncancelled (a subscribe, each event, a stream's end, a wait) sees the cancellation, at the first that does, with exactly what was sent and slept before it and nothing cancelled; otherwise escalates exactly when the failures since the last delivered event or healthy stream reach `max(1, max_failures)`, cancelling fatal before root |
| Reconnect.EndingIsDecided | src/engine/driver.rs:64-125 | the history and the first cancelled await alone decide how a run ends |
| Reconnect.RunSleepsSum | src/engine/reconnect.rs:124-129 | the waits of a failing run of `m` attempts sum to `base * (2^m - 2)` |
| Reconnect.DelayExact | src/backoff.rs:30-37 | without saturation attempt `n` waits `base * 2^n` |
| Reconnect.DelaySaturates | src/backoff.rs:30-37 | from attempt 32 on the wait is the base times the largest 32-bit number, or the longest duration |
| Reconnect.DelayGrows | src/backoff.rs:30-37 | waits never get shorter |

## Left out

- Time frontiers as text: their JSON encoding is any codec that decodes what it encoded.
- `Record` and schema inference: rows are opaque cells and encoding is a partial function.
- Asynchrony, task spawning, broadcast channels and stream plumbing: streams are sequences and awaits are steps.
- Event loss between the tip query and the live subscription: the collector's tip and range laws are assumed.
- The retry after a concurrent schema change, and everything a SQL dialect decides: a statement succeeds or fails.
- Two writers on one table: each table has one writer.
- Serving layer, HTTP, concrete collectors and providers: thin input and output.
- Combinators, builders, circuit breaker, cooldown and retry wrappers: single counters or single branches.
- `gas_limit_with_headroom` and `EscalationPercent::new`: one expression or one comparison each; the schedule lemmas take a percentage of at least 110 as given.
- Resubscribes.ProcessDelivers: takes the replay as consumed to its end by the first subscription; `Replays` treats the other orders.
- SqlLaws.ReplayReturns: takes the tie-breaker column for insertion order, which one backend only approximates.
- Identities.EveryIdentityIsStored: speaks of subscriptions whose settled writer does not halt; what a halt leaves out is the next subscription's backfill to read again.
- Reconnect.RunDriver: takes a finite history of rounds, since a driver that never fails never returns.
- Reorgs.ArchiveStaysFinal: each subscription's range queries read one snapshot of the source.
- Writers.ConfirmationWindow.RewindTo: rows are moved by value; the model does not track reuse of buffers.
