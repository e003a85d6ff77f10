# bsv-wallet-cli: the protocols, proved

A Dafny model of the parts of the wallet where one wrong step costs money, and proofs of what
those parts promise.

- **The chain-event feed** (`SseFraming`, `ChainFeed`): pages and a byte stream, delivered at
  least once, become effects applied exactly once by a cursor stored with them.
- **The tracker host** (`TipRing`, `Tracker`, `AskSchedule`, `FollowUp`): the ring of recent tips,
  rows kept as inputs and replayed on the old and the new branch, the doubling ask schedule, the
  once-per-episode follow-up.
- **The spend gate** (`SpendGate`, `OfferCap`, `LazyRead`, `Door`, `FeedToGate`): the lazy read
  against the full one, the cap, the two-try door, and what the feed's records keep back there.
- **The broadcast verifier** (`BroadcastVerify`): many rounds over a broadcaster, rotating chain
  indexes and other stores, summed to one verdict.
- **Graphs, reservations and the queue** (`BeefClosure`, `Respend`, `SpendGuard`, `Relay`).

Code that changes things in place is a class or a method over an array, proved equal to a
function; the theorems about whole runs are lemmas about that function. What lies outside is an
arbitrary input: the header service, the broadcasters and the clock are functions from the n-th
request to any answer, the toolbox's steps are operations with the contract written beside them,
and the tables are maps and sets.

Three assumptions carry weight. The journal is append-only with rising cursors, and an answer to
`since` is a run after it, repeats allowed, that skips none (`ChainFeed.Serves`). The tracker's
own step, which lives in the `bsv-tracker` crate, is written from README.md:118-135 and
src/tracker_host.rs:51-67 as a small machine (`Tracker.StepProof`, `StepRecheck`, `StepChain`).
The tip and the headers read after it in one pass are one chain's (`TipRing.Faithful`): the code
extends its snapshot with later reads (src/tracker_host.rs:1281-1286), so a reorg in the middle of
a pass is outside what the ring lemmas say.

Where the code does less than one would expect, the model follows the code:

- Frozen coins skip the read but their creators keep their places in it, so the lazy read can
  leave a live coin unread with the need uncovered. `LazyRead.WindowReaches`, a test on the
  candidates alone, says exactly when it cannot, for any need (`LazyRead.WindowIsExact`); the
  second, full read repairs it.
- One delivery hides from every named row the headers any of them lost. `Tracker.SharedHeadersMatter`
  says for every event exactly when that shows, and `Tracker.NeighbourHidesTheHeader` shows it.
- A row keeps one tip event and drops the earlier ones, since each is meant to recheck one mark.
  The word and the mark never suffer by it; the re-ask may name another height
  (`Tracker.DroppedTipChangesTheAsk`). `Tracker.StoredReplays` says exactly when a stored row replays
  to what was stored, for that reason and the one before.
- Which chain index answers first can change the evidence reported, never the verdict: it changes
  exactly when two of the indexes that show presence differ in it
  (`BroadcastVerify.RunEvidenceIsFixed`).
- A payload is counted as handed over whatever ingest said of it. Unless a restart hands it over
  again, ingest's one answer decides for good whether it is ingested (`Relay.FirstAnswerDecides`).
- A respend reads once, before its write lock, that no broadcaster took the replacement it
  replaces. A taken one is discarded exactly when it was taken in between
  (`Respend.DiscardedOnlyInBetween`, `Respend.TakenInBetweenIsRelinked`).
- A cut is checked to chain only once it is closed; a closed set chains exactly when its members
  can be ranked, and never over a cycle (`BeefClosure.ChainedIffRanked`, `BeefClosure.CycleNeverChains`).

## Model

| member | source | states |
|---|---|---|
| `SseFraming.DrainIsLeftmostSplit` | src/chain_feed.rs:401-403 | the blocks drained and the leftover are the leftmost split of the buffer at blank lines, and no other split is |
| `SseFraming.DrainAppend` | src/chain_feed.rs:400-403 | bytes that arrive later never change a block already cut |
| `SseFraming.ChunkInvariance` | src/chain_feed.rs:394-403 | however the bytes are chunked, CR dropped chunk by chunk, the blocks and the leftover are those of the whole |
| `SseFraming.ReturnsGo` | src/chain_feed.rs:400 | a carriage return goes wherever it stands |
| `SseFraming.StripMeans` | src/chain_feed.rs:400 | and nothing else does |
| `SseFraming.Parse` | src/chain_feed.rs:447-470 | the loop over lines is the fold whose inverse is proved below |
| `SseFraming.LineMeans` | src/chain_feed.rs:447-470 | any line: a name, a colon, one space dropped, a value; a name alone has the empty value; comments and other fields say nothing |
| `SseFraming.ParseUndoesPrint` | src/chain_feed_tests.rs:136-142 | a printed message parses back to itself, data of several lines too; a heartbeat parses to nothing |
| `SseFraming.StreamUndoesPrinter` | src/chain_feed.rs:394-419 | any list of messages and heartbeats, printed, concatenated and cut anywhere, is read back as that list with nothing left over |
| `ChainFeed.CursorRoundTrip` | src/chain_feed.rs:301-304 | a cursor the feed writes parses back to itself exactly below 2^64 |
| `ChainFeed.PaddedCursorParses` | src/chain_feed.rs:301-304 | white space around a cursor and a plus sign before it are nothing |
| `ChainFeed.OnlyDigitsParse` | src/chain_feed.rs:301-304 | a cursor with anything else in it parses to none |
| `ChainFeed.FoldApplies` | src/tracker_host.rs:2494-2522 | the fold of a journal prefix applied each envelope once, in order, and its cursor is the last one's |
| `ChainFeed.FrozenIsForever` | src/tracker_host.rs:2409-2420 | an outpoint is frozen exactly when a delivered envelope froze it, under a cursor no later than any that did |
| `ChainFeed.OpenSplitsAreTheUnresolved` | src/tracker_host.rs:2494-2512 | a split is open exactly when the last delivered word on its key opened it, at that fork height |
| `ChainFeed.StoreKeepsExact` | src/tracker_host.rs:2353-2359 | the next envelope, or any repeat at or below the stored cursor, keeps the store the fold of a prefix |
| `ChainFeed.DeliverAllKeepsGood` | src/chain_feed.rs:301-340 | delivering any honest run, repeats and storage failures among it, keeps the invariant, and a clean one skips nothing |
| `ChainFeed.EveryRunIsExact` | src/chain_feed.rs:167-256 | over every interleaving of pages, streams, drops, repeats, storage failures (one that landed and answered an error too) and restarts the store is the fold of a journal prefix, status.cursor never exceeds the stored cursor, and nothing applied is taken back |
| `ChainFeed.NothingPastAFault` | src/chain_feed.rs:301-319 | an envelope that does not decode is never passed and nothing after it is applied |
| `ChainFeed.FollowIsDeliverAll` | src/chain_feed.rs:401-419 | a stream delivers exactly the envelopes of its blocks up to the first error block |
| `ChainFeed.Feed.constructor` | src/chain_feed.rs:167-219 | a start reads the stored cursor and is good for any exact store |
| `ChainFeed.Feed.DeliverOne` | src/chain_feed.rs:301-340 | one delivery in place is the delivery of the run model: decode faults, a store that failed, the status cursor |
| `ChainFeed.Feed.AcceptPage` | src/chain_feed.rs:361-364 | a page delivered in place as the run model delivers it; whole and not empty, it leaves less of the journal ahead |
| `ChainFeed.Feed.Replay` | src/chain_feed.rs:343-373 | the pages, asked one after another until one is the last, ends the round or stops the loop, are the run's next requests, and they end for any honest service |
| `ChainFeed.Feed.Connect` | src/chain_feed.rs:376-421 | one request and the exact leg it ends in: the one its blocks end in, dropped when they end in none, a stop for 409, 400, 404, 405 and 410 |
| `ChainFeed.Feed.DrainBuffer` | src/chain_feed.rs:401-419 | the inner loop delivers the blocks of the buffer and leaves its remainder |
| `ChainFeed.Feed.Run` | src/chain_feed.rs:220-256 | the loop is request by request the run whose laws follow: it makes a request a round at least unless a fault ends it, a fault ends it before the rounds asked for, and its pauses, reconnects and store are that run's, which is a served one |
| `ChainFeed.WalkIsServed` | src/chain_feed.rs:222-256 | any number of requests of the loop is a served run, so what holds over every run holds of the loop |
| `ChainFeed.RequestStops` | src/chain_feed.rs:284-335 | a request stops the loop iff its answer is a stopping code, a garbled page, a page with an envelope that does not decode before any storage call fails, or a stream with such a block or an error; the fault stands at the cursor it leaves |
| `ChainFeed.RunStopsExactly` | src/chain_feed.rs:233-236 | over any run no answer before the last request stops the loop, and the loop has stopped iff the last one does |
| `ChainFeed.WholePageTurns` | src/chain_feed.rs:359-373 | after a page delivered whole the stream is asked iff it was the last; a page that says there is more with nothing in it, or at the cursor asked from, ends the round |
| `ChainFeed.CaughtUp` | src/chain_feed.rs:343-373 | from a service whose last pages carry all there is, when the pages are through nothing is ahead and the store is the fold of the whole journal |
| `ChainFeed.CatchesUp` | src/chain_feed.rs:222-229 | where pages decode and move on and storage lands, the loop turns to the stream, all applied, within one request more than there are envelopes ahead, and without a pause |
| `ChainFeed.StreamIsApplied` | src/chain_feed.rs:376-421 | a stream followed through leaves every envelope it carried applied, and one more round made |
| `ChainFeed.StreamAsksForItsEnvelopes` | src/chain_feed.rs:394-419 | printed envelopes and heartbeats, cut anywhere, ask for just those envelopes, in order |
| `ChainFeed.CountsEachOnce` | src/chain_feed.rs:320-335 | in one life of the daemon the status counts exactly the journaled envelopes its cursor has moved over, each once |
| `ChainFeed.PausesDouble` | src/chain_feed.rs:220-254 | one pause a round, the first the shortest, each next one twice the last up to the longest, or the shortest again |
| `ChainFeed.DeliveringStreamResets` | src/chain_feed.rs:236-240 | the shortest again exactly after a dropped stream that delivered something |
| `ChainFeed.CleanPageAdvances` | src/chain_feed.rs:365-372 | a page delivered whole and not empty moves the cursor past another journaled envelope |
| `TipRing.MovedSince` | src/tracker_host.rs:1265-1301 | the ring vector popped and pushed in place is the scan the lemmas are about |
| `TipRing.OnChainDown` | src/tracker_host.rs:1274-1291 | an entry on the active chain puts every earlier entry there, so the scan may stop at the first match |
| `TipRing.PopMovedMeaning` | src/tracker_host.rs:1274-1291 | what is reported and what stays split the ring at the active chain |
| `TipRing.MovedIsTheLowest` | src/tracker_host.rs:1258-1301 | when no read fails, moved is exactly the lowest ring height off the active chain, and none when all are on it |
| `TipRing.NothingOffChainIsLost` | src/tracker_host.rs:1281-1286 | when a read fails, an off-chain entry is at or above the reported height or still in the ring |
| `TipRing.EveryRingIsOk` | src/tracker_host.rs:1292-1300 | over any run of passes the ring is strictly ascending, at most 12 long, every entry an ancestor of the last |
| `TipRing.OnChainIsKept` | src/tracker_host.rs:1292-1300 | whichever reads fail, an entry on the active chain leaves the ring only as the oldest of a full one |
| `TipRing.RisingTipsAreKept` | src/tracker_host.rs:1265-1301 | over any run of passes whose tips rise on one chain the ring is the last twelve of what it held and the tips seen |
| `TipRing.MoveAfterARise` | src/tracker_host.rs:1258-1301 | and when the chain then moves the pass reports the lowest of those tips that it took away |
| `Tracker.ReorgVerdict` | src/tracker_host.rs:2421-2450 | a reorg that selects a row, whatever events the row keeps: unmarked iff another block with its root stands at its height, stale with the fork's re-ask iff that root differs, suspect with recheck and its word as it was iff no other block is answered |
| `Tracker.RecheckVerdict` | src/tracker_host.rs:2344-2463 | the same three outcomes for every event that rechecks a named row, under the headers all named rows share: a reorg, an invalidated block on the row's hash, a tip or a resolved split on a marked word; a stale row is asked for a proof at once |
| `Tracker.NamedIfMoved` | src/tracker_host.rs:2360-2396 | the index misses nothing: of rows stored as they replay, the event moves those it names, and for a tip or a resolved split those of them that are marked |
| `Tracker.NonePlainOnInvalidated` | src/tracker_host.rs:2384-2391 | after an invalidated block no row is unmarked on it unless the service still answers that header there or its proof already replays to another block, whatever headers the rows were stored over |
| `Tracker.PlainAboveStands` | src/tracker_host.rs:2299-2325 | after a reorg every row left unmarked at or above the fork stands on a header answered now, with its own root and taken away by nothing |
| `Tracker.NonePlainAbove` | src/tracker_host.rs:2360-2383 | after a fork or a split no row is unmarked at or above its height |
| `Tracker.MarkedAfterATip` | src/tracker_host.rs:2375-2383 | after a tip, or a split resolved from below, a row still marked has no block but one taken away answered at its height |
| `Tracker.LeftAlone` | src/tracker_host.rs:2360-2396 | an event that does not concern an unmarked row leaves it as it was |
| `Tracker.BareRow` | src/tracker_host.rs:649-693 | a row with no events replays to the answered header when its root is the proof's, and otherwise to the most its hints say, with a re-ask when another root is answered |
| `Tracker.UnreadableTipIsMadeUp` | src/tracker_host.rs:2299-2325 | an event delivered while the tip cannot be read leaves the row at its hints, kept; the next replay that can read gives what the delivery would have given |
| `Tracker.StillDeactivatedIsSuspect` | src/tracker_host.rs:2299-2325 | a service that still answers the deactivated header leaves the word suspect, to be rechecked |
| `Tracker.PlainReplays` | src/tracker_host.rs:578-586 | a word left plain, its events forgotten, reloads as the same state |
| `Tracker.StoredReplays` | src/tracker_host.rs:576-693 | what the table stores for every event that writes a row, under the headers all named rows share: replaying the stored row gives the stored word and mark iff the event did not select the row or only marked it, or left it plain, or the shared map and the row's own hide the live header alike; and the stored re-ask too unless a dropped tip held it |
| `Tracker.DroppingTips` | src/tracker_host.rs:587-595 | where the live header does not meet the stored root (where it does, the next tip makes both plain): dropping tips changes no word and no mark while the word stays mined; where it leaves mined, the word is stale with the re-ask of the first recheck, and without tips with that of the first recheck kept, or still marked when none is |
| `Tracker.KeptHasOneTip` | src/tracker_host.rs:575-597 | a row that is not plain keeps every event, and of the tips the newest alone |
| `Tracker.DroppedTipChangesTheAsk` | src/tracker_host.rs:587-595 | a run of a fork, an unreadable tip and a reorg after which a tip finds the row moved: the stored re-ask is its own height, the replayed one the fork height, for any two headers with different roots |
| `Tracker.SharedHeadersMatter` | src/tracker_host.rs:2421-2434 | for every event, the headers shared by all named rows leave a row's verdict as its own would iff the event does not select it, is a fork or a split, or both hide the live header at its height alike |
| `Tracker.NeighbourHidesTheHeader` | src/tracker_host.rs:2421-2434 | a run that shows it: a reorg delivered to one of two rows proved in a block, while the service still answers its header, and then a reorg that names both; alone the other row would be left unmarked, together it is left suspect |
| `Tracker.NeverOnADeactivatedHeader` | src/tracker_host.rs:2299-2325 | a row any selecting event leaves mined and unmarked is on the live header, with its own root, never on one taken away |
| `Tracker.Table.Named` | src/tracker_host.rs:2360-2396 | the rows an event names, by word, height, hash and kept events, each once |
| `Tracker.Table.GoneOf` | src/tracker_host.rs:2425-2430 | the deactivated headers of the event and of every named row, in one map |
| `Tracker.SharedHasAll` | src/tracker_host.rs:2425-2430 | what any named row's events took away is in that map, and nothing else |
| `Tracker.Table.DeliverChainEvent` | src/tracker_host.rs:2344-2493 | exactly the named rows are replayed, moved and written back, each as `Next` leaves it; every other row is as it was |
| `AskSchedule.DuePass` | src/tracker_host.rs:1487-1502 | each pass asks at most max_asks rows, none twice, each due; moved roots first and at most four; room left over means every due row but the moved roots past the fourth was asked |
| `AskSchedule.RunPass` | src/tracker_host.rs:1483-1554 | the asking half of a pass over the rows in place is the pass of the run model |
| `AskSchedule.LooksAreScheduled` | src/tracker_host.rs:1487-1491 | over a run, a row nothing else resets is asked only when due and moves by its asks alone |
| `AskSchedule.AsksArePaused` | src/tracker_host.rs:1546-1553 | the k-th ask is followed by no other before its pause is over, and no row is asked past its sixteenth |
| `AskSchedule.AskSchedule` | src/tracker_host.rs:118-129 | for a row that never proves: at most 16 asks, age*2^min(k,6) after the k-th, so the 16th comes at least 639 ages after the first |
| `AskSchedule.AskedExactlyWhenOver` | src/tracker_host.rs:1487-1553 | both ways, where a pass has room for every row: a row that keeps its re-ask and never proves is asked iff fewer than 16 asks came before and the last is its pause ago |
| `AskSchedule.ProofStartsAgain` | src/tracker_host.rs:1542-1545 | a proof resets the row, and it is asked as soon as it has a re-ask again |
| `AskSchedule.MovedRowIsAsked` | src/tracker_host.rs:1487-1553 | one pass, exactly: a due row is asked and paused by its count, or reset by a proof; any other is as the earlier steps left it |
| `FollowUp.PassIsPaced` | src/tracker_host.rs:1616-1633 | at most four status reads a pass; a row is passed over only when the four were made |
| `FollowUp.FollowUpStale` | src/tracker_host.rs:1607-1733 | the loop over the rows in place is that pass |
| `FollowUp.MarkedIsLeftAlone` | src/tracker_host.rs:1624-1626 | a marked row is neither read nor marked again until a store found its word not stale |
| `FollowUp.OncePerEpisode` | src/tracker_host.rs:1592-1606 | over any run, monitor_runs switching freely, two follow-ups of a row are in different stale episodes |
| `FollowUp.AnnouncedOnlyWithRead` | src/tracker_host.rs:1633-1670 | an announce is made only in the pass of its episode's read |
| `FollowUp.AnnounceNeedsDenial` | src/tracker_host.rs:1662-1672 | announced only when some broadcaster answered and each that did does not know it |
| `FollowUp.FollowUpIsExact` | src/tracker_host.rs:1624-1733 | all a follow-up does to a row: read, handed to the monitor or left; announced iff read, denied by all that answered and stored; its mark, its word by the announce's own verdict, and its hints, exactly |
| `FollowUp.HintsAreKept` | src/tracker_host.rs:1636-1660 | hints are only added, each once, and every word a broadcaster had is kept |
| `FollowUp.NextEpisodeIsFresh` | src/tracker_host.rs:886-891 | the mark is stored only while the word is stale, so a later episode is followed from the start |
| `SpendGate.Assess` | src/spend_gate.rs:1044-1145 | the loop is the scan, then the cap |
| `SpendGate.CapInPlace` | src/spend_gate.rs:1150-1176 | the in-place cap is the cap the lemmas are about |
| `SpendGate.MarkLargest` | src/spend_gate.rs:1154-1159 | the marks are those of the first cap positions by value |
| `SpendGate.Rebuild` | src/spend_gate.rs:1160-1175 | the offer rebuilt keeps the marked coins in order and counts the rest |
| `SpendGate.ByValueSorts` | src/spend_gate.rs:1154-1155 | the positions are sorted by value, each once |
| `OfferCap.MaskKeepsLargest` | src/spend_gate.rs:1154-1159 | exactly cap coins stay and each is worth at least every dropped one |
| `OfferCap.CapOfferConserves` | src/spend_gate.rs:1147-1176 | at most cap coins, in the order read; no coin, id or satoshi is lost between offered, unread and capped |
| `OfferCap.CapIsBest` | src/spend_gate.rs:1147-1149 | no choice of at most cap of the coins is worth more than the cap's |
| `OfferCap.CapIsMonotone` | src/spend_gate.rs:1147-1176 | a wider read's capped total is never less |
| `LazyRead.AssessmentPartitions` | src/spend_gate.rs:1062-1143 | every candidate is in exactly one of offered, held and unread, before the cap and after |
| `LazyRead.FullRead` | src/spend_gate.rs:1084-1088 | with fixed readings a full read offers and holds exactly what each coin's verdict says, nothing unread |
| `LazyRead.LazyRefinesFull` | src/spend_gate.rs:1044-1142 | the lazy offer and holds are subsequences of the full read's |
| `LazyRead.ReachedCoversOrReadsAll` | src/spend_gate.rs:1063-1092 | where every live coin falls in its window, the lazy read offers the shortest prefix of the full offer that reaches the need, or leaves nothing unread |
| `LazyRead.UnreachedLeavesUnread` | src/spend_gate.rs:1079-1127 | and only there: otherwise, for any need, some readings leave coins unread with the need uncovered |
| `LazyRead.WindowIsExact` | src/spend_gate.rs:1044-1142 | for any need and setting: the window reaches every live coin iff under all readings the lazy read offers the shortest prefix that covers the need or leaves nothing unread |
| `LazyRead.FewFrozenWindowReaches` | src/spend_gate.rs:1064-1092 | fewer than a batch of creators of frozen coins and every live coin is in its window; no frozen coin is the special case |
| `LazyRead.FrozenBatchHides` | src/spend_gate.rs:1064-1092 | a batch of frozen coins of distinct creators first, and the live coin after them is missed |
| `LazyRead.SecondOfferIsNoLess` | src/spend_gate.rs:1532-1543 | on unchanged coins and readings the full offer is worth at least the lazy one, after the cap |
| `Door.ReadingIsExact` | src/tracker_host.rs:2057-2095 | a creator is offered iff it could be looked at, mined, unmarked, deep enough and under no open split; the fault is that of the first thing that could not be told |
| `Door.SpendableIsLetThrough` | src/spend_gate.rs:887-917 | a coin its creator's reading makes fit is held for no reason |
| `Door.ReasonNamesTheLack` | src/spend_gate.rs:878-917 | each reason for holding a coin is given exactly where the reading lacks just that |
| `Door.OffersExactlyTheFit` | src/spend_gate.rs:1044-1142 | on a full read, or a lazy one that left nothing unread, the offer before the cap is the coins of exactly the fit candidates, in the toolbox's order |
| `Door.FitIsOffered` | src/spend_gate.rs:1044-1176 | so a fit coin goes out unless the cap is full of coins worth no less |
| `Door.RefusalOfferedTheFit` | src/spend_gate.rs:1522-1551 | a funds refusal held no fit coin back but past the cap |
| `LazyRead.ReadsOnceMore` | src/spend_gate.rs:1093-1121 | the header service is read once more exactly when that is allowed and a creator read met a header fault, and only for such creators |
| `Door.RetriedIsExact` | src/spend_gate.rs:1093-1121 | over a whole assessment: read once more iff that is allowed and some creator's first read met a header fault |
| `Door.HeldFaultIsTwice` | src/spend_gate.rs:1093-1121 | a full read holds a coin on the service's fault only where it failed to answer for its creator twice |
| `Door.EveryCoinIsRightly` | src/spend_gate.rs:1129-1142 | whatever is answered and when, each offered coin is unfrozen and let through under a reading given here, each held coin has its reason |
| `Door.FullReadJudgesAll` | src/spend_gate.rs:1084-1088 | a full read leaves nothing unread but what the cap counts, even when readings change on the retry |
| `Door.WiderOfferAdds` | src/spend_gate.rs:878-917 | of the two offers of a full read: the wider one has every candidate of the narrower one and, more, exactly the received coins of pending creators that only it reaches |
| `Door.FullOfferNarrows` | src/spend_gate.rs:222-243 | on a full read the offer under a narrower word is within the offer under a wider one |
| `Door.CondemnedIsNeverOffered` | src/spend_gate.rs:1129-1142 | whatever is answered and when, an offered coin's creator was read in that assessment without a fault as mined, fit and unmarked, or as pending where the setting allows it; never stale, rejected, conflicted or abandoned |
| `Door.OfferedWasLookedAt` | src/tracker_host.rs:2059-2092 | and where readings are made as the guard makes them, a mined one was deep enough, unmarked and under no open split, with no fault of the guard |
| `Door.RunGated` | src/spend_gate.rs:1509-1551 | at most two offers, each an assessment's, and the outcome of the two tries |
| `Door.DoorIsExact` | src/spend_gate.rs:1509-1551 | spent iff the toolbox created from the last offer; a second offer iff the first left coins unread and was declined for funds or an unspendable coin; each other outcome by that last answer |
| `Door.RefusalJudgedEverything` | src/spend_gate.rs:1522-1551 | a funds refusal follows a declined offer of an assessment in which every candidate was offered, held or counted in the cap |
| `Door.RetriedAtMostOnce` | src/spend_gate.rs:1535-1543 | the two tries read the header service once more at most once |
| `Door.FaultRefusalIsExact` | src/spend_gate.rs:1553-1590 | "could not verify now" is said exactly when coins held on the service's fault, with the offer, reach the outputs, in the service's words about one of them |
| `Door.SecondTryOffersNoLess` | src/spend_gate.rs:1532-1551 | on unchanged coins and readings the second offer is worth no less |
| `FeedToGate.OpenSplitFloor` | src/tracker_host.rs:2139-2142 | the lowest fork height of the open splits, none when none is open |
| `FeedToGate.DeliveredFreezeIsNeverOffered` | src/tracker_host.rs:2186-2197 | after every run of the feed no offered coin is at an outpoint a delivered envelope froze |
| `FeedToGate.FlaggedWasDelivered` | src/tracker_host.rs:2186-2197 | and no coin is held as frozen that no delivered envelope froze |
| `FeedToGate.OfferedBelowOpenSplits` | src/tracker_host.rs:2134-2147 | after every run of the feed, under any word and whatever is answered, an offered coin whose creator was read as mined was read below the fork of every split whose last delivered word opened it |
| `FeedToGate.HeldBySplit` | src/tracker_host.rs:2139-2147 | and no creator is held for a split but one mined at or above the fork of a split still open |
| `BroadcastVerify.AskChainIndexes` | src/broadcast_verify.rs:961-1007 | the loop from a rotating start is the count the lemmas are about |
| `BroadcastVerify.AskedIsRight` | src/broadcast_verify.rs:949-960 | present iff some index gives chain evidence; absent iff some index votes, all voters say 404 and none gives evidence |
| `BroadcastVerify.RotationDoesNotMatter` | src/broadcast_verify.rs:973-1007 | which of present, absent and unknown does not depend on the start |
| `BroadcastVerify.EvidenceIsFixed` | src/broadcast_verify.rs:973-1007 | which evidence is reported does not depend on the start iff all indexes that give chain evidence give the same |
| `BroadcastVerify.RotationCanChangeTheEvidence` | src/broadcast_verify.rs:989-995 | an instance where it does: seen from one index, mined from the other |
| `BroadcastVerify.HeardMeans` | src/broadcast_verify.rs:757-835 | a round's votes, holds and evidence in terms of what its sources say |
| `BroadcastVerify.Verifier.ProbeRound` | src/broadcast_verify.rs:757-831 | one round in place, the indexes one question where the first of them stands |
| `BroadcastVerify.Verifier.VerifyReport` | src/broadcast_verify.rs:745-886 | the loop over rounds is the run the lemmas are about, pauses and rotation included |
| `BroadcastVerify.LastRoundDecides` | src/broadcast_verify.rs:845-884 | verdict, network_absent, fatal and evidence of a report, each exactly when its round's sources say so |
| `BroadcastVerify.VerdictIsExact` | src/broadcast_verify.rs:745-886 | the last round decides; every earlier one saw nothing and was in time; the run stopped for a reason |
| `BroadcastVerify.RejectedIsUncontradicted` | src/broadcast_verify.rs:868-882 | Rejected implies network_absent, no presence in any round, and the attempts used up or the deadline passed |
| `BroadcastVerify.RejectionIsEarned` | src/broadcast_verify.rs:505-882 | for the list the wallet builds under any settings: Rejected iff in the last round the broadcaster answered a JSON 404 or its own rejection, both voting indexes a 404, and no other source had it by the words it sent |
| `BroadcastVerify.ProbeMeans` | src/broadcast_verify.rs:1048-1180 | what a probe makes of a source's answer: mined, seen or held, each exactly by the code and the words it sent |
| `BroadcastVerify.ReportIsEarned` | src/broadcast_verify.rs:745-1180 | the whole report over that list, in what the sources sent: no source had it in any earlier round; verdict, absence, fatal and chain index each iff the last round's words say so; and the evidence mined or seen as an index said, else the last store, else the broadcaster, else a bare word |
| `BroadcastVerify.PresenceConfirms` | src/broadcast_verify.rs:832-844 | presence in a round that runs gives Confirmed and ends the run |
| `BroadcastVerify.UnheardBroadcasterNeverRejects` | src/broadcast_verify.rs:360-378 | a broadcaster that cannot be probed can never lead to Rejected |
| `BroadcastVerify.VerdictIgnoresRotation` | src/broadcast_verify.rs:961-975 | verdict, network_absent, broadcaster_fatal, rounds and pauses do not depend on the shared rotation, wherever it starts and however far other clones move it before each round |
| `BroadcastVerify.RunEvidenceIsFixed` | src/broadcast_verify.rs:745-1007 | over whole runs, wherever the rotation starts and however clones move it, one and the same evidence is reported iff all the indexes that give chain evidence in the last round give the same |
| `BroadcastVerify.SleepIsBounded` | src/broadcast_verify.rs:710-726 | pauses never shrink, none is over the cap, and with one probe timeout they fit the absence window |
| `BroadcastVerify.DefaultRun` | src/broadcast_verify.rs:118-137 | under the default settings a run pauses 26,250 ms at most, and exactly that when it uses all its rounds |
| `BeefClosure.ReachedByPath` | src/commands/export_beefs.rs:97-98 | reached is being at the end of a path of inputs of unproven transactions |
| `BeefClosure.BeefOf` | src/commands/export_beefs.rs:99-142 | terminates; a cut holds exactly what is reached, each with its proof, and chains; an error names a reached transaction that cannot be used, or the set does not chain |
| `BeefClosure.MembersStandAlone` | src/commands/export_beefs.rs:119-134 | each member carries its proof or has all its parents beside it |
| `BeefClosure.WalkIsByTheBytes` | src/commands/export_beefs.rs:107-134 | the walk goes from a transaction that reads and carries no proof there is to each of its inputs, and from no other |
| `BeefClosure.CutIsByTheBytes` | src/commands/export_beefs.rs:107-134 | each member of a cut with its proof, or readable with every input beside it |
| `BeefClosure.AcyclicChains` | src/commands/export_beefs.rs:136-140 | a closed set whose members come after their inputs chains |
| `BeefClosure.AcyclicFailsOnlyOnUnusable` | src/commands/export_beefs.rs:107-140 | so there the cut fails exactly on a reached transaction that is not held, only named or unread |
| `BeefClosure.AcyclicCutsExactlyUsable` | src/commands/export_beefs.rs:99-142 | where transactions come after their inputs the cut is made iff everything reached is stored and read |
| `BeefClosure.ChainedIffRanked` | src/commands/export_beefs.rs:136-140 | a closed set passes the last check iff its members have a rank that falls from each unproven one to its inputs |
| `BeefClosure.CycleNeverChains` | src/commands/export_beefs.rs:136-140 | a closed set with a cycle of unproven transactions, of any length, never passes it |
| `BeefClosure.FindLeaf` | src/atomic_beef.rs:26-45 | the one unreferenced transaction, or none, or how many |
| `BeefClosure.RankedHasLeaf` | src/atomic_beef.rs:36-39 | only a cycle leaves no leaf |
| `BeefClosure.LeafOfTheCut` | src/atomic_beef.rs:26-45 | the one leaf of a cut is the transaction it was cut for |
| `BeefClosure.KeepSet` | src/respend.rs:152-178 | the phantom's inputs and their unproven ancestry exactly, or a refusal exactly when some of it is missing |
| `BeefClosure.AncestryIsByTheBytes` | src/respend.rs:163-178 | a respend's walk goes from a transaction that reads and has no proof of any kind to each of its inputs |
| `BeefClosure.PhantomNeverKept` | src/respend.rs:150-178 | the phantom never rides in its replacement's ancestry |
| `Respend.Wallet.BuildReplacement` | src/respend.rs:309-376 | after the checks on what was read before, and again under the lock: the row and the link, or nothing |
| `Respend.BuildIsExact` | src/respend.rs:101-376 | built iff the phantom is out, took, unsettled in both its words, the same at the write, every input locked to it both times, and its replacement none or failed and not taken; then the row and the link, and nothing else |
| `Respend.Wallet.ReserveInputs` | src/respend.rs:455-485 | the reservation in place, one update a coin |
| `Respend.Wallet.SettleProven` | src/respend.rs:518-556 | exactly the proven rows whose proof is ingested again are settled |
| `Respend.EveryRunKeepsInv` | src/respend.rs:28-32 | over every run a linked replacement is shared by no other phantom and spends exactly its phantom's inputs, and an attributed coin is never spendable; that a phantom has one link is the table's primary key, here a map |
| `Respend.ReservedInputs` | src/respend.rs:451-485 | after a reservation every input of an unsettled replacement is unspendable and the phantom's, unless a third held it or another linked phantom spends it too |
| `Respend.NoThirdSpend` | src/respend.rs:451-454 | a spend after the reservation picks no input of an unsettled replacement |
| `Respend.SettlementMovesExactly` | src/respend.rs:518-553 | a whole settlement, whatever its rows: an input of a settled replacement that is its phantom's or nobody's ends unspendable and held by a settled replacement that spends it; every other coin is as it was |
| `Respend.SettlesTheProven` | src/respend.rs:515-553 | a settlement settles a link iff its phantom is a double spend, its replacement completed and the proof ingested again |
| `Respend.SettledHasLost` | src/respend.rs:515-553 | in any run a step settles a link only then |
| `Respend.ThirdKeepsItsCoin` | src/respend.rs:476-547 | over any run a third spender's coin stays its own until the toolbox restores it or that spender is settled against |
| `Respend.LinkStandsUntilFailed` | src/respend.rs:130-137 | over every run, builders reading at any earlier time, a phantom's replacement stays its replacement unless something marks it failed |
| `Respend.DiscardedOnlyInBetween` | src/respend.rs:309-376 | a relink discards a replacement some broadcaster took iff all else still builds and it was taken between the read and the write |
| `Respend.NoTakenIsUnlinked` | src/respend.rs:309-376 | over any run between them that marks the old replacement taken nowhere, no taken replacement is discarded |
| `Respend.TakenInBetweenIsRelinked` | src/respend.rs:329-337 | a state and a step in between after which a taken replacement is discarded |
| `SpendGuard.Run` | src/spend_guard.rs:70-155 | reservations, releases and holds in place are the run the lemmas are about, with its report |
| `SpendGuard.FreesOnlyItsOwn` | src/spend_guard.rs:93-111 | a coin made selectable was in the guard's own holds, spent by nobody, its transaction vouched for |
| `SpendGuard.GuardByWords` | src/spend_guard.rs:70-155 | each coin no replacement reserves, by its transaction's words: given back, taken or left, and held on, exactly |
| `SpendGuard.VouchedIsReturned` | src/spend_guard.rs:93-111 | a held coin of a transaction a status source has, spent by nobody, can be selected after the run |
| `SpendGuard.SelectableOnlyIfFreed` | src/spend_guard.rs:93-111 | over every run of guards and other steps, a coin that was not selectable becomes so only by a guard's release, unless the toolbox restores it |
| `SpendGuard.HeldWasTaken` | src/spend_guard.rs:93-146 | over every run, a coin not held at its start that the guard then holds or frees was taken by the guard in that run, its transaction refused |
| `SpendGuard.NeverFreesReserved` | src/spend_guard.rs:71-105 | a coin reserved for an unsettled replacement is never freed |
| `SpendGuard.SecondRunIsQuiet` | src/spend_guard.rs:48-52 | a second run on an unchanged store changes nothing and reports nothing |
| `SpendGuard.SpendAfterGuard` | src/spend_guard.rs:68-155 | a spend after the guard picks no coin of a refused transaction and no reserved input |
| `Relay.RelayServer.ArcCallback` | src/relay.rs:150-217 | queued exactly for a registered token and a body within the limit |
| `Relay.RelayServer.Register` | src/relay.rs:320-357 | registered exactly with the admin bearer and a token long enough |
| `Relay.RelayServer.PullPage` | src/relay.rs:230-311 | registers unless that is required first, deletes what is acknowledged, answers the first hundred after the id |
| `Relay.CallbackIsExact` | src/relay.rs:150-217 | a payload is queued, under the next id, iff its token is there and known and it is no longer than a million |
| `Relay.PullIsExact` | src/relay.rs:230-311 | a pull is served iff its token is not empty and known or need not be; it makes it known; a row of the token past the id that is not in the page is later than a full hundred |
| `Relay.CallbackIsHandedOver` | src/relay.rs:150-311 | a payload called back for a known token is the last handed over by the next poll, where fewer than a hundred waited |
| `Relay.Poller.Poll` | src/commands/daemon_tenant.rs:321-382 | one tick hands over the page in order, whatever ingest answers, and moves last_id; a lost answer moves nothing |
| `Relay.NothingIsLost` | src/commands/daemon_tenant.rs:316-382 | under lost answers, failed parses, late requests and restarts each accepted payload is queued or was handed over, and in one client life once, in id order |
| `Relay.TakenIsNeverLost` | src/commands/daemon_tenant.rs:316-382 | over every run in which ingest takes a payload each time it is asked, whatever is lost, late or restarted, an accepted payload is queued or ingested |
| `Relay.FirstAnswerDecides` | src/commands/daemon_tenant.rs:342-370 | a payload handed over by a poll is off the queue after the next, and after any run that follows it has been ingested iff ingest took it in that poll |
| `Relay.TokensAreApart` | src/relay.rs:271-289 | another token's pull leaves this queue as it was and sees none of it |
| `Relay.OnePoll` | src/commands/daemon_tenant.rs:321-375 | one poll hands over the next hundred and empties the queue up to where it stood |
| `Relay.QuietQueueDrains` | src/relay.rs:230-311 | a quiet queue of n is handed over within ceil(n/100) polls and empty one poll later |

## Left out

- ChainFeed.EveryRunIsExact: what a delivery does to the tracked rows is kept as the list of the envelopes applied; the rows themselves are `Tracker.Table`'s, for one event at a time, and are not folded over the journal here.
- ChainFeed.Feed.Run: the state words of the status row and a failed write of it; pauses are recorded, not slept; the loop has no end but a fault, so it is run for any number of rounds.
- ChainFeed.PaddedCursorParses: white space is that of ASCII.
- ChainFeed.Feed.Connect: HTTP, JSON and the lossy reading of bytes as UTF-8; one character stands for one byte, and the decoder of envelopes is any function.
- TipRing.MovedIsTheLowest: says nothing of heights between ring entries; the ring has gaps, and rows between the last match and the reported height are not read again.
- Tracker.StoredReplays: a row with a stored verdict, which replays last, and a stored event that no longer decodes. A tip age names no row.
- Tracker.Table.DeliverChainEvent: the table of frozen outpoints and the cursor, which are the feed's.
- AskSchedule.RunPass: the rest of a pass: hints, re-announces, adoption of proven transactions, the report. What they do to a row's schedule before the asking is any schedule the pass is given for it; the run lemmas are about rows given none.
- FollowUp.FollowUpStale: the report, and why a stored transaction could not be read.
- SpendGate.Assess: the texts of the reasons with their depths and ages; storage faults inside a read, which end the action and appear in the door as a store that fails. Satoshis are unbounded integers, so sums over 2^64 are not modelled.
- Door.RunGated: the label an action carries, the check of a scoped word before the door, the candidates' SQL and the spending lock.
- Door.OfferedWasLookedAt: the guard steps the plain snapshot, so nothing here says that an offered coin's header was never deactivated.
- BroadcastVerify.RejectionIsEarned: endpoints and keys from the environment; a plane the services builder refuses is a verifier that is not enabled.
- BroadcastVerify.Verifier.VerifyReport: real time; a deadline that has passed is any answer after each round, and probes that hang are unknown answers.
- BeefClosure.BeefOf: bytes, merkle arithmetic and the merging of proofs; `is_valid` is the marking of what chains back to proofs.
- BeefClosure.KeepSet: the check of the kept roots against our headers.
- Respend.Wallet.BuildReplacement: keys, scripts, signatures, fees and change; the silence of the status sources; the competitors queued on the request. One identity owns every output.
- Respend.Wallet.ReserveInputs: a linked replacement whose bytes cannot be read, which ends the reservation with an error.
- Respend.EveryRunKeepsInv: a reservation, and the settlement of one row, are each one step of the runs, on the state it reads. The code reads its rows first; it then writes a reservation coin by coin (src/respend.rs:455-485), and settles each row, its proof ingested, in a transaction of its own (src/respend.rs:518-553).
- SpendGuard.Run: txids are unique among transactions, and the report lists sets where the code lists vectors in order.
- SpendGuard.HeldWasTaken: a guard run is one step of the runs. The code reads the rows, then writes each in a transaction of its own, and records a hold even for a coin that stopped being selectable in between (src/spend_guard.rs:114-146).
- Relay.RelayServer.PullPage: database faults, which appear as polls that reached the server or did not, with the answer lost. One client polls a token.
- Relay.Poller.HandOver: an item without a payload or an id, which the relay never answers; the refused proof or word that ingest answers counts as ingested, as in the log.
- The toolbox's own steps, src/broadcast_reconcile.rs, src/retire_guard.rs, src/arc_ingest.rs, src/brc29.rs, src/store.rs, the command line and the MCP server.
