# Consolidated market data, verified

A Dafny model of a consolidated order book and of the rules that decide what may
enter it, with proofs that its fast, incremental forms compute what the simple
forms prescribe.

- `FlatOrderBook`, `LevelMap`, `Ordering`: one venue's book as two sorted lists,
  against a plain map from price to quantity.
- `ConsolidatedBook`, `ConsolidatedState`: the k-way merge, and the incremental
  repair of its result from one venue's changes.
- `ConsolidatedBbo`: the best bid and offer, scanned and incrementally updated.
- `Market`, `Sessions`, `Core`, `Pipeline`, `VenueRegistry`: the five messages. `Market` says what they
  mean without any incremental state, `Sessions` what is then published in terms of the
  messages' own fields; `Core` is the stateful machine with its rebuild latches and
  version counter. Every value `Core` publishes, after any messages in any order, is the
  one `Market` prescribes.
- `SpscQueue`, `Doorbell`: the ring between provider and consolidator and the way the
  consolidator sleeps, as interleaved atomic steps.
- `SeqDedup`, `Continuity`, `Bybit`, `Okx`, `VenueHistory`, `Binance`: duplicates from redundant
  connections, sequencing rules, and the reconstruction of a venue's book from
  snapshot and events.
- `Bands`, `WireCodec`, `Decimal`: band arithmetic, the wire format, and decimals.

`IsMerge` (ConsolidatedBook) and `IsBbo` (ConsolidatedBbo) say what a consolidated book
and a BBO are without reference to any algorithm; both are proved to determine their
object, a BBO up to the order of its attribution. `MergedFromBooks`, `BboFromQuotes` and
`AttributedFromMessages` say the same with nothing but stored levels, quote fields,
messages and the verdict `Live`.

Where the code and its description differ, the model follows the code:

- A live Binance event judged Ignore, spot or futures, is documented as one to drop, but
  only a gap stops an event. `IgnoredRegresses` and `FuturesIgnoredRegresses` are runs
  from a fresh provider that show the effect, `IgnoredIsHarmlessIff` says exactly which
  events cannot do harm, `LiveHeals` and `ConnectionRebuilds` that the book is right again
  once the stream has passed the snapshot. `VerdictsRebuild` and
  `SnapshotAndEventsRebuild` are the statements for the rule as documented.
- A Binance futures snapshot joined with nothing buffered, as a fetch that outlives its
  connection can make it, keeps the snapshot's id, and the next event is then reported as
  a gap although nothing is missing, unless it chains from exactly that id
  (`EmptyJoinFuturesIff`; `FuturesFalseGap` and `LateSnapshotRun` are such a gap).
- The duplicate filter recognises a copy of a restart only while it is the newest id, and
  after a restart that falls it takes older messages again (`RestartTwice`,
  `FallingRestart` for OKX, `RestartUndone` for Bybit). `AlwaysOnceIff` gives, for any
  stream of messages flagged in any way, the exact condition for exactly-once delivery,
  `Bybit.AlwaysCleanIff` and `Okx.AlwaysCleanIff` what it means for the two venues.
- The connection mask of the filter is documented as the connections that delivered an
  id. It also collects older copies (`LaggardIsCredited`); `MaskTellsIff` says exactly
  when it is what it is documented to be.
- A delta that names a price twice with a quantity leaves a side that is no longer sorted
  (`RepeatIsStoredTwice`); `ApplySide` says exactly which deltas are applied as a map
  would apply them.
- A removed venue's quotes count again as soon as a verdict admits them, without a new
  registration (`RemovedQuotesAgain`).
- The edge of an ask band is computed with a 32-bit sum and cast to 64 bits;
  `TopInsideIff` and `BandsAgreeIff` give the exact conditions.

## Model

| member | source | states |
|---|---|---|
| `FlatOrderBooks.FlatOrderBook.ApplyUpdate` | md_core/flat_order_book.cpp:227-264 | For any update: the book is the plain price-to-quantity map after it exactly when, of the levels naming one price on a side, only the last carries a quantity; with no price named twice both change lists of a delta are exactly the difference of the two maps, and after a snapshot they are empty and marked incomplete |
| `FlatOrderBooks.ApplySide` | md_core/flat_order_book.cpp:91-225 | For any delta in any arrival order: the side stays strictly sorted exactly when no price carries two quantities, it is the map after the writes exactly when only the last level of a price carries one, and with distinct prices the collected changes are exactly what moved |
| `FlatOrderBooks.RepeatIsStoredTwice` | md_core/flat_order_book.cpp:43-76 | A concrete delta that names a price twice leaves a side that is no longer sorted |
| `FlatOrderBooks.Relocate` | md_core/flat_order_book.cpp:28-88 | Staging and copying back gives the overlay of side and delta, repeated prices included, for every region start below the delta's prices, and leaves the levels below the start untouched |
| `FlatOrderBooks.ResolveOrder` | md_core/flat_order_book.cpp:98-137 | Storage order, reverse order or any shuffle is brought into storage order with the same levels, each as often |
| `FlatOrderBooks.OverlayHas` | md_core/flat_order_book.cpp:28-88 | The overlay consists of the side's levels at prices the delta does not name and of the delta's own that carry a quantity |
| `FlatOrderBooks.SortedIff` | md_core/flat_order_book.cpp:28-88 | It is strictly sorted exactly when no price carries two quantities in the delta |
| `FlatOrderBooks.Walk` | md_core/flat_order_book.cpp:139-218 | The backward walk collects the complete change list, rewrites only quantities in place, and when nothing entered or left the side is already final |
| `FlatOrderBooks.ChangesExact` | md_core/flat_order_book.cpp:139-218 | The walk's notes are strictly best-first, one per price that moved, with the old and the new quantity, never a no-op |
| `FlatOrderBooks.FoldOrderIrrelevant` | md_core/flat_order_book.cpp:100-137 | The writes of a delta with distinct prices do not depend on their order |
| `FlatOrderBooks.FlatOrderBook.BestBid` | md_core/flat_order_book.cpp:20-22 | The highest price of the map with its quantity, None exactly for an empty side |
| `FlatOrderBooks.FlatOrderBook.BestAsk` | md_core/flat_order_book.cpp:24-26 | The lowest price of the map with its quantity, None exactly for an empty side |
| `LevelMap.DiffUnique` | md_core/flat_order_book.cpp:139-218 | Two sides have exactly one best-first difference list |
| `LevelMap.ReplayDiff` | md_core/flat_order_book.cpp:139-218 | Replaying a difference list turns the old side into the new one |
| `LevelMap.UpdatedAt` | md_core/flat_order_book.cpp:227-264 | What an update leaves at every price of either side: the quantity it names there, otherwise nothing after a snapshot and the old quantity after a delta |
| `FlatOrderBooks.ReplayFromEmpty` | md_core/flat_order_book.cpp:139-248 | A run of deltas on a new book ends at the plain map after the same deltas, and the change lists it left, replayed from an empty book, end there too |
| `ConsolidatedBook.MergeBooks` | md_core/consolidated_book.cpp:8-186 | Best price first; each level attributed to exactly the visited slots whose verdict is Live, if verdicts are given, and whose book has that price, in slot order with the book's quantity and their 64-bit sum; nothing of such a book missing above the depth |
| `ConsolidatedBook.MergedFromBooks` | md_core/consolidated_book.cpp:47-185 | The same for any side that is the merge of the admitted contributions, told by the stored levels and the verdict Live alone |
| `ConsolidatedBook.MergeSide` | md_core/consolidated_book.cpp:58-185 | The k-way merge of one side terminates with the best levels down to the depth, each complete |
| `ConsolidatedBook.MergeUnique` | md_core/consolidated_book.cpp:8-186 | The same contributions have one consolidation only, level by level |
| `ConsolidatedBook.CapIsPrefix` | aggregator/aggregator_service.cpp:204-209 | A merge at depth d is the first d levels of the unbounded one, so capping the incremental state equals a capped merge |
| `ConsolidatedState.State.ApplyDepthDelta` | md_core/consolidated_state.cpp:148-164 | If the state is the merge of the old contributions and the lists are what one venue's sides did, the state becomes the merge of the new contributions |
| `ConsolidatedState.State.FullRebuild` | md_core/consolidated_state.cpp:166-176 | The state becomes the unbounded merge of the given books under the given verdicts and the latch is cleared |
| `ConsolidatedState.ApplyOneChange` | md_core/consolidated_state.cpp:53-139 | One price change folded into a merged side gives the merge of the changed contributions: a level rewritten, opened, or erased with its last contributor |
| `ConsolidatedState.ApplyChanges` | md_core/consolidated_state.cpp:148-164 | A whole change list folded in gives the merge with the slot's side replaced by what the list replays it to |
| `ConsolidatedState.RepairLevel` | md_core/consolidated_state.cpp:76-138 | One contributor's new quantity leaves the level that quotes the price after the change, or none when nobody does |
| `ConsolidatedState.Join` | md_core/consolidated_state.cpp:126-138 | A joining contributor lands in slot order and the attribution array always has room for it |
| `ConsolidatedState.LowerBoundByRank` | md_core/consolidated_state.cpp:19-25 | The first level that is not better than the price |
| `ConsolidatedBbo.ComputeBBOFromQuotes` | md_core/consolidated_bbo.cpp:166-179 | The best usable price per side, its total and exactly the slots that quote it, and the crossed flag |
| `ConsolidatedBbo.UpdateBBOWithQuote` | md_core/consolidated_bbo.cpp:181-239 | From the BBO of the old quotes, the incremental update yields a BBO of the quotes with the new one stored: same prices, totals, crossed flag and attribution set as a full scan |
| `ConsolidatedBbo.ScanBest` | md_core/consolidated_bbo.cpp:74-130 | A full scan of one side finds the best price, its total and its contributors |
| `ConsolidatedBbo.Depart` | md_core/consolidated_bbo.cpp:151-160 | A contributor leaving the best level is taken out, and the side rescanned when it was the only one |
| `ConsolidatedBbo.Equal` | md_core/consolidated_bbo.cpp:132-149 | A quote at the best price replaces its slot's quantity or joins the attribution |
| `ConsolidatedBbo.BboUnique` | md_core/consolidated_bbo.cpp:166-239 | Quotes and verdicts determine the BBO up to the order of attribution |
| `ConsolidatedBbo.BboFromQuotes` | md_core/consolidated_bbo.cpp:74-179 | Exactly what a BBO is, by the quotes' fields: the greatest bid and the least ask of the slots whose verdict is Live, each with exactly the slots that quote it, their own quantities and the 64-bit sum, crossed when both exist and the bid reaches the ask |
| `VenueRegistries.VenueRegistry.Register` | types/venue_registry.h:84-103 | Idempotent by name; a new name takes the next slot; refused only when all slots are taken; no other name moves |
| `VenueRegistries.NameIsVenue` | types/venue.h:189-213 | A name is known exactly when it is the name of a venue, and then it is that one's |
| `Market.StepOk` | md_core/md_core.cpp:498-550 | Every message keeps active slots on their own name's venue with a book for every instrument, and inactive slots without any |
| `Market.RunOk` | md_core/md_core.cpp:498-550 | So does every run of messages |
| `Market.PublicationDetermined` | md_core/md_core.cpp:268-376 | What has to be published is determined: books exactly, BBOs up to the order of attribution |
| `Market.InterleavingsAgree` | md_core/md_core.cpp:498-550 | Messages of different slots commute: interleavings of the same per-slot sequences leave the same books, quotes, verdicts and active table |
| `Market.RunIsPerSlot` | md_core/md_core.cpp:498-550 | In any run a slot ends where its own messages alone take it |
| `Market.RemovedStaysOut` | md_core/md_core.cpp:746-788 | After a disconnect and until the slot registers again no consolidated book attributes anything to it |
| `Market.RemovedStaysOutOfBbo` | md_core/md_core.cpp:746-788 | After a disconnect no BBO attributes anything to the slot until a verdict admits its quotes again |
| `Market.RemovedQuotesAgain` | md_core/md_core.cpp:614-650 | A verdict is all it takes: without registering again the removed slot's next quote counts in full |
| `Sessions.BooksAreFolds` | md_core/md_core.cpp:268-296 | While a slot stays active each of its books is exactly its updates of that instrument applied in order of arrival, whatever verdicts, quotes and repeated registrations lie between them |
| `Sessions.SessionStartsEmpty` | md_core/md_core.cpp:701-734 | From its first registration on a slot's books are the updates since, and nothing of what was sent before |
| `Sessions.QuotesAreLast` | md_core/md_core.cpp:614-650 | The last quote of each instrument is the one that counts, registered or not |
| `Sessions.VerdictsAreLast` | md_core/md_core.cpp:566-596 | The last verdict on each stream counts for that stream |
| `Sessions.DisconnectForgets` | md_core/md_core.cpp:746-788 | A disconnect leaves an active slot without venue, books, prices and verdicts, an inactive one as it was |
| `Sessions.BookFromColumns` | md_core/md_core.cpp:292-342 | A published side names exactly the slots whose depth verdict is Live and whose book has the price, in slot order with the book's quantities and their 64-bit sum, best price first and nothing missing |
| `Sessions.UpdateIsPublished` | md_core/md_core.cpp:268-376 | An update of an active slot on a known instrument always publishes that book; any other publishes nothing |
| `Sessions.QuoteIsPublished` | md_core/md_core.cpp:614-650 | A quote on a known instrument always publishes the BBO of the stored quotes under the stored verdicts; any other publishes nothing |
| `Sessions.AttributedFromMessages` | md_core/md_core.cpp:498-550 | Over any run without a disconnect of the slot: a level of the book names it exactly when its last depth verdict is Live and its updates, folded in order, leave that quantity at the price |
| `Sessions.QuotedFromMessages` | md_core/md_core.cpp:498-550 | Over such a run the BBO names the slot exactly when its last BBO verdict is Live and its last quote has the best price, and no live quote is better |
| `Sessions.LiveOnlyIfToldSo` | md_core/md_core.cpp:566-596 | Over any run a slot is live on a stream only if it was at the start or a verdict said so |
| `Sessions.SilentNotInBbo` | md_core/md_core.cpp:746-788 | A slot without a price, as a new or a removed one, is in no BBO until it quotes the instrument, whatever the verdicts say |
| `Cores.Core.constructor` | md_core/md_core.cpp:203-231 | A core without venues stands for the empty market, with every instrument waiting for its first rebuild |
| `Cores.StartsSilent` | md_core/md_core.cpp:203-231 | The market it stands for has no venue, no book, no price and nothing live |
| `Cores.Core.ProcessUpdate` | md_core/md_core.cpp:268-376 | Moves the market by the update and publishes the from-scratch consolidated book of its instrument, whichever of the three paths it took; without a book nothing is published |
| `Cores.Core.ProcessQuote` | md_core/md_core.cpp:614-650 | Moves the market by the quote and publishes the from-scratch BBO of its instrument, folded or rescanned |
| `Cores.Core.ProcessHealth` | md_core/md_core.cpp:566-596 | Changes exactly one verdict and keeps the guarantee that nothing stale can be published afterwards |
| `Cores.Core.ProcessRegistration` | md_core/md_core.cpp:701-734 | Activates the slot for its name's venue, with empty books only where it had none |
| `Cores.Core.RemoveVenue` | md_core/md_core.cpp:746-788 | Frees the slot's books, quotes and verdicts and keeps every published value right; a no-op on an inactive slot |
| `Cores.Core.RegisterVenueName` | md_core/md_core.cpp:676-699 | Refuses unknown names and a full registry; a name keeps its slot forever and nothing becomes active |
| `Cores.Core.RegisterVenue` | md_core/md_core.cpp:736-744 | Name and activation together: the slot that carries the name is active for that name's venue |
| `Cores.Core.ApplyUpdate` | md_core/md_core.cpp:236-265 | An update of a venue without a slot changes and publishes nothing; any other is its slot's message |
| `Cores.Core.ApplyQuote` | md_core/md_core.cpp:598-611 | The same for a quote |
| `Cores.Core.OnVenueHealth` | md_core/md_core.cpp:552-563 | The same for a verdict |
| `Cores.Core.DrainOnce` | md_core/md_core.cpp:498-550 | One pass takes what each ring yields, in order, slot by slot, and every publication on the way is the from-scratch one for the market at that moment |
| `Pipeline.RunPasses` | md_core/md_core.cpp:498-550 | Pass after pass over rings their producers keep filling: the core ends at the market of everything taken, each publication is the from-scratch one, and what was taken of a slot is a prefix of what its producer pushed |
| `Pipeline.TakenIsPopped` | md_core/md_core.cpp:522-546 | The passes together take from each ring exactly what the ring popped, in its order |
| `Cores.PassOrderIrrelevant` | md_core/md_core.cpp:498-550 | Any other interleaving of the same rings leaves the market a pass leaves |
| `Cores.AfterUpdate` | md_core/md_core.cpp:268-376 | With the latch clear the state is the merge, before and after an update; the published book is the merge |
| `Cores.AfterQuote` | md_core/md_core.cpp:614-650 | With the seen version current the BBO is the scan, before and after a quote; the published BBO is the scan |
| `Cores.AfterHealth` | md_core/md_core.cpp:566-596 | A changed depth verdict sets every latch, a changed BBO verdict moves the version on; an unchanged one does nothing |
| `Cores.AfterRegistration` | md_core/md_core.cpp:701-734 | Opening a venue keeps tables, books and latches in step with the market |
| `Cores.AfterRemoval` | md_core/md_core.cpp:746-788 | Removing a venue keeps tables, books, quotes, latches and version in step with the market |
| `Cores.Consolidate` | md_core/md_core.cpp:292-342 | Rebuild, repair or leave alone: afterwards the latch is clear and the state is the merge of the new books |
| `Cores.MarkAllForRebuild` | md_core/md_core.cpp:802-806 | Every instrument's latch is set and no book is touched |
| `Cores.OpenBooks` | md_core/md_core.cpp:721-725 | Every instrument gets an empty book in the slot unless it has one there |
| `Cores.BooksFollowActivity` | md_core/md_core.cpp:652-788 | The active table and the venue-to-slot table are mutually inverse, and a slot has a book of an instrument exactly while it is active, for its own name's venue |
| `SpscQueues.FifoAlways` | md_core/spsc_queue.h:46-100 | In every state of every interleaving, with stale opposite cursors and wrapping counters: popped is a prefix of pushed, at most Capacity are in flight, each intact in its slot, and the slot about to be written holds none of them |
| `SpscQueues.StepKeeps` | md_core/spsc_queue.h:46-100 | Every atomic step of either side keeps the ring invariant |
| `SpscQueues.CheckRoomKeeps` | md_core/spsc_queue.h:46-55 | A push is refused exactly when the ring is full as far as the producer can see |
| `SpscQueues.CheckMessageKeeps` | md_core/spsc_queue.h:84-91 | A pop is refused exactly when the ring is empty as far as the consumer can see |
| `SpscQueues.SlotOf` | md_core/spsc_queue.h:114-115 | Masking a wrapped cursor gives the true count modulo the capacity |
| `SpscQueues.PushGoesThrough` | md_core/spsc_queue.h:46-82 | A producer that sees room appends its message by its own four accesses, whatever the consumer is doing |
| `SpscQueues.PopGoesThrough` | md_core/spsc_queue.h:84-112 | A consumer that sees a message gets the oldest one by its own four |
| `Doorbell.NoLostWakeup` | md_core/md_core.cpp:98-201 | In every reachable state where the consolidator sleeps, each queued message's producer has yet to notify, and so has Stop if the core was stopped |
| `Doorbell.RingingWakes` | md_core/md_core.cpp:126-134 | On every path from a sleep with a message queued: by the time that message's producer is through with its ring, the sleeper has been woken |
| `Doorbell.StopWakes` | md_core/md_core.cpp:98-114 | On every path from a sleep in a stopped core: by the time Stop has notified, the sleeper has been woken |
| `Doorbell.RingCanComplete` | md_core/md_core.cpp:126-134 | From such a sleep three steps of the other threads, none of them spurious, can wake the sleeper, and the message is still there |
| `Doorbell.StopCanComplete` | md_core/md_core.cpp:98-114 | From a sleep in a stopped core two steps of the other threads can wake the sleeper |
| `Doorbell.StepKeeps` | md_core/md_core.cpp:98-201 | Every atomic step keeps the owner of the lock, the meaning of both flags and what the predicate has passed over |
| `Doorbell.DrainedBeforeExit` | md_core/md_core.cpp:136-201 | On every run that ends with the consumer gone: each slot registered when Stop cleared the flag has had an empty ring at some moment after that |
| `Doorbell.AllTakenBeforeExit` | md_core/md_core.cpp:98-201 | Hence as many messages were popped from every ring as had been pushed before the stop |
| `Doorbell.IdleAfterEmptyRings` | md_core/md_core.cpp:136-201 | The loop comes to rest only after a pass that found every registered ring empty |
| `Doorbell.RingHolds` | md_core/md_core.cpp:98-201 | On every run a ring holds what was pushed and not yet popped |
| `Doorbell.StoppedExits` | md_core/md_core.cpp:136-201 | In a stopped core the consumer gets out by its own steps, from the top of the loop or from a wake-up |
| `SeqDedups.TakesNewMaxima` | md_provider/seq_dedup.cpp:34-41 | Without resets, whatever is delivered, an id passes exactly when it exceeds everything before it |
| `SeqDedups.ExactlyOnce` | md_provider/seq_dedup.cpp:5-54 | For every interleaving of in-order connections, on a stream whose ids rise and that ends with its flagged message if it has one, what passes is the longest delivered prefix, each message once and in order |
| `SeqDedups.AlwaysOnceIff` | md_provider/seq_dedup.cpp:5-54 | For any stream of messages, each flagged as a restart or not: it passes exactly once at every moment of every interleaving if and only if its ids rise throughout and nothing follows a flagged message |
| `SeqDedups.FallingRestart` | md_provider/okx/okx_provider.cpp:132-156 | OKX's maintenance reset from 15 to 3: the older message passes once more after it |
| `SeqDedups.RestartTwice` | md_provider/seq_dedup.cpp:19-27 | A concrete schedule of two connections in which a flagged message passes twice |
| `SeqDedups.SeenMaskIs` | md_provider/seq_dedup.cpp:19-54 | Whatever is delivered, the mask collects exactly the connections below 8 that delivered anything while the newest message through was the newest |
| `SeqDedups.MaskTellsIff` | md_provider/seq_dedup.cpp:44-54 | Whatever is delivered, restarts included: the published mask is the set of connections that delivered the previous message exactly when those that spoke since it came through had all delivered it and those that delivered it all spoke since |
| `SeqDedups.MaskTellsUnlessLagging` | md_provider/seq_dedup.cpp:44-54 | On a stream that comes through once only the first half is in question: no connection may lag behind the newest message |
| `SeqDedups.SeqDedup.Accept` | md_provider/seq_dedup.cpp:5-42 | Accepts exactly what the high-water mark does not cover, moves the mark, and keeps the masks and the drop count |
| `SeqDedups.LaggardIsCredited` | md_provider/seq_dedup.cpp:34-38 | A concrete schedule in which the mask names a connection for a message it never delivered |
| `Continuity.ReconcileBinanceSnapshot` | md_provider/continuity.cpp:107-127 | The index of the first event not inside the snapshot, or None exactly when that event starts after the snapshot |
| `Continuity.FirstSurvivor` | md_provider/continuity.cpp:108-112 | Everything before the index is inside the snapshot, the event at it is not |
| `Continuity.OkxGapIff` | md_provider/continuity.cpp:25-43 | From a snapshot on, no gap is reported exactly when every message restarts the chain or names its predecessor, keep-alives and falling ids included |
| `Continuity.OkxVerdict` | md_provider/continuity.cpp:25-43 | As long as messages link up: a snapshot restarts, one that repeats its predecessor's id is ignored, and any other is applied |
| `Continuity.BybitVerdict` | md_provider/continuity.cpp:5-23 | As long as everything before it linked up a delta is ignored when it repeats its predecessor, applied when it is the next, a gap otherwise |
| `Bybit.BybitDepth.OnDepthMessage` | md_provider/bybit/bybit_provider.cpp:52-103 | Duplicates are dropped before continuity is judged; a gap resets the last id and asks for a resync |
| `Bybit.NeverResyncs` | md_provider/bybit/bybit_provider.cpp:79-103 | On a contiguous snapshot-first stream that does not go on past a restart, every interleaving emits exactly the longest delivered prefix and never resyncs |
| `Bybit.AlwaysCleanIff` | md_provider/bybit/bybit_provider.cpp:75-103 | A contiguous stream is emitted once and without a resync under every interleaving if and only if nothing follows its restart |
| `Bybit.LossIsReported` | md_provider/continuity.cpp:5-23 | A delta that skips messages is reported as a gap |
| `Bybit.RestartUndone` | md_provider/bybit/bybit_provider.cpp:75-103 | A concrete restart that falls, after which the older snapshot goes out once more |
| `Bybit.LossHoldsBack` | md_provider/bybit/bybit_provider.cpp:79-103 | After a loss nothing goes out until the venue sends a snapshot or restarts its ids |
| `Okx.OkxDepth.OnDepthMessage` | md_provider/okx/okx_provider.cpp:118-174 | A fall that still chains is flagged to the filter; duplicates are dropped before the rule is asked; a gap resets the last id and asks for a resync |
| `Okx.AlwaysCleanIff` | md_provider/okx/okx_provider.cpp:132-174 | A chain of messages that name their predecessors is emitted once, in order and without a resync under every interleaving if and only if its ids rise throughout |
| `Okx.EmittedIsTaken` | md_provider/okx/okx_provider.cpp:124-156 | As long as nothing resyncs, exactly what passes the filter is emitted: the rule's own ignore branch is never reached |
| `Okx.OneConnection` | md_provider/okx/okx_provider.cpp:132-174 | On one connection a chain goes out whole but for its keep-alives, falling ids included |
| `Okx.KeepAliveDropped` | md_provider/okx/okx_provider.cpp:124-131 | A keep-alive repeating an id the filter has had is dropped there and changes nothing, late or not |
| `Okx.LossHoldsBack` | md_provider/okx/okx_provider.cpp:158-168 | After a loss nothing goes out until the venue sends a snapshot or names the id 0 |
| `Binance.BinanceProvider.OnDepthMessage` | md_provider/binance/binance_provider.cpp:186-270 | A copy is dropped, an event while syncing is buffered up to the cap, a live one is judged by its market's rule and goes out unless it is a gap |
| `Binance.BinanceProvider.ReconcileSnapshot` | md_provider/binance/binance_provider.cpp:129-184 | Refused without any change when the snapshot does not join; otherwise snapshot and survivors go out in order and the last id is what the market's rule needs |
| `Binance.BinanceProvider.OnSnapshotFetched` | md_provider/binance/binance_provider.cpp:101-125 | Joined, refetched, or given up after the last attempt |
| `Binance.BinanceProvider.OnReconnect` | md_provider/binance/binance_provider.cpp:53-65 | The connection's state is forgotten; the duplicate filter and what was emitted stay |
| `Binance.BinanceProvider.StartRound` | md_provider/md_provider.cpp:70-86 | A new round of connections starts with nothing received and a clean filter |
| `Binance.VerdictsRebuild` | md_provider/continuity.cpp:45-81 | Spot or futures, whatever truthful events arrive, lost, repeated or out of order: applying those judged Apply keeps the venue's book at the last applied id |
| `Binance.JudgedByRange` | md_provider/continuity.cpp:45-105 | Nothing new is ignored; of the rest spot applies what reaches back to the last id and futures what continues from exactly it; a futures event without its predecessor's id is a gap |
| `Binance.JoinRebuilds` | md_provider/binance/binance_provider.cpp:129-184 | Snapshot plus buffered survivors rebuild the venue's book at the last one's id, straddling events included |
| `Binance.SnapshotAndEventsRebuild` | md_provider/continuity.cpp:45-81 | Snapshot, surviving buffered events and every later event judged Apply rebuild exactly the venue's book at the last id |
| `Binance.BufferRun` | md_provider/binance/binance_provider.cpp:223-238 | While syncing, what the filter has not had is buffered whole and in order up to 2000 events, and one more asks for a resync; with a clean filter that is the whole stream |
| `Binance.BufferJoinsIff` | md_provider/continuity.cpp:107-127 | A spot stream buffered without loss joins a snapshot exactly when the snapshot is not older than the point where the buffer begins |
| `Binance.GivesUp` | md_provider/binance/binance_provider.cpp:101-125 | A snapshot that cannot be had is asked for five times, and then the connection is given up |
| `Binance.LiveHeals` | md_provider/binance/binance_provider.cpp:240-269 | From a join on, spot or futures, a stream without loss never resyncs, and from the snapshot's id on the emitted updates make exactly the venue's book |
| `Binance.EmptyJoinSpotIff` | md_provider/binance/binance_provider.cpp:143-148 | After a spot join with nothing buffered the first event is taken exactly when nothing is missing between the snapshot and it |
| `Binance.EmptyJoinFuturesIff` | md_provider/binance/binance_provider.cpp:158-178 | After a futures join with nothing buffered the first event past the snapshot is taken exactly when it chains from the snapshot's own id, and a gap is reported otherwise |
| `Binance.FuturesFalseGap` | md_provider/binance/binance_provider.cpp:143-178 | A concrete such gap: one history makes snapshot and event true and nothing is missing |
| `Binance.LateSnapshotRun` | md_provider/binance/binance_provider.cpp:101-125 | The program's own steps to it: a round started, the late snapshot joined, the event reported as a gap |
| `Binance.ConnectionRebuilds` | md_provider/binance/binance_provider.cpp:129-270 | The whole life of a connection without loss, spot or futures: buffered, joined and live, nothing is refused, and from the snapshot's id on the emitted updates make exactly the venue's book |
| `Binance.IgnoredIsHarmlessIff` | md_provider/binance/binance_provider.cpp:245-269 | For a live event of either market that passes the filter: whatever the venue's history, going out leaves the book right, if and only if the event is not older than the last id or names nothing |
| `Binance.IgnoredRegresses` | md_provider/binance/binance_provider.cpp:223-269 | From a fresh provider, with every message true to the venue: an event buffered, a newer snapshot joined, and the event in between judged Ignore yet sent out, taking its price back |
| `Binance.FuturesIgnoredRegresses` | md_provider/binance/binance_provider.cpp:245-269 | The same on futures: an event older than the late snapshot is judged Ignore, goes out, and takes its price back |
| `VenueHistory.EventReaches` | md_provider/continuity.cpp:65-76 | An event that reaches back to what is held brings the book to the venue's at its own id |
| `VenueHistory.CaughtUp` | md_provider/continuity.cpp:45-81 | A seeded book that was told everything since an earlier point is the venue's once the stream passes the seed |
| `Bands.FillToNotional` | md_core/consolidated_book.cpp:235-266 | The fill is the exact report of the sweep to the target |
| `Bands.FillToNotionalBands` | md_core/consolidated_book.cpp:268-314 | One walk over ascending targets gives what a walk of its own gives each target |
| `Bands.FillAtCrossing` | md_core/consolidated_book.cpp:200-220 | At the crossing level the exact partial fill, no division by zero, no underflow, and a clamp that never bites |
| `Bands.FillExhausted` | md_core/consolidated_book.cpp:224-233 | A side that runs out is taken whole and reported as insufficient |
| `Bands.SweepTo` | md_core/consolidated_book.cpp:255-265 | Never more than the target, and less than one unit at the crossing price short of it when the side suffices |
| `Bands.FillBounds` | md_core/consolidated_book.cpp:200-266 | Exact notional, at most the target; quantity at 64 bits; insufficient exactly when the side is; less than one unit short otherwise; and a vwap between the best price and the worst one touched while the quantity fits |
| `Bands.FillMonotone` | md_core/consolidated_book.cpp:200-314 | A larger target fills at least as much notional and goes at least as deep, and while its quantity fits its vwap never comes back towards the top |
| `Bands.FillFromLevels` | md_core/consolidated_book.cpp:200-266 | From the levels: those before the last one touched fall short of the target; that one is taken for as many whole units as the rest buys, or everything is taken and reported short; quantity, notional and average are those sums |
| `Bands.NothingFilled` | md_core/consolidated_book.cpp:235-249 | Nothing to fill from or nothing asked for: all zeros, reported short exactly when something was asked for; an empty side has empty bands |
| `Bands.NotionalRun` | md_core/consolidated_book.cpp:235-266 | A concrete fill with all its numbers |
| `Bands.FillToBps` | md_core/consolidated_book.cpp:316-355 | The totals of every level inside the limit, insufficient exactly when all levels are |
| `Bands.BandFromLevels` | md_core/consolidated_book.cpp:316-355 | The edge is the exact share of the top price, rounded down, zero for a bid band of the whole price or more; exactly the levels on the near side of it are counted and summed; insufficient exactly when that is the whole side |
| `Bands.BpsRun` | md_core/consolidated_book.cpp:316-355 | A wide and a narrow band over one side with all their numbers |
| `Bands.FillToBpsBands` | md_core/consolidated_book.cpp:357-402 | One walk for any bands: each is reported with the levels of the widest one so far |
| `Bands.SharedFromLevels` | md_core/consolidated_book.cpp:357-402 | Each report has its own exact edge and the totals of the widest band so far |
| `Bands.BandsAgreeIff` | md_core/consolidated_book.cpp:369-401 | The one walk gives every band what a walk of its own gives it exactly when no band holds fewer levels than one before it |
| `Bands.AscendingWidens` | md_core/consolidated_book.cpp:369-379 | Ascending bands do, as long as their edges fit the integer types |
| `Bands.TopInsideIff` | md_core/consolidated_book.cpp:322-327 | The top level is inside every bid band, and inside an ask band exactly when 10000 + bps fits 32 bits and the edge fits 64, or what the cast leaves of the edge still reaches it |
| `Bands.WidestAskBandIsEmpty` | md_core/consolidated_book.cpp:324-327 | A concrete ask band that wraps and holds nothing |
| `WireCodec.BookRoundTripIff` | md_wire/wire_codec.cpp:123-180 | An update comes back with every field but the venue, exactly when both level counts fit 32 bits |
| `WireCodec.BookPrefixRejected` | md_wire/wire_codec.cpp:147-180 | Every strict prefix of an encoded update is rejected |
| `WireCodec.BboRoundTrip` | md_wire/wire_codec.cpp:184-221 | A quote comes back with every field but the venue, and every strict prefix is rejected |
| `WireCodec.HealthRoundTrip` | md_wire/wire_codec.cpp:225-250 | A health event comes back with both codes and its time, and every strict prefix is rejected |
| `WireCodec.RawInjective` | md_wire/wire_codec.cpp:225-250 | The codes tell all streams and verdicts apart |
| `WireCodec.NoConfusion` | md_wire/wire_codec.cpp:50-53 | No encoded message decodes as one of another kind |
| `WireCodec.DecodeBookUpdate` | md_wire/wire_codec.cpp:147-180 | Accepts exactly a buffer of the right kind that holds all the levels it announces |
| `WireCodec.FieldReadsBack` | md_wire/wire_codec.cpp:14-39 | A field of a packed struct reads back at its offset |
| `WireCodec.BookOnTheWire` | md_wire/wire_format.h:84-140 | Every byte position of an encoded update: header, scalars, counts, flag, bids and asks, least significant byte first |
| `WireCodec.QuoteOnTheWire` | md_wire/wire_format.h:147-170 | Every byte position of an encoded quote |
| `WireCodec.HealthOnTheWire` | md_wire/wire_format.h:178-187 | Every byte position of an encoded verdict, with the codes of streams and verdicts |
| `Decimal.ParseScaledDecimal` | md_provider/decimal.h:23-48 | The digits up to the scale, onto the integer part, wrapping at 64 bits |
| `Decimal.FormatScaled` | client/client_common.cpp:204-217 | Integer part, point and zero-filled fraction at the requested digits, with the 64-bit divisors the program computes |
| `Decimal.DivisorPositive` | client/client_common.cpp:31-37 | The 64-bit power of ten is never zero below exponent 64, so printing does not divide by zero |
| `Decimal.DivisorVanishes` | client/client_common.cpp:31-37 | From exponent 64 on it is zero |
| `Decimal.RoundTrip` | client/client_common.cpp:204-221 | Parsing what was printed returns the value, rounded down to the printed digits, for every scale whose power of ten fits 64 bits |
| `Decimal.ReadIsExact` | md_provider/decimal.h:27-46 | Digits that amount to a 64-bit value are read without any intermediate overflow |
| `Decimal.PriceRun` | client/client_common.cpp:204-221 | A concrete price read at scale 8 and shown with two digits and with none |

## Left out

- FlatOrderBooks.FlatOrderBook.ApplyUpdate: the change lists of a delta that names a price twice, whose order depends on how the sort treats equal prices; Core is proved for deltas with distinct prices, as venues send them.
- Cores.Core.ProcessUpdate: the core keeps the contents of its venue books and consolidated states by value and works on an object loaded from them, since each has a single owner; aliasing is not captured. The instrumentation, the venue level counts and the publication stamp are not modelled.
- Cores.Core.ProcessQuote: the version counter does not wrap.
- Pipeline.RunPasses: no venue registers a new name between the passes.
- SpscQueues.FifoAlways: the memory model is sequential apart from opposite cursors, which may be stale but never go back.
- Doorbell.NoLostWakeup: sequentially consistent steps; spin counts are arbitrary and the 50 ms timeout is not relied on.
- Bands.FillToBpsBands: the side's notional fits 128 bits, as the source assumes; Bands.FillToNotionalBands likewise.
- Bands.FillBounds: the vwap of a fill whose quantity leaves 64 bits.
- Binance.JoinRebuilds: the buffered events follow one another, which the replay loop does not check again.
- Binance.BinanceProvider.OnDepthMessage: timestamps, activity and health stamps are not modelled; "live" is the sync state, not the published health.
- Decimal.FormatScaled: scales from 64 on, where the source divides by zero.
- Decimal.ParseScaledDecimal: characters are taken as code points; a signed byte above 127 is not modelled.
- WireCodec.DecodeBookUpdate: the fields a failed decode has already overwritten in the caller's struct are not captured.
- Updates and encodings are values: capacity reservation, buffer reuse and bytes-moved counters are performance matters.
- Sockets, TLS, REST, ZeroMQ and gRPC, the JSON parsers and configuration: I/O over libraries; parsed messages are the inputs here.
- Hello and goodbye messages on the wire, the BBO streams of the providers: easy next to their counterparts here.
- ConflatedChannel and the session fan-out, logging, latency recorders, command line and client output other than scaled decimals.
- Adding an instrument after start and RemoveInstrument, which nothing calls.
- Enqueueing with its bounded retries and overflow counters.
