# Verification of the perpetual-futures matching and risk engine

This project models the engine's deterministic core in Dafny and proves properties of the model. Four cores are covered,
from the words of the price-ladder bitmap up to whole runs with crashes and restarts:

1. **Order book.** `Words`, `PriceLevel`, `RingPriceLadder`, `FarPriceMap`, `SideBook`, `CrossingDepth`, `OrderBook` and
   `EngineCore` are imperative: intrusive FIFO queues, a rotated ring of price levels with a bitmap, an ordered map for far
   prices, a cached best level, two indexes. Each method is proved against `BookSpec` and `CoreSpec`, where a book is one
   queue per side, best price first and earliest arrival first. `MatchLaws`, `BookLaws`, `DepthLaws`, `CoreLaws`, `CoreRuns`
   and `RestoreLaws` prove what the reference keeps; `PlacementLaws` and `CancelLaws` say what becomes of every order and
   cancel, told from the command and the resting orders alone, and `EventLaws` what the event stream tells those who follow it.
2. **Accounting.** `Accounting`, `LedgerSpec` and `RuntimeSpec` are the arithmetic of fills, the event translator and the
   runtime (placing, cancelling, marking, funding, liquidation, deleveraging, the scan at startup). `EngineRuntime` is the
   object with its loops, proved equal to `RuntimeSpec`. `LedgerLaws`, `StoreLaws`, `LiquidationLaws`, `FundingLaws`,
   `RuntimeLaws` and `RuntimeRuns` prove what every run keeps, and `RestartLaws` what a restart changes; `SelfTrades` holds
   instances in which a user trades with himself. `RuntimeSteps` lifts a relation that holds across every elementary step to
   whole runs, `Bookings` one that holds across single trades, and `ReservationLaws`, `StrandedReservations`,
   `RestartedReservations`, `ValueLaws`, `MarginLaws`, `RiskLaws`, `AdjustmentLaws` and `AscendingIds` build on them.
   `AttemptLaws` says whom automatic liquidation and deleveraging pick, `LiquidationTerms` when and at which prices a
   liquidation closes, `RecordLaws` what a run remembers of its records and `EffectLaws` what each kind of record does.
3. **Protocol.** `Protocol` holds the consuming worker and the recovery coordinator over any engine; `ProtocolRuns` runs
   them with failures and crashes anywhere, `Publications` says what gets published, `Seamless` when restarts cannot be
   seen, and `DurableRuntime` puts the runtime of core 2 under the protocol. `DurableHistories` states the laws of value,
   margin, risk, funding and reservations over every history of records, startup scans and restores. `ProtocolOutcomes` says
   when something is checkpointed or committed, and when a recovery goes live.
4. **Codecs.** `JsonSpec`, `JsonLaws`, `Json` and `OutputSerializer` are the serializer and the recursive-descent parser,
   and `JsonGrammar` and `JsonGrammarLaws` hold the parser against a grammar of syntax trees (sections 2 to 8 of RFC 8259); `CheckpointSpec`, `CheckpointLaws`, `CheckpointCodec` and `FileNames` are the
   tab-separated checkpoint text and the names of its files; `StateCodec` and `DurableCheckpoints` join the text to the
   runtime's state, `CheckpointFiles` the file that is loaded to the checkpoint that was saved last, and `CheckpointGrammar` and
   `CheckpointReadLaws` say what the reader accepts.

How the parts connect: `EngineCore.Process` refines `CoreSpec.Process`, which `RuntimeSpec` calls; `EngineRuntime.Process`
refines `RuntimeSpec.Process`. `RuntimeEngine` in `DurableRuntime` is an engine for the protocol whose step is
`RuntimeSpec.Process`, whose restore is `RestartLaws.Checkpointed` and whose startup scan is `RuntimeSpec.StartupScan`.
Histories of records, scans and restores are exact for it in every run (`RecordsApplyOnce`) and keep the runtime's invariant
whatever the ids (`InvariantSurvives`); on logs in which orders that may rest carry ascending ids it is seamless
(`RuntimeSeamless`), so that restores cannot be seen. `Checkpointed` is what writing, reading and restoring a checkpoint's
text does (`SavedAndRestored`), and the file a recovery loads is the one saved last (`LatestIsLast`).

Numbers are mathematical integers. Where the source's 64-bit width matters to a result it is a precondition
(`OrderBook.Fits`: the lots of each price level, plus those of the incoming order, stay below 2^64; the sum over levels may
reach it and saturates as in the source). Division is the source's, truncating toward zero (`TruncDiv`).
`bitmap` words are naturals below 2^64 with explicit bits. An exception is a `None`, `Failed` or `Threw` outcome.

What the code does that a reader might not expect, and which the statements follow:

- A post-only *market* order can take liquidity: the check looks at the command's price, the match at the widest limit
  (`PostOnlyTakesIff`, `PostOnlyMarketBuy`).
- A restore re-inserts orders by order id, so time priority survives exactly when ids ascend within every price level
  (`RestoreIff`, `RestoreReorders`); it does whenever orders that may rest carry ascending ids (`AscendingIdsRestore`,
  `AscendingIdsRestart`). The last trade price is not restored, and never shows.
- An accepted order that may not rest and is not filled completely, or not at all, leaves its metadata behind without
  resting (`StrandedIff` says exactly when, `ImmediateBuyStranded` is an instance). Nothing is ever settled from its
  reservation or released (`StrandedForGood`) until a restart drops it (`DroppedIff`); all other reservations stay accounted
  for, through restarts too (`RestartsAccounted`).
- A user may trade with himself, and his own resting lots then absorb his reduce-only order or his liquidation. A reduce-only
  order closes exactly the lots it takes from others, so it closes all that it fills exactly if none of the lots it takes in the
  book it arrives at are its owner's (`ReduceOnlyShrinks`). A liquidation closes exactly the lots it takes from others in the
  book plus the smaller of what the book leaves open and what the ranked counterparties hold (`LiquidateLaw`), and all that it
  asked for exactly if it meets no lot of the user's own and those counterparties hold enough (`ClosesAllIff`). Instances in
  which one's own bid absorbs the order and nothing is closed are `ReduceOnlyAbsorbed` and `LiquidationAbsorbed`.
- A fill computes a position's risk anew, so earlier funding payments leave its equity: what is neither margin nor unrealized
  profit in equity is what funding paid since the last announced fill (`AdjustmentIsFunding`).
- Replay is silent. A record is consumed live at most once (`LiveOnce`), so its outputs are all published exactly if every
  publication of that one consumption succeeds (`PublishedIff`), and records that were only ever replayed have nothing
  published (`NeverLive`, `ReplayIsSilent`). A publication that fails is never made up for (`LosesOutputs`, `MarkLost`).
- The empty checkpoint id and the id `checkpoint` share a file name; no other two ids do (`FileNamesCollide`).

## Model

| member | source | states |
|---|---|---|
| `RingLadder.RingPriceLadder.MarkActive` | src/core/RingPriceLadder.cpp:197-204 | exactly one bit of the bitmap is set, and the invariant that every occupied slot has its bit is kept |
| `RingLadder.RingPriceLadder.MarkInactive` | src/core/RingPriceLadder.cpp:205-212 | exactly one bit is cleared; every other slot's bit stays |
| `RingLadder.RingPriceLadder.FirstActiveLevelInRange` | src/core/RingPriceLadder.cpp:24-62 | the masked-word search gives the first occupied slot of the range, as a linear scan does, healing stale bits and changing no slot |
| `RingLadder.RingPriceLadder.LastActiveLevelInRange` | src/core/RingPriceLadder.cpp:64-108 | the masked-word search gives the last occupied slot of the range, as a linear scan does |
| `RingLadder.RingPriceLadder.AdvanceBestAfterEmpty` | src/core/RingPriceLadder.cpp:164-188 | for any head and capacity, the two-range search over the rotated ring finds the level a scan in price order finds |
| `RingLadder.ScanFindsBest` | src/core/RingPriceLadder.cpp:164-188 | that level has the highest tick for bids and the lowest for asks; there is none exactly when the ring is empty |
| `RingLadder.RotatedScans` | include/core/RingPriceLadder.hpp:29-32 | scanning the part after the head and then the part before it is scanning the ring in tick order, for any head |
| `RingLadder.RingPriceLadder.GetOrCreateLevel` | src/core/RingPriceLadder.cpp:125-139 | the slot of the price holds its level, created empty if it was not there; no other slot changes |
| `RingLadder.RingPriceLadder.RemoveLevelIfEmpty` | src/core/RingPriceLadder.cpp:141-158 | the slot is freed exactly when its level is empty |
| `FarPrices.FarPriceMap.BestLevel` | src/core/FarPriceMap.cpp:19-31 | the level whose price no other stored price beats, or none when there are no levels |
| `FarPrices.FarPriceMap.GetOrCreateLevel` | src/core/FarPriceMap.cpp:6-12 | the map holds a level of that price and otherwise what it held |
| `PriceLevels.PriceLevel.PushBack` | src/core/PriceLevel.cpp:5-19 | the linked queue gains the order at its end, links, count and total stay consistent |
| `PriceLevels.PriceLevel.Remove` | src/core/SideBook.cpp:47-71 | the linked queue loses exactly that order, wherever it stood; total and count fall by it |
| `SideBooks.SideBook.InsertRestingOrder` | src/core/SideBook.cpp:26-33 | the side's orders become the sorted queue with the newcomer behind every order at least as good; the cached best is the true best over ring and far prices |
| `SideBooks.SideBook.RemoveOrder` | src/core/SideBook.cpp:47-71 | the side's queue without that order; no empty level is kept and the cached best is true again |
| `SideBooks.SideBook.UpdateAfterFillOrCancel` | src/core/SideBook.cpp:73-91 | an emptied level leaves its store and the cached best is recomputed; the orders do not change |
| `SideBooks.SideBook.RefreshCachedBest` | src/core/SideBook.cpp:113-127 | the cached best is the best of both stores, or null when both are empty |
| `SideBooks.SideBook.PriceCrosses` | src/core/SideBook.cpp:93-103 | true exactly when an incoming price reaches the front of the reference queue |
| `CrossingDepth.AvailableCrossingLots` | src/core/OrderBook.cpp:81-97 | the early-stopping sum over sorted levels reaches the order size exactly when the lots within the limit do |
| `CrossingDepth.ActiveLevelsSorted` | src/core/OrderBook.cpp:57-79 | every non-empty level of both stores once, best price first |
| `OrderBooks.OrderBook.MatchIncomingOrder` | src/core/OrderBook.cpp:207-295 | the in-place match loop leaves the queue, taker, counters and events of the reference match |
| `OrderBooks.OrderBook.InsertRemainingAsResting` | src/core/OrderBook.cpp:297-304 | the remainder joins its side in price-time order and both indexes list it |
| `OrderBooks.OrderBook.CancelExistingOrder` | src/core/OrderBook.cpp:306-344 | the order leaves its queue and both indexes; its open lots are released and its level's new total announced |
| `OrderBooks.OrderBook.ProcessPlace` | src/core/OrderBook.cpp:112-188 | book, counters and events are those of the reference placement, with every structural invariant kept |
| `OrderBooks.OrderBook.ProcessCancel` | src/core/OrderBook.cpp:190-205 | book, counters and events are those of the reference cancel |
| `OrderBooks.OrderBook.IndexById` | src/core/OrderBook.cpp:346-356 | an id is indexed exactly when an order with it rests, and leads to that order |
| `OrderBooks.OrderBook.IndexByClient` | src/core/OrderBook.cpp:190-205 | a client id is indexed exactly when an order with it rests, and leads to that order's id |
| `MatchLaws.PriceTimePriority` | src/core/OrderBook.cpp:207-295 | the k-th trade is with the k-th order in price-time priority, at its price, for what the orders before it left of the taker; trading stops at the limit or when nothing is left |
| `MatchLaws.MatchConserves` | src/core/OrderBook.cpp:207-295 | lots traded are lots taken off makers and off the taker, and are the smaller of the order and the lots within its limit |
| `MatchLaws.MatchLeavesSuffix` | src/core/OrderBook.cpp:225-292 | matching eats the queue from its front only, at most one order in part |
| `MatchLaws.MatchEnds` | src/core/OrderBook.cpp:211-215 | when matching ends the taker is filled or no longer crosses |
| `BookLaws.PlaceKeepsInvariant` | src/core/OrderBook.cpp:112-188 | a placement keeps both sides sorted, sane and distinctly indexed, and the best bid below the best ask |
| `BookLaws.CancelKeepsInvariant` | src/core/OrderBook.cpp:306-344 | so does a cancel |
| `BookLaws.PlaceKeepsArrivals` | src/core/OrderBook.cpp:297-304 | within a price, earlier accepted orders stay in front |
| `BookLaws.FillOrKill` | src/core/OrderBook.cpp:133-138 | all or nothing: accepted exactly when the lots within reach suffice, and then fully traded with nothing resting; otherwise the book is unchanged |
| `BookLaws.PostOnlyLimitNeverTakes` | src/core/OrderBook.cpp:128-132 | a post-only limit order trades nothing: it rests whole or is turned away |
| `BookLaws.PostOnlyTakesIff` | src/core/OrderBook.cpp:128-132 | an accepted post-only order trades exactly when it is a market order and an opposing order is within the widest limit |
| `BookLaws.PostOnlyMarketBuy` | src/core/OrderBook.cpp:128-132 | a concrete post-only order that takes liquidity |
| `PlacementLaws.Decided` | src/core/OrderBook.cpp:112-157 | an order is accepted exactly if nothing in a table of reasons stands against it: repeated command, unknown market, used ids, closed market, size or price off limits, a post-only order that would take, a fill-or-kill order that falls short; the first such reason is the one answer, and no book changes |
| `PlacementLaws.TradesAsked` | src/core/OrderBook.cpp:207-295 | an accepted order trades down the opposing queue at the resting prices, never beyond its limit, in all what it wants or every lot that agrees with it, wherever it stands |
| `PlacementLaws.RestsIff` | src/core/OrderBook.cpp:168-185 | an accepted order rests if and only if it is a limit order, good till cancelled or post-only, and the lots within its limit fall short; it then has the command's price, owner and ids and exactly the shortfall open, and nobody else on its side is touched |
| `PlacementLaws.Remembering` | src/core/EngineCore.cpp:161-193 | the core remembers the outcome of every new command, and the ids of exactly the accepted orders |
| `CancelLaws.CancelsIff` | src/core/OrderBook.cpp:190-205 | a cancel takes out exactly the resting order of its own user that it names, and releases what that left open; if there is none, or the command is a repeat or the market unknown, no book changes and the answer says so |
| `CancelLaws.CancelRemembered` | src/core/EngineCore.cpp:195-221 | the core remembers the outcome of every new cancel, and no order's ids |
| `CancelLaws.OnlyOwnerCancels` | src/core/OrderBook.cpp:199-204 | over every run, what trades took from a resting order, what is still open and what its own user's cancel released are all there ever was; nothing else removes or changes it |
| `EventLaws.RunNumbered` | src/core/SequenceGenerator.cpp:3-13 | over every run, event ids, sequence numbers and trade ids count on without a gap |
| `EventLaws.AcceptedOnce` | src/core/EngineCore.cpp:186-192 | over every run no order id is accepted twice, nor one accepted before |
| `EventLaws.HandledOnce` | src/core/EngineCore.cpp:161-166 | after every run, a repeated command changes nothing and is answered as a repeat |
| `EventLaws.FollowersKnow` | src/core/OrderBook.cpp:207-295 | over every run, whoever follows acceptances, fills and cancels knows the size and the open lots of every resting order of every market |
| `DepthLaws.PlaceShows` | src/core/OrderBook.cpp:284-291 | a consumer that applies a placement's deltas holds the new level totals if it held the old |
| `DepthLaws.CancelShows` | src/core/OrderBook.cpp:306-343 | likewise for a cancel |
| `CoreLaws.ProcessKeeps` | src/core/EngineCore.cpp:161-221 | every command keeps every book well formed, uncrossed and covered by the idempotency index |
| `CoreLaws.ProcessKeepsArrivals` | src/core/EngineCore.cpp:161-221 | every command keeps every queue in arrival order |
| `CoreRuns.Run` | src/core/EngineCore.cpp:161-221 | both hold after any command sequence |
| `CoreRuns.NeverCrossed` | src/core/OrderBook.cpp:211-215 | after any command sequence every bid is strictly below every ask of its book |
| `CoreRuns.RunShows` | src/core/OrderBook.cpp:177-184 | after any command sequence a consumer of one symbol's deltas, dropping zeros, holds exactly that book's level totals |
| `EngineCores.EngineCore.Process` | src/core/EngineCore.cpp:161-221 | the object's new state and events are those of the reference core, and no two books share an object |
| `EngineCores.EngineCore.AddSymbol` | src/core/EngineCore.cpp:151-159 | the symbol gets an empty book; every other book, the counters and the index stay |
| `EngineCores.EngineCore.Snapshot` | src/core/EngineCore.cpp:239-271 | every book's orders by ascending id, gathered from the id index, with the counters and the index |
| `EngineCores.EngineCore.Restore` | src/core/EngineCore.cpp:273-294 | the rebuilt books are those of re-inserting the snapshot's orders one by one, with indexes that list exactly them |
| `EngineCores.SnapshotsRestorable` | src/core/EngineCore.cpp:239-271 | whatever a well-formed core snapshots can be restored |
| `RestoreLaws.SnapshotLists` | src/core/EngineCore.cpp:239-271 | every book's snapshot lists exactly what rests in it, once each by ascending id, and where each client id leads |
| `RestoreLaws.RestoredBook` | src/core/EngineCore.cpp:273-294 | a restored book has the same orders and remaining lots, in price-then-id order; it is the original exactly when ids ascended within prices |
| `RestoreLaws.RestoredTotals` | src/core/EngineCore.cpp:273-294 | whatever the ids, every level total is restored |
| `RestoreLaws.RestoreKeeps` | src/core/EngineCore.cpp:273-294 | a restored core is well formed, whatever the ids |
| `RestoreLaws.RestoreIff` | src/core/EngineCore.cpp:259-261 | restoring gives the core back, up to last trade prices, exactly when ids ascend within every level |
| `RestoreLaws.RestoredFuture` | src/core/EngineCore.cpp:239-294 | then every later command sequence yields the same events as the original |
| `RestoreLaws.AscendingIdsRestore` | src/core/EngineCore.cpp:239-294 | ascending ids of the orders that may rest make that so at every moment of every run |
| `RestoreLaws.RestoreReorders` | src/core/EngineCore.cpp:287-289 | where the front order has not the lowest id of its price, every accepted order that reaches it yields different events after a restore |
| `RestoreLaws.RestoreReordersTwoAsks` | src/core/EngineCore.cpp:287-289 | a concrete book of two asks for which it does |
| `Accounting.AllocateStep` | src/runtime/EngineEventTranslator.cpp:224-276 | a fill takes what was previewed, out of what is left; the cap does not bind; the last fill takes all that is left |
| `Accounting.AllocateAllLaw` | src/runtime/EngineEventTranslator.cpp:244-276 | over any fills, margin taken plus margin left is what was left before |
| `Accounting.ReservationLaw` | src/runtime/EngineEventTranslator.cpp:244-276 | over any fills of a new reservation R, taken plus left is R, and a complete fill takes exactly R |
| `MarginLaws.ChargeLaw` | src/runtime/EngineEventTranslator.cpp:216-276 | a fill takes its share of the reservation, all that is left when it completes the order, or its notional over the leverage without a reservation; what is announced is what is taken |
| `MarginLaws.FillLaw` | src/runtime/EngineEventTranslator.cpp:285-333 | opening takes the fill's margin, price and leverage; adding sums margins and averages prices; reducing keeps the open share of the margin, rounded down, and the average; closing keeps nothing; flipping keeps the fill's price and the open share of its margin |
| `Accounting.ValueConserved` | src/runtime/EngineEventTranslator.cpp:285-333 | realized profit plus the change in unrealized profit is (mark - price) times the fill plus a rounding term, zero unless a position grows and then smaller than the grown position |
| `Accounting.TradeConserves` | src/runtime/EngineEventTranslator.cpp:378-403 | the two sides of a trade cancel up to those rounding terms, in the open, add, reduce, close and flip cases alike |
| `LedgerLaws.TradeBooked` | src/runtime/EngineEventTranslator.cpp:552-620 | booking a trade keeps every market's net position, the agreement of risks and positions, and the open quantity of both orders' metadata in step, also when one user is on both sides |
| `MarginLaws.SideLaw` | src/runtime/EngineEventTranslator.cpp:552-620 | one side of a trade fills its owner's position by the order's side, at the trade's price, charged exactly what the order's reservation gave up; no other position changes |
| `LedgerLaws.MatchBooked` | src/runtime/EngineEventTranslator.cpp:1015-1075 | so does booking all events of a match; the taker's owner moves toward his side by exactly the filled lots that were not his own |
| `StoreLaws.StoreKept` | src/runtime/EngineRuntime.cpp:1616-1662 | after an accepted order every resting order of every market has metadata with the same owner, side, market and open quantity, completed orders forgotten |
| `StoreLaws.AcceptedIff` | src/core/EngineCore.cpp:161-221 | an order is accepted exactly if its command is new, its market exists, its fields are valid and the book does not turn it away |
| `StoreLaws.MatchCompletes` | src/runtime/EngineRuntime.cpp:74-88 | the orders that a match completes are exactly the makers gone from the book, and the taker exactly if nothing of it is left |
| `RuntimeLaws.RunOrderLaw` | src/runtime/EngineRuntime.cpp:1616-1662 | running any order keeps the runtime invariant, its metadata is never already there, and its owner's position moves toward its side by exactly the lots it takes from others, none if it is refused |
| `RuntimeLaws.ReduceOnlyShrinks` | src/runtime/EngineRuntime.cpp:359-396 | a reduce-only order's own fills never grow or flip its owner's position; they close exactly what it takes from others, and all that its events say was filled exactly if none of the lots taken are the owner's |
| `RuntimeLaws.FilledIsTaken` | src/core/OrderBook.cpp:207-295 | the fills an order's events announce sum to the lots it takes: the smaller of its size and the lots within its limit if it is accepted, none otherwise |
| `EffectLaws.PlaceEffect` | src/runtime/EngineRuntime.cpp:1573-1663 | a new, usable order record sends the order to the core, capped and immediate if reduce-only, reports exactly the core's trades, releases the reservation of an order turned away, keeps metadata exactly while something is open, announces what a reduce-only order did not fill, and after trades sweeps the market's liquidatable positions |
| `RuntimeLaws.CancelLaw` | src/runtime/EngineEventTranslator.cpp:946-980 | a cancel keeps the invariant and releases exactly the margin not yet taken |
| `RuntimeLaws.AutoLaw` | src/runtime/EngineRuntime.cpp:1456-1498 | automatic liquidation makes at most sixteen attempts, none twice on a position, each on a position at or below maintenance margin at that moment, and keeps the invariant |
| `EffectLaws.CancelEffect` | src/runtime/EngineRuntime.cpp:1833-1862 | a new cancel record releases and forgets what is left of its own user's named order, or changes nothing but the core's counters |
| `AttemptLaws.AutoTracked` | src/runtime/EngineRuntime.cpp:459-515 | each attempt is on the untried liquidatable position with the lowest margin ratio, else lowest equity, else largest exposure, else lowest user id, liquidates it whole in the state the attempt before it left, and none is left out short of sixteen attempts |
| `AttemptLaws.StartupSwept` | src/runtime/EngineRuntime.cpp:1500-1517 | the startup scan sweeps so every market with a liquidatable position, by ascending id |
| `AttemptLaws.CandidatesPreferred` | src/runtime/EngineRuntime.cpp:404-456 | the deleveraging candidates are exactly the profitable opposing positions of other users, by higher profit, higher leverage, lower margin ratio, larger size, lower user id |
| `AttemptLaws.DeleveragesInOrder` | src/runtime/EngineRuntime.cpp:1044-1146 | deleveraging touches a counterparty only after closing every counterparty preferred to it |
| `LiquidationLaws.AdlWalk` | src/runtime/EngineRuntime.cpp:1044-1146 | deleveraging exhausts each ranked counterparty before the next, closes the smaller of what is open and what they hold, moves each toward zero by its share, and touches nobody else |
| `LiquidationLaws.RankedLaw` | src/runtime/EngineRuntime.cpp:404-456 | a ranking lists each eligible position once, best first in the source's order |
| `LiquidationLaws.LiquidateLaw` | src/runtime/EngineRuntime.cpp:1307-1454 | a liquidation keeps the invariant and closes exactly the lots it takes from others in the book plus the smaller of what the book leaves open and what the counterparties ranked after its fills hold; one that announces nothing changes no position, risk or metadata |
| `LiquidationTerms.LiquidatesIff` | src/runtime/EngineRuntime.cpp:1312-1349 | a liquidation does something exactly if the position is open on the side named and at or below maintenance or so marked, the price asked is positive, and a counterparty stands ready or the book takes some of the closing order |
| `LiquidationTerms.LiquidationConducted` | src/runtime/EngineRuntime.cpp:1328-1332 | it is announced from start to end, trades with the book no worse than the price asked (the request's, else the stored mark, else the average) and closes the rest at exactly that price |
| `LiquidationTerms.BookReports` | src/runtime/EngineEventTranslator.cpp:1015-1075 | the trades that booking the core's events reports are exactly the core's trades |
| `EffectLaws.LiquidationEffect` | src/runtime/EngineRuntime.cpp:1665-1682 | a new liquidation record carries the liquidation out |
| `LiquidationLaws.LiquidationShrinks` | src/runtime/EngineRuntime.cpp:1307-1454 | so it never grows or flips the position, and closes at most the smaller of requested and held |
| `LiquidationLaws.ClosesAllIff` | src/runtime/EngineRuntime.cpp:1404-1427 | a liquidation that is attempted closes all it asked for exactly if it takes none of the user's own lots in the book and the ranked counterparties hold what the book leaves open |
| `LiquidationLaws.BookedExactly` | src/runtime/EngineEventTranslator.cpp:1015-1075 | whatever the core answers to an order, booking its events fills the lots the order takes and moves its owner by those of others |
| `SelfTrades.ReduceOnlyAbsorbed` | src/runtime/EngineRuntime.cpp:359-396 | a concrete reduce-only sale of one lot that its owner's own bid fills, closing nothing |
| `SelfTrades.LiquidationAbsorbed` | src/runtime/EngineRuntime.cpp:1404-1427 | a concrete liquidation of one lot that the user's own bid fills, closing nothing although a ranked counterparty holds a lot |
| `FundingLaws.PaymentsNearlyCancel` | src/runtime/EngineRuntime.cpp:1734-1831 | with a mark price, an interval's payments sum to less in size than the number of open positions on the larger side |
| `RecordLaws.PaymentsDue` | src/runtime/EngineRuntime.cpp:1764-1812 | a settlement pays every open position of its market size times mark times rate over the scale, rounded toward zero, from longs to shorts at a positive rate, and nobody else |
| `EffectLaws.MarkEffect` | src/runtime/EngineRuntime.cpp:1684-1711 | a new mark record stores the mark, revalues every open position of the market with its funding kept, is announced, and sweeps the market |
| `EffectLaws.RateEffect` | src/runtime/EngineRuntime.cpp:1713-1732 | a new rate record with a scale stores the rate of its market and announces it |
| `EffectLaws.TickEffect` | src/runtime/EngineRuntime.cpp:1734-1831 | a due settlement pays every open position into its equity at the settlement's mark, is announced, and sweeps the market |
| `FundingLaws.MarkLaw` | src/runtime/EngineRuntime.cpp:1536-1567 | a mark leaves equity less margin and unrealized profit unchanged and risks in agreement with positions |
| `FundingLaws.PayLaw` | src/runtime/EngineRuntime.cpp:1780-1812 | a settlement moves that difference by exactly the payment, and changes no unpaid entry |
| `RuntimeRuns.ProcessLaw` | src/runtime/EngineRuntime.cpp:1569-1865 | every record keeps: positions of each market sum to zero, metadata matches the books, risks agree with positions and with their status |
| `RuntimeRuns.Run` | src/runtime/EngineRuntime.cpp:1569-1865 | the invariant holds after every run |
| `RuntimeRuns.PositionsSumToZero` | src/runtime/EngineEventTranslator.cpp:552-620 | after every run the signed positions of each market sum to zero |
| `RecordLaws.RecordStep` | src/runtime/EngineRuntime.cpp:1569-1862 | every record is answered as repeated, unusable, unscheduled or accepted by what it is and what the tables hold, and notes its mark, rate, settled interval, input id and request key as it should |
| `RecordLaws.RunTabled` | src/runtime/EngineRuntime.cpp:1266-1305 | after every run a market's rate and mark are those of its last accepted rate and mark record, the settled intervals are those paid, and exactly the handled inputs and requests are remembered, with their offsets |
| `RecordLaws.RepeatsIff` | src/runtime/EngineRuntime.cpp:1212-1264 | after every run a record is a repeat if and only if an earlier handled record has its input id or, for orders, cancels and liquidations, its request key; nothing changes then |
| `RecordLaws.SettlesIff` | src/runtime/EngineRuntime.cpp:1748-1763 | after every run a tick settles its interval if and only if it is no repeat, the interval was not paid, and the market's last accepted rate record is for it |
| `RuntimeRuns.FundingPaidOnce` | src/runtime/EngineRuntime.cpp:1748-1758 | over every run each market and interval is paid at most once |
| `ReservationLaws.TradeDraws` | src/runtime/EngineEventTranslator.cpp:752-806 | a trade announces as settled, from each reservation, exactly what booking it takes |
| `ReservationLaws.ReservationsAccounted` | src/runtime/EngineEventTranslator.cpp:752-776 | over every run without a restart, what trades settled plus what a cancel released or what is still held is exactly what was reserved, for every accepted order that is not reduce-only |
| `StrandedReservations.StrandedIff` | src/core/OrderBook.cpp:168-187 | after any run that begins with its placement, an accepted order has metadata without resting exactly if it may not rest and the lots within its limit were fewer than its quantity; it then still holds part of its reservation |
| `StrandedReservations.StrandedForGood` | src/runtime/EngineRuntime.cpp:74-88 | over every later run nothing is settled from such a reservation or released, and its metadata stays as it is |
| `RestartedReservations.AccountedIff` | src/checkpoint/file/FileCheckpointStore.cpp:479-502 | a reservation stays accounted for through a restart exactly if its order rests, has no metadata, or holds nothing |
| `RestartedReservations.DroppedIff` | src/checkpoint/file/FileCheckpointStore.cpp:479-502 | a restart drops part of a reservation exactly if its order might not rest and the book fell short when it arrived |
| `RestartedReservations.ImmediateBuyStranded` | src/core/OrderBook.cpp:168-187 | a concrete immediate-or-cancel order on an empty book whose whole reservation is stranded, with no output, and dropped by a restart |
| `ValueLaws.TradeValue` | src/runtime/EngineEventTranslator.cpp:552-620 | booking a trade conserves, in every market and at every mark, unrealized profit plus credits, up to the rounding of the averages of those positions that grow |
| `ValueLaws.RunConservesValue` | src/runtime/EngineRuntime.cpp:1569-1865 | over every run, through trades, liquidations and deleveraging, a market's unrealized profit at any one mark plus what its users were credited changes by less than one per lot of each growing position; the announced changes lead to exactly the positions held |
| `MarginLaws.ChangesAreFills` | src/runtime/EngineEventTranslator.cpp:285-333 | over every run each announced change of a position is a fill, by the law above, of the trade announced before it, and each credit the profit that fill realizes |
| `MarginLaws.ShrinkingNeverGains` | src/runtime/EngineEventTranslator.cpp:310-314 | over every run no margin turns negative, and a position that only shrinks never gains margin |
| `RiskLaws.SoundEntry` | src/runtime/EngineEventTranslator.cpp:344-375 | maintenance is a twentieth of size times mark, rounded down; the ratio is equity over it in basis points; an open position is liquidatable exactly at or below maintenance |
| `RiskLaws.RisksSound` | src/runtime/EngineRuntime.cpp:1536-1567 | after every run every position has such an entry, with exactly its funding since the last fill in its equity, at its market's mark where it is open and the market has one |
| `AdjustmentLaws.AdjustmentIsFunding` | src/runtime/EngineEventTranslator.cpp:344-375 | over every run, what is neither margin nor unrealized profit in a position's equity is the sum of its funding payments since its last announced fill |
| `RestartLaws.ProcessAlike` | src/runtime/EngineRuntime.cpp:1906-1990 | states that differ in last trade prices and in metadata of inactive orders answer every record alike and stay so |
| `RestartLaws.CheckpointKeeps` | src/runtime/EngineRuntime.cpp:1947-1990 | a runtime restored from a checkpoint satisfies the invariant, whatever the ids |
| `RestartLaws.RestartedFuture` | src/runtime/EngineRuntime.cpp:1906-1990 | with ids ascending within levels, a runtime restored from its checkpoint gives the same outputs for every later record sequence |
| `AscendingIds.GoodStep` | src/core/EngineCore.cpp:259-289 | every record keeps every queue in id order if it repeats an earlier one, places nothing that may rest, or carries a higher id; processed orders stay known |
| `AscendingIds.AscendingIdsRestart` | src/runtime/EngineRuntime.cpp:1906-1990 | with such records, a restart at any moment of any run goes unnoticed by every later record |
| `EngineRuntimes.Gather` | src/runtime/EngineRuntime.cpp:404-456 | collecting and sorting eligible positions in any order gives the one ranking |
| `EngineRuntimes.EngineRuntime.Translate` | src/runtime/EngineEventTranslator.cpp:1015-1075 | the event loop leaves the ledger and outputs of the reference booking |
| `EngineRuntimes.EngineRuntime.AppendAdlFills` | src/runtime/EngineRuntime.cpp:1044-1146 | the deleveraging loop is the reference walk |
| `EngineRuntimes.EngineRuntime.ExecuteLiquidation` | src/runtime/EngineRuntime.cpp:1307-1454 | state and outputs are those of the reference liquidation, with the invariant kept |
| `EngineRuntimes.EngineRuntime.AutoLiquidate` | src/runtime/EngineRuntime.cpp:1456-1498 | the rescanning loops terminate in the reference result |
| `EngineRuntimes.EngineRuntime.LiquidatableScan` | src/runtime/EngineRuntime.cpp:1504-1509 | the markets where some open position is marked liquidatable |
| `EngineRuntimes.EngineRuntime.EvaluateAll` | src/runtime/EngineRuntime.cpp:1500-1517 | the startup scan liquidates those markets in ascending order, as the reference does |
| `EngineRuntimes.EngineRuntime.RemarkRisks` | src/runtime/EngineRuntime.cpp:1536-1567 | every open position of the market is re-marked with its funding adjustment carried, and no other entry changes |
| `EngineRuntimes.EngineRuntime.PayPositions` | src/runtime/EngineRuntime.cpp:1770-1812 | payments are those of every open position with a non-zero amount, each booked once |
| `EngineRuntimes.EngineRuntime.Process` | src/runtime/EngineRuntime.cpp:1569-1865 | state, status and outputs are those of the reference, for every kind of record |
| `Protocol.RedpandaEngineApp.ConsumeRecord` | src/broker/RedpandaEngineApp.cpp:141-240 | effects happen in the order process, publish, checkpoint, commit, and stop at the first failure |
| `Protocol.RedpandaEngineApp.Publish` | src/runtime/EngineOutbox.cpp:12-50 | every output whose publication succeeds is published, past failures too; success means all were |
| `Protocol.RedpandaEngineApp.DuplicateSourceIsSafe` | src/broker/RedpandaEngineApp.cpp:249-263 | safe exactly when this worker committed the original's offset |
| `Protocol.RedpandaEngineApp.MarkCommitted` | src/broker/RedpandaEngineApp.cpp:265-273 | the offset is listed once |
| `Protocol.RecoveryCoordinator.ReplayUntilCaughtUp` | src/recovery/RecoveryCoordinator.cpp:242-297 | the polling loop is the reference replay, whatever the polls give |
| `Protocol.RecoveryCoordinator.RecoverAndReplay` | src/recovery/RecoveryCoordinator.cpp:109-240 | load, watermark, offset, restore and seek failures each stop recovery with their status; otherwise replay |
| `Protocol.ReplayFolds` | src/recovery/RecoveryCoordinator.cpp:242-297 | over a gap-free log replay has applied the records up to where it stopped, each once and in order, and reports having caught up exactly at the watermark |
| `Protocol.CaughtUpIff` | src/recovery/RecoveryCoordinator.cpp:250-294 | it catches up exactly when the consumer hands out every record below the watermark and none throws |
| `Protocol.RecoveryFolds` | src/recovery/RecoveryCoordinator.cpp:109-297 | a caught-up recovery ends in the state of live processing from the checkpoint's offset to the high watermark |
| `ProtocolRuns.CommitsComeLast` | src/broker/RedpandaEngineApp.cpp:196-240 | in every run with failures and crashes anywhere, a commit comes right after the checkpoint one past it, itself right after all of the record's outputs |
| `ProtocolRuns.RecordsApplyOnce` | src/app/main.cpp:238-268 | in every run the checkpoint and the worker are in states reached by histories of records, scans and restores that applied every record once and in order |
| `ProtocolRuns.OutputsBelong` | src/broker/RedpandaEngineApp.cpp:196-205 | in every run, whatever is published for a record is what processing it after such a history gives |
| `Publications.LiveOnce` | src/recovery/RecoveryCoordinator.cpp:242-297 | over any run records are consumed live in ascending order, each at most once |
| `Publications.PublishedIff` | src/runtime/EngineOutbox.cpp:12-50 | a record consumed live has exactly the successful publications of that consumption, and all of its outputs are published exactly if each publication succeeded |
| `Publications.NeverLive` | src/recovery/RecoveryCoordinator.cpp:278-283 | a record that no worker consumed live has nothing published for it |
| `Publications.ReplayIsSilent` | src/recovery/RecoveryCoordinator.cpp:278-283 | for a record below the watermark of a recovery that goes live, neither the recovery nor anything later publishes anything |
| `Publications.LosesOutputs` | src/broker/RedpandaEngineApp.cpp:201-206 | for every engine, a concrete run with a failed publication, a crash and a recovery applies the record and never publishes its outputs |
| `ProtocolOutcomes.ConsumesIff` | src/broker/RedpandaEngineApp.cpp:141-240 | a record is checkpointed, committed and remembered exactly if it is processed, all its outputs are published, it is no repeat of something this worker has not committed, and the steps themselves succeed |
| `ProtocolOutcomes.SavesComeAfter` | src/broker/RedpandaEngineApp.cpp:196-240 | in every run with failures and crashes, a checkpoint is saved only right after every output it covers, a record's or a startup scan's, was published, and past a repeat only if its original was committed |
| `ProtocolOutcomes.ReplayConsumes` | src/recovery/RecoveryCoordinator.cpp:242-297 | whatever is polled, replay applies a front part of it, own records below the watermark only, in order, and stops at the end of records or the watermark, or fails on an error, a foreign record or an exception |
| `ProtocolOutcomes.RecoversIff` | src/recovery/RecoveryCoordinator.cpp:109-297 | over a gap-free log recovery goes live exactly if the checkpoint is loadable, of the same source and within a sane watermark, can be restored and sought, and every record up to the watermark is handed out and processed |
| `ProtocolOutcomes.FailureNamed` | src/recovery/RecoveryCoordinator.cpp:109-240 | each failing condition is reported as what it is, the first one looked at |
| `Seamless.RestoresUnseen` | src/runtime/EngineRuntime.cpp:1906-1990 | for a seamless engine, any exact history reaches a state like the one it reaches without its restores |
| `Seamless.Uninterrupted` | src/app/main.cpp:358-395 | where startup scans find nothing to do, it is like the state of one uninterrupted live run |
| `Seamless.DeliveredIff` | src/broker/RedpandaEngineApp.cpp:196-240 | what is published for a record is some of what the uninterrupted run gives for it, and all of it exactly if a worker consumed it live with every publication succeeding, or there is none |
| `DurableRuntime.RuntimeSeamless` | src/runtime/EngineRuntime.cpp:1906-1990 | the runtime, restored from its checkpoints and scanning at startup, is seamless over logs with ascending ids of orders that may rest, repeats aside |
| `DurableRuntime.FreshInGoodOrder` | src/core/EngineCore.cpp:151-159 | a runtime with empty books and no positions, metadata or rates meets what these results ask of an initial state |
| `DurableRuntime.InvariantSurvives` | src/runtime/EngineRuntime.cpp:1947-1990 | whatever the ids, the states of worker and checkpoint satisfy the runtime's invariant in every run with failures and crashes |
| `DurableRuntime.RestartsUnseen` | src/app/main.cpp:238-268 | in every run over such a log, worker and checkpoint are in states that nothing tells apart from those of a process that was never restored |
| `DurableRuntime.CalmScan` | src/runtime/EngineRuntime.cpp:1500-1517 | the startup scan does nothing where no open position is marked liquidatable |
| `DurableRuntime.CalmRunUnbroken` | src/app/main.cpp:358-395 | in every run over such a log without such positions between records, worker and checkpoint are in states like those of one uninterrupted live run |
| `DurableRuntime.CalmRunDelivers` | src/broker/RedpandaEngineApp.cpp:196-240 | and what is published for a record is some of what that live run gives for it, all of it exactly under the condition above |
| `DurableRuntime.MarkLost` | src/broker/RedpandaEngineApp.cpp:201-206 | an instance: a mark price whose announcement is never published |
| `DurableHistories.HistoryRelated` | src/app/main.cpp:358-393 | a relation that holds across every elementary step and every restore holds across every history of records, startup scans and restores |
| `DurableHistories.HistoryConservesValue` | src/app/main.cpp:358-393 | value is conserved over every such history, up to the rounding of growing positions |
| `DurableHistories.HistoryAdjustments` | src/app/main.cpp:358-393 | funding in equity is what was paid since the last announced fill, over every such history |
| `DurableHistories.HistoryFillsAndRisks` | src/app/main.cpp:358-393 | over every such history, announced changes are fills of the trades before them, and every position's risk entry is sound and current |
| `DurableHistories.RestartsAccounted` | src/app/main.cpp:358-393 | over every such history, what trades settled from a reservation, the liquidation trades of startup scans included, plus what was released, is held or was dropped by a restore, is exactly what was reserved |
| `JsonLaws.StringRoundTrip` | src/runtime/EngineOutputSerializer.cpp:13-49 | any byte string, quoted by the serializer, is read back by the parser |
| `JsonLaws.NumbersAgree` | src/runtime/EngineOutputSerializer.cpp:136-179 | the serializer calls a number exactly what the parser reads as one number and nothing more |
| `JsonLaws.IntegersAreNumbers` | src/runtime/EngineOutputSerializer.cpp:100-124 | every text it calls an integer is a number |
| `JsonLaws.ValueRoundTrip` | src/protocol/Json.cpp:89-173 | every written payload value is read back as its normal form, before any text that ends a value |
| `JsonLaws.SortedFields` | src/runtime/EngineOutputSerializer.cpp:266-274 | sorting lists the same fields by ascending name |
| `JsonLaws.RecordRoundTrip` | src/runtime/EngineOutputSerializer.cpp:260-289 | parsing a serialized record succeeds and gives its type and payload up to the normalization |
| `JsonGrammar.EscapesDecode` | src/protocol/Json.cpp:232-299 | an escaped code point, surrogate pairs included, stands for bytes that decode to it in UTF-8 |
| `JsonGrammarLaws.GrammarExact` | src/protocol/Json.cpp:79-340 | the parser accepts exactly the texts of the grammar's syntax trees, and gives their meaning: strings by their escapes, numbers by their text, objects by distinct keys |
| `JsonGrammarLaws.RecordsAreTexts` | src/runtime/EngineOutputSerializer.cpp:260-289 | every serialized record is such a text and means its type and payload |
| `JsonCode.Parser.ParseValue` | src/protocol/Json.cpp:89-122 | the cursor parser gives the value and rest of the reference grammar, or an error exactly where it does |
| `JsonCode.Parser.ParseObject` | src/protocol/Json.cpp:124-154 | likewise for objects, where a repeated key is an error |
| `JsonCode.Parser.ParseArray` | src/protocol/Json.cpp:156-173 | likewise for arrays |
| `JsonCode.Parser.ParseString` | src/protocol/Json.cpp:175-195 | likewise for strings, with escapes and rejected control bytes |
| `JsonCode.Parser.ParseUnicode` | src/protocol/Json.cpp:232-254 | likewise for code point escapes and surrogate pairs |
| `JsonCode.Parser.ParseNumber` | src/protocol/Json.cpp:301-338 | likewise for numbers, leading zeros rejected |
| `JsonCode.Parser.Parse` | src/protocol/Json.cpp:79-87 | the whole text is one value and space, or an error |
| `OutputSerializer.AppendJsonString` | src/runtime/EngineOutputSerializer.cpp:13-49 | the loop appends the quoted text |
| `OutputSerializer.TestJsonNumber` | src/runtime/EngineOutputSerializer.cpp:136-179 | the offset loop decides the number grammar |
| `OutputSerializer.TestJsonInteger` | src/runtime/EngineOutputSerializer.cpp:100-124 | the loop decides the integer grammar |
| `OutputSerializer.SerializeRecord` | src/runtime/EngineOutputSerializer.cpp:260-289 | the loops write the record's reference text, which `RecordRoundTrip` reads back |
| `CheckpointLaws.FieldRoundTrip` | src/checkpoint/file/FileCheckpointStore.cpp:78-158 | any byte string survives escaping and unescaping |
| `CheckpointLaws.SplitJoined` | src/checkpoint/file/FileCheckpointStore.cpp:160-175 | joined fields split again, empty trailing ones too |
| `CheckpointLaws.IntRoundTrip` | src/checkpoint/file/FileCheckpointStore.cpp:177-187 | any integer is read back from its decimal text |
| `CheckpointLaws.RowRoundTrip` | src/checkpoint/file/FileCheckpointStore.cpp:548-579 | a structure that fits its schema is read back from its fields, optional values and enumerations too |
| `CheckpointLaws.SectionRoundTrip` | src/checkpoint/file/FileCheckpointStore.cpp:1057-1074 | a counted section with distinct keys is read back whole |
| `CheckpointLaws.CheckpointRoundTrip` | src/checkpoint/file/FileCheckpointStore.cpp:783-926 | for every consistent checkpoint, reading its text gives it back with symbols and orders by id and the metadata of active orders |
| `CheckpointLaws.SortedCheckpointRoundTrip` | src/checkpoint/file/FileCheckpointStore.cpp:783-926 | with symbols and orders already by id, only metadata of inactive orders is dropped |
| `CheckpointReadLaws.AcceptedIsConsistent` | src/checkpoint/file/FileCheckpointStore.cpp:840-926 | whatever text is accepted starts with the format's line, fits the schemas and has no map key twice, so writing and reading it again gives its canonical form |
| `CheckpointReadLaws.CutShortRejected` | src/checkpoint/file/FileCheckpointStore.cpp:840-926 | of a written checkpoint no part but the whole, or the whole without its last newline, is accepted |
| `CheckpointGrammar.SectionExact` | src/checkpoint/file/FileCheckpointStore.cpp:1057-1074 | a section is read exactly from lines that spell it: its tag and the count of its entries, then each entry with its tag and every cell in its place, nothing more, and no key twice |
| `CheckpointGrammar.LevelExact` | src/checkpoint/file/FileCheckpointStore.cpp:995-1027 | a price level is read exactly from a line with its tag, price, total, the number of its orders and their ids |
| `StateCodec.Encodable` | src/runtime/EngineRuntime.cpp:1906-1945 | every state of the runtime has a snapshot: tables that list its maps and symbols that hold its books |
| `StateCodec.SavedAndRestored` | src/runtime/EngineRuntime.cpp:1947-1990 | whatever snapshot of a state is written, reading the text and restoring what was read gives the checkpointed state that the laws of restarts speak about |
| `DurableCheckpoints.CheckpointsReadBack` | src/app/main.cpp:238-268 | in every run with failures and crashes, every text written for the surviving checkpoint is read and restored as the state from which recovery continues |
| `CheckpointCodec.EscapeText` | src/checkpoint/file/FileCheckpointStore.cpp:78-109 | the loop writes the reference escape, which `FieldRoundTrip` undoes |
| `CheckpointCodec.UnescapeText` | src/checkpoint/file/FileCheckpointStore.cpp:111-158 | the loop undoes escapes, or fails exactly on malformed ones |
| `CheckpointCodec.SplitLine` | src/checkpoint/file/FileCheckpointStore.cpp:160-175 | the loop gives all fields of a line |
| `CheckpointCodec.WriteLine` | src/checkpoint/file/FileCheckpointStore.cpp:296-306 | the loop appends the fields with tabs between them and a newline |
| `CheckpointCodec.ParseDigits` | src/checkpoint/file/FileCheckpointStore.cpp:177-187 | left-to-right parsing gives the value of the digits, or fails on anything else |
| `CheckpointCodec.MetadataEntriesOf` | src/checkpoint/file/FileCheckpointStore.cpp:479-502 | exactly the stored metadata of active orders |
| `CheckpointCodec.CheckpointReader.ReadCheckpoint` | src/checkpoint/file/FileCheckpointStore.cpp:840-926 | the line-by-line reader gives the reference result, or fails exactly where it does |
| `FileNames.EncodeName` | src/checkpoint/file/FileCheckpointStore.cpp:55-76 | the loop writes the file name of an id |
| `FileNames.FileNamesCollide` | src/checkpoint/file/FileCheckpointStore.cpp:55-76 | two ids share a file name exactly when they are equal or are the empty id and the default name |
| `FileNames.NamesInOffsetOrder` | src/checkpoint/file/FileCheckpointStore.cpp:1487-1517 | for one source, file names order as the offsets they checkpoint, so the greatest name is the latest checkpoint |
| `CheckpointFiles.LatestIsLast` | src/checkpoint/file/FileCheckpointStore.cpp:1487-1517 | in every run with failures and crashes, saved offsets never decrease, and the file with the greatest name is the checkpoint from which the next recovery starts; there is no file exactly if nothing was saved |

## Left out

- CrossingDepth.AvailableCrossingLots: requires the total of each level to stay below 2^64, because the source's 64-bit level total wraps beyond that; the sum over levels may exceed it, and saturates as in the source (src/core/OrderBook.cpp:88-90).
- OrderBooks.OrderBook.ProcessPlace: requires that each level's total plus the order's lots stay below 2^64 (`OrderBook.Fits`), for the same reason.
- EngineCores.EngineCore.Process: inherits that requirement for the addressed book.
- CheckpointFiles.LatestIsLast: requires offsets below 10^20, which the source's 64-bit offsets are.
- Overflow of prices times quantities, margins and sequence counters: all other numbers are unbounded.
- EngineRuntimes.EngineRuntime.Translate: outputs carry the economic content; replies, payload decoration (ids, timestamps, assets, fees, public sequence numbers) and trace summaries are not modelled.
- EngineRuntimes.EngineRuntime.AppendAdlFills: the made-up order of a deleveraging fill takes any unused id; the source searches up to 1024 hashes and throws if all are taken.
- EngineRuntimes.EngineRuntime.ExecuteLiquidation: replies are not modelled, and the core is held as a value, which `EngineCore` is proved to compute.
- EngineRuntimes.EngineRuntime.Process: the same; ids that the runtime derives by hashing strings are inputs.
- CheckpointCodec.ParseDigits: a number too large for its field is an error in the source and a value here.
- CheckpointCodec.CheckpointReader.ReadCheckpoint: integer ranges likewise; legacy 12-field metadata and 14-field risk lines are rejected.
- ReservationLaws.ReservationsAccounted: speaks of runs without a restart; `DurableHistories.RestartsAccounted` is the law with restarts and startup scans.
- `std::sort` and hash-map order: sorting is insertion, and maps are walked in an arbitrary order; results are proved independent of it.
- Columns of the checkpoint that the runtime's model does not have (assets, timestamps, fees, topics): `Represents` allows any values in them and a restore drops them.
- Price levels inside a core snapshot: they are written and read by the checkpoint codec, and ignored by a restore.
- Parsing of input fields, market configuration, command line, logging and threads are not modelled.
- Broker and object-store clients and file-system calls are steps that may fail; what happens inside them is not modelled.
