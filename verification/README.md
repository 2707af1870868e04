# The trading engine's order lifecycle, in Dafny

This project models the part of the engine that keeps money safe: the executor's order tracker,
the execution-event handler, the reservation ledger, the risk gate in front of it and the exchange
reconciliation behind it, together with the event bus and the ring buffer. It proves what those
components promise each other over whole runs, with duplicated, early and out-of-order events.

How it is built:

- **Ledger.dfy** gives every critical section of the ledger as a function on a ledger value, and
  `Step`/`Run` compose them into runs. **State.dfy** is the mutable ledger: a class whose methods
  update fields in place and loop over maps in an arbitrary order; each is proved to compute the
  corresponding function. **Books**, **Solvency**, **Profit**, **Reconcile**, **Restore**
  and **Confluence** prove the laws of runs.
- **Engine.dfy**/**Runtime.dfy** do the same for the execution-event state machine,
  **Tracker.dfy**/**Executor.dfy** for the order tracker, **Risk.dfy**/**Gate.dfy** for the risk
  gate and the submission of a batch, **Round.dfy** for a round of batches. **Acknowledgements**,
  **Agreement**, **Delivery**, **Journal** and **Midnight** relate several components.
- **Reservation**, **Fill**, **Exchange**, **Ending**, **Trade** and **Verdict** tell what the
  operations do on the fields of their inputs alone, without the definitions above: when a request is
  granted, what a fill pays at its own price, what the exchange's reports come to, which events end an
  order, what a trade says about our orders, and exactly what passes the gate.
- **Bus.dfy** models concurrent publishers as an interleaving of atomic steps, **Publishers.dfy**
  counts how many of them it can bear, **Subscription.dfy** says what subscribers get;
  **RingBuffer.dfy** refines a circular buffer to a sequence.

Amounts are `real`; `EPS` is the source's own tolerance (core/pricing.go:6). Time, dates and
generated ids are parameters. A Go map iteration visits the keys in an order that the method picks
and returns as a ghost result, so results hold for every order.

Vocabulary of the main results: a *pool* is cash or one token, with an available and a reserved
part. The *claims* on a pool are the reserved amounts of the orders and provisional reservations
that draw on it. The *residue* is the reserved amount that no live reservation accounts for.

What the proofs show about promises that the code does not keep as stated, each with the exact
condition and an instance:

- An order that `ApplyFill` completes below its limit leaves its unused reservation in `Reserved`
  (state/fill.go:103-104); the `ReleaseOrder` that follows (runtime/engine.go:222) finds nothing.
  `Solvency.FillStrandsCashIff` says when, `Solvency.FillBelowLimitStrandsCash` is an instance. The reserve
  invariant therefore carries a residue, and `Books.RunAccounted` says exactly how it grows.
- Redemption and position reconciliation may delete a token entry that still backs SELL
  reservations (state/state.go:311, state/reconcile.go:241-246). The token's books survive exactly
  if nothing is claimed from it (`Books.DropKeepsBooksIff`, instance `Books.DropBreaksBooks`); over
  runs, `Books.BalancedThroughoutIff`.
- `Restore(Snapshot())` charges every live reservation twice (state/state.go:78-88).
  `Restores.RestoreOwnSnapshot` gives the exact condition under which it is a round trip,
  `Restores.RestoreOwnSnapshotFails` an instance where it is not.
- A second position reconciliation changes nothing but may still report updates:
  `Reconcile.SecondPositionPassIdle` says which tokens it reports,
  `Reconcile.SecondPositionPassReports` is an instance.
- Strategies served in one round share one snapshot (runtime/event_handler.go:27-44), against which
  each batch is judged alone. `Risks.SharedSnapshot` says exactly when a second batch can still be
  reserved, `Rounds.RoundHandsOn` which intents of any number of batches are handed on;
  `Risks.SharedSnapshotFails` and `Risks.SharedSnapshotFailsForSells` are instances where a second
  batch cannot be reserved.
- Drop warnings are documented as one per threshold boundary (core/bus.go:23-24). Under every
  interleaving the promise is kept if and only if at most as many threads publish as the threshold
  (`Publishers.KeptIff`). With one more, a warning may cover two boundaries:
  `Publishers.ManyPublishersSkipABucket`, and for threshold one
  `EventBus.TwoPublishersMayMergeBuckets`.
- The gate's caps look at orders, not at provisional reservations (risk/engine.go:142-152).
  `Rounds.CapsExact` says exactly when a cap holds once everything reserved has become an order,
  `Rounds.CapExceeded` is an instance where it does not.
- The comment on `AttachOrder` says that an already known order leaves the state unmodified
  (state/reservation.go:19-20); the code releases the intent's provisional reservation there
  (state/reservation.go:31-42). `Acknowledgements.AttachKnownIff` gives the exact condition,
  `Acknowledgements.AttachKnownReleases` an instance. The model follows the code, and the
  commutation of the two acknowledgements depends on it.
- When the websocket acknowledgement of a SELL comes first, up to `EPS` more of the token stays
  available than in the opposite order (state/reservation.go:70-82):
  `Acknowledgements.AcknowledgementsCommute` says when, `Acknowledgements.SocketFirstGainsSlack` is
  an instance.
- Fills kept for a late acceptance are booked under the date of the replay (state/fill.go:113-120),
  so the daily profit may differ from the one of a prompt acceptance. `Midnights.BufferingExact`
  says exactly when the ledgers are equal nevertheless, `Midnights.KeptOverMidnight` is an instance
  where they are not.
- An acceptance that is announced for a completed order after its finalized entry has expired (a
  late response to the post, execution/placements.go:208-221) reserves for it again.
  `Agreement.AgreeThroughoutIff` shows that this is the only way in which tracker and ledger part,
  `Agreement.TimelyNeverReopens` that it cannot happen within the entry's lifetime, and
  `Agreement.PostAfterExpiryReopens` is an instance.

## Model

| member | source | states |
|---|---|---|
| Books.ReservationsCovered | state/state.go:315-333 | In balanced books every order and provisional reservation is at most the reserved amount of its pool, so no release is ever cut off at zero |
| Books.StepAccounted | state/state.go:52-361 | From balanced books, every ledger operation keeps a pool balanced if and only if it is admissible (it deletes no claimed token entry and restores no negative reserved amount), and then the residue moves by what the step leaves behind or forgets and available + reserved by its flow |
| Books.RunAccounted | state/fill.go:53-107 | Over every admissible run of ledger operations, restores and deletions included, for cash and every token: the reserve invariant holds, residue = start + leftovers - forgotten residue, and available + reserved = start + flows of fills, slack, corrections and restores |
| Books.BalancedThroughoutIff | state/state.go:295-313 | A pool is balanced after every step of a run if and only if every step is admissible |
| Books.DropKeepsBooksIff | state/reconcile.go:241-246 | Deleting a token entry keeps the token balanced if and only if no reservation draws on it |
| Books.DropBreaksBooks | state/state.go:306-312 | Any single live SELL whose token entry is deleted |
| Solvency.FillStrandsCashIff | state/fill.go:103-104 | In balanced books a fill leaves more cash reserved for nothing if and only if it completes a BUY whose reservation exceeds price x size |
| Solvency.FillBelowLimitStrandsCash | runtime/engine.go:221-223 | A BUY completed below its limit leaves half a unit reserved, and the release that follows changes nothing |
| Books.FillPools | state/fill.go:53-100 | A fill takes exactly its consumed amount out of the pool its order draws on; the reserved cut-off never fires |
| Books.FillClaims | state/fill.go:58-65 | The order's claim falls by the consumed amount, and by the unused rest if the fill completes it |
| Books.HoldPools | state/reservation.go:63-82 | Setting collateral aside moves it from available to reserved inside one pool; only the SELL shortfall (at most EPS) changes the pool's total |
| Reservations.ReserveMade | state/state.go:92-161 | A provisional reservation is made if and only if the intent is named and new, market and token are named, size > 0, 0 < price < 1, a side is given and available + EPS covers the need; it moves exactly that and records request, amount and lapse time |
| Reservations.ReserveRefused | state/state.go:93-139 | Which error is returned, for every reason to refuse, in the order they are looked for |
| Reservations.LivesUntilItsTime | state/state.go:234-247 | A sweep drops a provisional reservation if and only if its time to live (five seconds if none is given) has passed since it was made |
| Reservations.AttachMade | state/reservation.go:44-93 | A live provisional reservation becomes the order as it is; otherwise the order is reserved afresh if and only if there is enough, for price x size in cash or size in tokens |
| Reservations.AttachRefused | state/reservation.go:145-161 | A request without id, market, token, size, price in (0, 1) or side changes nothing |
| Reservations.AttachExternalMade | state/reservation.go:106-142 | A known order is left alone; an unknown one is reserved if and only if there is enough, marked external |
| Reservations.ConfirmMade | state/state.go:163-199 | Succeeds if and only if intent or order is known; the provisional reservation becomes the order unless the order has one |
| Reservations.UnprovisionGivesBack | state/state.go:201-218 | The whole held amount returns to cash or token |
| Reservations.LoadCharges | state/state.go:66-89 | A restored order with id and open size is stored and charged what it holds, never less than nothing; any other is skipped |
| Solvency.FillKeepsBacked | state/fill.go:49-65 | A SELL reservation stays equal to its open size; a BUY filled at or below its limit keeps reserved >= limit x open size, and within its size is charged exactly price x size |
| Fills.FillTakenIff | state/fill.go:20-44 | A fill is taken if and only if it names a live order, has a size and a side and agrees in market, token and side; otherwise nothing changes |
| Fills.SellPaidOut | state/fill.go:88-100 | A SELL fill adds fill price x size to available cash (limit price if the fill has none), takes the tokens out of the reserved part, and with a known cost books (price - average cost) x size on the day |
| Fills.BuyPaid | state/fill.go:72-87 | A BUY fill takes min(order reserved, price x size) out of reserved cash and adds its size to the token |
| Fills.BuyRaisesCost | state/fill.go:77-86 | Average cost x total bought grows by exactly price x size |
| Fills.FillShrinksOrder | state/fill.go:58-65 | The order keeps everything but open size and reservation and goes when the open size is within EPS; no other reservation is touched |
| Fills.ValuePaid | state/fill.go:49-53 | The value by which fills move cash in runs is price x size at the fill's own price |
| Fills.RunRealizes | state/fill.go:111-120 | Over every run of one day the daily profit moves by exactly the gains of its SELL fills |
| Solvency.StepKeepsEach | state/reservation.go:46-92 | Any property of single reservations that new collateral has, and that fills and merges keep, holds of all reservations after every operation that does not restore |
| Solvency.RunBacked | state/fill.go:49-65 | Over every run without restores, without the size-and-price update of reconciliation and with BUY fills no worse than the limit: all reservations stay backed, and a token's leftovers are at most EPS per completed SELL |
| Solvency.StrandedTokensBounded | state/fill.go:103-107 | A token's residue grows by at most EPS per completed SELL over such a run, and falls only by what deletions of the entry forget |
| Solvency.RunChargesFillValue | state/fill.go:53-100 | With fills inside limit and size and no balance sync, the cash total moves by exactly the value of the fills |
| Solvency.ReserveSlack | state/state.go:127-146 | A reservation adds at most EPS to available + reserved, and only to the token of a SELL |
| Solvency.RunSolvent | state/reservation.go:62-82 | In every run of operations that set nothing aside unchecked (alignment of known orders with a positively priced remote one included), cash and every token's available amount stay >= -EPS: slack never adds up |
| Profits.CostBasisExact | state/fill.go:71-87 | From a token never bought before, average cost x size bought is exactly the sum of price x size over its BUY fills, and the average lies between any bounds on those prices |
| Profits.RunMovesBook | state/fill.go:71-101 | Daily profit minus the cost of everything held moves exactly with the value of fills over every plain run |
| Profits.ProfitIdentity | state/pnl.go:9-24 | On a one-day run with buys before sells and nothing left reserved, daily profit + unrealized profit = sell proceeds - buy cost + market value of holdings |
| Profits.UnrealizedOf | state/pnl.go:13-22 | A position counts with (mid - average cost) x available if cost and price are known and something is available, otherwise not at all |
| Reconcile.PassOrders | state/reconcile.go:110-145 | An order pass yields the same closed-form set of orders whatever the visiting order, and leaves provisional reservations alone |
| Reconcile.ReconciledMatchesExchange | state/reconcile.go:114-143 | Afterwards local ids are remote ids, every adoptable remote order is present, nothing open has drifted, and surviving reservations keep their amount (on the reported fields: `Exchanges`) |
| Exchanges.ReconciledKeys | state/reconcile.go:114-135 | An order is there after a pass if and only if the exchange reports it and it was known, or is well-formed with originalSize > sizeMatched |
| Exchanges.ReconciledSizes | state/reconcile.go:124-142 | Whatever is still open has size within a billionth of originalSize - sizeMatched and price within a billionth of the reported one |
| Exchanges.ReconciledKnown | state/reconcile.go:128-142 | A known order is rewritten, in size and price only, if and only if it is still open and one of them is off |
| Exchanges.ReconciledNew | state/reconcile.go:170-213 | An adopted order has the reported market, token, side, price and open size and reserves price x (originalSize - sizeMatched), or that many tokens |
| Exchanges.ReportedOrders | state/reconcile.go:114-143 | Which orders a pass counts as removed, added and updated, on the reported fields |
| Exchanges.LastReportCounts | state/reconcile.go:101-108 | Of several reports of an id the last one counts |
| Exchanges.PassedPosition | state/reconcile.go:216-266 | A position pass token by token, on the sum of the positive reports: new tokens come as reported, known ones move in their available part only and only if they are off |
| Reconcile.PassConserves | state/reconcile.go:147-214 | An order pass leaves available + reserved and the residue of every balanced pool unchanged |
| Confluence.PassOrderIndependent | state/reconcile.go:115-143 | Two passes with different visiting orders give the identical ledger, token entries included, from every ledger with non-negative reservations, balanced or not |
| Confluence.LoopInAnyOrder | state/reconcile.go:147-166 | Any loop whose bodies for different keys commute (releases, adoptions, restored orders) gives the same ledger in every order |
| Confluence.UnholdsCommute | state/state.go:315-333 | Releases of non-negative amounts commute in spite of the cut-off at zero |
| Confluence.SweepOrderIndependent | state/state.go:232-246 | The expiry sweep gives the same ledger in every visiting order |
| Confluence.RestoreOrderIndependent | state/state.go:66-89 | A restore of orders filed under their own id gives the same ledger in every visiting order |
| Reconcile.PassLeavesTheRest | state/reconcile.go:110-145 | An order pass leaves provisional reservations, daily profit, minimum balance and every cost basis alone |
| Reconcile.SecondPassIdle | state/reconcile.go:100-145 | A second pass against the same remote orders changes nothing and reports (0, 0, 0) |
| Reconcile.RemoteSizesPositive | state/reconcile.go:217-234 | The remote tokens are exactly the non-empty ids with a positive reported size, and their sums are positive |
| Reconcile.PassPositions | state/reconcile.go:236-266 | A position pass in closed form, independent of the visiting order |
| Reconcile.PositionsMatchExchange | state/reconcile.go:240-264 | Held tokens are exactly the remote ones, each within EPS of the remote size or with available = max(0, remote - reserved); reservations and cost basis are untouched |
| Reconcile.SecondPositionPassIdle | state/reconcile.go:255-263 | A second position pass changes nothing; it still reports exactly those tokens of the first report whose reservations alone exceed the remote size by more than EPS |
| Reconcile.SecondPositionPassReports | state/reconcile.go:255-263 | Five units reserved against three reported: both passes report the token |
| Restores.RestoreEstablishesBooks | state/state.go:52-90 | Restoring orders filed under their own id establishes the reserve invariant: residue is what the snapshot already had reserved, totals are the snapshot's |
| Restores.RestoreOwnSnapshot | state/state.go:38-90 | Restoring one's own snapshot gives the ledger back if and only if there is no provisional reservation and no order whose restore would charge anything |
| Restores.RestoreOwnSnapshotFails | state/state.go:78-81 | A ledger with one live BUY reservation is not restored by its own snapshot |
| Restores.RestoredOrders | state/state_restore.go:66-95 | Rebuilt reservations are filed under their own id, open, and hold a positive amount |
| Restores.ExchangeRestoreEstablishesBooks | state/state_restore.go:35-111 | Start-up restore: token reserves are exactly what the restored SELL orders hold, cash keeps the previously reserved amount as residue, the restored orders are exactly the ones reported for tracking |
| Exchanges.FirstReportRestored | state/state_restore.go:66-95 | The first report of an id with something left, and a positive price if a BUY, is restored with originalSize - sizeMatched open and the amount that takes |
| Exchanges.RestoredFrom | state/state_restore.go:66-95 | Nothing else is restored |
| Exchanges.RestoredPositions | state/state_restore.go:35-64 | Restored tokens are exactly those with a positive report, each with the sum of its positive reports available, nothing reserved and no cost |
| States.State.constructor | state/state.go:22-36 | A new ledger is empty, with a non-negative minimum balance |
| States.State.TakeSnapshot | state/state.go:38-50 | The snapshot carries balances, positions, orders, daily profit and the order count, but no provisional reservations |
| States.State.RestoreSnapshot | state/state.go:52-90 | The in-place restore computes `Restore` for the order of visits it used |
| States.State.TryReserveProvisional | state/state.go:92-161 | New state and error are those of `TryReserve`, every error path included |
| States.State.ConfirmProvisional | state/state.go:163-199 | A provisional reservation becomes the order's, is released if the order is already known, or is reported missing |
| States.State.ReleaseProvisional | state/state.go:201-218 | Releases the intent's reservation and says whether there was one |
| States.State.TakeExpired | state/state.go:232-240 | Removes exactly the provisional reservations whose time is up, each once |
| States.State.CleanupExpiredProvisional | state/state.go:220-254 | The sweep is a run of single releases of exactly the expired intents |
| States.State.AttachOrder | state/reservation.go:21-94 | New state and error are those of `Attach`: promote, reserve afresh, or drop the duplicate's provisional reservation |
| States.State.AttachExternalOrder | state/reservation.go:99-143 | New state and error are those of `AttachExternal`; a known order is left alone |
| States.State.ReleaseOrder | state/state.go:260-293 | Deletes the reservation and gives back what it held |
| States.State.ReleaseReserved | state/state.go:315-333 | Moves an amount from reserved to available, reserved cut off at zero |
| States.State.ApplyFill | state/fill.go:19-109 | New state and error are those of the fill function (on the fields: `Fills.SellPaidOut`, `Fills.BuyPaid`, `Fills.FillShrinksOrder`) |
| States.State.AddDaily | state/fill.go:113-120 | Daily profit starts again at zero on a new date |
| States.State.ReconcileOnchainBalance | state/state.go:335-361 | Available cash becomes max(0, total - reserved) exactly if it is off by more than epsilon; the drift is reported |
| Exchanges.OnchainSets | state/state.go:335-361 | Available cash becomes max(0, max(0, total) - reserved) if and only if it is off by more than max(0, epsilon) |
| States.State.ClearRedeemedPositions | state/state.go:295-313 | Exactly the named, non-empty tokens are deleted, as a run of single deletions |
| States.State.ReconcileOrders | state/reconcile.go:100-145 | The in-place pass computes `OrderPass` for the visits it made and counts exactly the removed, added and updated orders (on the fields: `Exchanges.ReconciledKeys` and the rows after it) |
| States.State.ReleaseOrderLocked | state/reconcile.go:147-166 | Evicts one local-only order |
| States.State.AttachExternalLocked | state/reconcile.go:170-214 | Adopts a remote order without an affordability check, or reports why not |
| States.State.ReconcilePositions | state/reconcile.go:216-266 | The in-place pass computes `PositionPass` and counts exactly the removed, added and updated tokens |
| States.State.IndexReservations | state/state_restore.go:66-95 | The loop rebuilds the reservations, first report of an id first, and lists their ids once each |
| States.State.RestoreFromExchange | state/state_restore.go:35-116 | Restores the snapshot built from open orders and positions and returns exactly the restored order ids |
| States.State.UnrealizedProfit | state/pnl.go:9-24 | The loop computes the sum of (mid - average cost) x available over known-cost, priced, positive positions |
| Engines.Handle | runtime/engine.go:176-245 | Handling any event terminates and keeps only fills and cancellations in the pending buffer (what each status does: `Endings`) |
| Endings.CancelEnds | runtime/engine.go:226-232 | A cancellation of an accepted order finalizes it at that time, removes it from accepted and pending, deletes its reservation and gives the whole amount back; no other order changes |
| Endings.RejectEnds | runtime/engine.go:234-243 | A rejection finalizes its order, accepted or not, drops the intent's provisional reservation and, if accepted, the reservation |
| Endings.RejectOfIntent | runtime/engine.go:181-192 | Without an order id only a rejection has an effect, on the intent's provisional reservation |
| Endings.FillHandledExactly | runtime/engine.go:209-224 | A fill of an accepted order is applied with the event's own fields; a failed one changes nothing; a FILLED one ends the order and releases the rest |
| Endings.AcceptHandledExactly | runtime/engine.go:199-207 | An acceptance marks the order accepted and attaches it with the event's own fields |
| Endings.KeptExactly | runtime/order_tracking.go:54-65 | An early fill or cancellation is kept behind the earlier ones under the time of the first |
| Endings.IgnoredExactly | runtime/engine.go:194-198 | Other statuses and events of a finalized order are only counted |
| Endings.CancelledStaysCancelled | runtime/engine.go:226-232 | After a cancellation no later event of the order changes the ledger or revives it, at any point of any run before its entry expires |
| Endings.RejectedStaysRejected | runtime/engine.go:234-243 | The same after a rejection |
| Endings.TickKeepsTheYoung | runtime/order_tracking.go:90-132 | A tick keeps exactly the kept events and finalized entries younger than their time to live, unchanged |
| Engines.EarlyEventsKept | runtime/order_tracking.go:54-65 | Events before acceptance are kept in arrival order and change nothing but the buffer and its counters |
| Engines.ReplayIsHandling | runtime/order_tracking.go:67-82 | Replaying kept events at once equals handling them one by one as they came |
| Engines.BufferingEquivalence | runtime/engine.go:194-232 | For every split point of any sequence of fills and cancellations, acceptance in the middle gives the same balances, positions, reservations, accepted, finalized and pending sets as acceptance first, and the same daily profit when the early events carry the acceptance's date (`Midnights.BufferingExact` is exact) |
| Engines.HandleTracks | runtime/engine.go:176-245 | Handling any event keeps accepted, pending and finalized orders pairwise disjoint, finalized and finalizedAt in step, and every reservation owned by an accepted order |
| Engines.TickTracks | runtime/order_tracking.go:84-132 | A cleanup tick keeps the same invariants |
| Engines.TraceTracks | runtime/order_tracking.go:41-156 | The invariants hold over every run of events, ticks and ledger operations that add no order |
| Engines.FinalizedIsFinal | runtime/engine.go:194-196 | At any point of any run before its entry expires, an event of a finalized order changes neither ledger nor tracking |
| Journals.HandleJournaled | runtime/engine.go:176-245 | Handling any event, replays included, changes the ledger by a sequence of attachments, fills and releases and by nothing else |
| Journals.TraceJournaled | runtime/engine.go:94-155 | The ledger after any run of events, ticks and outside operations is the run of the journaled ledger operations |
| Journals.TraceAccounted | runtime/engine.go:94-155 | Reserve invariant and conservation over every run of the engine whose outside operations are admissible |
| Journals.TraceSolvent | runtime/engine.go:94-155 | No pool is overdrawn by more than one EPS in any run of the engine whose outside operations are checked |
| Midnights.HandleAllBooks | state/fill.go:93-97 | The daily profit after a sequence of events of an order is the fold of the profits they book, under their dates |
| Midnights.BufferingExact | runtime/order_tracking.go:67-82 | Moving the acceptance behind any prefix of the order's events gives the identical ledger, daily profit included, if and only if a closed condition on the booked profits and their dates holds |
| Midnights.LastEarlyBookingShows | state/fill.go:113-120 | If an early event books a profit, a late acceptance dates the day by itself, a prompt one by the last early booking |
| Midnights.KeptOverMidnight | state/fill.go:113-120 | A known-cost SELL filled on one date and accepted on the next ends with different daily dates |
| Runtimes.Runtime.Start | runtime/engine.go:46-52 | After a start-up restore exactly the restored orders are accepted, and every reservation belongs to one of them |
| Runtimes.Runtime.HandleExecutionEvent | runtime/engine.go:176-245 | The in-place handler, mutually recursive with the replay, computes `Handle` (status by status: `Endings`) |
| Runtimes.Runtime.ReplayPending | runtime/order_tracking.go:67-82 | Takes the kept events out of the map and replays them in order |
| Runtimes.Runtime.BufferExecution | runtime/order_tracking.go:54-65 | Appends the event and keeps the first arrival time |
| Runtimes.Runtime.FinalizeOrder | runtime/order_tracking.go:134-141 | Moves an order to finalized with a time stamp |
| Runtimes.Runtime.CleanupExpiredPending | runtime/order_tracking.go:90-115 | Drops exactly the expired entries; kept plus expired events stay the same number |
| Runtimes.Runtime.CleanupExpiredFinalized | runtime/order_tracking.go:117-132 | Forgets exactly the expired finalized orders |
| Runtimes.Runtime.CleanupTracking | runtime/order_tracking.go:84-88 | One tick computes `Tick` and keeps the tracking invariant |
| Runtimes.Runtime.RestoreOpenOrdersTracking | runtime/order_tracking.go:149-156 | Adds exactly the non-empty ids to the accepted orders |
| Acknowledgements.HttpFirst | state/reservation.go:31-60 | The HTTP acknowledgement promotes the provisional reservation and a later websocket one adds nothing |
| Acknowledgements.SocketFirst | state/reservation.go:31-93 | Websocket first, whether or not the second reservation fits, ends with the same order and at most the uncovered part of a SELL as extra availability |
| Acknowledgements.AcknowledgementsCommute | runtime/engine.go:199-207 | The two acknowledgements commute: same tracking, counters and ledger; only a SELL whose second reservation fits by slack alone differs, by at most EPS of the token |
| Acknowledgements.SocketFirstGainsSlack | state/reservation.go:70-82 | Half an EPS short of the second reservation: websocket first ends with the whole two units available |
| Acknowledgements.AttachKnownIff | state/reservation.go:19-42 | Attaching a known order leaves the ledger unmodified if and only if the intent has no provisional reservation |
| Acknowledgements.AttachKnownReleases | state/reservation.go:31-42 | A known order and a live provisional reservation: the duplicate moves its cash back to available |
| Trackers.ExactlyOnce | execution/trade_events.go:173-214 | In every run, per order: sum of published fills = tracked filled size = sum of first-seen MINED fills above EPS before finalization; the seen ids are exactly the delivered ones |
| Trackers.OneTerminal | execution/trade_events.go:84-104 | In every run an order gets at most one terminal event, no fill after it, and is finalized exactly if it was published |
| Trackers.RedeliveryAddsNothing | execution/trade_events.go:188-198 | Delivering a named MINED trade again at any later time publishes and books nothing for any order |
| Trackers.FillByDeltaExact | execution/placements.go:275-317 | A fill raises the tracked size by exactly its delta and publishes that delta |
| Trades.TouchesSum | execution/trade_events.go:131-155 | For every order the touches of a trade add up to the trade's size if we are its taker with it, plus what our maker entries for it matched |
| Trades.TouchesFrom | execution/trade_events.go:132-155 | Every touch carries market, token, side, price and size of the entry of ours it comes from; none names an order of another owner |
| Trades.DeliveryBooks | execution/trade_events.go:175-198 | The first delivery of a MINED trade raises the order's filled size by exactly what the trade says about it, and ends the order if and only if that reaches the requested size |
| Trades.NamedDeliveryBooksFirst | execution/trade_events.go:188-198 | A named trade that names an order several times books the first entry only |
| Trades.FillPublished | execution/placements.go:286-308 | What is published for a fill: its own size and price, FILLED if and only if it reaches the requested size |
| Trades.OtherTradePublished | execution/trade_events.go:199-212 | A FAILED trade ends the order with a TRADE_FAILED rejection; other statuses publish nothing |
| Trades.OrderPublished | execution/trade_events.go:72-107 | A LIVE message announces an order once and only when everything about it is known; a CANCELED one ends it once |
| Trades.PostPublished | execution/placements.go:189-221 | A posted order is announced with its intent and the intent's own fields |
| Executors.Executor.GetOrCreateTracked | execution/placements.go:319-330 | Returns the tracked order, creating an empty one |
| Executors.Executor.TrackPostedOrder | execution/placements.go:189-221 | A posted order is recorded as accepted and announced with its intent |
| Executors.Executor.BuildFill | execution/placements.go:275-317 | The in-place fill builder computes the delta's effect and event |
| Executors.Executor.OnOrderEvent | execution/trade_events.go:54-113 | A websocket order message is one touch; reconciliation is asked for exactly if the order was unknown |
| Executors.Executor.OwnFills | execution/trade_events.go:131-155 | Collects the touches of a trade in order (what they contain: `Trades.TouchesSum`, `Trades.TouchesFrom`) |
| Executors.Executor.OnTradeEvent | execution/trade_events.go:115-220 | A websocket trade is the run of its touches (what that books: `Trades.DeliveryBooks`); reconciliation is asked for exactly if one of them names an unknown order |
| Agreement.FilledDeletesReservation | state/fill.go:103-107 | No published fill fails in the ledger, and FILLED is published on exactly the fill that deletes the reservation |
| Agreement.HandleElsewhere | runtime/engine.go:176-245 | Events of one order leave another order's tracking and reservation as they were |
| Agreement.RunAgrees | execution/placements.go:275-317 | Over every run of tracker messages, other events, cleanup ticks and ledger operations about other orders, without cancel, failure or reconcile of the order: open size = max(0, requested - filled), and the reservation exists exactly while the tracker is not finalized, as long as no acceptance reopens it |
| Agreement.TouchAgrees | execution/trade_events.go:84-104 | A message about the order keeps tracker and ledger in agreement if and only if it does not announce an acceptance of a completed order that the engine has forgotten |
| Agreement.AgreeThroughoutIff | execution/placements.go:189-221 | They agree at every point of a run if and only if no message reopens the order |
| Agreement.TimelyNeverReopens | runtime/order_tracking.go:117-132 | No order is reopened while cleanup ticks come before its finalized entry expires |
| Agreement.PostAfterExpiryReopens | execution/placements.go:208-221 | The response to the post of a completed order after expiry: the ledger reserves again |
| Agreement.DeliveredFillsReachLedger | execution/trade_events.go:173-214 | End to end, despite redelivery: open size in the ledger = max(0, requested - sum of first-delivered MINED fills), and the reservation is gone exactly when that sum reaches the size up to EPS |
| Deliveries.DelayedDeliveryAgrees | execution/trade_events.go:217-219 | With any delay between tracker and engine: the waiting events lead from what the ledger sees to what the tracker sees, and whenever none of the order is waiting the two agree on it |
| Deliveries.NextKeepsStep | execution/trade_events.go:108-112 | Every message, delivery and other step keeps tracker, queue and ledger in step, unless an acceptance is delivered for an order that is over and forgotten |
| Risks.PassedBatchReserves | risk/engine.go:161-180 | A batch that passes on the current snapshot can be reserved completely, one intent after the other, and with any BUY or SPLIT leaves more than the minimum balance available |
| Risks.SharedSnapshot | runtime/event_handler.go:27-44 | Two batches of any kind that pass on one snapshot: the first is reserved completely, the second if and only if each of its placements fits into what all placements before it leave, in cash and per token |
| Risks.ReservedIff | state/state.go:127-146 | Reservations made one by one all succeed if and only if each fits into what the ones before leave; the amounts left are given exactly, with the cut-off at zero after the slack is used |
| Risks.TotalsSuffice | state/state.go:127-146 | Cash and tokens that cover the sums, up to one EPS each, cover every placement |
| Rounds.RoundHandsOn | runtime/event_handler.go:27-44 | Of any number of batches that pass on one snapshot, exactly those intents are handed on that fit, in turn, into what the ones handed on before leave; the amounts left are given |
| Rounds.BatchHandsOn | runtime/event_handler.go:145-166 | The same for one batch after earlier ones: a failed placement is skipped and leaves no trace |
| Risks.SharedSnapshotFails | runtime/event_handler.go:85-109 | Two BUY orders that each pass on the shared snapshot although the second cannot be reserved |
| Risks.SharedSnapshotFailsForSells | risk/engine.go:174-180 | The same with two SELL orders |
| Risks.CapsHold | risk/engine.go:141-159 | Once a passing batch's orders are attached under new ids, every market it places in is within its exposure cap plus EPS and the order count within its cap |
| Rounds.CapsExact | risk/engine.go:141-159 | Once every reservation has become an order, exposure and order count are within their caps if and only if orders, provisional reservations and the batch together are |
| Rounds.CapExceeded | risk/engine.go:147-152 | A provisional reservation of four and a passing batch of four against a cap of five |
| Risks.CooldownSeparates | risk/engine.go:121-139 | Under a non-decreasing clock, two passing batches that place in one market are at least the cooldown apart |
| Gates.RiskEngine.Check | risk/engine.go:31-195 | The in-place check returns the verdict of the declarative `Judge` and remembers placements exactly when it passes (on the fields: `Verdicts.PassIff`, `Verdicts.ReasonIs`) |
| Verdicts.PassIff | risk/engine.go:31-195 | A batch passes if and only if the day's loss is below the limit or it only cancels, every intent is sound, no market is cooling down, order count, exposure per market, cash above the minimum and tokens suffice for the sums it needs |
| Verdicts.ReasonIs | risk/engine.go:36-180 | The reason given is the first of these conditions that fails |
| Verdicts.IntentVerdict | risk/engine.go:51-118 | An intent passes by itself if and only if it is sound; slippage is the reason if and only if a well-formed placement is at least one basis point further from mid than allowed |
| Verdicts.DeviationIff | risk/engine.go:81-92 | The truncated deviation exceeds the limit if and only if abs(price - mid) x 10000 >= (limit + 1) x mid |
| Verdicts.NeedsAre | risk/engine.go:95-115 | The accumulated sums are price x size of BUYs plus splits, sizes of SELLs plus merges per token, and both per market |
| Verdicts.ExposureOf | risk/engine.go:149-152 | An order counts towards its market with what it reserves |
| Verdicts.RememberedAt | risk/engine.go:182-192 | After a passing batch exactly the markets it placed in carry its time |
| Verdicts.LossesStopTrading | risk/engine.go:36-43 | Once the SELL fills of a day have realized the maximal loss, whatever else happened, no batch that does more than cancel passes on that ledger |
| Gates.RiskEngine.Tally | risk/engine.go:45-119 | The accumulating loop finds the first fault or the exact totals per token and market |
| Gates.RiskEngine.ExistingExposure | risk/engine.go:149-152 | The loop computes each market's reserved sum |
| Gates.RiskEngine.RecordPlacements | risk/engine.go:182-192 | Exactly the placed markets get the new time stamp |
| Gates.NamingKeepsVerdict | runtime/event_handler.go:147-159 | Defaulting the action and assigning ids after the check does not change the verdict |
| Gates.NamingKeepsTheRest | runtime/event_handler.go:147-159 | Naming changes only an unset action and the missing id of a placement |
| Gates.ReserveBatch | runtime/event_handler.go:145-166 | The loop reserves one by one and hands on everything but the failed placements |
| Gates.SubmitIntents | runtime/event_handler.go:134-174 | A rejected batch changes nothing; a passing batch with new ids and a current snapshot is handed on whole |
| EventBus.EveryRunWarnsOncePerBucket | core/bus.go:69-96 | Under every interleaving: no send meets a closed channel, warned totals lie in strictly increasing threshold buckets, and warnings <= dropped / threshold |
| EventBus.StepKeepsOpen | core/bus.go:41-67 | Subscribing, cancelling, publishing and closing keep subscribed channels open, and publishers serve only those |
| EventBus.SinglePublisherWarnsEveryBucket | core/bus.go:79-92 | With one publisher the number of warnings is exactly dropped / threshold between publications |
| EventBus.SeparateDropsWarnEveryBucket | core/bus.go:79-92 | Whatever the number of publishers, on schedules in which no drop is counted while another is being decided, warnings = dropped / threshold whenever nobody is deciding (`Publishers.KeptIff` is the exact condition over all schedules) |
| Publishers.KeptIff | core/bus.go:79-92 | One warning per completed bucket, under every interleaving, if and only if at most as many threads publish as the threshold |
| Publishers.FewPublishersWarnInFull | core/bus.go:83-90 | With at most threshold publishers, every interleaving: warnings = dropped / threshold whenever nobody is deciding |
| Publishers.ManyPublishersSkipABucket | core/bus.go:83-90 | With one publisher more than the threshold there is a schedule with 2 x threshold drops and a single warning |
| EventBus.TwoPublishersMayMergeBuckets | core/bus.go:83-90 | A schedule of two publishers with threshold 1, two drops and a single warning |
| EventBus.NewBus | core/bus.go:32-34 | A new bus satisfies the channel and warning invariants |
| Subscriptions.EveryoneTriedOnce | core/bus.go:79-82 | A publication that ends has tried every channel subscribed at its start exactly once, whatever other publishers did |
| Subscriptions.SubscriberStays | core/bus.go:55-64 | A subscriber stays one until it cancels or the bus closes, and is never one again afterwards |
| Subscriptions.NewSubscriber | core/bus.go:41-54 | A subscription adds one new channel, unless the bus is closed |
| Subscriptions.ClosedForGood | core/bus.go:97-110 | Closing shuts every subscribed channel, and nobody is subscribed after it |
| Subscriptions.CountersCount | core/bus.go:70-83 | Publications and drops are counted one by one, publications also on a closed bus |
| RingBuffers.RingBuffer.constructor | internal/buffer/ring_buffer.go:16-26 | A new buffer of positive size is empty |
| RingBuffers.RingBuffer.Add | internal/buffer/ring_buffer.go:29-40 | Overwriting the oldest slot appends to the history |
| RingBuffers.RingBuffer.Values | internal/buffer/ring_buffer.go:44-56 | Returns the longest suffix of the history that fits, oldest first |
| RingBuffers.RingBuffer.Last | internal/buffer/ring_buffer.go:59-81 | Returns the suffix of length min(n, held), nothing for n <= 0 |
| RingBuffers.RingBuffer.Latest | internal/buffer/ring_buffer.go:84-94 | Returns the last value added, if any since the last reset |
| RingBuffers.RingBuffer.Reset | internal/buffer/ring_buffer.go:113-119 | Empties the history |
| RingBuffers.Replay | internal/buffer/ring_buffer.go:29-119 | After any run of adds and resets, values, last, latest, length and fullness are those of the sequence added since the last reset |
| RingBuffers.SlotAdvances | internal/buffer/ring_buffer.go:33-35 | Advancing the write position makes each sample one step older, keeps its slot and leaves the new slot for the newest |

## Left out

- HTTP, websocket, relayer and RPC calls, JSON field probing and the retry around them: remote orders, positions and trades arrive as records.
- Trimming and letter case of ids, owners and statuses: ids are taken as trimmed and statuses as recognized.
- Floating-point rounding and NaN: amounts are real numbers; wrap-around of the 64-bit counters is not modelled either.
- Goroutine loops, tickers and the wiring in `Start`; the steps they invoke are modelled, the balance sync as one on-chain correction.
- Interleaving inside one call of `handleExecutionEvent`: the handler is one step, although a cleanup tick on another goroutine may run between its critical sections.
- Two handlers that publish after releasing the tracker's lock may overtake each other: events wait in the order they were made (`Deliveries`), and none is lost on the way.
- Publish: counting a publication and taking the read lock are one step of the bus, and channel capacity is an arbitrary choice between sending and dropping.
- Cancel, split and merge execution, order signing and batching in the executor: calls into code that is not part of this model.
- Risk messages, logs, metrics and reconcile report callbacks: no effect on state.
- Configuration, observers, market feeds, the probability engine, z-scores and strategies: outside the order lifecycle.
- `QueueMap` and `SafeState`: containers that would only add easy members.
