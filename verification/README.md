# Campus delivery: a verified model

A shop on campus sells from its own shelves and from a headquarters store, takes payment, hands
orders to riders and building managers, refunds them, restocks its campuses, pays its couriers and
runs coupons and promotions. Many actors race on the same rows, and the code defends itself with
conditional updates: write only if the row still stands as it was read. This project models those
protocols and proves what they keep, over every run and every input.

| file | what it models |
|---|---|
| `Trade.dfy` | orders, coupons, refunds and stock as one state machine of 20 kinds of step; every transaction is one step |
| `TradeSafety.dfy`, `TradeCeiling.dfy`, `TradeSettled.dfy`, `TradeStock.dfy`, `TradeCoupons.dfy`, `TradeUndo.dfy`, `TradeHolds.dfy`, `TradeRequests.dfy`, `TradeRaces.dfy`, `TradeFees.dfy` | what every run of it keeps, and exactly when it does not |
| `TradePayment.dfy`, `TradeRefunds.dfy`, `StockroomRules.dfy`, `HandoverRules.dfy`, `SupplyRules.dfy`, `VoucherRules.dfy` | what each operation answers: exactly when it goes through, what it writes, and what two of them in a row come to |
| `TradeStories.dfy`, `ClawbackStory.dfy`, `HandoverStories.dfy`, `HoldStory.dfy` | concrete runs from a fresh start that end where things go wrong |
| `Inventory.dfy`, `OrderState.dfy`, `Sums.dfy` | shelves and ledger, statuses and money rules, sums over rows |
| `Shop.dfy` | the tables, updated row by row, each method tied to its step |
| `Timeline.dfy`, `TimelineTimes.dfy`, `Handover.dfy`, `HandoverOffers.dfy`, `HandoverHolds.dfy`, `DeliveryRow.dfy` | the timeline, the rider and manager hand-over on a history of rows, and refunds holding and releasing it |
| `Supply.dfy`, `SupplySafety.dfy`, `DepotRows.dfy` | restock orders, bulk purchases, receiving, shipping, campus receipt |
| `Commission.dfy`, `Clawback.dfy`, `ClawbackSlips.dfy`, `Draw.dfy` | courier pay, pay-rule selection, taking pay back after refunds, the weighted draw |
| `Promotions.dfy`, `Vouchers.dfy`, `CouponDesk.dfy` | promotion windows, coupon quotas |

`dafny verify dfyconfig.toml` checks everything.

## How to read it

- A step takes what its actor read as an argument. In `Trade` that snapshot (`seen`) is arbitrary,
  in `Handover` it is any row the order ever had, in `Vouchers` the total read is arbitrary. A step
  that is refused rolls back. The steps of `Supply` and `Promotions` read and write at once, and
  so do the reads a `Trade` step makes beside its snapshot (totals of refunds, the order's own
  snapshot fields, the current order in a restore). Transactions are taken to be serializable.
- The classes (`Shop.Database`, `DeliveryRow.Row`, `DepotRows.Database`, `CouponDesk.Database`,
  `Commission.Payroll`, `Promotions.Office`) do the work as the services do, with loops over lines
  and writes to fields; each method is proved to end in exactly the state of its step, and the
  lemmas speak about runs of steps.
- Run theorems assume an honest environment (`Trade.Honest`): the payment channel answers an approval
  before calling back about it, and reports progress or success only for a refund that is approved,
  refunding or refunded; and a whole-order refund is opened on a status the order once had
  (`EarlierReadIsHonest`). The steps check none of this.
- An order frozen because money arrived that payment refused is stored as 'exception', like a failed
  delivery. The model keeps the two apart, since nothing was ever taken off the shelf for a frozen order.
- The `Serve` methods stand for the request routes: they call the services one by one, and so carry
  the theorems about runs over to the tables.
- In `Clawback` each courier's pay for an order is a parameter of the run, and the pay rows start empty.
- In `HandoverHolds` a write-back may go to any status a refund may remember, held or not: more than
  the shop's refunds do (`RefundWrites`), so what is proved there covers them.
- The lemmas named `…ExactlyWhen` spell out statuses, limits and sums over rows in full, so that what an
  operation answers can be read there without its definition.
- Amounts are whole fen, so rounding them is the identity; rounding a share is modelled exactly.
- A product of the official catalogue has one mirror row per campus.

## What turned out false

Each with its exact condition and a concrete run from a fresh start, unless said otherwise.

- Settling a refund and taking courier pay back are two transactions, and pay is recorded at delivery,
  which a refund of part of the goods can precede. Booked out of turn, or never because the process
  died in between, the clawback stays at an older total; booked before the pay was recorded, it takes
  nothing (`ClawbackRightExactlyWhen`, `BookedOutOfTurn`, `BookingLost`, `PaidAfterBooking`).
- Withdrawing, denying and closing a refund, and noting its progress, check a status and then write
  without a guard. A late withdrawal, denial or closing leaves both ceilings standing; a late progress
  answer does so only if its refund still counts or there is room for it
  (`LateWriteKeepsCeilingsExactlyWhen`, `LateProgressCanOverpromise`). Any of the four erases a refund
  that has finished meanwhile from the record (`LateWriteForgetsExactlyFinished`,
  `LateWithdrawalErasesAFinishedRefund`); the room it had is then free again, so more can be paid back
  than was paid while every recorded ceiling holds (`PaidBackWithinPayment`,
  `ErasedRefundIsPaidAgain`). The theorems about steps alone take check and write as one.
- A refund marked failed is not protected against a late success: its room under the ceiling may be
  gone (`LateSuccessNeedsRoom`, `LateSuccessCanOverpay`).
- A whole-order refund returns goods once but releases the order's coupon every time. With two of
  them approved, the second can free a coupon that a newer order has locked; and freezing a pending
  order leaves its coupon locked for good (`SettledExactlyUnless`, `RepeatedReleaseTakesAHeldCoupon`,
  `FrozenOrderStrandsItsCoupon`). No two orders ever hold one coupon unless the release is repeated
  (`HoldersStayApart`).
- A back-office refund is opened without holding the order. If the order moves on before approval
  and the refund is then undone, the order goes back to the older status (`UndoIsTheIdentity`,
  `RefusalCanLoseProgress`, `RefusalRewindsTheDelivery`). That can leave nodes lit or dark that the
  status does not account for, and an order on the road without a rider, which nobody is offered
  and no offered action moves (`WriteBackHarmlessExactlyWhen`, `PutBackInTheHouse`,
  `PutBackOnTheRoad`, `StuckOnTheRoad`). The shopper's and the back office's restore
  rules also differ on the six statuses from picking to the last mile (`RestoreRulesAgree`).
- A shopper's refund before outbound holds its order, and a held order counts as one that has reached the
  shop. So unless the auditor's switch says no, the delivery fee may go back on an order that never left
  the house, which `src/admin/refund-amount.ts` rules out in a comment (`FeeFollowsTheRider`,
  `AskedThenApproved`, `FeeBackBeforeOutbound`).
- A manager taking goods straight from the first mile (a move kept for old orders, never offered),
  and a scan sent with a snapshot from another point of the route, are the two hand-over commits that
  leave the timeline behind (`TruthfulUnlessSkipped`, `ReceiveFromTheRoadSkips`, `ScanFromTheRoadSkips`).
- The total of a template is read before the guarded update. Lowering it in between lets a channel
  exceed it (`GuardProtectsExactlyWhen`, `LoweredTotalIsExceeded`).

Where code and comments disagree the model follows the code: a transfer returns the order to the
pool, not to the exception status as the table in `src/common/order-state.ts` says; a shipment
lowers stock and never touches `lockedStock`, which comments at `src/admin/admin.service.ts:3919`
say it does; a timed-out payment throws inside its transaction, so the closing it writes there is
rolled back, and only the sweep closes such orders.

## Model

| member | source | states |
|---|---|---|
| `TradeCeiling.RefundsNeverExceedPayment` | src/admin/admin.service.ts:6515-6576 | After every run of every step (requests, back-office refunds, edits, approvals, refusals, retries, callbacks, replays), each order's approved, refunding and refunded amounts add up to at most what was paid, and those approved without the delivery fee to at most max(0, paid less fee) |
| `TradeCeiling.StepUnderCeiling` | src/admin/admin.service.ts:6402-6658 | One step of any actor keeps both ceilings on every order |
| `TradeCeiling.ActiveWithinOthers` | src/admin/admin.service.ts:6544-6566 | What already counts as active is part of what an approval sees reserved by the other refunds, so a ceiling checked there bounds the active total |
| `TradeCeiling.LateSuccessNeedsRoom` | src/admin/admin.service.ts:6894-6922 | Success reported for a refund that no longer counts keeps its order under both ceilings if and only if nobody took its room in the meantime |
| `TradeStories.LateSuccessCanOverpay` | src/admin/admin.service.ts:6894-6922 | An honest run from an empty shop (buy, pay, ask, agree, refused, ask, agree) after which the late success of the first refund pays back more than was paid |
| `TradeCeiling.EmptyShop` | src/admin/admin.service.ts:6544-6566 | The empty shop is sound and under every ceiling, so the run theorem covers everything it reaches |
| `TradeRaces.LateWriteKeepsCeilingsExactlyWhen` | src/admin/admin.service.ts:6923-6964 | A write on an out-of-date check keeps both ceilings if and only if it undoes a refund, or is a progress answer for a refund that still counts or fits the room left |
| `TradeRaces.CeilingsSurviveLateWrites` | src/admin/admin.service.ts:6923-6964 | Both ceilings survive every run in which withdrawals, denials, closings and progress answers are written on an out-of-date check, as long as each progress answer meets that condition |
| `TradeStories.LateProgressCanOverpromise` | src/admin/admin.service.ts:6923-6942 | After the same run from an empty shop, a progress answer prepared before the refusal makes both refunds count and breaks the ceiling |
| `TradeStories.LateWithdrawalErasesAFinishedRefund` | src/business/business.service.ts:2474-2497 | An honest run from an empty shop in which a withdrawal checked while the refund was pending erases it after it was settled |
| `TradeRaces.LateWriteForgetsExactlyFinished` | src/admin/admin.service.ts:6438-6461 | Such a late write lowers an order's recorded refunds if and only if it lands on a finished refund |
| `TradeRaces.LateWriteIsTheStep` | src/admin/admin.service.ts:6438-6461 | A late write is the lawful step if and only if what it was decided on still holds |
| `TradeRaces.PaidBackIsRecordedOrErased` | src/admin/admin.service.ts:6687-6725 | Over every run, late writes included, the money really paid back on an order is what its record gained plus what late writes erased from it |
| `TradeRaces.PaidBackWithinPayment` | src/admin/admin.service.ts:6687-6725 | So it stays within the payment if no finished refund is erased, and passes it if and only if what was erased exceeds the room left on record |
| `ClawbackStory.ErasedRefundIsPaidAgain` | src/business/business.service.ts:2474-2497 | A run from an empty shop, under every recorded ceiling throughout, that pays back 15 on an order of 10 |
| `TradeRequests.RefundsAreTheirLines` | src/admin/admin.service.ts:6544-6574 | Over every run a refund by line is worth exactly the sum of its lines, each between zero and its full price, and a whole-order refund has no lines |
| `TradeRequests.ParseItemsMeans` | src/business/business.service.ts:2296-2333 | Ticking products succeeds if and only if each is on the order and none is ticked twice, and then each becomes its own line at full price |
| `TradeRequests.EditByProductBounds` | src/admin/admin.service.ts:7068-7082 | Typed amounts replace exactly the lines they name and stay within each line's price |
| `TradeRequests.EditByLineBounds` | src/admin/admin.service.ts:6500-6511 | The auditor's amounts change nothing but amounts and stay within each line's price |
| `TradeRefunds.AskedExactlyWhen` | src/business/business.service.ts:2339-2421 | A shopper's request goes through exactly when the order stands where it was read, paid for a whole refund or delivered for known products ticked once, and at least one fen of it fits the goods' part beside what was asked for before; it holds the order, remembers its status and claims no fee |
| `TradeRefunds.AskedThenWithdrawn` | src/business/business.service.ts:2474-2518 | Asking and then withdrawing, or being denied, leaves every order, coupon and shelf as it was, one closed row, and nothing asked for |
| `TradeRefunds.QueuedExactlyWhen` | src/admin/admin.service.ts:6993-7034 | The back office queues a whole refund exactly of a paid, undelivered order worth something that it sees no refund under way for; the order stays put |
| `TradeRefunds.ServedExactlyWhen` | src/admin/admin.service.ts:7040-7154 | A refund by product goes through exactly for a delivered or held order, known products ticked once, amounts within each line, and a sum of at least one fen that fits everything paid beside what was asked for before |
| `TradeRefunds.ApprovedExactlyWhen` | src/admin/admin.service.ts:6425-6576 | An approval goes through exactly for a pending or failed refund on an order standing where it was read, with amounts within each line and a final amount that fits, beside the others, everything paid, less the fee unless the switch, the campus or the order being past the pool lets it go back; an explicit switch always wins |
| `TradeRefunds.AnsweredExactlyWhen` | src/admin/admin.service.ts:6578-6657 | Withdrawal, denial and the channel's answers: from which states of the refund each is taken, to which, and where it leaves the order |
| `TradeRefunds.SettlementEmptiesExactlyWhen` | src/admin/admin.service.ts:6701-6748 | A settlement makes its order refunded if and only if it is of a whole-order refund, or what is now paid back reaches everything paid when some counting refund of the order claims the fee, and everything but the fee when none does; any other puts the order back where the refund found it |
| `TradeFees.FeeFollowsTheRider` | src/admin/admin.service.ts:6425-6434 | For an order placed during any run whose refunds were only queued: approved without a switch, the fee may go back if and only if the campus says so, the rider took the order past the pool and did not hand it back, or the order is read as held |
| `TradeFees.AskedThenApproved` | src/admin/admin.service.ts:6425-6576 | A shopper's whole refund asked for before outbound is always approved, for the goods' part, and may take the fee unless the switch says no |
| `TradeHolds.FeeBackBeforeOutbound` | src/admin/refund-amount.ts:18-37 | An honest run from an empty shop that approves a refund with the fee of an order that never left the house |
| `TradeFees.NoMoneyWithoutApproval` | src/admin/admin.service.ts:6481-6576 | Over every run a refund that is approved, under way or paid back was approved along the run, or had been before it |
| `TradeFees.AskedApprovedPaidOut` | src/admin/admin.service.ts:6669-6825 | Asked before outbound, approved and paid out: the order is refunded, exactly its goods' part more is paid out, its goods are marked returned and its coupon is free |
| `TradeSafety.StepSound` | src/admin/admin.service.ts:6402-6658 | Every step keeps references intact, refunds only on paid orders, snapshots restorable, payment a one-way door; a cancelled order can only be frozen, and a frozen one never moves |
| `TradeSafety.EarlierReadIsHonest` | src/admin/admin.service.ts:6993-7023 | However long ago the order was read and its refunds were listed, opening a whole-order refund on that read meets the trust the run theorems ask for, so soundness and both ceilings survive it |
| `TradeSafety.RefundStepShape` | src/admin/admin.service.ts:6438-6560 | Every refund step is one rewrite of its order's status and its own row; it never touches a finished refund, and may start counting a row only under the ceiling it was approved with |
| `TradeStock.ExactlyOneSettles` | src/business/business.service.ts:1646-1668 | However payments, cancellations, timeouts and freezes of one order interleave on arbitrary stale reads, at most one takes it out of waiting-for-payment; it leaves exactly when one does, and is paid exactly when that one was a payment |
| `TradeStock.StepSettlesOnce` | src/business/business.service.ts:1496-1515 | No other step takes an order out of waiting-for-payment, and each of the four takes it to its own status |
| `TradeStock.PaymentTakesWholeOrder` | src/business/business.service.ts:1671-1680 | All lines or none: a committed payment moves the order's whole demand for each product from stock to sales and found that much available; any other payment changes nothing |
| `TradeStock.LatePaymentChangesNothing` | src/business/business.service.ts:1568-1593 | The payment transaction of a late, repeated or outdated payment leaves the whole state as it was (the timeout branch rolls its own closing back) |
| `TradeStock.RefusedPaymentOnlyFreezes` | src/payments/payments.service.ts:567-600 | The report of money for an order that payment refuses moves that one order from waiting or cancelled to frozen, and changes nothing else |
| `TradePayment.PlacedThenPaid` | src/business/business.service.ts:1480-1698 | Ordering, then any run of other steps, then paying while the order still waits: it is charged goods and fee less discount, and a payment on a current read goes through exactly less than 900000 ms after ordering with everything ordered in stock and costed, moves the goods from stock to sales and uses the coupon; otherwise nothing changes |
| `TradePayment.PlacedAsAsked` | src/business/business.service.ts:1436-1489 | An order is placed exactly when the discount fits and comes with a coupon that is free; it is the last row, waiting, with its lines, amounts and time as given, and its coupon is locked |
| `TradePayment.PaidExactlyWhen` | src/business/business.service.ts:1568-1680 | On a current read a waiting order is paid exactly less than fifteen minutes after it was placed and with the whole demand for each product available and costed |
| `TradePayment.ReportedAgain` | src/business/business.service.ts:1568-1573 | A payment reported again for an order read as paid is a replay: nothing changes and nothing is frozen |
| `TradePayment.PlacedThenCancelled` | src/business/business.service.ts:2038-2064 | Ordering and then cancelling, or being closed, leaves a closed order and a released coupon, and moves nothing else |
| `TradePayment.ClosedExactlyWhen` | src/business/business.service.ts:1496-1515 | Cancelling, closing, freezing and outbound go through exactly from the statuses each names, on a current read |
| `TradePayment.PaidThenGivenBack` | src/admin/admin.service.ts:6767-6815 | What a payment took goes back to every shelf exactly as it was, if given back before any supply changed |
| `TradePayment.PaidLineGoesBack` | src/admin/admin.service.ts:6767-6810 | A paid line goes back if and only if its row is still there and still supplied as when it was sold, or was of no stated supply |
| `Inventory.SellTakesWholeDemand` | src/business/business.service.ts:1671-1680 | Line-by-line guarded decrements succeed if and only if the total demand for every product fits what is available, and then take exactly it |
| `TradeStock.GoodsAreConserved` | src/business/business.service.ts:1671-1680 | Over every run, stock + sales - counted ledger entries of each product is constant, and no shelf outside headquarters goes negative |
| `Inventory.ApplyKeepsBalance` | src/admin/admin.service.ts:2517-2628 | Stock-in, adjustment, stocktake, supplier receipt, shipment and campus receipt each move shelf and ledger together |
| `Inventory.OnlyShippingGoesNegative` | src/admin/admin.service.ts:4005-4055 | Among the stockroom operations only a shipment can push a row below zero, and only the headquarters row of the product shipped |
| `StockroomRules.StockInExactlyWhen` | src/admin/admin.service.ts:2510-2539 | Manual stock-in goes through exactly for rows of the official catalogue and rows bought locally, and moves shelf and ledger by the quantity |
| `StockroomRules.AdjustedExactlyWhen` | src/admin/admin.service.ts:2551-2578 | An adjustment goes through exactly when it moves something and stays at or above zero; adjusting back restores every row and every ledger total |
| `StockroomRules.CountedExactlyWhen` | src/admin/admin.service.ts:2595-2634 | After a stocktake the shelf holds what was counted, the difference is posted, and counting the same again changes nothing |
| `StockroomRules.ArrivalMeans` | src/admin/admin.service.ts:3754-3817 | Supplier goods raise headquarters' row by the units less the bad ones, each written down unless nothing |
| `StockroomRules.ShipmentMeans` | src/admin/admin.service.ts:4005-4055 | A shipment lowers headquarters' row by its units, whatever is there |
| `StockroomRules.ReceiptExactlyWhen` | src/admin/admin.service.ts:4074-4190 | A campus receipt goes through exactly for rows the campus does not buy itself, raises them, and makes them supplied by headquarters |
| `StockroomRules.SwitchedExactlyWhen` | src/admin/admin.service.ts:2118-2216 | A row's supply changes exactly when it has none yet, or nothing of it is in stock or promised |
| `TradeStock.OnlyShipmentsGoBelowZero` | src/admin/admin.service.ts:4005-4055 | Of all steps of the machine, on any row, headquarters included, only that shipment takes it from not negative to negative |
| `Inventory.LogOutMovesNothing` | src/business/business.service.ts:1892-1904 | Outbound writes ledger notes and moves no stock and no balance |
| `Inventory.LogOutNotesDemand` | src/business/business.service.ts:1892-1904 | The notes outbound writes add up to the order's demand for every product that still has a row |
| `Inventory.GiveBackReturns` | src/admin/admin.service.ts:6767-6815 | A whole-order refund moves exactly the returnable units from sales back to stock and changes nothing else |
| `Inventory.SellThenGiveBack` | src/admin/admin.service.ts:6767-6815 | Selling an order and giving it back restores every row, if no supply mode was switched in between |
| `TradeStock.EverySaleIsOnePaidOrder` | src/business/business.service.ts:1646-1680 | Over every run, sales move by precisely the demand of the orders that became paid less the units refunds put back |
| `TradeStock.SalesNeverNegative` | src/admin/admin.service.ts:6767-6815 | Over every run what is given back never exceeds what paid orders took, so sales never fall below their start |
| `TradeStock.FinishReturnsAtMostOnce` | src/admin/admin.service.ts:6760-6815 | Settling a refund returns goods only for a whole-order refund of an order that has not returned them, exactly the returnable units, moved from sales to the shelf |
| `TradeStock.GoodsReturnOnce` | src/admin/admin.service.ts:6767-6815 | Over every run each order returns its goods at most once, however many refunds and callbacks it sees |
| `TradeStock.FinishedIsFinal` | src/admin/admin.service.ts:6687-6725 | Over every run a finished refund stays exactly as it is and settling it again is a no-op |
| `TradeCoupons.CouponsStaySettled` | src/business/business.service.ts:1445-1457 | Over every run without a repeated release and without freezing an order whose coupon is locked, each coupon in use is held by exactly one order and its status says how |
| `TradeCoupons.HoldersStayApart` | src/business/business.service.ts:1445-1457 | Freezing or not, over every run without a repeated release no two orders hold one coupon, and a held coupon has its holder's status |
| `TradeCoupons.SettledExactlyUnless` | src/admin/admin.service.ts:6816-6821 | Exactly when a step keeps coupons settled: if and only if it is neither a second whole-order settlement releasing a coupon in use nor a freeze of a pending order carrying a coupon |
| `TradeStories.RepeatedReleaseTakesAHeldCoupon` | src/admin/admin.service.ts:6816-6821 | An honest run from an empty shop, under every ceiling, in which the second of two agreed whole-order refunds frees a coupon that a newer order had locked |
| `TradeStories.FrozenOrderStrandsItsCoupon` | src/payments/payments.service.ts:567-600 | An honest run from an empty shop that ends with a locked coupon no order holds |
| `TradeCoupons.OneReturnIsEnough` | src/admin/admin.service.ts:6767-6821 | With at most one whole-order settlement per order no release is ever repeated |
| `TradeCoupons.CouponStatusMeans` | src/business/business.service.ts:1682-1698 | Locked if and only if a pending order holds the coupon, used if and only if a paid unreleased one does, and never two orders |
| `TradeUndo.UndoIsTheIdentity` | src/business/business.service.ts:2474-2518 | From the step that takes an order into after-sales to the step that undoes the refund, across any run of other actors, the order returns to exactly its status if and only if the refund remembers it; a request always does |
| `TradeUndo.HeldOrderStays` | src/admin/admin.service.ts:6438-6459 | While an order is held in after-sales no payment, cancellation, warehouse, rider or receipt step, and no other order's refund, changes it or its refunds |
| `TradeStories.RefusalCanLoseProgress` | src/admin/admin.service.ts:6993-7034 | An honest run from an empty shop in which a back-office refund is opened while the order is paid and approved while it is picked, and the channel's refusal puts it back to paid |
| `TradeHolds.RefundWrites` | src/admin/admin.service.ts:7167-7182 | A refund step leaves an order's status, holds it, refunds it whole or writes back one a refund may remember; only a settlement writes back to, or refunds, an order that is not held |
| `TradeHolds.RefusalRewindsTheDelivery` | src/admin/admin.service.ts:6993-7034 | An honest run from an empty shop: a refund opened on the road, the order handed back to the pool, the refund approved there and refused, and the order is on the road again |
| `OrderState.RestoreRulesAgree` | src/admin/refund-amount.ts:63-70 | The shopper's and the back office's restore rules agree if and only if the snapshot is not one between picking and the last mile |
| `Shop.Database.PlaceOrder` | src/business/business.service.ts:1436-1489 | The new tables are those of the order-creation step: one pending order, its coupon locked, or nothing |
| `Shop.Database.PayOrder` | src/business/business.service.ts:1568-1698 | The payment transaction, loops over lines included, ends in exactly the state of the payment step, or unchanged |
| `Shop.Database.TakePayment` | src/payments/payments.service.ts:567-600 | A payment report settles the order or, when payment refuses, freezes it, and says which |
| `Shop.Database.CheckLines` | src/business/business.service.ts:1594-1624 | The first pass finds the same verdict as checking and stamping all lines |
| `Shop.Database.TakeGoods` | src/business/business.service.ts:1671-1680 | The second pass takes all lines or puts back everything |
| `Shop.Database.CancelOrder` | src/business/business.service.ts:2038-2064 | Cancelling ends in exactly the cancel step's state |
| `Shop.Database.CloseStaleOrders` | src/business/business.service.ts:1496-1515 | The loop over stale orders equals the run of the close steps one by one |
| `Shop.Database.ShipOut` | src/business/business.service.ts:1819-1905 | Outbound with its ledger loop ends in exactly the outbound step's state |
| `Shop.Database.AskRefund` | src/business/business.service.ts:2339-2421 | A shopper's request ends in exactly the request step's state |
| `Shop.Database.WithdrawRefund` | src/business/business.service.ts:2474-2497 | A withdrawal decided on a status read earlier writes what the late write writes, or nothing when the check on that read failed |
| `Shop.Database.OpenWhole` | src/admin/admin.service.ts:6993-7034 | Opened on a status and a list of refunds read earlier, the whole-order refund appears if and only if that status allows it and that list shows none under way |
| `Shop.Database.EditItems` | src/admin/admin.service.ts:7068-7082 | Checking typed amounts one by one equals checking them all |
| `Shop.Database.OpenGoods` | src/admin/admin.service.ts:7040-7154 | A refund by product ends in exactly its step's state |
| `Shop.Database.DenyRefund` | src/admin/admin.service.ts:6438-6461 | A denial likewise |
| `Shop.Database.EditLines` | src/admin/admin.service.ts:6500-6543 | The auditor's edits, checked then written in turn, equal the edited lines or are refused as a whole |
| `Shop.Database.Price` | src/admin/admin.service.ts:6544-6574 | The final amount and ceiling check agree with the priced refund of the approve step |
| `Shop.Database.ApproveRefund` | src/admin/admin.service.ts:6481-6576 | Approval ends in exactly the approve step's state |
| `Shop.Database.HearAnswer` | src/admin/admin.service.ts:6578-6657 | The channel's immediate answer ends in exactly the accept or refuse step's state |
| `Shop.Database.FeeClaimed` | src/admin/admin.service.ts:6701-6714 | The count over refunds says whether any counting refund claims the fee |
| `Shop.Database.TotalRefunds` | src/admin/admin.service.ts:6715-6718 | The aggregate loop computes the refund total of an order |
| `Shop.Database.ReturnLines` | src/admin/admin.service.ts:6767-6810 | The line loop gives back exactly the returnable lines |
| `Shop.Database.FinishRefund` | src/admin/admin.service.ts:6669-6825 | Settling, with its order, goods and coupon writes, ends in exactly the finish step's state and does nothing the second time |
| `Shop.Database.Reconcile` | src/admin/admin.service.ts:6894-6964 | The channel's closing and progress answers likewise, the order moving only from where it was read |
| `Shop.Database.ServeAll` | src/admin/admin.service.ts:6402-6658 | Any sequence of requests served on the tables equals the run of their steps, so an honest sequence leaves them sound and every order under both ceilings |
| `Shop.Database.ServeLate` | src/admin/admin.service.ts:6894-6964 | A withdrawal, denial or answer served on what stands now equals its step |
| `Shop.Database.MoveStock` | src/admin/admin.service.ts:2510-2634 | Every stockroom operation equals its step |
| `Shop.Database.StockIn` | src/admin/admin.service.ts:2510-2539 | Stock-in writes row and ledger as the stockroom step does |
| `Shop.Database.AdjustStock` | src/admin/admin.service.ts:2551-2578 | An adjustment does, refusing zero and a negative result |
| `Shop.Database.TakeStock` | src/admin/admin.service.ts:2595-2634 | A stocktake does, posting the difference, or nothing when there is none |
| `Timeline.MarkTimelineStep` | src/common/order-state.ts:207-228 | Copy, search and in-place write compute the marked timeline |
| `Timeline.MarkTells` | src/common/order-state.ts:128-228 | Marking keeps the timeline truthful if and only if the move skips no node of the route |
| `Timeline.NewTimelineTells` | src/common/order-state.ts:162-199 | The six dark nodes of a new order are right for waiting-for-payment |
| `Timeline.ProgressIsAPrefix` | src/common/order-state.ts:128-153 | The done nodes, transfer notes aside, are a prefix of the route's nodes, fixed by status and route |
| `Timeline.ProgressIsAFunctionOfStatus` | src/common/order-state.ts:128-228 | Two truthful timelines at one status and route show the same progress, whatever their history |
| `Timeline.ResetTells` | src/fulfillment/fulfillment.service.ts:505-533 | A transfer's reset is truthful for an order back in the pool |
| `TimelineTimes.DoneSaysWhen` | src/common/order-state.ts:207-228 | Over every run from a paid order, on any stale reads, every done node has a time, and only the route's last node can have one without being done |
| `TimelineTimes.MarkDates` | src/common/order-state.ts:207-228 | Marking dates exactly the node it lights with the current time and leaves every other done node as it was |
| `TimelineTimes.ResetDates` | src/fulfillment/fulfillment.service.ts:505-533 | A transfer takes back the nodes after outbound with their times, leaves the others, and dates its own note |
| `Timeline.DropHandoverTells` | src/business/business.service.ts:1844-1862 | Dropping the manager nodes at outbound leaves a truthful customer-pickup timeline |
| `Handover.OwnerHoldsAlone` | src/fulfillment/fulfillment.service.ts:681-711 | While an order has a rider, no other rider's commit changes it, and only the owner's own transfer ends the ownership |
| `Handover.OwnedUntilTransfer` | src/fulfillment/fulfillment.service.ts:681-711 | Over every run in which the owner does not transfer, the order stays with its owner |
| `Handover.OneWinnerPerRelease` | src/fulfillment/fulfillment.service.ts:681-694 | Over every run on stale reads, successful grabs and transfers alternate: one winner per release |
| `Handover.FreshRunsKnowTheirRider` | src/fulfillment/fulfillment.service.ts:488-546 | In every run of warehouse, rider, manager and receipt commits from a paid order, refunds aside, the statuses past the shop have a rider set |
| `Handover.NewOrderIsFresh` | src/business/business.service.ts:1568-1627 | A new order, once paid, meets the start condition of these runs |
| `Handover.FreshIsTruthful` | src/business/business.service.ts:1568-1627 | That start condition makes its history lawful and its timeline truthful |
| `Handover.TruthfulUnlessSkipped` | src/fulfillment/fulfillment.service.ts:651-709 | Among hand-over commits, exactly when one, even on a stale timeline, keeps the timeline truthful: if and only if it is not a manager's receive straight from the first mile, nor a scan prepared at another level |
| `Handover.OfferedRunsAreTruthful` | src/fulfillment/fulfillment.service.ts:1151-1195 | In every run of offered actions, transfers and stale reads included, the timeline tells the status |
| `Handover.StaleWriteIsHarmless` | src/fulfillment/fulfillment.service.ts:697-709 | A write computed from any older row at the same status shows the same progress as one computed from the current row |
| `Handover.TableSkipsNothing` | src/fulfillment/fulfillment.service.ts:552-649 | A move of the action table skips no node of its route if and only if it is not that legacy receive |
| `HandoverOffers.OffersAreAccepted` | src/fulfillment/fulfillment.service.ts:1151-1195 | Every action offered to a viewer is accepted, given its evidence |
| `HandoverOffers.PaidOrdersGetDelivered` | src/fulfillment/fulfillment.service.ts:1151-1195 | From payment to the door: after any offered actions on stale reads the timeline tells the status, and while in flight at most six more deliver the order, after which every node of its route is done |
| `HandoverStories.ReceiveFromTheRoadSkips` | src/fulfillment/fulfillment.service.ts:552-649 | A concrete run from a paid order in which a manager's receive from the first mile leaves the hand-over node dark |
| `HandoverStories.ScanFromTheRoadSkips` | src/fulfillment/fulfillment.service.ts:784-817 | A concrete run from a paid order in which a scan prepared on the road, sent after a transfer, leaves a node lit too early |
| `HandoverOffers.NeverADeadEnd` | src/fulfillment/fulfillment.service.ts:552-649 | From every in-flight row reachable by offered actions, a run of exactly as many offered actions as the measure says, at most six, delivers the order |
| `HandoverOffers.NextMoveAdvances` | src/fulfillment/fulfillment.service.ts:552-649 | The next move is offered, accepted and lowers the measure by one |
| `HandoverOffers.OfferedRunsKeepRoutes` | src/business/business.service.ts:1836-1872 | In runs of offered actions a customer-pickup order never enters a manager's status |
| `HandoverOffers.CommitsFollowTheEdges` | src/fulfillment/fulfillment.service.ts:552-649 | Every hand-over commit is an edge of the trade machine's fulfilment step, so the two machines agree |
| `HandoverRules.EveryCommitIsAccountedFor` | src/fulfillment/fulfillment.service.ts:302-711 | Over every run on any stale reads, each row a manager's event adds is made by staff of the order's own building, each row a rider's event adds by its owner or by whoever takes it free out of the pool, along that action's own way, to the right holder, and with the photo or reason it needs |
| `HandoverRules.ManagerActsExactlyWhen` | src/fulfillment/fulfillment.service.ts:552-580 | On a current read a manager's action leads to a status if and only if the manager works in the order's building and the action, the order's status and the evidence allow it |
| `HandoverRules.RiderActsExactlyWhen` | src/fulfillment/fulfillment.service.ts:581-711 | Likewise a rider's, if and only if the order is the rider's or is free in the pool |
| `HandoverRules.NoActionOnAnothersRow` | src/fulfillment/fulfillment.service.ts:630-632 | No rider's action goes through that was decided on a row showing the order as somebody else's |
| `HandoverRules.OfferedExactlyWhen` | src/fulfillment/fulfillment.service.ts:1151-1195 | A card offers exactly what would go through with full evidence, less a few ways it keeps back, each named |
| `HandoverRules.EdgesAreExactlyTheMoves` | src/common/order-state.ts:5-40 | The fulfilment edges between different statuses are exactly the moves some rider or manager can make, the two of picking by hand, and the receipt |
| `HandoverHolds.WriteBackHarmlessExactlyWhen` | src/admin/admin.service.ts:7167-7182 | Writing a remembered status back leaves the timeline truthful if and only if both statuses light the same nodes of the route, and the row lawful if and only if the status needs no rider that is gone and no outbound that has or has not been |
| `HandoverHolds.HoldsLeaveRowsInOrder` | src/admin/admin.service.ts:7167-7182 | Over every run of hand-over commits on stale reads, holds and write-backs in which no node is skipped and each write-back meets that condition, an order no refund holds knows its rider and its timeline tells its status |
| `HandoverHolds.OwnedThroughHolds` | src/fulfillment/fulfillment.service.ts:681-711 | Over those runs only the owner's own transfer ends the ownership |
| `HandoverHolds.WorkStands` | src/fulfillment/fulfillment.service.ts:651-711 | What a hold hides changes no commit: the same commits happen, with the same result, as on the rows without holds |
| `HandoverHolds.HeldOrderRests` | src/fulfillment/fulfillment.service.ts:651-711 | Nobody's commit moves a held order |
| `HandoverHolds.NoHoldsNoChange` | src/fulfillment/fulfillment.service.ts:651-711 | Without refunds these runs are the hand-over's own |
| `HandoverHolds.OnTheRoadNeedsItsRider` | src/fulfillment/fulfillment.service.ts:1151-1195 | On the road somebody is offered an action if and only if a rider is set |
| `HandoverHolds.StuckOnTheRoad` | src/fulfillment/fulfillment.service.ts:1151-1195 | On the road without a rider, no run of offered actions on any reads moves the order |
| `HoldStory.PutBackOnTheRoad` | src/admin/admin.service.ts:7167-7182 | A concrete run from a paid order: held in the pool and put back on the road, it has no rider, its timeline does not tell its status, and nobody is offered anything |
| `HoldStory.PutBackInTheHouse` | src/admin/admin.service.ts:7167-7182 | A concrete run from a paid order: held after outbound and put back to paid, its picking node stays lit and its route fixed |
| `DeliveryRow.Row.WriteIf` | src/fulfillment/fulfillment.service.ts:697-711 | The guarded update writes status and timeline if and only if the row stands as stated |
| `DeliveryRow.Row.Transfer` | src/fulfillment/fulfillment.service.ts:488-546 | The transfer, with its reset loop, equals the transfer step |
| `DeliveryRow.Row.Act` | src/fulfillment/fulfillment.service.ts:445-711 | An action call on a stale read equals the action step |
| `DeliveryRow.Row.ScanIn` | src/fulfillment/fulfillment.service.ts:784-817 | A scan equals the scan step |
| `DeliveryRow.Row.GoOut` | src/business/business.service.ts:1819-1885 | Outbound, with its filtering loop, equals the outbound step |
| `DeliveryRow.Row.Confirm` | src/business/business.service.ts:2012-2037 | The receipt, confirmed by the shopper or by time, equals the receipt step |
| `DeliveryRow.Row.ServeAll` | src/fulfillment/fulfillment.service.ts:445-711 | Any sequence of requests on rows read at any time leaves the row where the run of their events ends, so offered ones leave a row that knows its rider and tells its status |
| `SupplySafety.CountersStaySound` | src/admin/admin.service.ts:3719-3743 | Over every run of buying, receiving, closing and reopening: bad within received within required on every line, no product twice, one open purchase per batch |
| `SupplySafety.CompletedMeansEveryLine` | src/admin/admin.service.ts:3372-3381 | The phase judged on sums says completed if and only if every single line is fully received |
| `SupplySafety.PurchasesStayBacked` | src/admin/admin.service.ts:3243-3363 | Over every run each purchase line asks for no more than the confirmed, shipped and received orders of its batch |
| `SupplySafety.GoodsInTransit` | src/admin/admin.service.ts:3754-3827 | Over every run the supplier entries equal received and bad cases in units, and shipments less receipts equal the units of the orders on the road |
| `SupplySafety.SupplyConserves` | src/admin/admin.service.ts:3935-4060 | Over every run the supply chain keeps every product's balance, and only headquarters shelves can go negative |
| `SupplySafety.PlanFits` | src/admin/admin.service.ts:3719-3743 | Whatever the request, the deliveries booked name each product once and fit within its shortage |
| `SupplySafety.BookLinesSound` | src/admin/admin.service.ts:3818-3825 | Booking a plan keeps every line within its bounds |
| `SupplySafety.BookingsAddUp` | src/admin/admin.service.ts:3754-3827 | Booking a plan adds exactly the delivered units to ledger and lines alike |
| `SupplySafety.AggregateMeansCases` | src/admin/admin.service.ts:3615-3650 | The aggregate names a product if and only if the batch has confirmed cases of it |
| `SupplyRules.SavedExactlyWhen` | src/admin/admin.service.ts:3154-3237 | A form becomes the campus's new order exactly when the batch is open, the form is not empty and all of it is in the catalogue; the order asks for each product's first line, in units |
| `SupplyRules.OrderMovesExactlyWhen` | src/admin/admin.service.ts:3243-3363 | Deleting, confirming, rejecting, revoking, shipping and booking in go through exactly from the phase each needs, for the right campus, with no purchase made (revoking) and no product bought locally (booking in) |
| `SupplyRules.OrdersGoAhead` | src/admin/admin.service.ts:3243-3363 | Over every run an order keeps campus, batch and items, is not shipped twice, and never leaves an end |
| `SupplyRules.OrderGoesThrough` | src/admin/admin.service.ts:3925-4190 | Confirmed, shipped and booked in, an order raises its campus's rows by exactly what it lowers headquarters' rows by, product by product |
| `SupplyRules.BoughtExactlyWhen` | src/admin/admin.service.ts:3606-3678 | A purchase opens exactly for distinct products the batch has confirmed cases of while none is open for it, and requires exactly those cases |
| `SupplyRules.ReceivedExactlyWhen` | src/admin/admin.service.ts:3695-3827 | A receipt is booked exactly when the purchase is open, everything first reported fits and something was received; then every line has received and spoilt exactly what was first reported for it |
| `SupplyRules.SwitchedExactlyWhen` | src/admin/admin.service.ts:3857-3920 | A purchase closes exactly while open, and reopens exactly while closed and no other one is open for its batch |
| `DepotRows.Database.DropRepeats` | src/admin/admin.service.ts:3154-3200 | The form keeps the first line of each product |
| `DepotRows.Database.SubmitOrder` | src/admin/admin.service.ts:3154-3237 | Submitting equals the save step |
| `DepotRows.Database.AggregateBatch` | src/admin/admin.service.ts:3615-3650 | The nested loops compute, for exactly the products with confirmed cases, their case totals and case size |
| `DepotRows.Database.BuyBatch` | src/admin/admin.service.ts:3606-3678 | Creating the purchase equals the buy step |
| `DepotRows.Database.CheckDeliveries` | src/admin/admin.service.ts:3719-3743 | The checking loop computes the plan |
| `DepotRows.Database.ReceiveGoods` | src/admin/admin.service.ts:3695-3827 | Receiving, with its row, shelf and ledger writes, equals the receive step |
| `DepotRows.Database.ShipOrder` | src/admin/admin.service.ts:3925-4060 | Shipping equals the ship step |
| `DepotRows.Database.ConfirmReceipt` | src/admin/admin.service.ts:4074-4190 | The campus receipt equals the book-in step, or changes nothing |
| `DepotRows.Database.MoveOrder` | src/admin/admin.service.ts:3243-3363 | Confirming, rejecting, revoking and deleting an order equal their steps |
| `DepotRows.Database.SwitchPurchase` | src/admin/admin.service.ts:3857-3920 | Closing and reopening a purchase equal their steps |
| `DepotRows.Database.ServeAll` | src/admin/admin.service.ts:3154-4190 | Any sequence of requests on the tables equals the run of their steps, so purchases stay backed and the ledger keeps accounting for every unit |
| `Clawback.ClawbackRightExactlyWhen` | src/admin/admin.service.ts:6693-6836 | After any run of requests, late writes, bookings and deliveries, a courier whose pay is recorded owes what one refund of the settled total takes, whatever the pay, if and only if the slip last booked found the pay recorded and carries that total, or both cover all the goods (with nothing booked in time: if nothing was settled) |
| `Clawback.ClawbackIsPathIndependent` | src/admin/admin.service.ts:6826-6836 | However many partial refunds there were and however their slips were shuffled, lost or mixed with deliveries, if that condition holds the courier keeps what one refund of the total, booked on recorded pay, would have left |
| `Clawback.CourierKeepsTheRest` | src/commission/commission.service.ts:245-297 | In money: under that condition the courier keeps within half a fen of the share of the goods not refunded, all of it when nothing was and nothing when everything was |
| `ClawbackSlips.EverySettlementLeavesOneSlip` | src/admin/admin.service.ts:6825-6836 | Over every run without late writes an order gets exactly as many slips as refunds after delivery are paid back on it, none for whole-order refunds and replays |
| `ClawbackSlips.PayrollLeavesTheShop` | src/admin/admin.service.ts:6825-6836 | Bookings and recorded deliveries never touch the shop's tables: along any run these are where the shop's own requests and late writes put them |
| `ClawbackSlips.BookedOnce` | src/admin/admin.service.ts:6825-6836 | No slip is booked twice, and only slips that were written are |
| `Clawback.LastBookingDecides` | src/commission/commission.service.ts:245-297 | Over every run from an empty payroll, pay is taken back for the total on the slip last booked if the pay stood by then, and not at all otherwise; what was earned stands |
| `Clawback.SlipIsTheSettledTotal` | src/admin/admin.service.ts:6715-6730 | The total a settlement carries over is the order's settled total right after it, and more than before it |
| `Clawback.DeskStaysInOrder` | src/admin/admin.service.ts:6693-6730 | Over every run without late writes slip totals of an order grow and none is ahead of what the order has settled |
| `Clawback.CarriedIsNewest` | src/admin/admin.service.ts:6826-6836 | If the total carried is the settled one, no slip of the order is newer than the one last booked |
| `ClawbackStory.BookedOutOfTurn` | src/admin/admin.service.ts:6826-6836 | A concrete run from an empty shop: two halves settled, booked the wrong way round, and the courier keeps half the pay of a fully refunded order |
| `ClawbackStory.BookingLost` | src/admin/admin.service.ts:6825-6836 | The same with the second booking lost, which a replay of the settlement does not make up for |
| `ClawbackStory.PaidAfterBooking` | src/commission/commission.service.ts:245-256 | A concrete run from an empty shop: half the goods are refunded and booked before the order is delivered, the delivery then records full pay, and the courier keeps all of it |
| `Clawback.ServeAll` | src/commission/commission.service.ts:145-297 | On the pay rows, any sequence of bookings and deliveries equals the run of the model, so where the condition holds the rows say what one refund of the total would have left |
| `Commission.LastAdjustmentWins` | src/commission/commission.service.ts:245-297 | A later adjustment overwrites an earlier one completely |
| `Commission.NetPayFallsToZero` | src/commission/commission.service.ts:245-297 | What a courier keeps lies between zero and what was earned, never rises as refunds accumulate, is zero once the goods are refunded, and is within half a fen of the exact share |
| `Commission.AdjustKeepsEarnings` | src/commission/commission.service.ts:245-297 | An adjustment changes no earning, no other order and no list of earners |
| `Commission.RecordedOnce` | src/commission/commission.service.ts:206-236 | Recording a delivery again changes nothing; the first time adds at most one row for rider and manager each, at the right rate |
| `Commission.RefundRatio` | src/admin/admin.service.ts:6826-6836 | The share of the goods refunded stays between nothing and everything |
| `Commission.Payroll.RecordForDelivered` | src/commission/commission.service.ts:145-238 | The manager lookup and the loop over rider and manager equal the recording |
| `Commission.Payroll.RecordPay` | src/commission/commission.service.ts:206-236 | The loop of upserts over rider and manager equals the recording |
| `Commission.ManagerOfMeans` | src/commission/commission.service.ts:181-205 | An order without a building, or with an empty name for one, has no manager; any other has the first listed colleague who manages it, interns included when pay is by share |
| `Commission.DeliveryPays` | src/commission/commission.service.ts:160-236 | Recording a delivery adds, for whoever has no row yet: the scheduled fee on a scheduled order and the instant fee on any other for the rider, the same for a manager paid per order, and for one paid by share an amount within half a fen of the share of the goods paid for; nothing else changes |
| `Commission.RuleAsksForEach` | src/commission/commission.service.ts:30-71 | A rule asks for each dimension it names and nothing else: building by id or name, the very floor and mode, and a known weight between the bounds, both included |
| `Commission.Payroll.RefundAdjust` | src/commission/commission.service.ts:245-297 | The loop over earners, in any order, equals the adjustment |
| `Commission.SpecificityCountsPinned` | src/commission/commission.service.ts:52-71 | The score of a matching rule is the number of dimensions it pins down |
| `Commission.BestMatch` | src/commission/commission.service.ts:74-92 | The result is a matching rule that no rule of the list beats in specificity, then version; none if and only if none matches |
| `Commission.BestIsOrderIndependent` | src/commission/commission.service.ts:74-92 | Without ties the choice does not depend on the order of the list |
| `Draw.PickPrize` | src/business/business.service.ts:2744-2758 | None if and only if nothing has weight; otherwise the slot the roll lands on, and the last-slot fallback is never reached |
| `Draw.WinsByWeight` | src/business/business.service.ts:2744-2758 | Exactly weight-many of the whole-number rolls win a slot, so none win a slot of weight zero |
| `Draw.LandsOnce` | src/business/business.service.ts:2744-2758 | No roll lands on two slots |
| `Promotions.WindowsStayDisjoint` | src/admin/admin.service.ts:1805-1905 | Over every run of creations and edits the active windows of a product are proper and pairwise disjoint |
| `Promotions.CreateRefusesOnlyOverlaps` | src/admin/admin.service.ts:1825-1852 | A sane creation succeeds if and only if the windows stay disjoint |
| `Promotions.UpdateRefusesOnlyOverlaps` | src/admin/admin.service.ts:1864-1905 | A sane edit that leaves a promotion active succeeds if and only if the windows stay disjoint |
| `Promotions.CreatedExactlyWhen` | src/admin/admin.service.ts:1825-1852 | A promotion is made exactly for a product on sale, cheaper than it, for a proper window that has not passed and has nothing else on |
| `Promotions.UpdatedExactlyWhen` | src/admin/admin.service.ts:1864-1905 | An edit goes through exactly while the promotion has not ended, with a price below the product's, a moved window proper and not passed, and a moved or switched-on window free; it changes what it names |
| `Promotions.OneLivePromotion` | src/admin/admin.service.ts:1805-1824 | At any instant a product has at most one live promotion |
| `Promotions.PromotionMap` | src/business/business.service.ts:247-268 | The loop keeps the first row listed for each product |
| `Promotions.ShownIsTheLiveOne` | src/business/business.service.ts:247-268 | What is shown is exactly the live promotion the channel may see |
| `Promotions.CreatedIsShown` | src/admin/admin.service.ts:1825-1852 | A promotion just made is what its product shows from its start to just before its end, in the catalogue if it is a clearance and in the flash-sale zone if it is a flash sale, and nowhere else |
| `Promotions.OrderDoesNotMatter` | src/business/business.service.ts:247-291 | Two reads agree whatever order the rows were listed in |
| `Promotions.ChannelsSplitTheLiveOnes` | src/business/business.service.ts:247-291 | Catalogue and flash-sale zone never price the same product and together show everything live |
| `Promotions.Office.Clashes` | src/admin/admin.service.ts:1805-1824 | The search finds a clash if and only if the window is not free |
| `Promotions.Office.Create` | src/admin/admin.service.ts:1825-1852 | Creating equals the create step |
| `Promotions.Office.Update` | src/admin/admin.service.ts:1864-1905 | Updating equals the update step |
| `Promotions.Office.ServeAll` | src/admin/admin.service.ts:1825-1905 | Any sequence of edits on the table equals the run of their steps and keeps windows disjoint |
| `Vouchers.NeverOverIssued` | src/admin/admin.service.ts:8662-8719 | Over every run of every channel, edits and deletions included, the coupons in people's hands stay within the template's total, unless a total is lowered between a channel's read and its update |
| `Vouchers.CountersStayTrue` | src/business/business.service.ts:629-660 | Over every run, claimed and issued both equal the number of coupons handed out, and no coupon loses its template |
| `Vouchers.GuardProtectsExactlyWhen` | src/admin/admin.service.ts:8695-8707 | The guard protects every template with a given total if and only if the total that was read is no looser |
| `Vouchers.LoweredTotalIsExceeded` | src/business/business.service.ts:649-660 | A concrete run from empty tables in which a total is lowered between a claim's read and its update, and exceeded |
| `Vouchers.IssuedWorthIsFixed` | src/admin/admin.service.ts:8573-8595 | Over every run a template that was handed out stays, and its kind, amount and threshold never change |
| `Vouchers.WorthStaysLawful` | src/admin/admin.service.ts:8493-8496 | Over every run each platform coupon takes something off and no partner coupon does |
| `Vouchers.IssueFillsUpToTheLimit` | src/admin/admin.service.ts:8662-8694 | One call gives each named user exactly their allowance and nobody else anything, so nobody ends above max(before, limit) |
| `Vouchers.ClaimStopsAtTheLimit` | src/business/business.service.ts:629-648 | A claim under a limit adds a first unused coupon and stays within the limit counted over a lifetime |
| `Vouchers.WelcomeCouponOnce` | src/business/business.service.ts:2779-2803 | Over every run a welcome coupon reaches each user at most once, used or not, unless issued by hand, as a prize or as a bonus |
| `VoucherRules.ClaimedExactlyWhen` | src/business/business.service.ts:612-662 | Who asks gets a coupon exactly when the template is on, public, not expired, has one left by the total that was read, and the user has none unused and has not used up the limit; under a limit an unused one is handed back instead |
| `VoucherRules.GrantedExactlyWhen` | src/business/business.service.ts:2766-2817 | A grant gives one exactly when the template is on, not expired and has one left, and the user has none unused (none ever, for a welcome coupon) unless it may repeat |
| `VoucherRules.BonusExactlyWhen` | src/business/business.service.ts:1705-1723 | The scheduled-delivery bonus gives one even from a template that is off, as long as it has not expired and has one left |
| `VoucherRules.IssuedExactlyWhen` | src/admin/admin.service.ts:8629-8719 | Issuing goes through exactly when the template is on and not expired, somebody gets something, and the total that was read has room for the sum of everybody's portions |
| `VoucherRules.OfferedExactlyWhen` | src/admin/admin.service.ts:8475-8530 | A template is created exactly with a worth its kind allows and an end still to come, and starts on with nothing handed out |
| `VoucherRules.ChangedExactlyWhen` | src/admin/admin.service.ts:8563-8617 | An edit goes through exactly when it leaves worth alone once coupons are out and no total falls below them, and changes what it names on that template only |
| `VoucherRules.DeletedExactlyWhen` | src/admin/admin.service.ts:8539-8561 | A template is deleted exactly while no coupon of it was ever handed out |
| `CouponDesk.Database.HandOut` | src/business/business.service.ts:649-660 | The guarded counter update and the rows it pays for equal the shared issuing step |
| `CouponDesk.Database.Claim` | src/business/business.service.ts:612-662 | A claim equals the claim step |
| `CouponDesk.Database.Grant` | src/business/business.service.ts:2766-2817 | A grant equals the grant step |
| `CouponDesk.Database.CountUnused` | src/admin/admin.service.ts:8667-8673 | One pass over the table counts what each named user holds unused |
| `CouponDesk.Database.Issue` | src/admin/admin.service.ts:8629-8719 | Issuing to many, with its loops, equals the issue step |
| `CouponDesk.Database.Change` | src/admin/admin.service.ts:8563-8617 | An edit equals the change step, locked amount and threshold included |
| `CouponDesk.Database.PayBonus` | src/business/business.service.ts:1705-1723 | The bonus for a scheduled delivery equals the bonus step |
| `CouponDesk.Database.ServeAll` | src/admin/admin.service.ts:8475-8719 | Any sequence of requests on the tables equals the run of their steps, so what is handed out stays within every total |

## Left out

- Operator overrides (`mark-exception`, `updateOrderStatus`): they can leave any state, so no claim covers runs that contain them.
- `advance`, `staff-deliver` and the other staff steps appear only as edges of the trade machine's fulfilment step; the rider-ownership claims do not cover them.
- Who may call: login, roles, campus scoping and order ownership are taken as given, except a manager's own building and a rider's own order.
- Cart, prices, purchase limits, coupon thresholds and validity at checkout, and the choice of discount: an order arrives with its lines, fee and discount.
- The 24-hour window for after-sale requests and the automatic receipt after two days: receipt is a step that may happen whenever the order is delivered.
- The payment channel's requests and answers over the network: they are environment steps. Of `payments.service` only the handling of a payment report is modelled; `rbac.service` is not part of this model.
- Notifications, printing, audit logs, remarks, package codes, images and every other text field.
- Cost snapshots and cost corrections on order and purchase lines: only the supply source stamped at payment is kept, since returning goods depends on it.
- Settlement bills by month: an adjustment row moves to the current month, so no law over bills holds.
- A template's `used` counter, its name and remark, and the campus switches that turn marketing off.
- Two claims by one user at the same instant: reading what the user holds and taking the quota are one step in `Vouchers`.
- Concurrent promotion edits, stocktakes and purchase steps: each is one step on current rows, so a race between check and write is not modelled.
- `transferred` orders completing by themselves after 48 hours, and the purchase-limit counter, which ignores the order being placed.
- Commission.Payroll.RecordForDelivered: the staff list arrives in the order the lookup finds it, which the code leaves to the database.
- Handover.FreshRunsKnowTheirRider: speaks of runs without refunds; holds and write-backs are in `HandoverHolds`, where the claim holds exactly under a condition on what is written back.
- Clawback.ServeAll: the shop's side of the run is the state machine itself; `Shop.Database` has its own run theorem.
- HandoverHolds.HoldsLeaveRowsInOrder: an order refunded as a whole leaves the delivery, and no row stands for it.
- Draw.PickPrize: the random number arrives already scaled to the wheel, as a real number.
- Supply.Delete: a deleted restock order keeps its position and counts nowhere.
