/**
 The order state machine's statuses (src/common/order-state.ts) and the pure money and status
 rules of src/admin/refund-amount.ts.
 */
module OrderState {
  import opened Sums

  /**
   `Frozen` and `Exception` are both stored as 'exception'. They are kept apart here because a frozen
   order never went through payment: the channel took the money, but nothing was taken off the shelf.
   */
  datatype OrderStatus =
    | PendingPayment | Paid | Picking | WaitingFirstMile | Arrived | FirstMile
    | WaitingHandover | LastMile | Delivered | Completed
    | Cancelled | Frozen | Exception | Refunded | AfterSales

  /** Paid for, now or earlier: every status except waiting for payment, closed unpaid and frozen unpaid. */
  predicate IsPaid(s: OrderStatus)
  {
    s !in {PendingPayment, Cancelled, Frozen}
  }

  /** Paid for and not yet delivered: the statuses a back-office whole-order refund may start from. */
  predicate PreDeliveryRefundable(s: OrderStatus)
  {
    s in {Paid, Picking, WaitingFirstMile, Arrived, FirstMile, WaitingHandover, LastMile}
  }

  /** The rider has reached the shop, so the delivery fee has become refundable. */
  predicate OrderArrived(s: OrderStatus)
  {
    s in {Arrived, FirstMile, WaitingHandover, LastMile, Delivered, Completed, AfterSales}
  }

  /** Where the back office puts an order when a refund is undone; the snapshot may be missing. */
  function RestoreTarget(before: Option<OrderStatus>): OrderStatus
  {
    if before.Some? && (PreDeliveryRefundable(before.value) || before.value in {Delivered, Completed})
    then before.value
    else Delivered
  }

  /** Where the shopper's own withdrawal puts it: a shorter list of the same kind. */
  function WithdrawTarget(before: Option<OrderStatus>): OrderStatus
  {
    if before.Some? && before.value in {Paid, Delivered, Completed} then before.value else Delivered
  }

  /** The two restore rules differ exactly on a snapshot taken between picking and the last mile. */
  lemma RestoreRulesAgree(before: Option<OrderStatus>)
    ensures RestoreTarget(before) == WithdrawTarget(before)
       <==> !(before.Some? && PreDeliveryRefundable(before.value) && before.value != Paid)
  {
  }

  function RefundCeiling(payable: int, fee: int, includeFee: bool): int
  {
    if includeFee then payable else payable - fee
  }

  /** What the shopper's own request may ask for: goods only, never below zero. */
  function RefundAmountFor(payable: int, fee: int): int
  {
    var goods := if payable - fee <= payable then payable - fee else payable;
    if goods < 0 then 0 else goods
  }
}
