/** What refunds write to an order's status, and runs from the empty shop: a delivery rewound, and a fee back too early. */
module TradeHolds {
  import opened Sums
  import opened OrderState
  import opened Inventory
  import opened Trade
  import opened TradeSafety
  import opened TradeCeiling
  import opened TradeStories
  import opened ClawbackStory
  import opened TradeFees

  /** Left alone, held, emptied, or put back; and only a settlement empties or puts back an order that is not held. */
  predicate Writes(from: OrderStatus, to: OrderStatus, settles: bool)
  {
    || to == from || to == AfterSales
    || (settles && to == OrderStatus.Refunded)
    || (RestoreTarget(Some(to)) == to && (settles || from == AfterSales))
  }

  lemma RequestWrites(w: World, s: Step, o: nat)
    requires (s.RequestRefund? || s.OpenWholeRefund? || s.OpenGoodsRefund?) && Perform(w, s).Committed? && o < |w.orders|
    ensures o < |Next(w, s).orders| && Writes(w.orders[o].status, Next(w, s).orders[o].status, false)
  {
    match s
    case RequestRefund(_, _, _, _) =>
    case OpenWholeRefund(_, _, _) =>
    case OpenGoodsRefund(_, _, _) =>
  }

  lemma AuditWrites(w: World, s: Step, o: nat)
    requires (s.Withdraw? || s.Deny? || s.Approve?) && Perform(w, s).Committed? && o < |w.orders|
    ensures o < |Next(w, s).orders| && Writes(w.orders[o].status, Next(w, s).orders[o].status, false)
  {
    match s
    case Withdraw(r) =>
    case Deny(r) =>
    case Approve(r, _, _, _, _) =>
  }

  lemma AnswerWrites(w: World, s: Step, o: nat)
    requires (s.Accept? || s.Refuse? || s.Processing? || s.Close?) && Perform(w, s).Committed? && o < |w.orders|
    ensures o < |Next(w, s).orders| && Writes(w.orders[o].status, Next(w, s).orders[o].status, false)
  {
    match s
    case Accept(r) =>
    case Refuse(r) =>
    case Processing(r) =>
    case Close(r) =>
  }

  lemma SettlementWrites(w: World, r: nat, o: nat)
    requires DoFinish(w, r).Committed? && o < |w.orders|
    ensures o < |DoFinish(w, r).world.orders| && Writes(w.orders[o].status, DoFinish(w, r).world.orders[o].status, true)
  {
  }

  /** What any refund step may do to the status of any order. */
  lemma RefundWrites(w: World, s: Step, o: nat)
    requires (IsRefundStep(s) || s.Finish?) && o < |w.orders|
    ensures o < |Next(w, s).orders| && Writes(w.orders[o].status, Next(w, s).orders[o].status, s.Finish?)
  {
    if Perform(w, s).Committed? {
      if s.Finish? {
        SettlementWrites(w, s.refund, o);
      } else if s.RequestRefund? || s.OpenWholeRefund? || s.OpenGoodsRefund? {
        RequestWrites(w, s, o);
      } else if s.Withdraw? || s.Deny? || s.Approve? {
        AuditWrites(w, s, o);
      } else {
        AnswerWrites(w, s, o);
      }
    }
  }

  const ROAD: Step := OpenWholeRefund(0, FirstMile, [])
  const HANDED: Step := Fulfil(0, FirstMile, WaitingFirstMile)

  function Opened(status: RefundStatus, withFee: bool): Refund
  {
    Refund(0, PreDelivery, 10, withFee, Some(FirstMile), status, [])
  }

  lemma RoadOpened()
    ensures Next(At(FirstMile, []), ROAD) == At(FirstMile, [Opened(Pending, false)])
  {
  }

  lemma HandedBackMeanwhile() returns (steps: seq<Step>)
    ensures Leads(Empty(), steps, At(WaitingFirstMile, [Opened(Pending, false)]))
  {
    var out := PotShipped();
    LeadsMore(Empty(), out, At(WaitingFirstMile, []), Fulfil(0, WaitingFirstMile, FirstMile), At(FirstMile, []));
    var road := out + [Fulfil(0, WaitingFirstMile, FirstMile)];
    RoadOpened();
    LeadsMore(Empty(), road, At(FirstMile, []), ROAD, At(FirstMile, [Opened(Pending, false)]));
    LeadsMore(Empty(), road + [ROAD], At(FirstMile, [Opened(Pending, false)]), HANDED, At(WaitingFirstMile, [Opened(Pending, false)]));
    steps := road + [ROAD] + [HANDED];
  }

  lemma OpenedPriced()
    ensures Priced(At(WaitingFirstMile, [Opened(Pending, false)]), 0, true, []) == Some(Opened(Approved, true))
  {
    OneRefund(Opened(Pending, false), Reserved);
  }

  lemma OpenedAgreed()
    ensures Next(At(WaitingFirstMile, [Opened(Pending, false)]), Approve(0, WaitingFirstMile, Some(true), false, []))
         == At(AfterSales, [Opened(Approved, true)])
  {
    OpenedPriced();
  }

  lemma OpenedRefused()
    ensures Next(At(AfterSales, [Opened(Approved, true)]), Refuse(0)) == At(FirstMile, [Opened(Failed, true)])
  {
  }

  /**
   The shop's side of the rider's dead end: a refund opened on the road, the order handed back to the
   pool, the refund approved there and refused by the channel. The pool's order is on the road again.
   */
  lemma RefusalRewindsTheDelivery() returns (before: seq<Step>, after: seq<Step>)
    ensures before <= after && HonestRun(Empty(), after)
    ensures |Run(Empty(), before).orders| == |Run(Empty(), after).orders| == 1
    ensures Run(Empty(), before).orders[0].status == WaitingFirstMile && Run(Empty(), after).orders[0].status == FirstMile
    ensures after == before + [Approve(0, WaitingFirstMile, Some(true), false, []), Refuse(0)]
  {
    before := HandedBackMeanwhile();
    OpenedAgreed();
    OpenedRefused();
    var yes := Approve(0, WaitingFirstMile, Some(true), false, []);
    LeadsMore(Empty(), before, At(WaitingFirstMile, [Opened(Pending, false)]), yes, At(AfterSales, [Opened(Approved, true)]));
    LeadsMore(Empty(), before + [yes], At(AfterSales, [Opened(Approved, true)]), Refuse(0), At(FirstMile, [Opened(Failed, true)]));
    after := before + [yes] + [Refuse(0)];
    assert after == before + [yes, Refuse(0)];
  }

  /** From an empty shop: an order that never left the house, and a refund of it that may take the fee back. */
  lemma FeeBackBeforeOutbound() returns (steps: seq<Step>)
    ensures HonestRun(Empty(), steps)
    ensures !PastPool(Empty(), steps, 0)
    ensures var w := Run(Empty(), steps); |w.refunds| == 1 && w.refunds[0].status == Approved && w.refunds[0].withFee
  {
    var fine := ToBought(5);
    PotBought(5);
    WholeAsked();
    WholeAgreed();
    var held := Held([Whole(Pending, false)]);
    LeadsMore(Empty(), fine, InHouse(5, Paid, []), WHOLE, held);
    LeadsMore(Empty(), fine + [WHOLE], held, Yes(0), Held([Whole(Approved, true)]));
    steps := fine + [WHOLE] + [Yes(0)];
    NothingDelivered(Empty(), steps, 0);
  }

  lemma {:induction false} NothingDelivered(w: World, steps: seq<Step>, o: nat)
    requires forall i :: 0 <= i < |steps| ==> !steps[i].Fulfil?
    ensures !PastPool(w, steps, o)
  {
    if steps != [] {
      NothingDelivered(w, steps[..|steps| - 1], o);
    }
  }
}
