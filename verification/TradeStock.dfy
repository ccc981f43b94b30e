/** Payment races, and where the goods are: over every run, stock is taken once, never oversold, never lost. */
module TradeStock {
  import opened Sums
  import opened OrderState
  import opened Inventory
  import opened Trade
  import opened TradeSafety

  // ----- who settles a pending order -----

  /** A step that moves this order out of waiting-for-payment, and says so. */
  predicate Settles(w: World, s: Step, o: nat)
  {
    && Perform(w, s).Committed? && o < |w.orders|
    && (s == CloseStale(o) || (s.Cancel? && s.order == o) || (s.Pay? && s.order == o)
        || (s == Freeze(o) && w.orders[o].status == PendingPayment))
  }

  function Settlements(w: World, steps: seq<Step>, o: nat): nat
  {
    if steps == [] then 0
    else
      var init := steps[..|steps| - 1];
      Settlements(w, init, o) + if Settles(Run(w, init), steps[|steps| - 1], o) then 1 else 0
  }

  function Payments(w: World, steps: seq<Step>, o: nat): nat
  {
    if steps == [] then 0
    else
      var init, last := steps[..|steps| - 1], steps[|steps| - 1];
      Payments(w, init, o) + if last.Pay? && Settles(Run(w, init), last, o) then 1 else 0
  }

  /** Where a settling step takes the order. */
  function SettledAs(s: Step): OrderStatus
  {
    if s.Pay? then Paid else if s.Freeze? then Frozen else Cancelled
  }

  lemma RefundsSparePending(w: World, s: Step, o: nat)
    requires Sound(w) && Honest(w, s) && (IsRefundStep(s) || s.Finish?) && Perform(w, s).Committed?
    requires o < |w.orders| && w.orders[o].status == PendingPayment
    ensures o < |Next(w, s).orders| && Next(w, s).orders[o] == w.orders[o]
  {
    if s.Finish? {
      var k, status, rf := FinishShape(w, s.refund);
    } else {
      var k, status, r, rf := RefundStepShape(w, s);
    }
  }

  lemma ShopStepSettlesOnce(w: World, s: Step, o: nat)
    requires !IsRefundStep(s) && !s.Finish? && Perform(w, s).Committed? && o < |w.orders|
    ensures o < |Next(w, s).orders|
    ensures Settles(w, s, o) ==> w.orders[o].status == PendingPayment
    ensures w.orders[o].status == PendingPayment ==>
              Next(w, s).orders[o].status == if Settles(w, s, o) then SettledAs(s) else PendingPayment
  {
    match s
    case CreateOrder(_, _, _, _, _, _) =>
    case Pay(_, _, _) =>
    case CloseStale(_) =>
    case Cancel(_, _) =>
    case Freeze(_) =>
    case Outbound(_, _) =>
    case Fulfil(_, _, _) =>
    case GrantCoupon =>
    case Stockroom(_) =>
  }

  /** Only a settling step takes a pending order anywhere; nothing settles an order twice. */
  lemma StepSettlesOnce(w: World, s: Step, o: nat)
    requires Sound(w) && Honest(w, s) && o < |w.orders|
    ensures o < |Next(w, s).orders|
    ensures Settles(w, s, o) ==> w.orders[o].status == PendingPayment
    ensures w.orders[o].status == PendingPayment ==>
              Next(w, s).orders[o].status == if Settles(w, s, o) then SettledAs(s) else PendingPayment
  {
    if Perform(w, s).Committed? {
      if IsRefundStep(s) || s.Finish? {
        StepSound(w, s);
        if w.orders[o].status == PendingPayment {
          RefundsSparePending(w, s, o);
        }
      } else {
        ShopStepSettlesOnce(w, s, o);
      }
    }
  }

  /**
   However payments, cancellations, timeouts and freezes of one order interleave, on whatever stale
   reads, at most one of them takes it out of waiting-for-payment; it leaves exactly when one does,
   and it ends up paid exactly when that one was a payment.
   */
  lemma {:induction false} ExactlyOneSettles(w: World, steps: seq<Step>, o: nat)
    requires Sound(w) && HonestRun(w, steps) && o < |w.orders| && w.orders[o].status == PendingPayment
    ensures Sound(Run(w, steps)) && o < |Run(w, steps).orders|
    ensures var status := Run(w, steps).orders[o].status;
            && Settlements(w, steps, o) == (if status == PendingPayment then 0 else 1)
            && Payments(w, steps, o) == (if IsPaid(status) then 1 else 0)
  {
    if steps != [] {
      var init, last := steps[..|steps| - 1], steps[|steps| - 1];
      ExactlyOneSettles(w, init, o);
      var u := Run(w, init);
      StepSound(u, last);
      StepSettlesOnce(u, last, o);
      if u.orders[o].status != PendingPayment {
        UnpaidStaysUnpaid(u, last, o);
      }
    }
  }

  /** An order that was closed or frozen unpaid is never paid later, and a paid one never unpaid. */
  lemma UnpaidStaysUnpaid(w: World, s: Step, o: nat)
    requires Sound(w) && Honest(w, s) && o < |w.orders| && w.orders[o].status != PendingPayment
    ensures o < |Next(w, s).orders| && Next(w, s).orders[o].status != PendingPayment
    ensures IsPaid(Next(w, s).orders[o].status) == IsPaid(w.orders[o].status)
  {
    StepSound(w, s);
    assert Persists(w.orders[o], Next(w, s).orders[o]);
  }

  /** A payment that comes late, comes twice, or was decided on an out-of-date read changes nothing at all. */
  lemma LatePaymentChangesNothing(w: World, o: nat, seen: PaySnapshot, now: int)
    requires o < |w.orders|
    requires w.orders[o].status != PendingPayment || seen.status != PendingPayment
             || now - w.orders[o].createdAt >= PAYMENT_TIMEOUT
    ensures Next(w, Pay(o, seen, now)) == w
  {
  }

  /**
   The payment report around it: money for an order that payment refuses moves that order's status
   and nothing else, from waiting or cancelled to frozen; every other order, all goods, coupons and
   refunds stay. An order paid, delivered or refunded is never frozen.
   */
  lemma RefusedPaymentOnlyFreezes(w: World, o: nat, seen: PaySnapshot, now: int)
    requires o < |w.orders| && DoPay(w, o, seen, now).Rejected?
    ensures var v := HandlePayment(w, o, seen, now);
            var was := w.orders[o].status;
            v == SetStatus(w, o, if was in {PendingPayment, Cancelled} then Frozen else was)
  {
    assert w.orders[o := w.orders[o].(status := w.orders[o].status)] == w.orders;
  }

  // ----- below zero -----

  lemma SalesStayAbove(w: World, s: Step, p: ProductId)
    requires !s.Stockroom? && StockOf(w.stock, p) >= 0
    ensures StockOf(Next(w, s).stock, p) >= 0
  {
    if Perform(w, s).Committed? {
      match s
      case Pay(o, view, now) => PaymentTakesWholeOrder(w, o, view, now, p);
      case Outbound(o, _) => LogOutMovesNothing(w.stock, w.orders[o].lines);
      case Finish(r) => GiveBackReturns(w.stock, w.orders[w.refunds[r].order].lines);
      case _ =>
    }
  }

  /** Of all steps, only a shipment takes a row from not negative to negative, and only headquarters' row of its product. */
  lemma OnlyShipmentsGoBelowZero(w: World, s: Step, p: ProductId)
    requires StockOf(w.stock, p) >= 0 && StockOf(Next(w, s).stock, p) < 0
    ensures s.Stockroom? && s.op.Ship? && p == Mirror(HQ, s.op.official)
  {
    if s.Stockroom? {
      OnlyShippingGoesNegative(w.stock, s.op, p);
    } else {
      SalesStayAbove(w, s, p);
    }
  }

  // ----- what one payment takes -----

  predicate SameGoods(a: seq<Line>, b: seq<Line>)
  {
    |a| == |b| && forall i :: 0 <= i < |a| ==> a[i].product == b[i].product && a[i].quantity == b[i].quantity
  }

  lemma {:induction false} StampKeepsGoods(lines: seq<Line>, products: map<ProductId, Product>)
    requires Stamp(lines, products).Some?
    ensures SameGoods(lines, Stamp(lines, products).value)
  {
    if lines != [] {
      StampKeepsGoods(lines[..|lines| - 1], products);
    }
  }

  lemma {:induction false} SameGoodsSameDemand(a: seq<Line>, b: seq<Line>, p: ProductId)
    requires SameGoods(a, b)
    ensures Demand(a, p) == Demand(b, p)
  {
    if a != [] {
      SameGoodsSameDemand(a[..|a| - 1], b[..|b| - 1], p);
    }
  }

  /** All lines or none: a payment that commits takes the order's whole demand, row by row; any other takes nothing. */
  lemma PaymentTakesWholeOrder(w: World, o: nat, seen: PaySnapshot, now: int, p: ProductId)
    ensures var v := Next(w, Pay(o, seen, now));
            if Perform(w, Pay(o, seen, now)).Committed? then
              var need := Demand(w.orders[o].lines, p);
              && (need > 0 ==> Available(w.stock, p) >= need)
              && StockOf(v.stock, p) == StockOf(w.stock, p) - need
              && SalesOf(v.stock, p) == SalesOf(w.stock, p) + need
              && v.orders[o].status == Paid && Demand(v.orders[o].lines, p) == need
            else v == w
  {
    if Perform(w, Pay(o, seen, now)).Committed? {
      var stamped := Stamp(w.orders[o].lines, seen.products).value;
      StampKeepsGoods(w.orders[o].lines, seen.products);
      SameGoodsSameDemand(w.orders[o].lines, stamped, p);
      SellTakesWholeDemand(w.stock, stamped);
      assert p !in w.stock.products ==> Demand(stamped, p) == 0;
    }
  }

  // ----- conservation -----

  /** Every step keeps every product's balance and every shelf non-negative. */
  lemma StepKeepsBalance(w: World, s: Step, p: ProductId)
    ensures Balance(Next(w, s).stock, p) == Balance(w.stock, p)
    ensures ShelvesNonNegative(w.stock) ==> ShelvesNonNegative(Next(w, s).stock)
  {
    if Perform(w, s).Committed? {
      match s
      case Pay(o, seen, _) => SellKeepsBalance(w.stock, Stamp(w.orders[o].lines, seen.products).value);
      case Outbound(o, _) => LogOutMovesNothing(w.stock, w.orders[o].lines);
      case Stockroom(op) =>
        ApplyKeepsBalance(w.stock, op, p);
        if ShelvesNonNegative(w.stock) { ApplyKeepsShelves(w.stock, op); }
      case Finish(r) => GiveBackKeepsBalance(w.stock, w.orders[w.refunds[r].order].lines);
      case _ =>
    }
  }

  /** Stock plus sales minus ledger never changes over any run, and no shelf outside headquarters goes negative. */
  lemma {:induction false} GoodsAreConserved(w: World, steps: seq<Step>, p: ProductId)
    ensures Balance(Run(w, steps).stock, p) == Balance(w.stock, p)
    ensures ShelvesNonNegative(w.stock) ==> ShelvesNonNegative(Run(w, steps).stock)
  {
    if steps != [] {
      GoodsAreConserved(w, steps[..|steps| - 1], p);
      StepKeepsBalance(Run(w, steps[..|steps| - 1]), steps[|steps| - 1], p);
    }
  }

  // ----- sales are the paid orders -----

  function Claim(o: Order, p: ProductId, returnedToo: bool): nat
  {
    if IsPaid(o.status) && (returnedToo || !o.stockRestored) then Demand(o.lines, p) else 0
  }

  function Claims(orders: seq<Order>, p: ProductId, returnedToo: bool): (s: seq<int>)
    ensures |s| == |orders| && forall i :: 0 <= i < |orders| ==> s[i] == Claim(orders[i], p, returnedToo)
  {
    seq(|orders|, i requires 0 <= i < |orders| => Claim(orders[i], p, returnedToo))
  }

  /** Units of a product in paid orders: all of them, or only those whose goods did not go back. */
  function Sold(w: World, p: ProductId, returnedToo: bool): int
  {
    Sum(Claims(w.orders, p, returnedToo))
  }

  lemma OneClaimChanges(w: World, v: World, i: nat, p: ProductId, returnedToo: bool)
    requires |v.orders| == |w.orders| && i < |w.orders|
    requires forall k :: 0 <= k < |w.orders| && k != i
               ==> Claim(v.orders[k], p, returnedToo) == Claim(w.orders[k], p, returnedToo)
    ensures Sold(v, p, returnedToo) == Sold(w, p, returnedToo)
              - Claim(w.orders[i], p, returnedToo) + Claim(v.orders[i], p, returnedToo)
  {
    SumUpdate(Claims(w.orders, p, returnedToo), i, Claim(v.orders[i], p, returnedToo));
    assert Claims(v.orders, p, returnedToo)
        == Claims(w.orders, p, returnedToo)[i := Claim(v.orders[i], p, returnedToo)];
  }

  lemma RewriteKeepsClaims(w: World, o: nat, status: OrderStatus, r: nat, rf: Refund, p: ProductId, returnedToo: bool)
    requires o < |w.orders| && r <= |w.refunds| && IsPaid(w.orders[o].status) && IsPaid(status)
    ensures Sold(Rewrite(w, o, status, r, rf), p, returnedToo) == Sold(w, p, returnedToo)
  {
    OneClaimChanges(w, Rewrite(w, o, status, r, rf), o, p, returnedToo);
  }

  lemma StatusStepKeepsClaims(w: World, o: nat, status: OrderStatus, p: ProductId, returnedToo: bool)
    requires o < |w.orders| && IsPaid(w.orders[o].status) == IsPaid(status)
    ensures Sold(SetStatus(w, o, status), p, returnedToo) == Sold(w, p, returnedToo)
  {
    OneClaimChanges(w, SetStatus(w, o, status), o, p, returnedToo);
  }

  lemma SameOrdersSameClaims(w: World, v: World, p: ProductId, returnedToo: bool)
    requires v.orders == w.orders
    ensures Sold(v, p, returnedToo) == Sold(w, p, returnedToo)
  {
  }

  lemma NewOrderKeepsClaims(w: World, v: World, o: Order, p: ProductId, returnedToo: bool)
    requires v.orders == w.orders + [o] && !IsPaid(o.status)
    ensures Sold(v, p, returnedToo) == Sold(w, p, returnedToo)
  {
    assert Claims(v.orders, p, returnedToo) == Claims(w.orders, p, returnedToo) + [0];
    SumAppend(Claims(w.orders, p, returnedToo), 0);
  }

  /** The steps that only move one order's status, beside a coupon or a note. */
  lemma MoveKeepsClaims(w: World, s: Step, p: ProductId, returnedToo: bool)
    requires (s.CloseStale? || s.Cancel? || s.Freeze? || s.Outbound? || s.Fulfil?) && Perform(w, s).Committed?
    ensures Sold(Next(w, s), p, returnedToo) == Sold(w, p, returnedToo)
  {
    var v, o := Next(w, s), s.order;
    StatusStepKeepsClaims(w, o, v.orders[o].status, p, returnedToo);
    SameOrdersSameClaims(SetStatus(w, o, v.orders[o].status), v, p, returnedToo);
  }

  lemma ShopStepKeepsClaims(w: World, s: Step, p: ProductId, returnedToo: bool)
    requires Sound(w) && !IsRefundStep(s) && !s.Pay? && !s.Finish? && Perform(w, s).Committed?
    ensures Sold(Next(w, s), p, returnedToo) == Sold(w, p, returnedToo)
    ensures SalesOf(Next(w, s).stock, p) == SalesOf(w.stock, p)
  {
    var v := Next(w, s);
    if s.CreateOrder? {
      NewOrderKeepsClaims(w, v, v.orders[|w.orders|], p, returnedToo);
    } else if s.GrantCoupon? || s.Stockroom? {
      SameOrdersSameClaims(w, v, p, returnedToo);
      if s.Stockroom? { ApplyKeepsSales(w.stock, s.op, p); }
    } else {
      MoveKeepsClaims(w, s, p, returnedToo);
      if s.Outbound? { LogOutMovesNothing(w.stock, w.orders[s.order].lines); }
    }
  }

  lemma ApplyKeepsSales(inv: Goods, op: StockOp, p: ProductId)
    requires Apply(inv, op).Some?
    ensures SalesOf(Apply(inv, op).value, p) == SalesOf(inv, p)
  {
  }

  /** Every step but a payment and a return keeps each order's claim on sales, and sales themselves. */
  lemma OtherStepsKeepClaims(w: World, s: Step, p: ProductId, returnedToo: bool)
    requires Sound(w) && Honest(w, s) && !s.Pay? && !s.Finish?
    ensures Sold(Next(w, s), p, returnedToo) == Sold(w, p, returnedToo)
    ensures SalesOf(Next(w, s).stock, p) == SalesOf(w.stock, p)
  {
    if Perform(w, s).Committed? {
      if IsRefundStep(s) {
        var o, status, r, rf := RefundStepShape(w, s);
        RewriteKeepsClaims(w, o, status, r, rf, p, returnedToo);
      } else {
        ShopStepKeepsClaims(w, s, p, returnedToo);
      }
    }
  }

  lemma PaymentAddsClaim(w: World, s: Step, p: ProductId, returnedToo: bool)
    requires Sound(w) && s.Pay?
    ensures Sold(Next(w, s), p, returnedToo) - SalesOf(Next(w, s).stock, p)
         == Sold(w, p, returnedToo) - SalesOf(w.stock, p)
  {
    PaymentTakesWholeOrder(w, s.order, s.view, s.now, p);
    if Perform(w, s).Committed? {
      assert OrderSound(w, w.orders[s.order]);
      OneClaimChanges(w, Next(w, s), s.order, p, returnedToo);
    }
  }

  /** Will settling this refund put its order's goods back? */
  predicate PutsGoodsBack(w: World, r: nat)
  {
    IsRefund(w, r) && w.refunds[r].source == PreDelivery && !w.orders[w.refunds[r].order].stockRestored
  }

  /** The units of a product that settling this refund puts back on the shelf. */
  function UnitsBack(w: World, r: nat, p: ProductId): nat
  {
    if DoFinish(w, r).Committed? && PutsGoodsBack(w, r) then Returned(w.stock, w.orders[w.refunds[r].order].lines, p) else 0
  }

  /** Settling a refund returns goods only for a whole-order refund whose order has not returned them, and at most its own. */
  lemma FinishReturnsAtMostOnce(w: World, r: nat, p: ProductId)
    requires Sound(w)
    ensures var v := Next(w, Finish(r));
            var back := SalesOf(w.stock, p) - SalesOf(v.stock, p);
            && back == StockOf(v.stock, p) - StockOf(w.stock, p) == UnitsBack(w, r, p)
            && 0 <= back <= (if PutsGoodsBack(w, r) then Demand(w.orders[w.refunds[r].order].lines, p) else 0)
  {
    if DoFinish(w, r).Committed? {
      var o, status, rf := FinishShape(w, r);
      if PutsGoodsBack(w, r) {
        GiveBackMoves(w.stock, w.orders[o].lines, p);
      } else {
        assert DoFinish(w, r).world.stock == w.stock;
      }
    }
  }

  lemma GiveBackMoves(inv: Goods, lines: seq<Line>, p: ProductId)
    ensures StockOf(GiveBack(inv, lines), p) == StockOf(inv, p) + Returned(inv, lines, p)
    ensures SalesOf(GiveBack(inv, lines), p) == SalesOf(inv, p) - Returned(inv, lines, p)
  {
    GiveBackReturns(inv, lines);
    if p !in inv.products { NothingReturnsElsewhere(inv, lines, p); }
  }

  lemma FinishDropsClaim(w: World, r: nat, p: ProductId)
    requires Sound(w)
    ensures DoFinish(w, r).Committed? ==>
              var v := DoFinish(w, r).world;
              && IsRefund(w, r)
              && Sold(v, p, true) == Sold(w, p, true)
              && Sold(v, p, false) == Sold(w, p, false)
                   - (if PutsGoodsBack(w, r) then Demand(w.orders[w.refunds[r].order].lines, p) else 0)
              && (w.refunds[r].source == PreDelivery ==> v.orders[w.refunds[r].order].stockRestored)
  {
    if DoFinish(w, r).Committed? {
      var o, status, rf := FinishShape(w, r);
      var v := DoFinish(w, r).world;
      OneClaimChanges(w, v, o, p, true);
      OneClaimChanges(w, v, o, p, false);
    }
  }

  lemma {:induction false} NothingReturnsElsewhere(inv: Goods, lines: seq<Line>, p: ProductId)
    requires p !in inv.products
    ensures Returned(inv, lines, p) == 0
  {
    if lines != [] {
      NothingReturnsElsewhere(inv, lines[..|lines| - 1], p);
    }
  }

  /** Sales cover every paid order still out, and no more than all paid orders, above a fixed start. */
  predicate SalesMatch(w: World, p: ProductId, start: int)
  {
    start + Sold(w, p, false) <= SalesOf(w.stock, p) <= start + Sold(w, p, true)
  }

  lemma StepKeepsSalesMatch(w: World, s: Step, p: ProductId, start: int)
    requires Sound(w) && Honest(w, s) && SalesMatch(w, p, start)
    ensures SalesMatch(Next(w, s), p, start)
  {
    if s.Pay? {
      PaymentAddsClaim(w, s, p, false);
      PaymentAddsClaim(w, s, p, true);
    } else if s.Finish? {
      if Perform(w, s).Committed? {
        FinishReturnsAtMostOnce(w, s.refund, p);
        FinishDropsClaim(w, s.refund, p);
      }
    } else {
      OtherStepsKeepClaims(w, s, p, false);
      OtherStepsKeepClaims(w, s, p, true);
    }
  }

  /** Over every run: what was given back never exceeds what was sold, so sales never go below zero. */
  lemma {:induction false} SalesNeverNegative(w: World, steps: seq<Step>, p: ProductId, start: int)
    requires Sound(w) && HonestRun(w, steps) && SalesMatch(w, p, start)
    ensures Sound(Run(w, steps)) && SalesMatch(Run(w, steps), p, start)
    ensures start >= 0 ==> SalesOf(Run(w, steps).stock, p) >= 0
  {
    if steps != [] {
      var init, last := steps[..|steps| - 1], steps[|steps| - 1];
      SalesNeverNegative(w, init, p, start);
      StepSound(Run(w, init), last);
      StepKeepsSalesMatch(Run(w, init), last, p, start);
    }
    var v := Run(w, steps);
    SumNonNegative(Claims(v.orders, p, false));
  }

  /** Units of a product put back over a run, settlement by settlement. */
  function GivenBack(w: World, steps: seq<Step>, p: ProductId): nat
  {
    if steps == [] then 0
    else
      var init, last := steps[..|steps| - 1], steps[|steps| - 1];
      GivenBack(w, init, p) + if last.Finish? then UnitsBack(Run(w, init), last.refund, p) else 0
  }

  lemma StepMovesSales(w: World, s: Step, p: ProductId)
    requires Sound(w) && Honest(w, s)
    ensures SalesOf(Next(w, s).stock, p) - Sold(Next(w, s), p, true)
         == SalesOf(w.stock, p) - Sold(w, p, true) - if s.Finish? then UnitsBack(w, s.refund, p) else 0
  {
    if s.Pay? {
      PaymentAddsClaim(w, s, p, true);
    } else if s.Finish? {
      FinishReturnsAtMostOnce(w, s.refund, p);
      FinishDropsClaim(w, s.refund, p);
    } else {
      OtherStepsKeepClaims(w, s, p, true);
    }
  }

  /**
   Every unit of stock that leaves by sale belongs to exactly one paid order: over every run, sales
   move by precisely the demand of the orders that became paid less the units that refunds put back.
   */
  lemma {:induction false} EverySaleIsOnePaidOrder(w: World, steps: seq<Step>, p: ProductId)
    requires Sound(w) && HonestRun(w, steps)
    ensures Sound(Run(w, steps))
    ensures SalesOf(Run(w, steps).stock, p) - SalesOf(w.stock, p)
         == Sold(Run(w, steps), p, true) - Sold(w, p, true) - GivenBack(w, steps, p)
  {
    if steps != [] {
      var init, last := steps[..|steps| - 1], steps[|steps| - 1];
      EverySaleIsOnePaidOrder(w, init, p);
      StepSound(Run(w, init), last);
      StepMovesSales(Run(w, init), last, p);
    }
  }

  // ----- settling a refund, once -----

  lemma FinishedStays(w: World, s: Step, r: nat)
    requires Sound(w) && Honest(w, s) && r < |w.refunds| && w.refunds[r].status == Finished
    ensures r < |Next(w, s).refunds| && Next(w, s).refunds[r] == w.refunds[r]
  {
    if Perform(w, s).Committed? {
      if IsRefundStep(s) {
        var o, status, k, rf := RefundStepShape(w, s);
      } else if s.Finish? {
        var o, status, rf := FinishShape(w, s.refund);
      }
    }
  }

  /** A settled refund stays as it is, whatever happens next; reporting success again is a no-op. */
  lemma {:induction false} FinishedIsFinal(w: World, steps: seq<Step>, r: nat)
    requires Sound(w) && HonestRun(w, steps) && r < |w.refunds| && w.refunds[r].status == Finished
    ensures Sound(Run(w, steps)) && r < |Run(w, steps).refunds| && Run(w, steps).refunds[r] == w.refunds[r]
    ensures Next(Run(w, steps), Finish(r)) == Run(w, steps)
  {
    if steps != [] {
      var init, last := steps[..|steps| - 1], steps[|steps| - 1];
      FinishedIsFinal(w, init, r);
      StepSound(Run(w, init), last);
      FinishedStays(Run(w, init), last, r);
    }
    assert RefundSound(Run(w, steps), Run(w, steps).refunds[r]);
  }

  /** Goods go back at this step. */
  predicate ReturnsGoodsOf(w: World, s: Step, o: nat)
  {
    s.Finish? && Perform(w, s).Committed? && IsRefund(w, s.refund) && w.refunds[s.refund].order == o
    && w.refunds[s.refund].source == PreDelivery && o < |w.orders| && !w.orders[o].stockRestored
  }

  function Returns(w: World, steps: seq<Step>, o: nat): nat
  {
    if steps == [] then 0
    else
      var init := steps[..|steps| - 1];
      Returns(w, init, o) + if ReturnsGoodsOf(Run(w, init), steps[|steps| - 1], o) then 1 else 0
  }

  /** Each order gives its goods back at most once, however many refunds and callbacks it sees. */
  lemma {:induction false} GoodsReturnOnce(w: World, steps: seq<Step>, o: nat)
    requires Sound(w) && HonestRun(w, steps) && o < |w.orders|
    ensures Sound(Run(w, steps)) && o < |Run(w, steps).orders|
    ensures Returns(w, steps, o) <= 1
    ensures Returns(w, steps, o) == 1 ==> Run(w, steps).orders[o].stockRestored
    ensures w.orders[o].stockRestored ==> Returns(w, steps, o) == 0 && Run(w, steps).orders[o].stockRestored
  {
    if steps != [] {
      var init, last := steps[..|steps| - 1], steps[|steps| - 1];
      GoodsReturnOnce(w, init, o);
      var u := Run(w, init);
      StepSound(u, last);
      assert Persists(u.orders[o], Next(u, last).orders[o]);
    }
  }
}
