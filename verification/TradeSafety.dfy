/** What every step of the trade machine keeps, and with it every run. */
module TradeSafety {
  import opened Sums
  import opened OrderState
  import opened Inventory
  import opened Trade

  // ----- references and amounts -----

  predicate OrderSound(w: World, o: Order)
  {
    (o.coupon.Some? ==> o.coupon.value < |w.coupons|) && (o.stockRestored ==> IsPaid(o.status))
  }

  /** A refund belongs to an order that was paid, is worth something, and remembers a status to go back to. */
  predicate RefundSound(w: World, rf: Refund)
  {
    && rf.order < |w.orders|
    && IsPaid(w.orders[rf.order].status)
    && rf.amount >= 1
    && (rf.before.Some? ==> RestoreTarget(rf.before) == rf.before.value)
    && (rf.source == PreDelivery ==> rf.before.Some? && PreDeliveryRefundable(rf.before.value))
  }

  ghost predicate Sound(w: World)
  {
    && (forall o :: 0 <= o < |w.orders| ==> OrderSound(w, w.orders[o]))
    && (forall r :: 0 <= r < |w.refunds| ==> RefundSound(w, w.refunds[r]))
  }

  /** What never changes about an order, and the one-way door of payment. */
  predicate Persists(a: Order, b: Order)
  {
    && b.coupon == a.coupon && b.goods == a.goods && b.fee == a.fee && b.payable == a.payable
    && b.createdAt == a.createdAt
    && (IsPaid(a.status) ==> IsPaid(b.status))
    && (a.status == Cancelled ==> b.status in {Cancelled, Frozen})
    && (a.status == Frozen ==> b.status == Frozen)
    && (a.stockRestored ==> b.stockRestored)
  }

  ghost predicate Evolves(w: World, v: World)
  {
    && |w.orders| <= |v.orders| && |w.coupons| <= |v.coupons| && |w.refunds| <= |v.refunds|
    && (forall o :: 0 <= o < |w.orders| ==> Persists(w.orders[o], v.orders[o]))
  }

  /** The steps that write through `Rewrite`, and the order, status and row they write. */
  predicate IsRefundStep(s: Step)
  {
    s.RequestRefund? || s.OpenWholeRefund? || s.OpenGoodsRefund? || s.Withdraw? || s.Deny? || s.Approve?
    || s.Accept? || s.Refuse? || s.Processing? || s.Close?
  }

  /** A row may keep counting, stop counting, or start counting under the ceiling it was approved with. */
  predicate StaysUnderCeiling(w: World, o: nat, r: nat, rf: Refund)
    requires o < |w.orders| && r <= |w.refunds|
  {
    || !Counts(Active, rf)
    || (r < |w.refunds| && Counts(Active, w.refunds[r]) && rf.amount == w.refunds[r].amount && rf.withFee == w.refunds[r].withFee)
    || (r < |w.refunds| && !Counts(Active, w.refunds[r])
        && rf.amount + RefundTotal(w.refunds, Reserved, o) - Share(Reserved, o, w.refunds[r])
             <= RefundCeiling(w.orders[o].payable, w.orders[o].fee, rf.withFee))
  }

  /** Every refund step is one lawful rewrite. */
  lemma RefundStepShape(w: World, s: Step) returns (o: nat, status: OrderStatus, r: nat, rf: Refund)
    requires Sound(w) && Honest(w, s) && IsRefundStep(s) && Perform(w, s).Committed?
    ensures o < |w.orders| && r <= |w.refunds| && Next(w, s) == Rewrite(w, o, status, r, rf)
    ensures IsPaid(w.orders[o].status) && IsPaid(status) && RefundSound(w, rf) && rf.order == o
    ensures r < |w.refunds| ==> w.refunds[r].order == o && w.refunds[r].status != Finished
    ensures rf.status != Finished && StaysUnderCeiling(w, o, r, rf)
    ensures if s.RequestRefund? || s.OpenWholeRefund? || s.OpenGoodsRefund? then o == s.order else r == s.refund < |w.refunds|
  {
    match s
    case RequestRefund(_, _, _, _) => o, status, r, rf := RequestShape(w, s);
    case OpenWholeRefund(_, _, _) => o, status, r, rf := RequestShape(w, s);
    case OpenGoodsRefund(_, _, _) => o, status, r, rf := RequestShape(w, s);
    case Approve(_, _, _, _, _) => o, status, r, rf := ApproveShape(w, s);
    case _ => o, status, r, rf := ProgressShape(w, s);
  }

  lemma ProgressShape(w: World, s: Step) returns (o: nat, status: OrderStatus, r: nat, rf: Refund)
    requires Sound(w) && (s.Withdraw? || s.Deny? || s.Accept? || s.Refuse? || s.Processing? || s.Close?)
    requires Honest(w, s) && Perform(w, s).Committed?
    ensures o < |w.orders| && r < |w.refunds| && Next(w, s) == Rewrite(w, o, status, r, rf)
    ensures IsPaid(w.orders[o].status) && IsPaid(status) && RefundSound(w, rf) && rf.order == o
    ensures w.refunds[r].order == o && w.refunds[r].status != Finished
    ensures r == s.refund && rf.status in {Withdrawn, Denied, Refunding, Failed}
    ensures rf == w.refunds[r].(status := rf.status) && (Counts(Active, rf) ==> Counts(Active, w.refunds[r]))
  {
    r := s.refund;
    var was := w.refunds[r];
    assert RefundSound(w, was);
    o := was.order;
    var now := w.orders[o].status;
    match s
    case Withdraw(_) => status, rf := PutBack(now, WithdrawTarget(was.before)), was.(status := Withdrawn);
    case Deny(_) => status, rf := PutBack(now, RestoreTarget(was.before)), was.(status := Denied);
    case Accept(_) => status, rf := now, was.(status := Refunding);
    case Refuse(_) => status, rf := PutBack(now, RestoreTarget(was.before)), was.(status := Failed);
    case Processing(_) => status, rf := AfterSales, was.(status := Refunding);
    case Close(_) => status, rf := PutBack(now, RestoreTarget(was.before)), was.(status := Failed);
  }

  lemma RequestShape(w: World, s: Step) returns (o: nat, status: OrderStatus, r: nat, rf: Refund)
    requires Sound(w) && Honest(w, s) && (s.RequestRefund? || s.OpenWholeRefund? || s.OpenGoodsRefund?)
    requires Perform(w, s).Committed?
    ensures o < |w.orders| && r == |w.refunds| && Next(w, s) == Rewrite(w, o, status, r, rf)
    ensures IsPaid(w.orders[o].status) && IsPaid(status) && RefundSound(w, rf) && rf.order == o
    ensures o == s.order && rf.status == Pending
  {
    var v := Next(w, s);
    o, r := s.order, |w.refunds|;
    status, rf := v.orders[o].status, v.refunds[r];
  }

  lemma ApproveShape(w: World, s: Step) returns (o: nat, status: OrderStatus, r: nat, rf: Refund)
    requires Sound(w) && s.Approve? && Perform(w, s).Committed?
    ensures o < |w.orders| && r < |w.refunds| && Next(w, s) == Rewrite(w, o, status, r, rf)
    ensures IsPaid(w.orders[o].status) && IsPaid(status) && RefundSound(w, rf) && rf.order == o
    ensures w.refunds[r].order == o && w.refunds[r].status != Finished
    ensures r == s.refund && rf.status != Finished && StaysUnderCeiling(w, o, r, rf)
  {
    r := s.refund;
    assert RefundSound(w, w.refunds[r]);
    o := w.refunds[r].order;
    var v := Next(w, s);
    status, rf := v.orders[o].status, v.refunds[r];
  }

  lemma RewriteSound(w: World, o: nat, status: OrderStatus, r: nat, rf: Refund)
    requires Sound(w) && o < |w.orders| && r <= |w.refunds|
    requires IsPaid(w.orders[o].status) && IsPaid(status) && RefundSound(w, rf)
    ensures Sound(Rewrite(w, o, status, r, rf)) && Evolves(w, Rewrite(w, o, status, r, rf))
  {
    var v := Rewrite(w, o, status, r, rf);
    forall k | 0 <= k < |v.refunds| ensures RefundSound(v, v.refunds[k]) {
      assert v.refunds[k] == rf || (k < |w.refunds| && v.refunds[k] == w.refunds[k] && RefundSound(w, w.refunds[k]));
    }
  }

  /** Replacing one order, or adding an unpaid one, is harmless to every reference. */
  lemma OrdersSound(w: World, v: World)
    requires Sound(w) && Evolves(w, v) && v.refunds == w.refunds
    requires forall o :: 0 <= o < |v.orders| ==> OrderSound(v, v.orders[o])
    ensures Sound(v)
  {
    forall k | 0 <= k < |v.refunds| ensures RefundSound(v, v.refunds[k]) {
      assert RefundSound(w, w.refunds[k]);
    }
  }

  lemma FinishShape(w: World, r: nat) returns (o: nat, status: OrderStatus, rf: Refund)
    requires Sound(w) && DoFinish(w, r).Committed?
    ensures IsRefund(w, r) && o == w.refunds[r].order && rf == w.refunds[r].(status := Finished)
    ensures w.refunds[r].status != Finished
    ensures status == if IsWhole(w, r) then OrderStatus.Refunded else RestoreTarget(rf.before)
    ensures IsPaid(w.orders[o].status) && IsPaid(status) && RefundSound(w, rf)
    ensures DoFinish(w, r).world == if rf.source == PreDelivery
              then ReturnGoods(Rewrite(w, o, status, r, rf), o) else Rewrite(w, o, status, r, rf)
  {
    assert RefundSound(w, w.refunds[r]);
    o := w.refunds[r].order;
    rf := w.refunds[r].(status := Finished);
    status := if IsWhole(w, r) then OrderStatus.Refunded else RestoreTarget(rf.before);
  }

  lemma StepSound(w: World, s: Step)
    requires Sound(w) && Honest(w, s)
    ensures Sound(Next(w, s)) && Evolves(w, Next(w, s))
  {
    var v := Next(w, s);
    if !Perform(w, s).Committed? {
    } else if IsRefundStep(s) {
      var o, status, r, rf := RefundStepShape(w, s);
      RewriteSound(w, o, status, r, rf);
    } else if s.Finish? {
      var o, status, rf := FinishShape(w, s.refund);
      RewriteSound(w, o, status, s.refund, rf);
      if rf.source == PreDelivery {
        var u := Rewrite(w, o, status, s.refund, rf);
        assert Evolves(u, v);
        OrdersSound(u, v);
      }
    } else {
      ShopStepSound(w, s);
    }
  }

  /** A step that moves one order's status along, beside coupons and stock. */
  lemma MoveSound(w: World, v: World, o: nat, status: OrderStatus)
    requires Sound(w) && o < |w.orders| && v.refunds == w.refunds && |v.coupons| == |w.coupons|
    requires v.orders == w.orders[o := w.orders[o].(status := status)]
    requires IsPaid(status) == IsPaid(w.orders[o].status)
    requires w.orders[o].status == Cancelled ==> status in {Cancelled, Frozen}
    requires w.orders[o].status == Frozen ==> status == Frozen
    ensures Sound(v) && Evolves(w, v)
  {
    OrdersSound(w, v);
  }

  lemma ShopStepSound(w: World, s: Step)
    requires Sound(w) && !IsRefundStep(s) && !s.Finish? && Perform(w, s).Committed?
    ensures Sound(Next(w, s)) && Evolves(w, Next(w, s))
  {
    var v := Next(w, s);
    if s.CreateOrder? || s.Pay? || s.GrantCoupon? || s.Stockroom? {
      OrdersSound(w, v);
    } else {
      MoveSound(w, v, s.order, v.orders[s.order].status);
    }
  }

  lemma {:induction false} RunEvolves(w: World, steps: seq<Step>)
    requires Sound(w) && HonestRun(w, steps)
    ensures Sound(Run(w, steps)) && Evolves(w, Run(w, steps))
  {
    if steps != [] {
      var init, last := steps[..|steps| - 1], steps[|steps| - 1];
      RunEvolves(w, init);
      var u := Run(w, init);
      StepSound(u, last);
      forall o | 0 <= o < |w.orders| ensures Persists(w.orders[o], Next(u, last).orders[o]) {
        assert Persists(w.orders[o], u.orders[o]) && Persists(u.orders[o], Next(u, last).orders[o]);
      }
    }
  }

  /** Whatever a run did since an order was read paid and undelivered, opening a whole-order refund on that read is honest. */
  lemma EarlierReadIsHonest(w: World, steps: seq<Step>, o: nat, listed: seq<Refund>)
    requires Sound(w) && HonestRun(w, steps) && o < |w.orders|
    ensures Honest(Run(w, steps), OpenWholeRefund(o, w.orders[o].status, listed))
  {
    RunEvolves(w, steps);
    assert Persists(w.orders[o], Run(w, steps).orders[o]);
  }
}
