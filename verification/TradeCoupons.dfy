/** A coupon is held by at most one order at a time, and its status says how. */
module TradeCoupons {
  import opened Sums
  import opened OrderState
  import opened Trade
  import opened TradeSafety

  /** An order holds its coupon while it waits for payment, and after payment until its goods are returned. */
  predicate Holds(o: Order, c: nat)
  {
    o.coupon == Some(c) && (o.status == PendingPayment || (IsPaid(o.status) && !o.stockRestored))
  }

  function HeldStatus(o: Order): CouponStatus
  {
    if o.status == PendingPayment then Locked else Used
  }

  /** No two orders hold one coupon, and a held coupon's status is its holder's. */
  ghost predicate HoldersAgree(w: World)
  {
    && (forall o, c :: 0 <= o < |w.orders| && 0 <= c < |w.coupons| && Holds(w.orders[o], c)
          ==> w.coupons[c] == HeldStatus(w.orders[o]))
    && (forall o, k, c :: 0 <= o < k < |w.orders| && 0 <= c < |w.coupons| && Holds(w.orders[o], c)
          ==> !Holds(w.orders[k], c))
  }

  /** Every coupon in use has a holder. */
  ghost predicate NoneStranded(w: World)
  {
    forall c :: 0 <= c < |w.coupons| && w.coupons[c] in {Locked, Used} ==> exists o :: 0 <= o < |w.orders| && Holds(w.orders[o], c)
  }

  ghost predicate CouponsSettled(w: World)
  {
    HoldersAgree(w) && NoneStranded(w)
  }

  /** The reading of the invariant: locked means one unpaid order carries it, used means one paid order does. */
  lemma CouponStatusMeans(w: World, c: nat)
    requires Sound(w) && CouponsSettled(w) && c < |w.coupons|
    ensures w.coupons[c] == Locked <==>
            exists o :: 0 <= o < |w.orders| && Holds(w.orders[o], c) && w.orders[o].status == PendingPayment
    ensures w.coupons[c] == Used <==>
            exists o :: 0 <= o < |w.orders| && Holds(w.orders[o], c) && w.orders[o].status != PendingPayment
    ensures forall o, k :: (0 <= o < |w.orders| && 0 <= k < |w.orders|
                            && Holds(w.orders[o], c) && Holds(w.orders[k], c)) ==> o == k
  {
    if w.coupons[c] in {Locked, Used} {
      var o :| 0 <= o < |w.orders| && Holds(w.orders[o], c);
      assert w.coupons[c] == HeldStatus(w.orders[o]);
    }
  }

  /** Orders that keep their coupon, and hold it as before or not. */
  predicate SameHold(a: Order, b: Order)
  {
    && a.coupon == b.coupon && a.stockRestored == b.stockRestored
    && (a.status == PendingPayment <==> b.status == PendingPayment)
    && (IsPaid(a.status) <==> IsPaid(b.status))
  }

  lemma QuietStep(w: World, v: World)
    requires HoldersAgree(w) && v.coupons == w.coupons && |v.orders| == |w.orders|
    requires forall o :: 0 <= o < |w.orders| ==> SameHold(w.orders[o], v.orders[o])
    ensures HoldersAgree(v) && (NoneStranded(w) ==> NoneStranded(v))
  {
    forall o, c | 0 <= o < |v.orders| && 0 <= c < |v.coupons|
      ensures Holds(v.orders[o], c) == Holds(w.orders[o], c)
    {
      assert SameHold(w.orders[o], v.orders[o]);
    }
    forall o, c | 0 <= o < |v.orders| && 0 <= c < |v.coupons| && Holds(v.orders[o], c)
      ensures v.coupons[c] == HeldStatus(v.orders[o])
    {
      assert SameHold(w.orders[o], v.orders[o]) && Holds(w.orders[o], c);
    }
    SameHoldersNoneStranded(w, v);
  }

  lemma SameHoldersNoneStranded(w: World, v: World)
    requires v.coupons == w.coupons && |v.orders| == |w.orders|
    requires forall o, c :: 0 <= o < |v.orders| && 0 <= c < |v.coupons| ==> Holds(v.orders[o], c) == Holds(w.orders[o], c)
    ensures NoneStranded(w) ==> NoneStranded(v)
  {
    if NoneStranded(w) {
      forall c | 0 <= c < |v.coupons| && v.coupons[c] in {Locked, Used}
        ensures exists o :: 0 <= o < |v.orders| && Holds(v.orders[o], c)
      {
        var o :| 0 <= o < |w.orders| && Holds(w.orders[o], c);
        assert Holds(v.orders[o], c);
      }
    }
  }

  /** One order changes how it holds its coupon, and the coupon's status follows. */
  lemma OneOrderMoves(w: World, v: World, i: nat, next: CouponStatus)
    requires Sound(w) && HoldersAgree(w) && i < |w.orders|
    requires |v.orders| == |w.orders| && v.orders == w.orders[i := v.orders[i]] && v.orders[i].coupon == w.orders[i].coupon
    requires w.orders[i].coupon.Some? ==> Holds(w.orders[i], w.orders[i].coupon.value)
    requires v.coupons == if w.orders[i].coupon.Some? then w.coupons[w.orders[i].coupon.value := next] else w.coupons
    requires w.orders[i].coupon.Some? ==>
               if Holds(v.orders[i], v.orders[i].coupon.value) then next == HeldStatus(v.orders[i])
               else next !in {Locked, Used}
    ensures HoldersAgree(v) && (NoneStranded(w) ==> NoneStranded(v))
  {
    if NoneStranded(w) {
      forall c | 0 <= c < |v.coupons| && v.coupons[c] in {Locked, Used}
        ensures exists o :: 0 <= o < |v.orders| && Holds(v.orders[o], c)
      {
        if w.orders[i].coupon == Some(c) {
          assert Holds(v.orders[i], c);
        } else {
          var o :| 0 <= o < |w.orders| && Holds(w.orders[o], c);
          assert Holds(v.orders[o], c);
        }
      }
    }
    forall o, c | 0 <= o < |v.orders| && 0 <= c < |v.coupons| && Holds(v.orders[o], c)
      ensures v.coupons[c] == HeldStatus(v.orders[o])
    {
      if o != i {
        assert Holds(w.orders[o], c);
        assert w.orders[i].coupon != Some(c);
      }
    }
    forall o, c: nat | 0 <= o < |w.orders| && Holds(v.orders[o], c)
      ensures Holds(w.orders[o], c)
    {
    }
  }

  lemma NewOrderLocks(w: World, v: World, o: Order)
    requires Sound(w) && HoldersAgree(w) && v.orders == w.orders + [o] && o.status == PendingPayment
    requires o.coupon.Some? ==> o.coupon.value < |w.coupons| && w.coupons[o.coupon.value] in {Claimed, Released}
    requires v.coupons == if o.coupon.Some? then w.coupons[o.coupon.value := Locked] else w.coupons
    ensures HoldersAgree(v) && (NoneStranded(w) ==> NoneStranded(v))
  {
    if NoneStranded(w) {
      forall c | 0 <= c < |v.coupons| && v.coupons[c] in {Locked, Used}
        ensures exists k :: 0 <= k < |v.orders| && Holds(v.orders[k], c)
      {
        if o.coupon == Some(c) {
          assert Holds(v.orders[|w.orders|], c);
        } else {
          var k :| 0 <= k < |w.orders| && Holds(w.orders[k], c);
          assert Holds(v.orders[k], c);
        }
      }
    }
    forall k, c | 0 <= k < |v.orders| && 0 <= c < |v.coupons| && Holds(v.orders[k], c)
      ensures v.coupons[c] == HeldStatus(v.orders[k])
    {
      if k < |w.orders| {
        assert Holds(w.orders[k], c) && w.coupons[c] == HeldStatus(w.orders[k]);
      }
    }
    forall k, m, c | 0 <= k < m < |v.orders| && 0 <= c < |v.coupons| && Holds(v.orders[k], c)
      ensures !Holds(v.orders[m], c)
    {
      assert Holds(w.orders[k], c) && w.coupons[c] == HeldStatus(w.orders[k]);
    }
  }

  /**
   What the settling caller could check: a whole-order refund releases the order's coupon every time,
   also when the goods went back before and the coupon may by now be with another order.
   */
  predicate ReleasesAgain(w: World, s: Step)
  {
    && s.Finish? && DoFinish(w, s.refund).Committed? && IsRefund(w, s.refund)
    && var rf := w.refunds[s.refund];
       var ord := w.orders[rf.order];
       && rf.source == PreDelivery && ord.stockRestored
       && ord.coupon.Some? && ord.coupon.value < |w.coupons| && w.coupons[ord.coupon.value] in {Locked, Used}
  }

  /**
   A payment report for an order that payment refuses freezes it; an order frozen while it still
   waited for payment takes its locked coupon along.
   */
  predicate FreezesLocked(w: World, s: Step)
  {
    s.Freeze? && s.order < |w.orders| && w.orders[s.order].status == PendingPayment && w.orders[s.order].coupon.Some?
  }

  lemma FinishSettles(w: World, r: nat)
    requires Sound(w) && HoldersAgree(w) && DoFinish(w, r).Committed? && !ReleasesAgain(w, Finish(r))
    ensures var v := Next(w, Finish(r)); HoldersAgree(v) && (NoneStranded(w) ==> NoneStranded(v))
  {
    var o, status, rf := FinishShape(w, r);
    var u, v := Rewrite(w, o, status, r, rf), Next(w, Finish(r));
    QuietStep(w, u);
    if rf.source == PreDelivery {
      var ord := w.orders[o];
      if ord.stockRestored || ord.coupon.None? {
        assert v.coupons == w.coupons;
        QuietHolds(u, v, o);
      } else {
        RewriteSound(w, o, status, r, rf);
        assert OrderSound(w, ord) && Holds(ord, ord.coupon.value);
        assert w.coupons[ord.coupon.value] == Used;
        OneOrderMoves(u, v, o, Released);
      }
    }
  }

  /** An order without a coupon, or past holding it, may be marked returned without anyone noticing. */
  lemma QuietHolds(w: World, v: World, i: nat)
    requires HoldersAgree(w) && i < |w.orders| && v.coupons == w.coupons
    requires v.orders == w.orders[i := w.orders[i].(stockRestored := true)]
    requires w.orders[i].stockRestored || w.orders[i].coupon.None?
    ensures HoldersAgree(v) && (NoneStranded(w) ==> NoneStranded(v))
  {
    forall o, c | 0 <= o < |w.orders| && 0 <= c < |w.coupons|
      ensures Holds(v.orders[o], c) == Holds(w.orders[o], c)
    {
    }
    SameHoldersNoneStranded(w, v);
  }

  /** A frozen order holds nothing any more; what it had locked stays locked. */
  lemma FreezeSettles(w: World, o: nat)
    requires HoldersAgree(w) && DoFreeze(w, o).Committed?
    ensures var v := Next(w, Freeze(o)); HoldersAgree(v) && (NoneStranded(w) && !FreezesLocked(w, Freeze(o)) ==> NoneStranded(v))
  {
    var v := Next(w, Freeze(o));
    forall k, c | 0 <= k < |w.orders| && 0 <= c < |w.coupons| && Holds(v.orders[k], c)
      ensures Holds(w.orders[k], c)
    {
    }
    if !FreezesLocked(w, Freeze(o)) {
      SameHoldersNoneStranded(w, v);
    }
  }

  lemma PendingHolds(w: World, o: nat)
    requires Sound(w) && o < |w.orders| && w.orders[o].status == PendingPayment
    ensures w.orders[o].coupon.Some? ==> Holds(w.orders[o], w.orders[o].coupon.value) && w.orders[o].coupon.value < |w.coupons|
  {
    assert OrderSound(w, w.orders[o]);
  }

  /** Payment uses the order's coupon, cancelling and closing release it. */
  lemma LeavingSettles(w: World, s: Step, o: nat)
    requires Sound(w) && HoldersAgree(w) && Perform(w, s).Committed?
    requires (s.Pay? || s.Cancel? || s.CloseStale?) && s.order == o
    ensures HoldersAgree(Next(w, s)) && (NoneStranded(w) ==> NoneStranded(Next(w, s)))
  {
    PendingHolds(w, o);
    assert w.orders[o].coupon.Some? ==> w.coupons[w.orders[o].coupon.value] == Locked;
    OneOrderMoves(w, Next(w, s), o, if s.Pay? then Used else Released);
  }

  lemma ShopStepSettles(w: World, s: Step)
    requires Sound(w) && HoldersAgree(w) && !IsRefundStep(s) && !s.Finish? && !s.Freeze? && Perform(w, s).Committed?
    ensures HoldersAgree(Next(w, s)) && (NoneStranded(w) ==> NoneStranded(Next(w, s)))
  {
    var v := Next(w, s);
    if s.CreateOrder? {
      NewOrderLocks(w, v, v.orders[|w.orders|]);
    } else if s.Pay? || s.CloseStale? || s.Cancel? {
      LeavingSettles(w, s, s.order);
    } else if s.GrantCoupon? {
      GrantSettles(w, v);
    } else {
      MovingSettles(w, s);
    }
  }

  /** The warehouse, the riders and the stockroom move no coupon. */
  lemma MovingSettles(w: World, s: Step)
    requires HoldersAgree(w) && (s.Outbound? || s.Fulfil? || s.Stockroom?) && Perform(w, s).Committed?
    ensures HoldersAgree(Next(w, s)) && (NoneStranded(w) ==> NoneStranded(Next(w, s)))
  {
    QuietStep(w, Next(w, s));
  }

  lemma GrantSettles(w: World, v: World)
    requires Sound(w) && HoldersAgree(w) && v.orders == w.orders && v.coupons == w.coupons + [Claimed]
    ensures HoldersAgree(v) && (NoneStranded(w) ==> NoneStranded(v))
  {
    forall o, c | 0 <= o < |v.orders| && 0 <= c < |v.coupons| && Holds(v.orders[o], c)
      ensures c < |w.coupons| && v.coupons[c] == HeldStatus(v.orders[o])
    {
      assert OrderSound(w, w.orders[o]);
    }
  }

  lemma RewriteSettles(w: World, o: nat, status: OrderStatus, r: nat, rf: Refund)
    requires HoldersAgree(w) && o < |w.orders| && r <= |w.refunds| && IsPaid(w.orders[o].status) && IsPaid(status)
    ensures var v := Rewrite(w, o, status, r, rf); HoldersAgree(v) && (NoneStranded(w) ==> NoneStranded(v))
  {
    QuietStep(w, Rewrite(w, o, status, r, rf));
  }

  lemma StepSettles(w: World, s: Step)
    requires Sound(w) && HoldersAgree(w) && Honest(w, s) && !ReleasesAgain(w, s)
    ensures HoldersAgree(Next(w, s)) && (NoneStranded(w) && !FreezesLocked(w, s) ==> NoneStranded(Next(w, s)))
  {
    if !Perform(w, s).Committed? {
    } else if IsRefundStep(s) {
      var o, status, r, rf := RefundStepShape(w, s);
      RewriteSettles(w, o, status, r, rf);
    } else if s.Finish? {
      FinishSettles(w, s.refund);
    } else if s.Freeze? {
      FreezeSettles(w, s.order);
    } else {
      ShopStepSettles(w, s);
    }
  }

  lemma RepeatedReleaseUnsettles(w: World, s: Step)
    requires Sound(w) && CouponsSettled(w) && ReleasesAgain(w, s)
    ensures !HoldersAgree(Next(w, s))
  {
    var o, status, rf := FinishShape(w, s.refund);
    var v := Next(w, s);
    var c := w.orders[o].coupon.value;
    var k :| 0 <= k < |w.orders| && Holds(w.orders[k], c);
    assert k != o && v.orders[k] == w.orders[k] && Holds(v.orders[k], c);
    assert v.coupons[c] == Released;
  }

  lemma OnlyOneHolds(w: World, o: nat, k: nat, c: nat)
    requires HoldersAgree(w) && o < |w.orders| && k < |w.orders| && c < |w.coupons| && o != k
    requires Holds(w.orders[o], c)
    ensures !Holds(w.orders[k], c)
  {
  }

  lemma FreezeStrands(w: World, s: Step)
    requires Sound(w) && CouponsSettled(w) && FreezesLocked(w, s)
    ensures !NoneStranded(Next(w, s))
  {
    var v, o := Next(w, s), s.order;
    PendingHolds(w, o);
    var c := w.orders[o].coupon.value;
    assert Holds(w.orders[o], c) && v.coupons[c] == Locked;
    forall k | 0 <= k < |v.orders| ensures !Holds(v.orders[k], c) {
      if k != o {
        OnlyOneHolds(w, o, k, c);
      }
    }
  }

  /**
   The exact condition, step by step: the coupons stay settled unless a release is repeated on a
   coupon in use, or an order is frozen with its coupon locked.
   */
  lemma SettledExactlyUnless(w: World, s: Step)
    requires Sound(w) && CouponsSettled(w) && Honest(w, s)
    ensures CouponsSettled(Next(w, s)) <==> !ReleasesAgain(w, s) && !FreezesLocked(w, s)
  {
    if ReleasesAgain(w, s) {
      RepeatedReleaseUnsettles(w, s);
    } else {
      StepSettles(w, s);
      if FreezesLocked(w, s) {
        FreezeStrands(w, s);
      }
    }
  }

  predicate NoRepeatedRelease(w: World, steps: seq<Step>)
  {
    steps == []
    || (NoRepeatedRelease(w, steps[..|steps| - 1]) && !ReleasesAgain(Run(w, steps[..|steps| - 1]), steps[|steps| - 1]))
  }

  predicate NoFrozenLock(w: World, steps: seq<Step>)
  {
    steps == []
    || (NoFrozenLock(w, steps[..|steps| - 1]) && !FreezesLocked(Run(w, steps[..|steps| - 1]), steps[|steps| - 1]))
  }

  /** Freezing or not: over every run without a repeated release, no two orders ever hold one coupon. */
  lemma {:induction false} HoldersStayApart(w: World, steps: seq<Step>)
    requires Sound(w) && HoldersAgree(w) && HonestRun(w, steps) && NoRepeatedRelease(w, steps)
    ensures Sound(Run(w, steps)) && HoldersAgree(Run(w, steps))
  {
    if steps != [] {
      var init := steps[..|steps| - 1];
      HoldersStayApart(w, init);
      StepSound(Run(w, init), steps[|steps| - 1]);
      StepSettles(Run(w, init), steps[|steps| - 1]);
    }
  }

  /** And with no order frozen with its coupon locked, every coupon in use has its one holder. */
  lemma {:induction false} CouponsStaySettled(w: World, steps: seq<Step>)
    requires Sound(w) && CouponsSettled(w) && HonestRun(w, steps) && NoRepeatedRelease(w, steps) && NoFrozenLock(w, steps)
    ensures Sound(Run(w, steps)) && CouponsSettled(Run(w, steps))
  {
    if steps != [] {
      var init := steps[..|steps| - 1];
      CouponsStaySettled(w, init);
      StepSound(Run(w, init), steps[|steps| - 1]);
      StepSettles(Run(w, init), steps[|steps| - 1]);
    }
  }

  /** While at most one whole-order refund of each order settles, no release is ever repeated. */
  lemma OneReturnIsEnough(w: World, s: Step)
    requires Sound(w)
    requires s.Finish? && IsRefund(w, s.refund) ==>
               w.refunds[s.refund].source == AfterSale || !w.orders[w.refunds[s.refund].order].stockRestored
    ensures !ReleasesAgain(w, s)
  {
  }
}
