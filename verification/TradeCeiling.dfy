/** The two-tier refund ceiling, over every run of the trade machine. */
module TradeCeiling {
  import opened Sums
  import opened OrderState
  import Inventory
  import opened Trade
  import opened TradeSafety

  function AtLeastZero(x: int): int
  {
    if x < 0 then 0 else x
  }

  /** Money promised or paid back on one order: never more than was paid, nor, without the fee switch, than the goods. */
  predicate OrderUnderCeiling(w: World, o: nat)
    requires o < |w.orders|
  {
    && RefundTotal(w.refunds, Active, o) <= w.orders[o].payable
    && RefundTotal(w.refunds, ActiveWithoutFee, o) <= AtLeastZero(w.orders[o].payable - w.orders[o].fee)
  }

  ghost predicate UnderCeiling(w: World)
  {
    forall o :: 0 <= o < |w.orders| ==> OrderUnderCeiling(w, o)
  }

  lemma NoRefundsNoTotal(w: World, t: Tally, o: nat)
    requires Sound(w) && o >= |w.orders|
    ensures RefundTotal(w.refunds, t, o) == 0
  {
    forall i | 0 <= i < |w.refunds| ensures Shares(w.refunds, t, o)[i] == 0 {
      assert RefundSound(w, w.refunds[i]);
    }
    SumZero(Shares(w.refunds, t, o));
  }

  /** What already counts as active is part of what approval counts as reserved by others. */
  lemma ActiveWithinOthers(w: World, r: nat, t: Tally, o: nat)
    requires Sound(w) && r < |w.refunds| && !Counts(Active, w.refunds[r])
    requires t == Active || t == ActiveWithoutFee
    ensures RefundTotal(w.refunds, t, o) <= RefundTotal(w.refunds, Reserved, o) - Share(Reserved, o, w.refunds[r])
  {
    var counted, reserved := Shares(w.refunds, t, o), Shares(w.refunds, Reserved, o);
    SumUpdate(reserved, r, 0);
    forall i | 0 <= i < |counted| ensures counted[i] <= reserved[r := 0][i] {
      assert RefundSound(w, w.refunds[i]);
    }
    SumLeq(counted, reserved[r := 0]);
  }

  lemma RewriteTotals(w: World, o: nat, status: OrderStatus, r: nat, rf: Refund, t: Tally, k: nat)
    requires o < |w.orders| && r <= |w.refunds|
    ensures RefundTotal(Rewrite(w, o, status, r, rf).refunds, t, k)
         == RefundTotal(w.refunds, t, k) + Share(t, k, rf) - if r < |w.refunds| then Share(t, k, w.refunds[r]) else 0
  {
    if r == |w.refunds| {
      TotalOfAppend(w.refunds, rf, t, k);
    } else {
      TotalOfUpdate(w.refunds, r, rf, t, k);
    }
  }

  lemma RewriteUnderCeiling(w: World, o: nat, status: OrderStatus, r: nat, rf: Refund)
    requires Sound(w) && UnderCeiling(w) && o < |w.orders| && r <= |w.refunds|
    requires rf.order == o && rf.amount >= 1 && (r < |w.refunds| ==> w.refunds[r].order == o)
    requires StaysUnderCeiling(w, o, r, rf)
    ensures UnderCeiling(Rewrite(w, o, status, r, rf))
  {
    var v := Rewrite(w, o, status, r, rf);
    forall k | 0 <= k < |v.orders| ensures OrderUnderCeiling(v, k) {
      assert OrderUnderCeiling(w, k);
      RewriteTotals(w, o, status, r, rf, Active, k);
      RewriteTotals(w, o, status, r, rf, ActiveWithoutFee, k);
      if r < |w.refunds| {
        assert RefundSound(w, w.refunds[r]);
        if !Counts(Active, w.refunds[r]) {
          ActiveWithinOthers(w, r, Active, k);
          ActiveWithinOthers(w, r, ActiveWithoutFee, k);
        }
      }
    }
  }

  lemma StepUnderCeiling(w: World, s: Step)
    requires Sound(w) && Honest(w, s) && UnderCeiling(w)
    ensures UnderCeiling(Next(w, s))
  {
    var v := Next(w, s);
    StepSound(w, s);
    if !Perform(w, s).Committed? {
    } else if IsRefundStep(s) {
      var o, status, r, rf := RefundStepShape(w, s);
      RewriteUnderCeiling(w, o, status, r, rf);
    } else if s.Finish? {
      var o, status, rf := FinishShape(w, s.refund);
      RewriteUnderCeiling(w, o, status, s.refund, rf);
      var u := Rewrite(w, o, status, s.refund, rf);
      assert v.refunds == u.refunds;
      forall k | 0 <= k < |v.orders| ensures OrderUnderCeiling(v, k) {
        assert OrderUnderCeiling(u, k);
      }
    } else {
      assert v.refunds == w.refunds;
      forall k | 0 <= k < |v.orders| ensures OrderUnderCeiling(v, k) {
        if k < |w.orders| {
          assert Persists(w.orders[k], v.orders[k]) && OrderUnderCeiling(w, k);
        } else {
          NoRefundsNoTotal(w, Active, k);
          NoRefundsNoTotal(w, ActiveWithoutFee, k);
        }
      }
    }
  }

  /** Over every run, whoever opens refunds, whatever is edited, refused, retried or replayed. */
  lemma {:induction false} RefundsNeverExceedPayment(w: World, steps: seq<Step>)
    requires Sound(w) && UnderCeiling(w) && HonestRun(w, steps)
    ensures Sound(Run(w, steps)) && UnderCeiling(Run(w, steps))
  {
    if steps != [] {
      var init := steps[..|steps| - 1];
      RefundsNeverExceedPayment(w, init);
      StepSound(Run(w, init), steps[|steps| - 1]);
      StepUnderCeiling(Run(w, init), steps[|steps| - 1]);
    }
  }

  /** An empty shop is sound and under every ceiling, so everything it reaches is. */
  lemma EmptyShop(stock: Inventory.Goods)
    ensures var w := World(stock, [], [], []); Sound(w) && UnderCeiling(w)
  {
  }

  /** What is left of both ceilings of its order would take this refund in. */
  predicate HasRoom(w: World, rf: Refund)
    requires rf.order < |w.orders|
  {
    var ord := w.orders[rf.order];
    && rf.amount <= ord.payable - RefundTotal(w.refunds, Active, rf.order)
    && (rf.withFee || rf.amount <= AtLeastZero(ord.payable - ord.fee) - RefundTotal(w.refunds, ActiveWithoutFee, rf.order))
  }

  /** A refund that starts to count without being checked keeps its order under the ceilings exactly when there is room. */
  lemma StartingToCountNeedsRoom(w: World, o: nat, status: OrderStatus, r: nat, rf: Refund)
    requires UnderCeiling(w) && IsRefund(w, r) && o == w.refunds[r].order == rf.order
    requires !Counts(Active, w.refunds[r]) && Counts(Active, rf)
    ensures OrderUnderCeiling(Rewrite(w, o, status, r, rf), o) <==> HasRoom(w, rf)
  {
    RewriteTotals(w, o, status, r, rf, Active, o);
    RewriteTotals(w, o, status, r, rf, ActiveWithoutFee, o);
    assert OrderUnderCeiling(w, o);
  }

  lemma SameCeiling(u: World, v: World, o: nat)
    requires o < |u.orders| == |v.orders| && v.refunds == u.refunds
    requires v.orders[o].payable == u.orders[o].payable && v.orders[o].fee == u.orders[o].fee
    ensures OrderUnderCeiling(u, o) == OrderUnderCeiling(v, o)
  {
  }

  /**
   Why honesty matters: success reported for a refund that no longer counts (failed, denied,
   withdrawn, or not yet approved) settles it without looking at the ceiling again, so the order
   stays within the payment exactly when nobody took its room.
   */
  lemma LateSuccessNeedsRoom(w: World, r: nat)
    requires Sound(w) && UnderCeiling(w) && IsRefund(w, r) && !Counts(Active, w.refunds[r])
    ensures DoFinish(w, r).Committed?
    ensures OrderUnderCeiling(DoFinish(w, r).world, w.refunds[r].order) <==> HasRoom(w, w.refunds[r])
  {
    var o, status, rf := FinishShape(w, r);
    var u := Rewrite(w, o, status, r, rf);
    StartingToCountNeedsRoom(w, o, status, r, rf);
    assert HasRoom(w, rf) == HasRoom(w, w.refunds[r]);
    SameCeiling(u, if rf.source == PreDelivery then ReturnGoods(u, o) else u, o);
  }
}
