/** What an order is recorded to have been paid back, and the one step that adds to it. */
module TradeSettled {
  import opened Sums
  import opened OrderState
  import opened Trade
  import opened TradeSafety
  import opened TradeCeiling

  lemma SettledNonNegative(w: World, o: nat)
    requires Sound(w)
    ensures 0 <= RefundTotal(w.refunds, Settled, o)
  {
    forall i | 0 <= i < |w.refunds| ensures 0 <= Shares(w.refunds, Settled, o)[i] {
      assert RefundSound(w, w.refunds[i]);
    }
    SumNonNegative(Shares(w.refunds, Settled, o));
  }

  lemma RewriteMovesSettled(w: World, o: nat, status: OrderStatus, r: nat, rf: Refund, k: nat)
    requires o < |w.orders| && r <= |w.refunds| && rf.order == o
    requires r < |w.refunds| ==> w.refunds[r].order == o && w.refunds[r].status != Finished
    ensures RefundTotal(Rewrite(w, o, status, r, rf).refunds, Settled, k)
         == RefundTotal(w.refunds, Settled, k) + if rf.status == Finished && o == k then rf.amount else 0
  {
    RewriteTotals(w, o, status, r, rf, Settled, k);
  }

  /** Settling adds exactly the refund's amount to its order's total, and no other step changes any. */
  lemma StepMovesSettled(w: World, s: Step, o: nat)
    requires Sound(w) && Honest(w, s)
    ensures RefundTotal(Next(w, s).refunds, Settled, o) == RefundTotal(w.refunds, Settled, o) + SettledBy(w, s, o)
  {
    if Perform(w, s).Committed? {
      if IsRefundStep(s) {
        var k, status, r, rf := RefundStepShape(w, s);
        RewriteMovesSettled(w, k, status, r, rf, o);
      } else if s.Finish? {
        var k, status, rf := FinishShape(w, s.refund);
        RewriteMovesSettled(w, k, status, s.refund, rf, o);
      } else {
        ShopStepKeepsRefunds(w, s);
      }
    }
  }

  function SettledBy(w: World, s: Step, o: nat): int
  {
    if s.Finish? && DoFinish(w, s.refund).Committed? && w.refunds[s.refund].order == o then w.refunds[s.refund].amount else 0
  }

  lemma ShopStepKeepsRefunds(w: World, s: Step)
    requires !IsRefundStep(s) && !s.Finish?
    ensures Next(w, s).refunds == w.refunds
  {
  }

  lemma SettledOnlyGrows(w: World, s: Step, o: nat)
    requires Sound(w) && Honest(w, s)
    ensures RefundTotal(w.refunds, Settled, o) <= RefundTotal(Next(w, s).refunds, Settled, o)
  {
    StepMovesSettled(w, s, o);
    if s.Finish? && DoFinish(w, s.refund).Committed? {
      assert RefundSound(w, w.refunds[s.refund]);
    }
  }
}
