/** Undoing a refund: what holds an order in after-sales, and where it goes when the hold is released. */
module TradeUndo {
  import opened Sums
  import opened OrderState
  import opened Trade
  import opened TradeSafety

  /** Refund steps that concern one order. */
  predicate Concerns(w: World, s: Step, o: nat)
  {
    if s.RequestRefund? || s.OpenWholeRefund? || s.OpenGoodsRefund? then s.order == o
    else if IsRefundStep(s) || s.Finish? then s.refund < |w.refunds| && w.refunds[s.refund].order == o
    else false
  }

  lemma ShopStepSparesHeld(w: World, s: Step, o: nat)
    requires !IsRefundStep(s) && !s.Finish? && Perform(w, s).Committed?
    requires o < |w.orders| && w.orders[o].status == AfterSales
    ensures Spares(w, Next(w, s), o)
  {
    match s
    case CreateOrder(_, _, _, _, _, _) =>
    case Pay(_, _, _) =>
    case CloseStale(_) =>
    case Cancel(_, _) =>
    case Freeze(_) =>
    case Outbound(_, _) =>
    case Fulfil(_, _, _) =>
    case GrantCoupon =>
    case Stockroom(_) =>
  }

  predicate Spares(w: World, v: World, o: nat)
  {
    && o < |w.orders| && o < |v.orders| && v.orders[o] == w.orders[o]
    && forall r :: 0 <= r < |w.refunds| && w.refunds[r].order == o ==> r < |v.refunds| && v.refunds[r] == w.refunds[r]
  }

  lemma RefundStepSparesOthers(w: World, s: Step, o: nat)
    requires Sound(w) && Honest(w, s) && IsRefundStep(s) && Perform(w, s).Committed?
    requires o < |w.orders| && !Concerns(w, s, o)
    ensures Spares(w, Next(w, s), o)
  {
    var k, status, r, rf := RefundStepShape(w, s);
    RewriteSpares(w, k, status, r, rf, o);
  }

  lemma RewriteSpares(w: World, k: nat, status: OrderStatus, r: nat, rf: Refund, o: nat)
    requires o < |w.orders| && k < |w.orders| && r <= |w.refunds| && k != o
    requires r < |w.refunds| ==> w.refunds[r].order == k
    ensures Spares(w, Rewrite(w, k, status, r, rf), o)
  {
  }

  lemma FinishSparesOthers(w: World, r: nat, o: nat)
    requires Sound(w) && DoFinish(w, r).Committed? && o < |w.orders| && !Concerns(w, Finish(r), o)
    ensures Spares(w, DoFinish(w, r).world, o)
  {
    var k, status, rf := FinishShape(w, r);
    RewriteSpares(w, k, status, r, rf, o);
  }

  /** No payment, cancellation, warehouse, rider or receipt step moves an order held in after-sales. */
  lemma HeldOrderStays(w: World, s: Step, o: nat)
    requires Sound(w) && Honest(w, s) && o < |w.orders| && w.orders[o].status == AfterSales
    requires !Concerns(w, s, o)
    ensures Spares(w, Next(w, s), o)
  {
    if Perform(w, s).Committed? {
      if IsRefundStep(s) {
        RefundStepSparesOthers(w, s, o);
      } else if s.Finish? {
        FinishSparesOthers(w, s.refund, o);
      } else {
        ShopStepSparesHeld(w, s, o);
      }
    }
  }

  /** Steps that leave the hold in place: other people's, and this refund's own way to the channel. */
  predicate Calm(w: World, s: Step, o: nat, r: nat)
  {
    !Concerns(w, s, o) || s == Accept(r) || s == Processing(r) || (s.Approve? && s.refund == r)
  }

  predicate CalmRun(w: World, steps: seq<Step>, o: nat, r: nat)
  {
    steps == []
    || var init, last := steps[..|steps| - 1], steps[|steps| - 1];
       CalmRun(w, init, o, r) && Honest(Run(w, init), last) && Calm(Run(w, init), last, o, r)
  }

  /** The order is held, and this refund remembers where to put it back. */
  predicate HeldBy(w: World, o: nat, r: nat, source: RefundSource, before: Option<OrderStatus>)
  {
    && o < |w.orders| && w.orders[o].status == AfterSales
    && r < |w.refunds| && w.refunds[r].order == o
    && w.refunds[r].source == source && w.refunds[r].before == before
  }

  lemma CalmStepKeepsHold(w: World, s: Step, o: nat, r: nat, source: RefundSource, before: Option<OrderStatus>)
    requires Sound(w) && Honest(w, s) && HeldBy(w, o, r, source, before) && Calm(w, s, o, r)
    ensures HeldBy(Next(w, s), o, r, source, before)
  {
    if !Concerns(w, s, o) {
      HeldOrderStays(w, s, o);
    }
  }

  lemma {:induction false} CalmRunKeepsHold(w: World, steps: seq<Step>, o: nat, r: nat, source: RefundSource, before: Option<OrderStatus>)
    requires Sound(w) && HeldBy(w, o, r, source, before) && CalmRun(w, steps, o, r)
    ensures Sound(Run(w, steps)) && HeldBy(Run(w, steps), o, r, source, before)
  {
    if steps != [] {
      var init, last := steps[..|steps| - 1], steps[|steps| - 1];
      CalmRunKeepsHold(w, init, o, r, source, before);
      StepSound(Run(w, init), last);
      CalmStepKeepsHold(Run(w, init), last, o, r, source, before);
    }
  }

  /** The step that takes an order into after-sales for refund r: a request, a service refund, or an approval. */
  predicate TakesHold(w: World, s: Step, o: nat, r: nat)
  {
    && Perform(w, s).Committed? && o < |w.orders| && w.orders[o].status != AfterSales
    && o < |Next(w, s).orders| && Next(w, s).orders[o].status == AfterSales
    && ((r == |w.refunds| && ((s.RequestRefund? && s.order == o) || (s.OpenGoodsRefund? && s.order == o)))
        || (r < |w.refunds| && w.refunds[r].order == o && s.Approve? && s.refund == r))
  }

  predicate Undoes(s: Step, r: nat)
  {
    s == Withdraw(r) || s == Deny(r) || s == Refuse(r) || s == Close(r)
  }

  /** The status the refund remembers when the hold is taken. */
  function Remembered(w: World, s: Step, r: nat): Option<OrderStatus>
  {
    if s.Approve? && r < |w.refunds| then w.refunds[r].before
    else if (s.RequestRefund? || s.OpenGoodsRefund?) && s.order < |w.orders| then Some(w.orders[s.order].status)
    else None
  }

  lemma HoldTaken(w: World, hold: Step, o: nat, r: nat) returns (source: RefundSource)
    requires Sound(w) && TakesHold(w, hold, o, r)
    ensures Sound(Next(w, hold)) && HeldBy(Next(w, hold), o, r, source, Remembered(w, hold, r))
    ensures !hold.Approve? ==>
              Remembered(w, hold, r) == Some(w.orders[o].status) && w.orders[o].status in {Paid, Delivered, Completed}
    ensures hold.Approve? ==> Next(w, hold).refunds[r].status == Approved
  {
    StepSound(w, hold);
    source := Next(w, hold).refunds[r].source;
  }

  /** An approved refund that stays calm can no longer be withdrawn by the shopper. */
  lemma {:induction false} CalmRunStaysApproved(w: World, steps: seq<Step>, o: nat, r: nat, source: RefundSource, before: Option<OrderStatus>)
    requires Sound(w) && HeldBy(w, o, r, source, before) && CalmRun(w, steps, o, r)
    requires w.refunds[r].status in {Approved, Refunding, Finished}
    ensures r < |Run(w, steps).refunds| && Run(w, steps).refunds[r].status in {Approved, Refunding, Finished}
  {
    if steps != [] {
      var init, last := steps[..|steps| - 1], steps[|steps| - 1];
      CalmRunStaysApproved(w, init, o, r, source, before);
      CalmRunKeepsHold(w, init, o, r, source, before);
      if !Concerns(Run(w, init), last, o) {
        HeldOrderStays(Run(w, init), last, o);
      }
    }
  }

  /** The hold outlives every calm run; after an approval the refund is past withdrawing. */
  lemma HoldLasts(w: World, hold: Step, steps: seq<Step>, o: nat, r: nat) returns (source: RefundSource)
    requires Sound(w) && TakesHold(w, hold, o, r) && CalmRun(Next(w, hold), steps, o, r)
    ensures var u := Run(Next(w, hold), steps);
            && Sound(u) && HeldBy(u, o, r, source, Remembered(w, hold, r))
            && (hold.Approve? ==> u.refunds[r].status != Pending)
    ensures !hold.Approve? ==>
              Remembered(w, hold, r) == Some(w.orders[o].status) && w.orders[o].status in {Paid, Delivered, Completed}
  {
    var h := Next(w, hold);
    source := HoldTaken(w, hold, o, r);
    CalmRunKeepsHold(h, steps, o, r, source, Remembered(w, hold, r));
    if hold.Approve? {
      CalmRunStaysApproved(h, steps, o, r, source, Remembered(w, hold, r));
    }
  }

  lemma UndoFromHold(w: World, undo: Step, o: nat, r: nat, source: RefundSource, before: Option<OrderStatus>)
    requires Sound(w) && Honest(w, undo) && HeldBy(w, o, r, source, before)
    requires Undoes(undo, r) && Perform(w, undo).Committed?
    ensures Next(w, undo).orders[o].status == if undo.Withdraw? then WithdrawTarget(before) else RestoreTarget(before)
    ensures undo.Withdraw? ==> w.refunds[r].status == Pending
  {
    assert RefundSound(w, w.refunds[r]);
  }

  lemma UndoReturns(u: World, undo: Step, o: nat, r: nat, source: RefundSource, before: Option<OrderStatus>,
                    from: OrderStatus, approved: bool)
    requires Sound(u) && Honest(u, undo) && HeldBy(u, o, r, source, before) && Undoes(undo, r)
    requires if approved then u.refunds[r].status != Pending else before == Some(from) && from in {Paid, Delivered, Completed}
    ensures Perform(u, undo).Committed? ==>
              && o < |Next(u, undo).orders|
              && (Next(u, undo).orders[o].status == from <==> RestoreTarget(before) == from)
              && (!approved ==> Next(u, undo).orders[o].status == from)
  {
    if Perform(u, undo).Committed? {
      UndoFromHold(u, undo, o, r, source, before);
      RestoreRulesAgree(before);
    }
  }

  /**
   Undo is the identity: between the step that takes the order into after-sales and the step that
   undoes the refund, the order comes back to exactly the status it was taken from, if and only if
   the refund remembers that status. A request always does; an approval does when the order has not
   moved since the refund was opened.
   */
  lemma UndoIsTheIdentity(w: World, hold: Step, steps: seq<Step>, undo: Step, o: nat, r: nat)
    requires Sound(w) && TakesHold(w, hold, o, r)
    requires CalmRun(Next(w, hold), steps, o, r)
    requires Undoes(undo, r) && Honest(Run(Next(w, hold), steps), undo)
    ensures var v := Next(Run(Next(w, hold), steps), undo);
            Perform(Run(Next(w, hold), steps), undo).Committed? ==>
            && o < |v.orders|
            && (v.orders[o].status == w.orders[o].status <==> RestoreTarget(Remembered(w, hold, r)) == w.orders[o].status)
            && (!hold.Approve? ==> v.orders[o].status == w.orders[o].status)
  {
    var source := HoldLasts(w, hold, steps, o, r);
    UndoReturns(Run(Next(w, hold), steps), undo, o, r, source, Remembered(w, hold, r), w.orders[o].status, hold.Approve?);
  }

  /** The order was held and put back, and is no longer where it was. */
  ghost predicate LosesProgress(w: World, hold: Step, undo: Step, o: nat, r: nat)
  {
    && Sound(w) && TakesHold(w, hold, o, r) && Undoes(undo, r)
    && Honest(Next(w, hold), undo) && Perform(Next(w, hold), undo).Committed?
    && o < |Next(Next(w, hold), undo).orders| && Next(Next(w, hold), undo).orders[o].status != w.orders[o].status
  }
}
