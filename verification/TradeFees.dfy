/** Over runs: which refunds may take the delivery fee back, and that no money goes out without an approval. */
module TradeFees {
  import opened Sums
  import opened OrderState
  import opened Inventory
  import opened Trade
  import opened TradeSafety
  import opened TradeUndo
  import opened TradeRefunds

  // ----- the fee follows the rider -----

  predicate Commits(w: World, s: Step)
  {
    Perform(w, s).Committed?
  }

  /** Did the last commit that moved the order along take it past the pool? */
  function PastPool(w: World, steps: seq<Step>, o: nat): bool
  {
    if steps == [] then false
    else
      var init, last := steps[..|steps| - 1], steps[|steps| - 1];
      if last.Fulfil? && last.order == o && Commits(Run(w, init), last) then last.to !in {Picking, WaitingFirstMile}
      else if last.Outbound? && last.order == o && Commits(Run(w, init), last) then false
      else PastPool(w, init, o)
  }

  /** Refunds of the order may be queued along the run, but none takes hold of it. */
  predicate Untouched(w: World, steps: seq<Step>, o: nat)
  {
    steps == []
    || var init, last := steps[..|steps| - 1], steps[|steps| - 1];
       Untouched(w, init, o) && (Concerns(Run(w, init), last, o) ==> last.OpenWholeRefund?)
  }

  /** The statuses of an order that has not reached the shop, or never will. */
  predicate ShortOfTheShop(s: OrderStatus)
  {
    s in {PendingPayment, Cancelled, Frozen, Paid, Picking, WaitingFirstMile}
  }

  lemma ShopStepMovesAlong(w: World, s: Step, o: nat)
    requires !IsRefundStep(s) && !s.Finish? && Commits(w, s) && o < |Next(w, s).orders|
    requires o < |w.orders| ==> w.orders[o].status != AfterSales
    ensures var to := Next(w, s).orders[o].status;
            && to != AfterSales
            && (if s.Fulfil? && s.order == o then to == s.to && ShortOfTheShop(to) == (s.to in {Picking, WaitingFirstMile})
                else if s.Outbound? && s.order == o then to == WaitingFirstMile
                else ShortOfTheShop(to) == (o < |w.orders| ==> ShortOfTheShop(w.orders[o].status)))
  {
    match s
    case CreateOrder(_, _, _, _, _, _) =>
    case Pay(_, _, _) =>
    case CloseStale(_) =>
    case Cancel(_, _) =>
    case Freeze(_) =>
    case Outbound(_, _) =>
    case Fulfil(_, _, _) =>
    case GrantCoupon =>
    case Stockroom(_) =>
  }

  lemma RefundStepLeavesOrders(w: World, s: Step)
    requires Sound(w) && Honest(w, s) && (IsRefundStep(s) || s.Finish?)
    ensures |Next(w, s).orders| == |w.orders|
  {
    if Commits(w, s) {
      if s.Finish? {
        var k, status, rf := FinishShape(w, s.refund);
      } else {
        var k, status, r, rf := RefundStepShape(w, s);
      }
    }
  }

  lemma RefundStepLeavesStatus(w: World, s: Step, o: nat)
    requires Sound(w) && Honest(w, s) && (IsRefundStep(s) || s.Finish?) && o < |w.orders|
    requires Concerns(w, s, o) ==> s.OpenWholeRefund?
    ensures o < |Next(w, s).orders| && Next(w, s).orders[o].status == w.orders[o].status
  {
    if Commits(w, s) {
      if s.OpenWholeRefund? {
      } else if s.Finish? {
        FinishSparesOthers(w, s.refund, o);
      } else {
        RefundStepSparesOthers(w, s, o);
      }
    }
  }

  /** Along such a run the status says whether the rider has been at the shop since. */
  lemma {:induction false} PastPoolMeans(w: World, steps: seq<Step>, o: nat)
    requires Sound(w) && HonestRun(w, steps) && Untouched(w, steps, o) && |w.orders| <= o
    ensures Sound(Run(w, steps))
    ensures var u := Run(w, steps);
            && (o >= |u.orders| ==> !PastPool(w, steps, o))
            && (o < |u.orders| ==> u.orders[o].status != AfterSales && (PastPool(w, steps, o) <==> !ShortOfTheShop(u.orders[o].status)))
  {
    if steps != [] {
      var init, last := steps[..|steps| - 1], steps[|steps| - 1];
      PastPoolMeans(w, init, o);
      var u := Run(w, init);
      StepSound(u, last);
      if Commits(u, last) {
        if IsRefundStep(last) || last.Finish? {
          RefundStepLeavesOrders(u, last);
          if o < |u.orders| { RefundStepLeavesStatus(u, last, o); }
        } else if o < |Next(u, last).orders| {
          ShopStepMovesAlong(u, last, o);
        }
      }
    }
  }

  /**
   An order placed during the run, refunds of it queued and nothing more: when one is approved without
   the auditor's switch, the fee may go back exactly if the campus says so, the rider has taken the
   order past the pool and not handed it back, or the order is read as held.
   */
  lemma FeeFollowsTheRider(w: World, steps: seq<Step>, r: nat, seen: OrderStatus, campus: bool, edits: seq<(nat, int)>)
    requires Sound(w) && HonestRun(w, steps)
    requires var u := Run(w, steps);
             IsRefund(u, r) && |w.orders| <= u.refunds[r].order && Untouched(w, steps, u.refunds[r].order)
             && Commits(u, Approve(r, seen, None, campus, edits))
    ensures var u := Run(w, steps);
            var v := Next(u, Approve(r, seen, None, campus, edits));
            r < |v.refunds| && (v.refunds[r].withFee <==> campus || PastPool(w, steps, u.refunds[r].order) || seen == AfterSales)
  {
    var u := Run(w, steps);
    PastPoolMeans(w, steps, u.refunds[r].order);
    ApprovedExactlyWhen(u, r, seen, None, campus, edits);
  }

  /** The request of the whole order, as its approval writes it. */
  function AskedWhole(ord: Order, o: nat, withFee: bool): Refund
  {
    Refund(o, PreDelivery, GoodsPart(ord), withFee, Some(Paid), Approved, [])
  }

  function HeldWith(w: World, o: nat, rf: Refund): World
    requires o < |w.orders|
  {
    Opened(w, o, AfterSales, rf)
  }

  lemma WholeFits(w: World, o: nat, withFee: bool)
    requires o < |w.orders| && MayAsk(w, o, Paid, PreDelivery, [])
    ensures var u := HeldWith(w, o, AskedRow(w.orders[o], o, PreDelivery, []));
            MayApprove(u, |w.refunds|, AfterSales, withFee, []) && WithEdits(u.refunds[|w.refunds|].items, []) == []
  {
    var u := HeldWith(w, o, AskedRow(w.orders[o], o, PreDelivery, []));
    assert u.refunds[..|w.refunds|] == w.refunds && u.refunds[|w.refunds| + 1..] == [];
  }

  lemma HeldIsApproved(w: World, o: nat, feeSwitch: Option<bool>, campus: bool)
    requires o < |w.orders| && MayAsk(w, o, Paid, PreDelivery, [])
    ensures Next(HeldWith(w, o, AskedRow(w.orders[o], o, PreDelivery, [])), Approve(|w.refunds|, AfterSales, feeSwitch, campus, []))
         == HeldWith(w, o, AskedWhole(w.orders[o], o, FeeBack(AfterSales, feeSwitch, campus)))
  {
    var withFee, rf := FeeBack(AfterSales, feeSwitch, campus), AskedRow(w.orders[o], o, PreDelivery, []);
    WholeFits(w, o, withFee);
    ApprovedExactlyWhen(HeldWith(w, o, rf), |w.refunds|, AfterSales, feeSwitch, campus, []);
    RowApproved(w, o, rf, AskedWhole(w.orders[o], o, withFee));
  }

  lemma RowApproved(w: World, o: nat, rf: Refund, approved: Refund)
    requires o < |w.orders|
    ensures var u := HeldWith(w, o, rf);
            u.(refunds := u.refunds[|w.refunds| := approved]) == HeldWith(w, o, approved)
  {
    assert (w.refunds + [rf])[|w.refunds| := approved] == w.refunds + [approved];
  }

  /** Asked before outbound and approved on that hold: it always goes through, for the goods' part. */
  lemma AskedThenApproved(w: World, o: nat, feeSwitch: Option<bool>, campus: bool)
    requires o < |w.orders| && MayAsk(w, o, Paid, PreDelivery, [])
    ensures Run(w, [RequestRefund(o, Paid, PreDelivery, []), Approve(|w.refunds|, AfterSales, feeSwitch, campus, [])])
         == HeldWith(w, o, AskedWhole(w.orders[o], o, if feeSwitch.Some? then feeSwitch.value else true))
  {
    AskedExactlyWhen(w, o, Paid, PreDelivery, []);
    HeldIsApproved(w, o, feeSwitch, campus);
    TwoSteps(w, RequestRefund(o, Paid, PreDelivery, []), Approve(|w.refunds|, AfterSales, feeSwitch, campus, []));
  }

  lemma TwoSteps(w: World, a: Step, b: Step)
    ensures Run(w, [a, b]) == Next(Next(w, a), b)
  {
    assert [a, b][..1] == [a] && [a][..0] == [];
    assert Run(w, [a]) == Next(Run(w, []), a);
  }

  // ----- no money without an approval -----

  /** This refund was approved somewhere along the run. */
  predicate ApprovedAlong(w: World, steps: seq<Step>, r: nat)
  {
    exists k :: 0 <= k < |steps| && steps[k].Approve? && steps[k].refund == r && Commits(Run(w, steps[..k]), steps[k])
  }

  lemma OnlyApprovalsLetGo(w: World, s: Step, r: nat)
    requires Sound(w) && Honest(w, s) && r < |Next(w, s).refunds| && Next(w, s).refunds[r].status in {Approved, Refunding, Finished}
    ensures (s.Approve? && s.refund == r && Commits(w, s))
         || (r < |w.refunds| && w.refunds[r].status in {Approved, Refunding, Finished})
  {
    if Commits(w, s) {
      if s.Finish? {
        var k, status, rf := FinishShape(w, s.refund);
      } else if s.RequestRefund? || s.OpenWholeRefund? || s.OpenGoodsRefund? {
        var o, status, k, rf := RequestShape(w, s);
      } else if IsRefundStep(s) {
        AnswersKeepLetGo(w, s, r);
      } else {
        assert Next(w, s).refunds == w.refunds;
      }
    }
  }

  lemma AnswersKeepLetGo(w: World, s: Step, r: nat)
    requires s.Withdraw? || s.Deny? || s.Approve? || s.Accept? || s.Refuse? || s.Processing? || s.Close?
    requires Commits(w, s) && Honest(w, s) && r < |Next(w, s).refunds|
    requires Next(w, s).refunds[r].status in {Approved, Refunding, Finished}
    ensures (s.Approve? && s.refund == r) || (r < |w.refunds| && w.refunds[r].status in {Approved, Refunding, Finished})
  {
  }

  /** Over every run: a refund that is approved, under way or paid back was approved in it, or had been before. */
  lemma {:induction false} NoMoneyWithoutApproval(w: World, steps: seq<Step>, r: nat)
    requires Sound(w) && HonestRun(w, steps)
    requires r < |Run(w, steps).refunds| && Run(w, steps).refunds[r].status in {Approved, Refunding, Finished}
    ensures ApprovedAlong(w, steps, r) || (r < |w.refunds| && w.refunds[r].status in {Approved, Refunding, Finished})
  {
    if steps != [] {
      var n := |steps| - 1;
      var init := steps[..n];
      SoundAlong(w, init);
      OnlyApprovalsLetGo(Run(w, init), steps[n], r);
      if !(steps[n].Approve? && steps[n].refund == r && Commits(Run(w, init), steps[n])) {
        NoMoneyWithoutApproval(w, init, r);
        if ApprovedAlong(w, init, r) {
          var k :| 0 <= k < n && init[k].Approve? && init[k].refund == r && Commits(Run(w, init[..k]), init[k]);
          assert init[..k] == steps[..k];
        }
      }
    }
  }

  lemma {:induction false} SoundAlong(w: World, steps: seq<Step>)
    requires Sound(w) && HonestRun(w, steps)
    ensures Sound(Run(w, steps))
  {
    if steps != [] {
      SoundAlong(w, steps[..|steps| - 1]);
      StepSound(Run(w, steps[..|steps| - 1]), steps[|steps| - 1]);
    }
  }

  // ----- a whole refund from end to end -----

  /** A settled whole-order refund of a held order. */
  lemma WholePaidOut(w: World, o: nat, withFee: bool)
    requires Sound(w) && o < |w.orders| && w.orders[o].status == Paid
    ensures var a := HeldWith(w, o, AskedWhole(w.orders[o], o, withFee));
            var v := Next(a, Finish(|w.refunds|));
            && |v.orders| == |w.orders| && v.orders[o].status == OrderStatus.Refunded && v.orders[o].stockRestored
            && |v.coupons| == |w.coupons|
            && (forall c :: 0 <= c < |v.coupons| && w.orders[o].coupon == Some(c) ==> v.coupons[c] !in {Locked, Used})
            && v.refunds == w.refunds + [AskedWhole(w.orders[o], o, withFee).(status := Finished)]
  {
    var r, rf := |w.refunds|, AskedWhole(w.orders[o], o, withFee);
    var a := HeldWith(w, o, rf);
    assert a.refunds[r] == rf && a.refunds[r := rf.(status := Finished)] == w.refunds + [rf.(status := Finished)];
    assert IsWhole(a, r);
  }

  /**
   Asked before outbound, approved and paid out: the order is refunded, exactly its goods' part more has
   been paid out, and its coupon is free again.
   */
  lemma AskedApprovedPaidOut(w: World, o: nat, feeSwitch: Option<bool>, campus: bool)
    requires Sound(w) && o < |w.orders| && MayAsk(w, o, Paid, PreDelivery, [])
    ensures var ask, yes := RequestRefund(o, Paid, PreDelivery, []), Approve(|w.refunds|, AfterSales, feeSwitch, campus, []);
            var v := Next(Run(w, [ask, yes]), Finish(|w.refunds|));
            && |v.orders| == |w.orders| && v.orders[o].status == OrderStatus.Refunded && v.orders[o].stockRestored
            && PaidOut(v.refunds, o) == PaidOut(w.refunds, o) + GoodsPart(w.orders[o])
            && |v.coupons| == |w.coupons|
            && (forall c :: 0 <= c < |v.coupons| && w.orders[o].coupon == Some(c) ==> v.coupons[c] !in {Locked, Used})
  {
    var withFee := if feeSwitch.Some? then feeSwitch.value else true;
    AskedThenApproved(w, o, feeSwitch, campus);
    WholePaidOut(w, o, withFee);
    var paid := AskedWhole(w.orders[o], o, withFee).(status := Finished);
    assert (w.refunds + [paid])[..|w.refunds|] == w.refunds;
  }
}
