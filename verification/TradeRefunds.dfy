/** What each refund operation answers: when it goes through, what it writes, and when settling empties the order. */
module TradeRefunds {
  import opened Sums
  import opened OrderState
  import opened Inventory
  import opened Trade
  import opened TradeSafety
  import opened TradeRequests

  // ----- sums over the rows of one order -----

  /** Asked for and not turned down: pending, approved, under way or paid back. */
  function AskedFor(rs: seq<Refund>, o: nat): int
  {
    if rs == [] then 0
    else
      var last := rs[|rs| - 1];
      AskedFor(rs[..|rs| - 1], o)
      + if last.order == o && last.status in {Pending, Approved, Refunding, Finished} then last.amount else 0
  }

  function PaidOut(rs: seq<Refund>, o: nat): int
  {
    if rs == [] then 0
    else
      var last := rs[|rs| - 1];
      PaidOut(rs[..|rs| - 1], o) + if last.order == o && last.status == Finished then last.amount else 0
  }

  lemma {:induction false} TotalsMean(rs: seq<Refund>, o: nat)
    ensures RefundTotal(rs, Reserved, o) == AskedFor(rs, o) && RefundTotal(rs, Settled, o) == PaidOut(rs, o)
  {
    if rs != [] {
      var init, last := rs[..|rs| - 1], rs[|rs| - 1];
      TotalsMean(init, o);
      assert rs == init + [last];
      TotalOfAppend(init, last, Reserved, o);
      TotalOfAppend(init, last, Settled, o);
    }
  }

  /** What the other rows ask for. */
  function OthersAskFor(rs: seq<Refund>, o: nat, r: nat): int
    requires r < |rs|
  {
    AskedFor(rs[..r], o) + AskedFor(rs[r + 1..], o)
  }

  lemma {:induction false} AskedForConcat(a: seq<Refund>, b: seq<Refund>, o: nat)
    ensures AskedFor(a + b, o) == AskedFor(a, o) + AskedFor(b, o)
  {
    if b == [] {
      assert a + b == a;
    } else {
      assert (a + b)[..|a + b| - 1] == a + b[..|b| - 1];
      AskedForConcat(a, b[..|b| - 1], o);
    }
  }

  lemma OthersMean(rs: seq<Refund>, o: nat, r: nat)
    requires r < |rs|
    ensures RefundTotal(rs, Reserved, o) - Share(Reserved, o, rs[r]) == OthersAskFor(rs, o, r)
  {
    TotalsMean(rs, o);
    assert rs == rs[..r] + [rs[r]] + rs[r + 1..];
    AskedForConcat(rs[..r] + [rs[r]], rs[r + 1..], o);
    assert (rs[..r] + [rs[r]])[..r] == rs[..r];
  }

  // ----- what is asked for -----

  /** The goods' part of what was paid, never below nothing. */
  function GoodsPart(ord: Order): nat
  {
    if ord.payable < ord.fee then 0 else ord.payable - ord.fee
  }

  predicate Ticked(lines: seq<Line>, products: seq<ProductId>)
  {
    && (forall i :: 0 <= i < |products| ==> Known(lines, products[i]))
    && (forall i, j :: 0 <= i < j < |products| ==> products[i] != products[j])
  }

  function Amounts(items: seq<RefundItem>): (s: seq<int>)
    ensures |s| == |items| && forall i :: 0 <= i < |items| ==> s[i] == items[i].amount
  {
    seq(|items|, i requires 0 <= i < |items| => items[i].amount)
  }

  lemma {:induction false} ItemsTotalIsSum(items: seq<RefundItem>)
    ensures ItemsTotal(items) == Sum(Amounts(items))
  {
    if items != [] {
      var init, last := items[..|items| - 1], items[|items| - 1];
      ItemsTotalIsSum(init);
      assert Amounts(items) == Amounts(init) + [last.amount];
      SumAppend(Amounts(init), last.amount);
    }
  }

  /** The full line of each product ticked. */
  function FullItems(lines: seq<Line>, products: seq<ProductId>): (items: seq<RefundItem>)
    requires Ticked(lines, products)
    ensures |items| == |products|
  {
    seq(|products|, i requires 0 <= i < |products| =>
      var line := lines[FindLine(lines, products[i])];
      RefundItem(products[i], line.price, line.quantity, line.price * line.quantity))
  }

  lemma {:induction false} ParsedAreFull(lines: seq<Line>, products: seq<ProductId>)
    ensures ParseItems(lines, products).Some? <==> Ticked(lines, products)
    ensures Ticked(lines, products) ==> ParseItems(lines, products) == Some(FullItems(lines, products))
  {
    ParseItemsMeans(lines, products);
    if products != [] && Ticked(lines, products) {
      var init := products[..|products| - 1];
      ParsedAreFull(lines, init);
      assert FullItems(lines, products) == FullItems(lines, init) + [FullItems(lines, products)[|products| - 1]];
    }
  }

  /** One new row, and its order held or left where it was. */
  function Opened(w: World, o: nat, status: OrderStatus, rf: Refund): World
    requires o < |w.orders|
  {
    w.(orders := w.orders[o := w.orders[o].(status := status)], refunds := w.refunds + [rf])
  }

  /** What the shopper's request is made of: nothing but the order, or the lines ticked. */
  function AskedItems(lines: seq<Line>, source: RefundSource, products: seq<ProductId>): seq<RefundItem>
    requires source == PreDelivery || Ticked(lines, products)
  {
    if source == PreDelivery then [] else FullItems(lines, products)
  }

  function AskedAmount(ord: Order, source: RefundSource, products: seq<ProductId>): int
    requires source == PreDelivery || Ticked(ord.lines, products)
  {
    var items := AskedItems(ord.lines, source, products);
    if items == [] then GoodsPart(ord) else Sum(Amounts(items))
  }

  /** Before outbound for everything; after delivery for what is ticked. */
  predicate TimeToAsk(ord: Order, source: RefundSource, products: seq<ProductId>)
  {
    if source == PreDelivery then ord.status == Paid
    else ord.status in {Delivered, Completed} && Ticked(ord.lines, products)
  }

  predicate MayAsk(w: World, o: nat, seen: OrderStatus, source: RefundSource, products: seq<ProductId>)
    requires o < |w.orders|
  {
    var ord := w.orders[o];
    && ord.status == seen && TimeToAsk(ord, source, products)
    && 1 <= AskedAmount(ord, source, products) <= GoodsPart(ord) - AskedFor(w.refunds, o)
  }

  function AskedRow(ord: Order, o: nat, source: RefundSource, products: seq<ProductId>): Refund
    requires source == PreDelivery || Ticked(ord.lines, products)
  {
    Refund(o, source, AskedAmount(ord, source, products), false, Some(ord.status), Pending, AskedItems(ord.lines, source, products))
  }

  /**
   A shopper's request goes through exactly when the order stands where it was read, it is the time for
   it, and what it asks for still fits the goods' part beside everything asked for before. It holds the
   order, remembers where it stood, and never claims the delivery fee.
   */
  lemma AskedExactlyWhen(w: World, o: nat, seen: OrderStatus, source: RefundSource, products: seq<ProductId>)
    requires o < |w.orders|
    ensures DoRequestRefund(w, o, seen, source, products)
         == if MayAsk(w, o, seen, source, products)
            then Committed(Opened(w, o, AfterSales, AskedRow(w.orders[o], o, source, products))) else Rejected
  {
    TotalsMean(w.refunds, o);
    if source == AfterSale {
      ParsedAreFull(w.orders[o].lines, products);
      if Ticked(w.orders[o].lines, products) {
        ItemsTotalIsSum(FullItems(w.orders[o].lines, products));
      }
    }
  }

  /** Asking and then withdrawing, or being denied: every order is where it was, and nothing is asked for any more. */
  lemma AskedThenWithdrawn(w: World, o: nat, seen: OrderStatus, source: RefundSource, products: seq<ProductId>)
    requires o < |w.orders| && MayAsk(w, o, seen, source, products)
    ensures var u, rf := Next(w, RequestRefund(o, seen, source, products)), AskedRow(w.orders[o], o, source, products);
            && Next(u, Withdraw(|w.refunds|)) == w.(refunds := w.refunds + [rf.(status := Withdrawn)])
            && Next(u, Deny(|w.refunds|)) == w.(refunds := w.refunds + [rf.(status := Denied)])
            && AskedFor(w.refunds + [rf.(status := Withdrawn)], o) == AskedFor(w.refunds, o)
            && AskedFor(w.refunds + [rf.(status := Denied)], o) == AskedFor(w.refunds, o)
  {
    var rf := AskedRow(w.orders[o], o, source, products);
    AskOpens(w, o, seen, source, products);
    UndoneAtOnce(w, o, rf);
    LeavesNothing(w.refunds, rf.(status := Withdrawn), o);
    LeavesNothing(w.refunds, rf.(status := Denied), o);
  }

  lemma AskOpens(w: World, o: nat, seen: OrderStatus, source: RefundSource, products: seq<ProductId>)
    requires o < |w.orders| && MayAsk(w, o, seen, source, products)
    ensures var rf := AskedRow(w.orders[o], o, source, products);
            && Next(w, RequestRefund(o, seen, source, products)) == Opened(w, o, AfterSales, rf)
            && rf.order == o && rf.status == Pending && rf.before == Some(w.orders[o].status)
            && w.orders[o].status in {Paid, Delivered, Completed}
  {
    AskedExactlyWhen(w, o, seen, source, products);
  }

  lemma UndoneAtOnce(w: World, o: nat, rf: Refund)
    requires o < |w.orders| && rf.order == o && rf.status == Pending && rf.before == Some(w.orders[o].status)
    requires w.orders[o].status in {Paid, Delivered, Completed}
    ensures var u := Opened(w, o, AfterSales, rf);
            && Next(u, Withdraw(|w.refunds|)) == w.(refunds := w.refunds + [rf.(status := Withdrawn)])
            && Next(u, Deny(|w.refunds|)) == w.(refunds := w.refunds + [rf.(status := Denied)])
  {
    BackWhereItWas(w, o, rf, Withdrawn);
    BackWhereItWas(w, o, rf, Denied);
  }

  lemma BackWhereItWas(w: World, o: nat, rf: Refund, status: RefundStatus)
    requires o < |w.orders| && rf.order == o
    ensures Rewrite(Opened(w, o, AfterSales, rf), o, w.orders[o].status, |w.refunds|, rf.(status := status))
         == w.(refunds := w.refunds + [rf.(status := status)])
  {
    var v := Rewrite(Opened(w, o, AfterSales, rf), o, w.orders[o].status, |w.refunds|, rf.(status := status));
    assert v.orders == w.orders;
    assert v.refunds == w.refunds + [rf.(status := status)];
  }

  lemma LeavesNothing(rs: seq<Refund>, rf: Refund, o: nat)
    requires rf.status in {Denied, Withdrawn}
    ensures AskedFor(rs + [rf], o) == AskedFor(rs, o)
  {
    assert (rs + [rf])[..|rs|] == rs;
  }

  // ----- opened by the back office -----

  predicate NoneUnderWay(listed: seq<Refund>, o: nat)
  {
    forall k :: 0 <= k < |listed| && listed[k].order == o ==> listed[k].status !in {Pending, Approved, Refunding}
  }

  /** The back office queues a whole refund of a paid, undelivered order that it sees no refund under way for. */
  lemma QueuedExactlyWhen(w: World, o: nat, seen: OrderStatus, listed: seq<Refund>)
    requires o < |w.orders|
    ensures DoOpenWholeRefund(w, o, seen, listed)
         == if seen in {Paid, Picking, WaitingFirstMile, Arrived, FirstMile, WaitingHandover, LastMile}
               && NoneUnderWay(listed, o) && w.orders[o].goods >= 1
            then Committed(Opened(w, o, w.orders[o].status, Refund(o, PreDelivery, w.orders[o].goods, false, Some(seen), Pending, [])))
            else Rejected
  {
    if NoneUnderWay(listed, o) {
      assert forall k :: 0 <= k < |listed| ==> !Underway(listed[k], o);
    } else {
      var k :| 0 <= k < |listed| && listed[k].order == o && listed[k].status in {Pending, Approved, Refunding};
      assert Underway(listed[k], o);
    }
  }

  /** The amounts typed in for these products, each within its line's price. */
  predicate Typed(items: seq<RefundItem>, edits: map<ProductId, int>)
  {
    forall i :: 0 <= i < |items| && items[i].product in edits ==>
      0 <= edits[items[i].product] <= items[i].unitPrice * items[i].quantity
  }

  function WithTyped(items: seq<RefundItem>, edits: map<ProductId, int>): (r: seq<RefundItem>)
    ensures |r| == |items|
  {
    seq(|items|, i requires 0 <= i < |items| =>
      if items[i].product in edits then items[i].(amount := edits[items[i].product]) else items[i])
  }

  lemma {:induction false} EditedAreTyped(items: seq<RefundItem>, edits: map<ProductId, int>)
    ensures EditByProduct(items, edits) == if Typed(items, edits) then Some(WithTyped(items, edits)) else None
  {
    if items != [] {
      var init, last := items[..|items| - 1], |items| - 1;
      EditedAreTyped(init, edits);
      assert Typed(items, edits) ==> Typed(init, edits);
      if Typed(init, edits) && Typed([items[last]], edits) {
        forall i | 0 <= i < |items| && items[i].product in edits
          ensures 0 <= edits[items[i].product] <= items[i].unitPrice * items[i].quantity
        {
          assert items[i] == if i < last then init[i] else [items[last]][0];
        }
      }
      assert WithTyped(items, edits) == WithTyped(init, edits) + [WithTyped(items, edits)[last]];
    }
  }

  predicate MayServe(w: World, o: nat, products: seq<ProductId>, edits: map<ProductId, int>)
    requires o < |w.orders|
  {
    var ord := w.orders[o];
    && ord.status in {Delivered, Completed, AfterSales} && products != []
    && Ticked(ord.lines, products) && Typed(FullItems(ord.lines, products), edits)
    && 1 <= Sum(Amounts(WithTyped(FullItems(ord.lines, products), edits))) <= ord.payable - AskedFor(w.refunds, o)
  }

  function ServedRow(ord: Order, o: nat, products: seq<ProductId>, edits: map<ProductId, int>): Refund
    requires Ticked(ord.lines, products)
  {
    var items := WithTyped(FullItems(ord.lines, products), edits);
    Refund(o, AfterSale, Sum(Amounts(items)), true, if ord.status == AfterSales then None else Some(ord.status), Pending, items)
  }

  /**
   Customer service refunds products of an order that was delivered or is held, up to everything paid,
   fee included, beside what was asked for before; only an order that is not held yet is remembered.
   */
  lemma ServedExactlyWhen(w: World, o: nat, products: seq<ProductId>, edits: map<ProductId, int>)
    requires o < |w.orders|
    ensures DoOpenGoodsRefund(w, o, products, edits)
         == if MayServe(w, o, products, edits)
            then Committed(Opened(w, o, AfterSales, ServedRow(w.orders[o], o, products, edits))) else Rejected
  {
    var lines := w.orders[o].lines;
    TotalsMean(w.refunds, o);
    ParsedAreFull(lines, products);
    if Ticked(lines, products) {
      EditedAreTyped(FullItems(lines, products), edits);
      ItemsTotalIsSum(WithTyped(FullItems(lines, products), edits));
    }
  }

  // ----- the audit -----

  /** The last amount the auditor gives a line, if any. */
  function LastEdit(edits: seq<(nat, int)>, k: nat): Option<int>
  {
    if edits == [] then None
    else if edits[|edits| - 1].0 == k then Some(edits[|edits| - 1].1) else LastEdit(edits[..|edits| - 1], k)
  }

  /** Every amount the auditor gives is for a line of the refund, and within its price. */
  predicate Allowed(items: seq<RefundItem>, edits: seq<(nat, int)>)
  {
    forall j :: 0 <= j < |edits| ==>
      edits[j].0 < |items| && 0 <= edits[j].1 <= items[edits[j].0].unitPrice * items[edits[j].0].quantity
  }

  function WithEdits(items: seq<RefundItem>, edits: seq<(nat, int)>): (r: seq<RefundItem>)
    ensures |r| == |items|
  {
    seq(|items|, k requires 0 <= k < |items| =>
      var e := LastEdit(edits, k); if e.Some? then items[k].(amount := e.value) else items[k])
  }

  lemma {:induction false} EditedLineByLine(items: seq<RefundItem>, edits: seq<(nat, int)>)
    ensures EditByLine(items, edits) == if Allowed(items, edits) then Some(WithEdits(items, edits)) else None
  {
    if edits == [] {
      assert WithEdits(items, edits) == items;
    } else {
      var init, last := edits[..|edits| - 1], edits[|edits| - 1];
      EditedLineByLine(items, init);
      assert Allowed(items, edits) <==> Allowed(items, init) && Allowed(items, [last]) by {
        assert edits == init + [last];
      }
      if Allowed(items, edits) {
        assert WithEdits(items, edits) == WithEdits(items, init)[last.0 := WithEdits(items, init)[last.0].(amount := last.1)];
      }
    }
  }

  /** May a refund of this source be approved on an order seen in this status? */
  predicate TimeToApprove(source: RefundSource, seen: OrderStatus)
  {
    || seen in {AfterSales, Delivered, Completed}
    || (source == PreDelivery && seen in {Paid, Picking, WaitingFirstMile, Arrived, FirstMile, WaitingHandover, LastMile})
  }

  /** The auditor's switch decides about the fee; without it, the campus, or that the order is past the pool. */
  predicate FeeBack(seen: OrderStatus, feeSwitch: Option<bool>, campusRefundsFee: bool)
  {
    if feeSwitch.Some? then feeSwitch.value
    else campusRefundsFee || seen !in {Paid, Picking, WaitingFirstMile}
  }

  function FinalAmount(rf: Refund, edits: seq<(nat, int)>): int
  {
    if rf.source == PreDelivery || rf.items == [] then rf.amount else Sum(Amounts(WithEdits(rf.items, edits)))
  }

  predicate MayApprove(w: World, r: nat, seen: OrderStatus, withFee: bool, edits: seq<(nat, int)>)
    requires IsRefund(w, r)
  {
    var rf := w.refunds[r];
    var ord := w.orders[rf.order];
    && rf.status in {Pending, Failed} && TimeToApprove(rf.source, seen) && (seen == AfterSales || ord.status == seen)
    && Allowed(rf.items, edits)
    && 1 <= FinalAmount(rf, edits)
    && FinalAmount(rf, edits) + OthersAskFor(w.refunds, rf.order, r) <= ord.payable - if withFee then 0 else ord.fee
  }

  lemma PricedExactlyWhen(w: World, r: nat, withFee: bool, edits: seq<(nat, int)>)
    requires IsRefund(w, r)
    ensures var rf := w.refunds[r];
            Priced(w, r, withFee, edits) ==
              if Allowed(rf.items, edits) && 1 <= FinalAmount(rf, edits)
                 && FinalAmount(rf, edits) + OthersAskFor(w.refunds, rf.order, r)
                      <= w.orders[rf.order].payable - (if withFee then 0 else w.orders[rf.order].fee)
              then Some(rf.(status := Approved, amount := FinalAmount(rf, edits), withFee := withFee, items := WithEdits(rf.items, edits)))
              else None
  {
    var rf := w.refunds[r];
    OthersMean(w.refunds, rf.order, r);
    EditedLineByLine(rf.items, edits);
    ItemsTotalIsSum(WithEdits(rf.items, edits));
  }

  /**
   An approval goes through exactly when the refund waits for one, the order stands where it was read,
   and the final amount fits beside what the others ask for: everything paid when the fee may go back,
   everything but the fee when not.
   */
  lemma ApprovedExactlyWhen(w: World, r: nat, seen: OrderStatus, feeSwitch: Option<bool>, campus: bool, edits: seq<(nat, int)>)
    requires IsRefund(w, r)
    ensures var s, rf, withFee := Approve(r, seen, feeSwitch, campus, edits), w.refunds[r], FeeBack(seen, feeSwitch, campus);
            && (Perform(w, s).Committed? <==> MayApprove(w, r, seen, withFee, edits))
            && (Perform(w, s).Committed? ==>
                  Next(w, s) == w.(
                    orders := if seen == AfterSales then w.orders
                              else w.orders[rf.order := w.orders[rf.order].(status := AfterSales)],
                    refunds := w.refunds[r := rf.(status := Approved, amount := FinalAmount(rf, edits), withFee := withFee,
                                                  items := WithEdits(rf.items, edits))]))
  {
    PricedExactlyWhen(w, r, FeeBack(seen, feeSwitch, campus), edits);
    if MayApprove(w, r, seen, FeeBack(seen, feeSwitch, campus), edits) {
      assert OrderArrived(seen) <==> seen !in {Paid, Picking, WaitingFirstMile};
      assert w.orders[w.refunds[r].order := w.orders[w.refunds[r].order]] == w.orders;
    }
  }

  // ----- settling -----

  /** Does some refund of the order, paid back or still in question, claim the delivery fee? */
  predicate FeeClaimed(rs: seq<Refund>, o: nat)
  {
    exists k :: 0 <= k < |rs| && rs[k].order == o && rs[k].withFee && rs[k].status in {Pending, Approved, Refunding, Finished}
  }

  function BackTo(before: Option<OrderStatus>): OrderStatus
  {
    match before
    case Some(Paid) => Paid
    case Some(Picking) => Picking
    case Some(WaitingFirstMile) => WaitingFirstMile
    case Some(Arrived) => Arrived
    case Some(FirstMile) => FirstMile
    case Some(WaitingHandover) => WaitingHandover
    case Some(LastMile) => LastMile
    case Some(Completed) => Completed
    case _ => Delivered
  }

  lemma WholeMeans(w: World, r: nat)
    requires IsRefund(w, r)
    ensures var rf := w.refunds[r];
            var ord := w.orders[rf.order];
            IsWhole(w, r) <==>
              rf.source == PreDelivery
              || PaidOut(w.refunds, rf.order) + rf.amount >= ord.payable - if FeeClaimed(w.refunds, rf.order) then 0 else ord.fee
  {
    var rf := w.refunds[r];
    TotalsMean(w.refunds, rf.order);
    assert FeeClaimed(w.refunds, rf.order) <==> exists k :: 0 <= k < |w.refunds| && ClaimsFee(w.refunds[k], rf.order) by {
      forall k | 0 <= k < |w.refunds|
        ensures ClaimsFee(w.refunds[k], rf.order) <==>
          w.refunds[k].order == rf.order && w.refunds[k].withFee && w.refunds[k].status in {Pending, Approved, Refunding, Finished}
      {
      }
    }
  }

  lemma SettledRow(w: World, r: nat)
    requires Perform(w, Finish(r)).Committed?
    ensures IsRefund(w, r) && w.refunds[r].status != Finished
    ensures Next(w, Finish(r)).refunds == w.refunds[r := w.refunds[r].(status := Finished)]
    ensures PaidOut(Next(w, Finish(r)).refunds, w.refunds[r].order) == PaidOut(w.refunds, w.refunds[r].order) + w.refunds[r].amount
    ensures |Next(w, Finish(r)).orders| == |w.orders|
    ensures Next(w, Finish(r)).orders[w.refunds[r].order].status
         == if IsWhole(w, r) then OrderStatus.Refunded else RestoreTarget(w.refunds[r].before)
  {
    var o, rf := w.refunds[r].order, w.refunds[r].(status := Finished);
    TotalOfUpdate(w.refunds, r, rf, Settled, o);
    TotalsMean(w.refunds, o);
    TotalsMean(w.refunds[r := rf], o);
  }

  /**
   When a settlement empties its order: a whole-order refund always does; one by product exactly when
   what is now paid back reaches everything paid, if some refund of the order claims the fee, and
   everything but the fee otherwise. Any other settlement puts the order back where the refund found it.
   */
  lemma SettlementEmptiesExactlyWhen(w: World, r: nat)
    requires Perform(w, Finish(r)).Committed?
    ensures var rf, v := w.refunds[r], Next(w, Finish(r));
            var ord := w.orders[rf.order];
            var emptied := rf.source == PreDelivery
              || PaidOut(v.refunds, rf.order) >= ord.payable - if FeeClaimed(w.refunds, rf.order) then 0 else ord.fee;
            && (v.orders[rf.order].status == OrderStatus.Refunded <==> emptied)
            && (!emptied ==> v.orders[rf.order].status == BackTo(rf.before))
  {
    WholeMeans(w, r);
    SettledRow(w, r);
  }

  // ----- a refund's way -----

  /** From where each of these steps takes a refund. */
  predicate MayTake(s: Step, from: RefundStatus)
  {
    match s
    case Withdraw(_) => from == Pending
    case Deny(_) => from in {Pending, Failed}
    case Processing(_) => from != Finished
    case Close(_) => from != Finished
    case Accept(_) => true
    case Refuse(_) => true
    case _ => false
  }

  function TakenTo(s: Step): RefundStatus
  {
    match s
    case Withdraw(_) => Withdrawn
    case Deny(_) => Denied
    case Accept(_) => Refunding
    case Processing(_) => Refunding
    case _ => Failed
  }

  /** Where the refund's order goes: a held one back where the refund found it, or on hold for good news. */
  function OrderTaken(s: Step, now: OrderStatus, rf: Refund): OrderStatus
  {
    match s
    case Accept(_) => now
    case Processing(_) => AfterSales
    case Withdraw(_) =>
      if now != AfterSales then now
      else if rf.before in {Some(Paid), Some(Completed)} then BackTo(rf.before) else Delivered
    case Refuse(_) =>
      if now != AfterSales then now else if rf.source == PreDelivery && rf.before == None then Paid else BackTo(rf.before)
    case _ => if now != AfterSales then now else BackTo(rf.before)
  }

  /** Every answer to a refund: when it is taken, and the one row and the one status it writes. */
  lemma AnsweredExactlyWhen(w: World, s: Step, r: nat)
    requires IsRefund(w, r) && s in {Withdraw(r), Deny(r), Accept(r), Refuse(r), Processing(r), Close(r)}
    ensures var rf := w.refunds[r];
            Next(w, s) == if MayTake(s, rf.status)
                          then Rewrite(w, rf.order, OrderTaken(s, w.orders[rf.order].status, rf), r, rf.(status := TakenTo(s)))
                          else w
    ensures Perform(w, s).Committed? <==> MayTake(s, w.refunds[r].status)
  {
  }
}
