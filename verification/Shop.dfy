/** The rows the order and refund services update, transaction by transaction, against the trade machine. */
module Shop {
  import opened Sums
  import opened OrderState
  import opened Inventory
  import opened Trade
  import opened TradeSafety
  import opened TradeCeiling
  import opened TradeRaces

  class Database {
    var products: map<ProductId, Product>
    var ledger: seq<Txn>
    var orders: seq<Order>
    var coupons: seq<CouponStatus>
    var refunds: seq<Refund>

    ghost function Read(): World
      reads this
    {
      World(Goods(products, ledger), orders, coupons, refunds)
    }

    /** A transaction that ended the way the step ends: committed, found already done, or rolled back. */
    ghost predicate Did(before: World, out: Outcome, ok: bool)
      reads this
    {
      Read() == Result(before, out) && ok == !out.Rejected?
    }

    // ----- small writes -----

    method SetCoupon(c: Option<nat>, from: set<CouponStatus>, to: CouponStatus)
      modifies this`coupons
      ensures coupons == MoveCoupon(old(coupons), c, from, to)
    {
      if c.Some? && c.value < |coupons| && coupons[c.value] in from {
        coupons := coupons[c.value := to];
      }
    }

    method SetOrder(o: nat, status: OrderStatus)
      requires o < |orders|
      modifies this`orders
      ensures orders == old(orders)[o := old(orders)[o].(status := status)]
    {
      orders := orders[o := orders[o].(status := status)];
    }

    /** Back to where it was, unless something else moved the order out of after-sales. */
    method Restore(o: nat, target: OrderStatus)
      requires o < |orders|
      modifies this`orders
      ensures orders == old(orders)[o := old(orders)[o].(status := PutBack(old(orders)[o].status, target))]
    {
      if orders[o].status == AfterSales {
        SetOrder(o, target);
      }
    }

    method TotalRefunds(t: Tally, o: nat) returns (sum: int)
      ensures sum == RefundTotal(refunds, t, o)
    {
      sum := 0;
      for i := 0 to |refunds|
        invariant sum == RefundTotal(refunds[..i], t, o)
      {
        TotalOfAppend(refunds[..i], refunds[i], t, o);
        assert refunds[..i + 1] == refunds[..i] + [refunds[i]];
        if refunds[i].order == o && Counts(t, refunds[i]) {
          sum := sum + refunds[i].amount;
        }
      }
      assert refunds[..|refunds|] == refunds;
    }

    // ----- ordering and payment -----

    method PlaceOrder(lines: seq<Line>, coupon: Option<nat>, goods: nat, fee: nat, discount: nat, now: int) returns (ok: bool)
      modifies this
      ensures Did(old(Read()), DoCreateOrder(old(Read()), lines, coupon, goods, fee, discount, now), ok)
    {
      if discount > goods + fee || coupon.None? != (discount == 0) {
        return false;
      }
      if coupon.Some? {
        if coupon.value >= |coupons| || coupons[coupon.value] !in {Claimed, Released} {
          return false;
        }
        coupons := coupons[coupon.value := Locked];
      }
      orders := orders + [Order(PendingPayment, lines, coupon, goods, fee, goods + fee - discount, now, false)];
      return true;
    }

    /** First pass: every line must be in stock and costed, as read; the second pass takes the goods under guard. */
    method CheckLines(lines: seq<Line>, read: map<ProductId, Product>) returns (stamped: Option<seq<Line>>)
      ensures stamped == Stamp(lines, read)
    {
      var done: seq<Line> := [];
      for i := 0 to |lines|
        invariant Stamp(lines[..i], read) == Some(done)
      {
        assert lines[..i + 1][..i] == lines[..i];
        var line := lines[i];
        if line.product !in read
           || read[line.product].stock - read[line.product].locked < line.quantity
           || (read[line.product].mode == Some(FromLocal) && read[line.product].localPrice.None?) {
          StampFailsForGood(lines, read, i + 1);
          return None;
        }
        done := done + [line.(source := Some(SoldAs(read[line.product])))];
      }
      assert lines[..|lines|] == lines;
      return Some(done);
    }

    lemma {:induction false} StampFailsForGood(lines: seq<Line>, read: map<ProductId, Product>, i: nat)
      requires i <= |lines| && Stamp(lines[..i], read).None?
      ensures Stamp(lines, read).None?
      decreases |lines|
    {
      if i == |lines| {
        assert lines[..i] == lines;
      } else {
        assert lines[..|lines| - 1][..i] == lines[..i];
        StampFailsForGood(lines[..|lines| - 1], read, i);
      }
    }

    lemma {:induction false} SellFailsForGood(inv: Goods, lines: seq<Line>, i: nat)
      requires i <= |lines| && Sell(inv, lines[..i]).None?
      ensures Sell(inv, lines).None?
      decreases |lines|
    {
      if i == |lines| {
        assert lines[..i] == lines;
      } else {
        assert lines[..|lines| - 1][..i] == lines[..i];
        SellFailsForGood(inv, lines[..|lines| - 1], i);
      }
    }

    /** Decrement line by line; any line that cannot be served undoes the lines before it. */
    method TakeGoods(lines: seq<Line>) returns (ok: bool)
      modifies this`products
      ensures var sold := Sell(Goods(old(products), ledger), lines);
              ok == sold.Some? && products == if ok then sold.value.products else old(products)
    {
      var before := products;
      ghost var inv := Goods(products, ledger);
      for i := 0 to |lines|
        invariant Sell(inv, lines[..i]) == Some(Goods(products, ledger))
      {
        assert lines[..i + 1][..i] == lines[..i];
        var line := lines[i];
        if line.product !in products || products[line.product].stock - products[line.product].locked < line.quantity {
          SellFailsForGood(inv, lines, i + 1);
          products := before;
          return false;
        }
        var p := products[line.product];
        products := products[line.product := p.(stock := p.stock - line.quantity, sales := p.sales + line.quantity)];
      }
      assert lines[..|lines|] == lines;
      return true;
    }

    lemma SellKeepsLedger(inv: Goods, lines: seq<Line>)
      ensures Sell(inv, lines).Some? ==> Sell(inv, lines).value.ledger == inv.ledger
    {
      SellTakesWholeDemand(inv, lines);
    }

    method PayOrder(o: nat, seen: PaySnapshot, now: int) returns (ok: bool)
      modifies this
      ensures Did(old(Read()), DoPay(old(Read()), o, seen, now), ok)
    {
      if o >= |orders| {
        return false;
      }
      if seen.status == Paid {
        return true;
      }
      if now - orders[o].createdAt >= PAYMENT_TIMEOUT || seen.status != PendingPayment {
        return false;
      }
      var stamped := CheckLines(orders[o].lines, seen.products);
      if stamped.None? || orders[o].status != PendingPayment {
        return false;
      }
      SellKeepsLedger(Goods(products, ledger), stamped.value);
      ok := TakeGoods(stamped.value);
      if ok {
        orders := orders[o := orders[o].(status := Paid, lines := stamped.value)];
        SetCoupon(orders[o].coupon, {Locked}, Used);
      }
    }

    /** The payment report: settle the order, or put it aside when payment refuses it. */
    method TakePayment(o: nat, seen: PaySnapshot, now: int) returns (frozen: bool)
      modifies this
      ensures Read() == HandlePayment(old(Read()), o, seen, now)
      ensures frozen <==> DoPay(old(Read()), o, seen, now).Rejected? && DoFreeze(old(Read()), o).Committed?
    {
      frozen := false;
      var ok := PayOrder(o, seen, now);
      if !ok && o < |orders| && orders[o].status in {PendingPayment, Cancelled} {
        SetOrder(o, Frozen);
        frozen := true;
      }
    }

    method CancelOrder(o: nat, seen: OrderStatus) returns (ok: bool)
      modifies this
      ensures Did(old(Read()), DoCancel(old(Read()), o, seen), ok)
    {
      if o >= |orders| || seen != PendingPayment || orders[o].status != seen {
        return false;
      }
      SetOrder(o, Cancelled);
      SetCoupon(orders[o].coupon, {Locked, Used}, Released);
      return true;
    }

    /** The timeout job: each order on the list is closed only if it is still waiting when its turn comes. */
    method CloseStaleOrders(ids: seq<nat>)
      modifies this
      ensures Read() == Run(old(Read()), seq(|ids|, i requires 0 <= i < |ids| => CloseStale(ids[i])))
    {
      ghost var steps := seq(|ids|, i requires 0 <= i < |ids| => CloseStale(ids[i]));
      for i := 0 to |ids|
        invariant Read() == Run(old(Read()), steps[..i])
      {
        assert steps[..i + 1][..i] == steps[..i];
        var o := ids[i];
        if o < |orders| && orders[o].status == PendingPayment {
          SetOrder(o, Cancelled);
          SetCoupon(orders[o].coupon, {Locked}, Released);
        }
      }
      assert steps[..|ids|] == steps;
    }

    method ShipOut(o: nat, seen: OrderStatus) returns (ok: bool)
      modifies this
      ensures Did(old(Read()), DoOutbound(old(Read()), o, seen), ok)
    {
      if o >= |orders| || seen !in {Paid, Picking} || orders[o].status != seen {
        return false;
      }
      SetOrder(o, WaitingFirstMile);
      var lines := orders[o].lines;
      ghost var inv := Goods(products, ledger);
      for i := 0 to |lines|
        invariant LogOut(inv, lines[..i]) == Goods(products, ledger)
        invariant products == inv.products && orders == old(orders)[o := old(orders)[o].(status := WaitingFirstMile)]
        invariant coupons == old(coupons) && refunds == old(refunds)
      {
        assert lines[..i + 1][..i] == lines[..i];
        if lines[i].product in products {
          ledger := ledger + [Txn(lines[i].product, OutTxn, 0 - lines[i].quantity)];
        }
      }
      assert lines[..|lines|] == lines;
      return true;
    }

    // ----- refunds -----

    method AskRefund(o: nat, seen: OrderStatus, source: RefundSource, ticked: seq<ProductId>) returns (ok: bool)
      modifies this
      ensures Did(old(Read()), DoRequestRefund(old(Read()), o, seen, source, ticked), ok)
    {
      if o >= |orders| || (source == PreDelivery && seen != Paid) || (source == AfterSale && seen !in {Delivered, Completed}) {
        return false;
      }
      var ord := orders[o];
      var items := if source == PreDelivery then Some([]) else ParseItems(ord.lines, ticked);
      if items.None? {
        return false;
      }
      var limit := RefundAmountFor(ord.payable, ord.fee);
      var amount := if items.value == [] then limit else ItemsTotal(items.value);
      if amount < 1 || ord.status != seen {
        return false;
      }
      var reserved := TotalRefunds(Reserved, o);
      if amount > limit - reserved {
        return false;
      }
      SetOrder(o, AfterSales);
      refunds := refunds + [Refund(o, source, amount, false, Some(seen), Pending, items.value)];
      return true;
    }

    /** The back office queues a whole-order refund unless its list shows one under way; the order keeps moving. */
    method OpenWhole(o: nat, seen: OrderStatus, listed: seq<Refund>) returns (ok: bool)
      modifies this`refunds
      ensures Did(old(Read()), DoOpenWholeRefund(old(Read()), o, seen, listed), ok)
    {
      if o >= |orders| || !PreDeliveryRefundable(seen) || orders[o].goods < 1 {
        return false;
      }
      for r := 0 to |listed|
        invariant forall k :: 0 <= k < r ==> !Underway(listed[k], o)
      {
        if Underway(listed[r], o) {
          return false;
        }
      }
      assert Read().orders[o := orders[o].(status := orders[o].status)] == orders;
      refunds := refunds + [Refund(o, PreDelivery, orders[o].goods, false, Some(seen), Pending, [])];
      return true;
    }

    /** Line by line, the amounts customer service typed in replace the full price. */
    method EditItems(items: seq<RefundItem>, edits: map<ProductId, int>) returns (r: Option<seq<RefundItem>>)
      ensures r == EditByProduct(items, edits)
    {
      var edited: seq<RefundItem> := [];
      for k := 0 to |items|
        invariant EditByProduct(items[..k], edits) == Some(edited)
      {
        assert items[..k + 1][..k] == items[..k];
        var item := items[k];
        if item.product in edits {
          if edits[item.product] < 0 || edits[item.product] > item.unitPrice * item.quantity {
            ItemsFailForGood(items, edits, k + 1);
            return None;
          }
          item := item.(amount := edits[item.product]);
        }
        edited := edited + [item];
      }
      assert items[..|items|] == items;
      return Some(edited);
    }

    lemma {:induction false} ItemsFailForGood(items: seq<RefundItem>, edits: map<ProductId, int>, k: nat)
      requires k <= |items| && EditByProduct(items[..k], edits).None?
      ensures EditByProduct(items, edits).None?
      decreases |items|
    {
      if k == |items| {
        assert items[..k] == items;
      } else {
        assert items[..|items| - 1][..k] == items[..k];
        ItemsFailForGood(items[..|items| - 1], edits, k);
      }
    }

    /** Customer service opens a refund by product, under the ceiling that includes the delivery fee. */
    method OpenGoods(o: nat, ticked: seq<ProductId>, edits: map<ProductId, int>) returns (ok: bool)
      modifies this
      ensures Did(old(Read()), DoOpenGoodsRefund(old(Read()), o, ticked, edits), ok)
    {
      if o >= |orders| || orders[o].status !in {Delivered, Completed, AfterSales} || ticked == [] {
        return false;
      }
      var ord := orders[o];
      var parsed := ParseItems(ord.lines, ticked);
      if parsed.None? {
        return false;
      }
      var items := EditItems(parsed.value, edits);
      if items.None? {
        return false;
      }
      var total := ItemsTotal(items.value);
      var already := TotalRefunds(Reserved, o);
      if total < 1 || total + already > RefundCeiling(ord.payable, ord.fee, true) {
        return false;
      }
      SetOrder(o, AfterSales);
      refunds := refunds + [Refund(o, AfterSale, total, true, if ord.status == AfterSales then None else Some(ord.status),
                                   Pending, items.value)];
      return true;
    }

    /** A write that was decided on `status`, read earlier: all of it, or nothing when the check failed. */
    ghost predicate WroteLate(before: World, u: LateWrite, status: RefundStatus, ok: bool)
      reads this
    {
      ok == (IsRefund(before, u.refund) && Passes(u, status)) && Read() == if ok then Write(before, u) else before
    }

    /** The shopper's withdrawal checks the status it read, then writes without looking again. */
    method WithdrawRefund(r: nat, seen: RefundStatus) returns (ok: bool)
      modifies this
      ensures WroteLate(old(Read()), Withdrawing(r), seen, ok)
    {
      if r >= |refunds| || refunds[r].order >= |orders| || seen != Pending {
        return false;
      }
      refunds := refunds[r := refunds[r].(status := Withdrawn)];
      Restore(refunds[r].order, WithdrawTarget(refunds[r].before));
      return true;
    }

    /** So does the auditor's denial. */
    method DenyRefund(r: nat, seen: RefundStatus) returns (ok: bool)
      modifies this
      ensures WroteLate(old(Read()), Denying(r), seen, ok)
    {
      if r >= |refunds| || refunds[r].order >= |orders| || seen !in {Pending, Failed} {
        return false;
      }
      refunds := refunds[r := refunds[r].(status := Denied)];
      Restore(refunds[r].order, RestoreTarget(refunds[r].before));
      return true;
    }

    /** The auditor's line amounts: all checked against the lines, then written one after another. */
    method EditLines(items: seq<RefundItem>, edits: seq<(nat, int)>) returns (r: Option<seq<RefundItem>>)
      ensures r == EditByLine(items, edits)
    {
      var edited := items;
      for k := 0 to |edits|
        invariant |edited| == |items| && EditByLine(items, edits[..k]) == Some(edited)
      {
        assert edits[..k + 1][..k] == edits[..k];
        var (i, amount) := edits[k];
        if i >= |items| || amount < 0 || amount > items[i].unitPrice * items[i].quantity {
          EditFailsForGood(items, edits, k + 1);
          return None;
        }
        edited := edited[i := edited[i].(amount := amount)];
      }
      assert edits[..|edits|] == edits;
      return Some(edited);
    }

    lemma {:induction false} EditFailsForGood(items: seq<RefundItem>, edits: seq<(nat, int)>, k: nat)
      requires k <= |edits| && EditByLine(items, edits[..k]).None?
      ensures EditByLine(items, edits).None?
      decreases |edits|
    {
      if k == |edits| {
        assert edits[..k] == edits;
      } else {
        assert edits[..|edits| - 1][..k] == edits[..k];
        EditFailsForGood(items, edits[..|edits| - 1], k);
      }
    }

    /** Fix the final amount and check the ceiling against everyone else's refunds. */
    method Price(r: nat, includeFee: bool, edits: seq<(nat, int)>) returns (priced: Option<Refund>)
      requires IsRefund(Read(), r)
      ensures priced == Priced(Read(), r, includeFee, edits)
    {
      var rf := refunds[r];
      var items := EditLines(rf.items, edits);
      if items.None? {
        return None;
      }
      var amount := ApprovedAmount(rf.source, rf.amount, items.value);
      var reserved := TotalRefunds(Reserved, rf.order);
      if Counts(Reserved, rf) {
        reserved := reserved - rf.amount;
      }
      if amount < 1 || amount + reserved > RefundCeiling(orders[rf.order].payable, orders[rf.order].fee, includeFee) {
        return None;
      }
      return Some(rf.(status := Approved, amount := amount, withFee := includeFee, items := items.value));
    }

    /** Claim the audit and the order, and book the refund at its final price. */
    method ApproveRefund(r: nat, seen: OrderStatus, feeSwitch: Option<bool>, campusRefundsFee: bool, edits: seq<(nat, int)>) returns (ok: bool)
      modifies this
      ensures Did(old(Read()), DoApprove(old(Read()), r, seen, feeSwitch, campusRefundsFee, edits), ok)
    {
      if r >= |refunds| || refunds[r].order >= |orders| || refunds[r].status !in {Pending, Failed} {
        return false;
      }
      var rf := refunds[r];
      var open := rf.source == PreDelivery && PreDeliveryRefundable(seen);
      if !open && seen !in {AfterSales, Delivered, Completed} {
        return false;
      }
      if seen != AfterSales && orders[rf.order].status != seen {
        return false;
      }
      var includeFee := OrderArrived(seen) || campusRefundsFee;
      if feeSwitch.Some? {
        includeFee := feeSwitch.value;
      }
      var priced := Price(r, includeFee, edits);
      if priced.None? {
        return false;
      }
      if seen != AfterSales {
        SetOrder(rf.order, AfterSales);
      }
      refunds := refunds[r := priced.value];
      return true;
    }

    /** What the channel says to the request itself: taken on, or refused outright. */
    method HearAnswer(r: nat, accepted: bool) returns (ok: bool)
      modifies this
      ensures Did(old(Read()), if accepted then DoAccept(old(Read()), r) else DoRefuse(old(Read()), r), ok)
    {
      if r >= |refunds| || refunds[r].order >= |orders| {
        return false;
      }
      var rf := refunds[r];
      if accepted {
        refunds := refunds[r := rf.(status := Refunding)];
        assert orders == orders[rf.order := orders[rf.order].(status := orders[rf.order].status)];
      } else {
        refunds := refunds[r := rf.(status := Failed)];
        var before := rf.before;
        if rf.source == PreDelivery && before.None? {
          before := Some(Paid);
        }
        Restore(rf.order, RestoreTarget(before));
      }
      return true;
    }

    /** Is the delivery fee part of any refund that counts? */
    method FeeClaimed(o: nat) returns (claimed: bool)
      ensures claimed == exists k :: 0 <= k < |refunds| && ClaimsFee(refunds[k], o)
    {
      for i := 0 to |refunds|
        invariant forall k :: 0 <= k < i ==> !ClaimsFee(refunds[k], o)
      {
        if ClaimsFee(refunds[i], o) {
          return true;
        }
      }
      return false;
    }

    /** Put an order's goods back on the shelves they may go back to. */
    method ReturnLines(lines: seq<Line>)
      modifies this`products
      ensures products == GiveBack(Goods(old(products), ledger), lines).products
    {
      ghost var inv := Goods(products, ledger);
      GiveBackReturns(inv, []);
      for i := 0 to |lines|
        invariant GiveBack(inv, lines[..i]) == Goods(products, ledger)
      {
        assert lines[..i + 1][..i] == lines[..i];
        var line := lines[i];
        if line.product in products {
          var p := products[line.product];
          var back := match line.source
            case None => true
            case Some(Legacy) => true
            case Some(SoldHq) => p.mode == Some(FromHq)
            case Some(SoldLocal) => p.mode == Some(FromLocal);
          if back {
            products := products[line.product := p.(stock := p.stock + line.quantity, sales := p.sales - line.quantity)];
          }
        }
      }
      assert lines[..|lines|] == lines;
    }

    /** Success reported by the channel: settle once, then move the order, the goods and the coupon. */
    method FinishRefund(r: nat) returns (ok: bool)
      modifies this
      ensures Did(old(Read()), DoFinish(old(Read()), r), ok)
    {
      if r >= |refunds| || refunds[r].order >= |orders| {
        return false;
      }
      var rf := refunds[r];
      if rf.status == Finished {
        return true;
      }
      var ord := orders[rf.order];
      var feeClaimed := FeeClaimed(rf.order);
      var total := TotalRefunds(Settled, rf.order);
      total := total + rf.amount;
      var whole := rf.source == PreDelivery || total >= RefundCeiling(ord.payable, ord.fee, feeClaimed);
      SetOrder(rf.order, if whole then OrderStatus.Refunded else RestoreTarget(rf.before));
      refunds := refunds[r := rf.(status := Finished)];
      if rf.source == PreDelivery {
        if !ord.stockRestored {
          GiveBackReturns(Goods(products, ledger), ord.lines);
          ReturnLines(ord.lines);
          orders := orders[rf.order := orders[rf.order].(stockRestored := true)];
        }
        SetCoupon(ord.coupon, {Locked, Used}, Released);
      }
      return true;
    }

    /** The channel's other answers: a closing always writes, progress moves the order only from where it was read. */
    method Reconcile(r: nat, closed: bool, seen: RefundStatus, seenOrder: OrderStatus) returns (ok: bool)
      modifies this
      ensures WroteLate(old(Read()), if closed then Closing(r) else Progressing(r, seenOrder), seen, ok)
    {
      if r >= |refunds| || refunds[r].order >= |orders| || seen == Finished {
        return false;
      }
      if closed {
        refunds := refunds[r := refunds[r].(status := Failed)];
        Restore(refunds[r].order, RestoreTarget(refunds[r].before));
      } else {
        var o := refunds[r].order;
        SetOrder(o, if orders[o].status in {seenOrder, AfterSales} then AfterSales else orders[o].status);
        refunds := refunds[r := refunds[r].(status := Refunding)];
      }
      return true;
    }

    // ----- the stockroom -----

    method StockIn(row: ProductId, quantity: Quantity) returns (ok: bool)
      modifies this`products, this`ledger
      ensures Did(old(Read()), Perform(old(Read()), Stockroom(StockOp.StockIn(row, quantity))), ok)
    {
      if row !in products || (row.campus != OFFICIAL && products[row].mode != Some(FromLocal)) {
        return false;
      }
      products := products[row := products[row].(stock := products[row].stock + quantity)];
      ledger := ledger + [Txn(row, StockInTxn, quantity)];
      return true;
    }

    method AdjustStock(row: ProductId, delta: int) returns (ok: bool)
      modifies this`products, this`ledger
      ensures Did(old(Read()), Perform(old(Read()), Stockroom(StockOp.Adjust(row, delta))), ok)
    {
      if delta == 0 || row !in products || products[row].stock + delta < 0 {
        return false;
      }
      products := products[row := products[row].(stock := products[row].stock + delta)];
      ledger := ledger + [Txn(row, AdjustTxn, delta)];
      return true;
    }

    /** Counting: the difference goes through the ledger as an adjustment; no difference, no entry. */
    method TakeStock(row: ProductId, counted: int) returns (ok: bool)
      modifies this`products, this`ledger
      ensures Did(old(Read()), Perform(old(Read()), Stockroom(StockOp.Stocktake(row, counted))), ok)
    {
      if row !in products {
        return false;
      }
      var delta := counted - products[row].stock;
      if delta == 0 {
        return true;
      }
      if counted < 0 {
        return false;
      }
      products := products[row := products[row].(stock := counted)];
      ledger := ledger + [Txn(row, AdjustTxn, delta)];
      return true;
    }

    /** The stockroom as a whole: the three manual operations, and what supply orders do to a row. */
    method MoveStock(op: StockOp) returns (ok: bool)
      modifies this`products, this`ledger
      ensures Did(old(Read()), Perform(old(Read()), Stockroom(op)), ok)
    {
      match op
      case StockIn(row, quantity) => ok := StockIn(row, quantity);
      case Adjust(row, delta) => ok := AdjustStock(row, delta);
      case Stocktake(row, counted) => ok := TakeStock(row, counted);
      case Receive(official, units, bad) =>
        if bad > units {
          return false;
        }
        var row := Mirror(HQ, official);
        var p := RowOrNew(Goods(products, ledger), row);
        products := products[row := p.(stock := p.stock + units - bad)];
        ledger := LogIf(LogIf(ledger, Txn(row, PurchaseReceive, units)), Txn(row, PurchaseBad, 0 - bad));
        return true;
      case Ship(official, units) =>
        var row := Mirror(HQ, official);
        var p := RowOrNew(Goods(products, ledger), row);
        products := products[row := p.(stock := p.stock - units)];
        ledger := ledger + [Txn(row, RestockOut, 0 - units)];
        return true;
      case Receipt(campus, official, units) =>
        var row := Mirror(campus, official);
        var p := RowOrNew(Goods(products, ledger), row);
        if p.mode == Some(FromLocal) {
          return false;
        }
        products := products[row := p.(stock := p.stock + units, mode := Some(FromHq))];
        ledger := ledger + [Txn(row, RestockIn, units)];
        return true;
      case SetMode(row, mode) =>
        if row !in products || (products[row].mode.Some? && (products[row].stock != 0 || products[row].locked != 0)) {
          return false;
        }
        products := products[row := products[row].(mode := Some(mode))];
        return true;
    }

    // ----- serving requests -----

    /** One request about ordering, payment or the warehouse. */
    method ServeShop(s: Step) returns (ok: bool)
      requires !IsRefundStep(s) && !s.Finish?
      modifies this
      ensures Did(old(Read()), Perform(old(Read()), s), ok)
    {
      match s
      case GrantCoupon =>
        coupons := coupons + [Claimed];
        return true;
      case CreateOrder(lines, coupon, goods, fee, discount, now) => ok := PlaceOrder(lines, coupon, goods, fee, discount, now);
      case Pay(o, view, now) => ok := PayOrder(o, view, now);
      case CloseStale(o) =>
        ok := o < |orders| && orders[o].status == PendingPayment;
        if ok {
          SetOrder(o, Cancelled);
          SetCoupon(orders[o].coupon, {Locked}, Released);
        }
      case Cancel(o, seen) => ok := CancelOrder(o, seen);
      case Freeze(o) =>
        ok := o < |orders| && orders[o].status in {PendingPayment, Cancelled};
        if ok {
          SetOrder(o, Frozen);
        }
      case Outbound(o, seen) => ok := ShipOut(o, seen);
      case Fulfil(o, from, to) =>
        ok := o < |orders| && FulfilmentEdge(from, to) && orders[o].status == from;
        if ok {
          SetOrder(o, to);
        }
      case Stockroom(op) => ok := MoveStock(op);
    }

    /** A write decided on the very status that stands is the step itself, or a replay of a finished one. */
    lemma FreshWriteIsTheStep(w: World, u: LateWrite)
      requires IsRefund(w, u.refund)
      requires u.Progressing? ==> u.seen == w.orders[w.refunds[u.refund].order].status
      ensures Result(w, Perform(w, Checked(u))) == if Passes(u, w.refunds[u.refund].status) then Write(w, u) else w
      ensures !Perform(w, Checked(u)).Rejected?
         <==> Passes(u, w.refunds[u.refund].status) || ((u.Closing? || u.Progressing?) && w.refunds[u.refund].status == Finished)
    {
      LateWriteIsTheStep(w, u);
    }

    /** One request that undoes a refund or reports on it, served on what stands now. */
    method ServeLate(s: Step) returns (ok: bool)
      requires s.Withdraw? || s.Deny? || s.Processing? || s.Close?
      modifies this
      ensures Did(old(Read()), Perform(old(Read()), s), ok)
    {
      var r := s.refund;
      if r >= |refunds| || refunds[r].order >= |orders| {
        return false;
      }
      var seen, order := refunds[r].status, orders[refunds[r].order].status;
      ghost var w := Read();
      match s
      case Withdraw(_) =>
        FreshWriteIsTheStep(w, Withdrawing(r));
        ok := WithdrawRefund(r, seen);
      case Deny(_) =>
        FreshWriteIsTheStep(w, Denying(r));
        ok := DenyRefund(r, seen);
      case Close(_) =>
        FreshWriteIsTheStep(w, Closing(r));
        ok := Reconcile(r, true, seen, order);
        ok := ok || seen == Finished;
      case Processing(_) =>
        FreshWriteIsTheStep(w, Progressing(r, order));
        ok := Reconcile(r, false, seen, order);
        ok := ok || seen == Finished;
    }

    method ServeRefund(s: Step) returns (ok: bool)
      requires IsRefundStep(s) || s.Finish?
      modifies this
      ensures Did(old(Read()), Perform(old(Read()), s), ok)
    {
      match s
      case RequestRefund(o, seen, source, ticked) => ok := AskRefund(o, seen, source, ticked);
      case OpenWholeRefund(o, seen, listed) => ok := OpenWhole(o, seen, listed);
      case OpenGoodsRefund(o, ticked, edits) => ok := OpenGoods(o, ticked, edits);
      case Approve(r, seen, feeSwitch, campus, edits) => ok := ApproveRefund(r, seen, feeSwitch, campus, edits);
      case Accept(r) => ok := HearAnswer(r, true);
      case Refuse(r) => ok := HearAnswer(r, false);
      case Finish(r) => ok := FinishRefund(r);
      case Withdraw(_) => ok := ServeLate(s);
      case Deny(_) => ok := ServeLate(s);
      case Processing(_) => ok := ServeLate(s);
      case Close(_) => ok := ServeLate(s);
    }

    /**
     Any sequence of requests, served one by one on the tables, does exactly what the run of their
     steps does; so an honest sequence leaves the tables sound and every order under both ceilings.
     */
    method ServeAll(steps: seq<Step>)
      modifies this
      ensures Read() == Run(old(Read()), steps)
      ensures old(Sound(Read()) && UnderCeiling(Read()) && HonestRun(Read(), steps)) ==> Sound(Read()) && UnderCeiling(Read())
    {
      ghost var start := Read();
      for i := 0 to |steps|
        invariant Read() == Run(start, steps[..i])
      {
        assert steps[..i + 1][..i] == steps[..i];
        var ok;
        if IsRefundStep(steps[i]) || steps[i].Finish? {
          ok := ServeRefund(steps[i]);
        } else {
          ok := ServeShop(steps[i]);
        }
      }
      assert steps[..|steps|] == steps;
      if Sound(start) && UnderCeiling(start) && HonestRun(start, steps) {
        RefundsNeverExceedPayment(start, steps);
      }
    }
  }
}
