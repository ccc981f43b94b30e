/**
 Orders, coupons, refunds and stock as one state machine.

 Every database transaction is one step on the current world. What an actor read before its
 transaction arrives as a snapshot (`seen`), and no step assumes that a snapshot is up to date.
 */
module Trade {
  import opened Sums
  import opened OrderState
  import opened Inventory

  /** Fifteen minutes, in milliseconds. */
  const PAYMENT_TIMEOUT: int := 15 * 60 * 1000

  datatype CouponStatus = Claimed | Locked | Used | Released

  datatype Order = Order(
    status: OrderStatus, lines: seq<Line>, coupon: Option<nat>,
    goods: nat, fee: nat, payable: nat, createdAt: int, stockRestored: bool)

  datatype RefundSource = PreDelivery | AfterSale
  datatype RefundStatus = Pending | Approved | Refunding | Finished | Failed | Denied | Withdrawn
  datatype RefundItem = RefundItem(product: ProductId, unitPrice: nat, quantity: Quantity, amount: int)
  datatype Refund = Refund(
    order: nat, source: RefundSource, amount: int, withFee: bool,
    before: Option<OrderStatus>, status: RefundStatus, items: seq<RefundItem>)

  datatype World = World(stock: Goods, orders: seq<Order>, coupons: seq<CouponStatus>, refunds: seq<Refund>)

  /** A refused step rolls back; a replay finds its work already done. Both leave the world alone. */
  datatype Outcome = Committed(world: World) | Replayed | Rejected

  datatype PaySnapshot = PaySnapshot(status: OrderStatus, products: map<ProductId, Product>)

  datatype Step =
    | GrantCoupon
    | CreateOrder(lines: seq<Line>, coupon: Option<nat>, goods: nat, fee: nat, discount: nat, now: int)
    | Pay(order: nat, view: PaySnapshot, now: int)
    | CloseStale(order: nat)
    | Cancel(order: nat, seen: OrderStatus)
    | Freeze(order: nat)
    | Outbound(order: nat, seen: OrderStatus)
    | Fulfil(order: nat, from: OrderStatus, to: OrderStatus)
    | Stockroom(op: StockOp)
    | RequestRefund(order: nat, seen: OrderStatus, source: RefundSource, products: seq<ProductId>)
    | OpenWholeRefund(order: nat, seen: OrderStatus, listed: seq<Refund>)
    | OpenGoodsRefund(order: nat, products: seq<ProductId>, edits: map<ProductId, int>)
    | Withdraw(refund: nat)
    | Deny(refund: nat)
    | Approve(refund: nat, seen: OrderStatus, feeSwitch: Option<bool>, campusRefundsFee: bool, lineEdits: seq<(nat, int)>)
    | Accept(refund: nat)
    | Refuse(refund: nat)
    | Processing(refund: nat)
    | Close(refund: nat)
    | Finish(refund: nat)

  // ----- small updates -----

  function SetStatus(w: World, o: nat, s: OrderStatus): World
    requires o < |w.orders|
  {
    w.(orders := w.orders[o := w.orders[o].(status := s)])
  }

  /** The one write every refund step makes: its order's status, and its own row (new when r is past the end). */
  function Rewrite(w: World, o: nat, status: OrderStatus, r: nat, rf: Refund): World
    requires o < |w.orders| && r <= |w.refunds|
  {
    w.(orders := w.orders[o := w.orders[o].(status := status)],
       refunds := if r == |w.refunds| then w.refunds + [rf] else w.refunds[r := rf])
  }

  /** A refund being undone puts its order back only if the order is still held in after-sales. */
  function PutBack(current: OrderStatus, target: OrderStatus): OrderStatus
  {
    if current == AfterSales then target else current
  }

  function MoveCoupon(coupons: seq<CouponStatus>, c: Option<nat>, from: set<CouponStatus>, to: CouponStatus): (r: seq<CouponStatus>)
    ensures |r| == |coupons|
  {
    if c.Some? && c.value < |coupons| && coupons[c.value] in from then coupons[c.value := to] else coupons
  }

  predicate IsRefund(w: World, r: nat)
  {
    r < |w.refunds| && w.refunds[r].order < |w.orders|
  }

  // ----- ordering and payment -----

  function DoCreateOrder(w: World, lines: seq<Line>, coupon: Option<nat>, goods: nat, fee: nat, discount: nat, now: int): Outcome
  {
    if discount > goods + fee || coupon.None? != (discount == 0) then Rejected
    else if coupon.Some? && (coupon.value >= |w.coupons| || w.coupons[coupon.value] !in {Claimed, Released})
    then Rejected
    else Committed(w.(
      orders := w.orders + [Order(PendingPayment, lines, coupon, goods, fee, goods + fee - discount, now, false)],
      coupons := MoveCoupon(w.coupons, coupon, {Claimed, Released}, Locked)))
  }

  /** How a line's goods were procured, as the product row said when payment read it. */
  function SoldAs(p: Product): Source
  {
    match p.mode
    case None => Legacy
    case Some(FromHq) => SoldHq
    case Some(FromLocal) => SoldLocal
  }

  /** The first pass of payment: check every line against what was read and stamp its cost source. */
  function Stamp(lines: seq<Line>, products: map<ProductId, Product>): Option<seq<Line>>
  {
    if lines == [] then Some([])
    else
      var init := Stamp(lines[..|lines| - 1], products);
      var last := lines[|lines| - 1];
      if init.None? || last.product !in products then None
      else
        var p := products[last.product];
        if p.stock - p.locked < last.quantity || (p.mode == Some(FromLocal) && p.localPrice.None?) then None
        else Some(init.value + [last.(source := Some(SoldAs(p)))])
  }

  function DoPay(w: World, o: nat, seen: PaySnapshot, now: int): Outcome
  {
    if o >= |w.orders| then Rejected
    else if seen.status == Paid then Replayed
    else
      var ord := w.orders[o];
      if now - ord.createdAt >= PAYMENT_TIMEOUT || seen.status != PendingPayment then Rejected
      else
        var stamped := Stamp(ord.lines, seen.products);
        if stamped.None? || ord.status != PendingPayment then Rejected
        else
          var sold := Sell(w.stock, stamped.value);
          if sold.None? then Rejected
          else Committed(w.(
            stock := sold.value,
            orders := w.orders[o := ord.(status := Paid, lines := stamped.value)],
            coupons := MoveCoupon(w.coupons, ord.coupon, {Locked}, Used)))
  }

  function DoCloseStale(w: World, o: nat): Outcome
  {
    if o >= |w.orders| || w.orders[o].status != PendingPayment then Rejected
    else Committed(SetStatus(w, o, Cancelled).(coupons := MoveCoupon(w.coupons, w.orders[o].coupon, {Locked}, Released)))
  }

  function DoCancel(w: World, o: nat, seen: OrderStatus): Outcome
  {
    if o >= |w.orders| || seen != PendingPayment || w.orders[o].status != seen then Rejected
    else Committed(SetStatus(w, o, Cancelled).(coupons := MoveCoupon(w.coupons, w.orders[o].coupon, {Locked, Used}, Released)))
  }

  /** The channel reports money for an order that payment refuses: the handler puts the order aside. */
  function DoFreeze(w: World, o: nat): Outcome
  {
    if o >= |w.orders| || w.orders[o].status !in {PendingPayment, Cancelled} then Rejected
    else Committed(SetStatus(w, o, Frozen))
  }

  /** What a payment report does altogether. */
  function HandlePayment(w: World, o: nat, seen: PaySnapshot, now: int): World
  {
    if DoPay(w, o, seen, now).Rejected? then Next(w, Freeze(o)) else Next(w, Pay(o, seen, now))
  }

  // ----- warehouse and delivery -----

  function DoOutbound(w: World, o: nat, seen: OrderStatus): Outcome
  {
    if o >= |w.orders| || seen !in {Paid, Picking} || w.orders[o].status != seen then Rejected
    else Committed(SetStatus(w, o, WaitingFirstMile).(stock := LogOut(w.stock, w.orders[o].lines)))
  }

  /** Every status change that riders, managers, staff delivery, `advance` and receipt make. */
  predicate FulfilmentEdge(from: OrderStatus, to: OrderStatus)
  {
    match from
    case Paid => to == Picking
    case Picking => to == WaitingFirstMile
    case WaitingFirstMile => to in {WaitingFirstMile, Arrived, FirstMile}
    case Arrived => to == FirstMile
    case FirstMile => to in {WaitingFirstMile, WaitingHandover, LastMile, Delivered}
    case WaitingHandover => to in {WaitingFirstMile, WaitingHandover, LastMile}
    case LastMile => to in {LastMile, Delivered, Exception}
    case Delivered => to == Completed
    case _ => false
  }

  function DoFulfil(w: World, o: nat, from: OrderStatus, to: OrderStatus): Outcome
  {
    if o >= |w.orders| || !FulfilmentEdge(from, to) || w.orders[o].status != from then Rejected
    else Committed(SetStatus(w, o, to))
  }

  // ----- what refunds add up to -----

  /** Which refunds of an order a total counts. */
  datatype Tally = Reserved | Active | ActiveWithoutFee | Settled

  predicate Counts(t: Tally, rf: Refund)
  {
    match t
    case Reserved => rf.status in {Pending, Approved, Refunding, Finished}
    case Active => rf.status in {Approved, Refunding, Finished}
    case ActiveWithoutFee => rf.status in {Approved, Refunding, Finished} && !rf.withFee
    case Settled => rf.status == Finished
  }

  function Share(t: Tally, o: nat, rf: Refund): int
  {
    if rf.order == o && Counts(t, rf) then rf.amount else 0
  }

  function Shares(rs: seq<Refund>, t: Tally, o: nat): (s: seq<int>)
    ensures |s| == |rs| && forall i :: 0 <= i < |rs| ==> s[i] == Share(t, o, rs[i])
  {
    seq(|rs|, i requires 0 <= i < |rs| => Share(t, o, rs[i]))
  }

  function RefundTotal(rs: seq<Refund>, t: Tally, o: nat): int
  {
    Sum(Shares(rs, t, o))
  }

  lemma TotalOfAppend(rs: seq<Refund>, rf: Refund, t: Tally, o: nat)
    ensures RefundTotal(rs + [rf], t, o) == RefundTotal(rs, t, o) + Share(t, o, rf)
  {
    assert Shares(rs + [rf], t, o) == Shares(rs, t, o) + [Share(t, o, rf)];
    SumAppend(Shares(rs, t, o), Share(t, o, rf));
  }

  lemma TotalOfUpdate(rs: seq<Refund>, r: nat, rf: Refund, t: Tally, o: nat)
    requires r < |rs|
    ensures RefundTotal(rs[r := rf], t, o) == RefundTotal(rs, t, o) - Share(t, o, rs[r]) + Share(t, o, rf)
  {
    assert Shares(rs[r := rf], t, o) == Shares(rs, t, o)[r := Share(t, o, rf)];
    SumUpdate(Shares(rs, t, o), r, Share(t, o, rf));
  }

  // ----- refund requests -----

  function FindLine(lines: seq<Line>, p: ProductId): (i: nat)
    ensures i <= |lines|
    ensures i < |lines| ==> lines[i].product == p
    ensures forall j :: 0 <= j < i ==> lines[j].product != p
  {
    if lines == [] then 0
    else if lines[0].product == p then 0
    else 1 + FindLine(lines[1..], p)
  }

  /** The ticked products as refund lines at full price; unknown or repeated products are refused. */
  function ParseItems(lines: seq<Line>, products: seq<ProductId>): Option<seq<RefundItem>>
  {
    if products == [] then Some([])
    else
      var init := ParseItems(lines, products[..|products| - 1]);
      var p := products[|products| - 1];
      var i := FindLine(lines, p);
      if init.None? || i == |lines| || p in products[..|products| - 1] then None
      else Some(init.value + [RefundItem(p, lines[i].price, lines[i].quantity, lines[i].price * lines[i].quantity)])
  }

  function ItemsTotal(items: seq<RefundItem>): int
  {
    if items == [] then 0 else ItemsTotal(items[..|items| - 1]) + items[|items| - 1].amount
  }

  /** The shopper asks for money back: before outbound for everything, after delivery by line. */
  function DoRequestRefund(w: World, o: nat, seen: OrderStatus, source: RefundSource, products: seq<ProductId>): Outcome
  {
    if o >= |w.orders| then Rejected
    else if source == PreDelivery && seen != Paid then Rejected
    else if source == AfterSale && seen !in {Delivered, Completed} then Rejected
    else
      var ord := w.orders[o];
      var items := if source == PreDelivery then Some([]) else ParseItems(ord.lines, products);
      if items.None? then Rejected
      else
        var limit := RefundAmountFor(ord.payable, ord.fee);
        var amount := if items.value == [] then limit else ItemsTotal(items.value);
        if amount < 1 || ord.status != seen || amount > limit - RefundTotal(w.refunds, Reserved, o) then Rejected
        else Committed(Rewrite(w, o, AfterSales, |w.refunds|,
          Refund(o, source, amount, false, Some(seen), Pending, items.value)))
  }

  predicate Underway(rf: Refund, o: nat)
  {
    rf.order == o && rf.status in {Pending, Approved, Refunding}
  }

  /**
   The back office queues a whole-order refund of a paid, undelivered order; the order stays put. It
   reads the order, then looks for a refund under way, then creates the row, so both the status and
   the list of refunds may be out of date.
   */
  function DoOpenWholeRefund(w: World, o: nat, seen: OrderStatus, listed: seq<Refund>): Outcome
  {
    if o >= |w.orders| || !PreDeliveryRefundable(seen) then Rejected
    else if exists r :: 0 <= r < |listed| && Underway(listed[r], o) then Rejected
    else if w.orders[o].goods < 1 then Rejected
    else Committed(Rewrite(w, o, w.orders[o].status, |w.refunds|,
      Refund(o, PreDelivery, w.orders[o].goods, false, Some(seen), Pending, [])))
  }

  /** Customer service may lower each line's amount; going below zero or above the line is refused. */
  function EditByProduct(items: seq<RefundItem>, edits: map<ProductId, int>): Option<seq<RefundItem>>
  {
    if items == [] then Some([])
    else
      var init := EditByProduct(items[..|items| - 1], edits);
      var last := items[|items| - 1];
      if init.None? then None
      else if last.product !in edits then Some(init.value + [last])
      else if 0 <= edits[last.product] <= last.unitPrice * last.quantity
      then Some(init.value + [last.(amount := edits[last.product])])
      else None
  }

  /** Customer service opens a refund by product on a delivered order; approval follows as its own step. */
  function DoOpenGoodsRefund(w: World, o: nat, products: seq<ProductId>, edits: map<ProductId, int>): Outcome
  {
    if o >= |w.orders| || w.orders[o].status !in {Delivered, Completed, AfterSales} || products == [] then Rejected
    else
      var ord := w.orders[o];
      var parsed := ParseItems(ord.lines, products);
      var items := if parsed.None? then None else EditByProduct(parsed.value, edits);
      if items.None? then Rejected
      else
        var total := ItemsTotal(items.value);
        if total < 1 || total + RefundTotal(w.refunds, Reserved, o) > RefundCeiling(ord.payable, ord.fee, true)
        then Rejected
        else Committed(Rewrite(w, o, AfterSales, |w.refunds|,
          Refund(o, AfterSale, total, true,
            if ord.status == AfterSales then None else Some(ord.status), Pending, items.value)))
  }

  function DoWithdraw(w: World, r: nat): Outcome
  {
    if !IsRefund(w, r) || w.refunds[r].status != Pending then Rejected
    else
      var rf := w.refunds[r];
      Committed(Rewrite(w, rf.order, PutBack(w.orders[rf.order].status, WithdrawTarget(rf.before)), r, rf.(status := Withdrawn)))
  }

  // ----- audit and the payment channel -----

  function DoDeny(w: World, r: nat): Outcome
  {
    if !IsRefund(w, r) || w.refunds[r].status !in {Pending, Failed} then Rejected
    else
      var rf := w.refunds[r];
      Committed(Rewrite(w, rf.order, PutBack(w.orders[rf.order].status, RestoreTarget(rf.before)), r, rf.(status := Denied)))
  }

  /** The auditor's amounts, by refund line; one past its line's price refuses the approval. */
  function EditByLine(items: seq<RefundItem>, edits: seq<(nat, int)>): (r: Option<seq<RefundItem>>)
    ensures r.Some? ==> |r.value| == |items|
  {
    if edits == [] then Some(items)
    else
      var init := EditByLine(items, edits[..|edits| - 1]);
      var (i, amount) := edits[|edits| - 1];
      if init.None? || i >= |items| || amount < 0 || amount > items[i].unitPrice * items[i].quantity then None
      else Some(init.value[i := init.value[i].(amount := amount)])
  }

  /** A whole-order refund keeps the amount locked at request; a refund by line is re-added. */
  function ApprovedAmount(source: RefundSource, locked: int, items: seq<RefundItem>): int
  {
    if source == PreDelivery || items == [] then locked else ItemsTotal(items)
  }

  /** The refund as it will be paid: its lines edited, its amount fixed and checked against everyone else's refunds. */
  function Priced(w: World, r: nat, includeFee: bool, edits: seq<(nat, int)>): Option<Refund>
    requires IsRefund(w, r)
  {
    var rf := w.refunds[r];
    var ord := w.orders[rf.order];
    var items := EditByLine(rf.items, edits);
    if items.None? then None
    else
      var amount := ApprovedAmount(rf.source, rf.amount, items.value);
      var others := RefundTotal(w.refunds, Reserved, rf.order) - Share(Reserved, rf.order, rf);
      if amount < 1 || amount + others > RefundCeiling(ord.payable, ord.fee, includeFee) then None
      else Some(rf.(status := Approved, amount := amount, withFee := includeFee, items := items.value))
  }

  /** The auditor decides on the order status that was read; a status other than after-sales is claimed in passing. */
  function DoApprove(w: World, r: nat, seen: OrderStatus, feeSwitch: Option<bool>, campusRefundsFee: bool, edits: seq<(nat, int)>): Outcome
  {
    if !IsRefund(w, r) || w.refunds[r].status !in {Pending, Failed} then Rejected
    else
      var rf := w.refunds[r];
      var ord := w.orders[rf.order];
      if !(rf.source == PreDelivery && PreDeliveryRefundable(seen)) && seen !in {AfterSales, Delivered, Completed}
      then Rejected
      else if seen != AfterSales && ord.status != seen then Rejected
      else
        var includeFee := if feeSwitch.Some? then feeSwitch.value else OrderArrived(seen) || campusRefundsFee;
        var priced := Priced(w, r, includeFee, edits);
        if priced.None? then Rejected
        else Committed(Rewrite(w, rf.order, if seen != AfterSales then AfterSales else ord.status, r, priced.value))
  }

  /** The channel took the request and will report later. */
  function DoAccept(w: World, r: nat): Outcome
  {
    if !IsRefund(w, r) then Rejected
    else
      var rf := w.refunds[r];
      Committed(Rewrite(w, rf.order, w.orders[rf.order].status, r, rf.(status := Refunding)))
  }

  /** The channel refused the request outright. */
  function DoRefuse(w: World, r: nat): Outcome
  {
    if !IsRefund(w, r) then Rejected
    else
      var rf := w.refunds[r];
      var before := if rf.source == PreDelivery && rf.before.None? then Some(Paid) else rf.before;
      Committed(Rewrite(w, rf.order, PutBack(w.orders[rf.order].status, RestoreTarget(before)), r, rf.(status := Failed)))
  }

  function DoProcessing(w: World, r: nat): Outcome
  {
    if !IsRefund(w, r) then Rejected
    else if w.refunds[r].status == Finished then Replayed
    else
      var rf := w.refunds[r];
      Committed(Rewrite(w, rf.order, AfterSales, r, rf.(status := Refunding)))
  }

  /** The channel closed the refund or reported it abnormal. */
  function DoClose(w: World, r: nat): Outcome
  {
    if !IsRefund(w, r) then Rejected
    else if w.refunds[r].status == Finished then Replayed
    else
      var rf := w.refunds[r];
      Committed(Rewrite(w, rf.order, PutBack(w.orders[rf.order].status, RestoreTarget(rf.before)), r, rf.(status := Failed)))
  }

  predicate ClaimsFee(rf: Refund, o: nat)
  {
    rf.order == o && rf.withFee && Counts(Reserved, rf)
  }

  /** Does this refund, once settled, empty the order? */
  predicate IsWhole(w: World, r: nat)
    requires IsRefund(w, r)
  {
    var rf := w.refunds[r];
    var ord := w.orders[rf.order];
    var feeClaimed := exists k :: 0 <= k < |w.refunds| && ClaimsFee(w.refunds[k], rf.order);
    var ceiling := RefundCeiling(ord.payable, ord.fee, feeClaimed);
    rf.source == PreDelivery || RefundTotal(w.refunds, Settled, rf.order) + rf.amount >= ceiling
  }

  /** The channel has paid the money back: settle the refund, once. */
  function DoFinish(w: World, r: nat): Outcome
  {
    if !IsRefund(w, r) then Rejected
    else if w.refunds[r].status == Finished then Replayed
    else
      var rf := w.refunds[r];
      var to := if IsWhole(w, r) then OrderStatus.Refunded else RestoreTarget(rf.before);
      var settled := Rewrite(w, rf.order, to, r, rf.(status := Finished));
      Committed(if rf.source == PreDelivery then ReturnGoods(settled, rf.order) else settled)
  }

  /** A whole-order refund gives the goods back once, and the coupon every time. */
  function ReturnGoods(w: World, o: nat): World
    requires o < |w.orders|
  {
    var ord := w.orders[o];
    w.(stock := if ord.stockRestored then w.stock else GiveBack(w.stock, ord.lines),
       orders := w.orders[o := ord.(stockRestored := true)],
       coupons := MoveCoupon(w.coupons, ord.coupon, {Locked, Used}, Released))
  }

  // ----- the machine -----

  function Perform(w: World, s: Step): Outcome
  {
    match s
    case GrantCoupon => Committed(w.(coupons := w.coupons + [Claimed]))
    case CreateOrder(lines, coupon, goods, fee, discount, now) => DoCreateOrder(w, lines, coupon, goods, fee, discount, now)
    case Pay(o, seen, now) => DoPay(w, o, seen, now)
    case CloseStale(o) => DoCloseStale(w, o)
    case Cancel(o, seen) => DoCancel(w, o, seen)
    case Freeze(o) => DoFreeze(w, o)
    case Outbound(o, seen) => DoOutbound(w, o, seen)
    case Fulfil(o, from, to) => DoFulfil(w, o, from, to)
    case Stockroom(op) =>
      if Apply(w.stock, op).None? || (op.Receive? && op.bad > op.units) then Rejected
      else Committed(w.(stock := Apply(w.stock, op).value))
    case RequestRefund(o, seen, source, products) => DoRequestRefund(w, o, seen, source, products)
    case OpenWholeRefund(o, seen, listed) => DoOpenWholeRefund(w, o, seen, listed)
    case OpenGoodsRefund(o, products, edits) => DoOpenGoodsRefund(w, o, products, edits)
    case Withdraw(r) => DoWithdraw(w, r)
    case Deny(r) => DoDeny(w, r)
    case Approve(r, seen, feeSwitch, campus, edits) => DoApprove(w, r, seen, feeSwitch, campus, edits)
    case Accept(r) => DoAccept(w, r)
    case Refuse(r) => DoRefuse(w, r)
    case Processing(r) => DoProcessing(w, r)
    case Close(r) => DoClose(w, r)
    case Finish(r) => DoFinish(w, r)
  }

  /**
   What the payment channel is trusted with: it answers an approval before it calls back about it,
   and it reports progress or success only for a refund that is still being asked for.
   And what a read is trusted with: the paid status a whole-order refund is opened on was once the
   order's own, so the order is still a paid one. The steps themselves check none of this.
   */
  predicate Honest(w: World, s: Step)
  {
    match s
    case Accept(r) => IsRefund(w, r) ==> w.refunds[r].status == Approved
    case Refuse(r) => IsRefund(w, r) ==> w.refunds[r].status == Approved
    case Processing(r) => IsRefund(w, r) ==> w.refunds[r].status in {Approved, Refunding, Finished}
    case Finish(r) => IsRefund(w, r) ==> w.refunds[r].status in {Approved, Refunding, Finished}
    case OpenWholeRefund(o, seen, _) => o < |w.orders| && PreDeliveryRefundable(seen) ==> IsPaid(w.orders[o].status)
    case _ => true
  }

  predicate HonestRun(w: World, steps: seq<Step>)
  {
    steps == []
    || (HonestRun(w, steps[..|steps| - 1]) && Honest(Run(w, steps[..|steps| - 1]), steps[|steps| - 1]))
  }

  function Result(w: World, out: Outcome): World
  {
    if out.Committed? then out.world else w
  }

  function Next(w: World, s: Step): World
  {
    Result(w, Perform(w, s))
  }

  function Run(w: World, steps: seq<Step>): World
  {
    if steps == [] then w else Next(Run(w, steps[..|steps| - 1]), steps[|steps| - 1])
  }
}
