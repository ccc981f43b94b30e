/** From ordering to paying: what is charged, until when it can be paid, and what cancelling undoes. */
module TradePayment {
  import opened Sums
  import opened OrderState
  import opened Inventory
  import opened Trade
  import opened TradeSafety
  import opened TradeStock

  /** A row can serve this many units, and says what they cost. */
  predicate Serves(products: map<ProductId, Product>, p: ProductId, units: int)
  {
    && p in products && products[p].stock - products[p].locked >= units
    && (products[p].mode == Some(FromLocal) ==> products[p].localPrice.Some?)
  }

  /** Every product of the order is there in full, and costed. */
  ghost predicate InStock(products: map<ProductId, Product>, lines: seq<Line>)
  {
    forall p :: Demand(lines, p) > 0 ==> Serves(products, p, Demand(lines, p))
  }

  /** A line as payment leaves it: how its goods were procured is written down, the rest stands. */
  predicate Procured(before: Line, after: Line, p: Product)
  {
    && after.product == before.product && after.quantity == before.quantity && after.price == before.price
    && (after.source == Some(Legacy) <==> p.mode == None)
    && (after.source == Some(SoldHq) <==> p.mode == Some(FromHq))
    && (after.source == Some(SoldLocal) <==> p.mode == Some(FromLocal))
  }

  ghost predicate AllProcured(before: seq<Line>, after: seq<Line>, products: map<ProductId, Product>)
  {
    |after| == |before|
    && forall i :: 0 <= i < |before| ==> before[i].product in products && Procured(before[i], after[i], products[before[i].product])
  }

  /** The first pass takes each line by itself, on the rows that were read. */
  lemma {:induction false} StampMeans(lines: seq<Line>, products: map<ProductId, Product>)
    ensures Stamp(lines, products).Some? <==>
            forall i :: 0 <= i < |lines| ==> Serves(products, lines[i].product, lines[i].quantity)
    ensures Stamp(lines, products).Some? ==> AllProcured(lines, Stamp(lines, products).value, products)
  {
    if lines != [] {
      StampMeans(lines[..|lines| - 1], products);
    }
  }

  lemma {:induction false} DemandOfLine(lines: seq<Line>, i: nat)
    requires i < |lines|
    ensures Demand(lines, lines[i].product) >= lines[i].quantity
  {
    if i < |lines| - 1 {
      DemandOfLine(lines[..|lines| - 1], i);
    }
  }

  lemma {:induction false} SameDemand(lines: seq<Line>, stamped: seq<Line>, products: map<ProductId, Product>, p: ProductId)
    requires AllProcured(lines, stamped, products)
    ensures Demand(stamped, p) == Demand(lines, p)
  {
    if lines != [] {
      SameDemand(lines[..|lines| - 1], stamped[..|stamped| - 1], products, p);
    }
  }

  /** On one read both passes together come down to the whole order being in stock. */
  lemma BothPassesMean(stock: Goods, lines: seq<Line>)
    ensures Stamp(lines, stock.products).Some? && Sell(stock, Stamp(lines, stock.products).value).Some?
       <==> InStock(stock.products, lines)
  {
    var products := stock.products;
    StampMeans(lines, products);
    if InStock(products, lines) {
      forall i | 0 <= i < |lines| ensures Serves(products, lines[i].product, lines[i].quantity) {
        DemandOfLine(lines, i);
      }
    }
    if Stamp(lines, products).Some? {
      var stamped := Stamp(lines, products).value;
      SellTakesWholeDemand(stock, stamped);
      forall p ensures Demand(stamped, p) == Demand(lines, p) {
        SameDemand(lines, stamped, products, p);
      }
      forall p | Demand(lines, p) > 0 ensures p in products && Costed(products[p]) {
        DemandHasLine(lines, p);
      }
    }
  }

  predicate Costed(p: Product)
  {
    p.mode == Some(FromLocal) ==> p.localPrice.Some?
  }

  lemma {:induction false} DemandHasLine(lines: seq<Line>, p: ProductId)
    requires Demand(lines, p) > 0
    ensures exists i :: 0 <= i < |lines| && lines[i].product == p
  {
    if lines[|lines| - 1].product != p {
      DemandHasLine(lines[..|lines| - 1], p);
      var i :| 0 <= i < |lines| - 1 && lines[..|lines| - 1][i].product == p;
      assert lines[i].product == p;
    }
  }

  /** While an order waits for payment its row stays as it was placed. */
  lemma PendingStays(w: World, s: Step, o: nat)
    requires Sound(w) && Honest(w, s) && o < |w.orders|
    requires w.orders[o].status == PendingPayment && Next(w, s).orders[o].status == PendingPayment
    ensures Next(w, s).orders[o] == w.orders[o]
  {
    if Perform(w, s).Committed? {
      if IsRefundStep(s) || s.Finish? {
        RefundsSparePending(w, s, o);
      } else {
        PendingStaysInShop(w, s, o);
      }
    }
  }

  lemma PendingStaysInShop(w: World, s: Step, o: nat)
    requires !IsRefundStep(s) && !s.Finish? && Perform(w, s).Committed?
    requires o < |w.orders| && w.orders[o].status == PendingPayment
    ensures o < |Next(w, s).orders|
    ensures Next(w, s).orders[o].status == PendingPayment ==> Next(w, s).orders[o] == w.orders[o]
  {
    match s
    case CreateOrder(_, _, _, _, _, _) =>
    case Pay(_, _, _) =>
    case CloseStale(_) =>
    case Cancel(_, _) =>
    case Freeze(_) =>
    case Outbound(_, _) =>
    case Fulfil(_, _, _) =>
    case GrantCoupon =>
    case Stockroom(_) =>
  }

  lemma {:induction false} PendingWaits(w: World, steps: seq<Step>, o: nat)
    requires Sound(w) && HonestRun(w, steps) && o < |w.orders|
    requires w.orders[o].status == PendingPayment
    ensures Sound(Run(w, steps)) && o < |Run(w, steps).orders|
    ensures Run(w, steps).orders[o].status == PendingPayment ==> Run(w, steps).orders[o] == w.orders[o]
  {
    if steps != [] {
      var init, last := steps[..|steps| - 1], steps[|steps| - 1];
      PendingWaits(w, init, o);
      var u := Run(w, init);
      StepSound(u, last);
      if Run(w, steps).orders[o].status == PendingPayment {
        if u.orders[o].status != PendingPayment {
          UnpaidStaysUnpaid(u, last, o);
        } else {
          PendingStays(u, last, o);
        }
      }
    }
  }

  /** Placed: a new last order, waiting, with what was asked for and what it will cost. */
  lemma PlacedAsAsked(w: World, lines: seq<Line>, coupon: Option<nat>, goods: nat, fee: nat, discount: nat, t: int)
    ensures var s := CreateOrder(lines, coupon, goods, fee, discount, t);
            && (Perform(w, s).Committed? <==>
                  && discount <= goods + fee
                  && (coupon.Some? <==> discount > 0)
                  && (coupon.Some? ==> coupon.value < |w.coupons| && w.coupons[coupon.value] != Locked && w.coupons[coupon.value] != Used))
            && (Perform(w, s).Committed? ==>
                  Next(w, s) == World(w.stock,
                    w.orders + [Order(PendingPayment, lines, coupon, goods, fee, goods + fee - discount, t, false)],
                    if coupon.Some? then w.coupons[coupon.value := Locked] else w.coupons, w.refunds))
  {
  }

  /** Paying on a current read: by the fifteenth minute, with the whole order in stock, and not otherwise. */
  lemma PaidExactlyWhen(w: World, o: nat, now: int)
    requires o < |w.orders| && w.orders[o].status == PendingPayment
    ensures var pay := Pay(o, PaySnapshot(PendingPayment, w.stock.products), now);
            Perform(w, pay).Committed? <==> now - w.orders[o].createdAt < 900000 && InStock(w.stock.products, w.orders[o].lines)
  {
    BothPassesMean(w.stock, w.orders[o].lines);
  }

  /** What a payment does to the world: the order is paid, its goods go from stock to sales, its coupon is used. */
  ghost predicate Bought(w: World, v: World, o: nat)
    requires o < |w.orders|
  {
    var ord := w.orders[o];
    && |v.orders| == |w.orders| && v.refunds == w.refunds && v.stock.ledger == w.stock.ledger
    && (forall k :: 0 <= k < |w.orders| && k != o ==> v.orders[k] == w.orders[k])
    && v.orders[o].status == Paid && v.orders[o].(status := ord.status, lines := ord.lines) == ord
    && AllProcured(ord.lines, v.orders[o].lines, w.stock.products)
    && v.stock.products.Keys == w.stock.products.Keys
    && (forall p :: p in w.stock.products ==>
          v.stock.products[p] == w.stock.products[p].(
            stock := w.stock.products[p].stock - Demand(ord.lines, p), sales := w.stock.products[p].sales + Demand(ord.lines, p)))
    && |v.coupons| == |w.coupons|
    && (forall c :: 0 <= c < |w.coupons| ==>
          v.coupons[c] == if ord.coupon == Some(c) && w.coupons[c] == Locked then Used else w.coupons[c])
  }

  lemma GoodsSold(stock: Goods, lines: seq<Line>, stamped: seq<Line>)
    requires AllProcured(lines, stamped, stock.products) && Sell(stock, stamped).Some?
    ensures var sold := Sell(stock, stamped).value;
            && sold.ledger == stock.ledger && sold.products.Keys == stock.products.Keys
            && forall p :: p in stock.products ==>
                 sold.products[p] == stock.products[p].(
                   stock := stock.products[p].stock - Demand(lines, p), sales := stock.products[p].sales + Demand(lines, p))
  {
    SellTakesWholeDemand(stock, stamped);
    forall p ensures Demand(stamped, p) == Demand(lines, p) {
      SameDemand(lines, stamped, stock.products, p);
    }
  }

  lemma PaymentBuys(w: World, o: nat, now: int)
    requires o < |w.orders|
    ensures var pay := Pay(o, PaySnapshot(PendingPayment, w.stock.products), now);
            Perform(w, pay).Committed? ==> Bought(w, Next(w, pay), o)
  {
    var products, lines := w.stock.products, w.orders[o].lines;
    if Perform(w, Pay(o, PaySnapshot(PendingPayment, products), now)).Committed? {
      StampMeans(lines, products);
      GoodsSold(w.stock, lines, Stamp(lines, products).value);
    }
  }

  /**
   Ordering, then anything at all, then paying while the order still waits: it is charged goods and fee
   less the discount, and the payment goes through exactly within fifteen minutes of ordering and with
   everything ordered in stock. Then the goods are sold; otherwise nothing happens.
   */
  lemma PlacedThenPaid(w: World, lines: seq<Line>, coupon: Option<nat>, goods: nat, fee: nat, discount: nat, t: int,
                       steps: seq<Step>, now: int)
    requires Sound(w) && Perform(w, CreateOrder(lines, coupon, goods, fee, discount, t)).Committed?
    requires var u := Next(w, CreateOrder(lines, coupon, goods, fee, discount, t)); HonestRun(u, steps)
    ensures var o, u := |w.orders|, Run(Next(w, CreateOrder(lines, coupon, goods, fee, discount, t)), steps);
            && o < |u.orders|
            && (u.orders[o].status == PendingPayment ==>
                  var v := Next(u, Pay(o, PaySnapshot(PendingPayment, u.stock.products), now));
                  && u.orders[o] == Order(PendingPayment, lines, coupon, goods, fee, goods + fee - discount, t, false)
                  && (if now - t < 900000 && InStock(u.stock.products, lines) then Bought(u, v, o) else v == u))
  {
    var create, o := CreateOrder(lines, coupon, goods, fee, discount, t), |w.orders|;
    PlacedAsAsked(w, lines, coupon, goods, fee, discount, t);
    StepSound(w, create);
    PendingWaits(Next(w, create), steps, o);
    var u := Run(Next(w, create), steps);
    if u.orders[o].status == PendingPayment {
      PaidExactlyWhen(u, o, now);
      PaymentBuys(u, o, now);
    }
  }

  /** A payment reported again for an order read as paid finds its work done, and freezes nothing. */
  lemma ReportedAgain(w: World, o: nat, products: map<ProductId, Product>, now: int)
    requires o < |w.orders|
    ensures Perform(w, Pay(o, PaySnapshot(Paid, products), now)).Replayed?
    ensures HandlePayment(w, o, PaySnapshot(Paid, products), now) == w
  {
  }

  /** Giving up an order, closing it and putting it aside: each only from where it says, on a current read. */
  lemma ClosedExactlyWhen(w: World, o: nat, seen: OrderStatus)
    requires o < |w.orders|
    ensures Perform(w, Cancel(o, seen)).Committed? <==> seen == PendingPayment && w.orders[o].status == PendingPayment
    ensures Perform(w, CloseStale(o)).Committed? <==> w.orders[o].status == PendingPayment
    ensures Perform(w, Freeze(o)).Committed? <==> w.orders[o].status in {PendingPayment, Cancelled}
    ensures Perform(w, Outbound(o, seen)).Committed? <==> seen in {Paid, Picking} && w.orders[o].status == seen
  {
  }

  /** Ordering and then cancelling, or being closed, leaves a closed order and gives the coupon back; nothing else moved. */
  lemma PlacedThenCancelled(w: World, lines: seq<Line>, coupon: Option<nat>, goods: nat, fee: nat, discount: nat, t: int)
    requires Perform(w, CreateOrder(lines, coupon, goods, fee, discount, t)).Committed?
    ensures var u := Next(w, CreateOrder(lines, coupon, goods, fee, discount, t));
            && Next(u, Cancel(|w.orders|, PendingPayment)) == Next(u, CloseStale(|w.orders|))
            && Next(u, CloseStale(|w.orders|)) == World(w.stock,
                 w.orders + [Order(Cancelled, lines, coupon, goods, fee, goods + fee - discount, t, false)],
                 if coupon.Some? then w.coupons[coupon.value := Released] else w.coupons, w.refunds)
  {
    PlacedAsAsked(w, lines, coupon, goods, fee, discount, t);
    var u := Next(w, CreateOrder(lines, coupon, goods, fee, discount, t));
    var o := |w.orders|;
    assert u.orders[o := u.orders[o].(status := Cancelled)]
        == w.orders + [Order(Cancelled, lines, coupon, goods, fee, goods + fee - discount, t, false)];
  }

  // ----- giving back what was paid for -----

  /** Where a paid line may go back: to its row, if that is still supplied as it was; goods of no stated supply always. */
  lemma PaidLineGoesBack(line: Line, paid: Line, p: Product, inv: Goods)
    requires Procured(line, paid, p)
    ensures GoesBack(inv, paid) <==>
              line.product in inv.products && (p.mode == None || inv.products[line.product].mode == p.mode)
    ensures line.source == None ==> (GoesBack(inv, line) <==> line.product in inv.products)
  {
    match p.mode
    case None => assert paid.source == Some(Legacy);
    case Some(FromHq) => assert paid.source == Some(SoldHq);
    case Some(FromLocal) => assert paid.source == Some(SoldLocal);
  }

  /** A paid order given back before any supply was switched: every shelf is as it was before the payment. */
  lemma PaidThenGivenBack(stock: Goods, lines: seq<Line>)
    requires InStock(stock.products, lines)
    ensures var paid := Stamp(lines, stock.products);
            paid.Some? && Sell(stock, paid.value).Some? && GiveBack(Sell(stock, paid.value).value, paid.value) == stock
  {
    BothPassesMean(stock, lines);
    StampMeans(lines, stock.products);
    var paid := Stamp(lines, stock.products).value;
    forall i | 0 <= i < |paid| ensures GoesBack(stock, paid[i]) {
      PaidLineGoesBack(lines[i], paid[i], stock.products[lines[i].product], stock);
    }
    SellThenGiveBack(stock, paid);
  }
}
