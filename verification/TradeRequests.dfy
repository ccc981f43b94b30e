/** What a refund is made of: the lines ticked, the amounts typed in, and the total they must agree with. */
module TradeRequests {
  import opened Sums
  import opened OrderState
  import opened Inventory
  import opened Trade
  import opened TradeSafety

  /** An item stands for an order line, at most at its full price. */
  predicate ItemSound(i: RefundItem)
  {
    0 <= i.amount <= i.unitPrice * i.quantity
  }

  predicate FullLine(i: RefundItem, lines: seq<Line>)
  {
    i.amount == i.unitPrice * i.quantity
    && exists k :: 0 <= k < |lines| && lines[k].product == i.product && lines[k].price == i.unitPrice && lines[k].quantity == i.quantity
  }

  predicate Known(lines: seq<Line>, p: ProductId)
  {
    exists k :: 0 <= k < |lines| && lines[k].product == p
  }

  /** Ticking products works exactly when each is on the order and none is ticked twice; each becomes its full line. */
  lemma {:induction false} ParseItemsMeans(lines: seq<Line>, products: seq<ProductId>)
    ensures ParseItems(lines, products).Some? <==>
            && (forall i :: 0 <= i < |products| ==> Known(lines, products[i]))
            && (forall i, j :: 0 <= i < j < |products| ==> products[i] != products[j])
    ensures ParseItems(lines, products).Some? ==>
              var items := ParseItems(lines, products).value;
              && |items| == |products|
              && forall i :: 0 <= i < |items| ==> items[i].product == products[i] && FullLine(items[i], lines)
  {
    if products != [] {
      var last := |products| - 1;
      var init := products[..last];
      ParseItemsMeans(lines, init);
      assert forall i :: 0 <= i < last ==> init[i] == products[i];
      var k := FindLine(lines, products[last]);
      assert k < |lines| <==> Known(lines, products[last]);
      assert products[last] in init <==> exists i :: 0 <= i < last && products[i] == products[last];
      if ParseItems(lines, products).Some? {
        var items := ParseItems(lines, products).value;
        assert items[last] == RefundItem(products[last], lines[k].price, lines[k].quantity, lines[k].price * lines[k].quantity);
        assert FullLine(items[last], lines);
      }
    }
  }

  predicate SameLines(a: seq<RefundItem>, b: seq<RefundItem>)
  {
    |a| == |b| && forall i :: 0 <= i < |a| ==> a[i].(amount := 0) == b[i].(amount := 0)
  }

  /** Amounts by product change nothing but amounts, and none leaves its line's bounds. */
  lemma {:induction false} EditByProductBounds(items: seq<RefundItem>, edits: map<ProductId, int>)
    requires forall i :: 0 <= i < |items| ==> ItemSound(items[i])
    requires EditByProduct(items, edits).Some?
    ensures var r := EditByProduct(items, edits).value;
            && SameLines(items, r)
            && (forall i :: 0 <= i < |r| ==> ItemSound(r[i]))
            && (forall i :: 0 <= i < |r| ==>
                  r[i].amount == if items[i].product in edits then edits[items[i].product] else items[i].amount)
  {
    if items != [] {
      EditByProductBounds(items[..|items| - 1], edits);
    }
  }

  /** So do amounts by line. */
  lemma {:induction false} EditByLineBounds(items: seq<RefundItem>, edits: seq<(nat, int)>)
    requires forall i :: 0 <= i < |items| ==> ItemSound(items[i])
    requires EditByLine(items, edits).Some?
    ensures var r := EditByLine(items, edits).value;
            SameLines(items, r) && forall i :: 0 <= i < |r| ==> ItemSound(r[i])
  {
    if edits != [] {
      EditByLineBounds(items, edits[..|edits| - 1]);
    }
  }

  /** A refund by line is worth the sum of its lines; a whole-order refund has none. */
  predicate Itemised(rf: Refund)
  {
    && (forall i :: 0 <= i < |rf.items| ==> ItemSound(rf.items[i]))
    && (rf.source == PreDelivery ==> rf.items == [])
    && (rf.items != [] ==> rf.amount == ItemsTotal(rf.items))
  }

  ghost predicate AllItemised(w: World)
  {
    forall r :: 0 <= r < |w.refunds| ==> Itemised(w.refunds[r])
  }

  lemma RewriteItemised(w: World, o: nat, status: OrderStatus, r: nat, rf: Refund)
    requires AllItemised(w) && o < |w.orders| && r <= |w.refunds| && Itemised(rf)
    ensures AllItemised(Rewrite(w, o, status, r, rf))
  {
  }

  lemma RequestItemised(w: World, o: nat, seen: OrderStatus, source: RefundSource, products: seq<ProductId>)
    requires AllItemised(w) && DoRequestRefund(w, o, seen, source, products).Committed?
    ensures AllItemised(DoRequestRefund(w, o, seen, source, products).world)
  {
    if source == AfterSale {
      ParsedIsSound(w.orders[o].lines, products);
    }
  }

  lemma OpenGoodsItemised(w: World, o: nat, products: seq<ProductId>, edits: map<ProductId, int>)
    requires AllItemised(w)
    ensures AllItemised(Result(w, DoOpenGoodsRefund(w, o, products, edits)))
  {
    if DoOpenGoodsRefund(w, o, products, edits).Committed? {
      ParsedIsSound(w.orders[o].lines, products);
      EditByProductBounds(ParseItems(w.orders[o].lines, products).value, edits);
    }
  }

  lemma ParsedIsSound(lines: seq<Line>, products: seq<ProductId>)
    ensures ParseItems(lines, products).Some? ==>
              forall i :: 0 <= i < |ParseItems(lines, products).value| ==> ItemSound(ParseItems(lines, products).value[i])
  {
    ParseItemsMeans(lines, products);
  }

  lemma ApproveItemised(w: World, s: Step)
    requires AllItemised(w) && s.Approve? && Perform(w, s).Committed?
    ensures AllItemised(Next(w, s))
  {
    EditByLineBounds(w.refunds[s.refund].items, s.lineEdits);
    assert Itemised(Next(w, s).refunds[s.refund]);
  }

  lemma StepItemised(w: World, s: Step)
    requires Sound(w) && Honest(w, s) && AllItemised(w)
    ensures AllItemised(Next(w, s))
  {
    if !Perform(w, s).Committed? {
    } else if s.RequestRefund? {
      RequestItemised(w, s.order, s.seen, s.source, s.products);
    } else if s.OpenGoodsRefund? {
      OpenGoodsItemised(w, s.order, s.products, s.edits);
    } else if s.OpenWholeRefund? {
    } else if s.Approve? {
      ApproveItemised(w, s);
    } else if IsRefundStep(s) {
      var o, status, r, rf := ProgressShape(w, s);
      RewriteItemised(w, o, status, r, rf);
    } else if s.Finish? {
      var o, status, rf := FinishShape(w, s.refund);
      RewriteItemised(w, o, status, s.refund, rf);
    } else {
      assert Next(w, s).refunds == w.refunds;
    }
  }

  /** Over every run, whatever is ticked, typed in and edited: a refund by line is worth exactly its lines, each within its price. */
  lemma {:induction false} RefundsAreTheirLines(w: World, steps: seq<Step>)
    requires Sound(w) && AllItemised(w) && HonestRun(w, steps)
    ensures Sound(Run(w, steps)) && AllItemised(Run(w, steps))
  {
    if steps != [] {
      var init := steps[..|steps| - 1];
      RefundsAreTheirLines(w, init);
      StepSound(Run(w, init), steps[|steps| - 1]);
      StepItemised(Run(w, init), steps[|steps| - 1]);
    }
  }
}
