/** What each stockroom operation answers, and what two of them in a row undo or repeat. */
module StockroomRules {
  import opened Sums
  import opened Inventory

  /** Only this row changed, by this much stock, and this was written down. */
  predicate Moved(inv: Goods, after: Goods, row: ProductId, p: Product, units: int, notes: seq<Txn>)
  {
    && after.products == inv.products[row := p.(stock := p.stock + units)]
    && after.ledger == inv.ledger + notes
  }

  /** The headquarters or campus row of an official product; made empty, supplied by headquarters, when it is missing. */
  function RowOf(inv: Goods, row: ProductId): (p: Product)
  {
    if row in inv.products then inv.products[row] else Product(0, 0, 0, Some(FromHq), None)
  }

  /** Manual stock-in is for the official catalogue and for what a campus buys itself. */
  lemma StockInExactlyWhen(inv: Goods, row: ProductId, q: Quantity)
    ensures var out := Apply(inv, StockIn(row, q));
            && (out.Some? <==> row in inv.products && (row.campus == 0 || inv.products[row].mode == Some(FromLocal)))
            && (out.Some? ==> Moved(inv, out.value, row, inv.products[row], q, [Txn(row, StockInTxn, q)]))
  {
  }

  /** An adjustment moves something, never below zero; adjusting back restores every row and cancels out in the ledger. */
  lemma AdjustedExactlyWhen(inv: Goods, row: ProductId, delta: int)
    ensures var out := Apply(inv, Adjust(row, delta));
            && (out.Some? <==> row in inv.products && delta != 0 && 0 <= inv.products[row].stock + delta)
            && (out.Some? ==> Moved(inv, out.value, row, inv.products[row], delta, [Txn(row, AdjustTxn, delta)]))
            && (out.Some? && 0 <= inv.products[row].stock ==>
                  var back := Apply(out.value, Adjust(row, 0 - delta));
                  && back.Some? && back.value.products == inv.products
                  && forall a :: Total(back.value.ledger, a) == Total(inv.ledger, a))
  {
    var out := Apply(inv, Adjust(row, delta));
    if out.Some? && 0 <= inv.products[row].stock {
      forall a ensures Total(out.value.ledger + [Txn(row, AdjustTxn, 0 - delta)], a) == Total(inv.ledger, a) {
        TotalAppend(inv.ledger, Txn(row, AdjustTxn, delta), a);
        TotalAppend(out.value.ledger, Txn(row, AdjustTxn, 0 - delta), a);
      }
    }
  }

  /** After a stocktake the shelf holds what was counted, and counting the same again changes nothing. */
  lemma CountedExactlyWhen(inv: Goods, row: ProductId, counted: int)
    ensures var out := Apply(inv, Stocktake(row, counted));
            && (out.Some? <==> row in inv.products && (0 <= counted || counted == inv.products[row].stock))
            && (out.Some? ==>
                  && StockOf(out.value, row) == counted
                  && Apply(out.value, Stocktake(row, counted)) == out
                  && var delta := counted - inv.products[row].stock;
                     Moved(inv, out.value, row, inv.products[row], delta, if delta == 0 then [] else [Txn(row, AdjustTxn, delta)]))
  {
    if row in inv.products {
      assert inv.products[row := inv.products[row]] == inv.products;
      assert inv.ledger + [] == inv.ledger;
    }
  }

  /** Supplier goods reach headquarters less the bad ones, both written down unless they are nothing. */
  lemma ArrivalMeans(inv: Goods, o: nat, units: nat, bad: nat)
    ensures var out := Apply(inv, Receive(o, units, bad));
            out.Some? && Moved(inv, out.value, Mirror(1, o), RowOf(inv, Mirror(1, o)), units - bad,
              (if units == 0 then [] else [Txn(Mirror(1, o), PurchaseReceive, units)])
              + (if bad == 0 then [] else [Txn(Mirror(1, o), PurchaseBad, 0 - bad)]))
  {
  }

  /** A shipment leaves headquarters whatever is there. */
  lemma ShipmentMeans(inv: Goods, o: nat, units: nat)
    ensures var out := Apply(inv, Ship(o, units));
            out.Some? && Moved(inv, out.value, Mirror(1, o), RowOf(inv, Mirror(1, o)), 0 - units, [Txn(Mirror(1, o), RestockOut, 0 - units)])
  {
  }

  /** A campus takes in what headquarters sends, unless it buys that product itself; the row is headquarters' from then on. */
  lemma ReceiptExactlyWhen(inv: Goods, c: Campus, o: nat, units: nat)
    ensures var out, p := Apply(inv, Receipt(c, o, units)), RowOf(inv, Mirror(c, o));
            && (out.Some? <==> p.mode != Some(FromLocal))
            && (out.Some? ==> Moved(inv, out.value, Mirror(c, o), p.(mode := Some(FromHq)), units, [Txn(Mirror(c, o), RestockIn, units)]))
  {
  }

  /** The supply of a row may change while nothing of it is there or promised; a row without one may be given one. */
  lemma SwitchedExactlyWhen(inv: Goods, row: ProductId, m: Mode)
    ensures var out := Apply(inv, SetMode(row, m));
            && (out.Some? <==>
                  && row in inv.products
                  && (inv.products[row].mode == None || (inv.products[row].stock == 0 && inv.products[row].locked == 0)))
            && (out.Some? ==> Moved(inv, out.value, row, inv.products[row].(mode := Some(m)), 0, []))
  {
    assert inv.ledger + [] == inv.ledger;
  }
}
