/** The rows the restock and purchase services update, against the supply chain's steps. */
module DepotRows {
  import opened Sums
  import opened Inventory
  import opened Supply
  import SupplySafety

  /** What aggregation keeps per product. */
  datatype Aggregate = Aggregate(cases: nat, unitsPerCase: Quantity)

  /** What adding up gives after these orders and the first items of the next one. */
  ghost predicate Aggregates(agg: map<nat, Aggregate>, orders: seq<RestockOrder>, batch: nat, items: seq<Item>)
  {
    forall p ::
      var size := if CaseSize(items, p).Some? then CaseSize(items, p) else BatchCaseSize(orders, batch, p);
      && (p in agg <==> size.Some?)
      && (p in agg ==> agg[p] == Aggregate(CasesIn(orders, batch, {Confirmed}, p) + CasesOf(items, p), size.value))
  }

  lemma AggregatesOneMore(agg: map<nat, Aggregate>, orders: seq<RestockOrder>, batch: nat, items: seq<Item>, item: Item)
    requires Aggregates(agg, orders, batch, items)
    ensures var before := if item.official in agg then agg[item.official].cases else 0;
            Aggregates(agg[item.official := Aggregate(before + item.cases, item.unitsPerCase)], orders, batch, items + [item])
  {
    assert (items + [item])[..|items|] == items;
    SupplySafety.AggregateMeansCases(orders, batch, item.official);
    SupplySafety.ConfirmedMeansCases(items, item.official);
  }

  class Database {
    var products: map<ProductId, Product>
    var ledger: seq<Txn>
    var orders: seq<RestockOrder>
    var purchases: seq<Purchase>

    ghost function Read(): Depot
      reads this
    {
      Depot(Goods(products, ledger), orders, purchases)
    }

    ghost predicate Did(before: Depot, out: Option<Depot>, ok: bool)
      reads this
    {
      ok == out.Some? && Read() == if out.Some? then out.value else before
    }

    // ----- ordering -----

    /** Keep the first line of each product, remembering which were seen. */
    static method DropRepeats(wanted: seq<Wanted>) returns (kept: seq<Wanted>)
      ensures kept == FirstOfEach(wanted)
    {
      kept := [];
      var seen: set<nat> := {};
      for i := 0 to |wanted|
        invariant kept == FirstOfEach(wanted[..i])
        invariant forall p :: p in seen <==> Named(wanted[..i], p)
      {
        var w := wanted[i];
        assert wanted[..i + 1][..i] == wanted[..i];
        NamedGrows(wanted, i);
        if w.official !in seen {
          seen := seen + {w.official};
          kept := kept + [w];
        }
      }
      assert wanted[..|wanted|] == wanted;
    }

    static lemma NamedGrows(wanted: seq<Wanted>, i: nat)
      requires i < |wanted|
      ensures forall p :: Named(wanted[..i + 1], p) <==> (Named(wanted[..i], p) || p == wanted[i].official)
    {
      forall p ensures Named(wanted[..i + 1], p) <==> (Named(wanted[..i], p) || p == wanted[i].official) {
        if Named(wanted[..i], p) {
          var k :| 0 <= k < i && wanted[..i][k].official == p;
          assert wanted[..i + 1][k].official == p;
        }
        if p == wanted[i].official {
          assert wanted[..i + 1][i].official == p;
        }
        if Named(wanted[..i + 1], p) && p != wanted[i].official {
          var k :| 0 <= k < i + 1 && wanted[..i + 1][k].official == p;
          assert wanted[..i][k].official == p;
        }
      }
    }

    method SubmitOrder(batch: nat, campus: Campus, open: bool, wanted: seq<Wanted>, catalogue: map<nat, Quantity>) returns (ok: bool)
      modifies this
      ensures Did(old(Read()), DoSave(old(Read()), batch, campus, open, wanted, catalogue), ok)
    {
      if !open || wanted == [] {
        return false;
      }
      var lines := DropRepeats(wanted);
      var items: seq<Item> := [];
      for i := 0 to |lines|
        invariant forall k :: 0 <= k < i ==> lines[k].official in catalogue
        invariant |items| == i && items == ItemsFor(lines[..i], catalogue)
        invariant Read() == old(Read())
      {
        if lines[i].official !in catalogue {
          return false;
        }
        items := items + [Item(lines[i].official, lines[i].cases, catalogue[lines[i].official])];
      }
      assert lines[..|lines|] == lines;
      orders := orders + [RestockOrder(batch, campus, Submitted, items)];
      return true;
    }

    // ----- buying -----

    /** One order's items, added to what the orders before it gave. */
    static method AddItems(sums: map<nat, Aggregate>, ghost before: seq<RestockOrder>, batch: nat, items: seq<Item>)
      returns (agg: map<nat, Aggregate>)
      requires Aggregates(sums, before, batch, [])
      ensures Aggregates(agg, before, batch, items)
    {
      agg := sums;
      for j := 0 to |items|
        invariant Aggregates(agg, before, batch, items[..j])
      {
        var item := items[j];
        assert items[..j + 1] == items[..j] + [item];
        AggregatesOneMore(agg, before, batch, items[..j], item);
        var cases := if item.official in agg then agg[item.official].cases else 0;
        agg := agg[item.official := Aggregate(cases + item.cases, item.unitsPerCase)];
      }
      assert items[..|items|] == items;
    }

    /** Add up the batch's confirmed orders, product by product. */
    method AggregateBatch(batch: nat) returns (agg: map<nat, Aggregate>)
      ensures forall p :: p in agg <==> BatchCaseSize(orders, batch, p).Some?
      ensures forall p :: p in agg ==>
                agg[p] == Aggregate(CasesIn(orders, batch, {Confirmed}, p), BatchCaseSize(orders, batch, p).value)
    {
      agg := map[];
      for i := 0 to |orders|
        invariant Aggregates(agg, orders[..i], batch, [])
      {
        var o := orders[i];
        assert orders[..i + 1][..i] == orders[..i];
        if o.batch == batch && o.phase == Confirmed {
          agg := AddItems(agg, orders[..i], batch, o.items);
        }
      }
      assert orders[..|orders|] == orders;
    }

    /** Is the batch being bought by a purchase other than this one? */
    method FindOpen(batch: nat, except: nat) returns (found: bool)
      ensures found == OpenElsewhere(Read(), batch, except)
    {
      for k := 0 to |purchases|
        invariant forall j :: 0 <= j < k && j != except ==> purchases[j].batch != batch || purchases[j].closed
      {
        if k != except && purchases[k].batch == batch && !purchases[k].closed {
          return true;
        }
      }
      return false;
    }

    method BuyBatch(batch: nat, officials: seq<nat>) returns (ok: bool)
      modifies this
      ensures Did(old(Read()), DoBuy(old(Read()), batch, officials), ok)
    {
      var open := FindOpen(batch, |purchases|);
      if open || officials == [] {
        return false;
      }
      var agg := AggregateBatch(batch);
      var seen: set<nat> := {};
      var lines: seq<BuyLine> := [];
      for i := 0 to |officials|
        invariant Read() == old(Read())
        invariant |lines| == i
        invariant forall j :: 0 <= j < i ==> officials[j] in agg
        invariant forall j :: 0 <= j < i ==>
          lines[j] == BuyLine(officials[j], agg[officials[j]].cases, 0, 0, agg[officials[j]].unitsPerCase)
        invariant forall j, k :: 0 <= j < k < i ==> officials[j] != officials[k]
        invariant forall p :: p in seen <==> p in officials[..i]
      {
        if officials[i] !in agg || officials[i] in seen {
          return false;
        }
        seen := seen + {officials[i]};
        lines := lines + [BuyLine(officials[i], agg[officials[i]].cases, 0, 0, agg[officials[i]].unitsPerCase)];
        assert officials[..i + 1] == officials[..i] + [officials[i]];
      }
      assert lines == LinesFor(orders, batch, officials);
      purchases := purchases + [Purchase(batch, false, lines)];
      return true;
    }

    // ----- receiving -----

    static lemma DeliveredGrows(ds: seq<Delivery>, i: nat)
      requires i < |ds|
      ensures forall p :: Delivered(ds[..i + 1], p) <==> (Delivered(ds[..i], p) || p == ds[i].official)
    {
      forall p ensures Delivered(ds[..i + 1], p) <==> (Delivered(ds[..i], p) || p == ds[i].official) {
        if Delivered(ds[..i], p) {
          var k :| 0 <= k < i && ds[..i][k].official == p;
          assert ds[..i + 1][k].official == p;
        }
        if p == ds[i].official {
          assert ds[..i + 1][i].official == p;
        }
        if Delivered(ds[..i + 1], p) && p != ds[i].official {
          var k :| 0 <= k < i + 1 && ds[..i + 1][k].official == p;
          assert ds[..i][k].official == p;
        }
      }
    }

    static lemma {:induction false} PlanFailsForGood(lines: seq<BuyLine>, ds: seq<Delivery>, i: nat)
      requires i <= |ds| && Plan(lines, ds[..i]).None?
      ensures Plan(lines, ds).None?
      decreases |ds|
    {
      if i == |ds| {
        assert ds[..i] == ds;
      } else {
        assert ds[..|ds| - 1][..i] == ds[..i];
        PlanFailsForGood(lines, ds[..|ds| - 1], i);
      }
    }

    /** Check the whole form before anything is written. */
    static method CheckDeliveries(lines: seq<BuyLine>, ds: seq<Delivery>) returns (plan: Option<seq<Delivery>>)
      ensures plan == Plan(lines, ds)
    {
      var seen: set<nat> := {};
      var kept: seq<Delivery> := [];
      for i := 0 to |ds|
        invariant Plan(lines, ds[..i]) == Some(kept)
        invariant forall p :: p in seen <==> Delivered(ds[..i], p)
      {
        assert ds[..i + 1][..i] == ds[..i];
        DeliveredGrows(ds, i);
        var d := ds[i];
        if d.official in seen {
          continue;
        }
        seen := seen + {d.official};
        var k := FindLine(lines, d.official);
        if k == |lines| || d.receive > lines[k].required - lines[k].received || d.bad > d.receive {
          PlanFailsForGood(lines, ds, i + 1);
          return None;
        }
        if d.receive > 0 {
          kept := kept + [d];
        }
      }
      assert ds[..|ds|] == ds;
      return Some(kept);
    }

    /** Supplier goods reach headquarters' shelf; each nonzero quantity leaves a ledger entry. */
    method ArriveAtHq(official: nat, units: nat, bad: nat)
      modifies this`products, this`ledger
      ensures Goods(products, ledger) == Arrive(old(Goods(products, ledger)), official, units, bad)
    {
      var row := Mirror(HQ, official);
      var p := RowOrNew(Goods(products, ledger), row);
      products := products[row := p.(stock := p.stock + units - bad)];
      if units != 0 {
        ledger := ledger + [Txn(row, PurchaseReceive, units)];
      }
      if bad != 0 {
        ledger := ledger + [Txn(row, PurchaseBad, 0 - bad)];
      }
    }

    /** Book the goods in line by line: shelf, both ledger entries, and the line's counters. */
    method ReceiveGoods(k: nat, ds: seq<Delivery>) returns (ok: bool)
      modifies this
      ensures Did(old(Read()), DoReceive(old(Read()), k, ds), ok)
    {
      if k >= |purchases| || purchases[k].closed {
        return false;
      }
      var po := purchases[k];
      var plan := CheckDeliveries(po.lines, ds);
      if plan.None? || plan.value == [] {
        return false;
      }
      var booked := BookPlan(po.lines, plan.value);
      purchases := purchases[k := po.(lines := booked)];
      return true;
    }

    /** One delivery: headquarters' shelf and ledger, and the counters of its line. */
    method BookDelivery(lines: seq<BuyLine>, booked: seq<BuyLine>, d: Delivery) returns (after: seq<BuyLine>)
      requires |booked| == |lines| && forall i :: 0 <= i < |lines| ==> booked[i].official == lines[i].official
      modifies this`products, this`ledger
      ensures after == BookLine(booked, d)
      ensures Goods(products, ledger) == BookStock(old(Goods(products, ledger)), lines, d)
    {
      SupplySafety.SameFind(lines, booked, d.official);
      var n := FindLine(lines, d.official);
      after := booked;
      if n < |lines| {
        ArriveAtHq(d.official, d.receive * lines[n].unitsPerCase, d.bad * lines[n].unitsPerCase);
        after := booked[n := booked[n].(received := booked[n].received + d.receive, bad := booked[n].bad + d.bad)];
      }
    }

    method BookPlan(lines: seq<BuyLine>, plan: seq<Delivery>) returns (booked: seq<BuyLine>)
      modifies this`products, this`ledger
      ensures booked == BookLines(lines, plan)
      ensures Goods(products, ledger) == BookStocks(old(Goods(products, ledger)), lines, plan)
    {
      booked := lines;
      ghost var stock := Goods(products, ledger);
      for i := 0 to |plan|
        invariant booked == BookLines(lines, plan[..i])
        invariant Goods(products, ledger) == BookStocks(stock, lines, plan[..i])
      {
        assert plan[..i + 1][..i] == plan[..i];
        SupplySafety.BookLinesKeepShape(lines, plan[..i]);
        booked := BookDelivery(lines, booked, plan[i]);
      }
      assert plan[..|plan|] == plan;
    }

    // ----- shipping -----

    method ShipOrder(o: nat) returns (ok: bool)
      modifies this
      ensures Did(old(Read()), Perform(old(Read()), Step.Ship(o)), ok)
    {
      if o >= |orders| || orders[o].phase != Confirmed {
        return false;
      }
      var items := orders[o].items;
      ghost var stock := Goods(products, ledger);
      for i := 0 to |items|
        invariant ShipItems(stock, items[..i]) == Goods(products, ledger)
        invariant orders == old(orders) && purchases == old(purchases)
      {
        assert items[..i + 1][..i] == items[..i];
        var units := items[i].cases * items[i].unitsPerCase;
        var row := Mirror(HQ, items[i].official);
        var p := RowOrNew(Goods(products, ledger), row);
        products := products[row := p.(stock := p.stock - units)];
        ledger := ledger + [Txn(row, RestockOut, 0 - units)];
      }
      assert items[..|items|] == items;
      orders := orders[o := orders[o].(phase := Shipped)];
      return true;
    }

    static lemma {:induction false} BookInFailsForGood(stock: Goods, campus: Campus, items: seq<Item>, i: nat)
      requires i <= |items| && BookInItems(stock, campus, items[..i]).None?
      ensures BookInItems(stock, campus, items).None?
      decreases |items|
    {
      if i == |items| {
        assert items[..i] == items;
      } else {
        assert items[..|items| - 1][..i] == items[..i];
        BookInFailsForGood(stock, campus, items[..|items| - 1], i);
      }
    }

    /** One item onto the campus's own row, unless the campus buys that product locally. */
    method BookItem(campus: Campus, item: Item) returns (ok: bool)
      modifies this`products, this`ledger
      ensures var after := Apply(old(Goods(products, ledger)), Receipt(campus, item.official, ItemUnits(item)));
              ok == after.Some? && Goods(products, ledger) == if ok then after.value else old(Goods(products, ledger))
    {
      var units := item.cases * item.unitsPerCase;
      var row := Mirror(campus, item.official);
      var p := RowOrNew(Goods(products, ledger), row);
      if p.mode == Some(FromLocal) {
        return false;
      }
      products := products[row := p.(stock := p.stock + units, mode := Some(FromHq))];
      ledger := ledger + [Txn(row, RestockIn, units)];
      return true;
    }

    /** The campus books in what was shipped, all of it or nothing. */
    method ConfirmReceipt(o: nat, campus: Campus) returns (ok: bool)
      modifies this
      ensures Did(old(Read()), Perform(old(Read()), BookIn(o, campus)), ok)
    {
      if o >= |orders| || orders[o].phase != Shipped || orders[o].campus != campus {
        return false;
      }
      var items := orders[o].items;
      var wasProducts, wasLedger := products, ledger;
      for i := 0 to |items|
        invariant BookInItems(Goods(wasProducts, wasLedger), campus, items[..i]) == Some(Goods(products, ledger))
        invariant orders == old(orders) && purchases == old(purchases)
      {
        assert items[..i + 1][..i] == items[..i];
        var booked := BookItem(campus, items[i]);
        if !booked {
          BookInFailsForGood(Goods(wasProducts, wasLedger), campus, items, i + 1);
          products, ledger := wasProducts, wasLedger;
          return false;
        }
      }
      assert items[..|items|] == items;
      orders := orders[o := orders[o].(phase := Supply.Received)];
      return true;
    }

    // ----- serving requests -----

    /** The auditor's decision on an order, or its withdrawal. */
    method MoveOrder(s: Step) returns (ok: bool)
      requires s.Delete? || s.Confirm? || s.Reject? || s.Revoke?
      modifies this`orders
      ensures Did(old(Read()), Perform(old(Read()), s), ok)
    {
      var o := s.order;
      if o >= |orders| || orders[o].phase != (if s.Revoke? then Confirmed else Submitted)
         || (s.Delete? && orders[o].campus != s.campus) {
        return false;
      }
      if s.Revoke? {
        for k := 0 to |purchases|
          invariant Read() == old(Read())
          invariant forall j :: 0 <= j < k ==> purchases[j].batch != orders[o].batch
        {
          if purchases[k].batch == orders[o].batch {
            return false;
          }
        }
      }
      var phase := match s
        case Delete(_, _) => Deleted
        case Confirm(_) => Confirmed
        case Reject(_) => Rejected
        case _ => Submitted;
      orders := orders[o := orders[o].(phase := phase)];
      return true;
    }

    /** Closing a purchase, or opening it again while no other one buys for its batch. */
    method SwitchPurchase(k: nat, closed: bool) returns (ok: bool)
      modifies this`purchases
      ensures Did(old(Read()), Perform(old(Read()), if closed then Close(k) else Reopen(k)), ok)
    {
      if k >= |purchases| || purchases[k].closed == closed {
        return false;
      }
      if !closed {
        var open := FindOpen(purchases[k].batch, k);
        if open {
          return false;
        }
      }
      purchases := purchases[k := purchases[k].(closed := closed)];
      return true;
    }

    method Serve(s: Step) returns (ok: bool)
      modifies this
      ensures Did(old(Read()), Perform(old(Read()), s), ok)
    {
      match s
      case Save(batch, campus, open, wanted, catalogue) => ok := SubmitOrder(batch, campus, open, wanted, catalogue);
      case Delete(_, _) => ok := MoveOrder(s);
      case Confirm(_) => ok := MoveOrder(s);
      case Reject(_) => ok := MoveOrder(s);
      case Revoke(_) => ok := MoveOrder(s);
      case Buy(batch, officials) => ok := BuyBatch(batch, officials);
      case Receive(k, deliveries) => ok := ReceiveGoods(k, deliveries);
      case Close(k) => ok := SwitchPurchase(k, true);
      case Reopen(k) => ok := SwitchPurchase(k, false);
      case Ship(o) => ok := ShipOrder(o);
      case BookIn(o, campus) => ok := ConfirmReceipt(o, campus);
    }

    /**
     Any sequence of requests does on the tables what the run of their steps does; so purchases stay
     backed and sound, and no unit is lost between supplier, headquarters and campus.
     */
    method ServeAll(steps: seq<Step>)
      modifies this
      ensures Read() == Run(old(Read()), steps)
      ensures old(SupplySafety.CountersSound(Read()) && SupplySafety.Backed(Read())) ==>
                SupplySafety.CountersSound(Read()) && SupplySafety.Backed(Read())
      ensures old(forall p :: SupplySafety.ProductAccounted(Read(), p)) ==>
                forall p :: SupplySafety.ProductAccounted(Read(), p)
    {
      ghost var start := Read();
      for i := 0 to |steps|
        invariant Read() == Run(start, steps[..i])
      {
        assert steps[..i + 1][..i] == steps[..i];
        var ok := Serve(steps[i]);
      }
      assert steps[..|steps|] == steps;
      RunKeepsTheBooks(start, steps);
    }

    static lemma RunKeepsTheBooks(d: Depot, steps: seq<Step>)
      ensures SupplySafety.CountersSound(d) && SupplySafety.Backed(d) ==>
                SupplySafety.CountersSound(Run(d, steps)) && SupplySafety.Backed(Run(d, steps))
      ensures (forall p :: SupplySafety.ProductAccounted(d, p)) ==>
                forall p :: SupplySafety.ProductAccounted(Run(d, steps), p)
    {
      if SupplySafety.CountersSound(d) && SupplySafety.Backed(d) {
        SupplySafety.PurchasesStayBacked(d, steps);
      }
      if forall p :: SupplySafety.ProductAccounted(d, p) {
        forall p ensures SupplySafety.ProductAccounted(Run(d, steps), p) {
          SupplySafety.GoodsInTransit(d, steps, p);
        }
      }
    }
  }
}
