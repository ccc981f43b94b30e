/** What every step of the supply chain keeps: lines backed by orders, counters in order, goods accounted for. */
module SupplySafety {
  import opened Sums
  import opened Inventory
  import opened Supply

  // ----- counters -----

  predicate LineSound(l: BuyLine)
  {
    l.bad <= l.received <= l.required && 1 <= l.required
  }

  ghost predicate PurchaseSound(po: Purchase)
  {
    && po.lines != []
    && (forall i :: 0 <= i < |po.lines| ==> LineSound(po.lines[i]))
    && (forall i, j :: 0 <= i < j < |po.lines| ==> po.lines[i].official != po.lines[j].official)
  }

  ghost predicate CountersSound(d: Depot)
  {
    && (forall k :: 0 <= k < |d.purchases| ==> PurchaseSound(d.purchases[k]))
    && (forall j, k :: 0 <= j < k < |d.purchases| && d.purchases[j].batch == d.purchases[k].batch
          ==> d.purchases[j].closed || d.purchases[k].closed)
  }

  lemma {:induction false} ConfirmedMeansCases(items: seq<Item>, p: nat)
    ensures CaseSize(items, p).Some? <==> CasesOf(items, p) > 0
  {
    if items != [] {
      ConfirmedMeansCases(items[..|items| - 1], p);
    }
  }

  lemma {:induction false} AggregateMeansCases(orders: seq<RestockOrder>, batch: nat, p: nat)
    ensures BatchCaseSize(orders, batch, p).Some? <==> CasesIn(orders, batch, {Confirmed}, p) > 0
  {
    if orders != [] {
      AggregateMeansCases(orders[..|orders| - 1], batch, p);
      ConfirmedMeansCases(orders[|orders| - 1].items, p);
    }
  }

  /** What a plan lets through: each product once, within its line's shortage. */
  predicate Fits(lines: seq<BuyLine>, d: Delivery)
  {
    var i := FindLine(lines, d.official);
    i < |lines| && d.bad <= d.receive <= lines[i].required - lines[i].received
  }

  lemma {:induction false} PlanFits(lines: seq<BuyLine>, ds: seq<Delivery>)
    requires Plan(lines, ds).Some?
    ensures var plan := Plan(lines, ds).value;
            && (forall i :: 0 <= i < |plan| ==> Fits(lines, plan[i]) && Delivered(ds, plan[i].official))
            && (forall i, j :: 0 <= i < j < |plan| ==> plan[i].official != plan[j].official)
  {
    if ds != [] {
      var init := ds[..|ds| - 1];
      PlanFits(lines, init);
      DeliveredGrows(ds);
    }
  }

  predicate SameLine(a: BuyLine, b: BuyLine)
  {
    a.official == b.official && a.required == b.required && a.unitsPerCase == b.unitsPerCase
  }

  /** Booking distinct fitting deliveries moves each line by its own delivery, or not at all. */
  lemma {:induction false} BookLinesSound(lines: seq<BuyLine>, plan: seq<Delivery>)
    requires forall i, j :: 0 <= i < j < |lines| ==> lines[i].official != lines[j].official
    requires forall i :: 0 <= i < |lines| ==> LineSound(lines[i])
    requires forall i :: 0 <= i < |plan| ==> Fits(lines, plan[i])
    requires forall i, j :: 0 <= i < j < |plan| ==> plan[i].official != plan[j].official
    ensures var after := BookLines(lines, plan);
            && (forall i :: 0 <= i < |lines| ==> LineSound(after[i]) && SameLine(lines[i], after[i]))
            && (forall i :: 0 <= i < |lines| && !Delivered(plan, lines[i].official) ==> after[i] == lines[i])
  {
    if plan != [] {
      var init, last := plan[..|plan| - 1], plan[|plan| - 1];
      BookLinesSound(lines, init);
      var before, after := BookLines(lines, init), BookLines(lines, plan);
      var i := FindLine(lines, last.official);
      assert Fits(lines, last) && !Delivered(init, lines[i].official);
      SameFind(lines, before, last.official);
      DeliveredGrows(plan);
    }
  }

  lemma DeliveredGrows(ds: seq<Delivery>)
    requires ds != []
    ensures Delivered(ds, ds[|ds| - 1].official)
    ensures forall p :: Delivered(ds[..|ds| - 1], p) ==> Delivered(ds, p)
  {
    var init := ds[..|ds| - 1];
    forall p | Delivered(init, p) ensures Delivered(ds, p) {
      var i :| 0 <= i < |init| && init[i].official == p;
      assert ds[i].official == p;
    }
  }

  lemma SameFind(a: seq<BuyLine>, b: seq<BuyLine>, p: nat)
    requires |a| == |b| && forall i :: 0 <= i < |a| ==> a[i].official == b[i].official
    ensures FindLine(a, p) == FindLine(b, p)
  {
    var i, j := FindLine(a, p), FindLine(b, p);
    assert i < |a| ==> b[i].official == p;
    assert j < |b| ==> a[j].official == p;
  }

  lemma ReceiveSound(d: Depot, k: nat, ds: seq<Delivery>)
    requires CountersSound(d) && DoReceive(d, k, ds).Some?
    ensures PurchaseSound(DoReceive(d, k, ds).value.purchases[k])
  {
    var po := d.purchases[k];
    assert PurchaseSound(po);
    PlanFits(po.lines, ds);
    BookLinesSound(po.lines, Plan(po.lines, ds).value);
  }

  lemma BuySound(d: Depot, batch: nat, officials: seq<nat>)
    requires DoBuy(d, batch, officials).Some?
    ensures PurchaseSound(DoBuy(d, batch, officials).value.purchases[|d.purchases|])
  {
    var po := DoBuy(d, batch, officials).value.purchases[|d.purchases|];
    forall i | 0 <= i < |po.lines| ensures LineSound(po.lines[i]) {
      AggregateMeansCases(d.orders, batch, officials[i]);
    }
  }

  lemma StepCountersSound(d: Depot, s: Step)
    requires CountersSound(d)
    ensures CountersSound(Next(d, s))
  {
    if Perform(d, s).Some? {
      if s.Receive? {
        ReceiveSound(d, s.purchase, s.deliveries);
      } else if s.Buy? {
        BuySound(d, s.batch, s.officials);
      }
    }
  }

  /** Over every run of receiving, closing and reopening: bad within received within required, one open purchase a batch. */
  lemma {:induction false} CountersStaySound(d: Depot, steps: seq<Step>)
    requires CountersSound(d)
    ensures CountersSound(Run(d, steps))
  {
    if steps != [] {
      CountersStaySound(d, steps[..|steps| - 1]);
      StepCountersSound(Run(d, steps[..|steps| - 1]), steps[|steps| - 1]);
    }
  }

  lemma {:induction false} EqualSums(a: seq<int>, b: seq<int>)
    requires |a| == |b| && (forall i :: 0 <= i < |a| ==> a[i] <= b[i]) && Sum(a) >= Sum(b)
    ensures a == b
  {
    if a != [] {
      SumLeq(a[..|a| - 1], b[..|b| - 1]);
      EqualSums(a[..|a| - 1], b[..|b| - 1]);
    }
  }

  /** The test on sums is as good as a test on every line: completed means nothing is missing anywhere. */
  lemma CompletedMeansEveryLine(po: Purchase)
    requires PurchaseSound(po)
    ensures PhaseOf(po) == CompletedPhase <==>
            !po.closed && forall i :: 0 <= i < |po.lines| ==> po.lines[i].received == po.lines[i].required
  {
    var received, required := Counters(po.lines, true), Counters(po.lines, false);
    if !po.closed {
      assert LineSound(po.lines[0]);
      assert forall i :: 0 <= i < |po.lines| ==> LineSound(po.lines[i]);
      SumMember(required, 0);
      if Sum(received) >= Sum(required) {
        EqualSums(received, required);
        assert forall i :: 0 <= i < |po.lines| ==> received[i] == required[i];
      } else {
        assert received != required;
      }
    }
  }

  // ----- purchases stay backed -----

  /** Every purchase line asks for no more than its batch's live orders do. */
  ghost predicate Backed(d: Depot)
  {
    forall k, i :: 0 <= k < |d.purchases| && 0 <= i < |d.purchases[k].lines| ==>
      d.purchases[k].lines[i].required <= CasesIn(d.orders, d.purchases[k].batch, LIVE, d.purchases[k].lines[i].official)
  }

  lemma {:induction false} CasesAfterUpdate(orders: seq<RestockOrder>, o: nat, x: RestockOrder, batch: nat, phases: set<OrderPhase>, p: nat)
    requires o < |orders|
    ensures CasesIn(orders[o := x], batch, phases, p)
         == CasesIn(orders, batch, phases, p) - CaseShare(orders[o], batch, phases, p) + CaseShare(x, batch, phases, p)
  {
    var init := orders[..|orders| - 1];
    if o == |orders| - 1 {
      assert orders[o := x][..|orders| - 1] == init;
    } else {
      assert orders[o := x][..|orders| - 1] == init[o := x];
      CasesAfterUpdate(init, o, x, batch, phases, p);
    }
  }

  lemma {:induction false} ConfirmedWithinLive(orders: seq<RestockOrder>, batch: nat, p: nat)
    ensures CasesIn(orders, batch, {Confirmed}, p) <= CasesIn(orders, batch, LIVE, p)
  {
    if orders != [] {
      ConfirmedWithinLive(orders[..|orders| - 1], batch, p);
    }
  }

  lemma PhaseChangeKeepsBacked(d: Depot, o: nat, phase: OrderPhase, v: Depot)
    requires Backed(d) && o < |d.orders| && v.purchases == d.purchases && v.orders == SetPhase(d, o, phase).orders
    requires d.orders[o].phase in LIVE ==> phase in LIVE || !Bought(d, d.orders[o].batch)
    ensures Backed(v)
  {
    forall k, i | 0 <= k < |v.purchases| && 0 <= i < |v.purchases[k].lines|
      ensures v.purchases[k].lines[i].required
           <= CasesIn(v.orders, v.purchases[k].batch, LIVE, v.purchases[k].lines[i].official)
    {
      CasesAfterUpdate(d.orders, o, v.orders[o], v.purchases[k].batch, LIVE, v.purchases[k].lines[i].official);
    }
  }

  lemma BuyKeepsBacked(d: Depot, s: Step)
    requires Backed(d) && s.Buy? && Perform(d, s).Some?
    ensures Backed(Next(d, s))
  {
    var v := Next(d, s);
    forall i | 0 <= i < |s.officials|
      ensures v.purchases[|d.purchases|].lines[i].required <= CasesIn(d.orders, s.batch, LIVE, s.officials[i])
    {
      ConfirmedWithinLive(d.orders, s.batch, s.officials[i]);
    }
  }

  lemma ReceiveKeepsBacked(d: Depot, s: Step)
    requires CountersSound(d) && Backed(d) && s.Receive? && Perform(d, s).Some?
    ensures Backed(Next(d, s))
  {
    var po := d.purchases[s.purchase];
    assert PurchaseSound(po);
    PlanFits(po.lines, s.deliveries);
    BookLinesSound(po.lines, Plan(po.lines, s.deliveries).value);
    assert forall i :: 0 <= i < |po.lines| ==>
      Next(d, s).purchases[s.purchase].lines[i].required == po.lines[i].required
      && Next(d, s).purchases[s.purchase].lines[i].official == po.lines[i].official;
  }

  lemma PurchaseStepKeepsBacked(d: Depot, s: Step)
    requires CountersSound(d) && Backed(d) && Perform(d, s).Some? && (s.Buy? || s.Receive? || s.Close? || s.Reopen?)
    ensures Backed(Next(d, s))
  {
    if s.Buy? {
      BuyKeepsBacked(d, s);
    } else if s.Receive? {
      ReceiveKeepsBacked(d, s);
    }
  }

  lemma StepKeepsBacked(d: Depot, s: Step)
    requires CountersSound(d) && Backed(d)
    ensures Backed(Next(d, s))
  {
    var v := Next(d, s);
    if Perform(d, s).Some? {
      match s
      case Save(batch, _, _, _, _) =>
        forall b, p ensures CasesIn(v.orders, b, LIVE, p) == CasesIn(d.orders, b, LIVE, p) {
          assert v.orders[..|d.orders|] == d.orders;
        }
      case Delete(o, _) => PhaseChangeKeepsBacked(d, o, Deleted, v);
      case Confirm(o) => PhaseChangeKeepsBacked(d, o, Confirmed, v);
      case Reject(o) => PhaseChangeKeepsBacked(d, o, Rejected, v);
      case Revoke(o) => PhaseChangeKeepsBacked(d, o, Submitted, v);
      case Ship(o) => PhaseChangeKeepsBacked(d, o, Shipped, v);
      case BookIn(o, _) => PhaseChangeKeepsBacked(d, o, Supply.Received, v);
      case _ => PurchaseStepKeepsBacked(d, s);
    }
  }

  /** In every later state of every run: what is being bought is still being asked for. */
  lemma {:induction false} PurchasesStayBacked(d: Depot, steps: seq<Step>)
    requires CountersSound(d) && Backed(d)
    ensures CountersSound(Run(d, steps)) && Backed(Run(d, steps))
  {
    if steps != [] {
      var init := steps[..|steps| - 1];
      PurchasesStayBacked(d, init);
      StepCountersSound(Run(d, init), steps[|steps| - 1]);
      StepKeepsBacked(Run(d, init), steps[|steps| - 1]);
    }
  }

  // ----- goods in transit -----

  function LineUnits(l: BuyLine, p: nat, bad: bool): nat
  {
    if l.official != p then 0 else (if bad then l.bad else l.received) * l.unitsPerCase
  }

  function LinesUnits(lines: seq<BuyLine>, p: nat, bad: bool): nat
  {
    if lines == [] then 0 else LinesUnits(lines[..|lines| - 1], p, bad) + LineUnits(lines[|lines| - 1], p, bad)
  }

  function BoughtUnits(purchases: seq<Purchase>, p: nat, bad: bool): nat
  {
    if purchases == [] then 0
    else BoughtUnits(purchases[..|purchases| - 1], p, bad) + LinesUnits(purchases[|purchases| - 1].lines, p, bad)
  }

  /** Every kind of supply entry in the ledger adds up to what the orders and purchases say. */
  predicate ProductAccounted(d: Depot, p: nat)
  {
    && Total(d.stock.ledger, OfKind(PurchaseReceive, p)) == BoughtUnits(d.purchases, p, false)
    && Total(d.stock.ledger, OfKind(PurchaseBad, p)) == 0 - BoughtUnits(d.purchases, p, true)
    && Total(d.stock.ledger, OfKind(RestockOut, p)) == 0 - UnitsIn(d.orders, SENT, p)
    && Total(d.stock.ledger, OfKind(RestockIn, p)) == UnitsIn(d.orders, {Supply.Received}, p)
  }

  lemma {:induction false} UnitsAfterUpdate(orders: seq<RestockOrder>, o: nat, x: RestockOrder, phases: set<OrderPhase>, p: nat)
    requires o < |orders|
    ensures UnitsIn(orders[o := x], phases, p)
         == UnitsIn(orders, phases, p) - UnitShare(orders[o], phases, p) + UnitShare(x, phases, p)
  {
    var init := orders[..|orders| - 1];
    if o == |orders| - 1 {
      assert orders[o := x][..|orders| - 1] == init;
    } else {
      assert orders[o := x][..|orders| - 1] == init[o := x];
      UnitsAfterUpdate(init, o, x, phases, p);
    }
  }

  lemma {:induction false} BoughtAfterUpdate(purchases: seq<Purchase>, k: nat, x: Purchase, p: nat, bad: bool)
    requires k < |purchases|
    ensures BoughtUnits(purchases[k := x], p, bad)
         == BoughtUnits(purchases, p, bad) - LinesUnits(purchases[k].lines, p, bad) + LinesUnits(x.lines, p, bad)
  {
    var init := purchases[..|purchases| - 1];
    if k == |purchases| - 1 {
      assert purchases[k := x][..|purchases| - 1] == init;
    } else {
      assert purchases[k := x][..|purchases| - 1] == init[k := x];
      BoughtAfterUpdate(init, k, x, p, bad);
    }
  }

  lemma {:induction false} LinesAfterUpdate(lines: seq<BuyLine>, i: nat, x: BuyLine, p: nat, bad: bool)
    requires i < |lines|
    ensures LinesUnits(lines[i := x], p, bad) == LinesUnits(lines, p, bad) - LineUnits(lines[i], p, bad) + LineUnits(x, p, bad)
  {
    var init := lines[..|lines| - 1];
    if i == |lines| - 1 {
      assert lines[i := x][..|lines| - 1] == init;
    } else {
      assert lines[i := x][..|lines| - 1] == init[i := x];
      LinesAfterUpdate(init, i, x, p, bad);
    }
  }

  /** Shipping writes each item's units out of headquarters, and nothing of any other kind. */
  lemma {:induction false} ShipItemsLedger(stock: Goods, items: seq<Item>, kind: TxnKind, p: nat)
    ensures Total(ShipItems(stock, items).ledger, OfKind(kind, p))
         == Total(stock.ledger, OfKind(kind, p)) - if kind == RestockOut then UnitsAsked(items, p) else 0
  {
    if items != [] {
      var init, last := items[..|items| - 1], items[|items| - 1];
      ShipItemsLedger(stock, init, kind, p);
      TotalAppend(ShipItems(stock, init).ledger, Txn(Mirror(HQ, last.official), RestockOut, 0 - ItemUnits(last)), OfKind(kind, p));
    }
  }

  lemma {:induction false} BookInLedger(stock: Goods, campus: Campus, items: seq<Item>, kind: TxnKind, p: nat)
    requires BookInItems(stock, campus, items).Some?
    ensures Total(BookInItems(stock, campus, items).value.ledger, OfKind(kind, p))
         == Total(stock.ledger, OfKind(kind, p)) + if kind == RestockIn then UnitsAsked(items, p) else 0
  {
    if items != [] {
      var init, last := items[..|items| - 1], items[|items| - 1];
      BookInLedger(stock, campus, init, kind, p);
      TotalAppend(BookInItems(stock, campus, init).value.ledger,
                  Txn(Mirror(campus, last.official), RestockIn, ItemUnits(last)), OfKind(kind, p));
    }
  }

  lemma Distribute(a: int, b: int, c: int)
    ensures (a + b) * c == a * c + b * c
  {
  }

  lemma ArriveTotals(stock: Goods, o: nat, units: nat, bad: nat, p: nat)
    ensures var ledger := Arrive(stock, o, units, bad).ledger;
            && Total(ledger, OfKind(PurchaseReceive, p)) == Total(stock.ledger, OfKind(PurchaseReceive, p)) + (if o == p then units else 0)
            && Total(ledger, OfKind(PurchaseBad, p)) == Total(stock.ledger, OfKind(PurchaseBad, p)) - (if o == p then bad else 0)
            && Total(ledger, OfKind(RestockOut, p)) == Total(stock.ledger, OfKind(RestockOut, p))
            && Total(ledger, OfKind(RestockIn, p)) == Total(stock.ledger, OfKind(RestockIn, p))
  {
    ArriveLedger(stock, o, units, bad, OfKind(PurchaseReceive, p));
    ArriveLedger(stock, o, units, bad, OfKind(PurchaseBad, p));
    ArriveLedger(stock, o, units, bad, OfKind(RestockOut, p));
    ArriveLedger(stock, o, units, bad, OfKind(RestockIn, p));
  }

  lemma BookedUnits(lines: seq<BuyLine>, d: Delivery, p: nat, bad: bool)
    requires FindLine(lines, d.official) < |lines|
    ensures var upc := lines[FindLine(lines, d.official)].unitsPerCase;
            LinesUnits(BookLine(lines, d), p, bad)
              == LinesUnits(lines, p, bad) + if d.official != p then 0 else (if bad then d.bad else d.receive) * upc
  {
    var i := FindLine(lines, d.official);
    var l, x := lines[i], BookLine(lines, d)[i];
    LinesAfterUpdate(lines, i, x, p, bad);
    if bad {
      Distribute(l.bad, d.bad, l.unitsPerCase);
    } else {
      Distribute(l.received, d.receive, l.unitsPerCase);
    }
  }

  /** One delivery: the ledger moves by exactly what the line's counters move, in units. */
  lemma BookingAddsUp(stock: Goods, lines: seq<BuyLine>, d: Delivery, p: nat)
    ensures Total(BookStock(stock, lines, d).ledger, OfKind(PurchaseReceive, p)) - LinesUnits(BookLine(lines, d), p, false)
         == Total(stock.ledger, OfKind(PurchaseReceive, p)) - LinesUnits(lines, p, false)
    ensures Total(BookStock(stock, lines, d).ledger, OfKind(PurchaseBad, p)) + LinesUnits(BookLine(lines, d), p, true)
         == Total(stock.ledger, OfKind(PurchaseBad, p)) + LinesUnits(lines, p, true)
    ensures Total(BookStock(stock, lines, d).ledger, OfKind(RestockOut, p)) == Total(stock.ledger, OfKind(RestockOut, p))
    ensures Total(BookStock(stock, lines, d).ledger, OfKind(RestockIn, p)) == Total(stock.ledger, OfKind(RestockIn, p))
  {
    var i := FindLine(lines, d.official);
    if i < |lines| {
      ArriveTotals(stock, d.official, d.receive * lines[i].unitsPerCase, d.bad * lines[i].unitsPerCase, p);
      BookedUnits(lines, d, p, false);
      BookedUnits(lines, d, p, true);
    }
  }

  /** Case sizes and products never change on a line, so booking against the updated lines is the same booking. */
  lemma {:induction false} BookLinesKeepShape(lines: seq<BuyLine>, ds: seq<Delivery>)
    ensures forall i :: 0 <= i < |lines| ==>
              BookLines(lines, ds)[i].official == lines[i].official
              && BookLines(lines, ds)[i].unitsPerCase == lines[i].unitsPerCase
  {
    if ds != [] {
      BookLinesKeepShape(lines, ds[..|ds| - 1]);
    }
  }

  lemma {:induction false} BookingsAddUp(stock: Goods, lines: seq<BuyLine>, ds: seq<Delivery>, p: nat)
    ensures Total(BookStocks(stock, lines, ds).ledger, OfKind(PurchaseReceive, p)) - LinesUnits(BookLines(lines, ds), p, false)
         == Total(stock.ledger, OfKind(PurchaseReceive, p)) - LinesUnits(lines, p, false)
    ensures Total(BookStocks(stock, lines, ds).ledger, OfKind(PurchaseBad, p)) + LinesUnits(BookLines(lines, ds), p, true)
         == Total(stock.ledger, OfKind(PurchaseBad, p)) + LinesUnits(lines, p, true)
    ensures Total(BookStocks(stock, lines, ds).ledger, OfKind(RestockOut, p)) == Total(stock.ledger, OfKind(RestockOut, p))
    ensures Total(BookStocks(stock, lines, ds).ledger, OfKind(RestockIn, p)) == Total(stock.ledger, OfKind(RestockIn, p))
  {
    if ds != [] {
      var init, last := ds[..|ds| - 1], ds[|ds| - 1];
      BookingsAddUp(stock, lines, init, p);
      BookLinesKeepShape(lines, init);
      var mid, midLines := BookStocks(stock, lines, init), BookLines(lines, init);
      SameFind(lines, midLines, last.official);
      BookingAddsUp(mid, midLines, last, p);
      assert BookStock(mid, midLines, last) == BookStock(mid, lines, last);
    }
  }

  lemma {:induction false} FreshLinesCarryNothing(lines: seq<BuyLine>, p: nat, bad: bool)
    requires forall i :: 0 <= i < |lines| ==> lines[i].received == 0 && lines[i].bad == 0
    ensures LinesUnits(lines, p, bad) == 0
  {
    if lines != [] {
      FreshLinesCarryNothing(lines[..|lines| - 1], p, bad);
    }
  }

  lemma PhaseUnits(d: Depot, o: nat, phase: OrderPhase, p: nat)
    requires o < |d.orders|
    ensures forall phases: set<OrderPhase> | phases == SENT || phases == {Supply.Received} ::
              UnitsIn(SetPhase(d, o, phase).orders, phases, p) == UnitsIn(d.orders, phases, p)
                - UnitShare(d.orders[o], phases, p) + UnitShare(SetPhase(d, o, phase).orders[o], phases, p)
  {
    UnitsAfterUpdate(d.orders, o, SetPhase(d, o, phase).orders[o], SENT, p);
    UnitsAfterUpdate(d.orders, o, SetPhase(d, o, phase).orders[o], {Supply.Received}, p);
  }

  lemma OrderStepAccounted(d: Depot, s: Step, p: nat)
    requires ProductAccounted(d, p) && Perform(d, s).Some?
    requires s.Save? || s.Delete? || s.Confirm? || s.Reject? || s.Revoke?
    ensures ProductAccounted(Next(d, s), p)
  {
    var v := Next(d, s);
    if s.Save? {
      assert v.orders[..|d.orders|] == d.orders;
    } else {
      PhaseUnits(d, s.order, v.orders[s.order].phase, p);
    }
  }

  lemma ShipAccounted(d: Depot, o: nat, p: nat)
    requires ProductAccounted(d, p) && HasPhase(d, o, Confirmed)
    ensures ProductAccounted(SetPhase(d, o, Shipped).(stock := ShipItems(d.stock, d.orders[o].items)), p)
  {
    var items := d.orders[o].items;
    PhaseUnits(d, o, Shipped, p);
    ShipItemsLedger(d.stock, items, PurchaseReceive, p);
    ShipItemsLedger(d.stock, items, PurchaseBad, p);
    ShipItemsLedger(d.stock, items, RestockOut, p);
    ShipItemsLedger(d.stock, items, RestockIn, p);
  }

  lemma BookInAccounted(d: Depot, o: nat, campus: Campus, p: nat)
    requires ProductAccounted(d, p) && HasPhase(d, o, Shipped) && BookInItems(d.stock, campus, d.orders[o].items).Some?
    ensures ProductAccounted(SetPhase(d, o, Supply.Received).(stock := BookInItems(d.stock, campus, d.orders[o].items).value), p)
  {
    var items := d.orders[o].items;
    PhaseUnits(d, o, Supply.Received, p);
    BookInLedger(d.stock, campus, items, PurchaseReceive, p);
    BookInLedger(d.stock, campus, items, PurchaseBad, p);
    BookInLedger(d.stock, campus, items, RestockOut, p);
    BookInLedger(d.stock, campus, items, RestockIn, p);
  }

  lemma MoveStepAccounted(d: Depot, s: Step, p: nat)
    requires ProductAccounted(d, p) && Perform(d, s).Some? && (s.Ship? || s.BookIn?)
    ensures ProductAccounted(Next(d, s), p)
  {
    match s
    case Ship(o) => ShipAccounted(d, o, p);
    case BookIn(o, campus) => BookInAccounted(d, o, campus, p);
  }

  lemma BoughtAppend(purchases: seq<Purchase>, po: Purchase, p: nat, bad: bool)
    ensures BoughtUnits(purchases + [po], p, bad) == BoughtUnits(purchases, p, bad) + LinesUnits(po.lines, p, bad)
  {
    assert (purchases + [po])[..|purchases|] == purchases;
  }

  /** A new purchase has received nothing yet. */
  lemma BuyAccounted(d: Depot, s: Step, p: nat)
    requires ProductAccounted(d, p) && s.Buy? && Perform(d, s).Some?
    ensures ProductAccounted(Next(d, s), p)
  {
    var po := Purchase(s.batch, false, LinesFor(d.orders, s.batch, s.officials));
    FreshLinesCarryNothing(po.lines, p, false);
    FreshLinesCarryNothing(po.lines, p, true);
    BoughtAppend(d.purchases, po, p, false);
    BoughtAppend(d.purchases, po, p, true);
    assert Next(d, s) == d.(purchases := d.purchases + [po]);
  }

  lemma ReceiveAccounted(d: Depot, k: nat, ds: seq<Delivery>, p: nat)
    requires ProductAccounted(d, p) && DoReceive(d, k, ds).Some?
    ensures ProductAccounted(DoReceive(d, k, ds).value, p)
  {
    var po := d.purchases[k];
    var plan := Plan(po.lines, ds).value;
    var booked := po.(lines := BookLines(po.lines, plan));
    BookingsAddUp(d.stock, po.lines, plan, p);
    BoughtAfterUpdate(d.purchases, k, booked, p, false);
    BoughtAfterUpdate(d.purchases, k, booked, p, true);
  }

  /** Closing and reopening leave every line alone. */
  lemma SwitchAccounted(d: Depot, k: nat, closed: bool, p: nat)
    requires ProductAccounted(d, p) && k < |d.purchases|
    ensures ProductAccounted(d.(purchases := d.purchases[k := d.purchases[k].(closed := closed)]), p)
  {
    BoughtAfterUpdate(d.purchases, k, d.purchases[k].(closed := closed), p, false);
    BoughtAfterUpdate(d.purchases, k, d.purchases[k].(closed := closed), p, true);
  }

  lemma PurchaseStepAccounted(d: Depot, s: Step, p: nat)
    requires ProductAccounted(d, p) && Perform(d, s).Some? && (s.Buy? || s.Receive? || s.Close? || s.Reopen?)
    ensures ProductAccounted(Next(d, s), p)
  {
    match s
    case Buy(_, _) => BuyAccounted(d, s, p);
    case Receive(k, ds) => ReceiveAccounted(d, k, ds, p);
    case Close(k) => SwitchAccounted(d, k, true, p);
    case Reopen(k) => SwitchAccounted(d, k, false, p);
  }

  lemma StepAccounted(d: Depot, s: Step, p: nat)
    requires ProductAccounted(d, p)
    ensures ProductAccounted(Next(d, s), p)
  {
    if Perform(d, s).Some? {
      if s.Ship? || s.BookIn? {
        MoveStepAccounted(d, s, p);
      } else if s.Buy? || s.Receive? || s.Close? || s.Reopen? {
        PurchaseStepAccounted(d, s, p);
      } else {
        OrderStepAccounted(d, s, p);
      }
    }
  }

  lemma {:induction false} SentSplits(orders: seq<RestockOrder>, p: nat)
    ensures UnitsIn(orders, SENT, p) == UnitsIn(orders, {Shipped}, p) + UnitsIn(orders, {Supply.Received}, p)
  {
    if orders != [] {
      SentSplits(orders[..|orders| - 1], p);
    }
  }

  /**
   Nothing is lost or duplicated between supplier, headquarters and campus: over every run the
   ledger's supplier entries are the received and bad cases in units, and its shipments less its
   receipts are exactly the units of the orders now on the road.
   */
  lemma {:induction false} GoodsInTransit(d: Depot, steps: seq<Step>, p: nat)
    requires ProductAccounted(d, p)
    ensures var v := Run(d, steps);
            && ProductAccounted(v, p)
            && Total(v.stock.ledger, OfKind(RestockOut, p)) + Total(v.stock.ledger, OfKind(RestockIn, p))
                 == 0 - UnitsIn(v.orders, {Shipped}, p)
  {
    if steps != [] {
      GoodsInTransit(d, steps[..|steps| - 1], p);
      StepAccounted(Run(d, steps[..|steps| - 1]), steps[|steps| - 1], p);
    }
    SentSplits(Run(d, steps).orders, p);
  }

  // ----- the shelves along the way -----

  lemma {:induction false} ShipItemsBalance(stock: Goods, items: seq<Item>, q: ProductId)
    ensures Balance(ShipItems(stock, items), q) == Balance(stock, q)
    ensures ShelvesNonNegative(stock) ==> ShelvesNonNegative(ShipItems(stock, items))
  {
    if items != [] {
      var init, last := items[..|items| - 1], items[|items| - 1];
      ShipItemsBalance(stock, init, q);
      ApplyKeepsBalance(ShipItems(stock, init), StockOp.Ship(last.official, ItemUnits(last)), q);
      if ShelvesNonNegative(stock) {
        ApplyKeepsShelves(ShipItems(stock, init), StockOp.Ship(last.official, ItemUnits(last)));
      }
    }
  }

  lemma {:induction false} BookInBalance(stock: Goods, campus: Campus, items: seq<Item>, q: ProductId)
    requires BookInItems(stock, campus, items).Some?
    ensures Balance(BookInItems(stock, campus, items).value, q) == Balance(stock, q)
    ensures ShelvesNonNegative(stock) ==> ShelvesNonNegative(BookInItems(stock, campus, items).value)
  {
    if items != [] {
      var init, last := items[..|items| - 1], items[|items| - 1];
      BookInBalance(stock, campus, init, q);
      var before := BookInItems(stock, campus, init).value;
      ApplyKeepsBalance(before, Receipt(campus, last.official, ItemUnits(last)), q);
      if ShelvesNonNegative(stock) {
        ApplyKeepsShelves(before, Receipt(campus, last.official, ItemUnits(last)));
      }
    }
  }

  lemma {:induction false} BookStocksBalance(stock: Goods, lines: seq<BuyLine>, ds: seq<Delivery>, q: ProductId)
    ensures Balance(BookStocks(stock, lines, ds), q) == Balance(stock, q)
    ensures ShelvesNonNegative(stock) ==> ShelvesNonNegative(BookStocks(stock, lines, ds))
  {
    if ds != [] {
      var init, last := ds[..|ds| - 1], ds[|ds| - 1];
      BookStocksBalance(stock, lines, init, q);
      var i := FindLine(lines, last.official);
      if i < |lines| {
        ArriveKeepsBalance(BookStocks(stock, lines, init), last.official,
          last.receive * lines[i].unitsPerCase, last.bad * lines[i].unitsPerCase, q);
      }
    }
  }

  /** The supply chain conserves every product's balance too, and only headquarters' shelves can go negative. */
  lemma {:induction false} SupplyConserves(d: Depot, steps: seq<Step>, q: ProductId)
    ensures Balance(Run(d, steps).stock, q) == Balance(d.stock, q)
    ensures ShelvesNonNegative(d.stock) ==> ShelvesNonNegative(Run(d, steps).stock)
  {
    if steps != [] {
      var init, last := steps[..|steps| - 1], steps[|steps| - 1];
      SupplyConserves(d, init, q);
      var u := Run(d, init);
      if Perform(u, last).Some? {
        if last.Ship? {
          ShipItemsBalance(u.stock, u.orders[last.order].items, q);
        } else if last.BookIn? {
          BookInBalance(u.stock, last.campus, u.orders[last.order].items, q);
        } else if last.Receive? {
          var lines := u.purchases[last.purchase].lines;
          BookStocksBalance(u.stock, lines, Plan(lines, last.deliveries).value, q);
        }
      }
    }
  }
}
