/** What restocking answers step by step, and that a campus gets in the end what it ordered. */
module SupplyRules {
  import opened Sums
  import opened Inventory
  import opened Supply
  import opened SupplySafety

  // ----- an order's life -----

  /** Who may take an order on, and from where. */
  predicate MayMove(d: Depot, s: Step, o: nat)
  {
    o < |d.orders| &&
    var ord := d.orders[o];
    match s
    case Delete(k, campus) => k == o && ord.phase == Submitted && ord.campus == campus
    case Confirm(k) => k == o && ord.phase == Submitted
    case Reject(k) => k == o && ord.phase == Submitted
    case Revoke(k) => k == o && ord.phase == Confirmed && forall j :: 0 <= j < |d.purchases| ==> d.purchases[j].batch != ord.batch
    case Ship(k) => k == o && ord.phase == Confirmed
    case BookIn(k, campus) => k == o && ord.phase == Shipped && ord.campus == campus && TakenIn(d.stock, campus, ord.items)
    case _ => false
  }

  /** No product of the order is one the campus buys itself. */
  predicate TakenIn(stock: Goods, campus: Campus, items: seq<Item>)
  {
    forall i :: 0 <= i < |items| ==>
      var row := Mirror(campus, items[i].official);
      row in stock.products ==> stock.products[row].mode != Some(FromLocal)
  }

  function PhaseAfter(s: Step): OrderPhase
  {
    match s
    case Delete(_, _) => Deleted
    case Confirm(_) => Confirmed
    case Reject(_) => Rejected
    case Ship(_) => Shipped
    case BookIn(_, _) => OrderPhase.Received
    case _ => Submitted
  }

  lemma {:induction false} TakenInMeans(stock: Goods, campus: Campus, items: seq<Item>)
    ensures BookInItems(stock, campus, items).Some? <==> TakenIn(stock, campus, items)
    ensures BookInItems(stock, campus, items).Some? ==>
              forall row :: row in BookInItems(stock, campus, items).value.products
                && BookInItems(stock, campus, items).value.products[row].mode == Some(FromLocal)
                ==> row in stock.products && stock.products[row].mode == Some(FromLocal)
    ensures BookInItems(stock, campus, items).Some? ==>
              forall row :: row in stock.products && stock.products[row].mode == Some(FromLocal) ==>
                row in BookInItems(stock, campus, items).value.products
                && BookInItems(stock, campus, items).value.products[row].mode == Some(FromLocal)
  {
    if items != [] {
      TakenInMeans(stock, campus, items[..|items| - 1]);
    }
  }

  /** An order takes each of these steps exactly when it may, and then only its phase has changed among the orders. */
  lemma OrderMovesExactlyWhen(d: Depot, s: Step, o: nat)
    requires s.Delete? || s.Confirm? || s.Reject? || s.Revoke? || s.Ship? || s.BookIn?
    requires s.order == o
    ensures Perform(d, s).Some? <==> MayMove(d, s, o)
    ensures Perform(d, s).Some? ==>
              var v := Perform(d, s).value;
              && v.orders == d.orders[o := d.orders[o].(phase := PhaseAfter(s))] && v.purchases == d.purchases
              && (!s.Ship? && !s.BookIn? ==> v.stock == d.stock)
  {
    if o < |d.orders| {
      TakenInMeans(d.stock, d.orders[o].campus, d.orders[o].items);
    }
  }

  /** Where an order can still get to. */
  function Ahead(phase: OrderPhase): set<OrderPhase>
  {
    match phase
    case Submitted => {Submitted, Confirmed, Rejected, Shipped, OrderPhase.Received, Deleted}
    case Confirmed => {Submitted, Confirmed, Rejected, Shipped, OrderPhase.Received, Deleted}
    case Shipped => {Shipped, OrderPhase.Received}
    case Received => {OrderPhase.Received}
    case Rejected => {Rejected}
    case Deleted => {Deleted}
  }

  lemma StepGoesAhead(d: Depot, s: Step, o: nat)
    requires o < |d.orders|
    ensures var v := Next(d, s);
            && o < |v.orders| && v.orders[o] == d.orders[o].(phase := v.orders[o].phase)
            && v.orders[o].phase in Ahead(d.orders[o].phase)
  {
  }

  /** Over every run an order keeps its campus, batch and items, what was shipped is not shipped again, and an end is an end. */
  lemma {:induction false} OrdersGoAhead(d: Depot, steps: seq<Step>, o: nat)
    requires o < |d.orders|
    ensures var v := Run(d, steps);
            && o < |v.orders| && v.orders[o] == d.orders[o].(phase := v.orders[o].phase)
            && v.orders[o].phase in Ahead(d.orders[o].phase)
  {
    if steps != [] {
      OrdersGoAhead(d, steps[..|steps| - 1], o);
      StepGoesAhead(Run(d, steps[..|steps| - 1]), steps[|steps| - 1], o);
    }
  }

  // ----- what is ordered is what arrives -----

  /** The units a form asks for of a product: its first line for it, in cases of the catalogue's size. */
  function UnitsWanted(wanted: seq<Wanted>, catalogue: map<nat, Quantity>, p: nat): nat
  {
    if wanted == [] || p !in catalogue then 0
    else if wanted[0].official == p then wanted[0].cases * catalogue[p] else UnitsWanted(wanted[1..], catalogue, p)
  }

  lemma {:induction false} WantedMore(wanted: seq<Wanted>, catalogue: map<nat, Quantity>, p: nat)
    requires wanted != [] && p in catalogue
    ensures var init, last := wanted[..|wanted| - 1], wanted[|wanted| - 1];
            UnitsWanted(wanted, catalogue, p)
              == if last.official == p && !Named(init, p) then last.cases * catalogue[p] else UnitsWanted(init, catalogue, p)
  {
    var init, last := wanted[..|wanted| - 1], wanted[|wanted| - 1];
    if |wanted| > 1 {
      assert wanted[1..][..|wanted| - 2] == init[1..] && init[0] == wanted[0];
      if wanted[0].official == p {
        assert Named(init, p) && Named(wanted, p);
      } else {
        WantedMore(wanted[1..], catalogue, p);
        assert Named(init[1..], p) <==> Named(init, p) by { NamedBelow(init, p); }
        assert Named(wanted[1..], p) <==> Named(wanted, p) by { NamedBelow(wanted, p); }
      }
    } else {
      assert wanted[0].official == p ==> Named(wanted, p);
    }
  }

  lemma NamedBelow(wanted: seq<Wanted>, p: nat)
    requires wanted != [] && wanted[0].official != p
    ensures Named(wanted[1..], p) <==> Named(wanted, p)
  {
    if Named(wanted, p) {
      var i :| 0 <= i < |wanted| && wanted[i].official == p;
      assert wanted[1..][i - 1] == wanted[i];
    }
  }

  predicate Listed(wanted: seq<Wanted>, catalogue: map<nat, Quantity>)
  {
    forall i :: 0 <= i < |wanted| ==> wanted[i].official in catalogue
  }

  lemma ItemsOfMore(kept: seq<Wanted>, last: Wanted, catalogue: map<nat, Quantity>, p: nat)
    requires Listed(kept + [last], catalogue)
    ensures Listed(kept, catalogue) && last.official in catalogue
    ensures UnitsAsked(ItemsFor(kept + [last], catalogue), p)
         == UnitsAsked(ItemsFor(kept, catalogue), p) + if last.official == p then last.cases * catalogue[p] else 0
  {
    var more := kept + [last];
    assert more[|kept|] == last && forall i :: 0 <= i < |kept| ==> more[i] == kept[i];
    assert ItemsFor(more, catalogue)[..|kept|] == ItemsFor(kept, catalogue);
  }

  /** The items of an order are the form's, whatever was filled in twice. */
  lemma {:induction false} ItemsAreWanted(wanted: seq<Wanted>, catalogue: map<nat, Quantity>, p: nat)
    requires Listed(FirstOfEach(wanted), catalogue)
    ensures UnitsAsked(ItemsFor(FirstOfEach(wanted), catalogue), p) == UnitsWanted(wanted, catalogue, p)
    ensures Named(FirstOfEach(wanted), p) <==> Named(wanted, p)
  {
    if wanted != [] {
      var init, last := wanted[..|wanted| - 1], wanted[|wanted| - 1];
      var kept := FirstOfEach(init);
      NamedLast(wanted, p);
      if p in catalogue { WantedMore(wanted, catalogue, p); }
      if Named(init, last.official) {
        assert FirstOfEach(wanted) == kept;
        ItemsAreWanted(init, catalogue, p);
      } else {
        assert FirstOfEach(wanted) == kept + [last];
        ItemsOfMore(kept, last, catalogue, p);
        ItemsAreWanted(init, catalogue, p);
        NamedLast(kept + [last], p);
        assert (kept + [last])[..|kept|] == kept;
        if last.official == p { NoneWanted(init, catalogue, p); }
      }
    }
  }

  lemma {:induction false} NoneWanted(wanted: seq<Wanted>, catalogue: map<nat, Quantity>, p: nat)
    requires !Named(wanted, p)
    ensures UnitsWanted(wanted, catalogue, p) == 0
  {
    if wanted != [] {
      assert wanted[0].official == p ==> Named(wanted, p);
      if wanted[0].official != p {
        NamedBelow(wanted, p);
        NoneWanted(wanted[1..], catalogue, p);
      }
    }
  }

  lemma NamedLast(wanted: seq<Wanted>, p: nat)
    requires wanted != []
    ensures Named(wanted, p) <==> Named(wanted[..|wanted| - 1], p) || wanted[|wanted| - 1].official == p
  {
    var init := wanted[..|wanted| - 1];
    if Named(init, p) {
      var i :| 0 <= i < |init| && init[i].official == p;
      assert wanted[i].official == p;
    }
    if Named(wanted, p) {
      var i :| 0 <= i < |wanted| && wanted[i].official == p;
      assert i < |init| ==> init[i].official == p;
    }
  }

  /** Shipping takes an order's units off headquarters' rows, and nothing else anywhere. */
  lemma {:induction false} ShippingTakes(stock: Goods, items: seq<Item>, row: ProductId)
    ensures StockOf(ShipItems(stock, items), row)
         == StockOf(stock, row) - if row.Mirror? && row.campus == 1 then UnitsAsked(items, row.official) else 0
  {
    if items != [] {
      ShippingTakes(stock, items[..|items| - 1], row);
    }
  }

  /** Booking in puts them on the campus's rows. */
  lemma {:induction false} BookingInPuts(stock: Goods, campus: Campus, items: seq<Item>, row: ProductId)
    requires BookInItems(stock, campus, items).Some?
    ensures StockOf(BookInItems(stock, campus, items).value, row)
         == StockOf(stock, row) + if row.Mirror? && row.campus == campus then UnitsAsked(items, row.official) else 0
  {
    if items != [] {
      BookingInPuts(stock, campus, items[..|items| - 1], row);
    }
  }

  lemma {:induction false} ShippingKeepsModes(stock: Goods, items: seq<Item>, campus: Campus, more: seq<Item>)
    requires TakenIn(stock, campus, more)
    ensures TakenIn(ShipItems(stock, items), campus, more)
  {
    if items != [] {
      ShippingKeepsModes(stock, items[..|items| - 1], campus, more);
    }
  }

  /** A form that is open, not empty, and all of the catalogue becomes the campus's new order; anything else nothing. */
  lemma SavedExactlyWhen(d: Depot, batch: nat, campus: Campus, open: bool, wanted: seq<Wanted>, catalogue: map<nat, Quantity>)
    ensures var out := DoSave(d, batch, campus, open, wanted, catalogue);
            && (out.Some? <==> open && wanted != [] && Listed(wanted, catalogue))
            && (out.Some? ==>
                  && |out.value.orders| == |d.orders| + 1
                  && out.value == d.(orders := d.orders + [out.value.orders[|d.orders|]])
                  && var ord := out.value.orders[|d.orders|];
                     ord.batch == batch && ord.campus == campus && ord.phase == Submitted
                     && forall p :: UnitsAsked(ord.items, p) == UnitsWanted(wanted, catalogue, p))
  {
    KeptAreListed(wanted, catalogue);
    if Listed(wanted, catalogue) {
      forall p ensures UnitsAsked(ItemsFor(FirstOfEach(wanted), catalogue), p) == UnitsWanted(wanted, catalogue, p) {
        ItemsAreWanted(wanted, catalogue, p);
      }
    }
  }

  lemma {:induction false} KeptAreListed(wanted: seq<Wanted>, catalogue: map<nat, Quantity>)
    ensures Listed(FirstOfEach(wanted), catalogue) <==> Listed(wanted, catalogue)
    ensures forall p :: Named(FirstOfEach(wanted), p) ==> Named(wanted, p)
  {
    if wanted != [] {
      var init, last := wanted[..|wanted| - 1], wanted[|wanted| - 1];
      var kept := FirstOfEach(init);
      KeptAreListed(init, catalogue);
      ListedMore(init, last, catalogue);
      ListedMore(kept, last, catalogue);
      assert wanted == init + [last];
      forall p ensures Named(FirstOfEach(wanted), p) ==> Named(wanted, p) {
        NamedLast(wanted, p);
        if !Named(init, last.official) {
          NamedLast(kept + [last], p);
          assert (kept + [last])[..|kept|] == kept;
        }
      }
      if Named(init, last.official) {
        var i :| 0 <= i < |init| && init[i].official == last.official;
        assert Listed(init, catalogue) ==> init[i].official in catalogue;
      }
    }
  }

  lemma ListedMore(wanted: seq<Wanted>, last: Wanted, catalogue: map<nat, Quantity>)
    ensures Listed(wanted + [last], catalogue) <==> Listed(wanted, catalogue) && last.official in catalogue
  {
    assert (wanted + [last])[|wanted|] == last;
    assert forall i :: 0 <= i < |wanted| ==> (wanted + [last])[i] == wanted[i];
  }

  /** The four steps of an order that goes through. */
  function Through(o: nat, campus: Campus): seq<Step>
  {
    [Confirm(o), Step.Ship(o), BookIn(o, campus)]
  }

  lemma ThreeSteps(d: Depot, a: Step, b: Step, c: Step)
    ensures Run(d, [a, b, c]) == Next(Next(Next(d, a), b), c)
  {
    assert [a, b, c][..2] == [a, b] && [a, b][..1] == [a] && [a][..0] == [];
    assert Run(d, [a]) == Next(Run(d, []), a);
  }

  /** Confirmed, then shipped. */
  function Sent(d: Depot, o: nat): Depot
    requires o < |d.orders|
  {
    Depot(ShipItems(d.stock, d.orders[o].items), d.orders[o := d.orders[o].(phase := Shipped)], d.purchases)
  }

  lemma OrderSent(d: Depot, o: nat)
    requires o < |d.orders| && d.orders[o].phase == Submitted
    ensures Next(Next(d, Confirm(o)), Step.Ship(o)) == Sent(d, o)
  {
    var u := Next(d, Confirm(o));
    OrderMovesExactlyWhen(d, Confirm(o), o);
    assert u == Depot(d.stock, d.orders[o := d.orders[o].(phase := Confirmed)], d.purchases);
    assert u.orders[o := u.orders[o].(phase := Shipped)] == d.orders[o := d.orders[o].(phase := Shipped)];
  }

  lemma OrderArrives(d: Depot, o: nat)
    requires o < |d.orders| && TakenIn(d.stock, d.orders[o].campus, d.orders[o].items)
    ensures var ord := d.orders[o];
            var booked := BookInItems(ShipItems(d.stock, ord.items), ord.campus, ord.items);
            && booked.Some?
            && Next(Sent(d, o), BookIn(o, ord.campus)) == Depot(booked.value, d.orders[o := ord.(phase := OrderPhase.Received)], d.purchases)
  {
    var ord := d.orders[o];
    ShippingKeepsModes(d.stock, ord.items, ord.campus, ord.items);
    TakenInMeans(ShipItems(d.stock, ord.items), ord.campus, ord.items);
    assert Sent(d, o).orders[o := ord.(phase := OrderPhase.Received)] == d.orders[o := ord.(phase := OrderPhase.Received)];
  }

  /** An order's units at headquarters' row, or at the campus's. */
  function UnitsAt(items: seq<Item>, campus: Campus, row: ProductId): nat
  {
    if row.Mirror? && row.campus == campus then UnitsAsked(items, row.official) else 0
  }

  /** Submitted, confirmed, shipped and booked in: the campus's shelves rise by what headquarters' fall. */
  lemma OrderGoesThrough(d: Depot, o: nat, row: ProductId)
    requires o < |d.orders| && d.orders[o].phase == Submitted
    requires TakenIn(d.stock, d.orders[o].campus, d.orders[o].items)
    ensures var v, ord := Run(d, Through(o, d.orders[o].campus)), d.orders[o];
            && v.orders == d.orders[o := ord.(phase := OrderPhase.Received)]
            && StockOf(v.stock, row)
                 == StockOf(d.stock, row) - UnitsAt(ord.items, 1, row) + UnitsAt(ord.items, ord.campus, row)
  {
    var ord := d.orders[o];
    OrderSent(d, o);
    OrderArrives(d, o);
    ThreeSteps(d, Confirm(o), Step.Ship(o), BookIn(o, ord.campus));
    ShippingTakes(d.stock, ord.items, row);
    BookingInPuts(ShipItems(d.stock, ord.items), ord.campus, ord.items, row);
  }

  // ----- buying and receiving -----

  /** A purchase opens for products the batch has confirmed cases of, once each, while no other one is open for it. */
  lemma BoughtExactlyWhen(d: Depot, batch: nat, officials: seq<nat>)
    ensures var out := DoBuy(d, batch, officials);
            && (out.Some? <==>
                  && officials != []
                  && (forall k :: 0 <= k < |d.purchases| && d.purchases[k].batch == batch ==> d.purchases[k].closed)
                  && (forall i :: 0 <= i < |officials| ==> CasesIn(d.orders, batch, {Confirmed}, officials[i]) > 0)
                  && (forall i, j :: 0 <= i < j < |officials| ==> officials[i] != officials[j]))
            && (out.Some? ==>
                  && |out.value.purchases| == |d.purchases| + 1
                  && out.value == d.(purchases := d.purchases + [out.value.purchases[|d.purchases|]])
                  && var po := out.value.purchases[|d.purchases|];
                     po.batch == batch && !po.closed && |po.lines| == |officials|
                     && forall i :: 0 <= i < |officials| ==>
                          po.lines[i].official == officials[i] && po.lines[i].received == po.lines[i].bad == 0
                          && po.lines[i].required == CasesIn(d.orders, batch, {Confirmed}, officials[i]))
  {
    forall i | 0 <= i < |officials|
      ensures BatchCaseSize(d.orders, batch, officials[i]).Some? <==> CasesIn(d.orders, batch, {Confirmed}, officials[i]) > 0
    {
      AggregateMeansCases(d.orders, batch, officials[i]);
    }
  }

  /** What a form reports of a product: its first delivery. */
  function Got(ds: seq<Delivery>, p: nat, bad: bool): nat
  {
    if ds == [] then 0
    else if ds[0].official == p then (if bad then ds[0].bad else ds[0].receive)
    else Got(ds[1..], p, bad)
  }

  lemma {:induction false} GotMore(ds: seq<Delivery>, p: nat, bad: bool)
    requires ds != []
    ensures var init, last := ds[..|ds| - 1], ds[|ds| - 1];
            Got(ds, p, bad) == if last.official == p && !Delivered(init, p) then (if bad then last.bad else last.receive)
                               else Got(init, p, bad)
    ensures !Delivered(ds, p) ==> Got(ds, p, bad) == 0
  {
    var init, last := ds[..|ds| - 1], ds[|ds| - 1];
    if ds[0].official == p {
      assert Delivered(ds, p) && (|ds| > 1 ==> init[0].official == p && Delivered(init, p));
    } else if |ds| > 1 {
      assert ds[1..][..|ds| - 2] == init[1..] && init[0] == ds[0];
      GotMore(ds[1..], p, bad);
      DeliveredBelow(ds, p);
      DeliveredBelow(init, p);
    }
  }

  lemma DeliveredBelow(ds: seq<Delivery>, p: nat)
    requires ds != [] && ds[0].official != p
    ensures Delivered(ds[1..], p) <==> Delivered(ds, p)
  {
    if Delivered(ds, p) {
      var i :| 0 <= i < |ds| && ds[i].official == p;
      assert ds[1..][i - 1] == ds[i];
    }
  }

  /** What a plan books on a product. */
  function Booked(plan: seq<Delivery>, p: nat, bad: bool): nat
  {
    if plan == [] then 0
    else
      var last := plan[|plan| - 1];
      Booked(plan[..|plan| - 1], p, bad) + if last.official == p then (if bad then last.bad else last.receive) else 0
  }

  /** The first delivery of each product must be on the purchase, within its shortage, and not worse than itself. */
  predicate FormFits(lines: seq<BuyLine>, ds: seq<Delivery>)
  {
    forall i :: 0 <= i < |ds| && !Delivered(ds[..i], ds[i].official) ==> Fits(lines, ds[i])
  }

  lemma FormFitsMore(lines: seq<BuyLine>, ds: seq<Delivery>)
    requires ds != []
    ensures var init, last := ds[..|ds| - 1], ds[|ds| - 1];
            FormFits(lines, ds) <==> FormFits(lines, init) && (Delivered(init, last.official) || Fits(lines, last))
  {
    var init := ds[..|ds| - 1];
    forall i | 0 <= i < |init| ensures init[..i] == ds[..i] && init[i] == ds[i] {
    }
  }

  lemma {:induction false} PlanMeans(lines: seq<BuyLine>, ds: seq<Delivery>, p: nat)
    ensures Plan(lines, ds).Some? <==> FormFits(lines, ds)
    ensures FormFits(lines, ds) ==>
              && Booked(Plan(lines, ds).value, p, false) == Got(ds, p, false)
              && Booked(Plan(lines, ds).value, p, true) == Got(ds, p, true)
  {
    if ds != [] {
      var init, last := ds[..|ds| - 1], ds[|ds| - 1];
      PlanMeans(lines, init, p);
      FormFitsMore(lines, ds);
      GotMore(ds, p, false);
      GotMore(ds, p, true);
      if last.official == p && !Delivered(init, p) { NotDelivered(init, p); }
      if Plan(lines, ds).Some? && Plan(lines, ds) != Plan(lines, init) {
        assert Plan(lines, ds).value == Plan(lines, init).value + [last];
      }
    }
  }

  lemma NotDelivered(ds: seq<Delivery>, p: nat)
    requires !Delivered(ds, p)
    ensures Got(ds, p, false) == 0 && Got(ds, p, true) == 0
  {
    if ds != [] {
      GotMore(ds, p, false);
      GotMore(ds, p, true);
    }
  }

  lemma {:induction false} LinesTakeBooked(lines: seq<BuyLine>, plan: seq<Delivery>, i: nat)
    requires i < |lines| && forall j, k :: 0 <= j < k < |lines| ==> lines[j].official != lines[k].official
    ensures BookLines(lines, plan)[i] == lines[i].(received := lines[i].received + Booked(plan, lines[i].official, false),
                                                   bad := lines[i].bad + Booked(plan, lines[i].official, true))
  {
    if plan != [] {
      var init := plan[..|plan| - 1];
      LinesTakeBooked(lines, init, i);
      BookLinesKeepShape(lines, init);
      SameFind(lines, BookLines(lines, init), plan[|plan| - 1].official);
    }
  }

  lemma {:induction false} SomethingBooked(lines: seq<BuyLine>, ds: seq<Delivery>)
    requires Plan(lines, ds).Some?
    ensures Plan(lines, ds).value != [] <==> exists i :: 0 <= i < |ds| && Got(ds, ds[i].official, false) > 0
  {
    var plan := Plan(lines, ds).value;
    PlanFits(lines, ds);
    PlanIsPositive(lines, ds);
    if plan != [] {
      var last := plan[|plan| - 1];
      PlanMeans(lines, ds, last.official);
      assert Got(ds, last.official, false) > 0 && Delivered(ds, last.official);
      var i :| 0 <= i < |ds| && ds[i].official == last.official;
      assert Got(ds, ds[i].official, false) > 0;
    }
    if i :| 0 <= i < |ds| && Got(ds, ds[i].official, false) > 0 {
      PlanMeans(lines, ds, ds[i].official);
    }
  }

  lemma {:induction false} PlanIsPositive(lines: seq<BuyLine>, ds: seq<Delivery>)
    requires Plan(lines, ds).Some?
    ensures forall i :: 0 <= i < |Plan(lines, ds).value| ==> Plan(lines, ds).value[i].receive > 0
  {
    if ds != [] {
      PlanIsPositive(lines, ds[..|ds| - 1]);
    }
  }

  /**
   A receipt is booked exactly when the purchase is open, everything reported fits it and something was
   received; then every line has received, and spoilt, exactly what was first reported for it.
   */
  lemma ReceivedExactlyWhen(d: Depot, k: nat, ds: seq<Delivery>)
    requires k < |d.purchases| && PurchaseSound(d.purchases[k])
    ensures var out, lines := DoReceive(d, k, ds), d.purchases[k].lines;
            && (out.Some? <==>
                  && !d.purchases[k].closed && FormFits(lines, ds)
                  && exists i :: 0 <= i < |ds| && Got(ds, ds[i].official, false) > 0)
            && (out.Some? ==>
                  && |out.value.purchases| == |d.purchases| && |out.value.purchases[k].lines| == |lines|
                  && out.value.orders == d.orders
                  && (forall i :: 0 <= i < |lines| ==>
                        out.value.purchases[k].lines[i] == lines[i].(received := lines[i].received + Got(ds, lines[i].official, false),
                                                                     bad := lines[i].bad + Got(ds, lines[i].official, true))))
  {
    var lines := d.purchases[k].lines;
    PlanMeans(lines, ds, 0);
    if FormFits(lines, ds) {
      SomethingBooked(lines, ds);
      forall i | 0 <= i < |lines|
        ensures BookLines(lines, Plan(lines, ds).value)[i]
             == lines[i].(received := lines[i].received + Got(ds, lines[i].official, false),
                          bad := lines[i].bad + Got(ds, lines[i].official, true))
      {
        PlanMeans(lines, ds, lines[i].official);
        LinesTakeBooked(lines, Plan(lines, ds).value, i);
      }
    }
  }

  /** A purchase closes while open, and opens again while no other one is open for its batch. */
  lemma SwitchedExactlyWhen(d: Depot, k: nat)
    requires k < |d.purchases|
    ensures Perform(d, Close(k)).Some? <==> !d.purchases[k].closed
    ensures Perform(d, Reopen(k)).Some? <==>
              && d.purchases[k].closed
              && forall j :: 0 <= j < |d.purchases| && j != k && d.purchases[j].batch == d.purchases[k].batch ==> d.purchases[j].closed
    ensures Perform(d, Close(k)).Some? ==> Next(d, Close(k)) == d.(purchases := d.purchases[k := d.purchases[k].(closed := true)])
    ensures Perform(d, Reopen(k)).Some? ==> Next(d, Reopen(k)) == d.(purchases := d.purchases[k := d.purchases[k].(closed := false)])
  {
  }
}
