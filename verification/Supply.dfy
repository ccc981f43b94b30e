/**
 Restocking: campuses order cases, headquarters confirms, buys in bulk, receives, ships, and the
 campuses book the goods in (src/admin/admin.service.ts, restock and purchase orders).
 Rows are addressed by position; a deleted order keeps its position and counts nowhere.
 */
module Supply {
  import opened Sums
  import opened Inventory

  datatype Item = Item(official: nat, cases: Quantity, unitsPerCase: Quantity)
  datatype OrderPhase = Submitted | Confirmed | Rejected | Shipped | Received | Deleted
  datatype RestockOrder = RestockOrder(batch: nat, campus: Campus, phase: OrderPhase, items: seq<Item>)

  datatype BuyLine = BuyLine(official: nat, required: nat, received: nat, bad: nat, unitsPerCase: Quantity)
  datatype Purchase = Purchase(batch: nat, closed: bool, lines: seq<BuyLine>)

  datatype Depot = Depot(stock: Goods, orders: seq<RestockOrder>, purchases: seq<Purchase>)

  datatype Wanted = Wanted(official: nat, cases: Quantity)
  datatype Delivery = Delivery(official: nat, receive: nat, bad: nat)

  datatype Step =
    | Save(batch: nat, campus: Campus, open: bool, wanted: seq<Wanted>, catalogue: map<nat, Quantity>)
    | Delete(order: nat, campus: Campus)
    | Confirm(order: nat)
    | Reject(order: nat)
    | Revoke(order: nat)
    | Buy(batch: nat, officials: seq<nat>)
    | Receive(purchase: nat, deliveries: seq<Delivery>)
    | Close(purchase: nat)
    | Reopen(purchase: nat)
    | Ship(order: nat)
    | BookIn(order: nat, campus: Campus)

  const LIVE: set<OrderPhase> := {Confirmed, Shipped, Received}
  const SENT: set<OrderPhase> := {Shipped, Received}

  // ----- what orders add up to -----

  function CasesOf(items: seq<Item>, p: nat): nat
  {
    if items == [] then 0
    else CasesOf(items[..|items| - 1], p) + if items[|items| - 1].official == p then items[|items| - 1].cases else 0
  }

  function ItemUnits(i: Item): nat
  {
    i.cases * i.unitsPerCase
  }

  function UnitsAsked(items: seq<Item>, p: nat): nat
  {
    if items == [] then 0
    else UnitsAsked(items[..|items| - 1], p) + if items[|items| - 1].official == p then ItemUnits(items[|items| - 1]) else 0
  }

  function CasesIn(orders: seq<RestockOrder>, batch: nat, phases: set<OrderPhase>, p: nat): nat
  {
    if orders == [] then 0
    else CasesIn(orders[..|orders| - 1], batch, phases, p) + CaseShare(orders[|orders| - 1], batch, phases, p)
  }

  function CaseShare(o: RestockOrder, batch: nat, phases: set<OrderPhase>, p: nat): nat
  {
    if o.batch == batch && o.phase in phases then CasesOf(o.items, p) else 0
  }

  function UnitsIn(orders: seq<RestockOrder>, phases: set<OrderPhase>, p: nat): nat
  {
    if orders == [] then 0
    else UnitsIn(orders[..|orders| - 1], phases, p) + UnitShare(orders[|orders| - 1], phases, p)
  }

  function UnitShare(o: RestockOrder, phases: set<OrderPhase>, p: nat): nat
  {
    if o.phase in phases then UnitsAsked(o.items, p) else 0
  }

  /** The units per case of the aggregate: the last confirmed item wins. */
  function CaseSize(items: seq<Item>, p: nat): Option<Quantity>
  {
    if items == [] then None
    else if items[|items| - 1].official == p then Some(items[|items| - 1].unitsPerCase)
    else CaseSize(items[..|items| - 1], p)
  }

  function BatchCaseSize(orders: seq<RestockOrder>, batch: nat, p: nat): Option<Quantity>
  {
    if orders == [] then None
    else
      var o := orders[|orders| - 1];
      var here := if o.batch == batch && o.phase == Confirmed then CaseSize(o.items, p) else None;
      if here.Some? then here else BatchCaseSize(orders[..|orders| - 1], batch, p)
  }

  // ----- ordering and auditing -----

  predicate Named(wanted: seq<Wanted>, p: nat)
  {
    exists i :: 0 <= i < |wanted| && wanted[i].official == p
  }

  /** The form's lines, the first for each product only. */
  function FirstOfEach(wanted: seq<Wanted>): seq<Wanted>
  {
    if wanted == [] then []
    else
      var init, last := wanted[..|wanted| - 1], wanted[|wanted| - 1];
      if Named(init, last.official) then FirstOfEach(init) else FirstOfEach(init) + [last]
  }

  function ItemsFor(wanted: seq<Wanted>, catalogue: map<nat, Quantity>): (r: seq<Item>)
    requires forall i :: 0 <= i < |wanted| ==> wanted[i].official in catalogue
  {
    seq(|wanted|, i requires 0 <= i < |wanted| =>
      Item(wanted[i].official, wanted[i].cases, catalogue[wanted[i].official]))
  }

  function DoSave(d: Depot, batch: nat, campus: Campus, open: bool, wanted: seq<Wanted>, catalogue: map<nat, Quantity>): Option<Depot>
  {
    var lines := FirstOfEach(wanted);
    if !open || wanted == [] || exists i :: 0 <= i < |lines| && lines[i].official !in catalogue then None
    else Some(d.(orders := d.orders + [RestockOrder(batch, campus, Submitted, ItemsFor(lines, catalogue))]))
  }

  function SetPhase(d: Depot, o: nat, phase: OrderPhase): Depot
    requires o < |d.orders|
  {
    d.(orders := d.orders[o := d.orders[o].(phase := phase)])
  }

  predicate HasPhase(d: Depot, o: nat, phase: OrderPhase)
  {
    o < |d.orders| && d.orders[o].phase == phase
  }

  predicate Bought(d: Depot, batch: nat)
  {
    exists k :: 0 <= k < |d.purchases| && d.purchases[k].batch == batch
  }

  predicate OpenElsewhere(d: Depot, batch: nat, except: nat)
  {
    exists k :: 0 <= k < |d.purchases| && k != except && d.purchases[k].batch == batch && !d.purchases[k].closed
  }

  // ----- buying -----

  function LinesFor(orders: seq<RestockOrder>, batch: nat, officials: seq<nat>): (r: seq<BuyLine>)
    requires forall i :: 0 <= i < |officials| ==> BatchCaseSize(orders, batch, officials[i]).Some?
    ensures |r| == |officials|
    ensures forall i :: 0 <= i < |r| ==> r[i] == BuyLine(officials[i], CasesIn(orders, batch, {Confirmed}, officials[i]),
                                                     0, 0, BatchCaseSize(orders, batch, officials[i]).value)
  {
    seq(|officials|, i requires 0 <= i < |officials| =>
      BuyLine(officials[i], CasesIn(orders, batch, {Confirmed}, officials[i]), 0, 0,
           BatchCaseSize(orders, batch, officials[i]).value))
  }

  /** One purchase over everything confirmed in the batch, limited to the products asked for. */
  function DoBuy(d: Depot, batch: nat, officials: seq<nat>): Option<Depot>
  {
    if OpenElsewhere(d, batch, |d.purchases|) || officials == []
       || (exists i :: 0 <= i < |officials| && BatchCaseSize(d.orders, batch, officials[i]).None?)
       || (exists i, j :: 0 <= i < j < |officials| && officials[i] == officials[j])
    then None
    else Some(d.(purchases := d.purchases + [Purchase(batch, false, LinesFor(d.orders, batch, officials))]))
  }

  // ----- receiving -----

  function FindLine(lines: seq<BuyLine>, p: nat): (i: nat)
    ensures i <= |lines| && (i < |lines| ==> lines[i].official == p)
    ensures forall j :: 0 <= j < i ==> lines[j].official != p
  {
    if lines == [] || lines[0].official == p then 0 else 1 + FindLine(lines[1..], p)
  }

  predicate Delivered(ds: seq<Delivery>, p: nat)
  {
    exists i :: 0 <= i < |ds| && ds[i].official == p
  }

  /** The deliveries that will be booked: later repeats and empty ones dropped, anything unlawful refuses them all. */
  function Plan(lines: seq<BuyLine>, ds: seq<Delivery>): Option<seq<Delivery>>
  {
    if ds == [] then Some([])
    else
      var init, last := ds[..|ds| - 1], ds[|ds| - 1];
      var before := Plan(lines, init);
      var i := FindLine(lines, last.official);
      if before.None? || Delivered(init, last.official) then before
      else if i == |lines| || last.receive > lines[i].required - lines[i].received || last.bad > last.receive then None
      else if last.receive > 0 then Some(before.value + [last])
      else before
  }

  /** Book one delivery: the line's counters and headquarters' shelf and ledger. */
  function BookLine(lines: seq<BuyLine>, d: Delivery): (r: seq<BuyLine>)
    ensures |r| == |lines|
  {
    var i := FindLine(lines, d.official);
    if i == |lines| then lines
    else lines[i := lines[i].(received := lines[i].received + d.receive, bad := lines[i].bad + d.bad)]
  }

  function BookStock(stock: Goods, lines: seq<BuyLine>, d: Delivery): Goods
  {
    var i := FindLine(lines, d.official);
    if i == |lines| then stock
    else Arrive(stock, d.official, d.receive * lines[i].unitsPerCase, d.bad * lines[i].unitsPerCase)
  }

  function BookLines(lines: seq<BuyLine>, ds: seq<Delivery>): (r: seq<BuyLine>)
    ensures |r| == |lines|
  {
    if ds == [] then lines else BookLine(BookLines(lines, ds[..|ds| - 1]), ds[|ds| - 1])
  }

  function BookStocks(stock: Goods, lines: seq<BuyLine>, ds: seq<Delivery>): Goods
  {
    if ds == [] then stock else BookStock(BookStocks(stock, lines, ds[..|ds| - 1]), lines, ds[|ds| - 1])
  }

  function DoReceive(d: Depot, k: nat, ds: seq<Delivery>): Option<Depot>
  {
    if k >= |d.purchases| || d.purchases[k].closed then None
    else
      var po := d.purchases[k];
      var plan := Plan(po.lines, ds);
      if plan.None? || plan.value == [] then None
      else Some(d.(
        stock := BookStocks(d.stock, po.lines, plan.value),
        purchases := d.purchases[k := po.(lines := BookLines(po.lines, plan.value))]))
  }

  // ----- shipping and booking in -----

  function ShipItems(stock: Goods, items: seq<Item>): Goods
  {
    if items == [] then stock
    else
      var last := items[|items| - 1];
      Apply(ShipItems(stock, items[..|items| - 1]), StockOp.Ship(last.official, ItemUnits(last))).value
  }

  /** Goods arrive on the campus's own rows; a row bought locally refuses the whole receipt. */
  function BookInItems(stock: Goods, campus: Campus, items: seq<Item>): Option<Goods>
  {
    if items == [] then Some(stock)
    else
      var before := BookInItems(stock, campus, items[..|items| - 1]);
      var last := items[|items| - 1];
      if before.None? then None
      else Apply(before.value, Receipt(campus, last.official, ItemUnits(last)))
  }

  function Perform(d: Depot, s: Step): Option<Depot>
  {
    match s
    case Save(batch, campus, open, wanted, catalogue) => DoSave(d, batch, campus, open, wanted, catalogue)
    case Delete(o, campus) =>
      if HasPhase(d, o, Submitted) && d.orders[o].campus == campus then Some(SetPhase(d, o, Deleted)) else None
    case Confirm(o) => if HasPhase(d, o, Submitted) then Some(SetPhase(d, o, Confirmed)) else None
    case Reject(o) => if HasPhase(d, o, Submitted) then Some(SetPhase(d, o, Rejected)) else None
    case Revoke(o) =>
      if HasPhase(d, o, Confirmed) && !Bought(d, d.orders[o].batch) then Some(SetPhase(d, o, Submitted)) else None
    case Buy(batch, officials) => DoBuy(d, batch, officials)
    case Receive(k, ds) => DoReceive(d, k, ds)
    case Close(k) =>
      if k < |d.purchases| && !d.purchases[k].closed
      then Some(d.(purchases := d.purchases[k := d.purchases[k].(closed := true)])) else None
    case Reopen(k) =>
      if k < |d.purchases| && d.purchases[k].closed && !OpenElsewhere(d, d.purchases[k].batch, k)
      then Some(d.(purchases := d.purchases[k := d.purchases[k].(closed := false)])) else None
    case Ship(o) =>
      if HasPhase(d, o, Confirmed)
      then Some(SetPhase(d, o, Shipped).(stock := ShipItems(d.stock, d.orders[o].items))) else None
    case BookIn(o, campus) =>
      if HasPhase(d, o, Shipped) && d.orders[o].campus == campus
         && BookInItems(d.stock, campus, d.orders[o].items).Some?
      then Some(SetPhase(d, o, Received).(stock := BookInItems(d.stock, campus, d.orders[o].items).value)) else None
  }

  function Next(d: Depot, s: Step): Depot
  {
    var out := Perform(d, s);
    if out.Some? then out.value else d
  }

  function Run(d: Depot, steps: seq<Step>): Depot
  {
    if steps == [] then d else Next(Run(d, steps[..|steps| - 1]), steps[|steps| - 1])
  }

  // ----- the phase shown -----

  datatype PurchasePhase = ClosedPhase | PendingPhase | CompletedPhase | PartialPhase

  function Counters(lines: seq<BuyLine>, received: bool): (s: seq<int>)
    ensures |s| == |lines|
    ensures forall i :: 0 <= i < |lines| ==> s[i] == if received then lines[i].received else lines[i].required
  {
    seq(|lines|, i requires 0 <= i < |lines| => if received then lines[i].received else lines[i].required)
  }

  /** The phase is judged on sums over all lines. */
  function PhaseOf(po: Purchase): PurchasePhase
  {
    if po.closed then ClosedPhase
    else
      var required, received := Sum(Counters(po.lines, false)), Sum(Counters(po.lines, true));
      if received == 0 then PendingPhase else if received >= required then CompletedPhase else PartialPhase
  }
}
