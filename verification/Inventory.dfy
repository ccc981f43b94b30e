/**
 Product stock, cumulative sales and the inventory ledger, with every operation that moves them:
 selling at payment, giving back at a whole-order refund, manual stock-in, adjustment, stocktake,
 supplier receipt, shipment and campus receipt.
 */
module Inventory {
  import opened Sums

  type Campus = nat
  const OFFICIAL: Campus := 0
  const HQ: Campus := 1

  /** A product row: created by its campus, or mirroring a row of the official catalogue. */
  datatype ProductId =
    | Local(campus: Campus, id: nat)
    | Mirror(campus: Campus, official: nat)

  /** procurementMode: HQ supply or local purchase; a row without one is legacy data. */
  datatype Mode = FromHq | FromLocal
  datatype Source = SoldHq | SoldLocal | Legacy

  datatype Product = Product(stock: int, locked: nat, sales: int, mode: Option<Mode>, localPrice: Option<nat>)

  datatype TxnKind = StockInTxn | AdjustTxn | PurchaseReceive | PurchaseBad | RestockOut | RestockIn | OutTxn
  datatype Txn = Txn(product: ProductId, kind: TxnKind, delta: int)

  datatype Goods = Goods(products: map<ProductId, Product>, ledger: seq<Txn>)

  type Quantity = n: nat | n >= 1 witness 1

  /** One order line; `source` is stamped on it at payment. */
  datatype Line = Line(product: ProductId, quantity: Quantity, price: nat, source: Option<Source>)

  predicate IsHqRow(p: ProductId)
  {
    p.campus == HQ
  }

  // ----- what the ledger and the order lines add up to -----

  /** The ledger totals the properties speak of. */
  datatype Account =
    | Counted(product: ProductId)                     // every kind but 'out', which only annotates
    | OfKind(kind: TxnKind, official: nat)            // one kind, over all rows mirroring a product

  function Weight(a: Account, t: Txn): int
  {
    match a
    case Counted(p) => if t.product == p && t.kind != OutTxn then t.delta else 0
    case OfKind(k, o) => if t.kind == k && t.product.Mirror? && t.product.official == o then t.delta else 0
  }

  function Total(ledger: seq<Txn>, a: Account): int
  {
    if ledger == [] then 0 else Total(ledger[..|ledger| - 1], a) + Weight(a, ledger[|ledger| - 1])
  }

  lemma TotalAppend(ledger: seq<Txn>, t: Txn, a: Account)
    ensures Total(ledger + [t], a) == Total(ledger, a) + Weight(a, t)
  {
    assert (ledger + [t])[..|ledger|] == ledger;
  }

  /** Units of a product an order asks for, over all its lines. */
  function Demand(lines: seq<Line>, p: ProductId): nat
  {
    if lines == [] then 0
    else Demand(lines[..|lines| - 1], p) + UnitsOf(lines[|lines| - 1], p)
  }

  function UnitsOf(line: Line, p: ProductId): nat
  {
    if line.product == p then line.quantity else 0
  }

  function StockOf(inv: Goods, p: ProductId): int
  {
    if p in inv.products then inv.products[p].stock else 0
  }

  function SalesOf(inv: Goods, p: ProductId): int
  {
    if p in inv.products then inv.products[p].sales else 0
  }

  function Available(inv: Goods, p: ProductId): int
  {
    if p in inv.products then inv.products[p].stock - inv.products[p].locked else 0
  }

  /** The conserved quantity: goods on the shelf plus goods sold, less what the ledger explains. */
  function Balance(inv: Goods, p: ProductId): int
  {
    StockOf(inv, p) + SalesOf(inv, p) - Total(inv.ledger, Counted(p))
  }

  /** Only headquarters rows may be negative. */
  ghost predicate ShelvesNonNegative(inv: Goods)
  {
    forall p :: p in inv.products && !IsHqRow(p) ==> inv.products[p].stock >= 0
  }

  // ----- selling and giving back -----

  /** `units` move from the shelf into sales (or back, when negative); nothing else of the row changes. */
  function Shift(p: Product, units: int): Product
  {
    p.(stock := p.stock - units, sales := p.sales + units)
  }

  /** One guarded UPDATE: the line's stock must be free at the moment of writing. */
  function SellLine(inv: Goods, line: Line): Option<Goods>
  {
    if line.product in inv.products && Available(inv, line.product) >= line.quantity
    then
      Some(inv.(products := inv.products[line.product := Shift(inv.products[line.product], line.quantity)]))
    else None
  }

  /** The lines of an order in turn; the first line that fails fails them all. */
  function Sell(inv: Goods, lines: seq<Line>): Option<Goods>
  {
    if lines == [] then Some(inv)
    else
      var before := Sell(inv, lines[..|lines| - 1]);
      if before.None? then None else SellLine(before.value, lines[|lines| - 1])
  }

  /**
   Line-by-line guarded decrements succeed exactly when the order's whole demand for each product
   fits what is available, and then they take exactly that demand and nothing else.
   */
  lemma {:induction false} SellTakesWholeDemand(inv: Goods, lines: seq<Line>)
    ensures Sell(inv, lines).Some? <==>
            forall p :: Demand(lines, p) > 0 ==> p in inv.products && Available(inv, p) >= Demand(lines, p)
    ensures Sell(inv, lines).Some? ==>
              var after := Sell(inv, lines).value;
              && after.ledger == inv.ledger
              && after.products.Keys == inv.products.Keys
              && (forall p :: p in inv.products ==>
                   after.products[p] == Shift(inv.products[p], Demand(lines, p)))
  {
    if lines != [] {
      var init, last := lines[..|lines| - 1], lines[|lines| - 1];
      SellTakesWholeDemand(inv, init);
      forall p ensures Demand(lines, p) == Demand(init, p) + UnitsOf(last, p) {}
      assert Demand(lines, last.product) > 0;
    }
  }

  /** A sold line may only go back to a row still supplied the way it was when sold. */
  predicate GoesBack(inv: Goods, line: Line)
  {
    && line.product in inv.products
    && (match line.source
        case None => true
        case Some(Legacy) => true
        case Some(SoldHq) => inv.products[line.product].mode == Some(FromHq)
        case Some(SoldLocal) => inv.products[line.product].mode == Some(FromLocal))
  }

  function GiveBackLine(inv: Goods, line: Line): Goods
  {
    if GoesBack(inv, line) then
      inv.(products := inv.products[line.product := Shift(inv.products[line.product], 0 - line.quantity)])
    else inv
  }

  function GiveBack(inv: Goods, lines: seq<Line>): Goods
  {
    if lines == [] then inv
    else GiveBackLine(GiveBack(inv, lines[..|lines| - 1]), lines[|lines| - 1])
  }

  /** The part of an order's demand that goes back. */
  function Returned(inv: Goods, lines: seq<Line>, p: ProductId): (r: nat)
    ensures r <= Demand(lines, p)
  {
    if lines == [] then 0
    else Returned(inv, lines[..|lines| - 1], p)
         + if GoesBack(inv, lines[|lines| - 1]) then UnitsOf(lines[|lines| - 1], p) else 0
  }

  /** Giving back moves exactly the returnable units from sales to stock and touches nothing else. */
  lemma {:induction false} GiveBackReturns(inv: Goods, lines: seq<Line>)
    ensures var after := GiveBack(inv, lines);
            && after.ledger == inv.ledger
            && after.products.Keys == inv.products.Keys
            && (forall p :: p in inv.products ==>
                 after.products[p] == Shift(inv.products[p], 0 - Returned(inv, lines, p)))
  {
    if lines != [] {
      GiveBackReturns(inv, lines[..|lines| - 1]);
    }
  }

  /** Selling an order and giving it straight back restores every shelf, unless supply was switched. */
  lemma {:induction false} SellThenGiveBack(inv: Goods, lines: seq<Line>)
    requires Sell(inv, lines).Some?
    requires forall i :: 0 <= i < |lines| ==> GoesBack(inv, lines[i])
    ensures GiveBack(Sell(inv, lines).value, lines) == inv
  {
    var sold := Sell(inv, lines).value;
    SellTakesWholeDemand(inv, lines);
    GiveBackReturns(sold, lines);
    forall p ensures Returned(sold, lines, p) == Demand(lines, p) {
      ReturnedAll(sold, lines, p);
    }
    assert GiveBack(sold, lines).products == inv.products;
  }

  lemma {:induction false} ReturnedAll(inv: Goods, lines: seq<Line>, p: ProductId)
    requires forall i :: 0 <= i < |lines| ==> GoesBack(inv, lines[i])
    ensures Returned(inv, lines, p) == Demand(lines, p)
  {
    if lines != [] {
      ReturnedAll(inv, lines[..|lines| - 1], p);
    }
  }

  /** Outbound annotates the ledger for rows that still exist and moves no stock. */
  function LogOut(inv: Goods, lines: seq<Line>): Goods
  {
    if lines == [] then inv
    else
      var before := LogOut(inv, lines[..|lines| - 1]);
      var last := lines[|lines| - 1];
      if last.product in inv.products
      then before.(ledger := before.ledger + [Txn(last.product, OutTxn, 0 - last.quantity)])
      else before
  }

  lemma {:induction false} LogOutMovesNothing(inv: Goods, lines: seq<Line>)
    ensures LogOut(inv, lines).products == inv.products
    ensures forall p :: Balance(LogOut(inv, lines), p) == Balance(inv, p)
  {
    if lines != [] {
      LogOutMovesNothing(inv, lines[..|lines| - 1]);
      var before, last := LogOut(inv, lines[..|lines| - 1]), lines[|lines| - 1];
      if last.product in inv.products {
        forall p ensures Balance(LogOut(inv, lines), p) == Balance(inv, p) {
          TotalAppend(before.ledger, Txn(last.product, OutTxn, 0 - last.quantity), Counted(p));
        }
      }
    }
  }

  /** Units of a product that the ledger notes as gone out. */
  function NotedOut(ledger: seq<Txn>, p: ProductId): int
  {
    if ledger == [] then 0
    else NotedOut(ledger[..|ledger| - 1], p) - OutDelta(ledger[|ledger| - 1], p)
  }

  function OutDelta(t: Txn, p: ProductId): int
  {
    if t.product == p && t.kind == OutTxn then t.delta else 0
  }

  lemma NotedAppend(ledger: seq<Txn>, t: Txn, p: ProductId)
    ensures NotedOut(ledger + [t], p) == NotedOut(ledger, p) - OutDelta(t, p)
  {
    assert (ledger + [t])[..|ledger|] == ledger;
  }

  /** What outbound notes is the order's demand, for every product that still has a row. */
  lemma {:induction false} LogOutNotesDemand(inv: Goods, lines: seq<Line>, p: ProductId)
    ensures NotedOut(LogOut(inv, lines).ledger, p)
         == NotedOut(inv.ledger, p) + if p in inv.products then Demand(lines, p) else 0
  {
    if lines != [] {
      var init, last := lines[..|lines| - 1], lines[|lines| - 1];
      LogOutNotesDemand(inv, init, p);
      assert Demand(lines, p) == Demand(init, p) + UnitsOf(last, p);
      NotedAppend(LogOut(inv, init).ledger, Txn(last.product, OutTxn, 0 - last.quantity), p);
    }
  }

  lemma SellKeepsBalance(inv: Goods, lines: seq<Line>)
    requires Sell(inv, lines).Some?
    ensures forall p :: Balance(Sell(inv, lines).value, p) == Balance(inv, p)
    ensures ShelvesNonNegative(inv) ==> ShelvesNonNegative(Sell(inv, lines).value)
  {
    SellTakesWholeDemand(inv, lines);
  }

  lemma GiveBackKeepsBalance(inv: Goods, lines: seq<Line>)
    ensures forall p :: Balance(GiveBack(inv, lines), p) == Balance(inv, p)
    ensures ShelvesNonNegative(inv) ==> ShelvesNonNegative(GiveBack(inv, lines))
  {
    GiveBackReturns(inv, lines);
  }

  // ----- the stockroom's own operations, one row at a time -----

  datatype StockOp =
    | StockIn(row: ProductId, quantity: Quantity)
    | Adjust(row: ProductId, delta: int)
    | Stocktake(row: ProductId, counted: int)
    | Receive(official: nat, units: nat, bad: nat)
    | Ship(official: nat, units: nat)
    | Receipt(campus: Campus, official: nat, units: nat)
    | SetMode(row: ProductId, newMode: Mode)

  function Post(inv: Goods, row: ProductId, p: Product, kind: TxnKind, delta: int): Goods
  {
    Goods(inv.products[row := p], inv.ledger + [Txn(row, kind, delta)])
  }

  /** The row that mirrors an official product, or the empty row that is created on first use. */
  function RowOrNew(inv: Goods, row: ProductId): Product
  {
    if row in inv.products then inv.products[row] else Product(0, 0, 0, Some(FromHq), None)
  }

  /** A ledger row is written only for a quantity that is not zero. */
  function LogIf(ledger: seq<Txn>, t: Txn): seq<Txn>
  {
    if t.delta == 0 then ledger else ledger + [t]
  }

  /** Supplier goods reach headquarters: everything is booked in, the bad part straight out again. */
  function Arrive(inv: Goods, official: nat, units: nat, bad: nat): Goods
  {
    var row := Mirror(HQ, official);
    var p := RowOrNew(inv, row);
    Goods(inv.products[row := p.(stock := p.stock + units - bad)],
              LogIf(LogIf(inv.ledger, Txn(row, PurchaseReceive, units)), Txn(row, PurchaseBad, 0 - bad)))
  }

  lemma LogIfTotal(ledger: seq<Txn>, t: Txn, a: Account)
    ensures Total(LogIf(ledger, t), a) == Total(ledger, a) + Weight(a, t)
  {
    TotalAppend(ledger, t, a);
  }

  /** None when the operation is refused; refusals leave everything as it was. */
  function Apply(inv: Goods, op: StockOp): Option<Goods>
  {
    match op
    case StockIn(row, q) =>
      if row in inv.products && (row.campus == OFFICIAL || inv.products[row].mode == Some(FromLocal))
      then
        var p := inv.products[row];
        Some(Post(inv, row, p.(stock := p.stock + q), StockInTxn, q))
      else None
    case Adjust(row, d) =>
      if d != 0 && row in inv.products && inv.products[row].stock + d >= 0
      then
        var p := inv.products[row];
        Some(Post(inv, row, p.(stock := p.stock + d), AdjustTxn, d))
      else None
    case Stocktake(row, counted) =>
      if row !in inv.products then None
      else if counted == inv.products[row].stock then Some(inv)
      else if counted < 0 then None
      else
        var p := inv.products[row];
        Some(Post(inv, row, p.(stock := counted), AdjustTxn, counted - p.stock))
    case Receive(o, units, bad) => Some(Arrive(inv, o, units, bad))
    case Ship(o, units) =>
      var row := Mirror(HQ, o);
      var p := RowOrNew(inv, row);
      Some(Post(inv, row, p.(stock := p.stock - units), RestockOut, 0 - units))
    case Receipt(c, o, units) =>
      var row := Mirror(c, o);
      var p := RowOrNew(inv, row);
      if p.mode == Some(FromLocal) then None
      else Some(Post(inv, row, p.(stock := p.stock + units, mode := Some(FromHq)), RestockIn, units))
    case SetMode(row, m) =>
      if row in inv.products
         && (inv.products[row].mode.None? || (inv.products[row].stock == 0 && inv.products[row].locked == 0))
      then Some(inv.(products := inv.products[row := inv.products[row].(mode := Some(m))]))
      else None
  }

  /** Writing a row and its ledger entry together keeps every balance when the two agree. */
  lemma PostKeepsBalance(inv: Goods, row: ProductId, p: Product, kind: TxnKind, delta: int, q: ProductId)
    requires kind != OutTxn
    requires p.stock + p.sales == StockOf(inv, row) + SalesOf(inv, row) + delta
    ensures Balance(Post(inv, row, p, kind, delta), q) == Balance(inv, q)
  {
    TotalAppend(inv.ledger, Txn(row, kind, delta), Counted(q));
  }

  lemma ArriveKeepsBalance(inv: Goods, o: nat, units: nat, bad: nat, q: ProductId)
    ensures Balance(Arrive(inv, o, units, bad), q) == Balance(inv, q)
  {
    ArriveLedger(inv, o, units, bad, Counted(q));
  }

  lemma CountingKeepsBalance(inv: Goods, op: StockOp, q: ProductId)
    requires (op.StockIn? || op.Adjust? || op.Stocktake?) && Apply(inv, op).Some?
    ensures Balance(Apply(inv, op).value, q) == Balance(inv, q)
  {
    var p := inv.products[op.row];
    match op
    case StockIn(row, n) => PostKeepsBalance(inv, row, p.(stock := p.stock + n), StockInTxn, n, q);
    case Adjust(row, d) => PostKeepsBalance(inv, row, p.(stock := p.stock + d), AdjustTxn, d, q);
    case Stocktake(row, n) => PostKeepsBalance(inv, row, p.(stock := n), AdjustTxn, n - p.stock, q);
  }

  /** No stockroom operation creates or loses goods: the shelf and the ledger move together. */
  lemma ApplyKeepsBalance(inv: Goods, op: StockOp, q: ProductId)
    requires Apply(inv, op).Some?
    ensures Balance(Apply(inv, op).value, q) == Balance(inv, q)
  {
    match op
    case Receive(o, units, bad) => ArriveKeepsBalance(inv, o, units, bad, q);
    case Ship(o, units) =>
      var p := RowOrNew(inv, Mirror(HQ, o));
      PostKeepsBalance(inv, Mirror(HQ, o), p.(stock := p.stock - units), RestockOut, 0 - units, q);
    case Receipt(c, o, units) =>
      var p := RowOrNew(inv, Mirror(c, o));
      PostKeepsBalance(inv, Mirror(c, o), p.(stock := p.stock + units, mode := Some(FromHq)), RestockIn, units, q);
    case SetMode(row, m) =>
    case _ => CountingKeepsBalance(inv, op, q);
  }

  /** The two ledger rows of a supplier receipt add up as written, also when one is left out as zero. */
  lemma ArriveLedger(inv: Goods, o: nat, units: nat, bad: nat, a: Account)
    ensures Total(Arrive(inv, o, units, bad).ledger, a) == Total(inv.ledger, a)
              + Weight(a, Txn(Mirror(HQ, o), PurchaseReceive, units))
              + Weight(a, Txn(Mirror(HQ, o), PurchaseBad, 0 - bad))
  {
    var row := Mirror(HQ, o);
    LogIfTotal(inv.ledger, Txn(row, PurchaseReceive, units), a);
    LogIfTotal(LogIf(inv.ledger, Txn(row, PurchaseReceive, units)), Txn(row, PurchaseBad, 0 - bad), a);
  }

  /** Only a shipment can push a row below zero, and only a headquarters row. */
  lemma OnlyShippingGoesNegative(inv: Goods, op: StockOp, p: ProductId)
    requires Apply(inv, op).Some?
    requires op.Receive? ==> op.bad <= op.units
    requires StockOf(inv, p) >= 0
    requires StockOf(Apply(inv, op).value, p) < 0
    ensures op.Ship? && p == Mirror(HQ, op.official)
  {
  }

  lemma ApplyKeepsShelves(inv: Goods, op: StockOp)
    requires Apply(inv, op).Some?
    requires op.Receive? ==> op.bad <= op.units
    requires ShelvesNonNegative(inv)
    ensures ShelvesNonNegative(Apply(inv, op).value)
  {
    var after := Apply(inv, op).value;
    forall p | p in after.products && !IsHqRow(p)
      ensures after.products[p].stock >= 0
    {
      if StockOf(after, p) < 0 {
        assert StockOf(inv, p) >= 0;
        OnlyShippingGoesNegative(inv, op, p);
      }
    }
  }
}
