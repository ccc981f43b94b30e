/** Runs from an empty shop in which pay is taken back wrongly, or money is paid back twice. */
module ClawbackStory {
  import opened Sums
  import opened OrderState
  import opened Inventory
  import opened Trade
  import opened TradeSafety
  import opened TradeCeiling
  import opened TradeSettled
  import TradeRaces
  import opened TradeStories
  import opened Commission
  import opened Clawback

  /** One line of 10, no coupon. */
  function Pot(source: Option<Source>): seq<Line>
  {
    [Line(TEA, 1, 10, source)]
  }

  function Sent(status: OrderStatus, fee: nat): Order
  {
    Order(status, Pot(if status == PendingPayment then None else Some(Legacy)), None, 10, fee, 10 + fee, 0, false)
  }

  /** Half of it, refunded after delivery: by the shopper, or on the shopper's behalf. */
  function Half(status: RefundStatus, amount: int, withFee: bool): Refund
  {
    Refund(0, AfterSale, amount, withFee, Some(Delivered), status, [Item(amount)])
  }

  function Shipped(fee: nat, status: OrderStatus, refunds: seq<Refund>): World
  {
    World(Goods(Shelf(1, 1).products, [Txn(TEA, OutTxn, -1)]), [Sent(status, fee)], [], refunds)
  }

  function At(status: OrderStatus, refunds: seq<Refund>): World
  {
    Shipped(0, status, refunds)
  }

  function Order10(fee: nat): Step
  {
    CreateOrder(Pot(None), None, 10, fee, 0, 0)
  }

  lemma PotStamped()
    ensures Stamp(Pot(None), Shelf(2, 0).products) == Some(Pot(Some(Legacy)))
  {
    assert Pot(None)[..0] == [] && Stamp([], Shelf(2, 0).products) == Some([]);
    assert [] + [Pot(None)[0].(source := Some(Legacy))] == Pot(Some(Legacy));
  }

  lemma PotSold()
    ensures Sell(Shelf(2, 0), Pot(Some(Legacy))) == Some(Shelf(1, 1))
  {
    assert Pot(Some(Legacy))[..0] == [] && Sell(Shelf(2, 0), []) == Some(Shelf(2, 0));
    assert Shelf(2, 0).products[TEA := Product(1, 0, 1, None, None)] == Shelf(1, 1).products;
    assert SellLine(Shelf(2, 0), Line(TEA, 1, 10, Some(Legacy))) == Some(Shelf(1, 1));
  }

  function InHouse(fee: nat, status: OrderStatus, refunds: seq<Refund>): World
  {
    World(Shelf(1, 1), [Sent(status, fee)], [], refunds)
  }

  function ToBought(fee: nat): seq<Step>
  {
    [] + [Order10(fee)] + [PAY]
  }

  lemma PotBought(fee: nat)
    ensures Leads(Empty(), ToBought(fee), InHouse(fee, Paid, []))
  {
    var ordered := World(Shelf(2, 0), [Sent(PendingPayment, fee)], [], []);
    assert Next(Empty(), Order10(fee)) == ordered;
    PotStamped();
    PotSold();
    assert Next(ordered, PAY) == InHouse(fee, Paid, []);
    assert Leads(Empty(), [], Empty());
    LeadsMore(Empty(), [], Empty(), Order10(fee), ordered);
    LeadsMore(Empty(), [] + [Order10(fee)], ordered, PAY, InHouse(fee, Paid, []));
  }

  lemma PotOut(fee: nat, refunds: seq<Refund>)
    ensures Next(InHouse(fee, Paid, refunds), Outbound(0, Paid)) == Shipped(fee, WaitingFirstMile, refunds)
  {
    var lines := Pot(Some(Legacy));
    assert lines[..0] == [] && LogOut(Shelf(1, 1), []) == Shelf(1, 1);
    assert [] + [Txn(TEA, OutTxn, -1)] == [Txn(TEA, OutTxn, -1)];
  }

  lemma PotShipped() returns (steps: seq<Step>)
    ensures Leads(Empty(), steps, At(WaitingFirstMile, []))
  {
    PotBought(0);
    PotOut(0, []);
    LeadsMore(Empty(), ToBought(0), InHouse(0, Paid, []), Outbound(0, Paid), At(WaitingFirstMile, []));
    steps := ToBought(0) + [Outbound(0, Paid)];
  }

  /** Bought, paid, out, on the road and delivered. */
  lemma PotDelivered() returns (steps: seq<Step>)
    ensures Leads(Empty(), steps, At(Delivered, []))
  {
    var out := PotShipped();
    LeadsMore(Empty(), out, At(WaitingFirstMile, []), Fulfil(0, WaitingFirstMile, FirstMile), At(FirstMile, []));
    var road := out + [Fulfil(0, WaitingFirstMile, FirstMile)];
    LeadsMore(Empty(), road, At(FirstMile, []), Fulfil(0, FirstMile, Delivered), At(Delivered, []));
    steps := road + [Fulfil(0, FirstMile, Delivered)];
  }

  // ----- two halves -----

  const ASKED: Step := RequestRefund(0, Delivered, AfterSale, [TEA])
  const HALVED: Step := Approve(0, AfterSales, Some(false), false, [(0, 5)])
  const OPENED: Step := OpenGoodsRefund(0, [TEA], map[TEA := 5])
  const AGREED: Step := Approve(1, AfterSales, Some(true), false, [])

  function Settled1(status: OrderStatus, rest: seq<Refund>): World
  {
    At(status, [Half(Finished, 5, false)] + rest)
  }

  function Item(amount: int): RefundItem
  {
    RefundItem(TEA, 10, 1, amount)
  }

  lemma PotTicked()
    ensures ParseItems(Pot(Some(Legacy)), [TEA]) == Some([Item(10)])
  {
    assert [TEA][..0] == [] && ParseItems(Pot(Some(Legacy)), []) == Some([]);
    assert [] + [Item(10)] == [Item(10)];
  }

  lemma PotEdited()
    ensures EditByProduct([Item(10)], map[TEA := 5]) == Some([Item(5)])
    ensures EditByLine([Item(10)], [(0, 5)]) == Some([Item(5)])
  {
    assert [Item(10)][..0] == [] && [] + [Item(5)] == [Item(5)];
    var edits: seq<(nat, int)> := [(0, 5)];
    assert edits[..0] == [] && EditByLine([Item(10)], []) == Some([Item(10)]);
    assert [Item(10)][0 := Item(5)] == [Item(5)];
  }

  lemma PotAdded(amount: int)
    ensures ItemsTotal([Item(amount)]) == amount
  {
    assert [Item(amount)][..0] == [];
  }

  lemma HalfTicked()
    ensures ParseItems(Pot(Some(Legacy)), [TEA]).Some?
    ensures EditByProduct(ParseItems(Pot(Some(Legacy)), [TEA]).value, map[TEA := 5]) == Some([Item(5)])
    ensures ItemsTotal([Item(5)]) == 5
  {
    PotTicked();
    PotEdited();
    PotAdded(5);
  }

  lemma FirstAsked()
    ensures Next(At(Delivered, []), ASKED) == At(AfterSales, [Half(Pending, 10, false)])
  {
    PotTicked();
    PotAdded(10);
    NoneYet();
    assert At(Delivered, []).orders[0].lines == Pot(Some(Legacy));
    assert DoRequestRefund(At(Delivered, []), 0, Delivered, AfterSale, [TEA]).Committed?;
  }

  lemma NoneYet()
    ensures RefundTotal([], Reserved, 0) == 0
  {
  }

  lemma FirstPriced()
    ensures Priced(At(AfterSales, [Half(Pending, 10, false)]), 0, false, [(0, 5)]) == Some(Half(Approved, 5, false))
  {
    PotEdited();
    PotAdded(5);
    OneRefund(Half(Pending, 10, false), Reserved);
  }

  lemma FirstHalved()
    ensures Next(At(AfterSales, [Half(Pending, 10, false)]), HALVED) == At(AfterSales, [Half(Approved, 5, false)])
  {
    FirstPriced();
  }

  lemma FirstSettled()
    ensures var w := At(AfterSales, [Half(Approved, 5, false)]);
            Next(w, Finish(0)) == Settled1(Delivered, []) && LeavesSlip(w, Finish(0)) && SlipOf(w, 0) == Slip(0, 5)
  {
    OneRefund(Half(Approved, 5, false), Settled);
    assert [Half(Finished, 5, false)] + [] == [Half(Finished, 5, false)];
  }

  lemma SecondOpened()
    ensures Next(Settled1(Delivered, []), OPENED) == Settled1(AfterSales, [Half(Pending, 5, true)])
  {
    var w := Settled1(Delivered, []);
    HalfTicked();
    OneRefund(Half(Finished, 5, false), Reserved);
    assert w.refunds == [Half(Finished, 5, false)] && w.orders[0].lines == Pot(Some(Legacy));
    assert RefundTotal(w.refunds, Reserved, 0) == 5;
    assert DoOpenGoodsRefund(w, 0, [TEA], map[TEA := 5])
        == Committed(Rewrite(w, 0, AfterSales, 1, Half(Pending, 5, true)));
  }

  lemma SecondPriced()
    ensures Priced(Settled1(AfterSales, [Half(Pending, 5, true)]), 1, true, []) == Some(Half(Approved, 5, true))
  {
    var w := Settled1(AfterSales, [Half(Pending, 5, true)]);
    PotAdded(5);
    assert w.refunds == [Half(Finished, 5, false), Half(Pending, 5, true)];
    TwoRefunds(Half(Finished, 5, false), Half(Pending, 5, true), Reserved);
    assert EditByLine([Item(5)], []) == Some([Item(5)]);
  }

  lemma SecondAgreed()
    ensures Next(Settled1(AfterSales, [Half(Pending, 5, true)]), AGREED) == Settled1(AfterSales, [Half(Approved, 5, true)])
  {
    SecondPriced();
  }

  lemma SecondSettled()
    ensures var w := Settled1(AfterSales, [Half(Approved, 5, true)]);
            && Next(w, Finish(1)) == Settled1(OrderStatus.Refunded, [Half(Finished, 5, true)])
            && LeavesSlip(w, Finish(1)) && SlipOf(w, 1) == Slip(0, 10)
  {
    var w := Settled1(AfterSales, [Half(Approved, 5, true)]);
    assert w.refunds == [Half(Finished, 5, false), Half(Approved, 5, true)];
    TwoRefunds(Half(Finished, 5, false), Half(Approved, 5, true), Settled);
    assert IsWhole(w, 1);
    assert w.refunds[1 := Half(Finished, 5, true)] == Settled1(OrderStatus.Refunded, [Half(Finished, 5, true)]).refunds;
  }

  // ----- the desk along the way -----

  /** These events lead to this desk; courier 0's pay for order 0 is recorded by then, and in time for its last booking. */
  ghost predicate Gets(w: World, es: seq<Event>, d: Desk, recorded: bool, inTime: bool)
  {
    RunDesk(w, es) == d && HonestEvents(w, es) && Recorded(es, 0, 0) == recorded && InTime(w, es, 0, 0) == inTime
  }

  lemma GetsNothing(w: World)
    ensures Gets(w, [], Desk(w, [], []), false, false)
  {
  }

  lemma GetsServed(w: World, es: seq<Event>, d: Desk, recorded: bool, inTime: bool, s: Step, v: World)
    requires Gets(w, es, d, recorded, inTime) && Honest(d.world, s) && Next(d.world, s) == v && !LeavesSlip(d.world, s)
    ensures Gets(w, es + [Serve(s)], d.(world := v), recorded, inTime)
  {
    assert (es + [Serve(s)])[..|es + [Serve(s)]| - 1] == es;
    assert d.slips + [] == d.slips;
  }

  lemma GetsSlip(w: World, es: seq<Event>, d: Desk, recorded: bool, inTime: bool, r: nat, v: World, slip: Slip)
    requires Gets(w, es, d, recorded, inTime) && Honest(d.world, Finish(r)) && Next(d.world, Finish(r)) == v
    requires LeavesSlip(d.world, Finish(r)) && SlipOf(d.world, r) == slip
    ensures Gets(w, es + [Serve(Finish(r))], Desk(v, d.slips + [slip], d.booked), recorded, inTime)
  {
    assert (es + [Serve(Finish(r))])[..|es + [Serve(Finish(r))]| - 1] == es;
  }

  lemma GetsBooked(w: World, es: seq<Event>, d: Desk, recorded: bool, inTime: bool, k: nat)
    requires Gets(w, es, d, recorded, inTime) && MayBook(d, k) && d.slips[k].order == 0
    ensures Gets(w, es + [Book(k, 0)], d.(booked := d.booked + [k]), recorded, recorded)
  {
    assert (es + [Book(k, 0)])[..|es + [Book(k, 0)]| - 1] == es;
  }

  const DELIVERED: Event := Record(0, Some(0), None, 0)

  lemma GetsRecorded(w: World, es: seq<Event>, d: Desk, recorded: bool, inTime: bool)
    requires Gets(w, es, d, recorded, inTime)
    ensures Gets(w, es + [DELIVERED], d, true, inTime)
  {
    assert (es + [DELIVERED])[..|es + [DELIVERED]| - 1] == es;
  }

  const HUNDRED: Pay := map[(0, 0) := 100]

  /** What courier 0 keeps of 100 when nothing, or only half, was taken back in time. */
  lemma Kept(w: World, es: seq<Event>, d: Desk, inTime: bool)
    requires Sound(w) && Gets(w, es, d, true, inTime) && GoodsPaid(d.world, 0) == 10
    requires inTime ==> Carried(d, 0) == 5
    ensures NetPay(RunTable(w, HUNDRED, es), 0, 0) == if inTime then 50 else 100
  {
    NetIsOwed(w, HUNDRED, es, 0, 0);
    HalfOwed();
  }

  lemma HalfOwed()
    ensures PayFor(HUNDRED, 0, 0) == 100 && Owed(100, 5, 10) == 50 && Owed(100, 0, 10) == 0
  {
  }

  // ----- booked the wrong way round -----

  lemma FirstSlip() returns (es: seq<Event>)
    ensures Gets(At(Delivered, []), es, Desk(Settled1(Delivered, []), [Slip(0, 5)], []), true, false)
  {
    var w := At(Delivered, []);
    FirstAsked();
    FirstHalved();
    FirstSettled();
    GetsNothing(w);
    GetsRecorded(w, [], Desk(w, [], []), false, false);
    var one := [] + [DELIVERED];
    GetsServed(w, one, Desk(w, [], []), true, false, ASKED, At(AfterSales, [Half(Pending, 10, false)]));
    var two := one + [Serve(ASKED)];
    GetsServed(w, two, Desk(At(AfterSales, [Half(Pending, 10, false)]), [], []), true, false, HALVED,
               At(AfterSales, [Half(Approved, 5, false)]));
    var three := two + [Serve(HALVED)];
    GetsSlip(w, three, Desk(At(AfterSales, [Half(Approved, 5, false)]), [], []), true, false, 0, Settled1(Delivered, []), Slip(0, 5));
    es := three + [Serve(Finish(0))];
    assert [] + [Slip(0, 5)] == [Slip(0, 5)];
  }

  lemma SecondSlip() returns (es: seq<Event>)
    ensures Gets(At(Delivered, []), es, BothSettled([]), true, false)
  {
    var w, one := At(Delivered, []), [Slip(0, 5)];
    var first := FirstSlip();
    SecondOpened();
    SecondAgreed();
    SecondSettled();
    GetsServed(w, first, Desk(Settled1(Delivered, []), one, []), true, false, OPENED, Settled1(AfterSales, [Half(Pending, 5, true)]));
    var next := first + [Serve(OPENED)];
    GetsServed(w, next, Desk(Settled1(AfterSales, [Half(Pending, 5, true)]), one, []), true, false, AGREED,
               Settled1(AfterSales, [Half(Approved, 5, true)]));
    var more := next + [Serve(AGREED)];
    GetsSlip(w, more, Desk(Settled1(AfterSales, [Half(Approved, 5, true)]), one, []), true, false, 1,
             Settled1(OrderStatus.Refunded, [Half(Finished, 5, true)]), Slip(0, 10));
    es := more + [Serve(Finish(1))];
    assert one + [Slip(0, 10)] == [Slip(0, 5), Slip(0, 10)];
  }

  /** Both halves settled, and these slips booked. */
  function BothSettled(booked: seq<nat>): Desk
  {
    Desk(Settled1(OrderStatus.Refunded, [Half(Finished, 5, true)]), [Slip(0, 5), Slip(0, 10)], booked)
  }

  lemma BothTotals(booked: seq<nat>)
    requires booked != [] && booked[|booked| - 1] == 0
    ensures SettledTotal(BothSettled(booked), 0) == GoodsPaid(BothSettled(booked).world, 0) == 10
    ensures Carried(BothSettled(booked), 0) == 5
  {
    TwoRefunds(Half(Finished, 5, false), Half(Finished, 5, true), Settled);
    assert BothSettled(booked).world.refunds == [Half(Finished, 5, false), Half(Finished, 5, true)];
  }

  /**
   The order is refunded in two halves and all of it is settled; the second slip is booked first, the
   first one last. The courier who earned 100 keeps 50 of it, and should keep nothing.
   */
  lemma BookedOutOfTurn() returns (steps: seq<Step>, es: seq<Event>)
    ensures HonestRun(Empty(), steps) && HonestEvents(Run(Empty(), steps), es)
    ensures var d := RunDesk(Run(Empty(), steps), es);
            d.booked == [1, 0] && SettledTotal(d, 0) == GoodsPaid(d.world, 0) == 10
    ensures NetPay(RunTable(Run(Empty(), steps), HUNDRED, es), 0, 0) == 50
  {
    steps := PotDelivered();
    FineFromEmpty(steps);
    var w := At(Delivered, []);
    var both := SecondSlip();
    GetsBooked(w, both, BothSettled([]), true, false, 1);
    assert [] + [1] == [1] && [1] + [0] == [1, 0];
    GetsBooked(w, both + [Book(1, 0)], BothSettled([1]), true, true, 0);
    es := both + [Book(1, 0)] + [Book(0, 0)];
    BothTotals([1, 0]);
    Kept(w, es, BothSettled([1, 0]), true);
  }

  /** And if the second booking never happens, the first one's total stands for good: again 50 is kept. */
  lemma BookingLost() returns (steps: seq<Step>, es: seq<Event>)
    ensures HonestRun(Empty(), steps) && HonestEvents(Run(Empty(), steps), es)
    ensures var d := RunDesk(Run(Empty(), steps), es);
            && d.booked == [0] && SettledTotal(d, 0) == GoodsPaid(d.world, 0) == 10
            && After(d, Serve(Finish(1))) == d
    ensures NetPay(RunTable(Run(Empty(), steps), HUNDRED, es), 0, 0) == 50
  {
    steps := PotDelivered();
    FineFromEmpty(steps);
    var w := At(Delivered, []);
    var both := SecondSlip();
    GetsBooked(w, both, BothSettled([]), true, false, 0);
    assert [] + [0] == [0];
    es := both + [Book(0, 0)];
    BothTotals([0]);
    Kept(w, es, BothSettled([0]), true);
    ReplayLeavesNoSlip();
  }

  /** Reporting the second success again finds it settled, and does not make up for the lost booking. */
  lemma ReplayLeavesNoSlip()
    ensures After(BothSettled([0]), Serve(Finish(1))) == BothSettled([0])
  {
    assert BothSettled([0]).world.refunds[1].status == Finished;
  }

  // ----- pay recorded after the booking -----

  /** The whole order, refunded before it leaves the house. */
  function Whole(status: RefundStatus, withFee: bool): Refund
  {
    Refund(0, PreDelivery, 10, withFee, Some(Paid), status, [])
  }

  /** Half of it on top, while the order is held. */
  function Extra(status: RefundStatus): Refund
  {
    Refund(0, AfterSale, 5, true, None, status, [Item(5)])
  }

  const WHOLE: Step := RequestRefund(0, Paid, PreDelivery, [])

  function Yes(r: nat): Step
  {
    Approve(r, AfterSales, None, false, [])
  }

  function Held(refunds: seq<Refund>): World
  {
    InHouse(5, AfterSales, refunds)
  }

  lemma WholeAsked()
    ensures Next(InHouse(5, Paid, []), WHOLE) == Held([Whole(Pending, false)])
  {
  }

  lemma WholeAgreed()
    ensures Next(Held([Whole(Pending, false)]), Yes(0)) == Held([Whole(Approved, true)])
  {
    OneRefund(Whole(Pending, false), Reserved);
    assert Priced(Held([Whole(Pending, false)]), 0, true, []) == Some(Whole(Approved, true));
  }

  lemma ExtraOpened()
    ensures Next(Held([Whole(Approved, true)]), OPENED) == Held([Whole(Approved, true), Extra(Pending)])
  {
    HalfTicked();
    OneRefund(Whole(Approved, true), Reserved);
    assert [Whole(Approved, true)] + [Extra(Pending)] == [Whole(Approved, true), Extra(Pending)];
  }

  lemma ExtraPriced()
    ensures Priced(Held([Whole(Approved, true), Extra(Pending)]), 1, true, []) == Some(Extra(Approved))
  {
    PotAdded(5);
    TwoRefunds(Whole(Approved, true), Extra(Pending), Reserved);
    assert EditByLine([Item(5)], []) == Some([Item(5)]);
  }

  lemma ExtraAgreed()
    ensures Next(Held([Whole(Approved, true), Extra(Pending)]), Yes(1)) == Held([Whole(Approved, true), Extra(Approved)])
  {
    ExtraPriced();
  }

  lemma ExtraSettled()
    ensures var w := Held([Whole(Approved, true), Extra(Approved)]);
            && Next(w, Finish(1)) == InHouse(5, Delivered, [Whole(Approved, true), Extra(Finished)])
            && LeavesSlip(w, Finish(1)) && SlipOf(w, 1) == Slip(0, 5)
  {
    TwoRefunds(Whole(Approved, true), Extra(Approved), Settled);
    assert ClaimsFee(Whole(Approved, true), 0);
  }

  lemma WholeUnderWay()
    ensures Next(InHouse(5, Delivered, [Whole(Approved, true), Extra(Finished)]), Processing(0))
         == Held([Whole(Refunding, true), Extra(Finished)])
  {
    var refunds := [Whole(Approved, true), Extra(Finished)];
    assert refunds[0 := Whole(Refunding, true)] == [Whole(Refunding, true), Extra(Finished)];
  }

  lemma WholeClosed()
    ensures Next(Held([Whole(Refunding, true), Extra(Finished)]), Close(0))
         == InHouse(5, Paid, [Whole(Failed, true), Extra(Finished)])
  {
    var refunds := [Whole(Refunding, true), Extra(Finished)];
    assert refunds[0 := Whole(Failed, true)] == [Whole(Failed, true), Extra(Finished)];
  }

  lemma ExtraSlip() returns (es: seq<Event>)
    ensures Gets(InHouse(5, Paid, []), es,
                 Desk(InHouse(5, Delivered, [Whole(Approved, true), Extra(Finished)]), [Slip(0, 5)], []), false, false)
  {
    var w := InHouse(5, Paid, []);
    WholeAsked();
    WholeAgreed();
    ExtraOpened();
    GetsNothing(w);
    GetsServed(w, [], Desk(w, [], []), false, false, WHOLE, Held([Whole(Pending, false)]));
    var one := [] + [Serve(WHOLE)];
    GetsServed(w, one, Desk(Held([Whole(Pending, false)]), [], []), false, false, Yes(0), Held([Whole(Approved, true)]));
    var two := one + [Serve(Yes(0))];
    GetsServed(w, two, Desk(Held([Whole(Approved, true)]), [], []), false, false, OPENED, Held([Whole(Approved, true), Extra(Pending)]));
    es := ExtraPaid(two + [Serve(OPENED)]);
  }

  lemma ExtraPaid(before: seq<Event>) returns (es: seq<Event>)
    requires Gets(InHouse(5, Paid, []), before, Desk(Held([Whole(Approved, true), Extra(Pending)]), [], []), false, false)
    ensures Gets(InHouse(5, Paid, []), es,
                 Desk(InHouse(5, Delivered, [Whole(Approved, true), Extra(Finished)]), [Slip(0, 5)], []), false, false)
  {
    var w := InHouse(5, Paid, []);
    ExtraAgreed();
    ExtraSettled();
    GetsServed(w, before, Desk(Held([Whole(Approved, true), Extra(Pending)]), [], []), false, false, Yes(1),
               Held([Whole(Approved, true), Extra(Approved)]));
    var more := before + [Serve(Yes(1))];
    GetsSlip(w, more, Desk(Held([Whole(Approved, true), Extra(Approved)]), [], []), false, false, 1,
             InHouse(5, Delivered, [Whole(Approved, true), Extra(Finished)]), Slip(0, 5));
    es := more + [Serve(Finish(1))];
    assert [] + [Slip(0, 5)] == [Slip(0, 5)];
  }

  lemma SlipWhileHeld() returns (es: seq<Event>)
    ensures Gets(InHouse(5, Paid, []), es, Desk(Held([Whole(Refunding, true), Extra(Finished)]), [Slip(0, 5)], []), false, false)
  {
    var before := ExtraSlip();
    WholeUnderWay();
    GetsServed(InHouse(5, Paid, []), before, Desk(InHouse(5, Delivered, [Whole(Approved, true), Extra(Finished)]), [Slip(0, 5)], []),
               false, false, Processing(0), Held([Whole(Refunding, true), Extra(Finished)]));
    es := before + [Serve(Processing(0))];
  }

  /** The channel closes the whole refund, and the slip is booked: nobody has been paid for this order yet. */
  lemma BookedEarly() returns (es: seq<Event>)
    ensures Gets(InHouse(5, Paid, []), es, Desk(InHouse(5, Paid, [Whole(Failed, true), Extra(Finished)]), [Slip(0, 5)], [0]), false, false)
  {
    var w, slips := InHouse(5, Paid, []), [Slip(0, 5)];
    var before := SlipWhileHeld();
    WholeClosed();
    GetsServed(w, before, Desk(Held([Whole(Refunding, true), Extra(Finished)]), slips, []), false, false,
               Close(0), InHouse(5, Paid, [Whole(Failed, true), Extra(Finished)]));
    var two := before + [Serve(Close(0))];
    GetsBooked(w, two, Desk(InHouse(5, Paid, [Whole(Failed, true), Extra(Finished)]), slips, []), false, false, 0);
    es := two + [Book(0, 0)];
    assert [] + [0] == [0];
  }

  function Arrived(status: OrderStatus): Desk
  {
    Desk(Shipped(5, status, [Whole(Failed, true), Extra(Finished)]), [Slip(0, 5)], [0])
  }

  lemma SentOut() returns (es: seq<Event>)
    ensures Gets(InHouse(5, Paid, []), es, Arrived(WaitingFirstMile), false, false)
  {
    var refunds := [Whole(Failed, true), Extra(Finished)];
    var before := BookedEarly();
    PotOut(5, refunds);
    GetsServed(InHouse(5, Paid, []), before, Desk(InHouse(5, Paid, refunds), [Slip(0, 5)], [0]), false, false,
               Outbound(0, Paid), Shipped(5, WaitingFirstMile, refunds));
    es := before + [Serve(Outbound(0, Paid))];
  }

  lemma OnTheWay() returns (es: seq<Event>)
    ensures Gets(InHouse(5, Paid, []), es, Arrived(FirstMile), false, false)
  {
    var before := SentOut();
    GetsServed(InHouse(5, Paid, []), before, Arrived(WaitingFirstMile), false, false,
               Fulfil(0, WaitingFirstMile, FirstMile), Arrived(FirstMile).world);
    es := before + [Serve(Fulfil(0, WaitingFirstMile, FirstMile))];
  }

  /** Now the order is delivered, and its pay is recorded. */
  lemma DeliveredLate() returns (es: seq<Event>)
    ensures Gets(InHouse(5, Paid, []), es, Arrived(Delivered), true, false)
  {
    var before := OnTheWay();
    GetsServed(InHouse(5, Paid, []), before, Arrived(FirstMile), false, false, Fulfil(0, FirstMile, Delivered), Arrived(Delivered).world);
    var served := before + [Serve(Fulfil(0, FirstMile, Delivered))];
    GetsRecorded(InHouse(5, Paid, []), served, Arrived(Delivered), false, false);
    es := served + [DELIVERED];
  }

  lemma ArrivedTotals()
    ensures SettledTotal(Arrived(Delivered), 0) == Carried(Arrived(Delivered), 0) == 5
    ensures GoodsPaid(Arrived(Delivered).world, 0) == 10
  {
    TwoRefunds(Whole(Failed, true), Extra(Finished), Settled);
  }

  /**
   Half of an order is refunded while a whole-order refund holds it; the slip is booked at once, and
   carries the settled total. The whole-order refund is closed, the order goes back to paid and is only
   then delivered: the courier keeps all of 100, and should keep 50.
   */
  lemma PaidAfterBooking() returns (steps: seq<Step>, es: seq<Event>)
    ensures HonestRun(Empty(), steps) && HonestEvents(Run(Empty(), steps), es)
    ensures var d := RunDesk(Run(Empty(), steps), es);
            Carried(d, 0) == SettledTotal(d, 0) == 5 && GoodsPaid(d.world, 0) == 10
    ensures NetPay(RunTable(Run(Empty(), steps), HUNDRED, es), 0, 0) == 100
  {
    steps := ToBought(5);
    PotBought(5);
    FineFromEmpty(steps);
    es := DeliveredLate();
    ArrivedTotals();
    Kept(InHouse(5, Paid, []), es, Arrived(Delivered), false);
  }

  // ----- paid back twice -----

  /** All of it, asked for after delivery once the first half is off the record. */
  function Rest(status: RefundStatus): Refund
  {
    Refund(0, AfterSale, 10, false, Some(Delivered), status, [Item(10)])
  }

  function Erased(status: OrderStatus, rest: seq<Refund>): World
  {
    At(status, [Half(Withdrawn, 5, false)] + rest)
  }

  lemma HalfErased()
    ensures TradeRaces.Write(Settled1(Delivered, []), TradeRaces.Withdrawing(0)) == Erased(Delivered, [])
  {
    assert Settled1(Delivered, []).refunds == [Half(Finished, 5, false)];
    assert Erased(Delivered, []).refunds == [Half(Withdrawn, 5, false)];
  }

  lemma RestAsked()
    ensures Next(Erased(Delivered, []), ASKED) == Erased(AfterSales, [Rest(Pending)])
  {
    PotTicked();
    PotAdded(10);
    assert Erased(Delivered, []).refunds == [Half(Withdrawn, 5, false)];
    OneRefund(Half(Withdrawn, 5, false), Reserved);
    assert [Half(Withdrawn, 5, false)] + [Rest(Pending)] == Erased(AfterSales, [Rest(Pending)]).refunds;
  }

  const RESTAGREED: Step := Approve(1, AfterSales, Some(false), false, [])

  lemma RestPriced()
    ensures Priced(Erased(AfterSales, [Rest(Pending)]), 1, false, []) == Some(Rest(Approved))
  {
    PotAdded(10);
    assert Erased(AfterSales, [Rest(Pending)]).refunds == [Half(Withdrawn, 5, false), Rest(Pending)];
    TwoRefunds(Half(Withdrawn, 5, false), Rest(Pending), Reserved);
    assert EditByLine([Item(10)], []) == Some([Item(10)]);
  }

  lemma RestAgreed()
    ensures Next(Erased(AfterSales, [Rest(Pending)]), RESTAGREED) == Erased(AfterSales, [Rest(Approved)])
  {
    RestPriced();
  }

  /** These events lead here, are honest and harmless, and have had this much paid back. */
  ghost predicate Pays(es: seq<TradeRaces.Event>, w: World, paid: int)
  {
    && TradeRaces.RunEvents(At(Delivered, []), es) == w && TradeRaces.HonestEvents(At(Delivered, []), es)
    && TradeRaces.AllHarmless(At(Delivered, []), es) && TradeRaces.PaidBack(At(Delivered, []), es, 0) == paid
  }

  lemma PaysMore(es: seq<TradeRaces.Event>, w: World, paid: int, s: Step, v: World)
    requires Pays(es, w, paid) && Honest(w, s) && Next(w, s) == v
    ensures Pays(es + [TradeRaces.Lawful(s)], v, paid + SettledBy(w, s, 0))
  {
    assert (es + [TradeRaces.Lawful(s)])[..|es + [TradeRaces.Lawful(s)]| - 1] == es;
  }

  lemma PaysLate(es: seq<TradeRaces.Event>, w: World, paid: int, v: World)
    requires Pays(es, w, paid) && TradeRaces.Write(w, TradeRaces.Withdrawing(0)) == v
    ensures Pays(es + [TradeRaces.Late(TradeRaces.Withdrawing(0))], v, paid)
  {
    var more := es + [TradeRaces.Late(TradeRaces.Withdrawing(0))];
    assert more[..|more| - 1] == es;
  }

  lemma HalfPaidBack() returns (es: seq<TradeRaces.Event>)
    ensures Pays(es, Settled1(Delivered, []), 5)
  {
    FirstAsked();
    FirstHalved();
    FirstSettled();
    assert Pays([], At(Delivered, []), 0);
    PaysMore([], At(Delivered, []), 0, ASKED, At(AfterSales, [Half(Pending, 10, false)]));
    var one := [] + [TradeRaces.Lawful(ASKED)];
    PaysMore(one, At(AfterSales, [Half(Pending, 10, false)]), 0, HALVED, At(AfterSales, [Half(Approved, 5, false)]));
    var two := one + [TradeRaces.Lawful(HALVED)];
    PaysMore(two, At(AfterSales, [Half(Approved, 5, false)]), 0, Finish(0), Settled1(Delivered, []));
    es := two + [TradeRaces.Lawful(Finish(0))];
  }

  lemma AskedForAll() returns (es: seq<TradeRaces.Event>)
    ensures Pays(es, Erased(AfterSales, [Rest(Approved)]), 5)
  {
    var half := HalfPaidBack();
    HalfErased();
    RestAsked();
    RestAgreed();
    PaysLate(half, Settled1(Delivered, []), 5, Erased(Delivered, []));
    var one := half + [TradeRaces.Late(TradeRaces.Withdrawing(0))];
    PaysMore(one, Erased(Delivered, []), 5, ASKED, Erased(AfterSales, [Rest(Pending)]));
    var two := one + [TradeRaces.Lawful(ASKED)];
    PaysMore(two, Erased(AfterSales, [Rest(Pending)]), 5, RESTAGREED, Erased(AfterSales, [Rest(Approved)]));
    es := two + [TradeRaces.Lawful(RESTAGREED)];
  }

  lemma RestSettles()
    ensures var w := Erased(AfterSales, [Rest(Approved)]); Honest(w, Finish(1)) && SettledBy(w, Finish(1), 0) == 10
  {
  }

  /**
   Half of a delivered order is paid back; a withdrawal checked before that erases it; then all of it is
   asked for and paid back. 15 went out for an order of 10, and no ceiling on record was ever passed.
   */
  lemma ErasedRefundIsPaidAgain() returns (steps: seq<Step>, es: seq<TradeRaces.Event>)
    ensures HonestRun(Empty(), steps)
    ensures var w := Run(Empty(), steps);
            && TradeRaces.HonestEvents(w, es) && TradeRaces.AllHarmless(w, es) && UnderCeiling(TradeRaces.RunEvents(w, es))
            && TradeRaces.PaidBack(w, es, 0) == 15 && |w.orders| == 1 && w.orders[0].payable == 10
  {
    steps := PotDelivered();
    FineFromEmpty(steps);
    var before := AskedForAll();
    RestSettles();
    var w := Erased(AfterSales, [Rest(Approved)]);
    PaysMore(before, w, 5, Finish(1), Next(w, Finish(1)));
    es := before + [TradeRaces.Lawful(Finish(1))];
    TradeRaces.CeilingsSurviveLateWrites(At(Delivered, []), es);
  }
}
