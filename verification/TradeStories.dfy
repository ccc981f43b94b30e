/** Runs from an empty shop that end where the exact conditions say things go wrong. */
module TradeStories {
  import opened Sums
  import opened OrderState
  import opened Inventory
  import opened Trade
  import opened TradeSafety
  import opened TradeCeiling
  import opened TradeCoupons
  import opened TradeRaces
  import opened TradeUndo

  /** An honest run leads from one world to another. */
  ghost predicate Leads(w: World, steps: seq<Step>, v: World)
  {
    Run(w, steps) == v && HonestRun(w, steps)
  }

  lemma LeadsMore(w: World, steps: seq<Step>, u: World, s: Step, v: World)
    requires Leads(w, steps, u) && Honest(u, s) && Next(u, s) == v
    ensures Leads(w, steps + [s], v)
  {
    assert (steps + [s])[..|steps + [s]| - 1] == steps;
  }

  // ----- the cast: one product, one coupon worth 1, an order of one line -----

  const TEA: ProductId := Local(2, 0)

  function Shelf(stock: int, sales: int): Goods
  {
    Goods(map[TEA := Product(stock, 0, sales, None, None)], [])
  }

  function Empty(): World
  {
    World(Shelf(2, 0), [], [], [])
  }

  function Basket(source: Option<Source>): seq<Line>
  {
    [Line(TEA, 1, 5, source)]
  }

  /** Goods 5, a delivery fee, a coupon worth 1. */
  function Bought(status: OrderStatus, fee: nat, restored: bool): Order
  {
    Order(status, Basket(if status == PendingPayment then None else Some(Legacy)), Some(0), 5, fee, 4 + fee, 0, restored)
  }

  function Asked(status: RefundStatus, withFee: bool): Refund
  {
    Refund(0, PreDelivery, 4, withFee, Some(Paid), status, [])
  }

  function Buy(fee: nat): Step
  {
    CreateOrder(Basket(None), Some(0), 5, fee, 1, 0)
  }

  const PAY: Step := Pay(0, PaySnapshot(PendingPayment, Shelf(2, 0).products), 0)
  const ASK: Step := RequestRefund(0, Paid, PreDelivery, [])

  function Agree(r: nat): Step
  {
    Approve(r, AfterSales, Some(true), false, [])
  }

  // ----- the stations -----

  function Ordered(fee: nat): World
  {
    World(Shelf(2, 0), [Bought(PendingPayment, fee, false)], [Locked], [])
  }

  function PaidFor(status: OrderStatus, fee: nat, refunds: seq<Refund>): World
  {
    World(Shelf(1, 1), [Bought(status, fee, false)], [Used], refunds)
  }

  function AskedOnce(fee: nat): World
  {
    PaidFor(AfterSales, fee, [Asked(Pending, false)])
  }

  function AgreedOnce(fee: nat): World
  {
    PaidFor(AfterSales, fee, [Asked(Approved, true)])
  }

  function Refused(fee: nat): World
  {
    PaidFor(Paid, fee, [Asked(Failed, true)])
  }

  function AskedTwice(fee: nat): World
  {
    PaidFor(AfterSales, fee, [Asked(Failed, true), Asked(Pending, false)])
  }

  function AgreedTwice(fee: nat): World
  {
    PaidFor(AfterSales, fee, [Asked(Failed, true), Asked(Approved, true)])
  }

  lemma OneRefund(rf: Refund, t: Tally)
    ensures RefundTotal([rf], t, 0) == Share(t, 0, rf)
  {
    TotalOfAppend([], rf, t, 0);
    assert [] + [rf] == [rf];
  }

  lemma TwoRefunds(a: Refund, b: Refund, t: Tally)
    ensures RefundTotal([a, b], t, 0) == Share(t, 0, a) + Share(t, 0, b)
  {
    OneRefund(a, t);
    TotalOfAppend([a], b, t, 0);
    assert [a] + [b] == [a, b];
  }

  lemma Ordering(fee: nat)
    ensures Leads(Empty(), [GrantCoupon, Buy(fee)], Ordered(fee))
  {
    var granted := Empty().(coupons := [Claimed]);
    assert Next(Empty(), GrantCoupon) == granted;
    assert Next(granted, Buy(fee)) == Ordered(fee);
    assert Leads(Empty(), [], Empty());
    LeadsMore(Empty(), [], Empty(), GrantCoupon, granted);
    LeadsMore(Empty(), [] + [GrantCoupon], granted, Buy(fee), Ordered(fee));
    assert [] + [GrantCoupon] + [Buy(fee)] == [GrantCoupon, Buy(fee)];
  }

  lemma Stamping()
    ensures Stamp(Basket(None), Shelf(2, 0).products) == Some(Basket(Some(Legacy)))
  {
    var lines := Basket(None);
    assert lines[..0] == [] && Stamp([], Shelf(2, 0).products) == Some([]);
    assert [] + [lines[0].(source := Some(Legacy))] == Basket(Some(Legacy));
  }

  lemma Selling()
    ensures Sell(Shelf(2, 0), Basket(Some(Legacy))) == Some(Shelf(1, 1))
  {
    var line := Line(TEA, 1, 5, Some(Legacy));
    assert Basket(Some(Legacy))[..0] == [] && Sell(Shelf(2, 0), []) == Some(Shelf(2, 0));
    assert Shift(Product(2, 0, 0, None, None), 1) == Product(1, 0, 1, None, None);
    assert Shelf(2, 0).products[TEA := Product(1, 0, 1, None, None)] == Shelf(1, 1).products;
    assert SellLine(Shelf(2, 0), line) == Some(Shelf(1, 1));
  }

  lemma Paying(fee: nat)
    ensures Next(Ordered(fee), PAY) == PaidFor(Paid, fee, [])
  {
    Stamping();
    Selling();
  }

  lemma Asking(fee: nat)
    ensures Next(PaidFor(Paid, fee, []), ASK) == AskedOnce(fee)
    ensures Next(Refused(fee), ASK) == AskedTwice(fee)
  {
    OneRefund(Asked(Failed, true), Reserved);
  }

  lemma Agreeing(fee: nat)
    ensures Next(AskedOnce(fee), Agree(0)) == AgreedOnce(fee)
    ensures Next(AskedTwice(fee), Agree(1)) == AgreedTwice(fee)
  {
    OneRefund(Asked(Pending, false), Reserved);
    TwoRefunds(Asked(Failed, true), Asked(Pending, false), Reserved);
    assert Priced(AskedOnce(fee), 0, true, []) == Some(Asked(Approved, true));
    assert Priced(AskedTwice(fee), 1, true, []) == Some(Asked(Approved, true));
  }

  function ToPaid(fee: nat): seq<Step>
  {
    [GrantCoupon, Buy(fee)] + [PAY]
  }

  lemma GettingPaid(fee: nat)
    ensures Leads(Empty(), ToPaid(fee), PaidFor(Paid, fee, []))
  {
    Ordering(fee);
    Paying(fee);
    LeadsMore(Empty(), [GrantCoupon, Buy(fee)], Ordered(fee), PAY, PaidFor(Paid, fee, []));
  }

  /** Bought, paid, refund asked for: the first stretch of every story below. */
  function ToAsked(fee: nat): seq<Step>
  {
    ToPaid(fee) + [ASK]
  }

  lemma GettingAsked(fee: nat)
    ensures Leads(Empty(), ToAsked(fee), AskedOnce(fee))
  {
    GettingPaid(fee);
    Asking(fee);
    LeadsMore(Empty(), ToPaid(fee), PaidFor(Paid, fee, []), ASK, AskedOnce(fee));
  }

  function ToRefused(fee: nat): seq<Step>
  {
    ToAsked(fee) + [Agree(0)] + [Refuse(0)]
  }

  lemma GettingRefused(fee: nat)
    ensures Leads(Empty(), ToRefused(fee), Refused(fee))
  {
    GettingAsked(fee);
    Agreeing(fee);
    LeadsMore(Empty(), ToAsked(fee), AskedOnce(fee), Agree(0), AgreedOnce(fee));
    LeadsMore(Empty(), ToAsked(fee) + [Agree(0)], AgreedOnce(fee), Refuse(0), Refused(fee));
  }

  /** Agreed, refused by the channel, asked for and agreed once more. */
  function ToAgreedTwice(fee: nat): seq<Step>
  {
    ToRefused(fee) + [ASK] + [Agree(1)]
  }

  lemma GettingAgreedTwice(fee: nat)
    ensures Leads(Empty(), ToAgreedTwice(fee), AgreedTwice(fee))
  {
    GettingRefused(fee);
    Asking(fee);
    Agreeing(fee);
    LeadsMore(Empty(), ToRefused(fee), Refused(fee), ASK, AskedTwice(fee));
    LeadsMore(Empty(), ToRefused(fee) + [ASK], AskedTwice(fee), Agree(1), AgreedTwice(fee));
  }

  lemma EmptyIsFine()
    ensures Sound(Empty()) && UnderCeiling(Empty()) && CouponsSettled(Empty())
  {
    EmptyShop(Shelf(2, 0));
  }

  // ----- a late success overpays -----

  lemma NoRoomLeft()
    ensures Sound(AgreedTwice(0)) && UnderCeiling(AgreedTwice(0)) && !HasRoom(AgreedTwice(0), Asked(Failed, true))
  {
    EmptyIsFine();
    GettingAgreedTwice(0);
    RefundsNeverExceedPayment(Empty(), ToAgreedTwice(0));
    TwoRefunds(Asked(Failed, true), Asked(Approved, true), Active);
  }

  /**
   A refund refused by the channel, a second one agreed in its place, and then the first reported
   as paid after all: the shopper gets back twice what the order cost.
   */
  lemma LateSuccessCanOverpay() returns (steps: seq<Step>)
    ensures HonestRun(Empty(), steps) && IsRefund(Run(Empty(), steps), 0)
    ensures var w := Run(Empty(), steps);
            w.refunds[0].status == Failed && !UnderCeiling(Next(w, Finish(0)))
  {
    steps := ToAgreedTwice(0);
    GettingAgreedTwice(0);
    SettlingLate();
  }

  lemma SettlingLate()
    ensures !UnderCeiling(Next(AgreedTwice(0), Finish(0)))
  {
    NoRoomLeft();
    LateSuccessNeedsRoom(AgreedTwice(0), 0);
    assert !OrderUnderCeiling(DoFinish(AgreedTwice(0), 0).world, 0);
  }

  /** The same run, and a progress answer prepared before the refusal and written now: both refunds count. */
  lemma LateProgressCanOverpromise() returns (steps: seq<Step>)
    ensures HonestRun(Empty(), steps) && !UnderCeiling(Write(Run(Empty(), steps), Progressing(0, AfterSales)))
  {
    steps := ToAgreedTwice(0);
    GettingAgreedTwice(0);
    NoRoomLeft();
    LateWriteKeepsCeilingsExactlyWhen(AgreedTwice(0), Progressing(0, AfterSales));
  }

  // ----- a released coupon is taken from its new order -----

  function BothAgreed(): World
  {
    PaidFor(AfterSales, 10, [Asked(Approved, true), Asked(Approved, true)])
  }

  function OnceSettled(): World
  {
    World(Shelf(2, 0), [Bought(OrderStatus.Refunded, 10, true)], [Released], [Asked(Approved, true), Asked(Finished, true)])
  }

  function BoughtAgain(): World
  {
    OnceSettled().(orders := [Bought(OrderStatus.Refunded, 10, true), Bought(PendingPayment, 10, false)], coupons := [Locked])
  }

  lemma AgreeingToBoth()
    ensures Next(AgreedTwice(10), Agree(0)) == BothAgreed()
  {
    TwoRefunds(Asked(Failed, true), Asked(Approved, true), Reserved);
    assert Priced(AgreedTwice(10), 0, true, []) == Some(Asked(Approved, true));
  }

  lemma GivingBack()
    ensures GiveBack(Shelf(1, 1), Basket(Some(Legacy))) == Shelf(2, 0)
  {
    var line := Line(TEA, 1, 5, Some(Legacy));
    assert Basket(Some(Legacy))[..0] == [] && GiveBack(Shelf(1, 1), []) == Shelf(1, 1);
    assert Shift(Product(1, 0, 1, None, None), -1) == Product(2, 0, 0, None, None);
    assert Shelf(1, 1).products[TEA := Product(2, 0, 0, None, None)] == Shelf(2, 0).products;
    assert GiveBackLine(Shelf(1, 1), line) == Shelf(2, 0);
  }

  lemma SettlingOne()
    ensures Next(BothAgreed(), Finish(1)) == OnceSettled()
  {
    GivingBack();
  }

  lemma SettlingOther()
    ensures !HoldersAgree(Next(BoughtAgain(), Finish(0)))
  {
    var v := Next(BoughtAgain(), Finish(0));
    assert v.coupons[0] == Released && v.orders[1] == Bought(PendingPayment, 10, false) && Holds(v.orders[1], 0);
  }

  function ToOnceSettled(): seq<Step>
  {
    ToAgreedTwice(10) + [Agree(0)] + [Finish(1)]
  }

  lemma GettingOnceSettled()
    ensures Leads(Empty(), ToOnceSettled(), OnceSettled())
  {
    GettingAgreedTwice(10);
    AgreeingToBoth();
    SettlingOne();
    LeadsMore(Empty(), ToAgreedTwice(10), AgreedTwice(10), Agree(0), BothAgreed());
    LeadsMore(Empty(), ToAgreedTwice(10) + [Agree(0)], BothAgreed(), Finish(1), OnceSettled());
  }

  lemma GettingBoughtAgain()
    ensures Leads(Empty(), ToOnceSettled() + [Buy(10)], BoughtAgain())
  {
    GettingOnceSettled();
    assert Next(OnceSettled(), Buy(10)) == BoughtAgain();
    LeadsMore(Empty(), ToOnceSettled(), OnceSettled(), Buy(10), BoughtAgain());
  }

  lemma FineFromEmpty(steps: seq<Step>)
    requires HonestRun(Empty(), steps)
    ensures Sound(Run(Empty(), steps)) && UnderCeiling(Run(Empty(), steps))
  {
    EmptyIsFine();
    RefundsNeverExceedPayment(Empty(), steps);
  }

  /**
   Two whole-order refunds of one order are both agreed, since both may draw on the delivery fee. The
   first to settle frees the coupon, the shopper orders again with it, and the second takes it away.
   */
  lemma RepeatedReleaseTakesAHeldCoupon() returns (steps: seq<Step>)
    ensures HonestRun(Empty(), steps) && Sound(Run(Empty(), steps)) && UnderCeiling(Run(Empty(), steps))
    ensures !HoldersAgree(Run(Empty(), steps))
  {
    GettingBoughtAgain();
    SettlingOther();
    steps := ToOnceSettled() + [Buy(10)] + [Finish(0)];
    LeadsMore(Empty(), ToOnceSettled() + [Buy(10)], BoughtAgain(), Finish(0), Next(BoughtAgain(), Finish(0)));
    FineFromEmpty(steps);
  }

  // ----- a frozen order keeps its coupon locked -----

  /** Money arrives for an order whose payment fails: the order is frozen and its coupon is nobody's, and locked. */
  lemma FrozenOrderStrandsItsCoupon() returns (steps: seq<Step>)
    ensures HonestRun(Empty(), steps) && HoldersAgree(Run(Empty(), steps)) && !NoneStranded(Run(Empty(), steps))
  {
    EmptyIsFine();
    Ordering(0);
    var w := Ordered(0);
    RefundsNeverExceedPayment(Empty(), [GrantCoupon, Buy(0)]);
    assert Holds(w.orders[0], 0);
    FreezeStrands(w, Freeze(0));
    FreezeSettles(w, 0);
    steps := [GrantCoupon, Buy(0)] + [Freeze(0)];
    LeadsMore(Empty(), [GrantCoupon, Buy(0)], w, Freeze(0), Next(w, Freeze(0)));
  }

  // ----- a finished refund is erased -----

  function AsEvents(steps: seq<Step>): (es: seq<Event>)
    ensures |es| == |steps| && forall i :: 0 <= i < |steps| ==> es[i] == Lawful(steps[i])
  {
    seq(|steps|, i requires 0 <= i < |steps| => Lawful(steps[i]))
  }

  lemma {:induction false} LawfulRun(w: World, steps: seq<Step>)
    ensures RunEvents(w, AsEvents(steps)) == Run(w, steps)
    ensures HonestEvents(w, AsEvents(steps)) <==> HonestRun(w, steps)
  {
    if steps != [] {
      var init := steps[..|steps| - 1];
      LawfulRun(w, init);
      assert AsEvents(steps)[..|steps| - 1] == AsEvents(init);
    }
  }

  function SettledAlone(): World
  {
    World(Shelf(2, 0), [Bought(OrderStatus.Refunded, 0, true)], [Released], [Asked(Finished, true)])
  }

  lemma SettlingAlone()
    ensures Next(AgreedOnce(0), Finish(0)) == SettledAlone()
  {
    GivingBack();
  }

  /**
   The shopper's withdrawal finds the refund pending; before it writes, the refund is agreed and
   settled. The write erases it: the order's record of money paid back falls to nothing.
   */
  lemma LateWithdrawalErasesAFinishedRefund() returns (read: seq<Step>, steps: seq<Step>)
    ensures read <= steps && HonestRun(Empty(), steps)
    ensures IsRefund(Run(Empty(), read), 0) && Passes(Withdrawing(0), Run(Empty(), read).refunds[0].status)
    ensures RefundTotal(Run(Empty(), steps).refunds, Settled, 0) == 4
    ensures HonestEvents(Empty(), AsEvents(steps) + [Late(Withdrawing(0))])
    ensures RefundTotal(RunEvents(Empty(), AsEvents(steps) + [Late(Withdrawing(0))]).refunds, Settled, 0) == 0
  {
    read, steps := ToAsked(0), ToSettledAlone();
    GettingAsked(0);
    GettingSettledAlone();
    LawfulRun(Empty(), steps);
    var es := AsEvents(steps) + [Late(Withdrawing(0))];
    assert es[..|es| - 1] == AsEvents(steps);
    ErasingIt();
  }

  function ToSettledAlone(): seq<Step>
  {
    ToAsked(0) + [Agree(0)] + [Finish(0)]
  }

  lemma GettingSettledAlone()
    ensures Leads(Empty(), ToSettledAlone(), SettledAlone())
  {
    GettingAsked(0);
    Agreeing(0);
    SettlingAlone();
    LeadsMore(Empty(), ToAsked(0), AskedOnce(0), Agree(0), AgreedOnce(0));
    LeadsMore(Empty(), ToAsked(0) + [Agree(0)], AgreedOnce(0), Finish(0), SettledAlone());
  }

  lemma ErasingIt()
    ensures RefundTotal(SettledAlone().refunds, Settled, 0) == 4
    ensures RefundTotal(Write(SettledAlone(), Withdrawing(0)).refunds, Settled, 0) == 0
  {
    OneRefund(Asked(Finished, true), Settled);
    OneRefund(Asked(Withdrawn, true), Settled);
    assert Write(SettledAlone(), Withdrawing(0)).refunds == [Asked(Withdrawn, true)];
  }

  // ----- a refusal loses progress -----

  /** The back office's own refund of the whole order, opened while it was paid. */
  function Queued(status: RefundStatus, withFee: bool): Refund
  {
    Refund(0, PreDelivery, 5, withFee, Some(Paid), status, [])
  }

  const QUEUE: Step := OpenWholeRefund(0, Paid, [])
  const PICK: Step := Fulfil(0, Paid, Picking)

  /** It does not hold the order, and the warehouse starts picking. */
  lemma PickedWhileQueued() returns (steps: seq<Step>)
    ensures Leads(Empty(), steps, PaidFor(Picking, 10, [Queued(Pending, false)]))
  {
    GettingPaid(10);
    assert Next(PaidFor(Paid, 10, []), QUEUE) == PaidFor(Paid, 10, [Queued(Pending, false)]);
    LeadsMore(Empty(), ToPaid(10), PaidFor(Paid, 10, []), QUEUE, PaidFor(Paid, 10, [Queued(Pending, false)]));
    LeadsMore(Empty(), ToPaid(10) + [QUEUE], PaidFor(Paid, 10, [Queued(Pending, false)]), PICK, PaidFor(Picking, 10, [Queued(Pending, false)]));
    steps := ToPaid(10) + [QUEUE] + [PICK];
  }

  lemma QueuedAgreed()
    ensures Next(PaidFor(Picking, 10, [Queued(Pending, false)]), Approve(0, Picking, Some(true), false, []))
         == PaidFor(AfterSales, 10, [Queued(Approved, true)])
  {
    OneRefund(Queued(Pending, false), Reserved);
    assert Priced(PaidFor(Picking, 10, [Queued(Pending, false)]), 0, true, []) == Some(Queued(Approved, true));
  }

  lemma QueuedRefused()
    ensures Next(PaidFor(AfterSales, 10, [Queued(Approved, true)]), Refuse(0)) == PaidFor(Paid, 10, [Queued(Failed, true)])
  {
  }

  /** The refund is approved while the order is being picked, and refused by the channel: the order goes back to paid. */
  lemma RefusalCanLoseProgress() returns (steps: seq<Step>, hold: Step, undo: Step)
    ensures HonestRun(Empty(), steps) && LosesProgress(Run(Empty(), steps), hold, undo, 0, 0)
    ensures Run(Empty(), steps).orders[0].status == Picking
  {
    steps := PickedWhileQueued();
    hold, undo := Approve(0, Picking, Some(true), false, []), Refuse(0);
    QueuedAgreed();
    QueuedRefused();
    FineFromEmpty(steps);
  }
}
