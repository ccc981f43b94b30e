/** Which settlements reach the couriers' pay: those of refunds after delivery, one slip each. */
module ClawbackSlips {
  import opened Sums
  import opened OrderState
  import opened Trade
  import opened TradeSafety
  import opened TradeSettled
  import TradeRaces
  import opened Clawback

  /** Refunds after delivery that were paid back, of one order. */
  function PaidBackAfterDelivery(rs: seq<Refund>, o: nat): nat
  {
    if rs == [] then 0 else PaidBackAfterDelivery(rs[..|rs| - 1], o) + One(rs[|rs| - 1], o)
  }

  function One(rf: Refund, o: nat): nat
  {
    if rf.order == o && rf.source == AfterSale && rf.status == Finished then 1 else 0
  }

  function SlipsFor(slips: seq<Slip>, o: nat): nat
  {
    if slips == [] then 0 else SlipsFor(slips[..|slips| - 1], o) + if slips[|slips| - 1].order == o then 1 else 0
  }

  lemma {:induction false} PaidBackAfterUpdate(rs: seq<Refund>, r: nat, rf: Refund, o: nat)
    requires r < |rs|
    ensures PaidBackAfterDelivery(rs[r := rf], o) == PaidBackAfterDelivery(rs, o) - One(rs[r], o) + One(rf, o)
  {
    var last := |rs| - 1;
    if r == last {
      assert rs[r := rf][..last] == rs[..last];
    } else {
      PaidBackAfterUpdate(rs[..last], r, rf, o);
      assert rs[r := rf][..last] == rs[..last][r := rf];
    }
  }

  lemma RewriteCounts(w: World, k: nat, status: OrderStatus, r: nat, rf: Refund, o: nat)
    requires k < |w.orders| && r <= |w.refunds| && (r < |w.refunds| ==> w.refunds[r].status != Finished)
    ensures PaidBackAfterDelivery(Rewrite(w, k, status, r, rf).refunds, o) == PaidBackAfterDelivery(w.refunds, o) + One(rf, o)
  {
    if r < |w.refunds| {
      PaidBackAfterUpdate(w.refunds, r, rf, o);
    } else {
      assert (w.refunds + [rf])[..r] == w.refunds;
    }
  }

  lemma SlipsMore(slips: seq<Slip>, slip: Slip, o: nat)
    ensures SlipsFor(slips + [slip], o) == SlipsFor(slips, o) + if slip.order == o then 1 else 0
  {
    assert (slips + [slip])[..|slips|] == slips;
  }

  lemma ServeCounts(d: Desk, s: Step, o: nat)
    requires Sound(d.world) && Honest(d.world, s)
    ensures var v := After(d, Serve(s));
            SlipsFor(v.slips, o) - SlipsFor(d.slips, o)
              == PaidBackAfterDelivery(v.world.refunds, o) - PaidBackAfterDelivery(d.world.refunds, o)
  {
    var w := d.world;
    assert d.slips + [] == d.slips;
    if !Perform(w, s).Committed? {
    } else if IsRefundStep(s) {
      var k, status, r, rf := RefundStepShape(w, s);
      RewriteCounts(w, k, status, r, rf, o);
    } else if s.Finish? {
      var k, status, rf := FinishShape(w, s.refund);
      RewriteCounts(w, k, status, s.refund, rf, o);
      if LeavesSlip(w, s) { SlipsMore(d.slips, SlipOf(w, s.refund), o); }
    } else {
      ShopStepKeepsRefunds(w, s);
    }
  }

  /**
   Over every run without late writes, an order gets as many slips as refunds after delivery were paid
   back on it: none for a whole-order refund, none for a replay, and none is left out.
   */
  lemma {:induction false} EverySettlementLeavesOneSlip(w: World, es: seq<Event>, o: nat)
    requires Sound(w) && HonestEvents(w, es) && NothingLate(es)
    ensures var d := RunDesk(w, es);
            PaidBackAfterDelivery(w.refunds, o) + SlipsFor(d.slips, o) == PaidBackAfterDelivery(d.world.refunds, o)
  {
    if es != [] {
      var init, last := es[..|es| - 1], es[|es| - 1];
      EverySettlementLeavesOneSlip(w, init, o);
      DeskStaysSound(w, init);
      if last.Serve? {
        ServeCounts(RunDesk(w, init), last.step, o);
      }
    }
  }

  predicate BooksApart(d: Desk)
  {
    && (forall i :: 0 <= i < |d.booked| ==> d.booked[i] < |d.slips|)
    && (forall i, j :: 0 <= i < j < |d.booked| ==> d.booked[i] != d.booked[j])
  }

  lemma EventBooksApart(d: Desk, e: Event)
    requires BooksApart(d)
    ensures BooksApart(After(d, e))
  {
    match e
    case Serve(s) => assert |After(d, e).slips| >= |d.slips|;
    case Late(_) =>
    case Book(k, _) => assert k in d.booked <==> exists i :: 0 <= i < |d.booked| && d.booked[i] == k;
    case Record(_, _, _, _) =>
  }

  /** No slip is ever booked twice, and only slips that were written are. */
  lemma {:induction false} BookedOnce(w: World, es: seq<Event>)
    ensures BooksApart(RunDesk(w, es))
  {
    if es != [] {
      BookedOnce(w, es[..|es| - 1]);
      EventBooksApart(RunDesk(w, es[..|es| - 1]), es[|es| - 1]);
    }
  }

  // ----- the shop beside the payroll -----

  /** What of a run concerns the shop's tables. */
  function OfTheShop(es: seq<Event>): seq<TradeRaces.Event>
  {
    if es == [] then []
    else
      OfTheShop(es[..|es| - 1]) + match es[|es| - 1]
        case Serve(s) => [TradeRaces.Lawful(s)]
        case Late(u) => [TradeRaces.Late(u)]
        case _ => []
  }

  /** Bookings and deliveries recorded leave the shop's tables alone: they are where its own events put them, late writes included. */
  lemma {:induction false} PayrollLeavesTheShop(w: World, es: seq<Event>)
    ensures RunDesk(w, es).world == TradeRaces.RunEvents(w, OfTheShop(es))
    ensures HonestEvents(w, es) <==> TradeRaces.HonestEvents(w, OfTheShop(es))
  {
    if es != [] {
      var init, last := es[..|es| - 1], es[|es| - 1];
      PayrollLeavesTheShop(w, init);
      var before, after := OfTheShop(init), OfTheShop(es);
      assert last.Serve? || last.Late? ==> after[..|after| - 1] == before;
      assert last.Book? || last.Record? ==> after == before;
    }
  }
}
