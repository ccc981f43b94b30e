/** Refunds that put a delivery back to where it no longer is. */
module HoldStory {
  import opened Sums
  import opened OrderState
  import opened Timeline
  import opened Handover
  import opened HandoverOffers
  import opened HandoverStories
  import opened HandoverHolds

  lemma RunOne(xs: Log, ms: seq<Move>, m: Move)
    ensures RunMoves(xs, ms + [m], HOME) == Extended(RunMoves(xs, ms, HOME), m, HOME)
  {
    assert (ms + [m])[..|ms + [m]| - 1] == ms;
  }

  /** Held as it stands, and put back to `to`. */
  lemma HeldAndPutBack(h: History, to: OrderStatus)
    requires RestoreTarget(Some(to)) == to
    ensures var held := Extended(Free(h), Hold(|h| - 1), HOME);
            && held == Free(h) + [Entry(Now(h), true)]
            && Extended(held, WriteBack(to), HOME) == held + [Entry(Now(h).(status := to), false)]
  {
  }

  /** A hold on the last row of a run, and a write-back of another status. */
  function Rewound(es: seq<Event>, to: OrderStatus): seq<Move>
  {
    Works(es) + [Hold(|Run(NewOrder(0), es, HOME)| - 1)] + [WriteBack(to)]
  }

  lemma RewoundRun(es: seq<Event>, to: OrderStatus)
    requires RestoreTarget(Some(to)) == to
    ensures var h := Run(NewOrder(0), es, HOME);
            RunMoves(Free(NewOrder(0)), Rewound(es, to), HOME)
              == Free(h) + [Entry(Now(h), true)] + [Entry(Now(h).(status := to), false)]
  {
    var h, ms := Run(NewOrder(0), es, HOME), Works(es);
    NoHoldsNoChange(NewOrder(0), es, HOME);
    RunOne(Free(NewOrder(0)), ms, Hold(|h| - 1));
    RunOne(Free(NewOrder(0)), ms + [Hold(|h| - 1)], WriteBack(to));
    HeldAndPutBack(h, to);
  }

  /** Where it ends: the row as held, at the other status, with its timeline behind or ahead unless the nodes agree. */
  lemma RewoundRow(es: seq<Event>, to: OrderStatus)
    requires OfferedRun(NewOrder(0), es, HOME) && RestoreTarget(Some(to)) == to
    ensures var t := Now(Run(NewOrder(0), es, HOME));
            && Now(Stored(RunMoves(Free(NewOrder(0)), Rewound(es, to), HOME))) == t.(status := to)
            && (Tells(t.timeline, to, t.route) <==> SameNodes(t.status, to, t.route))
  {
    var h := Run(NewOrder(0), es, HOME);
    RewoundRun(es, to);
    NewOrderKeepsAll(0, es, HOME);
    NowInOrder(h);
    TellsAnother(Now(h).timeline, Now(h).status, to, Now(h).route);
  }

  /**
   A whole-order refund is opened while the order is on the road, where it holds nothing. The rider
   hands the order back to the pool; then the refund is approved, and refused by the channel. The order
   is on the road again and has no rider, its timeline says otherwise, and nobody is offered anything.
   */
  lemma PutBackOnTheRoad() returns (es: seq<Event>)
    ensures OfferedRun(NewOrder(0), es, HOME) && Now(Run(NewOrder(0), es, HOME)).status == WaitingFirstMile
    ensures var t := Now(Stored(RunMoves(Free(NewOrder(0)), Rewound(es, FirstMile), HOME)));
            && t.status == FirstMile && t.rider.None? && !Tells(t.timeline, t.status, t.route)
            && forall role, viewer :: Actions(role, t, viewer) == {}
  {
    var h, steps := HandedBack();
    es := steps;
    RewoundRow(es, FirstMile);
    SameNodesSameLevel(WaitingFirstMile, FirstMile, Some(ViaManager));
    OnTheRoadNeedsItsRider(Now(h).(status := FirstMile));
  }

  /** The same refund opened before outbound: the order is paid again, with its picking node lit and its route fixed. */
  lemma PutBackInTheHouse() returns (es: seq<Event>)
    ensures OfferedRun(NewOrder(0), es, HOME) && Now(Run(NewOrder(0), es, HOME)).status == WaitingFirstMile
    ensures var t := Now(Stored(RunMoves(Free(NewOrder(0)), Rewound(es, Paid), HOME)));
            t.status == Paid && t.route.Some? && !Tells(t.timeline, t.status, t.route)
  {
    var h := GoingOut();
    es := [] + [GoOut(0, true, 0)];
    RewoundRow(es, Paid);
    SameNodesSameLevel(WaitingFirstMile, Paid, Some(ViaManager));
  }
}
