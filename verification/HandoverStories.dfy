/** Runs from a freshly paid order that leave its timeline behind. */
module HandoverStories {
  import opened Sums
  import opened OrderState
  import opened Timeline
  import opened Handover
  import opened HandoverOffers

  const HOME: Address := Address(Some(7), "")
  const KEEPER: Staff := Staff(9, Manager, Some(7), "")
  const COURIER: Staff := Staff(1, Rider, None, "")

  /** These offered events of a new manager-route order lead to this many rows and this latest one. */
  ghost predicate Leads(es: seq<Event>, h: History, rows: nat, status: OrderStatus, rider: Option<StaffId>)
  {
    && h == Run(NewOrder(0), es, HOME) && OfferedRun(NewOrder(0), es, HOME) && |h| == rows
    && Now(h).status == status && Now(h).rider == rider && Now(h).route == Some(ViaManager) && !Now(h).handedOver
  }

  function Does(action: Action, seen: nat): Event
  {
    Act(COURIER, action, FULL, seen, 0)
  }

  lemma RunMore(es: seq<Event>, e: Event)
    ensures Run(NewOrder(0), es + [e], HOME) == Extend(Run(NewOrder(0), es, HOME), e, HOME)
    ensures OfferedRun(NewOrder(0), es + [e], HOME) <==> OfferedRun(NewOrder(0), es, HOME) && Offered(Run(NewOrder(0), es, HOME), e)
  {
    assert (es + [e])[..|es + [e]| - 1] == es;
  }

  lemma LeadsMore(es: seq<Event>, h: History, rows: nat, status: OrderStatus, rider: Option<StaffId>, e: Event, x: Task)
    requires Leads(es, h, rows, status, rider) && Offered(h, e) && Effect(h, e, HOME) == Some(x)
    requires x.route == Some(ViaManager) && !x.handedOver
    ensures Leads(es + [e], h + [x], rows + 1, x.status, x.rider)
  {
    RunMore(es, e);
  }

  lemma GoingOut() returns (h: History)
    ensures Leads([] + [GoOut(0, true, 0)], h, 2, WaitingFirstMile, None)
  {
    RunMore([], GoOut(0, true, 0));
    h := Extend(NewOrder(0), GoOut(0, true, 0), HOME);
  }

  function NextRider(action: Action): Option<StaffId>
  {
    if action == Transfer then None else Some(1)
  }

  lemma RiderMoves(t: Task, action: Action) returns (x: Task)
    requires t.route == Some(ViaManager) && !t.handedOver
    requires action in Actions(Rider, t, 1) && action in {Accept, Arrive, Depart, Transfer}
    ensures UpdateTask(t, t, COURIER, HOME, action, FULL, 0) == Some(x)
    ensures x.status == NextStatus(t.status, action) && x.rider == NextRider(action)
    ensures x.route == Some(ViaManager) && !x.handedOver
  {
    x := UpdateTask(t, t, COURIER, HOME, action, FULL, 0).value;
  }

  /** One offered action of the rider on the latest row. */
  lemma Going(es: seq<Event>, h: History, rows: nat, status: OrderStatus, rider: Option<StaffId>, action: Action)
    returns (more: History)
    requires Leads(es, h, rows, status, rider) && action in Actions(Rider, Now(h), 1)
    requires action in {Accept, Arrive, Depart, Transfer}
    ensures Leads(es + [Does(action, rows - 1)], more, rows + 1, NextStatus(status, action), NextRider(action))
    ensures |more| == rows + 1 && more[..rows] == h
  {
    var x := RiderMoves(Now(h), action);
    var e := Does(action, rows - 1);
    assert Effect(h, e, HOME) == Some(x);
    LeadsMore(es, h, rows, status, rider, e, x);
    more := h + [x];
  }

  function NextStatus(status: OrderStatus, action: Action): OrderStatus
  {
    match action
    case Arrive => if status == WaitingFirstMile then Arrived else WaitingHandover
    case Depart => FirstMile
    case _ => WaitingFirstMile
  }

  /** Out of the warehouse and taken by a rider. */
  lemma Taken() returns (h: History, es: seq<Event>)
    ensures Leads(es, h, 3, WaitingFirstMile, Some(1))
  {
    var h1 := GoingOut();
    var es1 := [] + [GoOut(0, true, 0)];
    h := Going(es1, h1, 2, WaitingFirstMile, None, Accept);
    es := es1 + [Does(Accept, 1)];
  }

  /** At the shop, and on the road. */
  lemma OnTheRoad() returns (h: History, es: seq<Event>)
    ensures Leads(es, h, 5, FirstMile, Some(1))
  {
    var h2, es2 := Taken();
    var h3 := Going(es2, h2, 3, WaitingFirstMile, Some(1), Arrive);
    var es3 := es2 + [Does(Arrive, 2)];
    h := Going(es3, h3, 4, Arrived, Some(1), Depart);
    es := es3 + [Does(Depart, 3)];
  }

  lemma OnlyTheLastRow(h: History, e: Event)
    requires Truthful(h) && Effect(h, e, HOME).Some? && !Truthful(Extend(h, e, HOME))
    ensures var t := Now(Extend(h, e, HOME)); !Tells(t.timeline, t.status, t.route)
  {
  }

  lemma ReceiveTaken(t: Task)
    requires t.status == FirstMile && t.route == Some(ViaManager)
    ensures UpdateTask(t, t, KEEPER, HOME, Receive, FULL, 0) == Some(t.(status := LastMile, timeline := Mark(t.timeline, LastMile, 0)))
  {
  }

  lemma ReceivedFromTheRoad(h: History)
    requires Lawful(h) && Truthful(h) && Now(h).status == FirstMile && Now(h).route == Some(ViaManager)
    ensures var x := Extend(h, Act(KEEPER, Receive, FULL, |h| - 1, 0), HOME);
            Now(x).status == LastMile && !Tells(Now(x).timeline, LastMile, Now(x).route)
  {
    var e := Act(KEEPER, Receive, FULL, |h| - 1, 0);
    ReceiveTaken(Now(h));
    assert Effect(h, e, HOME) == Some(Now(h).(status := LastMile, timeline := Mark(Now(h).timeline, LastMile, 0)));
    TruthfulUnlessSkipped(h, e, HOME);
    OnlyTheLastRow(h, e);
  }

  /** The manager takes the goods from a rider still on the road: the hand-over node stays dark behind the next. */
  lemma ReceiveFromTheRoadSkips() returns (es: seq<Event>)
    ensures var t := Now(Run(NewOrder(0), es, HOME)); t.status == LastMile && !Tells(t.timeline, t.status, t.route)
  {
    var h, before := OnTheRoad();
    NewOrderKeepsAll(0, before, HOME);
    ReceivedFromTheRoad(h);
    RunMore(before, Act(KEEPER, Receive, FULL, 4, 0));
    es := before + [Act(KEEPER, Receive, FULL, 4, 0)];
  }

  lemma ScannedFromTheRoad(h: History)
    requires Lawful(h) && Truthful(h) && |h| == 7 && h[4].status == FirstMile && h[4].rider == Some(1)
    requires Now(h).status == WaitingFirstMile && Now(h).rider == Some(1)
    ensures var x := Extend(h, Scan(1, 4, 0), HOME);
            Now(x).status == Arrived && !Tells(Now(x).timeline, Arrived, Now(x).route)
  {
    assert Effect(h, Scan(1, 4, 0), HOME) == ScanArrive(Now(h), h[4], 1, 0);
    TruthfulUnlessSkipped(h, Scan(1, 4, 0), HOME);
    OnlyTheLastRow(h, Scan(1, 4, 0));
  }

  /** Back in the pool. */
  lemma HandedBack() returns (h: History, es: seq<Event>)
    ensures Leads(es, h, 6, WaitingFirstMile, None) && h[4].status == FirstMile && h[4].rider == Some(1)
  {
    var h4, es4 := OnTheRoad();
    h := Going(es4, h4, 5, FirstMile, Some(1), Transfer);
    es := es4 + [Does(Transfer, 4)];
    assert h[..5][4] == h4[4];
  }

  /** And taken again by the same rider. */
  lemma TakenAgain() returns (h: History, es: seq<Event>)
    ensures Leads(es, h, 7, WaitingFirstMile, Some(1)) && h[4].status == FirstMile && h[4].rider == Some(1)
  {
    var h5, es5 := HandedBack();
    h := Going(es5, h5, 6, WaitingFirstMile, None, Accept);
    es := es5 + [Does(Accept, 5)];
    assert h[..6][4] == h5[4];
  }

  /** A scan prepared on the road, sent after the order went back to the pool and was taken again. */
  lemma ScanFromTheRoadSkips() returns (es: seq<Event>)
    ensures var t := Now(Run(NewOrder(0), es, HOME)); t.status == Arrived && !Tells(t.timeline, t.status, t.route)
  {
    var h, before := TakenAgain();
    NewOrderKeepsAll(0, before, HOME);
    ScannedFromTheRoad(h);
    RunMore(before, Scan(1, 4, 0));
    es := before + [Scan(1, 4, 0)];
  }
}
