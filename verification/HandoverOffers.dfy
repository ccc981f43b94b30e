/** What an order card offers: every offer is accepted, and offers never run out before delivery. */
module HandoverOffers {
  import opened Sums
  import opened OrderState
  import opened Timeline
  import opened Handover
  import Trade

  const FULL: Evidence := Evidence(true, true)

  /** An offered action, taken with its evidence while the row stands as read, always goes through. */
  lemma OffersAreAccepted(seen: Task, staff: Staff, address: Address, action: Action, at: int)
    requires action in Actions(staff.role, seen, staff.id)
    requires IsManager(staff) ==> OwnBuilding(staff, address)
    ensures UpdateTask(seen, seen, staff, address, action, FULL, at).Some?
  {
  }

  predicate AlongAnEdge(before: OrderStatus, after: OrderStatus)
  {
    before == after || Trade.FulfilmentEdge(before, after)
  }

  lemma ActFollowsTheEdges(now: Task, seen: Task, staff: Staff, address: Address, action: Action, evidence: Evidence, at: int)
    requires UpdateTask(now, seen, staff, address, action, evidence, at).Some?
    ensures AlongAnEdge(now.status, UpdateTask(now, seen, staff, address, action, evidence, at).value.status)
  {
  }

  /** Every commit of the hand-over moves the order along an edge of the shop's own state machine. */
  lemma CommitsFollowTheEdges(h: History, e: Event, address: Address)
    requires Effect(h, e, address).Some? && !e.GoOut?
    ensures AlongAnEdge(Now(h).status, Effect(h, e, address).value.status)
  {
    if e.Act? {
      ActFollowsTheEdges(Now(h), h[e.seen], e.staff, address, e.action, e.evidence, e.at);
    }
  }

  predicate InFlight(t: Task)
  {
    t.status in {WaitingFirstMile, Arrived, FirstMile, WaitingHandover, LastMile}
  }

  /** Goods picked up downstairs are never handed to a manager. */
  predicate KeepsRoute(t: Task)
  {
    t.route == Some(CustomerPickup) ==> t.status !in {WaitingHandover, LastMile}
  }

  ghost predicate RoutesKept(h: History)
  {
    Lawful(h) && forall i :: 0 <= i < |h| ==> KeepsRoute(h[i])
  }

  lemma EventKeepsRoutes(h: History, e: Event, address: Address)
    requires RoutesKept(h) && Offered(h, e)
    ensures RoutesKept(Extend(h, e, address))
  {
    EventLawful(h, e, address);
    if Effect(h, e, address).Some? {
      var now, seen := Now(h), h[e.seen];
      assert KeepsRoute(now) && RiderKnown(now) && RiderKnown(seen) && KeepsRoute(seen);
      assert seen.route.Some? ==> seen.route == now.route;
      assert KeepsRoute(Effect(h, e, address).value);
    }
  }

  lemma {:induction false} OfferedRunsKeepRoutes(h: History, es: seq<Event>, address: Address)
    requires RoutesKept(h) && OfferedRun(h, es, address)
    ensures RoutesKept(Run(h, es, address))
  {
    if es != [] {
      OfferedRunsKeepRoutes(h, es[..|es| - 1], address);
      EventKeepsRoutes(Run(h, es[..|es| - 1], address), es[|es| - 1], address);
    }
  }

  /** How many offered actions are still to come. */
  function Remaining(t: Task): nat
  {
    var pickup := t.route == Some(CustomerPickup);
    match t.status
    case WaitingFirstMile => (if t.rider.None? then 1 else 0) + (if pickup then 3 else 5)
    case Arrived => if pickup then 2 else 4
    case FirstMile => if pickup then 1 else 3
    case WaitingHandover => 2
    case LastMile => 1
    case _ => 0
  }

  function RiderStaff(id: StaffId): Staff
  {
    Staff(id, Rider, None, "")
  }

  /** Who should do what next. */
  function NextMove(t: Task, grabber: StaffId, manager: Staff): (Staff, Action)
    requires InFlight(t) && RiderKnown(t)
  {
    match t.status
    case WaitingFirstMile =>
      if t.rider.None? then (RiderStaff(grabber), Accept) else (RiderStaff(t.rider.value), Arrive)
    case Arrived => (RiderStaff(t.rider.value), Depart)
    case FirstMile =>
      (RiderStaff(t.rider.value), if t.route == Some(CustomerPickup) then Deliver else Arrive)
    case WaitingHandover => (manager, Receive)
    case _ => (manager, Deliver)
  }

  predicate ManagerAtHand(t: Task, manager: Staff, address: Address)
  {
    t.route != Some(CustomerPickup) ==> IsManager(manager) && OwnBuilding(manager, address)
  }

  lemma NextMoveAdvances(t: Task, grabber: StaffId, manager: Staff, address: Address, at: int)
    requires InFlight(t) && RiderKnown(t) && KeepsRoute(t) && ManagerAtHand(t, manager, address)
    ensures var (staff, action) := NextMove(t, grabber, manager);
            var x := UpdateTask(t, t, staff, address, action, FULL, at);
            && action in Actions(staff.role, t, staff.id)
            && x.Some? && Remaining(x.value) == Remaining(t) - 1
            && RiderKnown(x.value) && KeepsRoute(x.value) && x.value.route == t.route
            && (InFlight(x.value) || x.value.status == Delivered)
  {
  }

  lemma {:induction false} RunAppend(h: History, es: seq<Event>, more: seq<Event>, address: Address)
    ensures Run(h, es + more, address) == Run(Run(h, es, address), more, address)
    ensures OfferedRun(h, es + more, address) <==> OfferedRun(h, es, address) && OfferedRun(Run(h, es, address), more, address)
  {
    if more == [] {
      assert es + more == es;
    } else {
      RunAppend(h, es, more[..|more| - 1], address);
      assert (es + more)[..|es + more| - 1] == es + more[..|more| - 1];
    }
  }

  lemma RunFromFirst(h: History, e: Event, es: seq<Event>, address: Address)
    requires Offered(h, e) && OfferedRun(Extend(h, e, address), es, address)
    ensures Run(h, [e] + es, address) == Run(Extend(h, e, address), es, address)
    ensures OfferedRun(h, [e] + es, address)
  {
    assert [e][..0] == [] && Run(h, [], address) == h;
    assert Run(h, [e], address) == Extend(h, e, address) && OfferedRun(h, [e], address);
    RunAppend(h, [e], es, address);
  }

  /**
   Offers never run out: from every row a run of offered actions can reach in flight, at most six
   further offered actions deliver the order, given any rider for the pool and, on the manager
   route, a manager of the building.
   */
  lemma {:induction false} NeverADeadEnd(h: History, grabber: StaffId, manager: Staff, address: Address, at: int)
    returns (es: seq<Event>)
    requires RoutesKept(h) && (InFlight(Now(h)) || Now(h).status == Delivered)
    requires ManagerAtHand(Now(h), manager, address)
    ensures |es| == Remaining(Now(h)) <= 6
    ensures OfferedRun(h, es, address) && Now(Run(h, es, address)).status == Delivered
    decreases Remaining(Now(h))
  {
    if Now(h).status == Delivered {
      es := [];
    } else {
      var t := Now(h);
      assert RiderKnown(t) && KeepsRoute(t);
      NextMoveAdvances(t, grabber, manager, address, at);
      var (staff, action) := NextMove(t, grabber, manager);
      var e := Act(staff, action, FULL, |h| - 1, at);
      EventLawful(h, e, address);
      var h1 := Extend(h, e, address);
      assert Now(h1) == UpdateTask(t, t, staff, address, action, FULL, at).value;
      var rest := NeverADeadEnd(h1, grabber, manager, address, at);
      RunFromFirst(h, e, rest, address);
      es := [e] + rest;
    }
  }

  /** A delivered order that tells the truth shows every node of its route. */
  lemma DeliveredShowsAll(t: seq<Node>, route: Option<Route>)
    requires Tells(t, Delivered, route)
    ensures DoneKeys(t) == RouteKeys(route)
  {
    ProgressIsAPrefix(t, Delivered, route);
    var last := |RouteKeys(route)| - 1;
    assert Rank(RouteKeys(route)[last]) < Level(Delivered);
    assert last < |DoneKeys(t)|;
  }

  lemma NewOrderKeepsAll(at: int, es: seq<Event>, address: Address)
    requires OfferedRun(NewOrder(at), es, address)
    ensures var h := Run(NewOrder(at), es, address); RoutesKept(h) && Truthful(h)
  {
    NewOrderIsFresh(at);
    FreshIsTruthful(NewOrder(at));
    OfferedRunsAreTruthful(NewOrder(at), es, address);
    OfferedRunsKeepRoutes(NewOrder(at), es, address);
  }

  /**
   From payment to the door: whatever offered actions a paid order has been through, on whatever stale
   reads, its timeline tells its status; and while it is in flight, at most six more offered actions
   deliver it, after which the timeline shows every node of its route.
   */
  lemma PaidOrdersGetDelivered(paidAt: int, es: seq<Event>, grabber: StaffId, manager: Staff, address: Address, at: int)
    returns (more: seq<Event>)
    requires OfferedRun(NewOrder(paidAt), es, address)
    requires ManagerAtHand(Now(Run(NewOrder(paidAt), es, address)), manager, address)
    ensures var t := Now(Run(NewOrder(paidAt), es, address)); Tells(t.timeline, t.status, t.route)
    ensures InFlight(Now(Run(NewOrder(paidAt), es, address))) ==>
              var x := Now(Run(NewOrder(paidAt), es + more, address));
              && |more| <= 6 && OfferedRun(NewOrder(paidAt), es + more, address)
              && x.status == Delivered && DoneKeys(x.timeline) == RouteKeys(x.route)
  {
    var h := Run(NewOrder(paidAt), es, address);
    NewOrderKeepsAll(paidAt, es, address);
    more := [];
    if InFlight(Now(h)) {
      more := NeverADeadEnd(h, grabber, manager, address, at);
      RunAppend(NewOrder(paidAt), es, more, address);
      NewOrderKeepsAll(paidAt, es + more, address);
      var x := Now(Run(NewOrder(paidAt), es + more, address));
      DeliveredShowsAll(x.timeline, x.route);
    }
  }
}
