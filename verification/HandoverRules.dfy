/** Who may move a delivery, how, and on what evidence: each commit of every run, and what a card offers of it. */
module HandoverRules {
  import opened Sums
  import opened OrderState
  import opened Timeline
  import opened Handover
  import opened HandoverOffers
  import Trade

  // ----- what an action needs and does -----

  /** Addresses with a building id belong to its staff; older ones to whoever works in a building of that name. */
  predicate WorksThere(staff: Staff, address: Address)
  {
    match address.buildingId
    case Some(id) => staff.buildingId == Some(id)
    case None => staff.building == address.buildingName
  }

  /** A manager, of the order's own building, takes it over or brings it to the door. */
  predicate ManagerMoves(t: Task, staff: Staff, address: Address, action: Action, evidence: Evidence, to: OrderStatus)
  {
    && staff.role in {Manager, InternManager} && WorksThere(staff, address)
    && (   (action == Receive && t.status in {FirstMile, WaitingHandover, LastMile} && to == LastMile)
        || (action == Deliver && t.status == LastMile && to == Delivered
            && (evidence.images || (evidence.reason && t.route != Some(CustomerPickup))))
        || (action in {Absent, Refuse} && t.status == LastMile && to == Exception))
  }

  /** A rider takes a free order in the pool, or moves the one that is theirs. */
  predicate RiderMoves(t: Task, staff: Staff, action: Action, evidence: Evidence, to: OrderStatus)
  {
    && staff.role == Rider
    && (   (action in {Accept, Grab} && t.status == WaitingFirstMile && t.rider == None && to == WaitingFirstMile)
        || (t.rider == Some(staff.id)
            && (   (action == Depart && t.status in {WaitingFirstMile, Arrived} && to == FirstMile)
                || (action == Arrive && t.status == WaitingFirstMile && to == Arrived)
                || (action == Arrive && t.status == FirstMile && to == WaitingHandover)
                || (action == HandOver && t.status in {WaitingHandover, LastMile} && to == t.status && evidence.images)
                || (action == Deliver && t.status == FirstMile && t.route == Some(CustomerPickup) && to == Delivered && evidence.images)
                || (action == Transfer && t.status in {WaitingFirstMile, FirstMile, WaitingHandover} && to == WaitingFirstMile))))
  }

  /** Whose hands the order is in afterwards. */
  function HolderAfter(t: Task, staff: Staff, action: Action): Option<StaffId>
  {
    if action in {Accept, Grab} then Some(staff.id) else if action == Transfer then None else t.rider
  }

  lemma ManagerActsExactlyWhen(t: Task, staff: Staff, address: Address, action: Action, evidence: Evidence, at: int, to: OrderStatus)
    requires staff.role != Rider
    ensures var x := UpdateTask(t, t, staff, address, action, evidence, at);
            ManagerMoves(t, staff, address, action, evidence, to) <==> x.Some? && x.value.status == to
  {
  }

  lemma RiderActsExactlyWhen(t: Task, staff: Staff, address: Address, action: Action, evidence: Evidence, at: int, to: OrderStatus)
    requires staff.role == Rider
    ensures var x := UpdateTask(t, t, staff, address, action, evidence, at);
            RiderMoves(t, staff, action, evidence, to) <==> x.Some? && x.value.status == to
  {
  }

  // ----- every commit of every run -----

  /** This change of the row is one its event may make. */
  predicate Accounted(before: Task, after: Task, e: Event, address: Address)
  {
    match e
    case GoOut(_, hasManager, _) =>
      && before.status in {Paid, Picking} && after.status == WaitingFirstMile && after.rider == before.rider
      && (after.route == Some(ViaManager) <==> hasManager) && (after.route == Some(CustomerPickup) <==> !hasManager)
    case Act(staff, action, evidence, _, _) =>
      && (ManagerMoves(before, staff, address, action, evidence, after.status)
          || RiderMoves(before, staff, action, evidence, after.status))
      && after.rider == HolderAfter(before, staff, action)
      && after.route == before.route
      && (action == HandOver ==> after.handedOver)
    case Scan(rider, _, _) =>
      && before.status == WaitingFirstMile && before.rider == Some(rider)
      && after.status == Arrived && after.rider == before.rider && after.route == before.route
    case Confirm(_, _) =>
      && before.status == Delivered && after.status == Completed && after.rider == before.rider && after.route == before.route
  }

  /** The two rows a commit is about were read off one order: same route once it is fixed. */
  predicate OfOneOrder(now: Task, seen: Task)
  {
    && RiderKnown(now) && RiderKnown(seen) && (seen.route.Some? ==> seen.route == now.route)
  }

  lemma ActAccounted(now: Task, seen: Task, e: Event, address: Address)
    requires OfOneOrder(now, seen) && e.Act? && EffectOn(now, seen, e, address).Some?
    ensures Accounted(now, EffectOn(now, seen, e, address).value, e, address)
  {
    var after := EffectOn(now, seen, e, address).value;
    if e.staff.role == Rider {
      assert RiderMoves(now, e.staff, e.action, e.evidence, after.status);
    } else {
      assert ManagerMoves(now, e.staff, address, e.action, e.evidence, after.status);
    }
  }

  lemma CommitAccounted(h: History, e: Event, address: Address)
    requires Lawful(h) && Effect(h, e, address).Some?
    ensures Accounted(Now(h), Effect(h, e, address).value, e, address)
  {
    assert RiderKnown(Now(h)) && RiderKnown(h[e.seen]);
    if e.Act? {
      ActAccounted(Now(h), h[e.seen], e, address);
    }
  }

  /**
   Every row of every run, whatever was read: a manager's is made by staff of the order's own building,
   a rider's by the rider whose order it is or who takes it out of the pool, each along that action's
   own way and with its photo or reason.
   */
  lemma EveryCommitIsAccountedFor(h: History, es: seq<Event>, address: Address, k: nat)
    requires Lawful(h) && k < |es|
    ensures var before, after := Run(h, es[..k], address), Run(h, es[..k + 1], address);
            after == before || (|after| == |before| + 1 && Accounted(Now(before), Now(after), es[k], address))
  {
    RunLawful(h, es[..k], address);
    assert es[..k + 1][..k] == es[..k];
    var before := Run(h, es[..k], address);
    if Effect(before, es[k], address).Some? {
      CommitAccounted(before, es[k], address);
    }
  }

  /** And no rider's action goes through that was decided on a row showing the order as somebody else's. */
  lemma NoActionOnAnothersRow(now: Task, seen: Task, staff: Staff, address: Address, action: Action, evidence: Evidence, at: int)
    requires staff.role == Rider && UpdateTask(now, seen, staff, address, action, evidence, at).Some?
    ensures seen.rider == None || seen.rider == Some(staff.id)
  {
  }

  // ----- what a card offers of it -----

  /** What would go through but no card offers: older ways, synonyms, and what the route or a hand-over made pointless. */
  predicate Withheld(t: Task, role: Role, action: Action)
  {
    if role != Rider then action == Refuse || (action == Receive && t.status in {FirstMile, LastMile})
    else
      || action == Grab
      || (action == Depart && t.status == WaitingFirstMile)
      || (action == Arrive && t.status == FirstMile && t.route == Some(CustomerPickup))
      || (action in {HandOver, Transfer} && t.status == WaitingHandover && t.handedOver)
  }

  /** A card offers exactly what would go through with full evidence, less what is withheld. */
  lemma OfferedExactlyWhen(t: Task, staff: Staff, address: Address, action: Action, at: int)
    requires RiderKnown(t) && (staff.role != Rider ==> WorksThere(staff, address))
    ensures action in Actions(staff.role, t, staff.id)
       <==> UpdateTask(t, t, staff, address, action, FULL, at).Some? && !Withheld(t, staff.role, action)
  {
  }

  // ----- the shop's own edges -----

  predicate Moves(t: Task, staff: Staff, address: Address, action: Action, to: OrderStatus)
  {
    ManagerMoves(t, staff, address, action, FULL, to) || RiderMoves(t, staff, action, FULL, to)
  }

  /** Some rider or manager can take some order from one status to the other. */
  ghost predicate SomebodyMoves(from: OrderStatus, to: OrderStatus)
  {
    exists t: Task, staff: Staff, address: Address, action: Action ::
      t.status == from && Moves(t, staff, address, action, to)
  }

  /** An order of one status, on the route to be picked up downstairs, in the hands of rider 1 unless it is free. */
  function Sample(status: OrderStatus, free: bool): Task
  {
    Task(status, if free then None else Some(1), [], Some(CustomerPickup), false)
  }

  lemma ByRider(from: OrderStatus, action: Action, to: OrderStatus)
    requires RiderMoves(Sample(from, action == Accept), Staff(1, Rider, None, ""), action, FULL, to)
    ensures SomebodyMoves(from, to)
  {
    assert Moves(Sample(from, action == Accept), Staff(1, Rider, None, ""), Address(None, ""), action, to);
  }

  lemma ByManager(from: OrderStatus, action: Action, to: OrderStatus)
    requires ManagerMoves(Sample(from, false), Staff(1, Manager, None, ""), Address(None, ""), action, FULL, to)
    ensures SomebodyMoves(from, to)
  {
    assert Moves(Sample(from, false), Staff(1, Manager, None, ""), Address(None, ""), action, to);
  }

  lemma MovesAreEdges(t: Task, staff: Staff, address: Address, action: Action, to: OrderStatus)
    requires Moves(t, staff, address, action, to)
    ensures t.status == to || Trade.FulfilmentEdge(t.status, to)
  {
    if ManagerMoves(t, staff, address, action, FULL, to) {
      assert Trade.FulfilmentEdge(t.status, to);
    } else {
      assert t.status == to || Trade.FulfilmentEdge(t.status, to);
    }
  }

  /**
   The shop's fulfilment edges are exactly what riders and managers can do, the two steps of picking by
   hand, and the receipt; staying in place aside.
   */
  lemma EdgesAreExactlyTheMoves(from: OrderStatus, to: OrderStatus)
    requires from != to
    ensures Trade.FulfilmentEdge(from, to)
       <==> SomebodyMoves(from, to) || (from == Paid && to == Picking) || (from == Picking && to == WaitingFirstMile)
            || (from == Delivered && to == Completed)
  {
    if SomebodyMoves(from, to) {
      var t: Task, staff: Staff, address: Address, action: Action :|
        t.status == from && Moves(t, staff, address, action, to);
      MovesAreEdges(t, staff, address, action, to);
    }
    if Trade.FulfilmentEdge(from, to) {
      match from
      case WaitingFirstMile => if to == Arrived { ByRider(from, Arrive, to); } else { ByRider(from, Depart, to); }
      case Arrived => ByRider(from, Depart, to);
      case FirstMile =>
        if to == LastMile { ByManager(from, Receive, to); }
        else { ByRider(from, if to == Delivered then Deliver else if to == WaitingHandover then Arrive else Transfer, to); }
      case WaitingHandover => if to == LastMile { ByManager(from, Receive, to); } else { ByRider(from, Transfer, to); }
      case LastMile => ByManager(from, if to == Delivered then Deliver else Absent, to);
      case _ =>
    }
  }
}
