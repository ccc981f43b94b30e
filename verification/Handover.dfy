/**
 The delivery hand-over between riders and building managers (src/fulfillment/fulfillment.service.ts).

 The current row is the last entry of a history; an actor may act on any earlier entry, so every
 snapshot is a state the row really had, however long ago.
 */
module Handover {
  import opened Sums
  import opened OrderState
  import opened Timeline

  type StaffId = nat

  datatype Role = Rider | Manager | InternManager
  datatype Staff = Staff(id: StaffId, role: Role, buildingId: Option<nat>, building: string)
  datatype Address = Address(buildingId: Option<nat>, buildingName: string)

  datatype Task = Task(status: OrderStatus, rider: Option<StaffId>, timeline: seq<Node>, route: Option<Route>, handedOver: bool)

  datatype Action = Accept | Grab | Depart | Arrive | HandOver | Deliver | Receive | Absent | Refuse | Transfer
  datatype Evidence = Evidence(images: bool, reason: bool)

  predicate IsManager(staff: Staff)
  {
    staff.role != Rider
  }

  /** The building id decides; only addresses without one fall back to the building's name. */
  predicate OwnBuilding(staff: Staff, address: Address)
  {
    if address.buildingId.Some? then staff.buildingId == address.buildingId
    else address.buildingName == staff.building
  }

  /** The action table: where an action leads from the status that was read, or nowhere. */
  function Target(manager: bool, action: Action, seen: Task): Option<OrderStatus>
  {
    if manager then
      match action
      case Receive => if seen.status in {WaitingHandover, FirstMile, LastMile} then Some(LastMile) else None
      case Deliver => if seen.status == LastMile then Some(Delivered) else None
      case Absent => if seen.status == LastMile then Some(Exception) else None
      case Refuse => if seen.status == LastMile then Some(Exception) else None
      case _ => None
    else
      match action
      case Accept => if seen.status == WaitingFirstMile then Some(WaitingFirstMile) else None
      case Depart => if seen.status in {WaitingFirstMile, Arrived} then Some(FirstMile) else None
      case Arrive =>
        if seen.status == WaitingFirstMile then Some(Arrived)
        else if seen.status == FirstMile then Some(WaitingHandover) else None
      case HandOver => if seen.status in {WaitingHandover, LastMile} then Some(seen.status) else None
      case Deliver => if seen.route == Some(CustomerPickup) && seen.status == FirstMile then Some(Delivered) else None
      case _ => None
  }

  function TransferTask(now: Task, seen: Task, staff: Staff, at: int): Option<Task>
  {
    if IsManager(staff) || seen.rider != Some(staff.id)
       || seen.status !in {WaitingFirstMile, FirstMile, WaitingHandover}
       || now.status != seen.status || now.rider != Some(staff.id)
    then None
    else Some(now.(status := WaitingFirstMile, rider := None, timeline := Reset(seen.timeline, at)))
  }

  predicate Evidenced(action: Action, seen: Task, evidence: Evidence)
  {
    && (action == HandOver ==> evidence.images)
    && (action == Deliver ==> evidence.images || evidence.reason)
    && (action == Deliver && seen.route == Some(CustomerPickup) ==> evidence.images)
  }

  /** One call of a task action, decided on `seen` and written under its guard on `now`; None when refused. */
  function UpdateTask(now: Task, seen: Task, staff: Staff, address: Address, raw: Action, evidence: Evidence, at: int): Option<Task>
  {
    var action := if raw == Grab then Accept else raw;
    var manager := IsManager(staff);
    if manager && !OwnBuilding(staff, address) then None
    else if action == Transfer then TransferTask(now, seen, staff, at)
    else
      var target := Target(manager, action, seen);
      if target.None? || (!manager && seen.rider.Some? && seen.rider != Some(staff.id)) || !Evidenced(action, seen, evidence)
      then None
      else if action == Accept then
        if now.rider.None? && now.status == WaitingFirstMile then Some(now.(rider := Some(staff.id))) else None
      else if now.status != seen.status || (!manager && now.rider != Some(staff.id)) then None
      else
        var moved := now.(status := target.value, timeline := Mark(seen.timeline, target.value, at));
        Some(if action == Deliver then moved.(route := seen.route, handedOver := seen.handedOver)
             else if action == HandOver then moved.(route := seen.route, handedOver := true)
             else moved)
  }

  /** Scanning the receipt at the shop: the write is guarded by the status it must leave, not by the one read. */
  function ScanArrive(now: Task, seen: Task, staff: StaffId, at: int): Option<Task>
  {
    if seen.rider != Some(staff) || now.status != WaitingFirstMile || now.rider != Some(staff) then None
    else Some(now.(status := Arrived, timeline := Mark(seen.timeline, Arrived, at)))
  }

  function Outbound(now: Task, seen: Task, hasManager: bool, at: int): Option<Task>
  {
    if seen.status !in {Paid, Picking} || now.status != seen.status then None
    else
      var nodes := if hasManager then seen.timeline else DropHandover(seen.timeline);
      Some(now.(status := WaitingFirstMile, timeline := Mark(nodes, WaitingFirstMile, at),
                route := Some(if hasManager then ViaManager else CustomerPickup), handedOver := seen.handedOver))
  }

  /** The shopper confirms, or two days pass. */
  function ConfirmReceipt(now: Task, seen: Task, at: int): Option<Task>
  {
    if seen.status != Delivered || now.status != Delivered then None
    else Some(now.(status := Completed, timeline := Mark(seen.timeline, Completed, at)))
  }

  /** What an order card offers a viewer. */
  function Actions(role: Role, seen: Task, viewer: StaffId): set<Action>
  {
    var mine := seen.rider == Some(viewer);
    if role != Rider then
      if seen.status == WaitingHandover then {Receive}
      else if seen.status == LastMile then {Deliver, Absent}
      else {}
    else if seen.status == WaitingFirstMile then
      if seen.rider.None? then {Accept} else if mine then {Arrive, Transfer} else {}
    else if !mine then {}
    else if seen.status == Arrived then {Depart}
    else if seen.status == FirstMile then
      if seen.route == Some(CustomerPickup) then {Deliver, Transfer} else {Arrive, Transfer}
    else if seen.status == WaitingHandover then
      if seen.handedOver then {} else {HandOver, Transfer}
    else if seen.status == LastMile then {HandOver}
    else {}
  }

  // ----- histories -----

  datatype Event =
    | GoOut(seen: nat, hasManager: bool, at: int)
    | Act(staff: Staff, action: Action, evidence: Evidence, seen: nat, at: int)
    | Scan(rider: StaffId, seen: nat, at: int)
    | Confirm(seen: nat, at: int)

  type History = h: seq<Task> | |h| > 0 witness [Task(Paid, None, [], None, false)]

  function Now(h: History): Task
  {
    h[|h| - 1]
  }

  /** One event, decided on what was read and written on what stands. */
  function EffectOn(now: Task, seen: Task, e: Event, address: Address): Option<Task>
  {
    match e
    case GoOut(_, hasManager, at) => Outbound(now, seen, hasManager, at)
    case Act(staff, action, evidence, _, at) => UpdateTask(now, seen, staff, address, action, evidence, at)
    case Scan(rider, _, at) => ScanArrive(now, seen, rider, at)
    case Confirm(_, at) => ConfirmReceipt(now, seen, at)
  }

  function Effect(h: History, e: Event, address: Address): Option<Task>
  {
    if e.seen >= |h| then None else EffectOn(Now(h), h[e.seen], e, address)
  }

  function Extend(h: History, e: Event, address: Address): (r: History)
    ensures |h| <= |r| && r[..|h|] == h
  {
    var x := Effect(h, e, address);
    if x.Some? then h + [x.value] else h
  }

  function Run(h: History, es: seq<Event>, address: Address): (r: History)
    ensures |h| <= |r|
  {
    if es == [] then h else Extend(Run(h, es[..|es| - 1], address), es[|es| - 1], address)
  }

  /** A freshly paid order, not yet out of the warehouse. */
  ghost predicate Fresh(h: History)
  {
    && |h| == 1 && h[0].status in {Paid, Picking} && h[0].rider.None? && h[0].route.None? && !h[0].handedOver
    && Tells(h[0].timeline, h[0].status, None)
  }

  // ----- rider exclusivity -----

  /** Past the shop somebody has the goods; before outbound nobody does. */
  predicate RiderKnown(t: Task)
  {
    && (t.status in {Arrived, FirstMile, WaitingHandover, LastMile, Delivered, Completed, Exception} ==> t.rider.Some?)
    && (t.status in {Paid, Picking} <==> t.route.None?)
    && (t.route.None? ==> t.rider.None?)
    && t.status in {Paid, Picking, WaitingFirstMile, Arrived, FirstMile, WaitingHandover, LastMile, Delivered, Completed, Exception}
  }

  /** The route, once fixed, is the same in every later row. */
  ghost predicate OneRoute(h: History)
  {
    forall i :: 0 <= i < |h| && h[i].route.Some? ==> h[i].route == Now(h).route
  }

  ghost predicate Lawful(h: History)
  {
    (forall i :: 0 <= i < |h| ==> RiderKnown(h[i])) && OneRoute(h)
  }

  lemma EventLawful(h: History, e: Event, address: Address)
    requires Lawful(h)
    ensures Lawful(Extend(h, e, address))
  {
    var x := Effect(h, e, address);
    if x.Some? {
      assert RiderKnown(Now(h)) && RiderKnown(h[e.seen]);
      assert RiderKnown(x.value);
      assert Now(h).route.Some? ==> x.value.route == Now(h).route;
    }
  }

  lemma {:induction false} RunLawful(h: History, es: seq<Event>, address: Address)
    requires Lawful(h)
    ensures Lawful(Run(h, es, address))
  {
    if es != [] {
      RunLawful(h, es[..|es| - 1], address);
      EventLawful(Run(h, es[..|es| - 1], address), es[|es| - 1], address);
    }
  }

  /**
   While an order has a rider, no commit by another rider touches it, the rider changes only by
   becoming nobody, and that only by the owner's own transfer.
   */
  lemma OwnerHoldsAlone(h: History, e: Event, address: Address, owner: StaffId)
    requires Lawful(h) && Now(h).rider == Some(owner)
    ensures e.Act? && !IsManager(e.staff) && e.staff.id != owner ==> Extend(h, e, address) == h
    ensures e.Scan? && e.rider != owner ==> Extend(h, e, address) == h
    ensures Now(Extend(h, e, address)).rider != Some(owner) ==>
              e.Act? && e.action == Transfer && e.staff.id == owner && Now(Extend(h, e, address)).rider.None?
  {
    assert RiderKnown(Now(h));
  }

  /** So over any run without that transfer the order stays with its owner. */
  lemma {:induction false} OwnedUntilTransfer(h: History, es: seq<Event>, address: Address, owner: StaffId)
    requires Lawful(h) && Now(h).rider == Some(owner)
    requires forall i :: 0 <= i < |es| && es[i].Act? && es[i].action == Transfer ==> es[i].staff.id != owner
    ensures Lawful(Run(h, es, address)) && Now(Run(h, es, address)).rider == Some(owner)
  {
    if es != [] {
      var init, last := es[..|es| - 1], es[|es| - 1];
      OwnedUntilTransfer(h, init, address, owner);
      EventLawful(Run(h, init, address), last, address);
      OwnerHoldsAlone(Run(h, init, address), last, address, owner);
    }
  }

  predicate Grabs(h: History, e: Event, address: Address)
  {
    Effect(h, e, address).Some? && e.Act? && (e.action == Accept || e.action == Grab)
  }

  predicate Releases(h: History, e: Event, address: Address)
  {
    Effect(h, e, address).Some? && e.Act? && e.action == Transfer
  }

  function Count(h: History, es: seq<Event>, address: Address, grabs: bool): nat
  {
    if es == [] then 0
    else
      var init, last := es[..|es| - 1], es[|es| - 1];
      Count(h, init, address, grabs)
      + if (if grabs then Grabs(Run(h, init, address), last, address) else Releases(Run(h, init, address), last, address))
        then 1 else 0
  }

  /** Of any number of grabs, on whatever stale reads, one wins per release: grabs and releases alternate. */
  lemma {:induction false} OneWinnerPerRelease(h: History, es: seq<Event>, address: Address)
    requires Lawful(h) && Now(h).rider.None?
    ensures Count(h, es, address, true)
         == Count(h, es, address, false) + if Now(Run(h, es, address)).rider.Some? then 1 else 0
  {
    if es != [] {
      var init, last := es[..|es| - 1], es[|es| - 1];
      OneWinnerPerRelease(h, init, address);
      RunLawful(h, init, address);
      var u := Run(h, init, address);
      if Effect(u, last, address).Some? {
        assert RiderKnown(Now(u)) && RiderKnown(u[last.seen]);
      }
    }
  }

  /** After a fresh start: a rider is set in every status past the shop, throughout the run. */
  lemma {:induction false} FreshRunsKnowTheirRider(h: History, es: seq<Event>, address: Address)
    requires Fresh(h)
    ensures var t := Now(Run(h, es, address));
            t.status in {Arrived, FirstMile, WaitingHandover, LastMile, Delivered} ==> t.rider.Some?
  {
    RunLawful(h, es, address);
    assert RiderKnown(Now(Run(h, es, address)));
  }

  // ----- the timeline follows the status -----

  ghost predicate Truthful(h: History)
  {
    forall i :: 0 <= i < |h| ==> Tells(h[i].timeline, h[i].status, h[i].route)
  }

  /** A manager taking goods that never waited downstairs, a step kept for orders of the older flow. */
  predicate SkipsHandover(action: Action, seen: Task)
  {
    action == Receive && seen.status == FirstMile && seen.route != Some(CustomerPickup)
  }

  /** The two writes that can leave the timeline behind, in terms of what was read. */
  predicate Skips(h: History, e: Event)
    requires e.seen < |h|
  {
    || (e.Act? && SkipsHandover(e.action, h[e.seen]))
    // a scan prepared when the order stood elsewhere and sent when it waits for its rider again
    || (e.Scan? && Level(h[e.seen].status) != Level(WaitingFirstMile))
  }

  /** What a snapshot and the current row have in common. */
  ghost predicate Related(now: Task, seen: Task)
  {
    && RiderKnown(now) && RiderKnown(seen) && (seen.route.Some? ==> seen.route == now.route)
    && Tells(now.timeline, now.status, now.route) && Tells(seen.timeline, seen.status, seen.route)
  }

  /** The moves of the action table that skip nothing, route by route. */
  lemma TableSkipsNothing(manager: bool, action: Action, seen: Task)
    requires Target(manager, action, seen).Some?
    ensures SkipsNothing(seen.status, Target(manager, action, seen).value, RouteKeys(seen.route))
       <==> !SkipsHandover(action, seen)
  {
    var to := Target(manager, action, seen).value;
    var ks := RouteKeys(seen.route);
    if action == Receive && seen.status == FirstMile && seen.route != Some(CustomerPickup) {
      assert ks[3] == HandoverKey && !SkipsNot(seen.status, to, ks[3]);
    }
  }

  lemma TransferTells(now: Task, seen: Task, staff: Staff, at: int)
    requires Related(now, seen) && TransferTask(now, seen, staff, at).Some?
    ensures var x := TransferTask(now, seen, staff, at).value; Tells(x.timeline, x.status, x.route)
  {
    ResetTells(seen.timeline, seen.status, seen.route, at);
  }

  lemma ActTells(now: Task, seen: Task, staff: Staff, address: Address, action: Action, evidence: Evidence, at: int)
    requires Related(now, seen) && UpdateTask(now, seen, staff, address, action, evidence, at).Some?
    ensures var x := UpdateTask(now, seen, staff, address, action, evidence, at).value;
            Tells(x.timeline, x.status, x.route) <==> !SkipsHandover(action, seen)
  {
    var x := UpdateTask(now, seen, staff, address, action, evidence, at).value;
    if action == Transfer {
      TransferTells(now, seen, staff, at);
    } else if action == Accept || action == Grab {
      assert x.timeline == now.timeline && x.status == now.status;
    } else {
      TableSkipsNothing(IsManager(staff), action, seen);
      MarkTells(seen.timeline, seen.status, x.status, RouteKeys(seen.route), at);
    }
  }

  /** A scan is right for an order at the level of the pool, and for no other that has been out of the warehouse. */
  lemma ScanSkips(from: OrderStatus, route: Option<Route>)
    requires Level(from) >= 2
    ensures SkipsNothing(from, Arrived, RouteKeys(route)) <==> Level(from) == Level(WaitingFirstMile)
  {
    var ks := RouteKeys(route);
    assert ks[1] == PickingKey && ks[2] == FirstMileKey;
    if Level(from) > 2 {
      assert !SkipsNot(from, Arrived, ks[2]);
    }
  }

  lemma ScanTells(now: Task, seen: Task, rider: StaffId, at: int)
    requires Related(now, seen) && ScanArrive(now, seen, rider, at).Some?
    ensures var x := ScanArrive(now, seen, rider, at).value;
            Tells(x.timeline, x.status, x.route) <==> Level(seen.status) == Level(WaitingFirstMile)
  {
    ScanSkips(seen.status, seen.route);
    MarkTells(seen.timeline, seen.status, Arrived, RouteKeys(seen.route), at);
  }

  lemma OutboundSkipsNothing(from: OrderStatus, route: Option<Route>)
    requires from in {Paid, Picking}
    ensures SkipsNothing(from, WaitingFirstMile, RouteKeys(route))
  {
  }

  lemma OutboundTells(now: Task, seen: Task, hasManager: bool, at: int)
    requires Related(now, seen) && Outbound(now, seen, hasManager, at).Some?
    ensures var x := Outbound(now, seen, hasManager, at).value; Tells(x.timeline, x.status, x.route)
  {
    var route := Some(if hasManager then ViaManager else CustomerPickup);
    var nodes := if hasManager then seen.timeline else DropHandover(seen.timeline);
    assert seen.route.None?;
    assert Follows(nodes, seen.status, RouteKeys(route)) by {
      if !hasManager { DropHandoverTells(seen.timeline, seen.status); }
    }
    OutboundSkipsNothing(seen.status, route);
    MarkTells(nodes, seen.status, WaitingFirstMile, RouteKeys(route), at);
  }

  lemma ConfirmSkipsNothing(route: Option<Route>)
    ensures SkipsNothing(Delivered, Completed, RouteKeys(route))
  {
  }

  lemma ConfirmTells(now: Task, seen: Task, at: int)
    requires Related(now, seen) && ConfirmReceipt(now, seen, at).Some?
    ensures var x := ConfirmReceipt(now, seen, at).value; Tells(x.timeline, x.status, x.route)
  {
    ConfirmSkipsNothing(seen.route);
    MarkTells(seen.timeline, Delivered, Completed, RouteKeys(seen.route), at);
  }

  /**
   The exact condition: every write lights what it should, even when computed from an old timeline,
   unless it is one of those two, and those two do leave the timeline behind.
   */
  lemma TruthfulUnlessSkipped(h: History, e: Event, address: Address)
    requires Lawful(h) && Truthful(h)
    ensures Truthful(Extend(h, e, address)) <==> !(Effect(h, e, address).Some? && Skips(h, e))
  {
    if Effect(h, e, address).Some? {
      var x, seen, now := Effect(h, e, address).value, h[e.seen], Now(h);
      assert Related(now, seen) by {
        assert RiderKnown(seen) && RiderKnown(now);
        assert Tells(seen.timeline, seen.status, seen.route) && Tells(now.timeline, now.status, now.route);
      }
      EffectTells(h, e, address);
      assert Extend(h, e, address)[|h|] == x;
    }
  }

  lemma EffectTells(h: History, e: Event, address: Address)
    requires e.seen < |h| && Related(Now(h), h[e.seen])
    ensures Effect(h, e, address).Some? ==>
              var x := Effect(h, e, address).value;
              (Tells(x.timeline, x.status, x.route) <==> !Skips(h, e))
  {
    if Effect(h, e, address).Some? {
      var seen, now := h[e.seen], Now(h);
      match e
      case GoOut(_, hasManager, at) => OutboundTells(now, seen, hasManager, at);
      case Act(staff, action, evidence, _, at) => ActTells(now, seen, staff, address, action, evidence, at);
      case Scan(rider, _, at) => ScanTells(now, seen, rider, at);
      case Confirm(_, at) => ConfirmTells(now, seen, at);
    }
  }

  /** What the apps send: actions the card offered, and a scan where the card offered arrival. */
  predicate Offered(h: History, e: Event)
  {
    e.seen < |h| &&
    match e
    case Act(staff, action, _, i, _) => action in Actions(staff.role, h[i], staff.id)
    case Scan(rider, i, _) => h[i].status == WaitingFirstMile && Arrive in Actions(Rider, h[i], rider)
    case _ => true
  }

  predicate OfferedRun(h: History, es: seq<Event>, address: Address)
  {
    es == []
    || (OfferedRun(h, es[..|es| - 1], address) && Offered(Run(h, es[..|es| - 1], address), es[|es| - 1]))
  }

  lemma OfferedNeverSkips(h: History, e: Event)
    requires Offered(h, e)
    ensures !Skips(h, e)
  {
  }

  lemma EventTruthful(h: History, e: Event, address: Address)
    requires Lawful(h) && Truthful(h) && Offered(h, e)
    ensures Lawful(Extend(h, e, address)) && Truthful(Extend(h, e, address))
  {
    EventLawful(h, e, address);
    if Effect(h, e, address).Some? {
      OfferedNeverSkips(h, e);
      TruthfulUnlessSkipped(h, e, address);
    }
  }

  /** In every run of offered actions, transfers and stale reads included, the progress shown is the status's own. */
  lemma {:induction false} OfferedRunsAreTruthful(h: History, es: seq<Event>, address: Address)
    requires Lawful(h) && Truthful(h) && OfferedRun(h, es, address)
    ensures Lawful(Run(h, es, address)) && Truthful(Run(h, es, address))
    ensures var t := Now(Run(h, es, address)); Tells(t.timeline, t.status, t.route)
  {
    if es != [] {
      OfferedRunsAreTruthful(h, es[..|es| - 1], address);
      EventTruthful(Run(h, es[..|es| - 1], address), es[|es| - 1], address);
    }
  }

  /** The history of a new order at the moment it is paid. */
  function NewOrder(at: int): History
  {
    [Task(Paid, None, Mark(BuildTimeline(), Paid, at), None, false)]
  }

  /** It is where these runs start. */
  lemma NewOrderIsFresh(at: int)
    ensures Fresh(NewOrder(at))
  {
    NewTimelineTells();
    MarkTells(BuildTimeline(), PendingPayment, Paid, RouteKeys(None), at);
  }

  lemma FreshIsTruthful(h: History)
    requires Fresh(h)
    ensures Lawful(h) && Truthful(h)
  {
  }

  /** A write computed from any older row at the same status shows the same progress as one computed from the current row. */
  lemma StaleWriteIsHarmless(h: History, i: nat, to: OrderStatus, at: int)
    requires Lawful(h) && Truthful(h) && i < |h| && h[i].status == Now(h).status
    requires SkipsNothing(Now(h).status, to, RouteKeys(Now(h).route))
    ensures DoneKeys(Mark(h[i].timeline, to, at)) == DoneKeys(Mark(Now(h).timeline, to, at))
  {
    var now := Now(h);
    assert RiderKnown(h[i]) && RiderKnown(now);
    assert Tells(h[i].timeline, now.status, now.route) && Tells(now.timeline, now.status, now.route);
    MarkTells(h[i].timeline, now.status, to, RouteKeys(now.route), at);
    MarkTells(now.timeline, now.status, to, RouteKeys(now.route), at);
    ProgressIsAFunctionOfStatus(Mark(h[i].timeline, to, at), Mark(now.timeline, to, at), to, now.route);
  }
}
