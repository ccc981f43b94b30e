/** The order row the delivery services update in place, method by method, against the hand-over's steps. */
module DeliveryRow {
  import opened Sums
  import opened OrderState
  import opened Timeline
  import opened Handover

  class Row {
    var status: OrderStatus
    var rider: Option<StaffId>
    var timeline: seq<Node>
    var route: Option<Route>
    var handedOver: bool

    ghost function Read(): Task
      reads this
    {
      Task(status, rider, timeline, route, handedOver)
    }

    /** One commit: what the step computes, or nothing at all. */
    ghost predicate Wrote(before: Task, outcome: Option<Task>, ok: bool)
      reads this
    {
      ok == outcome.Some? && Read() == if outcome.Some? then outcome.value else before
    }

    /** updateMany where status and rider are as stated: the guard every rider and manager write carries. */
    method WriteIf(expected: OrderStatus, owner: Option<StaffId>, next: OrderStatus, nodes: seq<Node>) returns (won: bool)
      modifies this`status, this`timeline
      ensures won == (old(status) == expected && (owner.Some? ==> rider == owner))
      ensures won ==> status == next && timeline == nodes
      ensures !won ==> status == old(status) && timeline == old(timeline)
    {
      won := status == expected && (owner.None? || rider == owner);
      if won {
        status, timeline := next, nodes;
      }
    }

    method Transfer(seen: Task, staff: Staff, at: int) returns (ok: bool)
      modifies this
      ensures Wrote(old(Read()), TransferTask(old(Read()), seen, staff, at), ok)
    {
      if IsManager(staff) || seen.rider != Some(staff.id)
         || seen.status !in {WaitingFirstMile, FirstMile, WaitingHandover} {
        return false;
      }
      var nodes: seq<Node> := [];
      for i := 0 to |seen.timeline|
        invariant |nodes| == i && forall j :: 0 <= j < i ==> nodes[j] == Unlight(seen.timeline[j])
      {
        var n := seen.timeline[i];
        if n.key in {FirstMileKey, HandoverKey, ReadyKey, LastMileKey} {
          n := n.(done := false, time := None);
        }
        nodes := nodes + [n];
      }
      nodes := nodes + [Node(TransferredKey, true, Some(at))];
      assert nodes == Reset(seen.timeline, at);
      ok := WriteIf(seen.status, Some(staff.id), WaitingFirstMile, nodes);
      if ok {
        rider := None;
      }
    }

    method Act(seen: Task, staff: Staff, address: Address, raw: Action, evidence: Evidence, at: int) returns (ok: bool)
      modifies this
      ensures Wrote(old(Read()), UpdateTask(old(Read()), seen, staff, address, raw, evidence, at), ok)
    {
      var action := if raw == Grab then Accept else raw;
      var manager := IsManager(staff);
      if manager && !OwnBuilding(staff, address) {
        return false;
      }
      if action == Action.Transfer {
        ok := Transfer(seen, staff, at);
        return;
      }
      var target := Target(manager, action, seen);
      if target.None? {
        return false;
      }
      if !manager && seen.rider.Some? && seen.rider != Some(staff.id) {
        return false;
      }
      if action == HandOver && !evidence.images {
        return false;
      }
      if action == Deliver && !evidence.images && (!evidence.reason || seen.route == Some(CustomerPickup)) {
        return false;
      }
      if action == Accept {
        if rider.Some? || status != WaitingFirstMile {
          return false;
        }
        rider := Some(staff.id);
        return true;
      }
      var nodes := MarkTimelineStep(seen.timeline, target.value, at);
      ok := WriteIf(seen.status, if manager then None else Some(staff.id), target.value, nodes);
      if ok && action == Deliver {
        route, handedOver := seen.route, seen.handedOver;
      } else if ok && action == HandOver {
        route, handedOver := seen.route, true;
      }
    }

    method ScanIn(seen: Task, staff: StaffId, at: int) returns (ok: bool)
      modifies this
      ensures Wrote(old(Read()), ScanArrive(old(Read()), seen, staff, at), ok)
    {
      if seen.rider != Some(staff) {
        return false;
      }
      var nodes := MarkTimelineStep(seen.timeline, Arrived, at);
      ok := WriteIf(WaitingFirstMile, Some(staff), Arrived, nodes);
    }

    method GoOut(seen: Task, hasManager: bool, at: int) returns (ok: bool)
      modifies this
      ensures Wrote(old(Read()), Outbound(old(Read()), seen, hasManager, at), ok)
    {
      if seen.status !in {Paid, Picking} {
        return false;
      }
      var nodes: seq<Node> := seen.timeline;
      if !hasManager {
        nodes := [];
        for i := 0 to |seen.timeline|
          invariant nodes == DropHandover(seen.timeline[..i])
        {
          assert seen.timeline[..i + 1][..i] == seen.timeline[..i];
          if seen.timeline[i].key !in {HandoverKey, ReadyKey} {
            nodes := nodes + [seen.timeline[i]];
          }
        }
        assert seen.timeline[..|seen.timeline|] == seen.timeline;
      }
      var lit := MarkTimelineStep(nodes, WaitingFirstMile, at);
      ok := WriteIf(seen.status, None, WaitingFirstMile, lit);
      if ok {
        route, handedOver := Some(if hasManager then ViaManager else CustomerPickup), seen.handedOver;
      }
    }

    method Confirm(seen: Task, at: int) returns (ok: bool)
      modifies this
      ensures Wrote(old(Read()), ConfirmReceipt(old(Read()), seen, at), ok)
    {
      if seen.status != Delivered {
        return false;
      }
      var nodes := MarkTimelineStep(seen.timeline, Completed, at);
      ok := WriteIf(Delivered, None, Completed, nodes);
    }

    // ----- serving requests -----

    method Serve(e: Event, seen: Task, address: Address) returns (ok: bool)
      modifies this
      ensures Wrote(old(Read()), EffectOn(old(Read()), seen, e, address), ok)
    {
      match e
      case GoOut(_, hasManager, at) => ok := GoOut(seen, hasManager, at);
      case Act(staff, action, evidence, _, at) => ok := Act(seen, staff, address, action, evidence, at);
      case Scan(staff, _, at) => ok := ScanIn(seen, staff, at);
      case Confirm(_, at) => ok := Confirm(seen, at);
    }

    /**
     Any sequence of requests, each decided on some earlier row and written under its guard, leaves the
     row where the hand-over's run ends; so offered requests leave a row that knows its rider and whose
     timeline tells its status.
     */
    method ServeAll(es: seq<Event>, address: Address) returns (rows: seq<Task>)
      modifies this
      ensures rows == Run([old(Read())], es, address) && Read() == rows[|rows| - 1]
      ensures old(Lawful([Read()]) && Truthful([Read()]) && OfferedRun([Read()], es, address)) ==>
                RiderKnown(Read()) && Tells(timeline, status, route)
    {
      rows := [Task(status, rider, timeline, route, handedOver)];
      ghost var start: History := rows;
      for i := 0 to |es|
        invariant |rows| > 0 && rows == Run(start, es[..i], address) && Read() == rows[|rows| - 1]
      {
        assert es[..i + 1][..i] == es[..i];
        if es[i].seen < |rows| {
          var ok := Serve(es[i], rows[es[i].seen], address);
          if ok {
            rows := rows + [Task(status, rider, timeline, route, handedOver)];
          }
        }
      }
      assert es[..|es|] == es;
      if Lawful(start) && Truthful(start) && OfferedRun(start, es, address) {
        OfferedRunsAreTruthful(start, es, address);
        assert RiderKnown(Now(rows));
      }
    }
  }
}
