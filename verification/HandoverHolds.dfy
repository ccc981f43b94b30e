/**
 Refunds holding an order on its way: they write its status, and nothing else of the delivery row.

 A held order stands in after-sales; what it was doing is remembered only by the refund. Undoing the
 refund, or settling a part, writes back the status the refund remembers, and that may be an older one
 than the order was held at. An order refunded as a whole leaves the delivery for good.
 */
module HandoverHolds {
  import opened Sums
  import opened OrderState
  import opened Timeline
  import opened Handover
  import opened HandoverOffers

  /** A row, with the status it stands for while a refund holds it. */
  datatype Entry = Entry(task: Task, held: bool)

  type Log = xs: seq<Entry> | |xs| > 0 witness [Entry(Task(Paid, None, [], None, false), false)]

  function RowOf(x: Entry): Task
  {
    if x.held then x.task.(status := AfterSales) else x.task
  }

  /** The rows as they are stored, and as they stand. */
  function Stored(xs: Log): (h: History)
    ensures |h| == |xs| && forall i :: 0 <= i < |xs| ==> h[i] == RowOf(xs[i])
  {
    seq(|xs|, i requires 0 <= i < |xs| => RowOf(xs[i]))
  }

  function Standing(xs: Log): (h: History)
    ensures |h| == |xs| && forall i :: 0 <= i < |xs| ==> h[i] == xs[i].task
  {
    seq(|xs|, i requires 0 <= i < |xs| => xs[i].task)
  }

  function Last(xs: Log): Entry
  {
    xs[|xs| - 1]
  }

  /**
   A hold is claimed on the status that was read, and holding twice is holding once. A write-back goes
   to any status a refund may remember; settling part of a refund writes it even when nothing is held.
   */
  datatype Move = Work(event: Event) | Hold(seen: nat) | WriteBack(to: OrderStatus)

  function Outcome(xs: Log, m: Move, address: Address): Option<Entry>
  {
    match m
    case Work(e) => (var x := Effect(Stored(xs), e, address); if x.Some? then Some(Entry(x.value, false)) else None)
    case Hold(seen) =>
      if seen >= |xs| || RowOf(Last(xs)).status != RowOf(xs[seen]).status then None else Some(Entry(Last(xs).task, true))
    case WriteBack(to) =>
      if RestoreTarget(Some(to)) != to then None else Some(Entry(Last(xs).task.(status := to), false))
  }

  function Extended(xs: Log, m: Move, address: Address): (r: Log)
    ensures |xs| <= |r| && r[..|xs|] == xs
  {
    var x := Outcome(xs, m, address);
    if x.Some? then xs + [x.value] else xs
  }

  function RunMoves(xs: Log, ms: seq<Move>, address: Address): (r: Log)
    ensures |xs| <= |r|
  {
    if ms == [] then xs else Extended(RunMoves(xs, ms[..|ms| - 1], address), ms[|ms| - 1], address)
  }

  // ----- work goes on as if nothing were held -----

  /** No rider, manager, warehouse or shopper moves a held order. */
  lemma HeldOrderRests(xs: Log, e: Event, address: Address)
    requires Last(xs).held
    ensures Outcome(xs, Work(e), address) == None
  {
  }

  lemma OnlyFreeRowsMove(xs: Log, e: Event, address: Address)
    requires Outcome(xs, Work(e), address).Some?
    ensures !Last(xs).held && e.seen < |xs|
  {
    if Last(xs).held {
      HeldOrderRests(xs, e, address);
    }
  }

  /** A status kept only to the row that was read decides a commit; a scan does not look at it. */
  lemma HeldReadDoesNothing(h: History, e: Event, address: Address)
    requires e.seen < |h| && h[e.seen].status == AfterSales && !e.Scan?
    ensures Effect(h, e, address) == None
  {
  }

  lemma ScanIgnoresStatus(now: Task, seen: Task, status: OrderStatus, rider: StaffId, at: int)
    ensures ScanArrive(now, seen, rider, at) == ScanArrive(now, seen.(status := status), rider, at)
  {
  }

  /** Any commit on the stored rows is the very commit on the standing rows: holds are invisible to work. */
  lemma WorkStands(xs: Log, e: Event, address: Address)
    requires Outcome(xs, Work(e), address).Some?
    ensures !Last(xs).held && e.seen < |xs|
    ensures Effect(Standing(xs), e, address) == Effect(Stored(xs), e, address)
  {
    OnlyFreeRowsMove(xs, e, address);
    if xs[e.seen].held {
      if e.Scan? {
        ScanIgnoresStatus(Now(Standing(xs)), xs[e.seen].task, AfterSales, e.rider, e.at);
      } else {
        HeldReadDoesNothing(Stored(xs), e, address);
      }
    }
  }

  lemma StandingOfMore(xs: Log, x: Entry)
    ensures Standing(xs + [x]) == Standing(xs) + [x.task]
  {
  }

  // ----- rows in order -----

  ghost predicate InOrder(h: History)
  {
    Lawful(h) && Truthful(h)
  }

  lemma NowInOrder(h: History)
    requires InOrder(h)
    ensures RiderKnown(Now(h)) && Tells(Now(h).timeline, Now(h).status, Now(h).route)
  {
  }

  /** A further row on the same route is lawful, or truthful, exactly when it is so by itself. */
  lemma OneMoreLawful(h: History, t: Task)
    requires Lawful(h) && t.route == Now(h).route
    ensures Lawful(h + [t]) <==> RiderKnown(t)
  {
    var r: History := h + [t];
    assert r[|h|] == t && forall i :: 0 <= i < |h| ==> r[i] == h[i];
  }

  lemma OneMoreTruthful(h: History, t: Task)
    requires Truthful(h)
    ensures Truthful(h + [t]) <==> Tells(t.timeline, t.status, t.route)
  {
    var r: History := h + [t];
    assert r[|h|] == t && forall i :: 0 <= i < |h| ==> r[i] == h[i];
  }

  // ----- exactly when a write-back does no harm -----

  /** The nodes of this route that the two statuses light are the same. */
  predicate SameNodes(a: OrderStatus, b: OrderStatus, route: Option<Route>)
  {
    forall i :: 0 <= i < |RouteKeys(route)| ==> (Rank(RouteKeys(route)[i]) < Level(a) <==> Rank(RouteKeys(route)[i]) < Level(b))
  }

  /** On the full route the same nodes means the same level. */
  lemma SameNodesSameLevel(a: OrderStatus, b: OrderStatus, route: Option<Route>)
    requires route != Some(CustomerPickup)
    ensures SameNodes(a, b, route) <==> Level(a) == Level(b)
  {
    var ks := RouteKeys(route);
    assert Rank(ks[0]) == 0 && Rank(ks[1]) == 1 && Rank(ks[2]) == 2 && Rank(ks[3]) == 3 && Rank(ks[4]) == 4 && Rank(ks[5]) == 5;
  }

  /** A status before outbound needs an order not yet out, any other one that is; past the shop it needs a rider. */
  predicate MayStandAt(t: Task, to: OrderStatus)
  {
    && (to in {Paid, Picking} <==> t.route.None?)
    && (to in {Arrived, FirstMile, WaitingHandover, LastMile, Delivered, Completed} ==> t.rider.Some?)
  }

  lemma TellsAnother(t: seq<Node>, a: OrderStatus, b: OrderStatus, route: Option<Route>)
    requires Tells(t, a, route)
    ensures Tells(t, b, route) <==> SameNodes(a, b, route)
  {
    var ks := RouteKeys(route);
    if SameNodes(a, b, route) {
      forall i | 0 <= i < |t| ensures NodeTells(t[i], b) {
        assert NodeTells(t[i], a);
        KeyPresent(t, t[i].key);
      }
    } else {
      var n :| 0 <= n < |ks| && (Rank(ks[n]) < Level(a) <==> Rank(ks[n]) >= Level(b));
      KeyPresent(t, ks[n]);
      var i :| 0 <= i < |t| && t[i].key == ks[n];
      assert NodeTells(t[i], a) && !NodeTells(t[i], b);
    }
  }

  lemma RiderKnownAt(t: Task, to: OrderStatus)
    requires RiderKnown(t) && RestoreTarget(Some(to)) == to
    ensures RiderKnown(t.(status := to)) <==> MayStandAt(t, to)
  {
  }

  /**
   Exactly when writing a remembered status back leaves the delivery row in order: the timeline still
   tells it if and only if the two statuses light the same nodes of the route, and the status still
   fits the row if and only if it needs no rider that is gone and no outbound that has or has not been.
   */
  lemma WriteBackHarmlessExactlyWhen(xs: Log, to: OrderStatus, address: Address)
    requires InOrder(Standing(xs)) && RestoreTarget(Some(to)) == to
    ensures var t, r := Last(xs).task, Standing(Extended(xs, WriteBack(to), address));
            && (Truthful(r) <==> SameNodes(t.status, to, t.route))
            && (Lawful(r) <==> MayStandAt(t, to))
  {
    var t, h := Last(xs).task, Standing(xs);
    assert Now(h) == t;
    NowInOrder(h);
    StandingOfMore(xs, Entry(t.(status := to), false));
    OneMoreLawful(h, t.(status := to));
    OneMoreTruthful(h, t.(status := to));
    TellsAnother(t.timeline, t.status, to, t.route);
    RiderKnownAt(t, to);
  }

  /** Writing back the status the order was held at is always harmless. */
  lemma WriteBackOfTheHeldStatus(t: Task)
    requires RiderKnown(t)
    ensures SameNodes(t.status, t.status, t.route)
    ensures RestoreTarget(Some(t.status)) == t.status ==> MayStandAt(t, t.status)
  {
  }

  lemma HoldKeepsAll(xs: Log, seen: nat, address: Address)
    requires InOrder(Standing(xs))
    ensures InOrder(Standing(Extended(xs, Hold(seen), address)))
  {
    if Outcome(xs, Hold(seen), address).Some? {
      var t, h := Last(xs).task, Standing(xs);
      assert Now(h) == t;
      NowInOrder(h);
      StandingOfMore(xs, Entry(t, true));
      OneMoreLawful(h, t);
      OneMoreTruthful(h, t);
    }
  }

  lemma WorkKeepsAll(xs: Log, e: Event, address: Address)
    requires InOrder(Standing(xs)) && Harmless(xs, Work(e), address)
    ensures InOrder(Standing(Extended(xs, Work(e), address)))
  {
    if Outcome(xs, Work(e), address).Some? {
      WorkStands(xs, e, address);
      StandingOfMore(xs, Outcome(xs, Work(e), address).value);
      EventLawful(Standing(xs), e, address);
      TruthfulUnlessSkipped(Standing(xs), e, address);
    }
  }

  /** A move that does the delivery row no harm. */
  predicate Harmless(xs: Log, m: Move, address: Address)
  {
    match m
    case Work(e) => Outcome(xs, m, address).Some? && e.seen < |xs| ==> !Skips(Standing(xs), e)
    case Hold(_) => true
    case WriteBack(to) => RestoreTarget(Some(to)) == to ==>
      SameNodes(Last(xs).task.status, to, Last(xs).task.route) && MayStandAt(Last(xs).task, to)
  }

  predicate HarmlessRun(xs: Log, ms: seq<Move>, address: Address)
  {
    ms == []
    || (HarmlessRun(xs, ms[..|ms| - 1], address) && Harmless(RunMoves(xs, ms[..|ms| - 1], address), ms[|ms| - 1], address))
  }

  lemma MoveKeepsAll(xs: Log, m: Move, address: Address)
    requires InOrder(Standing(xs)) && Harmless(xs, m, address)
    ensures InOrder(Standing(Extended(xs, m, address)))
  {
    match m
    case Work(e) => WorkKeepsAll(xs, e, address);
    case Hold(seen) => HoldKeepsAll(xs, seen, address);
    case WriteBack(to) =>
      if RestoreTarget(Some(to)) == to { WriteBackHarmlessExactlyWhen(xs, to, address); }
  }

  lemma {:induction false} RunInOrder(xs: Log, ms: seq<Move>, address: Address)
    requires InOrder(Standing(xs)) && HarmlessRun(xs, ms, address)
    ensures InOrder(Standing(RunMoves(xs, ms, address)))
  {
    if ms != [] {
      RunInOrder(xs, ms[..|ms| - 1], address);
      MoveKeepsAll(RunMoves(xs, ms[..|ms| - 1], address), ms[|ms| - 1], address);
    }
  }

  lemma FreeRowStands(xs: Log)
    ensures Now(Standing(xs)) == Last(xs).task
    ensures !Last(xs).held ==> Now(Stored(xs)) == Last(xs).task
  {
  }

  /**
   Over every run of work, holds and write-backs that each meet their condition: whenever no refund
   holds the order, its stored row knows its rider and its timeline tells its status.
   */
  lemma HoldsLeaveRowsInOrder(xs: Log, ms: seq<Move>, address: Address)
    requires InOrder(Standing(xs)) && HarmlessRun(xs, ms, address)
    ensures var r := RunMoves(xs, ms, address);
            !Last(r).held ==> var t := Now(Stored(r)); RiderKnown(t) && Tells(t.timeline, t.status, t.route)
  {
    var r := RunMoves(xs, ms, address);
    RunInOrder(xs, ms, address);
    NowInOrder(Standing(r));
    FreeRowStands(r);
  }

  predicate OwnTransfer(m: Move, owner: StaffId)
  {
    m.Work? && m.event.Act? && m.event.action == Transfer && m.event.staff.id == owner
  }

  lemma CommitKeepsOwner(h: History, e: Event, address: Address, owner: StaffId)
    requires Lawful(h) && Now(h).rider == Some(owner) && Effect(h, e, address).Some?
    requires !OwnTransfer(Work(e), owner)
    ensures Effect(h, e, address).value.rider == Some(owner)
  {
    OwnerHoldsAlone(h, e, address, owner);
    assert Now(Extend(h, e, address)) == Effect(h, e, address).value;
  }

  lemma MoveKeepsOwner(xs: Log, m: Move, address: Address, owner: StaffId)
    requires InOrder(Standing(xs)) && Last(xs).task.rider == Some(owner) && !OwnTransfer(m, owner)
    ensures Last(Extended(xs, m, address)).task.rider == Some(owner)
  {
    if Outcome(xs, m, address).Some? {
      assert Last(Extended(xs, m, address)) == Outcome(xs, m, address).value;
      match m
      case Work(e) =>
        WorkStands(xs, e, address);
        assert Now(Standing(xs)) == Last(xs).task;
        CommitKeepsOwner(Standing(xs), e, address, owner);
      case _ =>
    }
  }

  /** Ownership, holds included: nothing but the owner's own transfer ends it, over every harmless run. */
  lemma {:induction false} OwnedThroughHolds(xs: Log, ms: seq<Move>, address: Address, owner: StaffId)
    requires InOrder(Standing(xs)) && HarmlessRun(xs, ms, address) && Last(xs).task.rider == Some(owner)
    requires forall i :: 0 <= i < |ms| ==> !OwnTransfer(ms[i], owner)
    ensures Last(RunMoves(xs, ms, address)).task.rider == Some(owner)
  {
    if ms != [] {
      var init := ms[..|ms| - 1];
      OwnedThroughHolds(xs, init, address, owner);
      RunInOrder(xs, init, address);
      MoveKeepsOwner(RunMoves(xs, init, address), ms[|ms| - 1], address, owner);
    }
  }

  // ----- without refunds this is the hand-over itself -----

  function Works(es: seq<Event>): (ms: seq<Move>)
    ensures |ms| == |es| && forall i :: 0 <= i < |es| ==> ms[i] == Work(es[i])
  {
    seq(|es|, i requires 0 <= i < |es| => Work(es[i]))
  }

  function Free(h: History): (xs: Log)
    ensures |xs| == |h| && forall i :: 0 <= i < |h| ==> xs[i] == Entry(h[i], false)
  {
    seq(|h|, i requires 0 <= i < |h| => Entry(h[i], false))
  }

  lemma FreeRows(h: History)
    ensures Stored(Free(h)) == h && Standing(Free(h)) == h
  {
  }

  lemma FreeMove(h: History, e: Event, address: Address)
    ensures Extended(Free(h), Work(e), address) == Free(Extend(h, e, address))
  {
    FreeRows(h);
  }

  lemma {:induction false} NoHoldsNoChange(h: History, es: seq<Event>, address: Address)
    ensures RunMoves(Free(h), Works(es), address) == Free(Run(h, es, address))
  {
    if es != [] {
      var init := es[..|es| - 1];
      NoHoldsNoChange(h, init, address);
      assert Works(es)[..|es| - 1] == Works(init);
      FreeMove(Run(h, init, address), es[|es| - 1], address);
    }
  }

  // ----- the dead end -----

  /** On the road, somebody is offered something exactly while a rider is set. */
  lemma OnTheRoadNeedsItsRider(t: Task)
    requires t.status == FirstMile
    ensures (exists role, viewer :: Actions(role, t, viewer) != {}) <==> t.rider.Some?
  {
    if t.rider.Some? {
      assert Transfer in Actions(Rider, t, t.rider.value);
    }
  }

  /** And without one nothing that is offered, on any read, ever moves it again. */
  lemma {:induction false} StuckOnTheRoad(h: History, es: seq<Event>, address: Address)
    requires Now(h).status == FirstMile && Now(h).rider.None? && OfferedRun(h, es, address)
    ensures Run(h, es, address) == h
  {
    if es != [] {
      StuckOnTheRoad(h, es[..|es| - 1], address);
      NothingMovesIt(h, es[|es| - 1], address);
    }
  }

  lemma NothingMovesIt(h: History, e: Event, address: Address)
    requires Now(h).status == FirstMile && Now(h).rider.None? && Offered(h, e)
    ensures Effect(h, e, address) == None
  {
  }
}
