/**
 Settling refunds and taking courier pay back, as the two transactions they are.

 Settling fixes, under the order's lock, the total paid back so far, and leaves it on a slip. Booking
 the slip against the couriers' pay is a later transaction of its own: slips may be booked in another
 order than they were written, and a process that dies in between never books its slip. Pay itself is
 recorded whenever the order is delivered, which may be before or after a slip is booked.
 */
module Clawback {
  import opened Sums
  import opened OrderState
  import opened Trade
  import opened TradeSafety
  import opened TradeSettled
  import opened TradeRefunds
  import TradeRaces
  import opened Commission

  /** The total a settlement carries over to the adjustment. */
  datatype Slip = Slip(order: nat, total: int)

  /** The shop's tables, the slips in the order they were written, and the numbers booked so far, oldest first. */
  datatype Desk = Desk(world: World, slips: seq<Slip>, booked: seq<nat>)

  /** Requests, writes on an out-of-date refund read, bookings, and deliveries recording pay. */
  datatype Event =
    | Serve(step: Step)
    | Late(write: TradeRaces.LateWrite)
    | Book(slip: nat, period: nat)
    | Record(order: nat, rider: Option<StaffId>, manager: Option<StaffId>, period: nat)

  /** What each courier is paid for an order, when its delivery is first recorded. */
  type Pay = map<(nat, StaffId), nat>

  function PayFor(pay: Pay, o: nat, s: StaffId): nat
  {
    if (o, s) in pay then pay[(o, s)] else 0
  }

  function PayOf(pay: Pay, o: nat, s: Option<StaffId>): nat
  {
    if s.Some? then PayFor(pay, o, s.value) else 0
  }

  /** Only a refund after delivery touches pay; a replay settles nothing and leaves no slip. */
  predicate LeavesSlip(w: World, s: Step)
  {
    s.Finish? && DoFinish(w, s.refund).Committed? && IsRefund(w, s.refund) && w.refunds[s.refund].source == AfterSale
  }

  function SlipOf(w: World, r: nat): Slip
    requires IsRefund(w, r)
  {
    var rf := w.refunds[r];
    Slip(rf.order, RefundTotal(w.refunds, Settled, rf.order) + rf.amount)
  }

  predicate MayBook(d: Desk, k: nat)
  {
    k < |d.slips| && k !in d.booked
  }

  function After(d: Desk, e: Event): Desk
  {
    match e
    case Serve(s) => Desk(Next(d.world, s), d.slips + (if LeavesSlip(d.world, s) then [SlipOf(d.world, s.refund)] else []), d.booked)
    case Late(u) => d.(world := TradeRaces.Write(d.world, u))
    case Book(k, _) => if MayBook(d, k) then d.(booked := d.booked + [k]) else d
    case Record(_, _, _, _) => d
  }

  function RunDesk(w: World, es: seq<Event>): Desk
  {
    if es == [] then Desk(w, [], []) else After(RunDesk(w, es[..|es| - 1]), es[|es| - 1])
  }

  function GoodsPaid(w: World, o: nat): int
  {
    if o < |w.orders| then w.orders[o].payable - w.orders[o].fee else 0
  }

  /** One event on the pay rows, given the desk it finds. */
  function Payout(t: Table, d: Desk, pay: Pay, e: Event): Table
  {
    match e
    case Book(k, period) =>
      if MayBook(d, k)
      then Adjust(t, d.slips[k].order, RefundRatio(d.slips[k].total, GoodsPaid(d.world, d.slips[k].order)), period)
      else t
    case Record(o, rider, manager, period) =>
      Commission.Record(t, o, rider, manager, PayOf(pay, o, rider), PayOf(pay, o, manager), period)
    case _ => t
  }

  /** The pay rows along the run: every row comes from a recorded delivery or a booking. */
  function RunTable(w: World, pay: Pay, es: seq<Event>): Table
  {
    if es == [] then map[]
    else
      var init, last := es[..|es| - 1], es[|es| - 1];
      Payout(RunTable(w, pay, init), RunDesk(w, init), pay, last)
  }

  predicate HonestEvents(w: World, es: seq<Event>)
  {
    es == []
    || var init, last := es[..|es| - 1], es[|es| - 1];
       HonestEvents(w, init) && (last.Serve? ==> Honest(RunDesk(w, init).world, last.step))
  }

  // ----- what the slips say -----

  /** The slip last booked for an order, if any. */
  function LastBooked(d: Desk, o: nat): Option<nat>
  {
    LastOf(d.slips, d.booked, o)
  }

  function LastOf(slips: seq<Slip>, booked: seq<nat>, o: nat): (k: Option<nat>)
    ensures k.Some? ==> k.value < |slips| && slips[k.value].order == o
  {
    if booked == [] then None
    else
      var k := booked[|booked| - 1];
      if k < |slips| && slips[k].order == o then Some(k) else LastOf(slips, booked[..|booked| - 1], o)
  }

  /** The total the order's pay was last adjusted for; nothing before the first booking. */
  function Carried(d: Desk, o: nat): int
  {
    var k := LastBooked(d, o);
    if k.Some? then d.slips[k.value].total else 0
  }

  function SettledTotal(d: Desk, o: nat): int
  {
    RefundTotal(d.world.refunds, Settled, o)
  }

  /** Slips are of real orders and worth something, and only slips are booked. */
  ghost predicate SlipsSound(d: Desk)
  {
    && (forall k :: 0 <= k < |d.slips| ==> d.slips[k].order < |d.world.orders| && 1 <= d.slips[k].total)
    && (forall i :: 0 <= i < |d.booked| ==> d.booked[i] < |d.slips|)
  }

  /** The totals of an order grow settlement by settlement, and none is ahead of the order's own. */
  ghost predicate SlipsInOrder(d: Desk)
  {
    && SlipsSound(d)
    && (forall k :: 0 <= k < |d.slips| ==> d.slips[k].total <= SettledTotal(d, d.slips[k].order))
    && (forall j, k :: 0 <= j < k < |d.slips| && d.slips[j].order == d.slips[k].order ==> d.slips[j].total < d.slips[k].total)
  }

  /** A slip carries the order's settled total as it stands right after its settlement. */
  lemma SlipIsTheSettledTotal(w: World, s: Step)
    requires Sound(w) && Honest(w, s) && LeavesSlip(w, s)
    ensures var slip := SlipOf(w, s.refund);
            && slip.total == RefundTotal(Next(w, s).refunds, Settled, slip.order)
            && slip.total > RefundTotal(w.refunds, Settled, slip.order) && slip.order < |w.orders|
  {
    StepMovesSettled(w, s, w.refunds[s.refund].order);
    assert RefundSound(w, w.refunds[s.refund]);
  }

  lemma EventKeepsSlipsSound(d: Desk, e: Event)
    requires Sound(d.world) && (e.Serve? ==> Honest(d.world, e.step)) && SlipsSound(d)
    ensures Sound(After(d, e).world) && SlipsSound(After(d, e))
  {
    match e
    case Serve(s) =>
      StepSound(d.world, s);
      if LeavesSlip(d.world, s) {
        SlipIsTheSettledTotal(d.world, s);
        SettledNonNegative(d.world, d.world.refunds[s.refund].order);
      }
    case Late(u) => TradeRaces.LateWriteSound(d.world, u);
    case _ =>
  }

  lemma {:induction false} DeskStaysSound(w: World, es: seq<Event>)
    requires Sound(w) && HonestEvents(w, es)
    ensures Sound(RunDesk(w, es).world) && SlipsSound(RunDesk(w, es))
  {
    if es != [] {
      DeskStaysSound(w, es[..|es| - 1]);
      EventKeepsSlipsSound(RunDesk(w, es[..|es| - 1]), es[|es| - 1]);
    }
  }

  lemma NewSlipInOrder(d: Desk, v: Desk, slip: Slip)
    requires SlipsInOrder(d) && SlipsSound(v) && v.booked == d.booked && v.slips == d.slips + [slip]
    requires forall o :: SettledTotal(d, o) <= SettledTotal(v, o)
    requires slip.total == SettledTotal(v, slip.order) && slip.total > SettledTotal(d, slip.order)
    ensures SlipsInOrder(v)
  {
  }

  lemma ServeKeepsSlips(d: Desk, s: Step)
    requires Sound(d.world) && Honest(d.world, s) && SlipsInOrder(d)
    ensures SlipsInOrder(After(d, Serve(s)))
  {
    var v := After(d, Serve(s));
    EventKeepsSlipsSound(d, Serve(s));
    forall o ensures SettledTotal(d, o) <= SettledTotal(v, o) {
      SettledOnlyGrows(d.world, s, o);
    }
    if LeavesSlip(d.world, s) {
      SlipIsTheSettledTotal(d.world, s);
      NewSlipInOrder(d, v, SlipOf(d.world, s.refund));
    } else {
      assert v.slips == d.slips;
    }
  }

  predicate NothingLate(es: seq<Event>)
  {
    forall i :: 0 <= i < |es| ==> !es[i].Late?
  }

  lemma {:induction false} DeskStaysInOrder(w: World, es: seq<Event>)
    requires Sound(w) && HonestEvents(w, es) && NothingLate(es)
    ensures Sound(RunDesk(w, es).world) && SlipsInOrder(RunDesk(w, es))
  {
    DeskStaysSound(w, es);
    if es != [] {
      var init, last := es[..|es| - 1], es[|es| - 1];
      DeskStaysInOrder(w, init);
      if last.Serve? {
        ServeKeepsSlips(RunDesk(w, init), last.step);
      }
    }
  }

  /** The total carried is the settled one only if the newest slip was the last booked and nothing was settled since. */
  lemma CarriedIsNewest(d: Desk, o: nat, k: nat)
    requires SlipsInOrder(d) && LastBooked(d, o) == Some(k) && Carried(d, o) == SettledTotal(d, o)
    ensures forall j :: k < j < |d.slips| ==> d.slips[j].order != o
  {
  }

  // ----- what is taken back -----

  /** What a courier owes for a total paid back; nothing when nothing was. */
  function Owed(earned: nat, total: int, goods: int): nat
  {
    if total <= 0 then 0
    else
      var r := RefundRatio(total, goods);
      RoundedShare(earned, r.num, r.den)
  }

  lemma {:induction false} LastOfMore(slips: seq<Slip>, more: seq<Slip>, booked: seq<nat>, o: nat)
    requires forall i :: 0 <= i < |booked| ==> booked[i] < |slips|
    ensures LastOf(slips + more, booked, o) == LastOf(slips, booked, o)
  {
    if booked != [] {
      LastOfMore(slips, more, booked[..|booked| - 1], o);
    }
  }

  lemma EventKeepsGoodsPaid(d: Desk, e: Event, o: nat)
    requires Sound(d.world) && (e.Serve? ==> Honest(d.world, e.step)) && o < |d.world.orders|
    ensures GoodsPaid(After(d, e).world, o) == GoodsPaid(d.world, o)
  {
    if e.Serve? {
      StepSound(d.world, e.step);
      assert Persists(d.world.orders[o], Next(d.world, e.step).orders[o]);
    }
  }

  lemma OthersKeepCarried(d: Desk, e: Event, o: nat)
    requires Sound(d.world) && (e.Serve? ==> Honest(d.world, e.step)) && SlipsSound(d) && !e.Book?
    ensures Carried(After(d, e), o) == Carried(d, o)
    ensures Carried(d, o) > 0 ==> GoodsPaid(After(d, e).world, o) == GoodsPaid(d.world, o)
  {
    if e.Serve? {
      LastOfMore(d.slips, if LeavesSlip(d.world, e.step) then [SlipOf(d.world, e.step.refund)] else [], d.booked, o);
    }
    if o < |d.world.orders| {
      EventKeepsGoodsPaid(d, e, o);
    }
  }

  lemma BookCarries(d: Desk, k: nat, o: nat, period: nat)
    requires MayBook(d, k)
    ensures Carried(After(d, Book(k, period)), o) == if d.slips[k].order == o then d.slips[k].total else Carried(d, o)
  {
    assert (d.booked + [k])[..|d.booked|] == d.booked;
  }

  predicate Names(e: Event, o: nat, s: StaffId)
  {
    e.Record? && e.order == o && (e.rider == Some(s) || e.manager == Some(s))
  }

  /** The courier's pay for the order has been recorded. */
  predicate Recorded(es: seq<Event>, o: nat, s: StaffId)
  {
    es != [] && (Recorded(es[..|es| - 1], o, s) || Names(es[|es| - 1], o, s))
  }

  predicate BooksFor(d: Desk, e: Event, o: nat)
  {
    e.Book? && MayBook(d, e.slip) && d.slips[e.slip].order == o
  }

  /** It was already recorded when the order's last slip was booked. */
  predicate InTime(w: World, es: seq<Event>, o: nat, s: StaffId)
  {
    es != []
    && var init, last := es[..|es| - 1], es[|es| - 1];
       if BooksFor(RunDesk(w, init), last, o) then Recorded(init, o, s) else InTime(w, init, o, s)
  }

  /** The total the courier's pay was last adjusted for. */
  function Reached(w: World, es: seq<Event>, o: nat, s: StaffId): int
  {
    if InTime(w, es, o, s) then Carried(RunDesk(w, es), o) else 0
  }

  lemma AdjustTakes(now: Table, o: nat, s: StaffId, total: int, goods: int, period: nat)
    requires Key(o, s, Earned) in now && now[Key(o, s, Earned)].amount >= 0 && total >= 1
    ensures var after := Adjust(now, o, RefundRatio(total, goods), period);
            && Key(o, s, Earned) in after && after[Key(o, s, Earned)] == now[Key(o, s, Earned)]
            && AmountAt(after, Key(o, s, Adjustment)) == 0 - Owed(now[Key(o, s, Earned)].amount, total, goods)
  {
    var r := RefundRatio(total, goods);
    AdjustKeepsEarnings(now, o, r, period);
    NetAfterAdjust(now, o, s, r, period);
  }

  /** Nobody without recorded pay is adjusted. */
  lemma AdjustSparesOthers(now: Table, o: nat, s: StaffId, r: Ratio, period: nat)
    requires Proper(r) && Key(o, s, Earned) !in now
    ensures var after := Adjust(now, o, r, period);
            Key(o, s, Earned) !in after && AmountAt(after, Key(o, s, Adjustment)) == AmountAt(now, Key(o, s, Adjustment))
  {
    var after, key := Adjust(now, o, r, period), Key(o, s, Adjustment);
    AdjustKeepsEarnings(now, o, r, period);
    assert (if key in after then Some(after[key]) else None) == Rewritten(now, o, Earners(now, o), r, period, key);
  }

  /** A courier's two rows on an order: pay as recorded, and taken back what is owed for the total that reached it. */
  predicate Rows(t: Table, o: nat, s: StaffId, recorded: bool, earned: nat, reached: int, goods: int)
  {
    && (Key(o, s, Earned) in t <==> recorded)
    && (recorded ==> t[Key(o, s, Earned)].amount == earned)
    && AmountAt(t, Key(o, s, Adjustment)) == 0 - Owed(earned, reached, goods)
  }

  lemma RecordGivesRows(t: Table, pay: Pay, e: Event, o: nat, s: StaffId, recorded: bool, reached: int, goods: int)
    requires e.Record? && Rows(t, o, s, recorded, PayFor(pay, o, s), reached, goods)
    ensures Rows(Commission.Record(t, e.order, e.rider, e.manager, PayOf(pay, e.order, e.rider), PayOf(pay, e.order, e.manager), e.period),
                 o, s, recorded || Names(e, o, s), PayFor(pay, o, s), reached, goods)
  {
  }

  lemma BookGivesRows(t: Table, slip: Slip, period: nat, o: nat, s: StaffId, recorded: bool, earned: nat, reached: int, world: World)
    requires Rows(t, o, s, recorded, earned, reached, GoodsPaid(world, o)) && slip.total >= 1 && (!recorded ==> reached == 0)
    ensures Rows(Adjust(t, slip.order, RefundRatio(slip.total, GoodsPaid(world, slip.order)), period), o, s, recorded, earned,
                 if slip.order != o then reached else if recorded then slip.total else 0, GoodsPaid(world, o))
  {
    var r := RefundRatio(slip.total, GoodsPaid(world, slip.order));
    if slip.order != o {
      AdjustKeepsEarnings(t, slip.order, r, period);
    } else if recorded {
      AdjustTakes(t, o, s, slip.total, GoodsPaid(world, o), period);
    } else {
      AdjustSparesOthers(t, o, s, r, period);
    }
  }

  lemma {:induction false} InTimeIsRecorded(w: World, es: seq<Event>, o: nat, s: StaffId)
    requires InTime(w, es, o, s)
    ensures Recorded(es, o, s)
  {
    if !BooksFor(RunDesk(w, es[..|es| - 1]), es[|es| - 1], o) {
      InTimeIsRecorded(w, es[..|es| - 1], o, s);
    }
  }

  /** The rows after these events are as the last booking left them. */
  predicate Decided(w: World, pay: Pay, es: seq<Event>, o: nat, s: StaffId)
  {
    Rows(RunTable(w, pay, es), o, s, Recorded(es, o, s), PayFor(pay, o, s), Reached(w, es, o, s), GoodsPaid(RunDesk(w, es).world, o))
  }

  lemma BookingDecides(w: World, pay: Pay, es: seq<Event>, k: nat, period: nat, o: nat, s: StaffId)
    requires Sound(w) && HonestEvents(w, es) && Decided(w, pay, es, o, s)
    ensures Decided(w, pay, es + [Book(k, period)], o, s)
  {
    var more := es + [Book(k, period)];
    assert more[..|es|] == es;
    var d, t := RunDesk(w, es), RunTable(w, pay, es);
    DeskStaysSound(w, es);
    if MayBook(d, k) {
      BookCarries(d, k, o, period);
      if !Recorded(es, o, s) && InTime(w, es, o, s) { InTimeIsRecorded(w, es, o, s); }
      BookGivesRows(t, d.slips[k], period, o, s, Recorded(es, o, s), PayFor(pay, o, s), Reached(w, es, o, s), d.world);
    }
  }

  lemma OthersDecide(w: World, pay: Pay, es: seq<Event>, e: Event, o: nat, s: StaffId)
    requires Sound(w) && HonestEvents(w, es + [e]) && !e.Book? && HonestEvents(w, es) && Decided(w, pay, es, o, s)
    ensures Decided(w, pay, es + [e], o, s)
  {
    var more := es + [e];
    assert more[..|es|] == es;
    var d, t := RunDesk(w, es), RunTable(w, pay, es);
    DeskStaysSound(w, es);
    OthersKeepCarried(d, e, o);
    if e.Record? {
      RecordGivesRows(t, pay, e, o, s, Recorded(es, o, s), Reached(w, es, o, s), GoodsPaid(d.world, o));
    }
  }

  /**
   Over every run, whatever was settled, erased, reordered, lost, booked or recorded: a courier's pay is
   taken back for the total on the slip last booked, if the pay stood by then, and not at all otherwise.
   */
  lemma {:induction false} LastBookingDecides(w: World, pay: Pay, es: seq<Event>, o: nat, s: StaffId)
    requires Sound(w) && HonestEvents(w, es)
    ensures Rows(RunTable(w, pay, es), o, s, Recorded(es, o, s), PayFor(pay, o, s), Reached(w, es, o, s),
                 GoodsPaid(RunDesk(w, es).world, o))
  {
    if es != [] {
      var init, last := es[..|es| - 1], es[|es| - 1];
      LastBookingDecides(w, pay, init, o, s);
      assert es == init + [last];
      match last
      case Book(k, period) => BookingDecides(w, pay, init, k, period, o, s);
      case _ => OthersDecide(w, pay, init, last, o, s);
    }
  }

  // ----- when it is the right amount -----

  /** The total carried is the settled one, or both already cover all the goods. */
  predicate Current(carried: int, settled: int, goods: int)
  {
    carried == settled || (1 <= carried && 1 <= settled && goods <= carried && goods <= settled)
  }

  lemma TwiceTheGoods(goods: int, total: int)
    requires total >= 1
    ensures var r := RefundRatio(total, goods);
            Owed(2 * r.den, total, goods) == 2 * r.num
  {
    var r := RefundRatio(total, goods);
    var n := 2 * (2 * r.den) * r.num + r.den;
    assert n == (2 * r.den) * (2 * r.num) + r.den;
    QuotientOf(2 * r.den, 2 * r.num, r.den);
  }

  lemma QuotientOf(d: nat, q: nat, rest: nat)
    requires rest < d
    ensures (d * q + rest) / d == q
  {
    var x := (d * q + rest) / d;
    assert d * q + rest == d * x + (d * q + rest) % d;
    if x < q {
      Times(d, x + 1, q);
      assert false;
    }
    if q < x {
      Times(d, q + 1, x);
      assert false;
    }
  }

  /** Two totals take the same from everyone exactly when they are the same, or both cover all the goods. */
  lemma OwedAgreesExactlyWhen(carried: int, settled: int, goods: int)
    requires carried >= 0 && settled >= 0
    ensures (forall earned: nat :: Owed(earned, carried, goods) == Owed(earned, settled, goods)) <==> Current(carried, settled, goods)
  {
    if !Current(carried, settled, goods) {
      var probe: nat := if goods <= 0 then 2 else 2 * goods;
      if carried >= 1 { TwiceTheGoods(goods, carried); }
      if settled >= 1 { TwiceTheGoods(goods, settled); }
      assert Owed(probe, carried, goods) != Owed(probe, settled, goods);
    }
  }

  /** The courier owes what one refund of the order's settled total would take. */
  predicate RightFor(w: World, pay: Pay, es: seq<Event>, o: nat, s: StaffId)
  {
    var d := RunDesk(w, es);
    NetPay(RunTable(w, pay, es), o, s) == PayFor(pay, o, s) - Owed(PayFor(pay, o, s), SettledTotal(d, o), GoodsPaid(d.world, o))
  }

  /** With nothing settled, nothing is to be taken; otherwise the last booking must have found the pay, and be current. */
  predicate BookedRight(w: World, es: seq<Event>, o: nat, s: StaffId)
  {
    var d := RunDesk(w, es);
    if InTime(w, es, o, s) then Current(Carried(d, o), SettledTotal(d, o), GoodsPaid(d.world, o)) else SettledTotal(d, o) == 0
  }

  lemma NetIsOwed(w: World, pay: Pay, es: seq<Event>, o: nat, s: StaffId)
    requires Sound(w) && HonestEvents(w, es) && Recorded(es, o, s)
    ensures NetPay(RunTable(w, pay, es), o, s)
         == PayFor(pay, o, s) - Owed(PayFor(pay, o, s), Reached(w, es, o, s), GoodsPaid(RunDesk(w, es).world, o))
  {
    LastBookingDecides(w, pay, es, o, s);
  }

  lemma TotalsNonNegative(w: World, es: seq<Event>, o: nat, s: StaffId)
    requires Sound(w) && HonestEvents(w, es)
    ensures SettledTotal(RunDesk(w, es), o) >= 0 && Reached(w, es, o, s) >= 0
  {
    DeskStaysSound(w, es);
    SettledNonNegative(RunDesk(w, es).world, o);
  }

  /**
   Exactly when the clawback is right: after any run, a courier whose pay was recorded owes what one
   refund of the order's settled total takes, whatever the pay was, if and only if the slip last booked
   found the pay recorded and carries that total (or it and the total both cover all the goods). A slip
   booked out of turn or never booked, and pay recorded only after the booking, all show here.
   */
  lemma ClawbackRightExactlyWhen(w: World, es: seq<Event>, o: nat, s: StaffId)
    requires Sound(w) && HonestEvents(w, es) && Recorded(es, o, s)
    ensures (forall pay: Pay :: RightFor(w, pay, es, o, s)) <==> BookedRight(w, es, o, s)
  {
    var d := RunDesk(w, es);
    var reached, settled, goods := Reached(w, es, o, s), SettledTotal(d, o), GoodsPaid(d.world, o);
    TotalsNonNegative(w, es, o, s);
    OwedAgreesExactlyWhen(reached, settled, goods);
    assert BookedRight(w, es, o, s) <==> Current(reached, settled, goods);
    if Current(reached, settled, goods) {
      forall pay: Pay ensures RightFor(w, pay, es, o, s) {
        NetIsOwed(w, pay, es, o, s);
      }
    } else {
      var earned: nat :| Owed(earned, reached, goods) != Owed(earned, settled, goods);
      var pay: Pay := map[(o, s) := earned];
      NetIsOwed(w, pay, es, o, s);
      assert !RightFor(w, pay, es, o, s);
    }
  }

  /**
   Path independence, where it holds: however many partial refunds there were and however their slips
   were shuffled or lost, if that condition is met every courier keeps what one refund of the settled
   total, booked on pay already recorded, would have left.
   */
  lemma ClawbackIsPathIndependent(w: World, es: seq<Event>, pay: Pay, o: nat, s: StaffId, period: nat)
    requires Sound(w) && HonestEvents(w, es) && Recorded(es, o, s) && BookedRight(w, es, o, s)
    requires SettledTotal(RunDesk(w, es), o) >= 1
    ensures var d := RunDesk(w, es);
            var paid := map[Key(o, s, Earned) := Row(PayFor(pay, o, s), period)];
            NetPay(RunTable(w, pay, es), o, s)
              == NetPay(Adjust(paid, o, RefundRatio(SettledTotal(d, o), GoodsPaid(d.world, o)), period), o, s)
  {
    var d := RunDesk(w, es);
    var paid: Table := map[Key(o, s, Earned) := Row(PayFor(pay, o, s), period)];
    ClawbackRightExactlyWhen(w, es, o, s);
    assert RightFor(w, pay, es, o, s);
    AdjustTakes(paid, o, s, SettledTotal(d, o), GoodsPaid(d.world, o), period);
  }

  /** Of what was earned, this is what is left when this much of the goods was refunded, give or take half a fen. */
  predicate KeepsTheRest(earned: nat, kept: int, refunded: int, goods: int)
  {
    && 0 <= kept <= earned
    && (refunded == 0 ==> kept == earned)
    && (1 <= refunded && goods <= refunded ==> kept == 0)
    && (refunded <= goods ==> 0 - goods <= 2 * goods * (earned - kept) - 2 * earned * refunded <= goods)
  }

  lemma OwedLeavesTheRest(earned: nat, kept: int, refunded: int, goods: int)
    requires refunded >= 0 && kept == earned - Owed(earned, refunded, goods)
    ensures KeepsTheRest(earned, kept, refunded, goods)
  {
    var r := RefundRatio(refunded, goods);
    RoundedShareBounds(earned, r.num, r.den);
  }

  lemma KeptIsEarnedLessOwed(w: World, es: seq<Event>, pay: Pay, o: nat, s: StaffId)
    requires Sound(w) && HonestEvents(w, es) && Recorded(es, o, s) && BookedRight(w, es, o, s)
    ensures var v := RunDesk(w, es).world;
            && PaidOut(v.refunds, o) >= 0
            && NetPay(RunTable(w, pay, es), o, s) == PayFor(pay, o, s) - Owed(PayFor(pay, o, s), PaidOut(v.refunds, o), GoodsPaid(v, o))
  {
    TotalsNonNegative(w, es, o, s);
    TotalsMean(RunDesk(w, es).world.refunds, o);
    ClawbackRightExactlyWhen(w, es, o, s);
    assert RightFor(w, pay, es, o, s);
  }

  lemma OrderKeepsTheRest(v: World, o: nat, earned: nat, kept: int)
    requires o < |v.orders| && PaidOut(v.refunds, o) >= 0
    requires kept == earned - Owed(earned, PaidOut(v.refunds, o), GoodsPaid(v, o))
    ensures KeepsTheRest(earned, kept, PaidOut(v.refunds, o), v.orders[o].payable - v.orders[o].fee)
  {
    OwedLeavesTheRest(earned, kept, PaidOut(v.refunds, o), v.orders[o].payable - v.orders[o].fee);
  }

  /** What that means in money: the courier keeps the part of the pay that goes with the goods not refunded. */
  lemma CourierKeepsTheRest(w: World, es: seq<Event>, pay: Pay, o: nat, s: StaffId) returns (v: World, kept: int)
    requires Sound(w) && HonestEvents(w, es) && Recorded(es, o, s) && BookedRight(w, es, o, s)
    requires o < |RunDesk(w, es).world.orders|
    ensures v == RunDesk(w, es).world && kept == NetPay(RunTable(w, pay, es), o, s)
    ensures o < |v.orders| && KeepsTheRest(PayFor(pay, o, s), kept, PaidOut(v.refunds, o), v.orders[o].payable - v.orders[o].fee)
  {
    v, kept := RunDesk(w, es).world, NetPay(RunTable(w, pay, es), o, s);
    KeptIsEarnedLessOwed(w, es, pay, o, s);
    OrderKeepsTheRest(v, o, PayFor(pay, o, s), kept);
  }

  // ----- on the pay rows themselves -----

  /**
   The pay rows of an empty payroll after any run are those of the model; so under the condition above
   the courier's rows say what one refund of the settled total would have left.
   */
  method ServeAll(p: Payroll, w: World, pay: Pay, es: seq<Event>) returns (d: Desk)
    requires p.table == map[]
    modifies p
    ensures d == RunDesk(w, es) && p.table == RunTable(w, pay, es)
    ensures Sound(w) && HonestEvents(w, es) ==>
              forall o, s :: Recorded(es, o, s) && BookedRight(w, es, o, s) ==>
                NetPay(p.table, o, s) == PayFor(pay, o, s) - Owed(PayFor(pay, o, s), SettledTotal(d, o), GoodsPaid(d.world, o))
  {
    d := Desk(w, [], []);
    for i := 0 to |es|
      invariant d == RunDesk(w, es[..i]) && p.table == RunTable(w, pay, es[..i])
    {
      assert es[..i + 1][..i] == es[..i];
      match es[i] {
        case Book(k, period) =>
          if MayBook(d, k) {
            var slip := d.slips[k];
            p.RefundAdjust(slip.order, RefundRatio(slip.total, GoodsPaid(d.world, slip.order)), period);
          }
        case Record(o, rider, manager, period) =>
          p.RecordPay(o, rider, manager, PayOf(pay, o, rider), PayOf(pay, o, manager), period);
        case _ =>
      }
      d := After(d, es[i]);
    }
    assert es[..|es|] == es;
    if Sound(w) && HonestEvents(w, es) {
      forall o, s | Recorded(es, o, s) && BookedRight(w, es, o, s) ensures RightFor(w, pay, es, o, s) {
        ClawbackRightExactlyWhen(w, es, o, s);
      }
    }
  }
}
