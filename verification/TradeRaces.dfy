/**
 Writing a refund on an out-of-date read.

 Withdrawal, denial and the channel's answers check the refund's status before their transaction and
 then write without a guard. Here that check may have been made on any earlier state, so the write
 lands whatever the refund has become meanwhile.
 */
module TradeRaces {
  import opened Sums
  import opened OrderState
  import opened Trade
  import opened TradeSafety
  import opened TradeCeiling
  import opened TradeSettled

  /** `seen` is the order status that was read: a progress answer moves the order only from there. */
  datatype LateWrite =
    | Withdrawing(refund: nat)
    | Denying(refund: nat)
    | Closing(refund: nat)
    | Progressing(refund: nat, seen: OrderStatus)

  /** What the write puts the refund into. */
  function Into(u: LateWrite): RefundStatus
  {
    match u
    case Withdrawing(_) => Withdrawn
    case Denying(_) => Denied
    case Closing(_) => Failed
    case Progressing(_, _) => Refunding
  }

  /** And the order, given where it stands now. */
  function Moved(u: LateWrite, now: OrderStatus, before: Option<OrderStatus>): OrderStatus
  {
    match u
    case Withdrawing(_) => PutBack(now, WithdrawTarget(before))
    case Denying(_) => PutBack(now, RestoreTarget(before))
    case Closing(_) => PutBack(now, RestoreTarget(before))
    case Progressing(_, seen) => if now in {seen, AfterSales} then AfterSales else now
  }

  function Write(w: World, u: LateWrite): World
  {
    if !IsRefund(w, u.refund) then w
    else
      var rf := w.refunds[u.refund];
      Rewrite(w, rf.order, Moved(u, w.orders[rf.order].status, rf.before), u.refund, rf.(status := Into(u)))
  }

  function Checked(u: LateWrite): Step
  {
    match u
    case Withdrawing(r) => Withdraw(r)
    case Denying(r) => Deny(r)
    case Closing(r) => Close(r)
    case Progressing(r, _) => Processing(r)
  }

  /** The check the code makes on the refund status it read. */
  predicate Passes(u: LateWrite, status: RefundStatus)
  {
    match u
    case Withdrawing(_) => status == Pending
    case Denying(_) => status in {Pending, Failed}
    case Closing(_) => status != Finished
    case Progressing(_, _) => status != Finished
  }

  /** The late write is the lawful step exactly while what was read still holds. */
  lemma LateWriteIsTheStep(w: World, u: LateWrite)
    requires IsRefund(w, u.refund)
    ensures Perform(w, Checked(u)) == Committed(Write(w, u)) <==>
            && Passes(u, w.refunds[u.refund].status)
            && (u.Progressing? ==> w.orders[w.refunds[u.refund].order].status in {u.seen, AfterSales})
  {
    var rf := w.refunds[u.refund];
    if u.Progressing? && Passes(u, rf.status) {
      assert Write(w, u).orders[rf.order].status == Moved(u, w.orders[rf.order].status, rf.before);
    }
  }

  /** What would make a late write harmless: it takes a refund out of the count, finds it counted, or finds room for it. */
  predicate Harmless(w: World, u: LateWrite)
  {
    u.Progressing? && IsRefund(w, u.refund) ==>
      Counts(Active, w.refunds[u.refund]) || HasRoom(w, w.refunds[u.refund])
  }

  lemma LateWriteSound(w: World, u: LateWrite)
    requires Sound(w)
    ensures Sound(Write(w, u))
  {
    if IsRefund(w, u.refund) {
      var rf := w.refunds[u.refund];
      assert RefundSound(w, rf);
      RewriteSound(w, rf.order, Moved(u, w.orders[rf.order].status, rf.before), u.refund, rf.(status := Into(u)));
    }
  }

  lemma OtherOrdersUnderCeiling(w: World, o: nat, status: OrderStatus, r: nat, rf: Refund, k: nat)
    requires UnderCeiling(w) && IsRefund(w, r) && o == w.refunds[r].order == rf.order && k < |w.orders| && k != o
    ensures OrderUnderCeiling(Rewrite(w, o, status, r, rf), k)
  {
    RewriteTotals(w, o, status, r, rf, Active, k);
    RewriteTotals(w, o, status, r, rf, ActiveWithoutFee, k);
    assert OrderUnderCeiling(w, k);
  }

  /**
   Exactly when a late write keeps both ceilings: always for the three that undo, and for a progress
   answer if and only if the refund still counts or its amount fits the room that is left.
   */
  lemma LateWriteKeepsCeilingsExactlyWhen(w: World, u: LateWrite)
    requires Sound(w) && UnderCeiling(w)
    ensures UnderCeiling(Write(w, u)) <==> Harmless(w, u)
  {
    if IsRefund(w, u.refund) {
      var rf := w.refunds[u.refund];
      assert RefundSound(w, rf);
      var o, after := rf.order, rf.(status := Into(u));
      var status := Moved(u, w.orders[o].status, rf.before);
      if u.Progressing? && !Counts(Active, rf) {
        StartingToCountNeedsRoom(w, o, status, u.refund, after);
        forall k | 0 <= k < |w.orders| && k != o ensures OrderUnderCeiling(Write(w, u), k) {
          OtherOrdersUnderCeiling(w, o, status, u.refund, after, k);
        }
      } else {
        RewriteUnderCeiling(w, o, status, u.refund, after);
      }
    }
  }

  datatype Event = Lawful(step: Step) | Late(write: LateWrite)

  function After(w: World, e: Event): World
  {
    match e
    case Lawful(s) => Next(w, s)
    case Late(u) => Write(w, u)
  }

  function RunEvents(w: World, es: seq<Event>): World
  {
    if es == [] then w else After(RunEvents(w, es[..|es| - 1]), es[|es| - 1])
  }

  predicate HonestEvents(w: World, es: seq<Event>)
  {
    es == []
    || var init, last := es[..|es| - 1], es[|es| - 1];
       HonestEvents(w, init) && (last.Lawful? ==> Honest(RunEvents(w, init), last.step))
  }

  predicate AllHarmless(w: World, es: seq<Event>)
  {
    es == []
    || var init, last := es[..|es| - 1], es[|es| - 1];
       AllHarmless(w, init) && (last.Late? ==> Harmless(RunEvents(w, init), last.write))
  }

  /**
   The two-tier ceiling over every run of lawful steps and late writes mixed. Late withdrawals,
   denials and closings are always harmless; a late progress answer must find its refund counted or room for it.
   */
  lemma {:induction false} CeilingsSurviveLateWrites(w: World, es: seq<Event>)
    requires Sound(w) && UnderCeiling(w) && HonestEvents(w, es) && AllHarmless(w, es)
    ensures Sound(RunEvents(w, es)) && UnderCeiling(RunEvents(w, es))
  {
    if es != [] {
      var init, last := es[..|es| - 1], es[|es| - 1];
      CeilingsSurviveLateWrites(w, init);
      var u := RunEvents(w, init);
      match last
      case Lawful(s) =>
        StepSound(u, s);
        StepUnderCeiling(u, s);
      case Late(write) =>
        LateWriteSound(u, write);
        LateWriteKeepsCeilingsExactlyWhen(u, write);
    }
  }

  /**
   What does not survive is the record: a late write over a finished refund takes its amount out of
   what the order is known to have been paid back, and only then does that total change.
   */
  lemma LateWriteForgetsExactlyFinished(w: World, u: LateWrite, o: nat)
    requires Sound(w) && IsRefund(w, u.refund) && w.refunds[u.refund].order == o
    ensures RefundTotal(Write(w, u).refunds, Settled, o) < RefundTotal(w.refunds, Settled, o)
       <==> w.refunds[u.refund].status == Finished
    ensures w.refunds[u.refund].status != Finished
       ==> RefundTotal(Write(w, u).refunds, Settled, o) == RefundTotal(w.refunds, Settled, o)
  {
    var rf := w.refunds[u.refund];
    assert RefundSound(w, rf);
    TotalOfUpdate(w.refunds, u.refund, rf.(status := Into(u)), Settled, o);
  }

  // ----- what was really paid back -----

  /** Money paid back on an order along a run, success by success, whatever became of the rows. */
  function PaidBack(w: World, es: seq<Event>, o: nat): int
  {
    if es == [] then 0
    else
      var init, last := es[..|es| - 1], es[|es| - 1];
      PaidBack(w, init, o) + if last.Lawful? then SettledBy(RunEvents(w, init), last.step, o) else 0
  }

  /** What this late write takes off the record. */
  function ErasedBy(w: World, u: LateWrite, o: nat): int
  {
    if IsRefund(w, u.refund) && w.refunds[u.refund].order == o && w.refunds[u.refund].status == Finished
    then w.refunds[u.refund].amount else 0
  }

  function Erased(w: World, es: seq<Event>, o: nat): int
  {
    if es == [] then 0
    else
      var init, last := es[..|es| - 1], es[|es| - 1];
      Erased(w, init, o) + if last.Late? then ErasedBy(RunEvents(w, init), last.write, o) else 0
  }

  lemma LateWriteMovesSettled(w: World, u: LateWrite, o: nat)
    requires Sound(w)
    ensures RefundTotal(Write(w, u).refunds, Settled, o) == RefundTotal(w.refunds, Settled, o) - ErasedBy(w, u, o)
    ensures ErasedBy(w, u, o) >= 0
  {
    if IsRefund(w, u.refund) {
      var rf := w.refunds[u.refund];
      assert RefundSound(w, rf);
      TotalOfUpdate(w.refunds, u.refund, rf.(status := Into(u)), Settled, o);
    }
  }

  lemma {:induction false} RunStaysSound(w: World, es: seq<Event>)
    requires Sound(w) && HonestEvents(w, es)
    ensures Sound(RunEvents(w, es))
  {
    if es != [] {
      var init, last := es[..|es| - 1], es[|es| - 1];
      RunStaysSound(w, init);
      match last
      case Lawful(s) => StepSound(RunEvents(w, init), s);
      case Late(u) => LateWriteSound(RunEvents(w, init), u);
    }
  }

  /** Over every run, late writes included: what was paid back is what is on record and what was erased from it. */
  lemma {:induction false} PaidBackIsRecordedOrErased(w: World, es: seq<Event>, o: nat)
    requires Sound(w) && HonestEvents(w, es)
    ensures PaidBack(w, es, o)
         == RefundTotal(RunEvents(w, es).refunds, Settled, o) - RefundTotal(w.refunds, Settled, o) + Erased(w, es, o)
    ensures Erased(w, es, o) >= 0
  {
    if es != [] {
      var init, last := es[..|es| - 1], es[|es| - 1];
      PaidBackIsRecordedOrErased(w, init, o);
      RunStaysSound(w, init);
      match last
      case Lawful(s) => StepMovesSettled(RunEvents(w, init), s, o);
      case Late(u) => LateWriteMovesSettled(RunEvents(w, init), u, o);
    }
  }

  lemma SettledWithinActive(w: World, o: nat)
    requires Sound(w)
    ensures RefundTotal(w.refunds, Settled, o) <= RefundTotal(w.refunds, Active, o)
  {
    var settled, active := Shares(w.refunds, Settled, o), Shares(w.refunds, Active, o);
    forall i | 0 <= i < |settled| ensures settled[i] <= active[i] {
      assert RefundSound(w, w.refunds[i]);
    }
    SumLeq(settled, active);
  }

  /**
   So the money really paid back stays within the payment while nothing finished is erased, and passes
   it exactly when what was erased and what is on record together do.
   */
  lemma PaidBackWithinPayment(w: World, es: seq<Event>, o: nat)
    requires Sound(w) && UnderCeiling(w) && HonestEvents(w, es) && AllHarmless(w, es)
    requires RefundTotal(w.refunds, Settled, o) == 0 && o < |RunEvents(w, es).orders|
    ensures var v := RunEvents(w, es);
            var room := v.orders[o].payable - RefundTotal(v.refunds, Settled, o);
            && (PaidBack(w, es, o) > v.orders[o].payable <==> Erased(w, es, o) > room)
            && (Erased(w, es, o) == 0 ==> PaidBack(w, es, o) <= v.orders[o].payable)
  {
    PaidBackIsRecordedOrErased(w, es, o);
    CeilingsSurviveLateWrites(w, es);
    SettledWithinActive(RunEvents(w, es), o);
    assert OrderUnderCeiling(RunEvents(w, es), o);
  }
}
