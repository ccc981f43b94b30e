/** Courier pay and its clawback after refunds (src/commission/commission.service.ts). */
module Commission {
  import opened Sums
  import Handover

  type StaffId = Handover.StaffId
  type OrderId = nat

  datatype Kind = Earned | Adjustment
  datatype Key = Key(order: OrderId, staff: StaffId, kind: Kind)
  datatype Row = Row(amount: int, period: nat)

  type Table = map<Key, Row>

  // ----- what a delivery earns -----

  datatype CampusPay = CampusPay(instantFee: nat, scheduledFee: nat, byRate: bool, rate: nat)

  /** Rounds half up, as Math.round does on what is never negative here. */
  function RoundedShare(amount: nat, num: nat, den: nat): nat
    requires den > 0
  {
    (2 * amount * num + den) / (2 * den)
  }

  function RiderPay(campus: CampusPay, scheduled: bool): nat
  {
    if scheduled then campus.scheduledFee else campus.instantFee
  }

  /** A manager is paid like a rider, or a share of the goods paid for, in hundredths of a percent. */
  function ManagerPay(campus: CampusPay, scheduled: bool, payable: int, fee: int): nat
  {
    if campus.byRate then RoundedShare(if payable - fee < 0 then 0 else payable - fee, campus.rate, 10000)
    else RiderPay(campus, scheduled)
  }

  // ----- whose building it is -----

  /** A staff row as the lookup reads it. */
  datatype Colleague = Colleague(id: StaffId, campus: nat, role: Handover.Role, deleted: bool, buildingId: Option<nat>, building: string)

  /** Where the order goes: the building's id, its name, or neither. */
  datatype Place = Place(campus: nat, buildingId: Option<nat>, buildingName: Option<string>)

  /** Paid by share, interns count as managers too; the building matches by id or, for old addresses, by name. */
  predicate Manages(c: Colleague, place: Place, byRate: bool)
  {
    var name := if place.buildingName.Some? then place.buildingName.value else "";
    && c.campus == place.campus && !c.deleted
    && (c.role == Handover.Manager || (byRate && c.role == Handover.InternManager))
    && (c.building == name || (place.buildingId.Some? && c.buildingId == place.buildingId))
  }

  /** An empty name is no building. */
  predicate HasBuilding(place: Place)
  {
    place.buildingId.Some? || (place.buildingName.Some? && place.buildingName.value != "")
  }

  /** The first manager listed, if the order has a building at all. */
  function ManagerOf(list: seq<Colleague>, place: Place, byRate: bool): Option<StaffId>
  {
    if list == [] || !HasBuilding(place) then None
    else
      var init, last := list[..|list| - 1], list[|list| - 1];
      var found := ManagerOf(init, place, byRate);
      if found.Some? then found else if Manages(last, place, byRate) then Some(last.id) else None
  }

  /** Nobody manages the rows before this one. */
  predicate FirstAt(list: seq<Colleague>, place: Place, byRate: bool, i: nat)
    requires i < |list|
  {
    Manages(list[i], place, byRate) && forall j :: 0 <= j < i ==> !Manages(list[j], place, byRate)
  }

  /** An order without a building has no manager; any other has the first listed who manages it, if anyone does. */
  lemma {:induction false} ManagerOfMeans(list: seq<Colleague>, place: Place, byRate: bool)
    ensures var id := ManagerOf(list, place, byRate);
            if !HasBuilding(place) then id == None
            else if id.None? then forall i :: 0 <= i < |list| ==> !Manages(list[i], place, byRate)
            else exists i :: 0 <= i < |list| && FirstAt(list, place, byRate, i) && list[i].id == id.value
  {
    if list != [] && HasBuilding(place) {
      var last := |list| - 1;
      ManagerOfMeans(list[..last], place, byRate);
      if ManagerOf(list[..last], place, byRate).Some? {
        var i :| 0 <= i < last && FirstAt(list[..last], place, byRate, i) && list[i].id == ManagerOf(list, place, byRate).value;
        assert FirstAt(list, place, byRate, i);
      } else if Manages(list[last], place, byRate) {
        assert FirstAt(list, place, byRate, last);
      }
    }
  }

  function Earn(t: Table, key: Key, amount: nat, period: nat): Table
  {
    if key in t then t else t[key := Row(amount, period)]
  }

  /** Rider and manager each get one row; one person in both roles gets the manager's. */
  function Record(t: Table, order: OrderId, rider: Option<StaffId>, manager: Option<StaffId>,
                  riderPay: nat, managerPay: nat, period: nat): Table
  {
    var first := if rider.None? then t
                 else Earn(t, Key(order, rider.value, Earned), if rider == manager then managerPay else riderPay, period);
    if manager.None? then first else Earn(first, Key(order, manager.value, Earned), managerPay, period)
  }

  /** Delivery may be recorded again and again: what was earned the first time stands. */
  lemma RecordedOnce(t: Table, order: OrderId, rider: Option<StaffId>, manager: Option<StaffId>,
                     pay: nat, managerPay: nat, period: nat, pay2: nat, managerPay2: nat, period2: nat)
    ensures var once := Record(t, order, rider, manager, pay, managerPay, period);
            && Record(once, order, rider, manager, pay2, managerPay2, period2) == once
            && (forall k :: k in t ==> k in once && once[k] == t[k])
            && (forall k :: k in once && k !in t ==>
                  k.order == order && k.kind == Earned && (rider == Some(k.staff) || manager == Some(k.staff))
                  && once[k] == Row(if manager == Some(k.staff) then managerPay else pay, period))
  {
  }

  // ----- what a delivery really pays -----

  /** Within half a fen of this share of the goods paid for, in hundredths of a percent. */
  predicate IsShare(amount: int, payable: int, fee: int, rate: nat)
  {
    var goods: nat := if payable < fee then 0 else payable - fee;
    2 * goods * rate - 10000 < 20000 * amount <= 2 * goods * rate + 10000
  }

  /**
   What recording a delivery adds: the campus's fee for its kind of delivery, or the manager's share
   where managers are paid by share, to whoever has no row for the order yet; and nothing else.
   */
  ghost predicate PaysForDelivery(before: Table, after: Table, order: OrderId, rider: Option<StaffId>, manager: Option<StaffId>,
                                  campus: CampusPay, scheduled: bool, payable: int, fee: int, period: nat)
  {
    forall k: Key ::
      if k in before then k in after && after[k] == before[k]
      else
        && (k in after <==> k.order == order && k.kind == Earned && (rider == Some(k.staff) || manager == Some(k.staff)))
        && (k in after ==>
              && after[k].period == period
              && (if manager == Some(k.staff) && campus.byRate then IsShare(after[k].amount, payable, fee, campus.rate)
                  else if scheduled then after[k].amount == campus.scheduledFee else after[k].amount == campus.instantFee))
  }

  lemma ShareIsRounded(payable: int, fee: int, rate: nat)
    ensures IsShare(RoundedShare(if payable - fee < 0 then 0 else payable - fee, rate, 10000), payable, fee, rate)
  {
    var goods: nat := if payable - fee < 0 then 0 else payable - fee;
    var n := 2 * goods * rate + 10000;
    assert n == 20000 * (n / 20000) + n % 20000;
  }

  /** One row for the rider, one for the manager, each at the campus's own rate. */
  lemma DeliveryPays(t: Table, order: OrderId, rider: Option<StaffId>, manager: Option<StaffId>,
                     campus: CampusPay, scheduled: bool, payable: int, fee: int, period: nat)
    ensures PaysForDelivery(t, Record(t, order, rider, manager, RiderPay(campus, scheduled),
                                      ManagerPay(campus, scheduled, payable, fee), period),
                            order, rider, manager, campus, scheduled, payable, fee, period)
  {
    ShareIsRounded(payable, fee, campus.rate);
  }

  // ----- clawback -----

  /** The share of the goods that was refunded, kept between nothing and everything. */
  datatype Ratio = Ratio(num: nat, den: nat)

  predicate Proper(r: Ratio)
  {
    0 < r.den && r.num <= r.den
  }

  function RefundRatio(refunded: int, goodsPaid: int): (r: Ratio)
    ensures Proper(r)
  {
    if goodsPaid <= 0 then Ratio(1, 1)
    else Ratio(if refunded < 0 then 0 else if refunded > goodsPaid then goodsPaid else refunded, goodsPaid)
  }

  function Abs(x: int): nat
  {
    if x < 0 then 0 - x else x
  }

  /** The staff who earned something on an order. */
  function Earners(t: Table, order: OrderId): set<StaffId>
  {
    set k | k in t && k.order == order && k.kind == Earned :: k.staff
  }

  function Clawback(t: Table, order: OrderId, s: StaffId, r: Ratio): nat
    requires Key(order, s, Earned) in t && Proper(r)
  {
    RoundedShare(Abs(t[Key(order, s, Earned)].amount), r.num, r.den)
  }

  /** The row under a key once the adjustments of `staff` are rewritten: none when nothing is taken back. */
  function Rewritten(t: Table, order: OrderId, staff: set<StaffId>, r: Ratio, period: nat, k: Key): Option<Row>
    requires Proper(r) && staff <= Earners(t, order)
  {
    if k.order == order && k.kind == Adjustment && k.staff in staff
    then if Clawback(t, order, k.staff, r) == 0 then None else Some(Row(0 - Clawback(t, order, k.staff, r), period))
    else if k in t then Some(t[k]) else None
  }

  /** `after` is the table with the adjustments of `staff` rewritten and every other row as it was. */
  ghost predicate Adjusted(t: Table, after: Table, order: OrderId, staff: set<StaffId>, r: Ratio, period: nat)
    requires Proper(r) && staff <= Earners(t, order)
  {
    forall k: Key :: (if k in after then Some(after[k]) else None) == Rewritten(t, order, staff, r, period, k)
  }

  function Adjust(t: Table, order: OrderId, r: Ratio, period: nat): (after: Table)
    requires Proper(r)
    ensures Adjusted(t, after, order, Earners(t, order), r, period)
  {
    var staff := Earners(t, order);
    map k | k in t.Keys + (set s | s in staff :: Key(order, s, Adjustment))
            && Rewritten(t, order, staff, r, period, k).Some?
      :: Rewritten(t, order, staff, r, period, k).value
  }

  lemma AdjustedOneWay(t: Table, a: Table, b: Table, order: OrderId, r: Ratio, period: nat)
    requires Proper(r)
    requires Adjusted(t, a, order, Earners(t, order), r, period) && Adjusted(t, b, order, Earners(t, order), r, period)
    ensures a == b
  {
    forall k: Key ensures (k in a <==> k in b) && (k in a ==> a[k] == b[k]) {
      assert (if k in a then Some(a[k]) else None) == Rewritten(t, order, Earners(t, order), r, period, k);
    }
  }

  class Payroll {
    var table: Table

    method FindManager(list: seq<Colleague>, place: Place, byRate: bool) returns (id: Option<StaffId>)
      ensures id == ManagerOf(list, place, byRate)
    {
      if !HasBuilding(place) { return None; }
      for i := 0 to |list|
        invariant ManagerOf(list[..i], place, byRate).None?
      {
        assert list[..i + 1][..i] == list[..i];
        if Manages(list[i], place, byRate) {
          FirstManagerStays(list, place, byRate, i + 1);
          return Some(list[i].id);
        }
      }
      assert list[..|list|] == list;
      return None;
    }

    static lemma {:induction false} FirstManagerStays(list: seq<Colleague>, place: Place, byRate: bool, n: nat)
      requires n <= |list| && ManagerOf(list[..n], place, byRate).Some?
      ensures ManagerOf(list, place, byRate) == ManagerOf(list[..n], place, byRate)
      decreases |list|
    {
      if n == |list| {
        assert list[..n] == list;
      } else {
        assert list[..|list| - 1][..n] == list[..n];
        FirstManagerStays(list[..|list| - 1], place, byRate, n);
      }
    }

    method RecordForDelivered(order: OrderId, rider: Option<StaffId>, list: seq<Colleague>, place: Place,
                              campus: CampusPay, scheduled: bool, payable: int, fee: int, period: nat)
      modifies this
      ensures table == Record(old(table), order, rider, ManagerOf(list, place, campus.byRate), RiderPay(campus, scheduled),
                              ManagerPay(campus, scheduled, payable, fee), period)
      ensures PaysForDelivery(old(table), table, order, rider, ManagerOf(list, place, campus.byRate), campus, scheduled, payable, fee, period)
    {
      var manager := FindManager(list, place, campus.byRate);
      DeliveryPays(table, order, rider, manager, campus, scheduled, payable, fee, period);
      RecordPay(order, rider, manager, RiderPay(campus, scheduled), ManagerPay(campus, scheduled, payable, fee), period);
    }

    /** A row for each of the two who has none yet; an upsert with nothing to update. */
    method RecordPay(order: OrderId, rider: Option<StaffId>, manager: Option<StaffId>, riderPay: nat, managerPay: nat, period: nat)
      modifies this
      ensures table == Record(old(table), order, rider, manager, riderPay, managerPay, period)
    {
      var targets: seq<StaffId> := [];
      if rider.Some? { targets := [rider.value]; }
      if manager.Some? && manager != rider { targets := targets + [manager.value]; }
      ghost var before := table;
      for i := 0 to |targets|
        invariant i == 0 ==> table == before
        invariant i == 1 ==> table == Earn(before, Key(order, targets[0], Earned),
                                           if manager == Some(targets[0]) then managerPay else riderPay, period)
        invariant i == 2 ==> table == Record(before, order, rider, manager, riderPay, managerPay, period)
      {
        var key := Key(order, targets[i], Earned);
        if key !in table {
          table := table[key := Row(if manager == Some(targets[i]) then managerPay else riderPay, period)];
        }
      }
    }

    /** One earner after another, in no particular order: delete the adjustment, or write it anew. */
    method RefundAdjust(order: OrderId, r: Ratio, period: nat)
      requires Proper(r)
      modifies this
      ensures table == Adjust(old(table), order, r, period)
    {
      var todo := Earners(table, order);
      ghost var was, done: set<StaffId> := table, {};
      while todo != {}
        invariant todo + done == Earners(was, order) && todo !! done
        invariant Adjusted(was, table, order, done, r, period)
        decreases todo
      {
        var s :| s in todo;
        EarningsKept(was, table, order, done, s, r, period);
        var take: int := RoundedShare(Abs(table[Key(order, s, Earned)].amount), r.num, r.den);
        if take == 0 {
          table := table - {Key(order, s, Adjustment)};
        } else {
          table := table[Key(order, s, Adjustment) := Row(0 - take, period)];
        }
        todo, done := todo - {s}, done + {s};
      }
      assert done == Earners(was, order);
      AdjustedOneWay(was, table, Adjust(was, order, r, period), order, r, period);
    }
  }

  lemma EarningsKept(t: Table, now: Table, order: OrderId, staff: set<StaffId>, s: StaffId, r: Ratio, period: nat)
    requires Proper(r) && staff <= Earners(t, order) && s in Earners(t, order)
    requires Adjusted(t, now, order, staff, r, period)
    ensures Key(order, s, Earned) in t && Key(order, s, Earned) in now
    ensures now[Key(order, s, Earned)] == t[Key(order, s, Earned)]
  {
    var key := Key(order, s, Earned);
    assert (if key in now then Some(now[key]) else None) == Rewritten(t, order, staff, r, period, key);
  }

  /** Only adjustments move: everything earned stays, and who earned stays. */
  lemma AdjustKeepsEarnings(t: Table, order: OrderId, r: Ratio, period: nat)
    requires Proper(r)
    ensures var a := Adjust(t, order, r, period);
            && (forall k: Key :: k.kind == Earned || k.order != order ==> (k in a <==> k in t) && (k in t ==> a[k] == t[k]))
            && Earners(a, order) == Earners(t, order)
  {
    var a := Adjust(t, order, r, period);
    assert forall k: Key :: k.kind == Earned || k.order != order ==> (k in a <==> k in t) && (k in t ==> a[k] == t[k]);
    forall s ensures s in Earners(a, order) <==> s in Earners(t, order) {
      assert s in Earners(a, order) <==> Key(order, s, Earned) in a;
      assert s in Earners(t, order) <==> Key(order, s, Earned) in t;
    }
  }

  /** A later adjustment overwrites an earlier one completely. */
  lemma LastAdjustmentWins(t: Table, order: OrderId, r1: Ratio, p1: nat, r2: Ratio, p2: nat)
    requires Proper(r1) && Proper(r2)
    ensures Adjust(Adjust(t, order, r1, p1), order, r2, p2) == Adjust(t, order, r2, p2)
  {
    var a := Adjust(t, order, r1, p1);
    AdjustKeepsEarnings(t, order, r1, p1);
    var staff := Earners(t, order);
    forall k: Key ensures Rewritten(a, order, staff, r2, p2, k) == Rewritten(t, order, staff, r2, p2, k) {
    }
    AdjustedOneWay(t, Adjust(a, order, r2, p2), Adjust(t, order, r2, p2), order, r2, p2);
  }

  // ----- what is left -----

  function AmountAt(t: Table, k: Key): int
  {
    if k in t then t[k].amount else 0
  }

  function NetPay(t: Table, order: OrderId, s: StaffId): int
  {
    AmountAt(t, Key(order, s, Earned)) + AmountAt(t, Key(order, s, Adjustment))
  }

  lemma NetAfterAdjust(t: Table, order: OrderId, s: StaffId, r: Ratio, period: nat)
    requires Proper(r) && Key(order, s, Earned) in t
    ensures NetPay(Adjust(t, order, r, period), order, s) == t[Key(order, s, Earned)].amount - Clawback(t, order, s, r)
  {
    assert s in Earners(t, order);
  }

  /** Rounding half up stays within half a unit of the exact share, and between nothing and all of it. */
  lemma RoundedShareBounds(amount: nat, num: nat, den: nat)
    requires 0 < den && num <= den
    ensures var x := RoundedShare(amount, num, den);
            && 2 * amount * num - den < 2 * den * x <= 2 * amount * num + den
            && x <= amount && (num == den ==> x == amount) && (num == 0 ==> x == 0)
  {
    var x := RoundedShare(amount, num, den);
    var n := 2 * amount * num + den;
    assert n == (2 * den) * (n / (2 * den)) + n % (2 * den);
    assert 2 * den * x <= n < 2 * den * x + 2 * den;
    Times(amount, num, den);
    if x > amount {
      Times(2 * den, amount + 1, x);
      assert false;
    }
    if num == den && x < amount {
      Times(2 * den, x + 1, amount);
      assert false;
    }
  }

  lemma Times(a: nat, b: nat, c: nat)
    requires b <= c
    ensures a * b <= a * c
  {
  }

  lemma RoundedShareGrows(amount: nat, num1: nat, num2: nat, den: nat)
    requires 0 < den && num1 <= num2
    ensures RoundedShare(amount, num1, den) <= RoundedShare(amount, num2, den)
  {
    Times(2 * amount, num1, num2);
    var a, b, d := 2 * amount * num1 + den, 2 * amount * num2 + den, 2 * den;
    assert a == d * (a / d) + a % d && b == d * (b / d) + b % d;
    if a / d > b / d {
      Times(d, b / d + 1, a / d);
      assert false;
    }
  }

  /**
   What a courier keeps on an order, as refunds accumulate: never below zero, never above what was
   earned, never rising, nothing once the goods are refunded in full, and within half a fen of the
   exact unrefunded share throughout.
   */
  lemma NetPayFallsToZero(t: Table, order: OrderId, s: StaffId, goodsPaid: int, refunded: int, more: int, period: nat)
    requires Key(order, s, Earned) in t && t[Key(order, s, Earned)].amount >= 0
    requires 0 <= refunded <= more
    ensures var earned := t[Key(order, s, Earned)].amount;
            var net := NetPay(Adjust(t, order, RefundRatio(refunded, goodsPaid), period), order, s);
            var later := NetPay(Adjust(t, order, RefundRatio(more, goodsPaid), period), order, s);
            && 0 <= later <= net <= earned
            && (refunded >= goodsPaid ==> net == 0)
            && (0 < goodsPaid && refunded <= goodsPaid ==>
                  0 - goodsPaid <= 2 * goodsPaid * (earned - net) - 2 * earned * refunded <= goodsPaid)
  {
    var r1, r2 := RefundRatio(refunded, goodsPaid), RefundRatio(more, goodsPaid);
    var earned := t[Key(order, s, Earned)].amount;
    NetAfterAdjust(t, order, s, r1, period);
    NetAfterAdjust(t, order, s, r2, period);
    RoundedShareBounds(earned, r1.num, r1.den);
    RoundedShareBounds(earned, r2.num, r2.den);
    RoundedShareGrows(earned, r1.num, r2.num, r1.den);
  }

  // ----- choosing a pay rule -----

  datatype Rule = Rule(building: Option<string>, floor: Option<int>, weightFrom: Option<real>, weightTo: Option<real>,
                       mode: Option<string>, price: nat, version: int)
  datatype Dims = Dims(building: Option<string>, buildingName: Option<string>, floor: Option<int>,
                       weight: Option<real>, mode: Option<string>)

  predicate Matches(rule: Rule, d: Dims)
  {
    && (rule.building.Some? ==> rule.building == d.building || rule.building == d.buildingName)
    && (rule.floor.Some? ==> rule.floor == d.floor)
    && (rule.weightFrom.Some? ==> d.weight.Some? && d.weight.value >= rule.weightFrom.value)
    && (rule.weightTo.Some? ==> d.weight.Some? && d.weight.value <= rule.weightTo.value)
    && (rule.mode.Some? ==> rule.mode == d.mode)
  }

  /** A rule that names nothing. */
  const ANY: Rule := Rule(None, None, None, None, None, 0, 0)

  /**
   What each dimension asks for by itself, and that a rule asks for all of them together: the building by
   id or by name, the very floor and mode, and a weight known to lie between the bounds, both included.
   */
  lemma RuleAsksForEach(rule: Rule, d: Dims)
    ensures Matches(ANY, d)
    ensures forall b :: Matches(ANY.(building := Some(b)), d) <==> d.building == Some(b) || d.buildingName == Some(b)
    ensures forall f :: Matches(ANY.(floor := Some(f)), d) <==> d.floor == Some(f)
    ensures forall m :: Matches(ANY.(mode := Some(m)), d) <==> d.mode == Some(m)
    ensures forall x: real, y: real ::
              Matches(ANY.(weightFrom := Some(x), weightTo := Some(y)), d) <==> d.weight.Some? && x <= d.weight.value <= y
    ensures forall x: real :: Matches(ANY.(weightFrom := Some(x)), d) <==> d.weight.Some? && x <= d.weight.value
    ensures forall y: real :: Matches(ANY.(weightTo := Some(y)), d) <==> d.weight.Some? && d.weight.value <= y
    ensures Matches(rule, d) <==>
              && Matches(ANY.(building := rule.building), d) && Matches(ANY.(floor := rule.floor), d)
              && Matches(ANY.(weightFrom := rule.weightFrom, weightTo := rule.weightTo), d) && Matches(ANY.(mode := rule.mode), d)
  {
  }

  datatype Dimension = ByBuilding | ByFloor | ByWeight | ByMode

  predicate Pins(rule: Rule, dim: Dimension)
  {
    match dim
    case ByBuilding => rule.building.Some?
    case ByFloor => rule.floor.Some?
    case ByWeight => rule.weightFrom.Some? || rule.weightTo.Some?
    case ByMode => rule.mode.Some?
  }

  function Only(pinned: bool, dim: Dimension): set<Dimension>
  {
    if pinned then {dim} else {}
  }

  /** The dimensions a rule pins down. */
  function Pinned(rule: Rule): (dims: set<Dimension>)
    ensures forall dim :: dim in dims <==> Pins(rule, dim)
  {
    Only(Pins(rule, ByBuilding), ByBuilding) + Only(Pins(rule, ByFloor), ByFloor)
    + Only(Pins(rule, ByWeight), ByWeight) + Only(Pins(rule, ByMode), ByMode)
  }

  /** How many dimensions a matching rule pins down; -1 for a rule that does not match. */
  function Specificity(rule: Rule, d: Dims): (score: int)
    ensures -1 <= score <= 4
    ensures score >= 0 <==> Matches(rule, d)
  {
    if !Matches(rule, d) then -1
    else
      (if rule.building.Some? then 1 else 0) + (if rule.floor.Some? then 1 else 0)
      + (if rule.weightFrom.Some? || rule.weightTo.Some? then 1 else 0) + (if rule.mode.Some? then 1 else 0)
  }

  /** The score of a matching rule is the number of dimensions it pins down. */
  lemma SpecificityCountsPinned(rule: Rule, d: Dims)
    ensures Specificity(rule, d) == if Matches(rule, d) then |Pinned(rule)| else -1
  {
    var a, b := Only(Pins(rule, ByBuilding), ByBuilding), Only(Pins(rule, ByFloor), ByFloor);
    var c, d := Only(Pins(rule, ByWeight), ByWeight), Only(Pins(rule, ByMode), ByMode);
    DisjointSize(a, b);
    DisjointSize(a + b, c);
    DisjointSize(a + b + c, d);
  }

  lemma DisjointSize(a: set<Dimension>, b: set<Dimension>)
    requires a !! b
    ensures |a + b| == |a| + |b|
  {
  }

  predicate Beats(a: Rule, b: Rule, d: Dims)
  {
    Specificity(a, d) > Specificity(b, d) || (Specificity(a, d) == Specificity(b, d) && a.version > b.version)
  }

  /** Two matching rules that the selection cannot tell apart. */
  predicate Tied(a: Rule, b: Rule, d: Dims)
  {
    Matches(a, d) && Matches(b, d) && Specificity(a, d) == Specificity(b, d) && a.version == b.version
  }

  /** A matching rule of the list that no other rule beats. */
  predicate IsBest(rules: seq<Rule>, d: Dims, best: Option<Rule>)
  {
    match best
    case None => forall i :: 0 <= i < |rules| ==> !Matches(rules[i], d)
    case Some(b) => b in rules && Matches(b, d) && forall i :: 0 <= i < |rules| ==> !Beats(rules[i], b, d)
  }

  method BestMatch(rules: seq<Rule>, d: Dims) returns (best: Option<Rule>)
    ensures IsBest(rules, d, best)
  {
    best := None;
    var bestScore := -1;
    for i := 0 to |rules|
      invariant IsBest(rules[..i], d, best)
      invariant bestScore == if best.Some? then Specificity(best.value, d) else -1
    {
      var score := Specificity(rules[i], d);
      if score < 0 { continue; }
      if score > bestScore || (score == bestScore && best.Some? && rules[i].version > best.value.version) {
        best, bestScore := Some(rules[i]), score;
      }
    }
    assert rules[..|rules|] == rules;
  }

  /** With no two matching rules equal in specificity and version, the order of the list does not matter. */
  lemma BestIsOrderIndependent(a: seq<Rule>, b: seq<Rule>, d: Dims, x: Option<Rule>, y: Option<Rule>)
    requires forall r :: r in a <==> r in b
    requires forall r, q :: r in a && q in a && Tied(r, q, d) ==> r == q
    requires IsBest(a, d, x) && IsBest(b, d, y)
    ensures x == y
  {
    if x.Some? {
      assert x.value in b && Matches(x.value, d);
    }
    if y.Some? {
      assert y.value in a;
    }
    if x.Some? && y.Some? {
      assert !Beats(x.value, y.value, d) && !Beats(y.value, x.value, d);
    }
  }
}
