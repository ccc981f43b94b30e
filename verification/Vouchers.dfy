/**
 Coupon issuing: templates with a quota, and the coupons people hold (claimCoupon, pay and
 grantCouponInner in src/business/business.service.ts; the coupon desk in src/admin/admin.service.ts).

 Every channel takes its quota with one guarded update of the counters. The guard compares the
 current counter with the total that was read beforehand (`seen`), which may be out of date.
 */
module Vouchers {
  import opened Sums
  import Trade

  datatype Trigger = Manual | Lottery | Signup

  /** A partner's coupon is shown at the partner's counter and takes nothing off an order. */
  datatype Kind = Platform | Partner

  datatype Coupon = Coupon(
    kind: Kind, amount: nat, threshold: nat,
    trigger: Trigger, targetedOnly: bool, active: bool, expiresAt: Option<int>,
    perUserLimit: nat, total: Option<nat>, issued: nat, claimed: nat)

  datatype Held = Held(user: nat, coupon: nat, status: Trade.CouponStatus)

  datatype Book = Book(coupons: map<nat, Coupon>, held: seq<Held>)

  datatype Edit = Edit(amount: Option<nat>, threshold: Option<nat>, active: Option<bool>, targetedOnly: Option<bool>, perUserLimit: Option<nat>,
                       total: Option<Option<nat>>, expiresAt: Option<Option<int>>)

  datatype Step =
    | Create(id: nat, draft: Coupon, now: int)
    | Change(id: nat, edit: Edit)
    | Delete(id: nat)
    | Claim(user: nat, id: nat, now: int, seen: Option<nat>)
    | Grant(user: nat, id: nat, now: int, repeat: bool, seen: Option<nat>)
    | Bonus(user: nat, id: nat, now: int, seen: Option<nat>)
    | Issue(id: nat, users: seq<nat>, count: Option<nat>, now: int, seen: Option<nat>)
    | Touch(row: nat, status: Trade.CouponStatus)

  /** `Existing`: the caller is handed what the user holds already, and nothing is issued. */
  datatype Outcome = Committed(book: Book) | Existing | Refused

  // ----- counting what is held -----

  datatype Query = OfCoupon(coupon: nat) | Unused(user: nat, coupon: nat) | Ever(user: nat, coupon: nat)

  predicate Matches(q: Query, h: Held)
  {
    match q
    case OfCoupon(c) => h.coupon == c
    case Unused(u, c) => h.user == u && h.coupon == c && h.status != Trade.Used
    case Ever(u, c) => h.user == u && h.coupon == c
  }

  function Count(held: seq<Held>, q: Query): nat
  {
    if held == [] then 0
    else Count(held[..|held| - 1], q) + if Matches(q, held[|held| - 1]) then 1 else 0
  }

  lemma {:induction false} CountConcat(a: seq<Held>, b: seq<Held>, q: Query)
    ensures Count(a + b, q) == Count(a, q) + Count(b, q)
  {
    if b == [] {
      assert a + b == a;
    } else {
      assert (a + b)[..|a + b| - 1] == a + b[..|b| - 1];
      CountConcat(a, b[..|b| - 1], q);
    }
  }

  lemma {:induction false} CountTouched(held: seq<Held>, i: nat, h: Held, q: Query)
    requires i < |held| && (Matches(q, held[i]) <==> Matches(q, h))
    ensures Count(held[i := h], q) == Count(held, q)
  {
    var last := |held| - 1;
    if i < last {
      assert held[i := h][..last] == held[..last][i := h];
      CountTouched(held[..last], i, h, q);
    } else {
      assert held[i := h][..last] == held[..last];
    }
  }

  lemma {:induction false} CountNone(held: seq<Held>, c: nat)
    requires Count(held, OfCoupon(c)) == 0
    ensures forall i :: 0 <= i < |held| ==> held[i].coupon != c
  {
    if held != [] {
      CountNone(held[..|held| - 1], c);
    }
  }

  lemma {:induction false} CountOfStranger(held: seq<Held>, q: Query)
    requires forall i :: 0 <= i < |held| ==> !Matches(q, held[i])
    ensures Count(held, q) == 0
  {
    if held != [] {
      CountOfStranger(held[..|held| - 1], q);
    }
  }

  // ----- taking quota -----

  /** The guarded update every channel shares. */
  function Take(c: Coupon, n: nat, seen: Option<nat>): Option<Coupon>
  {
    if seen.Some? && c.claimed + n > seen.value then None
    else Some(c.(claimed := c.claimed + n, issued := c.issued + n))
  }

  predicate Expired(c: Coupon, now: int)
  {
    c.expiresAt.Some? && c.expiresAt.value <= now
  }

  function Hand(b: Book, id: nat, rows: seq<Held>, seen: Option<nat>): Outcome
    requires id in b.coupons
  {
    var taken := Take(b.coupons[id], |rows|, seen);
    if taken.None? then Refused else Committed(Book(b.coupons[id := taken.value], b.held + rows))
  }

  function DoClaim(b: Book, user: nat, id: nat, now: int, seen: Option<nat>): Outcome
  {
    if id !in b.coupons then Refused
    else
      var c := b.coupons[id];
      var holding := Count(b.held, Unused(user, id)) > 0;
      if !c.active || c.trigger != Manual || c.targetedOnly || Expired(c, now) then Refused
      else if c.perUserLimit != 0 && holding then Existing
      else if c.perUserLimit != 0 && Count(b.held, Ever(user, id)) >= c.perUserLimit then Refused
      else Hand(b, id, [Held(user, id, Trade.Claimed)], seen)
  }

  function DoGrant(b: Book, user: nat, id: nat, now: int, repeat: bool, seen: Option<nat>): Outcome
  {
    if id !in b.coupons || !b.coupons[id].active || Expired(b.coupons[id], now) then Refused
    else
      var c := b.coupons[id];
      var had := Count(b.held, if c.trigger == Signup then Ever(user, id) else Unused(user, id)) > 0;
      if !repeat && had then Existing else Hand(b, id, [Held(user, id, Trade.Claimed)], seen)
  }

  /** The bonus for a scheduled delivery is handed out even while its template is paused. */
  function DoBonus(b: Book, user: nat, id: nat, now: int, seen: Option<nat>): Outcome
  {
    if id !in b.coupons || Expired(b.coupons[id], now) then Refused
    else Hand(b, id, [Held(user, id, Trade.Claimed)], seen)
  }

  // ----- issuing to many -----

  /** The users named, each once, in the order they first appear. */
  function Distinct(users: seq<nat>): seq<nat>
  {
    if users == [] then []
    else
      var init := users[..|users| - 1];
      Distinct(init) + if users[|users| - 1] in init then [] else [users[|users| - 1]]
  }

  lemma {:induction false} DistinctNamesEachOnce(users: seq<nat>)
    ensures forall u :: u in Distinct(users) <==> u in users
    ensures forall i, j :: 0 <= i < j < |Distinct(users)| ==> Distinct(users)[i] != Distinct(users)[j]
  {
    if users != [] {
      var init := users[..|users| - 1];
      DistinctNamesEachOnce(init);
      assert users == init + [users[|users| - 1]];
    }
  }

  function Want(count: Option<nat>, limit: nat): nat
  {
    var asked := if count.Some? then count.value else 1;
    if limit != 0 && limit < asked then limit else asked
  }

  /** How many more one user may get: up to the limit less what they hold unused; no limit when it is 0. */
  function Allowance(want: nat, limit: nat, unused: nat): nat
  {
    if limit == 0 then want
    else
      var room := if limit > unused then limit - unused else 0;
      if want < room then want else room
  }

  function Copies(user: nat, id: nat, n: nat): (rows: seq<Held>)
    ensures |rows| == n && forall i :: 0 <= i < n ==> rows[i] == Held(user, id, Trade.Claimed)
  {
    seq(n, _ => Held(user, id, Trade.Claimed))
  }

  function Grants(held: seq<Held>, id: nat, users: seq<nat>, want: nat, limit: nat): seq<Held>
  {
    if users == [] then []
    else
      var u := users[|users| - 1];
      Grants(held, id, users[..|users| - 1], want, limit)
      + Copies(u, id, Allowance(want, limit, Count(held, Unused(u, id))))
  }

  function IssueRows(b: Book, id: nat, users: seq<nat>, count: Option<nat>): seq<Held>
    requires id in b.coupons
  {
    var limit := b.coupons[id].perUserLimit;
    Grants(b.held, id, Distinct(users), Want(count, limit), limit)
  }

  function DoIssue(b: Book, id: nat, users: seq<nat>, count: Option<nat>, now: int, seen: Option<nat>): Outcome
  {
    if id !in b.coupons || !b.coupons[id].active || Expired(b.coupons[id], now) then Refused
    else
      var rows := IssueRows(b, id, users, count);
      if rows == [] then Refused else Hand(b, id, rows, seen)
  }

  // ----- templates -----

  function Or<T>(o: Option<T>, otherwise: T): T
  {
    if o.Some? then o.value else otherwise
  }

  /** What a coupon of this kind may be worth. */
  predicate LawfulWorth(kind: Kind, amount: nat, threshold: nat)
  {
    if kind == Partner then amount == 0 && threshold == 0 else amount > 0
  }

  function DoCreate(b: Book, id: nat, draft: Coupon, now: int): Outcome
  {
    if id in b.coupons || Expired(draft, now) || !LawfulWorth(draft.kind, draft.amount, draft.threshold) then Refused
    else Committed(b.(coupons := b.coupons[id := draft.(active := true, issued := 0, claimed := 0)]))
  }

  /**
   Amount and threshold are locked once a coupon was handed out, and fixed for a partner's. A total
   below what was handed out is refused; no total at all is always allowed.
   */
  function DoChange(b: Book, id: nat, e: Edit): Outcome
  {
    if id !in b.coupons then Refused
    else
      var c := b.coupons[id];
      if (e.amount.Some? || e.threshold.Some?) && (c.claimed > 0 || c.kind == Partner) then Refused
      else if e.total.Some? && e.total.value.Some? && e.total.value.value < c.claimed then Refused
      else if e.amount == Some(0) then Refused
      else Committed(b.(coupons := b.coupons[id := c.(
        amount := Or(e.amount, c.amount), threshold := Or(e.threshold, c.threshold),
        active := Or(e.active, c.active), targetedOnly := Or(e.targetedOnly, c.targetedOnly),
        perUserLimit := Or(e.perUserLimit, c.perUserLimit), total := Or(e.total, c.total),
        expiresAt := Or(e.expiresAt, c.expiresAt))]))
  }

  function Perform(b: Book, s: Step): Outcome
  {
    match s
    case Create(id, draft, now) => DoCreate(b, id, draft, now)
    case Change(id, e) => DoChange(b, id, e)
    case Delete(id) =>
      if id !in b.coupons || b.coupons[id].issued > 0 || b.coupons[id].claimed > 0 then Refused
      else Committed(b.(coupons := b.coupons - {id}))
    case Claim(user, id, now, seen) => DoClaim(b, user, id, now, seen)
    case Grant(user, id, now, repeat, seen) => DoGrant(b, user, id, now, repeat, seen)
    case Bonus(user, id, now, seen) => DoBonus(b, user, id, now, seen)
    case Issue(id, users, count, now, seen) => DoIssue(b, id, users, count, now, seen)
    case Touch(row, status) =>
      if row >= |b.held| then Refused else Committed(b.(held := b.held[row := b.held[row].(status := status)]))
  }

  function Result(b: Book, out: Outcome): Book
  {
    if out.Committed? then out.book else b
  }

  function Run(b: Book, steps: seq<Step>): Book
  {
    if steps == [] then b
    else
      var before := Run(b, steps[..|steps| - 1]);
      Result(before, Perform(before, steps[|steps| - 1]))
  }

  // ----- the counters tell the truth -----

  /** Both counters of a template equal the number of coupons handed out from it, and no coupon lost its template. */
  predicate Consistent(b: Book)
  {
    && (forall id :: id in b.coupons ==> b.coupons[id].claimed == b.coupons[id].issued == Count(b.held, OfCoupon(id)))
    && (forall i :: 0 <= i < |b.held| ==> b.held[i].coupon in b.coupons)
  }

  predicate AllOf(rows: seq<Held>, id: nat)
  {
    forall i :: 0 <= i < |rows| ==> rows[i].coupon == id
  }

  lemma {:induction false} GrantsAreOfOne(held: seq<Held>, id: nat, users: seq<nat>, want: nat, limit: nat)
    ensures AllOf(Grants(held, id, users, want, limit), id)
  {
    if users != [] {
      var init, u := users[..|users| - 1], users[|users| - 1];
      GrantsAreOfOne(held, id, init, want, limit);
      var last := Copies(u, id, Allowance(want, limit, Count(held, Unused(u, id))));
      assert Grants(held, id, users, want, limit) == Grants(held, id, init, want, limit) + last;
    }
  }

  lemma IssueIsOfOne(b: Book, id: nat, users: seq<nat>, count: Option<nat>)
    requires id in b.coupons
    ensures AllOf(IssueRows(b, id, users, count), id)
  {
    GrantsAreOfOne(b.held, id, Distinct(users), Want(count, b.coupons[id].perUserLimit), b.coupons[id].perUserLimit);
  }

  lemma {:induction false} CountAll(rows: seq<Held>, id: nat)
    requires AllOf(rows, id)
    ensures Count(rows, OfCoupon(id)) == |rows|
  {
    if rows != [] {
      CountAll(rows[..|rows| - 1], id);
    }
  }

  lemma HandKeepsConsistent(b: Book, id: nat, rows: seq<Held>, seen: Option<nat>)
    requires Consistent(b) && id in b.coupons && Hand(b, id, rows, seen).Committed?
    requires AllOf(rows, id)
    ensures Consistent(Hand(b, id, rows, seen).book)
  {
    var after := Hand(b, id, rows, seen).book;
    CountAll(rows, id);
    forall k | k in after.coupons
      ensures after.coupons[k].claimed == after.coupons[k].issued == Count(after.held, OfCoupon(k))
    {
      CountConcat(b.held, rows, OfCoupon(k));
      if k != id {
        CountOfStranger(rows, OfCoupon(k));
      }
    }
  }

  lemma CreateKeepsConsistent(b: Book, id: nat, c: Coupon)
    requires Consistent(b) && id !in b.coupons && c.issued == 0 == c.claimed
    ensures Consistent(b.(coupons := b.coupons[id := c]))
  {
    CountOfStranger(b.held, OfCoupon(id));
  }

  lemma TouchKeepsConsistent(b: Book, row: nat, status: Trade.CouponStatus)
    requires Consistent(b) && row < |b.held|
    ensures Consistent(b.(held := b.held[row := b.held[row].(status := status)]))
  {
    forall id | id in b.coupons
      ensures Count(b.held[row := b.held[row].(status := status)], OfCoupon(id)) == Count(b.held, OfCoupon(id))
    {
      CountTouched(b.held, row, b.held[row].(status := status), OfCoupon(id));
    }
  }

  lemma StepKeepsConsistent(b: Book, s: Step)
    requires Consistent(b)
    ensures Consistent(Result(b, Perform(b, s)))
  {
    if Perform(b, s).Committed? {
      match s
      case Create(id, draft, now) => CreateKeepsConsistent(b, id, draft.(active := true, issued := 0, claimed := 0));
      case Change(id, e) =>
      case Delete(id) => CountNone(b.held, id);
      case Claim(user, id, now, seen) => HandKeepsConsistent(b, id, [Held(user, id, Trade.Claimed)], seen);
      case Grant(user, id, now, repeat, seen) => HandKeepsConsistent(b, id, [Held(user, id, Trade.Claimed)], seen);
      case Bonus(user, id, now, seen) => HandKeepsConsistent(b, id, [Held(user, id, Trade.Claimed)], seen);
      case Issue(id, users, count, now, seen) =>
        IssueIsOfOne(b, id, users, count);
        HandKeepsConsistent(b, id, IssueRows(b, id, users, count), seen);
      case Touch(row, status) => TouchKeepsConsistent(b, row, status);
    }
  }

  /** Over every run of every channel, edits and deletions included, the counters equal what was handed out. */
  lemma {:induction false} CountersStayTrue(b: Book, steps: seq<Step>)
    requires Consistent(b)
    ensures Consistent(Run(b, steps))
  {
    if steps != [] {
      CountersStayTrue(b, steps[..|steps| - 1]);
      StepKeepsConsistent(Run(b, steps[..|steps| - 1]), steps[|steps| - 1]);
    }
  }

  // ----- no over-issue -----

  predicate WithinTotal(c: Coupon)
  {
    c.total.Some? ==> c.claimed <= c.total.value
  }

  predicate Capped(b: Book)
  {
    forall id :: id in b.coupons ==> WithinTotal(b.coupons[id])
  }

  /** The total read beforehand allows no more than the total now on the template. */
  predicate NoLooser(seen: Option<nat>, total: Option<nat>)
  {
    total.Some? ==> seen.Some? && seen.value <= total.value
  }

  predicate Protects(c: Coupon, n: nat, seen: Option<nat>)
  {
    WithinTotal(c) && Take(c, n, seen).Some? ==> WithinTotal(Take(c, n, seen).value)
  }

  /** The guard protects every template with a given total exactly when what was read is no looser than that total. */
  lemma GuardProtectsExactlyWhen(total: Option<nat>, seen: Option<nat>)
    ensures NoLooser(seen, total) <==> forall c: Coupon, n: nat :: c.total == total ==> Protects(c, n, seen)
  {
    if !NoLooser(seen, total) {
      var full := Coupon(Platform, 1, 0, Manual, false, true, None, 1, total, total.value, total.value);
      assert !Protects(full, 1, seen);
    }
  }

  /** Nobody lowered the total between a channel's read and its update. */
  predicate Fresh(b: Book, s: Step)
  {
    (s.Claim? || s.Grant? || s.Bonus? || s.Issue?) && s.id in b.coupons ==> NoLooser(s.seen, b.coupons[s.id].total)
  }

  predicate FreshRun(b: Book, steps: seq<Step>)
  {
    steps == []
    || (FreshRun(b, steps[..|steps| - 1]) && Fresh(Run(b, steps[..|steps| - 1]), steps[|steps| - 1]))
  }

  lemma StepKeepsCapped(b: Book, s: Step)
    requires Capped(b) && Fresh(b, s)
    ensures Capped(Result(b, Perform(b, s)))
  {
  }

  /**
   No over-issue through any channel, however they interleave: the number of coupons in people's
   hands never exceeds the template's total.
   */
  lemma {:induction false} NeverOverIssued(b: Book, steps: seq<Step>)
    requires Consistent(b) && Capped(b) && FreshRun(b, steps)
    ensures var after := Run(b, steps);
            && Capped(after)
            && forall id :: id in after.coupons && after.coupons[id].total.Some?
                 ==> Count(after.held, OfCoupon(id)) <= after.coupons[id].total.value
  {
    CountersStayTrue(b, steps);
    if steps != [] {
      NeverOverIssued(b, steps[..|steps| - 1]);
      StepKeepsCapped(Run(b, steps[..|steps| - 1]), steps[|steps| - 1]);
    }
  }

  lemma RunMore(b: Book, steps: seq<Step>, s: Step)
    ensures Run(b, steps + [s]) == Result(Run(b, steps), Perform(Run(b, steps), s))
  {
    assert (steps + [s])[..|steps + [s]| - 1] == steps;
  }

  /** A template worth 1, with this total and this many handed out. */
  function Template(total: nat, out: nat): Coupon
  {
    Coupon(Platform, 1, 0, Manual, false, true, None, 1, Some(total), out, out)
  }

  const FIRST: Held := Held(1, 0, Trade.Claimed)
  const SECOND: Held := Held(2, 0, Trade.Claimed)
  const OFFER: Step := Create(0, Template(2, 0), 0)
  const LOWER: Step := Change(0, Edit(None, None, None, None, None, Some(Some(1)), None))

  lemma Offered()
    ensures var b: Book := Book(map[], []); Result(b, Perform(b, OFFER)) == Book(map[0 := Template(2, 0)], [])
  {
    var none: map<nat, Coupon> := map[];
    assert none[0 := Template(2, 0)] == map[0 := Template(2, 0)];
  }

  lemma FirstClaimed()
    ensures var b := Book(map[0 := Template(2, 0)], []);
            Result(b, Perform(b, Claim(1, 0, 0, Some(2)))) == Book(map[0 := Template(2, 1)], [FIRST])
  {
    assert map[0 := Template(2, 0)][0 := Template(2, 1)] == map[0 := Template(2, 1)];
    assert [] + [FIRST] == [FIRST];
  }

  lemma OneClaimed()
    ensures Run(Book(map[], []), [] + [OFFER] + [Claim(1, 0, 0, Some(2))]) == Book(map[0 := Template(2, 1)], [FIRST])
  {
    Offered();
    FirstClaimed();
    RunMore(Book(map[], []), [], OFFER);
    RunMore(Book(map[], []), [] + [OFFER], Claim(1, 0, 0, Some(2)));
  }

  lemma Lowered()
    ensures var b := Book(map[0 := Template(2, 1)], [FIRST]);
            Result(b, Perform(b, LOWER)) == Book(map[0 := Template(1, 1)], [FIRST])
  {
    assert map[0 := Template(2, 1)][0 := Template(1, 1)] == map[0 := Template(1, 1)];
  }

  lemma ClaimedOnOldTotal()
    ensures var b := Book(map[0 := Template(1, 1)], [FIRST]);
            Result(b, Perform(b, Claim(2, 0, 0, Some(2)))) == Book(map[0 := Template(1, 2)], [FIRST] + [SECOND])
  {
    CountOne(FIRST);
    assert map[0 := Template(1, 1)][0 := Template(1, 2)] == map[0 := Template(1, 2)];
  }

  /**
   Where it fails: a template of two, one of them claimed; a second shopper's claim has read the total
   when the back office lowers it to one, and still goes through.
   */
  lemma LoweredTotalIsExceeded() returns (steps: seq<Step>)
    ensures var b := Run(Book(map[], []), steps);
            0 in b.coupons && b.coupons[0].total == Some(1) && Count(b.held, OfCoupon(0)) == 2
  {
    var two := [] + [OFFER] + [Claim(1, 0, 0, Some(2))];
    OneClaimed();
    Lowered();
    ClaimedOnOldTotal();
    RunMore(Book(map[], []), two, LOWER);
    RunMore(Book(map[], []), two + [LOWER], Claim(2, 0, 0, Some(2)));
    steps := two + [LOWER] + [Claim(2, 0, 0, Some(2))];
    CountConcat([FIRST], [SECOND], OfCoupon(0));
    CountOne(FIRST);
    CountOne(SECOND);
  }

  lemma CountOne(h: Held)
    ensures forall q :: Count([h], q) == if Matches(q, h) then 1 else 0
  {
    assert [h][..0] == [];
  }

  // ----- what an issued coupon is worth -----

  /** The template is there, was handed out, and is worth this. */
  predicate Issued(b: Book, id: nat, kind: Kind, amount: nat, threshold: nat)
  {
    id in b.coupons && b.coupons[id].claimed > 0 && b.coupons[id].issued > 0
    && b.coupons[id].kind == kind && b.coupons[id].amount == amount && b.coupons[id].threshold == threshold
  }

  lemma StepKeepsIssued(b: Book, s: Step, id: nat, kind: Kind, amount: nat, threshold: nat)
    requires Issued(b, id, kind, amount, threshold)
    ensures Issued(Result(b, Perform(b, s)), id, kind, amount, threshold)
  {
    match s
    case Create(_, _, _) =>
    case Change(_, _) =>
    case Delete(_) =>
    case Claim(_, _, _, _) =>
    case Grant(_, _, _, _, _) =>
    case Bonus(_, _, _, _) =>
    case Issue(_, _, _, _, _) =>
    case Touch(_, _) =>
  }

  /** Over every run, a template that was handed out stays, and what its coupons are worth never changes. */
  lemma {:induction false} IssuedWorthIsFixed(b: Book, steps: seq<Step>, id: nat, kind: Kind, amount: nat, threshold: nat)
    requires Issued(b, id, kind, amount, threshold)
    ensures Issued(Run(b, steps), id, kind, amount, threshold)
  {
    if steps != [] {
      IssuedWorthIsFixed(b, steps[..|steps| - 1], id, kind, amount, threshold);
      StepKeepsIssued(Run(b, steps[..|steps| - 1]), steps[|steps| - 1], id, kind, amount, threshold);
    }
  }

  predicate WorthLawful(b: Book)
  {
    forall id :: id in b.coupons ==> LawfulWorth(b.coupons[id].kind, b.coupons[id].amount, b.coupons[id].threshold)
  }

  lemma StepKeepsWorth(b: Book, s: Step)
    requires WorthLawful(b)
    ensures WorthLawful(Result(b, Perform(b, s)))
  {
    match s
    case Create(_, _, _) =>
    case Change(_, _) =>
    case Delete(_) =>
    case Claim(_, _, _, _) =>
    case Grant(_, _, _, _, _) =>
    case Bonus(_, _, _, _) =>
    case Issue(_, _, _, _, _) =>
    case Touch(_, _) =>
  }

  /** Over every run, each platform coupon takes something off and no partner coupon does. */
  lemma {:induction false} WorthStaysLawful(b: Book, steps: seq<Step>)
    requires WorthLawful(b)
    ensures WorthLawful(Run(b, steps))
  {
    if steps != [] {
      WorthStaysLawful(b, steps[..|steps| - 1]);
      StepKeepsWorth(Run(b, steps[..|steps| - 1]), steps[|steps| - 1]);
    }
  }

  // ----- per-user limits -----

  lemma {:induction false} CountCopies(user: nat, id: nat, n: nat, u: nat)
    ensures Count(Copies(user, id, n), Unused(u, id)) == if u == user then n else 0
  {
    if n > 0 {
      assert Copies(user, id, n)[..n - 1] == Copies(user, id, n - 1);
      CountCopies(user, id, n - 1, u);
    }
  }

  lemma {:induction false} GrantsPerUser(held: seq<Held>, id: nat, users: seq<nat>, want: nat, limit: nat, u: nat)
    requires forall i, j :: 0 <= i < j < |users| ==> users[i] != users[j]
    ensures Count(Grants(held, id, users, want, limit), Unused(u, id))
         == if u in users then Allowance(want, limit, Count(held, Unused(u, id))) else 0
  {
    if users != [] {
      var init, last := users[..|users| - 1], users[|users| - 1];
      var more := Allowance(want, limit, Count(held, Unused(last, id)));
      GrantsPerUser(held, id, init, want, limit, u);
      CountCopies(last, id, more, u);
      CountConcat(Grants(held, id, init, want, limit), Copies(last, id, more), Unused(u, id));
      assert users == init + [last];
    }
  }

  /**
   One call of the desk gives each named user exactly their allowance and nobody else anything, so it
   never lifts a user above the limit, nor anyone who was above it already.
   */
  lemma IssueFillsUpToTheLimit(b: Book, id: nat, users: seq<nat>, count: Option<nat>, now: int, seen: Option<nat>, u: nat)
    requires DoIssue(b, id, users, count, now, seen).Committed?
    ensures var after := DoIssue(b, id, users, count, now, seen).book;
            var limit := b.coupons[id].perUserLimit;
            var had, has := Count(b.held, Unused(u, id)), Count(after.held, Unused(u, id));
            && has == had + (if u in users then Allowance(Want(count, limit), limit, had) else 0)
            && (limit != 0 ==> has <= if had < limit then limit else had)
            && (limit == 0 && u in users ==> has == had + if count.Some? then count.value else 1)
  {
    var limit := b.coupons[id].perUserLimit;
    var rows := Grants(b.held, id, Distinct(users), Want(count, limit), limit);
    DistinctNamesEachOnce(users);
    GrantsPerUser(b.held, id, Distinct(users), Want(count, limit), limit, u);
    CountConcat(b.held, rows, Unused(u, id));
  }

  /** A claim under a limit only ever adds a first unused coupon, and stops at the limit counted over a lifetime. */
  lemma ClaimStopsAtTheLimit(b: Book, user: nat, id: nat, now: int, seen: Option<nat>)
    requires DoClaim(b, user, id, now, seen).Committed? && b.coupons[id].perUserLimit != 0
    ensures var after := DoClaim(b, user, id, now, seen).book;
            && Count(after.held, Unused(user, id)) == 1
            && Count(after.held, Ever(user, id)) == Count(b.held, Ever(user, id)) + 1 <= b.coupons[id].perUserLimit
  {
    var row := Held(user, id, Trade.Claimed);
    CountConcat(b.held, [row], Unused(user, id));
    CountConcat(b.held, [row], Ever(user, id));
    CountOne(row);
  }

  // ----- a welcome coupon is for once in a lifetime -----

  /** The step goes around the once-only rule for this template: issued by hand, as a prize or as a bonus. */
  predicate Bypasses(s: Step, id: nat)
  {
    ((s.Issue? || s.Bonus?) && s.id == id) || (s.Grant? && s.repeat && s.id == id)
  }

  ghost predicate OnceEach(b: Book, id: nat)
  {
    && id in b.coupons && b.coupons[id].trigger == Signup
    && forall u :: Count(b.held, Ever(u, id)) <= 1
  }

  lemma HandToOther(b: Book, id: nat, other: nat, rows: seq<Held>)
    requires OnceEach(b, id) && other != id
    requires AllOf(rows, other)
    ensures forall u :: Count(b.held + rows, Ever(u, id)) <= 1
  {
    forall u ensures Count(b.held + rows, Ever(u, id)) <= 1 {
      CountConcat(b.held, rows, Ever(u, id));
      CountOfStranger(rows, Ever(u, id));
    }
  }

  lemma WelcomeStep(b: Book, id: nat, s: Step)
    requires OnceEach(b, id) && !Bypasses(s, id) && !(s.Delete? && s.id == id)
    ensures OnceEach(Result(b, Perform(b, s)), id)
  {
    if Perform(b, s).Committed? {
      match s
      case Issue(other, users, count, now, seen) =>
        IssueIsOfOne(b, other, users, count);
        HandToOther(b, id, other, IssueRows(b, other, users, count));
      case Claim(user, other, now, seen) => HandToOther(b, id, other, [Held(user, other, Trade.Claimed)]);
      case Bonus(user, other, now, seen) => HandToOther(b, id, other, [Held(user, other, Trade.Claimed)]);
      case Grant(user, other, now, repeat, seen) =>
        var row := Held(user, other, Trade.Claimed);
        if other != id {
          HandToOther(b, id, other, [row]);
        } else {
          forall u ensures Count(b.held + [row], Ever(u, id)) <= 1 {
            CountConcat(b.held, [row], Ever(u, id));
          }
        }
      case Touch(row, status) =>
        var h := b.held[row].(status := status);
        forall u ensures Count(b.held[row := h], Ever(u, id)) <= 1 {
          CountTouched(b.held, row, h, Ever(u, id));
        }
      case _ =>
    }
  }

  /**
   A welcome coupon granted on registration, and again on every later visit or change of campus, still
   reaches each user at most once, even after it was used. A template that was handed out is never
   deleted, so this only asks that nobody bypasses the rule.
   */
  lemma {:induction false} WelcomeCouponOnce(b: Book, id: nat, steps: seq<Step>)
    requires OnceEach(b, id) && forall i :: 0 <= i < |steps| ==> !Bypasses(steps[i], id) && steps[i] != Delete(id)
    ensures OnceEach(Run(b, steps), id)
  {
    if steps != [] {
      WelcomeCouponOnce(b, id, steps[..|steps| - 1]);
      WelcomeStep(Run(b, steps[..|steps| - 1]), id, steps[|steps| - 1]);
    }
  }
}
