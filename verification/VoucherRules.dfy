/** Who gets a coupon, through which channel, and what an edit of its template changes. */
module VoucherRules {
  import opened Sums
  import Trade
  import opened Vouchers

  /** Coupons of this template the user can still use, and all they ever got of it. */
  function CanUse(held: seq<Held>, user: nat, id: nat): nat
  {
    if held == [] then 0
    else
      var last := held[|held| - 1];
      CanUse(held[..|held| - 1], user, id)
      + if last.user == user && last.coupon == id && last.status in {Trade.Claimed, Trade.Locked, Trade.Released} then 1 else 0
  }

  function EverGot(held: seq<Held>, user: nat, id: nat): nat
  {
    if held == [] then 0
    else
      var last := held[|held| - 1];
      EverGot(held[..|held| - 1], user, id) + if last.user == user && last.coupon == id then 1 else 0
  }

  lemma {:induction false} CountsMean(held: seq<Held>, user: nat, id: nat)
    ensures Count(held, Unused(user, id)) == CanUse(held, user, id)
    ensures Count(held, Ever(user, id)) == EverGot(held, user, id)
  {
    if held != [] {
      CountsMean(held[..|held| - 1], user, id);
    }
  }

  /** Valid until the instant it expires. */
  predicate Live(c: Coupon, now: int)
  {
    c.expiresAt == None || now < c.expiresAt.value
  }

  predicate Left(c: Coupon, n: nat, seen: Option<nat>)
  {
    seen == None || c.claimed + n <= seen.value
  }

  /** These rows are handed out, counted twice over on the template, and nothing else changes. */
  function Given(b: Book, id: nat, rows: seq<Held>): Book
    requires id in b.coupons
  {
    var c := b.coupons[id];
    Book(b.coupons[id := c.(issued := c.issued + |rows|, claimed := c.claimed + |rows|)], b.held + rows)
  }

  /** Open to everyone who asks. */
  predicate Public(b: Book, id: nat, now: int)
  {
    id in b.coupons && b.coupons[id].active && b.coupons[id].trigger == Manual && !b.coupons[id].targetedOnly && Live(b.coupons[id], now)
  }

  /** Claiming: a second time hands back the unused first, and a limit counts everything ever claimed. */
  lemma ClaimedExactlyWhen(b: Book, user: nat, id: nat, now: int, seen: Option<nat>)
    ensures var out := DoClaim(b, user, id, now, seen);
            && (out.Existing? <==> Public(b, id, now) && b.coupons[id].perUserLimit > 0 && CanUse(b.held, user, id) > 0)
            && (out.Committed? <==>
                  && Public(b, id, now) && Left(b.coupons[id], 1, seen)
                  && (b.coupons[id].perUserLimit > 0 ==>
                        CanUse(b.held, user, id) == 0 && EverGot(b.held, user, id) < b.coupons[id].perUserLimit))
            && (out.Committed? ==> out.book == Given(b, id, [Held(user, id, Trade.Claimed)]))
  {
    CountsMean(b.held, user, id);
  }

  predicate Running(b: Book, id: nat, now: int)
  {
    id in b.coupons && b.coupons[id].active && Live(b.coupons[id], now)
  }

  /** Granting: a prize may repeat; otherwise who has one keeps it, and a welcome coupon is had even when used. */
  lemma GrantedExactlyWhen(b: Book, user: nat, id: nat, now: int, repeat: bool, seen: Option<nat>)
    ensures var out := DoGrant(b, user, id, now, repeat, seen);
            && (out.Existing? <==>
                  && Running(b, id, now) && !repeat
                  && (if b.coupons[id].trigger == Signup then EverGot(b.held, user, id) > 0 else CanUse(b.held, user, id) > 0))
            && (out.Committed? <==>
                  && Running(b, id, now) && Left(b.coupons[id], 1, seen)
                  && (!repeat ==> if b.coupons[id].trigger == Signup then EverGot(b.held, user, id) == 0 else CanUse(b.held, user, id) == 0))
            && (out.Committed? ==> out.book == Given(b, id, [Held(user, id, Trade.Claimed)]))
  {
    CountsMean(b.held, user, id);
  }

  /** The bonus for a scheduled delivery comes even from a template that is switched off, as long as it has not expired. */
  lemma BonusExactlyWhen(b: Book, user: nat, id: nat, now: int, seen: Option<nat>)
    ensures var out := DoBonus(b, user, id, now, seen);
            && !out.Existing?
            && (out.Committed? <==> id in b.coupons && Live(b.coupons[id], now) && Left(b.coupons[id], 1, seen))
            && (out.Committed? ==> out.book == Given(b, id, [Held(user, id, Trade.Claimed)]))
  {
  }

  // ----- issuing to many -----

  /** What one call gives one user: what was asked, one if nothing was, up to the limit less what they can still use. */
  function Portion(limit: nat, asked: Option<nat>, canUse: nat): nat
  {
    var want := match asked case None => 1 case Some(n) => n;
    if limit == 0 then want
    else if limit <= canUse then 0
    else if want < limit - canUse then want else limit - canUse
  }

  function Portions(held: seq<Held>, id: nat, users: seq<nat>, limit: nat, asked: Option<nat>): nat
  {
    if users == [] then 0
    else
      Portions(held, id, users[..|users| - 1], limit, asked)
      + Portion(limit, asked, CanUse(held, users[|users| - 1], id))
  }

  lemma {:induction false} GrantsAddUp(held: seq<Held>, id: nat, users: seq<nat>, limit: nat, asked: Option<nat>)
    ensures |Grants(held, id, users, Want(asked, limit), limit)| == Portions(held, id, users, limit, asked)
  {
    if users != [] {
      GrantsAddUp(held, id, users[..|users| - 1], limit, asked);
      CountsMean(held, users[|users| - 1], id);
    }
  }

  predicate AllFresh(rows: seq<Held>, id: nat)
  {
    forall i :: 0 <= i < |rows| ==> rows[i].coupon == id && rows[i].status == Trade.Claimed
  }

  lemma {:induction false} GrantsAreFresh(held: seq<Held>, id: nat, users: seq<nat>, want: nat, limit: nat)
    ensures AllFresh(Grants(held, id, users, want, limit), id)
  {
    if users != [] {
      var init, u := users[..|users| - 1], users[|users| - 1];
      GrantsAreFresh(held, id, init, want, limit);
      var before, last := Grants(held, id, init, want, limit), Copies(u, id, Allowance(want, limit, Count(held, Unused(u, id))));
      assert Grants(held, id, users, want, limit) == before + last;
      assert AllFresh(last, id);
    }
  }

  /** What issuing hands out: as many new coupons as the portions add up to. */
  lemma IssueRowsAddUp(b: Book, id: nat, users: seq<nat>, asked: Option<nat>)
    requires id in b.coupons
    ensures |IssueRows(b, id, users, asked)| == Portions(b.held, id, Distinct(users), b.coupons[id].perUserLimit, asked)
    ensures AllFresh(IssueRows(b, id, users, asked), id)
  {
    var limit := b.coupons[id].perUserLimit;
    GrantsAddUp(b.held, id, Distinct(users), limit, asked);
    GrantsAreFresh(b.held, id, Distinct(users), Want(asked, limit), limit);
  }

  /** Issuing goes through exactly when somebody gets something and the total that was read has room for all of it. */
  lemma IssuedExactlyWhen(b: Book, id: nat, users: seq<nat>, asked: Option<nat>, now: int, seen: Option<nat>)
    requires id in b.coupons
    ensures var out, rows := DoIssue(b, id, users, asked, now, seen), IssueRows(b, id, users, asked);
            var n := Portions(b.held, id, Distinct(users), b.coupons[id].perUserLimit, asked);
            && !out.Existing?
            && (out.Committed? <==> Running(b, id, now) && 1 <= n && Left(b.coupons[id], n, seen))
            && (out.Committed? ==> out.book == Given(b, id, rows) && |rows| == n && AllFresh(rows, id))
  {
    IssueRowsAddUp(b, id, users, asked);
  }

  // ----- templates -----

  /** A new template is on, has handed out nothing, is worth something if it is the platform's own, and has not expired. */
  lemma OfferedExactlyWhen(b: Book, id: nat, draft: Coupon, now: int)
    ensures var out := DoCreate(b, id, draft, now);
            && (out.Committed? <==>
                  && id !in b.coupons && Live(draft, now)
                  && (draft.kind == Platform ==> draft.amount > 0)
                  && (draft.kind == Partner ==> draft.amount == draft.threshold == 0))
            && (out.Committed? ==>
                  out.book == b.(coupons := b.coupons[id := draft.(active := true, issued := 0, claimed := 0)]))
  {
  }

  predicate Lawful(c: Coupon, e: Edit)
  {
    && (e.amount != None || e.threshold != None ==> c.claimed == 0 && c.kind == Platform)
    && e.amount != Some(0)
    && (e.total.Some? && e.total.value.Some? ==> c.claimed <= e.total.value.value)
  }

  predicate Takes<T(==)>(before: T, after: T, asked: Option<T>)
  {
    after == if asked == None then before else asked.value
  }

  /** An edit changes what it names, to what it says, on that one template; worth only before anything was handed out. */
  lemma ChangedExactlyWhen(b: Book, id: nat, e: Edit)
    ensures var out := DoChange(b, id, e);
            && (out.Committed? <==> id in b.coupons && Lawful(b.coupons[id], e))
            && (out.Committed? ==>
                  var c, x := b.coupons[id], out.book.coupons[id];
                  && out.book == b.(coupons := b.coupons[id := x])
                  && Takes(c.amount, x.amount, e.amount) && Takes(c.threshold, x.threshold, e.threshold)
                  && Takes(c.active, x.active, e.active) && Takes(c.targetedOnly, x.targetedOnly, e.targetedOnly)
                  && Takes(c.perUserLimit, x.perUserLimit, e.perUserLimit) && Takes(c.total, x.total, e.total)
                  && Takes(c.expiresAt, x.expiresAt, e.expiresAt)
                  && x.kind == c.kind && x.trigger == c.trigger && x.issued == c.issued && x.claimed == c.claimed)
  {
  }

  /** A template goes only while nothing was ever handed out from it. */
  lemma DeletedExactlyWhen(b: Book, id: nat)
    requires Consistent(b)
    ensures var out := Perform(b, Delete(id));
            && (out.Committed? <==> id in b.coupons && forall i :: 0 <= i < |b.held| ==> b.held[i].coupon != id)
            && (out.Committed? ==> out.book == b.(coupons := b.coupons - {id}))
  {
    if id in b.coupons {
      if b.coupons[id].claimed == 0 {
        CountNone(b.held, id);
      } else if forall i :: 0 <= i < |b.held| ==> b.held[i].coupon != id {
        CountOfStranger(b.held, OfCoupon(id));
      }
    }
  }
}
