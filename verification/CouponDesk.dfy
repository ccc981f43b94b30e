/** The coupon tables, written row by row; every method is tied to its step in Vouchers. */
module CouponDesk {
  import opened Sums
  import opened Vouchers
  import Trade

  datatype Verdict = Granted | AlreadyHeld | Declined

  function Says(out: Outcome): Verdict
  {
    match out
    case Committed(_) => Granted
    case Existing => AlreadyHeld
    case Refused => Declined
  }

  class Database {
    var templates: map<nat, Coupon>
    var held: seq<Held>

    function Read(): Book
      reads this
    {
      Book(templates, held)
    }

    /** How many rows a query finds. */
    method Find(q: Query) returns (n: nat)
      ensures n == Count(held, q)
    {
      n := 0;
      for i := 0 to |held|
        invariant n == Count(held[..i], q)
      {
        assert held[..i + 1][..i] == held[..i];
        if Matches(q, held[i]) { n := n + 1; }
      }
      assert held[..|held|] == held;
    }

    /** The guarded counter update, then the rows it pays for. */
    method HandOut(id: nat, rows: seq<Held>, seen: Option<nat>) returns (v: Verdict)
      requires id in templates
      modifies this
      ensures Read() == Result(old(Read()), Hand(old(Read()), id, rows, seen))
      ensures v == Says(Hand(old(Read()), id, rows, seen))
    {
      var c := templates[id];
      if seen.Some? && c.claimed + |rows| > seen.value { return Declined; }
      templates := templates[id := c.(claimed := c.claimed + |rows|, issued := c.issued + |rows|)];
      held := held + rows;
      return Granted;
    }

    method Claim(user: nat, id: nat, now: int, seen: Option<nat>) returns (v: Verdict)
      modifies this
      ensures Read() == Result(old(Read()), DoClaim(old(Read()), user, id, now, seen))
      ensures v == Says(DoClaim(old(Read()), user, id, now, seen))
    {
      if id !in templates { return Declined; }
      var c := templates[id];
      if !c.active || c.trigger != Manual || c.targetedOnly || Expired(c, now) { return Declined; }
      if c.perUserLimit != 0 {
        var ever := Find(Ever(user, id));
        var unused := Find(Unused(user, id));
        if ever >= c.perUserLimit {
          return if unused > 0 then AlreadyHeld else Declined;
        }
        if unused > 0 { return AlreadyHeld; }
      }
      v := HandOut(id, [Held(user, id, Trade.Claimed)], seen);
    }

    method Grant(user: nat, id: nat, now: int, repeat: bool, seen: Option<nat>) returns (v: Verdict)
      modifies this
      ensures Read() == Result(old(Read()), DoGrant(old(Read()), user, id, now, repeat, seen))
      ensures v == Says(DoGrant(old(Read()), user, id, now, repeat, seen))
    {
      if id !in templates { return Declined; }
      var c := templates[id];
      if !c.active || Expired(c, now) { return Declined; }
      if !repeat {
        var holding := Find(if c.trigger == Signup then Ever(user, id) else Unused(user, id));
        if holding > 0 { return AlreadyHeld; }
      }
      v := HandOut(id, [Held(user, id, Trade.Claimed)], seen);
    }

    method DropRepeats(users: seq<nat>) returns (kept: seq<nat>)
      ensures kept == Distinct(users)
    {
      kept := [];
      var seen: set<nat> := {};
      for i := 0 to |users|
        invariant kept == Distinct(users[..i])
        invariant forall u :: u in seen <==> u in users[..i]
      {
        assert users[..i + 1] == users[..i] + [users[i]];
        if users[i] !in seen {
          seen, kept := seen + {users[i]}, kept + [users[i]];
        }
      }
      assert users[..|users|] == users;
    }

    /** One pass over the table counts what each user still holds unused. */
    method CountUnused(id: nat, users: seq<nat>) returns (counts: map<nat, nat>)
      ensures forall u :: u in users ==> (if u in counts then counts[u] else 0) == Count(held, Unused(u, id))
    {
      counts := map[];
      for i := 0 to |held|
        invariant forall u :: u in users ==> (if u in counts then counts[u] else 0) == Count(held[..i], Unused(u, id))
      {
        assert held[..i + 1][..i] == held[..i];
        var h := held[i];
        if h.coupon == id && h.user in users && h.status != Trade.Used {
          counts := counts[h.user := (if h.user in counts then counts[h.user] else 0) + 1];
        }
      }
      assert held[..|held|] == held;
    }

    method Issue(id: nat, users: seq<nat>, count: Option<nat>, now: int, seen: Option<nat>) returns (v: Verdict)
      modifies this
      ensures Read() == Result(old(Read()), DoIssue(old(Read()), id, users, count, now, seen))
      ensures v == Says(DoIssue(old(Read()), id, users, count, now, seen))
    {
      if id !in templates { return Declined; }
      var c := templates[id];
      if !c.active || Expired(c, now) { return Declined; }
      var named := DropRepeats(users);
      if named == [] { return Declined; }
      var want := Want(count, c.perUserLimit);
      var counts := CountUnused(id, named);
      var rows: seq<Held> := [];
      for i := 0 to |named|
        invariant rows == Grants(held, id, named[..i], want, c.perUserLimit)
      {
        var u := named[i];
        assert named[..i + 1][..i] == named[..i];
        rows := rows + Copies(u, id, Allowance(want, c.perUserLimit, if u in counts then counts[u] else 0));
      }
      assert named[..|named|] == named;
      if rows == [] { return Declined; }
      v := HandOut(id, rows, seen);
    }

    /** Paying for a scheduled delivery hands out the bonus coupon, paused template or not. */
    method PayBonus(user: nat, id: nat, now: int, seen: Option<nat>) returns (v: Verdict)
      modifies this
      ensures Read() == Result(old(Read()), DoBonus(old(Read()), user, id, now, seen))
      ensures v == Says(DoBonus(old(Read()), user, id, now, seen))
    {
      if id !in templates || Expired(templates[id], now) { return Declined; }
      v := HandOut(id, [Held(user, id, Trade.Claimed)], seen);
    }

    method Change(id: nat, e: Edit) returns (v: Verdict)
      modifies this`templates
      ensures Read() == Result(old(Read()), DoChange(old(Read()), id, e))
      ensures v == Says(DoChange(old(Read()), id, e))
    {
      if id !in templates { return Declined; }
      var c := templates[id];
      if (e.amount.Some? || e.threshold.Some?) && (c.claimed > 0 || c.kind == Partner) { return Declined; }
      if e.total.Some? && e.total.value.Some? && e.total.value.value < c.claimed { return Declined; }
      if e.amount == Some(0) { return Declined; }
      templates := templates[id := c.(
        amount := Or(e.amount, c.amount), threshold := Or(e.threshold, c.threshold),
        active := Or(e.active, c.active), targetedOnly := Or(e.targetedOnly, c.targetedOnly),
        perUserLimit := Or(e.perUserLimit, c.perUserLimit), total := Or(e.total, c.total),
        expiresAt := Or(e.expiresAt, c.expiresAt))];
      return Granted;
    }

    /**
     Any sequence of requests, served one by one on the tables, does exactly what the run of their
     steps does; so what is handed out stays within every total while no total is lowered behind a channel's back.
     */
    method ServeAll(steps: seq<Step>)
      modifies this
      ensures Read() == Run(old(Read()), steps)
      ensures old(Consistent(Read()) && Capped(Read()) && FreshRun(Read(), steps)) ==> Consistent(Read()) && Capped(Read())
    {
      ghost var start := Read();
      for i := 0 to |steps|
        invariant Read() == Run(start, steps[..i])
      {
        assert steps[..i + 1][..i] == steps[..i];
        Serve(steps[i]);
      }
      assert steps[..|steps|] == steps;
      if Consistent(start) && Capped(start) && FreshRun(start, steps) {
        CountersStayTrue(start, steps);
        NeverOverIssued(start, steps);
      }
    }

    method Serve(s: Step)
      modifies this
      ensures Read() == Result(old(Read()), Perform(old(Read()), s))
    {
      match s
      case Create(id, draft, now) =>
        if id !in templates && !Expired(draft, now) && LawfulWorth(draft.kind, draft.amount, draft.threshold) {
          templates := templates[id := draft.(active := true, issued := 0, claimed := 0)];
        }
      case Change(id, e) => var v := Change(id, e);
      case Delete(id) =>
        if id in templates && templates[id].issued == 0 && templates[id].claimed == 0 {
          templates := templates - {id};
        }
      case Claim(user, id, now, seen) => var v := Claim(user, id, now, seen);
      case Grant(user, id, now, repeat, seen) => var v := Grant(user, id, now, repeat, seen);
      case Bonus(user, id, now, seen) => var v := PayBonus(user, id, now, seen);
      case Issue(id, users, count, now, seen) => var v := Issue(id, users, count, now, seen);
      case Touch(row, status) =>
        if row < |held| {
          held := held[row := held[row].(status := status)];
        }
    }
  }
}
