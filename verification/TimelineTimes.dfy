/** When each node of a timeline was lit: the times along every run, whatever was read, skipped or handed back. */
module TimelineTimes {
  import opened Sums
  import opened OrderState
  import opened Timeline
  import opened Handover

  /**
   A done node says when. A node that is not done has no time, but for the last one of the route, which
   also takes the time of an end that lights nothing. A note of a transfer is always done.
   */
  predicate NodeDated(t: seq<Node>, i: nat)
    requires i < |t|
  {
    && (t[i].done ==> t[i].time.Some?)
    && (!t[i].done && t[i].time.Some? ==> i == |t| - 1 && t[i].key == LastMileKey)
    && (t[i].key == TransferredKey ==> t[i].done)
  }

  predicate Dated(t: seq<Node>)
  {
    && t != [] && t[|t| - 1].key in {LastMileKey, TransferredKey}
    && forall i :: 0 <= i < |t| ==> NodeDated(t, i)
  }

  /** Marking dates what it lights, and leaves every date there was; an end with no node of its own dates the last one. */
  lemma MarkDates(t: seq<Node>, s: OrderStatus, now: int)
    requires Dated(t)
    ensures var r := Mark(t, s, now);
            && Dated(r)
            && (KeyFor(s) == None ==> r[|t| - 1].time == if t[|t| - 1].time.Some? then t[|t| - 1].time else Some(now))
            && forall i :: 0 <= i < |t| ==>
                 && (t[i].done ==> r[i] == t[i])
                 && (r[i].done && !t[i].done ==> r[i].time == Some(now) && KeyFor(s) == Some(t[i].key))
  {
    var r := Mark(t, s, now);
    assert NodeDated(t, |t| - 1);
    forall i | 0 <= i < |t|
      ensures NodeDated(r, i) && (t[i].done ==> r[i] == t[i])
      ensures r[i].done && !t[i].done ==> r[i].time == Some(now) && KeyFor(s) == Some(t[i].key)
    {
      assert NodeDated(t, i);
    }
  }

  /** A transfer takes back what was lit after outbound, date and all, and is itself dated. */
  lemma ResetDates(t: seq<Node>, now: int)
    requires Dated(t)
    ensures var r := Reset(t, now);
            && Dated(r) && r[|t|].time == Some(now)
            && forall i :: 0 <= i < |t| ==>
                 if t[i].key in {FirstMileKey, HandoverKey, ReadyKey, LastMileKey} then !r[i].done && r[i].time == None else r[i] == t[i]
  {
    var r := Reset(t, now);
    forall i | 0 <= i < |r| ensures NodeDated(r, i) {
      if i < |t| {
        assert NodeDated(t, i);
      }
    }
    forall i | 0 <= i < |t|
      ensures if t[i].key in {FirstMileKey, HandoverKey, ReadyKey, LastMileKey} then !r[i].done && r[i].time == None else r[i] == t[i]
    {
      assert r[i] == Unlight(t[i]);
    }
  }

  lemma {:induction false} DropKeepsNodes(t: seq<Node>)
    ensures forall i :: 0 <= i < |DropHandover(t)| ==> DropHandover(t)[i] in t
    ensures t != [] && t[|t| - 1].key !in {HandoverKey, ReadyKey} ==>
              DropHandover(t) != [] && DropHandover(t)[|DropHandover(t)| - 1] == t[|t| - 1]
    ensures forall i :: (0 <= i < |DropHandover(t)| && !DropHandover(t)[i].done && DropHandover(t)[i].time.Some?) ==>
              (exists j :: 0 <= j < |t| - 1 && t[j] == DropHandover(t)[i]) || i == |DropHandover(t)| - 1
  {
    if t != [] {
      var init := t[..|t| - 1];
      DropKeepsNodes(init);
      forall i | 0 <= i < |DropHandover(init)|
        ensures exists j :: 0 <= j < |t| - 1 && t[j] == DropHandover(init)[i]
      {
        var j :| 0 <= j < |init| && init[j] == DropHandover(init)[i];
        assert t[j] == DropHandover(init)[i];
      }
    }
  }

  lemma DropDated(t: seq<Node>)
    requires Dated(t)
    ensures Dated(DropHandover(t))
  {
    DropKeepsNodes(t);
    var d := DropHandover(t);
    forall k | 0 <= k < |t| - 1 ensures t[k].done || t[k].time == None {
      assert NodeDated(t, k);
    }
    forall i | 0 <= i < |d| ensures NodeDated(d, i) {
      var j :| 0 <= j < |t| && t[j] == d[i];
      assert NodeDated(t, j);
    }
  }

  ghost predicate AllDated(h: History)
  {
    forall i :: 0 <= i < |h| ==> Dated(h[i].timeline)
  }

  lemma ActDated(now: Task, seen: Task, staff: Staff, address: Address, action: Action, evidence: Evidence, at: int)
    requires Dated(now.timeline) && Dated(seen.timeline)
    requires UpdateTask(now, seen, staff, address, action, evidence, at).Some?
    ensures Dated(UpdateTask(now, seen, staff, address, action, evidence, at).value.timeline)
  {
    if action == Transfer {
      ResetDates(seen.timeline, at);
    } else {
      MarkDates(seen.timeline, UpdateTask(now, seen, staff, address, action, evidence, at).value.status, at);
    }
  }

  lemma CommitDated(now: Task, seen: Task, e: Event, address: Address)
    requires Dated(now.timeline) && Dated(seen.timeline) && EffectOn(now, seen, e, address).Some?
    ensures Dated(EffectOn(now, seen, e, address).value.timeline)
  {
    match e
    case GoOut(_, hasManager, at) =>
      DropDated(seen.timeline);
      MarkDates(if hasManager then seen.timeline else DropHandover(seen.timeline), WaitingFirstMile, at);
    case Act(staff, action, evidence, _, at) => ActDated(now, seen, staff, address, action, evidence, at);
    case Scan(_, _, at) => MarkDates(seen.timeline, Arrived, at);
    case Confirm(_, at) => MarkDates(seen.timeline, Completed, at);
  }

  /** Over every run from a paid order, on whatever stale reads, whoever acts: every done node says when. */
  lemma {:induction false} DoneSaysWhen(at: int, es: seq<Event>, address: Address)
    ensures AllDated(Run(NewOrder(at), es, address))
  {
    if es == [] {
      NewIsDated(at);
    } else {
      var init, e := es[..|es| - 1], es[|es| - 1];
      DoneSaysWhen(at, init, address);
      var u := Run(NewOrder(at), init, address);
      if Effect(u, e, address).Some? {
        CommitDated(Now(u), u[e.seen], e, address);
      }
    }
  }

  lemma NewIsDated(at: int)
    ensures Dated(Mark(BuildTimeline(), Paid, at))
  {
    assert Dated(BuildTimeline());
    MarkDates(BuildTimeline(), Paid, at);
  }
}
