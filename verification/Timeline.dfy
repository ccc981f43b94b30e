/** The order timeline (src/common/order-state.ts): building it, marking a node, and what its done nodes mean. */
module Timeline {
  import opened Sums
  import opened OrderState

  datatype Key = PaidKey | PickingKey | FirstMileKey | HandoverKey | ReadyKey | LastMileKey | TransferredKey

  datatype Node = Node(key: Key, done: bool, time: Option<int>)

  /** How the last leg is covered, fixed at outbound. */
  datatype Route = ViaManager | CustomerPickup

  /** The node that entering a status lights up, if any. */
  function KeyFor(s: OrderStatus): Option<Key>
  {
    match s
    case Paid => Some(PaidKey)
    case Picking => Some(PickingKey)
    case WaitingFirstMile => Some(PickingKey)
    case Arrived => Some(PickingKey)
    case FirstMile => Some(FirstMileKey)
    case WaitingHandover => Some(HandoverKey)
    case LastMile => Some(ReadyKey)
    case Delivered => Some(LastMileKey)
    case _ => None
  }

  /** The nodes of a route, in order; before outbound all of them. */
  function RouteKeys(route: Option<Route>): seq<Key>
  {
    if route == Some(CustomerPickup) then [PaidKey, PickingKey, FirstMileKey, LastMileKey]
    else [PaidKey, PickingKey, FirstMileKey, HandoverKey, ReadyKey, LastMileKey]
  }

  function BuildTimeline(): (t: seq<Node>)
    ensures |t| == 6 && forall i :: 0 <= i < 6 ==> t[i] == Node(RouteKeys(None)[i], false, None)
  {
    seq(6, i requires 0 <= i < 6 => Node(RouteKeys(None)[i], false, None))
  }

  function Find(t: seq<Node>, key: Option<Key>): (i: nat)
    ensures i <= |t|
    ensures i < |t| ==> key == Some(t[i].key)
    ensures forall j :: 0 <= j < i ==> key != Some(t[j].key)
  {
    if t == [] || key == Some(t[0].key) then 0 else 1 + Find(t[1..], key)
  }

  /** Light the status's node once; with no such node, only leave a time on the last one. */
  function Mark(t: seq<Node>, s: OrderStatus, now: int): (r: seq<Node>)
    ensures |r| == |t|
  {
    var i := Find(t, KeyFor(s));
    if i < |t| then
      if t[i].done then t else t[i := t[i].(done := true, time := Some(now))]
    else if t != [] && t[|t| - 1].time.None? then t[|t| - 1 := t[|t| - 1].(time := Some(now))]
    else t
  }

  /** The same, the way it is done: copy the steps, look for the node, write it in place. */
  method MarkTimelineStep(timeline: seq<Node>, status: OrderStatus, now: int) returns (r: seq<Node>)
    ensures r == Mark(timeline, status, now)
  {
    var steps := new Node[|timeline|](i requires 0 <= i < |timeline| => timeline[i]);
    var key := KeyFor(status);
    var i := 0;
    while i < steps.Length && key != Some(steps[i].key)
      invariant 0 <= i <= steps.Length
      invariant steps[..] == timeline
      invariant forall j :: 0 <= j < i ==> key != Some(timeline[j].key)
    {
      i := i + 1;
    }
    FindIsFirst(timeline, key, i);
    if i < steps.Length {
      if !steps[i].done {
        steps[i] := steps[i].(done := true, time := Some(now));
      }
    } else if steps.Length > 0 && steps[steps.Length - 1].time.None? {
      steps[steps.Length - 1] := steps[steps.Length - 1].(time := Some(now));
    }
    r := steps[..];
  }

  lemma FindIsFirst(t: seq<Node>, key: Option<Key>, i: nat)
    requires i <= |t| && (i < |t| ==> key == Some(t[i].key))
    requires forall j :: 0 <= j < i ==> key != Some(t[j].key)
    ensures Find(t, key) == i
  {
  }

  /** A transfer unlights everything after outbound and leaves a note. */
  function Unlight(n: Node): Node
  {
    if n.key in {FirstMileKey, HandoverKey, ReadyKey, LastMileKey} then n.(done := false, time := None) else n
  }

  function Reset(t: seq<Node>, now: int): (r: seq<Node>)
    ensures |r| == |t| + 1
    ensures forall i :: 0 <= i < |t| ==> r[i] == Unlight(t[i])
    ensures r[|t|] == Node(TransferredKey, true, Some(now))
  {
    seq(|t|, i requires 0 <= i < |t| => Unlight(t[i])) + [Node(TransferredKey, true, Some(now))]
  }

  /** Customer pickup has no hand-over to a manager, so outbound drops those nodes. */
  function DropHandover(t: seq<Node>): seq<Node>
  {
    if t == [] then []
    else if t[|t| - 1].key in {HandoverKey, ReadyKey} then DropHandover(t[..|t| - 1])
    else DropHandover(t[..|t| - 1]) + [t[|t| - 1]]
  }

  // ----- what the done nodes mean -----

  function Rank(k: Key): nat
  {
    match k
    case PaidKey => 0
    case PickingKey => 1
    case FirstMileKey => 2
    case HandoverKey => 3
    case ReadyKey => 4
    case LastMileKey => 5
    case TransferredKey => 6
  }

  /** How far along the full route a status is. */
  function Level(s: OrderStatus): nat
  {
    match s
    case Paid => 1
    case Picking => 2
    case WaitingFirstMile => 2
    case Arrived => 2
    case FirstMile => 3
    case WaitingHandover => 4
    case LastMile => 5
    case Exception => 5
    case Delivered => 6
    case Completed => 6
    case _ => 0
  }

  /** The keys in order, transfer notes aside. */
  function Keys(t: seq<Node>): seq<Key>
  {
    if t == [] then []
    else if t[|t| - 1].key == TransferredKey then Keys(t[..|t| - 1])
    else Keys(t[..|t| - 1]) + [t[|t| - 1].key]
  }

  /** The keys of the done nodes, transfer notes aside: what the shopper sees as progress. */
  function DoneKeys(t: seq<Node>): seq<Key>
  {
    if t == [] then []
    else if t[|t| - 1].key == TransferredKey || !t[|t| - 1].done then DoneKeys(t[..|t| - 1])
    else DoneKeys(t[..|t| - 1]) + [t[|t| - 1].key]
  }

  predicate NodeTells(n: Node, s: OrderStatus)
  {
    n.key == TransferredKey || (n.done <==> Rank(n.key) < Level(s))
  }

  /** The timeline carries these nodes in order, and says exactly how far the status is. */
  ghost predicate Follows(t: seq<Node>, s: OrderStatus, ks: seq<Key>)
  {
    && Keys(t) == ks
    && (forall i, j :: 0 <= i < j < |t| && t[i].key == t[j].key ==> t[i].key == TransferredKey)
    && (forall i :: 0 <= i < |t| ==> NodeTells(t[i], s))
  }

  ghost predicate Tells(t: seq<Node>, s: OrderStatus, route: Option<Route>)
  {
    Follows(t, s, RouteKeys(route))
  }

  lemma {:induction false} KeyPresent(t: seq<Node>, k: Key)
    ensures k in Keys(t) <==> k != TransferredKey && exists i :: 0 <= i < |t| && t[i].key == k
  {
    if t != [] {
      KeyPresent(t[..|t| - 1], k);
      var last := t[|t| - 1];
      if exists i :: 0 <= i < |t| && t[i].key == k {
        var i :| 0 <= i < |t| && t[i].key == k;
        if i < |t| - 1 {
          assert t[..|t| - 1][i].key == k;
        }
      }
      if k in Keys(t) && k !in Keys(t[..|t| - 1]) {
        assert t[|t| - 1].key == k;
      }
    }
  }

  lemma {:induction false} KeysPointwise(a: seq<Node>, b: seq<Node>)
    requires |a| == |b| && forall i :: 0 <= i < |a| ==> a[i].key == b[i].key
    ensures Keys(a) == Keys(b)
  {
    if a != [] {
      KeysPointwise(a[..|a| - 1], b[..|b| - 1]);
    }
  }

  lemma {:induction false} KeysAre(t: seq<Node>, ks: seq<Key>)
    requires |t| == |ks| && forall i :: 0 <= i < |t| ==> t[i].key == ks[i] != TransferredKey
    ensures Keys(t) == ks
  {
    if t != [] {
      KeysAre(t[..|t| - 1], ks[..|ks| - 1]);
    }
  }

  /** A new order starts with every node dark, which is right while it waits for payment. */
  lemma NewTimelineTells()
    ensures Tells(BuildTimeline(), PendingPayment, None)
  {
    KeysAre(BuildTimeline(), RouteKeys(None));
  }

  /** Entering `to` from `from` skips none of these nodes and lights none too early. */
  predicate SkipsNothing(from: OrderStatus, to: OrderStatus, ks: seq<Key>)
  {
    forall i :: 0 <= i < |ks| ==> SkipsNot(from, to, ks[i])
  }

  predicate SkipsNot(from: OrderStatus, to: OrderStatus, k: Key)
  {
    Rank(k) < Level(to) <==> (Rank(k) < Level(from) || KeyFor(to) == Some(k))
  }

  lemma MarkAt(t: seq<Node>, s: OrderStatus, now: int, i: nat)
    requires i < |t| && forall j :: 0 <= j < |t| && j != i && t[j].key == t[i].key ==> t[i].key == TransferredKey
    ensures var n := Mark(t, s, now)[i];
            && n.key == t[i].key
            && (n.key != TransferredKey ==> (n.done <==> t[i].done || KeyFor(s) == Some(n.key)))
  {
  }

  lemma MarkLightsOne(t: seq<Node>, from: OrderStatus, to: OrderStatus, ks: seq<Key>, now: int)
    requires Follows(t, from, ks)
    ensures Keys(Mark(t, to, now)) == ks
    ensures forall i :: 0 <= i < |t| ==> Mark(t, to, now)[i].key == t[i].key
    ensures forall i :: (0 <= i < |t| && t[i].key != TransferredKey) ==>
              (NodeTells(Mark(t, to, now)[i], to) <==> SkipsNot(from, to, t[i].key))
  {
    var r := Mark(t, to, now);
    forall i | 0 <= i < |t|
      ensures r[i].key == t[i].key
      ensures t[i].key != TransferredKey ==> (NodeTells(r[i], to) <==> SkipsNot(from, to, t[i].key))
    {
      MarkAt(t, to, now, i);
      assert NodeTells(t[i], from);
    }
    KeysPointwise(t, r);
  }

  lemma MarkTellsOnSkip(t: seq<Node>, from: OrderStatus, to: OrderStatus, ks: seq<Key>, now: int)
    requires Follows(t, from, ks) && !SkipsNothing(from, to, ks)
    ensures !Follows(Mark(t, to, now), to, ks)
  {
    MarkLightsOne(t, from, to, ks, now);
    var n :| 0 <= n < |ks| && !SkipsNot(from, to, ks[n]);
    KeyPresent(t, ks[n]);
    var i :| 0 <= i < |t| && t[i].key == ks[n];
    assert !NodeTells(Mark(t, to, now)[i], to);
  }

  /** Marking keeps the timeline truthful exactly when the move skips no node of the route. */
  lemma MarkTells(t: seq<Node>, from: OrderStatus, to: OrderStatus, ks: seq<Key>, now: int)
    requires Follows(t, from, ks)
    ensures Follows(Mark(t, to, now), to, ks) <==> SkipsNothing(from, to, ks)
  {
    if SkipsNothing(from, to, ks) {
      var r := Mark(t, to, now);
      MarkLightsOne(t, from, to, ks, now);
      forall i | 0 <= i < |r| ensures NodeTells(r[i], to) {
        KeyPresent(t, t[i].key);
      }
    } else {
      MarkTellsOnSkip(t, from, to, ks, now);
    }
  }

  lemma ResetTells(t: seq<Node>, from: OrderStatus, route: Option<Route>, now: int)
    requires Tells(t, from, route) && Level(from) >= 2
    ensures Tells(Reset(t, now), WaitingFirstMile, route)
  {
    var r := Reset(t, now);
    assert r[..|r| - 1] == r[..|t|];
    KeysPointwise(t, r[..|t|]);
    forall i | 0 <= i < |r| ensures NodeTells(r[i], WaitingFirstMile) {
      if i < |t| {
        assert NodeTells(t[i], from);
      }
    }
  }

  lemma {:induction false} DropHandoverKeys(t: seq<Node>, s: OrderStatus)
    requires forall i, j :: 0 <= i < j < |t| && t[i].key == t[j].key ==> t[i].key == TransferredKey
    requires forall i :: 0 <= i < |t| ==> NodeTells(t[i], s)
    ensures var d := DropHandover(t);
            && (forall i :: 0 <= i < |d| ==> d[i] in t && NodeTells(d[i], s))
            && (forall i, j :: 0 <= i < j < |d| && d[i].key == d[j].key ==> d[i].key == TransferredKey)
            && Keys(d) == KeysWithoutHandover(Keys(t))
  {
    if t != [] {
      var init, last := t[..|t| - 1], t[|t| - 1];
      DropHandoverKeys(init, s);
      var d, di := DropHandover(t), DropHandover(init);
      if last.key !in {HandoverKey, ReadyKey} {
        assert d[..|d| - 1] == di;
      }
      if last.key != TransferredKey {
        assert Keys(t)[..|Keys(t)| - 1] == Keys(init);
      }
    }
  }

  function KeysWithoutHandover(ks: seq<Key>): seq<Key>
  {
    if ks == [] then []
    else if ks[|ks| - 1] in {HandoverKey, ReadyKey} then KeysWithoutHandover(ks[..|ks| - 1])
    else KeysWithoutHandover(ks[..|ks| - 1]) + [ks[|ks| - 1]]
  }

  lemma PickupKeys()
    ensures KeysWithoutHandover(RouteKeys(None)) == RouteKeys(Some(CustomerPickup))
  {
    var a := [PaidKey, PickingKey, FirstMileKey];
    assert KeysWithoutHandover(a) == a by {
      Unroll([], PaidKey);
      Unroll([PaidKey], PickingKey);
      Unroll([PaidKey, PickingKey], FirstMileKey);
      assert [] + [PaidKey] == [PaidKey] && [PaidKey] + [PickingKey] == [PaidKey, PickingKey];
      assert [PaidKey, PickingKey] + [FirstMileKey] == a;
    }
    Unroll(a, HandoverKey);
    Unroll(a + [HandoverKey], ReadyKey);
    Unroll(a + [HandoverKey] + [ReadyKey], LastMileKey);
    assert a + [HandoverKey] + [ReadyKey] + [LastMileKey] == RouteKeys(None);
    assert a + [LastMileKey] == RouteKeys(Some(CustomerPickup));
  }

  lemma DropHandoverTells(t: seq<Node>, s: OrderStatus)
    requires Tells(t, s, None)
    ensures Tells(DropHandover(t), s, Some(CustomerPickup))
  {
    var d := DropHandover(t);
    DropHandoverKeys(t, s);
    assert Keys(d) == RouteKeys(Some(CustomerPickup)) by {
      PickupKeys();
    }
  }

  lemma Unroll(ks: seq<Key>, k: Key)
    ensures KeysWithoutHandover(ks + [k])
         == KeysWithoutHandover(ks) + if k in {HandoverKey, ReadyKey} then [] else [k]
  {
    assert (ks + [k])[..|ks|] == ks;
  }

  // ----- the done nodes are a prefix fixed by status and route -----

  function Below(ks: seq<Key>, level: nat): seq<Key>
  {
    if ks == [] then []
    else if Rank(ks[|ks| - 1]) < level then Below(ks[..|ks| - 1], level) + [ks[|ks| - 1]]
    else Below(ks[..|ks| - 1], level)
  }

  lemma {:induction false} DoneKeysBelow(t: seq<Node>, s: OrderStatus)
    requires forall i :: 0 <= i < |t| ==> NodeTells(t[i], s)
    ensures DoneKeys(t) == Below(Keys(t), Level(s))
  {
    if t != [] {
      DoneKeysBelow(t[..|t| - 1], s);
      assert NodeTells(t[|t| - 1], s);
      if t[|t| - 1].key != TransferredKey {
        assert Keys(t)[..|Keys(t)| - 1] == Keys(t[..|t| - 1]);
      }
    }
  }

  lemma {:induction false} BelowIsPrefix(ks: seq<Key>, level: nat)
    requires forall i, j :: 0 <= i < j < |ks| ==> Rank(ks[i]) < Rank(ks[j])
    ensures |Below(ks, level)| <= |ks| && Below(ks, level) == ks[..|Below(ks, level)|]
    ensures forall i :: 0 <= i < |ks| ==> (i < |Below(ks, level)| <==> Rank(ks[i]) < level)
  {
    if ks != [] {
      var init := ks[..|ks| - 1];
      BelowIsPrefix(init, level);
      var n := |Below(init, level)|;
      assert n < |init| ==> Rank(init[n]) >= level && Rank(init[n]) < Rank(ks[|ks| - 1]);
    }
  }

  lemma RouteIsRanked(route: Option<Route>)
    ensures forall i, j :: 0 <= i < j < |RouteKeys(route)| ==> Rank(RouteKeys(route)[i]) < Rank(RouteKeys(route)[j])
  {
  }

  /** The progress shown is a prefix of the route's nodes, and status and route alone fix which. */
  lemma ProgressIsAPrefix(t: seq<Node>, s: OrderStatus, route: Option<Route>)
    requires Tells(t, s, route)
    ensures var ks := RouteKeys(route);
            && |DoneKeys(t)| <= |ks| && DoneKeys(t) == ks[..|DoneKeys(t)|]
            && forall i :: 0 <= i < |ks| ==> (i < |DoneKeys(t)| <==> Rank(ks[i]) < Level(s))
  {
    RouteIsRanked(route);
    FollowsPrefix(t, s, RouteKeys(route));
  }

  lemma FollowsPrefix(t: seq<Node>, s: OrderStatus, ks: seq<Key>)
    requires Follows(t, s, ks)
    requires forall i, j :: 0 <= i < j < |ks| ==> Rank(ks[i]) < Rank(ks[j])
    ensures |DoneKeys(t)| <= |ks| && DoneKeys(t) == ks[..|DoneKeys(t)|]
    ensures forall i :: 0 <= i < |ks| ==> (i < |DoneKeys(t)| <==> Rank(ks[i]) < Level(s))
  {
    DoneKeysBelow(t, s);
    BelowIsPrefix(ks, Level(s));
  }

  /** Two truthful timelines of one status and route show the same progress, whatever happened on the way. */
  lemma ProgressIsAFunctionOfStatus(a: seq<Node>, b: seq<Node>, s: OrderStatus, route: Option<Route>)
    requires Tells(a, s, route) && Tells(b, s, route)
    ensures DoneKeys(a) == DoneKeys(b)
  {
    DoneKeysBelow(a, s);
    DoneKeysBelow(b, s);
  }
}
