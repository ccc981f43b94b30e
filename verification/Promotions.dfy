/** Promotion windows: the back office that writes them (src/admin/admin.service.ts) and the shop that reads them. */
module Promotions {
  import opened Sums

  datatype Kind = Seckill | Clearance
  datatype Promo = Promo(product: nat, kind: Kind, price: nat, start: int, end: int, active: bool)

  /** What an edit asks for; a field left out stays as it is. */
  datatype Edit = Edit(price: Option<nat>, start: Option<int>, end: Option<int>, active: Option<bool>)

  datatype Step =
    | Create(product: nat, onSale: bool, base: nat, kind: Kind, price: nat, start: int, end: int, now: int)
    | Update(row: nat, base: nat, edit: Edit, now: int)

  /** Two half-open windows have an instant in common. */
  predicate Overlaps(p: Promo, start: int, end: int)
  {
    p.start < end && p.end > start
  }

  /** No active row of the product, other than row `self`, overlaps the window. */
  predicate WindowFree(rows: seq<Promo>, product: nat, start: int, end: int, self: nat)
  {
    forall i :: 0 <= i < |rows| && i != self && rows[i].product == product && rows[i].active
      ==> !Overlaps(rows[i], start, end)
  }

  function DoCreate(rows: seq<Promo>, p: Promo, onSale: bool, base: nat, now: int): Option<seq<Promo>>
  {
    if !onSale || p.end <= p.start || p.end <= now || p.price >= base then None
    else if !WindowFree(rows, p.product, p.start, p.end, |rows|) then None
    else Some(rows + [p.(active := true)])
  }

  function Or<T>(o: Option<T>, otherwise: T): T
  {
    if o.Some? then o.value else otherwise
  }

  /** The row as an edit would leave it. */
  function Edited(p: Promo, e: Edit): Promo
  {
    p.(price := Or(e.price, p.price), start := Or(e.start, p.start), end := Or(e.end, p.end), active := Or(e.active, p.active))
  }

  /** The window is looked at only when it moves or the row is switched on; a finished row is not edited at all. */
  function DoUpdate(rows: seq<Promo>, r: nat, base: nat, e: Edit, now: int): Option<seq<Promo>>
  {
    if r >= |rows| || rows[r].end <= now then None
    else
      var p := Edited(rows[r], e);
      var moved := e.start.Some? || e.end.Some?;
      if moved && (p.end <= p.start || p.end <= now) then None
      else if e.price.Some? && p.price >= base then None
      else if (e.active == Some(true) || moved) && !WindowFree(rows, p.product, p.start, p.end, r) then None
      else Some(rows[r := p])
  }

  function Perform(rows: seq<Promo>, s: Step): Option<seq<Promo>>
  {
    match s
    case Create(product, onSale, base, kind, price, start, end, now) =>
      DoCreate(rows, Promo(product, kind, price, start, end, true), onSale, base, now)
    case Update(r, base, e, now) => DoUpdate(rows, r, base, e, now)
  }

  function Run(rows: seq<Promo>, steps: seq<Step>): seq<Promo>
  {
    if steps == [] then rows
    else
      var before := Run(rows, steps[..|steps| - 1]);
      Or(Perform(before, steps[|steps| - 1]), before)
  }

  // ----- windows -----

  /** Every window is a proper interval, and the active windows of a product are pairwise disjoint. */
  predicate Disjoint(rows: seq<Promo>)
  {
    && (forall i :: 0 <= i < |rows| ==> rows[i].start < rows[i].end)
    && (forall i, j :: 0 <= i < j < |rows| && rows[i].product == rows[j].product && rows[i].active && rows[j].active
          ==> !Overlaps(rows[i], rows[j].start, rows[j].end))
  }

  /** Given a sane price and window, creation succeeds exactly when the windows stay disjoint. */
  lemma CreateRefusesOnlyOverlaps(rows: seq<Promo>, p: Promo, base: nat, now: int)
    requires Disjoint(rows) && p.active
    requires now < p.end && p.start < p.end && p.price < base
    ensures DoCreate(rows, p, true, base, now).Some? <==> Disjoint(rows + [p])
  {
    var after := rows + [p];
    if Disjoint(after) {
      forall i | 0 <= i < |rows| && rows[i].product == p.product && rows[i].active
        ensures !Overlaps(rows[i], p.start, p.end)
      {
        assert after[i] == rows[i] && after[|rows|] == p;
      }
    }
  }

  /** An edit that leaves a running row switched on succeeds exactly when the windows stay disjoint. */
  lemma UpdateRefusesOnlyOverlaps(rows: seq<Promo>, r: nat, base: nat, e: Edit, now: int)
    requires Disjoint(rows) && r < |rows| && now < rows[r].end
    requires var p := Edited(rows[r], e);
             p.active && p.start < p.end && now < p.end && (e.price.Some? ==> p.price < base)
    ensures DoUpdate(rows, r, base, e, now).Some?
       <==> Disjoint(rows[r := Edited(rows[r], e)])
  {
    var p := Edited(rows[r], e);
    var after := rows[r := p];
    if WindowFree(rows, p.product, p.start, p.end, r) {
      assert Disjoint(after);
    } else {
      var i :| 0 <= i < |rows| && i != r && rows[i].product == p.product && rows[i].active && Overlaps(rows[i], p.start, p.end);
      assert after[i] == rows[i] && after[r] == p;
    }
  }

  /** Nothing else that is on for the product is on during the window. */
  predicate NothingElseOn(rows: seq<Promo>, product: nat, start: int, end: int, self: nat)
  {
    forall i :: 0 <= i < |rows| && i != self && rows[i].product == product && rows[i].active
      ==> rows[i].end <= start || end <= rows[i].start
  }

  /** A promotion is made for a product on sale, cheaper than it, for a window still to come or running, and alone in it. */
  lemma CreatedExactlyWhen(rows: seq<Promo>, product: nat, onSale: bool, base: nat, kind: Kind, price: nat, start: int, end: int, now: int)
    ensures Perform(rows, Create(product, onSale, base, kind, price, start, end, now))
         == if onSale && price < base && start < end && now < end && NothingElseOn(rows, product, start, end, |rows|)
            then Some(rows + [Promo(product, kind, price, start, end, true)]) else None
  {
  }

  /** The row after an edit. */
  function AfterEdit(p: Promo, e: Edit): Promo
  {
    Promo(p.product, p.kind,
          match e.price case None => p.price case Some(x) => x,
          match e.start case None => p.start case Some(x) => x,
          match e.end case None => p.end case Some(x) => x,
          match e.active case None => p.active case Some(x) => x)
  }

  /**
   An edit goes through while the promotion has not ended: a new price must stay below the product's, a
   new window must be a proper one that has not passed, and a window moved or switched on must be free.
   */
  lemma UpdatedExactlyWhen(rows: seq<Promo>, r: nat, base: nat, e: Edit, now: int)
    requires r < |rows|
    ensures var p := AfterEdit(rows[r], e);
            DoUpdate(rows, r, base, e, now)
              == if now < rows[r].end
                    && (e.price != None ==> p.price < base)
                    && (e.start != None || e.end != None ==> p.start < p.end && now < p.end)
                    && (e.start != None || e.end != None || e.active == Some(true) ==>
                          NothingElseOn(rows, p.product, p.start, p.end, r))
                 then Some(rows[r := p]) else None
  {
  }

  lemma StepKeepsDisjoint(rows: seq<Promo>, s: Step)
    requires Disjoint(rows) && Perform(rows, s).Some?
    ensures Disjoint(Perform(rows, s).value)
  {
    match s
    case Create(product, onSale, base, kind, price, start, end, now) =>
      CreateRefusesOnlyOverlaps(rows, Promo(product, kind, price, start, end, true), base, now);
    case Update(r, base, e, now) =>
      var p := Edited(rows[r], e);
      if p.active {
        UpdateRefusesOnlyOverlaps(rows, r, base, e, now);
      }
  }

  /** Over any run of creations and edits, the active windows of a product never overlap. */
  lemma {:induction false} WindowsStayDisjoint(rows: seq<Promo>, steps: seq<Step>)
    requires Disjoint(rows)
    ensures Disjoint(Run(rows, steps))
  {
    if steps != [] {
      var init := steps[..|steps| - 1];
      WindowsStayDisjoint(rows, init);
      if Perform(Run(rows, init), steps[|steps| - 1]).Some? {
        StepKeepsDisjoint(Run(rows, init), steps[|steps| - 1]);
      }
    }
  }

  // ----- the shop's view -----

  /** Who is asking: the catalogue leaves flash sales out, the flash-sale zone shows nothing else. */
  datatype Channel = Everything | NoSeckill | SeckillOnly

  predicate Live(p: Promo, now: int)
  {
    p.active && p.start <= now < p.end
  }

  predicate Shows(p: Promo, ids: set<nat>, channel: Channel, now: int)
  {
    p.product in ids && Live(p, now)
    && (channel.NoSeckill? ==> p.kind != Seckill) && (channel.SeckillOnly? ==> p.kind == Seckill)
  }

  /** Row i is the live promotion of a product, as the channel sees it. */
  predicate IsShown(rows: seq<Promo>, ids: set<nat>, channel: Channel, now: int, product: nat, i: int)
  {
    0 <= i < |rows| && rows[i].product == product && Shows(rows[i], ids, channel, now)
  }

  /** A query result: the numbers of all rows asked for, in whatever order the database sorts them. */
  predicate Lists(rows: seq<Promo>, ids: set<nat>, channel: Channel, now: int, listing: seq<nat>)
  {
    && (forall k :: 0 <= k < |listing| ==> listing[k] < |rows| && Shows(rows[listing[k]], ids, channel, now))
    && (forall i :: 0 <= i < |rows| && Shows(rows[i], ids, channel, now) ==> i in listing)
  }

  /** Each product with a row listed is shown the first one listed. */
  predicate FirstListed(rows: seq<Promo>, listing: seq<nat>, m: map<nat, nat>)
    requires forall k :: 0 <= k < |listing| ==> listing[k] < |rows|
  {
    && (forall k :: 0 <= k < |listing| ==> rows[listing[k]].product in m)
    && (forall p :: p in m ==> exists k :: 0 <= k < |listing| && m[p] == listing[k] && IsFirst(rows, listing, k, p))
  }

  predicate IsFirst(rows: seq<Promo>, listing: seq<nat>, k: nat, product: nat)
    requires k < |listing| && forall k :: 0 <= k < |listing| ==> listing[k] < |rows|
  {
    rows[listing[k]].product == product && forall j :: 0 <= j < k ==> rows[listing[j]].product != product
  }

  method PromotionMap(rows: seq<Promo>, listing: seq<nat>) returns (m: map<nat, nat>)
    requires forall k :: 0 <= k < |listing| ==> listing[k] < |rows|
    ensures FirstListed(rows, listing, m)
  {
    m := map[];
    for n := 0 to |listing|
      invariant forall k :: 0 <= k < n ==> rows[listing[k]].product in m
      invariant forall p :: p in m ==> exists k :: 0 <= k < n && m[p] == listing[k] && IsFirst(rows, listing, k, p)
    {
      var product := rows[listing[n]].product;
      if product !in m {
        assert IsFirst(rows, listing, n, product);
        m := m[product := listing[n]];
      }
    }
  }

  /** With disjoint windows a product has at most one live promotion at any instant. */
  lemma OneLivePromotion(rows: seq<Promo>, i: nat, j: nat, now: int)
    requires Disjoint(rows) && i < |rows| && j < |rows|
    requires rows[i].product == rows[j].product && Live(rows[i], now) && Live(rows[j], now)
    ensures i == j
  {
  }

  predicate Picks(m: map<nat, nat>, product: nat, i: nat)
  {
    product in m && m[product] == i
  }

  /** The map holds exactly the live promotions the channel may see. */
  ghost predicate IsLiveMap(rows: seq<Promo>, ids: set<nat>, channel: Channel, now: int, m: map<nat, nat>)
  {
    forall p: nat, i: nat :: Picks(m, p, i) <==> IsShown(rows, ids, channel, now, p, i)
  }

  /** So what the shop shows is the live promotion itself, however the query was sorted. */
  lemma ShownIsTheLiveOne(rows: seq<Promo>, ids: set<nat>, channel: Channel, now: int, listing: seq<nat>, m: map<nat, nat>)
    requires Disjoint(rows) && Lists(rows, ids, channel, now, listing) && FirstListed(rows, listing, m)
    ensures IsLiveMap(rows, ids, channel, now, m)
  {
    forall p: nat, i: nat ensures Picks(m, p, i) <==> IsShown(rows, ids, channel, now, p, i) {
      if IsShown(rows, ids, channel, now, p, i) {
        assert i in listing;
        OneLivePromotion(rows, i, m[p], now);
      }
    }
  }

  /** From creation to display: the new promotion is what its product shows from its start to just before its end, on its channels. */
  lemma CreatedIsShown(rows: seq<Promo>, product: nat, base: nat, kind: Kind, price: nat, start: int, end: int, now: int,
                       ids: set<nat>, channel: Channel, at: int, listing: seq<nat>, m: map<nat, nat>)
    requires Disjoint(rows) && Perform(rows, Create(product, true, base, kind, price, start, end, now)).Some? && product in ids
    requires var after := Perform(rows, Create(product, true, base, kind, price, start, end, now)).value;
             Lists(after, ids, channel, at, listing) && FirstListed(after, listing, m)
    ensures Picks(m, product, |rows|) <==>
              && start <= at < end
              && (channel == NoSeckill ==> kind == Clearance) && (channel == SeckillOnly ==> kind == Seckill)
  {
    var create := Create(product, true, base, kind, price, start, end, now);
    var after := Perform(rows, create).value;
    StepKeepsDisjoint(rows, create);
    CreatedExactlyWhen(rows, product, true, base, kind, price, start, end, now);
    ShownIsTheLiveOne(after, ids, channel, at, listing, m);
    assert Picks(m, product, |rows|) <==> IsShown(after, ids, channel, at, product, |rows|);
  }

  lemma SamePicks(m: map<nat, nat>, n: map<nat, nat>)
    requires forall p: nat, i: nat :: Picks(m, p, i) <==> Picks(n, p, i)
    ensures m == n
  {
    forall p: nat ensures (p in m <==> p in n) && (p in m ==> m[p] == n[p]) {
      if p in m { assert Picks(m, p, m[p]); }
      if p in n { assert Picks(n, p, n[p]); }
    }
  }

  /** Two reads of the same rows agree whatever order they were listed in. */
  lemma OrderDoesNotMatter(rows: seq<Promo>, ids: set<nat>, channel: Channel, now: int,
                           a: seq<nat>, m: map<nat, nat>, b: seq<nat>, n: map<nat, nat>)
    requires Disjoint(rows)
    requires Lists(rows, ids, channel, now, a) && FirstListed(rows, a, m)
    requires Lists(rows, ids, channel, now, b) && FirstListed(rows, b, n)
    ensures m == n
  {
    assert IsLiveMap(rows, ids, channel, now, m) by { ShownIsTheLiveOne(rows, ids, channel, now, a, m); }
    assert IsLiveMap(rows, ids, channel, now, n) by { ShownIsTheLiveOne(rows, ids, channel, now, b, n); }
    forall p: nat, i: nat ensures Picks(m, p, i) <==> Picks(n, p, i) {
      assert Picks(m, p, i) <==> IsShown(rows, ids, channel, now, p, i);
    }
    SamePicks(m, n);
  }

  /**
   What the catalogue and the flash-sale zone show: no product is priced by both, and together they
   hold exactly what is live.
   */
  lemma ChannelsSplitTheLiveOnes(rows: seq<Promo>, ids: set<nat>, now: int,
                                 all: map<nat, nat>, normal: map<nat, nat>, flash: map<nat, nat>)
    requires Disjoint(rows)
    requires IsLiveMap(rows, ids, Everything, now, all)
    requires IsLiveMap(rows, ids, NoSeckill, now, normal) && IsLiveMap(rows, ids, SeckillOnly, now, flash)
    ensures normal.Keys !! flash.Keys && all == normal + flash
  {
    forall p: nat ensures !(p in normal && p in flash) {
      if p in normal && p in flash {
        assert Picks(normal, p, normal[p]) && Picks(flash, p, flash[p]);
        OneLivePromotion(rows, normal[p], flash[p], now);
      }
    }
    forall p: nat, i: nat ensures Picks(all, p, i) <==> Picks(normal + flash, p, i) {
      assert IsShown(rows, ids, Everything, now, p, i)
        <==> IsShown(rows, ids, NoSeckill, now, p, i) || IsShown(rows, ids, SeckillOnly, now, p, i);
      assert Picks(all, p, i) <==> Picks(normal, p, i) || Picks(flash, p, i);
    }
    SamePicks(all, normal + flash);
  }

  // ----- the rows themselves -----

  class Office {
    var rows: seq<Promo>

    method Clashes(product: nat, start: int, end: int, self: nat) returns (clash: bool)
      ensures clash == !WindowFree(rows, product, start, end, self)
    {
      for i := 0 to |rows|
        invariant WindowFree(rows[..i], product, start, end, self)
      {
        if i != self && rows[i].product == product && rows[i].active && Overlaps(rows[i], start, end) { return true; }
      }
      assert rows[..|rows|] == rows;
      return false;
    }

    method Create(product: nat, onSale: bool, base: nat, kind: Kind, price: nat, start: int, end: int, now: int)
      returns (ok: bool)
      modifies this
      ensures var done := Perform(old(rows), Step.Create(product, onSale, base, kind, price, start, end, now));
              ok == done.Some? && rows == Or(done, old(rows))
    {
      if !onSale || end <= start || end <= now || price >= base { return false; }
      var clash := Clashes(product, start, end, |rows|);
      if clash { return false; }
      rows := rows + [Promo(product, kind, price, start, end, true)];
      return true;
    }

    method Update(row: nat, base: nat, e: Edit, now: int) returns (ok: bool)
      modifies this
      ensures var done := Perform(old(rows), Step.Update(row, base, e, now));
              ok == done.Some? && rows == Or(done, old(rows))
    {
      if row >= |rows| || rows[row].end <= now { return false; }
      var found := rows[row];
      var from, until := Or(e.start, found.start), Or(e.end, found.end);
      if e.start.Some? || e.end.Some? {
        if until <= from || until <= now { return false; }
      }
      if e.price.Some? && e.price.value >= base { return false; }
      if e.active == Some(true) || e.start.Some? || e.end.Some? {
        var clash := Clashes(found.product, from, until, row);
        if clash { return false; }
      }
      if e.price.Some? { found := found.(price := e.price.value); }
      if e.active.Some? { found := found.(active := e.active.value); }
      rows := rows[row := found.(start := from, end := until)];
      return true;
    }

    /** Any sequence of edits on the table is the run of their steps, so disjoint windows stay disjoint. */
    method ServeAll(steps: seq<Step>)
      modifies this
      ensures rows == Run(old(rows), steps)
      ensures Disjoint(old(rows)) ==> Disjoint(rows)
    {
      ghost var start := rows;
      for i := 0 to |steps|
        invariant rows == Run(start, steps[..i])
      {
        assert steps[..i + 1][..i] == steps[..i];
        var ok;
        match steps[i]
        case Create(product, onSale, base, kind, price, start, end, now) =>
          ok := Create(product, onSale, base, kind, price, start, end, now);
        case Update(row, base, e, now) => ok := Update(row, base, e, now);
      }
      assert steps[..|steps|] == steps;
      if Disjoint(start) {
        WindowsStayDisjoint(start, steps);
      }
    }
  }
}
