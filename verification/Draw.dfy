/** The prize wheel's weighted draw (src/business/business.service.ts). */
module Draw {
  import opened Sums

  function Total(weights: seq<nat>): nat
  {
    if weights == [] then 0 else Total(weights[..|weights| - 1]) + weights[|weights| - 1]
  }

  /** The slots taking part, in order: a slot of weight zero is left out. */
  function Pool(weights: seq<nat>): (pool: seq<nat>)
    ensures forall k :: 0 <= k < |pool| ==> pool[k] < |weights| && weights[pool[k]] > 0
  {
    if weights == [] then []
    else
      var last := |weights| - 1;
      Pool(weights[..last]) + if weights[last] > 0 then [last] else []
  }

  /** Where slot k of the pool begins on the wheel; past the last slot, where the wheel ends. */
  function Start(weights: seq<nat>, k: nat): nat
    requires k <= |Pool(weights)|
  {
    if k < |Pool(weights)| then Total(weights[..Pool(weights)[k]]) else Total(weights)
  }

  lemma {:induction false} FirstStart(weights: seq<nat>)
    ensures Start(weights, 0) == 0
  {
    if weights != [] {
      var init := weights[..|weights| - 1];
      FirstStart(init);
      if Pool(init) != [] {
        assert weights[..Pool(weights)[0]] == init[..Pool(init)[0]];
      } else if Pool(weights) != [] {
        assert Pool(weights)[0] == |weights| - 1;
      }
    }
  }

  /** The pool's slots lie end to end, each as long as its weight. */
  lemma {:induction false} NextStart(weights: seq<nat>, k: nat)
    requires k < |Pool(weights)|
    ensures Start(weights, k + 1) == Start(weights, k) + weights[Pool(weights)[k]]
  {
    var last := |weights| - 1;
    var init := weights[..last];
    if k < |Pool(init)| {
      NextStart(init, k);
      assert weights[..Pool(weights)[k]] == init[..Pool(init)[k]];
      if k + 1 < |Pool(init)| {
        assert weights[..Pool(weights)[k + 1]] == init[..Pool(init)[k + 1]];
      }
    }
  }

  /** A roll lands on slot i when it falls past all earlier weights and short of this one's end. */
  ghost predicate Lands(weights: seq<nat>, i: nat, roll: real)
    requires i < |weights|
  {
    Total(weights[..i]) as real <= roll < (Total(weights[..i]) + weights[i]) as real
  }

  /**
   Spins the wheel. It fails only when nothing has weight; otherwise the slot returned is the one the
   roll lands on. The walk always stops inside the pool, so the last-slot fallback is never taken.
   The roll is the random number already scaled to the wheel; an all-zero wheel is never rolled on.
   */
  method PickPrize(weights: seq<nat>, spin: real) returns (slot: Option<nat>)
    requires Total(weights) > 0 ==> 0.0 <= spin < Total(weights) as real
    ensures slot.None? <==> Total(weights) == 0
    ensures slot.Some? ==> slot.value < |weights| && Lands(weights, slot.value, spin)
  {
    var pool, total := Pool(weights), 0;
    FirstStart(weights);
    for k := 0 to |pool|
      invariant total == Start(weights, k)
    {
      NextStart(weights, k);
      total := total + weights[pool[k]];
    }
    if total == 0 { return None; }
    var roll := spin;
    ghost var start := 0;
    for k := 0 to |pool|
      invariant start == Start(weights, k)
      invariant roll == spin - start as real && roll >= 0.0
    {
      NextStart(weights, k);
      roll := roll - weights[pool[k]] as real;
      if roll < 0.0 { return Some(pool[k]); }
      start := start + weights[pool[k]];
    }
    assert false;
  }

  lemma {:induction false} TotalGrows(weights: seq<nat>, i: nat)
    requires i <= |weights|
    ensures Total(weights[..i]) <= Total(weights)
  {
    if i == |weights| {
      assert weights[..i] == weights;
    } else {
      TotalGrows(weights[..|weights| - 1], i);
      assert weights[..|weights| - 1][..i] == weights[..i];
    }
  }

  lemma TotalOfNext(weights: seq<nat>, i: nat)
    requires i < |weights|
    ensures Total(weights[..i + 1]) == Total(weights[..i]) + weights[i]
  {
    assert weights[..i + 1][..i] == weights[..i];
  }

  lemma EndsBefore(weights: seq<nat>, i: nat, j: nat)
    requires i < j < |weights|
    ensures Total(weights[..i]) + weights[i] <= Total(weights[..j])
  {
    TotalOfNext(weights, i);
    TotalGrows(weights[..j], i + 1);
    assert weights[..j][..i + 1] == weights[..i + 1];
  }

  /** No roll lands on two slots. */
  lemma LandsOnce(weights: seq<nat>, i: nat, j: nat, roll: real)
    requires i < |weights| && j < |weights|
    requires Lands(weights, i, roll) && Lands(weights, j, roll)
    ensures i == j
  {
    if i < j {
      EndsBefore(weights, i, j);
    } else if j < i {
      EndsBefore(weights, j, i);
    }
  }

  ghost predicate Wins(weights: seq<nat>, i: nat, roll: nat)
    requires i < |weights|
  {
    Lands(weights, i, roll as real)
  }

  /** The whole-number rolls that win slot i. */
  ghost function Winning(weights: seq<nat>, i: nat): set<nat>
    requires i < |weights|
  {
    set n: nat | n < Total(weights) && Wins(weights, i, n)
  }

  lemma {:induction false} IntervalSize(lo: nat, hi: nat, s: set<nat>)
    requires lo <= hi && forall n: nat :: n in s <==> lo <= n < hi
    ensures |s| == hi - lo
    decreases hi
  {
    if lo < hi {
      IntervalSize(lo, hi - 1, s - {hi - 1});
    } else {
      assert s == {};
    }
  }

  /** Fairness: out of the wheel's whole-number rolls, exactly weight-many win a slot, and none win a slot of weight zero. */
  lemma WinsByWeight(weights: seq<nat>, i: nat)
    requires i < |weights|
    ensures |Winning(weights, i)| == weights[i]
  {
    TotalOfNext(weights, i);
    TotalGrows(weights, i + 1);
    var lo := Total(weights[..i]);
    forall n: nat ensures n in Winning(weights, i) <==> lo <= n < lo + weights[i] {
    }
    IntervalSize(lo, lo + weights[i], Winning(weights, i));
  }
}
