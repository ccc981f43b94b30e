/** Options and finite sums over rows: the two pieces of vocabulary every other module shares. */
module Sums {

  datatype Option<+T> = None | Some(value: T)

  /** The total of a sequence of amounts, taken row by row from the front. */
  function Sum(s: seq<int>): int
  {
    if s == [] then 0 else Sum(s[..|s| - 1]) + s[|s| - 1]
  }

  lemma SumAppend(s: seq<int>, x: int)
    ensures Sum(s + [x]) == Sum(s) + x
  {
    assert (s + [x])[..|s|] == s;
  }

  lemma {:induction false} SumConcat(a: seq<int>, b: seq<int>)
    ensures Sum(a + b) == Sum(a) + Sum(b)
  {
    if b == [] {
      assert a + b == a;
    } else {
      SumConcat(a, b[..|b| - 1]);
      assert (a + b)[..|a + b| - 1] == a + b[..|b| - 1];
    }
  }

  lemma {:induction false} SumUpdate(s: seq<int>, i: nat, x: int)
    requires i < |s|
    ensures Sum(s[i := x]) == Sum(s) - s[i] + x
  {
    if i == |s| - 1 {
      assert s[i := x][..|s| - 1] == s[..|s| - 1];
    } else {
      SumUpdate(s[..|s| - 1], i, x);
      assert s[i := x][..|s| - 1] == s[..|s| - 1][i := x];
    }
  }

  lemma {:induction false} SumLeq(a: seq<int>, b: seq<int>)
    requires |a| == |b|
    requires forall i :: 0 <= i < |a| ==> a[i] <= b[i]
    ensures Sum(a) <= Sum(b)
  {
    if a != [] {
      SumLeq(a[..|a| - 1], b[..|b| - 1]);
    }
  }

  lemma {:induction false} SumNonNegative(a: seq<int>)
    requires forall i :: 0 <= i < |a| ==> 0 <= a[i]
    ensures 0 <= Sum(a)
  {
    if a != [] {
      SumNonNegative(a[..|a| - 1]);
    }
  }

  lemma {:induction false} SumZero(a: seq<int>)
    requires forall i :: 0 <= i < |a| ==> a[i] == 0
    ensures Sum(a) == 0
  {
    if a != [] {
      SumZero(a[..|a| - 1]);
    }
  }

  /** With no negative amount, one row never exceeds the total. */
  lemma {:induction false} SumMember(a: seq<int>, i: nat)
    requires i < |a|
    requires forall j :: 0 <= j < |a| ==> 0 <= a[j]
    ensures a[i] <= Sum(a)
  {
    if i < |a| - 1 {
      SumMember(a[..|a| - 1], i);
    } else {
      SumNonNegative(a[..|a| - 1]);
    }
  }
}
