/** Sums of a weight over the elements of a sequence.

    The allocators keep their records in tables that are updated one slot at a
    time. Every count the invariants speak of (how many live blocks cover a
    byte, how many moves hold a reservation) is a sum of weights over such a
    table, so these few lemmas are all the counting the proofs need. */
module Sums {

  ghost function Sum<T>(s: seq<T>, weight: T -> nat): nat {
    if s == [] then 0 else Sum(s[..|s| - 1], weight) + weight(s[|s| - 1])
  }

  lemma {:induction false} SumUpdate<T>(s: seq<T>, i: nat, x: T, weight: T -> nat)
    requires i < |s|
    ensures Sum(s[i := x], weight) + weight(s[i]) == Sum(s, weight) + weight(x)
  {
    var last := |s| - 1;
    if i == last {
      assert s[i := x][..last] == s[..last];
    } else {
      assert s[i := x][..last] == s[..last][i := x];
      SumUpdate(s[..last], i, x, weight);
    }
  }

  lemma SumAppend<T>(s: seq<T>, x: T, weight: T -> nat)
    ensures Sum(s + [x], weight) == Sum(s, weight) + weight(x)
  {
    assert (s + [x])[..|s|] == s;
  }

  lemma {:induction false} SumSplit<T>(s: seq<T>, t: seq<T>, weight: T -> nat)
    ensures Sum(s + t, weight) == Sum(s, weight) + Sum(t, weight)
  {
    if t == [] {
      assert s + t == s;
    } else {
      var init := t[..|t| - 1];
      assert s + t == (s + init) + [t[|t| - 1]];
      SumAppend(s + init, t[|t| - 1], weight);
      SumSplit(s, init, weight);
    }
  }

  /** One element never outweighs the whole. */
  lemma SumAtLeast<T>(s: seq<T>, i: nat, weight: T -> nat)
    requires i < |s|
    ensures weight(s[i]) <= Sum(s, weight)
  {
    var last := |s| - 1;
    if i < last {
      SumAtLeast(s[..last], i, weight);
    }
  }

  /** Nor do two different ones. */
  lemma SumAtLeastTwo<T>(s: seq<T>, i: nat, j: nat, weight: T -> nat)
    requires i < j < |s|
    ensures weight(s[i]) + weight(s[j]) <= Sum(s, weight)
  {
    var last := |s| - 1;
    if j < last {
      SumAtLeastTwo(s[..last], i, j, weight);
    } else {
      SumAtLeast(s[..last], i, weight);
    }
  }

  lemma SumZero<T>(s: seq<T>, weight: T -> nat)
    requires forall i :: 0 <= i < |s| ==> weight(s[i]) == 0
    ensures Sum(s, weight) == 0
  {
    if s != [] {
      SumZero(s[..|s| - 1], weight);
    }
  }

  /** A positive sum has a positive summand. */
  lemma SumWitness<T>(s: seq<T>, weight: T -> nat) returns (i: nat)
    requires Sum(s, weight) > 0
    ensures i < |s| && weight(s[i]) > 0
  {
    i := |s| - 1;
    if weight(s[i]) == 0 {
      i := SumWitness(s[..|s| - 1], weight);
    }
  }

  /** Two tables that weigh the same slot by slot weigh the same. */
  lemma SumSame<T, U>(s: seq<T>, t: seq<U>, ws: T -> nat, wt: U -> nat)
    requires |s| == |t| && forall i :: 0 <= i < |s| ==> ws(s[i]) == wt(t[i])
    ensures Sum(s, ws) == Sum(t, wt)
  {
    if s != [] {
      SumSame(s[..|s| - 1], t[..|t| - 1], ws, wt);
    }
  }
}
