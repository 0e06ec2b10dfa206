/** The branch-reduced lower bound `mini0`.

    Each round keeps ceil(size / 2) of `size` candidates, so the two halves it
    chooses between overlap when `size` is odd, and the last two candidates are
    settled by two conditional increments. The window [it, it + size) of the
    program is the sequence `a`, so an index into `a` in range is a dereference
    inside the window. */
module LowerBound {
  import opened Alignment

  ghost predicate Sorted(a: seq<int>) {
    forall i, j :: 0 <= i < j < |a| ==> a[i] <= a[j]
  }

  ghost function CountLess(a: seq<int>, key: int): nat {
    if a == [] then 0
    else CountLess(a[..|a| - 1], key) + if a[|a| - 1] < key then 1 else 0
  }

  /** What is left of `n` candidates after `rounds` rounds. */
  ghost function Candidates(n: nat, rounds: nat): nat {
    if rounds == 0 then n else (Candidates(n, rounds - 1) + 1) / 2
  }

  /** The rounds the loop makes before two candidates are left. */
  ghost function Rounds(n: nat): nat {
    if n <= 2 then 0 else 1 + Rounds((n + 1) / 2)
  }

  /** `pos` is the index of the first element not below the key; `compares`
      counts the elements looked at. */
  method Mini0(a: seq<int>, key: int) returns (pos: nat, compares: nat)
    ensures pos <= |a|
    ensures Sorted(a) ==>
              && (forall j :: 0 <= j < pos ==> a[j] < key)
              && (forall j :: pos <= j < |a| ==> key <= a[j])
    ensures Sorted(a) ==> pos == CountLess(a, key)
    ensures compares == if |a| >= 2 then Rounds(|a|) + 2 else |a|
  {
    var it: nat, size: nat := 0, |a|;
    compares := 0;
    while size > 2
      invariant 0 <= size && it + size <= |a|
      invariant |a| > 1 ==> size > 1
      invariant |a| <= 1 ==> size == |a|
      invariant compares + Rounds(size) == Rounds(|a|)
      invariant Sorted(a) ==> forall j :: 0 <= j < it ==> a[j] < key
      invariant Sorted(a) ==> forall j :: it + size <= j < |a| ==> key <= a[j]
    {
      var middle := it + size / 2;
      size := (size + 1) / 2;
      it := if a[middle] < key then middle else it;
      compares := compares + 1;
    }
    if size > 1 {
      compares := compares + 1;
      if a[it] < key {
        it := it + 1;
      }
    }
    if size > 0 {
      compares := compares + 1;
      if a[it] < key {
        it := it + 1;
      }
    }
    pos := it;
    if Sorted(a) {
      CountIsBoundary(a, key, pos);
    }
  }

  lemma {:induction false} CountIsBoundary(a: seq<int>, key: int, pos: nat)
    requires pos <= |a|
    requires forall j :: 0 <= j < pos ==> a[j] < key
    requires forall j :: pos <= j < |a| ==> key <= a[j]
    ensures CountLess(a, key) == pos
  {
    if a != [] {
      var last := |a| - 1;
      CountIsBoundary(a[..last], key, if pos == |a| then last else pos);
    }
  }

  /** k rounds of keeping the larger half leave ceil(n / 2^k). */
  lemma {:induction false} CandidatesLeft(n: nat, k: nat)
    ensures Candidates(n, k) == (n + Pow2(k) - 1) / Pow2(k)
  {
    if k == 0 {
      RemainderIs(n, 1, n, 0);
    } else {
      CandidatesLeft(n, k - 1);
      CeilingOfCeiling(n, Pow2(k - 1));
    }
  }

  lemma CeilingOfCeiling(n: nat, d: nat)
    requires d > 0
    ensures ((n + d - 1) / d + 1) / 2 == (n + 2 * d - 1) / (2 * d)
  {
    // c = ceil(n / d), and 2d * ceil(c / 2) is the only multiple of 2d in [n, n + 2d)
    var c := (n + d - 1) / d;
    var r := (n + d - 1) % d;
    var h := (c + 1) / 2;
    assert n + d - 1 == d * c + r;
    assert c + 1 == 2 * h + (c + 1) % 2;
    if (c + 1) % 2 == 0 {
      assert c == 2 * h - 1;
      MulDistrib(d, 2 * h, 1);
      MulAssoc(2, d, h);
      MulAssoc(d, 2, h);
      RemainderIs(n + 2 * d - 1, 2 * d, h, r);
    } else {
      assert c == 2 * h;
      MulAssoc(2, d, h);
      MulAssoc(d, 2, h);
      RemainderIs(n + 2 * d - 1, 2 * d, h, d + r);
    }
  }

  /** After its last round the loop is left with two candidates, and it stops no
      sooner: every earlier round leaves more. */
  lemma {:induction false} RoundsLeaveTwo(n: nat, k: nat)
    requires n >= 2 && k <= Rounds(n)
    ensures Candidates(n, k) == 2 <==> k == Rounds(n)
    ensures Candidates(n, k) >= 2
    ensures Rounds(Candidates(n, k)) == Rounds(n) - k
  {
    if k > 0 {
      RoundsLeaveTwo(n, k - 1);
    }
  }

  /** The loop makes ceil(log2 n) - 1 rounds: 2^rounds < n <= 2^(rounds + 1). So
      a search of n >= 2 elements looks at ceil(log2 n) + 1 of them. */
  lemma RoundsAreLogarithmic(n: nat)
    requires n >= 2
    ensures Pow2(Rounds(n)) < n <= Pow2(Rounds(n) + 1)
  {
    var k := Rounds(n);
    RoundsLeaveTwo(n, k);
    CandidatesLeft(n, k);
    var d := Pow2(k);
    assert n + d - 1 == d * 2 + (n + d - 1) % d;
  }
}
