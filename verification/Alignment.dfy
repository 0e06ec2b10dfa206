/** Power-of-two rounding on machine words, at every word width.

    A word of width w is a natural number below 2^w. `&` and `~` are defined bit
    by bit, the arithmetic wraps at 2^w, and the functions of alignment.hpp are
    written with exactly those operators. The lemmas then say what the masks
    compute in terms of multiples and remainders. */
module Alignment {
  import opened Wrappers

  function Pow2(k: nat): (r: nat)
    ensures r > 0
  {
    if k == 0 then 1 else 2 * Pow2(k - 1)
  }

  /** Bitwise and. */
  function And(x: nat, y: nat): nat
    decreases x
  {
    if x == 0 then 0 else (if x % 2 == 1 && y % 2 == 1 then 1 else 0) + 2 * And(x / 2, y / 2)
  }

  /** Bitwise complement of a word of width `w`. */
  function Not(w: nat, x: nat): nat
    requires x < Pow2(w)
  {
    Pow2(w) - 1 - x
  }

  function Wrap(w: nat, x: int): (r: nat)
    ensures r < Pow2(w)
  {
    x % Pow2(w)
  }

  // ---- alignment.hpp ----

  function AlignOffset(w: nat, offset: nat, alignment: nat): Option<nat> {
    var mask := Wrap(w, alignment - 1);
    if offset > Wrap(w, Pow2(w) - 1 - mask) then None
    else Some(And(Wrap(w, offset + mask), Not(w, mask)))
  }

  function AlignPadding(w: nat, address: nat, alignment: nat): nat
    requires address < Pow2(w) && alignment < Pow2(w)
  {
    if alignment <= 1 then 0
    else And(Wrap(w, Not(w, address) + 1), alignment - 1)
  }

  function AlignSize(w: nat, value: nat, alignment: nat): nat
    requires value < Pow2(w) && alignment < Pow2(w)
  {
    if alignment <= 1 then value
    else
      var mask := alignment - 1;
      And(Wrap(w, value + mask), Not(w, mask))
  }

  function Align(w: nat, pointer: nat, alignment: nat): nat {
    var mask := Wrap(w, alignment - 1);
    And(Wrap(w, pointer + mask), Not(w, mask))
  }

  predicate IsPowerOfTwo(value: nat) {
    value != 0 && And(value, value - 1) == 0
  }

  /** The halving recursion of alignment::log2, with -1 at zero. */
  function Log2(value: nat): int {
    if value != 0 then 1 + Log2(value / 2) else -1
  }

  // ---- Bits ----

  lemma {:induction false} Pow2Add(j: nat, k: nat)
    ensures Pow2(j + k) == Pow2(j) * Pow2(k)
  {
    if j > 0 {
      Pow2Add(j - 1, k);
    }
  }

  lemma {:induction false} Pow2Monotone(j: nat, k: nat)
    requires j <= k
    ensures Pow2(j) <= Pow2(k)
    ensures j < k ==> 2 * Pow2(j) <= Pow2(k)
    decreases k - j
  {
    if j < k {
      Pow2Monotone(j + 1, k);
    }
  }

  /** Masking with 2^k - 1 takes the remainder. */
  lemma {:induction false} AndLowMask(x: nat, k: nat)
    ensures And(x, Pow2(k) - 1) == x % Pow2(k)
    decreases k
  {
    if k == 0 {
      AndZero(x);
    } else if x != 0 {
      var m := Pow2(k - 1);
      assert (Pow2(k) - 1) / 2 == m - 1 && (Pow2(k) - 1) % 2 == 1;
      AndLowMask(x / 2, k - 1);
      RemainderOfHalf(x, m);
    }
  }

  lemma {:induction false} AndZero(x: nat)
    ensures And(x, 0) == 0
    decreases x
  {
    if x != 0 {
      AndZero(x / 2);
    }
  }

  // ---- Quotients and remainders ----

  lemma MulMonotone(d: nat, a: int, b: int)
    requires a <= b
    ensures d * a <= d * b
  {
  }

  lemma MulAssoc(a: int, b: int, c: int)
    ensures (a * b) * c == a * (b * c)
  {
  }

  lemma MulDistrib(d: int, a: int, b: int)
    ensures d * (a + b) == d * a + d * b
    ensures d * (a - b) == d * a - d * b
  {
  }

  /** A quotient and a remainder determine each other. */
  lemma DivisionUnique(d: nat, a: int, r: nat, b: int, s: nat)
    requires r < d && s < d && d * a + r == d * b + s
    ensures a == b && r == s
  {
    if a < b {
      MulMonotone(d, a + 1, b);
      MulDistrib(d, a, 1);
    } else if b < a {
      MulMonotone(d, b + 1, a);
      MulDistrib(d, b, 1);
    }
  }

  lemma RemainderIs(x: int, d: nat, q: int, r: nat)
    requires d > 0 && x == d * q + r && r < d
    ensures x % d == r && x / d == q
  {
    DivisionUnique(d, x / d, x % d, q, r);
  }

  /** Reducing modulo a multiple of d first does not change the remainder by d. */
  lemma RemainderOfRemainder(x: nat, d: nat, n: nat)
    requires d > 0 && n > 0
    ensures d * n > 0
    ensures (x % (d * n)) % d == x % d
  {
    MulMonotone(d, 1, n);
    var W := d * n;
    var y := x % W;
    MulAssoc(d, n, x / W);
    MulDistrib(d, n * (x / W), y / d);
    RemainderIs(x, d, n * (x / W) + y / d, y % d);
  }

  lemma RemainderOfHalf(x: nat, m: nat)
    requires m > 0
    ensures x % (2 * m) == x % 2 + 2 * ((x / 2) % m)
  {
    var q, r := (x / 2) / m, (x / 2) % m;
    MulAssoc(2, m, q);
    RemainderIs(x, 2 * m, q, x % 2 + 2 * r);
  }

  lemma NotHalves(w: nat, mask: nat)
    requires w > 0 && mask < Pow2(w)
    ensures mask / 2 < Pow2(w - 1)
    ensures Not(w, mask) / 2 == Not(w - 1, mask / 2)
    ensures Not(w, mask) % 2 == 1 - mask % 2
  {
  }

  /** A mask and its complement split a word between them. */
  lemma {:induction false} AndSplits(w: nat, x: nat, mask: nat)
    requires x < Pow2(w) && mask < Pow2(w)
    ensures And(x, mask) + And(x, Not(w, mask)) == x
  {
    if x != 0 {
      NotHalves(w, mask);
      AndSplits(w - 1, x / 2, mask / 2);
    }
  }

  /** Masking a word with the complement of 2^k - 1 clears the remainder. */
  lemma AndHighMask(w: nat, x: nat, k: nat)
    requires x < Pow2(w) && k <= w
    ensures Pow2(k) - 1 < Pow2(w)
    ensures And(x, Not(w, Pow2(k) - 1)) == x - x % Pow2(k)
  {
    Pow2Monotone(k, w);
    AndLowMask(x, k);
    AndSplits(w, x, Pow2(k) - 1);
  }

  lemma {:induction false} AndSelf(x: nat)
    ensures And(x, x) == x
  {
    if x != 0 {
      AndSelf(x / 2);
    }
  }

  // ---- Powers of two ----

  /** Clearing the lowest set bit leaves nothing exactly for the powers of two. */
  lemma {:induction false} PowerOfTwoTest(value: nat)
    ensures IsPowerOfTwo(value) <==> exists k: nat :: value == Pow2(k)
  {
    if IsPowerOfTwo(value) {
      var k := PowerOfTwoExponent(value);
    }
    if k: nat :| value == Pow2(k) {
      Pow2Passes(k);
    }
  }

  lemma {:induction false} PowerOfTwoExponent(value: nat) returns (k: nat)
    requires IsPowerOfTwo(value)
    ensures value == Pow2(k)
  {
    if value % 2 == 1 {
      assert (value - 1) / 2 == value / 2;
      AndSelf(value / 2);
      k := 0;
    } else {
      assert (value - 1) / 2 == value / 2 - 1;
      var j := PowerOfTwoExponent(value / 2);
      k := j + 1;
    }
  }

  lemma {:induction false} Pow2Passes(k: nat)
    ensures IsPowerOfTwo(Pow2(k))
  {
    if k > 0 {
      Pow2Passes(k - 1);
      assert (Pow2(k) - 1) / 2 == Pow2(k - 1) - 1;
    }
  }

  lemma {:induction false} Pow2Injective(j: nat, k: nat)
    requires Pow2(j) == Pow2(k)
    ensures j == k
  {
    if j < k {
      Pow2Monotone(j, k);
    } else if k < j {
      Pow2Monotone(k, j);
    }
  }

  /** log2 is the position of the highest set bit, and it loses nothing exactly
      on the powers of two. */
  lemma {:induction false} Log2Meaning(value: nat)
    requires value > 0
    ensures Log2(value) >= 0
    ensures Pow2(Log2(value)) <= value < Pow2(Log2(value) + 1)
    ensures Pow2(Log2(value)) == value <==> IsPowerOfTwo(value)
  {
    Log2Bounds(value);
    var r: nat := Log2(value);
    if Pow2(r) == value {
      Pow2Passes(r);
    }
    if IsPowerOfTwo(value) {
      var k := PowerOfTwoExponent(value);
      if k < r {
        Pow2Monotone(k, r);
      } else if k > r {
        Pow2Monotone(r + 1, k);
      }
    }
  }

  lemma {:induction false} Log2Bounds(value: nat)
    requires value > 0
    ensures Log2(value) >= 0
    ensures Pow2(Log2(value)) <= value < Pow2(Log2(value) + 1)
  {
    if value > 1 {
      Log2Bounds(value / 2);
    } else {
      assert Log2(0) == -1;
    }
  }

  // ---- Rounding up ----

  ghost predicate IsMultiple(x: nat, d: nat)
    requires d > 0
  {
    x % d == 0
  }

  /** `r` is the least multiple of `d` not below `x`. */
  ghost predicate RoundsUp(x: nat, d: nat, r: nat)
    requires d > 0
  {
    && IsMultiple(r, d) && x <= r
    && forall m: nat :: x <= m && IsMultiple(m, d) ==> r <= m
  }

  /** What the masks compute, over the unbounded integers. */
  function Ceiling(x: nat, d: nat): nat
    requires d > 0
  {
    x + d - 1 - (x + d - 1) % d
  }

  lemma CeilingRounds(x: nat, d: nat)
    requires d > 0
    ensures RoundsUp(x, d, Ceiling(x, d))
    ensures Ceiling(x, d) < x + d
  {
    var y := x + d - 1;
    var q := y / d;
    MultipleIs(Ceiling(x, d), d, q);
    forall m: nat | x <= m && IsMultiple(m, d) ensures Ceiling(x, d) <= m {
      NoMultipleBelow(x, d, m);
    }
  }

  lemma NoMultipleBelow(x: nat, d: nat, m: nat)
    requires d > 0 && x <= m && m % d == 0
    ensures d * ((x + d - 1) / d) <= m
  {
    var q := (x + d - 1) / d;
    if m / d < q {
      MulMonotone(d, m / d, q - 1);
      MulDistrib(d, q, 1);
    } else {
      MulMonotone(d, q, m / d);
    }
  }

  lemma MultipleIs(x: nat, d: nat, q: int)
    requires d > 0 && x == d * q
    ensures IsMultiple(x, d)
  {
    RemainderIs(x, d, q, 0);
  }

  lemma RoundsUpUnique(x: nat, d: nat, r: nat, s: nat)
    requires d > 0 && RoundsUp(x, d, r) && RoundsUp(x, d, s)
    ensures r == s
  {
  }

  /** `align_offset` returns the least multiple of the alignment not below the
      offset, and nothing exactly when that multiple does not fit in a word. */
  lemma AlignOffsetExact(w: nat, offset: nat, k: nat)
    requires offset < Pow2(w) && k < w
    ensures Pow2(k) < Pow2(w)
    ensures var d := Pow2(k);
            var r := AlignOffset(w, offset, d);
            && (r.Some? ==> r.value < Pow2(w) && RoundsUp(offset, d, r.value))
            && (r.None? <==> forall m: nat :: RoundsUp(offset, d, m) ==> m >= Pow2(w))
  {
    Pow2Monotone(k, w);
    AlignOffsetIs(w, offset, k);
    var d := Pow2(k);
    CeilingRounds(offset, d);
    if Ceiling(offset, d) >= Pow2(w) {
      forall m: nat | RoundsUp(offset, d, m) ensures m >= Pow2(w) {
        RoundsUpUnique(offset, d, m, Ceiling(offset, d));
      }
    }
  }

  lemma AlignOffsetIs(w: nat, offset: nat, k: nat)
    requires offset < Pow2(w) && k < w
    ensures Pow2(k) < Pow2(w)
    ensures AlignOffset(w, offset, Pow2(k)) ==
            if Ceiling(offset, Pow2(k)) < Pow2(w) then Some(Ceiling(offset, Pow2(k))) else None
  {
    hide And, Ceiling, Wrap;
    Pow2Monotone(k, w);
    var d, W := Pow2(k), Pow2(w);
    hide Pow2;
    WrapSmall(w, d - 1);
    WrapSmall(w, W - 1 - (d - 1));
    CeilingRounds(offset, d);
    if offset <= W - d {
      AlignWithin(w, offset, k);
    } else if Ceiling(offset, d) < W {
      LastMultiple(w, k, Ceiling(offset, d));
    }
  }

  lemma AlignWithin(w: nat, offset: nat, k: nat)
    requires k < w && Pow2(k) < Pow2(w) && offset <= Pow2(w) - Pow2(k)
    ensures And(Wrap(w, offset + Pow2(k) - 1), Not(w, Pow2(k) - 1)) == Ceiling(offset, Pow2(k))
  {
    hide And, Wrap;
    WrapSmall(w, offset + Pow2(k) - 1);
    AndHighMask(w, offset + Pow2(k) - 1, k);
  }

  lemma WrapSmall(w: nat, x: nat)
    requires x < Pow2(w)
    ensures Wrap(w, x) == x
  {
    RemainderIs(x, Pow2(w), 0, x);
  }

  /** The largest multiple of 2^k in a word of width w is 2^w - 2^k. */
  lemma LastMultiple(w: nat, k: nat, m: nat)
    requires k <= w && IsMultiple(m, Pow2(k)) && m < Pow2(w)
    ensures m <= Pow2(w) - Pow2(k)
  {
    Pow2Add(k, w - k);
    LastMultipleBelow(Pow2(k), Pow2(w - k), m);
  }

  lemma LastMultipleBelow(d: nat, n: nat, m: nat)
    requires d > 0 && m % d == 0 && m < d * n
    ensures m <= d * n - d
  {
    if m / d >= n {
      MulMonotone(d, n, m / d);
    } else {
      MulMonotone(d, m / d, n - 1);
      MulDistrib(d, n, 1);
    }
  }

  /** Adding `p` to the address brings it to a multiple of `d`, modulo the word. */
  ghost predicate Pads(w: nat, address: nat, d: nat, p: nat)
    requires d > 0
  {
    p < d && IsMultiple(Wrap(w, address + p), d)
  }

  /** The padding is the only number below the alignment that, added to the
      address modulo the word size, gives a multiple of the alignment. */
  lemma AlignPaddingExact(w: nat, address: nat, k: nat)
    requires address < Pow2(w) && k < w
    ensures Pow2(k) < Pow2(w)
    ensures Pads(w, address, Pow2(k), AlignPadding(w, address, Pow2(k)))
    ensures forall q: nat :: Pads(w, address, Pow2(k), q) ==> q == AlignPadding(w, address, Pow2(k))
  {
    Pow2Monotone(k, w);
    var d := Pow2(k);
    var p := AlignPadding(w, address, d);
    PaddingIs(w, address, k);
    CeilingRounds(address, d);
    WrapKeepsRemainder(w, k, address + p);
    forall q: nat | Pads(w, address, d, q) ensures q == p {
      WrapKeepsRemainder(w, k, address + q);
      SameRemainder(address, d, p, q);
    }
  }

  lemma SameRemainder(a: nat, d: nat, p: nat, q: nat)
    requires d > 0 && p < d && q < d && (a + p) % d == 0 && (a + q) % d == 0
    ensures p == q
  {
    var i, j := (a + p) / d, (a + q) / d;
    if p <= q {
      DivisionUnique(d, i, q - p, j, 0);
    } else {
      DivisionUnique(d, j, p - q, i, 0);
    }
  }

  lemma WrapKeepsRemainder(w: nat, k: nat, x: nat)
    requires k <= w
    ensures Wrap(w, x) % Pow2(k) == x % Pow2(k)
  {
    Pow2Add(k, w - k);
    RemainderOfRemainder(x, Pow2(k), Pow2(w - k));
  }

  lemma PaddingRemainder(w: nat, address: nat, k: nat)
    requires address < Pow2(w) && 0 < k < w
    ensures Pow2(k) < Pow2(w)
    ensures AlignPadding(w, address, Pow2(k)) == (Pow2(w) - address) % Pow2(k)
  {
    hide And, Wrap;
    Pow2Monotone(k, w);
    Pow2Monotone(1, k);
    assert Pow2(1) == 2;
    hide Pow2;
    assert Not(w, address) + 1 == Pow2(w) - address;
    AndLowMask(Wrap(w, Pow2(w) - address), k);
    WrapKeepsRemainder(w, k, Pow2(w) - address);
  }

  /** The padding in closed form: what is missing to the next multiple. */
  lemma PaddingIs(w: nat, address: nat, k: nat)
    requires address < Pow2(w) && k < w
    ensures Pow2(k) < Pow2(w)
    ensures address + AlignPadding(w, address, Pow2(k)) == Ceiling(address, Pow2(k))
  {
    Pow2Monotone(k, w);
    if k == 0 {
      assert address % 1 == 0;
    } else {
      hide Ceiling, AlignPadding;
      PaddingRemainder(w, address, k);
      Pow2Add(k, w - k);
      NegatedRemainder(address, Pow2(k), Pow2(w - k));
    }
  }

  /** -address leaves, modulo the alignment, what is missing to the next multiple. */
  lemma NegatedRemainder(address: nat, d: nat, n: nat)
    requires d > 0 && address < d * n
    ensures address + (d * n - address) % d == Ceiling(address, d)
  {
    var q := (address + d - 1) / d;
    CeilingIs(address, d);
    MulDistrib(d, n, q);
    RemainderIs(d * n - address, d, n - q, Ceiling(address, d) - address);
  }

  lemma CeilingIs(x: nat, d: nat)
    requires d > 0
    ensures Ceiling(x, d) == d * ((x + d - 1) / d)
    ensures x <= Ceiling(x, d) < x + d
  {
  }

  /** All four ways of rounding up agree when nothing wraps. */
  lemma RoundingAgrees(w: nat, x: nat, k: nat)
    requires x < Pow2(w) && k < w && x + Pow2(k) - 1 < Pow2(w)
    ensures Pow2(k) < Pow2(w)
    ensures var d := Pow2(k);
            && AlignSize(w, x, d) == Ceiling(x, d)
            && Align(w, x, d) == Ceiling(x, d)
            && AlignOffset(w, x, d) == Some(Ceiling(x, d))
            && x + AlignPadding(w, x, d) == Ceiling(x, d)
  {
    Pow2Monotone(k, w);
    var d := Pow2(k);
    WrapSmall(w, d - 1);
    WrapSmall(w, x + d - 1);
    AndHighMask(w, x + d - 1, k);
    PaddingIs(w, x, k);
    AlignOffsetIs(w, x, k);
    if d == 1 {
      assert x % 1 == 0;
    }
  }

  /** `align_size` and `align` do not look for overflow: when the rounded value
      does not fit they return zero, where `align_offset` returns nothing. */
  lemma RoundingWraps(w: nat, x: nat, k: nat)
    requires x < Pow2(w) && k < w && x + Pow2(k) - 1 >= Pow2(w)
    ensures Pow2(k) < Pow2(w)
    ensures AlignSize(w, x, Pow2(k)) == 0 && Align(w, x, Pow2(k)) == 0
    ensures AlignOffset(w, x, Pow2(k)) == None
  {
    Pow2Monotone(k, w);
    var d, W := Pow2(k), Pow2(w);
    WrapSmall(w, d - 1);
    WrapSmall(w, W - 1 - (d - 1));
    var y := x + d - 1 - W;
    RemainderIs(x + d - 1, W, 1, y);
    AndHighMask(w, y, k);
    RemainderIs(y, d, 0, y);
  }

  /** Rounding with masks is rounding with remainders, for every value of the
      word, exactly when the alignment passes the power-of-two test. */
  lemma MaskRounding(w: nat, alignment: nat)
    requires 0 < alignment < Pow2(w)
    ensures IsPowerOfTwo(alignment) <==>
            forall x: nat :: x < Pow2(w) ==> AlignSize(w, x, alignment) == Wrap(w, Ceiling(x, alignment))
  {
    forall x: nat | x < Pow2(w) && IsPowerOfTwo(alignment)
      ensures AlignSize(w, x, alignment) == Wrap(w, Ceiling(x, alignment))
    {
      var k := PowerOfTwoExponent(alignment);
      if k >= w {
        Pow2Monotone(w, k);
      } else {
        MaskRoundingPow2(w, x, k);
      }
    }
    if forall x: nat :: x < Pow2(w) ==> AlignSize(w, x, alignment) == Wrap(w, Ceiling(x, alignment)) {
      if alignment > 1 {
        assert AlignSize(w, 1, alignment) == Wrap(w, Ceiling(1, alignment));
        RoundingOneUp(w, alignment);
      } else {
        Pow2Passes(0);
      }
    }
  }

  /** Rounding 1 up with a mask leaves the lowest bit of the alignment, so it is
      right only if there is no other. */
  lemma RoundingOneUp(w: nat, alignment: nat)
    requires 1 < alignment < Pow2(w)
    requires AlignSize(w, 1, alignment) == Wrap(w, Ceiling(1, alignment))
    ensures IsPowerOfTwo(alignment)
  {
    WrapSmall(w, alignment);
    RemainderIs(alignment, alignment, 1, 0);
    AndSplits(w, alignment, alignment - 1);
  }

  lemma MaskRoundingPow2(w: nat, x: nat, k: nat)
    requires x < Pow2(w) && k < w
    ensures Pow2(k) < Pow2(w) && AlignSize(w, x, Pow2(k)) == Wrap(w, Ceiling(x, Pow2(k)))
  {
    Pow2Monotone(k, w);
    var d, W := Pow2(k), Pow2(w);
    CeilingRounds(x, d);
    if x + d - 1 < W {
      RoundingAgrees(w, x, k);
      WrapSmall(w, Ceiling(x, d));
    } else {
      RoundingWraps(w, x, k);
      CeilingAtTop(w, x, k);
      RemainderIs(W, W, 1, 0);
    }
  }

  lemma CeilingAtTop(w: nat, x: nat, k: nat)
    requires x < Pow2(w) && k < w && x + Pow2(k) - 1 >= Pow2(w)
    ensures Ceiling(x, Pow2(k)) == Pow2(w)
  {
    Pow2Add(k, w - k);
    MultipleIs(Pow2(w), Pow2(k), Pow2(w - k));
    CeilingRounds(x, Pow2(k));
    if Ceiling(x, Pow2(k)) < Pow2(w) {
      LastMultiple(w, k, Ceiling(x, Pow2(k)));
    }
  }

  /** Rounding is idempotent, monotone, and absorbs rounding to a smaller alignment. */
  lemma RoundingLaws(x: nat, y: nat, j: nat, k: nat)
    requires x <= y && j <= k
    ensures Ceiling(Ceiling(x, Pow2(k)), Pow2(k)) == Ceiling(x, Pow2(k))
    ensures Ceiling(x, Pow2(k)) <= Ceiling(y, Pow2(k))
    ensures Ceiling(Ceiling(x, Pow2(j)), Pow2(k)) == Ceiling(x, Pow2(k))
  {
    var d, e := Pow2(k), Pow2(j);
    CeilingRounds(x, d);
    CeilingRounds(y, d);
    CeilingRounds(Ceiling(x, d), d);
    CeilingRounds(x, e);
    CeilingRounds(Ceiling(x, e), d);
    Pow2Add(j, k - j);
    MultipleOfMultiple(Ceiling(x, d), e, Pow2(k - j));
  }

  lemma MultipleOfMultiple(c: nat, e: nat, n: nat)
    requires e > 0 && n > 0 && e * n > 0 && c % (e * n) == 0
    ensures IsMultiple(c, e)
  {
    MulAssoc(e, n, c / (e * n));
    MultipleIs(c, e, n * (c / (e * n)));
  }
}
