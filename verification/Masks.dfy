/** Coalitions as bit masks, and sums over them. */
module Masks {

  function Power(n: nat): (p: nat)
    ensures p > 0
  {
    if n == 0 then 1 else 2 * Power(n - 1)
  }

  /** `mask & (1 << i)` */
  predicate Bit(m: nat, i: nat) {
    if i == 0 then m % 2 == 1 else Bit(m / 2, i - 1)
  }

  /** The number of members. */
  function Size(m: nat): nat {
    if m == 0 then 0 else m % 2 + Size(m / 2)
  }

  lemma {:induction false} AddBit(m: nat, i: nat)
    requires !Bit(m, i)
    ensures Bit(m + Power(i), i) && Size(m + Power(i)) == Size(m) + 1
  {
    if i == 0 {
      assert (m + 1) / 2 == m / 2;
    } else {
      assert (m + Power(i)) / 2 == m / 2 + Power(i - 1) && (m + Power(i)) % 2 == m % 2;
      AddBit(m / 2, i - 1);
    }
  }

  lemma {:induction false} OtherBit(m: nat, i: nat, j: nat)
    requires !Bit(m, i) && j != i
    ensures Bit(m + Power(i), j) == Bit(m, j)
  {
    if i == 0 {
      assert (m + 1) / 2 == m / 2;
    } else {
      assert (m + Power(i)) / 2 == m / 2 + Power(i - 1) && (m + Power(i)) % 2 == m % 2;
      if j > 0 {
        OtherBit(m / 2, i - 1, j - 1);
      }
    }
  }

  /** Digits below the one added stay what they are, whatever the mask. */
  lemma {:induction false} LowerBit(m: nat, j: nat, i: nat)
    requires i < j
    ensures Bit(m + Power(j), i) == Bit(m, i)
  {
    assert (m + Power(j)) / 2 == m / 2 + Power(j - 1) && (m + Power(j)) % 2 == m % 2;
    if i > 0 {
      LowerBit(m / 2, j - 1, i - 1);
    }
  }

  lemma {:induction false} TopBit(m: nat, j: nat)
    requires m < Power(j)
    ensures !Bit(m, j)
  {
    if j > 0 {
      TopBit(m / 2, j - 1);
    }
  }

  /** A mask without a bit has room for it. */
  lemma {:induction false} RoomForBit(m: nat, i: nat, n: nat)
    requires i < n && m < Power(n) && !Bit(m, i)
    ensures m + Power(i) < Power(n)
  {
    if i > 0 {
      assert (m + Power(i)) / 2 == m / 2 + Power(i - 1);
      RoomForBit(m / 2, i - 1, n - 1);
    }
  }

  lemma {:induction false} SizeBounds(m: nat, n: nat)
    requires m < Power(n)
    ensures Size(m) <= n
    ensures Size(m) == 0 <==> m == 0
    ensures Size(m) == n <==> m == Power(n) - 1
  {
    if n > 0 {
      SizeBounds(m / 2, n - 1);
    }
  }

  /** The number of members, counted actor by actor. */
  function CountBits(m: nat, n: nat): nat {
    if n == 0 then 0 else CountBits(m, n - 1) + if Bit(m, n - 1) then 1 else 0
  }

  lemma {:induction false} CountShift(m: nat, n: nat)
    requires n > 0
    ensures CountBits(m, n) == m % 2 + CountBits(m / 2, n - 1)
  {
    if n > 1 {
      CountShift(m, n - 1);
    }
  }

  lemma {:induction false} CountIsSize(m: nat, n: nat)
    requires m < Power(n)
    ensures CountBits(m, n) == Size(m)
  {
    if n > 0 {
      CountShift(m, n);
      CountIsSize(m / 2, n - 1);
    }
  }

  // ---------------------------------------------------------------------------------------------
  // Sums

  function Sum(f: nat -> real, lo: nat, hi: nat): real
    requires lo <= hi
    decreases hi
  {
    if lo == hi then 0.0 else Sum(f, lo, hi - 1) + f(hi - 1)
  }

  lemma {:induction false} SumSplit(f: nat -> real, lo: nat, mid: nat, hi: nat)
    requires lo <= mid <= hi
    ensures Sum(f, lo, hi) == Sum(f, lo, mid) + Sum(f, mid, hi)
    decreases hi
  {
    if mid < hi {
      SumSplit(f, lo, mid, hi - 1);
    }
  }

  lemma {:induction false} SumSame(f: nat -> real, g: nat -> real, lo: nat, hi: nat)
    requires lo <= hi && forall m :: lo <= m < hi ==> f(m) == g(m)
    ensures Sum(f, lo, hi) == Sum(g, lo, hi)
    decreases hi
  {
    if lo < hi {
      SumSame(f, g, lo, hi - 1);
    }
  }

  lemma {:induction false} SumAdd(f: nat -> real, g: nat -> real, h: nat -> real, lo: nat, hi: nat)
    requires lo <= hi && forall m :: lo <= m < hi ==> h(m) == f(m) + g(m)
    ensures Sum(h, lo, hi) == Sum(f, lo, hi) + Sum(g, lo, hi)
    decreases hi
  {
    if lo < hi {
      SumAdd(f, g, h, lo, hi - 1);
    }
  }

  lemma {:induction false} SumZero(f: nat -> real, lo: nat, hi: nat)
    requires lo <= hi && forall m :: lo <= m < hi ==> f(m) == 0.0
    ensures Sum(f, lo, hi) == 0.0
    decreases hi
  {
    if lo < hi {
      SumZero(f, lo, hi - 1);
    }
  }

  lemma {:induction false} SumShift(f: nat -> real, g: nat -> real, lo: nat, hi: nat, by_: nat)
    requires lo <= hi && forall m :: lo <= m < hi ==> f(m) == g(m + by_)
    ensures Sum(f, lo, hi) == Sum(g, lo + by_, hi + by_)
    decreases hi
  {
    if lo < hi {
      SumShift(f, g, lo, hi - 1, by_);
    }
  }

  /** `f` over the masks without bit `i` of the block at `o`, and `g` over those with it. */
  ghost predicate Pairs(f: nat -> real, g: nat -> real, o: nat, n: nat, i: nat) {
    forall m: nat :: m < Power(n) ==>
      if Bit(m, i) then f(o + m) == 0.0 else f(o + m) == g(o + m + Power(i)) && g(o + m) == 0.0
  }

  /** Adding a member pairs the coalitions without it with those that have it. */
  lemma {:induction false} PairSum(f: nat -> real, g: nat -> real, o: nat, n: nat, i: nat)
    requires i < n && Pairs(f, g, o, n, i)
    ensures Sum(f, o, o + Power(n)) == Sum(g, o, o + Power(n))
    decreases n
  {
    hide Sum, Bit, Power;
    var h := Power(n - 1);
    PowerStep(n);
    SumSplit(f, o, o + h, o + h + h);
    SumSplit(g, o, o + h, o + h + h);
    if i == n - 1 {
      TopHalves(f, g, o, n);
    } else {
      LowerHalves(f, g, o, n, i);
      PairSum(f, g, o, n - 1, i);
      PairSum(f, g, o + h, n - 1, i);
    }
  }

  lemma PowerStep(n: nat)
    requires n > 0
    ensures Power(n) == Power(n - 1) + Power(n - 1)
  {
  }

  lemma TopHalves(f: nat -> real, g: nat -> real, o: nat, n: nat)
    requires n > 0 && Pairs(f, g, o, n, n - 1)
    ensures var h := Power(n - 1);
      && Sum(f, o, o + h) == Sum(g, o + h, o + h + h)
      && Sum(f, o + h, o + h + h) == 0.0 == Sum(g, o, o + h)
  {
    hide Sum, Bit, Power;
    var h := Power(n - 1);
    PowerStep(n);
    forall m | o <= m < o + h ensures f(m) == g(m + h) && g(m) == 0.0 {
      TopBit(m - o, n - 1);
      assert o + (m - o) == m;
    }
    forall m | o + h <= m < o + h + h ensures f(m) == 0.0 {
      TopBit(m - o - h, n - 1);
      AddBit(m - o - h, n - 1);
      assert o + (m - o) == m && m - o - h + Power(n - 1) == m - o;
    }
    SumShift(f, g, o, o + h, h);
    SumZero(g, o, o + h);
    SumZero(f, o + h, o + h + h);
  }

  lemma PairsAt(f: nat -> real, g: nat -> real, o: nat, n: nat, i: nat, m: nat)
    requires Pairs(f, g, o, n, i) && m < Power(n)
    ensures if Bit(m, i) then f(o + m) == 0.0 else f(o + m) == g(o + m + Power(i)) && g(o + m) == 0.0
  {
    hide Bit, Power;
  }

  lemma LowerHalves(f: nat -> real, g: nat -> real, o: nat, n: nat, i: nat)
    requires i + 1 < n && Pairs(f, g, o, n, i)
    ensures Pairs(f, g, o, n - 1, i) && Pairs(f, g, o + Power(n - 1), n - 1, i)
  {
    hide Bit, Power;
    var h := Power(n - 1);
    PowerStep(n);
    forall m: nat | m < h ensures Bit(m + h, i) == Bit(m, i) {
      LowerBit(m, n - 1, i);
    }
    forall m: nat | m < h
      ensures if Bit(m, i) then f(o + h + m) == 0.0 else f(o + h + m) == g(o + h + m + Power(i)) && g(o + h + m) == 0.0
    {
      var k := m + h;
      PairsAt(f, g, o, n, i, k);
      assert o + k == o + h + m;
    }
  }
}
