/** Exact Shapley attribution over coalition masks, for any number of actors and any value of coalitions. */
module Shapley {
  import opened Masks

  function Factorial(m: nat): (f: nat)
    ensures f > 0
  {
    if m < 2 then 1 else m * Factorial(m - 1)
  }

  /** The weight of joining a coalition of `k` others. */
  function Weight(n: nat, k: int): real {
    if 0 <= k < n then (Factorial(k) * Factorial(n - k - 1)) as real / Factorial(n) as real else 0.0
  }

  /** What actor `i` adds to a coalition without it, weighted; coalitions with it are skipped. */
  function Gain(v: nat -> real, n: nat, i: nat, m: nat): real {
    if Bit(m, i) then 0.0 else Weight(n, Size(m)) * (v(m + Power(i)) - v(m))
  }

  function Gains(v: nat -> real, n: nat, i: nat): nat -> real {
    (m: nat) => Gain(v, n, i, m)
  }

  function Contribution(v: nat -> real, n: nat, i: nat): real {
    Sum(Gains(v, n, i), 0, Power(n))
  }

  function Total(v: nat -> real, n: nat, j: nat): real {
    if j == 0 then 0.0 else Total(v, n, j - 1) + Contribution(v, n, j - 1)
  }

  // ---------------------------------------------------------------------------------------------
  // Each coalition's value appears with a coefficient

  function Coefficient(n: nat, i: nat, m: nat): real {
    if Bit(m, i) then Weight(n, Size(m) - 1) else -Weight(n, Size(m))
  }

  function Shares(v: nat -> real, n: nat, i: nat): nat -> real {
    (m: nat) => Coefficient(n, i, m) * v(m)
  }

  function Joined(v: nat -> real, n: nat, i: nat): nat -> real {
    (m: nat) => if Bit(m, i) then 0.0 else Weight(n, Size(m)) * v(m + Power(i))
  }

  function Present(v: nat -> real, n: nat, i: nat): nat -> real {
    (m: nat) => if Bit(m, i) then Weight(n, Size(m) - 1) * v(m) else 0.0
  }

  function Absent(v: nat -> real, n: nat, i: nat): nat -> real {
    (m: nat) => if Bit(m, i) then 0.0 else -Weight(n, Size(m)) * v(m)
  }

  lemma JoinedPairs(v: nat -> real, n: nat, i: nat)
    requires i < n
    ensures Pairs(Joined(v, n, i), Present(v, n, i), 0, n, i)
  {
    hide Bit, Size, Power, Weight;
    forall m: nat | m < Power(n) && !Bit(m, i)
      ensures Joined(v, n, i)(0 + m) == Present(v, n, i)(0 + m + Power(i))
    {
      AddBit(m, i);
    }
  }

  lemma ContributionIs(v: nat -> real, n: nat, i: nat)
    requires i < n
    ensures Contribution(v, n, i) == Sum(Shares(v, n, i), 0, Power(n))
  {
    hide Bit, Size, Power, Weight, Sum, Gains, Joined, Absent, Present, Shares;
    var a, b, c, d, e := Gains(v, n, i), Joined(v, n, i), Absent(v, n, i), Present(v, n, i), Shares(v, n, i);
    forall m: nat | 0 <= m < Power(n) ensures a(m) == b(m) + c(m) && e(m) == d(m) + c(m) {
      TermsSplit(v, n, i, m);
    }
    SumAdd(b, c, a, 0, Power(n));
    SumAdd(d, c, e, 0, Power(n));
    JoinedPairs(v, n, i);
    PairSum(b, d, 0, n, i);
  }

  lemma TermsSplit(v: nat -> real, n: nat, i: nat, m: nat)
    ensures Gains(v, n, i)(m) == Joined(v, n, i)(m) + Absent(v, n, i)(m)
    ensures Shares(v, n, i)(m) == Present(v, n, i)(m) + Absent(v, n, i)(m)
  {
    hide Bit, Size, Power, Weight;
    GainSplits(Weight(n, Size(m)), v(m + Power(i)), v(m));
  }

  lemma GainSplits(w: real, x: real, y: real)
    ensures w * (x - y) == w * x + -w * y
  {
  }

  function CoefficientSum(n: nat, j: nat, m: nat): real {
    if j == 0 then 0.0 else CoefficientSum(n, j - 1, m) + Coefficient(n, j - 1, m)
  }

  function Weighted(v: nat -> real, n: nat, j: nat): nat -> real {
    (m: nat) => CoefficientSum(n, j, m) * v(m)
  }

  lemma {:induction false} TotalIs(v: nat -> real, n: nat, j: nat)
    requires j <= n
    ensures Total(v, n, j) == Sum(Weighted(v, n, j), 0, Power(n))
  {
    hide Contribution, Coefficient, Power, Sum, Weighted, Shares;
    if j == 0 {
      var f := Weighted(v, n, 0);
      forall m: nat | 0 <= m < Power(n) ensures f(m) == 0.0 {
        NothingYet(v, n, m);
      }
      SumZero(f, 0, Power(n));
    } else {
      TotalIs(v, n, j - 1);
      ContributionIs(v, n, j - 1);
      var a, b, c := Weighted(v, n, j - 1), Shares(v, n, j - 1), Weighted(v, n, j);
      forall m: nat | 0 <= m < Power(n) ensures c(m) == a(m) + b(m) {
        OneMoreActor(v, n, j, m);
      }
      SumAdd(a, b, c, 0, Power(n));
    }
  }

  lemma NothingYet(v: nat -> real, n: nat, m: nat)
    ensures Weighted(v, n, 0)(m) == 0.0
  {
    assert CoefficientSum(n, 0, m) == 0.0;
    assert 0.0 * v(m) == 0.0;
  }

  lemma OneMoreActor(v: nat -> real, n: nat, j: nat, m: nat)
    requires j > 0
    ensures Weighted(v, n, j)(m) == Weighted(v, n, j - 1)(m) + Shares(v, n, j - 1)(m)
  {
    hide Coefficient;
    Distribute(CoefficientSum(n, j - 1, m), Coefficient(n, j - 1, m), v(m));
  }

  lemma Distribute(a: real, b: real, x: real)
    ensures (a + b) * x == a * x + b * x
  {
  }

  // ---------------------------------------------------------------------------------------------
  // The coefficients cancel

  lemma {:induction false} CoefficientSumIs(n: nat, j: nat, m: nat)
    ensures CountBits(m, j) <= j
    ensures CoefficientSum(n, j, m)
      == CountBits(m, j) as real * Weight(n, Size(m) - 1) - (j - CountBits(m, j)) as real * Weight(n, Size(m))
  {
    hide Weight, Size, Bit, Coefficient;
    if j > 0 {
      CoefficientSumIs(n, j - 1, m);
      var c, x, y := CountBits(m, j - 1), Weight(n, Size(m) - 1), Weight(n, Size(m));
      CoefficientIs(n, j - 1, m);
      if Bit(m, j - 1) {
        OneMore(c, x);
      } else {
        OneMore(j - 1 - c, y);
      }
    }
  }

  lemma CoefficientIs(n: nat, i: nat, m: nat)
    ensures Coefficient(n, i, m) == if Bit(m, i) then Weight(n, Size(m) - 1) else -Weight(n, Size(m))
  {
  }

  lemma OneMore(c: nat, x: real)
    ensures (c + 1) as real * x == c as real * x + x
  {
  }

  lemma WeightTimes(n: nat, k: nat, s: nat)
    requires k < n
    ensures s as real * Weight(n, k) == (s * (Factorial(k) * Factorial(n - k - 1))) as real / Factorial(n) as real
  {
    hide Factorial;
    TimesFraction(s, Factorial(k) * Factorial(n - k - 1), Factorial(n));
  }

  lemma TimesFraction(s: nat, x: nat, d: nat)
    requires d > 0
    ensures s as real * (x as real / d as real) == (s * x) as real / d as real
  {
    assert (s * x) as real == s as real * x as real;
  }

  /** Inside, joining and leaving weigh the same. */
  lemma WeightsBalance(n: nat, s: nat)
    requires 0 < s < n
    ensures s as real * Weight(n, s - 1) == (n - s) as real * Weight(n, s)
  {
    hide Weight, Factorial;
    WeightTimes(n, s - 1, s);
    WeightTimes(n, s, n - s);
    FactorialStep(s);
    FactorialStep(n - s);
    Regroup(s, Factorial(s - 1), Factorial(n - s), n - s, Factorial(s), Factorial(n - s - 1));
  }

  /** At the grand coalition and at the empty one the weights add up to one. */
  lemma EndWeights(n: nat)
    requires 0 < n
    ensures n as real * Weight(n, n - 1) == 1.0 == n as real * Weight(n, 0)
  {
    hide Weight, Factorial;
    WeightTimes(n, n - 1, n);
    WeightTimes(n, 0, n);
    FactorialStep(n);
    FactorialZero();
    Whole(Factorial(n));
  }

  lemma FactorialZero()
    ensures Factorial(0) == 1
  {
  }

  lemma FactorialStep(m: nat)
    requires m > 0
    ensures Factorial(m) == m * Factorial(m - 1)
  {
  }

  lemma Regroup(s: nat, a: nat, b: nat, t: nat, c: nat, d: nat)
    requires c * (t * d) == s * a * b
    ensures s * (a * b) == t * (c * d)
  {
    assert s * (a * b) == s * a * b;
    assert t * (c * d) == c * (t * d);
  }

  lemma Whole(d: nat)
    requires d > 0
    ensures d as real / d as real == 1.0
  {
  }

  lemma InnerCancels(n: nat, m: nat)
    requires 0 < m < Power(n) - 1
    ensures CoefficientSum(n, n, m) == 0.0
  {
    hide Weight, Power, Size, CoefficientSum, CountBits;
    SizeBounds(m, n);
    CountIsSize(m, n);
    CoefficientSumIs(n, n, m);
    WeightsBalance(n, Size(m));
  }

  lemma EndsCount(n: nat)
    requires n > 0
    ensures CoefficientSum(n, n, 0) == -1.0
    ensures CoefficientSum(n, n, Power(n) - 1) == 1.0
  {
    hide Weight, Power, Size, CoefficientSum, CountBits;
    SizeBounds(0, n);
    SizeBounds(Power(n) - 1, n);
    CountIsSize(0, n);
    CountIsSize(Power(n) - 1, n);
    CoefficientSumIs(n, n, 0);
    CoefficientSumIs(n, n, Power(n) - 1);
    EndWeights(n);
    NoWeight(n);
  }

  lemma NoWeight(n: nat)
    ensures Weight(n, n) == 0.0 && Weight(n, -1) == 0.0
  {
  }

  /** Efficiency: the contributions add up to what the grand coalition is worth above the empty one. */
  lemma Efficiency(v: nat -> real, n: nat)
    ensures Total(v, n, n) == v(Power(n) - 1) - v(0)
  {
    hide Power, Sum, CoefficientSum, Total;
    if n == 0 {
      EmptyTotal(v);
    } else {
      var f := Weighted(v, n, n);
      TotalIs(v, n, n);
      PowerStep(n);
      var top := Power(n) - 1;
      SumSplit(f, 0, 1, top + 1);
      SumSplit(f, 1, top, top + 1);
      SingleSum(f, 0);
      SingleSum(f, top);
      forall m | 1 <= m < top ensures f(m) == 0.0 {
        InnerCancels(n, m);
      }
      SumZero(f, 1, top);
      EndsCount(n);
    }
  }

  lemma EmptyTotal(v: nat -> real)
    ensures Total(v, 0, 0) == 0.0 && Power(0) == 1
  {
  }

  lemma SingleSum(f: nat -> real, m: nat)
    ensures Sum(f, m, m + 1) == f(m)
  {
  }

  // ---------------------------------------------------------------------------------------------
  // Null and equal actors

  /** An actor that changes no coalition's value gets nothing. */
  lemma NullActor(v: nat -> real, n: nat, i: nat)
    requires i < n && forall m: nat :: m < Power(n) && !Bit(m, i) ==> v(m + Power(i)) == v(m)
    ensures Contribution(v, n, i) == 0.0
  {
    hide Bit, Size, Power, Weight, Sum;
    var a := Gains(v, n, i);
    forall m: nat | 0 <= m < Power(n) ensures a(m) == 0.0 {
    }
    SumZero(a, 0, Power(n));
  }

  /** Both weights of a coalition that has one of two actors but not the other. */
  function Both(n: nat, m: nat): real {
    Weight(n, Size(m) - 1) + Weight(n, Size(m))
  }

  /** The coalitions with `i` but not `j`, weighted. */
  function With(v: nat -> real, n: nat, i: nat, j: nat): nat -> real {
    (m: nat) => if Bit(m, i) && !Bit(m, j) then Both(n, m) * v(m) else 0.0
  }

  /** The coalitions with neither, as they are once `i` has joined. */
  function Joining(v: nat -> real, n: nat, i: nat, j: nat): nat -> real {
    (m: nat) => if Bit(m, i) || Bit(m, j) then 0.0 else Both(n, m + Power(i)) * v(m + Power(i))
  }

  lemma JoiningPairs(v: nat -> real, n: nat, i: nat, j: nat)
    requires i < n && j < n && i != j
    ensures Sum(Joining(v, n, i, j), 0, Power(n)) == Sum(With(v, n, i, j), 0, Power(n))
  {
    hide Bit, Size, Power, Weight, Sum, Both, Joining, With;
    var f, g := Joining(v, n, i, j), With(v, n, i, j);
    forall m: nat | m < Power(n)
      ensures if Bit(m, i) then f(0 + m) == 0.0 else f(0 + m) == g(0 + m + Power(i)) && g(0 + m) == 0.0
    {
      JoiningAt(v, n, i, j, m);
    }
    PairSum(f, g, 0, n, i);
  }

  lemma JoiningAt(v: nat -> real, n: nat, i: nat, j: nat, m: nat)
    requires i != j
    ensures var f, g := Joining(v, n, i, j), With(v, n, i, j);
      if Bit(m, i) then f(m) == 0.0 else f(m) == g(m + Power(i)) && g(m) == 0.0
  {
    hide Bit, Size, Power, Weight, Both;
    if !Bit(m, i) {
      AddBit(m, i);
      OtherBit(m, i, j);
    }
  }

  /** Actors that every coalition values alike get the same. */
  lemma EqualActors(v: nat -> real, n: nat, i: nat, j: nat)
    requires i < n && j < n && i != j
    requires forall m: nat :: m < Power(n) && !Bit(m, i) && !Bit(m, j) ==> v(m + Power(i)) == v(m + Power(j))
    ensures Contribution(v, n, i) == Contribution(v, n, j)
  {
    hide Bit, Size, Power, Weight, Sum, Both, Contribution;
    var p := Power(n);
    ContributionIs(v, n, i);
    ContributionIs(v, n, j);
    JoiningPairs(v, n, i, j);
    JoiningPairs(v, n, j, i);
    forall m: nat | 0 <= m < p ensures Joining(v, n, i, j)(m) == Joining(v, n, j, i)(m) {
      if !Bit(m, i) && !Bit(m, j) {
        SameSize(m, i, j);
        BothBySize(n, m + Power(i), m + Power(j));
      }
    }
    SumSame(Joining(v, n, i, j), Joining(v, n, j, i), 0, p);
    SharesDiffer(v, n, i, j);
  }

  lemma SameSize(m: nat, i: nat, j: nat)
    requires !Bit(m, i) && !Bit(m, j)
    ensures Size(m + Power(i)) == Size(m + Power(j))
  {
    hide Bit, Size, Power;
    AddBit(m, i);
    AddBit(m, j);
  }

  lemma BothBySize(n: nat, a: nat, b: nat)
    requires Size(a) == Size(b)
    ensures Both(n, a) == Both(n, b)
  {
    hide Size, Weight;
  }

  /** The two contributions differ by the coalitions that have exactly one of the two. */
  lemma SharesDiffer(v: nat -> real, n: nat, i: nat, j: nat)
    ensures Sum(Shares(v, n, i), 0, Power(n)) + Sum(With(v, n, j, i), 0, Power(n))
      == Sum(Shares(v, n, j), 0, Power(n)) + Sum(With(v, n, i, j), 0, Power(n))
  {
    hide Bit, Size, Power, Weight, Sum, Shares, With;
    var a, b, c, d := Shares(v, n, i), With(v, n, j, i), Shares(v, n, j), With(v, n, i, j);
    var e: nat -> real := (m: nat) => a(m) + b(m);
    forall m: nat | 0 <= m < Power(n) ensures e(m) == c(m) + d(m) {
      SharesDifferAt(v, n, i, j, m);
    }
    SumAdd(a, b, e, 0, Power(n));
    SumAdd(c, d, e, 0, Power(n));
  }

  lemma SharesDifferAt(v: nat -> real, n: nat, i: nat, j: nat, m: nat)
    ensures Shares(v, n, i)(m) + With(v, n, j, i)(m) == Shares(v, n, j)(m) + With(v, n, i, j)(m)
  {
    hide Bit, Size, Weight;
    var x, y, z := Weight(n, Size(m) - 1), Weight(n, Size(m)), v(m);
    Distribute(x, y, z);
    Negated(y, z);
  }

  lemma Negated(y: real, z: real)
    ensures -y * z == -(y * z)
  {
  }
}
