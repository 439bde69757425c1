/** BigInt division, and the arithmetic of floors the accounting proofs rest on. */
module Division {

  /** BigInt `/`: truncation toward zero. Division by zero throws a RangeError. */
  function Quot(a: int, b: int): (q: int)
    requires b != 0
    ensures a >= 0 && b > 0 ==> q == a / b
  {
    if (a >= 0) == (b > 0) then Abs(a) / Abs(b) else -(Abs(a) / Abs(b))
  }

  /** BigInt `%`: the remainder takes the sign of the dividend. */
  function Rem(a: int, b: int): (r: int)
    requires b != 0
    ensures a >= 0 && b > 0 ==> r == a % b
  {
    a - b * Quot(a, b)
  }

  function Abs(a: int): (r: int) {
    if a < 0 then -a else a
  }

  lemma FloorBounds(a: int, b: int)
    requires b > 0
    ensures b * (a / b) <= a < b * (a / b) + b
  {
  }

  /** `q` is the floor of `a / b` as soon as it is within the bracket. */
  lemma FloorUnique(a: int, b: int, q: int)
    requires b > 0 && b * q <= a < b * q + b
    ensures a / b == q
  {
    FloorAtMost(a, b, q);
    FloorAtLeast(a, b, q);
  }

  lemma FloorAtMost(a: int, b: int, q: int)
    requires b > 0 && a < b * (q + 1)
    ensures a / b <= q
  {
    FloorBounds(a, b);
    if a / b >= q + 1 {
      MulMonotone(b, q + 1, a / b);
      assert false;
    }
  }

  lemma FloorAtLeast(a: int, b: int, q: int)
    requires b > 0 && b * q <= a
    ensures q <= a / b
  {
    FloorBounds(a, b);
    if a / b <= q - 1 {
      MulMonotone(b, a / b + 1, q);
      assert false;
    }
  }

  lemma MulMonotone(c: int, a: int, b: int)
    requires c >= 0 && a <= b
    ensures c * a <= c * b
  {
    assert c * (b - a) == c * b - c * a;
    assert c * (b - a) >= 0;
  }

  lemma FloorMonotone(a: int, b: int, c: int)
    requires c > 0 && a <= b
    ensures a / c <= b / c
  {
    FloorBounds(a, c);
    FloorAtLeast(b, c, a / c);
  }

  // ---------------------------------------------------------------------------------------------
  // Products by name: the long inequalities below the accounting laws are chained with these rules alone,
  // with the product itself hidden.

  function Mul(a: int, b: int): int {
    a * b
  }

  lemma MulLe(c: int, a: int, b: int)
    requires c >= 0 && a <= b
    ensures Mul(c, a) <= Mul(c, b)
  {
    MulMonotone(c, a, b);
  }

  lemma MulLt(c: int, a: int, b: int)
    requires c > 0 && a < b
    ensures Mul(c, a) < Mul(c, b)
  {
    MulMonotone(c, a + 1, b);
  }

  lemma MulCancel(c: int, a: int, b: int)
    requires c >= 0 && Mul(c, a) < Mul(c, b)
    ensures a < b
  {
    if b <= a {
      MulMonotone(c, b, a);
    }
  }

  lemma MulAdd(a: int, b: int, c: int)
    ensures Mul(a, b + c) == Mul(a, b) + Mul(a, c)
  {
  }

  lemma MulSub(a: int, b: int, c: int)
    ensures Mul(a, b - c) == Mul(a, b) - Mul(a, c)
  {
  }

  /** a * (b + 1) */
  lemma MulNext(a: int, b: int)
    ensures Mul(a, b + 1) == Mul(a, b) + a
    ensures Mul(a, b - 1) == Mul(a, b) - a
  {
  }

  lemma MulFlip(a: int, b: int)
    ensures Mul(a, b) == Mul(b, a)
  {
  }

  lemma MulSwap(a: int, b: int, c: int)
    ensures Mul(a, Mul(b, c)) == Mul(b, Mul(a, c))
  {
  }

  // ---------------------------------------------------------------------------------------------
  // Rounding, by its brackets

  /** `q` is `a / b` rounded down. */
  ghost predicate IsFloor(q: int, a: int, b: int) {
    Mul(b, q) <= a < Mul(b, q + 1)
  }

  /** `q` is `a / b` rounded up. */
  ghost predicate IsCeiling(q: int, a: int, b: int) {
    Mul(b, q - 1) < a <= Mul(b, q)
  }

  lemma QuotIsFloor(a: int, b: int)
    requires a >= 0 && b > 0
    ensures IsFloor(Quot(a, b), a, b)
  {
    FloorBounds(a, b);
    MulNext(b, a / b);
  }

  lemma QuotIsCeiling(a: int, b: int)
    requires a >= 0 && b > 0
    ensures IsCeiling(Quot(a + b - 1, b), a, b)
  {
    var q := Quot(a + b - 1, b);
    FloorBounds(a + b - 1, b);
    MulNext(b, q);
  }
}
