/** The high-water mark: a provider is paid for a gain once, and never for capital that merely moved. */
module FeeLaws {
  import opened Division
  import opened Claims
  import opened Ledger
  import opened LedgerLaws
  import opened CapitalLaws
  import Assoc

  /** The profit a crystallization would charge on. */
  function FeeBasis(b: Book): int {
    if b.units == 0 || Available(b) <= Threshold(b) then 0 else Available(b) - Threshold(b)
  }

  /** No unit is worth more than the high-water mark. */
  ghost predicate Covered(b: Book) {
    Mul(UNIT_PRICE_SCALE, Available(b)) <= Mul(b.units, b.highWater)
  }

  lemma FeeOfBasis(b: Book, marks: Marks)
    requires Sound(b) && Flat(b) && Priced(b, marks)
    ensures CrystallizeBook(b, marks).Ok?
    ensures CrystallizeBook(b, marks).value.fee == Quot(FeeBasis(b) * b.feeBps, 10000)
  {
    FlatValue(b, marks);
  }

  lemma ThresholdBounds(b: Book)
    requires Sound(b)
    ensures Mul(b.units, b.highWater) <= Mul(UNIT_PRICE_SCALE, Threshold(b)) < Mul(b.units, b.highWater) + UNIT_PRICE_SCALE
  {
    MulMonotone(b.units, 0, b.highWater);
    FloorBounds(b.units * b.highWater + UNIT_PRICE_SCALE - 1, UNIT_PRICE_SCALE);
  }

  lemma SmallBasisIsFree(b: Book, marks: Marks)
    requires Sound(b) && Flat(b) && Priced(b, marks) && 0 <= FeeBasis(b) <= 3
    ensures CrystallizeBook(b, marks).Ok? && CrystallizeBook(b, marks).value.fee == 0
  {
    FeeOfBasis(b, marks);
    FeeBounds(FeeBasis(b), b.feeBps);
  }

  lemma CoveredHasNoBasis(b: Book)
    requires Sound(b) && Covered(b)
    ensures FeeBasis(b) == 0
  {
    ThresholdBounds(b);
  }

  /** After a crystallization every unit is worth at most the mark: the new price is rounded up to it. */
  lemma CrystallizedIsCovered(b: Book, marks: Marks)
    requires Sound(b) && Flat(b) && CrystallizeBook(b, marks).Ok?
    ensures Covered(CrystallizeBook(b, marks).value.book)
  {
    FlatValue(b, marks);
    CrystallizeKeeps(b, marks);
    var c := CrystallizeBook(b, marks).value;
    if b.units > 0 {
      var worth := (Available(b) - c.fee) * UNIT_PRICE_SCALE;
      var price := Quot(worth + b.units - 1, b.units);
      FloorBounds(worth + b.units - 1, b.units);
      MulMonotone(b.units, price, c.book.highWater);
    }
  }

  /** Crystallizing twice in a row charges nothing the second time, at whatever prices. */
  lemma SecondCrystallizationIsFree(b: Book, marks: Marks, later: Marks)
    requires Sound(b) && Flat(b) && CrystallizeBook(b, marks).Ok?
    requires Priced(b, later)
    ensures var once := CrystallizeBook(b, marks).value.book;
            var again := CrystallizeBook(once, later);
            again.Ok? && again.value.fee == 0 && again.value.book.highWater == once.highWater
  {
    var once := CrystallizeBook(b, marks).value.book;
    CrystallizeKeeps(b, marks);
    CrystallizedIsCovered(b, marks);
    CoveredHasNoBasis(once);
    SmallBasisIsFree(once, later);
    MarkIsKept(once, later);
  }

  /** A covered book is charged nothing, so its mark stays where it is. */
  lemma MarkIsKept(b: Book, marks: Marks)
    requires Sound(b) && Flat(b) && Covered(b) && CrystallizeBook(b, marks).Ok?
    requires CrystallizeBook(b, marks).value.fee == 0
    ensures CrystallizeBook(b, marks).value.book.highWater == b.highWater
  {
    FlatValue(b, marks);
    if b.units > 0 {
      var worth := Available(b) * UNIT_PRICE_SCALE;
      FloorAtMost(worth + b.units - 1, b.units, b.highWater);
    }
  }

  /** The arithmetic of a redemption under a mark: `rest` units stay, worth at most the mark plus two units. */
  lemma LeavingBasis(pool: int, supply: int, mark: int, r: int, owned: int, claim: int, amount: int, scale: int)
    requires supply > r > 0 && r <= owned && scale > 0
    requires Mul(scale, pool) <= Mul(supply, mark)
    requires Mul(owned, pool) < Mul(supply, claim + 1)
    requires Mul(r, claim) < Mul(owned, amount + 1)
    ensures Mul(scale, pool - (amount + 2)) < Mul(supply - r, mark)
  {
    hide Mul;
    var rest := supply - r;
    var over := pool - (amount + 2);
    PayoutIsClose(pool, supply, r, owned, claim, amount);
    MulSub(supply, pool, amount + 2);
    MulFlip(supply, pool);
    MulFlip(r, pool);
    MulSub(pool, supply, r);
    MulFlip(pool, rest);
    MulSwap(supply, scale, over);
    MulLt(scale, Mul(supply, over), Mul(rest, pool));
    MulSwap(scale, rest, pool);
    MulLe(rest, Mul(scale, pool), Mul(supply, mark));
    MulSwap(rest, supply, mark);
    MulCancel(supply, Mul(scale, over), Mul(rest, mark));
  }

  /** A redemption pays less than two base units below the exact share of the redeemed units. */
  lemma PayoutIsClose(pool: int, supply: int, r: int, owned: int, claim: int, amount: int)
    requires supply > 0 && 0 < r <= owned
    requires Mul(owned, pool) < Mul(supply, claim + 1)
    requires Mul(r, claim) < Mul(owned, amount + 1)
    ensures Mul(r, pool) < Mul(supply, amount + 2)
  {
    hide Mul;
    MulSwap(owned, r, pool);
    MulLt(r, Mul(owned, pool), Mul(supply, claim + 1));
    MulSwap(r, supply, claim + 1);
    MulNext(r, claim);
    MulNext(owned, amount + 1);
    MulLe(supply, Mul(r, claim + 1), Mul(owned, amount + 2));
    MulSwap(supply, owned, amount + 2);
    MulCancel(owned, Mul(r, pool), Mul(supply, amount + 2));
  }

  lemma SoundMark(b: Book)
    requires Sound(b)
    ensures b.units >= 0 && Available(b) >= 0 && b.highWater >= UNIT_PRICE_SCALE
  {
  }

  lemma MarkAfterRedemption(b: Book, investor: Party, units: int, marks: Marks)
    requires Withdraw(b, investor, units, marks).Ok?
    ensures var m := Withdraw(b, investor, units, marks).value;
            m.book.units == b.units - units && (m.book.units != 0 ==> m.book.highWater == b.highWater)
  {
  }

  /** A pool worth less than the mark plus `excess` base units leaves a basis of at most `excess`. */
  lemma BasisBelow(b: Book, excess: int)
    requires Sound(b) && excess >= 0
    requires Mul(UNIT_PRICE_SCALE, Available(b) - excess) < Mul(b.units, b.highWater)
    ensures 0 <= FeeBasis(b) <= excess
  {
    hide Mul, Threshold, Sound;
    ThresholdBounds(b);
    MulCancel(UNIT_PRICE_SCALE, Available(b) - excess, Threshold(b));
  }

  /** A redemption after a crystallization charges nothing on the next one either, in part or in full. */
  lemma RedemptionChargesNothing(b: Book, investor: Party, units: int, marks: Marks)
    requires Sound(b) && Flat(b) && Covered(b) && Withdraw(b, investor, units, marks).Ok?
    ensures var after := Withdraw(b, investor, units, marks).value.book;
            CrystallizeBook(after, marks).Ok? && CrystallizeBook(after, marks).value.fee == 0
  {
    hide Mul, Withdraw, ShareOut, ClaimsOf, Sound, Flat, Priced, Quot, Threshold, CrystallizeBook;
    WithdrawnAmount(b, investor, units, marks);
    ClaimsNeedPrices(b, marks);
    SoundMark(b);
    var m := Withdraw(b, investor, units, marks).value;
    SamePrices(b, m.book, marks);
    WithdrawKeeps(b, investor, units, marks);
    PayoutBounds(b, investor, units, marks);
    ClaimIsTheReportedOne(b, investor, marks);
    SoundMark(m.book);
    if m.book.units > 0 {
      LeavingBasis(Available(b), b.units, b.highWater, units, Assoc.Get(b.investors, investor, 0),
                   ClaimOf(b, investor), m.amount, UNIT_PRICE_SCALE);
      MarkAfterRedemption(b, investor, units, marks);
      BasisBelow(m.book, 2);
    }
    SmallBasisIsFree(m.book, marks);
  }

  /** The arithmetic of a deposit under a mark: rounding the issued units down costs less than one of them. */
  lemma EnteringBasis(pool: int, supply: int, mark: int, amount: int, u: int, scale: int)
    requires pool > 0 && supply > 0 && mark > 0 && amount > 0
    requires Mul(scale, pool) <= Mul(supply, mark)
    requires Mul(amount, supply) < Mul(pool, u + 1)
    ensures Mul(scale, pool + amount) < Mul(mark, supply + u + 1)
  {
    hide Mul;
    var sum := pool + amount;
    MulFlip(scale, sum);
    MulSwap(pool, sum, scale);
    MulFlip(pool, scale);
    MulLe(sum, Mul(scale, pool), Mul(supply, mark));
    MulFlip(supply, mark);
    MulSwap(sum, mark, supply);
    MulFlip(sum, supply);
    MulAdd(supply, pool, amount);
    MulFlip(supply, pool);
    MulFlip(supply, amount);
    MulAdd(pool, supply, u + 1);
    MulLt(mark, Mul(supply, sum), Mul(pool, supply + u + 1));
    MulSwap(mark, pool, supply + u + 1);
    MulCancel(pool, Mul(scale, sum), Mul(mark, supply + u + 1));
  }

  /**
   A deposit after a crystallization is not performance: the basis it leaves is worth strictly less than
   one unit at the high-water mark, however large the deposit is.
   */
  lemma DepositIsNotPerformance(b: Book, investor: Party, amount: int, marks: Marks)
    requires Sound(b) && Flat(b) && Covered(b) && Deposit(b, investor, amount, marks).Ok?
    ensures Mul(UNIT_PRICE_SCALE, FeeBasis(Deposit(b, investor, amount, marks).value.book)) < b.highWater
  {
    hide Mul, Deposit, ShareOut, ClaimsOf, Sound, Flat, Priced, Quot, Threshold;
    DepositNeedsPrices(b, investor, amount, marks);
    SoundMark(b);
    MarkAfterDeposit(b, investor, amount, marks);
    var m := Deposit(b, investor, amount, marks).value;
    DepositKeeps(b, investor, amount, marks);
    IssuedAtValue(b, investor, amount, marks);
    ThresholdBounds(m.book);
    if b.units > 0 {
      EnteringBasis(Available(b), b.units, b.highWater, amount, m.units, UNIT_PRICE_SCALE);
    } else {
      MulFlip(UNIT_PRICE_SCALE, amount);
    }
    MulNext(b.highWater, b.units + m.units);
    MulFlip(b.highWater, b.units + m.units);
    MulSub(UNIT_PRICE_SCALE, Available(m.book), Threshold(m.book));
    MulNothing(UNIT_PRICE_SCALE);
  }

  lemma MulNothing(a: int)
    ensures Mul(a, 0) == 0
  {
  }

  lemma MarkAfterDeposit(b: Book, investor: Party, amount: int, marks: Marks)
    requires Sound(b) && Deposit(b, investor, amount, marks).Ok?
    ensures var m := Deposit(b, investor, amount, marks).value;
            m.book.highWater == b.highWater && (b.units == 0 ==> b.highWater == UNIT_PRICE_SCALE)
  {
  }

  /** A charged fee leaves the investors at or above the threshold the fee was measured from. */
  lemma FeeStaysAboveThreshold(b: Book, marks: Marks)
    requires Sound(b) && Flat(b) && CrystallizeBook(b, marks).Ok?
    requires CrystallizeBook(b, marks).value.fee > 0
    ensures Available(CrystallizeBook(b, marks).value.book) >= Threshold(b)
    ensures CrystallizeBook(b, marks).value.book.highWater > b.highWater
  {
    FlatValue(b, marks);
    FeeOfBasis(b, marks);
    FeeBounds(FeeBasis(b), b.feeBps);
    CrystallizeKeeps(b, marks);
    CrystallizedIsCovered(b, marks);
    ThresholdBounds(b);
    var c := CrystallizeBook(b, marks).value;
    FeeBelowBasis(FeeBasis(b), b.feeBps);
    MulMonotone(b.units, c.book.highWater, b.highWater + if c.book.highWater <= b.highWater then 0 else c.book.highWater);
  }

  lemma FeeBelowBasis(profit: int, feeBps: int)
    requires profit > 0 && 0 <= feeBps <= 3000
    ensures Quot(profit * feeBps, 10000) < profit
  {
    MulMonotone(profit, 0, feeBps);
    MulMonotone(profit, feeBps, 3000);
  }
}
