/** Capital moving in and out of a strategy: nobody gains by passing through, nobody else pays for it. */
module CapitalLaws {
  import opened Division
  import opened Claims
  import opened Ledger
  import opened LedgerLaws
  import Assoc

  /** The claim of one owner on a flat strategy. */
  function ClaimOf(b: Book, owner: Party): int
    requires b.units != 0
  {
    Assoc.Get(ShareOut(Available(b), b.units, b.investors), owner, 0)
  }

  lemma ClaimIsTheReportedOne(b: Book, owner: Party, marks: Marks)
    requires Sound(b) && Flat(b) && Priced(b, marks) && b.units > 0
    ensures Assoc.Get(ClaimsOf(b, marks).value, owner, 0) == ClaimOf(b, owner)
    ensures Assoc.Get(b.investors, owner, 0) > 0 ==>
      Nearest(ClaimOf(b, owner), Available(b), Assoc.Get(b.investors, owner, 0), b.units)
  {
    FlatClaims(b, marks);
    RegisterOf(b, Available(b));
    if Assoc.Get(b.investors, owner, 0) > 0 {
      ClaimIsNearest(Available(b), b.units, b.investors, owner);
    }
  }

  // ---------------------------------------------------------------------------------------------
  // Units are never issued above their value

  lemma DepositNeedsPrices(b: Book, investor: Party, amount: int, marks: Marks)
    requires Deposit(b, investor, amount, marks).Ok?
    ensures Priced(b, marks) && Priced(Deposit(b, investor, amount, marks).value.book, marks) && amount > 0
    ensures Available(Deposit(b, investor, amount, marks).value.book) == Available(b) + amount
  {
  }

  lemma SoundUnits(b: Book)
    requires Sound(b)
    ensures b.units >= 0 && Available(b) >= 0
  {
  }

  lemma WithdrawnAmount(b: Book, investor: Party, units: int, marks: Marks)
    requires Withdraw(b, investor, units, marks).Ok?
    ensures var owned := Assoc.Get(b.investors, investor, 0);
            var m := Withdraw(b, investor, units, marks).value;
            && ClaimsOf(b, marks).Ok? && 0 < units <= owned
            && m.amount == Quot(Assoc.Get(ClaimsOf(b, marks).value, investor, 0) * units, owned)
            && m.book.positions == b.positions && m.book.shorts == b.shorts
            && Available(m.book) == Available(b) - m.amount
  {
  }

  /** The issued units are worth at most what was paid: u/S <= A/P, and the next unit would be worth more. */
  lemma IssuedAtValue(b: Book, investor: Party, amount: int, marks: Marks)
    requires Sound(b) && Flat(b) && Deposit(b, investor, amount, marks).Ok?
    ensures var u := Deposit(b, investor, amount, marks).value.units;
            && (b.units == 0 ==> u == amount && Available(b) == 0)
            && (b.units > 0 ==>
                  Available(b) > 0 && Mul(Available(b), u) <= Mul(amount, b.units) < Mul(Available(b), u + 1))
  {
    FlatValue(b, marks);
    if b.units > 0 {
      MulMonotone(amount, 0, b.units);
      FloorBounds(amount * b.units, Available(b));
    }
  }

  /**
   The arithmetic of passing through: `owned` units include the `u` issued ones, `claim` is the rounded claim
   on them, `payout` the part of the claim that the issued units stand for.
   */
  lemma PassThroughBound(pool: int, supply: int, amount: int, u: int, owned: int, claim: int, payout: int)
    requires supply > 0 && amount > 0 && 0 < u <= owned
    requires Mul(pool, u) <= Mul(amount, supply)
    requires Mul(supply + u, claim - 1) < Mul(owned, pool + amount)
    requires Mul(owned, payout) <= Mul(u, claim)
    ensures payout <= amount
  {
    hide Mul;
    var total := supply + u;
    // u (pool + amount) <= amount total
    MulAdd(u, pool, amount);
    MulFlip(u, pool);
    MulFlip(u, amount);
    MulAdd(amount, supply, u);
    // total (owned payout) <= u (total claim) < owned (u (pool + amount)) + total u
    MulLe(total, Mul(owned, payout), Mul(u, claim));
    MulSwap(total, u, claim);
    MulNext(total, claim);
    MulLt(u, Mul(total, claim), Mul(owned, pool + amount) + total);
    MulAdd(u, Mul(owned, pool + amount), total);
    MulSwap(u, owned, pool + amount);
    MulLe(owned, Mul(u, pool + amount), Mul(amount, total));
    // ... <= total (owned (amount + 1))
    MulFlip(u, total);
    MulLe(total, u, owned);
    MulFlip(total, owned);
    MulFlip(amount, total);
    MulNext(total, amount);
    MulAdd(owned, Mul(amount, total), total);
    MulSwap(owned, total, amount + 1);
    MulCancel(total, Mul(owned, payout), Mul(owned, amount + 1));
    MulCancel(owned, payout, amount + 1);
  }

  /**
   Depositing and at once redeeming the issued units is always possible and never returns more than was
   put in, for a new investor and for one who already has units.
   */
  lemma NoGainByPassingThrough(b: Book, investor: Party, amount: int, marks: Marks)
    requires Sound(b) && Flat(b) && Deposit(b, investor, amount, marks).Ok?
    ensures var issued := Deposit(b, investor, amount, marks).value;
            var back := Withdraw(issued.book, investor, issued.units, marks);
            back.Ok? && back.value.amount <= amount
    ensures b.units == 0 ==>
      var issued := Deposit(b, investor, amount, marks).value;
      Withdraw(issued.book, investor, issued.units, marks).value.amount == amount
  {
    hide Mul, Deposit, ShareOut, ClaimsOf, Sound, Flat;
    DepositNeedsPrices(b, investor, amount, marks);
    SoundUnits(b);
    var issued := Deposit(b, investor, amount, marks).value;
    DepositKeeps(b, investor, amount, marks);
    IssuedAtValue(b, investor, amount, marks);
    UnitsBounded(b, investor);
    var owned := Assoc.Get(issued.book.investors, investor, 0);
    RedemptionIsAvailable(issued.book, investor, issued.units, marks);
    PayoutBounds(issued.book, investor, issued.units, marks);
    ClaimIsTheReportedOne(issued.book, investor, marks);
    WithdrawnAmount(issued.book, investor, issued.units, marks);
    var back := Withdraw(issued.book, investor, issued.units, marks).value;
    if b.units > 0 {
      PassThroughBound(Available(b), b.units, amount, issued.units, owned, ClaimOf(issued.book, investor), back.amount);
    }
  }

  // ---------------------------------------------------------------------------------------------
  // The others

  /** The arithmetic of leaving: `w` units stay when `u` of `supply` leave with `leaver` of the pool. */
  lemma LeavingBound(pool: int, supply: int, u: int, w: int, leaver: int, before: int, after: int)
    requires u > 0 && w > 0 && u + w <= supply
    requires Mul(supply, leaver - 1) < Mul(u, pool) < Mul(supply, leaver + 1)
    requires Mul(supply, before - 1) < Mul(w, pool) < Mul(supply, before + 1)
    requires Mul(supply - u, after - 1) < Mul(w, pool - leaver) < Mul(supply - u, after + 1)
    ensures before - 2 <= after <= before + 2
  {
    hide Mul;
    var rest := supply - u;
    MulSub(supply, pool, leaver);
    MulFlip(supply, pool);
    MulFlip(u, pool);
    MulSub(pool, supply, u);
    MulFlip(pool, rest);
    MulNext(supply, leaver);
    LeavingAbove(pool, supply, rest, w, pool - leaver, before, after);
    LeavingBelow(pool, supply, rest, w, pool - leaver, before, after);
  }

  lemma LeavingAbove(pool: int, supply: int, rest: int, w: int, left: int, before: int, after: int)
    requires 0 < w <= rest <= supply
    requires Mul(supply, left) < Mul(rest, pool) + supply
    requires Mul(w, pool) < Mul(supply, before + 1)
    requires Mul(rest, after - 1) < Mul(w, left)
    ensures after <= before + 2
  {
    hide Mul;
    MulLt(supply, Mul(rest, after - 1), Mul(w, left));
    MulSwap(supply, w, left);
    MulLt(w, Mul(supply, left), Mul(rest, pool) + supply);
    MulAdd(w, Mul(rest, pool), supply);
    MulSwap(w, rest, pool);
    MulFlip(w, supply);
    MulLt(rest, Mul(w, pool), Mul(supply, before + 1));
    MulLe(supply, w, rest);
    MulSwap(rest, supply, before + 1);
    MulNext(rest, before + 1);
    MulAdd(supply, Mul(rest, before + 1), rest);
    MulCancel(supply, Mul(rest, after - 1), Mul(rest, before + 2));
    MulCancel(rest, after - 1, before + 2);
  }

  lemma LeavingBelow(pool: int, supply: int, rest: int, w: int, left: int, before: int, after: int)
    requires 0 < w <= rest <= supply
    requires Mul(rest, pool) - supply < Mul(supply, left)
    requires Mul(supply, before - 1) < Mul(w, pool)
    requires Mul(w, left) < Mul(rest, after + 1)
    ensures before - 2 <= after
  {
    hide Mul;
    MulNext(rest, before - 1);
    MulSub(supply, Mul(rest, before - 1), rest);
    MulSwap(supply, rest, before - 1);
    MulLt(rest, Mul(supply, before - 1), Mul(w, pool));
    MulLe(supply, w, rest);
    MulSwap(rest, w, pool);
    MulFlip(supply, w);
    MulSub(w, Mul(rest, pool), supply);
    MulLt(w, Mul(rest, pool) - supply, Mul(supply, left));
    MulSwap(w, supply, left);
    MulLt(supply, Mul(w, left), Mul(rest, after + 1));
    MulCancel(supply, Mul(rest, before - 2), Mul(rest, after + 1));
    MulCancel(rest, before - 2, after + 1);
  }

  lemma {:induction false} TwoOwners(investors: seq<(Party, int)>, a: Party, b: Party)
    requires Assoc.Distinct(investors) && a != b
    requires forall i :: 0 <= i < |investors| ==> investors[i].1 >= 0
    ensures Assoc.Get(investors, a, 0) + Assoc.Get(investors, b, 0) <= Assoc.Sum(investors, AmountOf)
  {
    if investors != [] {
      TwoOwners(investors[1..], a, b);
      var head := investors[0].0;
      if head == a || head == b {
        Absent(investors[1..], head);
      }
    }
  }

  lemma TwoOwnersOf(b: Book, one: Party, two: Party)
    requires Sound(b) && one != two
    ensures Assoc.Get(b.investors, one, 0) + Assoc.Get(b.investors, two, 0) <= b.units
  {
    TwoOwners(b.investors, one, two);
  }

  lemma SamePrices(b: Book, c: Book, marks: Marks)
    requires Priced(b, marks) && b.positions == c.positions && b.shorts == c.shorts
    ensures Priced(c, marks)
  {
  }

  /** When one owner leaves completely, the claim of any other owner moves by at most two base units. */
  lemma LeavingMovesOthersByTwo(b: Book, leaver: Party, other: Party, marks: Marks)
    requires Sound(b) && Flat(b) && leaver != other
    requires Assoc.Get(b.investors, other, 0) > 0
    requires Withdraw(b, leaver, Assoc.Get(b.investors, leaver, 0), marks).Ok?
    ensures var after := Withdraw(b, leaver, Assoc.Get(b.investors, leaver, 0), marks).value.book;
            b.units > 0 && after.units > 0
            && ClaimOf(b, other) - 2 <= ClaimOf(after, other) <= ClaimOf(b, other) + 2
  {
    hide Mul, Withdraw, ShareOut, ClaimsOf, Sound, Flat, Priced, Quot;
    var u, w := Assoc.Get(b.investors, leaver, 0), Assoc.Get(b.investors, other, 0);
    WithdrawnAmount(b, leaver, u, marks);
    ClaimsNeedPrices(b, marks);
    var m := Withdraw(b, leaver, u, marks).value;
    WithdrawKeeps(b, leaver, u, marks);
    UnitsBounded(b, leaver);
    TwoOwnersOf(b, leaver, other);
    SamePrices(b, m.book, marks);
    RedemptionIsAvailable(b, leaver, u, marks);
    PayoutBounds(b, leaver, u, marks);
    ClaimIsTheReportedOne(b, leaver, marks);
    ClaimIsTheReportedOne(b, other, marks);
    ClaimIsTheReportedOne(m.book, other, marks);
    LeavingBound(Available(b), b.units, u, w, ClaimOf(b, leaver), ClaimOf(b, other), ClaimOf(m.book, other));
  }

  /** The arithmetic of entering: `w` old units keep their value when `u` are issued for `amount`. */
  lemma EnteringBound(pool: int, supply: int, amount: int, u: int, w: int, before: int, after: int)
    requires supply > 0 && u > 0 && w > 0
    requires Mul(pool, u) <= Mul(amount, supply)
    requires Mul(supply, before - 1) < Mul(w, pool)
    requires Mul(w, pool + amount) < Mul(supply + u, after + 1)
    ensures before - 1 <= after
  {
    hide Mul;
    var total := supply + u;
    MulSwap(supply, total, before - 1);
    MulLt(total, Mul(supply, before - 1), Mul(w, pool));
    MulSwap(total, w, pool);
    MulFlip(total, pool);
    MulAdd(pool, supply, u);
    MulFlip(pool, supply);
    MulFlip(amount, supply);
    MulAdd(supply, pool, amount);
    MulLe(w, Mul(total, pool), Mul(supply, pool + amount));
    MulSwap(w, supply, pool + amount);
    MulLt(supply, Mul(w, pool + amount), Mul(total, after + 1));
    MulCancel(supply, Mul(total, before - 1), Mul(total, after + 1));
    MulCancel(total, before - 1, after + 1);
  }

  /** A deposit by somebody else costs an owner at most one base unit of claim, and never any units. */
  lemma EnteringCostsOthersAtMostOne(b: Book, investor: Party, amount: int, other: Party, marks: Marks)
    requires Sound(b) && Flat(b) && investor != other
    requires Assoc.Get(b.investors, other, 0) > 0
    requires Deposit(b, investor, amount, marks).Ok?
    ensures var after := Deposit(b, investor, amount, marks).value.book;
            b.units > 0 && after.units > 0
            && ClaimOf(after, other) >= ClaimOf(b, other) - 1
            && Assoc.Get(after.investors, other, 0) == Assoc.Get(b.investors, other, 0)
  {
    hide Mul, Deposit, ShareOut, ClaimsOf, Sound, Flat, Priced;
    DepositNeedsPrices(b, investor, amount, marks);
    var m := Deposit(b, investor, amount, marks).value;
    DepositKeeps(b, investor, amount, marks);
    UnitsBounded(b, other);
    IssuedAtValue(b, investor, amount, marks);
    ClaimIsTheReportedOne(b, other, marks);
    ClaimIsTheReportedOne(m.book, other, marks);
    EnteringBound(Available(b), b.units, amount, m.units, Assoc.Get(b.investors, other, 0),
                  ClaimOf(b, other), ClaimOf(m.book, other));
  }
}
