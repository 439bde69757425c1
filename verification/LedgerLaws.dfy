/** What every accepted ledger operation keeps: solvency, the register of units, and the cost accounting. */
module LedgerLaws {
  import opened Prelude
  import opened Division
  import opened Claims
  import opened Ledger
  import Assoc

  // ---------------------------------------------------------------------------------------------
  // The invariant of one book

  ghost predicate SoundPosition(p: Position) {
    p.quantity >= 0 && p.cost >= 0 && (p.quantity > 0 <==> p.cost > 0)
  }

  ghost predicate SoundLot(lot: Lot) {
    lot.debt > 0 && lot.collateral > 0 && lot.entryProceeds > 0 && lot.escrow == lot.collateral + lot.entryProceeds
  }

  ghost predicate SoundRegister(units: int, investors: seq<(Party, int)>) {
    && units >= 0
    && Assoc.Distinct(investors)
    && (forall i :: 0 <= i < |investors| ==> investors[i].1 >= 0)
    && Assoc.Sum(investors, AmountOf) == units
  }

  /** Nothing in the book may be owed to nobody: without units it is flat, empty and back at par. */
  ghost predicate Ownerless(b: Book) {
    Flat(b) && b.cash == b.providerAccrual && b.highWater == UNIT_PRICE_SCALE
  }

  ghost predicate Sound(b: Book) {
    && 0 <= b.feeBps <= 3000
    && 0 <= b.providerAccrual <= b.cash
    && (forall a :: a in b.positions ==> SoundPosition(b.positions[a]))
    && Assoc.Distinct(b.shorts)
    && (forall i :: 0 <= i < |b.shorts| ==> SoundLot(b.shorts[i].1))
    && SoundRegister(b.units, b.investors)
    && b.highWater >= UNIT_PRICE_SCALE
    && b.executionFees >= 0
    && (b.units == 0 ==> Ownerless(b))
  }

  // ---------------------------------------------------------------------------------------------
  // Capital at cost: cash, what open positions were bought for, what open shorts have locked

  ghost function CostOf(positions: map<Asset, Position>, asset: Asset): int {
    PositionOf(positions, asset).cost
  }

  ghost function PositionsCost(positions: map<Asset, Position>): int {
    CostOf(positions, BTC) + CostOf(positions, ETH) + CostOf(positions, MON) + CostOf(positions, SOL)
  }

  function CollateralOf(id: string, lot: Lot): int {
    lot.collateral
  }

  ghost function Capital(b: Book): int {
    b.cash + PositionsCost(b.positions) + Assoc.Sum(b.shorts, CollateralOf)
  }

  // ---------------------------------------------------------------------------------------------
  // Flat books

  lemma FlatValue(b: Book, marks: Marks)
    requires Flat(b)
    ensures Value(b, marks) == b.cash
  {
    forall a | a in b.positions
      ensures PositionValue(b.positions, marks, a) == 0
    {
      assert b.positions[a].quantity * MarkOf(marks, a) == 0;
    }
  }

  /** The equity of a flat strategy does not depend on the marks: moved prices can at most be missing. */
  lemma FlatEquityIgnoresMarks(b: Book, earlier: Marks, now: Marks)
    requires Flat(b) && Priced(b, earlier) && Priced(b, now)
    ensures Equity(b, earlier) == Equity(b, now) == Ok(b.cash)
    ensures InvestorPool(b, earlier) == InvestorPool(b, now) == Ok(Available(b))
    ensures ClaimsOf(b, earlier) == ClaimsOf(b, now)
  {
    FlatValue(b, earlier);
    FlatValue(b, now);
  }

  lemma RegisterOf(b: Book, pool: int)
    requires Sound(b) && b.units > 0 && pool >= 0
    ensures Register(pool, b.units, b.investors)
  {
  }

  /** A flat strategy can always name its claims; together they are its cash less the provider's accrual. */
  lemma FlatClaims(b: Book, marks: Marks)
    requires Sound(b) && Flat(b) && Priced(b, marks)
    ensures ClaimsOf(b, marks) == Ok(if b.units == 0 then [] else ShareOut(Available(b), b.units, b.investors))
    ensures Assoc.Sum(ClaimsOf(b, marks).value, AmountOf) == Available(b)
  {
    FlatValue(b, marks);
    if b.units > 0 {
      RegisterOf(b, Available(b));
      ClaimsSumToPool(Available(b), b.units, b.investors);
    }
  }

  lemma UnitsBounded(b: Book, owner: Party)
    requires Sound(b)
    ensures 0 <= Assoc.Get(b.investors, owner, 0) <= b.units
  {
    if Assoc.Has(b.investors, owner) {
      var i := Assoc.IndexOf(b.investors, owner);
      Assoc.SumBounds(b.investors, AmountOf, i);
    } else {
      Absent(b.investors, owner);
      Assoc.SumNonNegative(b.investors, AmountOf);
    }
  }

  lemma PutUnits(investors: seq<(Party, int)>, owner: Party, amount: int)
    requires Assoc.Distinct(investors) && amount >= 0
    requires forall i :: 0 <= i < |investors| ==> investors[i].1 >= 0
    ensures var next := Assoc.Put(investors, owner, amount);
            && Assoc.Distinct(next)
            && (forall i :: 0 <= i < |next| ==> next[i].1 >= 0)
            && Assoc.Sum(next, AmountOf) == Assoc.Sum(investors, AmountOf) - Assoc.Get(investors, owner, 0) + amount
  {
    var next := Assoc.Put(investors, owner, amount);
    Assoc.DistinctPut(investors, owner, amount);
    Assoc.SumPut(investors, owner, amount, 0, AmountOf);
    if !Assoc.Has(investors, owner) {
      Absent(investors, owner);
    }
    PutNonNegative(investors, owner, amount);
  }

  lemma {:induction false} PutNonNegative(investors: seq<(Party, int)>, owner: Party, amount: int)
    requires amount >= 0
    requires forall i :: 0 <= i < |investors| ==> investors[i].1 >= 0
    ensures forall i :: 0 <= i < |Assoc.Put(investors, owner, amount)| ==> Assoc.Put(investors, owner, amount)[i].1 >= 0
  {
    if investors != [] && investors[0].0 != owner {
      PutNonNegative(investors[1..], owner, amount);
    }
  }

  // ---------------------------------------------------------------------------------------------
  // Each operation on one book

  lemma NewBookSound(id: string, provider: Party, name: string, description: string, feeBps: int)
    requires 0 <= feeBps <= 3000
    ensures var b := NewBook(id, provider, name, description, feeBps);
            Sound(b) && Capital(b) == 0 && b.realizedPnl == 0
  {
  }

  lemma DepositKeeps(b: Book, investor: Party, amount: int, marks: Marks)
    requires Sound(b) && Flat(b) && Deposit(b, investor, amount, marks).Ok?
    ensures var m := Deposit(b, investor, amount, marks).value;
            && Sound(m.book) && Flat(m.book)
            && Capital(m.book) == Capital(b) + amount
            && m.book.realizedPnl == b.realizedPnl
            && m.units > 0 && m.amount == amount > 0
            && m.book.units == b.units + m.units
            && Assoc.Get(m.book.investors, investor, 0) == Assoc.Get(b.investors, investor, 0) + m.units
            && (forall o :: o != investor ==> Assoc.Get(m.book.investors, o, 0) == Assoc.Get(b.investors, o, 0))
  {
    var m := Deposit(b, investor, amount, marks).value;
    UnitsBounded(b, investor);
    var owned := Assoc.Get(b.investors, investor, 0);
    PutUnits(b.investors, investor, owned + m.units);
    forall o
      ensures Assoc.Get(m.book.investors, o, 0) ==
              if o == investor then owned + m.units else Assoc.Get(b.investors, o, 0)
    {
      Assoc.HasPut(b.investors, investor, owned + m.units, o);
    }
  }

  lemma WithdrawKeeps(b: Book, investor: Party, units: int, marks: Marks)
    requires Sound(b) && Flat(b) && Withdraw(b, investor, units, marks).Ok?
    ensures var m := Withdraw(b, investor, units, marks).value;
            && Sound(m.book) && Flat(m.book)
            && Capital(m.book) == Capital(b) - m.amount
            && m.book.realizedPnl == b.realizedPnl
            && 0 <= m.amount <= Available(b) && m.units == units
            && m.book.units == b.units - units
            && Assoc.Get(m.book.investors, investor, 0) == Assoc.Get(b.investors, investor, 0) - units
            && (forall o :: o != investor ==> Assoc.Get(m.book.investors, o, 0) == Assoc.Get(b.investors, o, 0))
  {
    hide ClaimsOf, Assoc.Put, Assoc.Sum, Assoc.Distinct, ShareOut, PositionsCost, Quot;
    var m := Withdraw(b, investor, units, marks).value;
    var owned := Assoc.Get(b.investors, investor, 0);
    UnitsBounded(b, investor);
    ClaimsNeedPrices(b, marks);
    PayoutBounds(b, investor, units, marks);
    PutUnits(b.investors, investor, owned - units);
    forall o
      ensures Assoc.Get(m.book.investors, o, 0) ==
              if o == investor then owned - units else Assoc.Get(b.investors, o, 0)
    {
      Assoc.HasPut(b.investors, investor, owned - units, o);
    }
  }

  lemma ClaimsNeedPrices(b: Book, marks: Marks)
    ensures ClaimsOf(b, marks).Ok? ==> Priced(b, marks)
  {
  }

  /** The claim that backs a redemption, and the part of it that the redeemed units stand for. */
  lemma PayoutBounds(b: Book, investor: Party, units: int, marks: Marks)
    requires Sound(b) && Flat(b) && Priced(b, marks)
    requires 0 < units <= Assoc.Get(b.investors, investor, 0)
    ensures ClaimsOf(b, marks).Ok?
    ensures var owned := Assoc.Get(b.investors, investor, 0);
            var claim := Assoc.Get(ClaimsOf(b, marks).value, investor, 0);
            var amount := Quot(claim * units, owned);
            && 0 <= amount <= claim <= Available(b)
            && b.units > 0
            && claim == Assoc.Get(ShareOut(Available(b), b.units, b.investors), investor, 0)
            && (units == owned ==> amount == claim)
            && (units == b.units ==> amount == Available(b))
            && Mul(owned, amount) <= Mul(units, claim) < Mul(owned, amount + 1)
  {
    var owned := Assoc.Get(b.investors, investor, 0);
    UnitsBounded(b, investor);
    FlatClaims(b, marks);
    RegisterOf(b, Available(b));
    ClaimsAreOfHolders(Available(b), b.units, b.investors, investor);
    var claim := Assoc.Get(ClaimsOf(b, marks).value, investor, 0);
    PartOfClaim(claim, units, owned);
    if units == b.units {
      ClaimIsNearest(Available(b), b.units, b.investors, investor);
      WholePool(claim, Available(b), b.units);
    }
  }

  lemma PartOfClaim(claim: int, units: int, owned: int)
    requires claim >= 0 && 0 < units <= owned
    ensures var amount := Quot(claim * units, owned);
            && 0 <= amount <= claim
            && (units == owned ==> amount == claim)
            && Mul(owned, amount) <= Mul(units, claim) < Mul(owned, amount + 1)
  {
    MulMonotone(claim, 0, units);
    MulMonotone(claim, units, owned);
    FloorBounds(claim * units, owned);
    FloorAtLeast(claim * units, owned, 0);
    assert owned * (claim + 1) == claim * owned + owned;
    FloorAtMost(claim * units, owned, claim);
    if units == owned {
      FloorUnique(claim * units, owned, claim);
    }
  }

  lemma WholePool(claim: int, pool: int, total: int)
    requires total > 0 && Nearest(claim, pool, total, total)
    ensures claim == pool
  {
    if claim >= pool + 1 {
      MulMonotone(total, pool, claim - 1);
    } else if claim <= pool - 1 {
      MulMonotone(total, claim + 1, pool);
    }
  }

  lemma BuyKeeps(b: Book, f: Fill)
    requires Sound(b) && WellFormedFill(f) && f.side == BUY && Execute(b, f).Ok?
    ensures var b' := Execute(b, f).value;
            Sound(b') && Capital(b') - b'.realizedPnl == Capital(b) - b.realizedPnl
  {
    hide Assoc.Sum, Assoc.Distinct, PositionsCost;
    assert b.units > 0;
    var p := PositionOf(b.positions, f.asset.value);
    SetCost(b.positions, f.asset.value, Position(p.quantity + f.quantity, p.cost + f.quote + f.fee));
  }

  lemma SellKeeps(b: Book, f: Fill)
    requires Sound(b) && WellFormedFill(f) && f.side == SELL && Execute(b, f).Ok?
    ensures var b' := Execute(b, f).value;
            Sound(b') && Capital(b') - b'.realizedPnl == Capital(b) - b.realizedPnl
  {
    hide Assoc.Sum, Assoc.Distinct, PositionsCost;
    var asset := f.asset.value;
    var p := PositionOf(b.positions, asset);
    assert b.units > 0;
    BasisBounds(p.cost, f.quantity, p.quantity);
    var basis := Quot(p.cost * f.quantity, p.quantity);
    SetCost(b.positions, asset, Position(p.quantity - f.quantity, p.cost - basis));
  }

  lemma SetCost(positions: map<Asset, Position>, asset: Asset, p: Position)
    ensures PositionsCost(positions[asset := p]) == PositionsCost(positions) - CostOf(positions, asset) + p.cost
  {
    match asset {
      case BTC =>
      case ETH =>
      case MON =>
      case SOL =>
    }
  }

  /** Selling everything releases the whole cost; selling a part always leaves a positive cost behind. */
  lemma BasisBounds(cost: int, sold: int, held: int)
    requires cost > 0 && 0 < sold <= held
    ensures var basis := Quot(cost * sold, held);
            0 <= basis <= cost && (basis == cost <==> sold == held)
  {
    MulMonotone(cost, 0, sold);
    FloorAtLeast(cost * sold, held, 0);
    if sold == held {
      FloorUnique(cost * sold, held, cost);
    } else {
      MulMonotone(cost, sold, held - 1);
      assert held * cost == cost * (held - 1) + cost;
      FloorAtMost(cost * sold, held, cost - 1);
    }
  }

  lemma OpenShortKeeps(b: Book, f: Fill)
    requires Sound(b) && WellFormedFill(f) && f.side == SHORT_OPEN && Execute(b, f).Ok?
    ensures var b' := Execute(b, f).value;
            Sound(b') && Capital(b') - b'.realizedPnl == Capital(b) - b.realizedPnl
  {
    var margin := if f.collateral.None? then f.quote else f.collateral.value;
    assert b.units > 0;
    var lot := Lot(f.asset.value, f.quantity, margin + f.quote - f.fee, margin, f.quote - f.fee);
    assert Execute(b, f).value.shorts == Assoc.Put(b.shorts, f.lotId, lot);
    PutNew(b.shorts, f.lotId, lot);
    Assoc.DistinctPut(b.shorts, f.lotId, lot);
    Assoc.SumAppend(b.shorts, [(f.lotId, lot)], CollateralOf);
  }

  lemma {:induction false} PutNew<K, V>(es: seq<(K, V)>, key: K, value: V)
    requires !Assoc.Has(es, key)
    ensures Assoc.Put(es, key, value) == es + [(key, value)]
  {
    if es != [] {
      PutNew(es[1..], key, value);
      assert es == [es[0]] + es[1..];
    }
  }

  lemma CloseShortKeeps(b: Book, f: Fill)
    requires Sound(b) && WellFormedFill(f) && f.side == SHORT_CLOSE && Execute(b, f).Ok?
    ensures var b' := Execute(b, f).value;
            Sound(b') && Capital(b') - b'.realizedPnl == Capital(b) - b.realizedPnl
  {
    assert b.units > 0;
    var i := Assoc.IndexOf(b.shorts, f.lotId);
    Assoc.DistinctDelete(b.shorts, f.lotId);
    Assoc.SumDelete(b.shorts, f.lotId, NO_LOT, CollateralOf);
    DeleteKeepsSound(b.shorts, f.lotId);
  }

  lemma {:induction false} DeleteKeepsSound(shorts: seq<(string, Lot)>, id: string)
    requires forall i :: 0 <= i < |shorts| ==> SoundLot(shorts[i].1)
    ensures forall i :: 0 <= i < |Assoc.Delete(shorts, id)| ==> SoundLot(Assoc.Delete(shorts, id)[i].1)
  {
    if shorts != [] && shorts[0].0 != id {
      DeleteKeepsSound(shorts[1..], id);
    }
  }

  lemma ExecuteKeeps(b: Book, f: Fill)
    requires Sound(b) && WellFormedFill(f) && Execute(b, f).Ok?
    ensures var b' := Execute(b, f).value;
            && Sound(b')
            && Capital(b') - b'.realizedPnl == Capital(b) - b.realizedPnl
            && b'.investors == b.investors && b'.units == b.units && b'.id == b.id
            && b'.providerAccrual == b.providerAccrual && b'.highWater == b.highWater
  {
    match f.side {
      case BUY => BuyKeeps(b, f);
      case SELL => SellKeeps(b, f);
      case SHORT_OPEN => OpenShortKeeps(b, f);
      case SHORT_CLOSE => CloseShortKeeps(b, f);
      case UnknownSide =>
    }
  }

  lemma CrystallizeKeeps(b: Book, marks: Marks)
    requires Sound(b) && Flat(b) && CrystallizeBook(b, marks).Ok?
    ensures var c := CrystallizeBook(b, marks).value;
            && Sound(c.book) && Flat(c.book)
            && Capital(c.book) == Capital(b) && c.book.realizedPnl == b.realizedPnl
            && 0 <= c.fee && c.book.providerAccrual == b.providerAccrual + c.fee
            && Available(c.book) == Available(b) - c.fee
            && c.book.investors == b.investors && c.book.units == b.units && c.book.cash == b.cash
            && c.book.highWater >= b.highWater
  {
    FlatValue(b, marks);
    if b.units > 0 {
      var threshold := Threshold(b);
      MulMonotone(b.units, 0, b.highWater);
      assert threshold >= 0;
      var profit := if Available(b) > threshold then Available(b) - threshold else 0;
      FeeBounds(profit, b.feeBps);
    }
  }

  lemma FeeBounds(profit: int, feeBps: int)
    requires profit >= 0 && 0 <= feeBps <= 3000
    ensures 0 <= Quot(profit * feeBps, 10000) <= profit
    ensures profit <= 3 ==> Quot(profit * feeBps, 10000) == 0
  {
    MulMonotone(profit, 0, feeBps);
    MulMonotone(profit, feeBps, 3000);
  }

  lemma PayKeeps(b: Book)
    requires Sound(b) && Flat(b) && PayBook(b).Ok?
    ensures var m := PayBook(b).value;
            && Sound(m.book) && Flat(m.book)
            && Capital(m.book) == Capital(b) - m.amount && m.book.realizedPnl == b.realizedPnl
            && m.amount == b.providerAccrual && m.book.providerAccrual == 0
            && Available(m.book) == Available(b)
            && m.book.investors == b.investors && m.book.units == b.units
  {
  }

  // ---------------------------------------------------------------------------------------------
  // Availability

  /**
   When a flat strategy accepts a redemption: exactly when the owner has the units and prices are known.
   In particular it is never refused for lack of cash, and never because the strategy is insolvent.
   */
  lemma RedemptionIsAvailable(b: Book, investor: Party, units: int, marks: Marks)
    requires Sound(b) && Flat(b)
    ensures Withdraw(b, investor, units, marks).Ok? <==>
            Priced(b, marks) && 0 < units <= Assoc.Get(b.investors, investor, 0)
  {
    if Priced(b, marks) && 0 < units <= Assoc.Get(b.investors, investor, 0) {
      PayoutBounds(b, investor, units, marks);
    }
  }

  /** The provider's accrual is always covered by cash. */
  lemma PayoutIsAvailable(b: Book)
    requires Sound(b)
    ensures PayBook(b).Ok? && PayBook(b).value.amount == b.providerAccrual
  {
  }
}
