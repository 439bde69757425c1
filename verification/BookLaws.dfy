/**
 What each operation does to the books of a strategy, field by field and in terms of what went in and came out: the
 bookings the accounting laws and the objects are held against.
 */
module BookLaws {
  import opened Prelude
  import opened Division
  import opened Claims
  import opened Ledger
  import opened LedgerLaws
  import opened LedgerRuns
  import Assoc

  // ---------------------------------------------------------------------------------------------
  // Fills

  ghost predicate OthersKept(before: map<Asset, Position>, after: map<Asset, Position>, asset: Asset) {
    && after.Keys == before.Keys + {asset}
    && forall a :: a in before && a != asset ==> after[a] == before[a]
  }

  /** Everything but cash, positions, shorts, profit and fees stays. */
  ghost predicate OnlyTrades(b: Book, after: Book) {
    && after.id == b.id && after.provider == b.provider && after.name == b.name && after.description == b.description
    && after.feeBps == b.feeBps && after.units == b.units && after.investors == b.investors
    && after.providerAccrual == b.providerAccrual && after.highWater == b.highWater && after.history == b.history
  }

  /** A purchase: the quantity comes in, and the cost of the position grows by exactly the cash that left, fee included. */
  ghost predicate Bought(b: Book, f: Fill, after: Book)
    requires f.asset.Some?
  {
    var p := PositionOf(b.positions, f.asset.value);
    && OthersKept(b.positions, after.positions, f.asset.value)
    && after.positions[f.asset.value].quantity == p.quantity + f.quantity
    && after.positions[f.asset.value].cost - p.cost == b.cash - after.cash == f.quote + f.fee
    && after.realizedPnl == b.realizedPnl && after.shorts == b.shorts
  }

  /** A sale: the sold part of the cost, rounded down, is released; cash received less that cost is realized. */
  ghost predicate Sold(b: Book, f: Fill, after: Book)
    requires f.asset.Some?
  {
    var p := PositionOf(b.positions, f.asset.value);
    && OthersKept(b.positions, after.positions, f.asset.value)
    && var left := after.positions[f.asset.value];
       var released := p.cost - left.cost;
    && left.quantity == p.quantity - f.quantity
    && after.cash - b.cash == f.quote - f.fee
    && IsFloor(released, p.cost * f.quantity, p.quantity)
    && after.realizedPnl - b.realizedPnl == after.cash - b.cash - released
    && after.shorts == b.shorts
  }

  /** A short sale: the collateral is put aside with what the sale brought, under a new lot; nothing is realized. */
  ghost predicate Shorted(b: Book, f: Fill, after: Book)
    requires f.asset.Some?
  {
    var collateral := b.cash - after.cash;
    && after.positions == b.positions && after.realizedPnl == b.realizedPnl
    && collateral == (match f.collateral case Some(c) => c case None => f.quote)
    && after.shorts
       == b.shorts + [(f.lotId, Lot(f.asset.value, f.quantity, collateral + f.quote - f.fee, collateral, f.quote - f.fee))]
  }

  /** A short close: the lot is gone, its escrow less the price of the debt comes back, collateral aside it is profit. */
  ghost predicate Covered(b: Book, f: Fill, after: Book)
    requires f.asset.Some?
  {
    && after.positions == b.positions
    && exists i :: 0 <= i < |b.shorts|
        && b.shorts[i].0 == f.lotId && b.shorts[i].1.asset == f.asset.value && b.shorts[i].1.debt == f.quantity
        && after.shorts == b.shorts[..i] + b.shorts[i + 1..]
        && after.cash - b.cash == b.shorts[i].1.escrow - f.quote - f.fee
        && after.realizedPnl - b.realizedPnl == after.cash - b.cash - b.shorts[i].1.collateral
  }

  ghost predicate Filled(b: Book, f: Fill, after: Book)
    requires f.asset.Some?
  {
    && OnlyTrades(b, after)
    && after.executionFees == b.executionFees + f.fee
    && match f.side
       case BUY => Bought(b, f, after)
       case SELL => Sold(b, f, after)
       case SHORT_OPEN => Shorted(b, f, after)
       case SHORT_CLOSE => Covered(b, f, after)
       case UnknownSide => false
  }

  /** What a strategy can bear by itself: cash beyond the accrual, the asset it holds, a lot of its own. */
  ghost predicate Bearable(b: Book, f: Fill) {
    match f.side
    case BUY => f.quote + f.fee + b.providerAccrual <= b.cash
    case SELL => f.asset.Some? && f.quantity <= PositionOf(b.positions, f.asset.value).quantity
    case SHORT_OPEN =>
      var collateral := match f.collateral case Some(c) => c case None => f.quote;
      && f.lotId != "" && (forall i :: 0 <= i < |b.shorts| ==> b.shorts[i].0 != f.lotId)
      && 0 < collateral && collateral + b.providerAccrual <= b.cash
      && (f.escrow.Some? ==> f.escrow.value == collateral + f.quote - f.fee)
    case SHORT_CLOSE =>
      exists i :: 0 <= i < |b.shorts|
        && b.shorts[i].0 == f.lotId && f.asset == Some(b.shorts[i].1.asset) && b.shorts[i].1.debt == f.quantity
        && b.cash + b.shorts[i].1.escrow - f.quote - f.fee >= b.providerAccrual
    case UnknownSide => false
  }

  lemma {:induction false} AbsentIff<V>(es: seq<(string, V)>, key: string)
    ensures Assoc.Has(es, key) <==> exists i :: 0 <= i < |es| && es[i].0 == key
  {
    if es != [] {
      AbsentIff(es[1..], key);
      if i :| 0 <= i < |es| && es[i].0 == key {
        assert i > 0 ==> es[1..][i - 1].0 == key;
      }
      if i :| 0 <= i < |es[1..]| && es[1..][i].0 == key {
        assert es[i + 1].0 == key;
      }
    }
  }

  lemma {:induction false} DeleteAt<V>(es: seq<(string, V)>, i: nat)
    requires Assoc.Distinct(es) && i < |es|
    ensures Assoc.Delete(es, es[i].0) == es[..i] + es[i + 1..]
    decreases i
  {
    if i == 0 {
      assert es[..0] == [];
    } else {
      Assoc.DistinctAt(es, 0, i);
      DeleteAt(es[1..], i - 1);
      assert es[1..][..i - 1] == es[1..i] && es[..i] == [es[0]] + es[1..i];
      assert es[1..][i..] == es[i + 1..];
    }
  }

  lemma BuyIsExact(b: Book, f: Fill)
    requires WellFormedFill(f) && f.side == BUY && Execute(b, f).Ok?
    ensures Filled(b, f, Execute(b, f).value)
  {
  }

  lemma SellIsExact(b: Book, f: Fill)
    requires Sound(b) && WellFormedFill(f) && f.side == SELL && Execute(b, f).Ok?
    ensures Filled(b, f, Execute(b, f).value)
  {
    hide IsFloor, Quot, Mul, Assoc.Sum, Assoc.Distinct;
    var p := PositionOf(b.positions, f.asset.value);
    MulMonotone(p.cost, 0, f.quantity);
    QuotIsFloor(p.cost * f.quantity, p.quantity);
  }

  lemma ShortIsExact(b: Book, f: Fill)
    requires WellFormedFill(f) && f.side == SHORT_OPEN && Execute(b, f).Ok?
    ensures Filled(b, f, Execute(b, f).value)
  {
    hide Assoc.Put;
    var margin := if f.collateral.None? then f.quote else f.collateral.value;
    PutNew(b.shorts, f.lotId, Lot(f.asset.value, f.quantity, margin + f.quote - f.fee, margin, f.quote - f.fee));
  }

  lemma CloseIsExact(b: Book, f: Fill)
    requires Sound(b) && WellFormedFill(f) && f.side == SHORT_CLOSE && Execute(b, f).Ok?
    ensures Filled(b, f, Execute(b, f).value)
  {
    hide Assoc.Delete, Assoc.Distinct, Assoc.Sum, Assoc.Get, Assoc.Has;
    var i := Assoc.IndexOf(b.shorts, f.lotId);
    DeleteAt(b.shorts, i);
    assert SoundLot(b.shorts[i].1);
  }

  /** Every accepted fill books exactly this, whatever its side. */
  lemma FillIsExact(b: Book, f: Fill)
    requires Sound(b) && WellFormedFill(f) && Execute(b, f).Ok?
    ensures Filled(b, f, Execute(b, f).value)
  {
    hide Sound, Filled;
    match f.side {
      case BUY => BuyIsExact(b, f);
      case SELL => SellIsExact(b, f);
      case SHORT_OPEN => ShortIsExact(b, f);
      case SHORT_CLOSE => CloseIsExact(b, f);
      case UnknownSide =>
    }
  }

  /** A fill is accepted exactly when the strategy can bear it by itself. */
  lemma FillAcceptedIff(b: Book, f: Fill)
    requires Sound(b) && WellFormedFill(f)
    ensures Execute(b, f).Ok? <==> Bearable(b, f)
  {
    hide Assoc.Put, Assoc.Delete, Assoc.Sum, Assoc.Distinct, Assoc.Get, Assoc.Has;
    AbsentIff(b.shorts, f.lotId);
    if f.side == SHORT_CLOSE {
      if Assoc.Has(b.shorts, f.lotId) {
        var k := Assoc.IndexOf(b.shorts, f.lotId);
        OnlyAt(b.shorts, k);
      }
    }
  }

  lemma OnlyAt<V>(es: seq<(string, V)>, k: nat)
    requires Assoc.Distinct(es) && k < |es|
    ensures forall i :: 0 <= i < |es| && es[i].0 == es[k].0 ==> i == k
  {
    forall i: nat | i < |es| && es[i].0 == es[k].0 ensures i == k {
      if i < k {
        Assoc.DistinctAt(es, i, k);
      } else if k < i {
        Assoc.DistinctAt(es, k, i);
      }
    }
  }

  // ---------------------------------------------------------------------------------------------
  // Capital and fees

  /** Only this owner's holding moved, by so many units. */
  ghost predicate HoldingMoved(before: seq<(Party, int)>, after: seq<(Party, int)>, owner: Party, units: int) {
    && (forall o :: Assoc.Has(after, o) <==> o == owner || Assoc.Has(before, o))
    && (forall o :: Assoc.Get(after, o, 0) == Assoc.Get(before, o, 0) + if o == owner then units else 0)
  }

  /** A new strategy: named as asked, and empty. */
  ghost predicate Opened(id: string, provider: Party, name: string, description: string, feeBps: int, b: Book) {
    && b.id == id && b.provider == provider && b.name == name && b.description == description && b.feeBps == feeBps
    && b.cash == 0 && b.positions == map[] && b.shorts == [] && b.units == 0 && b.investors == []
    && b.providerAccrual == 0 && b.highWater == UNIT_PRICE_SCALE && b.history == [] && b.realizedPnl == 0
    && b.executionFees == 0
  }

  /** A deposit into a flat strategy: units at par, or as many as the amount is worth at the present value. */
  ghost predicate Deposited(b: Book, investor: Party, m: Moved) {
    && m.amount > 0 && m.units > 0 && investor != 0
    && (if b.units == 0 then m.units == m.amount
        else Available(b) > 0 && IsFloor(m.units, m.amount * b.units, Available(b)))
    && HoldingMoved(b.investors, m.book.investors, investor, m.units)
    && m.book == b.(cash := b.cash + m.amount, units := b.units + m.units, investors := m.book.investors)
  }

  /** A redemption: the owner's claim on the pool, in proportion to the units; the last one out resets the mark. */
  ghost predicate Redeemed(b: Book, investor: Party, m: Moved)
    requires b.units != 0
  {
    var owned := Assoc.Get(b.investors, investor, 0);
    var claim := Assoc.Get(ShareOut(Available(b), b.units, b.investors), investor, 0);
    && 0 < m.units <= owned && IsFloor(m.amount, claim * m.units, owned) && m.amount <= Available(b)
    && HoldingMoved(b.investors, m.book.investors, investor, -m.units)
    && m.book == b.(cash := b.cash - m.amount, units := b.units - m.units, investors := m.book.investors,
                    highWater := if m.units == b.units then UNIT_PRICE_SCALE else b.highWater)
  }

  /** What a flat strategy is worth beyond the high-water mark. */
  ghost predicate IsProfit(profit: int, b: Book) {
    exists threshold :: IsCeiling(threshold, b.units * b.highWater, UNIT_PRICE_SCALE)
      && profit == if Available(b) > threshold then Available(b) - threshold else 0
  }

  /** The price of a unit of the pool, at the scale of the high-water mark. */
  ghost predicate IsUnitPrice(price: int, b: Book, fee: int) {
    IsCeiling(price, (Available(b) - fee) * UNIT_PRICE_SCALE, b.units)
  }

  /**
   A fee: the provider's part of the profit beyond the high-water mark, rounded down, moves to the accrual; the mark
   rises to the unit price that is left, rounded up; and the track gets one row.
   */
  ghost predicate FeeTaken(b: Book, m: Moved) {
    if b.units == 0 then m.book == b && m.amount == 0
    else
      && (exists profit :: IsProfit(profit, b) && IsFloor(m.amount, profit * b.feeBps, 10000))
      && (exists price :: IsUnitPrice(price, b, m.amount)
            && m.book.highWater == if price > b.highWater then price else b.highWater)
      && (exists unitPrice :: IsFloor(unitPrice, (Available(b) - m.amount) * SCALE, b.units)
            && m.book.history == b.history + [HistoryRow(unitPrice, b.cash, m.amount)])
      && m.book == b.(providerAccrual := b.providerAccrual + m.amount, highWater := m.book.highWater,
                      history := m.book.history)
  }

  ghost predicate PaidOut(b: Book, m: Moved) {
    m.amount == b.providerAccrual && m.book == b.(cash := b.cash - m.amount, providerAccrual := 0)
  }

  lemma PutMoves(investors: seq<(Party, int)>, owner: Party, units: int)
    ensures HoldingMoved(investors, Assoc.Put(investors, owner, Assoc.Get(investors, owner, 0) + units), owner, units)
  {
    var amount := Assoc.Get(investors, owner, 0) + units;
    forall o
      ensures Assoc.Has(Assoc.Put(investors, owner, amount), o) <==> o == owner || Assoc.Has(investors, o)
      ensures Assoc.Get(Assoc.Put(investors, owner, amount), o, 0)
        == Assoc.Get(investors, o, 0) + if o == owner then units else 0
    {
      Assoc.HasPut(investors, owner, amount, o);
    }
  }

  lemma DepositIsExact(b: Book, investor: Party, amount: int, marks: Marks)
    requires Sound(b) && Flat(b) && Deposit(b, investor, amount, marks).Ok?
    ensures var m := Deposit(b, investor, amount, marks).value;
      Deposited(b, investor, m) && m.amount == amount
  {
    hide Assoc.Put, HoldingMoved, IsFloor, Mul;
    FlatValue(b, marks);
    PutMoves(b.investors, investor, Deposit(b, investor, amount, marks).value.units);
    if b.units != 0 {
      MulMonotone(amount, 0, b.units);
      QuotIsFloor(amount * b.units, Available(b));
    }
  }

  lemma RedemptionIsExact(b: Book, investor: Party, units: int, marks: Marks)
    requires Sound(b) && Flat(b) && Withdraw(b, investor, units, marks).Ok?
    ensures b.units != 0
    ensures var m := Withdraw(b, investor, units, marks).value;
      Redeemed(b, investor, m) && m.units == units
  {
    hide Assoc.Put, Assoc.Get, Assoc.Sum, HoldingMoved, ClaimsOf, Quot, Mul;
    ClaimsNeedPrices(b, marks);
    PayoutBounds(b, investor, units, marks);
    PutMoves(b.investors, investor, -units);
    var owned := Assoc.Get(b.investors, investor, 0);
    ByName(Assoc.Get(ShareOut(Available(b), b.units, b.investors), investor, 0), units, owned,
           Withdraw(b, investor, units, marks).value.amount);
  }

  lemma ByName(claim: int, units: int, owned: int, amount: int)
    requires Mul(owned, amount) <= Mul(units, claim) < Mul(owned, amount + 1)
    ensures IsFloor(amount, claim * units, owned)
  {
    MulFlip(units, claim);
  }

  lemma ProfitIsExact(b: Book)
    requires Sound(b) && b.units > 0
    ensures var profit := if Available(b) > Threshold(b) then Available(b) - Threshold(b) else 0;
      IsProfit(profit, b) && IsFloor(Quot(profit * b.feeBps, 10000), profit * b.feeBps, 10000)
  {
    hide IsFloor, IsCeiling, Mul, Assoc.Sum, Assoc.Distinct, Flat;
    MulMonotone(b.units, 0, b.highWater);
    QuotIsCeiling(b.units * b.highWater, UNIT_PRICE_SCALE);
    var profit := if Available(b) > Threshold(b) then Available(b) - Threshold(b) else 0;
    assert IsProfit(profit, b);
    MulMonotone(profit, 0, b.feeBps);
    QuotIsFloor(profit * b.feeBps, 10000);
  }

  lemma PricesAreExact(b: Book, fee: int)
    requires b.units > 0 && fee <= Available(b)
    ensures IsUnitPrice(Quot((Available(b) - fee) * UNIT_PRICE_SCALE + b.units - 1, b.units), b, fee)
    ensures IsFloor(Quot((Available(b) - fee) * SCALE, b.units), (Available(b) - fee) * SCALE, b.units)
  {
    hide IsFloor, IsCeiling, Mul, Quot;
    QuotIsCeiling((Available(b) - fee) * UNIT_PRICE_SCALE, b.units);
    QuotIsFloor((Available(b) - fee) * SCALE, b.units);
  }

  lemma FeeIsExact(b: Book, marks: Marks)
    requires Sound(b) && Flat(b) && CrystallizeBook(b, marks).Ok?
    ensures var c := CrystallizeBook(b, marks).value;
      FeeTaken(b, Moved(c.book, 0, c.fee))
  {
    hide IsFloor, IsUnitPrice, IsProfit, Mul, Quot, Threshold, Sound, LotsPriced, PositionsValue, LotsValue, Flat;
    FlatValue(b, marks);
    SoundPool(b);
    if b.units > 0 {
      CrystallizeKeeps(b, marks);
      SoundPool(CrystallizeBook(b, marks).value.book);
      var c := CrystallizeBook(b, marks).value;
      ProfitIsExact(b);
      PricesAreExact(b, c.fee);
    }
  }

  lemma SoundPool(b: Book)
    requires Sound(b)
    ensures Available(b) >= 0 && b.units >= 0
  {
  }

  lemma PayoutIsExact(b: Book)
    requires PayBook(b).Ok?
    ensures PaidOut(b, PayBook(b).value)
  {
  }

  // ---------------------------------------------------------------------------------------------
  // The whole ledger

  /** What an accepted operation makes of the book it is for, and what it reports. */
  ghost predicate Booked(op: Op, b: Option<Book>, m: Moved) {
    match op
    case OpCreate(id, provider, name, description, feeBps) =>
      b.None? && m.units == 0 && m.amount == 0 && Opened(id, provider, name, description, feeBps, m.book)
    case OpAllocate(_, investor, amount, _, _) => b.Some? && m.amount == amount && Deposited(b.value, investor, m)
    case OpRedeem(_, investor, units, _, _) =>
      b.Some? && b.value.units != 0 && m.units == units && Redeemed(b.value, investor, m)
    case OpFill(f) => b.Some? && f.asset.Some? && m.units == 0 && m.amount == 0 && Filled(b.value, f, m.book)
    case OpCrystallize(_, _) => b.Some? && m.units == 0 && FeeTaken(b.value, m)
    case OpPay(_, _) => b.Some? && m.units == 0 && PaidOut(b.value, m)
  }

  function OrderOf(f: Fill): Order
    requires f.asset.Some?
  {
    Order(f.strategyId, f.orderId, f.asset.value, f.side, f.quantity, f.quote, f.fee, f.lotId)
  }

  /** The whole ledger after an accepted operation: one book moves, and its token is remembered. */
  ghost predicate Recorded(l: State, op: Op, done: Done) {
    var i := IndexOf(l.strategies, Target(op));
    var next := done.state;
    && next.protocolAccrual == l.protocolAccrual
    && next.flows == l.flows + (if TokenOf(op).RequestToken? then [TokenOf(op).request] else [])
    && next.orders == l.orders + (if op.OpFill? && op.fill.asset.Some? then [OrderOf(op.fill)] else [])
    && |next.strategies| == (if i < |l.strategies| then |l.strategies| else |l.strategies| + 1)
    && (forall j :: 0 <= j < |l.strategies| && j != i ==> next.strategies[j] == l.strategies[j])
    && Booked(op, BookOf(l.strategies, Target(op)), Moved(next.strategies[i], done.units, done.amount))
  }

  lemma EffectIsExact(b: Option<Book>, seen: bool, op: Op)
    requires Effect(b, seen, op).Some? && (b.Some? ==> Sound(b.value))
    ensures Booked(op, b, Effect(b, seen, op).value)
  {
    hide Sound, Flat, Filled, Deposited, Redeemed, FeeTaken, Execute, Deposit, Withdraw, CrystallizeBook,
      WellFormedFill;
    match op {
      case OpCreate(id, provider, name, description, feeBps) =>
      case OpAllocate(_, investor, amount, _, marks) => DepositIsExact(b.value, investor, amount, marks);
      case OpRedeem(_, investor, units, _, marks) => RedemptionIsExact(b.value, investor, units, marks);
      case OpFill(f) =>
        AssetIsKnown(f);
        FillIsExact(b.value, f);
      case OpCrystallize(_, marks) => FeeIsExact(b.value, marks);
      case OpPay(_, _) => PayoutIsExact(b.value);
    }
  }

  lemma AssetIsKnown(f: Fill)
    requires WellFormedFill(f)
    ensures f.asset.Some?
  {
  }

  /** Every accepted operation of a sound ledger records exactly this, and nothing else. */
  lemma StepIsExact(l: State, op: Op)
    requires SoundState(l) && Step(l, op).Ok?
    ensures Recorded(l, op, Step(l, op).value)
  {
    hide Sound, Booked, Effect, NoRepeats, SoundBooks, Step, BookOf, Store;
    var b, seen := BookOf(l.strategies, Target(op)), Seen(l, TokenOf(op));
    StepIsEffect(l, op);
    BookOfSound(l.strategies, Target(op));
    EffectIsExact(b, seen, op);
    var m := Effect(b, seen, op).value;
    StoreAt(l.strategies, m.book);
    TokensRecorded(l, op);
  }

  lemma TokensRecorded(l: State, op: Op)
    requires Step(l, op).Ok?
    ensures var next := Step(l, op).value.state;
      && next.flows == l.flows + (if TokenOf(op).RequestToken? then [TokenOf(op).request] else [])
      && next.orders == l.orders + (if op.OpFill? && op.fill.asset.Some? then [OrderOf(op.fill)] else [])
      && next.protocolAccrual == l.protocolAccrual
  {
    hide Execute, CrystallizeBook, Deposit, Withdraw, PayBook, IndexOf;
  }

  /** Whether a strategy as it stands can take the operation. */
  ghost predicate Acceptable(b: Option<Book>, op: Op) {
    match op
    case OpCreate(_, provider, name, _, feeBps) => b.None? && provider != 0 && name != "" && 0 <= feeBps <= 3000
    case OpAllocate(_, investor, amount, _, marks) =>
      && b.Some? && Flat(b.value) && Priced(b.value, marks) && investor != 0 && amount > 0
      && (b.value.units == 0 || (Available(b.value) > 0 && Available(b.value) <= amount * b.value.units))
    case OpRedeem(_, investor, units, _, marks) =>
      b.Some? && Flat(b.value) && Priced(b.value, marks) && 0 < units <= Assoc.Get(b.value.investors, investor, 0)
    case OpFill(f) => b.Some? && WellFormedFill(f) && Bearable(b.value, f)
    case OpCrystallize(_, marks) => b.Some? && Flat(b.value) && Priced(b.value, marks)
    case OpPay(_, _) => b.Some? && Flat(b.value)
  }

  /** The strategy can take the operation, and its request or order id is new and not empty. */
  ghost predicate CanTake(l: State, op: Op) {
    && Acceptable(BookOf(l.strategies, Target(op)), op)
    && (TokenOf(op).RequestToken? ==> TokenOf(op).request != "")
    && !Seen(l, TokenOf(op))
  }

  /** An operation is accepted exactly when it can be taken. */
  lemma StepAcceptedIff(l: State, op: Op)
    requires SoundState(l)
    ensures Step(l, op).Ok? <==> CanTake(l, op)
  {
    hide Sound, NoRepeats, SoundBooks, Step, BookOf, Store, Bearable, Execute, Withdraw, CrystallizeBook, PayBook,
      Deposit, WellFormedFill;
    var b := BookOf(l.strategies, Target(op));
    StepIsEffect(l, op);
    BookOfSound(l.strategies, Target(op));
    if b.Some? {
      match op {
        case OpAllocate(_, investor, amount, _, marks) =>
          if Flat(b.value) {
            DepositAcceptedIff(b.value, investor, amount, marks);
          }
        case OpRedeem(_, investor, units, _, marks) =>
          if Flat(b.value) {
            RedemptionIsAvailable(b.value, investor, units, marks);
          }
        case OpFill(f) =>
          if WellFormedFill(f) {
            FillAcceptedIff(b.value, f);
          }
        case OpCrystallize(_, marks) => FeeAcceptedIff(b.value, marks);
        case OpPay(_, _) => PayoutIsAvailable(b.value);
        case OpCreate(_, _, _, _, _) =>
      }
    }
  }

  lemma FeeAcceptedIff(b: Book, marks: Marks)
    ensures CrystallizeBook(b, marks).Ok? <==> Priced(b, marks)
  {
  }

  lemma DepositAcceptedIff(b: Book, investor: Party, amount: int, marks: Marks)
    requires Sound(b) && Flat(b)
    ensures Deposit(b, investor, amount, marks).Ok? <==>
      && Priced(b, marks) && investor != 0 && amount > 0
      && (b.units == 0 || (Available(b) > 0 && Available(b) <= amount * b.units))
  {
    hide Assoc.Put, Assoc.Sum, Assoc.Distinct;
    FlatValue(b, marks);
    if b.units > 0 && Available(b) > 0 && amount > 0 {
      MulMonotone(amount, 0, b.units);
      if Available(b) <= amount * b.units {
        FloorAtLeast(amount * b.units, Available(b), 1);
      } else {
        FloorAtMost(amount * b.units, Available(b), 0);
      }
    }
  }

  // ---------------------------------------------------------------------------------------------
  // Over whole histories

  datatype Trades = Trades(fees: int, bought: int, sold: int)

  const NO_TRADES := Trades(0, 0, 0)

  function AddTrades(a: Trades, b: Trades): Trades {
    Trades(a.fees + b.fees, a.bought + b.bought, a.sold + b.sold)
  }

  /** What one operation, if it is accepted, trades of an asset for a strategy. */
  function TradesOf(l: State, op: Op, id: string, asset: Asset): Trades {
    if !op.OpFill? || Target(op) != id || Step(l, op).Err? then NO_TRADES
    else
      var f := op.fill;
      Trades(f.fee, if f.side == BUY && f.asset == Some(asset) then f.quantity else 0,
             if f.side == SELL && f.asset == Some(asset) then f.quantity else 0)
  }

  function AllTrades(l: State, ops: seq<Op>, id: string, asset: Asset): Trades
    decreases ops
  {
    if ops == [] then NO_TRADES
    else AddTrades(TradesOf(l, ops[0], id, asset), AllTrades(Apply(l, ops[0]), ops[1..], id, asset))
  }

  /** Fees and quantity of a strategy, none where it does not exist yet. */
  function FeesIn(b: Option<Book>): int {
    if b.None? then 0 else b.value.executionFees
  }

  function HeldIn(b: Option<Book>, asset: Asset): int {
    if b.None? then 0 else PositionOf(b.value.positions, asset).quantity
  }

  lemma BookedTrades(op: Op, b: Option<Book>, m: Moved, asset: Asset)
    requires Booked(op, b, m)
    ensures FeesIn(Some(m.book)) == FeesIn(b) + if op.OpFill? then op.fill.fee else 0
    ensures HeldIn(Some(m.book), asset) == HeldIn(b, asset)
      + (if op.OpFill? && op.fill.side == BUY && op.fill.asset == Some(asset) then op.fill.quantity else 0)
      - (if op.OpFill? && op.fill.side == SELL && op.fill.asset == Some(asset) then op.fill.quantity else 0)
  {
    hide IsFloor, IsProfit, IsUnitPrice, HoldingMoved, Available;
  }

  lemma StepTrades(l: State, op: Op, id: string, asset: Asset)
    requires SoundState(l)
    ensures var t := TradesOf(l, op, id, asset);
      && FeesIn(BookOf(Apply(l, op).strategies, id)) == FeesIn(BookOf(l.strategies, id)) + t.fees
      && HeldIn(BookOf(Apply(l, op).strategies, id), asset) == HeldIn(BookOf(l.strategies, id), asset) + t.bought - t.sold
  {
    hide Sound, Booked, Effect, NoRepeats, SoundBooks, Step, BookOf, Store, FeesIn, HeldIn;
    var b, seen := BookOf(l.strategies, Target(op)), Seen(l, TokenOf(op));
    StepIsEffect(l, op);
    if Step(l, op).Ok? {
      BookOfSound(l.strategies, Target(op));
      EffectIsExact(b, seen, op);
      var m := Effect(b, seen, op).value;
      BookOfStore(l.strategies, m.book, id);
      BookedTrades(op, b, m, asset);
    }
  }

  /**
   After any history the recorded execution fees of a strategy are the sum of the fees of its accepted fills, and what
   it holds of an asset is what it bought less what it sold.
   */
  lemma {:induction false} TradesAddUp(l: State, ops: seq<Op>, id: string, asset: Asset)
    requires SoundState(l)
    ensures var t := AllTrades(l, ops, id, asset);
      && FeesIn(BookOf(Run(l, ops).strategies, id)) == FeesIn(BookOf(l.strategies, id)) + t.fees
      && HeldIn(BookOf(Run(l, ops).strategies, id), asset) == HeldIn(BookOf(l.strategies, id), asset) + t.bought - t.sold
    decreases ops
  {
    hide Step, Apply, SoundState, BookOf, FeesIn, HeldIn, TradesOf;
    if ops != [] {
      StepKeeps(l, ops[0], id);
      StepTrades(l, ops[0], id, asset);
      TradesAddUp(Apply(l, ops[0]), ops[1..], id, asset);
    }
  }

  /** Buying what was not held and selling all of it realizes exactly what cash gained or lost. */
  lemma RoundTripRealizesCash(b: Book, buy: Fill, sell: Fill)
    requires Sound(b) && WellFormedFill(buy) && WellFormedFill(sell)
    requires buy.side == BUY && sell.side == SELL && sell.asset == buy.asset && sell.quantity == buy.quantity
    requires PositionOf(b.positions, buy.asset.value) == Position(0, 0)
    requires Execute(b, buy).Ok? && Execute(Execute(b, buy).value, sell).Ok?
    ensures var after := Execute(Execute(b, buy).value, sell).value;
      && after.realizedPnl - b.realizedPnl == after.cash - b.cash == sell.quote - sell.fee - buy.quote - buy.fee
      && PositionOf(after.positions, buy.asset.value) == Position(0, 0)
  {
    hide Execute, Sound, IsFloor;
    var held := Execute(b, buy).value;
    FillIsExact(b, buy);
    ExecuteKeeps(b, buy);
    FillIsExact(held, sell);
    WholeIsReleased(held.positions[buy.asset.value].cost, buy.quantity,
                    held.positions[buy.asset.value].cost - Execute(held, sell).value.positions[buy.asset.value].cost);
  }

  lemma WholeIsReleased(cost: int, quantity: int, released: int)
    requires quantity > 0 && IsFloor(released, cost * quantity, quantity)
    ensures released == cost
  {
    if released >= cost + 1 {
      MulMonotone(quantity, cost + 1, released);
    } else if released <= cost - 1 {
      MulMonotone(quantity, released + 1, cost);
    }
  }
}
