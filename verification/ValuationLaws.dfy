/** What a strategy is worth: position by position and lot by lot, and how that moves with prices and fills. */
module ValuationLaws {
  import opened Prelude
  import opened Division
  import opened Ledger
  import opened LedgerLaws
  import opened LedgerRuns
  import opened BookLaws
  import opened Reconciliation
  import Assoc

  // ---------------------------------------------------------------------------------------------
  // The definition

  /** What a quantity is worth at a price per whole unit, rounded down. */
  ghost predicate IsWorth(w: int, quantity: int, mark: int) {
    IsFloor(w, quantity * mark, SCALE)
  }

  /** A worth for every position and for every debt. */
  ghost predicate Appraised(
      positions: Asset -> int, shorts: seq<(string, Lot)>, marks: Marks, held: Asset -> int, owed: seq<int>)
  {
    && (forall a :: IsWorth(held(a), positions(a), MarkOf(marks, a)))
    && |owed| == |shorts|
    && (forall i :: 0 <= i < |owed| ==> IsWorth(owed[i], shorts[i].1.debt, MarkOf(marks, shorts[i].1.asset)))
  }

  function QuantitiesOf(b: Book): Asset -> int {
    (a: Asset) => PositionOf(b.positions, a).quantity
  }

  /** Escrows less what is owed against them. */
  function NetOf(shorts: seq<(string, Lot)>, owed: seq<int>): int
    requires |owed| == |shorts|
  {
    if shorts == [] then 0 else shorts[0].1.escrow - owed[0] + NetOf(shorts[1..], owed[1..])
  }

  function Total(held: Asset -> int): int {
    held(BTC) + held(ETH) + held(MON) + held(SOL)
  }

  lemma WorthIsWorth(quantity: int, mark: int)
    requires quantity >= 0 && (quantity == 0 || mark >= 0)
    ensures IsWorth(Worth(quantity, mark), quantity, mark)
    ensures forall w :: IsWorth(w, quantity, mark) ==> w == Worth(quantity, mark)
  {
    if quantity == 0 {
      assert quantity * mark == 0;
    } else {
      MulMonotone(quantity, 0, mark);
    }
    QuotIsFloor(quantity * mark, SCALE);
  }

  ghost predicate Owing(shorts: seq<(string, Lot)>, marks: Marks) {
    forall i :: 0 <= i < |shorts| ==> shorts[i].1.debt >= 0 && MarkOf(marks, shorts[i].1.asset) >= 0
  }

  lemma {:induction false} LotsAreNet(shorts: seq<(string, Lot)>, marks: Marks, owed: seq<int>)
    requires Owing(shorts, marks) && |owed| == |shorts|
    requires forall i :: 0 <= i < |owed| ==> IsWorth(owed[i], shorts[i].1.debt, MarkOf(marks, shorts[i].1.asset))
    ensures LotsValue(shorts, marks) == NetOf(shorts, owed)
  {
    hide IsWorth, Worth;
    if shorts != [] {
      WorthIsWorth(shorts[0].1.debt, MarkOf(marks, shorts[0].1.asset));
      LotsAreNet(shorts[1..], marks, owed[1..]);
    }
  }

  lemma {:induction false} PricedLots(shorts: seq<(string, Lot)>, marks: Marks)
    ensures LotsPriced(shorts, marks) <==> forall i :: 0 <= i < |shorts| ==> HasPrice(marks, shorts[i].1.asset)
  {
    if shorts != [] {
      PricedLots(shorts[1..], marks);
      assert forall i :: 0 < i < |shorts| ==> shorts[i] == shorts[1..][i - 1];
    }
  }

  lemma SoundOwes(b: Book, marks: Marks)
    requires Sound(b) && Priced(b, marks)
    ensures Owing(b.shorts, marks)
    ensures forall a :: PositionOf(b.positions, a).quantity >= 0
    ensures forall a :: PositionOf(b.positions, a).quantity == 0 || MarkOf(marks, a) > 0
  {
    PricedLots(b.shorts, marks);
  }

  ghost predicate AllPriced(b: Book, marks: Marks) {
    && (forall a :: a in b.positions ==> a in marks && marks[a] > 0)
    && (forall i :: 0 <= i < |b.shorts| ==> b.shorts[i].1.asset in marks && marks[b.shorts[i].1.asset] > 0)
  }

  /**
   A strategy is valued exactly when everything it ever held or owes has a positive price; its equity is then its cash,
   plus what it holds, plus the escrow of every short less what the debt costs.
   */
  ghost predicate IsEquity(b: Book, marks: Marks, r: Result<int, Error>) {
    && r.Ok? == AllPriced(b, marks)
    && (r.Err? ==> r.error == MissingPrice)
    && (r.Ok? && Sound(b) ==> forall held, owed :: Appraised(QuantitiesOf(b), b.shorts, marks, held, owed) ==>
          r.value == b.cash + Total(held) + NetOf(b.shorts, owed))
  }

  lemma PricedIff(b: Book, marks: Marks)
    ensures Priced(b, marks) <==> AllPriced(b, marks)
  {
    PricedLots(b.shorts, marks);
  }

  lemma EquityIs(b: Book, marks: Marks)
    ensures IsEquity(b, marks, Equity(b, marks))
  {
    hide Sound, Priced, AllPriced, IsWorth, Value, NetOf, Total;
    PricedIff(b, marks);
    if Sound(b) && Priced(b, marks) {
      forall held, owed | Appraised(QuantitiesOf(b), b.shorts, marks, held, owed)
        ensures Value(b, marks) == b.cash + Total(held) + NetOf(b.shorts, owed)
      {
        AppraisedValue(b, marks, held, owed);
      }
    }
  }

  lemma AppraisedValue(b: Book, marks: Marks, held: Asset -> int, owed: seq<int>)
    requires Sound(b) && Priced(b, marks) && Appraised(QuantitiesOf(b), b.shorts, marks, held, owed)
    ensures Value(b, marks) == b.cash + Total(held) + NetOf(b.shorts, owed)
  {
    hide Sound, Priced, Worth, IsWorth, Owing;
    SoundOwes(b, marks);
    LotsAreNet(b.shorts, marks, owed);
    forall a: Asset ensures held(a) == PositionValue(b.positions, marks, a) {
      HeldIs(b, marks, a, held(a));
    }
  }

  lemma HeldIs(b: Book, marks: Marks, a: Asset, w: int)
    requires PositionOf(b.positions, a).quantity >= 0
    requires PositionOf(b.positions, a).quantity == 0 || MarkOf(marks, a) > 0
    requires IsWorth(w, PositionOf(b.positions, a).quantity, MarkOf(marks, a))
    ensures w == PositionValue(b.positions, marks, a)
  {
    hide IsWorth;
    WorthIsWorth(PositionOf(b.positions, a).quantity, MarkOf(marks, a));
    assert Worth(0, MarkOf(marks, a)) == 0;
  }

  /** There is always such an appraisal. */
  lemma CanBeAppraised(b: Book, marks: Marks)
    requires Sound(b) && Priced(b, marks)
    ensures exists held, owed :: Appraised(QuantitiesOf(b), b.shorts, marks, held, owed)
  {
    hide Sound, Priced, IsWorth;
    SoundOwes(b, marks);
    var held := (a: Asset) => Worth(PositionOf(b.positions, a).quantity, MarkOf(marks, a));
    var owed := seq(|b.shorts|, i requires 0 <= i < |b.shorts| =>
      Worth(b.shorts[i].1.debt, MarkOf(marks, b.shorts[i].1.asset)));
    forall a: Asset ensures IsWorth(held(a), QuantitiesOf(b)(a), MarkOf(marks, a)) {
      WorthIsWorth(PositionOf(b.positions, a).quantity, MarkOf(marks, a));
    }
    forall i | 0 <= i < |owed| ensures IsWorth(owed[i], b.shorts[i].1.debt, MarkOf(marks, b.shorts[i].1.asset)) {
      WorthIsWorth(b.shorts[i].1.debt, MarkOf(marks, b.shorts[i].1.asset));
    }
    assert Appraised(QuantitiesOf(b), b.shorts, marks, held, owed);
  }

  // ---------------------------------------------------------------------------------------------
  // Prices

  lemma WorthRises(quantity: int, mark: int, higher: int)
    requires quantity >= 0 && 0 <= mark <= higher
    ensures Worth(quantity, mark) <= Worth(quantity, higher)
  {
    MulMonotone(quantity, 0, mark);
    MulMonotone(quantity, mark, higher);
    FloorMonotone(quantity * mark, quantity * higher, SCALE);
  }

  lemma {:induction false} LotsFall(shorts: seq<(string, Lot)>, marks: Marks, asset: Asset, higher: int)
    requires LotsPriced(shorts, marks) && HasPrice(marks, asset) && marks[asset] <= higher
    requires forall i :: 0 <= i < |shorts| ==> shorts[i].1.debt >= 0
    ensures var later := marks[asset := higher];
      && LotsPriced(shorts, later) && LotsValue(shorts, later) <= LotsValue(shorts, marks)
      && ((forall i :: 0 <= i < |shorts| ==> shorts[i].1.asset != asset) ==>
            LotsValue(shorts, later) == LotsValue(shorts, marks))
  {
    hide Worth;
    if shorts != [] {
      LotsFall(shorts[1..], marks, asset, higher);
      WorthRises(shorts[0].1.debt, marks[shorts[0].1.asset], marks[asset := higher][shorts[0].1.asset]);
    }
  }

  lemma PositionsRise(b: Book, marks: Marks, asset: Asset, higher: int)
    requires Sound(b) && Priced(b, marks) && HasPrice(marks, asset) && marks[asset] <= higher
    ensures PositionsValue(b.positions, marks) <= PositionsValue(b.positions, marks[asset := higher])
    ensures PositionOf(b.positions, asset).quantity == 0 ==>
      PositionsValue(b.positions, marks) == PositionsValue(b.positions, marks[asset := higher])
  {
    hide Worth, Assoc.Sum, Assoc.Distinct;
    forall a: Asset
      ensures PositionValue(b.positions, marks, a) <= PositionValue(b.positions, marks[asset := higher], a)
      ensures a != asset || PositionOf(b.positions, asset).quantity == 0 ==>
        PositionValue(b.positions, marks, a) == PositionValue(b.positions, marks[asset := higher], a)
    {
      if a in b.positions {
        assert SoundPosition(b.positions[a]);
        WorthRises(b.positions[a].quantity, marks[a], marks[asset := higher][a]);
        NothingIsWorthNothing(marks[a]);
        NothingIsWorthNothing(marks[asset := higher][a]);
      }
    }
  }

  lemma NothingIsWorthNothing(mark: int)
    ensures Worth(0, mark) == 0
  {
  }

  /**
   When the price of an asset rises, a strategy that owes none of it never loses, and one that holds none of it never
   gains.
   */
  lemma EquityFollowsPrices(b: Book, marks: Marks, asset: Asset, higher: int)
    requires Sound(b) && Priced(b, marks) && HasPrice(marks, asset) && marks[asset] <= higher
    ensures Equity(b, marks).Ok? && Equity(b, marks[asset := higher]).Ok?
    ensures (forall i :: 0 <= i < |b.shorts| ==> b.shorts[i].1.asset != asset) ==>
      Equity(b, marks).value <= Equity(b, marks[asset := higher]).value
    ensures PositionOf(b.positions, asset).quantity == 0 ==>
      Equity(b, marks[asset := higher]).value <= Equity(b, marks).value
  {
    hide Worth, Sound, PositionsValue, LotsValue, LotsPriced;
    SoundOwes(b, marks);
    LotsFall(b.shorts, marks, asset, higher);
    PositionsRise(b, marks, asset, higher);
  }

  // ---------------------------------------------------------------------------------------------
  // Fills at the mark

  /** How far a fill may move the equity beside its fee, when it is priced at the mark: the rounding of one position. */
  ghost predicate WithinRounding(side: Side, change: int) {
    match side
    case BUY => 0 <= change <= 1
    case SELL => -1 <= change <= 0
    case _ => change == 0
  }

  lemma ReplacedPosition(before: map<Asset, Position>, after: map<Asset, Position>, asset: Asset, marks: Marks)
    requires OthersKept(before, after, asset)
    ensures PositionsValue(after, marks) - PositionsValue(before, marks)
      == PositionValue(after, marks, asset) - PositionValue(before, marks, asset)
  {
    hide Worth;
    forall a: Asset | a != asset ensures PositionValue(after, marks, a) == PositionValue(before, marks, a) {
      assert a in after.Keys <==> a in before.Keys;
    }
    match asset case BTC => case ETH => case MON => case SOL =>
  }

  lemma WorthOf(positions: map<Asset, Position>, asset: Asset, marks: Marks)
    ensures PositionValue(positions, marks, asset) == Worth(PositionOf(positions, asset).quantity, MarkOf(marks, asset))
  {
    hide Worth;
    NothingIsWorthNothing(MarkOf(marks, asset));
  }

  /** Worths add up, but for one base unit. */
  lemma WorthsAddUp(a: int, c: int, mark: int, w: int)
    requires a >= 0 && c >= 0 && mark >= 0 && IsWorth(w, c, mark)
    ensures 0 <= Worth(a + c, mark) - Worth(a, mark) - w <= 1
  {
    hide Quot;
    WorthIsWorth(a, mark);
    WorthIsWorth(a + c, mark);
    assert (a + c) * mark == a * mark + c * mark;
  }

  lemma {:induction false} LotsSplit(shorts: seq<(string, Lot)>, i: nat, marks: Marks)
    requires i < |shorts|
    ensures LotsValue(shorts, marks) == LotsValue(shorts[..i] + shorts[i + 1..], marks)
      + shorts[i].1.escrow - Worth(shorts[i].1.debt, MarkOf(marks, shorts[i].1.asset))
    decreases i
  {
    hide Worth;
    if i == 0 {
      assert shorts[..0] + shorts[1..] == shorts[1..];
    } else {
      LotsSplit(shorts[1..], i - 1, marks);
      assert (shorts[..i] + shorts[i + 1..])[1..] == shorts[1..][..i - 1] + shorts[1..][i..];
    }
  }

  lemma {:induction false} LotsAppend(shorts: seq<(string, Lot)>, lot: (string, Lot), marks: Marks)
    ensures LotsValue(shorts + [lot], marks)
      == LotsValue(shorts, marks) + lot.1.escrow - Worth(lot.1.debt, MarkOf(marks, lot.1.asset))
  {
    hide Worth;
    if shorts == [] {
      assert (shorts + [lot])[1..] == [];
    } else {
      assert (shorts + [lot])[1..] == shorts[1..] + [lot];
      LotsAppend(shorts[1..], lot, marks);
    }
  }

  lemma FilledAtMark(b: Book, f: Fill, after: Book, marks: Marks)
    requires f.asset.Some? && f.quantity > 0 && Filled(b, f, after) && HasPrice(marks, f.asset.value)
    requires forall a :: PositionOf(b.positions, a).quantity >= 0
    requires f.side == SELL ==> f.quantity <= PositionOf(b.positions, f.asset.value).quantity
    requires IsWorth(f.quote, f.quantity, marks[f.asset.value])
    ensures WithinRounding(f.side, Value(after, marks) - Value(b, marks) + f.fee)
  {
    hide Worth, IsWorth, IsFloor, PositionsValue, LotsValue;
    var asset := f.asset.value;
    var mark, held := marks[asset], PositionOf(b.positions, asset).quantity;
    WorthIsWorth(f.quantity, mark);
    WorthOf(b.positions, asset, marks);
    WorthOf(after.positions, asset, marks);
    match f.side {
      case BUY =>
        ReplacedPosition(b.positions, after.positions, asset, marks);
        WorthsAddUp(held, f.quantity, mark, f.quote);
      case SELL =>
        ReplacedPosition(b.positions, after.positions, asset, marks);
        WorthsAddUp(held - f.quantity, f.quantity, mark, f.quote);
      case SHORT_OPEN =>
        LotsAppend(b.shorts, after.shorts[|b.shorts|], marks);
      case SHORT_CLOSE =>
        var i :| 0 <= i < |b.shorts|
          && b.shorts[i].0 == f.lotId && b.shorts[i].1.asset == f.asset.value && b.shorts[i].1.debt == f.quantity
          && after.shorts == b.shorts[..i] + b.shorts[i + 1..]
          && after.cash - b.cash == b.shorts[i].1.escrow - f.quote - f.fee
          && after.realizedPnl - b.realizedPnl == after.cash - b.cash - b.shorts[i].1.collateral;
        LotsSplit(b.shorts, i, marks);
      case UnknownSide =>
    }
  }

  /** An accepted fill at the mark moves the equity by its fee and, on a position, by the rounding of one base unit. */
  lemma FillAtMarkKeepsEquity(b: Book, f: Fill, marks: Marks)
    requires Sound(b) && WellFormedFill(f) && Execute(b, f).Ok?
    requires Priced(b, marks) && HasPrice(marks, f.asset.value) && IsWorth(f.quote, f.quantity, marks[f.asset.value])
    ensures Equity(b, marks).Ok? && Equity(Execute(b, f).value, marks).Ok?
    ensures WithinRounding(f.side, Equity(Execute(b, f).value, marks).value - Equity(b, marks).value + f.fee)
  {
    hide Sound, Priced, Execute, Filled, IsWorth, PositionsValue, LotsValue, Bearable, WithinRounding;
    SoundOwes(b, marks);
    FillIsExact(b, f);
    FillAcceptedIff(b, f);
    if f.side == SELL {
      SoldIsHeld(b, f);
    }
    FilledAtMark(b, f, Execute(b, f).value, marks);
    FilledIsPriced(b, f, Execute(b, f).value, marks);
  }

  lemma SoldIsHeld(b: Book, f: Fill)
    requires Bearable(b, f) && f.side == SELL
    ensures f.asset.Some? && f.quantity <= PositionOf(b.positions, f.asset.value).quantity
  {
  }

  lemma FilledIsPriced(b: Book, f: Fill, after: Book, marks: Marks)
    requires f.asset.Some? && Filled(b, f, after) && Priced(b, marks) && HasPrice(marks, f.asset.value)
    ensures Priced(after, marks)
  {
    hide IsFloor;
    PricedLots(b.shorts, marks);
    PricedLots(after.shorts, marks);
  }

  // ---------------------------------------------------------------------------------------------
  // What reconciliation reports

  function AllQuantities(l: State): Asset -> int {
    (a: Asset) => SumQuantity(l.strategies, a)
  }

  /**
   The report of a passing reconciliation: the vault is worth its cash, what it holds in all, and the escrows less the
   debts; every strategy is reported with its own equity, claims and accrual, in order; and what the merged valuation has
   more than the separate ones goes to the protocol.
   */
  ghost predicate Reported(l: State, custody: Custody, marks: Marks, r: Report) {
    && (forall held, owed :: Appraised(AllQuantities(l), Loans(l.strategies), marks, held, owed) ==>
          r.vaultEquity == custody.cash + Total(held) + NetOf(Loans(l.strategies), owed))
    && r.vaultEquity == r.strategyEquity + r.protocolAccrual
    && r.protocolAccrual == l.protocolAccrual + r.valuationRounding
    && r.strategyEquity == SumEquity(r.equities)
    && |r.equities| == |l.strategies|
    && (forall i :: 0 <= i < |l.strategies| ==> RowIs(l.strategies[i], marks, r.equities[i]))
  }

  ghost predicate RowIs(b: Book, marks: Marks, row: Attribution) {
    && row.strategyId == b.id && row.providerAccrual == b.providerAccrual
    && IsEquity(b, marks, Ok(row.equity)) && ClaimsOf(b, marks) == Ok(row.claims)
  }

  lemma ReportIs(l: State, custody: Custody, marks: Marks)
    requires SoundState(l) && Reconcile(l, custody, marks).Ok?
    ensures Reported(l, custody, marks, Reconcile(l, custody, marks).value)
  {
    hide Sound, NoRepeats, Reconcile, IsWorth, MergedValue, Loans, Attribute, Tallies, AllSolvent, AllListed, Total,
      NetOf, RowIs;
    ReconcileTallies(l, custody, marks);
    RowsAreReported(l, custody, marks);
    forall held, owed | Appraised(AllQuantities(l), Loans(l.strategies), marks, held, owed)
      ensures MergedValue(l, marks) == custody.cash + Total(held) + NetOf(Loans(l.strategies), owed)
    {
      MergedIs(l, custody, marks, held, owed);
    }
  }

  lemma MergedIs(l: State, custody: Custody, marks: Marks, held: Asset -> int, owed: seq<int>)
    requires SoundState(l) && Tallies(l, custody) && AllListed(marks) && AllSolvent(l.strategies, marks)
    requires Appraised(AllQuantities(l), Loans(l.strategies), marks, held, owed)
    ensures MergedValue(l, marks) == custody.cash + Total(held) + NetOf(Loans(l.strategies), owed)
  {
    hide Sound, NoRepeats, IsWorth, Worth, SumCash, SumQuantity, Loans, LoansMatch, Solvent, Owing;
    LoansOwe(l.strategies, marks);
    LotsAreNet(Loans(l.strategies), marks, owed);
    forall a: Asset ensures held(a) == Worth(SumQuantity(l.strategies, a), MarkOf(marks, a)) {
      QuantitiesAreHeld(l.strategies, marks, a);
      WorthIsWorth(SumQuantity(l.strategies, a), MarkOf(marks, a));
    }
  }

  lemma {:induction false} QuantitiesAreHeld(strategies: seq<Book>, marks: Marks, a: Asset)
    requires forall i :: 0 <= i < |strategies| ==> Sound(strategies[i]) && Solvent(strategies[i], marks)
    ensures SumQuantity(strategies, a) >= 0
    ensures SumQuantity(strategies, a) == 0 || MarkOf(marks, a) > 0
  {
    hide Sound, Priced, Value;
    if strategies != [] {
      SoundOwes(strategies[0], marks);
      QuantitiesAreHeld(strategies[1..], marks, a);
    }
  }

  lemma {:induction false} LoansOwe(strategies: seq<Book>, marks: Marks)
    requires forall i :: 0 <= i < |strategies| ==> Sound(strategies[i]) && Solvent(strategies[i], marks)
    ensures Owing(Loans(strategies), marks)
  {
    hide Sound, Priced, Value;
    if strategies != [] {
      SoundOwes(strategies[0], marks);
      LoansOwe(strategies[1..], marks);
    }
  }

  lemma RowsAreReported(l: State, custody: Custody, marks: Marks)
    requires Reconcile(l, custody, marks).Ok?
    ensures var r := Reconcile(l, custody, marks).value;
      && r.protocolAccrual == l.protocolAccrual + r.valuationRounding
      && r.strategyEquity == SumEquity(r.equities)
      && |r.equities| == |l.strategies|
      && (forall i :: 0 <= i < |l.strategies| ==> RowIs(l.strategies[i], marks, r.equities[i]))
  {
    hide Equity, ClaimsOf, HeldValue, Loans, SumCash, LoansMatch, CustodyLotsValue, SumEquity, RowIs, AttributeAll;
    RowsAre(l.strategies, marks);
  }

  lemma {:induction false} RowsAre(strategies: seq<Book>, marks: Marks)
    requires AttributeAll(strategies, marks).Ok?
    ensures var rows := AttributeAll(strategies, marks).value;
      && |rows| == |strategies|
      && (forall i :: 0 <= i < |strategies| ==> RowIs(strategies[i], marks, rows[i]))
  {
    hide Equity, ClaimsOf, RowIs;
    if strategies != [] {
      RowsAre(strategies[1..], marks);
      RowIsReported(strategies[0], marks);
    }
  }

  lemma RowIsReported(b: Book, marks: Marks)
    requires Attribute(b, marks).Ok?
    ensures RowIs(b, marks, Attribute(b, marks).value)
  {
    hide Equity, ClaimsOf, IsEquity;
    EquityIs(b, marks);
  }
}
