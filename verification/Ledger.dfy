/**
 The transition functions of the strategy-sleeve ledger (src/sleeves/ledger.js): what every operation
 returns, what it throws, and what the books look like afterwards. The class in SleeveLedger.dfy updates
 its fields in place and is proved against these functions.
 */
module Ledger {
  import opened Prelude
  import opened Division
  import opened Claims
  import Assoc

  const SCALE := 1_000_000
  const UNIT_PRICE_SCALE := 1_000_000_000_000_000_000_000_000

  datatype Asset = BTC | ETH | MON | SOL
  type Marks = map<Asset, int>

  datatype Error =
    | UnknownStrategy | InvalidStrategy | FeeCap | MissingPrice | Insolvent | OrphanCapital
    | NotFlat | DuplicateRequest | InvalidAmount | InsolventIssue | DustIssue | ExcessUnits
    | InsufficientCash | InvalidFill | DuplicateFill | ForeignCash | ForeignAsset | ShortMargin
    | ShortAttribution | ForeignLoss | UnsupportedSide
    | CashMismatch | QuantityMismatch | LoanCountMismatch | LoanMismatch | ClaimMismatch | EquityMismatch

  datatype Position = Position(quantity: int, cost: int)
  datatype Lot = Lot(asset: Asset, debt: int, escrow: int, collateral: int, entryProceeds: int)
  datatype HistoryRow = HistoryRow(unitPrice: int, equity: int, providerFee: int)

  /** One strategy: everything the ledger attributes to it. */
  datatype Book = Book(
    id: string, provider: Party, name: string, description: string, feeBps: int,
    cash: int, positions: map<Asset, Position>, shorts: seq<(string, Lot)>,
    units: int, investors: seq<(Party, int)>, providerAccrual: int, highWater: int,
    history: seq<HistoryRow>, realizedPnl: int, executionFees: int)

  datatype Side = BUY | SELL | SHORT_OPEN | SHORT_CLOSE | UnknownSide

  /** A reported execution. An asset that is not listed is None; a missing lot is the empty string. */
  datatype Fill = Fill(
    strategyId: string, orderId: string, asset: Option<Asset>, side: Side,
    quantity: int, quote: int, fee: int, lotId: string,
    collateral: Option<int>, escrow: Option<int>)

  datatype Order = Order(
    strategyId: string, orderId: string, asset: Asset, side: Side,
    quantity: int, quote: int, fee: int, lotId: string)

  datatype State = State(strategies: seq<Book>, flows: seq<string>, orders: seq<Order>, protocolAccrual: int)

  function NewLedger(): State {
    State([], [], [], 0)
  }

  // ---------------------------------------------------------------------------------------------
  // Valuation

  function MarkOf(marks: Marks, asset: Asset): int {
    if asset in marks then marks[asset] else 0
  }

  predicate HasPrice(marks: Marks, asset: Asset) {
    asset in marks && marks[asset] > 0
  }

  predicate LotsPriced(shorts: seq<(string, Lot)>, marks: Marks) {
    shorts == [] || (HasPrice(marks, shorts[0].1.asset) && LotsPriced(shorts[1..], marks))
  }

  /** Every position ever opened, closed ones included, and every open lot has a positive price. */
  predicate Priced(b: Book, marks: Marks) {
    && (forall a :: a in b.positions ==> HasPrice(marks, a))
    && LotsPriced(b.shorts, marks)
  }

  function PositionOf(positions: map<Asset, Position>, asset: Asset): Position {
    if asset in positions then positions[asset] else Position(0, 0)
  }

  function Worth(quantity: int, mark: int): int {
    Quot(quantity * mark, SCALE)
  }

  function PositionValue(positions: map<Asset, Position>, marks: Marks, asset: Asset): int {
    if asset in positions then Worth(positions[asset].quantity, MarkOf(marks, asset)) else 0
  }

  function PositionsValue(positions: map<Asset, Position>, marks: Marks): int {
    PositionValue(positions, marks, BTC) + PositionValue(positions, marks, ETH)
    + PositionValue(positions, marks, MON) + PositionValue(positions, marks, SOL)
  }

  function LotsValue(shorts: seq<(string, Lot)>, marks: Marks): int {
    if shorts == [] then 0
    else shorts[0].1.escrow - Worth(shorts[0].1.debt, MarkOf(marks, shorts[0].1.asset)) + LotsValue(shorts[1..], marks)
  }

  function Value(b: Book, marks: Marks): int {
    b.cash + PositionsValue(b.positions, marks) + LotsValue(b.shorts, marks)
  }

  function Equity(b: Book, marks: Marks): Result<int, Error> {
    if Priced(b, marks) then Ok(Value(b, marks)) else Err(MissingPrice)
  }

  function InvestorPool(b: Book, marks: Marks): Result<int, Error> {
    var equity :- Equity(b, marks);
    Ok(equity - b.providerAccrual)
  }

  function ClaimsOf(b: Book, marks: Marks): Result<seq<(Party, int)>, Error> {
    var pool :- InvestorPool(b, marks);
    :- Need(pool >= 0, Insolvent);
    if b.units == 0 then
      :- Need(pool == 0, OrphanCapital);
      Ok([])
    else
      Ok(ShareOut(pool, b.units, b.investors))
  }

  /** No open position and no open lot: capital may only move in and out of a flat strategy. */
  predicate Flat(b: Book) {
    (forall a :: a in b.positions ==> b.positions[a].quantity == 0) && b.shorts == []
  }

  function Available(b: Book): int {
    b.cash - b.providerAccrual
  }

  // ---------------------------------------------------------------------------------------------
  // One book

  function NewBook(id: string, provider: Party, name: string, description: string, feeBps: int): Book {
    Book(id, provider, name, description, feeBps, 0, map[], [], 0, [], 0, UNIT_PRICE_SCALE, [], 0, 0)
  }

  datatype Moved = Moved(book: Book, units: int, amount: int)

  function Deposit(b: Book, investor: Party, amount: int, marks: Marks): Result<Moved, Error> {
    var owned := Assoc.Get(b.investors, investor, 0);
    :- Need(investor != 0 && amount > 0, InvalidAmount);
    var pool :- InvestorPool(b, marks);
    :- Need(b.units == 0 || pool > 0, InsolventIssue);
    var issued := if b.units == 0 then amount else Quot(amount * b.units, pool);
    :- Need(issued > 0, DustIssue);
    Ok(Moved(b.(cash := b.cash + amount, units := b.units + issued,
                investors := Assoc.Put(b.investors, investor, owned + issued)), issued, amount))
  }

  function Withdraw(b: Book, investor: Party, units: int, marks: Marks): Result<Moved, Error> {
    var owned := Assoc.Get(b.investors, investor, 0);
    :- Need(0 < units <= owned, ExcessUnits);
    var claims :- ClaimsOf(b, marks);
    var amount := Quot(Assoc.Get(claims, investor, 0) * units, owned);
    :- Need(amount <= Available(b), InsufficientCash);
    var left := b.units - units;
    Ok(Moved(b.(cash := b.cash - amount, units := left,
                investors := Assoc.Put(b.investors, investor, owned - units),
                highWater := if left == 0 then UNIT_PRICE_SCALE else b.highWater), units, amount))
  }

  function Buy(b: Book, f: Fill, asset: Asset): Result<Book, Error> {
    var p := PositionOf(b.positions, asset);
    :- Need(f.quote + f.fee <= Available(b), ForeignCash);
    Ok(b.(cash := b.cash - f.quote - f.fee,
          positions := b.positions[asset := Position(p.quantity + f.quantity, p.cost + f.quote + f.fee)]))
  }

  function Sell(b: Book, f: Fill, asset: Asset): Result<Book, Error>
    requires f.quantity > 0
  {
    var p := PositionOf(b.positions, asset);
    :- Need(f.quantity <= p.quantity, ForeignAsset);
    var basis := Quot(p.cost * f.quantity, p.quantity);
    Ok(b.(cash := b.cash + f.quote - f.fee,
          positions := b.positions[asset := Position(p.quantity - f.quantity, p.cost - basis)],
          realizedPnl := b.realizedPnl + f.quote - f.fee - basis))
  }

  function OpenShort(b: Book, f: Fill, asset: Asset): Result<Book, Error> {
    var margin := if f.collateral.None? then f.quote else f.collateral.value;
    var locked := if f.escrow.None? then margin + f.quote - f.fee else f.escrow.value;
    :- Need(f.lotId != "" && !Assoc.Has(b.shorts, f.lotId) && 0 < margin <= Available(b)
            && locked == margin + f.quote - f.fee, ShortMargin);
    Ok(b.(cash := b.cash - margin,
          shorts := Assoc.Put(b.shorts, f.lotId, Lot(asset, f.quantity, locked, margin, f.quote - f.fee))))
  }

  const NO_LOT := Lot(BTC, 0, 0, 0, 0)

  function CloseShort(b: Book, f: Fill, asset: Asset): Result<Book, Error> {
    var lot := Assoc.Get(b.shorts, f.lotId, NO_LOT);
    :- Need(Assoc.Has(b.shorts, f.lotId) && lot.asset == asset && lot.debt == f.quantity, ShortAttribution);
    var returned := lot.escrow - f.quote - f.fee;
    :- Need(returned + Available(b) >= 0, ForeignLoss);
    Ok(b.(cash := b.cash + returned, shorts := Assoc.Delete(b.shorts, f.lotId),
          realizedPnl := b.realizedPnl + lot.entryProceeds - f.quote - f.fee))
  }

  predicate WellFormedFill(f: Fill) {
    f.orderId != "" && f.asset.Some? && f.quantity > 0 && f.quote > 0 && 0 <= f.fee < f.quote
  }

  function Execute(b: Book, f: Fill): Result<Book, Error>
    requires WellFormedFill(f)
  {
    var b' :-
      match f.side {
        case BUY => Buy(b, f, f.asset.value)
        case SELL => Sell(b, f, f.asset.value)
        case SHORT_OPEN => OpenShort(b, f, f.asset.value)
        case SHORT_CLOSE => CloseShort(b, f, f.asset.value)
        case UnknownSide => Err(UnsupportedSide)
      };
    Ok(b'.(executionFees := b'.executionFees + f.fee))
  }

  /** The fee basis: the pool value the units must exceed, rounded up. */
  function Threshold(b: Book): int {
    Quot(b.units * b.highWater + UNIT_PRICE_SCALE - 1, UNIT_PRICE_SCALE)
  }

  datatype Charged = Charged(book: Book, fee: int)

  function CrystallizeBook(b: Book, marks: Marks): Result<Charged, Error> {
    var before :- InvestorPool(b, marks);
    if b.units == 0 then
      Ok(Charged(b, 0))
    else
      var threshold := Threshold(b);
      var profit := if before > threshold then before - threshold else 0;
      var fee := Quot(profit * b.feeBps, 10000);
      var price := Quot((before - fee) * UNIT_PRICE_SCALE + b.units - 1, b.units);
      var row := HistoryRow(Quot((before - fee) * SCALE, b.units), Value(b, marks), fee);
      Ok(Charged(b.(providerAccrual := b.providerAccrual + fee,
                    highWater := if price > b.highWater then price else b.highWater,
                    history := b.history + [row]), fee))
  }

  function PayBook(b: Book): Result<Moved, Error> {
    var amount := b.providerAccrual;
    :- Need(amount <= b.cash, InsufficientCash);
    Ok(Moved(b.(cash := b.cash - amount, providerAccrual := 0), 0, amount))
  }

  // ---------------------------------------------------------------------------------------------
  // The whole ledger

  /** The position of a strategy in the list; the length of the list when there is none. */
  function IndexOf(strategies: seq<Book>, id: string): (i: nat)
    ensures i <= |strategies|
    ensures i < |strategies| ==> strategies[i].id == id
  {
    if strategies == [] || strategies[0].id == id then 0 else 1 + IndexOf(strategies[1..], id)
  }

  function FindStrategy(l: State, id: string): (r: Result<nat, Error>)
    ensures r.Ok? ==> r.value < |l.strategies| && l.strategies[r.value].id == id
  {
    var i := IndexOf(l.strategies, id);
    if i < |l.strategies| then Ok(i) else Err(UnknownStrategy)
  }

  predicate FreshRequest(l: State, requestId: string) {
    requestId != "" && requestId !in l.flows
  }

  predicate OrderSeen(orders: seq<Order>, orderId: string) {
    exists i :: 0 <= i < |orders| && orders[i].orderId == orderId
  }

  /** What an accepted operation leaves behind, and the amounts it reports. */
  datatype Done = Done(state: State, units: int, amount: int)

  function Create(l: State, id: string, provider: Party, name: string, description: string, feeBps: int)
    : Result<Done, Error>
  {
    var taken := IndexOf(l.strategies, id) < |l.strategies|;
    :- Need(!taken && provider != 0 && name != "", InvalidStrategy);
    :- Need(0 <= feeBps <= 3000, FeeCap);
    Ok(Done(l.(strategies := l.strategies + [NewBook(id, provider, name, description, feeBps)]), 0, 0))
  }

  function Allocate(l: State, id: string, investor: Party, amount: int, requestId: string, marks: Marks)
    : Result<Done, Error>
  {
    var i :- FindStrategy(l, id);
    :- Need(Flat(l.strategies[i]), NotFlat);
    :- Need(FreshRequest(l, requestId), DuplicateRequest);
    var m :- Deposit(l.strategies[i], investor, amount, marks);
    Ok(Done(l.(strategies := l.strategies[i := m.book], flows := l.flows + [requestId]), m.units, m.amount))
  }

  function Redeem(l: State, id: string, investor: Party, units: int, requestId: string, marks: Marks)
    : Result<Done, Error>
  {
    var i :- FindStrategy(l, id);
    :- Need(Flat(l.strategies[i]), NotFlat);
    :- Need(FreshRequest(l, requestId), DuplicateRequest);
    var m :- Withdraw(l.strategies[i], investor, units, marks);
    Ok(Done(l.(strategies := l.strategies[i := m.book], flows := l.flows + [requestId]), m.units, m.amount))
  }

  function RecordFill(l: State, f: Fill): Result<Done, Error> {
    var i :- FindStrategy(l, f.strategyId);
    :- Need(WellFormedFill(f), InvalidFill);
    :- Need(!OrderSeen(l.orders, f.orderId), DuplicateFill);
    var b' :- Execute(l.strategies[i], f);
    var order := Order(f.strategyId, f.orderId, f.asset.value, f.side, f.quantity, f.quote, f.fee, f.lotId);
    Ok(Done(l.(strategies := l.strategies[i := b'], orders := l.orders + [order]), 0, 0))
  }

  function Crystallize(l: State, id: string, marks: Marks): Result<Done, Error> {
    var i :- FindStrategy(l, id);
    :- Need(Flat(l.strategies[i]), NotFlat);
    var c :- CrystallizeBook(l.strategies[i], marks);
    Ok(Done(l.(strategies := l.strategies[i := c.book]), 0, c.fee))
  }

  function PayProvider(l: State, id: string, requestId: string): Result<Done, Error> {
    var i :- FindStrategy(l, id);
    :- Need(Flat(l.strategies[i]), NotFlat);
    :- Need(FreshRequest(l, requestId), DuplicateRequest);
    var m :- PayBook(l.strategies[i]);
    Ok(Done(l.(strategies := l.strategies[i := m.book], flows := l.flows + [requestId]), 0, m.amount))
  }
}
