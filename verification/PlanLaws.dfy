/** What a durable plan commits to, and when a command gets one: in terms of the command, the books and the quote. */
module PlanLaws {
  import opened Prelude
  import opened Division
  import opened Claims
  import opened Ledger
  import opened LedgerLaws
  import opened LedgerRuns
  import opened Reconciliation
  import opened BookLaws
  import opened Runtime
  import Assoc

  // ---------------------------------------------------------------------------------------------
  // Orders

  /** No more than a quarter of what the investors own, and no more than the cash that is not the provider's. */
  ghost predicate WithinCap(b: Book, amount: int, marks: Marks) {
    && amount > 0 && amount <= b.cash - b.providerAccrual
    && Equity(b, marks).Ok? && 4 * amount + b.providerAccrual <= Equity(b, marks).value
  }

  /** The strategy neither holds nor owes the asset. */
  ghost predicate Free(b: Book, asset: Asset) {
    && PositionOf(b.positions, asset).quantity == 0
    && forall i :: 0 <= i < |b.shorts| ==> b.shorts[i].1.asset != asset
  }

  /** The only lot on the asset. */
  ghost predicate OnlyLot(b: Book, i: nat, asset: Asset) {
    && i < |b.shorts| && b.shorts[i].1.asset == asset
    && forall j :: 0 <= j < |b.shorts| && b.shorts[j].1.asset == asset ==> j == i
  }

  function Own(b: Book, i: nat): int
    requires i < |b.shorts|
  {
    b.shorts[i].1.escrow + b.cash - b.providerAccrual
  }

  /** Two percent below the quote, rounded down. */
  ghost predicate IsFloorPrice(limit: int, quoted: int) {
    IsFloor(limit, quoted * 98, 100)
  }

  /** Two percent above the quote, rounded down, but never more than the strategy owns. */
  ghost predicate IsCeilingPrice(limit: int, quoted: int, own: int) {
    exists raised :: IsFloor(raised, quoted * 102, 100) && limit == if raised > own then own else raised
  }

  /** An order: at most the provider's own amount, and a limit from the quote of the venue. */
  ghost predicate OrderIs(b: Book, c: Command, marks: Marks, quoted: int, plan: Plan) {
    && c.signer == b.provider && b.id != CASH_RESERVE && c.asset == Some(plan.asset)
    && match c.side
       case BUY =>
         && Free(b, plan.asset) && WithinCap(b, c.amount, marks)
         && plan.amount == c.amount && plan.collateral == 0 && plan.limit > 0 && IsFloorPrice(plan.limit, quoted)
       case SELL =>
         && plan.amount == PositionOf(b.positions, plan.asset).quantity > 0 && plan.collateral == 0
         && (quoted >= 0 ==> IsFloorPrice(plan.limit, quoted))
       case SHORT_OPEN =>
         && Free(b, plan.asset) && WithinCap(b, c.amount, marks) && HasPrice(marks, plan.asset)
         && plan.collateral == c.amount && plan.amount > 0
         && IsFloor(plan.amount, plan.collateral * SCALE, marks[plan.asset])
         && plan.limit > 0 && IsFloorPrice(plan.limit, quoted) && plan.lot == LotOf(c.id)
       case SHORT_CLOSE =>
         exists i: nat :: OnlyLot(b, i, plan.asset)
           && plan.lot == b.shorts[i].0 && plan.amount == b.shorts[i].1.debt && plan.collateral == 0
           && quoted <= Own(b, i) && plan.limit <= Own(b, i)
           && (quoted >= 0 ==> IsCeilingPrice(plan.limit, quoted, Own(b, i)))
       case UnknownSide => false
  }

  /** An order can be planned exactly when: the provider's own, listed, within the cap, and nothing dust. */
  ghost predicate Orderable(b: Book, c: Command, marks: Marks, quoted: int) {
    && c.signer == b.provider && b.id != CASH_RESERVE && c.asset.Some?
    && match c.side
       case BUY => Free(b, c.asset.value) && WithinCap(b, c.amount, marks) && 98 * quoted >= 100
       case SELL => PositionOf(b.positions, c.asset.value).quantity > 0
       case SHORT_OPEN =>
         && Free(b, c.asset.value) && WithinCap(b, c.amount, marks) && 98 * quoted >= 100
         && HasPrice(marks, c.asset.value) && c.amount * SCALE >= marks[c.asset.value]
       case SHORT_CLOSE => exists i: nat :: OnlyLot(b, i, c.asset.value) && quoted <= Own(b, i)
       case UnknownSide => false
  }

  lemma {:induction false} ShortingIff(shorts: seq<(string, Lot)>, asset: Asset)
    ensures Shorting(shorts, asset) <==> exists i :: 0 <= i < |shorts| && shorts[i].1.asset == asset
  {
    if shorts != [] {
      ShortingIff(shorts[1..], asset);
      if i :| 0 <= i < |shorts| && shorts[i].1.asset == asset {
        assert i > 0 ==> shorts[1..][i - 1].1.asset == asset;
      }
      if i :| 0 <= i < |shorts[1..]| && shorts[1..][i].1.asset == asset {
        assert shorts[i + 1].1.asset == asset;
      }
    }
  }

  lemma {:induction false} NoLotOn(shorts: seq<(string, Lot)>, asset: Asset)
    ensures LotsOn(shorts, asset) == [] <==> forall i :: 0 <= i < |shorts| ==> shorts[i].1.asset != asset
  {
    if shorts != [] {
      NoLotOn(shorts[1..], asset);
      assert forall i :: 0 < i < |shorts| ==> shorts[i] == shorts[1..][i - 1];
    }
  }

  /** One lot on the asset, in the list of them and in the books. */
  lemma {:induction false} OneLotOn(shorts: seq<(string, Lot)>, asset: Asset, i: nat)
    requires i < |shorts| && shorts[i].1.asset == asset
    requires forall j :: 0 <= j < |shorts| && shorts[j].1.asset == asset ==> j == i
    ensures LotsOn(shorts, asset) == [shorts[i]]
    decreases i
  {
    NoLotOn(shorts[1..], asset);
    assert forall j :: 0 < j < |shorts| ==> shorts[j] == shorts[1..][j - 1];
    if i > 0 {
      OneLotOn(shorts[1..], asset, i - 1);
    }
  }

  lemma {:induction false} LotOnAt(shorts: seq<(string, Lot)>, asset: Asset) returns (i: nat)
    requires |LotsOn(shorts, asset)| == 1
    ensures i < |shorts| && shorts[i].1.asset == asset && shorts[i] == LotsOn(shorts, asset)[0]
    ensures forall j :: 0 <= j < |shorts| && shorts[j].1.asset == asset ==> j == i
  {
    if shorts[0].1.asset == asset {
      NoLotOn(shorts[1..], asset);
      i := 0;
      assert forall j :: 0 < j < |shorts| ==> shorts[j] == shorts[1..][j - 1];
    } else {
      var k := LotOnAt(shorts[1..], asset);
      i := k + 1;
      assert forall j :: 0 < j < |shorts| ==> shorts[j] == shorts[1..][j - 1];
    }
  }

  lemma LotIff(b: Book, asset: Asset)
    ensures |LotsOn(b.shorts, asset)| == 1 <==> exists i: nat :: OnlyLot(b, i, asset)
    ensures forall i: nat :: OnlyLot(b, i, asset) ==> LotsOn(b.shorts, asset) == [b.shorts[i]]
  {
    forall i: nat | OnlyLot(b, i, asset) ensures LotsOn(b.shorts, asset) == [b.shorts[i]] {
      OneLotOn(b.shorts, asset, i);
    }
    if |LotsOn(b.shorts, asset)| == 1 {
      var i := LotOnAt(b.shorts, asset);
      assert OnlyLot(b, i, asset);
    }
  }

  lemma SlipIs(quoted: int)
    ensures quoted >= 0 ==> IsFloorPrice(Slip(quoted), quoted)
    ensures Slip(quoted) > 0 <==> 98 * quoted >= 100
    ensures Slip(quoted) > 0 ==> quoted > 0
  {
    if quoted >= 0 {
      QuotIsFloor(quoted * 98, 100);
    }
  }

  lemma CapIff(b: Book, amount: int, marks: Marks)
    requires Sound(b)
    ensures InvestorPool(b, marks).Ok? <==> Equity(b, marks).Ok?
    ensures Equity(b, marks).Ok? ==>
      (amount > 0 && amount <= Quot(InvestorPool(b, marks).value, 4) && amount <= Available(b) <==> WithinCap(b, amount, marks))
  {
    hide Equity, Assoc.Sum, Assoc.Distinct;
  }

  lemma OrderIsExact(b: Book, c: Command, marks: Marks, quoted: int)
    requires Sound(b) && PlanOrder(b, c, marks, quoted).Ok?
    ensures var plan := PlanOrder(b, c, marks, quoted).value;
      OrderIs(b, c, marks, quoted, plan) && plan.command == c && plan.marks == marks
  {
    hide Sound, InvestorPool, Equity, Slip, IsFloorPrice, LotsOn, Shorting, IsFloor, Quot, WithinCap, LotOf;
    var asset := c.asset.value;
    ShortingIff(b.shorts, asset);
    SlipIs(quoted);
    CapIff(b, c.amount, marks);
    match c.side {
      case SHORT_OPEN => QuotIsFloor(c.amount * SCALE, marks[asset]);
      case SHORT_CLOSE => CloseIs(b, c, marks, quoted);
      case _ =>
    }
  }

  lemma CloseIs(b: Book, c: Command, marks: Marks, quoted: int)
    requires c.side == SHORT_CLOSE && PlanOrder(b, c, marks, quoted).Ok?
    ensures OrderIs(b, c, marks, quoted, PlanOrder(b, c, marks, quoted).value)
  {
    hide LotsOn, IsFloor, Quot;
    var asset := c.asset.value;
    LotIff(b, asset);
    var i: nat :| OnlyLot(b, i, asset);
    if quoted >= 0 {
      QuotIsFloor(quoted * 102, 100);
      assert IsCeilingPrice(PlanOrder(b, c, marks, quoted).value.limit, quoted, Own(b, i));
    }
  }

  /** An order is planned exactly when it can be. */
  lemma OrderPlannedIff(b: Book, c: Command, marks: Marks, quoted: int)
    requires Sound(b)
    ensures PlanOrder(b, c, marks, quoted).Ok? <==> Orderable(b, c, marks, quoted)
  {
    hide Sound, InvestorPool, Equity, Slip, LotsOn, Shorting, WithinCap, LotOf;
    if c.asset.Some? {
      var asset := c.asset.value;
      ShortingIff(b.shorts, asset);
      LotIff(b, asset);
      SlipIs(quoted);
      CapIff(b, c.amount, marks);
      CapNeedsEquity(b, c.amount, marks);
      if HasPrice(marks, asset) {
        QuantityIff(c.amount, marks[asset]);
      }
    }
  }

  lemma CapNeedsEquity(b: Book, amount: int, marks: Marks)
    ensures WithinCap(b, amount, marks) ==> Equity(b, marks).Ok? && amount > 0
  {
  }

  lemma QuantityIff(amount: int, mark: int)
    requires mark > 0
    ensures amount > 0 ==> (Quot(amount * SCALE, mark) > 0 <==> amount * SCALE >= mark)
  {
    if amount > 0 {
      if amount * SCALE >= mark {
        FloorAtLeast(amount * SCALE, mark, 1);
      } else {
        FloorAtMost(amount * SCALE, mark, 0);
      }
    }
  }

  // ---------------------------------------------------------------------------------------------
  // All commands

  /** What the owner of units in a flat strategy is owed for all of them. */
  function WholeClaim(b: Book, owner: Party): int
    requires b.units != 0
  {
    Assoc.Get(ShareOut(Available(b), b.units, b.investors), owner, 0)
  }

  /** What a plan commits to: the command and the marks it was checked with, and the amounts that were fixed. */
  ghost predicate PlanIs(l: State, c: Command, marks: Marks, quoted: int, plan: Plan) {
    var i := IndexOf(l.strategies, c.strategyId);
    && plan.command == c && plan.marks == marks && i < |l.strategies|
    && var b := l.strategies[i];
    match c.kind
    case ALLOCATE => plan.amount == c.amount > 0 && Flat(b)
    case REDEEM =>
      && Flat(b) && b.units != 0 && Assoc.Get(b.investors, c.signer, 0) > 0
      && plan.amount == WholeClaim(b, c.signer)
    case PAY_PROVIDER => c.signer == b.provider && Flat(b) && plan.amount == b.providerAccrual > 0
    case ORDER => OrderIs(b, c, marks, quoted, plan)
    case _ => false
  }

  /** A command gets a plan exactly when the ledger would take it, and its signer may ask for it. */
  ghost predicate Plannable(l: State, c: Command, marks: Marks, quoted: int) {
    var i := IndexOf(l.strategies, c.strategyId);
    && i < |l.strategies|
    && var b := l.strategies[i];
    match c.kind
    case ALLOCATE => CanTake(l, OpAllocate(c.strategyId, c.signer, c.amount, c.id, marks))
    case REDEEM => CanTake(l, OpRedeem(c.strategyId, c.signer, OwnedUnits(b, c.signer), c.id, marks))
    case PAY_PROVIDER => c.signer == b.provider && b.providerAccrual > 0 && CanTake(l, OpPay(c.strategyId, c.id))
    case ORDER => Orderable(b, c, marks, quoted)
    case _ => false
  }

  lemma RedemptionPlan(l: State, c: Command, marks: Marks, i: nat)
    requires SoundState(l) && i == IndexOf(l.strategies, c.strategyId) < |l.strategies|
    requires Redeem(l, c.strategyId, c.signer, OwnedUnits(l.strategies[i], c.signer), c.id, marks).Ok?
    ensures var b := l.strategies[i];
      && Flat(b) && b.units != 0 && Assoc.Get(b.investors, c.signer, 0) > 0
      && Redeem(l, c.strategyId, c.signer, OwnedUnits(b, c.signer), c.id, marks).value.amount == WholeClaim(b, c.signer)
  {
    hide Withdraw, SoundState, Flat, Sound;
    var b := l.strategies[i];
    BookIsSound(l, i);
    RedemptionIsExact(b, c.signer, OwnedUnits(b, c.signer), marks);
    var m := Withdraw(b, c.signer, OwnedUnits(b, c.signer), marks).value;
    WholeIsReleased(WholeClaim(b, c.signer), m.units, m.amount);
  }

  lemma PlanIsExact(l: State, c: Command, marks: Marks, quoted: int)
    requires SoundState(l) && MakePlan(l, c, marks, quoted).Ok?
    ensures PlanIs(l, c, marks, quoted, MakePlan(l, c, marks, quoted).value)
  {
    hide SoundState, Sound, Flat, Deposit, Withdraw, PlanOrder, IndexOf, FreshRequest, OrderIs;
    var i := IndexOf(l.strategies, c.strategyId);
    BookIsSound(l, i);
    match c.kind {
      case ALLOCATE => AmountIsPositive(l.strategies[i], c.signer, c.amount, marks);
      case REDEEM => RedemptionPlan(l, c, marks, i);
      case ORDER => OrderIsExact(l.strategies[i], c, marks, quoted);
      case _ =>
    }
  }

  lemma AmountIsPositive(b: Book, investor: Party, amount: int, marks: Marks)
    ensures Deposit(b, investor, amount, marks).Ok? ==> amount > 0
  {
  }

  lemma PlannedIff(l: State, c: Command, marks: Marks, quoted: int)
    requires SoundState(l)
    ensures MakePlan(l, c, marks, quoted).Ok? <==> Plannable(l, c, marks, quoted)
  {
    hide SoundState, Sound, CanTake, PlanOrder, Orderable, IndexOf, Allocate, Redeem, OwnedUnits, Flat;
    var i := IndexOf(l.strategies, c.strategyId);
    if i < |l.strategies| {
      BookIsSound(l, i);
      match c.kind {
        case ALLOCATE => StepAcceptedIff(l, OpAllocate(c.strategyId, c.signer, c.amount, c.id, marks));
        case REDEEM =>
          StepAcceptedIff(l, OpRedeem(c.strategyId, c.signer, OwnedUnits(l.strategies[i], c.signer), c.id, marks));
        case PAY_PROVIDER => StepAcceptedIff(l, OpPay(c.strategyId, c.id));
        case ORDER => OrderPlannedIff(l.strategies[i], c, marks, quoted);
        case _ =>
      }
    }
  }

  // ---------------------------------------------------------------------------------------------
  // What a plan does when it executes

  /** What a permitted execution moves in the vault. */
  ghost predicate VaultMoved(custody: Custody, plan: Plan, e: Execution, after: Custody) {
    match plan.command.kind
    case ALLOCATE => after == custody.(cash := custody.cash + plan.amount)
    case ORDER =>
      (match plan.command.side
       case BUY =>
         && after.cash == custody.cash - plan.amount && after.shorts == custody.shorts
         && after.positions == custody.positions[plan.asset := Held(custody.positions, plan.asset) + e.quantity]
       case SELL =>
         && after.cash == custody.cash + e.cash && after.shorts == custody.shorts
         && after.positions == custody.positions[plan.asset := Held(custody.positions, plan.asset) - plan.amount]
       case SHORT_OPEN =>
         && after.cash == custody.cash - plan.collateral && after.positions == custody.positions
         && after.shorts == custody.shorts[plan.lot := CustodyLot(plan.asset, plan.amount, e.escrow)]
       case SHORT_CLOSE =>
         && after.cash == custody.cash + e.escrow - e.cash && after.positions == custody.positions
         && after.shorts == custody.shorts - {plan.lot}
       case UnknownSide => false)
    case _ => after == custody.(cash := custody.cash - plan.amount)
  }

  lemma EffectIs(custody: Custody, plan: Plan, e: Execution)
    requires Permitted(plan, e, custody)
    ensures VaultMoved(custody, plan, e, EffectOn(custody, plan, e))
  {
  }

  /** The reported execution as it is booked. */
  ghost predicate ReportedAs(plan: Plan, e: Execution, f: Fill) {
    && f.strategyId == plan.command.strategyId && f.orderId == plan.command.id && f.asset == Some(plan.asset)
    && f.side == plan.command.side && f.quantity == e.quantity && f.fee == 0 && f.lotId == plan.lot
    && (if f.side == SHORT_OPEN
        then f.collateral == Some(e.cash) && f.escrow == Some(e.escrow) && f.quote == e.escrow - e.cash
        else f.collateral == None && f.escrow == None && f.quote == e.cash)
  }

  lemma FillReports(plan: Plan, e: Execution)
    ensures ReportedAs(plan, e, FillOf(plan, e))
  {
  }

  /** The receipt spends exactly what was planned, and gets no less and pays no more than the limit. */
  ghost predicate KeepsPlan(plan: Plan, e: Execution) {
    if plan.command.kind != ORDER then e.cash == plan.amount
    else
      match plan.command.side
      case BUY => e.cash == plan.amount && plan.limit <= e.quantity
      case SELL => e.quantity == plan.amount && plan.limit <= e.cash
      case SHORT_CLOSE => e.quantity == plan.amount && e.cash <= plan.limit
      case _ => e.quantity == plan.amount && e.cash == plan.collateral
  }

  /** The checks of a receipt pass exactly what keeps the plan; and whatever the vault permits does. */
  lemma AttributedIff(plan: Plan, e: Execution, custody: Custody)
    ensures Attributed(plan, e) <==> KeepsPlan(plan, e)
    ensures Permitted(plan, e, custody) ==> KeepsPlan(plan, e)
  {
  }
}
