/**
 Crash-safe execution (src/sleeves/runtime.js): a signed command becomes a durable plan, the plan takes
 effect on the chain under its own id, and the ledger is committed together with the end of the plan. The
 process may stop at any await; what survives is the disk and the chain, and nothing else.
 */
module Runtime {
  import opened Prelude
  import opened Division
  import opened Claims
  import opened Ledger
  import opened Reconciliation
  import opened CustodyLaws
  import Assoc

  datatype Kind = ALLOCATE | REDEEM | PAY_PROVIDER | ORDER | REGISTER | UnknownKind

  /** An authenticated command: `id` digests signer and nonce, `hash` the whole envelope. */
  datatype Command = Command(
    id: string, hash: string, signer: Party, kind: Kind, strategyId: string,
    amount: int, side: Side, asset: Option<Asset>, name: string, description: string)

  /** The durable intent: the command, the marks it was checked with, and the amounts that were fixed. */
  datatype Plan = Plan(
    command: Command, marks: Marks, amount: int, asset: Asset, limit: int, collateral: int, lot: string)

  /** What the vault's event reports. A deposit or withdrawal only reports cash. */
  datatype Execution = Execution(quantity: int, cash: int, escrow: int)

  datatype Fault =
    | Refused(error: Error) | RecoveryPending | Replayed | WrongProvider | NoAccrual | CashDoesNotTrade
    | InvalidOrder | AlreadyActive | CapitalCap | DustOrder | NoPosition | NoUniqueDebt | InsolventClose
    | InvalidRegistration | UnsupportedOperation | WithdrawalChanged | AttributionMismatch | NotExecuted
    | AlreadyExecuted | Reverted

  datatype Disk = Disk(ledger: State, used: seq<string>, pending: Option<Plan>)

  /** The vault and the local chain: physical custody, and the ids that took effect, were anchored, or failed. */
  datatype Chain = Chain(
    custody: Custody, effects: map<string, Execution>, anchors: set<string>, reverted: set<string>)

  datatype World = World(disk: Disk, chain: Chain)

  const CASH_RESERVE := "cash-reserve"
  const NO_LOT_ID := "0x0"
  const DEFAULT_FEE := 1000

  function LotOf(id: string): string {
    "lot:" + id
  }

  function Lift<T>(r: Result<T, Error>): Result<T, Fault> {
    if r.Ok? then Ok(r.value) else Err(Refused(r.error))
  }

  // ---------------------------------------------------------------------------------------------
  // Custody as the runtime reads it

  /** The runtime asks the venue about the lots its own ledger knows, and about no others. */
  function ObserveLots(loans: seq<(string, Lot)>, shorts: map<string, CustodyLot>): map<string, CustodyLot> {
    if loans == [] then map[]
    else
      var id, lot := loans[0].0, loans[0].1;
      var actual := if id in shorts then CustodyLot(lot.asset, shorts[id].debt, shorts[id].escrow)
                    else CustodyLot(lot.asset, 0, 0);
      ObserveLots(loans[1..], shorts)[id := actual]
  }

  function Observe(l: State, custody: Custody): Custody {
    custody.(shorts := ObserveLots(Loans(l.strategies), custody.shorts))
  }

  lemma {:induction false} ObserveMatched(loans: seq<(string, Lot)>, shorts: map<string, CustodyLot>)
    requires LoansMatch(loans, shorts) && Assoc.Distinct(loans)
    ensures var seen := ObserveLots(loans, shorts);
            && |seen| == |loans|
            && (forall id :: id in seen ==> id in shorts && seen[id] == shorts[id])
            && (forall id :: id in seen ==> Assoc.Has(loans, id))
  {
    if loans != [] {
      ObserveMatched(loans[1..], shorts);
    }
  }

  /** On twin custody the runtime sees everything there is. */
  lemma ObserveTwin(l: State, custody: Custody)
    requires Twin(l, custody)
    ensures Observe(l, custody) == custody
  {
    hide SumCash, SumQuantity, LoansMatch, Assoc.Distinct, Assoc.Has, ObserveLots, LotMap;
    MirrorsTally(l, custody);
    var seen := ObserveLots(Loans(l.strategies), custody.shorts);
    ObserveMatched(Loans(l.strategies), custody.shorts);
    SameSizeSameMap(seen, custody.shorts);
  }

  // ---------------------------------------------------------------------------------------------
  // Planning

  function OwnedUnits(b: Book, owner: Party): int {
    Assoc.Get(b.investors, owner, 0)
  }

  predicate Shorting(shorts: seq<(string, Lot)>, asset: Asset) {
    shorts != [] && (shorts[0].1.asset == asset || Shorting(shorts[1..], asset))
  }

  function LotsOn(shorts: seq<(string, Lot)>, asset: Asset): seq<(string, Lot)> {
    if shorts == [] then []
    else if shorts[0].1.asset == asset then [shorts[0]] + LotsOn(shorts[1..], asset)
    else LotsOn(shorts[1..], asset)
  }

  function Slip(quoted: int): int {
    Quot(quoted * 98, 100)
  }

  /** An order fixes amount and limit so that no outcome can spend another strategy's capital. */
  function PlanOrder(b: Book, c: Command, marks: Marks, quoted: int): Result<Plan, Fault> {
    var authorized := c.signer == b.provider;
    :- Need(authorized, WrongProvider);
    :- Need(b.id != CASH_RESERVE, CashDoesNotTrade);
    :- Need(c.asset.Some? && !c.side.UnknownSide?, InvalidOrder);
    var asset := c.asset.value;
    var held := PositionOf(b.positions, asset).quantity;
    match c.side {
      case BUY =>
        :- Need(held == 0 && !Shorting(b.shorts, asset), AlreadyActive);
        var pool :- Lift(InvestorPool(b, marks));
        :- Need(c.amount > 0 && c.amount <= Quot(pool, 4) && c.amount <= Available(b), CapitalCap);
        :- Need(Slip(quoted) > 0, DustOrder);
        Ok(Plan(c, marks, c.amount, asset, Slip(quoted), 0, NO_LOT_ID))
      case SELL =>
        :- Need(held > 0, NoPosition);
        Ok(Plan(c, marks, held, asset, Slip(quoted), 0, NO_LOT_ID))
      case SHORT_OPEN =>
        :- Need(held == 0 && !Shorting(b.shorts, asset), AlreadyActive);
        var pool :- Lift(InvestorPool(b, marks));
        :- Need(c.amount > 0 && c.amount <= Quot(pool, 4) && c.amount <= Available(b), CapitalCap);
        :- Need(HasPrice(marks, asset), Refused(MissingPrice));
        var quantity := Quot(c.amount * SCALE, marks[asset]);
        :- Need(quantity > 0 && Slip(quoted) > 0, DustOrder);
        Ok(Plan(c, marks, quantity, asset, Slip(quoted), c.amount, LotOf(c.id)))
      case SHORT_CLOSE =>
        var lots := LotsOn(b.shorts, asset);
        :- Need(|lots| == 1, NoUniqueDebt);
        var own := lots[0].1.escrow + Available(b);
        :- Need(quoted <= own, InsolventClose);
        var limit := Quot(quoted * 102, 100);
        Ok(Plan(c, marks, lots[0].1.debt, asset, if limit > own then own else limit, 0, lots[0].0))
    }
  }

  function MakePlan(l: State, c: Command, marks: Marks, quoted: int): Result<Plan, Fault> {
    var i :- Lift(FindStrategy(l, c.strategyId));
    var b := l.strategies[i];
    match c.kind {
      case ALLOCATE =>
        var _ :- Lift(Allocate(l, c.strategyId, c.signer, c.amount, c.id, marks));
        Ok(Plan(c, marks, c.amount, BTC, 0, 0, NO_LOT_ID))
      case REDEEM =>
        var done :- Lift(Redeem(l, c.strategyId, c.signer, OwnedUnits(b, c.signer), c.id, marks));
        Ok(Plan(c, marks, done.amount, BTC, 0, 0, NO_LOT_ID))
      case PAY_PROVIDER =>
        :- Need(c.signer == b.provider, WrongProvider);
        var done :- Lift(PayProvider(l, c.strategyId, c.id));
        :- Need(done.amount > 0, NoAccrual);
        Ok(Plan(c, marks, done.amount, BTC, 0, 0, NO_LOT_ID))
      case ORDER => PlanOrder(b, c, marks, quoted)
      case _ => Err(UnsupportedOperation)
    }
  }

  predicate SlugChar(c: char) {
    'a' <= c <= 'z' || '0' <= c <= '9' || c == '-'
  }

  predicate ValidRegistration(c: Command) {
    && 3 <= |c.strategyId| <= 64 && 'a' <= c.strategyId[0] <= 'z'
    && (forall i :: 0 <= i < |c.strategyId| ==> SlugChar(c.strategyId[i]))
    && |c.name| <= 100 && (exists i :: 0 <= i < |c.name| && c.name[i] != ' ')
    && |c.description| <= 500
  }

  // ---------------------------------------------------------------------------------------------
  // The steps between two awaits

  /** Accepting a command: checked, reconciled, and written to disk before anything is sent. */
  function Submit(w: World, c: Command, marks: Marks, quoted: int): Result<World, Fault> {
    var d := w.disk;
    :- Need(d.pending.None?, RecoveryPending);
    :- Need(c.id !in d.used, Replayed);
    var _ :- Lift(Reconcile(d.ledger, Observe(d.ledger, w.chain.custody), marks));
    if c.kind == REGISTER then
      :- Need(ValidRegistration(c), InvalidRegistration);
      var done :- Lift(Create(d.ledger, c.strategyId, c.signer, c.name, c.description, DEFAULT_FEE));
      Ok(w.(disk := d.(ledger := done.state, used := d.used + [c.id])))
    else
      var plan :- MakePlan(d.ledger, c, marks, quoted);
      Ok(w.(disk := d.(pending := Some(plan))))
  }

  function FillOf(plan: Plan, e: Execution): Fill {
    var c := plan.command;
    if c.side == SHORT_OPEN then
      Fill(c.strategyId, c.id, Some(plan.asset), c.side, e.quantity, e.escrow - e.cash, 0, plan.lot,
           Some(e.cash), Some(e.escrow))
    else
      Fill(c.strategyId, c.id, Some(plan.asset), c.side, e.quantity, e.cash, 0, plan.lot, None, None)
  }

  /** What the vault contract lets happen for a plan; anything else reverts. */
  ghost predicate Permitted(plan: Plan, e: Execution, custody: Custody) {
    match plan.command.kind {
      case ALLOCATE => e.cash == plan.amount
      case REDEEM => e.cash == plan.amount > 0
      case PAY_PROVIDER => e.cash == plan.amount > 0
      case ORDER =>
        (match plan.command.side {
           case BUY => e.cash == plan.amount && e.quantity >= plan.limit && e.quantity > 0
           case SELL => e.quantity == plan.amount && e.cash >= plan.limit && e.cash > 0
           case SHORT_OPEN =>
             && plan.lot !in custody.shorts
             && e.quantity == plan.amount && e.cash == plan.collateral && e.escrow - e.cash >= plan.limit > 0
           case SHORT_CLOSE =>
             && plan.lot in custody.shorts && custody.shorts[plan.lot].debt == plan.amount == e.quantity
             && e.escrow == custody.shorts[plan.lot].escrow && 0 < e.cash <= plan.limit
           case UnknownSide => false
         })
      case _ => false
    }
  }

  /** What the transaction moves. */
  function EffectOn(custody: Custody, plan: Plan, e: Execution): Custody {
    match plan.command.kind {
      case ALLOCATE => custody.(cash := custody.cash + e.cash)
      case ORDER => MoveCustody(custody, FillOf(plan, e), plan.asset)
      case _ => custody.(cash := custody.cash - e.cash)
    }
  }

  /** Withdrawals are computed again on a copy of the ledger before they are sent. */
  function BeforeSending(l: State, plan: Plan): Result<(), Fault> {
    var c := plan.command;
    match c.kind {
      case REDEEM =>
        var i :- Lift(FindStrategy(l, c.strategyId));
        var done :- Lift(Redeem(l, c.strategyId, c.signer, OwnedUnits(l.strategies[i], c.signer), c.id, plan.marks));
        :- Need(done.amount == plan.amount, WithdrawalChanged);
        Ok(())
      case PAY_PROVIDER =>
        var done :- Lift(PayProvider(l, c.strategyId, c.id));
        :- Need(done.amount == plan.amount, WithdrawalChanged);
        Ok(())
      case _ => Ok(())
    }
  }

  /** An order is anchored in an earlier transaction than the one that executes it. */
  function Anchor(w: World): Result<World, Fault> {
    var pending := w.disk.pending;
    :- Need(pending.Some? && pending.value.command.kind == ORDER, NotExecuted);
    Ok(w.(chain := w.chain.(anchors := w.chain.anchors + {pending.value.command.id})))
  }

  /** The transaction of the pending plan takes effect, once, under the id of the command. */
  function Send(w: World, e: Execution): Result<World, Fault> {
    var pending := w.disk.pending;
    :- Need(pending.Some?, NotExecuted);
    var plan := pending.value;
    var id := plan.command.id;
    var _ :- BeforeSending(w.disk.ledger, plan);
    :- Need(id !in w.chain.effects, AlreadyExecuted);
    :- Need(id !in w.chain.reverted, Reverted);
    :- Need(plan.command.kind == ORDER ==> id in w.chain.anchors, NotExecuted);
    Ok(w.(chain := w.chain.(custody := EffectOn(w.chain.custody, plan, e), effects := w.chain.effects[id := e])))
  }

  /** A transaction of the pending plan reverts, be it the anchoring one; the journal remembers it and never sends it again. */
  function Revert(w: World): Result<World, Fault> {
    var pending := w.disk.pending;
    :- Need(pending.Some? && pending.value.command.id !in w.chain.effects, AlreadyExecuted);
    Ok(w.(chain := w.chain.(reverted := w.chain.reverted + {pending.value.command.id})))
  }

  /** The checks of the receipt against the plan. */
  predicate Attributed(plan: Plan, e: Execution) {
    match plan.command.kind {
      case ORDER =>
        && (if plan.command.side == BUY then e.cash == plan.amount else e.quantity == plan.amount)
        && (match plan.command.side
            case BUY => e.quantity >= plan.limit
            case SELL => e.cash >= plan.limit
            case SHORT_CLOSE => e.cash <= plan.limit
            case _ => e.cash == plan.collateral)
      case _ => e.cash == plan.amount
    }
  }

  /** The ledger after a plan, given what its transaction reported and the marks of the moment. */
  function Settled(l: State, plan: Plan, e: Execution, now: Marks): Result<State, Fault> {
    var c := plan.command;
    match c.kind {
      case ALLOCATE =>
        var done :- Lift(Allocate(l, c.strategyId, c.signer, e.cash, c.id, plan.marks));
        Ok(done.state)
      case REDEEM =>
        var i :- Lift(FindStrategy(l, c.strategyId));
        var done :- Lift(Redeem(l, c.strategyId, c.signer, OwnedUnits(l.strategies[i], c.signer), c.id, plan.marks));
        :- Need(done.amount == plan.amount, WithdrawalChanged);
        Ok(done.state)
      case PAY_PROVIDER =>
        var done :- Lift(PayProvider(l, c.strategyId, c.id));
        :- Need(done.amount == plan.amount, WithdrawalChanged);
        Ok(done.state)
      case ORDER =>
        var done :- Lift(RecordFill(l, FillOf(plan, e)));
        Closed(done.state, c, now)
      case _ => Err(UnsupportedOperation)
    }
  }

  /** A sale or a close that leaves the strategy flat crystallizes the fee. */
  function Closed(l: State, c: Command, now: Marks): Result<State, Fault> {
    var i :- Lift(FindStrategy(l, c.strategyId));
    if (c.side == SELL || c.side == SHORT_CLOSE) && Flat(l.strategies[i]) then
      var done :- Lift(Crystallize(l, c.strategyId, now));
      Ok(done.state)
    else
      Ok(l)
  }

  /** The atomic commit: new ledger, used id and the end of the plan, in one write. */
  function Commit(w: World, now: Marks): Result<World, Fault> {
    var d := w.disk;
    :- Need(d.pending.Some? && d.pending.value.command.id in w.chain.effects, NotExecuted);
    var plan := d.pending.value;
    var e := w.chain.effects[plan.command.id];
    :- Need(Attributed(plan, e), AttributionMismatch);
    var next :- Settled(d.ledger, plan, e, now);
    var _ :- Lift(Reconcile(next, Observe(next, w.chain.custody), now));
    Ok(w.(disk := Disk(next, d.used + [plan.command.id], None)))
  }
}
