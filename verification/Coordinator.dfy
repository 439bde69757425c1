/**
 The two-party protocol between the confidential signer and the vault (src/integration/coordinator.js): the
 coordinator signs one approval at a time, the vault applies it at most once, and the coordinator books it
 from the finalized event. The vault is the environment; its rules are stated here as assumptions.
 */
module Coordinator {
  import opened Prelude
  import opened Division
  import opened Claims
  import Assoc

  // ---------------------------------------------------------------------------------------------
  // Approvals and the vault

  datatype Kind = CREDIT | SWAP | WITHDRAW

  /** A checkpoint digests everything applied so far; a digest is represented by what it digests. */
  datatype Checkpoint = Genesis | After(previous: Checkpoint, approval: Approval, out: int)

  datatype Approval = Approval(
    sequence: nat, previous: Checkpoint, requestId: string, kind: Kind, spendsCash: bool,
    amount: int, minOut: int, recipient: Party, deadline: int)

  /** The event of an application. */
  datatype Applied = Applied(approval: Approval, out: int, checkpoint: Checkpoint)

  /** A block, as far as the vault is concerned; several transactions of one block are blocks of equal time. */
  datatype Block = Block(time: int, applied: Option<Applied>)

  datatype Vault = Vault(sequence: nat, checkpoint: Checkpoint, cash: int, asset: int)

  const EMPTY_VAULT := Vault(0, Genesis, 0, 0)

  /** What an application does to the vault's accounting. */
  function ApplyTo(v: Vault, a: Approval, out: int): Vault {
    var at := v.(sequence := v.sequence + 1, checkpoint := After(v.checkpoint, a, out));
    match a.kind
    case CREDIT => at.(cash := v.cash + a.amount)
    case SWAP =>
      if a.spendsCash then at.(cash := v.cash - a.amount, asset := v.asset + out)
      else at.(cash := v.cash + out, asset := v.asset - a.amount)
    case WITHDRAW => at.(cash := v.cash - a.amount)
  }

  function VaultAfter(blocks: seq<Block>): Vault {
    if blocks == [] then EMPTY_VAULT
    else
      var before, last := VaultAfter(blocks[..|blocks| - 1]), blocks[|blocks| - 1];
      if last.applied.None? then before else ApplyTo(before, last.applied.value.approval, last.applied.value.out)
  }

  /** The contract: next in sequence, built on the present checkpoint, signed, in time, and covered. */
  ghost predicate Applicable(v: Vault, time: int, e: Applied, signed: set<Approval>) {
    var a := e.approval;
    && a in signed
    && a.sequence == v.sequence + 1 && a.previous == v.checkpoint
    && time <= a.deadline && a.amount > 0
    && e.checkpoint == After(v.checkpoint, a, e.out)
    && match a.kind
       case CREDIT => e.out == a.amount
       case SWAP => e.out >= a.minOut && a.amount <= if a.spendsCash then v.cash else v.asset
       case WITHDRAW => e.out == a.amount && a.amount <= v.cash
  }

  ghost predicate ValidChain(blocks: seq<Block>, signed: set<Approval>) {
    blocks == []
    || (var front, last := blocks[..|blocks| - 1], blocks[|blocks| - 1];
        && ValidChain(front, signed)
        && (front != [] ==> front[|front| - 1].time <= last.time)
        && (last.applied.Some? ==> Applicable(VaultAfter(front), last.time, last.applied.value, signed)))
  }

  /** `queryFilter`: the events of one approval in the blocks from `start` on. */
  function EventsIn(blocks: seq<Block>, start: nat, sequence: nat, requestId: string): seq<Applied> {
    if |blocks| <= start then []
    else
      var last := blocks[|blocks| - 1].applied;
      EventsIn(blocks[..|blocks| - 1], start, sequence, requestId)
      + if last.Some? && last.value.approval.sequence == sequence && last.value.approval.requestId == requestId
        then [last.value] else []
  }

  // ---------------------------------------------------------------------------------------------
  // The coordinator's books

  datatype Strategy = Strategy(
    id: string, provider: Party, cash: int, asset: int, units: int, investors: seq<(Party, int)>)

  datatype Pending = Pending(
    actor: Party, clientId: string, strategyId: string, approval: Approval, envelopeHash: string,
    fromBlock: nat, units: int)

  datatype HistoryRow = HistoryRow(sequence: nat, requestId: string, strategyId: string, out: int)

  datatype Books = Books(
    sequence: nat, checkpoint: Checkpoint, used: seq<string>, history: seq<HistoryRow>,
    pending: Option<Pending>, strategies: seq<Strategy>)

  datatype Stop =
    | CheckpointMismatch | CompetingInstance | MissingReceipt | BindingMismatch | CustodyMismatch | UnitsMismatch
    | ClientExpired | ClientReplay | AnotherPending | UnknownStrategy | NotFlat | NoDeposit | DepositMismatch
    | InsolventStrategy | DustUnits | WrongProvider | UnsupportedTarget | AlreadyPositioned | EmptyOrder | DustQuote
    | NoClaim | DustClaim | UnknownCommand

  function SumCash(strategies: seq<Strategy>): int {
    if strategies == [] then 0 else strategies[0].cash + SumCash(strategies[1..])
  }

  function SumAsset(strategies: seq<Strategy>): int {
    if strategies == [] then 0 else strategies[0].asset + SumAsset(strategies[1..])
  }

  function SumUnits(investors: seq<(Party, int)>): int {
    if investors == [] then 0 else investors[0].1 + SumUnits(investors[1..])
  }

  predicate UnitsAddUp(strategies: seq<Strategy>) {
    strategies == [] || (SumUnits(strategies[0].investors) == strategies[0].units && UnitsAddUp(strategies[1..]))
  }

  function Reconcile(b: Books, v: Vault): Outcome<Stop> {
    if SumCash(b.strategies) != v.cash || SumAsset(b.strategies) != v.asset then Fail(CustodyMismatch)
    else if !UnitsAddUp(b.strategies) then Fail(UnitsMismatch)
    else Pass
  }

  function IndexOf(strategies: seq<Strategy>, id: string): (i: nat)
    ensures i <= |strategies|
    ensures i < |strategies| ==> strategies[i].id == id
  {
    if strategies == [] || strategies[0].id == id then 0 else 1 + IndexOf(strategies[1..], id)
  }

  /** Booking the receipt of a pending approval in its strategy. */
  function BookStrategy(s: Strategy, p: Pending, out: int): Strategy {
    var a := p.approval;
    match a.kind
    case CREDIT =>
      s.(cash := s.cash + a.amount, units := s.units + p.units,
         investors := Assoc.Put(s.investors, p.actor, Assoc.Get(s.investors, p.actor, 0) + p.units))
    case SWAP =>
      if a.spendsCash then s.(cash := s.cash - a.amount, asset := s.asset + out)
      else s.(cash := s.cash + out, asset := s.asset - a.amount)
    case WITHDRAW =>
      s.(cash := s.cash - a.amount, units := s.units - p.units, investors := Assoc.Delete(s.investors, p.actor))
  }

  function BookReceipt(b: Books, p: Pending, e: Applied, i: nat): Books
    requires i < |b.strategies|
  {
    b.(strategies := b.strategies[i := BookStrategy(b.strategies[i], p, e.out)],
       sequence := b.sequence + 1, checkpoint := e.checkpoint, used := b.used + [p.clientId], pending := None,
       history := b.history + [HistoryRow(b.sequence + 1, p.approval.requestId, p.strategyId, e.out)])
  }

  function HeadTime(blocks: seq<Block>): int
    requires blocks != []
  {
    blocks[|blocks| - 1].time
  }

  /** What recovery makes of the books, read at the finalized head: drop what has expired, or book what was applied. */
  function Take(b: Books, final: seq<Block>): Result<Books, Stop>
    requires final != []
  {
    var v := VaultAfter(final);
    if v.sequence == b.sequence then
      :- Need(v.checkpoint == b.checkpoint, CheckpointMismatch);
      Ok(if b.pending.Some? && HeadTime(final) > b.pending.value.approval.deadline then b.(pending := None) else b)
    else
      :- Need(b.pending.Some? && v.sequence == b.sequence + 1, CompetingInstance);
      var p := b.pending.value;
      var events := EventsIn(final, p.fromBlock, p.approval.sequence, p.approval.requestId);
      :- Need(|events| == 1, MissingReceipt);
      var e := events[0];
      :- Need(e.approval == p.approval && e.checkpoint == v.checkpoint
              && After(b.checkpoint, p.approval, e.out) == v.checkpoint, BindingMismatch);
      var i := IndexOf(b.strategies, p.strategyId);
      :- Need(i < |b.strategies|, UnknownStrategy);
      Ok(BookReceipt(b, p, e, i))
  }

  /** Recovery, whose reconciliation reads the finalized head again: `later` is the chain it sees then. */
  function Recover(b: Books, final: seq<Block>, later: seq<Block>): Result<Books, Stop>
    requires final != []
  {
    var next :- Take(b, final);
    :- Reconcile(next, VaultAfter(later));
    Ok(next)
  }

  // ---------------------------------------------------------------------------------------------
  // Commands

  datatype CommandKind = ALLOCATE | TARGET | REDEEM | OTHER

  datatype Request = Request(
    actor: Party, clientId: string, envelopeHash: string, kind: CommandKind, strategyId: string,
    amount: int, targetBps: int, deadline: int)

  /** A deposit as the vault reports it. */
  datatype Deposit = Deposit(owner: Party, consumed: bool, amount: int)

  const MAX_TARGET_BPS := 2500
  const CLIENT_WINDOW := 900
  const APPROVAL_WINDOW := 180

  function Min(a: int, b: int): int {
    if a < b then a else b
  }

  /** The approval and the units a command stands for, fixed on the present books. */
  function Draft(b: Books, s: Strategy, r: Request, now: int, head: nat, d: Deposit, quoted: int, slippageBps: int)
    : Result<Pending, Stop>
  {
    var base := Approval(b.sequence + 1, b.checkpoint, r.clientId, CREDIT, true, 0, 0, r.actor,
                         Min(r.deadline, now + APPROVAL_WINDOW));
    var pending := Pending(r.actor, r.clientId, s.id, base, r.envelopeHash, head, 0);
    match r.kind
    case ALLOCATE =>
      :- Need(s.asset == 0, NotFlat);
      :- Need(d.owner == r.actor && !d.consumed && d.amount > 0, NoDeposit);
      :- Need(d.amount == r.amount, DepositMismatch);
      :- Need(s.units == 0 || s.cash > 0, InsolventStrategy);
      var units := if s.units == 0 then d.amount else Quot(d.amount * s.units, s.cash);
      :- Need(units > 0, DustUnits);
      Ok(pending.(approval := base.(amount := d.amount), units := units))
    case TARGET =>
      :- Need(r.actor == s.provider, WrongProvider);
      :- Need(r.targetBps == 0 || r.targetBps == MAX_TARGET_BPS, UnsupportedTarget);
      var buy := r.targetBps > 0;
      :- Need(buy ==> s.asset == 0, AlreadyPositioned);
      var amount := if buy then Quot(s.cash * r.targetBps, 10000) else s.asset;
      :- Need(amount > 0, EmptyOrder);
      var minOut := Quot(quoted * (10000 - slippageBps), 10000);
      :- Need(minOut > 0, DustQuote);
      Ok(pending.(approval := base.(kind := SWAP, spendsCash := buy, amount := amount, minOut := minOut, recipient := 0)))
    case REDEEM =>
      :- Need(s.asset == 0, NotFlat);
      var units := Assoc.Get(s.investors, r.actor, 0);
      :- Need(units > 0, NoClaim);
      :- Need(s.units != 0, NoClaim);
      var amount := Quot(s.cash * units, s.units);
      :- Need(amount > 0, DustClaim);
      Ok(pending.(approval := base.(kind := WITHDRAW, amount := amount), units := units))
    case OTHER => Err(UnknownCommand)
  }

  /** A command after recovery: refused, answered with the pending approval, or signed as the new one. */
  function Sign(b: Books, r: Request, now: int, head: nat, d: Deposit, quoted: int, slippageBps: int): Result<Books, Stop> {
    var inTime := now <= r.deadline <= now + CLIENT_WINDOW;
    :- Need(inTime, ClientExpired);
    :- Need(r.clientId !in b.used, ClientReplay);
    if b.pending.Some? then
      :- Need(b.pending.value.clientId == r.clientId && b.pending.value.envelopeHash == r.envelopeHash, AnotherPending);
      Ok(b)
    else
      var i := IndexOf(b.strategies, r.strategyId);
      :- Need(i < |b.strategies|, UnknownStrategy);
      var p :- Draft(b, b.strategies[i], r, now, head, d, quoted, slippageBps);
      Ok(b.(pending := Some(p)))
  }
}
