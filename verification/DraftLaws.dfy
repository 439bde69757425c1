/** What the coordinator signs and what it books: the amounts of an approval, and the books after its receipt. */
module DraftLaws {
  import opened Prelude
  import opened Division
  import opened Claims
  import opened Coordinator
  import opened CoordinatorLaws
  import Assoc

  // ---------------------------------------------------------------------------------------------
  // Approvals

  /** An approval is bound to the request, to the stored state and to a time. */
  ghost predicate IsBound(b: Books, s: Strategy, r: Request, now: int, head: nat, p: Pending) {
    var a := p.approval;
    && p.actor == r.actor && p.clientId == r.clientId == a.requestId && p.strategyId == s.id
    && p.envelopeHash == r.envelopeHash && p.fromBlock == head
    && a.sequence == b.sequence + 1 && a.previous == b.checkpoint
    && a.deadline <= r.deadline && a.deadline <= now + 180 && (a.deadline == r.deadline || a.deadline == now + 180)
  }

  /** The amounts: units at the value before the deposit, a redemption in proportion, a target of the cash. */
  ghost predicate DraftIs(
      b: Books, s: Strategy, r: Request, now: int, head: nat, d: Deposit, quoted: int, slippageBps: int, p: Pending)
  {
    var a := p.approval;
    && IsBound(b, s, r, now, head, p)
    && match r.kind
       case ALLOCATE =>
         && a.kind == CREDIT && a.spendsCash && a.recipient == r.actor && a.minOut == 0
         && s.asset == 0 && d.owner == r.actor && !d.consumed && a.amount == d.amount == r.amount > 0 && p.units > 0
         && (if s.units == 0 then p.units == a.amount
             else s.cash > 0 && IsFloor(p.units, a.amount * s.units, s.cash))
       case TARGET =>
         && a.kind == SWAP && r.actor == s.provider && a.recipient == 0 && p.units == 0 && a.amount > 0
         && (r.targetBps == 0 || r.targetBps == 2500) && a.spendsCash == (r.targetBps > 0)
         && (if a.spendsCash then s.asset == 0 && IsFloor(a.amount, s.cash * r.targetBps, 10000) else a.amount == s.asset)
         && a.minOut > 0 && IsFloor(a.minOut, quoted * (10000 - slippageBps), 10000)
       case REDEEM =>
         && a.kind == WITHDRAW && a.spendsCash && a.recipient == r.actor && a.minOut == 0
         && s.asset == 0 && p.units == Assoc.Get(s.investors, r.actor, 0) > 0 && a.amount > 0
         && IsFloor(a.amount, s.cash * p.units, s.units)
       case OTHER => false
  }

  /** When a command gets an approval: it is the requester's own, and nothing comes out as dust. */
  ghost predicate Draftable(s: Strategy, r: Request, d: Deposit, quoted: int, slippageBps: int) {
    match r.kind
    case ALLOCATE =>
      && s.asset == 0 && d.owner == r.actor && !d.consumed && d.amount == r.amount > 0
      && (s.units == 0 || (s.cash > 0 && d.amount * s.units >= s.cash))
    case TARGET =>
      && r.actor == s.provider && quoted * (10000 - slippageBps) >= 10000
      && ((r.targetBps == 2500 && s.asset == 0 && s.cash * 2500 >= 10000) || (r.targetBps == 0 && s.asset > 0))
    case REDEEM =>
      && s.asset == 0 && Assoc.Get(s.investors, r.actor, 0) > 0 && s.cash * Assoc.Get(s.investors, r.actor, 0) >= s.units
    case OTHER => false
  }

  lemma QuotPositiveIff(a: int, b: int)
    requires b > 0
    ensures Quot(a, b) > 0 <==> a >= b
    ensures Quot(a, b) > 0 ==> IsFloor(Quot(a, b), a, b)
  {
    if a >= 0 {
      QuotIsFloor(a, b);
      if a >= b {
        FloorAtLeast(a, b, 1);
      } else {
        FloorAtMost(a, b, 0);
      }
    } else {
      FloorAtLeast(-a, b, 0);
    }
  }

  lemma HolderHasUnits(s: Strategy, owner: Party)
    requires SoundStrategy(s)
    ensures 0 <= Assoc.Get(s.investors, owner, 0) <= s.units
  {
    HolderBounds(s.investors, owner);
  }

  lemma DraftIsExact(b: Books, s: Strategy, r: Request, now: int, head: nat, d: Deposit, quoted: int, slippageBps: int)
    requires SoundStrategy(s)
    ensures
      var drafted := Draft(b, s, r, now, head, d, quoted, slippageBps);
      && (drafted.Ok? <==> Draftable(s, r, d, quoted, slippageBps))
      && (drafted.Ok? ==> DraftIs(b, s, r, now, head, d, quoted, slippageBps, drafted.value))
  {
    hide Quot, IsFloor, SumUnits, Assoc.Distinct, Assoc.Get;
    match r.kind
    case ALLOCATE =>
      if s.units != 0 && s.cash > 0 {
        QuotPositiveIff(d.amount * s.units, s.cash);
      }
    case TARGET =>
      QuotPositiveIff(s.cash * r.targetBps, 10000);
      QuotPositiveIff(quoted * (10000 - slippageBps), 10000);
    case REDEEM =>
      HolderHasUnits(s, r.actor);
      if s.units > 0 {
        QuotPositiveIff(s.cash * Assoc.Get(s.investors, r.actor, 0), s.units);
      }
    case OTHER =>
  }

  /**
   The answer to a command: the pending approval when it is a retry of that very command, a new one when there is none
   and it can be drafted, and otherwise a refusal that changes nothing.
   */
  ghost predicate Replied(b: Books, r: Request, now: int, head: nat, d: Deposit, quoted: int, slippageBps: int,
                          reply: Result<Approval, Stop>, after: Books)
  {
    var timely := now <= r.deadline <= now + 900 && r.clientId !in b.used;
    var i := IndexOf(b.strategies, r.strategyId);
    && (reply.Err? || b.pending.Some? ==> after == b)
    && (if b.pending.Some? then
          var p := b.pending.value;
          && (reply.Ok? <==> timely && p.clientId == r.clientId && p.envelopeHash == r.envelopeHash)
          && (reply.Ok? ==> reply.value == p.approval)
        else
          && (reply.Ok? <==> timely && i < |b.strategies| && Draftable(b.strategies[i], r, d, quoted, slippageBps))
          && (reply.Ok? ==>
                && after.pending.Some? && after == b.(pending := after.pending)
                && reply.value == after.pending.value.approval && i < |b.strategies|
                && DraftIs(b, b.strategies[i], r, now, head, d, quoted, slippageBps, after.pending.value)))
  }

  lemma ReplyIsExact(b: Books, r: Request, now: int, head: nat, d: Deposit, quoted: int, slippageBps: int)
    requires SoundBooks(b.strategies)
    ensures
      var signed := Sign(b, r, now, head, d, quoted, slippageBps);
      match signed
      case Err(stop) => Replied(b, r, now, head, d, quoted, slippageBps, Err(stop), b)
      case Ok(after) =>
        after.pending.Some? && Replied(b, r, now, head, d, quoted, slippageBps, Ok(after.pending.value.approval), after)
  {
    hide Draft, Draftable, DraftIs, SoundStrategy;
    var i := IndexOf(b.strategies, r.strategyId);
    if i < |b.strategies| {
      DraftIsExact(b, b.strategies[i], r, now, head, d, quoted, slippageBps);
    }
  }

  // ---------------------------------------------------------------------------------------------
  // Receipts

  /** Only this owner's holding moved. */
  ghost predicate HoldingMoved(before: seq<(Party, int)>, after: seq<(Party, int)>, owner: Party, units: int) {
    forall o :: Assoc.Get(after, o, 0) == Assoc.Get(before, o, 0) + if o == owner then units else 0
  }

  /** What the receipt of an approval makes of its strategy. */
  ghost predicate ReceiptBooked(s: Strategy, p: Pending, out: int, after: Strategy) {
    var a := p.approval;
    && after.id == s.id && after.provider == s.provider
    && match a.kind
       case CREDIT =>
         && after.cash == s.cash + a.amount && after.asset == s.asset && after.units == s.units + p.units
         && HoldingMoved(s.investors, after.investors, p.actor, p.units)
       case SWAP =>
         && after.units == s.units && after.investors == s.investors
         && (if a.spendsCash then after.cash == s.cash - a.amount && after.asset == s.asset + out
             else after.cash == s.cash + out && after.asset == s.asset - a.amount)
       case WITHDRAW =>
         && after.cash == s.cash - a.amount && after.asset == s.asset && after.units == s.units - p.units
         && HoldingMoved(s.investors, after.investors, p.actor, -Assoc.Get(s.investors, p.actor, 0))
         && !Assoc.Has(after.investors, p.actor)
  }

  lemma ReceiptIsExact(s: Strategy, p: Pending, out: int)
    requires SoundStrategy(s)
    ensures ReceiptBooked(s, p, out, BookStrategy(s, p, out))
  {
    hide SumUnits, Assoc.Put, Assoc.Delete, Assoc.Get, Assoc.Has, Assoc.Distinct;
    forall o
      ensures Assoc.Get(Assoc.Put(s.investors, p.actor, Assoc.Get(s.investors, p.actor, 0) + p.units), o, 0)
        == Assoc.Get(s.investors, o, 0) + if o == p.actor then p.units else 0
      ensures Assoc.Get(Assoc.Delete(s.investors, p.actor), o, 0)
        == Assoc.Get(s.investors, o, 0) - if o == p.actor then Assoc.Get(s.investors, p.actor, 0) else 0
      ensures !Assoc.Has(Assoc.Delete(s.investors, p.actor), p.actor)
    {
      Assoc.HasPut(s.investors, p.actor, Assoc.Get(s.investors, p.actor, 0) + p.units, o);
      Assoc.HasDelete(s.investors, p.actor, o);
      Assoc.HasDelete(s.investors, p.actor, p.actor);
      AbsentGetsNothing(Assoc.Delete(s.investors, p.actor), p.actor);
    }
  }

  lemma {:induction false} AbsentGetsNothing(es: seq<(Party, int)>, key: Party)
    ensures !Assoc.Has(es, key) ==> Assoc.Get(es, key, 0) == 0
  {
    if es != [] {
      AbsentGetsNothing(es[1..], key);
    }
  }

  /** The books after recovery has booked the application of the pending approval: its strategy, and nothing else. */
  ghost predicate Advanced(b: Books, v: Vault, after: Books) {
    && b.pending.Some? && v.checkpoint.After?
    && var p, out := b.pending.value, v.checkpoint.out;
    && after.sequence == b.sequence + 1 == v.sequence && after.checkpoint == v.checkpoint && after.pending == None
    && after.used == b.used + [p.clientId]
    && after.history == b.history + [HistoryRow(after.sequence, p.approval.requestId, p.strategyId, out)]
    && |after.strategies| == |b.strategies|
    && exists i :: 0 <= i < |b.strategies| && b.strategies[i].id == p.strategyId
        && ReceiptBooked(b.strategies[i], p, out, after.strategies[i])
        && forall j :: 0 <= j < |b.strategies| && j != i ==> after.strategies[j] == b.strategies[j]
  }

  /** What recovery finds is what it books. */
  lemma RecoveryIsExact(final: seq<Block>, signed: set<Approval>, b: Books)
    requires Meets(final, signed, b)
    ensures Take(b, final).Ok?
    ensures VaultAfter(final).sequence != b.sequence ==> Advanced(b, VaultAfter(final), Take(b, final).value)
  {
    hide Take, ValidChain, SumCash, SumAsset, EventsIn, Fits, NoRepeats, RequestsOf, DigestedBy, SoundStrategy,
      OnlyPendingLives, OutFits, VaultAfter, ReceiptBooked, BookStrategy;
    TakeIs(final, signed, b);
    var v := VaultAfter(final);
    if v.sequence != b.sequence {
      var p := b.pending.value;
      var i := IndexOf(b.strategies, p.strategyId);
      ReceiptIsExact(b.strategies[i], p, v.checkpoint.out);
    }
  }

  // ---------------------------------------------------------------------------------------------
  // Reconciliation

  /** The totals are those of the vault. */
  ghost predicate Covers(b: Books, v: Vault) {
    SumCash(b.strategies) == v.cash && SumAsset(b.strategies) == v.asset
  }

  /** The holdings of every strategy add up to its units. */
  ghost predicate HoldingsAddUp(b: Books) {
    forall i :: 0 <= i < |b.strategies| ==> SumUnits(b.strategies[i].investors) == b.strategies[i].units
  }

  /** Books pass exactly when their totals are the vault's and all holdings add up; custody is what is checked first. */
  lemma ReconciledIff(b: Books, v: Vault)
    ensures Reconcile(b, v) == Pass <==> Covers(b, v) && HoldingsAddUp(b)
    ensures Reconcile(b, v) == Fail(CustodyMismatch) <==> !Covers(b, v)
    ensures Reconcile(b, v) == Fail(UnitsMismatch) <==> Covers(b, v) && !HoldingsAddUp(b)
  {
    hide SumCash, SumAsset;
    AddUpIff(b.strategies);
  }

  lemma {:induction false} AddUpIff(strategies: seq<Strategy>)
    ensures UnitsAddUp(strategies) <==>
      forall i :: 0 <= i < |strategies| ==> SumUnits(strategies[i].investors) == strategies[i].units
  {
    hide SumUnits;
    if strategies != [] {
      AddUpIff(strategies[1..]);
      assert forall i :: 0 < i < |strategies| ==> strategies[i] == strategies[1..][i - 1];
      assert forall i :: 0 <= i < |strategies[1..]| ==> strategies[1..][i] == strategies[i + 1];
    }
  }
}
