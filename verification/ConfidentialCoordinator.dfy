/**
 The coordinator as the object it is: its books in memory, the copy in its store, and the two operations that
 change them. Each is proved against the functions of module Coordinator, including what a refusal leaves behind.
 */
module ConfidentialCoordinators {
  import opened Prelude
  import opened Claims
  import opened Coordinator
  import opened CoordinatorLaws
  import opened DraftLaws
  import Assoc

  class ConfidentialCoordinator {
    var state: Books
    var stored: Books

    /** A fresh store, or the restart after a crash: the memory is read from the store. */
    constructor (configured: seq<(string, Party)>, read: Option<Books>)
      ensures state == stored == if read.Some? then read.value else NewBooks(configured)
      ensures read.None? ==> ValidBooks(stored) && Image(stored) == EMPTY_VAULT && stored.pending.None?
    {
      hide SumCash, SumAsset, SoundStrategy, NewStrategies;
      NewStrategiesAreSound(configured);
      state := if read.Some? then read.value else NewBooks(configured);
      stored := if read.Some? then read.value else NewBooks(configured);
    }

    method TotalCash() returns (cash: int)
      ensures cash == SumCash(state.strategies)
    {
      var i := 0;
      cash := 0;
      while i < |state.strategies|
        invariant 0 <= i <= |state.strategies|
        invariant cash + SumCash(state.strategies[i..]) == SumCash(state.strategies)
      {
        cash := cash + state.strategies[i].cash;
        i := i + 1;
      }
    }

    method TotalAsset() returns (asset: int)
      ensures asset == SumAsset(state.strategies)
    {
      var i := 0;
      asset := 0;
      while i < |state.strategies|
        invariant 0 <= i <= |state.strategies|
        invariant asset + SumAsset(state.strategies[i..]) == SumAsset(state.strategies)
      {
        asset := asset + state.strategies[i].asset;
        i := i + 1;
      }
    }

    /** `reconcile`: totals against the vault at the head read now, then units strategy by strategy. */
    method CheckBooks(later: seq<Block>) returns (outcome: Outcome<Stop>)
      ensures outcome == Reconcile(state, VaultAfter(later))
    {
      var cash := TotalCash();
      var asset := TotalAsset();
      var v := VaultAfter(later);
      if cash != v.cash || asset != v.asset {
        return Fail(CustodyMismatch);
      }
      var i := 0;
      while i < |state.strategies|
        invariant 0 <= i <= |state.strategies|
        invariant UnitsAddUp(state.strategies) == UnitsAddUp(state.strategies[i..])
      {
        if SumUnits(state.strategies[i].investors) != state.strategies[i].units {
          return Fail(UnitsMismatch);
        }
        i := i + 1;
      }
      return Pass;
    }

    /** The receipt booked into a copy of the state, field by field. */
    method Book(p: Pending, e: Applied, i: nat) returns (next: Books)
      requires i < |state.strategies|
      ensures next == BookReceipt(state, p, e, i)
    {
      var s, a := state.strategies[i], p.approval;
      if a.kind == CREDIT {
        s := s.(cash := s.cash + a.amount);
        s := s.(units := s.units + p.units);
        s := s.(investors := Assoc.Put(s.investors, p.actor, Assoc.Get(s.investors, p.actor, 0) + p.units));
      }
      if a.kind == SWAP {
        if a.spendsCash {
          s := s.(cash := s.cash - a.amount);
          s := s.(asset := s.asset + e.out);
        } else {
          s := s.(cash := s.cash + e.out);
          s := s.(asset := s.asset - a.amount);
        }
      }
      if a.kind == WITHDRAW {
        s := s.(cash := s.cash - a.amount);
        s := s.(units := s.units - p.units);
        s := s.(investors := Assoc.Delete(s.investors, p.actor));
      }
      next := state.(strategies := state.strategies[i := s]);
      next := next.(sequence := state.sequence + 1, checkpoint := e.checkpoint, used := next.used + [p.clientId]);
      next := next.(history := next.history + [HistoryRow(next.sequence, a.requestId, p.strategyId, e.out)]);
      next := next.(pending := None);
    }

    /**
     Recovery at the finalized head, reconciled at the head read after it. A refusal by the books leaves both
     copies alone; a refusal by the reconciliation leaves the memory advanced and the store where it was, unless
     an expired approval was dropped, which is stored before.
     */
    method Recover(final: seq<Block>, later: seq<Block>) returns (outcome: Outcome<Stop>)
      requires final != []
      modifies this
      ensures
        var taken, v := Take(old(state), final), VaultAfter(final);
        if taken.Err? then outcome == Fail(taken.error) && state == old(state) && stored == old(stored)
        else
          && state == taken.value
          && outcome == Reconcile(state, VaultAfter(later))
          && (v.sequence == old(state).sequence ==>
                stored == if state != old(state) then state else old(stored))
          && (v.sequence != old(state).sequence ==>
                stored == if outcome.Pass? then state else old(stored))
      ensures outcome.Pass? <==> Coordinator.Recover(old(state), final, later).Ok?
      ensures (exists signed :: Meets(final, signed, old(state))) && VaultAfter(final).sequence != old(state).sequence ==>
        Advanced(old(state), VaultAfter(final), state)
    {
      hide SumCash, SumAsset, UnitsAddUp, VaultAfter, BookReceipt, IndexOf, EventsIn, Meets, Advanced;
      if signed :| Meets(final, signed, state) {
        RecoveryIsExact(final, signed, state);
      }
      var v := VaultAfter(final);
      if v.sequence == state.sequence {
        if v.checkpoint != state.checkpoint {
          return Fail(CheckpointMismatch);
        }
        if state.pending.Some? && HeadTime(final) > state.pending.value.approval.deadline {
          state := state.(pending := None);
          stored := state;
        }
        outcome := CheckBooks(later);
        return;
      }
      if state.pending.None? || v.sequence != state.sequence + 1 {
        return Fail(CompetingInstance);
      }
      var p := state.pending.value;
      var events := EventsIn(final, p.fromBlock, p.approval.sequence, p.approval.requestId);
      if |events| != 1 {
        return Fail(MissingReceipt);
      }
      var e := events[0];
      if e.approval != p.approval || e.checkpoint != v.checkpoint
         || After(state.checkpoint, p.approval, e.out) != v.checkpoint {
        return Fail(BindingMismatch);
      }
      var i := IndexOf(state.strategies, p.strategyId);
      if i >= |state.strategies| {
        return Fail(UnknownStrategy);
      }
      var next := Book(p, e, i);
      state := next;
      outcome := CheckBooks(later);
      if outcome.Pass? {
        stored := next;
      }
    }

    /** A command after a successful recovery: the new pending approval is stored before it is returned. */
    method Command(r: Request, now: int, head: nat, d: Deposit, quoted: int, slippageBps: int)
      returns (reply: Result<Approval, Stop>)
      modifies this
      ensures
        var signed := Sign(old(state), r, now, head, d, quoted, slippageBps);
        if signed.Err? then reply == Err(signed.error) && state == old(state) && stored == old(stored)
        else
          && state == signed.value && state.pending.Some?
          && reply == Ok(state.pending.value.approval)
          && stored == if old(state).pending.Some? then old(stored) else state
      ensures SoundBooks(old(state).strategies) ==>
        Replied(old(state), r, now, head, d, quoted, slippageBps, reply, state)
    {
      hide Draft, IndexOf, Replied, SoundBooks;
      if SoundBooks(state.strategies) {
        ReplyIsExact(state, r, now, head, d, quoted, slippageBps);
      }
      if r.deadline < now || r.deadline > now + CLIENT_WINDOW {
        return Err(ClientExpired);
      }
      if r.clientId in state.used {
        return Err(ClientReplay);
      }
      if state.pending.Some? {
        var p := state.pending.value;
        if p.clientId != r.clientId || p.envelopeHash != r.envelopeHash {
          return Err(AnotherPending);
        }
        return Ok(p.approval);
      }
      var i := IndexOf(state.strategies, r.strategyId);
      if i >= |state.strategies| {
        return Err(UnknownStrategy);
      }
      var drafted := Draft(state, state.strategies[i], r, now, head, d, quoted, slippageBps);
      if drafted.Err? {
        return Err(drafted.error);
      }
      state := state.(pending := Some(drafted.value));
      stored := state;
      reply := Ok(drafted.value.approval);
    }
  }

  /**
   Restarting from the store of any reachable system is the start of that system, and it recovers: the books it then
   has are an exact image of the vault, whatever the crash interrupted.
   */
  lemma RestartRecovers(s: System)
    requires Inv(s)
    ensures Step(s, Start).mem == Some(s.disk) && Inv(Step(s, Start))
    ensures var recovered := Coordinator.Recover(s.disk, Finalized(s), Finalized(s));
      recovered.Ok? && Image(recovered.value) == VaultAfter(Finalized(s))
  {
    hide Take, Reconcile, VaultAfter, ValidChain, Image;
    StepKeeps(s, Start);
    var final := Finalized(s);
    assert final[..|final|] == final;
    RecoversAtHead(s.disk, |final|, final, s.signed);
  }

  /** The object's recovery is the system's two steps: read and, when the reconciliation passes, save. */
  lemma RecoveryIsReadAndSave(s: System, later: System)
    requires Inv(s) && s.mem.Some? && Inv(later)
    requires later == Step(s, Read).(chain := later.chain, final := later.final)
    requires s.final <= later.final && Finalized(s) <= Finalized(later) && later.signed == s.signed
    ensures Coordinator.Recover(s.mem.value, Finalized(s), Finalized(later)).Ok?
      ==> Step(later, Save).disk == Coordinator.Recover(s.mem.value, Finalized(s), Finalized(later)).value
  {
    hide Take, Reconcile, VaultAfter, ValidChain, Meets;
    TakeMeets(Finalized(s), s.signed, s.disk);
    TakeTwice(Finalized(s), s.signed, s.disk);
    ReadIs(s);
  }
}
