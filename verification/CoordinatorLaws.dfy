/** Safety of the coordinator and the vault together, in every run with crashes, restarts and reorganizations. */
module CoordinatorLaws {
  import opened Prelude
  import opened Division
  import opened Claims
  import opened Coordinator
  import Assoc

  // ---------------------------------------------------------------------------------------------
  // The chain

  lemma {:induction false} ValidPrefix(c: seq<Block>, k: nat, signed: set<Approval>)
    requires ValidChain(c, signed) && k <= |c|
    ensures ValidChain(c[..k], signed)
  {
    if k < |c| {
      assert c[..|c| - 1][..k] == c[..k];
      ValidPrefix(c[..|c| - 1], k, signed);
    } else {
      assert c[..k] == c;
    }
  }

  /** More signatures do not invalidate a chain. */
  lemma {:induction false} ValidWithMore(c: seq<Block>, signed: set<Approval>, more: set<Approval>)
    requires ValidChain(c, signed) && signed <= more
    ensures ValidChain(c, more)
  {
    if c != [] {
      ValidWithMore(c[..|c| - 1], signed, more);
    }
  }

  lemma {:induction false} TimeNeverGoesBack(c: seq<Block>, k: nat, signed: set<Approval>)
    requires ValidChain(c, signed) && 0 < k <= |c|
    ensures HeadTime(c[..k]) <= HeadTime(c)
  {
    var front := c[..|c| - 1];
    if k < |c| {
      assert front[..k] == c[..k];
      TimeNeverGoesBack(front, k, signed);
    } else {
      assert c[..k] == c;
    }
  }

  lemma {:induction false} SequenceNeverFalls(c: seq<Block>, k: nat)
    requires k <= |c|
    ensures VaultAfter(c[..k]).sequence <= VaultAfter(c).sequence
  {
    if k < |c| {
      var front := c[..|c| - 1];
      assert front[..k] == c[..k];
      SequenceNeverFalls(front, k);
    } else {
      assert c[..k] == c;
    }
  }

  /** The approvals a chain applies, in order. */
  function AppliedOn(c: seq<Block>): seq<Approval> {
    if c == [] then []
    else
      var last := c[|c| - 1].applied;
      AppliedOn(c[..|c| - 1]) + if last.Some? then [last.value.approval] else []
  }

  /** The approvals a checkpoint digests, in order. */
  function DigestedBy(at: Checkpoint): seq<Approval> {
    match at
    case Genesis => []
    case After(previous, a, _) => DigestedBy(previous) + [a]
  }

  /** The checkpoint commits to the whole history of the vault. */
  lemma {:induction false} CheckpointTellsHistory(c: seq<Block>)
    ensures DigestedBy(VaultAfter(c).checkpoint) == AppliedOn(c)
  {
    if c != [] {
      CheckpointTellsHistory(c[..|c| - 1]);
    }
  }

  lemma {:induction false} AppliedIsNumbered(c: seq<Block>, signed: set<Approval>)
    requires ValidChain(c, signed)
    ensures |AppliedOn(c)| == VaultAfter(c).sequence
    ensures forall i :: 0 <= i < |AppliedOn(c)| ==> AppliedOn(c)[i].sequence == i + 1 && AppliedOn(c)[i] in signed
  {
    if c != [] {
      AppliedIsNumbered(c[..|c| - 1], signed);
    }
  }

  lemma {:induction false} NoEventAbove(c: seq<Block>, start: nat, q: nat, id: string, signed: set<Approval>)
    requires ValidChain(c, signed) && VaultAfter(c).sequence < q
    ensures EventsIn(c, start, q, id) == []
  {
    if |c| > start {
      var front := c[..|c| - 1];
      SequenceNeverFalls(c, |c| - 1);
      NoEventAbove(front, start, q, id, signed);
    }
  }

  /** The query for the last approval applied finds its event and no other. */
  lemma {:induction false} LastEventIsUnique(c: seq<Block>, start: nat, signed: set<Approval>)
    requires ValidChain(c, signed) && start <= |c|
    requires VaultAfter(c[..start]).sequence < VaultAfter(c).sequence
    ensures
      var v := VaultAfter(c);
      && v.checkpoint.After?
      && v.checkpoint.approval.sequence == v.sequence
      && EventsIn(c, start, v.sequence, v.checkpoint.approval.requestId)
         == [Applied(v.checkpoint.approval, v.checkpoint.out, v.checkpoint)]
  {
    assert c[..|c|] == c;
    if start < |c| {
      var front, last := c[..|c| - 1], c[|c| - 1].applied;
      assert front[..start] == c[..start];
      if last.None? {
        LastEventIsUnique(front, start, signed);
      } else {
        NoEventAbove(front, start, VaultAfter(c).sequence, last.value.approval.requestId, signed);
      }
    }
  }

  // ---------------------------------------------------------------------------------------------
  // The vault follows the books

  function Image(b: Books): Vault {
    Vault(b.sequence, b.checkpoint, SumCash(b.strategies), SumAsset(b.strategies))
  }

  predicate OutFits(a: Approval, out: int) {
    if a.kind == SWAP then out >= a.minOut else out == a.amount
  }

  /** The vault is where the books are, or one step ahead by exactly the pending approval. */
  predicate Follows(v: Vault, b: Books) {
    v == Image(b)
    || (b.pending.Some? && v.checkpoint.After? && OutFits(b.pending.value.approval, v.checkpoint.out)
        && v == ApplyTo(Image(b), b.pending.value.approval, v.checkpoint.out))
  }

  predicate PendingIsNext(b: Books) {
    b.pending.Some? ==>
      b.pending.value.approval.sequence == b.sequence + 1 && b.pending.value.approval.previous == b.checkpoint
  }

  /** Of all approvals ever signed only the pending one can still be applied after time `now`. */
  ghost predicate OnlyPendingLives(signed: set<Approval>, b: Books, now: int) {
    forall a :: a in signed ==>
      a.sequence <= b.sequence || a.deadline < now || (b.pending.Some? && a == b.pending.value.approval)
  }

  lemma {:induction false} ExtensionFollows(c: seq<Block>, k: nat, signed: set<Approval>, b: Books)
    requires ValidChain(c, signed) && 0 < k <= |c|
    requires Follows(VaultAfter(c[..k]), b) && PendingIsNext(b)
    requires OnlyPendingLives(signed, b, HeadTime(c[..k]))
    ensures Follows(VaultAfter(c), b)
  {
    if k == |c| {
      assert c[..k] == c;
    } else {
      var front := c[..|c| - 1];
      assert front[..k] == c[..k];
      ExtensionFollows(front, k, signed, b);
      TimeNeverGoesBack(c, k, signed);
      OneMoreFollows(front, c[|c| - 1], HeadTime(c[..k]), signed, b);
    }
  }

  lemma OneMoreFollows(front: seq<Block>, last: Block, now: int, signed: set<Approval>, b: Books)
    requires Follows(VaultAfter(front), b) && PendingIsNext(b) && OnlyPendingLives(signed, b, now)
    requires now <= last.time
    requires last.applied.Some? ==> Applicable(VaultAfter(front), last.time, last.applied.value, signed)
    ensures last.applied.Some? ==>
      Follows(ApplyTo(VaultAfter(front), last.applied.value.approval, last.applied.value.out), b)
  {
    hide VaultAfter, SumCash, SumAsset;
  }

  // ---------------------------------------------------------------------------------------------
  // The books

  ghost predicate SoundStrategy(s: Strategy) {
    && s.cash >= 0 && s.asset >= 0 && s.units >= 0
    && SumUnits(s.investors) == s.units
    && Assoc.Distinct(s.investors)
    && (forall i :: 0 <= i < |s.investors| ==> s.investors[i].1 > 0)
    && (s.units == 0 ==> s.cash == 0 && s.asset == 0)
  }

  ghost predicate SoundBooks(strategies: seq<Strategy>) {
    forall i :: 0 <= i < |strategies| ==> SoundStrategy(strategies[i])
  }

  /** What signing fixes of a strategy, and booking relies on later. */
  ghost predicate Fits(s: Strategy, p: Pending) {
    var a := p.approval;
    && a.amount > 0
    && match a.kind
       case CREDIT =>
         s.asset == 0 && p.units > 0 && (s.units > 0 ==> p.units * s.cash <= a.amount * s.units)
       case SWAP => a.minOut > 0 && s.units > 0 && a.amount <= if a.spendsCash then s.cash else s.asset
       case WITHDRAW =>
         && s.asset == 0 && Assoc.Has(s.investors, p.actor) && p.units == Assoc.Get(s.investors, p.actor, 0)
         && a.amount <= s.cash && a.amount * s.units <= s.cash * p.units
         && (p.units == s.units ==> a.amount == s.cash)
  }

  lemma {:induction false} SumUnitsIsSum(investors: seq<(Party, int)>)
    ensures SumUnits(investors) == Assoc.Sum(investors, (k: Party, u: int) => u)
  {
    if investors != [] {
      SumUnitsIsSum(investors[1..]);
    }
  }

  lemma {:induction false} PutKeepsPositive(es: seq<(Party, int)>, key: Party, value: int)
    requires forall i :: 0 <= i < |es| ==> es[i].1 > 0
    requires value > 0
    ensures forall i :: 0 <= i < |Assoc.Put(es, key, value)| ==> Assoc.Put(es, key, value)[i].1 > 0
  {
    if es != [] && es[0].0 != key {
      PutKeepsPositive(es[1..], key, value);
    }
  }

  lemma {:induction false} DeleteKeepsPositive(es: seq<(Party, int)>, key: Party)
    requires forall i :: 0 <= i < |es| ==> es[i].1 > 0
    ensures forall i :: 0 <= i < |Assoc.Delete(es, key)| ==> Assoc.Delete(es, key)[i].1 > 0
  {
    if es != [] && es[0].0 != key {
      DeleteKeepsPositive(es[1..], key);
    }
  }

  /** A holder's units are positive and no more than all units. */
  lemma HolderBounds(investors: seq<(Party, int)>, actor: Party)
    requires forall i :: 0 <= i < |investors| ==> investors[i].1 > 0
    ensures Assoc.Has(investors, actor) ==> 0 < Assoc.Get(investors, actor, 0) <= SumUnits(investors)
    ensures !Assoc.Has(investors, actor) ==> Assoc.Get(investors, actor, 0) == 0
  {
    hide SumUnits;
    SumUnitsIsSum(investors);
    if Assoc.Has(investors, actor) {
      var i := Assoc.IndexOf(investors, actor);
      Assoc.SumBounds(investors, (k: Party, u: int) => u, i);
    } else {
      AbsentGet(investors, actor);
    }
  }

  lemma {:induction false} AbsentGet(investors: seq<(Party, int)>, actor: Party)
    requires !Assoc.Has(investors, actor)
    ensures Assoc.Get(investors, actor, 0) == 0
  {
    if investors != [] {
      AbsentGet(investors[1..], actor);
    }
  }

  lemma IssueKeeps(investors: seq<(Party, int)>, actor: Party, units: int)
    requires Assoc.Distinct(investors) && (forall i :: 0 <= i < |investors| ==> investors[i].1 > 0) && units > 0
    ensures
      var after := Assoc.Put(investors, actor, Assoc.Get(investors, actor, 0) + units);
      && SumUnits(after) == SumUnits(investors) + units
      && Assoc.Distinct(after) && forall i :: 0 <= i < |after| ==> after[i].1 > 0
  {
    hide SumUnits;
    var held := Assoc.Get(investors, actor, 0);
    HolderBounds(investors, actor);
    SumUnitsIsSum(investors);
    SumUnitsIsSum(Assoc.Put(investors, actor, held + units));
    Assoc.SumPut(investors, actor, held + units, 0, (k: Party, u: int) => u);
    Assoc.DistinctPut(investors, actor, held + units);
    PutKeepsPositive(investors, actor, held + units);
  }

  lemma BurnKeeps(investors: seq<(Party, int)>, actor: Party)
    requires Assoc.Distinct(investors) && (forall i :: 0 <= i < |investors| ==> investors[i].1 > 0)
    requires Assoc.Has(investors, actor)
    ensures
      var after := Assoc.Delete(investors, actor);
      && SumUnits(after) == SumUnits(investors) - Assoc.Get(investors, actor, 0)
      && Assoc.Distinct(after) && forall i :: 0 <= i < |after| ==> after[i].1 > 0
  {
    hide SumUnits;
    SumUnitsIsSum(investors);
    SumUnitsIsSum(Assoc.Delete(investors, actor));
    Assoc.SumDelete(investors, actor, 0, (k: Party, u: int) => u);
    Assoc.DistinctDelete(investors, actor);
    DeleteKeepsPositive(investors, actor);
  }

  /** An amount fixed at signing is covered at booking: the strategy stays sound. */
  lemma BookingKeepsSound(s: Strategy, p: Pending, out: int)
    requires SoundStrategy(s) && Fits(s, p) && OutFits(p.approval, out)
    ensures SoundStrategy(BookStrategy(s, p, out))
  {
    match p.approval.kind
    case CREDIT => IssueKeeps(s.investors, p.actor, p.units);
    case SWAP =>
    case WITHDRAW =>
      HolderBounds(s.investors, p.actor);
      BurnKeeps(s.investors, p.actor);
  }

  /** Capital movements never lower the cash behind a unit (cross-multiplied; both are flat). */
  lemma CashPerUnitNeverFalls(s: Strategy, p: Pending, out: int)
    requires SoundStrategy(s) && Fits(s, p) && OutFits(p.approval, out) && p.approval.kind != SWAP
    ensures
      var after := BookStrategy(s, p, out);
      && s.asset == 0 && after.asset == 0
      && after.cash * s.units >= s.cash * after.units
  {
    hide SumUnits, Assoc.Put, Assoc.Get, Assoc.Delete, Assoc.Distinct, Assoc.Has;
    var a := p.approval;
    if a.kind == CREDIT {
      CreditRatio(s.cash, s.units, a.amount, p.units);
    } else {
      WithdrawRatio(s.cash, s.units, a.amount, p.units);
    }
  }

  lemma CreditRatio(cash: int, units: int, amount: int, issued: int)
    requires units == 0 ==> cash == 0
    requires units != 0 ==> issued * cash <= amount * units
    ensures (cash + amount) * units >= cash * (units + issued)
  {
    assert cash * (units + issued) == cash * units + cash * issued;
    assert (cash + amount) * units == cash * units + amount * units;
    assert cash * issued == issued * cash;
  }

  lemma WithdrawRatio(cash: int, units: int, amount: int, burnt: int)
    requires amount * units <= cash * burnt
    ensures (cash - amount) * units >= cash * (units - burnt)
  {
    assert cash * (units - burnt) == cash * units - cash * burnt;
    assert (cash - amount) * units == cash * units - amount * units;
  }

  /** Whatever is signed fits the books it is signed on. */
  lemma DraftFits(b: Books, s: Strategy, r: Request, now: int, head: nat, d: Deposit, quoted: int, slippageBps: int)
    requires SoundStrategy(s)
    ensures
      var drafted := Draft(b, s, r, now, head, d, quoted, slippageBps);
      drafted.Ok? ==>
        && Fits(s, drafted.value)
        && drafted.value.clientId == r.clientId == drafted.value.approval.requestId
        && drafted.value.strategyId == s.id && drafted.value.fromBlock == head
        && drafted.value.approval.sequence == b.sequence + 1 && drafted.value.approval.previous == b.checkpoint
  {
    hide SumUnits, Assoc.Distinct, Quot;
    match r.kind
    case ALLOCATE => DraftAllocateFits(b, s, r, now, head, d, quoted, slippageBps);
    case TARGET => DraftTargetFits(b, s, r, now, head, d, quoted, slippageBps);
    case REDEEM => DraftRedeemFits(b, s, r, now, head, d, quoted, slippageBps);
    case OTHER =>
  }

  lemma DraftAllocateFits(b: Books, s: Strategy, r: Request, now: int, head: nat, d: Deposit, quoted: int, slippageBps: int)
    requires SoundStrategy(s) && r.kind == ALLOCATE
    ensures
      var drafted := Draft(b, s, r, now, head, d, quoted, slippageBps);
      drafted.Ok? ==> Fits(s, drafted.value)
  {
    hide SumUnits, Assoc.Distinct, Assoc.Get, Assoc.Has;
    var drafted := Draft(b, s, r, now, head, d, quoted, slippageBps);
    if drafted.Ok? && s.units > 0 {
      assert d.amount * s.units >= 0;
      FloorBounds(d.amount * s.units, s.cash);
    }
  }

  lemma DraftTargetFits(b: Books, s: Strategy, r: Request, now: int, head: nat, d: Deposit, quoted: int, slippageBps: int)
    requires SoundStrategy(s) && r.kind == TARGET
    ensures
      var drafted := Draft(b, s, r, now, head, d, quoted, slippageBps);
      drafted.Ok? ==> Fits(s, drafted.value)
  {
    hide SumUnits, Assoc.Distinct, Assoc.Get, Assoc.Has;
    assert s.cash * MAX_TARGET_BPS >= 0;
  }

  lemma DraftRedeemFits(b: Books, s: Strategy, r: Request, now: int, head: nat, d: Deposit, quoted: int, slippageBps: int)
    requires SoundStrategy(s) && r.kind == REDEEM
    ensures
      var drafted := Draft(b, s, r, now, head, d, quoted, slippageBps);
      drafted.Ok? ==> Fits(s, drafted.value)
  {
    hide SumUnits, Assoc.Distinct, Assoc.Get, Assoc.Has;
    HolderBounds(s.investors, r.actor);
    var units := Assoc.Get(s.investors, r.actor, 0);
    if units > 0 {
      RedeemShare(s.cash, units, s.units);
    }
  }

  lemma RedeemShare(cash: int, units: int, total: int)
    requires cash >= 0 && 0 < units <= total
    ensures Quot(cash * units, total) <= cash
    ensures Quot(cash * units, total) * total <= cash * units
    ensures units == total ==> Quot(cash * units, total) == cash
  {
    assert cash * units >= 0;
    FloorBounds(cash * units, total);
    MulMonotone(cash, units, total);
    FloorMonotone(cash * units, cash * total, total);
    FloorUnique(cash * total, total, cash);
  }

  // ---------------------------------------------------------------------------------------------
  // Booking a receipt keeps the books equal to the vault

  lemma {:induction false} SumsAfter(strategies: seq<Strategy>, i: nat, s: Strategy)
    requires i < |strategies|
    ensures SumCash(strategies[i := s]) == SumCash(strategies) - strategies[i].cash + s.cash
    ensures SumAsset(strategies[i := s]) == SumAsset(strategies) - strategies[i].asset + s.asset
  {
    if i > 0 {
      assert strategies[i := s][1..] == strategies[1..][i - 1 := s];
      SumsAfter(strategies[1..], i - 1, s);
    } else {
      assert strategies[i := s][1..] == strategies[1..];
    }
  }

  lemma {:induction false} SoundUnitsAddUp(strategies: seq<Strategy>)
    requires SoundBooks(strategies)
    ensures UnitsAddUp(strategies)
  {
    if strategies != [] {
      assert SoundStrategy(strategies[0]);
      SoundUnitsAddUp(strategies[1..]);
    }
  }

  lemma SoundWith(strategies: seq<Strategy>, i: nat, s: Strategy)
    requires i < |strategies| && SoundBooks(strategies) && SoundStrategy(s)
    ensures SoundBooks(strategies[i := s])
  {
    hide SoundStrategy;
  }

  ghost predicate NoRepeats(ids: seq<string>) {
    forall i, j :: 0 <= i < j < |ids| ==> ids[i] != ids[j]
  }

  function RequestsOf(approvals: seq<Approval>): seq<string> {
    if approvals == [] then []
    else RequestsOf(approvals[..|approvals| - 1]) + [approvals[|approvals| - 1].requestId]
  }

  /** The books alone: sound, one history row and one used request for every approval the checkpoint digests. */
  ghost predicate ValidBooks(b: Books) {
    && SoundBooks(b.strategies)
    && |b.history| == b.sequence
    && b.used == RequestsOf(DigestedBy(b.checkpoint))
    && NoRepeats(b.used)
    && PendingIsNext(b)
    && (b.pending.Some? ==>
          var p := b.pending.value;
          && p.clientId == p.approval.requestId
          && p.clientId !in b.used
          && IndexOf(b.strategies, p.strategyId) < |b.strategies|
          && Fits(b.strategies[IndexOf(b.strategies, p.strategyId)], p))
  }

  lemma NoRepeatsAppend(ids: seq<string>, id: string)
    requires NoRepeats(ids) && id !in ids
    ensures NoRepeats(ids + [id])
  {
  }

  lemma RequestsAppend(approvals: seq<Approval>, a: Approval)
    ensures RequestsOf(approvals + [a]) == RequestsOf(approvals) + [a.requestId]
  {
    assert (approvals + [a])[..|approvals|] == approvals;
  }

  /** The receipt of the pending approval. */
  function ReceiptOf(p: Pending, v: Vault): Applied
    requires v.checkpoint.After?
  {
    Applied(p.approval, v.checkpoint.out, v.checkpoint)
  }

  /** The books after the pending approval was booked from the vault's checkpoint. */
  function Booked(b: Books, v: Vault): Books
    requires b.pending.Some? && v.checkpoint.After?
    requires IndexOf(b.strategies, b.pending.value.strategyId) < |b.strategies|
  {
    BookReceipt(b, b.pending.value, ReceiptOf(b.pending.value, v), IndexOf(b.strategies, b.pending.value.strategyId))
  }

  lemma BookedKeepsValid(b: Books, v: Vault)
    requires ValidBooks(b) && b.pending.Some? && Follows(v, b) && v.sequence != b.sequence
    ensures ValidBooks(Booked(b, v))
  {
    hide SumCash, SumAsset, SoundStrategy, Fits, BookStrategy, NoRepeats, RequestsOf, IndexOf, SoundBooks;
    var p, out := b.pending.value, v.checkpoint.out;
    var i := IndexOf(b.strategies, p.strategyId);
    SoundAt(b.strategies, i);
    BookingKeepsSound(b.strategies[i], p, out);
    SoundWith(b.strategies, i, BookStrategy(b.strategies[i], p, out));
    NoRepeatsAppend(b.used, p.clientId);
    RequestsAppend(DigestedBy(b.checkpoint), p.approval);
  }

  lemma SoundAt(strategies: seq<Strategy>, i: nat)
    requires i < |strategies| && SoundBooks(strategies)
    ensures SoundStrategy(strategies[i])
  {
    hide SoundStrategy;
  }

  /** After booking, the books are again an image of the vault. */
  lemma BookedIsImage(b: Books, v: Vault)
    requires b.pending.Some? && Follows(v, b) && v.sequence != b.sequence
    requires IndexOf(b.strategies, b.pending.value.strategyId) < |b.strategies|
    ensures Image(Booked(b, v)) == v
  {
    hide SumCash, SumAsset, IndexOf, Assoc.Put, Assoc.Get, Assoc.Delete;
    var p, out := b.pending.value, v.checkpoint.out;
    var i := IndexOf(b.strategies, p.strategyId);
    SumsAfter(b.strategies, i, BookStrategy(b.strategies[i], p, out));
  }

  // ---------------------------------------------------------------------------------------------
  // Recovery

  /** The chain `final` is one the coordinator's durable books can meet. */
  ghost predicate Meets(final: seq<Block>, signed: set<Approval>, b: Books) {
    && final != []
    && ValidChain(final, signed)
    && ValidBooks(b)
    && Follows(VaultAfter(final), b)
    && OnlyPendingLives(signed, b, HeadTime(final))
    && (b.pending.Some? ==>
          var p := b.pending.value;
          && p.fromBlock <= |final|
          && VaultAfter(final[..p.fromBlock]).sequence <= b.sequence)
  }

  /** Recovery never stops at the checkpoint, the sequence, the receipt or its binding. */
  lemma TakeIs(final: seq<Block>, signed: set<Approval>, b: Books)
    requires Meets(final, signed, b)
    ensures
      var v := VaultAfter(final);
      Take(b, final) ==
        if v.sequence != b.sequence then Ok(Booked(b, v))
        else if b.pending.Some? && HeadTime(final) > b.pending.value.approval.deadline then Ok(b.(pending := None))
        else Ok(b)
  {
    hide VaultAfter, ValidChain, SumCash, SumAsset, IndexOf, EventsIn, Fits, BookReceipt, NoRepeats, RequestsOf,
      DigestedBy, SoundBooks, OnlyPendingLives, OutFits;
    var v := VaultAfter(final);
    if v.sequence != b.sequence {
      LastEventIsUnique(final, b.pending.value.fromBlock, signed);
    }
  }

  /** The books recovery arrives at are valid and an image of the vault at the head it read. */
  lemma TakeKeeps(final: seq<Block>, signed: set<Approval>, b: Books)
    requires Meets(final, signed, b)
    ensures Take(b, final).Ok?
    ensures ValidBooks(Take(b, final).value)
    ensures Image(Take(b, final).value) == VaultAfter(final)
  {
    hide Take, ValidChain, SumCash, SumAsset, IndexOf, EventsIn, Fits, BookReceipt, NoRepeats, RequestsOf,
      DigestedBy, SoundBooks, OnlyPendingLives, OutFits, VaultAfter;
    TakeIs(final, signed, b);
    var v := VaultAfter(final);
    if v.sequence != b.sequence {
      BookedKeepsValid(b, v);
      BookedIsImage(b, v);
    }
  }

  lemma {:induction false} SameSequenceSameVault(c: seq<Block>, k: nat)
    requires k <= |c| && VaultAfter(c[..k]).sequence == VaultAfter(c).sequence
    ensures VaultAfter(c[..k]) == VaultAfter(c)
  {
    assert c[..|c|] == c;
    if k < |c| {
      var front := c[..|c| - 1];
      assert front[..k] == c[..k];
      SequenceNeverFalls(front, k);
      SequenceNeverFalls(c, |c| - 1);
      SameSequenceSameVault(front, k);
    }
  }

  /** An application always moves the totals, so a reconciliation that sees it sees a difference. */
  lemma ApplicationMovesTotals(b: Books, v: Vault)
    requires ValidBooks(b) && b.pending.Some? && Follows(v, b) && v.sequence != b.sequence
    ensures v.cash != SumCash(b.strategies) || v.asset != SumAsset(b.strategies)
  {
    hide SumCash, SumAsset, IndexOf, NoRepeats, RequestsOf, DigestedBy, SoundBooks;
  }

  /**
   Recovery succeeds exactly when no further approval was finalized between its two reads of the head; otherwise
   it refuses with a custody mismatch, and with nothing else.
   */
  lemma RecoverIff(b: Books, k: nat, later: seq<Block>, signed: set<Approval>)
    requires 0 < k <= |later| && ValidChain(later, signed) && Meets(later[..k], signed, b)
    ensures Recover(b, later[..k], later).Ok? <==> VaultAfter(later[..k]).sequence == VaultAfter(later).sequence
    ensures Recover(b, later[..k], later).Err? ==> Recover(b, later[..k], later).error == CustodyMismatch
  {
    hide Take, ValidChain, SumCash, SumAsset, UnitsAddUp, VaultAfter, ValidBooks, Follows, Booked, OnlyPendingLives;
    var final := later[..k];
    TakeKeeps(final, signed, b);
    TakeIs(final, signed, b);
    NextIsSound(Take(b, final).value);
    ValidBooksPending(b);
    ExtensionFollows(later, k, signed, b);
    if VaultAfter(final).sequence == VaultAfter(later).sequence {
      SameSequenceSameVault(later, k);
    } else {
      LaterIsNext(b, VaultAfter(final), VaultAfter(later), k, later);
      ApplicationMovesTotals(b, VaultAfter(later));
    }
  }

  /**
   A refusal repairs itself: if nothing more is finalized in between, the next recovery succeeds, from the memory the
   refused one left behind and, after a crash, from the books it started from.
   */
  lemma RefusalIsRepaired(b: Books, k: nat, later: seq<Block>, signed: set<Approval>)
    requires 0 < k <= |later| && ValidChain(later, signed) && Meets(later[..k], signed, b)
    ensures Take(b, later[..k]).Ok?
    ensures var left := Take(b, later[..k]).value;
      && Recover(left, later, later).Ok? && Image(Recover(left, later, later).value) == VaultAfter(later)
      && Recover(b, later, later).Ok? && Image(Recover(b, later, later).value) == VaultAfter(later)
  {
    hide Take, ValidChain, Reconcile, VaultAfter, Meets, Image;
    TakeMeets(later[..k], signed, b);
    RecoversAtHead(Take(b, later[..k]).value, k, later, signed);
    RecoversAtHead(b, k, later, signed);
  }

  lemma RecoversAtHead(b: Books, k: nat, later: seq<Block>, signed: set<Approval>)
    requires 0 < k <= |later| && ValidChain(later, signed) && Meets(later[..k], signed, b)
    ensures Recover(b, later, later).Ok? && Image(Recover(b, later, later).value) == VaultAfter(later)
  {
    hide Take, ValidChain, Reconcile, VaultAfter, Meets, Image;
    MeetsMore(later, k, signed, b);
    assert later[..|later|] == later;
    RecoverIff(b, |later|, later, signed);
    TakeKeeps(later, signed, b);
  }

  lemma ValidBooksPending(b: Books)
    requires ValidBooks(b)
    ensures PendingIsNext(b)
  {
  }

  lemma NextIsSound(b: Books)
    requires ValidBooks(b)
    ensures UnitsAddUp(b.strategies)
  {
    SoundUnitsAddUp(b.strategies);
  }

  lemma LaterIsNext(b: Books, v: Vault, w: Vault, k: nat, later: seq<Block>)
    requires k <= |later| && v == VaultAfter(later[..k]) && w == VaultAfter(later)
    requires Follows(v, b) && Follows(w, b) && v.sequence != w.sequence
    ensures v == Image(b) && b.pending.Some? && w.sequence == b.sequence + 1
  {
    hide VaultAfter, SumCash, SumAsset;
    SequenceNeverFalls(later, k);
  }

  // ---------------------------------------------------------------------------------------------
  // The whole system: durable books, the running instance, and the chain it cannot control

  /** `mem` is the state of the running instance, None while it is down; `final` counts the finalized blocks. */
  datatype System = System(disk: Books, mem: Option<Books>, chain: seq<Block>, final: nat, signed: set<Approval>)

  datatype Event =
    | Mine(block: Block)                  // the vault applies something, or time passes
    | Reorganize(length: nat)             // blocks above the finalized head are abandoned
    | Finalize(count: nat)
    | Read                                // recovery reads the head and advances the memory
    | Save                                // recovery reconciles at the present head and stores
    | Command(request: Request, deposit: Deposit, quoted: int, slippageBps: int)
    | Crash
    | Start

  function Finalized(s: System): seq<Block>
    requires s.final <= |s.chain|
  {
    s.chain[..s.final]
  }

  /** A step that is not enabled leaves everything as it is. */
  ghost function Step(s: System, e: Event): System
    requires 0 < s.final <= |s.chain|
  {
    match e
    case Mine(block) =>
      if HeadTime(s.chain) <= block.time
         && (block.applied.Some? ==> Applicable(VaultAfter(s.chain), block.time, block.applied.value, s.signed))
      then s.(chain := s.chain + [block]) else s
    case Reorganize(length) => if s.final <= length <= |s.chain| then s.(chain := s.chain[..length]) else s
    case Finalize(count) => if s.final <= count <= |s.chain| then s.(final := count) else s
    case Read =>
      if s.mem.None? || Take(s.mem.value, Finalized(s)).Err? then s
      else
        var next := Take(s.mem.value, Finalized(s)).value;
        // dropping an expired approval is stored before the reconciliation, booking a receipt after it
        s.(mem := Some(next),
           disk := if next.sequence == s.mem.value.sequence && next != s.mem.value then next else s.disk)
    case Save =>
      if s.mem.Some? && Reconcile(s.mem.value, VaultAfter(Finalized(s))).Pass? then s.(disk := s.mem.value) else s
    case Command(r, d, quoted, slippageBps) =>
      if s.mem.None? then s
      else
        var signed := Sign(s.mem.value, r, HeadTime(Finalized(s)), s.final - 1, d, quoted, slippageBps);
        if signed.Err? || s.mem.value.pending.Some? then s
        else s.(mem := Some(signed.value), disk := signed.value,
                signed := s.signed + {signed.value.pending.value.approval})
    case Crash => s.(mem := None)
    case Start => s.(mem := Some(s.disk))
  }

  /** The memory is the durable state, or has booked one receipt more. */
  ghost predicate MemoryAgrees(s: System)
    requires 0 < s.final <= |s.chain|
  {
    s.mem.Some? && s.mem.value != s.disk ==>
      VaultAfter(Finalized(s)).sequence != s.disk.sequence && Take(s.disk, Finalized(s)) == Ok(s.mem.value)
  }

  ghost predicate Inv(s: System) {
    && 0 < s.final <= |s.chain|
    && ValidChain(s.chain, s.signed)
    && Meets(Finalized(s), s.signed, s.disk)
    && MemoryAgrees(s)
  }

  // ---------------------------------------------------------------------------------------------
  // Every step keeps the invariant

  lemma MineKeeps(s: System, block: Block)
    requires Inv(s)
    ensures Inv(Step(s, Mine(block)))
  {
    hide Meets, Take, VaultAfter;
    var after := Step(s, Mine(block));
    if after != s {
      assert after.chain[..|after.chain| - 1] == s.chain;
      assert Finalized(after) == Finalized(s);
    }
  }

  lemma ReorganizeKeeps(s: System, length: nat)
    requires Inv(s)
    ensures Inv(Step(s, Reorganize(length)))
  {
    hide Meets, Take, VaultAfter, ValidChain;
    var after := Step(s, Reorganize(length));
    if after != s {
      ValidPrefix(s.chain, length, s.signed);
      assert Finalized(after) == Finalized(s);
    }
  }

  /** A longer finalized chain is met as well. */
  lemma MeetsMore(final: seq<Block>, k: nat, signed: set<Approval>, b: Books)
    requires 0 < k <= |final| && ValidChain(final, signed) && Meets(final[..k], signed, b)
    ensures Meets(final, signed, b)
    ensures VaultAfter(final[..k]).sequence != b.sequence ==> VaultAfter(final) == VaultAfter(final[..k])
  {
    hide ValidChain, VaultAfter, Follows, Image, ApplyTo, OutFits;
    ValidBooksPending(b);
    ExtensionFollows(final, k, signed, b);
    TimeNeverGoesBack(final, k, signed);
    if b.pending.Some? {
      assert final[..k][..b.pending.value.fromBlock] == final[..b.pending.value.fromBlock];
    }
    if VaultAfter(final[..k]).sequence != b.sequence {
      BothAhead(final, k, b);
    }
  }

  lemma BothAhead(c: seq<Block>, k: nat, b: Books)
    requires k <= |c| && VaultAfter(c[..k]).sequence != b.sequence
    requires Follows(VaultAfter(c[..k]), b) && Follows(VaultAfter(c), b)
    ensures VaultAfter(c) == VaultAfter(c[..k])
  {
    hide VaultAfter, SumCash, SumAsset;
    SequenceNeverFalls(c, k);
    SameSequenceSameVault(c, k);
  }

  lemma FinalizeKeeps(s: System, count: nat)
    requires Inv(s)
    ensures Inv(Step(s, Finalize(count)))
  {
    hide Meets, Take, VaultAfter, ValidChain, Booked;
    var after := Step(s, Finalize(count));
    if after != s {
      ValidPrefix(s.chain, count, s.signed);
      assert Finalized(after)[..s.final] == Finalized(s);
      MeetsMore(Finalized(after), s.final, s.signed, s.disk);
      TakeIs(Finalized(s), s.signed, s.disk);
      TakeIs(Finalized(after), s.signed, s.disk);
    }
  }

  /** The books recovery arrives at are met by the same chain, durable or not. */
  lemma TakeMeets(final: seq<Block>, signed: set<Approval>, b: Books)
    requires Meets(final, signed, b)
    ensures Take(b, final).Ok? && Meets(final, signed, Take(b, final).value)
    ensures VaultAfter(final).sequence != b.sequence ==> Take(b, final).value.pending.None?
  {
    hide Take, ValidChain, VaultAfter, ValidBooks, SumCash, SumAsset, IndexOf, BookStrategy;
    ValidBooksPending(b);
    TakeIs(final, signed, b);
    TakeKeeps(final, signed, b);
  }

  /** Recovery is idempotent. */
  lemma TakeTwice(final: seq<Block>, signed: set<Approval>, b: Books)
    requires Meets(final, signed, b)
    ensures Take(b, final).Ok? && Take(Take(b, final).value, final) == Take(b, final)
  {
    hide Take, ValidChain, VaultAfter, ValidBooks, SumCash, SumAsset, IndexOf, BookStrategy, OnlyPendingLives, Follows;
    TakeIs(final, signed, b);
    TakeKeeps(final, signed, b);
    TakeMeets(final, signed, b);
    TakeIs(final, signed, Take(b, final).value);
  }

  lemma ReadKeeps(s: System)
    requires Inv(s)
    ensures Inv(Step(s, Read))
  {
    hide Take, ValidChain, VaultAfter, Meets;
    if s.mem.Some? {
      TakeMeets(Finalized(s), s.signed, s.disk);
      TakeTwice(Finalized(s), s.signed, s.disk);
      ReadIs(s);
    }
  }

  /** Reading moves the memory to what recovery makes of the durable books; a drop is durable at once. */
  lemma ReadIs(s: System)
    requires Inv(s) && s.mem.Some?
    ensures Take(s.disk, Finalized(s)).Ok?
    ensures Step(s, Read).mem == Some(Take(s.disk, Finalized(s)).value)
    ensures Step(s, Read).disk ==
      if VaultAfter(Finalized(s)).sequence == s.disk.sequence then Take(s.disk, Finalized(s)).value else s.disk
  {
    hide Take, ValidChain, VaultAfter, Meets, Booked;
    TakeMeets(Finalized(s), s.signed, s.disk);
    TakeTwice(Finalized(s), s.signed, s.disk);
    TakeIs(Finalized(s), s.signed, s.disk);
    BookedSequence(s);
  }

  lemma BookedSequence(s: System)
    requires Inv(s)
    ensures VaultAfter(Finalized(s)).sequence != s.disk.sequence && Take(s.disk, Finalized(s)).Ok? ==>
      Take(s.disk, Finalized(s)).value.sequence == s.disk.sequence + 1
  {
    hide Take, ValidChain, VaultAfter, ValidBooks, IndexOf, BookStrategy;
    TakeIs(Finalized(s), s.signed, s.disk);
  }

  lemma SaveKeeps(s: System)
    requires Inv(s)
    ensures Inv(Step(s, Save))
  {
    hide Take, ValidChain, VaultAfter, Meets, Reconcile;
    TakeMeets(Finalized(s), s.signed, s.disk);
  }

  /** A new approval on books without a pending one. */
  lemma SignedMeets(final: seq<Block>, signed: set<Approval>, b: Books, r: Request, d: Deposit, quoted: int, slippageBps: int)
    requires Meets(final, signed, b) && b.pending.None?
    requires Sign(b, r, HeadTime(final), |final| - 1, d, quoted, slippageBps).Ok?
    ensures
      var next := Sign(b, r, HeadTime(final), |final| - 1, d, quoted, slippageBps).value;
      && next.pending.Some?
      && Meets(final, signed + {next.pending.value.approval}, next)
  {
    hide ValidChain, VaultAfter, Draft, IndexOf, SumCash, SumAsset, Fits, SoundStrategy, RequestsOf, DigestedBy;
    var i := IndexOf(b.strategies, r.strategyId);
    SoundAt(b.strategies, i);
    DraftFits(b, b.strategies[i], r, HeadTime(final), |final| - 1, d, quoted, slippageBps);
    var p := Draft(b, b.strategies[i], r, HeadTime(final), |final| - 1, d, quoted, slippageBps).value;
    ValidWithMore(final, signed, signed + {p.approval});
    SequenceNeverFalls(final, |final| - 1);
  }

  lemma CommandKeeps(s: System, r: Request, d: Deposit, quoted: int, slippageBps: int)
    requires Inv(s)
    ensures Inv(Step(s, Command(r, d, quoted, slippageBps)))
  {
    hide Take, ValidChain, VaultAfter, Meets, Sign;
    var after := Step(s, Command(r, d, quoted, slippageBps));
    if after != s {
      TakeMeets(Finalized(s), s.signed, s.disk);
      SignedMeets(Finalized(s), s.signed, s.mem.value, r, d, quoted, slippageBps);
      ValidWithMore(s.chain, s.signed, after.signed);
    }
  }

  lemma StepKeeps(s: System, e: Event)
    requires Inv(s)
    ensures Inv(Step(s, e))
  {
    hide Take, ValidChain, VaultAfter, Meets, Sign, Reconcile;
    match e
    case Mine(block) => MineKeeps(s, block);
    case Reorganize(length) => ReorganizeKeeps(s, length);
    case Finalize(count) => FinalizeKeeps(s, count);
    case Read => ReadKeeps(s);
    case Save => SaveKeeps(s);
    case Command(r, d, quoted, slippageBps) => CommandKeeps(s, r, d, quoted, slippageBps);
    case Crash =>
    case Start =>
  }

  // ---------------------------------------------------------------------------------------------
  // Every run

  /** A strategy before anything was deposited. */
  function NewStrategy(id: string, provider: Party): Strategy {
    Strategy(id, provider, 0, 0, 0, [])
  }

  function NewStrategies(configured: seq<(string, Party)>): (strategies: seq<Strategy>) {
    if configured == [] then []
    else [NewStrategy(configured[0].0, configured[0].1)] + NewStrategies(configured[1..])
  }

  function NewBooks(configured: seq<(string, Party)>): Books {
    Books(0, Genesis, [], [], None, NewStrategies(configured))
  }

  function NewSystem(configured: seq<(string, Party)>, time: int): System {
    var b := NewBooks(configured);
    System(b, Some(b), [Block(time, None)], 1, {})
  }

  lemma {:induction false} NewStrategiesAreSound(configured: seq<(string, Party)>)
    ensures SoundBooks(NewStrategies(configured))
    ensures SumCash(NewStrategies(configured)) == 0 == SumAsset(NewStrategies(configured))
  {
    if configured != [] {
      NewStrategiesAreSound(configured[1..]);
      assert NewStrategies(configured)[1..] == NewStrategies(configured[1..]);
    }
  }

  lemma NewSystemIsSound(configured: seq<(string, Party)>, time: int)
    ensures Inv(NewSystem(configured, time))
  {
    hide SumCash, SumAsset, SoundStrategy;
    NewStrategiesAreSound(configured);
    var c := [Block(time, None)];
    var front := c[..|c| - 1];
    assert front == [] && c[..1] == c;
    assert ValidChain(front, {}) && ValidChain(c, {});
    assert VaultAfter(c) == EMPTY_VAULT;
  }

  ghost function Run(s: System, events: seq<Event>): (after: System)
    requires 0 < s.final <= |s.chain|
    ensures 0 < after.final <= |after.chain|
    decreases |events|
  {
    if events == [] then s else Run(Step(s, events[0]), events[1..])
  }

  lemma {:induction false} RunKeeps(s: System, events: seq<Event>)
    requires Inv(s)
    ensures Inv(Run(s, events))
    decreases |events|
  {
    hide Step, Inv;
    if events != [] {
      InvHasHead(s);
      StepKeeps(s, events[0]);
      RunKeeps(Step(s, events[0]), events[1..]);
    }
  }

  lemma InvHasHead(s: System)
    requires Inv(s)
    ensures 0 < s.final <= |s.chain|
  {
  }

  /**
   The vault is never more than one approval ahead of the stored books, and then by the stored pending one; the
   books stay sound; and what runs in memory recovers without a stop.
   */
  lemma NeverDiverges(configured: seq<(string, Party)>, time: int, events: seq<Event>)
    ensures
      var s := Run(NewSystem(configured, time), events);
      && Follows(VaultAfter(Finalized(s)), s.disk)
      && Follows(VaultAfter(s.chain), s.disk)
      && SoundBooks(s.disk.strategies) && UnitsAddUp(s.disk.strategies)
      && (s.mem.Some? ==> Take(s.mem.value, Finalized(s)).Ok?)
  {
    hide Run, Follows, Take, SoundStrategy, UnitsAddUp, ValidChain, VaultAfter;
    var s0 := NewSystem(configured, time);
    NewSystemIsSound(configured, time);
    RunKeeps(s0, events);
    var s := Run(s0, events);
    ExtensionFollows(s.chain, s.final, s.signed, s.disk);
    NextIsSound(s.disk);
    TakeTwice(Finalized(s), s.signed, s.disk);
  }

  /** No client request takes effect on the vault twice. */
  lemma EachRequestOnce(configured: seq<(string, Party)>, time: int, events: seq<Event>)
    ensures NoRepeats(RequestsOf(AppliedOn(Run(NewSystem(configured, time), events).chain)))
  {
    hide Run, Take, SoundBooks, UnitsAddUp, ValidChain, VaultAfter, RequestsOf, NoRepeats, AppliedOn, IndexOf, Fits,
      SumCash, SumAsset, DigestedBy, OnlyPendingLives;
    var s0 := NewSystem(configured, time);
    NewSystemIsSound(configured, time);
    RunKeeps(s0, events);
    var s := Run(s0, events);
    ExtensionFollows(s.chain, s.final, s.signed, s.disk);
    CheckpointTellsHistory(s.chain);
    RequestsOnVault(s.disk, VaultAfter(s.chain));
  }

  lemma RequestsOnVault(b: Books, v: Vault)
    requires ValidBooks(b) && Follows(v, b)
    ensures NoRepeats(RequestsOf(DigestedBy(v.checkpoint)))
  {
    hide SumCash, SumAsset, SoundBooks, IndexOf, Fits, RequestsOf, NoRepeats;
    if v != Image(b) {
      RequestsAppend(DigestedBy(b.checkpoint), b.pending.value.approval);
      NoRepeatsAppend(b.used, b.pending.value.clientId);
    }
  }

  /** Once the finalized head has passed an approval's deadline, no later block can apply it. */
  lemma {:induction false} LateIsNeverApplied(c: seq<Block>, k: nat, signed: set<Approval>, a: Approval)
    requires ValidChain(c, signed) && 0 < k <= |c|
    requires a.deadline < HeadTime(c[..k]) && a !in AppliedOn(c[..k])
    ensures a !in AppliedOn(c)
  {
    if k == |c| {
      assert c[..k] == c;
    } else {
      assert c[..|c| - 1][..k] == c[..k];
      LateIsNeverApplied(c[..|c| - 1], k, signed, a);
      TimeNeverGoesBack(c, k, signed);
    }
  }

  ghost predicate Lapsed(s: System, a: Approval)
    requires 0 < s.final <= |s.chain|
  {
    a.deadline < HeadTime(Finalized(s)) && a !in AppliedOn(Finalized(s))
  }

  lemma StepKeepsLapsed(s: System, e: Event, a: Approval)
    requires Inv(s) && Lapsed(s, a)
    ensures 0 < Step(s, e).final <= |Step(s, e).chain| && Lapsed(Step(s, e), a)
  {
    hide Meets, MemoryAgrees, Take, Sign, Reconcile, ValidChain, AppliedOn;
    var after := Step(s, e);
    match e
    case Mine(block) => assert Finalized(after) == Finalized(s);
    case Reorganize(length) => assert Finalized(after) == Finalized(s);
    case Finalize(count) =>
      if after != s {
        var final := Finalized(after);
        assert final[..s.final] == Finalized(s);
        ValidPrefix(s.chain, count, s.signed);
        LateIsNeverApplied(final, s.final, s.signed, a);
        TimeNeverGoesBack(final, s.final, s.signed);
      }
    case _ =>
  }

  lemma {:induction false} LapsedForGood(s: System, events: seq<Event>, a: Approval)
    requires Inv(s) && Lapsed(s, a)
    ensures a !in AppliedOn(Run(s, events).chain)
    decreases |events|
  {
    if events == [] {
      LateIsNeverApplied(s.chain, s.final, s.signed, a);
    } else {
      LapsedLater(s, events, a);
    }
  }

  lemma LapsedLater(s: System, events: seq<Event>, a: Approval)
    requires Inv(s) && Lapsed(s, a) && events != []
    ensures a !in AppliedOn(Run(s, events).chain)
    decreases |events|, 0
  {
    hide Step, Inv, Lapsed, AppliedOn;
    InvHasHead(s);
    StepKeeps(s, events[0]);
    StepKeepsLapsed(s, events[0], a);
    LapsedForGood(Step(s, events[0]), events[1..], a);
  }

  /** An approval recovery drops on expiry is never applied afterwards, whatever happens. */
  lemma DroppedIsNeverApplied(s: System, events: seq<Event>)
    requires Inv(s) && s.mem.Some? && s.mem.value.pending.Some?
    requires Step(s, Read).mem == Some(s.mem.value.(pending := None))
    ensures s.mem.value.pending.value.approval !in AppliedOn(Run(s, events).chain)
  {
    hide ValidChain, VaultAfter, Run, IndexOf, SumCash, SumAsset, Follows, OnlyPendingLives, SoundBooks, Fits;
    TakeIs(Finalized(s), s.signed, s.disk);
    AppliedIsNumbered(Finalized(s), s.signed);
    LapsedForGood(s, events, s.mem.value.pending.value.approval);
  }

  /** Booking a deposit or a redemption lowers the cash behind a unit in no strategy. */
  lemma CapitalMovementsAreFair(final: seq<Block>, signed: set<Approval>, b: Books, j: nat)
    requires Meets(final, signed, b) && VaultAfter(final).sequence != b.sequence && j < |b.strategies|
    requires b.pending.value.approval.kind != SWAP
    ensures
      var next := Take(b, final);
      && next.Ok? && |next.value.strategies| == |b.strategies|
      && next.value.strategies[j].cash * b.strategies[j].units >= b.strategies[j].cash * next.value.strategies[j].units
  {
    hide Take, ValidChain, VaultAfter, SumCash, SumAsset, IndexOf, OnlyPendingLives, BookStrategy, Fits, SoundStrategy;
    TakeIs(final, signed, b);
    var p := b.pending.value;
    var i := IndexOf(b.strategies, p.strategyId);
    SoundAt(b.strategies, i);
    CashPerUnitNeverFalls(b.strategies[i], p, VaultAfter(final).checkpoint.out);
  }
}
