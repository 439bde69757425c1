/**
 The isolated accounting review (src/sleeves/review.js): every call works on a copy of the whole state,
 reconciles it with simulated custody, and replaces the state only when everything passed.
 */
module Review {
  import opened Prelude
  import opened Division
  import opened Claims
  import opened Ledger
  import opened LedgerLaws
  import opened LedgerRuns
  import opened Reconciliation
  import opened CustodyLaws
  import opened SleeveLedgers
  import ValuationLaws
  import Assoc

  datatype ReviewState = ReviewState(
    ledger: State, marks: Marks, custody: Custody, wallets: map<Party, int>, cycles: int)

  datatype Fault =
    | Refused(error: Error) | UnknownWallet | WalletShort | MoveOutOfRange | NoCapital | DivisionByZero

  /** The random identifiers one strategy draws in a cycle. */
  datatype Uuids = Uuids(lot: string, enter: string, exit: string)

  /** What a cycle works on. */
  datatype Desk = Desk(ledger: State, marks: Marks, custody: Custody)

  datatype Entered = Entered(id: string, quantity: int, short: bool, lotId: string, exitOrder: string)

  const CASH_RESERVE := "cash-reserve"
  const TREND := "btc-trend"
  const HEDGE := "btc-hedge"

  function Lift<T>(r: Result<T, Error>): Result<T, Fault> {
    if r.Ok? then Ok(r.value) else Err(Refused(r.error))
  }

  // ---------------------------------------------------------------------------------------------
  // Capital

  function AllocateReview(s: ReviewState, investor: Party, id: string, amount: int, requestId: string)
    : Result<ReviewState, Fault>
  {
    var known := investor in s.wallets;
    :- Need(known, UnknownWallet);
    :- Need(amount <= s.wallets[investor], WalletShort);
    var done :- Lift(Allocate(s.ledger, id, investor, amount, requestId, s.marks));
    var custody := s.custody.(cash := s.custody.cash + amount);
    var _ :- Lift(Reconcile(done.state, custody, s.marks));
    Ok(s.(ledger := done.state, custody := custody, wallets := s.wallets[investor := s.wallets[investor] - amount]))
  }

  /** The units a review redemption asks for: everything the investor has in the strategy. */
  function OwnedUnits(l: State, id: string, investor: Party): Result<int, Error> {
    var i :- FindStrategy(l, id);
    Ok(Assoc.Get(l.strategies[i].investors, investor, 0))
  }

  function RedeemReview(s: ReviewState, investor: Party, id: string, requestId: string): Result<ReviewState, Fault> {
    var known := investor in s.wallets;
    :- Need(known, UnknownWallet);
    var units :- Lift(OwnedUnits(s.ledger, id, investor));
    var done :- Lift(Redeem(s.ledger, id, investor, units, requestId, s.marks));
    var custody := s.custody.(cash := s.custody.cash - done.amount);
    var _ :- Lift(Reconcile(done.state, custody, s.marks));
    Ok(s.(ledger := done.state, custody := custody,
          wallets := s.wallets[investor := s.wallets[investor] + done.amount]))
  }

  // ---------------------------------------------------------------------------------------------
  // A trading cycle

  function BtcFill(d: Desk, id: string, orderId: string, side: Side, quantity: int, lotId: string): Fill {
    var quote := Quot(quantity * MarkOf(d.marks, BTC), SCALE);
    Fill(id, orderId, Some(BTC), side, quantity, quote, Quot(quote, 10000), lotId, None, None)
  }

  /** One simulated fill: authorized by the strategy, mirrored in custody, reconciled. */
  function FillDesk(d: Desk, f: Fill): Result<Desk, Fault> {
    var done :- Lift(RecordFill(d.ledger, f));
    var custody := MoveCustody(d.custody, f, f.asset.value);
    var _ :- Lift(Reconcile(done.state, custody, d.marks));
    Ok(d.(ledger := done.state, custody := custody))
  }

  predicate Trades(b: Book) {
    b.id != CASH_RESERVE && b.units != 0
  }

  /** A quarter of the strategy's own pool, in BTC at the current mark. */
  function EntryQuantity(pool: int, price: int): int
    requires price != 0
  {
    Quot(Quot(pool, 4) * SCALE, price)
  }

  /** Entering strategy `i`: nothing, a purchase, or for the hedge a short sale. */
  function EnterOne(d: Desk, i: nat, uuids: nat -> Uuids): Result<(Desk, seq<Entered>), Fault>
    requires i < |d.ledger.strategies|
  {
    var a := d.ledger.strategies[i];
    if !Trades(a) then Ok((d, []))
    else
      var pool :- Lift(InvestorPool(a, d.marks));
      var price := MarkOf(d.marks, BTC);
      if price == 0 then Err(DivisionByZero)
      else
        var quantity := EntryQuantity(pool, price);
        if quantity == 0 then Ok((d, []))
        else
          var short := a.id == HEDGE;
          var ids := uuids(i);
          var f := BtcFill(d, a.id, ids.enter, if short then SHORT_OPEN else BUY, quantity,
                           if short then ids.lot else "");
          var d' :- FillDesk(d, f);
          Ok((d', [Entered(a.id, quantity, short, ids.lot, ids.exit)]))
  }

  lemma EnterKeepsCount(d: Desk, i: nat, uuids: nat -> Uuids)
    requires i < |d.ledger.strategies|
    ensures EnterOne(d, i, uuids).Ok? ==>
      |EnterOne(d, i, uuids).value.0.ledger.strategies| == |d.ledger.strategies|
      && EnterOne(d, i, uuids).value.0.marks == d.marks
  {
    hide Execute, Reconcile, MoveCustody, WellFormedFill;
  }

  function EnterFrom(d: Desk, i: nat, uuids: nat -> Uuids): Result<(Desk, seq<Entered>), Fault>
    requires i <= |d.ledger.strategies|
    decreases |d.ledger.strategies| - i
  {
    if i == |d.ledger.strategies| then Ok((d, []))
    else
      var first :- EnterOne(d, i, uuids);
      EnterKeepsCount(d, i, uuids);
      var rest :- EnterFrom(first.0, i + 1, uuids);
      Ok((rest.0, first.1 + rest.1))
  }

  function ExitOne(d: Desk, a: Entered): Result<Desk, Fault> {
    FillDesk(d, BtcFill(d, a.id, a.exitOrder, if a.short then SHORT_CLOSE else SELL, a.quantity,
                        if a.short then a.lotId else ""))
  }

  function ExitAll(d: Desk, entered: seq<Entered>): Result<Desk, Fault>
    decreases entered
  {
    if entered == [] then Ok(d)
    else
      var d' :- ExitOne(d, entered[0]);
      ExitAll(d', entered[1..])
  }

  function CrystallizeAll(l: State, marks: Marks, ids: seq<string>): Result<State, Error>
    decreases ids
  {
    if ids == [] then Ok(l)
    else
      var done :- Crystallize(l, ids[0], marks);
      CrystallizeAll(done.state, marks, ids[1..])
  }

  function Ids(strategies: seq<Book>): seq<string> {
    if strategies == [] then [] else [strategies[0].id] + Ids(strategies[1..])
  }

  function AnyUnits(strategies: seq<Book>): bool {
    strategies != [] && (strategies[0].units > 0 || AnyUnits(strategies[1..]))
  }

  function MovePrice(marks: Marks, moveBps: int): Marks {
    marks[BTC := Quot(MarkOf(marks, BTC) * (10000 + moveBps), 10000)]
  }

  /** Everything a cycle does to ledger, marks and custody. */
  function Traded(start: Desk, marks: Marks, uuids: nat -> Uuids): Result<Desk, Fault> {
    var e :- EnterFrom(start, 0, uuids);
    var moved := e.0.(marks := marks);
    var _ :- Lift(Reconcile(moved.ledger, moved.custody, marks));
    var d :- ExitAll(moved, e.1);
    var settled :- Lift(CrystallizeAll(d.ledger, d.marks, Ids(d.ledger.strategies)));
    var _ :- Lift(Reconcile(settled, d.custody, d.marks));
    Ok(d.(ledger := settled))
  }

  function CycleReview(s: ReviewState, moveBps: int, uuids: nat -> Uuids): Result<ReviewState, Fault> {
    var inRange := -2000 <= moveBps <= 2000;
    :- Need(inRange, MoveOutOfRange);
    :- Need(AnyUnits(s.ledger.strategies), NoCapital);
    var d :- Traded(Desk(s.ledger, s.marks, s.custody), MovePrice(s.marks, moveBps), uuids);
    Ok(s.(ledger := d.ledger, marks := d.marks, custody := d.custody, cycles := s.cycles + 1))
  }

  // ---------------------------------------------------------------------------------------------
  // The invariant between calls

  ghost predicate AllFlat(strategies: seq<Book>) {
    forall i :: 0 <= i < |strategies| ==> Flat(strategies[i])
  }

  /** Between calls: sound books, custody their twin, every price listed, every strategy flat and solvent. */
  ghost predicate Locked(s: ReviewState) {
    && SoundState(s.ledger) && Twin(s.ledger, s.custody)
    && AllListed(s.marks) && AllSolvent(s.ledger.strategies, s.marks)
    && AllFlat(s.ledger.strategies)
    && (forall w :: w in s.wallets ==> s.wallets[w] >= 0)
  }

  predicate Drifted(fault: Fault) {
    fault.Refused? && IsMismatch(fault.error)
  }

  lemma {:induction false} FlatIsSolvent(strategies: seq<Book>, marks: Marks)
    requires forall i :: 0 <= i < |strategies| ==> Sound(strategies[i]) && Priced(strategies[i], marks)
    requires AllFlat(strategies)
    ensures AllSolvent(strategies, marks)
  {
    forall i | 0 <= i < |strategies|
      ensures Solvent(strategies[i], marks)
    {
      FlatValue(strategies[i], marks);
    }
  }

  /** A deposit or a redemption that the ledger accepts is never stopped by the reconciliation after it. */
  lemma CapitalStaysLocked(s: ReviewState, op: Op, cash: int)
    requires Locked(s) && (op.OpAllocate? || op.OpRedeem?) && op.marks == s.marks && Step(s.ledger, op).Ok?
    requires cash == if op.OpAllocate? then Step(s.ledger, op).value.amount else -Step(s.ledger, op).value.amount
    ensures var next := s.(ledger := Apply(s.ledger, op), custody := s.custody.(cash := s.custody.cash + cash));
            Locked(next) && Reconcile(next.ledger, next.custody, s.marks).Ok?
  {
    hide Sound, Assoc.Distinct, Assoc.Sum, ClaimsOf, Value, Loans, SumCash, SumQuantity, LoansMatch, Reconcile;
    var next := Apply(s.ledger, op);
    var i := IndexOf(s.ledger.strategies, op.id);
    var before, after := s.ledger.strategies[i], next.strategies[i];
    StepKeeps(s.ledger, op, op.id);
    CapitalShape(s.ledger, op);
    CashMovesBoth(s.ledger, i, after, s.custody, next);
    forall j | 0 <= j < |next.strategies|
      ensures Flat(next.strategies[j]) && Priced(next.strategies[j], s.marks)
    {
      assert Flat(s.ledger.strategies[j]);
      assert Solvent(s.ledger.strategies[j], s.marks);
    }
    FlatIsSolvent(next.strategies, s.marks);
    TwinReconciles(next, s.custody.(cash := s.custody.cash + cash), s.marks);
  }

  /**
   A deposit in the review: accepted exactly when the wallet is known and can pay and the ledger accepts it;
   the reconciliation adds no refusal of its own.
   */
  lemma AllocationIff(s: ReviewState, investor: Party, id: string, amount: int, requestId: string)
    requires Locked(s)
    ensures AllocateReview(s, investor, id, amount, requestId).Ok? <==>
            investor in s.wallets && amount <= s.wallets[investor]
            && Allocate(s.ledger, id, investor, amount, requestId, s.marks).Ok?
    ensures AllocateReview(s, investor, id, amount, requestId).Ok? ==>
            Locked(AllocateReview(s, investor, id, amount, requestId).value)
  {
    hide Reconcile, Locked, Allocate;
    LockedWallets(s);
    if Allocate(s.ledger, id, investor, amount, requestId, s.marks).Ok? {
      DepositedAmount(s.ledger, id, investor, amount, requestId, s.marks);
      CapitalStaysLocked(s, OpAllocate(id, investor, amount, requestId, s.marks), amount);
      if investor in s.wallets && amount <= s.wallets[investor] {
        var next := s.(ledger := Allocate(s.ledger, id, investor, amount, requestId, s.marks).value.state,
                       custody := s.custody.(cash := s.custody.cash + amount));
        PayFromWallet(next, investor, s.wallets[investor] - amount);
      }
    }
  }

  lemma LockedWallets(s: ReviewState)
    requires Locked(s)
    ensures forall w :: w in s.wallets ==> s.wallets[w] >= 0
  {
  }

  lemma PayFromWallet(s: ReviewState, investor: Party, left: int)
    requires Locked(s) && left >= 0
    ensures Locked(s.(wallets := s.wallets[investor := left]))
  {
    hide Twin, SoundState, AllSolvent, AllFlat;
  }

  lemma DepositedAmount(l: State, id: string, investor: Party, amount: int, requestId: string, marks: Marks)
    requires Allocate(l, id, investor, amount, requestId, marks).Ok?
    ensures Allocate(l, id, investor, amount, requestId, marks).value.amount == amount
  {
  }

  /**
   A redemption in the review: accepted exactly when the wallet is known, the strategy exists, the request is
   new and the investor owns units. Cash, prices and reconciliation never stop it.
   */
  lemma RedemptionIff(s: ReviewState, investor: Party, id: string, requestId: string)
    requires Locked(s)
    ensures RedeemReview(s, investor, id, requestId).Ok? <==>
            investor in s.wallets && FreshRequest(s.ledger, requestId)
            && OwnedUnits(s.ledger, id, investor).Ok? && OwnedUnits(s.ledger, id, investor).value > 0
    ensures RedeemReview(s, investor, id, requestId).Ok? ==>
            Locked(RedeemReview(s, investor, id, requestId).value)
  {
    hide Reconcile, Locked, Redeem;
    LockedWallets(s);
    if OwnedUnits(s.ledger, id, investor).Ok? {
      var units := OwnedUnits(s.ledger, id, investor).value;
      RedeemAccepted(s, investor, id, units, requestId);
      var done := Redeem(s.ledger, id, investor, units, requestId, s.marks);
      if done.Ok? {
        CapitalStaysLocked(s, OpRedeem(id, investor, units, requestId, s.marks), -done.value.amount);
        if investor in s.wallets {
          var next := s.(ledger := done.value.state, custody := s.custody.(cash := s.custody.cash - done.value.amount));
          PayFromWallet(next, investor, s.wallets[investor] + done.value.amount);
        }
      }
    }
  }

  lemma RedeemAccepted(s: ReviewState, investor: Party, id: string, units: int, requestId: string)
    requires Locked(s) && OwnedUnits(s.ledger, id, investor) == Ok(units)
    ensures Redeem(s.ledger, id, investor, units, requestId, s.marks).Ok? <==>
            FreshRequest(s.ledger, requestId) && units > 0
    ensures Redeem(s.ledger, id, investor, units, requestId, s.marks).Ok? ==>
            Redeem(s.ledger, id, investor, units, requestId, s.marks).value.amount >= 0
  {
    hide Twin, Withdraw, Sound, Value, Priced, NoRepeats;
    var b := s.ledger.strategies[IndexOf(s.ledger.strategies, id)];
    assert Flat(b) && Solvent(b, s.marks);
    RedemptionIsAvailable(b, investor, units, s.marks);
    if Withdraw(b, investor, units, s.marks).Ok? {
      WithdrawKeeps(b, investor, units, s.marks);
    }
  }

  // ---------------------------------------------------------------------------------------------
  // The cycle never drifts

  /** In the middle of a cycle; `lots` are the short lots that were drawn so far. */
  ghost predicate OnDesk(d: Desk, lots: set<string>) {
    && SoundState(d.ledger) && Twin(d.ledger, d.custody)
    && AllListed(d.marks) && AllSolvent(d.ledger.strategies, d.marks)
    && d.custody.shorts.Keys <= lots
  }

  lemma FillNeverDrifts(d: Desk, f: Fill, lots: set<string>)
    requires OnDesk(d, lots)
    requires f.side == SHORT_OPEN ==> f.lotId !in lots
    ensures FillDesk(d, f).Ok? ==> OnDesk(FillDesk(d, f).value, lots + {f.lotId})
    ensures FillDesk(d, f).Ok? && f.side != SHORT_OPEN ==> OnDesk(FillDesk(d, f).value, lots)
    ensures FillDesk(d, f).Err? ==> !Drifted(FillDesk(d, f).error)
  {
    hide RecordFill, Reconcile, Twin, SoundState, AllSolvent, MoveCustody, IsMismatch, BookOf, Paid, OwnMoves;
    FillErrors(d.ledger, f);
    FillStep(d.ledger, f);
    if RecordFill(d.ledger, f).Ok? {
      var next := RecordFill(d.ledger, f).value.state;
      var custody := MoveCustody(d.custody, f, f.asset.value);
      StepKeeps(d.ledger, OpFill(f), f.strategyId);
      FillMovesBoth(d.ledger, f, d.custody);
      TwinNeverMismatches(next, custody, d.marks);
      TwinReconciles(next, custody, d.marks);
      MovedLots(d.custody, f, f.asset.value);
    }
  }

  lemma MovedLots(custody: Custody, f: Fill, asset: Asset)
    ensures MoveCustody(custody, f, asset).shorts.Keys <= custody.shorts.Keys + {f.lotId}
    ensures f.side != SHORT_OPEN ==> MoveCustody(custody, f, asset).shorts.Keys <= custody.shorts.Keys
  {
  }

  lemma FillStep(l: State, f: Fill)
    ensures RecordFill(l, f).Ok? ==> Apply(l, OpFill(f)) == RecordFill(l, f).value.state
  {
    hide RecordFill;
  }

  lemma FillErrors(l: State, f: Fill)
    ensures RecordFill(l, f).Err? ==> !IsMismatch(RecordFill(l, f).error)
    ensures RecordFill(l, f).Ok? ==> f.asset.Some?
  {
  }

  ghost function LotsBelow(uuids: nat -> Uuids, i: nat): set<string> {
    set j: nat | j < i :: uuids(j).lot
  }

  /** Identifiers drawn at random do not repeat. */
  ghost predicate NeverRepeats(uuids: nat -> Uuids) {
    forall i: nat, j: nat :: i < j ==> uuids(i).lot != uuids(j).lot
  }

  lemma {:induction false} EnteringNeverDrifts(d: Desk, i: nat, uuids: nat -> Uuids)
    requires OnDesk(d, LotsBelow(uuids, i)) && NeverRepeats(uuids) && i <= |d.ledger.strategies|
    ensures var r := EnterFrom(d, i, uuids);
            match r {
              case Ok(e) => OnDesk(e.0, LotsBelow(uuids, |d.ledger.strategies|)) && e.0.marks == d.marks
              case Err(fault) => !Drifted(fault)
            }
    decreases |d.ledger.strategies| - i
  {
    hide FillDesk, OnDesk, IsMismatch, LotsBelow, NeverRepeats, EnterOne;
    if i < |d.ledger.strategies| {
      EnterOneNeverDrifts(d, i, uuids);
      EnterKeepsCount(d, i, uuids);
      if EnterOne(d, i, uuids).Ok? {
        EnteringNeverDrifts(EnterOne(d, i, uuids).value.0, i + 1, uuids);
      }
    }
  }

  lemma EnterOneNeverDrifts(d: Desk, i: nat, uuids: nat -> Uuids)
    requires OnDesk(d, LotsBelow(uuids, i)) && NeverRepeats(uuids) && i < |d.ledger.strategies|
    ensures match EnterOne(d, i, uuids) {
              case Ok(e) => OnDesk(e.0, LotsBelow(uuids, i + 1))
              case Err(fault) => !Drifted(fault)
            }
  {
    hide FillDesk, InvestorPool, OnDesk;
    var a := d.ledger.strategies[i];
    PoolErrors(a, d.marks);
    MoreLots(d, LotsBelow(uuids, i), LotsBelow(uuids, i + 1));
    if Trades(a) && InvestorPool(a, d.marks).Ok? && MarkOf(d.marks, BTC) != 0 {
      var quantity := EntryQuantity(InvestorPool(a, d.marks).value, MarkOf(d.marks, BTC));
      var short := a.id == HEDGE;
      var f := BtcFill(d, a.id, uuids(i).enter, if short then SHORT_OPEN else BUY, quantity,
                       if short then uuids(i).lot else "");
      FillNeverDrifts(d, f, LotsBelow(uuids, i));
      if FillDesk(d, f).Ok? {
        if short {
          assert LotsBelow(uuids, i) + {f.lotId} <= LotsBelow(uuids, i + 1);
          MoreLots(FillDesk(d, f).value, LotsBelow(uuids, i) + {f.lotId}, LotsBelow(uuids, i + 1));
        } else {
          MoreLots(FillDesk(d, f).value, LotsBelow(uuids, i), LotsBelow(uuids, i + 1));
        }
      }
    }
  }

  lemma MoreLots(d: Desk, lots: set<string>, more: set<string>)
    requires OnDesk(d, lots) && lots <= more
    ensures OnDesk(d, more)
  {
    hide Twin, SoundState, AllSolvent;
  }

  lemma PoolErrors(b: Book, marks: Marks)
    ensures InvestorPool(b, marks).Err? ==> !IsMismatch(InvestorPool(b, marks).error)
  {
  }

  lemma {:induction false} ExitingNeverDrifts(d: Desk, entered: seq<Entered>, lots: set<string>)
    requires OnDesk(d, lots)
    ensures match ExitAll(d, entered) {
              case Ok(next) => OnDesk(next, lots) && next.marks == d.marks
              case Err(fault) => !Drifted(fault)
            }
    decreases entered
  {
    hide FillDesk, OnDesk, IsMismatch, BtcFill;
    if entered != [] {
      var a := entered[0];
      var f := BtcFill(d, a.id, a.exitOrder, if a.short then SHORT_CLOSE else SELL, a.quantity,
                       if a.short then a.lotId else "");
      SideOf(d, a.id, a.exitOrder, if a.short then SHORT_CLOSE else SELL, a.quantity, if a.short then a.lotId else "");
      FillNeverDrifts(d, f, lots);
      MarksKept(d, f);
      if FillDesk(d, f).Ok? {
        ExitingNeverDrifts(FillDesk(d, f).value, entered[1..], lots);
      }
    }
  }

  lemma SideOf(d: Desk, id: string, orderId: string, side: Side, quantity: int, lotId: string)
    ensures BtcFill(d, id, orderId, side, quantity, lotId).side == side
  {
  }

  lemma MarksKept(d: Desk, f: Fill)
    ensures FillDesk(d, f).Ok? ==> FillDesk(d, f).value.marks == d.marks
  {
    hide RecordFill, Reconcile, MoveCustody;
  }

  /** Crystallizing leaves every strategy flat, or is refused; it never moves anything custody holds. */
  lemma {:induction false} CrystallizingNeverDrifts(l: State, marks: Marks, ids: seq<string>, custody: Custody)
    requires SoundState(l) && Twin(l, custody)
    ensures match CrystallizeAll(l, marks, ids) {
              case Ok(next) =>
                && SoundState(next) && Twin(next, custody)
                && |next.strategies| == |l.strategies|
                && (forall i :: 0 <= i < |l.strategies| ==>
                      next.strategies[i].id == l.strategies[i].id
                      && (Flat(l.strategies[i]) ==> Flat(next.strategies[i]))
                      && (l.strategies[i].id in ids ==> Flat(next.strategies[i])))
              case Err(error) => !IsMismatch(error)
            }
    decreases ids
  {
    hide SoundState, Twin, Crystallize, Flat, IsMismatch;
    if ids != [] {
      CrystallizeOne(l, marks, ids[0], custody);
      if Crystallize(l, ids[0], marks).Ok? {
        var next := Crystallize(l, ids[0], marks).value.state;
        CrystallizingNeverDrifts(next, marks, ids[1..], custody);
        forall i | 0 <= i < |l.strategies| && l.strategies[i].id in ids
          ensures next.strategies[i].id in ids[1..] || Flat(next.strategies[i])
        {
          assert l.strategies[i].id == ids[0] || l.strategies[i].id in ids[1..];
        }
      }
    }
  }

  lemma {:induction false} IdsAt(strategies: seq<Book>)
    ensures |Ids(strategies)| == |strategies|
    ensures forall i :: 0 <= i < |strategies| ==> Ids(strategies)[i] == strategies[i].id
  {
    if strategies != [] {
      IdsAt(strategies[1..]);
    }
  }

  /** Nothing is borrowed between calls, so nothing stands in the way of a freshly drawn lot id. */
  lemma {:induction false} FlatHasNoLoans(strategies: seq<Book>)
    requires AllFlat(strategies)
    ensures Loans(strategies) == []
  {
    if strategies != [] {
      assert Flat(strategies[0]);
      FlatHasNoLoans(strategies[1..]);
    }
  }

  /**
   A whole cycle of trading in lockstep: custody and books cannot drift apart. A cycle that is accepted
   leaves every strategy flat and custody the twin of the books; one that is refused was refused for a
   reason of its own (a price, a quantity, a loss), never because the two sides disagreed.
   */
  lemma CycleNeverDrifts(s: ReviewState, moveBps: int, uuids: nat -> Uuids)
    requires Locked(s) && NeverRepeats(uuids)
    ensures match CycleReview(s, moveBps, uuids) {
              case Ok(next) => Locked(next) && next.wallets == s.wallets && next.cycles == s.cycles + 1
              case Err(fault) => !Drifted(fault)
            }
  {
    hide SoundState, Twin, AllSolvent, Flat, EnterFrom, ExitAll, CrystallizeAll, Reconcile, LotsBelow, NeverRepeats,
      Ids;
    var start := Desk(s.ledger, s.marks, s.custody);
    StartsOnDesk(s, uuids);
    EnteringNeverDrifts(start, 0, uuids);
    var e := EnterFrom(start, 0, uuids);
    if e.Ok? && -2000 <= moveBps <= 2000 {
      var moved := e.value.0.(marks := MovePrice(s.marks, moveBps));
      var lots := LotsBelow(uuids, |s.ledger.strategies|);
      TwinNeverMismatches(moved.ledger, moved.custody, moved.marks);
      TwinReconciles(moved.ledger, moved.custody, moved.marks);
      if Reconcile(moved.ledger, moved.custody, moved.marks).Ok? {
        ExitingNeverDrifts(moved, e.value.1, lots);
        var d := ExitAll(moved, e.value.1);
        if d.Ok? {
          SettlingNeverDrifts(s, d.value);
        }
      }
    }
  }

  lemma StartsOnDesk(s: ReviewState, uuids: nat -> Uuids)
    requires Locked(s)
    ensures OnDesk(Desk(s.ledger, s.marks, s.custody), LotsBelow(uuids, 0))
  {
    hide SoundState, AllSolvent;
    FlatHasNoLoans(s.ledger.strategies);
    assert |s.custody.shorts| == 0;
    assert s.custody.shorts.Keys == {};
  }

  lemma SettlingNeverDrifts(s: ReviewState, d: Desk)
    requires Locked(s) && SoundState(d.ledger) && Twin(d.ledger, d.custody)
    ensures match CrystallizeAll(d.ledger, d.marks, Ids(d.ledger.strategies)) {
              case Err(error) => !IsMismatch(error)
              case Ok(settled) =>
                match Reconcile(settled, d.custody, d.marks) {
                  case Err(error) => !IsMismatch(error)
                  case Ok(_) => Locked(s.(ledger := settled, marks := d.marks, custody := d.custody, cycles := s.cycles + 1))
                }
            }
  {
    hide SoundState, Twin, AllSolvent, Flat, CrystallizeAll, Reconcile, IsMismatch;
    var ids := Ids(d.ledger.strategies);
    IdsAt(d.ledger.strategies);
    CrystallizingNeverDrifts(d.ledger, d.marks, ids, d.custody);
    var settled := CrystallizeAll(d.ledger, d.marks, ids);
    if settled.Ok? {
      forall i | 0 <= i < |settled.value.strategies|
        ensures Flat(settled.value.strategies[i])
      {
        assert ids[i] in ids;
      }
      TwinNeverMismatches(settled.value, d.custody, d.marks);
      TwinReconciles(settled.value, d.custody, d.marks);
    }
  }

  // ---------------------------------------------------------------------------------------------
  // All calls from the fixture on

  const FIXTURE_MARKS: Marks :=
    map[BTC := 100 * SCALE, ETH := 100 * SCALE, MON := 1 * SCALE, SOL := 100 * SCALE]

  const FIXTURE_FEE := 1000

  /** Three strategies that have just been created. */
  function ThreeStrategies(trend: string, hedge: string, reserve: string): seq<Book> {
    [NewBook(trend, 1, "BTC long", "", FIXTURE_FEE), NewBook(hedge, 2, "BTC short", "", FIXTURE_FEE),
     NewBook(reserve, 1, "Cash", "", FIXTURE_FEE)]
  }

  function Fixture(): ReviewState {
    ReviewState(
      State(ThreeStrategies(TREND, HEDGE, CASH_RESERVE), [], [], 0),
      FIXTURE_MARKS, Custody(0, map[], map[]), map[1 := 200000 * SCALE, 2 := 200000 * SCALE], 0)
  }

  datatype Call =
    | CallAllocate(investor: Party, id: string, amount: int, requestId: string)
    | CallRedeem(investor: Party, id: string, requestId: string)
    | CallCycle(moveBps: int, uuids: nat -> Uuids)

  function Answer(s: ReviewState, call: Call): Result<ReviewState, Fault> {
    match call {
      case CallAllocate(investor, id, amount, requestId) => AllocateReview(s, investor, id, amount, requestId)
      case CallRedeem(investor, id, requestId) => RedeemReview(s, investor, id, requestId)
      case CallCycle(moveBps, uuids) => CycleReview(s, moveBps, uuids)
    }
  }

  function After(s: ReviewState, call: Call): ReviewState {
    var r := Answer(s, call);
    if r.Ok? then r.value else s
  }

  function RunCalls(s: ReviewState, calls: seq<Call>): ReviewState
    decreases calls
  {
    if calls == [] then s else RunCalls(After(s, calls[0]), calls[1..])
  }

  ghost predicate DrawsFresh(call: Call) {
    call.CallCycle? ==> NeverRepeats(call.uuids)
  }

  lemma CallStaysLocked(s: ReviewState, call: Call)
    requires Locked(s) && DrawsFresh(call)
    ensures Locked(After(s, call))
    ensures Answer(s, call).Err? ==> !Drifted(Answer(s, call).error)
  {
    hide AllocateReview, RedeemReview, CycleReview, Locked, IsMismatch;
    match call {
      case CallAllocate(investor, id, amount, requestId) =>
        AllocationIff(s, investor, id, amount, requestId);
        AllocationErrors(s, investor, id, amount, requestId);
      case CallRedeem(investor, id, requestId) =>
        RedemptionIff(s, investor, id, requestId);
        RedemptionErrors(s, investor, id, requestId);
      case CallCycle(moveBps, uuids) =>
        CycleNeverDrifts(s, moveBps, uuids);
    }
  }

  lemma AllocationErrors(s: ReviewState, investor: Party, id: string, amount: int, requestId: string)
    requires Locked(s)
    ensures AllocateReview(s, investor, id, amount, requestId).Err? ==>
      !Drifted(AllocateReview(s, investor, id, amount, requestId).error)
  {
    hide Reconcile, Locked;
    AllocationIff(s, investor, id, amount, requestId);
    if Allocate(s.ledger, id, investor, amount, requestId, s.marks).Ok? {
      DepositedAmount(s.ledger, id, investor, amount, requestId, s.marks);
      CapitalStaysLocked(s, OpAllocate(id, investor, amount, requestId, s.marks), amount);
    }
  }

  lemma RedemptionErrors(s: ReviewState, investor: Party, id: string, requestId: string)
    requires Locked(s)
    ensures RedeemReview(s, investor, id, requestId).Err? ==>
      !Drifted(RedeemReview(s, investor, id, requestId).error)
  {
    hide Reconcile, Locked, ShareOut;
    if OwnedUnits(s.ledger, id, investor).Ok? {
      var units := OwnedUnits(s.ledger, id, investor).value;
      if Redeem(s.ledger, id, investor, units, requestId, s.marks).Ok? {
        CapitalStaysLocked(s, OpRedeem(id, investor, units, requestId, s.marks),
                           -Redeem(s.ledger, id, investor, units, requestId, s.marks).value.amount);
      }
    }
  }

  lemma NewStrategiesMirrored(trend: string, hedge: string, reserve: string)
    requires trend != hedge && trend != reserve && hedge != reserve
    ensures var books := ThreeStrategies(trend, hedge, reserve);
            && SoundBooks(books) && AllSolvent(books, FIXTURE_MARKS) && AllFlat(books)
            && Twin(State(books, [], [], 0), Custody(0, map[], map[]))
  {
    hide Sound, Solvent, Flat, NewBook;
    var books := ThreeStrategies(trend, hedge, reserve);
    NewBookSound(trend, 1, "BTC long", "", FIXTURE_FEE);
    NewBookSound(hedge, 2, "BTC short", "", FIXTURE_FEE);
    NewBookSound(reserve, 1, "Cash", "", FIXTURE_FEE);
    NewBookSolvent(trend, 1, "BTC long", FIXTURE_FEE);
    NewBookSolvent(hedge, 2, "BTC short", FIXTURE_FEE);
    NewBookSolvent(reserve, 1, "Cash", FIXTURE_FEE);
    FlatHasNoLoans(books);
    EmptySums(books);
  }

  lemma {:induction false} EmptySums(strategies: seq<Book>)
    requires forall i :: 0 <= i < |strategies| ==> strategies[i].cash == 0 && strategies[i].positions == map[]
    ensures SumCash(strategies) == 0 && forall a :: SumQuantity(strategies, a) == 0
  {
    if strategies != [] {
      EmptySums(strategies[1..]);
    }
  }

  lemma FixtureIsLocked()
    ensures Locked(Fixture())
  {
    hide SoundBooks, AllSolvent, AllFlat, Twin, ThreeStrategies;
    assert TREND[4] == 't' && HEDGE[4] == 'h' && CASH_RESERVE[4] == '-';
    NewStrategiesMirrored(TREND, HEDGE, CASH_RESERVE);
    forall a: Asset
      ensures a in FIXTURE_MARKS
    {
      match a {
        case BTC =>
        case ETH =>
        case MON =>
        case SOL =>
      }
    }
  }

  lemma NewBookSolvent(id: string, provider: Party, name: string, feeBps: int)
    ensures var b := NewBook(id, provider, name, "", feeBps);
            Solvent(b, FIXTURE_MARKS) && Flat(b) && b.id == id && b.cash == 0 && b.positions == map[]
  {
  }

  /**
   Lockstep over all histories: after any calls from the fixture on, custody holds exactly what the books
   attribute, asset by asset and lot by lot, every strategy is flat, and everybody's wallet is covered;
   and a refused call has changed nothing.
   */
  lemma {:induction false} ReviewStaysLocked(s: ReviewState, calls: seq<Call>)
    requires Locked(s)
    requires forall i :: 0 <= i < |calls| ==> DrawsFresh(calls[i])
    ensures Locked(RunCalls(s, calls))
    ensures forall k :: 0 <= k < |calls| ==>
      var before := RunCalls(s, calls[..k]);
      RunCalls(s, calls[..k + 1]) == match Answer(before, calls[k]) case Ok(after) => after case Err(_) => before
    decreases calls
  {
    hide Locked, DrawsFresh, Answer;
    if calls != [] {
      CallStaysLocked(s, calls[0]);
      var next := After(s, calls[0]);
      ReviewStaysLocked(next, calls[1..]);
      forall k | 0 <= k < |calls|
        ensures var before := RunCalls(s, calls[..k]);
          RunCalls(s, calls[..k + 1]) == match Answer(before, calls[k]) case Ok(after) => after case Err(_) => before
      {
        FirstCall(s, calls, k);
        FirstCall(s, calls, k + 1);
      }
    }
  }

  lemma FirstCall(s: ReviewState, calls: seq<Call>, k: nat)
    requires calls != [] && k <= |calls|
    ensures RunCalls(s, calls[..k]) == if k == 0 then s else RunCalls(After(s, calls[0]), calls[1..][..k - 1])
  {
    hide After;
    if k > 0 {
      assert calls[..k][1..] == calls[1..][..k - 1];
    }
  }

  // ---------------------------------------------------------------------------------------------
  // The object

  function Chain<T>(entered: seq<Entered>, r: Result<(T, seq<Entered>), Fault>): Result<(T, seq<Entered>), Fault> {
    if r.Ok? then Ok((r.value.0, entered + r.value.1)) else r
  }

  lemma ChainTwice<T>(a: seq<Entered>, b: seq<Entered>, r: Result<(T, seq<Entered>), Fault>)
    ensures Chain(a, Chain(b, r)) == Chain(a + b, r)
    ensures Chain([], r) == r
  {
    if r.Ok? {
      assert a + (b + r.value.1) == a + b + r.value.1;
      assert [] + r.value.1 == r.value.1;
    }
  }

  class SleeveReview {
    var state: ReviewState

    ghost predicate Valid()
      reads this
    {
      Locked(state)
    }

    constructor ()
      ensures Valid() && state == Fixture()
    {
      hide Locked, Fixture, Exactly, ValuationLaws.Reported, ValuationLaws.IsEquity;
      FixtureIsLocked();
      state := Fixture();
    }

    method Allocate(investor: Party, id: string, amount: int, requestId: string) returns (r: Result<Receipt, Fault>)
      requires Valid()
      modifies this
      ensures Valid()
      ensures r.Ok? <==> AllocateReview(old(state), investor, id, amount, requestId).Ok?
      ensures r.Err? ==> r.error == AllocateReview(old(state), investor, id, amount, requestId).error
      ensures state == After(old(state), CallAllocate(investor, id, amount, requestId))
    {
      hide Ledger.Allocate, Reconcile, Locked, SoundState, AllListed, AllSolvent, AllFlat, Twin, Exactly,
        ValuationLaws.Reported, ValuationLaws.IsEquity;
      if investor !in state.wallets {
        return Err(UnknownWallet);
      }
      LockedLedger(state);
      var ledger := new SleeveLedger(state.ledger);
      if amount > state.wallets[investor] {
        return Err(WalletShort);
      }
      var result := ledger.AllocateCapital(id, investor, amount, requestId, state.marks);
      if result.Err? {
        return Err(Refused(result.error));
      }
      var custody := state.custody.(cash := state.custody.cash + amount);
      var checked := ledger.CheckCustody(custody, state.marks);
      if checked.Err? {
        return Err(Refused(checked.error));
      }
      AllocationIff(state, investor, id, amount, requestId);
      state := state.(ledger := ledger.View(), custody := custody,
                      wallets := state.wallets[investor := state.wallets[investor] - amount]);
      r := Ok(result.value);
    }

    method Redeem(investor: Party, id: string, requestId: string) returns (r: Result<Receipt, Fault>)
      requires Valid()
      modifies this
      ensures Valid()
      ensures r.Ok? <==> RedeemReview(old(state), investor, id, requestId).Ok?
      ensures r.Err? ==> r.error == RedeemReview(old(state), investor, id, requestId).error
      ensures state == After(old(state), CallRedeem(investor, id, requestId))
    {
      hide Ledger.Redeem, Reconcile, Locked, SoundState, AllListed, AllSolvent, AllFlat, Twin, OwnedUnits,
        FreshRequest, Exactly, ValuationLaws.Reported, ValuationLaws.IsEquity;
      if investor !in state.wallets {
        return Err(UnknownWallet);
      }
      LockedLedger(state);
      var ledger := new SleeveLedger(state.ledger);
      var owned := OwnedBy(ledger, id, investor);
      if owned.Err? {
        return Err(Refused(owned.error));
      }
      var units := owned.value;
      var result := ledger.RedeemCapital(id, investor, units, requestId, state.marks);
      if result.Err? {
        return Err(Refused(result.error));
      }
      var custody := state.custody.(cash := state.custody.cash - result.value.amount);
      var checked := ledger.CheckCustody(custody, state.marks);
      if checked.Err? {
        return Err(Refused(checked.error));
      }
      RedemptionIff(state, investor, id, requestId);
      state := state.(ledger := ledger.View(), custody := custody,
                      wallets := state.wallets[investor := state.wallets[investor] + result.value.amount]);
      r := Ok(result.value);
    }

    method OwnedBy(ledger: SleeveLedger, id: string, investor: Party) returns (r: Result<int, Error>)
      ensures r == OwnedUnits(ledger.View(), id, investor)
    {
      var found, i := ledger.FindSleeve(id);
      r := if found.None? then Err(UnknownStrategy) else Ok(Assoc.Get(found.value.investors, investor, 0));
    }

    /** One simulated fill on the working copy. */
    method FillOn(ledger: SleeveLedger, custody: Custody, marks: Marks, f: Fill) returns (r: Result<Custody, Fault>)
      requires ledger.Valid()
      modifies ledger, ledger.strategies
      ensures ledger.Valid() && ledger.strategies == old(ledger.strategies)
      ensures match FillDesk(Desk(old(ledger.View()), marks, custody), f)
              case Ok(d) => r == Ok(d.custody) && d == Desk(ledger.View(), marks, d.custody)
              case Err(fault) => r == Err(fault)
    {
      hide RecordFill, Reconcile, MoveCustody, SoundState, Exactly, ValuationLaws.Reported, ValuationLaws.IsEquity;
      var result := ledger.Settle(f);
      if result.Err? {
        return Err(Refused(result.error));
      }
      FillErrors(old(ledger.View()), f);
      var moved := MoveCustody(custody, f, f.asset.value);
      var checked := ledger.CheckCustody(moved, marks);
      if checked.Err? {
        return Err(Refused(checked.error));
      }
      r := Ok(moved);
    }

    /** The first loop of a cycle: strategies enter one after the other, each within its own capital. */
    method EnterAll(ledger: SleeveLedger, custody0: Custody, marks: Marks, uuids: nat -> Uuids)
      returns (r: Result<(Custody, seq<Entered>), Fault>)
      requires ledger.Valid()
      modifies ledger, ledger.strategies
      ensures ledger.Valid() && ledger.strategies == old(ledger.strategies)
      ensures match EnterFrom(Desk(old(ledger.View()), marks, custody0), 0, uuids)
              case Ok(e) => r == Ok((e.0.custody, e.1)) && e.0 == Desk(ledger.View(), marks, e.0.custody)
              case Err(fault) => r == Err(fault)
    {
      hide FillDesk, EnterOne, SoundState, Exactly, ValuationLaws.Reported, ValuationLaws.IsEquity;
      ghost var start := Desk(ledger.View(), marks, custody0);
      var custody := custody0;
      var entered: seq<Entered> := [];
      var i := 0;
      ChainTwice([], [], EnterFrom(start, 0, uuids));
      while i < |ledger.strategies|
        invariant 0 <= i <= |ledger.strategies|
        invariant ledger.Valid() && ledger.strategies == old(ledger.strategies)
        invariant EnterFrom(start, 0, uuids)
                  == Chain(entered, EnterFrom(Desk(ledger.View(), marks, custody), i, uuids))
      {
        ghost var d := Desk(ledger.View(), marks, custody);
        EnterKeepsCount(d, i, uuids);
        var one :- EnterStrategy(ledger, custody, marks, i, uuids);
        ChainTwice(entered, one.1, EnterFrom(Desk(ledger.View(), marks, one.0), i + 1, uuids));
        custody, entered := one.0, entered + one.1;
        i := i + 1;
      }
      assert entered + [] == entered;
      r := Ok((custody, entered));
    }

    method EnterStrategy(ledger: SleeveLedger, custody: Custody, marks: Marks, i: nat, uuids: nat -> Uuids)
      returns (r: Result<(Custody, seq<Entered>), Fault>)
      requires ledger.Valid() && i < |ledger.strategies|
      modifies ledger, ledger.strategies
      ensures ledger.Valid() && ledger.strategies == old(ledger.strategies)
      ensures match EnterOne(Desk(old(ledger.View()), marks, custody), i, uuids)
              case Ok(e) => r == Ok((e.0.custody, e.1)) && e.0 == Desk(ledger.View(), marks, e.0.custody)
              case Err(fault) => r == Err(fault)
    {
      hide FillDesk, SoundState, InvestorPool, EntryQuantity, Exactly, ValuationLaws.Reported, ValuationLaws.IsEquity;
      var a := ledger.strategies[i];
      if a.id == CASH_RESERVE || a.units == 0 {
        return Ok((custody, []));
      }
      var capital := ledger.PoolOf(a, marks);
      if capital.Err? {
        return Err(Refused(capital.error));
      }
      var price := MarkOf(marks, BTC);
      if price == 0 {
        return Err(DivisionByZero);
      }
      var quantity := EntryQuantity(capital.value, price);
      if quantity == 0 {
        return Ok((custody, []));
      }
      var ids, short := uuids(i), a.id == HEDGE;
      var f := BtcFill(Desk(ledger.View(), marks, custody), a.id, ids.enter, if short then SHORT_OPEN else BUY,
                       quantity, if short then ids.lot else "");
      var moved :- FillOn(ledger, custody, marks, f);
      r := Ok((moved, [Entered(a.id, quantity, short, ids.lot, ids.exit)]));
    }

    /** The second loop: everything that was entered is closed again at the moved price. */
    method CloseAll(ledger: SleeveLedger, custody0: Custody, marks: Marks, entered: seq<Entered>)
      returns (r: Result<Custody, Fault>)
      requires ledger.Valid()
      modifies ledger, ledger.strategies
      ensures ledger.Valid() && ledger.strategies == old(ledger.strategies)
      ensures match ExitAll(Desk(old(ledger.View()), marks, custody0), entered)
              case Ok(d) => r == Ok(d.custody) && d == Desk(ledger.View(), marks, d.custody)
              case Err(fault) => r == Err(fault)
    {
      hide FillDesk, SoundState, BtcFill, Exactly, ValuationLaws.Reported, ValuationLaws.IsEquity;
      ghost var start := Desk(ledger.View(), marks, custody0);
      var custody := custody0;
      var k := 0;
      assert entered[0..] == entered;
      while k < |entered|
        invariant 0 <= k <= |entered|
        invariant ledger.Valid() && ledger.strategies == old(ledger.strategies)
        invariant ExitAll(start, entered) == ExitAll(Desk(ledger.View(), marks, custody), entered[k..])
      {
        var a := entered[k];
        assert entered[k..][1..] == entered[k + 1..];
        var f := BtcFill(Desk(ledger.View(), marks, custody), a.id, a.exitOrder,
                         if a.short then SHORT_CLOSE else SELL, a.quantity, if a.short then a.lotId else "");
        custody :- FillOn(ledger, custody, marks, f);
        k := k + 1;
      }
      r := Ok(custody);
    }

    /** The third loop: fees of every strategy are crystallized. */
    method ChargeAll(ledger: SleeveLedger, marks: Marks) returns (r: Result<(), Fault>)
      requires ledger.Valid()
      modifies ledger, ledger.strategies
      ensures ledger.Valid() && ledger.strategies == old(ledger.strategies)
      ensures match CrystallizeAll(old(ledger.View()), marks, Ids(old(ledger.View()).strategies))
              case Ok(next) => r == Ok(()) && next == ledger.View()
              case Err(error) => r == Err(Refused(error))
    {
      hide Crystallize, SoundState, Exactly, ValuationLaws.Reported, ValuationLaws.IsEquity, Ids, Run;
      ghost var start := ledger.View();
      ghost var ids := Ids(start.strategies);
      IdsAt(start.strategies);
      var i := 0;
      assert ids[0..] == ids;
      while i < |ledger.strategies|
        invariant 0 <= i <= |ledger.strategies|
        invariant ledger.Valid() && ledger.strategies == old(ledger.strategies)
        invariant CrystallizeAll(start, marks, ids) == CrystallizeAll(ledger.View(), marks, ids[i..])
      {
        assert ids[i..][1..] == ids[i + 1..];
        assert ids[i] == ledger.strategies[i].id;
        var done := ledger.CrystallizeFee(ledger.strategies[i].id, marks);
        if done.Err? {
          return Err(Refused(done.error));
        }
        i := i + 1;
      }
      r := Ok(());
    }

    method Cycle(moveBps: int, uuids: nat -> Uuids) returns (r: Result<int, Fault>)
      requires Valid() && NeverRepeats(uuids)
      modifies this
      ensures Valid()
      ensures match CycleReview(old(state), moveBps, uuids)
              case Ok(next) => r == Ok(next.cycles) && state == next
              case Err(fault) => r == Err(fault) && state == old(state)
    {
      hide Traded, Locked, SoundState, AnyUnits, MovePrice, NeverRepeats, Drifted, Exactly, ValuationLaws.Reported,
        ValuationLaws.IsEquity;
      CycleNeverDrifts(state, moveBps, uuids);
      if moveBps < -2000 || moveBps > 2000 {
        return Err(MoveOutOfRange);
      }
      LockedLedger(state);
      var ledger := new SleeveLedger(state.ledger);
      if !AnyUnits(ledger.View().strategies) {
        return Err(NoCapital);
      }
      var marks := MovePrice(state.marks, moveBps);
      var custody :- Trading(ledger, state.custody, state.marks, marks, uuids);
      state := state.(ledger := ledger.View(), marks := marks, custody := custody, cycles := state.cycles + 1);
      r := Ok(state.cycles);
    }

    /** Entering, moving the price, closing and crystallizing, with a reconciliation after each stage. */
    method Trading(ledger: SleeveLedger, custody0: Custody, marks0: Marks, marks: Marks, uuids: nat -> Uuids)
      returns (r: Result<Custody, Fault>)
      requires ledger.Valid()
      modifies ledger, ledger.strategies
      ensures match Traded(Desk(old(ledger.View()), marks0, custody0), marks, uuids)
              case Ok(d) => r == Ok(d.custody) && d == Desk(ledger.View(), marks, d.custody)
              case Err(fault) => r == Err(fault)
    {
      hide EnterFrom, ExitAll, CrystallizeAll, Reconcile, SoundState, Ids, Exactly, ValuationLaws.Reported,
        ValuationLaws.IsEquity;
      var entries :- EnterAll(ledger, custody0, marks0, uuids);
      var halfway := ledger.CheckCustody(entries.0, marks);
      if halfway.Err? {
        return Err(Refused(halfway.error));
      }
      var custody :- CloseAll(ledger, entries.0, marks, entries.1);
      var _ :- ChargeAll(ledger, marks);
      var checked := ledger.CheckCustody(custody, marks);
      if checked.Err? {
        return Err(Refused(checked.error));
      }
      r := Ok(custody);
    }
  }

  lemma LockedLedger(s: ReviewState)
    requires Locked(s)
    ensures SoundState(s.ledger)
  {
  }
}
