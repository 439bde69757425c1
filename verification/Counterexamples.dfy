/*
 Concrete inputs on which the code does not do what one would like. The theorems that say exactly when it does are
 named in each module.
 */

/** Reconciliation over a lot nobody knows; the exact condition is Reconciliation.PassedLotsAreExact. */
module SharedLots {
  import opened Prelude
  import opened Ledger
  import opened LedgerLaws
  import opened LedgerRuns
  import opened Reconciliation
  import Claims
  import Assoc

  // ---------------------------------------------------------------------------------------------
  // Two strategies with one lot id hide a lot of custody that no book knows

  const OWNER: Claims.Party := 1
  const ORDINARY: Marks := map[BTC := 1, ETH := 1, MON := 1, SOL := 1]
  const SHARED_LOT := Lot(BTC, 1, 20, 10, 10)

  function Funded(id: string): Book {
    NewBook(id, OWNER, "n", "", 0).(cash := 10, units := 10, investors := [(OWNER, 10)])
  }

  function Shorted(id: string): Book {
    Funded(id).(cash := 0, shorts := [("x", SHARED_LOT)])
  }

  function OpenX(id: string, order: string): Fill {
    Fill(id, order, Some(BTC), SHORT_OPEN, 1, 10, 0, "x", None, None)
  }

  function OrderX(id: string, order: string): Order {
    Order(id, order, BTC, SHORT_OPEN, 1, 10, 0, "x")
  }

  function TwoFunded(): State {
    State([Funded("a"), Funded("b")], [], [], 0)
  }

  function TwoShorted(): State {
    State([Shorted("a"), Shorted("b")], [], [OrderX("a", "1"), OrderX("b", "2")], 0)
  }

  function Hiding(): Custody {
    Custody(0, map[], map["x" := CustodyLot(BTC, 1, 20), "y" := CustodyLot(ETH, 7, 3)])
  }

  lemma FundedIsSound(id: string)
    ensures Sound(Funded(id)) && Execute(Funded(id), OpenX(id, "1")) == Ok(Shorted(id))
    ensures Execute(Funded(id), OpenX(id, "2")) == Ok(Shorted(id))
  {
    var one := [(OWNER, 10)];
    assert one[1..] == [];
    assert Assoc.Sum(one, Claims.AmountOf) == 10;
  }

  lemma ShortedIsSound(id: string)
    ensures Sound(Shorted(id)) && Solvent(Shorted(id), ORDINARY)
  {
    var one, b := [(OWNER, 10)], Shorted(id);
    assert one[1..] == [] && b.shorts[1..] == [];
    assert Assoc.Sum(one, Claims.AmountOf) == 10;
    assert LotsPriced(b.shorts, ORDINARY);
    assert LotsValue(b.shorts, ORDINARY) == 20;
    assert PositionsValue(b.positions, ORDINARY) == 0;
  }

  lemma FillsAreAccepted()
    ensures var middle := State([Shorted("a"), Funded("b")], [], [OrderX("a", "1")], 0);
      && RecordFill(TwoFunded(), OpenX("a", "1")) == Ok(Done(middle, 0, 0))
      && RecordFill(middle, OpenX("b", "2")) == Ok(Done(TwoShorted(), 0, 0))
  {
    hide Execute;
    FundedIsSound("a");
    FundedIsSound("b");
    var middle := State([Shorted("a"), Funded("b")], [], [OrderX("a", "1")], 0);
    FirstOf(Funded("a"), Funded("b"));
    FirstOf(Shorted("a"), Funded("b"));
    assert TwoFunded().strategies[0 := Shorted("a")] == middle.strategies;
    assert [] + [OrderX("a", "1")] == middle.orders;
    assert middle.strategies[1 := Shorted("b")] == TwoShorted().strategies;
    assert [OrderX("a", "1")] + [OrderX("b", "2")] == TwoShorted().orders;
  }

  lemma FirstOf(a: Book, b: Book)
    ensures IndexOf([a, b], a.id) == 0
    ensures a.id != b.id ==> IndexOf([a, b], b.id) == 1
  {
    assert [a, b][1..] == [b];
  }

  lemma HidingTallies()
    ensures Tallies(TwoShorted(), Hiding())
  {
    var books := TwoShorted().strategies;
    assert books[1..] == [Shorted("b")] && books[1..][1..] == [];
    assert SumCash(books) == 0;
    forall a: Asset ensures SumQuantity(books, a) == 0 {
      NothingHeld(a);
    }
    var lot := ("x", SHARED_LOT);
    assert Loans(books) == [lot, lot];
    assert [lot, lot][1..] == [lot] && [lot][1..] == [];
    TwoLots();
  }

  lemma NothingHeld(a: Asset)
    ensures SumQuantity(TwoShorted().strategies, a) == 0
  {
    var books := TwoShorted().strategies;
    assert books[1..] == [Shorted("b")] && books[1..][1..] == [];
    assert SumQuantity(books[1..], a) == 0;
  }

  lemma TwoLots()
    ensures |Hiding().shorts| == 2
  {
    assert Hiding().shorts.Keys == {"x", "y"};
  }

  /**
   The ledger accepts one lot id in two strategies, and its reconciliation then passes over a lot "y" of custody that
   no book knows.
   */
  lemma SharedLotHidesAnother()
    ensures SoundState(TwoFunded())
    ensures var first := RecordFill(TwoFunded(), OpenX("a", "1"));
      first.Ok? && RecordFill(first.value.state, OpenX("b", "2")) == Ok(Done(TwoShorted(), 0, 0))
    ensures Reconcile(TwoShorted(), Hiding(), ORDINARY).Ok?
    ensures "y" in Hiding().shorts && !Assoc.Has(Loans(TwoShorted().strategies), "y")
  {
    hide Sound, RecordFill, Reconcile, Tallies, Solvent, Loans, OpenX, Hiding, Execute;
    FundedIsSound("a");
    FundedIsSound("b");
    TwoShortedIsSound();
    FillsAreAccepted();
    HidingTallies();
    ReconcileTallies(TwoShorted(), Hiding(), ORDINARY);
    HidingHasMore();
  }

  lemma TwoShortedIsSound()
    ensures SoundState(TwoShorted()) && AllListed(ORDINARY) && AllSolvent(TwoShorted().strategies, ORDINARY)
  {
    hide Sound, Solvent;
    ShortedIsSound("a");
    ShortedIsSound("b");
    forall a: Asset ensures a in ORDINARY {
      match a case BTC => case ETH => case MON => case SOL =>
    }
  }

  lemma HidingHasMore()
    ensures "y" in Hiding().shorts && !Assoc.Has(Loans(TwoShorted().strategies), "y")
  {
    var books := TwoShorted().strategies;
    assert books[1..] == [Shorted("b")] && books[1..][1..] == [];
    var lot := ("x", SHARED_LOT);
    assert Loans(books) == [lot, lot];
    assert [lot, lot][1..] == [lot] && [lot][1..] == [];
  }
}

/** Recovery refused between two reads of the head; the exact condition is CoordinatorLaws.RecoverIff. */
module RefusedRecovery {
  import opened Prelude
  import opened Coordinator
  import opened CoordinatorLaws
  import Claims

  const INVESTOR: Claims.Party := 1
  const CONFIGURED: seq<(string, Claims.Party)> := [("s", 2)]

  function Fresh(): System {
    NewSystem(CONFIGURED, 0)
  }

  const DEPOSIT := Request(INVESTOR, "c", "h", ALLOCATE, "s", 5, 0, 100)

  const CREDITED := Approval(1, Genesis, "c", CREDIT, true, 5, 0, INVESTOR, 100)

  const APPLICATION := Block(1, Some(Applied(CREDITED, 5, After(Genesis, CREDITED, 5))))

  function Requested(): Event {
    Command(DEPOSIT, Deposit(INVESTOR, false, 5), 0, 0)
  }

  function Waiting(): System {
    var pending := Pending(INVESTOR, "c", "s", CREDITED, "h", 0, 5);
    var b := NewBooks(CONFIGURED).(pending := Some(pending));
    Fresh().(disk := b, mem := Some(b), signed := {CREDITED})
  }

  function Applying(): System {
    Waiting().(chain := [Block(0, None), APPLICATION])
  }

  lemma CommandIsSigned()
    ensures Step(Fresh(), Requested()) == Waiting()
  {
    var c := [Block(0, None)];
    assert c[..1] == c;
    var books := NewStrategies(CONFIGURED);
    assert books == [NewStrategy("s", 2)] + NewStrategies(CONFIGURED[1..]);
    assert IndexOf(books, "s") == 0;
    assert {} + {CREDITED} == {CREDITED};
  }

  lemma ApplicationIsMined()
    ensures Step(Waiting(), Mine(APPLICATION)) == Applying()
  {
    var c := [Block(0, None)];
    assert c[..|c| - 1] == [];
    assert VaultAfter(c) == EMPTY_VAULT;
    assert c + [APPLICATION] == [Block(0, None), APPLICATION];
  }

  /**
   From a fresh system: a deposit is approved, applied, and finalized between the two reads of a recovery, which then
   refuses with a custody mismatch.
   */
  lemma RecoveryCanRefuse()
    ensures var s := Run(Fresh(), [Requested(), Mine(APPLICATION)]);
      && Inv(s) && s.mem.Some?
      && Recover(s.mem.value, Finalized(s), s.chain) == Err(CustodyMismatch)
  {
    hide Step, Inv, Recover, Take, Meets;
    var events := [Requested(), Mine(APPLICATION)];
    var s := Applying();
    CommandIsSigned();
    ApplicationIsMined();
    assert events[1..] == [Mine(APPLICATION)] && events[1..][1..] == [];
    assert Run(Waiting(), [Mine(APPLICATION)]) == Run(s, []);
    NewSystemIsSound(CONFIGURED, 0);
    RunKeeps(Fresh(), events);
    Refuses();
  }

  lemma Refuses()
    requires Inv(Applying())
    ensures Recover(Applying().mem.value, Applying().chain[..1], Applying().chain) == Err(CustodyMismatch)
  {
    hide Recover, Take, ValidBooks, Follows, OnlyPendingLives;
    var s := Applying();
    HeadAndNext();
    RecoverIff(s.disk, 1, s.chain, s.signed);
  }

  lemma HeadAndNext()
    ensures VaultAfter(Applying().chain[..1]).sequence == 0 && VaultAfter(Applying().chain).sequence == 1
  {
    var c := Applying().chain;
    assert c[..1] == [Block(0, None)] && c[..1][..0] == [] && c[..|c| - 1] == c[..1];
    assert VaultAfter(c[..1]) == EMPTY_VAULT;
  }
}

/** A restart that fails; the exact condition is Journal.RestartIff. */
module FailedRestart {
  import opened Prelude
  import opened Journal

  const REVERTING: Machine<int> := Machine(
    (call: Call) => Ok(call.body), (vm: int, block: nat, time: int, intent: string) => Ran(vm, Err("EVM revert: CAP")))

  const GENESIS: Chain<int> := Chain(0, 0, 0, map[], [])

  const ORDERED := Call("order", "execute")

  /** The process stops after the intent was journaled; the transaction reverts on replay, and the restart fails. */
  lemma RestartCanFail()
    ensures var p := RunEvents(REVERTING, GENESIS, Process([], Some(GENESIS)), [CalledAndCrashed(ORDERED)]);
      && p.journal == [Row(ORDERED, 0, PREPARED, "", "")]
      && Step(REVERTING, GENESIS, p, Restarted).live.None?
      && Step(REVERTING, GENESIS, p, Restarted).journal == [Row(ORDERED, 0, REVERTED, "", "EVM revert: CAP")]
  {
    var event, row := CalledAndCrashed(ORDERED), Row(ORDERED, 0, PREPARED, "", "");
    var p := Process([row], None);
    assert [event][1..] == [];
    assert [] + [row] == [row] && [row][1..] == [];
    assert RunEvents(REVERTING, GENESIS, p, []) == p;
    assert Replay(REVERTING, GENESIS, [row]).journal == [row.(status := REVERTED, error := "EVM revert: CAP")] + [];
  }
}

/** A pending plan that never ends and holds up every strategy; the exact condition is RuntimeProgress.CanCommitIff. */
module WedgedRuntime {
  import opened Prelude
  import opened Ledger
  import opened LedgerLaws
  import opened LedgerRuns
  import opened Reconciliation
  import opened CustodyLaws
  import opened Runtime
  import opened RuntimeLaws
  import opened RuntimeProgress
  import Review
  import Claims
  import Assoc

  const OWNER: Claims.Party := 1

  const DEPOSIT := Command("d", "h", OWNER, ALLOCATE, Review.TREND, 10, BUY, None, "", "")

  const REDEMPTION := Command("r", "h", OWNER, REDEEM, "s", 0, BUY, None, "", "")

  /** The very first deposit, should its transaction revert, holds up the runtime for good. */
  lemma RevertedDepositSticks()
    ensures var run := [DoSubmit(DEPOSIT, Review.FIXTURE_MARKS, 0), DoRevert];
      AllPossible(FirstStart(), run) && Stuck(RunActions(FirstStart(), run))
  {
    hide Inv, Submit, Stuck, Possible;
    var plan := Plan(DEPOSIT, Review.FIXTURE_MARKS, 10, BTC, 0, 0, NO_LOT_ID);
    var waiting := FirstStart().(disk := FirstStart().disk.(pending := Some(plan)));
    DepositIsAccepted(plan);
    RevertSticks(waiting);
    TwoActions(FirstStart(), DoSubmit(DEPOSIT, Review.FIXTURE_MARKS, 0), DoRevert);
  }

  lemma DepositIsAccepted(plan: Plan)
    requires plan == Plan(DEPOSIT, Review.FIXTURE_MARKS, 10, BTC, 0, 0, NO_LOT_ID)
    ensures Possible(FirstStart(), DoSubmit(DEPOSIT, Review.FIXTURE_MARKS, 0))
    ensures Submit(FirstStart(), DEPOSIT, Review.FIXTURE_MARKS, 0)
      == Ok(FirstStart().(disk := FirstStart().disk.(pending := Some(plan))))
  {
    hide Sound, Solvent, SoundState, Twin, Reconcile, Observe, Review.ThreeStrategies, SoundBooks, AllSolvent,
      AllListed, MakePlan;
    var w := FirstStart();
    Review.FixtureIsLocked();
    ObserveTwin(w.disk.ledger, w.chain.custody);
    TwinReconciles(w.disk.ledger, w.chain.custody, Review.FIXTURE_MARKS);
    DepositIsPlanned(plan);
  }

  lemma DepositIsPlanned(plan: Plan)
    requires plan == Plan(DEPOSIT, Review.FIXTURE_MARKS, 10, BTC, 0, 0, NO_LOT_ID)
    ensures MakePlan(FirstStart().disk.ledger, DEPOSIT, Review.FIXTURE_MARKS, 0) == Ok(plan)
  {
    var b := FirstStart().disk.ledger.strategies[0];
    assert b == NewBook(Review.TREND, 1, "BTC long", "", Review.FIXTURE_FEE);
    assert Value(b, Review.FIXTURE_MARKS) == 0;
  }

  lemma RevertSticks(w: World)
    requires w.disk.pending.Some? && w.disk.pending.value.command.id !in w.chain.effects
    ensures Possible(w, DoRevert) && Stuck(Next(w, DoRevert))
  {
  }

  // ---------------------------------------------------------------------------------------------
  // Units that are worth nothing

  function Worn(): World {
    World(Disk(State([NewBook("s", 2, "n", "", 0).(units := 5, investors := [(OWNER, 5)])], [], [], 0), [], None),
          Chain(Custody(0, map[], map[]), map[], {}, {}))
  }

  lemma WornIsSound()
    ensures Inv(Worn())
  {
    hide Sound, SoundState, Twin, Planned, Booked, Attributed;
    WornBooksAreSound();
    WornIsTwin();
  }

  lemma WornBooksAreSound()
    ensures SoundState(Worn().disk.ledger)
  {
    hide Sound, NewBook;
    var l := Worn().disk.ledger;
    WornBook(l.strategies[0]);
    assert |l.strategies| == 1 && l.flows == [] && l.orders == [];
  }

  lemma WornIsTwin()
    ensures Twin(Worn().disk.ledger, Worn().chain.custody)
  {
    hide SumCash, SumQuantity, Loans;
    forall a: Asset ensures SumQuantity(Worn().disk.ledger.strategies, a) == 0 {
      NothingHeld(a);
    }
    NothingLent();
  }

  lemma WornBook(b: Book)
    requires b == Worn().disk.ledger.strategies[0]
    ensures Sound(b) && Flat(b) && Solvent(b, Review.FIXTURE_MARKS)
    ensures ClaimsOf(b, Review.FIXTURE_MARKS).Ok?
    ensures Assoc.Get(b.investors, OWNER, 0) == 5
    ensures Withdraw(b, OWNER, 5, Review.FIXTURE_MARKS).Ok?
    ensures Assoc.Get(ClaimsOf(b, Review.FIXTURE_MARKS).value, OWNER, 0) == 0
  {
    hide Claims.ShareOut;
    var five := [(OWNER, 5)];
    assert five[1..] == [];
    assert Assoc.Sum(five, Claims.AmountOf) == 5;
    assert Value(b, Review.FIXTURE_MARKS) == 0;
    Claims.ClaimsAreOfHolders(0, 5, five, OWNER);
  }

  lemma NothingHeld(a: Asset)
    ensures SumQuantity(Worn().disk.ledger.strategies, a) == 0
  {
    assert Worn().disk.ledger.strategies[1..] == [];
  }

  lemma NothingLent()
    ensures SumCash(Worn().disk.ledger.strategies) == 0 && Loans(Worn().disk.ledger.strategies) == []
  {
    assert Worn().disk.ledger.strategies[1..] == [];
  }

  /** The owner of worthless units asks for redemption; it is accepted, and nothing is done ever after. */
  lemma WorthlessRedemptionSticks()
    ensures Inv(Worn())
    ensures var r := Submit(Worn(), REDEMPTION, Review.FIXTURE_MARKS, 0);
      r.Ok? && r.value.disk.pending.Some? && r.value.disk.pending.value.amount == 0 && Stuck(r.value)
  {
    hide Inv, Submit, Stuck, ClaimOfSigner;
    WornIsSound();
    WorthlessIsAccepted();
    RedemptionSticksIff(Worn(), REDEMPTION, Review.FIXTURE_MARKS, 0);
  }

  lemma WorthlessIsAccepted()
    requires Inv(Worn())
    ensures ClaimOfSigner(Worn().disk.ledger, REDEMPTION, Review.FIXTURE_MARKS) == 0
    ensures var r := Submit(Worn(), REDEMPTION, Review.FIXTURE_MARKS, 0);
      r.Ok? && r.value.disk.pending.Some? && r.value.disk.pending.value.amount == 0
  {
    hide Sound, Solvent, Flat, Withdraw, ClaimsOf, Reconcile, Observe, Twin, Planned, SoundState, Remembered;
    var w := Worn();
    var l := w.disk.ledger;
    WornBook(l.strategies[0]);
    ObserveTwin(l, w.chain.custody);
    forall a: Asset ensures a in Review.FIXTURE_MARKS {
      match a case BTC => case ETH => case MON => case SOL =>
    }
    TwinReconciles(l, w.chain.custody, Review.FIXTURE_MARKS);
    assert IndexOf(l.strategies, "s") == 0;
    WholeClaimIsPaid(l.strategies[0], OWNER, 5, Review.FIXTURE_MARKS);
  }
}
