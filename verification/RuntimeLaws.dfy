/** What holds in every state the runtime can be found in, after any commands, reverts, crashes and restarts. */
module RuntimeLaws {
  import opened Prelude
  import opened Division
  import opened Claims
  import opened Ledger
  import opened LedgerLaws
  import opened LedgerRuns
  import opened Reconciliation
  import opened CustodyLaws
  import opened Runtime
  import Review
  import Assoc

  // ---------------------------------------------------------------------------------------------
  // The invariant

  /** The plan is the one the present ledger would still make. */
  ghost predicate Planned(l: State, plan: Plan) {
    exists quoted :: MakePlan(l, plan.command, plan.marks, quoted) == Ok(plan)
  }

  /** The ledger with the effect of the plan booked, before any fee is crystallized. */
  function Booked(l: State, plan: Plan, e: Execution): Result<State, Fault> {
    var c := plan.command;
    match c.kind {
      case ORDER =>
        var done :- Lift(RecordFill(l, FillOf(plan, e)));
        Ok(done.state)
      case _ => Settled(l, plan, e, plan.marks)
    }
  }

  /** Everything the ledger remembers by id was a command that is used up. */
  ghost predicate Remembered(d: Disk) {
    && (forall i, j :: 0 <= i < j < |d.used| ==> d.used[i] != d.used[j])
    && (forall f :: f in d.ledger.flows ==> f in d.used)
    && (forall o :: o in d.ledger.orders ==> o.orderId in d.used)
  }

  ghost predicate InFlight(w: World) {
    w.disk.pending.Some? && w.disk.pending.value.command.id in w.chain.effects
  }

  /**
   Physical custody is the twin of the durable books; while the transaction of the pending plan has taken
   effect and is not committed yet, it is the twin of the books with exactly that effect.
   */
  ghost predicate Accounted(w: World) {
    if InFlight(w) then
      var plan := w.disk.pending.value;
      var e := w.chain.effects[plan.command.id];
      var booked := Booked(w.disk.ledger, plan, e);
      Attributed(plan, e) && booked.Ok? && Twin(booked.value, w.chain.custody)
    else
      Twin(w.disk.ledger, w.chain.custody)
  }

  ghost predicate Inv(w: World) {
    && SoundState(w.disk.ledger)
    && Remembered(w.disk)
    && (forall id :: id in w.chain.effects ==>
          id in w.disk.used || (w.disk.pending.Some? && id == w.disk.pending.value.command.id))
    && (w.disk.pending.Some? ==>
          var plan := w.disk.pending.value;
          plan.command.id != "" && plan.command.id !in w.disk.used && Planned(w.disk.ledger, plan))
    && Accounted(w)
  }

  // ---------------------------------------------------------------------------------------------
  // A plan that was made can be booked, whatever the chain does within the contract

  lemma PlannedShape(l: State, plan: Plan)
    requires Planned(l, plan)
    ensures plan.command.kind in {ALLOCATE, REDEEM, PAY_PROVIDER, ORDER}
    ensures IndexOf(l.strategies, plan.command.strategyId) < |l.strategies|
    ensures plan.command.kind == ORDER ==> !plan.command.side.UnknownSide?
  {
  }

  /** The checks at submission are exactly what the fill needs to be booked later. */
  lemma OrderFits(l: State, plan: Plan, e: Execution, custody: Custody)
    requires SoundState(l) && Twin(l, custody) && Planned(l, plan) && plan.command.kind == ORDER
    requires Permitted(plan, e, custody)
    requires plan.command.id != "" && !OrderSeen(l.orders, plan.command.id)
    ensures RecordFill(l, FillOf(plan, e)).Ok?
    ensures Attributed(plan, e)
  {
    hide Twin, Sound, NoRepeats, PlanOrder, RecordFill, Attributed, Permitted, IndexOf;
    var c := plan.command;
    var quoted :| MakePlan(l, c, plan.marks, quoted) == Ok(plan);
    assert Sound(l.strategies[IndexOf(l.strategies, c.strategyId)]);
    match c.side {
      case BUY => BuyFits(l, plan, e, custody, quoted);
      case SELL => SellFits(l, plan, e, custody, quoted);
      case SHORT_OPEN => OpenFits(l, plan, e, custody, quoted);
      case SHORT_CLOSE => CloseFits(l, plan, e, custody, quoted);
      case UnknownSide => NoSide(plan, e, custody);
    }
  }

  lemma NoSide(plan: Plan, e: Execution, custody: Custody)
    requires plan.command.kind == ORDER && plan.command.side.UnknownSide?
    ensures !Permitted(plan, e, custody)
  {
  }

  lemma BuyFits(l: State, plan: Plan, e: Execution, custody: Custody, quoted: int)
    requires FindStrategy(l, plan.command.strategyId).Ok? && plan.command.side == BUY && plan.command.kind == ORDER
    requires
      var b := l.strategies[IndexOf(l.strategies, plan.command.strategyId)];
      PlanOrder(b, plan.command, plan.marks, quoted) == Ok(plan) && Sound(b)
    requires Twin(l, custody) && Permitted(plan, e, custody)
    requires plan.command.id != "" && !OrderSeen(l.orders, plan.command.id)
    ensures RecordFill(l, FillOf(plan, e)).Ok? && Attributed(plan, e)
  {
    hide Twin, Sound, NoRepeats, InvestorPool, Quot, Shorting, IndexOf;
  }

  lemma SellFits(l: State, plan: Plan, e: Execution, custody: Custody, quoted: int)
    requires FindStrategy(l, plan.command.strategyId).Ok? && plan.command.side == SELL && plan.command.kind == ORDER
    requires
      var b := l.strategies[IndexOf(l.strategies, plan.command.strategyId)];
      PlanOrder(b, plan.command, plan.marks, quoted) == Ok(plan) && Sound(b)
    requires Twin(l, custody) && Permitted(plan, e, custody)
    requires plan.command.id != "" && !OrderSeen(l.orders, plan.command.id)
    ensures RecordFill(l, FillOf(plan, e)).Ok? && Attributed(plan, e)
  {
    hide Twin, Sound, NoRepeats, InvestorPool, Quot, Shorting, IndexOf;
  }

  lemma OpenFits(l: State, plan: Plan, e: Execution, custody: Custody, quoted: int)
    requires FindStrategy(l, plan.command.strategyId).Ok? && plan.command.side == SHORT_OPEN && plan.command.kind == ORDER
    requires
      var b := l.strategies[IndexOf(l.strategies, plan.command.strategyId)];
      PlanOrder(b, plan.command, plan.marks, quoted) == Ok(plan) && Sound(b)
    requires Twin(l, custody) && Permitted(plan, e, custody)
    requires plan.command.id != "" && !OrderSeen(l.orders, plan.command.id)
    ensures RecordFill(l, FillOf(plan, e)).Ok? && Attributed(plan, e)
  {
    hide Twin, Sound, NoRepeats, InvestorPool, Quot, Shorting, IndexOf;
    var i := IndexOf(l.strategies, plan.command.strategyId);
    LotName(plan.command.id);
    NewLotIsNew(l, i, custody, plan.lot);
    SoundAvailable(l.strategies[i]);
  }

  lemma CloseFits(l: State, plan: Plan, e: Execution, custody: Custody, quoted: int)
    requires FindStrategy(l, plan.command.strategyId).Ok? && plan.command.side == SHORT_CLOSE && plan.command.kind == ORDER
    requires
      var b := l.strategies[IndexOf(l.strategies, plan.command.strategyId)];
      PlanOrder(b, plan.command, plan.marks, quoted) == Ok(plan) && Sound(b)
    requires Twin(l, custody) && Permitted(plan, e, custody)
    requires plan.command.id != "" && !OrderSeen(l.orders, plan.command.id)
    ensures RecordFill(l, FillOf(plan, e)).Ok? && Attributed(plan, e)
  {
    hide Twin, Sound, NoRepeats, InvestorPool, Quot, Shorting, IndexOf;
    var b := l.strategies[IndexOf(l.strategies, plan.command.strategyId)];
    OnlyLot(b.shorts, plan.asset, b);
  }

  lemma LotName(id: string)
    ensures LotOf(id) != ""
  {
  }

  lemma SoundAvailable(b: Book)
    requires Sound(b)
    ensures Available(b) >= 0
  {
  }

  lemma NewLotIsNew(l: State, i: nat, custody: Custody, lot: string)
    requires Twin(l, custody) && i < |l.strategies| && lot !in custody.shorts
    ensures !Assoc.Has(l.strategies[i].shorts, lot)
  {
    hide SumCash, SumQuantity, LotMap;
    MirrorsTally(l, custody);
    LoansSplit(l.strategies, i);
    var before, own, after := Loans(l.strategies[..i]), l.strategies[i].shorts, Loans(l.strategies[i + 1..]);
    HasConcat(before, own, lot);
    HasConcat(before + own, after, lot);
    if Assoc.Has(own, lot) {
      MatchedLot(Loans(l.strategies), custody.shorts, lot);
    }
  }

  lemma {:induction false} LotsOnAt(shorts: seq<(string, Lot)>, asset: Asset)
    requires Assoc.Distinct(shorts) && LotsOn(shorts, asset) != []
    ensures var lot := LotsOn(shorts, asset)[0];
            && Assoc.Has(shorts, lot.0) && Assoc.Get(shorts, lot.0, NO_LOT) == lot.1 && lot.1.asset == asset
  {
    if shorts[0].1.asset != asset {
      LotsOnAt(shorts[1..], asset);
    }
  }

  lemma OnlyLot(shorts: seq<(string, Lot)>, asset: Asset, b: Book)
    requires Sound(b) && shorts == b.shorts && |LotsOn(shorts, asset)| == 1
    ensures var lot := LotsOn(shorts, asset)[0];
            && Assoc.Has(shorts, lot.0) && Assoc.Get(shorts, lot.0, NO_LOT) == lot.1 && lot.1.asset == asset
            && lot.1.debt > 0
  {
    LotsOnAt(shorts, asset);
    var i := Assoc.IndexOf(shorts, LotsOn(shorts, asset)[0].0);
    assert forall d :: Assoc.Get(shorts, LotsOn(shorts, asset)[0].0, d) == shorts[i].1;
  }

  /** The operation a capital plan stands for. */
  function CapitalOp(l: State, plan: Plan): Op
    requires IndexOf(l.strategies, plan.command.strategyId) < |l.strategies|
  {
    var c := plan.command;
    match c.kind {
      case ALLOCATE => OpAllocate(c.strategyId, c.signer, c.amount, c.id, plan.marks)
      case REDEEM =>
        var owned := OwnedUnits(l.strategies[IndexOf(l.strategies, c.strategyId)], c.signer);
        OpRedeem(c.strategyId, c.signer, owned, c.id, plan.marks)
      case _ => OpPay(c.strategyId, c.id)
    }
  }

  lemma CapitalBooks(l: State, plan: Plan, e: Execution, custody: Custody)
    requires Planned(l, plan) && plan.command.kind != ORDER && Permitted(plan, e, custody)
    ensures IndexOf(l.strategies, plan.command.strategyId) < |l.strategies|
    ensures var op := CapitalOp(l, plan);
            && Step(l, op).Ok?
            && Booked(l, plan, e) == Ok(Step(l, op).value.state)
            && Step(l, op).value.amount == e.cash
            && Attributed(plan, e)
  {
    hide Withdraw, Deposit, PayBook, Flat, IndexOf, FreshRequest;
    var quoted :| MakePlan(l, plan.command, plan.marks, quoted) == Ok(plan);
    if plan.command.kind == ALLOCATE {
      AllocatedAmount(l, plan.command.strategyId, plan.command.signer, plan.command.amount, plan.command.id, plan.marks);
    }
  }

  lemma AllocatedAmount(l: State, id: string, investor: Party, amount: int, requestId: string, marks: Marks)
    requires Allocate(l, id, investor, amount, requestId, marks).Ok?
    ensures Allocate(l, id, investor, amount, requestId, marks).value.amount == amount
  {
    hide Flat, InvestorPool, FreshRequest;
  }

  /**
   What was fixed when the command was accepted is still right when the chain has executed it: the effect can
   always be booked, and booking it makes the books the twin of custody again.
   */
  lemma EffectFits(l: State, plan: Plan, e: Execution, custody: Custody)
    requires SoundState(l) && Twin(l, custody) && Planned(l, plan) && Permitted(plan, e, custody)
    requires plan.command.id != "" && !OrderSeen(l.orders, plan.command.id)
    ensures Attributed(plan, e)
    ensures Booked(l, plan, e).Ok?
    ensures Twin(Booked(l, plan, e).value, EffectOn(custody, plan, e))
  {
    hide Twin, SoundState, MakePlan, RecordFill, Settled, MoveCustody, Step, Attributed;
    PlannedShape(l, plan);
    if plan.command.kind == ORDER {
      OrderFits(l, plan, e, custody);
      FillMovesBoth(l, FillOf(plan, e), custody);
      FillIsOn(plan, e);
    } else {
      CapitalBooks(l, plan, e, custody);
      var op := CapitalOp(l, plan);
      var i := IndexOf(l.strategies, plan.command.strategyId);
      CapitalShape(l, op);
      CashMovesBoth(l, i, Apply(l, op).strategies[i], custody, Apply(l, op));
    }
  }

  lemma FillIsOn(plan: Plan, e: Execution)
    ensures FillOf(plan, e).asset == Some(plan.asset)
    ensures FillOf(plan, e).side == plan.command.side && FillOf(plan, e).lotId == plan.lot
  {
  }

  // ---------------------------------------------------------------------------------------------
  // Every step keeps the invariant

  lemma SubmitKeeps(w: World, c: Command, marks: Marks, quoted: int)
    requires Inv(w) && c.id != "" && Submit(w, c, marks, quoted).Ok?
    ensures Inv(Submit(w, c, marks, quoted).value)
  {
    hide SoundState, Twin, Reconcile, Create, MakePlan, ValidRegistration, Booked, Attributed;
    var next := Submit(w, c, marks, quoted).value;
    if c.kind == REGISTER {
      RegisterKeeps(w.disk.ledger, c, w.chain.custody);
      assert next.disk.used[..|w.disk.used|] == w.disk.used;
    } else {
      PlanIsOf(w.disk.ledger, c, marks, quoted);
      assert MakePlan(w.disk.ledger, c, marks, quoted) == Ok(next.disk.pending.value);
      assert c.id !in w.chain.effects;
    }
  }

  lemma PlanIsOf(l: State, c: Command, marks: Marks, quoted: int)
    requires MakePlan(l, c, marks, quoted).Ok?
    ensures MakePlan(l, c, marks, quoted).value.command == c && MakePlan(l, c, marks, quoted).value.marks == marks
  {
    hide Quot, InvestorPool, Flat, Deposit, Withdraw, IndexOf, LotOf, Shorting, LotsOn;
  }

  lemma RegisterKeeps(l: State, c: Command, custody: Custody)
    requires SoundState(l) && Twin(l, custody)
    requires Create(l, c.strategyId, c.signer, c.name, c.description, DEFAULT_FEE).Ok?
    ensures var next := Create(l, c.strategyId, c.signer, c.name, c.description, DEFAULT_FEE).value.state;
            && SoundState(next) && Twin(next, custody)
            && next.flows == l.flows && next.orders == l.orders
  {
    hide Sound, NoRepeats, Assoc.Distinct, LoansMatch, BookOf, Paid, OwnMoves, IndexOf;
    var op := OpCreate(c.strategyId, c.signer, c.name, c.description, DEFAULT_FEE);
    StepKeeps(l, op, c.strategyId);
    NewBookAdds(l.strategies, NewBook(c.strategyId, c.signer, c.name, c.description, DEFAULT_FEE));
  }

  lemma {:induction false} NewBookAdds(strategies: seq<Book>, b: Book)
    requires b.cash == 0 && b.positions == map[] && b.shorts == []
    ensures SumCash(strategies + [b]) == SumCash(strategies)
    ensures forall a :: SumQuantity(strategies + [b], a) == SumQuantity(strategies, a)
    ensures Loans(strategies + [b]) == Loans(strategies)
  {
    if strategies == [] {
      assert [] + [b] == [b] && [b][1..] == [];
    } else {
      assert (strategies + [b])[1..] == strategies[1..] + [b];
      NewBookAdds(strategies[1..], b);
    }
  }

  lemma SendKeeps(w: World, e: Execution)
    requires Inv(w) && Send(w, e).Ok? && Permitted(w.disk.pending.value, e, w.chain.custody)
    ensures Inv(Send(w, e).value) && InFlight(Send(w, e).value)
  {
    hide SoundState, Twin, BeforeSending, Permitted, Booked, Attributed, EffectOn, Planned;
    EffectFits(w.disk.ledger, w.disk.pending.value, e, w.chain.custody);
  }

  lemma AnchorAndRevertKeep(w: World)
    requires Inv(w)
    ensures Anchor(w).Ok? ==> Inv(Anchor(w).value)
    ensures Revert(w).Ok? ==> Inv(Revert(w).value)
  {
    hide SoundState, Twin, Booked, Attributed, Planned, Remembered;
  }

  // ---------------------------------------------------------------------------------------------
  // The commit

  /** An operation that is booked keeps the ledger sound and is remembered by the id of its command alone. */
  lemma BookedIsSound(l: State, plan: Plan, e: Execution)
    requires SoundState(l) && Booked(l, plan, e).Ok?
    ensures var next := Booked(l, plan, e).value;
            && SoundState(next)
            && (forall f :: f in next.flows ==> f in l.flows || f == plan.command.id)
            && (forall o :: o in next.orders ==> o in l.orders || o.orderId == plan.command.id)
  {
    hide SoundState, Execute, Withdraw, Deposit, PayBook, Flat, BookOf, Paid, OwnMoves;
    var c := plan.command;
    match c.kind {
      case ALLOCATE => StepKeeps(l, OpAllocate(c.strategyId, c.signer, e.cash, c.id, plan.marks), c.strategyId);
      case REDEEM =>
        var owned := OwnedUnits(l.strategies[IndexOf(l.strategies, c.strategyId)], c.signer);
        StepKeeps(l, OpRedeem(c.strategyId, c.signer, owned, c.id, plan.marks), c.strategyId);
      case PAY_PROVIDER => StepKeeps(l, OpPay(c.strategyId, c.id), c.strategyId);
      case ORDER => StepKeeps(l, OpFill(FillOf(plan, e)), c.strategyId);
      case _ =>
    }
  }

  /** Whether the commit also crystallizes: an order that closed the last position of its strategy. */
  predicate Closes(l: State, plan: Plan) {
    plan.command.kind == ORDER && (plan.command.side == SELL || plan.command.side == SHORT_CLOSE)
    && var i := IndexOf(l.strategies, plan.command.strategyId);
       i < |l.strategies| && Flat(l.strategies[i])
  }

  lemma SettledIsBooked(l: State, plan: Plan, e: Execution, now: Marks)
    requires Planned(l, plan)
    ensures match Booked(l, plan, e) {
              case Err(fault) => Settled(l, plan, e, now) == Err(fault)
              case Ok(booked) =>
                Settled(l, plan, e, now) ==
                  if Closes(booked, plan) then Settling(booked, plan, now) else Ok(booked)
            }
  {
    hide RecordFill, Allocate, Redeem, PayProvider, Crystallize, Flat, MakePlan, IndexOf;
    PlannedShape(l, plan);
    KnownStays(l, plan, e);
  }

  function Settling(booked: State, plan: Plan, now: Marks): Result<State, Fault> {
    var done :- Lift(Crystallize(booked, plan.command.strategyId, now));
    Ok(done.state)
  }

  lemma KnownStays(l: State, plan: Plan, e: Execution)
    ensures RecordFill(l, FillOf(plan, e)).Ok? ==>
      var next := RecordFill(l, FillOf(plan, e)).value.state;
      IndexOf(next.strategies, plan.command.strategyId) < |next.strategies|
  {
    hide WellFormedFill, OrderSeen;
    var f := FillOf(plan, e);
    if RecordFill(l, f).Ok? {
      StepIsEffect(l, OpFill(f));
      BookOfStore(l.strategies, Effect(BookOf(l.strategies, f.strategyId), Seen(l, TokenOf(OpFill(f))), OpFill(f)).value.book,
                  f.strategyId);
    }
  }

  /** A flat strategy can be crystallized exactly when its prices are known, and stays as solvent as before. */
  lemma CrystallizeAvailable(l: State, id: string, now: Marks, custody: Custody)
    requires SoundState(l) && Twin(l, custody)
    requires IndexOf(l.strategies, id) < |l.strategies| && Flat(l.strategies[IndexOf(l.strategies, id)])
    ensures var b := l.strategies[IndexOf(l.strategies, id)];
            Crystallize(l, id, now).Ok? <==> Priced(b, now)
    ensures Crystallize(l, id, now).Ok? ==>
      var next := Crystallize(l, id, now).value.state;
      && SoundState(next) && Twin(next, custody)
      && (AllSolvent(next.strategies, now) <==> AllSolvent(l.strategies, now))
      && next.flows == l.flows && next.orders == l.orders
  {
    hide Twin, Sound, NoRepeats, Value, Threshold, Quot;
    var i := IndexOf(l.strategies, id);
    var b := l.strategies[i];
    CrystallizeOne(l, now, id, custody);
    if Crystallize(l, id, now).Ok? {
      var next := Crystallize(l, id, now).value.state;
      CrystallizeNext(l, now, id);
      CrystallizeKeeps(b, now);
      FlatIsSolventToo(b, now);
      FlatIsSolventToo(next.strategies[i], now);
      assert forall j :: 0 <= j < |l.strategies| && j != i ==> next.strategies[j] == l.strategies[j];
      assert next.strategies[i] == CrystallizeBook(b, now).value.book;
      assert l.strategies[i] == b;
      assert Solvent(b, now) && Solvent(next.strategies[i], now);
    }
  }

  lemma FlatIsSolventToo(b: Book, marks: Marks)
    requires Sound(b) && Flat(b)
    ensures Solvent(b, marks) <==> Priced(b, marks)
  {
    FlatValue(b, marks);
  }

  /** Everything a commit depends on, and what it leaves. */
  lemma CommitFacts(w: World, now: Marks)
    requires Inv(w) && InFlight(w)
    ensures var plan := w.disk.pending.value;
            var booked := Booked(w.disk.ledger, plan, w.chain.effects[plan.command.id]);
            && booked.Ok?
            && (Commit(w, now).Ok? <==> AllListed(now) && AllSolvent(booked.value.strategies, now))
            && (Commit(w, now).Ok? ==>
                  && Inv(Commit(w, now).value)
                  && Commit(w, now).value.disk.pending.None?
                  && Commit(w, now).value.disk.ledger ==
                     if Closes(booked.value, plan) then Crystallize(booked.value, plan.command.strategyId, now).value.state
                     else booked.value)
            && (Closes(booked.value, plan) && Commit(w, now).Ok? ==>
                  Crystallize(booked.value, plan.command.strategyId, now).Ok?)
  {
    hide SoundState, Twin, Booked, Settled, Crystallize, Attributed, Flat, Planned, AllSolvent, Reconcile, MakePlan;
    var l, plan, custody := w.disk.ledger, w.disk.pending.value, w.chain.custody;
    var e := w.chain.effects[plan.command.id];
    var booked := Booked(l, plan, e).value;
    BookedIsSound(l, plan, e);
    SettledIsBooked(l, plan, e, now);
    if Closes(booked, plan) {
      CrystallizeAvailable(booked, plan.command.strategyId, now, custody);
      SolventIsPriced(booked.strategies, IndexOf(booked.strategies, plan.command.strategyId), now);
    }
    if Settled(l, plan, e, now).Ok? {
      var next := Settled(l, plan, e, now).value;
      ObserveTwin(next, custody);
      TwinReconciles(next, custody, now);
      if Commit(w, now).Ok? {
        CommittedIsRemembered(w.disk, plan.command.id, next);
      }
    }
  }

  lemma SolventIsPriced(strategies: seq<Book>, i: nat, marks: Marks)
    requires i < |strategies|
    ensures AllSolvent(strategies, marks) ==> Priced(strategies[i], marks)
  {
    hide Value;
    assert AllSolvent(strategies, marks) ==> Solvent(strategies[i], marks);
  }

  lemma CommittedIsRemembered(d: Disk, id: string, next: State)
    requires Remembered(d) && id !in d.used
    requires forall f :: f in next.flows ==> f in d.ledger.flows || f == id
    requires forall o :: o in next.orders ==> o in d.ledger.orders || o.orderId == id
    ensures Remembered(Disk(next, d.used + [id], None))
  {
  }

  /**
   Once the transaction has taken effect, the commit succeeds if and only if every asset is priced and every
   strategy can bear its own losses at the marks of that moment: the books and custody always agree, the
   receipt always fits the plan, and the ledger never refuses what the chain has done.
   */
  lemma CommitIff(w: World, now: Marks)
    requires Inv(w) && InFlight(w)
    ensures Booked(w.disk.ledger, w.disk.pending.value, w.chain.effects[w.disk.pending.value.command.id]).Ok?
    ensures Commit(w, now).Ok? <==>
      AllListed(now)
      && AllSolvent(Booked(w.disk.ledger, w.disk.pending.value,
                           w.chain.effects[w.disk.pending.value.command.id]).value.strategies, now)
  {
    CommitFacts(w, now);
  }

  /** Reprocessing after a crash commits the same ledger even if the marks have moved in between. */
  lemma CommitIgnoresMarks(w: World, earlier: Marks, now: Marks)
    requires Inv(w) && InFlight(w)
    requires Commit(w, earlier).Ok? && Commit(w, now).Ok?
    ensures Commit(w, earlier) == Commit(w, now)
  {
    hide Inv, Booked, Commit, Crystallize, AllSolvent;
    CommitFacts(w, earlier);
    CommitFacts(w, now);
    CommittedWorld(w, earlier);
    CommittedWorld(w, now);
    var plan := w.disk.pending.value;
    var booked := Booked(w.disk.ledger, plan, w.chain.effects[plan.command.id]).value;
    if Closes(booked, plan) {
      SameCrystallization(booked, plan.command.strategyId, earlier, now);
    }
  }

  lemma CommittedWorld(w: World, now: Marks)
    requires Commit(w, now).Ok?
    ensures w.disk.pending.Some?
    ensures Commit(w, now).value.chain == w.chain
    ensures Commit(w, now).value.disk.used == w.disk.used + [w.disk.pending.value.command.id]
    ensures Commit(w, now).value.disk.pending == None
  {
    hide Settled, Reconcile, Attributed;
  }

  lemma SameCrystallization(l: State, id: string, earlier: Marks, now: Marks)
    requires Crystallize(l, id, earlier).Ok? && Crystallize(l, id, now).Ok?
    ensures Crystallize(l, id, earlier) == Crystallize(l, id, now)
  {
    hide Value, Quot, Threshold;
    var b := l.strategies[IndexOf(l.strategies, id)];
    FlatEquityIgnoresMarks(b, earlier, now);
    FlatValue(b, earlier);
    FlatValue(b, now);
  }

  // ---------------------------------------------------------------------------------------------
  // All runs

  datatype Action =
    | DoSubmit(c: Command, marks: Marks, quoted: int)
    | DoAnchor
    | DoSend(e: Execution)
    | DoRevert
    | DoCommit(now: Marks)
    | CrashAndRestart

  function Try(w: World, a: Action): Result<World, Fault> {
    match a {
      case DoSubmit(c, marks, quoted) => Submit(w, c, marks, quoted)
      case DoAnchor => Anchor(w)
      case DoSend(e) => Send(w, e)
      case DoRevert => Revert(w)
      case DoCommit(now) => Commit(w, now)
      case CrashAndRestart => Ok(w)
    }
  }

  function Next(w: World, a: Action): World {
    var r := Try(w, a);
    if r.Ok? then r.value else w
  }

  function RunActions(w: World, actions: seq<Action>): World
    decreases actions
  {
    if actions == [] then w else RunActions(Next(w, actions[0]), actions[1..])
  }

  /** The contract only lets permitted executions happen, and digests are never empty. */
  ghost predicate Possible(w: World, a: Action) {
    && (a.DoSubmit? ==> a.c.id != "")
    && (a.DoSend? && w.disk.pending.Some? ==> Permitted(w.disk.pending.value, a.e, w.chain.custody))
  }

  ghost predicate AllPossible(w: World, actions: seq<Action>)
    decreases actions
  {
    actions == [] || (Possible(w, actions[0]) && AllPossible(Next(w, actions[0]), actions[1..]))
  }

  lemma NextKeeps(w: World, a: Action)
    requires Inv(w) && Possible(w, a)
    ensures Inv(Next(w, a))
  {
    hide Inv, Submit, Send, Anchor, Revert, Commit, Permitted;
    match a {
      case DoSubmit(c, marks, quoted) =>
        if Submit(w, c, marks, quoted).Ok? {
          SubmitKeeps(w, c, marks, quoted);
        }
      case DoSend(e) =>
        if Send(w, e).Ok? {
          SendNeedsPlan(w, e);
          SendKeeps(w, e);
        }
      case DoCommit(now) =>
        if Commit(w, now).Ok? {
          CommitNeedsEffect(w, now);
          CommitFacts(w, now);
        }
      case _ => AnchorAndRevertKeep(w);
    }
  }

  lemma SendNeedsPlan(w: World, e: Execution)
    ensures Send(w, e).Ok? ==>
      && w.disk.pending.Some?
      && w.disk.pending.value.command.id !in w.chain.effects
      && Send(w, e).value.disk == w.disk
      && Send(w, e).value.chain.effects == w.chain.effects[w.disk.pending.value.command.id := e]
  {
    hide BeforeSending;
  }

  lemma CommitNeedsEffect(w: World, now: Marks)
    ensures Commit(w, now).Ok? ==> InFlight(w)
  {
    hide Settled, Reconcile, Attributed;
  }

  /**
   In every state that can be reached, however often the process stopped and wherever, custody is accounted
   for to the last unit and lot by the durable books and the one durable plan.
   */
  lemma {:induction false} AlwaysAccounted(w: World, actions: seq<Action>)
    requires Inv(w) && AllPossible(w, actions)
    ensures Inv(RunActions(w, actions)) && Accounted(RunActions(w, actions))
    decreases actions
  {
    hide Possible, Next, SoundState, Remembered, Planned, Accounted;
    if actions != [] {
      NextKeeps(w, actions[0]);
      AlwaysAccounted(Next(w, actions[0]), actions[1..]);
    }
  }

  // ---------------------------------------------------------------------------------------------
  // Exactly once

  predicate Sends(w: World, a: Action, id: string) {
    a.DoSend? && Try(w, a).Ok? && w.disk.pending.Some? && w.disk.pending.value.command.id == id
  }

  predicate Commits(w: World, a: Action, id: string) {
    a.DoCommit? && Try(w, a).Ok? && w.disk.pending.Some? && w.disk.pending.value.command.id == id
  }

  /** A registration is final when it is accepted: it adds an empty strategy and sends nothing. */
  predicate Registers(w: World, a: Action, id: string) {
    a.DoSubmit? && a.c.kind == REGISTER && Try(w, a).Ok? && a.c.id == id
  }

  function SendsOf(w: World, actions: seq<Action>, id: string): nat
    decreases actions
  {
    if actions == [] then 0
    else (if Sends(w, actions[0], id) then 1 else 0) + SendsOf(Next(w, actions[0]), actions[1..], id)
  }

  function CommitsOf(w: World, actions: seq<Action>, id: string): nat
    decreases actions
  {
    if actions == [] then 0
    else (if Commits(w, actions[0], id) then 1 else 0) + CommitsOf(Next(w, actions[0]), actions[1..], id)
  }

  function RegistrationsOf(w: World, actions: seq<Action>, id: string): nat
    decreases actions
  {
    if actions == [] then 0
    else (if Registers(w, actions[0], id) then 1 else 0) + RegistrationsOf(Next(w, actions[0]), actions[1..], id)
  }

  /** Nothing else changes the ledger. */
  lemma OnlyTheseChangeTheLedger(w: World, a: Action)
    requires Next(w, a).disk.ledger != w.disk.ledger
    ensures (w.disk.pending.Some? && Commits(w, a, w.disk.pending.value.command.id))
            || (a.DoSubmit? && Registers(w, a, a.c.id))
  {
    hide MakePlan, Settled, Reconcile, Attributed, BeforeSending, Create, ValidRegistration, EffectOn, Observe;
  }

  /** How an action changes what is remembered of one command. */
  lemma NextRemembers(w: World, a: Action, id: string)
    requires Inv(w)
    ensures Sends(w, a, id) ==> id !in w.chain.effects
    ensures id in Next(w, a).chain.effects <==> id in w.chain.effects || Sends(w, a, id)
    ensures Commits(w, a, id) ==> id in w.chain.effects && id !in w.disk.used && id in Next(w, a).disk.used
    ensures Registers(w, a, id) ==> id !in w.disk.used && id in Next(w, a).disk.used && !Commits(w, a, id)
    ensures id in w.disk.used ==> id in Next(w, a).disk.used
  {
    hide SoundState, Accounted, Planned, MakePlan, Settled, Reconcile, Attributed, BeforeSending, Create,
         ValidRegistration, EffectOn, Observe;
  }

  /** The rest of a run from any state: a command that has been sent is not sent again, and so for commits. */
  lemma {:induction false} OnceFrom(w: World, actions: seq<Action>, id: string)
    requires Inv(w) && AllPossible(w, actions)
    ensures SendsOf(w, actions, id) <= if id in w.chain.effects then 0 else 1
    ensures CommitsOf(w, actions, id) + RegistrationsOf(w, actions, id) <= if id in w.disk.used then 0 else 1
    ensures id !in w.chain.effects ==> CommitsOf(w, actions, id) <= SendsOf(w, actions, id)
    decreases actions
  {
    hide Inv, Possible, Next, Sends, Commits, Registers;
    if actions != [] {
      NextKeeps(w, actions[0]);
      NextRemembers(w, actions[0], id);
      OnceFrom(Next(w, actions[0]), actions[1..], id);
    }
  }

  // ---------------------------------------------------------------------------------------------
  // From the first start

  /** The first start: three strategies, no units, an empty vault. */
  function FirstStart(): World {
    World(Disk(State(Review.ThreeStrategies(Review.TREND, Review.HEDGE, Review.CASH_RESERVE), [], [], 0), [], None),
          Chain(Custody(0, map[], map[]), map[], {}, {}))
  }

  lemma FirstStartInv()
    ensures Inv(FirstStart())
  {
    hide Twin, Sound, Review.ThreeStrategies, SoundBooks;
    Review.FixtureIsLocked();
    assert SoundState(Review.Fixture().ledger) && Twin(Review.Fixture().ledger, Review.Fixture().custody);
  }

  /**
   Exactly once over all runs: whatever is submitted, repeated, reverted, crashed and restarted, a command
   moves assets on the chain at most once and changes the ledger at most once, and other than by registering an empty
   strategy it never changes the ledger without having moved the assets.
   */
  lemma ExactlyOnce(actions: seq<Action>, id: string)
    requires AllPossible(FirstStart(), actions)
    ensures CommitsOf(FirstStart(), actions, id) <= SendsOf(FirstStart(), actions, id) <= 1
    ensures CommitsOf(FirstStart(), actions, id) + RegistrationsOf(FirstStart(), actions, id) <= 1
    ensures Accounted(RunActions(FirstStart(), actions))
  {
    hide Inv, AllPossible, RunActions, CommitsOf, SendsOf, RegistrationsOf, Accounted, Review.ThreeStrategies;
    FirstStartInv();
    OnceFrom(FirstStart(), actions, id);
    AlwaysAccounted(FirstStart(), actions);
  }
}
