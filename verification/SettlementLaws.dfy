/** What the commit of a plan writes to the ledger: the operation the chain has executed, booked field by field. */
module SettlementLaws {
  import opened Prelude
  import opened Ledger
  import opened LedgerRuns
  import opened Reconciliation
  import opened CustodyLaws
  import opened BookLaws
  import opened Runtime
  import opened PlanLaws
  import RuntimeLaws
  import Review

  /** The ledger operation a plan stands for, once its transaction has reported. */
  ghost predicate StandsFor(l: State, plan: Plan, e: Execution, op: Op) {
    var c := plan.command;
    match c.kind
    case ALLOCATE => op == OpAllocate(c.strategyId, c.signer, plan.amount, c.id, plan.marks)
    case REDEEM =>
      && IndexOf(l.strategies, c.strategyId) < |l.strategies|
      && var b := l.strategies[IndexOf(l.strategies, c.strategyId)];
         op == OpRedeem(c.strategyId, c.signer, OwnedUnits(b, c.signer), c.id, plan.marks)
    case PAY_PROVIDER => op == OpPay(c.strategyId, c.id)
    case ORDER => op.OpFill? && ReportedAs(plan, e, op.fill)
    case _ => false
  }

  /** Whether the strategy of a sale or a short close is flat with it, so that its fee is due. */
  ghost predicate FeeIsDue(booked: State, plan: Plan) {
    var i := IndexOf(booked.strategies, plan.command.strategyId);
    && plan.command.kind == ORDER && (plan.command.side == SELL || plan.command.side == SHORT_CLOSE)
    && i < |booked.strategies| && Flat(booked.strategies[i])
  }

  /** The ledger of a commit: the operation, and the fee where it is due. */
  ghost predicate Committed(l: State, plan: Plan, e: Execution, now: Marks, next: State) {
    exists op, done ::
      && StandsFor(l, plan, e, op) && Recorded(l, op, done)
      && if FeeIsDue(done.state, plan) then Charging(done.state, plan, now, next) else next == done.state
  }

  ghost predicate Charging(booked: State, plan: Plan, now: Marks, next: State) {
    exists fee :: Recorded(booked, OpCrystallize(plan.command.strategyId, now), Done(next, 0, fee))
  }

  lemma BookedStep(l: State, plan: Plan, e: Execution)
    requires RuntimeLaws.Planned(l, plan) && Attributed(plan, e) && RuntimeLaws.Booked(l, plan, e).Ok?
    requires SoundState(l)
    ensures exists op ::
      StandsFor(l, plan, e, op) && Step(l, op).Ok? && Step(l, op).value.state == RuntimeLaws.Booked(l, plan, e).value
  {
    hide SoundState, RecordFill, Allocate, Redeem, PayProvider, OwnedUnits, IndexOf, PlanOrder;
    var c := plan.command;
    var quoted :| MakePlan(l, c, plan.marks, quoted) == Ok(plan);
    var op := match c.kind
      case ALLOCATE => OpAllocate(c.strategyId, c.signer, plan.amount, c.id, plan.marks)
      case REDEEM =>
        OpRedeem(c.strategyId, c.signer, OwnedUnits(l.strategies[IndexOf(l.strategies, c.strategyId)], c.signer), c.id,
                 plan.marks)
      case PAY_PROVIDER => OpPay(c.strategyId, c.id)
      case _ => OpFill(FillOf(plan, e));
    FillReports(plan, e);
    assert StandsFor(l, plan, e, op);
  }

  /** Every commit writes exactly this. */
  lemma CommitIsExact(w: World, now: Marks)
    requires RuntimeLaws.Inv(w) && RuntimeLaws.InFlight(w) && Commit(w, now).Ok?
    ensures var plan := w.disk.pending.value;
      Committed(w.disk.ledger, plan, w.chain.effects[plan.command.id], now, Commit(w, now).value.disk.ledger)
  {
    hide RuntimeLaws.Booked, Commit, SoundState, RuntimeLaws.Remembered, RuntimeLaws.Planned, Twin,
      Attributed, Recorded, StandsFor, Crystallize, Step, Flat;
    var l, plan := w.disk.ledger, w.disk.pending.value;
    var e := w.chain.effects[plan.command.id];
    var next := Commit(w, now).value.disk.ledger;
    RuntimeLaws.CommitFacts(w, now);
    var booked := RuntimeLaws.Booked(l, plan, e).value;
    RuntimeLaws.BookedIsSound(l, plan, e);
    BookedStep(l, plan, e);
    var op :| StandsFor(l, plan, e, op) && Step(l, op).Ok? && Step(l, op).value.state == booked;
    StepIsExact(l, op);
    var done := Step(l, op).value;
    if FeeIsDue(booked, plan) {
      ChargedStep(booked, plan, now, next);
    }
    assert StandsFor(l, plan, e, op) && Recorded(l, op, done);
  }

  lemma ChargedStep(booked: State, plan: Plan, now: Marks, next: State)
    requires SoundState(booked) && Crystallize(booked, plan.command.strategyId, now).Ok?
    requires next == Crystallize(booked, plan.command.strategyId, now).value.state
    ensures Charging(booked, plan, now, next)
  {
    hide SoundState, Recorded, CrystallizeBook;
    var op := OpCrystallize(plan.command.strategyId, now);
    StepIsExact(booked, op);
    assert Step(booked, op).value == Done(next, 0, Step(booked, op).value.amount);
  }

  /** A registration opens an empty strategy of the signer with the default fee of ten percent. */
  lemma RegistrationIsExact(w: World, c: Command, marks: Marks, quoted: int)
    requires SoundState(w.disk.ledger) && c.kind == REGISTER && Submit(w, c, marks, quoted).Ok?
    ensures var next := Submit(w, c, marks, quoted).value;
      && Recorded(w.disk.ledger, OpCreate(c.strategyId, c.signer, c.name, c.description, 1000),
                  Done(next.disk.ledger, 0, 0))
      && next == w.(disk := w.disk.(ledger := next.disk.ledger, used := w.disk.used + [c.id]))
  {
    hide SoundState, Reconcile, Create, Recorded, ValidRegistration;
    var op := OpCreate(c.strategyId, c.signer, c.name, c.description, 1000);
    StepIsExact(w.disk.ledger, op);
    CreateMovesNothing(w.disk.ledger, op);
  }

  lemma CreateMovesNothing(l: State, op: Op)
    requires op.OpCreate? && Step(l, op).Ok?
    ensures Step(l, op).value.units == 0 && Step(l, op).value.amount == 0
  {
  }

  /** A lower-case letter, then 2 to 63 characters that are such letters, digits or hyphens. */
  ghost predicate IsSlug(id: string) {
    exists first: char, rest: string ::
      && id == [first] + rest && 'a' <= first <= 'z' && 2 <= |rest| <= 63
      && forall i :: 0 <= i < |rest| ==> 'a' <= rest[i] <= 'z' || '0' <= rest[i] <= '9' || rest[i] == '-'
  }

  /** A name of at most 100 characters that are not all spaces. */
  ghost predicate IsTitle(name: string) {
    |name| <= 100 && name != seq(|name|, _ => ' ')
  }

  lemma RegistrableIff(c: Command)
    ensures ValidRegistration(c) <==> IsSlug(c.strategyId) && IsTitle(c.name) && |c.description| <= 500
  {
    SlugIff(c.strategyId);
  }

  lemma SlugIff(id: string)
    ensures IsSlug(id) <==>
      3 <= |id| <= 64 && 'a' <= id[0] <= 'z' && forall i :: 0 <= i < |id| ==> SlugChar(id[i])
  {
    if 3 <= |id| <= 64 && 'a' <= id[0] <= 'z' && forall i :: 0 <= i < |id| ==> SlugChar(id[i]) {
      assert id == [id[0]] + id[1..];
      assert forall i :: 0 <= i < |id[1..]| ==> SlugChar(id[1..][i]);
    }
    if IsSlug(id) {
      var first: char, rest: string :| id == [first] + rest && 'a' <= first <= 'z' && 2 <= |rest| <= 63
        && forall i :: 0 <= i < |rest| ==> 'a' <= rest[i] <= 'z' || '0' <= rest[i] <= '9' || rest[i] == '-';
      assert forall i :: 0 < i < |id| ==> id[i] == rest[i - 1];
    }
  }

  /** What the runtime asks of a new command. */
  ghost predicate Submittable(w: World, c: Command, marks: Marks, quoted: int) {
    && w.disk.pending.None? && c.id !in w.disk.used
    && AllListed(marks) && AllSolvent(w.disk.ledger.strategies, marks)
    && if c.kind == REGISTER
       then
         && IsSlug(c.strategyId) && IsTitle(c.name) && |c.description| <= 500
         && CanTake(w.disk.ledger, OpCreate(c.strategyId, c.signer, c.name, c.description, 1000))
       else Plannable(w.disk.ledger, c, marks, quoted)
  }

  /** A command is accepted exactly when it is asked for rightly: custody, in a reachable state, never stops it. */
  lemma SubmittedIff(w: World, c: Command, marks: Marks, quoted: int)
    requires RuntimeLaws.Inv(w)
    ensures Submit(w, c, marks, quoted).Ok? <==> Submittable(w, c, marks, quoted)
  {
    hide SoundState, Twin, Reconcile, Observe, MakePlan, Plannable, CanTake, ValidRegistration, Create, AllSolvent,
      AllListed, IsSlug, IsTitle, RuntimeLaws.Planned, RuntimeLaws.Remembered, RuntimeLaws.Booked;
    var l := w.disk.ledger;
    RegistrableIff(c);
    if w.disk.pending.None? {
      ObserveTwin(l, w.chain.custody);
      TwinReconciles(l, w.chain.custody, marks);
      PlannedIff(l, c, marks, quoted);
      StepAcceptedIff(l, OpCreate(c.strategyId, c.signer, c.name, c.description, 1000));
    }
  }

  // ---------------------------------------------------------------------------------------------
  // Orders are anchored first

  ghost predicate AwaitsOrder(w: World, id: string) {
    w.disk.pending.Some? && w.disk.pending.value.command.kind == ORDER && w.disk.pending.value.command.id == id
  }

  /** Somewhere in the run the order was anchored, while it was pending. */
  ghost predicate AnchoredIn(w: World, actions: seq<RuntimeLaws.Action>, id: string) {
    exists j :: 0 <= j < |actions|
      && actions[j] == RuntimeLaws.DoAnchor && AwaitsOrder(RuntimeLaws.RunActions(w, actions[..j]), id)
  }

  lemma OneAnchors(w: World, a: RuntimeLaws.Action, id: string)
    ensures id in RuntimeLaws.Next(w, a).chain.anchors ==>
      id in w.chain.anchors || (a == RuntimeLaws.DoAnchor && AwaitsOrder(w, id))
  {
    hide MakePlan, Reconcile, Settled, Attributed, BeforeSending, EffectOn, ValidRegistration, Create, Observe;
  }

  lemma {:induction false} AnchorsAreMade(w: World, actions: seq<RuntimeLaws.Action>, id: string)
    ensures id in RuntimeLaws.RunActions(w, actions).chain.anchors ==> id in w.chain.anchors || AnchoredIn(w, actions, id)
    decreases actions
  {
    hide RuntimeLaws.Next, AwaitsOrder;
    if actions != [] {
      var next, rest := RuntimeLaws.Next(w, actions[0]), actions[1..];
      OneAnchors(w, actions[0], id);
      AnchorsAreMade(next, rest, id);
      assert actions[..0] == [] && RuntimeLaws.RunActions(w, []) == w;
      if AnchoredIn(next, rest, id) {
        var j :| 0 <= j < |rest|
          && rest[j] == RuntimeLaws.DoAnchor && AwaitsOrder(RuntimeLaws.RunActions(next, rest[..j]), id);
        assert actions[..j + 1][1..] == rest[..j] && actions[..j + 1][0] == actions[0];
        assert actions[j + 1] == rest[j];
      }
    }
  }

  /** In no run does an order take effect before a transaction of its own has anchored it. */
  lemma OrdersAreAnchoredFirst(actions: seq<RuntimeLaws.Action>, e: Execution, id: string)
    requires AwaitsOrder(RuntimeLaws.RunActions(RuntimeLaws.FirstStart(), actions), id)
    requires Send(RuntimeLaws.RunActions(RuntimeLaws.FirstStart(), actions), e).Ok?
    ensures AnchoredIn(RuntimeLaws.FirstStart(), actions, id)
  {
    hide BeforeSending, EffectOn, Review.ThreeStrategies, AnchoredIn;
    AnchorsAreMade(RuntimeLaws.FirstStart(), actions, id);
  }
}
