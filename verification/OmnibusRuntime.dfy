/**
 The runtime as an object (src/sleeves/runtime.js:74-181). Its fields are the disk and the chain; each method
 is one stretch between awaits, and returns, for the proof only, the steps of module Runtime it has taken.
 */
module OmnibusRuntimes {
  import opened Prelude
  import opened Ledger
  import opened LedgerRuns
  import opened Reconciliation
  import opened Runtime
  import opened RuntimeLaws
  import opened SleeveLedgers
  import opened PlanLaws
  import opened SettlementLaws
  import BookLaws
  import ValuationLaws
  import RuntimeProgress

  /** What becomes of a transaction: the process stops before it, it reverts, or it executes. */
  datatype Fate = Stops | Reverts | Executes(e: Execution)

  /** The vault and the venue, as far as a plan meets them. */
  type Venue = (Plan, Custody) -> Fate

  ghost predicate Lawful(venue: Venue) {
    forall plan: Plan, custody: Custody ::
      venue(plan, custody).Executes? ==> Permitted(plan, venue(plan, custody).e, custody)
  }

  lemma LawfulAt(venue: Venue, plan: Plan, custody: Custody)
    requires Lawful(venue)
    ensures venue(plan, custody).Executes? ==> Permitted(plan, venue(plan, custody).e, custody)
  {
    hide Permitted;
  }

  /** What an accepted command leaves: its plan on the disk, or for a registration its strategy in the ledger. */
  ghost predicate AcceptedAs(before: World, c: Command, marks: Marks, quoted: int, after: World) {
    if c.kind == REGISTER then
      && BookLaws.Recorded(before.disk.ledger, OpCreate(c.strategyId, c.signer, c.name, c.description, 1000),
                           Done(after.disk.ledger, 0, 0))
      && after == before.(disk := Disk(after.disk.ledger, before.disk.used + [c.id], None))
    else
      && after.disk.pending.Some? && PlanIs(before.disk.ledger, c, marks, quoted, after.disk.pending.value)
      && after == before.(disk := Disk(before.disk.ledger, before.disk.used, after.disk.pending))
  }

  lemma AcceptedIs(w: World, c: Command, marks: Marks, quoted: int)
    requires SoundState(w.disk.ledger)
    ensures Submit(w, c, marks, quoted).Ok? ==>
      AcceptedAs(w, c, marks, quoted, Submit(w, c, marks, quoted).value)
  {
    hide MakePlan, Reconcile, Create, Observe, ValidRegistration, SoundState, PlanIs, BookLaws.Recorded;
    if Submit(w, c, marks, quoted).Ok? {
      if c.kind == REGISTER {
        RegistrationIsExact(w, c, marks, quoted);
      } else {
        PlanIsExact(w.disk.ledger, c, marks, quoted);
      }
    }
  }

  class OmnibusRuntime {
    var ledger: State
    var used: seq<string>
    var pending: Option<Plan>
    var custody: Custody
    var effects: map<string, Execution>
    var anchors: set<string>
    var reverted: set<string>

    function View(): World
      reads this
    {
      World(Disk(ledger, used, pending), Chain(custody, effects, anchors, reverted))
    }

    ghost predicate Valid()
      reads this
    {
      Inv(View())
    }

    constructor ()
      ensures Valid() && View() == FirstStart()
    {
      hide Inv, FirstStart;
      FirstStartInv();
      var w := FirstStart();
      ledger, used, pending := w.disk.ledger, w.disk.used, w.disk.pending;
      custody, effects, anchors, reverted := w.chain.custody, w.chain.effects, w.chain.anchors, w.chain.reverted;
    }

    /** A new command is checked, planned and made durable; nothing has been sent when this returns. */
    method Accept(c: Command, marks: Marks, quoted: int) returns (r: Result<(), Fault>)
      requires Valid() && c.id != ""
      modifies this
      ensures Valid()
      ensures r.Ok? == Submit(old(View()), c, marks, quoted).Ok? == Submittable(old(View()), c, marks, quoted)
      ensures r.Err? ==> r == Err(Submit(old(View()), c, marks, quoted).error)
      ensures View() == Next(old(View()), DoSubmit(c, marks, quoted))
      ensures r.Ok? ==> AcceptedAs(old(View()), c, marks, quoted, View())
    {
      hide Inv, Submit, Submittable, AcceptedAs, SoundState;
      InvLedger(View());
      SubmittedIff(View(), c, marks, quoted);
      AcceptedIs(View(), c, marks, quoted);
      r := AcceptBody(c, marks, quoted);
    }

    method AcceptBody(c: Command, marks: Marks, quoted: int) returns (r: Result<(), Fault>)
      requires Valid() && c.id != ""
      modifies this
      ensures Valid()
      ensures r.Ok? <==> Submit(old(View()), c, marks, quoted).Ok?
      ensures r.Err? ==> r == Err(Submit(old(View()), c, marks, quoted).error)
      ensures View() == Next(old(View()), DoSubmit(c, marks, quoted))
    {
      hide Inv, MakePlan, Reconcile, Create, Observe, ValidRegistration, SoundState, Exactly, ValuationLaws.Reported;
      InvLedger(View());
      if pending.Some? {
        return Err(RecoveryPending);
      }
      if c.id in used {
        return Err(Replayed);
      }
      NextKeeps(View(), DoSubmit(c, marks, quoted));
      var l := new SleeveLedger(ledger);
      var checked := l.CheckCustody(Observe(ledger, custody), marks);
      if checked.Err? {
        return Err(Refused(checked.error));
      }
      if c.kind == REGISTER {
        if !ValidRegistration(c) {
          return Err(InvalidRegistration);
        }
        var created := l.CreateStrategy(c.strategyId, c.signer, c.name, c.description, DEFAULT_FEE);
        if created.Err? {
          return Err(Refused(created.error));
        }
        ledger := l.View();
        used := used + [c.id];
      } else {
        var plan :- MakePlan(ledger, c, marks, quoted);
        pending := Some(plan);
      }
      r := Ok(());
    }

    /** The amount of a withdrawal is computed again on a copy of the ledger. */
    method Recheck(plan: Plan) returns (r: Result<(), Fault>)
      requires SoundState(ledger)
      ensures r == BeforeSending(ledger, plan)
    {
      hide Redeem, PayProvider, SoundState, IndexOf, Exactly;
      var c := plan.command;
      if c.kind != REDEEM && c.kind != PAY_PROVIDER {
        return Ok(());
      }
      var l := new SleeveLedger(ledger);
      var done: Result<Receipt, Error>;
      if c.kind == REDEEM {
        var found, i := l.FindSleeve(c.strategyId);
        if found.None? {
          return Err(Refused(UnknownStrategy));
        }
        done := l.RedeemCapital(c.strategyId, c.signer, OwnedUnits(found.value.View(), c.signer), c.id, plan.marks);
      } else {
        done := l.PayAccrual(c.strategyId, c.id);
      }
      if done.Err? {
        return Err(Refused(done.error));
      }
      r := if done.value.amount == plan.amount then Ok(()) else Err(WithdrawalChanged);
    }

    /** Sending the pending plan: at most one effect under its id, whatever was tried before. */
    method Transact(fate: Fate) returns (r: Result<(), Fault>, ghost script: seq<Action>)
      requires Valid() && pending.Some?
      requires fate.Executes? ==> Permitted(pending.value, fate.e, custody)
      requires pending.value.command.kind == ORDER ==> pending.value.command.id in anchors
      modifies this`custody, this`effects, this`reverted
      ensures Valid()
      ensures AllPossible(old(View()), script) && View() == RunActions(old(View()), script)
      ensures r.Ok? ==> InFlight(View())
      ensures old(pending.value.command.id in effects) ==> custody == old(custody)
      ensures old(pending.value.command.id !in effects) && r.Ok? ==>
        fate.Executes? && VaultMoved(old(custody), old(pending.value), fate.e, custody)
      ensures r.Err? ==> custody == old(custody) && effects == old(effects)
    {
      hide Inv, Permitted, BeforeSending, EffectOn, SoundState, VaultMoved;
      InvLedger(View());
      var plan := pending.value;
      var id := plan.command.id;
      script := [];
      var again := Recheck(plan);
      if again.Err? {
        return Err(again.error), script;
      }
      if id in effects {
        return Ok(()), script;
      }
      if id in reverted {
        return Err(Reverted), script;
      }
      match fate {
        case Stops =>
          r := Err(NotExecuted);
        case Reverts =>
          script := [DoRevert];
          NextKeeps(View(), DoRevert);
          RuntimeProgress.OneAction(View(), DoRevert);
          reverted := reverted + {id};
          r := Err(Reverted);
        case Executes(e) =>
          script := [DoSend(e)];
          assert Possible(View(), DoSend(e));
          NextKeeps(View(), DoSend(e));
          RuntimeProgress.OneAction(View(), DoSend(e));
          EffectIs(custody, plan, e);
          custody := EffectOn(custody, plan, e);
          effects := effects[id := e];
          r := Ok(());
      }
    }

    /** Booking the receipt on a copy of the ledger, and crystallizing when the strategy became flat. */
    method Book(l: SleeveLedger, plan: Plan, e: Execution, now: Marks) returns (r: Result<(), Fault>)
      requires l.Valid()
      modifies l, l.strategies
      ensures l.Valid()
      ensures match Settled(old(l.View()), plan, e, now)
              case Ok(next) => r == Ok(()) && l.View() == next
              case Err(fault) => r == Err(fault)
    {
      hide Allocate, Redeem, PayProvider, RecordFill, Crystallize, SoundState, FillOf, Flat, IndexOf, Exactly;
      var c := plan.command;
      match c.kind {
        case ALLOCATE =>
          var done := l.AllocateCapital(c.strategyId, c.signer, e.cash, c.id, plan.marks);
          return if done.Ok? then Ok(()) else Err(Refused(done.error));
        case REDEEM =>
          var found, i := l.FindSleeve(c.strategyId);
          if found.None? {
            return Err(Refused(UnknownStrategy));
          }
          var done := l.RedeemCapital(c.strategyId, c.signer, OwnedUnits(found.value.View(), c.signer), c.id, plan.marks);
          return Amount(done, plan.amount);
        case PAY_PROVIDER =>
          var done := l.PayAccrual(c.strategyId, c.id);
          return Amount(done, plan.amount);
        case ORDER =>
          var done := l.Settle(FillOf(plan, e));
          if done.Err? {
            return Err(Refused(done.error));
          }
          r := CloseOut(l, c, now);
        case _ =>
          return Err(UnsupportedOperation);
      }
    }

    static function Amount(done: Result<Receipt, Error>, amount: int): Result<(), Fault> {
      if done.Err? then Err(Refused(done.error))
      else if done.value.amount == amount then Ok(())
      else Err(WithdrawalChanged)
    }

    method CloseOut(l: SleeveLedger, c: Command, now: Marks) returns (r: Result<(), Fault>)
      requires l.Valid()
      modifies l, l.strategies
      ensures l.Valid()
      ensures match Closed(old(l.View()), c, now)
              case Ok(next) => r == Ok(()) && l.View() == next
              case Err(fault) => r == Err(fault)
    {
      hide Crystallize, SoundState, Flat, IndexOf, Exactly;
      var found, i := l.FindSleeve(c.strategyId);
      if found.None? {
        return Err(Refused(UnknownStrategy));
      }
      if (c.side == SELL || c.side == SHORT_CLOSE) && l.Idle(found.value) {
        var done := l.CrystallizeFee(c.strategyId, now);
        return if done.Ok? then Ok(()) else Err(Refused(done.error));
      }
      r := Ok(());
    }

    /** The atomic end of a plan. Any failed check leaves the disk as it was, with the plan still pending. */
    method Finish(now: Marks) returns (r: Result<(), Fault>)
      requires Valid() && InFlight(View())
      modifies this`ledger, this`used, this`pending
      ensures Valid()
      ensures match Commit(old(View()), now)
              case Ok(next) => r == Ok(()) && View() == next
              case Err(fault) => r == Err(fault) && View() == old(View())
      ensures r.Ok? ==>
        Committed(old(ledger), old(pending.value), effects[old(pending.value.command.id)], now, ledger)
    {
      hide Inv, Commit, Committed;
      if Commit(View(), now).Ok? {
        CommitIsExact(View(), now);
      }
      r := FinishBody(now);
    }

    method FinishBody(now: Marks) returns (r: Result<(), Fault>)
      requires Valid() && InFlight(View())
      modifies this`ledger, this`used, this`pending
      ensures Valid()
      ensures match Commit(old(View()), now)
              case Ok(next) => r == Ok(()) && View() == next
              case Err(fault) => r == Err(fault) && View() == old(View())
    {
      hide Inv, Settled, Reconcile, Observe, Attributed, SoundState, ValuationLaws.Reported;
      InvLedger(View());
      NextKeeps(View(), DoCommit(now));
      var plan := pending.value;
      var e := effects[plan.command.id];
      if !Attributed(plan, e) {
        return Err(AttributionMismatch);
      }
      var l := new SleeveLedger(ledger);
      var booked := Book(l, plan, e, now);
      if booked.Err? {
        return booked;
      }
      var checked := l.CheckCustody(Observe(l.View(), custody), now);
      if checked.Err? {
        return Err(Refused(checked.error));
      }
      ledger, used, pending := l.View(), used + [plan.command.id], None;
      r := Ok(());
    }

    /** The transaction that anchors an order. */
    method PublishAnchor() returns (ghost script: seq<Action>)
      requires Valid() && pending.Some? && pending.value.command.kind == ORDER
      modifies this`anchors
      ensures Valid() && pending.value.command.id in anchors
      ensures AllPossible(old(View()), script) && View() == RunActions(old(View()), script)
    {
      hide Inv, AllPossible, RunActions;
      script := [DoAnchor];
      NextKeeps(View(), DoAnchor);
      RuntimeProgress.OneAction(View(), DoAnchor);
      anchors := anchors + {pending.value.command.id};
    }

    /**
     Processing the pending plan from the beginning, as a fresh command does and as every restart does. The
     process may stop at the anchor, at the transaction, or before the commit.
     */
    method Process(venue: Venue, anchored: bool, now: Marks, survives: bool)
      returns (r: Result<(), Fault>, ghost script: seq<Action>)
      requires Valid() && pending.Some? && Lawful(venue)
      modifies this
      ensures Valid()
      ensures AllPossible(old(View()), script) && View() == RunActions(old(View()), script)
      ensures r.Ok? ==> pending.None? && used == old(used) + [old(pending).value.command.id]
      ensures r.Err? ==> pending == old(pending) && ledger == old(ledger) && used == old(used)
    {
      hide Inv, Commit, Send, Permitted, Lawful, Committed, VaultMoved, Next, AllPossible, RunActions;
      ghost var start := View();
      script := [];
      RuntimeProgress.Nothing(start);
      if pending.value.command.kind == ORDER {
        if !anchored && pending.value.command.id !in anchors {
          return Err(NotExecuted), script;
        }
        script := PublishAnchor();
      }
      ghost var sending;
      LawfulAt(venue, pending.value, custody);
      r, sending := Transact(venue(pending.value, custody));
      RunConcat(start, script, sending);
      script := script + sending;
      if r.Err? {
        return;
      }
      if !survives {
        r := Err(NotExecuted);
        return;
      }
      ghost var sent := View();
      r := Finish(now);
      if r.Ok? {
        RuntimeProgress.OneAction(sent, DoCommit(now));
        CommitNext(sent, now);
        RunConcat(start, script, [DoCommit(now)]);
        script := script + [DoCommit(now)];
        CommittedWorld(sent, now);
      }
    }

    /**
     A submitted command: a retry of the pending one resumes it, any other waits, a used one is refused, and a
     new one is accepted and processed. When it is answered, it is used up.
     */
    method SubmitLocked(c: Command, marks: Marks, quoted: int, venue: Venue, anchored: bool, now: Marks, survives: bool)
      returns (r: Result<(), Fault>, ghost script: seq<Action>)
      requires Valid() && c.id != "" && Lawful(venue)
      modifies this
      ensures Valid()
      ensures AllPossible(old(View()), script) && View() == RunActions(old(View()), script)
      ensures r.Ok? ==> c.id in used && pending.None?
      ensures old(pending).Some? && (old(pending).value.command.id != c.id || old(pending).value.command.hash != c.hash)
              ==> r == Err(RecoveryPending) && View() == old(View())
      ensures old(pending).None? && c.id in old(used) ==> r == Err(Replayed) && View() == old(View())
    {
      hide Inv, Submit, Commit, Send, Permitted, Lawful;
      script := [];
      if pending.Some? {
        if pending.value.command.id != c.id || pending.value.command.hash != c.hash {
          return Err(RecoveryPending), script;
        }
        r, script := Process(venue, anchored, now, survives);
        return;
      }
      if c.id in used {
        return Err(Replayed), script;
      }
      ghost var start := View();
      AcceptedShape(start, c, marks, quoted);
      r := Accept(c, marks, quoted);
      script := [DoSubmit(c, marks, quoted)];
      RuntimeProgress.OneAction(start, DoSubmit(c, marks, quoted));
      if r.Err? || pending.None? {
        return;
      }
      ghost var processing;
      ghost var planned := View();
      r, processing := Process(venue, anchored, now, survives);
      RunConcat(start, script, processing);
      script := script + processing;
    }
  }

  lemma AcceptedShape(w: World, c: Command, marks: Marks, quoted: int)
    ensures Submit(w, c, marks, quoted).Ok? ==>
      var next := Submit(w, c, marks, quoted).value.disk;
      if next.pending.Some? then next.pending.value.command == c else c.id in next.used
  {
    hide MakePlan, Reconcile, Create, Observe, ValidRegistration;
    if MakePlan(w.disk.ledger, c, marks, quoted).Ok? {
      PlanIsOf(w.disk.ledger, c, marks, quoted);
    }
  }

  lemma InvLedger(w: World)
    requires Inv(w)
    ensures SoundState(w.disk.ledger)
  {
  }

  lemma CommitNext(w: World, now: Marks)
    requires Commit(w, now).Ok?
    ensures Next(w, DoCommit(now)) == Commit(w, now).value
  {
    hide Commit;
  }

  /** Two stretches of steps after each other. */
  lemma {:induction false} RunConcat(w: World, first: seq<Action>, second: seq<Action>)
    ensures RunActions(w, first + second) == RunActions(RunActions(w, first), second)
    ensures AllPossible(w, first) && AllPossible(RunActions(w, first), second) ==> AllPossible(w, first + second)
    decreases first
  {
    hide Possible, Next;
    if first == [] {
      assert first + second == second;
    } else {
      assert (first + second)[1..] == first[1..] + second;
      RunConcat(Next(w, first[0]), first[1..], second);
    }
  }
}
