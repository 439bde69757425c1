/** When a pending plan can still come to its end: exactly when, and what the whole runtime is like when it cannot. */
module RuntimeProgress {
  import opened Prelude
  import opened Ledger
  import opened LedgerRuns
  import opened Reconciliation
  import opened Runtime
  import opened RuntimeLaws
  import opened LedgerLaws
  import opened Claims
  import Division
  import Assoc

  predicate IsWithdrawal(plan: Plan) {
    plan.command.kind == REDEEM || plan.command.kind == PAY_PROVIDER
  }

  /**
   A plan whose transaction the chain will not let take effect any more: it has reverted, which the journal remembers
   for good, or it withdraws nothing, which the vault refuses.
   */
  ghost predicate Stuck(w: World) {
    && w.disk.pending.Some?
    && w.disk.pending.value.command.id !in w.chain.effects
    && (w.disk.pending.value.command.id in w.chain.reverted
        || (IsWithdrawal(w.disk.pending.value) && w.disk.pending.value.amount <= 0))
  }

  lemma StuckStays(w: World, a: Action)
    requires Stuck(w) && Possible(w, a)
    ensures Stuck(Next(w, a))
    ensures Next(w, a).disk == w.disk && Next(w, a).chain.custody == w.chain.custody
  {
    hide MakePlan, Settled, Reconcile, Attributed, BeforeSending, Create, ValidRegistration, EffectOn, Observe;
  }

  /**
   A stuck plan wedges the runtime: in every run the disk and custody stay as they are, and every other command of
   every strategy is refused because recovery is pending.
   */
  lemma {:induction false} StuckForGood(w: World, actions: seq<Action>)
    requires Stuck(w) && AllPossible(w, actions)
    ensures var after := RunActions(w, actions);
      && after.disk == w.disk && after.chain.custody == w.chain.custody
      && forall c, marks, quoted :: Submit(after, c, marks, quoted) == Err(RecoveryPending)
    decreases actions
  {
    hide Stuck, Possible, Next, Submit;
    if actions == [] {
      StuckRefuses(w);
    } else {
      StuckStays(w, actions[0]);
      StuckForGood(Next(w, actions[0]), actions[1..]);
    }
  }

  lemma StuckRefuses(w: World)
    requires Stuck(w)
    ensures forall c, marks, quoted :: Submit(w, c, marks, quoted) == Err(RecoveryPending)
  {
    hide MakePlan, Reconcile, Create, ValidRegistration, Observe;
  }

  // ---------------------------------------------------------------------------------------------
  // Exactly when the pending plan can be committed

  /** Some possible run ends the pending plan. */
  ghost predicate CanCommit(w: World)
    requires w.disk.pending.Some?
  {
    exists actions :: AllPossible(w, actions) && w.disk.pending.value.command.id in RunActions(w, actions).disk.used
  }

  /** The execution the plan gets: its recorded one, or for an order `e`, or the planned amount of cash. */
  function Outcome(w: World, e: Execution): Execution
    requires w.disk.pending.Some?
  {
    var plan := w.disk.pending.value;
    if plan.command.id in w.chain.effects then w.chain.effects[plan.command.id]
    else if plan.command.kind == ORDER then e
    else Execution(0, plan.amount, 0)
  }

  /** A plan that is still valid passes the checks that are made again before a withdrawal. */
  lemma PlannedIsSent(l: State, plan: Plan)
    requires Planned(l, plan)
    ensures BeforeSending(l, plan).Ok?
  {
    hide Redeem, PayProvider, Allocate, PlanOrder, IndexOf;
    var quoted :| MakePlan(l, plan.command, plan.marks, quoted) == Ok(plan);
  }

  lemma PermittedOutcome(w: World, e: Execution)
    requires w.disk.pending.Some? && w.disk.pending.value.command.id !in w.chain.effects
    requires Planned(w.disk.ledger, w.disk.pending.value)
    requires var plan := w.disk.pending.value;
      && (plan.command.kind == ORDER ==> Permitted(plan, e, w.chain.custody))
      && (IsWithdrawal(plan) ==> plan.amount > 0)
    ensures Permitted(w.disk.pending.value, Outcome(w, e), w.chain.custody)
  {
    hide Planned, MakePlan;
    PlannedShape(w.disk.ledger, w.disk.pending.value);
  }

  /** Anchoring, where there is something to anchor, and sending bring an unsent plan into flight. */
  lemma ReachesTheChain(w: World, e: Execution) returns (actions: seq<Action>)
    requires Inv(w) && w.disk.pending.Some?
    requires var plan := w.disk.pending.value;
      && plan.command.id !in w.chain.effects && plan.command.id !in w.chain.reverted
      && Permitted(plan, e, w.chain.custody)
    ensures AllPossible(w, actions)
    ensures var after := RunActions(w, actions);
      && Inv(after) && after.disk == w.disk
      && after.chain.effects == w.chain.effects[w.disk.pending.value.command.id := e]
  {
    hide Inv, Permitted, EffectOn, BeforeSending, Anchor;
    var plan := w.disk.pending.value;
    InvPlanned(w);
    PlannedIsSent(w.disk.ledger, plan);
    var ready := w;
    actions := [];
    if plan.command.kind == ORDER {
      AnchorIs(w);
      NextKeeps(w, DoAnchor);
      ready := Next(w, DoAnchor);
    }
    NextKeeps(ready, DoSend(e));
    assert Send(ready, e).Ok?;
    assert Next(ready, DoSend(e)).disk == w.disk;
    OneAction(ready, DoSend(e));
    if plan.command.kind == ORDER {
      TwoActions(w, DoAnchor, DoSend(e));
      actions := [DoAnchor, DoSend(e)];
    } else {
      actions := [DoSend(e)];
    }
  }

  lemma AnchorIs(w: World)
    requires w.disk.pending.Some? && w.disk.pending.value.command.kind == ORDER
    ensures Next(w, DoAnchor)
      == w.(chain := w.chain.(anchors := w.chain.anchors + {w.disk.pending.value.command.id}))
  {
  }

  lemma InvPlanned(w: World)
    requires Inv(w) && w.disk.pending.Some?
    ensures Planned(w.disk.ledger, w.disk.pending.value) && w.disk.pending.value.command.id !in w.disk.used
  {
    hide SoundState, Remembered, Planned, Accounted;
  }

  lemma OneAction(w: World, a: Action)
    requires Possible(w, a)
    ensures AllPossible(w, [a]) && RunActions(w, [a]) == Next(w, a)
  {
    hide Possible, Next;
    assert [a][1..] == [];
  }

  lemma TwoActions(w: World, a: Action, b: Action)
    requires Possible(w, a) && Possible(Next(w, a), b)
    ensures AllPossible(w, [a, b]) && RunActions(w, [a, b]) == Next(Next(w, a), b)
  {
    hide Possible, Next;
    assert [a, b][1..] == [b];
    OneAction(Next(w, a), b);
  }

  lemma {:induction false} OneMore(w: World, actions: seq<Action>, a: Action)
    requires AllPossible(w, actions) && Possible(RunActions(w, actions), a)
    ensures AllPossible(w, actions + [a]) && RunActions(w, actions + [a]) == Next(RunActions(w, actions), a)
    decreases actions
  {
    hide Possible, Next;
    if actions == [] {
      assert [] + [a] == [a];
      OneAction(w, a);
    } else {
      assert (actions + [a])[1..] == actions[1..] + [a];
      OneMore(Next(w, actions[0]), actions[1..], a);
    }
  }

  /** A plan in flight ends with the next commit at solvent marks. */
  lemma CommitsNext(w: World, actions: seq<Action>, now: Marks)
    requires w.disk.pending.Some? && AllPossible(w, actions) && Inv(RunActions(w, actions))
    requires RunActions(w, actions).disk == w.disk && InFlight(RunActions(w, actions))
    requires var after := RunActions(w, actions); var plan := w.disk.pending.value;
      var booked := Booked(w.disk.ledger, plan, after.chain.effects[plan.command.id]);
      AllListed(now) && (booked.Ok? ==> AllSolvent(booked.value.strategies, now))
    ensures CanCommit(w)
  {
    hide Inv, Commit, Booked, AllSolvent, AllListed, AllPossible, RunActions;
    var after := RunActions(w, actions);
    CommitIff(after, now);
    CommittedWorld(after, now);
    OneMore(w, actions, DoCommit(now));
    assert w.disk.pending.value.command.id in RunActions(w, actions + [DoCommit(now)]).disk.used;
  }

  /**
   A pending plan can be committed in some run exactly when its effect is on the chain, or its transaction has not
   reverted and it does not withdraw nothing. The venue must permit some execution of an order, and the marks of some
   moment must leave every strategy solvent.
   */
  lemma CanCommitIff(w: World, e: Execution, now: Marks)
    requires Inv(w) && w.disk.pending.Some?
    requires w.disk.pending.value.command.kind == ORDER && w.disk.pending.value.command.id !in w.chain.effects ==>
      Permitted(w.disk.pending.value, e, w.chain.custody)
    requires var booked := Booked(w.disk.ledger, w.disk.pending.value, Outcome(w, e));
      AllListed(now) && (booked.Ok? ==> AllSolvent(booked.value.strategies, now))
    ensures var plan := w.disk.pending.value;
      CanCommit(w) <==>
        plan.command.id in w.chain.effects
        || (plan.command.id !in w.chain.reverted && (IsWithdrawal(plan) ==> plan.amount > 0))
  {
    hide Inv, Booked, AllSolvent, AllListed, Permitted, AllPossible, RunActions, Planned;
    InvPlanned(w);
    if Stuck(w) {
      StuckCannot(w);
    } else if w.disk.pending.value.command.id in w.chain.effects {
      Nothing(w);
      CommitsNext(w, [], now);
    } else {
      PermittedOutcome(w, e);
      var actions := ReachesTheChain(w, Outcome(w, e));
      CommitsNext(w, actions, now);
    }
  }

  lemma Nothing(w: World)
    ensures AllPossible(w, []) && RunActions(w, []) == w
  {
  }

  lemma StuckCannot(w: World)
    requires w.disk.pending.Some? && Stuck(w) && w.disk.pending.value.command.id !in w.disk.used
    ensures !CanCommit(w)
  {
    hide Stuck, AllPossible, RunActions;
    forall actions | AllPossible(w, actions)
      ensures w.disk.pending.value.command.id !in RunActions(w, actions).disk.used
    {
      StuckForGood(w, actions);
    }
  }

  // ---------------------------------------------------------------------------------------------
  // A redemption of nothing

  /** What the signer of a command owns of its strategy, in cash. */
  function ClaimOfSigner(l: State, c: Command, marks: Marks): int {
    var i := IndexOf(l.strategies, c.strategyId);
    if i < |l.strategies| && ClaimsOf(l.strategies[i], marks).Ok? then
      Assoc.Get(ClaimsOf(l.strategies[i], marks).value, c.signer, 0)
    else 0
  }

  /**
   A redemption is accepted even when the units are worth nothing, and the vault never pays nothing: an accepted
   redemption that was not tried before is stuck exactly when the owner's claim is zero.
   */
  lemma RedemptionSticksIff(w: World, c: Command, marks: Marks, quoted: int)
    requires Inv(w) && c.kind == REDEEM && c.id !in w.chain.reverted
    requires Submit(w, c, marks, quoted).Ok?
    ensures Stuck(Submit(w, c, marks, quoted).value) <==> ClaimOfSigner(w.disk.ledger, c, marks) == 0
  {
    hide SoundState, Remembered, Planned, Accounted, Withdraw, Reconcile, Observe, IndexOf, Flat, ClaimsOf;
    var l := w.disk.ledger;
    var i := IndexOf(l.strategies, c.strategyId);
    var b := l.strategies[i];
    BookIsSound(l, i);
    WholeClaimIsPaid(b, c.signer, OwnedUnits(b, c.signer), marks);
  }

  lemma WholeClaimIsPaid(b: Book, owner: Party, units: int, marks: Marks)
    requires Sound(b) && Flat(b) && units == Assoc.Get(b.investors, owner, 0)
    requires Withdraw(b, owner, units, marks).Ok?
    ensures ClaimsOf(b, marks).Ok?
    ensures Withdraw(b, owner, units, marks).value.amount == Assoc.Get(ClaimsOf(b, marks).value, owner, 0) >= 0
  {
    hide Sound, Flat, Division.Quot;
    ClaimsNeedPrices(b, marks);
    PayoutBounds(b, owner, units, marks);
  }
}
