/**
 The ledger itself: strategies are objects whose fields the operations update in place
 (src/sleeves/ledger.js). Every method is proved against the transition functions of module Ledger, and the
 object records, for the proof only, the history that led to its state.
 */
module SleeveLedgers {
  import opened Prelude
  import opened Division
  import opened Claims
  import opened Ledger
  import opened LedgerLaws
  import opened LedgerRuns
  import opened BookLaws
  import opened Reconciliation
  import opened ValuationLaws
  import Assoc

  datatype Receipt = Receipt(units: int, amount: int)

  class Sleeve {
    const id: string
    const provider: Party
    const name: string
    const description: string
    const feeBps: int
    var cash: int
    var positions: map<Asset, Position>
    var shorts: seq<(string, Lot)>
    var units: int
    var investors: seq<(Party, int)>
    var providerAccrual: int
    var highWater: int
    var history: seq<HistoryRow>
    var realizedPnl: int
    var executionFees: int

    function View(): Book
      reads this
    {
      Book(id, provider, name, description, feeBps, cash, positions, shorts, units, investors,
           providerAccrual, highWater, history, realizedPnl, executionFees)
    }

    constructor (b: Book)
      ensures View() == b
    {
      id, provider, name, description, feeBps := b.id, b.provider, b.name, b.description, b.feeBps;
      cash, positions, shorts, units, investors := b.cash, b.positions, b.shorts, b.units, b.investors;
      providerAccrual, highWater, history := b.providerAccrual, b.highWater, b.history;
      realizedPnl, executionFees := b.realizedPnl, b.executionFees;
    }
  }

  function Views(strategies: seq<Sleeve>): (books: seq<Book>)
    reads strategies
    ensures |books| == |strategies|
    ensures forall i :: 0 <= i < |strategies| ==> books[i] == strategies[i].View()
  {
    seq(|strategies|, i requires 0 <= i < |strategies| reads strategies => strategies[i].View())
  }

  /** What a caller sees of an operation: its answer, and a ledger that is untouched when it throws. */
  ghost predicate Answers(spec: Result<Done, Error>, r: Result<Receipt, Error>, before: State, after: State) {
    match spec {
      case Ok(done) => r == Ok(Receipt(done.units, done.amount)) && after == done.state
      case Err(error) => r == Err(error) && after == before
    }
  }

  /** An operation in the terms of what it takes and what it books. */
  ghost predicate Exactly(op: Op, r: Result<Receipt, Error>, before: State, after: State) {
    && (r.Ok? <==> CanTake(before, op))
    && (r.Ok? ==> Recorded(before, op, Done(after, r.value.units, r.value.amount)))
    && (r.Err? ==> after == before)
  }

  lemma AnswerIsExact(op: Op, r: Result<Receipt, Error>, before: State, after: State)
    requires SoundState(before) && Answers(Step(before, op), r, before, after)
    ensures Exactly(op, r, before, after)
  {
    hide Step, SoundState, CanTake, Recorded;
    StepAcceptedIff(before, op);
    if r.Ok? {
      StepIsExact(before, op);
    }
  }

  ghost predicate MovedTo(spec: Result<Moved, Error>, r: Result<Receipt, Error>, before: Book, after: Book) {
    match spec {
      case Ok(m) => r == Ok(Receipt(m.units, m.amount)) && after == m.book
      case Err(error) => r == Err(error) && after == before
    }
  }

  ghost predicate TradedTo(spec: Result<Book, Error>, done: Outcome<Error>, before: Book, after: Book) {
    match spec {
      case Ok(b) => done == Pass && after == b
      case Err(error) => done == Fail(error) && after == before
    }
  }

  ghost function Prepend(rows: seq<Attribution>, rest: Result<seq<Attribution>, Error>)
    : Result<seq<Attribution>, Error>
  {
    if rest.Ok? then Ok(rows + rest.value) else rest
  }

  lemma PrependNone(rest: Result<seq<Attribution>, Error>)
    ensures Prepend([], rest) == rest
  {
    if rest.Ok? {
      assert [] + rest.value == rest.value;
    }
  }

  lemma PrependOne(rows: seq<Attribution>, row: Attribution, rest: Result<seq<Attribution>, Error>)
    ensures Prepend(rows, Prepend([row], rest)) == Prepend(rows + [row], rest)
  {
    if rest.Ok? {
      assert rows + ([row] + rest.value) == rows + [row] + rest.value;
    }
  }

  /** Accruals and marks are claims on the equity, not part of it. */
  lemma EquityIgnoresFee(b: Book, accrual: int, mark: int, marks: Marks)
    ensures Equity(b.(providerAccrual := accrual, highWater := mark), marks) == Equity(b, marks)
    ensures Equity(b, marks).Ok? ==> Equity(b, marks).value == Value(b, marks)
  {
  }

  lemma {:induction false} RunSnoc(l: State, ops: seq<Op>, op: Op)
    ensures Run(l, ops + [op]) == Apply(Run(l, ops), op)
    decreases ops
  {
    if ops == [] {
      assert (ops + [op])[1..] == [];
    } else {
      assert (ops + [op])[1..] == ops[1..] + [op];
      RunSnoc(Apply(l, ops[0]), ops[1..], op);
    }
  }

  class SleeveLedger {
    var strategies: seq<Sleeve>
    var flows: seq<string>
    var orders: seq<Order>
    var protocolAccrual: int
    /** The state the object was made from, and every operation it has been asked for since. */
    ghost const origin: State
    ghost var trace: seq<Op>

    function View(): State
      reads this, strategies
    {
      State(Views(strategies), flows, orders, protocolAccrual)
    }

    ghost predicate Valid()
      reads this, strategies
    {
      && (forall i, j :: 0 <= i < j < |strategies| ==> strategies[i] != strategies[j])
      && SoundState(origin)
      && SoundState(View())
      && View() == Run(origin, trace)
    }

    /** `new SleeveLedger(state)`: the objects are built from a stored state, which an earlier ledger left. */
    constructor (state: State)
      requires SoundState(state)
      ensures Valid() && View() == state && origin == state && trace == []
      ensures fresh(strategies)
    {
      hide SoundState, Step;
      origin := state;
      trace := [];
      flows, orders, protocolAccrual := state.flows, state.orders, state.protocolAccrual;
      strategies := [];
      new;
      var i := 0;
      while i < |state.strategies|
        invariant 0 <= i == |strategies| <= |state.strategies|
        invariant fresh(strategies)
        invariant forall j, k :: 0 <= j < k < |strategies| ==> strategies[j] != strategies[k]
        invariant forall j :: 0 <= j < i ==> strategies[j].View() == state.strategies[j]
        invariant flows == state.flows && orders == state.orders && protocolAccrual == state.protocolAccrual
        invariant trace == []
        modifies this
      {
        var s := new Sleeve(state.strategies[i]);
        strategies := strategies + [s];
        i := i + 1;
      }
      assert View().strategies == state.strategies;
    }

    /** The conservation law at any moment of the object's life. */
    lemma ValidConserves(id: string)
      requires Valid() && origin == NewLedger() && BookOf(View().strategies, id).Some?
      ensures var b := BookOf(View().strategies, id).value;
              var t := TotalsOf(NewLedger(), trace, id);
              Capital(b) == t.deposits - t.redemptions - t.payouts + b.realizedPnl
    {
      CapitalIsConserved(trace, id);
    }

    ghost method Record(op: Op)
      requires SoundState(origin)
      requires var before := Run(origin, trace);
               SoundState(before) && View() == Apply(before, op)
      requires forall i, j :: 0 <= i < j < |strategies| ==> strategies[i] != strategies[j]
      modifies this`trace
      ensures Valid() && trace == old(trace) + [op]
    {
      hide Step, SoundState, Run, Apply, OwnMoves, Paid, BookOf;
      RunSnoc(origin, trace, op);
      StepKeeps(Run(origin, trace), op, Target(op));
      trace := trace + [op];
    }

    // -------------------------------------------------------------------------------------------
    // Reading

    method FindSleeve(id: string) returns (s: Option<Sleeve>, ghost i: nat)
      ensures i == IndexOf(View().strategies, id)
      ensures s.Some? <==> i < |strategies|
      ensures s.Some? ==> s.value == strategies[i]
    {
      i := 0;
      var k := 0;
      ghost var books := View().strategies;
      while k < |strategies|
        invariant 0 <= k <= |strategies|
        invariant IndexOf(books, id) == k + IndexOf(books[k..], id)
      {
        assert books[k..][1..] == books[k + 1..];
        if strategies[k].id == id {
          i := k;
          return Some(strategies[k]), i;
        }
        k := k + 1;
      }
      i := k;
      s := None;
    }

    method EquityOf(s: Sleeve, marks: Marks) returns (r: Result<int, Error>)
      ensures r == Equity(s.View(), marks)
      ensures IsEquity(s.View(), marks, r)
    {
      hide IsEquity;
      EquityIs(s.View(), marks);
      var total := s.cash;
      var assets := [BTC, ETH, MON, SOL];
      var k := 0;
      while k < 4
        invariant 0 <= k <= 4
        invariant forall j :: 0 <= j < k && assets[j] in s.positions ==> HasPrice(marks, assets[j])
        invariant total == s.cash
                           + (if k > 0 then PositionValue(s.positions, marks, BTC) else 0)
                           + (if k > 1 then PositionValue(s.positions, marks, ETH) else 0)
                           + (if k > 2 then PositionValue(s.positions, marks, MON) else 0)
                           + (if k > 3 then PositionValue(s.positions, marks, SOL) else 0)
      {
        var asset := assets[k];
        if asset in s.positions {
          if !HasPrice(marks, asset) {
            return Err(MissingPrice);
          }
          total := total + Quot(s.positions[asset].quantity * marks[asset], SCALE);
        }
        k := k + 1;
      }
      assert forall a :: a in s.positions ==> a == assets[0] || a == assets[1] || a == assets[2] || a == assets[3];
      var n := 0;
      while n < |s.shorts|
        invariant 0 <= n <= |s.shorts|
        invariant LotsPriced(s.shorts, marks) == LotsPriced(s.shorts[n..], marks)
        invariant total + LotsValue(s.shorts[n..], marks) == Value(s.View(), marks)
      {
        var lot := s.shorts[n].1;
        assert s.shorts[n..][1..] == s.shorts[n + 1..];
        if !HasPrice(marks, lot.asset) {
          return Err(MissingPrice);
        }
        total := total + lot.escrow - Quot(lot.debt * marks[lot.asset], SCALE);
        n := n + 1;
      }
      r := Ok(total);
    }

    method PoolOf(s: Sleeve, marks: Marks) returns (r: Result<int, Error>)
      ensures r == InvestorPool(s.View(), marks)
    {
      var equity :- EquityOf(s, marks);
      r := Ok(equity - s.providerAccrual);
    }

    method ClaimsFor(s: Sleeve, marks: Marks) returns (r: Result<seq<(Party, int)>, Error>)
      ensures r == ClaimsOf(s.View(), marks)
    {
      var equity :- PoolOf(s, marks);
      var total := s.units;
      if equity < 0 {
        return Err(Insolvent);
      }
      if total == 0 {
        return if equity == 0 then Ok([]) else Err(OrphanCapital);
      }
      var rows := Rows(equity, total, Holders(s.investors));
      var dust := equity - SumAmounts(rows);
      rows := Sort(rows);
      ghost var ranking, leftover := rows, dust;
      var k := 0;
      while k < |rows|
        invariant 0 <= k <= |rows| == |ranking|
        invariant dust == if leftover <= 0 then leftover else if k < leftover then leftover - k else 0
        invariant forall i :: 0 <= i < k ==>
          rows[i] == ranking[i].(amount := ranking[i].amount + if i < leftover then 1 else 0)
        invariant forall i :: k <= i < |rows| ==> rows[i] == ranking[i]
      {
        if dust > 0 {
          rows := rows[k := rows[k].(amount := rows[k].amount + 1)];
          dust := dust - 1;
        }
        k := k + 1;
      }
      HandOutAt(ranking, leftover);
      assert rows == HandOut(ranking, leftover);
      r := Ok(Entries(rows));
    }

    /** Reconciliation with custody; it reads only. */
    method CheckCustody(custody: Custody, marks: Marks) returns (r: Result<Report, Error>)
      ensures r == Reconcile(View(), custody, marks)
      ensures SoundState(View()) && r.Ok? ==> Reported(View(), custody, marks, r.value)
    {
      hide Reconcile, SoundState, Reported;
      r := RunChecks(custody, marks);
      if SoundState(View()) && r.Ok? {
        ReportIs(View(), custody, marks);
      }
    }

    /** The checks, in the source's order. */
    method RunChecks(custody: Custody, marks: Marks) returns (r: Result<Report, Error>)
      ensures r == Reconcile(View(), custody, marks)
    {
      hide SumCash, SumQuantity, Loans, LoansMatch, AttributeAll, CustodyLotsValue;
      if SumCash(Views(strategies)) + protocolAccrual != custody.cash {
        return Err(CashMismatch);
      }
      var held :- CheckQuantities(custody, marks);
      var loans := Loans(Views(strategies));
      if |loans| != |custody.shorts| {
        return Err(LoanCountMismatch);
      }
      var lots :- CheckLoans(loans, custody, marks);
      var equities :- AttributeStrategies(marks);
      var vault := custody.cash + held + lots;
      var attributed := SumEquity(equities) + protocolAccrual;
      var rounding := vault - attributed;
      if !(0 <= rounding < RoundingLimit(|strategies|)) {
        return Err(EquityMismatch);
      }
      r := Ok(Report(vault, SumEquity(equities), protocolAccrual + rounding, rounding, equities));
    }

    method CheckQuantities(custody: Custody, marks: Marks) returns (r: Result<int, Error>)
      ensures r == HeldValue(View(), custody, marks)
    {
      hide SumQuantity;
      var assets := [BTC, ETH, MON, SOL];
      var vault, k := 0, 0;
      while k < 4
        invariant 0 <= k <= 4
        invariant k > 0 ==> ReconcileAsset(View(), custody, marks, BTC).Ok?
        invariant k > 1 ==> ReconcileAsset(View(), custody, marks, ETH).Ok?
        invariant k > 2 ==> ReconcileAsset(View(), custody, marks, MON).Ok?
        invariant k > 3 ==> ReconcileAsset(View(), custody, marks, SOL).Ok?
        invariant vault == (if k > 0 then ReconcileAsset(View(), custody, marks, BTC).value else 0)
                           + (if k > 1 then ReconcileAsset(View(), custody, marks, ETH).value else 0)
                           + (if k > 2 then ReconcileAsset(View(), custody, marks, MON).value else 0)
                           + (if k > 3 then ReconcileAsset(View(), custody, marks, SOL).value else 0)
      {
        var total := SumQuantity(Views(strategies), assets[k]);
        if total != Held(custody.positions, assets[k]) {
          return Err(QuantityMismatch);
        }
        if assets[k] !in marks {
          return Err(MissingPrice);
        }
        vault := vault + Quot(total * marks[assets[k]], SCALE);
        k := k + 1;
      }
      r := Ok(vault);
    }

    static method CheckLoans(loans: seq<(string, Lot)>, custody: Custody, marks: Marks)
      returns (r: Result<int, Error>)
      ensures r == if LoansMatch(loans, custody.shorts) then Ok(CustodyLotsValue(loans, custody.shorts, marks))
                   else Err(LoanMismatch)
    {
      var vault, k := 0, 0;
      while k < |loans|
        invariant 0 <= k <= |loans|
        invariant LoansMatch(loans, custody.shorts) == LoansMatch(loans[k..], custody.shorts)
        invariant LoansMatch(loans, custody.shorts) ==>
          vault + CustodyLotsValue(loans[k..], custody.shorts, marks) == CustodyLotsValue(loans, custody.shorts, marks)
      {
        var id, lot := loans[k].0, loans[k].1;
        assert loans[k..][1..] == loans[k + 1..];
        if id !in custody.shorts || custody.shorts[id] != CustodyOfLot(lot) {
          return Err(LoanMismatch);
        }
        var actual := custody.shorts[id];
        vault := vault + actual.escrow - Quot(actual.debt * MarkOf(marks, actual.asset), SCALE);
        k := k + 1;
      }
      r := Ok(vault);
    }

    method AttributeStrategies(marks: Marks) returns (r: Result<seq<Attribution>, Error>)
      ensures r == AttributeAll(Views(strategies), marks)
    {
      hide Attribute;
      var rows: seq<Attribution> := [];
      var k := 0;
      ghost var books := Views(strategies);
      PrependNone(AttributeAll(books, marks));
      assert books[0..] == books;
      while k < |strategies|
        invariant 0 <= k <= |strategies|
        invariant AttributeAll(books, marks) == Prepend(rows, AttributeAll(books[k..], marks))
      {
        assert books[k..][0] == strategies[k].View() && books[k..][1..] == books[k + 1..];
        var row :- AttributeOne(strategies[k], marks);
        PrependOne(rows, row, AttributeAll(books[k + 1..], marks));
        rows := rows + [row];
        k := k + 1;
      }
      assert books[k..] == [] && rows + [] == rows;
      r := Ok(rows);
    }

    method AttributeOne(s: Sleeve, marks: Marks) returns (r: Result<Attribution, Error>)
      ensures r == Attribute(s.View(), marks)
    {
      hide Equity, ClaimsOf;
      var equity :- EquityOf(s, marks);
      var claims :- ClaimsFor(s, marks);
      if SumEntries(claims) + s.providerAccrual != equity {
        return Err(ClaimMismatch);
      }
      r := Ok(Attribution(s.id, equity, claims, s.providerAccrual));
    }

    predicate Idle(s: Sleeve)
      reads s
    {
      Flat(s.View())
    }

    // -------------------------------------------------------------------------------------------
    // Writing

    /** Only the fields of one strategy were written: the others still look as before. */
    twostate lemma OneSleeveChanged(i: nat)
      requires old(Valid()) && i < |strategies| && strategies == old(strategies)
      requires forall j :: 0 <= j < |strategies| && j != i ==> unchanged(strategies[j])
      ensures Views(strategies) == old(Views(strategies))[i := strategies[i].View()]
    {
      forall j | 0 <= j < |strategies|
        ensures Views(strategies)[j] == old(Views(strategies))[i := strategies[i].View()][j]
      {
        if j != i {
          assert strategies[j].View() == old(strategies[j].View());
        }
      }
    }

    method CreateStrategy(id: string, provider: Party, name: string, description: string, feeBps: int)
      returns (r: Result<Receipt, Error>)
      requires Valid()
      modifies this`strategies, this`trace
      ensures Valid() && trace == old(trace) + [OpCreate(id, provider, name, description, feeBps)]
      ensures Answers(Create(old(View()), id, provider, name, description, feeBps), r, old(View()), View())
      ensures fresh(set s | s in strategies && s !in old(strategies))
      ensures Exactly(OpCreate(id, provider, name, description, feeBps), r, old(View()), View())
    {
      hide Create, SoundState, Run, Exactly;
      ghost var before := View();
      r := CreateBody(id, provider, name, description, feeBps);
      AnswerIsExact(OpCreate(id, provider, name, description, feeBps), r, before, View());
      Record(OpCreate(id, provider, name, description, feeBps));
    }

    method CreateBody(id: string, provider: Party, name: string, description: string, feeBps: int)
      returns (r: Result<Receipt, Error>)
      requires Valid()
      modifies this`strategies
      ensures Answers(Create(old(View()), id, provider, name, description, feeBps), r, old(View()), View())
      ensures forall i, j :: 0 <= i < j < |strategies| ==> strategies[i] != strategies[j]
      ensures fresh(set s | s in strategies && s !in old(strategies))
    {
      hide SoundState, Run, IndexOf, NewBook;
      var found, i := FindSleeve(id);
      if found.Some? || provider == 0 || name == "" {
        return Err(InvalidStrategy);
      }
      if !(0 <= feeBps <= 3000) {
        return Err(FeeCap);
      }
      var s := new Sleeve(NewBook(id, provider, name, description, feeBps));
      strategies := strategies + [s];
      assert Views(strategies) == old(Views(strategies)) + [s.View()];
      r := Ok(Receipt(0, 0));
    }

    method AllocateCapital(strategyId: string, investor: Party, amount: int, requestId: string, marks: Marks)
      returns (r: Result<Receipt, Error>)
      requires Valid()
      modifies this`flows, this`trace, strategies
      ensures Valid() && trace == old(trace) + [OpAllocate(strategyId, investor, amount, requestId, marks)]
      ensures Answers(Allocate(old(View()), strategyId, investor, amount, requestId, marks), r, old(View()), View())
      ensures Exactly(OpAllocate(strategyId, investor, amount, requestId, marks), r, old(View()), View())
    {
      hide Allocate, SoundState, Run, Exactly;
      ghost var before := View();
      ghost var op := OpAllocate(strategyId, investor, amount, requestId, marks);
      r := AllocateBody(strategyId, investor, amount, requestId, marks);
      AnswerIsExact(op, r, before, View());
      Record(op);
    }

    method AllocateBody(strategyId: string, investor: Party, amount: int, requestId: string, marks: Marks)
      returns (r: Result<Receipt, Error>)
      requires Valid()
      modifies this`flows, strategies
      ensures Answers(Allocate(old(View()), strategyId, investor, amount, requestId, marks), r, old(View()), View())
    {
      hide Deposit, SoundState, Run, Flat, IndexOf;
      var found, i := FindSleeve(strategyId);
      if found.None? {
        return Err(UnknownStrategy);
      }
      var s := found.value;
      if !Idle(s) {
        return Err(NotFlat);
      }
      if requestId == "" || requestId in flows {
        return Err(DuplicateRequest);
      }
      r := Issue(s, investor, amount, marks);
      OneSleeveChanged(i);
      if r.Ok? {
        flows := flows + [requestId];
      }
    }

    /** Issuing units of one strategy at its present value. */
    method Issue(s: Sleeve, investor: Party, amount: int, marks: Marks) returns (r: Result<Receipt, Error>)
      modifies s
      ensures MovedTo(Deposit(old(s.View()), investor, amount, marks), r, old(s.View()), s.View())
    {
      if investor == 0 || amount <= 0 {
        return Err(InvalidAmount);
      }
      var pool :- PoolOf(s, marks);
      var supply := s.units;
      if supply != 0 && pool <= 0 {
        return Err(InsolventIssue);
      }
      var units := if supply == 0 then amount else Quot(amount * supply, pool);
      if units <= 0 {
        return Err(DustIssue);
      }
      s.cash := s.cash + amount;
      s.units := supply + units;
      s.investors := Assoc.Put(s.investors, investor, Assoc.Get(s.investors, investor, 0) + units);
      r := Ok(Receipt(units, amount));
    }

    method RedeemCapital(strategyId: string, investor: Party, units: int, requestId: string, marks: Marks)
      returns (r: Result<Receipt, Error>)
      requires Valid()
      modifies this`flows, this`trace, strategies
      ensures Valid() && trace == old(trace) + [OpRedeem(strategyId, investor, units, requestId, marks)]
      ensures Answers(Redeem(old(View()), strategyId, investor, units, requestId, marks), r, old(View()), View())
      ensures Exactly(OpRedeem(strategyId, investor, units, requestId, marks), r, old(View()), View())
    {
      hide Redeem, SoundState, Run, Exactly;
      ghost var before := View();
      ghost var op := OpRedeem(strategyId, investor, units, requestId, marks);
      r := RedeemBody(strategyId, investor, units, requestId, marks);
      AnswerIsExact(op, r, before, View());
      Record(op);
    }

    method RedeemBody(strategyId: string, investor: Party, units: int, requestId: string, marks: Marks)
      returns (r: Result<Receipt, Error>)
      requires Valid()
      modifies this`flows, strategies
      ensures Answers(Redeem(old(View()), strategyId, investor, units, requestId, marks), r, old(View()), View())
    {
      hide Withdraw, SoundState, Run, Flat, IndexOf;
      var found, i := FindSleeve(strategyId);
      if found.None? {
        return Err(UnknownStrategy);
      }
      var s := found.value;
      if !Idle(s) {
        return Err(NotFlat);
      }
      if requestId == "" || requestId in flows {
        return Err(DuplicateRequest);
      }
      r := Retire(s, investor, units, marks);
      OneSleeveChanged(i);
      if r.Ok? {
        flows := flows + [requestId];
      }
    }

    /** Retiring units of one strategy against their part of the owner's claim. */
    method Retire(s: Sleeve, investor: Party, units: int, marks: Marks) returns (r: Result<Receipt, Error>)
      modifies s
      ensures MovedTo(Withdraw(old(s.View()), investor, units, marks), r, old(s.View()), s.View())
    {
      hide ClaimsOf;
      var owned := Assoc.Get(s.investors, investor, 0);
      if !(0 < units <= owned) {
        return Err(ExcessUnits);
      }
      var claims :- ClaimsFor(s, marks);
      var amount := Quot(Assoc.Get(claims, investor, 0) * units, owned);
      if amount > s.cash - s.providerAccrual {
        return Err(InsufficientCash);
      }
      s.cash := s.cash - amount;
      s.units := s.units - units;
      s.investors := Assoc.Put(s.investors, investor, owned - units);
      if s.units == 0 {
        s.highWater := UNIT_PRICE_SCALE;
      }
      r := Ok(Receipt(units, amount));
    }

    method Settle(f: Fill) returns (r: Result<Receipt, Error>)
      requires Valid()
      modifies this`orders, this`trace, strategies
      ensures Valid() && trace == old(trace) + [OpFill(f)]
      ensures Answers(RecordFill(old(View()), f), r, old(View()), View())
      ensures Exactly(OpFill(f), r, old(View()), View())
    {
      hide RecordFill, SoundState, Run, Exactly;
      ghost var before := View();
      r := SettleBody(f);
      AnswerIsExact(OpFill(f), r, before, View());
      Record(OpFill(f));
    }

    method SettleBody(f: Fill) returns (r: Result<Receipt, Error>)
      requires Valid()
      modifies this`orders, strategies
      ensures Answers(RecordFill(old(View()), f), r, old(View()), View())
    {
      hide Execute, SoundState, Run, IndexOf;
      var found, i := FindSleeve(f.strategyId);
      if found.None? {
        return Err(UnknownStrategy);
      }
      var s := found.value;
      if !WellFormedFill(f) {
        return Err(InvalidFill);
      }
      if OrderSeen(orders, f.orderId) {
        return Err(DuplicateFill);
      }
      var done := Trade(s, f, f.asset.value);
      OneSleeveChanged(i);
      if done.Fail? {
        return Err(done.error);
      }
      orders := orders + [Order(f.strategyId, f.orderId, f.asset.value, f.side, f.quantity, f.quote, f.fee, f.lotId)];
      r := Ok(Receipt(0, 0));
    }

    /** A fill on one strategy: the branch of its side, then the record of the fee. */
    static method Trade(s: Sleeve, f: Fill, asset: Asset) returns (done: Outcome<Error>)
      requires WellFormedFill(f) && asset == f.asset.value
      modifies s
      ensures TradedTo(Execute(old(s.View()), f), done, old(s.View()), s.View())
    {
      hide Buy, Sell, OpenShort, CloseShort;
      match f.side {
        case BUY => done := TradeBuy(s, f, asset);
        case SELL => done := TradeSell(s, f, asset);
        case SHORT_OPEN => done := TradeOpen(s, f, asset);
        case SHORT_CLOSE => done := TradeClose(s, f, asset);
        case UnknownSide => done := Fail(UnsupportedSide);
      }
      if done.Pass? {
        s.executionFees := s.executionFees + f.fee;
      }
    }

    static method TradeBuy(s: Sleeve, f: Fill, asset: Asset) returns (done: Outcome<Error>)
      modifies s
      ensures TradedTo(Buy(old(s.View()), f, asset), done, old(s.View()), s.View())
    {
      var p := PositionOf(s.positions, asset);
      if f.quote + f.fee > s.cash - s.providerAccrual {
        return Fail(ForeignCash);
      }
      s.cash := s.cash - f.quote - f.fee;
      s.positions := s.positions[asset := Position(p.quantity + f.quantity, p.cost + f.quote + f.fee)];
      done := Pass;
    }

    static method TradeSell(s: Sleeve, f: Fill, asset: Asset) returns (done: Outcome<Error>)
      requires f.quantity > 0
      modifies s
      ensures TradedTo(Sell(old(s.View()), f, asset), done, old(s.View()), s.View())
    {
      var p := PositionOf(s.positions, asset);
      if f.quantity > p.quantity {
        return Fail(ForeignAsset);
      }
      var basis := Quot(p.cost * f.quantity, p.quantity);
      s.cash := s.cash + f.quote - f.fee;
      s.positions := s.positions[asset := Position(p.quantity - f.quantity, p.cost - basis)];
      s.realizedPnl := s.realizedPnl + f.quote - f.fee - basis;
      done := Pass;
    }

    static method TradeOpen(s: Sleeve, f: Fill, asset: Asset) returns (done: Outcome<Error>)
      modifies s
      ensures TradedTo(OpenShort(old(s.View()), f, asset), done, old(s.View()), s.View())
    {
      var margin := if f.collateral.None? then f.quote else f.collateral.value;
      var locked := if f.escrow.None? then margin + f.quote - f.fee else f.escrow.value;
      if f.lotId == "" || Assoc.Has(s.shorts, f.lotId) || margin <= 0 || margin > s.cash - s.providerAccrual
         || locked != margin + f.quote - f.fee {
        return Fail(ShortMargin);
      }
      s.cash := s.cash - margin;
      s.shorts := Assoc.Put(s.shorts, f.lotId, Lot(asset, f.quantity, locked, margin, f.quote - f.fee));
      done := Pass;
    }

    static method TradeClose(s: Sleeve, f: Fill, asset: Asset) returns (done: Outcome<Error>)
      modifies s
      ensures TradedTo(CloseShort(old(s.View()), f, asset), done, old(s.View()), s.View())
    {
      var lot := Assoc.Get(s.shorts, f.lotId, NO_LOT);
      if !Assoc.Has(s.shorts, f.lotId) || lot.asset != asset || lot.debt != f.quantity {
        return Fail(ShortAttribution);
      }
      var returned := lot.escrow - f.quote - f.fee;
      if returned + (s.cash - s.providerAccrual) < 0 {
        return Fail(ForeignLoss);
      }
      s.cash := s.cash + returned;
      s.realizedPnl := s.realizedPnl + lot.entryProceeds - f.quote - f.fee;
      s.shorts := Assoc.Delete(s.shorts, f.lotId);
      done := Pass;
    }

    method CrystallizeFee(id: string, marks: Marks) returns (r: Result<Receipt, Error>)
      requires Valid()
      modifies this`trace, strategies
      ensures Valid() && trace == old(trace) + [OpCrystallize(id, marks)]
      ensures Answers(Crystallize(old(View()), id, marks), r, old(View()), View())
      ensures Exactly(OpCrystallize(id, marks), r, old(View()), View())
    {
      hide Crystallize, SoundState, Run, Exactly;
      ghost var before := View();
      r := CrystallizeBody(id, marks);
      AnswerIsExact(OpCrystallize(id, marks), r, before, View());
      Record(OpCrystallize(id, marks));
    }

    method CrystallizeBody(id: string, marks: Marks) returns (r: Result<Receipt, Error>)
      requires Valid()
      modifies strategies
      ensures Answers(Crystallize(old(View()), id, marks), r, old(View()), View())
    {
      hide CrystallizeBook, SoundState, Run, Flat, IndexOf;
      var found, i := FindSleeve(id);
      if found.None? {
        return Err(UnknownStrategy);
      }
      var s := found.value;
      if !Idle(s) {
        return Err(NotFlat);
      }
      r := Charge(s, marks);
      OneSleeveChanged(i);
    }

    /** Charging the performance fee of one strategy and raising its high-water mark. */
    method Charge(s: Sleeve, marks: Marks) returns (r: Result<Receipt, Error>)
      modifies s
      ensures match CrystallizeBook(old(s.View()), marks)
              case Ok(c) => r == Ok(Receipt(0, c.fee)) && s.View() == c.book
              case Err(error) => r == Err(error) && s.View() == old(s.View())
    {
      hide Value, Priced, Quot, IsEquity;
      var supply := s.units;
      var before :- PoolOf(s, marks);
      if supply == 0 {
        return Ok(Receipt(0, 0));
      }
      var threshold := Quot(supply * s.highWater + UNIT_PRICE_SCALE - 1, UNIT_PRICE_SCALE);
      var profit := if before > threshold then before - threshold else 0;
      var fee := Quot(profit * s.feeBps, 10000);
      s.providerAccrual := s.providerAccrual + fee;
      var price := Quot((before - fee) * UNIT_PRICE_SCALE + supply - 1, supply);
      if price > s.highWater {
        s.highWater := price;
      }
      var equity := EquityOf(s, marks);
      EquityIgnoresFee(old(s.View()), s.providerAccrual, s.highWater, marks);
      s.history := s.history + [HistoryRow(Quot((before - fee) * SCALE, supply), equity.value, fee)];
      r := Ok(Receipt(0, fee));
    }

    method PayAccrual(id: string, requestId: string) returns (r: Result<Receipt, Error>)
      requires Valid()
      modifies this`flows, this`trace, strategies
      ensures Valid() && trace == old(trace) + [OpPay(id, requestId)]
      ensures Answers(PayProvider(old(View()), id, requestId), r, old(View()), View())
      ensures Exactly(OpPay(id, requestId), r, old(View()), View())
    {
      hide PayProvider, SoundState, Run, Exactly;
      ghost var before := View();
      r := PayBody(id, requestId);
      AnswerIsExact(OpPay(id, requestId), r, before, View());
      Record(OpPay(id, requestId));
    }

    method PayBody(id: string, requestId: string) returns (r: Result<Receipt, Error>)
      requires Valid()
      modifies this`flows, strategies
      ensures Answers(PayProvider(old(View()), id, requestId), r, old(View()), View())
    {
      hide SoundState, Run, Flat, IndexOf;
      var found, i := FindSleeve(id);
      if found.None? {
        return Err(UnknownStrategy);
      }
      var s := found.value;
      if !Idle(s) {
        return Err(NotFlat);
      }
      if requestId == "" || requestId in flows {
        return Err(DuplicateRequest);
      }
      r := PayOut(s);
      OneSleeveChanged(i);
      if r.Ok? {
        flows := flows + [requestId];
      }
    }

    /** Paying out what the provider has accrued on one strategy. */
    static method PayOut(s: Sleeve) returns (r: Result<Receipt, Error>)
      modifies s
      ensures MovedTo(PayBook(old(s.View())), r, old(s.View()), s.View())
    {
      var amount := s.providerAccrual;
      if amount > s.cash {
        return Err(InsufficientCash);
      }
      s.cash := s.cash - amount;
      s.providerAccrual := 0;
      r := Ok(Receipt(0, amount));
    }
  }
}
