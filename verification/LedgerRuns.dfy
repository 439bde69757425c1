/** Whole histories of a ledger: any number of operations, accepted or refused, in any order. */
module LedgerRuns {
  import opened Prelude
  import opened Claims
  import opened Ledger
  import opened LedgerLaws
  import Assoc

  datatype Op =
    | OpCreate(id: string, provider: Party, name: string, description: string, feeBps: int)
    | OpAllocate(id: string, investor: Party, amount: int, requestId: string, marks: Marks)
    | OpRedeem(id: string, investor: Party, units: int, requestId: string, marks: Marks)
    | OpFill(fill: Fill)
    | OpCrystallize(id: string, marks: Marks)
    | OpPay(id: string, requestId: string)

  function Step(l: State, op: Op): Result<Done, Error> {
    match op {
      case OpCreate(id, provider, name, description, feeBps) => Create(l, id, provider, name, description, feeBps)
      case OpAllocate(id, investor, amount, requestId, marks) => Allocate(l, id, investor, amount, requestId, marks)
      case OpRedeem(id, investor, units, requestId, marks) => Redeem(l, id, investor, units, requestId, marks)
      case OpFill(fill) => RecordFill(l, fill)
      case OpCrystallize(id, marks) => Crystallize(l, id, marks)
      case OpPay(id, requestId) => PayProvider(l, id, requestId)
    }
  }

  /** A refused operation throws before it writes anything. */
  function Apply(l: State, op: Op): State {
    var r := Step(l, op);
    if r.Ok? then r.value.state else l
  }

  function Run(l: State, ops: seq<Op>): State
    decreases ops
  {
    if ops == [] then l else Run(Apply(l, ops[0]), ops[1..])
  }

  function Target(op: Op): string {
    if op.OpFill? then op.fill.strategyId else op.id
  }

  function BookOf(strategies: seq<Book>, id: string): Option<Book> {
    var i := IndexOf(strategies, id);
    if i < |strategies| then Some(strategies[i]) else None
  }

  // ---------------------------------------------------------------------------------------------
  // The invariant of the ledger

  ghost predicate SoundBooks(strategies: seq<Book>) {
    && (forall i :: 0 <= i < |strategies| ==> Sound(strategies[i]))
    && (forall i, j :: 0 <= i < j < |strategies| ==> strategies[i].id != strategies[j].id)
  }

  ghost predicate NoRepeats(l: State) {
    && (forall i, j :: 0 <= i < j < |l.flows| ==> l.flows[i] != l.flows[j])
    && (forall i, j :: 0 <= i < j < |l.orders| ==> l.orders[i].orderId != l.orders[j].orderId)
  }

  ghost predicate SoundState(l: State) {
    SoundBooks(l.strategies) && NoRepeats(l)
  }

  /** The list of strategies with one book replaced, or added when it is new. */
  function Store(strategies: seq<Book>, b: Book): seq<Book> {
    if strategies == [] then [b]
    else if strategies[0].id == b.id then [b] + strategies[1..]
    else [strategies[0]] + Store(strategies[1..], b)
  }

  lemma BookOfCons(strategies: seq<Book>, id: string)
    ensures strategies != [] ==>
      BookOf(strategies, id) == if strategies[0].id == id then Some(strategies[0]) else BookOf(strategies[1..], id)
  {
  }

  lemma {:induction false} BookOfStore(strategies: seq<Book>, b: Book, id: string)
    ensures BookOf(Store(strategies, b), id) == if id == b.id then Some(b) else BookOf(strategies, id)
  {
    if strategies != [] && strategies[0].id != b.id {
      BookOfStore(strategies[1..], b, id);
    }
    BookOfCons(Store(strategies, b), id);
    BookOfCons(strategies, id);
    assert strategies != [] ==> Store(strategies, b)[1..] == if strategies[0].id == b.id then strategies[1..]
                                                            else Store(strategies[1..], b);
  }

  lemma {:induction false} StoreAt(strategies: seq<Book>, b: Book)
    ensures var i := IndexOf(strategies, b.id);
            Store(strategies, b) == if i < |strategies| then strategies[i := b] else strategies + [b]
  {
    if strategies != [] && strategies[0].id != b.id {
      StoreAt(strategies[1..], b);
    }
  }

  lemma StoreKeeps(strategies: seq<Book>, b: Book)
    requires SoundBooks(strategies) && Sound(b)
    ensures SoundBooks(Store(strategies, b))
  {
    StoreAt(strategies, b);
    FirstIndex(strategies, b.id);
  }

  lemma {:induction false} FirstIndex(strategies: seq<Book>, id: string)
    ensures forall j :: 0 <= j < IndexOf(strategies, id) ==> strategies[j].id != id
  {
    if strategies != [] && strategies[0].id != id {
      FirstIndex(strategies[1..], id);
    }
  }

  lemma BookOfSound(strategies: seq<Book>, id: string)
    requires SoundBooks(strategies)
    ensures BookOf(strategies, id).Some? ==> Sound(BookOf(strategies, id).value)
  {
  }

  lemma BookIsSound(l: State, i: nat)
    requires SoundState(l) && i < |l.strategies|
    ensures Sound(l.strategies[i])
  {
  }

  // ---------------------------------------------------------------------------------------------
  // An operation seen from its own strategy

  datatype Token = NoToken | RequestToken(request: string) | OrderToken(order: string)

  /** The id an operation is remembered by, so that it cannot be repeated. */
  function TokenOf(op: Op): Token {
    match op {
      case OpAllocate(_, _, _, requestId, _) => RequestToken(requestId)
      case OpRedeem(_, _, _, requestId, _) => RequestToken(requestId)
      case OpPay(_, requestId) => RequestToken(requestId)
      case OpFill(fill) => OrderToken(fill.orderId)
      case _ => NoToken
    }
  }

  predicate Seen(l: State, token: Token) {
    match token {
      case NoToken => false
      case RequestToken(request) => request in l.flows
      case OrderToken(order) => OrderSeen(l.orders, order)
    }
  }

  /** What an operation does, given the book it targets and whether its token was used before. */
  function Effect(b: Option<Book>, seen: bool, op: Op): Option<Moved> {
    match op {
      case OpCreate(id, provider, name, description, feeBps) =>
        if b.None? && provider != 0 && name != "" && 0 <= feeBps <= 3000
        then Some(Moved(NewBook(id, provider, name, description, feeBps), 0, 0)) else None
      case OpAllocate(_, investor, amount, requestId, marks) =>
        if b.None? || !Flat(b.value) || requestId == "" || seen then None
        else Accepted(Deposit(b.value, investor, amount, marks))
      case OpRedeem(_, investor, units, requestId, marks) =>
        if b.None? || !Flat(b.value) || requestId == "" || seen then None
        else Accepted(Withdraw(b.value, investor, units, marks))
      case OpFill(fill) =>
        if b.None? || !WellFormedFill(fill) || seen then None
        else
          var r := Execute(b.value, fill);
          if r.Ok? then Some(Moved(r.value, 0, 0)) else None
      case OpCrystallize(_, marks) =>
        if b.None? || !Flat(b.value) then None
        else
          var r := CrystallizeBook(b.value, marks);
          if r.Ok? then Some(Moved(r.value.book, 0, r.value.fee)) else None
      case OpPay(_, requestId) =>
        if b.None? || !Flat(b.value) || requestId == "" || seen then None
        else Accepted(PayBook(b.value))
    }
  }

  function Accepted(r: Result<Moved, Error>): Option<Moved> {
    if r.Ok? then Some(r.value) else None
  }

  /** Acceptance and effect of an operation depend on the targeted book and its token, and on nothing else. */
  lemma StepIsEffect(l: State, op: Op)
    ensures var effect := Effect(BookOf(l.strategies, Target(op)), Seen(l, TokenOf(op)), op);
            && Step(l, op).Ok? == effect.Some?
            && (effect.Some? ==>
                  && effect.value.book.id == Target(op)
                  && Step(l, op).value.state.strategies == Store(l.strategies, effect.value.book)
                  && Step(l, op).value.units == effect.value.units
                  && Step(l, op).value.amount == effect.value.amount)
  {
    hide Execute, CrystallizeBook, Deposit, Withdraw, Store;
    var effect := Effect(BookOf(l.strategies, Target(op)), Seen(l, TokenOf(op)), op);
    if effect.Some? {
      EffectKeepsId(BookOf(l.strategies, Target(op)), Seen(l, TokenOf(op)), op);
      StoreAt(l.strategies, effect.value.book);
    }
  }

  lemma EffectKeepsId(b: Option<Book>, seen: bool, op: Op)
    requires Effect(b, seen, op).Some? && (b.Some? ==> b.value.id == Target(op))
    ensures Effect(b, seen, op).value.book.id == Target(op)
  {
  }

  // ---------------------------------------------------------------------------------------------
  // One accepted operation

  /** Capital that went in and out of a strategy. */
  datatype Totals = Totals(deposits: int, redemptions: int, payouts: int)

  /** The capital one operation moves: what the accepted call reports as its amount. */
  function Moves(l: State, op: Op): Totals {
    var r := Step(l, op);
    if r.Err? then NOTHING
    else match op {
      case OpAllocate(_, _, _, _, _) => Totals(r.value.amount, 0, 0)
      case OpRedeem(_, _, _, _, _) => Totals(0, r.value.amount, 0)
      case OpPay(_, _) => Totals(0, 0, r.value.amount)
      case _ => NOTHING
    }
  }

  const NOTHING := Totals(0, 0, 0)

  function Plus(a: Totals, b: Totals): Totals {
    Totals(a.deposits + b.deposits, a.redemptions + b.redemptions, a.payouts + b.payouts)
  }

  /** The capital an operation moves in or out of one strategy. */
  function OwnMoves(l: State, op: Op, id: string): Totals {
    if Target(op) == id then Moves(l, op) else NOTHING
  }

  function Net(t: Totals): int {
    t.deposits - t.redemptions - t.payouts
  }

  function NetOf(op: Op, amount: int): int {
    match op {
      case OpAllocate(_, _, _, _, _) => amount
      case OpRedeem(_, _, _, _, _) => -amount
      case OpPay(_, _) => -amount
      case _ => 0
    }
  }

  /** Capital at cost less the profit realized so far; a strategy that does not exist yet has none. */
  ghost function Paid(b: Option<Book>): int {
    if b.None? then 0 else Capital(b.value) - b.value.realizedPnl
  }

  lemma EffectKeeps(b: Option<Book>, seen: bool, op: Op)
    requires Effect(b, seen, op).Some? && (b.Some? ==> Sound(b.value))
    ensures var m := Effect(b, seen, op).value;
            Sound(m.book) && Paid(Some(m.book)) == Paid(b) + NetOf(op, m.amount)
  {
    match op {
      case OpCreate(id, provider, name, description, feeBps) =>
        NewBookSound(id, provider, name, description, feeBps);
      case OpAllocate(id, investor, amount, requestId, marks) => DepositKeeps(b.value, investor, amount, marks);
      case OpRedeem(id, investor, units, requestId, marks) => WithdrawKeeps(b.value, investor, units, marks);
      case OpFill(fill) => ExecuteKeeps(b.value, fill);
      case OpCrystallize(id, marks) => CrystallizeKeeps(b.value, marks);
      case OpPay(id, requestId) => PayKeeps(b.value);
    }
  }

  lemma StepKeepsTokens(l: State, op: Op)
    requires NoRepeats(l)
    ensures NoRepeats(Apply(l, op))
  {
    hide Execute, CrystallizeBook, Deposit, Withdraw, PayBook, IndexOf;
  }

  /** One accepted operation keeps the ledger sound, accounts for the capital it moved, and touches one book. */
  lemma StepKeeps(l: State, op: Op, id: string)
    requires SoundState(l)
    ensures var next := Apply(l, op);
            && SoundState(next)
            && (id != Target(op) ==> BookOf(next.strategies, id) == BookOf(l.strategies, id))
            && Paid(BookOf(next.strategies, id)) ==
               Paid(BookOf(l.strategies, id)) + Net(OwnMoves(l, op, id))
            && next.protocolAccrual == l.protocolAccrual
  {
    hide Step, Effect, Sound, Paid, NoRepeats, SoundBooks, Moves, NetOf, BookOf;
    StepKeepsTokens(l, op);
    StepIsEffect(l, op);
    NetOfMoves(l, op);
    if Step(l, op).Ok? {
      var b, seen := BookOf(l.strategies, Target(op)), Seen(l, TokenOf(op));
      BookOfSound(l.strategies, Target(op));
      EffectKeeps(b, seen, op);
      StoreKeeps(l.strategies, Effect(b, seen, op).value.book);
      BookOfStore(l.strategies, Effect(b, seen, op).value.book, id);
      AccrualUnchanged(l, op);
    }
  }

  lemma NetOfMoves(l: State, op: Op)
    ensures Net(Moves(l, op)) == if Step(l, op).Ok? then NetOf(op, Step(l, op).value.amount) else 0
  {
  }

  lemma AccrualUnchanged(l: State, op: Op)
    ensures Apply(l, op).protocolAccrual == l.protocolAccrual
  {
  }

  // ---------------------------------------------------------------------------------------------
  // Runs

  function TotalsOf(l: State, ops: seq<Op>, id: string): Totals
    decreases ops
  {
    if ops == [] then NOTHING
    else Plus(OwnMoves(l, ops[0], id), TotalsOf(Apply(l, ops[0]), ops[1..], id))
  }

  /** In every reachable ledger all books are sound. */
  lemma {:induction false} RunKeepsSound(l: State, ops: seq<Op>)
    requires SoundState(l)
    ensures SoundState(Run(l, ops))
    decreases ops
  {
    if ops != [] {
      StepKeeps(l, ops[0], Target(ops[0]));
      RunKeepsSound(Apply(l, ops[0]), ops[1..]);
    }
  }

  lemma {:induction false} RunConserves(l: State, ops: seq<Op>, id: string)
    requires SoundState(l)
    ensures Paid(BookOf(Run(l, ops).strategies, id)) ==
            Paid(BookOf(l.strategies, id)) + Net(TotalsOf(l, ops, id))
    decreases ops
  {
    hide Step, Paid, SoundState, BookOf, Moves, Apply, Target, OwnMoves;
    if ops != [] {
      StepKeeps(l, ops[0], id);
      RunConserves(Apply(l, ops[0]), ops[1..], id);
    }
  }

  /**
   Conservation over all histories: in every ledger that can be reached from the empty one, cash, open
   positions at cost and locked collateral of a strategy are what was deposited, less what was redeemed and
   paid out to the provider, plus the profit realized on the way.
   */
  lemma CapitalIsConserved(ops: seq<Op>, id: string)
    requires BookOf(Run(NewLedger(), ops).strategies, id).Some?
    ensures var b := BookOf(Run(NewLedger(), ops).strategies, id).value;
            var t := TotalsOf(NewLedger(), ops, id);
            && b.cash + PositionsCost(b.positions) + Assoc.Sum(b.shorts, CollateralOf)
               == t.deposits - t.redemptions - t.payouts + b.realizedPnl
            && Sound(b)
  {
    RunConserves(NewLedger(), ops, id);
    RunKeepsSound(NewLedger(), ops);
  }

  /** The operation is accepted and its request id stands for a movement of capital. */
  predicate MovesCapital(l: State, op: Op, requestId: string) {
    (op.OpAllocate? || op.OpRedeem? || op.OpPay?) && op.requestId == requestId && Step(l, op).Ok?
  }

  /** How many accepted operations of a run used a request id. */
  function Uses(l: State, ops: seq<Op>, requestId: string): nat
    decreases ops
  {
    if ops == [] then 0
    else (if MovesCapital(l, ops[0], requestId) then 1 else 0) + Uses(Apply(l, ops[0]), ops[1..], requestId)
  }

  lemma AcceptedOnce(l: State, op: Op, requestId: string)
    ensures requestId in l.flows ==> requestId in Apply(l, op).flows
    ensures MovesCapital(l, op, requestId) ==> requestId !in l.flows && requestId in Apply(l, op).flows
  {
  }

  /** A request moves capital at most once in a whole history, whatever is repeated and in which strategy. */
  lemma {:induction false} RequestMovesCapitalOnce(l: State, ops: seq<Op>, requestId: string)
    ensures Uses(l, ops, requestId) <= 1
    ensures requestId in l.flows ==> Uses(l, ops, requestId) == 0
    decreases ops
  {
    hide Step, MovesCapital;
    if ops != [] {
      AcceptedOnce(l, ops[0], requestId);
      RequestMovesCapitalOnce(Apply(l, ops[0]), ops[1..], requestId);
    }
  }

  // ---------------------------------------------------------------------------------------------
  // Non-interference

  function Only(ops: seq<Op>, id: string): seq<Op> {
    if ops == [] then []
    else if Target(ops[0]) == id then [ops[0]] + Only(ops[1..], id)
    else Only(ops[1..], id)
  }

  /** No request or order id of this strategy is also used for another one. */
  ghost predicate OwnTokens(ops: seq<Op>, id: string) {
    forall i, j :: 0 <= i < |ops| && 0 <= j < |ops| && Target(ops[i]) == id && Target(ops[j]) != id ==>
      TokenOf(ops[i]) == NoToken || TokenOf(ops[i]) != TokenOf(ops[j])
  }

  ghost predicate LooksAlike(l: State, m: State, ops: seq<Op>, id: string) {
    && BookOf(l.strategies, id) == BookOf(m.strategies, id)
    && forall i :: 0 <= i < |ops| && Target(ops[i]) == id ==> Seen(l, TokenOf(ops[i])) == Seen(m, TokenOf(ops[i]))
  }

  lemma SeenAfter(l: State, op: Op, token: Token)
    ensures Seen(Apply(l, op), token) <==>
            Seen(l, token) || (Step(l, op).Ok? && token == TokenOf(op) && token != NoToken)
  {
    hide Execute, CrystallizeBook, Deposit, Withdraw, PayBook, IndexOf;
    if op.OpFill? && Step(l, op).Ok? {
      var next := Apply(l, op).orders;
      assert next[..|l.orders|] == l.orders;
      assert next[|l.orders|].orderId == op.fill.orderId;
      if token.OrderToken? && OrderSeen(l.orders, token.order) {
        var k :| 0 <= k < |l.orders| && l.orders[k].orderId == token.order;
        assert next[k].orderId == token.order;
      }
    }
  }

  /** Two ledgers that look alike to the targeted strategy treat the operation alike. */
  lemma OwnStepAlike(l: State, m: State, op: Op)
    requires BookOf(l.strategies, Target(op)) == BookOf(m.strategies, Target(op))
    requires Seen(l, TokenOf(op)) == Seen(m, TokenOf(op))
    ensures Step(l, op).Ok? == Step(m, op).Ok?
    ensures Moves(l, op) == Moves(m, op)
    ensures BookOf(Apply(l, op).strategies, Target(op)) == BookOf(Apply(m, op).strategies, Target(op))
  {
    StepIsEffect(l, op);
    StepIsEffect(m, op);
    var effect := Effect(BookOf(l.strategies, Target(op)), Seen(l, TokenOf(op)), op);
    if effect.Some? {
      BookOfStore(l.strategies, effect.value.book, Target(op));
      BookOfStore(m.strategies, effect.value.book, Target(op));
    }
  }

  /** One operation keeps two ledgers alike for a strategy; when it is foreign, the second one skips it. */
  lemma AlikeStep(l: State, m: State, ops: seq<Op>, id: string)
    requires ops != [] && SoundState(l) && OwnTokens(ops, id) && LooksAlike(l, m, ops, id)
    ensures var m' := if Target(ops[0]) == id then Apply(m, ops[0]) else m;
            LooksAlike(Apply(l, ops[0]), m', ops[1..], id)
  {
    var op, rest := ops[0], ops[1..];
    var l', m' := Apply(l, op), if Target(op) == id then Apply(m, op) else m;
    if Target(op) == id {
      OwnStepAlike(l, m, op);
    } else {
      StepKeeps(l, op, id);
    }
    forall i | 0 <= i < |rest| && Target(rest[i]) == id
      ensures Seen(l', TokenOf(rest[i])) == Seen(m', TokenOf(rest[i]))
    {
      assert rest[i] == ops[i + 1];
      SeenAfter(l, op, TokenOf(rest[i]));
      SeenAfter(m, op, TokenOf(rest[i]));
    }
  }

  lemma AlikeHead(l: State, m: State, ops: seq<Op>, id: string)
    requires LooksAlike(l, m, ops, id)
    ensures BookOf(l.strategies, id) == BookOf(m.strategies, id)
    ensures ops != [] && Target(ops[0]) == id ==> Seen(l, TokenOf(ops[0])) == Seen(m, TokenOf(ops[0]))
  {
  }

  lemma SameMoves(l: State, m: State, op: Op, id: string)
    requires Moves(l, op) == Moves(m, op)
    ensures OwnMoves(l, op, id) == OwnMoves(m, op, id)
  {
  }

  lemma ForeignMoves(l: State, op: Op, id: string, rest: Totals)
    requires Target(op) != id
    ensures Plus(OwnMoves(l, op, id), rest) == rest
  {
  }

  lemma OwnTokensTail(ops: seq<Op>, id: string)
    requires ops != [] && OwnTokens(ops, id)
    ensures OwnTokens(ops[1..], id)
  {
    var rest := ops[1..];
    assert forall i :: 0 <= i < |rest| ==> rest[i] == ops[i + 1];
  }

  lemma {:induction false} AlikeRuns(l: State, m: State, ops: seq<Op>, id: string)
    requires SoundState(l) && OwnTokens(ops, id) && LooksAlike(l, m, ops, id)
    ensures BookOf(Run(l, ops).strategies, id) == BookOf(Run(m, Only(ops, id)).strategies, id)
    ensures TotalsOf(l, ops, id) == TotalsOf(m, Only(ops, id), id)
    decreases ops
  {
    hide Step, SoundState, OwnTokens, LooksAlike, Moves, BookOf, OwnMoves, Apply, Plus;
    AlikeHead(l, m, ops, id);
    if ops != [] {
      StepKeeps(l, ops[0], id);
      AlikeStep(l, m, ops, id);
      OwnTokensTail(ops, id);
      if Target(ops[0]) == id {
        OwnStepAlike(l, m, ops[0]);
        SameMoves(l, m, ops[0], id);
        assert Only(ops, id)[1..] == Only(ops[1..], id);
        AlikeRuns(Apply(l, ops[0]), Apply(m, ops[0]), ops[1..], id);
      } else {
        AlikeRuns(Apply(l, ops[0]), m, ops[1..], id);
        ForeignMoves(l, ops[0], id, TotalsOf(Apply(l, ops[0]), ops[1..], id));
      }
    }
  }

  /**
   A strategy's books after any history are the books it would have had alone: deposits, orders, losses
   and fees of the other strategies do not exist for it. The only thing strategies share is the space of
   request and order ids.
   */
  lemma OtherStrategiesDoNotInterfere(ops: seq<Op>, id: string)
    requires OwnTokens(ops, id)
    ensures BookOf(Run(NewLedger(), ops).strategies, id) == BookOf(Run(NewLedger(), Only(ops, id)).strategies, id)
    ensures TotalsOf(NewLedger(), ops, id) == TotalsOf(NewLedger(), Only(ops, id), id)
  {
    AlikeRuns(NewLedger(), NewLedger(), ops, id);
  }
}
