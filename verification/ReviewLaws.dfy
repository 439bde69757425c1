/** What each call of the review does: whose money moves, and what a cycle makes of every single strategy. */
module ReviewLaws {
  import opened Prelude
  import opened Division
  import opened Claims
  import opened Ledger
  import opened LedgerLaws
  import opened LedgerRuns
  import opened BookLaws
  import opened Reconciliation
  import opened CustodyLaws
  import Review
  import Assoc

  // ---------------------------------------------------------------------------------------------
  // Capital

  /** Money between one wallet and the vault: what the one loses the other gains, and nothing else moves. */
  ghost predicate PaidIn(s: Review.ReviewState, investor: Party, amount: int, next: Review.ReviewState) {
    && investor in s.wallets && investor in next.wallets
    && next.wallets == s.wallets[investor := next.wallets[investor]]
    && next.wallets[investor] + amount == s.wallets[investor]
    && next.custody == s.custody.(cash := next.custody.cash)
    && next.custody.cash == s.custody.cash + amount
    && next.marks == s.marks && next.cycles == s.cycles
  }

  lemma AllocationIsExact(s: Review.ReviewState, investor: Party, id: string, amount: int, requestId: string)
    requires Review.Locked(s) && Review.AllocateReview(s, investor, id, amount, requestId).Ok?
    ensures var next := Review.AllocateReview(s, investor, id, amount, requestId).value;
      && PaidIn(s, investor, amount, next) && 0 < amount <= s.wallets[investor]
      && exists units ::
           Recorded(s.ledger, OpAllocate(id, investor, amount, requestId, s.marks), Done(next.ledger, units, amount))
  {
    hide Reconcile, SoundState, Twin, AllListed, AllSolvent, Review.AllFlat, Recorded, Deposit, IndexOf;
    var op := OpAllocate(id, investor, amount, requestId, s.marks);
    StepIsExact(s.ledger, op);
    StepAcceptedIff(s.ledger, op);
    var done := Step(s.ledger, op).value;
    RecordedAmount(s.ledger, op, done);
    assert done == Done(done.state, done.units, amount);
  }

  lemma RecordedAmount(l: State, op: Op, done: Done)
    requires op.OpAllocate? && Recorded(l, op, done)
    ensures done.amount == op.amount > 0
  {
    hide IsFloor, HoldingMoved;
  }

  lemma RedemptionIsExact(s: Review.ReviewState, investor: Party, id: string, requestId: string)
    requires Review.Locked(s) && Review.RedeemReview(s, investor, id, requestId).Ok?
    ensures var next := Review.RedeemReview(s, investor, id, requestId).value;
      var i := IndexOf(s.ledger.strategies, id);
      && i < |s.ledger.strategies|
      && exists amount ::
           && PaidIn(s, investor, -amount, next)
           && Recorded(s.ledger,
                       OpRedeem(id, investor, Assoc.Get(s.ledger.strategies[i].investors, investor, 0), requestId, s.marks),
                       Done(next.ledger, Assoc.Get(s.ledger.strategies[i].investors, investor, 0), amount))
  {
    hide Reconcile, SoundState, Twin, AllListed, AllSolvent, Review.AllFlat, Recorded, Withdraw, IndexOf;
    var i := IndexOf(s.ledger.strategies, id);
    var units := Assoc.Get(s.ledger.strategies[i].investors, investor, 0);
    var op := OpRedeem(id, investor, units, requestId, s.marks);
    StepIsExact(s.ledger, op);
    var done := Step(s.ledger, op).value;
    RecordedUnits(s.ledger, op, done);
    assert PaidIn(s, investor, -done.amount, Review.RedeemReview(s, investor, id, requestId).value);
    assert done == Done(done.state, units, done.amount);
  }

  lemma RecordedUnits(l: State, op: Op, done: Done)
    requires op.OpRedeem? && Recorded(l, op, done)
    ensures done.units == op.units
  {
    hide Redeemed;
  }

  // ---------------------------------------------------------------------------------------------
  // A simulated fill

  /** A fill at a price: quoted at what the quantity is worth, for a fee of a ten thousandth. */
  ghost predicate AtPrice(f: Fill, id: string, orderId: string, side: Side, quantity: int, price: int, lotId: string) {
    && f.strategyId == id && f.orderId == orderId && f.asset == Some(BTC) && f.side == side && f.quantity == quantity
    && IsFloor(f.quote, quantity * price, SCALE) && IsFloor(f.fee, f.quote, 10000)
    && f.lotId == lotId && f.collateral == None && f.escrow == None
  }

  lemma FillIsAtPrice(d: Review.Desk, id: string, orderId: string, side: Side, quantity: int, lotId: string)
    requires quantity >= 0 && MarkOf(d.marks, BTC) >= 0
    ensures AtPrice(Review.BtcFill(d, id, orderId, side, quantity, lotId), id, orderId, side, quantity,
                    MarkOf(d.marks, BTC), lotId)
  {
    hide IsFloor;
    var price := MarkOf(d.marks, BTC);
    MulMonotone(quantity, 0, price);
    QuotIsFloor(quantity * price, SCALE);
    FloorAtLeast(quantity * price, SCALE, 0);
    QuotIsFloor(Quot(quantity * price, SCALE), 10000);
  }

  /** The ledger of a fill: the strategy it is for is filled, and the others are as they were. */
  ghost predicate FilledAt(before: seq<Book>, i: nat, f: Fill, after: seq<Book>) {
    && i < |before| == |after| && f.asset.Some? && f.strategyId == before[i].id
    && Filled(before[i], f, after[i])
    && forall j :: 0 <= j < |before| && j != i ==> after[j] == before[j]
  }

  lemma OneIndex(strategies: seq<Book>, i: nat)
    requires SoundBooks(strategies) && i < |strategies|
    ensures IndexOf(strategies, strategies[i].id) == i
  {
    hide Sound;
    FirstIndex(strategies, strategies[i].id);
    IndexIsFound(strategies, i);
  }

  lemma {:induction false} IndexIsFound(strategies: seq<Book>, i: nat)
    requires i < |strategies|
    ensures IndexOf(strategies, strategies[i].id) <= i
  {
    if strategies[0].id != strategies[i].id {
      IndexIsFound(strategies[1..], i - 1);
    }
  }

  lemma DeskIsFilled(d: Review.Desk, i: nat, f: Fill)
    requires SoundState(d.ledger) && i < |d.ledger.strategies| && f.strategyId == d.ledger.strategies[i].id
    requires Review.FillDesk(d, f).Ok?
    ensures var next := Review.FillDesk(d, f).value;
      && FilledAt(d.ledger.strategies, i, f, next.ledger.strategies)
      && SoundState(next.ledger) && next.marks == d.marks
  {
    hide Review.FillDesk, SoundBooks, NoRepeats, RecordFill, Recorded, FilledAt, IndexOf, Step, Apply, Target,
      OwnMoves, Paid, BookOf;
    DeskRecords(d, f);
    OneIndex(d.ledger.strategies, i);
    StepIsExact(d.ledger, OpFill(f));
    StepKeeps(d.ledger, OpFill(f), f.strategyId);
    RecordedIsFilled(d.ledger, f, i, RecordFill(d.ledger, f).value);
  }

  lemma DeskRecords(d: Review.Desk, f: Fill)
    requires Review.FillDesk(d, f).Ok?
    ensures Step(d.ledger, OpFill(f)) == RecordFill(d.ledger, f) && RecordFill(d.ledger, f).Ok?
    ensures Review.FillDesk(d, f).value.ledger == RecordFill(d.ledger, f).value.state == Apply(d.ledger, OpFill(f))
    ensures Review.FillDesk(d, f).value.marks == d.marks
  {
    hide Reconcile, MoveCustody, RecordFill;
  }

  lemma RecordedIsFilled(l: State, f: Fill, i: nat, done: Done)
    requires i < |l.strategies| && IndexOf(l.strategies, l.strategies[i].id) == i && f.strategyId == l.strategies[i].id
    requires Recorded(l, OpFill(f), done)
    ensures FilledAt(l.strategies, i, f, done.state.strategies)
  {
    hide Filled, IndexOf;
  }

  // ---------------------------------------------------------------------------------------------
  // Entering

  /** A quarter of what the investors own, in units of the asset, both rounded down. */
  ghost predicate IsEntryQuantity(q: int, b: Book, price: int) {
    exists quarter :: IsFloor(quarter, Available(b), 4) && IsFloor(q, quarter * SCALE, price)
  }

  /** The reserve, a strategy without owners, and one too small for a unit of the asset take no part. */
  ghost predicate StaysOut(b: Book, price: int) {
    b.id == "cash-reserve" || b.units == 0 || IsEntryQuantity(0, b, price)
  }

  /** The hedge sells short, every other strategy buys. */
  ghost predicate EnteredAs(b: Book, price: int, ids: Review.Uuids, e: Review.Entered, after: Book) {
    && IsEntryQuantity(e.quantity, b, price) && e.id == b.id && e.short == (b.id == "btc-hedge")
    && e.lotId == ids.lot && e.exitOrder == ids.exit
    && exists f ::
         && AtPrice(f, b.id, ids.enter, if e.short then SHORT_OPEN else BUY, e.quantity, price, if e.short then ids.lot else "")
         && Filled(b, f, after)
  }

  /** From strategy `i` on: those that stay out are as they were, and the others are entered, in order. */
  ghost predicate AllEntered(
      before: seq<Book>, i: nat, price: int, uuids: nat -> Review.Uuids, es: seq<Review.Entered>, after: seq<Book>)
    requires i <= |before| == |after|
    decreases |before| - i
  {
    if i == |before| then es == []
    else if StaysOut(before[i], price) then after[i] == before[i] && AllEntered(before, i + 1, price, uuids, es, after)
    else
      es != [] && EnteredAs(before[i], price, uuids(i), es[0], after[i])
      && AllEntered(before, i + 1, price, uuids, es[1..], after)
  }

  lemma {:induction false} AllEnteredDepends(
      before: seq<Book>, same: seq<Book>, i: nat, price: int, uuids: nat -> Review.Uuids, es: seq<Review.Entered>,
      after: seq<Book>)
    requires i <= |before| == |same| == |after| && forall j :: i <= j < |before| ==> same[j] == before[j]
    requires AllEntered(same, i, price, uuids, es, after)
    ensures AllEntered(before, i, price, uuids, es, after)
    decreases |before| - i
  {
    hide StaysOut, EnteredAs;
    if i < |before| {
      AllEnteredDepends(before, same, i + 1, price, uuids, if StaysOut(before[i], price) then es else es[1..], after);
    }
  }

  lemma EntryIsExact(b: Book, marks: Marks)
    requires Sound(b) && Flat(b) && InvestorPool(b, marks).Ok? && MarkOf(marks, BTC) > 0
    ensures var q := Review.EntryQuantity(InvestorPool(b, marks).value, MarkOf(marks, BTC));
      && q >= 0 && IsEntryQuantity(q, b, MarkOf(marks, BTC))
      && (q != 0 ==> !IsEntryQuantity(0, b, MarkOf(marks, BTC)))
  {
    hide IsFloor, Assoc.Sum, Assoc.Distinct;
    FlatValue(b, marks);
    var price, quarter := MarkOf(marks, BTC), Quot(Available(b), 4);
    QuotIsFloor(Available(b), 4);
    QuotIsFloor(quarter * SCALE, price);
    FloorAtLeast(quarter * SCALE, price, 0);
    if IsEntryQuantity(0, b, price) {
      var other :| IsFloor(other, Available(b), 4) && IsFloor(0, other * SCALE, price);
      OneFloor(other, quarter, Available(b), 4);
      OneFloor(0, Quot(quarter * SCALE, price), quarter * SCALE, price);
    }
  }

  /** A quotient rounded down is one number. */
  lemma OneFloor(p: int, q: int, a: int, b: int)
    requires b > 0 && IsFloor(p, a, b) && IsFloor(q, a, b)
    ensures p == q
  {
    if p < q {
      MulMonotone(b, p + 1, q);
    } else if q < p {
      MulMonotone(b, q + 1, p);
    }
  }

  lemma EnterOneIsExact(d: Review.Desk, i: nat, uuids: nat -> Review.Uuids)
    requires SoundState(d.ledger) && i < |d.ledger.strategies| && Flat(d.ledger.strategies[i]) && MarkOf(d.marks, BTC) >= 0
    requires Review.EnterOne(d, i, uuids).Ok?
    ensures var b, next, es := d.ledger.strategies[i], Review.EnterOne(d, i, uuids).value.0, Review.EnterOne(d, i, uuids).value.1;
      && SoundState(next.ledger) && next.marks == d.marks && |next.ledger.strategies| == |d.ledger.strategies|
      && (forall j :: 0 <= j < |d.ledger.strategies| && j != i ==> next.ledger.strategies[j] == d.ledger.strategies[j])
      && (if StaysOut(b, MarkOf(d.marks, BTC)) then next == d && es == []
          else |es| == 1 && EnteredAs(b, MarkOf(d.marks, BTC), uuids(i), es[0], next.ledger.strategies[i]))
  {
    hide SoundState, Flat, InvestorPool, Review.EntryQuantity, Review.FillDesk, Review.BtcFill, Filled, AtPrice,
      IsEntryQuantity;
    var b, price := d.ledger.strategies[i], MarkOf(d.marks, BTC);
    if Review.Trades(b) {
      BookIsSound(d.ledger, i);
      EntryIsExact(b, d.marks);
      var q := Review.EntryQuantity(InvestorPool(b, d.marks).value, price);
      if q != 0 {
        var short := b.id == Review.HEDGE;
        var side, lot := if short then SHORT_OPEN else BUY, if short then uuids(i).lot else "";
        var f := Review.BtcFill(d, b.id, uuids(i).enter, side, q, lot);
        FillIsAtPrice(d, b.id, uuids(i).enter, side, q, lot);
        NamedFor(d, b.id, uuids(i).enter, side, q, lot);
        DeskIsFilled(d, i, f);
      }
    }
  }

  lemma NamedFor(d: Review.Desk, id: string, orderId: string, side: Side, quantity: int, lotId: string)
    ensures Review.BtcFill(d, id, orderId, side, quantity, lotId).strategyId == id
  {
  }

  lemma {:induction false} EnteringIsExact(d: Review.Desk, i: nat, uuids: nat -> Review.Uuids)
    requires SoundState(d.ledger) && i <= |d.ledger.strategies| && MarkOf(d.marks, BTC) >= 0
    requires forall j :: i <= j < |d.ledger.strategies| ==> Flat(d.ledger.strategies[j])
    requires Review.EnterFrom(d, i, uuids).Ok?
    ensures var next, es := Review.EnterFrom(d, i, uuids).value.0, Review.EnterFrom(d, i, uuids).value.1;
      && SoundState(next.ledger) && next.marks == d.marks && |next.ledger.strategies| == |d.ledger.strategies|
      && (forall j :: 0 <= j < i ==> next.ledger.strategies[j] == d.ledger.strategies[j])
      && AllEntered(d.ledger.strategies, i, MarkOf(d.marks, BTC), uuids, es, next.ledger.strategies)
    decreases |d.ledger.strategies| - i
  {
    hide SoundState, Flat, Review.EnterOne, StaysOut, EnteredAs;
    if i < |d.ledger.strategies| {
      EnterOneIsExact(d, i, uuids);
      var one := Review.EnterOne(d, i, uuids).value;
      var rest := Review.EnterFrom(one.0, i + 1, uuids).value;
      EnteringIsExact(one.0, i + 1, uuids);
      AllEnteredDepends(d.ledger.strategies, one.0.ledger.strategies, i + 1, MarkOf(d.marks, BTC), uuids, rest.1,
                        rest.0.ledger.strategies);
      assert (one.1 + rest.1)[|one.1|..] == rest.1;
    }
  }

  // ---------------------------------------------------------------------------------------------
  // Leaving, and the fee

  /** The same quantity goes back at the new price. */
  ghost predicate ExitedAs(b: Book, e: Review.Entered, price: int, after: Book) {
    exists f ::
      && AtPrice(f, e.id, e.exitOrder, if e.short then SHORT_CLOSE else SELL, e.quantity, price, if e.short then e.lotId else "")
      && Filled(b, f, after)
  }

  ghost predicate AllExited(
      start: seq<Book>, before: seq<Book>, i: nat, first: int, price: int, es: seq<Review.Entered>, after: seq<Book>)
    requires i <= |start| == |before| == |after|
    decreases |start| - i
  {
    if i == |start| then es == []
    else if StaysOut(start[i], first) then
      after[i] == before[i] && AllExited(start, before, i + 1, first, price, es, after)
    else
      es != [] && ExitedAs(before[i], es[0], price, after[i])
      && AllExited(start, before, i + 1, first, price, es[1..], after)
  }

  lemma {:induction false} AllExitedDepends(
      start: seq<Book>, before: seq<Book>, same: seq<Book>, i: nat, first: int, price: int, es: seq<Review.Entered>,
      after: seq<Book>)
    requires i <= |start| == |before| == |same| == |after| && forall j :: i <= j < |before| ==> same[j] == before[j]
    requires AllExited(start, same, i, first, price, es, after)
    ensures AllExited(start, before, i, first, price, es, after)
    decreases |start| - i
  {
    hide StaysOut, ExitedAs;
    if i < |start| {
      AllExitedDepends(start, before, same, i + 1, first, price, if StaysOut(start[i], first) then es else es[1..], after);
    }
  }

  lemma ExitOneIsExact(d: Review.Desk, i: nat, e: Review.Entered)
    requires SoundState(d.ledger) && i < |d.ledger.strategies| && e.id == d.ledger.strategies[i].id
    requires e.quantity >= 0 && MarkOf(d.marks, BTC) >= 0 && Review.ExitOne(d, e).Ok?
    ensures var next := Review.ExitOne(d, e).value;
      && SoundState(next.ledger) && next.marks == d.marks && |next.ledger.strategies| == |d.ledger.strategies|
      && (forall j :: 0 <= j < |d.ledger.strategies| && j != i ==> next.ledger.strategies[j] == d.ledger.strategies[j])
      && next.ledger.strategies[i].id == e.id
      && ExitedAs(d.ledger.strategies[i], e, MarkOf(d.marks, BTC), next.ledger.strategies[i])
  {
    hide SoundState, Review.FillDesk, Review.BtcFill, Filled, AtPrice;
    var side, lot := if e.short then SHORT_CLOSE else SELL, if e.short then e.lotId else "";
    var f := Review.BtcFill(d, e.id, e.exitOrder, side, e.quantity, lot);
    FillIsAtPrice(d, e.id, e.exitOrder, side, e.quantity, lot);
    NamedFor(d, e.id, e.exitOrder, side, e.quantity, lot);
    DeskIsFilled(d, i, f);
    FilledKeepsName(d.ledger.strategies[i], f, Review.FillDesk(d, f).value.ledger.strategies[i]);
  }

  lemma FilledKeepsName(b: Book, f: Fill, after: Book)
    requires f.asset.Some? && Filled(b, f, after)
    ensures after.id == b.id
  {
    hide Bought, Sold, Shorted, Covered;
  }

  lemma EnteredIsNamed(b: Book, price: int, ids: Review.Uuids, e: Review.Entered, after: Book)
    requires EnteredAs(b, price, ids, e, after) && price >= 0 && Available(b) >= 0
    ensures e.id == b.id == after.id && e.quantity >= 0
  {
    hide Bought, Sold, Shorted, Covered;
    var quarter :| IsFloor(quarter, Available(b), 4) && IsFloor(e.quantity, quarter * SCALE, price);
    if e.quantity < 0 {
      MulMonotone(price, e.quantity + 1, 0);
    }
  }

  /** Strategies keep their names and places. */
  ghost predicate SameNames(a: seq<Book>, b: seq<Book>) {
    |a| == |b| && forall j :: 0 <= j < |a| ==> a[j].id == b[j].id
  }

  lemma {:induction false} ExitingIsExact(
      d: Review.Desk, start: seq<Book>, i: nat, first: int, uuids: nat -> Review.Uuids, es: seq<Review.Entered>,
      entered: seq<Book>)
    requires SoundState(d.ledger) && MarkOf(d.marks, BTC) >= 0 && first >= 0
    requires SameNames(start, d.ledger.strategies) && i <= |start| == |entered|
    requires forall j :: 0 <= j < |start| ==> Available(start[j]) >= 0
    requires AllEntered(start, i, first, uuids, es, entered) && Review.ExitAll(d, es).Ok?
    ensures var next := Review.ExitAll(d, es).value;
      && SoundState(next.ledger) && next.marks == d.marks && |next.ledger.strategies| == |d.ledger.strategies|
      && (forall j :: 0 <= j < i ==> next.ledger.strategies[j] == d.ledger.strategies[j])
      && AllExited(start, d.ledger.strategies, i, first, MarkOf(d.marks, BTC), es, next.ledger.strategies)
    decreases |start| - i
  {
    hide SoundState, Review.ExitOne, StaysOut, EnteredAs, ExitedAs;
    if i < |start| {
      if StaysOut(start[i], first) {
        ExitingIsExact(d, start, i + 1, first, uuids, es, entered);
      } else {
        EnteredIsNamed(start[i], first, uuids(i), es[0], entered[i]);
        ExitOneIsExact(d, i, es[0]);
        var one := Review.ExitOne(d, es[0]).value;
        ExitingIsExact(one, start, i + 1, first, uuids, es[1..], entered);
        AllExitedDepends(start, d.ledger.strategies, one.ledger.strategies, i + 1, first, MarkOf(d.marks, BTC), es[1..],
                         Review.ExitAll(one, es[1..]).value.ledger.strategies);
      }
    }
  }

  ghost predicate ChargedAs(b: Book, after: Book) {
    exists fee :: FeeTaken(b, Moved(after, 0, fee))
  }

  lemma ChargeOneIsExact(l: State, marks: Marks, i: nat)
    requires SoundState(l) && i < |l.strategies| && Crystallize(l, l.strategies[i].id, marks).Ok?
    ensures var next := Crystallize(l, l.strategies[i].id, marks).value.state;
      && SoundState(next) && SameNames(l.strategies, next.strategies) && ChargedAs(l.strategies[i], next.strategies[i])
      && (forall j :: 0 <= j < |l.strategies| && j != i ==> next.strategies[j] == l.strategies[j])
  {
    hide SoundBooks, NoRepeats, Crystallize, Recorded, IndexOf, FeeTaken;
    var op := OpCrystallize(l.strategies[i].id, marks);
    OneIndex(l.strategies, i);
    StepIsExact(l, op);
    StepKeeps(l, op, l.strategies[i].id);
    RecordedIsCharged(l, op, i, Step(l, op).value);
  }

  lemma RecordedIsCharged(l: State, op: Op, i: nat, done: Done)
    requires i < |l.strategies| && op.OpCrystallize? && op.id == l.strategies[i].id && IndexOf(l.strategies, op.id) == i
    requires Recorded(l, op, done)
    ensures SameNames(l.strategies, done.state.strategies) && ChargedAs(l.strategies[i], done.state.strategies[i])
    ensures forall j :: 0 <= j < |l.strategies| && j != i ==> done.state.strategies[j] == l.strategies[j]
  {
    hide IsProfit, IsUnitPrice, IsFloor, IndexOf;
    assert FeeTaken(l.strategies[i], Moved(done.state.strategies[i], 0, done.amount));
  }

  lemma {:induction false} SameIds(a: seq<Book>, b: seq<Book>)
    requires SameNames(a, b)
    ensures Review.Ids(a) == Review.Ids(b)
  {
    Review.IdsAt(a);
    Review.IdsAt(b);
  }

  lemma {:induction false} ChargingIsExact(l: State, marks: Marks, i: nat)
    requires SoundState(l) && i <= |l.strategies| == |Review.Ids(l.strategies)|
    requires Review.CrystallizeAll(l, marks, Review.Ids(l.strategies)[i..]).Ok?
    ensures var next := Review.CrystallizeAll(l, marks, Review.Ids(l.strategies)[i..]).value;
      && |next.strategies| == |l.strategies|
      && (forall j :: 0 <= j < i ==> next.strategies[j] == l.strategies[j])
      && (forall j :: i <= j < |l.strategies| ==> ChargedAs(l.strategies[j], next.strategies[j]))
    decreases |l.strategies| - i
  {
    hide SoundState, Crystallize, ChargedAs, Review.Ids;
    if i < |l.strategies| {
      Review.IdsAt(l.strategies);
      var ids := Review.Ids(l.strategies);
      assert ids[i..][1..] == ids[i + 1..] && ids[i..][0] == l.strategies[i].id;
      ChargeOneIsExact(l, marks, i);
      var one := Crystallize(l, ids[i], marks).value.state;
      SameIds(l.strategies, one.strategies);
      ChargingIsExact(one, marks, i + 1);
    }
  }

  // ---------------------------------------------------------------------------------------------
  // A cycle

  /** What a cycle makes of one strategy: in at the one price, out at the other, and its fee; or only its fee. */
  ghost predicate Cycled(b: Book, first: int, price: int, ids: Review.Uuids, after: Book) {
    exists settled :: ChargedAs(settled, after)
      && if StaysOut(b, first) then settled == b else InAndOut(b, first, price, ids, settled)
  }

  ghost predicate InAndOut(b: Book, first: int, price: int, ids: Review.Uuids, settled: Book) {
    exists e, held :: EnteredAs(b, first, ids, e, held) && ExitedAs(held, e, price, settled)
  }

  lemma {:induction false} InAndOutAt(
      start: seq<Book>, held: seq<Book>, settled: seq<Book>, i: nat, first: int, price: int, uuids: nat -> Review.Uuids,
      es: seq<Review.Entered>, k: nat)
    requires i <= k < |start| == |held| == |settled|
    requires AllEntered(start, i, first, uuids, es, held) && AllExited(start, held, i, first, price, es, settled)
    ensures if StaysOut(start[k], first) then settled[k] == start[k]
            else InAndOut(start[k], first, price, uuids(k), settled[k])
    decreases k - i
  {
    hide StaysOut, EnteredAs, ExitedAs;
    if i < k {
      InAndOutAt(start, held, settled, i + 1, first, price, uuids, if StaysOut(start[i], first) then es else es[1..], k);
    }
  }

  lemma PriceMoves(marks: Marks, moveBps: int)
    requires MarkOf(marks, BTC) >= 0 && -2000 <= moveBps
    ensures IsFloor(MarkOf(Review.MovePrice(marks, moveBps), BTC), MarkOf(marks, BTC) * (10000 + moveBps), 10000)
    ensures MarkOf(Review.MovePrice(marks, moveBps), BTC) >= 0
    ensures forall a :: a != BTC ==> (a in Review.MovePrice(marks, moveBps) <==> a in marks)
    ensures forall a :: a != BTC ==> MarkOf(Review.MovePrice(marks, moveBps), a) == MarkOf(marks, a)
  {
    MulMonotone(MarkOf(marks, BTC), 0, 10000 + moveBps);
    QuotIsFloor(MarkOf(marks, BTC) * (10000 + moveBps), 10000);
    FloorAtLeast(MarkOf(marks, BTC) * (10000 + moveBps), 10000, 0);
  }

  /** An accepted cycle moves the price as asked and no wallet, and cycles every strategy for itself. */
  lemma CycleIsExact(s: Review.ReviewState, moveBps: int, uuids: nat -> Review.Uuids)
    requires Review.Locked(s) && MarkOf(s.marks, BTC) >= 0 && Review.CycleReview(s, moveBps, uuids).Ok?
    ensures var next := Review.CycleReview(s, moveBps, uuids).value;
      var first, price := MarkOf(s.marks, BTC), MarkOf(next.marks, BTC);
      && next.wallets == s.wallets && next.cycles == s.cycles + 1
      && IsFloor(price, first * (10000 + moveBps), 10000) && price >= 0 && -2000 <= moveBps <= 2000
      && (forall a :: a != BTC ==> MarkOf(next.marks, a) == MarkOf(s.marks, a))
      && |next.ledger.strategies| == |s.ledger.strategies|
      && forall i :: 0 <= i < |s.ledger.strategies| ==>
           Cycled(s.ledger.strategies[i], first, price, uuids(i), next.ledger.strategies[i])
  {
    hide SoundState, Reconcile, Review.CrystallizeAll, Review.EnterFrom, Review.ExitAll, AllEntered, AllExited,
      ChargedAs, InAndOut, StaysOut, AllSolvent, AllListed, Twin, Flat, Review.MovePrice, Review.Ids, Cycled,
      IsFloor;
    var d0 := Review.Desk(s.ledger, s.marks, s.custody);
    var start, first := s.ledger.strategies, MarkOf(s.marks, BTC);
    var marks := Review.MovePrice(s.marks, moveBps);
    var price := MarkOf(marks, BTC);
    PriceMoves(s.marks, moveBps);
    EnteringIsExact(d0, 0, uuids);
    var entering := Review.EnterFrom(d0, 0, uuids).value;
    var moved := entering.0.(marks := marks);
    EnteredNames(s.ledger, entering.0.ledger.strategies, 0, first, uuids, entering.1);
    ExitingIsExact(moved, start, 0, first, uuids, entering.1, entering.0.ledger.strategies);
    var out := Review.ExitAll(moved, entering.1).value;
    Review.IdsAt(out.ledger.strategies);
    assert Review.Ids(out.ledger.strategies)[0..] == Review.Ids(out.ledger.strategies);
    ChargingIsExact(out.ledger, marks, 0);
    var settled := Review.CrystallizeAll(out.ledger, marks, Review.Ids(out.ledger.strategies)).value;
    forall i | 0 <= i < |start| ensures Cycled(start[i], first, price, uuids(i), settled.strategies[i]) {
      InAndOutAt(start, entering.0.ledger.strategies, out.ledger.strategies, 0, first, price, uuids, entering.1, i);
      CycledWith(start[i], first, price, uuids(i), out.ledger.strategies[i], settled.strategies[i]);
    }
  }

  lemma CycledWith(b: Book, first: int, price: int, ids: Review.Uuids, settled: Book, after: Book)
    requires ChargedAs(settled, after)
    requires if StaysOut(b, first) then settled == b else InAndOut(b, first, price, ids, settled)
    ensures Cycled(b, first, price, ids, after)
  {
  }

  lemma {:induction false} EnteredNames(
      l: State, after: seq<Book>, i: nat, first: int, uuids: nat -> Review.Uuids, es: seq<Review.Entered>)
    requires SoundState(l) && i <= |l.strategies| == |after| && first >= 0
    requires AllEntered(l.strategies, i, first, uuids, es, after)
    ensures forall j :: i <= j < |after| ==> after[j].id == l.strategies[j].id
    ensures forall j :: 0 <= j < |l.strategies| ==> Available(l.strategies[j]) >= 0
    decreases |after| - i
  {
    hide SoundState, StaysOut, EnteredAs, Sound, Available;
    forall j | 0 <= j < |l.strategies| ensures Available(l.strategies[j]) >= 0 {
      BookIsSound(l, j);
      SoundPool(l.strategies[j]);
    }
    if i < |after| {
      if StaysOut(l.strategies[i], first) {
        EnteredNames(l, after, i + 1, first, uuids, es);
      } else {
        EnteredIsNamed(l.strategies[i], first, uuids(i), es[0], after[i]);
        EnteredNames(l, after, i + 1, first, uuids, es[1..]);
      }
    }
  }
}
