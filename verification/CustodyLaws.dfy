/** Custody that moves with the books: what a deposit, a withdrawal or a fill must do to the vault. */
module CustodyLaws {
  import opened Prelude
  import opened Division
  import opened Ledger
  import opened LedgerLaws
  import opened LedgerRuns
  import opened Reconciliation
  import Assoc

  /** Custody mirrors the books, and no lot id is used by two strategies. */
  ghost predicate Twin(l: State, custody: Custody) {
    Mirrors(l, custody) && Assoc.Distinct(Loans(l.strategies))
  }

  /** On books without a shared lot id a twin is what the checks of the reconciliation tally. */
  lemma TwinTallies(l: State, custody: Custody)
    ensures Twin(l, custody) <==> Tallies(l, custody) && Assoc.Distinct(Loans(l.strategies))
  {
    hide Mirrors, Tallies, Assoc.Distinct, Loans;
    if Assoc.Distinct(Loans(l.strategies)) {
      MirrorsTally(l, custody);
    }
  }

  // ---------------------------------------------------------------------------------------------
  // Sums over all strategies when one book changes

  lemma {:induction false} SumCashUpdate(strategies: seq<Book>, i: nat, b: Book)
    requires i < |strategies|
    ensures SumCash(strategies[i := b]) == SumCash(strategies) - strategies[i].cash + b.cash
  {
    if i > 0 {
      SumCashUpdate(strategies[1..], i - 1, b);
      assert strategies[i := b][1..] == strategies[1..][i - 1 := b];
    }
  }

  lemma {:induction false} SumQuantityUpdate(strategies: seq<Book>, i: nat, b: Book, asset: Asset)
    requires i < |strategies|
    ensures SumQuantity(strategies[i := b], asset) ==
            SumQuantity(strategies, asset) - PositionOf(strategies[i].positions, asset).quantity
            + PositionOf(b.positions, asset).quantity
  {
    if i > 0 {
      SumQuantityUpdate(strategies[1..], i - 1, b, asset);
      assert strategies[i := b][1..] == strategies[1..][i - 1 := b];
    } else {
      assert strategies[i := b][1..] == strategies[1..];
    }
  }

  lemma {:induction false} LoansSplit(strategies: seq<Book>, i: nat)
    requires i < |strategies|
    ensures Loans(strategies) == Loans(strategies[..i]) + strategies[i].shorts + Loans(strategies[i + 1..])
  {
    var tail := strategies[1..];
    if i > 0 {
      LoansSplit(tail, i - 1);
      assert strategies[..i][1..] == tail[..i - 1];
      assert tail[i..] == strategies[i + 1..];
    } else {
      assert Loans(strategies[..0]) == [];
    }
  }

  lemma LoansUpdate(strategies: seq<Book>, i: nat, b: Book)
    requires i < |strategies|
    ensures Loans(strategies) == Loans(strategies[..i]) + strategies[i].shorts + Loans(strategies[i + 1..])
    ensures Loans(strategies[i := b]) == Loans(strategies[..i]) + b.shorts + Loans(strategies[i + 1..])
  {
    hide Loans;
    var next := strategies[i := b];
    LoansSplit(strategies, i);
    LoansSplit(next, i);
    assert next[..i] == strategies[..i] && next[i + 1..] == strategies[i + 1..];
  }

  // ---------------------------------------------------------------------------------------------
  // Lots

  lemma {:induction false} HasConcat<K, V>(a: seq<(K, V)>, b: seq<(K, V)>, key: K)
    ensures Assoc.Has(a + b, key) <==> Assoc.Has(a, key) || Assoc.Has(b, key)
  {
    if a == [] {
      assert a + b == b;
    } else {
      assert (a + b)[1..] == a[1..] + b;
      HasConcat(a[1..], b, key);
    }
  }

  ghost predicate Apart<K(!new), V>(a: seq<(K, V)>, b: seq<(K, V)>) {
    forall key :: Assoc.Has(a, key) ==> !Assoc.Has(b, key)
  }

  lemma {:induction false} DistinctConcat<K(!new), V>(a: seq<(K, V)>, b: seq<(K, V)>)
    ensures Assoc.Distinct(a + b) <==> Assoc.Distinct(a) && Assoc.Distinct(b) && Apart(a, b)
  {
    if a == [] {
      assert a + b == b;
    } else {
      assert (a + b)[1..] == a[1..] + b;
      DistinctConcat(a[1..], b);
      HasConcat(a[1..], b, a[0].0);
      assert Apart(a, b) <==> Apart(a[1..], b) && !Assoc.Has(b, a[0].0);
    }
  }

  lemma {:induction false} MatchConcat(a: seq<(string, Lot)>, b: seq<(string, Lot)>, shorts: map<string, CustodyLot>)
    ensures LoansMatch(a + b, shorts) <==> LoansMatch(a, shorts) && LoansMatch(b, shorts)
  {
    if a == [] {
      assert a + b == b;
    } else {
      assert (a + b)[1..] == a[1..] + b;
      MatchConcat(a[1..], b, shorts);
    }
  }

  /** Custody may change at any lot that is not among the loans. */
  lemma {:induction false} MatchElsewhere(loans: seq<(string, Lot)>, shorts: map<string, CustodyLot>,
                                          other: map<string, CustodyLot>, id: string)
    requires LoansMatch(loans, shorts) && !Assoc.Has(loans, id)
    requires forall k :: k in shorts && k != id ==> k in other && other[k] == shorts[k]
    ensures LoansMatch(loans, other)
  {
    if loans != [] {
      MatchElsewhere(loans[1..], shorts, other, id);
    }
  }

  lemma {:induction false} MatchedLot(loans: seq<(string, Lot)>, shorts: map<string, CustodyLot>, id: string)
    requires LoansMatch(loans, shorts) && Assoc.Has(loans, id)
    ensures id in shorts && shorts[id] == CustodyOfLot(Assoc.Get(loans, id, NO_LOT))
  {
    if loans[0].0 != id {
      MatchedLot(loans[1..], shorts, id);
    }
  }

  /** A new lot appears on both sides. */
  lemma OpenOnBothSides(before: seq<(string, Lot)>, own: seq<(string, Lot)>, after: seq<(string, Lot)>,
                        shorts: map<string, CustodyLot>, id: string, lot: Lot)
    requires LoansMatch(before + own + after, shorts) && Assoc.Distinct(before + own + after)
    requires |before + own + after| == |shorts|
    requires id !in shorts
    ensures var loans, grown := before + Assoc.Put(own, id, lot) + after, shorts[id := CustodyOfLot(lot)];
            LoansMatch(loans, grown) && Assoc.Distinct(loans) && |loans| == |grown|
  {
    var all := before + own + after;
    if Assoc.Has(all, id) {
      MatchedLot(all, shorts, id);
    }
    HasConcat(before + own, after, id);
    HasConcat(before, own, id);
    PutNew(own, id, lot);
    var single, grown := [(id, lot)], shorts[id := CustodyOfLot(lot)];
    assert before + Assoc.Put(own, id, lot) + after == (before + own) + single + after;
    MatchConcat(before + own, after, shorts);
    MatchElsewhere(before + own, shorts, grown, id);
    MatchElsewhere(after, shorts, grown, id);
    assert LoansMatch(single, grown);
    MatchConcat(before + own, single, grown);
    MatchConcat(before + own + single, after, grown);
    DistinctConcat(before + own, after);
    DistinctConcat(before + own, single);
    DistinctConcat(before + own + single, after);
    HasSingle(id, lot);
    forall key
      ensures Assoc.Has(before + own + single, key) ==> !Assoc.Has(after, key)
    {
      HasConcat(before + own, single, key);
    }
  }

  lemma HasSingle(id: string, lot: Lot)
    ensures forall key :: Assoc.Has([(id, lot)], key) <==> key == id
    ensures Assoc.Distinct([(id, lot)])
  {
    assert [(id, lot)][1..] == [];
  }

  /** A closed lot disappears on both sides. */
  lemma CloseOnBothSides(before: seq<(string, Lot)>, own: seq<(string, Lot)>, after: seq<(string, Lot)>,
                         shorts: map<string, CustodyLot>, id: string)
    requires LoansMatch(before + own + after, shorts) && Assoc.Distinct(before + own + after)
    requires |before + own + after| == |shorts|
    requires Assoc.Has(own, id)
    ensures id in shorts && shorts[id] == CustodyOfLot(Assoc.Get(own, id, NO_LOT))
    ensures var loans, closed := before + Assoc.Delete(own, id) + after, shorts - {id};
            LoansMatch(loans, closed) && Assoc.Distinct(loans) && |loans| == |closed|
  {
    var closed := shorts - {id};
    var rest := Assoc.Delete(own, id);
    MatchConcat(before + own, after, shorts);
    MatchConcat(before, own, shorts);
    MatchedLot(own, shorts, id);
    DistinctConcat(before + own, after);
    DistinctConcat(before, own);
    HasConcat(before, own, id);
    assert !Assoc.Has(before, id) && !Assoc.Has(after, id);
    Assoc.SumDelete(own, id, NO_LOT, CollateralOf);
    Assoc.DistinctDelete(own, id);
    Assoc.HasDelete(own, id, id);
    MatchElsewhere(before, shorts, closed, id);
    MatchElsewhere(after, shorts, closed, id);
    DeleteMatch(own, shorts, id);
    MatchConcat(before, rest, closed);
    MatchConcat(before + rest, after, closed);
    forall key
      ensures Assoc.Has(rest, key) ==> Assoc.Has(own, key)
    {
      Assoc.HasDelete(own, id, key);
    }
    DistinctConcat(before, rest);
    DistinctConcat(before + rest, after);
    forall key
      ensures Assoc.Has(before + rest, key) ==> !Assoc.Has(after, key)
    {
      HasConcat(before, rest, key);
      HasConcat(before, own, key);
    }
    assert shorts.Keys == closed.Keys + {id};
    assert |shorts.Keys| == |closed.Keys| + 1;
  }

  lemma {:induction false} DeleteMatch(own: seq<(string, Lot)>, shorts: map<string, CustodyLot>, id: string)
    requires LoansMatch(own, shorts) && Assoc.Distinct(own)
    ensures LoansMatch(Assoc.Delete(own, id), shorts - {id})
  {
    if own != [] {
      if own[0].0 == id {
        MatchElsewhere(own[1..], shorts, shorts - {id}, id);
      } else {
        DeleteMatch(own[1..], shorts, id);
      }
    }
  }

  // ---------------------------------------------------------------------------------------------
  // Operations

  /** Only cash moves: a deposit, a withdrawal or a payout of the same amount on both sides. */
  lemma CashMovesBoth(l: State, i: nat, b: Book, custody: Custody, next: State)
    requires Twin(l, custody) && i < |l.strategies|
    requires next.strategies == l.strategies[i := b] && next.protocolAccrual == l.protocolAccrual
    requires b.positions == l.strategies[i].positions && b.shorts == l.strategies[i].shorts
    ensures Twin(next, custody.(cash := custody.cash + b.cash - l.strategies[i].cash))
  {
    hide SumCash, SumQuantity, Loans, Assoc.Distinct, LoansMatch, Twin;
    TwinTallies(l, custody);
    TwinTallies(next, custody.(cash := custody.cash + b.cash - l.strategies[i].cash));
    SumCashUpdate(l.strategies, i, b);
    LoansUpdate(l.strategies, i, b);
    forall a
      ensures SumQuantity(next.strategies, a) == SumQuantity(l.strategies, a)
    {
      SumQuantityUpdate(l.strategies, i, b, a);
    }
  }

  /** What a fill physically does to the vault. */
  function MoveCustody(custody: Custody, f: Fill, asset: Asset): Custody {
    match f.side {
      case BUY =>
        custody.(cash := custody.cash - f.quote - f.fee,
                 positions := custody.positions[asset := Held(custody.positions, asset) + f.quantity])
      case SELL =>
        custody.(cash := custody.cash + f.quote - f.fee,
                 positions := custody.positions[asset := Held(custody.positions, asset) - f.quantity])
      case SHORT_OPEN =>
        var margin := if f.collateral.None? then f.quote else f.collateral.value;
        custody.(cash := custody.cash - margin,
                 shorts := custody.shorts[f.lotId := CustodyLot(asset, f.quantity, margin + f.quote - f.fee)])
      case SHORT_CLOSE =>
        if f.lotId in custody.shorts then
          custody.(cash := custody.cash + custody.shorts[f.lotId].escrow - f.quote - f.fee,
                   shorts := custody.shorts - {f.lotId})
        else
          custody
      case UnknownSide => custody
    }
  }

  lemma SpotMovesBoth(l: State, i: nat, b: Book, f: Fill, custody: Custody, next: State)
    requires Twin(l, custody) && i < |l.strategies| && WellFormedFill(f) && (f.side == BUY || f.side == SELL)
    requires Execute(l.strategies[i], f) == Ok(b)
    requires next.strategies == l.strategies[i := b] && next.protocolAccrual == l.protocolAccrual
    ensures Twin(next, MoveCustody(custody, f, f.asset.value))
  {
    hide SumCash, SumQuantity, Loans, Assoc.Distinct, LoansMatch, Quot, Twin;
    TwinTallies(l, custody);
    TwinTallies(next, MoveCustody(custody, f, f.asset.value));
    SumCashUpdate(l.strategies, i, b);
    LoansUpdate(l.strategies, i, b);
    var moved := MoveCustody(custody, f, f.asset.value);
    forall a
      ensures SumQuantity(next.strategies, a) == Held(moved.positions, a)
    {
      SumQuantityUpdate(l.strategies, i, b, a);
    }
  }

  lemma OpenMovesBoth(l: State, i: nat, b: Book, f: Fill, custody: Custody, next: State)
    requires Twin(l, custody) && i < |l.strategies| && WellFormedFill(f) && f.side == SHORT_OPEN
    requires Execute(l.strategies[i], f) == Ok(b)
    requires next.strategies == l.strategies[i := b] && next.protocolAccrual == l.protocolAccrual
    requires f.lotId !in custody.shorts
    ensures Twin(next, MoveCustody(custody, f, f.asset.value))
  {
    hide SumCash, SumQuantity, Loans, Assoc.Distinct, LoansMatch, Assoc.Put, Twin;
    TwinTallies(l, custody);
    TwinTallies(next, MoveCustody(custody, f, f.asset.value));
    var own := l.strategies[i].shorts;
    var before, after := Loans(l.strategies[..i]), Loans(l.strategies[i + 1..]);
    var margin := if f.collateral.None? then f.quote else f.collateral.value;
    var lot := Lot(f.asset.value, f.quantity, margin + f.quote - f.fee, margin, f.quote - f.fee);
    SumCashUpdate(l.strategies, i, b);
    LoansUpdate(l.strategies, i, b);
    assert b.shorts == Assoc.Put(own, f.lotId, lot);
    OpenOnBothSides(before, own, after, custody.shorts, f.lotId, lot);
    forall a
      ensures SumQuantity(next.strategies, a) == SumQuantity(l.strategies, a)
    {
      SumQuantityUpdate(l.strategies, i, b, a);
    }
  }

  lemma CloseMovesBoth(l: State, i: nat, b: Book, f: Fill, custody: Custody, next: State)
    requires Twin(l, custody) && i < |l.strategies| && WellFormedFill(f) && f.side == SHORT_CLOSE
    requires Execute(l.strategies[i], f) == Ok(b)
    requires next.strategies == l.strategies[i := b] && next.protocolAccrual == l.protocolAccrual
    ensures Twin(next, MoveCustody(custody, f, f.asset.value))
  {
    hide SumCash, SumQuantity, Loans, Assoc.Distinct, LoansMatch, Assoc.Delete, Assoc.Get, Assoc.Has, Twin;
    TwinTallies(l, custody);
    TwinTallies(next, MoveCustody(custody, f, f.asset.value));
    var own := l.strategies[i].shorts;
    var before, after := Loans(l.strategies[..i]), Loans(l.strategies[i + 1..]);
    SumCashUpdate(l.strategies, i, b);
    LoansUpdate(l.strategies, i, b);
    CloseOnBothSides(before, own, after, custody.shorts, f.lotId);
    forall a
      ensures SumQuantity(next.strategies, a) == SumQuantity(l.strategies, a)
    {
      SumQuantityUpdate(l.strategies, i, b, a);
    }
  }

  /**
   A fill the ledger accepts, mirrored by custody, leaves custody the twin of the books: asset by asset, lot
   by lot, to the last unit. A new lot must only be new to custody, too.
   */
  lemma FillMovesBoth(l: State, f: Fill, custody: Custody)
    requires Twin(l, custody) && RecordFill(l, f).Ok?
    requires f.side == SHORT_OPEN ==> f.lotId !in custody.shorts
    ensures Twin(RecordFill(l, f).value.state, MoveCustody(custody, f, f.asset.value))
  {
    hide Twin, Execute, MoveCustody, IndexOf;
    var i := IndexOf(l.strategies, f.strategyId);
    var b := Execute(l.strategies[i], f).value;
    var next := RecordFill(l, f).value.state;
    match f.side {
      case BUY => SpotMovesBoth(l, i, b, f, custody, next);
      case SELL => SpotMovesBoth(l, i, b, f, custody, next);
      case SHORT_OPEN => OpenMovesBoth(l, i, b, f, custody, next);
      case SHORT_CLOSE => CloseMovesBoth(l, i, b, f, custody, next);
      case UnknownSide => UnknownNeverExecutes(l.strategies[i], f);
    }
  }

  lemma UnknownNeverExecutes(b: Book, f: Fill)
    requires WellFormedFill(f) && f.side == UnknownSide
    ensures Execute(b, f).Err?
  {
  }

  // ---------------------------------------------------------------------------------------------
  // Other operations, and what reconciliation can say about a twin

  lemma CapitalShape(l: State, op: Op)
    requires (op.OpAllocate? || op.OpRedeem? || op.OpPay?) && Step(l, op).Ok?
    ensures var i, next := IndexOf(l.strategies, op.id), Apply(l, op);
            && i < |l.strategies| == |next.strategies|
            && next.strategies == l.strategies[i := next.strategies[i]]
            && next.protocolAccrual == l.protocolAccrual
            && next.strategies[i].positions == l.strategies[i].positions
            && next.strategies[i].shorts == l.strategies[i].shorts
            && next.strategies[i].cash == l.strategies[i].cash
                 + (if op.OpAllocate? then Step(l, op).value.amount else -Step(l, op).value.amount)
  {
    hide ClaimsOf, Flat, Priced;
  }

  lemma CrystallizeOne(l: State, marks: Marks, id: string, custody: Custody)
    requires SoundState(l) && Twin(l, custody)
    ensures match Crystallize(l, id, marks) {
              case Ok(done) =>
                && SoundState(done.state) && Twin(done.state, custody)
                && |done.state.strategies| == |l.strategies|
                && (forall i :: 0 <= i < |l.strategies| ==>
                      done.state.strategies[i].id == l.strategies[i].id
                      && (Flat(l.strategies[i]) ==> Flat(done.state.strategies[i]))
                      && (l.strategies[i].id == id ==> Flat(done.state.strategies[i])))
              case Err(error) => !IsMismatch(error)
            }
  {
    hide Twin, SoundState, Crystallize, Flat, IsMismatch, BookOf, Paid, OwnMoves, Step;
    CrystallizeNext(l, marks, id);
    if Crystallize(l, id, marks).Ok? {
      var i := IndexOf(l.strategies, id);
      var next := Crystallize(l, id, marks).value.state;
      StepKeeps(l, OpCrystallize(id, marks), id);
      CashMovesBoth(l, i, next.strategies[i], custody, next);
      assert custody.(cash := custody.cash) == custody;
      IdIsUnique(l, id, i);
    }
  }

  lemma IdIsUnique(l: State, id: string, i: nat)
    requires SoundState(l) && i < |l.strategies| && l.strategies[i].id == id
    ensures forall j :: 0 <= j < |l.strategies| && l.strategies[j].id == id ==> j == i
  {
    hide Sound, NoRepeats;
  }

  lemma CrystallizeNext(l: State, marks: Marks, id: string)
    ensures match Crystallize(l, id, marks) {
              case Err(error) => !IsMismatch(error)
              case Ok(done) =>
                var i, next := IndexOf(l.strategies, id), done.state;
                && i < |l.strategies| == |next.strategies|
                && Apply(l, OpCrystallize(id, marks)) == next
                && next.strategies == l.strategies[i := next.strategies[i]]
                && next.protocolAccrual == l.protocolAccrual
                && var a, b := l.strategies[i], next.strategies[i];
                   b.id == a.id == id && b.cash == a.cash && b.positions == a.positions && b.shorts == a.shorts && Flat(b)
            }
  {
    hide Quot, Threshold, Value, Priced;
  }

  /** The errors that would mean custody and books have drifted apart. */
  predicate IsMismatch(error: Error) {
    error in {CashMismatch, QuantityMismatch, LoanCountMismatch, LoanMismatch, ClaimMismatch, EquityMismatch}
  }

  /** On twin custody the reconciliation passes if and only if every asset is priced and every strategy is solvent. */
  lemma TwinReconciles(l: State, custody: Custody, marks: Marks)
    requires SoundState(l) && Twin(l, custody)
    ensures Reconcile(l, custody, marks).Ok? <==> AllListed(marks) && AllSolvent(l.strategies, marks)
  {
    hide SoundState, Reconcile, Mirrors, AllSolvent, AllListed, Loans, Assoc.Distinct;
    ReconcileIff(l, custody, marks);
  }

  /** On twin custody the reconciliation can only fail for a missing price or an insolvent strategy. */
  lemma TwinNeverMismatches(l: State, custody: Custody, marks: Marks)
    requires SoundState(l) && Twin(l, custody)
    ensures Reconcile(l, custody, marks).Err? ==> !IsMismatch(Reconcile(l, custody, marks).error)
  {
    hide SumCash, SumQuantity, Loans, LoansMatch, CustodyLotsValue, AttributeAll, SumEquity, Worth, Held, Sound,
      Assoc.Distinct, Twin;
    TwinTallies(l, custody);
    AttributeErrors(l.strategies, marks);
    AttributeAllIff(l.strategies, marks);
    ReconcileTallies(l, custody, marks);
    assert forall a: Asset :: SumQuantity(l.strategies, a) == Held(custody.positions, a);
    HeldErrors(l, custody, marks);
  }

  lemma HeldErrors(l: State, custody: Custody, marks: Marks)
    requires forall a: Asset :: SumQuantity(l.strategies, a) == Held(custody.positions, a)
    ensures match HeldValue(l, custody, marks) {
              case Ok(_) => AllListed(marks)
              case Err(error) => !IsMismatch(error)
            }
  {
    hide SumQuantity, Held, Worth;
    forall a: Asset
      ensures HeldValue(l, custody, marks).Ok? ==> a in marks
    {
      match a {
        case BTC =>
        case ETH =>
        case MON =>
        case SOL =>
      }
    }
  }

  lemma {:induction false} AttributeErrors(strategies: seq<Book>, marks: Marks)
    requires forall i :: 0 <= i < |strategies| ==> Sound(strategies[i])
    ensures AttributeAll(strategies, marks).Err? ==> !IsMismatch(AttributeAll(strategies, marks).error)
  {
    hide Sound, Value, Priced, IsMismatch;
    if strategies != [] {
      AttributeError(strategies[0], marks);
      AttributeErrors(strategies[1..], marks);
    }
  }

  lemma AttributeError(b: Book, marks: Marks)
    requires Sound(b)
    ensures Attribute(b, marks).Err? ==> !IsMismatch(Attribute(b, marks).error)
  {
    AttributeIff(b, marks);
  }

}
