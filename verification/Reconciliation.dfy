/**
 Reconciling the private books with physical custody (src/sleeves/ledger.js:94-108): the checks in the
 source's order, and the exact condition under which they pass.
 */
module Reconciliation {
  import opened Prelude
  import opened Division
  import opened Claims
  import opened Ledger
  import opened LedgerLaws
  import opened LedgerRuns
  import Assoc

  datatype CustodyLot = CustodyLot(asset: Asset, debt: int, escrow: int)

  /** What the vault physically holds. */
  datatype Custody = Custody(cash: int, positions: map<Asset, int>, shorts: map<string, CustodyLot>)

  datatype Attribution = Attribution(strategyId: string, equity: int, claims: seq<(Party, int)>, providerAccrual: int)

  datatype Report = Report(
    vaultEquity: int, strategyEquity: int, protocolAccrual: int, valuationRounding: int,
    equities: seq<Attribution>)

  function Held(positions: map<Asset, int>, asset: Asset): int {
    if asset in positions then positions[asset] else 0
  }

  function SumCash(strategies: seq<Book>): int {
    if strategies == [] then 0 else strategies[0].cash + SumCash(strategies[1..])
  }

  function SumQuantity(strategies: seq<Book>, asset: Asset): int {
    if strategies == [] then 0
    else PositionOf(strategies[0].positions, asset).quantity + SumQuantity(strategies[1..], asset)
  }

  function Loans(strategies: seq<Book>): seq<(string, Lot)> {
    if strategies == [] then [] else strategies[0].shorts + Loans(strategies[1..])
  }

  function CustodyOfLot(lot: Lot): CustodyLot {
    CustodyLot(lot.asset, lot.debt, lot.escrow)
  }

  predicate LoansMatch(loans: seq<(string, Lot)>, shorts: map<string, CustodyLot>) {
    loans == []
    || (loans[0].0 in shorts && shorts[loans[0].0] == CustodyOfLot(loans[0].1) && LoansMatch(loans[1..], shorts))
  }

  /** The value of all lots as custody reports them. */
  function CustodyLotsValue(loans: seq<(string, Lot)>, shorts: map<string, CustodyLot>, marks: Marks): int
    requires LoansMatch(loans, shorts)
  {
    if loans == [] then 0
    else
      var actual := shorts[loans[0].0];
      actual.escrow - Worth(actual.debt, MarkOf(marks, actual.asset)) + CustodyLotsValue(loans[1..], shorts, marks)
  }

  /** One asset: the held quantity must be the attributed one, and its merged value enters the vault. */
  function ReconcileAsset(l: State, custody: Custody, marks: Marks, asset: Asset): Result<int, Error> {
    var total := SumQuantity(l.strategies, asset);
    :- Need(total == Held(custody.positions, asset), QuantityMismatch);
    :- Need(asset in marks, MissingPrice);
    Ok(Worth(total, marks[asset]))
  }

  function HeldValue(l: State, custody: Custody, marks: Marks): Result<int, Error> {
    var btc :- ReconcileAsset(l, custody, marks, BTC);
    var eth :- ReconcileAsset(l, custody, marks, ETH);
    var mon :- ReconcileAsset(l, custody, marks, MON);
    var sol :- ReconcileAsset(l, custody, marks, SOL);
    Ok(btc + eth + mon + sol)
  }

  function Attribute(b: Book, marks: Marks): Result<Attribution, Error> {
    var equity :- Equity(b, marks);
    var claims :- ClaimsOf(b, marks);
    :- Need(SumEntries(claims) + b.providerAccrual == equity, ClaimMismatch);
    Ok(Attribution(b.id, equity, claims, b.providerAccrual))
  }

  function SumEntries(entries: seq<(Party, int)>): int {
    if entries == [] then 0 else entries[0].1 + SumEntries(entries[1..])
  }

  function AttributeAll(strategies: seq<Book>, marks: Marks): Result<seq<Attribution>, Error> {
    if strategies == [] then Ok([])
    else
      var first :- Attribute(strategies[0], marks);
      var rest :- AttributeAll(strategies[1..], marks);
      Ok([first] + rest)
  }

  function SumEquity(rows: seq<Attribution>): int {
    if rows == [] then 0 else rows[0].equity + SumEquity(rows[1..])
  }

  function RoundingLimit(strategies: nat): int {
    if strategies * 4 > 1 then strategies * 4 else 1
  }

  function Reconcile(l: State, custody: Custody, marks: Marks): Result<Report, Error> {
    var cash := SumCash(l.strategies) + l.protocolAccrual;
    :- Need(cash == custody.cash, CashMismatch);
    var held :- HeldValue(l, custody, marks);
    var loans := Loans(l.strategies);
    :- Need(|loans| == |custody.shorts|, LoanCountMismatch);
    if !LoansMatch(loans, custody.shorts) then Err(LoanMismatch)
    else
      var vault := custody.cash + held + CustodyLotsValue(loans, custody.shorts, marks);
      var equities :- AttributeAll(l.strategies, marks);
      var rounding := vault - (SumEquity(equities) + l.protocolAccrual);
      :- Need(0 <= rounding < RoundingLimit(|l.strategies|), EquityMismatch);
      Ok(Report(vault, SumEquity(equities), l.protocolAccrual + rounding, rounding, equities))
  }

  // ---------------------------------------------------------------------------------------------
  // The condition

  /** The lots the books attribute, by id; of two with one id, the first. */
  function LotMap(loans: seq<(string, Lot)>): map<string, CustodyLot> {
    if loans == [] then map[] else LotMap(loans[1..])[loans[0].0 := CustodyOfLot(loans[0].1)]
  }

  /** Custody holds exactly what the books attribute: cash, every quantity, every lot and no other. */
  ghost predicate Mirrors(l: State, custody: Custody) {
    && SumCash(l.strategies) + l.protocolAccrual == custody.cash
    && (forall a :: SumQuantity(l.strategies, a) == Held(custody.positions, a))
    && custody.shorts == LotMap(Loans(l.strategies))
  }

  /** What the checks compare: as many lots on both sides, and each attributed one as custody reports it. */
  ghost predicate Tallies(l: State, custody: Custody) {
    && SumCash(l.strategies) + l.protocolAccrual == custody.cash
    && (forall a :: SumQuantity(l.strategies, a) == Held(custody.positions, a))
    && |Loans(l.strategies)| == |custody.shorts|
    && LoansMatch(Loans(l.strategies), custody.shorts)
  }

  lemma {:induction false} MatchedIsLotMap(loans: seq<(string, Lot)>, shorts: map<string, CustodyLot>)
    requires LoansMatch(loans, shorts)
    ensures LotMap(loans).Keys <= shorts.Keys && forall id :: id in LotMap(loans) ==> LotMap(loans)[id] == shorts[id]
  {
    if loans != [] {
      MatchedIsLotMap(loans[1..], shorts);
    }
  }

  lemma {:induction false} LotMapKeys(loans: seq<(string, Lot)>)
    ensures forall id :: id in LotMap(loans) <==> Assoc.Has(loans, id)
    ensures |LotMap(loans)| <= |loans|
    ensures |LotMap(loans)| == |loans| <==> Assoc.Distinct(loans)
  {
    if loans != [] {
      LotMapKeys(loans[1..]);
      var rest, id := LotMap(loans[1..]), loans[0].0;
      var lot := CustodyOfLot(loans[0].1);
      if id in rest {
        assert rest[id := lot].Keys == rest.Keys;
      } else {
        assert rest[id := lot].Keys == rest.Keys + {id};
      }
    }
  }

  lemma {:induction false} DistinctMatches(loans: seq<(string, Lot)>, shorts: map<string, CustodyLot>)
    requires Assoc.Distinct(loans)
    requires LotMap(loans).Keys <= shorts.Keys && forall id :: id in LotMap(loans) ==> LotMap(loans)[id] == shorts[id]
    ensures LoansMatch(loans, shorts)
  {
    if loans != [] {
      LotMapKeys(loans[1..]);
      forall id | id in LotMap(loans[1..]) ensures id in LotMap(loans) && LotMap(loans)[id] == LotMap(loans[1..])[id] {
        assert id != loans[0].0;
      }
      DistinctMatches(loans[1..], shorts);
    }
  }

  lemma SameSizeSameMap<K, V>(a: map<K, V>, b: map<K, V>)
    requires |a| == |b| && forall k :: k in a ==> k in b && a[k] == b[k]
    ensures a == b
  {
    assert b.Keys == a.Keys + (b.Keys - a.Keys);
    assert |b.Keys| == |a.Keys| + |b.Keys - a.Keys|;
    assert |a.Keys| == |a| && |b.Keys| == |b|;
    assert a.Keys == b.Keys;
  }

  /** While no lot id is in two strategies, the checks find exactly the custody that mirrors the books. */
  lemma MirrorsTally(l: State, custody: Custody)
    requires Assoc.Distinct(Loans(l.strategies))
    ensures Mirrors(l, custody) <==> Tallies(l, custody)
  {
    hide SumCash, SumQuantity, Held, Loans, LoansMatch, LotMap, Assoc.Distinct;
    var loans := Loans(l.strategies);
    LotMapKeys(loans);
    if Tallies(l, custody) {
      MatchedIsLotMap(loans, custody.shorts);
      SameSizeSameMap(LotMap(loans), custody.shorts);
    } else if Mirrors(l, custody) {
      DistinctMatches(loans, custody.shorts);
    }
  }

  ghost predicate AllListed(marks: Marks) {
    forall a: Asset :: a in marks
  }

  /** The strategy can bear its own losses: the investors' pool is not negative at these prices. */
  ghost predicate Solvent(b: Book, marks: Marks) {
    Priced(b, marks) && Value(b, marks) >= b.providerAccrual
  }

  ghost predicate AllSolvent(strategies: seq<Book>, marks: Marks) {
    forall i :: 0 <= i < |strategies| ==> Solvent(strategies[i], marks)
  }

  lemma {:induction false} SumEntriesIsSum(entries: seq<(Party, int)>)
    ensures SumEntries(entries) == Assoc.Sum(entries, AmountOf)
  {
    if entries != [] {
      SumEntriesIsSum(entries[1..]);
    }
  }

  /** A sound strategy is attributed exactly when it is solvent: its claims never fail to add up. */
  lemma AttributeIff(b: Book, marks: Marks)
    requires Sound(b)
    ensures Attribute(b, marks).Ok? <==> Solvent(b, marks)
    ensures Solvent(b, marks) ==> Attribute(b, marks).value.equity == Value(b, marks)
  {
    if Solvent(b, marks) {
      var pool := Value(b, marks) - b.providerAccrual;
      if b.units > 0 {
        RegisterOf(b, pool);
        ClaimsSumToPool(pool, b.units, b.investors);
        SumEntriesIsSum(ShareOut(pool, b.units, b.investors));
      } else {
        FlatValue(b, marks);
      }
    }
  }

  ghost function SumValue(strategies: seq<Book>, marks: Marks): int {
    if strategies == [] then 0 else Value(strategies[0], marks) + SumValue(strategies[1..], marks)
  }

  lemma {:induction false} AttributeAllIff(strategies: seq<Book>, marks: Marks)
    requires forall i :: 0 <= i < |strategies| ==> Sound(strategies[i])
    ensures AttributeAll(strategies, marks).Ok? <==> AllSolvent(strategies, marks)
    ensures AllSolvent(strategies, marks) ==>
      SumEquity(AttributeAll(strategies, marks).value) == SumValue(strategies, marks)
  {
    hide Sound, Solvent, Attribute, Value;
    if strategies != [] {
      AttributeIff(strategies[0], marks);
      AttributeAllIff(strategies[1..], marks);
      assert AllSolvent(strategies, marks) <==> Solvent(strategies[0], marks) && AllSolvent(strategies[1..], marks) by {
        assert forall i :: 0 <= i < |strategies[1..]| ==> strategies[1..][i] == strategies[i + 1];
        assert forall i :: 0 < i < |strategies| ==> strategies[i] == strategies[1..][i - 1];
      }
      if AllSolvent(strategies, marks) {
        var rest := AttributeAll(strategies[1..], marks).value;
        assert ([Attribute(strategies[0], marks).value] + rest)[1..] == rest;
      }
    }
  }

  // ---------------------------------------------------------------------------------------------
  // Rounding

  ghost function SumPositionValue(strategies: seq<Book>, marks: Marks, asset: Asset): int {
    if strategies == [] then 0
    else PositionValue(strategies[0].positions, marks, asset) + SumPositionValue(strategies[1..], marks, asset)
  }

  lemma MergedWorth(x: int, y: int, mark: int)
    requires x >= 0 && y >= 0 && mark >= 0
    ensures 0 <= Worth(x + y, mark) - Worth(x, mark) - Worth(y, mark) <= 1
  {
    MulMonotone(x, 0, mark);
    MulMonotone(y, 0, mark);
    assert (x + y) * mark == x * mark + y * mark;
  }

  /** Valuing merged quantities loses at most one base unit less per strategy after the first. */
  lemma {:induction false} AssetRounding(strategies: seq<Book>, marks: Marks, asset: Asset)
    requires forall i :: 0 <= i < |strategies| ==> Sound(strategies[i]) && Priced(strategies[i], marks)
    ensures var slack := Worth(SumQuantity(strategies, asset), MarkOf(marks, asset))
                         - SumPositionValue(strategies, marks, asset);
            0 <= slack <= if strategies == [] then 0 else |strategies| - 1
    ensures SumQuantity(strategies, asset) >= 0
    ensures SumQuantity(strategies, asset) > 0 ==> MarkOf(marks, asset) > 0
  {
    var mark := MarkOf(marks, asset);
    NoWorth(mark);
    if strategies != [] {
      AssetRounding(strategies[1..], marks, asset);
      var q, rest := PositionOf(strategies[0].positions, asset).quantity, SumQuantity(strategies[1..], asset);
      assert Sound(strategies[0]) && Priced(strategies[0], marks);
      assert q >= 0 && (q > 0 ==> mark > 0);
      assert PositionValue(strategies[0].positions, marks, asset) == Worth(q, mark);
      if mark >= 0 {
        MergedWorth(q, rest, mark);
      }
      if |strategies| == 1 {
        assert strategies[1..] == [];
        assert q + rest == q;
      }
    }
  }

  lemma NoWorth(mark: int)
    ensures Worth(0, mark) == 0
  {
  }

  lemma {:induction false} LotsValueAppend(a: seq<(string, Lot)>, b: seq<(string, Lot)>, marks: Marks)
    ensures LotsValue(a + b, marks) == LotsValue(a, marks) + LotsValue(b, marks)
  {
    if a == [] {
      assert a + b == b;
    } else {
      assert (a + b)[1..] == a[1..] + b;
      LotsValueAppend(a[1..], b, marks);
    }
  }

  lemma {:induction false} SumValueSplits(strategies: seq<Book>, marks: Marks)
    ensures SumValue(strategies, marks) ==
            SumCash(strategies)
            + SumPositionValue(strategies, marks, BTC) + SumPositionValue(strategies, marks, ETH)
            + SumPositionValue(strategies, marks, MON) + SumPositionValue(strategies, marks, SOL)
            + LotsValue(Loans(strategies), marks)
  {
    hide PositionValue;
    if strategies != [] {
      SumValueSplits(strategies[1..], marks);
      LotsValueAppend(strategies[0].shorts, Loans(strategies[1..]), marks);
    }
  }

  lemma {:induction false} MatchedLotsValue(loans: seq<(string, Lot)>, shorts: map<string, CustodyLot>, marks: Marks)
    requires LoansMatch(loans, shorts)
    ensures CustodyLotsValue(loans, shorts, marks) == LotsValue(loans, marks)
  {
    if loans != [] {
      MatchedLotsValue(loans[1..], shorts, marks);
    }
  }

  /** What the vault is worth when the quantities of all strategies are valued together. */
  ghost function MergedValue(l: State, marks: Marks): int {
    SumCash(l.strategies) + l.protocolAccrual
    + Worth(SumQuantity(l.strategies, BTC), MarkOf(marks, BTC))
    + Worth(SumQuantity(l.strategies, ETH), MarkOf(marks, ETH))
    + Worth(SumQuantity(l.strategies, MON), MarkOf(marks, MON))
    + Worth(SumQuantity(l.strategies, SOL), MarkOf(marks, SOL))
    + LotsValue(Loans(l.strategies), marks)
  }

  /**
   The exact rounding bound: merged valuation exceeds attributed valuation by at most one base unit per asset
   and per strategy beyond the first, and never falls below it.
   */
  lemma RoundingBound(l: State, marks: Marks)
    requires forall i :: 0 <= i < |l.strategies| ==> Sound(l.strategies[i]) && Priced(l.strategies[i], marks)
    ensures 0 <= MergedValue(l, marks) - (SumValue(l.strategies, marks) + l.protocolAccrual)
              <= if l.strategies == [] then 0 else 4 * (|l.strategies| - 1)
  {
    hide Sound, Priced, Worth, SumQuantity, SumPositionValue, Loans, SumCash, SumValue;
    SumValueSplits(l.strategies, marks);
    AssetRounding(l.strategies, marks, BTC);
    AssetRounding(l.strategies, marks, ETH);
    AssetRounding(l.strategies, marks, MON);
    AssetRounding(l.strategies, marks, SOL);
  }

  // ---------------------------------------------------------------------------------------------
  // Exactly when reconciliation passes

  /**
   Reconciliation passes if and only if cash, quantities and lots tally, every asset is priced, and every strategy
   can bear its own losses. The checks on claims and on the rounding of the vault value never decide.
   */
  lemma ReconcileTallies(l: State, custody: Custody, marks: Marks)
    requires SoundState(l)
    ensures Reconcile(l, custody, marks).Ok? <==>
            Tallies(l, custody) && AllListed(marks) && AllSolvent(l.strategies, marks)
    ensures Reconcile(l, custody, marks).Ok? ==>
      var r := Reconcile(l, custody, marks).value;
      && 0 <= r.valuationRounding <= (if l.strategies == [] then 0 else 4 * (|l.strategies| - 1))
      && r.vaultEquity == r.strategyEquity + r.protocolAccrual == MergedValue(l, marks)
  {
    AttributeAllIff(l.strategies, marks);
    AssetsIff(l, custody, marks);
    if Tallies(l, custody) && AllListed(marks) && AllSolvent(l.strategies, marks) {
      SolventPriced(l.strategies, marks);
      RoundingBound(l, marks);
      MatchedLotsValue(Loans(l.strategies), custody.shorts, marks);
      Passes(l, custody, marks);
    } else if Reconcile(l, custody, marks).Ok? {
      PassedChecks(l, custody, marks);
      assert false;
    }
  }

  /**
   While no lot id is in two strategies: reconciliation passes if and only if custody holds exactly what the books
   attribute, every asset is priced, and every strategy can bear its own losses.
   */
  lemma ReconcileIff(l: State, custody: Custody, marks: Marks)
    requires SoundState(l) && Assoc.Distinct(Loans(l.strategies))
    ensures Reconcile(l, custody, marks).Ok? <==>
            Mirrors(l, custody) && AllListed(marks) && AllSolvent(l.strategies, marks)
  {
    hide SoundState, Reconcile, Mirrors, Tallies, AllSolvent, AllListed, Loans, Assoc.Distinct;
    MirrorsTally(l, custody);
    ReconcileTallies(l, custody, marks);
  }

  /**
   What a passing reconciliation says of the lots in general: custody holds the attributed lots and no others if and
   only if no lot id is in two strategies. Fills are checked against one strategy only, so nothing else prevents it.
   */
  lemma PassedLotsAreExact(l: State, custody: Custody, marks: Marks)
    requires Reconcile(l, custody, marks).Ok?
    ensures custody.shorts == LotMap(Loans(l.strategies)) <==> Assoc.Distinct(Loans(l.strategies))
  {
    hide SumCash, SumQuantity, Held, Loans, LoansMatch, LotMap, Assoc.Distinct, Reconcile, AttributeAll;
    var loans := Loans(l.strategies);
    PassedChecks(l, custody, marks);
    LotMapKeys(loans);
    MatchedIsLotMap(loans, custody.shorts);
    if Assoc.Distinct(loans) {
      SameSizeSameMap(LotMap(loans), custody.shorts);
    }
  }

  lemma SolventPriced(strategies: seq<Book>, marks: Marks)
    requires AllSolvent(strategies, marks)
    ensures forall i :: 0 <= i < |strategies| ==> Priced(strategies[i], marks)
  {
  }

  lemma AssetsIff(l: State, custody: Custody, marks: Marks)
    ensures (forall a :: ReconcileAsset(l, custody, marks, a).Ok?) <==>
            (forall a :: SumQuantity(l.strategies, a) == Held(custody.positions, a)) && AllListed(marks)
  {
    forall a
      ensures ReconcileAsset(l, custody, marks, a).Ok? <==>
              SumQuantity(l.strategies, a) == Held(custody.positions, a) && a in marks
    {
    }
  }

  lemma PassedChecks(l: State, custody: Custody, marks: Marks)
    requires Reconcile(l, custody, marks).Ok?
    ensures Tallies(l, custody) && AllListed(marks)
    ensures AttributeAll(l.strategies, marks).Ok?
  {
    hide SumCash, SumQuantity, Loans, LoansMatch, CustodyLotsValue, AttributeAll, SumEquity, Worth, Held;
    forall a
      ensures SumQuantity(l.strategies, a) == Held(custody.positions, a) && a in marks
    {
      match a {
        case BTC =>
        case ETH =>
        case MON =>
        case SOL =>
      }
    }
  }

  lemma Passes(l: State, custody: Custody, marks: Marks)
    requires Tallies(l, custody) && AllListed(marks) && AttributeAll(l.strategies, marks).Ok?
    requires SumEquity(AttributeAll(l.strategies, marks).value) == SumValue(l.strategies, marks)
    requires CustodyLotsValue(Loans(l.strategies), custody.shorts, marks) == LotsValue(Loans(l.strategies), marks)
    requires 0 <= MergedValue(l, marks) - (SumValue(l.strategies, marks) + l.protocolAccrual)
               <= if l.strategies == [] then 0 else 4 * (|l.strategies| - 1)
    ensures Reconcile(l, custody, marks).Ok?
    ensures var r := Reconcile(l, custody, marks).value;
            && r.valuationRounding == MergedValue(l, marks) - (SumValue(l.strategies, marks) + l.protocolAccrual)
            && r.vaultEquity == r.strategyEquity + r.protocolAccrual == MergedValue(l, marks)
  {
    hide SumCash, SumQuantity, Loans, LoansMatch, CustodyLotsValue, AttributeAll, SumEquity, Worth, Held, SumValue,
      LotsValue;
    assert forall a: Asset :: a in marks && SumQuantity(l.strategies, a) == Held(custody.positions, a);
  }
}
