/**
 Largest-remainder shares (src/sleeves/ledger.js:32-41): every holder first gets the floor of the exact
 pro-rata share, then the units that are left over go, one each, to the largest remainders.
 */
module Claims {
  import opened Division
  import Assoc

  /**
   A person's name, represented by its rank in the collation order the ties are broken by: `<` is
   `localeCompare`, and 0 is the empty name, which no investor or provider may have.
   */
  type Party = nat

  datatype Row = Row(owner: Party, amount: int, remainder: int)

  /** The owners with a positive number of units. */
  function Holders(investors: seq<(Party, int)>): seq<(Party, int)> {
    if investors == [] then []
    else if investors[0].1 > 0 then [investors[0]] + Holders(investors[1..])
    else Holders(investors[1..])
  }

  function RowOf(pool: int, total: int, holder: (Party, int)): Row
    requires total != 0
  {
    Row(holder.0, Quot(pool * holder.1, total), Rem(pool * holder.1, total))
  }

  function Rows(pool: int, total: int, holders: seq<(Party, int)>): seq<Row>
    requires total != 0
  {
    if holders == [] then []
    else [RowOf(pool, total, holders[0])] + Rows(pool, total, holders[1..])
  }

  /** The sort order of the rows: larger remainders first, ties by name. */
  predicate Before(a: Row, b: Row) {
    a.remainder > b.remainder || (a.remainder == b.remainder && a.owner <= b.owner)
  }

  function Insert(row: Row, rows: seq<Row>): seq<Row> {
    if rows == [] || Before(row, rows[0]) then [row] + rows
    else [rows[0]] + Insert(row, rows[1..])
  }

  function Sort(rows: seq<Row>): seq<Row> {
    if rows == [] then [] else Insert(rows[0], Sort(rows[1..]))
  }

  function SumAmounts(rows: seq<Row>): int {
    if rows == [] then 0 else rows[0].amount + SumAmounts(rows[1..])
  }

  ghost function SumRemainders(rows: seq<Row>): int {
    if rows == [] then 0 else rows[0].remainder + SumRemainders(rows[1..])
  }

  /** One extra unit for each row from the front while any dust is left. */
  function HandOut(rows: seq<Row>, dust: int): seq<Row> {
    if rows == [] then []
    else if dust > 0 then [rows[0].(amount := rows[0].amount + 1)] + HandOut(rows[1..], dust - 1)
    else [rows[0]] + HandOut(rows[1..], dust)
  }

  function Entries(rows: seq<Row>): seq<(Party, int)> {
    if rows == [] then [] else [(rows[0].owner, rows[0].amount)] + Entries(rows[1..])
  }

  /** The rows in sort order, before any dust is handed out. */
  function Ranking(pool: int, total: int, investors: seq<(Party, int)>): seq<Row>
    requires total != 0
  {
    Sort(Rows(pool, total, Holders(investors)))
  }

  function Dust(pool: int, total: int, investors: seq<(Party, int)>): int
    requires total != 0
  {
    pool - SumAmounts(Rows(pool, total, Holders(investors)))
  }

  /** The claims of all holders on a pool of base units. */
  function ShareOut(pool: int, total: int, investors: seq<(Party, int)>): seq<(Party, int)>
    requires total != 0
  {
    Entries(HandOut(Ranking(pool, total, investors), Dust(pool, total, investors)))
  }

  function AmountOf(owner: Party, amount: int): int {
    amount
  }

  // ---------------------------------------------------------------------------------------------
  // What a pool and a register of units must satisfy: the sum of the register is the unit supply.

  ghost predicate Register(pool: int, total: int, investors: seq<(Party, int)>) {
    && pool >= 0 && total > 0
    && Assoc.Distinct(investors)
    && (forall i :: 0 <= i < |investors| ==> investors[i].1 >= 0)
    && Assoc.Sum(investors, AmountOf) == total
  }

  /** The exact share, rounded down, and what is lost by rounding. */
  ghost predicate RoundedDown(row: Row, pool: int, total: int, units: int)
    requires total > 0
  {
    row.amount * total + row.remainder == pool * units && 0 <= row.remainder < total
  }

  lemma RowOfRounds(pool: int, total: int, holder: (Party, int))
    requires pool >= 0 && total > 0 && holder.1 >= 0
    ensures RoundedDown(RowOf(pool, total, holder), pool, total, holder.1)
  {
    assert pool * holder.1 >= 0;
  }

  lemma {:induction false} HoldersKeep(investors: seq<(Party, int)>)
    requires forall i :: 0 <= i < |investors| ==> investors[i].1 >= 0
    ensures Assoc.Sum(Holders(investors), AmountOf) == Assoc.Sum(investors, AmountOf)
    ensures forall i :: 0 <= i < |Holders(investors)| ==> Holders(investors)[i].1 > 0
  {
    if investors != [] {
      HoldersKeep(investors[1..]);
      assert investors[0].1 > 0 ==> Holders(investors)[1..] == Holders(investors[1..]);
    }
  }

  lemma {:induction false} HoldersHas(investors: seq<(Party, int)>, owner: Party)
    requires Assoc.Distinct(investors)
    ensures Assoc.Has(Holders(investors), owner) <==>
            Assoc.Has(investors, owner) && Assoc.Get(investors, owner, 0) > 0
    ensures Assoc.Has(Holders(investors), owner) ==>
            Assoc.Get(Holders(investors), owner, 0) == Assoc.Get(investors, owner, 0)
  {
    if investors != [] {
      HoldersHas(investors[1..], owner);
      assert investors[0].1 > 0 ==> Holders(investors)[1..] == Holders(investors[1..]);
    }
  }

  lemma {:induction false} HoldersDistinct(investors: seq<(Party, int)>)
    requires Assoc.Distinct(investors)
    ensures Assoc.Distinct(Holders(investors))
  {
    if investors != [] {
      HoldersDistinct(investors[1..]);
      HoldersHas(investors[1..], investors[0].0);
      assert investors[0].1 > 0 ==> Holders(investors)[1..] == Holders(investors[1..]);
    }
  }

  lemma {:induction false} RowsAt(pool: int, total: int, holders: seq<(Party, int)>)
    requires total != 0
    ensures |Rows(pool, total, holders)| == |holders|
    ensures forall i :: 0 <= i < |holders| ==> Rows(pool, total, holders)[i] == RowOf(pool, total, holders[i])
  {
    if holders != [] {
      RowsAt(pool, total, holders[1..]);
    }
  }

  lemma {:induction false} RowsBalance(pool: int, total: int, holders: seq<(Party, int)>)
    requires pool >= 0 && total > 0
    requires forall i :: 0 <= i < |holders| ==> holders[i].1 > 0
    ensures var rows := Rows(pool, total, holders);
            SumAmounts(rows) * total + SumRemainders(rows) == pool * Assoc.Sum(holders, AmountOf)
  {
    if holders != [] {
      var row, rest := RowOf(pool, total, holders[0]), Rows(pool, total, holders[1..]);
      RowOfRounds(pool, total, holders[0]);
      RowsBalance(pool, total, holders[1..]);
      assert Rows(pool, total, holders)[1..] == rest;
      AddRow(row.amount, row.remainder, holders[0].1, SumAmounts(rest), SumRemainders(rest),
             Assoc.Sum(holders[1..], AmountOf), pool, total);
    }
  }

  lemma AddRow(amount: int, remainder: int, units: int, amounts: int, remainders: int, others: int,
               pool: int, total: int)
    requires amount * total + remainder == pool * units
    requires amounts * total + remainders == pool * others
    ensures (amount + amounts) * total + (remainder + remainders) == pool * (units + others)
  {
  }

  // ---------------------------------------------------------------------------------------------
  // Sorting

  lemma {:induction false} InsertKeeps(row: Row, rows: seq<Row>)
    ensures multiset(Insert(row, rows)) == multiset([row]) + multiset(rows)
    ensures SumAmounts(Insert(row, rows)) == row.amount + SumAmounts(rows)
    ensures SumRemainders(Insert(row, rows)) == row.remainder + SumRemainders(rows)
    ensures |Insert(row, rows)| == |rows| + 1
  {
    if rows == [] || Before(row, rows[0]) {
      assert ([row] + rows)[1..] == rows;
    } else {
      InsertKeeps(row, rows[1..]);
      assert rows == [rows[0]] + rows[1..];
      assert Insert(row, rows)[1..] == Insert(row, rows[1..]);
    }
  }

  ghost predicate Ordered(rows: seq<Row>) {
    forall i, j :: 0 <= i < j < |rows| ==> Before(rows[i], rows[j])
  }

  lemma {:induction false} InsertOrdered(row: Row, rows: seq<Row>)
    requires Ordered(rows)
    ensures Ordered(Insert(row, rows))
  {
    if rows != [] && !Before(row, rows[0]) {
      InsertOrdered(row, rows[1..]);
      InsertKeeps(row, rows[1..]);
      var rest := Insert(row, rows[1..]);
      forall j | 0 <= j < |rest|
        ensures Before(rows[0], rest[j])
      {
        assert rest[j] in multiset(rest);
        assert rest[j] == row || rest[j] in rows[1..];
      }
    }
  }

  lemma {:induction false} SortSorts(rows: seq<Row>)
    ensures Ordered(Sort(rows))
    ensures multiset(Sort(rows)) == multiset(rows)
    ensures SumAmounts(Sort(rows)) == SumAmounts(rows)
    ensures SumRemainders(Sort(rows)) == SumRemainders(rows)
    ensures |Sort(rows)| == |rows|
  {
    if rows != [] {
      SortSorts(rows[1..]);
      InsertOrdered(rows[0], Sort(rows[1..]));
      InsertKeeps(rows[0], Sort(rows[1..]));
      assert rows == [rows[0]] + rows[1..];
    }
  }

  ghost predicate NamesDiffer(rows: seq<Row>) {
    forall i, j :: 0 <= i < j < |rows| ==> rows[i].owner != rows[j].owner
  }

  lemma {:induction false} SortNamesDiffer(rows: seq<Row>)
    requires NamesDiffer(rows)
    ensures NamesDiffer(Sort(rows))
  {
    if rows != [] {
      var sorted := Sort(rows[1..]);
      SortNamesDiffer(rows[1..]);
      SortSorts(rows[1..]);
      forall j | 0 <= j < |sorted|
        ensures sorted[j].owner != rows[0].owner
      {
        assert sorted[j] in multiset(rows[1..]);
      }
      InsertNamesDiffer(rows[0], sorted);
    }
  }

  lemma {:induction false} InsertNamesDiffer(row: Row, rows: seq<Row>)
    requires NamesDiffer(rows)
    requires forall j :: 0 <= j < |rows| ==> rows[j].owner != row.owner
    ensures NamesDiffer(Insert(row, rows))
  {
    if rows != [] && !Before(row, rows[0]) {
      InsertNamesDiffer(row, rows[1..]);
      InsertKeeps(row, rows[1..]);
      var rest := Insert(row, rows[1..]);
      forall j | 0 <= j < |rest|
        ensures rows[0].owner != rest[j].owner
      {
        assert rest[j] in multiset(rest);
        assert rest[j] == row || rest[j] in rows[1..];
      }
    }
  }

  // ---------------------------------------------------------------------------------------------
  // Handing out the dust

  lemma {:induction false} HandOutAt(rows: seq<Row>, dust: int)
    ensures |HandOut(rows, dust)| == |rows|
    ensures forall i :: 0 <= i < |rows| ==>
      HandOut(rows, dust)[i] == rows[i].(amount := rows[i].amount + if i < dust then 1 else 0)
    ensures 0 <= dust <= |rows| ==> SumAmounts(HandOut(rows, dust)) == SumAmounts(rows) + dust
  {
    if rows != [] {
      var d := if dust > 0 then dust - 1 else dust;
      HandOutAt(rows[1..], d);
      assert HandOut(rows, dust)[1..] == HandOut(rows[1..], d);
    }
  }

  lemma {:induction false} EntriesAt(rows: seq<Row>)
    ensures |Entries(rows)| == |rows|
    ensures forall i :: 0 <= i < |rows| ==> Entries(rows)[i] == (rows[i].owner, rows[i].amount)
    ensures Assoc.Sum(Entries(rows), AmountOf) == SumAmounts(rows)
  {
    if rows != [] {
      EntriesAt(rows[1..]);
      assert Entries(rows)[1..] == Entries(rows[1..]);
    }
  }

  /** Rows at and after `k` lost nothing, so the total loss comes from the first `k` rows. */
  lemma {:induction false} LossBound(rows: seq<Row>, total: int, k: nat)
    requires total > 0 && k <= |rows|
    requires forall i :: 0 <= i < |rows| ==> 0 <= rows[i].remainder < total
    requires forall i :: k <= i < |rows| ==> rows[i].remainder == 0
    ensures 0 <= SumRemainders(rows) <= k * (total - 1)
  {
    if rows != [] {
      if k == 0 {
        LossBound(rows[1..], total, 0);
      } else {
        LossBound(rows[1..], total, k - 1);
        assert k * (total - 1) == (k - 1) * (total - 1) + (total - 1);
      }
    }
  }

  /** All that is known of the ranking: each holder has one row, it is rounded down, rows are in order. */
  lemma RankingFacts(pool: int, total: int, investors: seq<(Party, int)>)
    requires Register(pool, total, investors)
    ensures var ranking, dust := Ranking(pool, total, investors), Dust(pool, total, investors);
            && Ordered(ranking)
            && SumAmounts(ranking) == pool - dust
            && SumRemainders(ranking) == dust * total
            && (forall i :: 0 <= i < |ranking| ==> 0 <= ranking[i].remainder < total)
            && multiset(ranking) == multiset(Rows(pool, total, Holders(investors)))
  {
    var holders := Holders(investors);
    var rows := Rows(pool, total, holders);
    HoldersKeep(investors);
    RowsBalance(pool, total, holders);
    SortSorts(rows);
    RowsAt(pool, total, holders);
    var ranking, dust := Ranking(pool, total, investors), Dust(pool, total, investors);
    DustIsLoss(pool, SumAmounts(rows), SumRemainders(rows), total);
    forall i | 0 <= i < |ranking|
      ensures 0 <= ranking[i].remainder < total
    {
      assert ranking[i] in multiset(rows);
      var j :| 0 <= j < |rows| && rows[j] == ranking[i];
      RowOfRounds(pool, total, holders[j]);
    }
  }

  lemma DustIsLoss(pool: int, amounts: int, remainders: int, total: int)
    requires amounts * total + remainders == pool * total
    ensures remainders == (pool - amounts) * total
  {
  }

  /** There is a row for every leftover unit, and each of those rows did lose something. */
  lemma DustIsCovered(pool: int, total: int, investors: seq<(Party, int)>)
    requires Register(pool, total, investors)
    ensures var ranking, dust := Ranking(pool, total, investors), Dust(pool, total, investors);
            && 0 <= dust <= |ranking|
            && forall i :: 0 <= i < dust ==> ranking[i].remainder > 0
  {
    RankingFacts(pool, total, investors);
    var ranking, dust := Ranking(pool, total, investors), Dust(pool, total, investors);
    LossBound(ranking, total, |ranking|);
    CancelTotal(dust, |ranking|, total);
    forall i | 0 <= i < dust
      ensures ranking[i].remainder > 0
    {
      if ranking[i].remainder == 0 {
        LossBound(ranking, total, i);
        CancelTotal(dust, i, total);
        assert false;
      }
    }
  }

  lemma CancelTotal(dust: int, k: nat, total: int)
    requires total > 0
    requires 0 <= dust * total <= k * (total - 1)
    ensures 0 <= dust <= k
  {
    assert k * (total - 1) == k * total - k;
    if dust < 0 {
      MulMonotone(total, dust, -1);
    } else if dust > k {
      MulMonotone(total, k + 1, dust);
    }
  }

  lemma {:induction false} EntriesDistinct(rows: seq<Row>)
    requires NamesDiffer(rows)
    ensures Assoc.Distinct(Entries(rows))
  {
    if rows != [] {
      EntriesDistinct(rows[1..]);
      assert Entries(rows)[1..] == Entries(rows[1..]);
      if Assoc.Has(Entries(rows[1..]), rows[0].owner) {
        EntriesAt(rows[1..]);
        var i := Assoc.IndexOf(Entries(rows[1..]), rows[0].owner);
        assert false;
      }
    }
  }

  lemma ShareOutDistinct(pool: int, total: int, investors: seq<(Party, int)>)
    requires Register(pool, total, investors)
    ensures Assoc.Distinct(ShareOut(pool, total, investors))
  {
    var holders := Holders(investors);
    var rows := Rows(pool, total, holders);
    HoldersDistinct(investors);
    RowsAt(pool, total, holders);
    forall i, j | 0 <= i < j < |rows|
      ensures rows[i].owner != rows[j].owner
    {
      Assoc.DistinctAt(holders, i, j);
    }
    SortNamesDiffer(rows);
    HandOutAt(Ranking(pool, total, investors), Dust(pool, total, investors));
    EntriesDistinct(HandOut(Ranking(pool, total, investors), Dust(pool, total, investors)));
  }

  /** Where an owner stands in the ranking. */
  lemma PlaceOf(pool: int, total: int, investors: seq<(Party, int)>, owner: Party) returns (place: nat)
    requires Register(pool, total, investors)
    requires Assoc.Get(investors, owner, 0) > 0
    ensures var ranking := Ranking(pool, total, investors);
            && place < |ranking|
            && ranking[place].owner == owner
            && RoundedDown(ranking[place], pool, total, Assoc.Get(investors, owner, 0))
  {
    hide Ranking, Dust, Holders, Rows, RowOf, SumAmounts, SumRemainders, Ordered;
    var holders := Holders(investors);
    HasWhenPositive(investors, owner);
    RegisterHolders(pool, total, investors, owner);
    var h := Assoc.IndexOf(holders, owner);
    assert holders[h].1 == Assoc.Get(holders, owner, 0);
    RowsAt(pool, total, holders);
    RowOfRounds(pool, total, holders[h]);
    RowOfOwner(pool, total, holders[h]);
    RankingFacts(pool, total, investors);
    var ranking := Ranking(pool, total, investors);
    assert Rows(pool, total, holders)[h] in multiset(ranking);
    place :| 0 <= place < |ranking| && ranking[place] == RowOf(pool, total, holders[h]);
  }

  lemma RowOfOwner(pool: int, total: int, holder: (Party, int))
    requires total != 0
    ensures RowOf(pool, total, holder).owner == holder.0
  {
  }

  lemma RegisterHolders(pool: int, total: int, investors: seq<(Party, int)>, owner: Party)
    requires Register(pool, total, investors)
    requires Assoc.Get(investors, owner, 0) > 0
    ensures Assoc.Has(Holders(investors), owner)
    ensures forall d :: Assoc.Get(Holders(investors), owner, d) == Assoc.Get(investors, owner, 0)
    ensures pool >= 0 && total > 0
  {
    HasWhenPositive(investors, owner);
    HoldersHas(investors, owner);
    var h := Assoc.IndexOf(Holders(investors), owner);
  }

  /** The claim of one owner: its place in the ranking decides whether it gets one of the leftover units. */
  lemma ClaimAt(pool: int, total: int, investors: seq<(Party, int)>, owner: Party) returns (place: nat)
    requires Register(pool, total, investors)
    requires Assoc.Get(investors, owner, 0) > 0
    ensures var ranking, dust := Ranking(pool, total, investors), Dust(pool, total, investors);
            var claims := ShareOut(pool, total, investors);
            && place < |ranking| == |claims|
            && ranking[place].owner == owner
            && RoundedDown(ranking[place], pool, total, Assoc.Get(investors, owner, 0))
            && claims[place] == (owner, ranking[place].amount + if place < dust then 1 else 0)
            && Assoc.Get(claims, owner, 0) == claims[place].1
  {
    hide Ranking, Dust, HandOut, Entries, RoundedDown;
    place := PlaceOf(pool, total, investors, owner);
    var ranking, dust := Ranking(pool, total, investors), Dust(pool, total, investors);
    HandOutAt(ranking, dust);
    EntriesAt(HandOut(ranking, dust));
    ShareOutDistinct(pool, total, investors);
    Assoc.HasAt(ShareOut(pool, total, investors), place);
  }

  lemma {:induction false} HasWhenPositive(investors: seq<(Party, int)>, owner: Party)
    requires Assoc.Get(investors, owner, 0) > 0
    ensures Assoc.Has(investors, owner)
  {
    if investors[0].0 != owner {
      HasWhenPositive(investors[1..], owner);
    }
  }

  // ---------------------------------------------------------------------------------------------
  // The laws of the method of largest remainders

  /** The claims add up to the pool exactly: no base unit is created or lost. */
  lemma ClaimsSumToPool(pool: int, total: int, investors: seq<(Party, int)>)
    requires Register(pool, total, investors)
    ensures Assoc.Sum(ShareOut(pool, total, investors), AmountOf) == pool
  {
    var ranking, dust := Ranking(pool, total, investors), Dust(pool, total, investors);
    RankingFacts(pool, total, investors);
    DustIsCovered(pool, total, investors);
    HandOutAt(ranking, dust);
    EntriesAt(HandOut(ranking, dust));
  }

  /** A claim less than one base unit away from the exact share: its floor or its ceiling. */
  ghost predicate Nearest(claim: int, pool: int, units: int, total: int) {
    Mul(total, claim - 1) < Mul(units, pool) < Mul(total, claim + 1)
  }

  /** Every claim is the exact share rounded down or rounded up, never further away. */
  lemma ClaimIsNearest(pool: int, total: int, investors: seq<(Party, int)>, owner: Party)
    requires Register(pool, total, investors)
    requires Assoc.Get(investors, owner, 0) > 0
    ensures Nearest(Assoc.Get(ShareOut(pool, total, investors), owner, 0), pool,
                    Assoc.Get(investors, owner, 0), total)
  {
    var place := ClaimAt(pool, total, investors, owner);
    DustIsCovered(pool, total, investors);
    NearestRow(Ranking(pool, total, investors)[place], pool, Assoc.Get(investors, owner, 0), total,
               if place < Dust(pool, total, investors) then 1 else 0);
  }

  lemma NearestRow(row: Row, pool: int, units: int, total: int, extra: int)
    requires total > 0 && RoundedDown(row, pool, total, units)
    requires extra == 0 || (extra == 1 && row.remainder > 0)
    ensures Nearest(row.amount + extra, pool, units, total)
  {
    assert total * (row.amount + extra) == row.amount * total + extra * total;
  }

  /** The remainder of an exact share: what the owner loses when it is rounded down. */
  function Loss(pool: int, units: int, total: int): int
    requires total > 0
  {
    (pool * units) % total
  }

  lemma LossOfRow(row: Row, pool: int, units: int, total: int)
    requires total > 0 && RoundedDown(row, pool, total, units)
    ensures Loss(pool, units, total) == row.remainder
    ensures (pool * units) / total == row.amount
  {
    FloorUnique(pool * units, total, row.amount);
  }

  ghost predicate RoundedUp(claim: int, pool: int, units: int, total: int)
    requires total > 0
  {
    claim > (pool * units) / total
  }

  /**
   Who gets a leftover unit is decided by the remainder first and the name second: nobody who is rounded
   up is behind somebody who is rounded down.
   */
  lemma LeftoverGoesInOrder(pool: int, total: int, investors: seq<(Party, int)>, up: Party, down: Party)
    requires Register(pool, total, investors)
    requires Assoc.Get(investors, up, 0) > 0 && Assoc.Get(investors, down, 0) > 0
    requires up != down
    requires RoundedUp(Assoc.Get(ShareOut(pool, total, investors), up, 0), pool,
                       Assoc.Get(investors, up, 0), total)
    requires !RoundedUp(Assoc.Get(ShareOut(pool, total, investors), down, 0), pool,
                        Assoc.Get(investors, down, 0), total)
    ensures var lossUp, lossDown := Loss(pool, Assoc.Get(investors, up, 0), total),
                                    Loss(pool, Assoc.Get(investors, down, 0), total);
            lossUp > lossDown || (lossUp == lossDown && up < down)
  {
    var i := ClaimAt(pool, total, investors, up);
    var j := ClaimAt(pool, total, investors, down);
    var ranking := Ranking(pool, total, investors);
    LossOfRow(ranking[i], pool, Assoc.Get(investors, up, 0), total);
    LossOfRow(ranking[j], pool, Assoc.Get(investors, down, 0), total);
    assert i < j;
    RankingFacts(pool, total, investors);
    assert Before(ranking[i], ranking[j]);
  }

  /** An owner with more units never has the smaller claim. */
  lemma MoreUnitsNeverLess(pool: int, total: int, investors: seq<(Party, int)>, more: Party, less: Party)
    requires Register(pool, total, investors)
    requires Assoc.Get(investors, more, 0) > Assoc.Get(investors, less, 0) > 0
    ensures var claims := ShareOut(pool, total, investors);
            Assoc.Get(claims, more, 0) >= Assoc.Get(claims, less, 0)
  {
    var i := ClaimAt(pool, total, investors, more);
    var j := ClaimAt(pool, total, investors, less);
    var ranking, dust := Ranking(pool, total, investors), Dust(pool, total, investors);
    CompareRows(ranking[i], ranking[j], pool, total,
                Assoc.Get(investors, more, 0), Assoc.Get(investors, less, 0));
    if j < dust <= i {
      RankingFacts(pool, total, investors);
      DustIsCovered(pool, total, investors);
      assert Before(ranking[j], ranking[i]);
    }
  }

  /** With more units the rounded share is larger, or it is as large and more was lost, unless none lost. */
  lemma CompareRows(a: Row, b: Row, pool: int, total: int, ua: int, ub: int)
    requires pool >= 0 && total > 0 && ua > ub
    requires RoundedDown(a, pool, total, ua) && RoundedDown(b, pool, total, ub)
    ensures a.amount > b.amount || (a.amount == b.amount && (a.remainder > b.remainder || b.remainder == 0))
  {
    MulMonotone(pool, ub, ua);
    LossOfRow(a, pool, ua, total);
    LossOfRow(b, pool, ub, total);
    FloorMonotone(pool * ub, pool * ua, total);
    if a.amount == b.amount && a.remainder <= b.remainder {
      assert pool * ua - pool * ub == pool * (ua - ub);
      SmallProduct(pool, ua - ub);
      FloorUnique(0, total, b.amount);
    }
  }

  lemma SmallProduct(a: int, b: int)
    requires a >= 0 && b > 0 && a * b <= 0
    ensures a == 0
  {
    if a >= 1 {
      MulMonotone(a, 1, b);
    }
  }

  /** Exactly the owners with units have a claim, and no claim is negative. */
  lemma ClaimsAreOfHolders(pool: int, total: int, investors: seq<(Party, int)>, owner: Party)
    requires Register(pool, total, investors)
    ensures Assoc.Has(ShareOut(pool, total, investors), owner) <==> Assoc.Get(investors, owner, 0) > 0
    ensures 0 <= Assoc.Get(ShareOut(pool, total, investors), owner, 0) <= pool
  {
    var claims := ShareOut(pool, total, investors);
    var ranking, dust := Ranking(pool, total, investors), Dust(pool, total, investors);
    HandOutAt(ranking, dust);
    EntriesAt(HandOut(ranking, dust));
    RankingFacts(pool, total, investors);
    if Assoc.Get(investors, owner, 0) > 0 {
      var place := ClaimAt(pool, total, investors, owner);
      Assoc.HasAt(claims, place);
    }
    forall i | 0 <= i < |claims|
      ensures claims[i].1 >= 0 && Assoc.Get(investors, claims[i].0, 0) > 0
    {
      ClaimsAt(pool, total, investors, i);
    }
    if Assoc.Has(claims, owner) {
      var i := Assoc.IndexOf(claims, owner);
      Assoc.SumBounds(claims, AmountOf, i);
      ClaimsSumToPool(pool, total, investors);
    } else {
      Absent(claims, owner);
    }
  }

  lemma {:induction false} Absent(claims: seq<(Party, int)>, owner: Party)
    requires !Assoc.Has(claims, owner)
    ensures Assoc.Get(claims, owner, 0) == 0
  {
    if claims != [] {
      Absent(claims[1..], owner);
    }
  }

  lemma ClaimsAt(pool: int, total: int, investors: seq<(Party, int)>, i: nat)
    requires Register(pool, total, investors)
    requires i < |ShareOut(pool, total, investors)|
    ensures var claim := ShareOut(pool, total, investors)[i];
            claim.1 >= 0 && Assoc.Get(investors, claim.0, 0) > 0
  {
    hide Ranking, Dust, HandOut, Entries, Holders, Rows, Ordered;
    var ranking, dust := Ranking(pool, total, investors), Dust(pool, total, investors);
    var holders := Holders(investors);
    HandOutAt(ranking, dust);
    EntriesAt(HandOut(ranking, dust));
    RankingFacts(pool, total, investors);
    RowsAt(pool, total, holders);
    assert ranking[i] in multiset(Rows(pool, total, holders));
    var h :| 0 <= h < |holders| && ranking[i] == RowOf(pool, total, holders[h]);
    HoldersKeep(investors);
    HoldersDistinct(investors);
    Assoc.HasAt(holders, h);
    HoldersHas(investors, holders[h].0);
    RowOfRounds(pool, total, holders[h]);
    NonNegativeRow(ranking[i], pool, holders[h].1, total);
  }

  lemma NonNegativeRow(row: Row, pool: int, units: int, total: int)
    requires pool >= 0 && total > 0 && units >= 0 && RoundedDown(row, pool, total, units)
    ensures row.amount >= 0
  {
    MulMonotone(pool, 0, units);
    LossOfRow(row, pool, units, total);
    FloorAtLeast(pool * units, total, 0);
  }
}
