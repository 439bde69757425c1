/** What the bars of the integer stream say, bar by bar: indicators against prices and volumes, signals against both. */
module SignalLaws {
  import opened Prelude
  import opened IntegerStream
  import opened IntegerStreamLaws

  /** `q` is `a / b` rounded down. */
  ghost predicate IsFloor(q: int, a: int, b: int) {
    b * q <= a < b * (q + 1)
  }

  // ---------------------------------------------------------------------------------------------
  // The crossing averages

  /** One average at bar `k`: missing before its seed is complete, then the mean of the seed, then one step on. */
  ghost predicate IsAverageAt(prices: seq<int>, now: Option<int>, before: Option<int>, k: nat, seed: nat, keep: nat)
    requires k < |prices| && seed > 0
  {
    && (now.Some? <==> k + 1 >= seed) && (before.Some? <==> k >= seed)
    && (k + 1 == seed && now.Some? ==> IsFloor(now.value, Sum(prices[..seed]), seed))
    && (before.Some? && now.Some? ==> IsFloor(now.value, keep * before.value + 2 * prices[k], keep + 2))
  }

  /** Above now, and not above at the bar before. */
  ghost predicate Crosses(a: Option<int>, b: Option<int>, oldA: Option<int>, oldB: Option<int>) {
    a.Some? && b.Some? && oldA.Some? && oldB.Some? && oldA.value <= oldB.value && b.value < a.value
  }

  /**
   Bar `k` of the crossing averages: the fast and the slow average, an entry when the fast one rises above the slow one
   and an exit when it falls below it, on bars with volume only.
   */
  ghost predicate IsCrossing(prices: seq<int>, volume: int, bars: seq<Bar>, k: nat)
    requires k < |prices| && k < |bars|
  {
    var bar := bars[k];
    && |bar.indicators| == 2 && |bar.signals| == 2
    && (k > 0 ==> |bars[k - 1].indicators| == 2)
    && var (fast, slow) := (bar.indicators[0], bar.indicators[1]);
    var (oldFast, oldSlow) := if k == 0 then (None, None) else (bars[k - 1].indicators[0], bars[k - 1].indicators[1]);
    && IsAverageAt(prices, fast, oldFast, k, 8, 7) && IsAverageAt(prices, slow, oldSlow, k, 21, 20)
    && (bar.signals[0] <==> volume > 0 && Crosses(fast, slow, oldFast, oldSlow))
    && (bar.signals[1] <==> volume > 0 && Crosses(slow, fast, oldSlow, oldFast))
    && !(bar.signals[0] && bar.signals[1])
  }

  lemma {:induction false} AverageBarAt(rows: seq<Candle>, k: nat)
    requires k < |rows|
    ensures AverageBars(rows)[k] == AverageBarOf(Prices(rows[..k + 1]), Volume(rows[k]))
  {
    hide AverageBarOf, Volume, Prices;
    if k == |rows| - 1 {
      assert rows[..k + 1] == rows;
    } else {
      assert rows[..|rows| - 1][..k + 1] == rows[..k + 1];
      AverageBarAt(rows[..|rows| - 1], k);
    }
  }

  lemma AverageIs(prices: seq<int>, k: nat, seed: nat, keep: nat)
    requires k < |prices| && seed > 0
    ensures
      var now := if k + 1 < seed then None else Some(Ema(prices[..k + 1], seed, keep));
      var before := if k < seed then None else Some(Ema(prices[..k], seed, keep));
      IsAverageAt(prices, now, before, k, seed, keep)
  {
    hide Sum;
    assert prices[..k + 1][..k] == prices[..k];
    if k >= seed {
      Floored(keep * Ema(prices[..k], seed, keep) + 2 * prices[k], keep + 2);
    } else if k + 1 == seed {
      Floored(Sum(prices[..seed]), seed);
    }
  }

  lemma Floored(a: int, b: int)
    requires b > 0
    ensures IsFloor(a / b, a, b)
  {
  }

  /** Every acceptable stream of the crossing averages runs to its end, and every bar of it says exactly this. */
  lemma AverageSignals(rows: seq<Candle>, interval: int, k: nat)
    requires Acceptable(rows, interval) && k < |rows|
    ensures StreamAfter(rows, AVERAGE, interval).Ok? && |StreamAfter(rows, AVERAGE, interval).value.bars| == |rows|
    ensures IsCrossing(Prices(rows), Volume(rows[k]), StreamAfter(rows, AVERAGE, interval).value.bars, k)
  {
    hide Acceptable, Volume, Ema, IsAverageAt, AverageBars, Prices, StreamAfter;
    AveragesNeverOverflow(rows, interval);
    var prices := Prices(rows);
    AverageBarAt(rows, k);
    PricesOfFront(rows, k + 1);
    assert prices[..k + 1][..k] == prices[..k];
    if k > 0 {
      AverageBarAt(rows, k - 1);
      PricesOfFront(rows, k);
    }
    AverageIs(prices, k, 8, 7);
    AverageIs(prices, k, 21, 20);
  }

  lemma PricesOfFront(rows: seq<Candle>, k: nat)
    requires k <= |rows|
    ensures Prices(rows[..k]) == Prices(rows)[..k]
  {
    hide Price;
  }

  // ---------------------------------------------------------------------------------------------
  // The trend

  /** How the close at bar `k` crosses the trend line: 1 from below, -1 from above, 0 not at all. */
  ghost function Break(price: int, oldPrice: int, ema: int, oldEma: int): int {
    if oldPrice <= oldEma && ema < price then 1
    else if oldEma <= oldPrice && price < ema then -1
    else 0
  }

  /**
   Bar `k` of a trend: the line moves two twenty-firsts of the way to the close; the balance gains the volume of a rise
   and loses that of a fall; and the four signals are the break upwards or downwards with the balance, and the same against
   it.
   */
  ghost predicate IsTrendBar(prices: seq<int>, volume: int, bars: seq<Bar>, k: nat)
    requires k < |prices| && k < |bars|
  {
    var bar := bars[k];
    && |bar.indicators| == 2 && |bar.signals| == 4 && bar.indicators[0].Some? && bar.indicators[1].Some?
    && var (ema, obv) := (bar.indicators[0].value, bar.indicators[1].value);
    if k == 0 then ema == prices[0] && obv == volume && bar.signals == [false, false, false, false]
    else
      && |bars[k - 1].indicators| == 2 && bars[k - 1].indicators[0].Some? && bars[k - 1].indicators[1].Some?
      && var (oldEma, oldObv) := (bars[k - 1].indicators[0].value, bars[k - 1].indicators[1].value);
      var (price, oldPrice) := (prices[k], prices[k - 1]);
      && IsFloor(ema, 19 * oldEma + 2 * price, 21)
      && obv - oldObv == (if price > oldPrice then volume else if price < oldPrice then -volume else 0)
      && var crossing := Break(price, oldPrice, ema, oldEma);
      && (bar.signals[0] <==> crossing == 1 && obv > oldObv)
      && (bar.signals[1] <==> crossing == -1 && obv < oldObv)
      && (bar.signals[2] <==> crossing == -1 && obv > oldObv)
      && (bar.signals[3] <==> crossing == 1 && obv < oldObv)
  }

  lemma {:induction false} TrendBarAt(rows: seq<Candle>, k: nat)
    requires k < |rows|
    ensures TrendBars(rows)[k] == TrendBarOf(rows[..k + 1])
  {
    hide TrendBarOf;
    if k == |rows| - 1 {
      assert rows[..k + 1] == rows;
    } else {
      assert rows[..|rows| - 1][..k + 1] == rows[..k + 1];
      TrendBarAt(rows[..|rows| - 1], k);
    }
  }

  lemma TrendStarts(rows: seq<Candle>)
    requires rows != []
    ensures TrendBarOf(rows[..1]) == Bar([false, false, false, false], [Some(Price(rows[0])), Some(Volume(rows[0]))])
  {
    hide Price, Volume;
    assert rows[..1] == [rows[0]] && rows[..1][..0] == [];
    FirstTrend(rows[0]);
  }

  lemma TrendMoves(rows: seq<Candle>, k: nat, interval: int)
    requires 0 < k < |rows| && Acceptable(rows, interval)
    ensures
      var (ema, oldEma) := (Ema(Prices(rows[..k + 1]), 1, 19), Ema(Prices(rows[..k]), 1, 19));
      && IsFloor(ema, 19 * oldEma + 2 * Price(rows[k]), 21)
      && Obv(rows[..k + 1]) - Obv(rows[..k]) == Flow(Price(rows[k]), Price(rows[k - 1]), Volume(rows[k]))
  {
    hide Acceptable, Price, Volume, Flow, Ema, Prices;
    assert rows[..k + 1][..k] == rows[..k] && rows[..k] + [rows[k]] == rows[..k + 1];
    AcceptablePrefix(rows, k + 1, interval);
    LaterTrend(rows[..k], rows[k], interval);
    Floored(19 * Ema(Prices(rows[..k]), 1, 19) + 2 * Price(rows[k]), 21);
  }

  /** Every acceptable trend stream within 128 bits runs to its end, and every bar of it says exactly this. */
  lemma TrendSignals(rows: seq<Candle>, interval: int, k: nat)
    requires Acceptable(rows, interval) && Contained(rows) && k < |rows|
    ensures StreamAfter(rows, TREND, interval).Ok? && |StreamAfter(rows, TREND, interval).value.bars| == |rows|
    ensures IsTrendBar(Prices(rows), Volume(rows[k]), StreamAfter(rows, TREND, interval).value.bars, k)
  {
    hide Acceptable, Contained, Price, Volume, Ema, Obv, IsFloor, TrendBars, StreamAfter, TrendOf;
    TrendExactly(rows, interval);
    TrendBarAt(rows, k);
    if k == 0 {
      TrendStarts(rows);
    } else {
      TrendBarAt(rows, k - 1);
      TrendMoves(rows, k, interval);
      assert rows[..k + 1][..k] == rows[..k] && rows[..k][k - 1] == rows[k - 1];
      TrendIndicators(rows[..k]);
    }
  }

  lemma TrendIndicators(rows: seq<Candle>)
    requires rows != []
    ensures TrendBarOf(rows).indicators == [Some(Ema(Prices(rows), 1, 19)), Some(Obv(rows))]
  {
    hide Ema, Obv, Price;
  }
}
