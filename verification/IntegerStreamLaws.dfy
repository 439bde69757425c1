/** The integer averages against the exact rational recurrence, for streams of any length. */
module IntegerStreamLaws {
  import opened Prelude
  import opened IntegerStream

  // ---------------------------------------------------------------------------------------------
  // The averages in closed form: the mean of the first `seed` prices, then (keep * a + 2 * p) / (keep + 2)

  function Next(a: int, p: int, keep: nat): int {
    (keep * a + 2 * p) / (keep + 2)
  }

  function ExactNext(e: real, p: int, keep: nat): real {
    (keep as real * e + 2.0 * p as real) / (keep + 2) as real
  }

  function Ema(prices: seq<int>, seed: nat, keep: nat): int
    requires 0 < seed <= |prices|
  {
    if |prices| == seed then Sum(prices) / seed
    else Next(Ema(prices[..|prices| - 1], seed, keep), prices[|prices| - 1], keep)
  }

  function ExactEma(prices: seq<int>, seed: nat, keep: nat): real
    requires 0 < seed <= |prices|
  {
    if |prices| == seed then Sum(prices) as real / seed as real
    else ExactNext(ExactEma(prices[..|prices| - 1], seed, keep), prices[|prices| - 1], keep)
  }

  /** The three averages of the two strategies. */
  predicate IsPeriod(seed: nat, keep: nat) {
    (seed == FAST_PERIOD && keep == 7) || (seed == SLOW_PERIOD && keep == 20) || (seed == 1 && keep == 19)
  }

  /** How many ticks the integer average may trail the exact one. */
  function Slack(keep: nat): nat {
    (keep + 1) / 2
  }

  lemma SlackIs()
    ensures Slack(7) == 4 && Slack(20) == 10 && Slack(19) == 10
  {
  }

  lemma FloorOf(x: int, n: nat)
    requires n > 0
    ensures x as real / n as real - (n - 1) as real / n as real <= (x / n) as real <= x as real / n as real
  {
    var q, r := x / n, x % n;
    assert x == n * q + r && 0 <= r <= n - 1;
    assert x as real == n as real * q as real + r as real;
    assert x as real / n as real == q as real + r as real / n as real;
  }

  lemma MeanSlack(x: int, n: nat)
    requires n > 0
    ensures 0.0 <= x as real / n as real - (x / n) as real <= 1.0
  {
    FloorOf(x, n);
  }

  /** One step of the recurrence loses at most the rounding, which the next steps damp. */
  lemma StepSlack(a: int, e: real, p: int, keep: nat)
    requires keep == 7 || keep == 20 || keep == 19
    requires 0.0 <= e - a as real <= Slack(keep) as real
    ensures 0.0 <= ExactNext(e, p, keep) - Next(a, p, keep) as real <= Slack(keep) as real
  {
    hide Next, ExactNext;
    SlackIs();
    if keep == 7 {
      FastSlack(a, e, p);
    } else if keep == 19 {
      TrendSlack(a, e, p);
    } else {
      SlowSlack(a, e, p);
    }
  }

  lemma FastSlack(a: int, e: real, p: int)
    requires 0.0 <= e - a as real <= 4.0
    ensures 0.0 <= ExactNext(e, p, 7) - Next(a, p, 7) as real <= 4.0
  {
    var q := (7 * a + 2 * p) / 9;
    assert 7 * a + 2 * p - 8 <= 9 * q <= 7 * a + 2 * p;
    assert 7.0 * a as real + 2.0 * p as real - 8.0 <= 9.0 * q as real <= 7.0 * a as real + 2.0 * p as real;
  }

  lemma TrendSlack(a: int, e: real, p: int)
    requires 0.0 <= e - a as real <= 10.0
    ensures 0.0 <= ExactNext(e, p, 19) - Next(a, p, 19) as real <= 10.0
  {
    var q := (19 * a + 2 * p) / 21;
    assert 19 * a + 2 * p - 20 <= 21 * q <= 19 * a + 2 * p;
    assert 19.0 * a as real + 2.0 * p as real - 20.0 <= 21.0 * q as real <= 19.0 * a as real + 2.0 * p as real;
  }

  /** Both terms are even, and so is the divisor: the remainder is at most 20. */
  lemma SlowSlack(a: int, e: real, p: int)
    requires 0.0 <= e - a as real <= 10.0
    ensures 0.0 <= ExactNext(e, p, 20) - Next(a, p, 20) as real <= 10.0
  {
    var q := (20 * a + 2 * p) / 22;
    Halved(10 * a + p, q);
    assert 20.0 * a as real + 2.0 * p as real - 20.0 <= 22.0 * q as real <= 20.0 * a as real + 2.0 * p as real;
  }

  lemma Halved(x: int, q: int)
    requires q == (2 * x) / 22
    ensures 2 * x - 20 <= 22 * q <= 2 * x
  {
    assert 22 * q <= 2 * x < 22 * q + 22;
  }

  /** The integer average never exceeds the exact one and trails it by at most 4, 10 and 10 ticks. */
  lemma {:induction false} EmaTrails(prices: seq<int>, seed: nat, keep: nat)
    requires IsPeriod(seed, keep) && seed <= |prices|
    ensures 0.0 <= ExactEma(prices, seed, keep) - Ema(prices, seed, keep) as real <= Slack(keep) as real
  {
    hide Slack, Sum, Next, ExactNext;
    SlackIs();
    if |prices| == seed {
      MeanSlack(Sum(prices), seed);
    } else {
      var front, p := prices[..|prices| - 1], prices[|prices| - 1];
      EmaTrails(front, seed, keep);
      StepSlack(Ema(front, seed, keep), ExactEma(front, seed, keep), p, keep);
    }
  }

  lemma {:induction false} SumInRange(prices: seq<int>, lo: int, hi: int)
    requires forall i :: 0 <= i < |prices| ==> lo <= prices[i] <= hi
    ensures lo * |prices| <= Sum(prices) <= hi * |prices|
  {
    if prices != [] {
      SumInRange(prices[..|prices| - 1], lo, hi);
      assert lo * |prices| == lo * (|prices| - 1) + lo && hi * |prices| == hi * (|prices| - 1) + hi;
    }
  }

  lemma MeanInRange(sum: int, n: nat, lo: int, hi: int)
    requires n in {1, 8, 21} && lo * n <= sum <= hi * n
    ensures lo <= sum / n <= hi
  {
  }

  lemma StepInRange(a: int, p: int, keep: nat, lo: int, hi: int)
    requires keep in {7, 20, 19} && lo <= a <= hi && lo <= p <= hi
    ensures lo <= Next(a, p, keep) <= hi
    ensures lo * (keep + 2) <= keep * a + 2 * p <= hi * (keep + 2)
  {
  }

  /** The average stays within the range of the prices seen. */
  lemma {:induction false} EmaInRange(prices: seq<int>, seed: nat, keep: nat, lo: int, hi: int)
    requires IsPeriod(seed, keep) && seed <= |prices|
    requires forall i :: 0 <= i < |prices| ==> lo <= prices[i] <= hi
    ensures lo <= Ema(prices, seed, keep) <= hi
  {
    hide Sum;
    if |prices| == seed {
      SumInRange(prices, lo, hi);
      MeanInRange(Sum(prices), seed, lo, hi);
    } else {
      var front := prices[..|prices| - 1];
      EmaInRange(front, seed, keep, lo, hi);
      StepInRange(Ema(front, seed, keep), prices[|prices| - 1], keep, lo, hi);
    }
  }

  // ---------------------------------------------------------------------------------------------
  // Inputs

  lemma QuantizeIff(value: Input, positive: bool, n: int)
    ensures Quantize(value, positive) == Ok(n) <==>
      value.Finite? && value.d * SCALE as real == n as real && (if positive then 1 else 0) <= n <= MAX_VALUE
  {
    if value.Finite? {
      var x := value.d * SCALE as real;
      assert x == n as real ==> x.Floor == n;
    }
  }

  function Price(c: Candle): int {
    match Quantize(c.close, true)
    case Ok(n) => n
    case Err(_) => 0
  }

  function Volume(c: Candle): int {
    match Quantize(c.volume, false)
    case Ok(n) => n
    case Err(_) => 0
  }

  function Prices(rows: seq<Candle>): (prices: seq<int>)
    ensures |prices| == |rows|
    ensures forall i :: 0 <= i < |rows| ==> prices[i] == Price(rows[i])
  {
    seq(|rows|, i requires 0 <= i < |rows| => Price(rows[i]))
  }

  /** A contiguous schedule of candles within bounds. */
  ghost predicate Acceptable(rows: seq<Candle>, interval: int) {
    && (forall i :: 0 <= i < |rows| ==> Quantize(rows[i].close, true).Ok? && Quantize(rows[i].volume, false).Ok?)
    && (forall i :: 0 < i < |rows| ==> rows[i].openTime == rows[i - 1].openTime + interval)
  }

  lemma PriceBounds(c: Candle)
    ensures Quantize(c.close, true).Ok? ==> 1 <= Price(c) <= MAX_VALUE
    ensures Quantize(c.volume, false).Ok? ==> 0 <= Volume(c) <= MAX_VALUE
  {
    if Quantize(c.close, true).Ok? {
      QuantizeIff(c.close, true, Price(c));
    }
    if Quantize(c.volume, false).Ok? {
      QuantizeIff(c.volume, false, Volume(c));
    }
  }

  lemma FrontPrices(rows: seq<Candle>)
    requires rows != []
    ensures Prices(rows)[..|rows| - 1] == Prices(rows[..|rows| - 1])
    ensures Prices(rows) == Prices(rows[..|rows| - 1]) + [Price(rows[|rows| - 1])]
  {
    hide Price;
  }

  // ---------------------------------------------------------------------------------------------
  // The crossing averages

  function FastOf(prices: seq<int>): Option<int> {
    if |prices| < FAST_PERIOD then None else Some(Ema(prices, FAST_PERIOD, 7))
  }

  function SlowOf(prices: seq<int>): Option<int> {
    if |prices| < SLOW_PERIOD then None else Some(Ema(prices, SLOW_PERIOD, 20))
  }

  function Seeds(prices: seq<int>): seq<int> {
    if |prices| <= SLOW_PERIOD then prices else prices[..SLOW_PERIOD]
  }

  /** The signals of a bar in closed form: a crossing against the bar before, on a bar with volume. */
  function AverageBarOf(prices: seq<int>, volume: int): Bar
    requires prices != []
  {
    var before := prices[..|prices| - 1];
    var fast, slow, oldFast, oldSlow := FastOf(prices), SlowOf(prices), FastOf(before), SlowOf(before);
    Bar([Crossed(fast, slow, oldFast, oldSlow) && volume > 0, Crossed(slow, fast, oldSlow, oldFast) && volume > 0],
        [fast, slow])
  }

  ghost predicate Bounded(prices: seq<int>) {
    forall i :: 0 <= i < |prices| ==> 1 <= prices[i] <= MAX_VALUE
  }

  /** The seed and the recurrence never leave 128 bits, and give the closed form. */
  lemma NextAverageIs(prices: seq<int>, price: int, seed: nat, keep: nat)
    requires Bounded(prices + [price]) && (IsPeriod(seed, keep)) && seed > 1
    requires |prices| + 1 == seed ==> Seeds(prices + [price]) == prices + [price]
    ensures
      var prior := if |prices| < seed then None else Some(Ema(prices, seed, keep));
      var after := prices + [price];
      NextAverage(prior, Seeds(after), price, seed, keep)
        == Ok(if |after| < seed then None else Some(Ema(after, seed, keep)))
  {
    hide Sum;
    var after := prices + [price];
    assert after[..|after| - 1] == prices;
    if |prices| >= seed {
      EmaInRange(prices, seed, keep, 1, MAX_VALUE);
      assert after[|prices|] == price;
      StepInRange(Ema(prices, seed, keep), price, keep, 1, MAX_VALUE);
    } else if |after| == seed {
      SumInRange(after, 1, MAX_VALUE);
    }
  }

  lemma AverageStepIs(prices: seq<int>, price: int, volume: int)
    requires Bounded(prices + [price])
    ensures AverageStep(Averages(FastOf(prices), SlowOf(prices), Seeds(prices)), price, volume)
      == Ok((Averages(FastOf(prices + [price]), SlowOf(prices + [price]), Seeds(prices + [price])),
             AverageBarOf(prices + [price], volume)))
  {
    hide Ema, NextAverage, Bounded;
    var after := prices + [price];
    assert after[..|after| - 1] == prices;
    SeedsStep(prices, price);
    NextAverageIs(prices, price, FAST_PERIOD, 7);
    NextAverageIs(prices, price, SLOW_PERIOD, 20);
  }

  lemma SeedsStep(prices: seq<int>, price: int)
    ensures Seeds(prices + [price]) == if |Seeds(prices)| < SLOW_PERIOD then Seeds(prices) + [price] else Seeds(prices)
  {
  }

  /** All bars of the crossing averages in closed form. */
  function AverageBars(rows: seq<Candle>): (bars: seq<Bar>)
    ensures |bars| == |rows|
  {
    if rows == [] then []
    else AverageBars(rows[..|rows| - 1]) + [AverageBarOf(Prices(rows), Volume(rows[|rows| - 1]))]
  }

  /** Every acceptable stream runs to its end, whatever its length, and every bar is its closed form. */
  lemma {:induction false} AveragesNeverOverflow(rows: seq<Candle>, interval: int)
    requires Acceptable(rows, interval)
    ensures StreamAfter(rows, AVERAGE, interval)
      == Ok(Stream(if rows == [] then None else Some(rows[|rows| - 1].openTime),
                   Averages(FastOf(Prices(rows)), SlowOf(Prices(rows)), Seeds(Prices(rows))), Fresh, AverageBars(rows)))
  {
    hide AverageStep, FastOf, SlowOf, Seeds, AverageBarOf, Quantize;
    if rows == [] {
      NoPrices();
    } else {
      var front, last := rows[..|rows| - 1], rows[|rows| - 1];
      AveragesNeverOverflow(front, interval);
      FrontPrices(rows);
      AcceptableIsBounded(rows, interval);
      AverageStepIs(Prices(front), Price(last), Volume(last));
    }
  }

  lemma NoPrices()
    ensures Prices([]) == [] && FastOf([]) == None && SlowOf([]) == None && Seeds([]) == []
  {
  }

  lemma AcceptableIsBounded(rows: seq<Candle>, interval: int)
    requires Acceptable(rows, interval)
    ensures Bounded(Prices(rows))
  {
    hide Quantize, Price;
    forall i | 0 <= i < |rows| ensures 1 <= Prices(rows)[i] <= MAX_VALUE {
      PriceBounds(rows[i]);
    }
  }

  // ---------------------------------------------------------------------------------------------
  // The trend and the on-balance volume

  function Obv(rows: seq<Candle>): int
    requires rows != []
  {
    if |rows| == 1 then Volume(rows[0])
    else
      var last, before := rows[|rows| - 1], rows[|rows| - 2];
      Obv(rows[..|rows| - 1]) + Flow(Price(last), Price(before), Volume(last))
  }

  lemma {:induction false} ObvBounds(rows: seq<Candle>, interval: int)
    requires rows != [] && Acceptable(rows, interval)
    ensures -|rows| * MAX_VALUE <= Obv(rows) <= |rows| * MAX_VALUE
  {
    hide Quantize, Price, Volume;
    PriceBounds(rows[|rows| - 1]);
    if |rows| > 1 {
      ObvBounds(rows[..|rows| - 1], interval);
    }
  }

  predicate Fits128(x: int) {
    -INT128 <= x < INT128
  }

  /** The running balance stays within 128 bits at every bar the check looks at: the first is taken unchecked. */
  predicate Contained(rows: seq<Candle>) {
    forall k :: 1 < k <= |rows| ==> Fits128(Obv(rows[..k]))
  }

  function TrendOf(rows: seq<Candle>): Trends {
    if rows == [] then Fresh else After(Price(rows[|rows| - 1]), Ema(Prices(rows), 1, 19), Obv(rows))
  }

  /** The signals of a bar in closed form: the close crosses the trend, and the volume balance moves. */
  function TrendBarOf(rows: seq<Candle>): Bar
    requires rows != []
  {
    var front, price, ema, obv := rows[..|rows| - 1], Price(rows[|rows| - 1]), Ema(Prices(rows), 1, 19), Obv(rows);
    if front == [] then Bar([false, false, false, false], [Some(ema), Some(obv)])
    else
      var oldPrice, oldEma, oldObv := Price(front[|front| - 1]), Ema(Prices(front), 1, 19), Obv(front);
      var up, down := price > ema && oldPrice <= oldEma, price < ema && oldPrice >= oldEma;
      Bar([up && obv > oldObv, down && obv < oldObv, down && obv > oldObv, up && obv < oldObv], [Some(ema), Some(obv)])
  }

  function TrendBars(rows: seq<Candle>): (bars: seq<Bar>)
    ensures |bars| == |rows|
  {
    if rows == [] then [] else TrendBars(rows[..|rows| - 1]) + [TrendBarOf(rows)]
  }

  lemma TrendStepIs(rows: seq<Candle>, c: Candle, interval: int)
    requires Acceptable(rows + [c], interval)
    ensures TrendStep(TrendOf(rows), Price(c), Volume(c)) ==
      if rows != [] && !Fits128(Obv(rows + [c])) then Err(Overflow)
      else Ok((TrendOf(rows + [c]), TrendBarOf(rows + [c])))
  {
    hide Quantize, Price, Volume, Obv, Ema, Flow, Next, TrendStep, Acceptable, Bounded, Fits128;
    var all := rows + [c];
    assert all[..|all| - 1] == rows;
    if rows == [] {
      FirstTrend(c);
      FreshStep(Price(c), Volume(c));
    } else {
      LaterTrend(rows, c, interval);
      LaterStep(Price(rows[|rows| - 1]), Ema(Prices(rows), 1, 19), Obv(rows), Price(c), Volume(c));
    }
  }

  lemma FreshStep(price: int, volume: int)
    ensures TrendStep(Fresh, price, volume)
      == Ok((After(price, price, volume), Bar([false, false, false, false], [Some(price), Some(volume)])))
  {
  }

  lemma LaterStep(close: int, ema: int, obv: int, price: int, volume: int)
    requires 1 <= ema <= MAX_VALUE && 1 <= price <= MAX_VALUE
    ensures
      var newEma, newObv := Next(ema, price, 19), obv + Flow(price, close, volume);
      var up, down := price > newEma && close <= ema, price < newEma && close >= ema;
      TrendStep(After(close, ema, obv), price, volume) ==
        if !Fits128(newObv) then Err(Overflow)
        else Ok((After(price, newEma, newObv),
                 Bar([up && newObv > obv, down && newObv < obv, down && newObv > obv, up && newObv < obv],
                     [Some(newEma), Some(newObv)])))
  {
    hide Flow, Checked;
    CheckedEma(ema, price);
    CheckedIs(obv + Flow(price, close, volume));
  }

  lemma CheckedEma(ema: int, price: int)
    requires 1 <= ema <= MAX_VALUE && 1 <= price <= MAX_VALUE
    ensures Checked(19 * ema + 2 * price).Ok?
    ensures Checked(19 * ema + 2 * price).value / 21 == Next(ema, price, 19)
  {
  }

  lemma CheckedIs(x: int)
    ensures Checked(x) == if Fits128(x) then Ok(x) else Err(Overflow)
  {
  }

  lemma FirstTrend(c: Candle)
    ensures Ema(Prices([c]), 1, 19) == Price(c) && Obv([c]) == Volume(c)
  {
    hide Price, Volume;
    assert Prices([c])[..0] == [];
    assert Sum(Prices([c])) == Price(c);
  }

  lemma LaterTrend(rows: seq<Candle>, c: Candle, interval: int)
    requires rows != [] && Acceptable(rows + [c], interval)
    ensures
      var all := rows + [c];
      && Ema(Prices(all), 1, 19) == Next(Ema(Prices(rows), 1, 19), Price(c), 19)
      && Obv(all) == Obv(rows) + Flow(Price(c), Price(rows[|rows| - 1]), Volume(c))
      && 1 <= Ema(Prices(rows), 1, 19) <= MAX_VALUE && 1 <= Price(c) <= MAX_VALUE
  {
    hide Quantize, Price, Volume, Flow, Next, Acceptable, Sum;
    var all := rows + [c];
    assert all[..|all| - 1] == rows;
    FrontPrices(all);
    AcceptableFront(all, interval);
    EmaWithin(rows, interval);
    LastPrice(all, interval);
  }

  lemma SafeProduct(n: nat)
    requires n <= SAFE_BARS
    ensures n * MAX_VALUE < INT128
  {
  }

  lemma LastPrice(rows: seq<Candle>, interval: int)
    requires rows != [] && Acceptable(rows, interval)
    ensures 1 <= Price(rows[|rows| - 1]) <= MAX_VALUE
  {
    hide Quantize, Price;
    PriceBounds(rows[|rows| - 1]);
  }

  lemma QuantizedAs(c: Candle)
    ensures Quantize(c.close, true).Ok? ==> Quantize(c.close, true) == Ok(Price(c))
    ensures Quantize(c.volume, false).Ok? ==> Quantize(c.volume, false) == Ok(Volume(c))
  {
    hide Quantize;
  }

  lemma TrendStreamStep(s: Stream, c: Candle, interval: int)
    requires Quantize(c.close, true).Ok? && Quantize(c.volume, false).Ok?
    requires s.time.Some? ==> c.openTime == s.time.value + interval
    ensures StreamStep(s, c, TREND, interval) ==
      match TrendStep(s.trend, Price(c), Volume(c))
      case Ok(next) => Ok(Stream(Some(c.openTime), s.averages, next.0, s.bars + [next.1]))
      case Err(fault) => Err(fault)
  {
    hide Quantize, TrendStep, Price, Volume;
    QuantizedAs(c);
  }

  /** The stream of a trend so far, in closed form. */
  function TrendStream(rows: seq<Candle>): Stream {
    Stream(if rows == [] then None else Some(rows[|rows| - 1].openTime), START.averages, TrendOf(rows), TrendBars(rows))
  }

  lemma ContainedFront(rows: seq<Candle>)
    requires rows != []
    ensures Contained(rows) <==> Contained(rows[..|rows| - 1]) && (|rows| > 1 ==> Fits128(Obv(rows)))
  {
    hide Obv, Fits128;
    var front := rows[..|rows| - 1];
    assert rows[..|rows|] == rows;
    forall k | 1 < k <= |front| ensures front[..k] == rows[..k] {
    }
  }

  /**
   Exactly when the 128-bit check trips: a trend stream of any length runs to its end, every bar in closed form, if
   the running balance stays within 128 bits, and stops with an overflow otherwise.
   */
  lemma {:induction false} TrendExactly(rows: seq<Candle>, interval: int)
    requires Acceptable(rows, interval)
    ensures StreamAfter(rows, TREND, interval) == if Contained(rows) then Ok(TrendStream(rows)) else Err(Overflow)
  {
    hide TrendStep, Quantize, TrendOf, Price, Volume, TrendBarOf, StreamStep, Contained, Fits128;
    if rows == [] {
      NoTrend();
    } else {
      var front, last := rows[..|rows| - 1], rows[|rows| - 1];
      assert front + [last] == rows;
      AcceptableFront(rows, interval);
      TrendExactly(front, interval);
      ContainedFront(rows);
      TrendStepIs(front, last, interval);
      TrendStreamStep(TrendStream(front), last, interval);
    }
  }

  /** The longest stream that no volumes can push beyond 128 bits. */
  const SAFE_BARS := (INT128 - 1) / MAX_VALUE

  /** In particular up to 1.7 * 10^18 bars never trip it. */
  lemma TrendNeverOverflows(rows: seq<Candle>, interval: int)
    requires Acceptable(rows, interval) && |rows| <= SAFE_BARS
    ensures StreamAfter(rows, TREND, interval) == Ok(TrendStream(rows))
  {
    hide TrendStream, Quantize, Acceptable, Obv;
    TrendExactly(rows, interval);
    forall k | 1 < k <= |rows| ensures Fits128(Obv(rows[..k])) {
      AcceptablePrefix(rows, k, interval);
      ObvBounds(rows[..k], interval);
      SafeProduct(k);
    }
  }

  lemma AcceptablePrefix(rows: seq<Candle>, k: nat, interval: int)
    requires k <= |rows| && Acceptable(rows, interval)
    ensures Acceptable(rows[..k], interval)
  {
    hide Quantize;
  }

  lemma AcceptableFront(rows: seq<Candle>, interval: int)
    requires rows != [] && Acceptable(rows, interval)
    ensures Acceptable(rows[..|rows| - 1], interval)
  {
    hide Quantize;
  }

  lemma NoTrend()
    ensures TrendOf([]) == Fresh && Contained([])
  {
  }

  // ---------------------------------------------------------------------------------------------
  // The length alone decides up to that bound and no further: one bar more can trip the check

  function Rising(n: nat, interval: int): (rows: seq<Candle>)
    ensures |rows| == n
  {
    seq(n, i requires 0 <= i < n =>
      Candle(i * interval, Finite((i + 1) as real / SCALE as real), Finite(MAX_VALUE as real / SCALE as real)))
  }

  lemma RisingAt(n: nat, interval: int, i: nat)
    requires i < n <= MAX_VALUE
    ensures var c := Rising(n, interval)[i];
      Quantize(c.close, true) == Ok(i + 1) && Quantize(c.volume, false) == Ok(MAX_VALUE) && c.openTime == i * interval
  {
    QuantizeIff(Rising(n, interval)[i].close, true, i + 1);
    QuantizeIff(Rising(n, interval)[i].volume, false, MAX_VALUE);
  }

  lemma RisingIsAcceptable(n: nat, interval: int)
    requires n <= MAX_VALUE
    ensures Acceptable(Rising(n, interval), interval)
  {
    hide Quantize, Rising;
    var rows := Rising(n, interval);
    forall i | 0 <= i < n ensures Quantize(rows[i].close, true).Ok? && Quantize(rows[i].volume, false).Ok? {
      RisingAt(n, interval, i);
    }
    forall i | 0 < i < n ensures rows[i].openTime == rows[i - 1].openTime + interval {
      RisingAt(n, interval, i);
      RisingAt(n, interval, i - 1);
      assert i * interval == (i - 1) * interval + interval;
    }
  }

  lemma {:induction false} RisingObv(n: nat, interval: int)
    requires 0 < n <= MAX_VALUE
    ensures Obv(Rising(n, interval)) == n * MAX_VALUE
  {
    hide Quantize, Rising, Flow;
    var rows := Rising(n, interval);
    RisingAt(n, interval, n - 1);
    if n > 1 {
      RisingAt(n, interval, n - 2);
      RisingFront(n - 1, interval);
      RisingObv(n - 1, interval);
      UpFlow(n, n - 1, MAX_VALUE);
      MulNext(n - 1);
    }
  }

  lemma UpFlow(price: int, close: int, volume: int)
    requires price > close
    ensures Flow(price, close, volume) == volume
  {
  }

  lemma MulNext(n: nat)
    ensures (n + 1) * MAX_VALUE == n * MAX_VALUE + MAX_VALUE
  {
  }

  lemma RisingFront(n: nat, interval: int)
    ensures Rising(n + 1, interval)[..n] == Rising(n, interval)
  {
  }

  /** One bar beyond the bound, the balance can leave 128 bits, on candles that are all acceptable. */
  lemma TrendCanOverflow(interval: int)
    ensures Acceptable(Rising(SAFE_BARS + 1, interval), interval)
    ensures StreamAfter(Rising(SAFE_BARS + 1, interval), TREND, interval) == Err(Overflow)
  {
    hide Quantize, Rising, TrendStream, Acceptable, Obv;
    var n := SAFE_BARS + 1;
    var rows := Rising(n, interval);
    RisingIsAcceptable(n, interval);
    RisingObv(n, interval);
    assert rows[..n] == rows;
    TrendExactly(rows, interval);
  }

  lemma EmaWithin(rows: seq<Candle>, interval: int)
    requires rows != [] && Acceptable(rows, interval)
    ensures 1 <= Ema(Prices(rows), 1, 19) <= MAX_VALUE
  {
    AcceptableIsBounded(rows, interval);
    EmaInRange(Prices(rows), 1, 19, 1, MAX_VALUE);
  }

  // ---------------------------------------------------------------------------------------------
  // Refusals

  lemma LastCandle(rows: seq<Candle>, interval: int)
    requires rows != [] && Acceptable(rows[..|rows| - 1], interval)
    ensures var c, n := rows[|rows| - 1], |rows| - 1;
      Acceptable(rows, interval) <==>
        && Quantize(c.close, true).Ok? && Quantize(c.volume, false).Ok?
        && (n > 0 ==> c.openTime == rows[n - 1].openTime + interval)
  {
    hide Quantize;
    var front := rows[..|rows| - 1];
    assert forall i :: 0 <= i < |front| ==> rows[i] == front[i];
  }

  /** What runs to its end is contiguous and within bounds, and the stream remembers when its last candle opened. */
  lemma {:induction false} RunsAreAcceptable(rows: seq<Candle>, kind: Kind, interval: int)
    requires StreamAfter(rows, kind, interval).Ok?
    ensures Acceptable(rows, interval)
    ensures StreamAfter(rows, kind, interval).value.time == if rows == [] then None else Some(rows[|rows| - 1].openTime)
  {
    hide Quantize, AverageStep, TrendStep, Acceptable;
    if rows == [] {
      EmptyIsAcceptable(interval);
    } else {
      RunsAreAcceptable(rows[..|rows| - 1], kind, interval);
      LastCandle(rows, interval);
    }
  }

  lemma EmptyIsAcceptable(interval: int)
    ensures Acceptable([], interval)
  {
  }

  /** The crossing averages run over exactly the contiguous streams of candles within bounds. */
  lemma AveragesRunIff(rows: seq<Candle>, interval: int)
    ensures StreamAfter(rows, AVERAGE, interval).Ok? <==> Acceptable(rows, interval)
  {
    hide Acceptable, StreamAfter;
    if StreamAfter(rows, AVERAGE, interval).Ok? {
      RunsAreAcceptable(rows, AVERAGE, interval);
    }
    if Acceptable(rows, interval) {
      AveragesNeverOverflow(rows, interval);
    }
  }

  /** The trend runs over exactly those of them whose balance stays within 128 bits. */
  lemma TrendRunsIff(rows: seq<Candle>, interval: int)
    ensures StreamAfter(rows, TREND, interval).Ok? <==> Acceptable(rows, interval) && Contained(rows)
  {
    hide Acceptable, StreamAfter, Contained;
    if StreamAfter(rows, TREND, interval).Ok? {
      RunsAreAcceptable(rows, TREND, interval);
    }
    if Acceptable(rows, interval) {
      TrendExactly(rows, interval);
    }
  }
}
