/** The streaming integer port of two indicator strategies (research/adapter/replay.py). */
module IntegerStream {
  import opened Prelude

  const SCALE := 1_0000_0000
  const MAX_VALUE := 1_0000_0000_0000 * SCALE
  const INT128 := 0x8000_0000_0000_0000_0000_0000_0000_0000

  /** A number as it is read: a decimal, or an infinity or NaN. */
  datatype Input = Finite(d: real) | NonFinite

  datatype Candle = Candle(openTime: int, close: Input, volume: Input)
  datatype Kind = AVERAGE | TREND
  datatype Fault = NonFiniteInput | Imprecise | OutOfBounds | NonContiguous | Overflow

  /** One bar's signals, and its indicators in ticks; None before the average has its first value. */
  datatype Bar = Bar(signals: seq<bool>, indicators: seq<Option<int>>)

  function Quantize(value: Input, positive: bool): Result<int, Fault> {
    if value.NonFinite? then Err(NonFiniteInput)
    else
      var x := value.d * SCALE as real;
      if x != x.Floor as real then Err(Imprecise)
      else if x.Floor < (if positive then 1 else 0) || x.Floor > MAX_VALUE then Err(OutOfBounds)
      else Ok(x.Floor)
  }

  function Checked(x: int): Result<int, Fault> {
    if -INT128 <= x < INT128 then Ok(x) else Err(Overflow)
  }

  function Sum(s: seq<int>): int {
    if s == [] then 0 else Sum(s[..|s| - 1]) + s[|s| - 1]
  }

  // ---------------------------------------------------------------------------------------------
  // One candle

  datatype Averages = Averages(fast: Option<int>, slow: Option<int>, initial: seq<int>)

  const FAST_PERIOD := 8
  const SLOW_PERIOD := 21

  /** An average's next value: none until the seed is complete, then the seed's mean, then the recurrence. */
  function NextAverage(prior: Option<int>, initial: seq<int>, price: int, period: nat, keep: nat): Result<Option<int>, Fault>
    requires period > 0
  {
    match prior
    case None => if |initial| == period then (var x :- Checked(Sum(initial)); Ok(Some(x / period))) else Ok(None)
    case Some(a) => var x :- Checked(keep * a + 2 * price); Ok(Some(x / (keep + 2)))
  }

  function Crossed(a: Option<int>, b: Option<int>, oldA: Option<int>, oldB: Option<int>): bool {
    a.Some? && b.Some? && oldA.Some? && oldB.Some? && a.value > b.value && oldA.value <= oldB.value
  }

  function AverageStep(s: Averages, price: int, volume: int): Result<(Averages, Bar), Fault> {
    var initial := if |s.initial| < SLOW_PERIOD then s.initial + [price] else s.initial;
    var fast :- NextAverage(s.fast, initial, price, FAST_PERIOD, 7);
    var slow :- NextAverage(s.slow, initial, price, SLOW_PERIOD, 20);
    var enter := Crossed(fast, slow, s.fast, s.slow) && volume > 0;
    var leave := Crossed(slow, fast, s.slow, s.fast) && volume > 0;
    Ok((Averages(fast, slow, initial), Bar([enter, leave], [fast, slow])))
  }

  datatype Trends = Fresh | After(close: int, ema: int, obv: int)

  function Flow(price: int, close: int, volume: int): int {
    if price > close then volume else if price < close then -volume else 0
  }

  function TrendStep(s: Trends, price: int, volume: int): Result<(Trends, Bar), Fault> {
    match s
    case Fresh => Ok((After(price, price, volume), Bar([false, false, false, false], [Some(price), Some(volume)])))
    case After(close, oldEma, oldObv) =>
      var x :- Checked(19 * oldEma + 2 * price);
      var ema := x / 21;
      var obv :- Checked(oldObv + Flow(price, close, volume));
      var up, down := price > ema && close <= oldEma, price < ema && close >= oldEma;
      var rise, fall := obv > oldObv, obv < oldObv;
      Ok((After(price, ema, obv), Bar([up && rise, down && fall, down && rise, up && fall], [Some(ema), Some(obv)])))
  }

  // ---------------------------------------------------------------------------------------------
  // The stream

  datatype Stream = Stream(time: Option<int>, averages: Averages, trend: Trends, bars: seq<Bar>)

  const START := Stream(None, Averages(None, None, []), Fresh, [])

  function StreamStep(s: Stream, c: Candle, kind: Kind, interval: int): Result<Stream, Fault> {
    var contiguous := s.time.Some? ==> c.openTime == s.time.value + interval;
    :- Need(contiguous, NonContiguous);
    var price :- Quantize(c.close, true);
    var volume :- Quantize(c.volume, false);
    match kind
    case AVERAGE =>
      var next :- AverageStep(s.averages, price, volume);
      Ok(Stream(Some(c.openTime), next.0, s.trend, s.bars + [next.1]))
    case TREND =>
      var next :- TrendStep(s.trend, price, volume);
      Ok(Stream(Some(c.openTime), s.averages, next.0, s.bars + [next.1]))
  }

  function StreamAfter(rows: seq<Candle>, kind: Kind, interval: int): Result<Stream, Fault> {
    if rows == [] then Ok(START)
    else
      var before :- StreamAfter(rows[..|rows| - 1], kind, interval);
      StreamStep(before, rows[|rows| - 1], kind, interval)
  }

  /** A stream that stops at a row stops whatever follows. */
  lemma {:induction false} FaultStays(rows: seq<Candle>, k: nat, kind: Kind, interval: int)
    requires k <= |rows| && StreamAfter(rows[..k], kind, interval).Err?
    ensures StreamAfter(rows, kind, interval) == StreamAfter(rows[..k], kind, interval)
  {
    hide StreamStep;
    if k < |rows| {
      assert rows[..|rows| - 1][..k] == rows[..k];
      FaultStays(rows[..|rows| - 1], k, kind, interval);
    } else {
      assert rows[..k] == rows;
    }
  }

  /** `integer_stream`: one pass, with the running values in variables. */
  method Run(rows: seq<Candle>, kind: Kind, interval: int) returns (bars: Result<seq<Bar>, Fault>)
    ensures
      match StreamAfter(rows, kind, interval)
      case Ok(s) => bars == Ok(s.bars)
      case Err(fault) => bars == Err(fault)
  {
    hide AverageStep, TrendStep, Quantize;
    var time: Option<int> := None;
    var averages, trend := START.averages, START.trend;
    var done: seq<Bar> := [];
    var i := 0;
    while i < |rows|
      invariant 0 <= i <= |rows|
      invariant StreamAfter(rows[..i], kind, interval) == Ok(Stream(time, averages, trend, done))
    {
      var c := rows[i];
      Extends(rows, i);
      ghost var stepped := StreamAfter(rows[..i + 1], kind, interval);
      if stepped.Err? {
        FaultStays(rows, i + 1, kind, interval);
      }
      if time.Some? && c.openTime != time.value + interval {
        return Err(NonContiguous);
      }
      time := Some(c.openTime);
      var price := Quantize(c.close, true);
      if price.Err? {
        return Err(price.error);
      }
      var volume := Quantize(c.volume, false);
      if volume.Err? {
        return Err(volume.error);
      }
      if kind == AVERAGE {
        var next := AverageBar(averages, price.value, volume.value);
        if next.Err? {
          return Err(next.error);
        }
        averages, done := next.value.0, done + [next.value.1];
      } else {
        var next := TrendBar(trend, price.value, volume.value);
        if next.Err? {
          return Err(next.error);
        }
        trend, done := next.value.0, done + [next.value.1];
      }
      i := i + 1;
    }
    assert rows[..i] == rows;
    return Ok(done);
  }

  lemma Extends(rows: seq<Candle>, i: nat)
    requires i < |rows|
    ensures rows[..i + 1][..|rows[..i + 1]| - 1] == rows[..i] && rows[..i + 1][|rows[..i + 1]| - 1] == rows[i]
  {
  }

  /** The branch of the loop for the crossing averages, variable by variable. */
  method AverageBar(s: Averages, price: int, volume: int) returns (next: Result<(Averages, Bar), Fault>)
    ensures next == AverageStep(s, price, volume)
  {
    var fast, slow, initial := s.fast, s.slow, s.initial;
    if |initial| < SLOW_PERIOD {
      initial := initial + [price];
    }
    if fast.None? {
      if |initial| == FAST_PERIOD {
        var x := Checked(Sum(initial));
        if x.Err? { return Err(x.error); }
        fast := Some(x.value / FAST_PERIOD);
      }
    } else {
      var x := Checked(7 * fast.value + 2 * price);
      if x.Err? { return Err(x.error); }
      fast := Some(x.value / 9);
    }
    if slow.None? {
      if |initial| == SLOW_PERIOD {
        var x := Checked(Sum(initial));
        if x.Err? { return Err(x.error); }
        slow := Some(x.value / SLOW_PERIOD);
      }
    } else {
      var x := Checked(20 * slow.value + 2 * price);
      if x.Err? { return Err(x.error); }
      slow := Some(x.value / 22);
    }
    var ready := fast.Some? && slow.Some? && s.fast.Some? && s.slow.Some?;
    var enter := ready && fast.value > slow.value && s.fast.value <= s.slow.value && volume > 0;
    var leave := ready && slow.value > fast.value && s.slow.value <= s.fast.value && volume > 0;
    return Ok((Averages(fast, slow, initial), Bar([enter, leave], [fast, slow])));
  }

  /** The branch of the loop for the trend and the on-balance volume. */
  method TrendBar(s: Trends, price: int, volume: int) returns (next: Result<(Trends, Bar), Fault>)
    ensures next == TrendStep(s, price, volume)
  {
    var ema, obv := price, volume;
    if s.After? {
      var x := Checked(19 * s.ema + 2 * price);
      if x.Err? { return Err(x.error); }
      ema := x.value / 21;
      var y := Checked(s.obv + Flow(price, s.close, volume));
      if y.Err? { return Err(y.error); }
      obv := y.value;
    }
    var up := s.After? && price > ema && s.close <= s.ema;
    var down := s.After? && price < ema && s.close >= s.ema;
    var rise, fall := s.After? && obv > s.obv, s.After? && obv < s.obv;
    return Ok((After(price, ema, obv), Bar([up && rise, down && fall, down && rise, up && fall], [Some(ema), Some(obv)])));
  }
}
