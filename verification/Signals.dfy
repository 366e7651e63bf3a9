/**
 The deterministic signal engine: moving averages, an average true range and the price levels of one
 signal, in exact arithmetic, and the rounding of those levels to the tick.
 */
module Signals {
  import opened Common
  import opened Sizing

  datatype Candle = Candle(category: Category, symbol: string, closed: bool, openPrice: real, highPrice: real,
                           lowPrice: real, closePrice: real, volume: real)

  datatype Family = MomentumTrend | OtherFamily

  /** The parts of a strategy the engine, the sizing policy and the replay read. */
  datatype Strategy = Strategy(family: Family, window: int, longOnly: bool, leverageMax: real, maxPositionPct: real,
                               reserveFloorPct: real, feeBps: real, spreadBps: real, slippageBps: real,
                               cooldownBars: nat)

  datatype Ticker = Ticker(category: Category, symbol: string, lastPrice: real)

  datatype Signal = Signal(side: Side, entryPrice: real, stopLoss: real, takeProfit: real, suggestedLeverage: real,
                           rewardToRisk: real, trendStrength: real, realizedVolatility: real, volumeRatio: real)

  /** What evaluation raises: foreign or open candles, or a signal that fails its own validation. */
  datatype SignalFailure = ForeignCandles | InvalidSignal

  predicate ValidStrategy(strategy: Strategy) {
    && 2 <= strategy.window <= 730
    && 1.0 <= strategy.leverageMax <= 20.0
    && 0.0 < strategy.maxPositionPct <= 1.0
    && 0.0 <= strategy.reserveFloorPct <= 1.0
    && 0.0 <= strategy.feeBps <= 500.0 && 0.0 <= strategy.spreadBps <= 500.0 && 0.0 <= strategy.slippageBps <= 1000.0
  }

  // ----- windows

  function SlowWindow(strategy: Strategy, shift: int): (n: nat)
    ensures n >= 3
  {
    if strategy.window + shift < 3 then 3 else strategy.window + shift
  }

  function FastWindow(strategy: Strategy, shift: int): (n: nat)
    ensures 2 <= n < SlowWindow(strategy, shift)
  {
    var wanted := if 20 + shift < 2 then 2 else 20 + shift;
    if wanted < SlowWindow(strategy, shift) - 1 then wanted else SlowWindow(strategy, shift) - 1
  }

  /** The last n elements, or all of them. */
  function Last<T>(items: seq<T>, n: nat): (tail: seq<T>)
    ensures |tail| == if n < |items| then n else |items|
  {
    if n < |items| then items[|items| - n..] else items
  }

  function Sum(values: seq<real>): real {
    if |values| == 0 then 0.0 else Sum(values[..|values| - 1]) + values[|values| - 1]
  }

  function Closes(candles: seq<Candle>): (closes: seq<real>)
    ensures |closes| == |candles|
  {
    seq(|candles|, i requires 0 <= i < |candles| => candles[i].closePrice)
  }

  function Volumes(candles: seq<Candle>): (volumes: seq<real>)
    ensures |volumes| == |candles|
  {
    seq(|candles|, i requires 0 <= i < |candles| => candles[i].volume)
  }

  function Average(values: seq<real>): real
    requires |values| > 0
  {
    Sum(values) / |values| as real
  }

  /** The range of a bar against the close before it; the first bar is measured from its own open. */
  function TrueRange(candles: seq<Candle>, i: nat): real
    requires i < |candles|
  {
    var before := if i > 0 then candles[i - 1].closePrice else candles[i].openPrice;
    Max(candles[i].highPrice - candles[i].lowPrice,
        Max(Abs(candles[i].highPrice - before), Abs(candles[i].lowPrice - before)))
  }

  function TrueRanges(candles: seq<Candle>): (ranges: seq<real>)
    ensures |ranges| == |candles|
  {
    seq(|candles|, i requires 0 <= i < |candles| => TrueRange(candles, i))
  }

  method AverageTrueRange(candles: seq<Candle>) returns (average: real)
    requires |candles| > 0
    ensures average == Average(TrueRanges(candles))
  {
    var ranges: seq<real> := [];
    for i := 0 to |candles|
      invariant ranges == TrueRanges(candles)[..i]
    {
      var candle := candles[i];
      var before := if i > 0 then candles[i - 1].closePrice else candle.openPrice;
      var range := candle.highPrice - candle.lowPrice;
      if Abs(candle.highPrice - before) > range { range := Abs(candle.highPrice - before); }
      if Abs(candle.lowPrice - before) > range { range := Abs(candle.lowPrice - before); }
      assert range == TrueRange(candles, i);
      ranges := ranges + [range];
    }
    assert ranges == TrueRanges(candles);
    return Average(ranges);
  }

  // ----- evaluation

  predicate Matches(candle: Candle, ticker: Ticker) {
    candle.symbol == ticker.symbol && candle.category == ticker.category && candle.closed
  }

  function TrendStrength(fast: real, slow: real, last: real): real
    requires last > 0.0
  {
    Abs(fast - slow) / last
  }

  /** The side the averages point to, if they point anywhere. */
  function SideOf(strategy: Strategy, fast: real, slow: real, last: real): Option<Side> {
    if last > fast > slow then Some(Buy)
    else if last < fast < slow && !strategy.longOnly then Some(Sell)
    else None
  }

  function StopDistance(range: real, last: real): (distance: real)
    requires last > 0.0
    ensures distance > 0.0
  {
    Max(range * 1.5, last * 0.005)
  }

  function RewardFor(strength: real): real {
    1.5 + Min(1.5, strength * 50.0)
  }

  function StopFor(side: Side, last: real, distance: real): real {
    if side == Buy then last - distance else last + distance
  }

  function TargetFor(side: Side, last: real, distance: real, reward: real): real {
    if side == Buy then last + distance * reward else last - distance * reward
  }

  function LeverageFor(strategy: Strategy, distance: real, last: real): real
    requires last > 0.0 && distance > 0.0
  {
    FractionPositive(distance, last);
    Min(Min(20.0, strategy.leverageMax), Max(1.0, 0.1 / (distance / last)))
  }

  function VolumeRatio(candles: seq<Candle>): real
    requires |candles| > 0
  {
    var average := Average(Volumes(Last(candles, 20)));
    if average > 0.0 then candles[|candles| - 1].volume / average else 0.0
  }

  /** The signal for known averages and range. */
  function SignalFor(strategy: Strategy, side: Side, range: real, strength: real, ratio: real,
                     last: real): Result<Option<Signal>, SignalFailure>
    requires last > 0.0
  {
    var distance, reward := StopDistance(range, last), RewardFor(strength);
    if TargetFor(side, last, distance, reward) <= 0.0 then Ok(None)
    else if StopFor(side, last, distance) <= 0.0 then Err(InvalidSignal)
    else
      Ok(Some(Signal(side, last, StopFor(side, last, distance), TargetFor(side, last, distance, reward),
                     LeverageFor(strategy, distance, last), reward, strength, range / last, ratio)))
  }

  function Evaluate(strategy: Strategy, candles: seq<Candle>, ticker: Ticker,
                    shift: int): Result<Option<Signal>, SignalFailure>
    requires ticker.lastPrice > 0.0
  {
    var slowWindow, fastWindow := SlowWindow(strategy, shift), FastWindow(strategy, shift);
    if !strategy.family.MomentumTrend? || |candles| < slowWindow then Ok(None)
    else if exists candle :: candle in candles && !Matches(candle, ticker) then Err(ForeignCandles)
    else
      var fast, slow := Average(Closes(Last(candles, fastWindow))), Average(Closes(Last(candles, slowWindow)));
      var strength, side := TrendStrength(fast, slow, ticker.lastPrice), SideOf(strategy, fast, slow, ticker.lastPrice);
      if strength < 0.002 || side.None? then Ok(None)
      else SignalFor(strategy, side.value, Average(TrueRanges(Last(candles, 15))), strength, VolumeRatio(candles),
                     ticker.lastPrice)
  }

  // ----- a signal depends on the newest candles only

  lemma LastOfSame<T>(a: seq<T>, b: seq<T>, n: nat, m: nat)
    requires m <= n <= |a| && n <= |b| && Last(a, n) == Last(b, n)
    ensures Last(a, m) == Last(b, m)
  {
    forall i | 0 <= i < m ensures Last(a, m)[i] == Last(b, m)[i] {
      assert Last(a, n)[n - m + i] == a[|a| - m + i];
      assert Last(b, n)[n - m + i] == b[|b| - m + i];
    }
  }

  /** Histories of the ticker that share their last max(slow window, 20) candles give the same signal. */
  lemma OnlyNewestMatter(strategy: Strategy, a: seq<Candle>, b: seq<Candle>, ticker: Ticker, shift: int, n: nat)
    requires ticker.lastPrice > 0.0 && n >= 20 && n >= SlowWindow(strategy, shift)
    requires n <= |a| && n <= |b| && Last(a, n) == Last(b, n)
    requires (forall candle :: candle in a ==> Matches(candle, ticker)) && forall candle :: candle in b ==>
               Matches(candle, ticker)
    ensures Evaluate(strategy, a, ticker, shift) == Evaluate(strategy, b, ticker, shift)
  {
    LastOfSame(a, b, n, SlowWindow(strategy, shift));
    LastOfSame(a, b, n, FastWindow(strategy, shift));
    LastOfSame(a, b, n, 15);
    LastOfSame(a, b, n, 20);
    LastOfSame(a, b, n, 1);
    assert Last(a, 1)[0] == a[|a| - 1] && Last(b, 1)[0] == b[|b| - 1];
    hide Last, SignalFor, SideOf, TrendStrength, Average, TrueRanges, Closes, Volumes, Matches;
  }

  // ----- what every signal promises

  function StopSpan(s: Signal): real {
    if s.side == Buy then s.entryPrice - s.stopLoss else s.stopLoss - s.entryPrice
  }

  /**
   Levels stand on their sides of the entry, the reward is bounded, and leverage never stretches the stop
   past a tenth.
   */
  predicate Sane(s: Signal) {
    && s.entryPrice > 0.0 && s.stopLoss > 0.0 && s.takeProfit > 0.0
    && StopSpan(s) > 0.0
    && 1.5 <= s.rewardToRisk <= 3.0
    && s.takeProfit == TargetFor(s.side, s.entryPrice, StopSpan(s), s.rewardToRisk)
    && 1.0 <= s.suggestedLeverage <= 20.0
    && s.suggestedLeverage * (StopSpan(s) / s.entryPrice) <= Max(0.1, StopSpan(s) / s.entryPrice)
    && s.trendStrength >= 0.002
  }

  lemma LeverageTempered(strategy: Strategy, distance: real, last: real)
    requires ValidStrategy(strategy) && distance > 0.0 && last > 0.0
    ensures 1.0 <= LeverageFor(strategy, distance, last) <= Min(20.0, strategy.leverageMax)
    ensures LeverageFor(strategy, distance, last) * (distance / last) <= Max(0.1, distance / last)
  {
    var fraction, leverage := distance / last, LeverageFor(strategy, distance, last);
    FractionPositive(distance, last);
    assert leverage <= Max(1.0, 0.1 / fraction);
    DivTimes(0.1, fraction);
    if leverage > 1.0 {
      assert leverage <= 0.1 / fraction || leverage <= 1.0;
      TimesMonotone(leverage, 0.1 / fraction, fraction);
    }
  }

  lemma SignalsAreSane(strategy: Strategy, candles: seq<Candle>, ticker: Ticker, shift: int)
    requires ValidStrategy(strategy) && ticker.lastPrice > 0.0
    ensures var r := Evaluate(strategy, candles, ticker, shift);
            r.Ok? && r.value.Some? ==> Sane(r.value.value) && r.value.value.entryPrice == ticker.lastPrice
  {
    if Evaluate(strategy, candles, ticker, shift).Err? || Evaluate(strategy, candles, ticker, shift).value.None? {
      return;
    }
    var last := ticker.lastPrice;
    var fast := Average(Closes(Last(candles, FastWindow(strategy, shift))));
    var slow := Average(Closes(Last(candles, SlowWindow(strategy, shift))));
    var range := Average(TrueRanges(Last(candles, 15)));
    hide Average, TrueRanges, Closes, Last, Volumes, VolumeRatio, Sane, TrendStrength;
    SaneFor(strategy, SideOf(strategy, fast, slow, last).value, range, TrendStrength(fast, slow, last),
            VolumeRatio(candles), last);
  }

  lemma SaneFor(strategy: Strategy, side: Side, range: real, strength: real, ratio: real, last: real)
    requires ValidStrategy(strategy) && last > 0.0 && strength >= 0.002
    requires SignalFor(strategy, side, range, strength, ratio, last).Ok? &&
             SignalFor(strategy, side, range, strength, ratio, last).value.Some?
    ensures Sane(SignalFor(strategy, side, range, strength, ratio, last).value.value)
    ensures SignalFor(strategy, side, range, strength, ratio, last).value.value.entryPrice == last
  {
    var distance := StopDistance(range, last);
    LeverageTempered(strategy, distance, last);
    hide LeverageFor, StopDistance;
  }

  // ----- when evaluation raises

  ghost predicate Foreign(candles: seq<Candle>, ticker: Ticker) {
    exists candle :: candle in candles && !Matches(candle, ticker)
  }

  /** The averages call for a buy, and its stop distance reaches the price: the stop would not be positive. */
  predicate WideStop(strategy: Strategy, candles: seq<Candle>, ticker: Ticker, shift: int)
    requires ticker.lastPrice > 0.0 && |candles| >= SlowWindow(strategy, shift)
  {
    var fast := Average(Closes(Last(candles, FastWindow(strategy, shift))));
    var slow := Average(Closes(Last(candles, SlowWindow(strategy, shift))));
    && TrendStrength(fast, slow, ticker.lastPrice) >= 0.002
    && ticker.lastPrice > fast > slow
    && StopDistance(Average(TrueRanges(Last(candles, 15))), ticker.lastPrice) >= ticker.lastPrice
  }

  /**
   Evaluation raises if and only if a momentum strategy sees enough candles, and one is foreign or a buy
   stop would not be positive.
   */
  lemma RaisesIff(strategy: Strategy, candles: seq<Candle>, ticker: Ticker, shift: int)
    requires ticker.lastPrice > 0.0
    ensures Evaluate(strategy, candles, ticker, shift).Err? <==>
            && strategy.family.MomentumTrend? && |candles| >= SlowWindow(strategy, shift)
            && (Foreign(candles, ticker) || WideStop(strategy, candles, ticker, shift))
    ensures Evaluate(strategy, candles, ticker, shift) == Err(ForeignCandles) <==>
            strategy.family.MomentumTrend? && |candles| >= SlowWindow(strategy, shift) && Foreign(candles, ticker)
  {
    hide Average, TrueRanges, Closes, Last, VolumeRatio, TrendStrength, SignalFor, StopDistance, SlowWindow,
         FastWindow, Matches;
    if |candles| >= SlowWindow(strategy, shift) {
      var fast := Average(Closes(Last(candles, FastWindow(strategy, shift))));
      var slow := Average(Closes(Last(candles, SlowWindow(strategy, shift))));
      var strength, last := TrendStrength(fast, slow, ticker.lastPrice), ticker.lastPrice;
      if strength >= 0.002 && SideOf(strategy, fast, slow, last).Some? {
        SignalRaisesIff(strategy, SideOf(strategy, fast, slow, last).value, Average(TrueRanges(Last(candles, 15))),
                        strength, VolumeRatio(candles), last);
      }
    }
  }

  lemma SignalRaisesIff(strategy: Strategy, side: Side, range: real, strength: real, ratio: real, last: real)
    requires last > 0.0 && strength >= 0.002
    ensures SignalFor(strategy, side, range, strength, ratio, last).Err? <==>
            side == Buy && StopDistance(range, last) >= last
    ensures SignalFor(strategy, side, range, strength, ratio, last) != Err(ForeignCandles)
  {
    var distance, reward := StopDistance(range, last), RewardFor(strength);
    TimesMonotone(1.5, reward, distance);
    assert distance * reward == reward * distance;
    hide StopDistance, LeverageFor;
  }

  lemma {:induction false} SumAtLeast(values: seq<real>, low: real)
    requires forall i :: 0 <= i < |values| ==> values[i] >= low
    ensures Sum(values) >= low * |values| as real
  {
    if |values| == 0 {
      assert low * 0.0 == 0.0;
    } else {
      SumAtLeast(values[..|values| - 1], low);
      OneMore((|values| - 1) as real, low);
    }
  }

  /** Values that are all at least a bound have an average of at least it. */
  lemma AverageAtLeast(values: seq<real>, low: real)
    requires |values| > 0 && forall i :: 0 <= i < |values| ==> values[i] >= low
    ensures Average(values) >= low
  {
    SumAtLeast(values, low);
    AtMostIff(low, |values| as real, Sum(values));
  }

  const BREAKOUT := Strategy(MomentumTrend, 3, true, 1.0, 0.5, 0.1, 10.0, 8.0, 5.0, 1)

  function Wild(close: real): Candle {
    Candle(Linear, "BTCUSDT", true, 2.0, 10.0, 0.5, close, 1.0)
  }

  /** Three valid closed candles of the ticker on which evaluation raises. */
  lemma WildCandlesRaise()
    ensures var candles := [Wild(1.0), Wild(2.0), Wild(3.0)];
            && Evaluate(BREAKOUT, candles, Ticker(Linear, "BTCUSDT", 3.0), 0) == Err(InvalidSignal)
            && !Foreign(candles, Ticker(Linear, "BTCUSDT", 3.0))
  {
    var candles, ticker := [Wild(1.0), Wild(2.0), Wild(3.0)], Ticker(Linear, "BTCUSDT", 3.0);
    WildAverages(candles);
    AverageAtLeast(TrueRanges(Last(candles, 15)), 9.5);
    hide Average, TrueRanges, Closes;
    assert WideStop(BREAKOUT, candles, ticker, 0);
    RaisesIff(BREAKOUT, candles, ticker, 0);
  }

  lemma WildAverages(candles: seq<Candle>)
    requires |candles| >= 3 && candles[|candles| - 3..] == [Wild(1.0), Wild(2.0), Wild(3.0)]
    ensures Average(Closes(Last(candles, 3))) == 2.0 && Average(Closes(Last(candles, 2))) == 2.5
  {
    assert Last(candles, 3) == [Wild(1.0), Wild(2.0), Wild(3.0)];
    assert Last(candles, 2) == Last(candles, 3)[1..] == [Wild(2.0), Wild(3.0)];
    assert Closes(Last(candles, 3)) == [1.0, 2.0, 3.0];
    assert Closes(Last(candles, 2)) == [2.0, 3.0];
    assert [1.0, 2.0, 3.0][..2] == [1.0, 2.0] && [1.0, 2.0][..1] == [1.0] && [1.0][..0] == [];
    assert [2.0, 3.0][..1] == [2.0] && [2.0][..0] == [];
    assert Sum([1.0, 2.0]) == 3.0 && Sum([1.0, 2.0, 3.0]) == 6.0 && Sum([2.0]) == 2.0 && Sum([2.0, 3.0]) == 5.0;
  }

  // ----- rounding to the tick

  function RoundDown(value: real, tick: real): real
    requires tick > 0.0
  {
    FloorToStep(value, tick)
  }

  function Ceiling(x: real): int {
    -((-x).Floor)
  }

  function RoundUp(value: real, tick: real): real
    requires tick > 0.0
  {
    Ceiling(value / tick) as real * tick
  }

  datatype Levels = Levels(entry: real, stop: real, target: real)

  function RoundedLevels(s: Signal, tick: real): Levels
    requires tick > 0.0
  {
    if s.side == Buy
    then Levels(RoundDown(s.entryPrice, tick), RoundDown(s.stopLoss, tick), RoundDown(s.takeProfit, tick))
    else Levels(RoundDown(s.entryPrice, tick), RoundUp(s.stopLoss, tick), RoundUp(s.takeProfit, tick))
  }

  lemma RoundDownNear(value: real, tick: real)
    requires tick > 0.0 && value > 0.0
    ensures value - tick < RoundDown(value, tick) <= value
    ensures RoundDown(value, tick) > 0.0 <==> value >= tick
    ensures RoundDown(value, tick) >= 0.0
  {
    var k := Truncate(value / tick);
    DivNonnegative(value, tick);
    AtMostIff(k as real, tick, value);
    AtMostIff((k + 1) as real, tick, value);
    AtMostIff(1.0, tick, value);
    TimesMonotone(0.0, k as real, tick);
    if k >= 1 { TimesMonotone(1.0, k as real, tick); }
    OneMore(k as real, tick);
  }

  lemma CeilingNear(x: real)
    ensures Ceiling(x) as real - 1.0 < x <= Ceiling(x) as real
  {
    var floor := (-x).Floor;
    assert floor as real <= -x < floor as real + 1.0;
    assert Ceiling(x) as real == -(floor as real);
  }

  lemma StepNotBelow(steps: real, quotient: real, value: real, tick: real)
    requires tick > 0.0 && quotient * tick == value && quotient <= steps
    ensures value <= steps * tick
  {
    TimesMonotone(quotient, steps, tick);
  }

  lemma StepNotAbove(steps: real, quotient: real, value: real, tick: real)
    requires tick > 0.0 && quotient * tick == value && steps < quotient + 1.0
    ensures steps * tick < value + tick
  {
    TimesStrict(steps, quotient + 1.0, tick);
    OneMore(quotient, tick);
  }

  lemma OneMore(x: real, y: real)
    ensures (x + 1.0) * y == x * y + y
  {
  }

  lemma RoundUpNear(value: real, tick: real)
    requires tick > 0.0 && value > 0.0
    ensures value <= RoundUp(value, tick) < value + tick
  {
    CeilingNear(value / tick);
    DivTimes(value, tick);
    StepNotBelow(Ceiling(value / tick) as real, value / tick, value, tick);
    StepNotAbove(Ceiling(value / tick) as real, value / tick, value, tick);
    hide Ceiling;
  }

  predicate ValidLevels(side: Side, levels: Levels) {
    levels.entry > 0.0 && levels.stop > 0.0 && levels.target > 0.0 &&
      Directional(side, levels.entry, levels.stop, levels.target)
  }

  /** A buy stop at least one tick away, or a sell target at least two. */
  predicate WideEnough(s: Signal, tick: real) {
    if s.side == Buy then StopSpan(s) >= tick else s.entryPrice - s.takeProfit >= 2.0 * tick
  }

  lemma TargetBeyond(s: Signal)
    requires Sane(s)
    ensures if s.side == Buy then s.takeProfit - s.entryPrice >= 1.5 * StopSpan(s)
            else s.entryPrice - s.takeProfit >= 1.5 * StopSpan(s)
  {
    TimesMonotone(1.5, s.rewardToRisk, StopSpan(s));
    assert StopSpan(s) * s.rewardToRisk == s.rewardToRisk * StopSpan(s);
  }

  lemma BuyRounds(s: Signal, tick: real)
    requires tick > 0.0 && Sane(s) && WideEnough(s, tick) && s.side == Buy
    ensures var levels := RoundedLevels(s, tick);
            levels.stop < levels.entry < levels.target && (levels.stop > 0.0 <==> s.stopLoss >= tick) &&
              levels.stop >= 0.0
  {
    TargetBeyond(s);
    RoundDownNear(s.entryPrice, tick);
    RoundDownNear(s.stopLoss, tick);
    RoundDownNear(s.takeProfit, tick);
    hide RoundDown, TargetFor;
  }

  lemma SellRounds(s: Signal, tick: real)
    requires tick > 0.0 && Sane(s) && WideEnough(s, tick) && s.side == Sell
    ensures var levels := RoundedLevels(s, tick); 0.0 < levels.target < levels.entry < levels.stop
  {
    RoundDownNear(s.entryPrice, tick);
    RoundUpNear(s.stopLoss, tick);
    RoundUpNear(s.takeProfit, tick);
    hide RoundDown, RoundUp, TargetFor;
  }

  /**
   On a wide enough signal, rounding keeps the strict order; the levels are valid unless a buy stop is
   below one tick.
   */
  lemma RoundedValidIff(s: Signal, tick: real)
    requires tick > 0.0 && Sane(s) && WideEnough(s, tick)
    ensures Directional(s.side, RoundedLevels(s, tick).entry, RoundedLevels(s, tick).stop,
                        RoundedLevels(s, tick).target)
    ensures ValidLevels(s.side, RoundedLevels(s, tick)) <==> (s.side == Buy ==> s.stopLoss >= tick)
  {
    if s.side == Buy { BuyRounds(s, tick); } else { SellRounds(s, tick); }
    hide RoundedLevels, WideEnough, Sane;
  }

  /** Two ticks between entry and stop are wide enough on either side. */
  lemma TwoTicksSuffice(s: Signal, tick: real)
    requires tick > 0.0 && Sane(s) && StopSpan(s) >= 2.0 * tick
    ensures WideEnough(s, tick)
  {
    TargetBeyond(s);
  }
}
