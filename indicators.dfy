/**
 * The indicator engine (indicators.py): simple moving average, Wilder-smoothed
 * RSI and the fixed MA(20/50) + RSI(14) rule table, over a price window.
 */
module Indicators {
  import opened Outcomes
  import opened Models

  /** The `ValueError` raised for a non-positive period. */
  datatype IndicatorError = NonPositivePeriod

  /** Sum of `xs`, accumulated oldest first. */
  function Sum(xs: seq<real>): (total: real)
    ensures (forall k :: 0 <= k < |xs| ==> xs[k] >= 0.0) ==> total >= 0.0
    decreases |xs|
  {
    if xs == [] then 0.0 else Sum(xs[..|xs| - 1]) + xs[|xs| - 1]
  }

  lemma {:induction false} SumPositive(xs: seq<real>)
    requires xs != []
    requires forall k :: 0 <= k < |xs| ==> xs[k] > 0.0
    ensures Sum(xs) > 0.0
    decreases |xs|
  {
    if |xs| > 1 {
      SumPositive(xs[..|xs| - 1]);
    } else {
      assert xs[..0] == [];
    }
  }

  lemma {:induction false} SumZero(xs: seq<real>)
    requires forall k :: 0 <= k < |xs| ==> xs[k] == 0.0
    ensures Sum(xs) == 0.0
    decreases |xs|
  {
    if xs != [] {
      SumZero(xs[..|xs| - 1]);
    }
  }

  // ---------------------------------------------------------------- SMA

  /**
   * `calculate_sma`: the mean of the last `period` prices; with fewer prices the
   * last price, and 0.0 for an empty window.
   */
  function Sma(prices: seq<real>, period: int): (r: Result<real, IndicatorError>)
    ensures r.Err? <==> period <= 0
    ensures r.Ok? && prices == [] ==> r.value == 0.0
    ensures r.Ok? && 0 < |prices| < period ==> r.value == prices[|prices| - 1]
  {
    if period <= 0 then Err(NonPositivePeriod)
    else if |prices| == 0 then Ok(0.0)
    else if |prices| < period then Ok(prices[|prices| - 1])
    else Ok(Sum(prices[|prices| - period..]) / period as real)
  }

  /** Prices older than the last `period` do not affect the SMA. */
  lemma SmaIgnoresOlderPrices(older: seq<real>, recent: seq<real>, period: int)
    requires 0 < period <= |recent|
    ensures Sma(older + recent, period) == Sma(recent, period)
  {
    assert (older + recent)[|older + recent| - period..] == recent[|recent| - period..];
  }

  /** `calculate_sma` as written: one pass that adds every price from `n - period` on. */
  method CalculateSma(prices: seq<real>, period: int) returns (r: Result<real, IndicatorError>)
    ensures r == Sma(prices, period)
  {
    if period <= 0 {
      return Err(NonPositivePeriod);
    }
    var n := |prices|;
    if n == 0 {
      return Ok(0.0);
    }
    if n < period {
      return Ok(prices[n - 1]);
    }
    var startIndex := n - period;
    var total := 0.0;
    for i := 0 to n
      invariant i <= startIndex ==> total == 0.0
      invariant i >= startIndex ==> total == Sum(prices[startIndex..i])
    {
      if i >= startIndex {
        assert prices[startIndex..i + 1][..i - startIndex] == prices[startIndex..i];
        total := total + prices[i];
      }
    }
    assert prices[startIndex..n] == prices[startIndex..];
    return Ok(total / period as real);
  }

  // ---------------------------------------------------------------- RSI

  /** Differences between consecutive closes. */
  function Deltas(closes: seq<real>): (ds: seq<real>)
    ensures |ds| == if closes == [] then 0 else |closes| - 1
  {
    if closes == [] then []
    else seq(|closes| - 1, i requires 0 <= i < |closes| - 1 => closes[i + 1] - closes[i])
  }

  /** `max(d, 0.0)`. */
  function Gain(d: real): real { if d >= 0.0 then d else 0.0 }

  /** `max(-d, 0.0)`. */
  function Loss(d: real): real { if -d >= 0.0 then -d else 0.0 }

  function Gains(ds: seq<real>): (gs: seq<real>)
    ensures |gs| == |ds|
    ensures forall k :: 0 <= k < |gs| ==> gs[k] >= 0.0
  {
    seq(|ds|, i requires 0 <= i < |ds| => Gain(ds[i]))
  }

  function Losses(ds: seq<real>): (ls: seq<real>)
    ensures |ls| == |ds|
    ensures forall k :: 0 <= k < |ls| ==> ls[k] >= 0.0
  {
    seq(|ds|, i requires 0 <= i < |ds| => Loss(ds[i]))
  }

  lemma PrefixOfMap(ds: seq<real>, k: nat)
    requires k <= |ds|
    ensures Gains(ds[..k]) == Gains(ds)[..k]
    ensures Losses(ds[..k]) == Losses(ds)[..k]
  {
  }

  /**
   * Wilder's average of `xs`: the simple mean of the first `period` values, then
   * `avg := (avg * (period - 1) + x) / period` for each later value, in order.
   */
  function WilderAverage(xs: seq<real>, period: int): (avg: real)
    requires 0 < period <= |xs|
    ensures (forall k :: 0 <= k < |xs| ==> xs[k] >= 0.0) ==> avg >= 0.0
    decreases |xs|
  {
    if |xs| == period then Sum(xs) / period as real
    else Smooth(WilderAverage(xs[..|xs| - 1], period), xs[|xs| - 1], period)
  }

  /** Wilder's recurrence: one more value folded into a running average. */
  function Smooth(avg: real, x: real, period: int): (r: real)
    requires period > 0
    ensures avg >= 0.0 && x >= 0.0 ==> r >= 0.0
  {
    (avg * (period - 1) as real + x) / period as real
  }

  /** One smoothing step extends the average of a prefix by the next value. */
  lemma WilderAverageStep(xs: seq<real>, k: int, period: int)
    requires 0 < period <= k < |xs|
    ensures WilderAverage(xs[..k + 1], period) == Smooth(WilderAverage(xs[..k], period), xs[k], period)
  {
    assert xs[..k + 1][..k] == xs[..k];
  }

  lemma SmoothingStep(avg: real, x: real, period: int)
    requires period > 0
    ensures avg > 0.0 && x > 0.0 ==> Smooth(avg, x, period) > 0.0
    ensures avg == 0.0 && x == 0.0 ==> Smooth(avg, x, period) == 0.0
  {
    if avg > 0.0 {
      assert avg * (period - 1) as real >= 0.0;
    }
  }

  lemma {:induction false} WilderAveragePositive(xs: seq<real>, period: int)
    requires 0 < period <= |xs|
    requires forall k :: 0 <= k < |xs| ==> xs[k] > 0.0
    ensures WilderAverage(xs, period) > 0.0
    decreases |xs|
  {
    if |xs| == period {
      SumPositive(xs);
    } else {
      WilderAveragePositive(xs[..|xs| - 1], period);
      SmoothingStep(WilderAverage(xs[..|xs| - 1], period), xs[|xs| - 1], period);
    }
  }

  lemma {:induction false} WilderAverageZero(xs: seq<real>, period: int)
    requires 0 < period <= |xs|
    requires forall k :: 0 <= k < |xs| ==> xs[k] == 0.0
    ensures WilderAverage(xs, period) == 0.0
    decreases |xs|
  {
    if |xs| == period {
      SumZero(xs);
    } else {
      WilderAverageZero(xs[..|xs| - 1], period);
      SmoothingStep(WilderAverage(xs[..|xs| - 1], period), xs[|xs| - 1], period);
    }
  }

  /** RSI from the two averages, with the neutral cases for a zero average, before clamping. */
  function RawRsi(avgGain: real, avgLoss: real): real
    requires avgGain >= 0.0 && avgLoss >= 0.0
  {
    if avgLoss == 0.0 then (if avgGain == 0.0 then 50.0 else 100.0)
    else if avgGain == 0.0 then 0.0
    else 100.0 - 100.0 / (1.0 + avgGain / avgLoss)
  }

  /** The defensive bound to [0, 100]. */
  function Clamp(x: real): (r: real)
    ensures 0.0 <= r <= 100.0
    ensures 0.0 <= x <= 100.0 ==> r == x
  {
    if x < 0.0 then 0.0 else if x > 100.0 then 100.0 else x
  }

  /** `calculate_rsi`: Wilder's RSI over every delta of the window, 50.0 when data is insufficient. */
  function Rsi(prices: seq<real>, period: int): (r: Result<real, IndicatorError>)
    ensures r.Err? <==> period <= 0
    ensures r.Ok? ==> 0.0 <= r.value <= 100.0
    ensures r.Ok? && |prices| < period + 1 ==> r.value == 50.0
  {
    if period <= 0 then Err(NonPositivePeriod)
    else if |prices| < period + 1 then Ok(50.0)
    else
      var ds := Deltas(prices);
      Ok(Clamp(RawRsi(WilderAverage(Gains(ds), period), WilderAverage(Losses(ds), period))))
  }

  /** With non-negative averages the RSI formula stays within [0, 100] on its own. */
  lemma RawRsiInRange(avgGain: real, avgLoss: real)
    requires avgGain >= 0.0 && avgLoss >= 0.0
    ensures 0.0 <= RawRsi(avgGain, avgLoss) <= 100.0
  {
    if avgLoss != 0.0 && avgGain != 0.0 {
      var rs := avgGain / avgLoss;
      assert rs > 0.0;
      var d := 1.0 + rs;
      assert d > 1.0;
      assert 100.0 / d < 100.0 by {
        assert 100.0 / d * d == 100.0;
      }
      assert 100.0 / d > 0.0;
    }
  }

  /** Both averages stay non-negative through seeding and smoothing, so the clamp never fires. */
  lemma RsiNeedsNoClamp(prices: seq<real>, period: int)
    requires 0 < period && period + 1 <= |prices|
    ensures var ds := Deltas(prices);
            var avgGain, avgLoss := WilderAverage(Gains(ds), period), WilderAverage(Losses(ds), period);
            && avgGain >= 0.0 && avgLoss >= 0.0
            && 0.0 <= RawRsi(avgGain, avgLoss) <= 100.0
            && Rsi(prices, period) == Ok(RawRsi(avgGain, avgLoss))
  {
    var ds := Deltas(prices);
    RawRsiInRange(WilderAverage(Gains(ds), period), WilderAverage(Losses(ds), period));
  }

  /** With exactly `period + 1` prices no smoothing step runs: the seeds alone decide the RSI. */
  lemma RsiOfSeedWindow(prices: seq<real>, period: int)
    requires 0 < period && |prices| == period + 1
    ensures var ds := Deltas(prices);
            var avgGain, avgLoss := Sum(Gains(ds)) / period as real, Sum(Losses(ds)) / period as real;
            && avgGain >= 0.0 && avgLoss >= 0.0
            && Rsi(prices, period) == Ok(RawRsi(avgGain, avgLoss))
  {
    RsiNeedsNoClamp(prices, period);
  }

  /** A flat price series is neutral: RSI 50. */
  lemma ConstantSeriesRsi(prices: seq<real>, period: int)
    requires 0 < period
    requires forall k :: 0 <= k < |prices| ==> prices[k] == prices[0]
    ensures Rsi(prices, period) == Ok(50.0)
  {
    if |prices| >= period + 1 {
      var ds := Deltas(prices);
      assert forall k :: 0 <= k < |ds| ==> ds[k] == 0.0;
      WilderAverageZero(Gains(ds), period);
      WilderAverageZero(Losses(ds), period);
    }
  }

  /** A strictly increasing series with enough data has no losses at all: RSI 100. */
  lemma IncreasingSeriesRsi(prices: seq<real>, period: int)
    requires 0 < period && period + 1 <= |prices|
    requires forall k :: 0 < k < |prices| ==> prices[k - 1] < prices[k]
    ensures Rsi(prices, period) == Ok(100.0)
  {
    var ds := Deltas(prices);
    assert forall k :: 0 <= k < |ds| ==> ds[k] > 0.0 by {
      forall k | 0 <= k < |ds| ensures ds[k] > 0.0 {
        assert prices[k] < prices[k + 1];
      }
    }
    WilderAveragePositive(Gains(ds), period);
    WilderAverageZero(Losses(ds), period);
  }

  /** `calculate_rsi` as written: seed the averages, then smooth once per remaining delta. */
  method CalculateRsi(prices: seq<real>, period: int) returns (r: Result<real, IndicatorError>)
    ensures r == Rsi(prices, period)
  {
    if period <= 0 {
      return Err(NonPositivePeriod);
    }
    if |prices| < period + 1 {
      return Ok(50.0);
    }
    var deltas := Deltas(prices);
    var gains := Gains(deltas[..period]);
    var losses := Losses(deltas[..period]);
    var avgGain := Sum(gains) / period as real;
    var avgLoss := Sum(losses) / period as real;
    ghost var allGains, allLosses := Gains(deltas), Losses(deltas);
    PrefixOfMap(deltas, period);
    for k := period to |deltas|
      invariant avgGain == WilderAverage(allGains[..k], period)
      invariant avgLoss == WilderAverage(allLosses[..k], period)
    {
      var d := deltas[k];
      assert allGains[k] == Gain(d) && allLosses[k] == Loss(d);
      WilderAverageStep(allGains, k, period);
      WilderAverageStep(allLosses, k, period);
      avgGain := Smooth(avgGain, Gain(d), period);
      avgLoss := Smooth(avgLoss, Loss(d), period);
    }
    assert allGains[..|deltas|] == allGains && allLosses[..|deltas|] == allLosses;
    return Ok(Clamp(RawRsi(avgGain, avgLoss)));
  }

  // ---------------------------------------------------------------- rule table

  /** The fixed MA(20/50) + RSI(14) rule table. */
  function Classify(maShort: real, maLong: real, rsi: real): (s: Signal)
    ensures s.rsi == rsi
    ensures s.trend == Up <==> maShort > maLong
    ensures s.trend == Down <==> maShort < maLong
    ensures s.trend == Flat <==> maShort == maLong
    ensures s.decision == Buy <==> maShort > maLong && rsi < 30.0
    ensures s.decision == Sell <==> maShort < maLong && rsi > 70.0
  {
    if maShort > maLong then Signal(Up, if rsi < 30.0 then Buy else Hold, rsi)
    else if maShort < maLong then Signal(Down, if rsi > 70.0 then Sell else Hold, rsi)
    else Signal(Flat, Hold, rsi)
  }

  /** `determine_trend_and_decision`: the rule table applied to SMA(20), SMA(50) and RSI(14) of one window. */
  function TrendAndDecision(prices: seq<real>): Signal
  {
    Classify(Sma(prices, 20).value, Sma(prices, 50).value, Rsi(prices, 14).value)
  }

  /**
   * The signal of a window: its rsi is RSI(14) of that window, within [0, 100];
   * its trend is the sign of SMA(20) - SMA(50); BUY needs an up-trend with
   * RSI below 30 and SELL a down-trend with RSI above 70; anything else is HOLD.
   */
  lemma TrendAndDecisionRule(prices: seq<real>)
    ensures var s, ma20, ma50 := TrendAndDecision(prices), Sma(prices, 20).value, Sma(prices, 50).value;
            && Rsi(prices, 14) == Ok(s.rsi) && 0.0 <= s.rsi <= 100.0
            && (s.trend == Up <==> ma20 > ma50)
            && (s.trend == Down <==> ma20 < ma50)
            && (s.trend == Flat <==> ma20 == ma50)
            && (s.decision == Buy <==> ma20 > ma50 && s.rsi < 30.0)
            && (s.decision == Sell <==> ma20 < ma50 && s.rsi > 70.0)
  {
  }

  /** Fewer than 20 prices: both averages fall back to the same value, so the signal is FLAT/HOLD. */
  lemma ShortWindowIsFlat(prices: seq<real>)
    requires |prices| < 20
    ensures TrendAndDecision(prices).trend == Flat
    ensures TrendAndDecision(prices).decision == Hold
  {
  }

  /** The signal of an empty window is the neutral signal a fresh symbol starts with. */
  lemma EmptyWindowIsNeutral()
    ensures TrendAndDecision([]) == NeutralSignal
  {
  }

  /** `determine_trend_and_decision` as written: the loop implementations feeding the rule table. */
  method DetermineTrendAndDecision(prices: seq<real>) returns (s: Signal)
    ensures s == TrendAndDecision(prices)
  {
    var rsiVal := CalculateRsi(prices, 14);
    var maShort := CalculateSma(prices, 20);
    var maLong := CalculateSma(prices, 50);
    s := Classify(maShort.value, maLong.value, rsiVal.value);
  }
}
