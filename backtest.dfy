/**
 * The SMA-crossover backtester (backtest_runner.py, class SMACrossoverBacktester):
 * a long-only state machine over position, cash, trades, equity curve, the two
 * SMA buffers and the current calendar day.
 *
 * The functions on `Book` are the specification of one step each; the class
 * keeps the same state in fields, and each of its methods is proved to move its
 * `Snapshot()` exactly as the matching function does.
 */
module Backtest {
  import opened Outcomes
  import Indicators

  datatype Side = Buy | Sell

  /** A bar timestamp: the calendar day of the timestamp as given, and the time within that day. */
  datatype Instant = Instant(day: int, sinceMidnight: nat)

  datatype Trade = Trade(ts: Instant, side: Side, qty: real, price: real, fee: real)

  datatype EquityPoint = EquityPoint(ts: Instant, equity: real)

  datatype Bar = Bar(ts: Instant, close: real)

  datatype ConfigError = InvalidSmaPeriods

  /** The constructor's parameters after validation; `feeRate` is a fraction, not basis points. */
  datatype Config = Config(fast: int, slow: int, feeRate: real, tickSize: real, size: real)

  /** All the mutable state of one backtester. */
  datatype Book = Book(
    position: real,
    cash: real,
    equityCurve: seq<EquityPoint>,
    trades: seq<Trade>,
    lastClose: Option<real>,
    fastBuf: seq<real>,
    slowBuf: seq<real>,
    currentDay: Option<int>)

  predicate ValidConfig(cfg: Config)
  {
    0 < cfg.fast < cfg.slow
  }

  /** Constructor validation: both periods positive and the fast one strictly shorter. */
  function NewConfig(fast: int, slow: int, feeBps: real, tickSize: real, size: real): (r: Result<Config, ConfigError>)
    ensures r.Ok? <==> 0 < fast < slow
    ensures r.Err? ==> r.error == InvalidSmaPeriods
    ensures r.Ok? ==> ValidConfig(r.value)
    ensures r.Ok? ==> r.value.fast == fast && r.value.slow == slow
    ensures r.Ok? ==> r.value.feeRate * 10000.0 == feeBps
    ensures r.Ok? ==> r.value.tickSize == tickSize && r.value.size == size
  {
    if fast <= 0 || slow <= 0 || fast >= slow then Err(InvalidSmaPeriods)
    else Ok(Config(fast, slow, feeBps / 10000.0, tickSize, size))
  }

  const Initial: Book := Book(0.0, 0.0, [], [], None, [], [], None)

  function Abs(x: real): real
  {
    if x < 0.0 then -x else x
  }

  // ---------------------------------------------------------------- pure helpers

  /** The mean of the last `period` buffered closes, or nothing while the buffer is shorter. */
  function WindowSma(buf: seq<real>, period: int): (r: Option<real>)
    requires period > 0
    ensures r.None? <==> |buf| < period
    ensures r.Some? ==> Indicators.Sma(buf, period) == Ok(r.value)
  {
    if |buf| < period then None
    else Some(Indicators.Sum(buf[|buf| - period..]) / period as real)
  }

  /** The fee charged on a notional: a cost, never a rebate, when the rate is not negative. */
  function Fee(feeRate: real, notional: real): (fee: real)
    ensures feeRate >= 0.0 ==> fee >= 0.0
    ensures notional == 0.0 || feeRate == 0.0 ==> fee == 0.0
    ensures fee == Abs(-notional) * feeRate
  {
    Abs(notional) * feeRate
  }

  function MarkToMarket(cash: real, position: real, price: real): (equity: real)
    ensures position == 0.0 ==> equity == cash
  {
    cash + position * price
  }

  // ---------------------------------------------------------------- the steps

  /** One fill: one tick of slippage against the trader, the fee taken from cash, one trade recorded. */
  function Executed(cfg: Config, b: Book, ts: Instant, side: Side, price: real, qty: real): Book
  {
    var fill := if side == Buy then price + cfg.tickSize else price - cfg.tickSize;
    var cashChange := if side == Buy then -(fill * qty) else fill * qty;
    var fee := Fee(cfg.feeRate, fill * qty);
    b.(position := if side == Buy then b.position + qty else b.position - qty,
       cash := b.cash + (cashChange - fee),
       trades := b.trades + [Trade(ts, side, qty, fill, fee)],
       lastClose := Some(price))
  }

  /**
   * The end-of-day check: the first bar only records its day; a bar on a new
   * day closes any open position at this bar's close, stamped at midnight of
   * the new day, and then records the new day.
   */
  function EodChecked(cfg: Config, b: Book, ts: Instant, closePrice: real): Book
  {
    if b.currentDay.None? then b.(currentDay := Some(ts.day))
    else if ts.day != b.currentDay.value then
      var flat :=
        if b.position != 0.0 && b.lastClose.Some? then
          Executed(cfg, b, Instant(ts.day, 0), if b.position > 0.0 then Sell else Buy, closePrice, Abs(b.position))
        else b;
      flat.(currentDay := Some(ts.day))
    else b
  }

  /** The crossover rule: buy `size` from flat when fast > slow; sell the whole long when fast < slow. */
  function Crossed(cfg: Config, b: Book, bar: Bar): Book
    requires ValidConfig(cfg)
  {
    var fastSma := WindowSma(b.fastBuf, cfg.fast);
    var slowSma := WindowSma(b.slowBuf, cfg.slow);
    if fastSma.Some? && slowSma.Some? then
      if b.position <= 0.0 && fastSma.value > slowSma.value then
        Executed(cfg, b, bar.ts, Buy, bar.close, cfg.size)
      else if b.position >= 0.0 && fastSma.value < slowSma.value then
        if b.position > 0.0 then Executed(cfg, b, bar.ts, Sell, bar.close, b.position) else b
      else b
    else b
  }

  /** One bar: buffer the close, check the day, apply the crossover rule, mark to market. */
  function AfterBar(cfg: Config, b: Book, bar: Bar): Book
    requires ValidConfig(cfg)
  {
    var buffered := b.(fastBuf := b.fastBuf + [bar.close], slowBuf := b.slowBuf + [bar.close]);
    var traded := Crossed(cfg, EodChecked(cfg, buffered, bar.ts, bar.close), bar);
    var point := EquityPoint(bar.ts, MarkToMarket(traded.cash, traded.position, bar.close));
    traded.(equityCurve := traded.equityCurve + [point], lastClose := Some(bar.close))
  }

  /**
   * The closing flatten at the last close, stamped with the last equity point's
   * time (or `now`, the wall clock, when there is none), and one more equity point.
   */
  function Finalized(cfg: Config, b: Book, now: Instant): Book
  {
    if b.position != 0.0 && b.lastClose.Some? then
      var ts := if b.equityCurve != [] then b.equityCurve[|b.equityCurve| - 1].ts else now;
      var closed := Executed(cfg, b, ts, if b.position > 0.0 then Sell else Buy, b.lastClose.value, Abs(b.position));
      closed.(equityCurve := closed.equityCurve + [EquityPoint(ts, MarkToMarket(closed.cash, closed.position, closed.lastClose.value))])
    else b
  }

  /** A fresh backtester fed `bars` in order. */
  function Replay(cfg: Config, bars: seq<Bar>): Book
    requires ValidConfig(cfg)
    decreases |bars|
  {
    if bars == [] then Initial
    else AfterBar(cfg, Replay(cfg, bars[..|bars| - 1]), bars[|bars| - 1])
  }

  function Closes(bars: seq<Bar>): (cs: seq<real>)
    ensures |cs| == |bars|
    ensures forall k :: 0 <= k < |bars| ==> cs[k] == bars[k].close
  {
    seq(|bars|, k requires 0 <= k < |bars| => bars[k].close)
  }

  // ---------------------------------------------------------------- the ledger

  function SignedQty(t: Trade): real
  {
    if t.side == Buy then t.qty else -t.qty
  }

  function CashEffect(t: Trade): real
  {
    (if t.side == Buy then -(t.price * t.qty) else t.price * t.qty) - t.fee
  }

  /** The position the trades add up to. */
  function NetQty(trades: seq<Trade>): real
    decreases |trades|
  {
    if trades == [] then 0.0 else NetQty(trades[..|trades| - 1]) + SignedQty(trades[|trades| - 1])
  }

  /** The cash the trades add up to: sale proceeds less purchase costs less fees. */
  function CashFlow(trades: seq<Trade>): real
    decreases |trades|
  {
    if trades == [] then 0.0 else CashFlow(trades[..|trades| - 1]) + CashEffect(trades[|trades| - 1])
  }

  /** Position and cash are exactly what the recorded trades account for. */
  predicate Ledger(b: Book)
  {
    b.position == NetQty(b.trades) && b.cash == CashFlow(b.trades)
  }

  /** Long-only with a fixed size: flat or holding exactly `size`. */
  predicate PositionShape(cfg: Config, b: Book)
  {
    cfg.size >= 0.0 ==> b.position == 0.0 || b.position == cfg.size
  }

  /** What holds between bars. */
  predicate Sound(cfg: Config, b: Book)
  {
    && Ledger(b)
    && PositionShape(cfg, b)
    && b.fastBuf == b.slowBuf
    && (b.lastClose.Some? <==> b.equityCurve != [])
    && (b.currentDay.Some? <==> b.lastClose.Some?)
    && (b.equityCurve == [] ==> b.trades == [])
    && (b.lastClose.Some? ==>
          b.equityCurve[|b.equityCurve| - 1].equity == MarkToMarket(b.cash, b.position, b.lastClose.value))
  }

  /**
   * A fill records exactly one trade, priced one tick against the trader and
   * charged the fee on its notional, and moves position and cash by exactly that
   * trade's effect, so the ledger stays exact.
   */
  lemma ExecutedKeepsLedger(cfg: Config, b: Book, ts: Instant, side: Side, price: real, qty: real)
    requires Ledger(b)
    ensures var r := Executed(cfg, b, ts, side, price, qty);
      && Ledger(r)
      && |r.trades| == |b.trades| + 1 && r.trades[..|b.trades|] == b.trades
      && var t := r.trades[|b.trades|];
      && t.ts == ts && t.side == side && t.qty == qty
      && t.price == (if side == Buy then price + cfg.tickSize else price - cfg.tickSize)
      && t.fee == Fee(cfg.feeRate, t.price * qty)
      && r.position == b.position + SignedQty(t)
      && r.cash == b.cash + CashEffect(t)
      && r.lastClose == Some(price)
  {
    var r := Executed(cfg, b, ts, side, price, qty);
    assert r.trades[..|b.trades|] == b.trades;
  }

  /**
   * The end-of-day check keeps the ledger and the long-only shape, records the
   * bar's day, and on a day change leaves no open position.
   */
  lemma EodCheckedKeepsShape(cfg: Config, b: Book, ts: Instant, closePrice: real)
    requires Ledger(b) && PositionShape(cfg, b)
    ensures var r := EodChecked(cfg, b, ts, closePrice);
      && Ledger(r) && PositionShape(cfg, r)
      && r.currentDay == Some(ts.day)
      && r.fastBuf == b.fastBuf && r.slowBuf == b.slowBuf && r.equityCurve == b.equityCurve
      && (b.currentDay.Some? && b.currentDay.value != ts.day && b.lastClose.Some? ==> r.position == 0.0)
  {
    if b.currentDay.Some? && ts.day != b.currentDay.value && b.position != 0.0 && b.lastClose.Some? {
      ExecutedKeepsLedger(cfg, b, Instant(ts.day, 0), if b.position > 0.0 then Sell else Buy, closePrice, Abs(b.position));
    }
  }

  /**
   * The day change in detail: the first bar only records the day, a bar on the
   * same day changes nothing, and a new day with an open position adds exactly
   * one closing trade for the whole position at this bar's close.
   */
  lemma EodFlattensOnDayChange(cfg: Config, b: Book, ts: Instant, closePrice: real)
    requires Ledger(b)
    ensures b.currentDay.None? ==> EodChecked(cfg, b, ts, closePrice) == b.(currentDay := Some(ts.day))
    ensures b.currentDay == Some(ts.day) ==> EodChecked(cfg, b, ts, closePrice) == b
    ensures b.currentDay.Some? && b.currentDay.value != ts.day && b.position != 0.0 && b.lastClose.Some? ==>
      var r := EodChecked(cfg, b, ts, closePrice);
      && r.position == 0.0
      && |r.trades| == |b.trades| + 1 && r.trades[..|b.trades|] == b.trades
      && r.trades[|b.trades|].ts == Instant(ts.day, 0)
      && r.trades[|b.trades|].qty == Abs(b.position)
      && r.trades[|b.trades|].side == (if b.position > 0.0 then Sell else Buy)
      && r.currentDay == Some(ts.day)
  {
    if b.currentDay.Some? && b.currentDay.value != ts.day && b.position != 0.0 && b.lastClose.Some? {
      ExecutedKeepsLedger(cfg, b, Instant(ts.day, 0), if b.position > 0.0 then Sell else Buy, closePrice, Abs(b.position));
    }
  }

  /** The crossover rule keeps the ledger and the long-only shape and touches no buffer or curve. */
  lemma CrossedKeepsShape(cfg: Config, b: Book, bar: Bar)
    requires ValidConfig(cfg) && Ledger(b) && PositionShape(cfg, b)
    ensures var r := Crossed(cfg, b, bar);
      && Ledger(r) && PositionShape(cfg, r)
      && r.fastBuf == b.fastBuf && r.slowBuf == b.slowBuf
      && r.equityCurve == b.equityCurve && r.currentDay == b.currentDay
      && (|b.slowBuf| < cfg.slow ==> r == b)
  {
    var fastSma := WindowSma(b.fastBuf, cfg.fast);
    var slowSma := WindowSma(b.slowBuf, cfg.slow);
    if fastSma.Some? && slowSma.Some? {
      if b.position <= 0.0 && fastSma.value > slowSma.value {
        ExecutedKeepsLedger(cfg, b, bar.ts, Buy, bar.close, cfg.size);
      } else if b.position >= 0.0 && fastSma.value < slowSma.value && b.position > 0.0 {
        ExecutedKeepsLedger(cfg, b, bar.ts, Sell, bar.close, b.position);
      }
    }
  }

  /**
   * Each bar keeps the between-bars invariant and appends exactly one equity
   * point: the mark-to-market value of the new cash and position at this close.
   */
  lemma AfterBarSound(cfg: Config, b: Book, bar: Bar)
    requires ValidConfig(cfg) && Sound(cfg, b)
    ensures var r := AfterBar(cfg, b, bar);
      && Sound(cfg, r)
      && |r.equityCurve| == |b.equityCurve| + 1
      && r.equityCurve[..|b.equityCurve|] == b.equityCurve
      && r.equityCurve[|b.equityCurve|] == EquityPoint(bar.ts, MarkToMarket(r.cash, r.position, bar.close))
      && r.fastBuf == b.fastBuf + [bar.close]
  {
    var buffered := b.(fastBuf := b.fastBuf + [bar.close], slowBuf := b.slowBuf + [bar.close]);
    var checked := EodChecked(cfg, buffered, bar.ts, bar.close);
    EodCheckedKeepsShape(cfg, buffered, bar.ts, bar.close);
    CrossedKeepsShape(cfg, checked, bar);
    var r := AfterBar(cfg, b, bar);
    assert r.equityCurve[..|b.equityCurve|] == b.equityCurve;
  }

  /**
   * Finalizing a sound book leaves it flat and sound, and its last equity point
   * (if any) is its cash, which is the realised cash flow of all its trades.
   * The wall-clock fallback for the timestamp is never used on such a book.
   */
  lemma FinalizedFlat(cfg: Config, b: Book, now: Instant)
    requires Sound(cfg, b)
    ensures var r := Finalized(cfg, b, now);
      && Sound(cfg, r)
      && r.position == 0.0
      && (r.equityCurve != [] ==> r.equityCurve[|r.equityCurve| - 1].equity == r.cash == CashFlow(r.trades))
      && (r.equityCurve == [] ==> r.trades == [] && r.cash == 0.0)
      && forall other :: Finalized(cfg, b, other) == r
  {
    if b.position != 0.0 && b.lastClose.Some? {
      var ts := b.equityCurve[|b.equityCurve| - 1].ts;
      ExecutedKeepsLedger(cfg, b, ts, if b.position > 0.0 then Sell else Buy, b.lastClose.value, Abs(b.position));
    } else if b.lastClose.None? {
      assert b.trades == [];
    }
  }

  /** A backtest over any bars is sound, has one equity point per bar and buffers every close. */
  lemma {:induction false} ReplaySound(cfg: Config, bars: seq<Bar>)
    requires ValidConfig(cfg)
    ensures var r := Replay(cfg, bars);
      Sound(cfg, r) && |r.equityCurve| == |bars| && r.fastBuf == Closes(bars)
    decreases |bars|
  {
    if bars != [] {
      var init, bar := bars[..|bars| - 1], bars[|bars| - 1];
      var b := Replay(cfg, init);
      ReplaySound(cfg, init);
      AfterBarSound(cfg, b, bar);
      assert Replay(cfg, bars) == AfterBar(cfg, b, bar);
      assert Closes(bars) == Closes(init) + [bar.close];
    }
  }

  /** No trade at all, not even an end-of-day one, before the slow SMA has a full window. */
  lemma {:induction false} NoTradeBeforeSlowSma(cfg: Config, bars: seq<Bar>)
    requires ValidConfig(cfg) && |bars| < cfg.slow
    ensures Replay(cfg, bars).trades == []
    decreases |bars|
  {
    if bars != [] {
      var init := bars[..|bars| - 1];
      var bar := bars[|bars| - 1];
      var b := Replay(cfg, init);
      NoTradeBeforeSlowSma(cfg, init);
      ReplaySound(cfg, init);
      var buffered := b.(fastBuf := b.fastBuf + [bar.close], slowBuf := b.slowBuf + [bar.close]);
      EodCheckedKeepsShape(cfg, buffered, bar.ts, bar.close);
      var checked := EodChecked(cfg, buffered, bar.ts, bar.close);
      assert checked.trades == [] by {
        if b.currentDay.Some? && bar.ts.day != b.currentDay.value {
          assert b.position == NetQty([]) == 0.0;
        }
      }
      CrossedKeepsShape(cfg, checked, bar);
    }
  }

  // ---------------------------------------------------------------- drawdown

  function Equities(curve: seq<EquityPoint>): (eqs: seq<real>)
    ensures |eqs| == |curve|
    ensures forall k :: 0 <= k < |curve| ==> eqs[k] == curve[k].equity
  {
    seq(|curve|, k requires 0 <= k < |curve| => curve[k].equity)
  }

  function Max(a: real, b: real): real
  {
    if a >= b then a else b
  }

  /** The running maximum of a non-empty series. */
  function Peak(xs: seq<real>): real
    requires xs != []
    decreases |xs|
  {
    if |xs| == 1 then xs[0] else Max(Peak(xs[..|xs| - 1]), xs[|xs| - 1])
  }

  /** The largest fall from a running peak to a later value (0 for an empty series). */
  function Drawdown(xs: seq<real>): real
    decreases |xs|
  {
    if xs == [] then 0.0 else Max(Drawdown(xs[..|xs| - 1]), Peak(xs) - xs[|xs| - 1])
  }

  lemma {:induction false} PeakIsMaximum(xs: seq<real>)
    requires xs != []
    ensures forall i :: 0 <= i < |xs| ==> xs[i] <= Peak(xs)
    ensures exists i :: 0 <= i < |xs| && xs[i] == Peak(xs)
    decreases |xs|
  {
    if |xs| > 1 {
      var init := xs[..|xs| - 1];
      PeakIsMaximum(init);
      var w :| 0 <= w < |init| && init[w] == Peak(init);
      if Peak(init) >= xs[|xs| - 1] {
        assert xs[w] == Peak(xs);
      } else {
        assert xs[|xs| - 1] == Peak(xs);
      }
      forall i | 0 <= i < |xs|
        ensures xs[i] <= Peak(xs)
      {
        if i < |init| {
          assert xs[i] == init[i];
        }
      }
    } else {
      assert xs[0] == Peak(xs);
    }
  }

  /**
   * The drawdown is the largest drop `xs[i] - xs[j]` over all `i <= j`: it bounds
   * every such drop and some such drop reaches it; it is never negative.
   */
  lemma {:induction false} DrawdownIsLargestDrop(xs: seq<real>)
    ensures Drawdown(xs) >= 0.0
    ensures forall i, j :: 0 <= i <= j < |xs| ==> xs[i] - xs[j] <= Drawdown(xs)
    ensures xs != [] ==> exists i, j :: 0 <= i <= j < |xs| && xs[i] - xs[j] == Drawdown(xs)
    decreases |xs|
  {
    if xs != [] {
      var n := |xs| - 1;
      var init := xs[..n];
      DrawdownIsLargestDrop(init);
      PeakIsMaximum(xs);
      forall i, j | 0 <= i <= j < |xs|
        ensures xs[i] - xs[j] <= Drawdown(xs)
      {
        if j < n {
          assert xs[i] == init[i] && xs[j] == init[j];
        }
      }
      if Drawdown(xs) == Peak(xs) - xs[n] {
        var w :| 0 <= w < |xs| && xs[w] == Peak(xs);
        assert xs[w] - xs[n] == Drawdown(xs);
      } else {
        var i, j :| 0 <= i <= j < |init| && init[i] - init[j] == Drawdown(init);
        assert xs[i] - xs[j] == Drawdown(xs);
      }
    }
  }

  /** An equity curve that never falls has no drawdown. */
  lemma NonDecreasingHasNoDrawdown(xs: seq<real>)
    requires forall i, j :: 0 <= i <= j < |xs| ==> xs[i] <= xs[j]
    ensures Drawdown(xs) == 0.0
  {
    DrawdownIsLargestDrop(xs);
  }

  // ---------------------------------------------------------------- the backtester object

  class SmaCrossoverBacktester {
    const fast: int
    const slow: int
    const feeRate: real
    const tickSize: real
    const size: real

    var position: real
    var cash: real
    var equityCurve: seq<EquityPoint>
    var trades: seq<Trade>
    var lastClose: Option<real>
    var fastBuf: seq<real>
    var slowBuf: seq<real>
    var currentDay: Option<int>

    function Cfg(): Config
    {
      Config(fast, slow, feeRate, tickSize, size)
    }

    function Snapshot(): Book
      reads this
    {
      Book(position, cash, equityCurve, trades, lastClose, fastBuf, slowBuf, currentDay)
    }

    ghost predicate Valid()
      reads this
    {
      ValidConfig(Cfg()) && Sound(Cfg(), Snapshot())
    }

    constructor (cfg: Config)
      requires ValidConfig(cfg)
      ensures Cfg() == cfg && Snapshot() == Initial && Valid()
    {
      fast := cfg.fast;
      slow := cfg.slow;
      feeRate := cfg.feeRate;
      tickSize := cfg.tickSize;
      size := cfg.size;
      position := 0.0;
      cash := 0.0;
      equityCurve := [];
      trades := [];
      lastClose := None;
      fastBuf := [];
      slowBuf := [];
      currentDay := None;
      new;
      assert Snapshot() == Initial;
      assert Ledger(Initial) by {
        assert NetQty([]) == 0.0 && CashFlow([]) == 0.0;
      }
    }

    /** The validating constructor: invalid SMA periods are refused. */
    static method Create(fast: int, slow: int, feeBps: real, tickSize: real, size: real)
      returns (r: Result<SmaCrossoverBacktester, ConfigError>)
      ensures r.Ok? <==> 0 < fast < slow
      ensures r.Err? ==> r.error == InvalidSmaPeriods
      ensures r.Ok? ==> fresh(r.value) && r.value.Valid() && r.value.Snapshot() == Initial
      ensures r.Ok? ==> r.value.Cfg() == NewConfig(fast, slow, feeBps, tickSize, size).value
    {
      var cfg := NewConfig(fast, slow, feeBps, tickSize, size);
      if cfg.Err? {
        return Err(cfg.error);
      }
      var backtester := new SmaCrossoverBacktester(cfg.value);
      return Ok(backtester);
    }

    method Exec(ts: Instant, side: Side, price: real, qty: real)
      modifies this
      ensures Snapshot() == Executed(Cfg(), old(Snapshot()), ts, side, price, qty)
    {
      ghost var before := Snapshot();
      var fillPrice: real;
      var cashChange: real;
      if side == Buy {
        fillPrice := price + tickSize;
        position := position + qty;
        cashChange := -(fillPrice * qty);
      } else {
        fillPrice := price - tickSize;
        position := position - qty;
        cashChange := fillPrice * qty;
      }
      var fee := Fee(feeRate, fillPrice * qty);
      cash := cash + (cashChange - fee);
      trades := trades + [Trade(ts, side, qty, fillPrice, fee)];
      lastClose := Some(price);
      ghost var after := Executed(Cfg(), before, ts, side, price, qty);
      assert after.trades[|before.trades|] == trades[|before.trades|];
      assert after.position == position;
      assert after.cash == cash;
      assert after.trades == trades;
    }

    method MaybeEodFlat(ts: Instant, closePrice: real)
      modifies this
      ensures Snapshot() == EodChecked(Cfg(), old(Snapshot()), ts, closePrice)
    {
      var day := ts.day;
      if currentDay.None? {
        currentDay := Some(day);
        return;
      }
      if day != currentDay.value {
        if position != 0.0 && lastClose.Some? {
          var side := if position > 0.0 then Sell else Buy;
          Exec(Instant(day, 0), side, closePrice, Abs(position));
        }
        currentDay := Some(day);
      }
    }

    method OnBar(ts: Instant, close: real)
      requires Valid()
      modifies this
      ensures Valid()
      ensures Snapshot() == AfterBar(Cfg(), old(Snapshot()), Bar(ts, close))
    {
      ghost var start := Snapshot();
      fastBuf := fastBuf + [close];
      slowBuf := slowBuf + [close];
      ghost var buffered := Snapshot();
      assert buffered == start.(fastBuf := start.fastBuf + [close], slowBuf := start.slowBuf + [close]);
      MaybeEodFlat(ts, close);
      ghost var checked := Snapshot();
      var fastSma := WindowSma(fastBuf, fast);
      var slowSma := WindowSma(slowBuf, slow);
      if fastSma.Some? && slowSma.Some? {
        if position <= 0.0 && fastSma.value > slowSma.value {
          Exec(ts, Buy, close, size);
        } else if position >= 0.0 && fastSma.value < slowSma.value {
          if position > 0.0 {
            Exec(ts, Sell, close, position);
          }
        }
      }
      ghost var traded := Snapshot();
      assert traded == Crossed(Cfg(), checked, Bar(ts, close));
      var equity := MarkToMarket(cash, position, close);
      equityCurve := equityCurve + [EquityPoint(ts, equity)];
      lastClose := Some(close);
      AfterBarSound(Cfg(), start, Bar(ts, close));
    }

    /** `now` stands for the wall clock read when the curve is empty. */
    method Finalize(now: Instant)
      requires Valid()
      modifies this
      ensures Valid() && position == 0.0
      ensures Snapshot() == Finalized(Cfg(), old(Snapshot()), now)
    {
      if position != 0.0 && lastClose.Some? {
        var ts := if equityCurve != [] then equityCurve[|equityCurve| - 1].ts else now;
        var side := if position > 0.0 then Sell else Buy;
        Exec(ts, side, lastClose.value, Abs(position));
        equityCurve := equityCurve + [EquityPoint(ts, MarkToMarket(cash, position, lastClose.value))];
      }
      FinalizedFlat(Cfg(), old(Snapshot()), now);
    }

    /** Total PnL: the last equity value, which on a sound book is its mark to market at the last close. */
    function TotalPnl(): (pnl: real)
      reads this
      ensures equityCurve == [] ==> pnl == 0.0
      ensures Valid() && equityCurve != [] ==> pnl == MarkToMarket(cash, position, lastClose.value)
      ensures Valid() && position == 0.0 ==> pnl == cash
    {
      if equityCurve == [] then 0.0
      else
        var startEquity := 0.0;
        equityCurve[|equityCurve| - 1].equity - startEquity
    }

    /** Maximum drawdown of the equity curve, by a running peak. */
    method MaxDrawdown() returns (maxDd: real)
      ensures maxDd == Drawdown(Equities(equityCurve))
      ensures maxDd >= 0.0
    {
      ghost var eqs := Equities(equityCurve);
      var maxEq: Option<real> := None;
      maxDd := 0.0;
      for i := 0 to |equityCurve|
        invariant maxEq.None? <==> i == 0
        invariant maxEq.Some? ==> maxEq.value == Peak(eqs[..i])
        invariant maxDd == Drawdown(eqs[..i])
      {
        var eq := equityCurve[i].equity;
        assert eqs[..i + 1][..i] == eqs[..i];
        if maxEq.None? || eq > maxEq.value {
          maxEq := Some(eq);
        }
        var dd := maxEq.value - eq;
        if dd > maxDd {
          maxDd := dd;
        }
      }
      assert eqs[..|equityCurve|] == eqs;
      DrawdownIsLargestDrop(eqs);
    }
  }
}
