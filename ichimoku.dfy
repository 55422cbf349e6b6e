/** The Ichimoku Kinko Hyo strategy: conversion and base lines, the cloud
    projected forward, the lagging span projected backward, and a buy rule
    with its mirrored sell rule evaluated at the last candle. */
module IchimokuStrategy {
  import opened Wrappers
  import opened Settings
  import opened Signals
  import opened Frames
  import BaseStrategy
  import Utils

  const Name: string := "ichimoku"

  /** The highest high of candles lo..hi-1 (`rolling(...).max()`). */
  function HighestHigh(cs: seq<Candle>, lo: int, hi: int): real
    requires 0 <= lo < hi <= |cs|
    decreases hi - lo
  {
    if hi - lo == 1 then cs[lo].high
    else
      var m := HighestHigh(cs, lo, hi - 1);
      if cs[hi - 1].high > m then cs[hi - 1].high else m
  }

  /** The lowest low of candles lo..hi-1 (`rolling(...).min()`). */
  function LowestLow(cs: seq<Candle>, lo: int, hi: int): real
    requires 0 <= lo < hi <= |cs|
    decreases hi - lo
  {
    if hi - lo == 1 then cs[lo].low
    else
      var m := LowestLow(cs, lo, hi - 1);
      if cs[hi - 1].low < m then cs[hi - 1].low else m
  }

  /** The highest high bounds every high of the window and is one of them. */
  lemma {:induction false} HighestHighIsMax(cs: seq<Candle>, lo: int, hi: int)
    requires 0 <= lo < hi <= |cs|
    ensures forall j :: lo <= j < hi ==> cs[j].high <= HighestHigh(cs, lo, hi)
    ensures exists j :: lo <= j < hi && cs[j].high == HighestHigh(cs, lo, hi)
    decreases hi - lo
  {
    if hi - lo == 1 {
      assert cs[lo].high == HighestHigh(cs, lo, hi);
    } else {
      HighestHighIsMax(cs, lo, hi - 1);
      if cs[hi - 1].high > HighestHigh(cs, lo, hi - 1) {
        assert cs[hi - 1].high == HighestHigh(cs, lo, hi);
      }
    }
  }

  /** The lowest low bounds every low of the window and is one of them. */
  lemma {:induction false} LowestLowIsMin(cs: seq<Candle>, lo: int, hi: int)
    requires 0 <= lo < hi <= |cs|
    ensures forall j :: lo <= j < hi ==> LowestLow(cs, lo, hi) <= cs[j].low
    ensures exists j :: lo <= j < hi && cs[j].low == LowestLow(cs, lo, hi)
    decreases hi - lo
  {
    if hi - lo == 1 {
      assert cs[lo].low == LowestLow(cs, lo, hi);
    } else {
      LowestLowIsMin(cs, lo, hi - 1);
      if cs[hi - 1].low < LowestLow(cs, lo, hi - 1) {
        assert cs[hi - 1].low == LowestLow(cs, lo, hi);
      }
    }
  }

  /** (highest high + lowest low) / 2 over the `period` candles ending at row
      i; undefined while fewer than `period` candles are available. */
  function Midpoint(cs: seq<Candle>, period: int, i: int): (r: Option<real>)
    requires period >= 1 && 0 <= i < |cs|
    ensures r.Some? <==> i >= period - 1
  {
    if i < period - 1 then None
    else Some((HighestHigh(cs, i - period + 1, i + 1) + LowestLow(cs, i - period + 1, i + 1)) / 2.0)
  }

  /** In a window whose candles all have low <= high, the midpoint lies
      between the window's lowest low and its highest high. */
  lemma MidpointWithinWindow(cs: seq<Candle>, period: int, i: int)
    requires period >= 1 && period - 1 <= i < |cs|
    requires forall j :: 0 <= j < |cs| ==> cs[j].low <= cs[j].high
    ensures var lo := i - period + 1;
      LowestLow(cs, lo, i + 1) <= Midpoint(cs, period, i).value <= HighestHigh(cs, lo, i + 1)
  {
    HighestHighIsMax(cs, i - period + 1, i + 1);
    LowestLowIsMin(cs, i - period + 1, i + 1);
  }

  /** (a + b) / 2, undefined when either is. */
  function Mean(a: Option<real>, b: Option<real>): Option<real> {
    if a.Some? && b.Some? then Some((a.value + b.value) / 2.0) else None
  }

  function Tenkan(p: IchimokuParams, cs: seq<Candle>, i: int): Option<real>
    requires p.WellFormed() && 0 <= i < |cs|
  {
    Midpoint(cs, p.tenkanPeriod, i)
  }

  function Kijun(p: IchimokuParams, cs: seq<Candle>, i: int): Option<real>
    requires p.WellFormed() && 0 <= i < |cs|
  {
    Midpoint(cs, p.kijunPeriod, i)
  }

  /** Leading span A: the mean of the two lines `displacement` rows earlier. */
  function SpanA(p: IchimokuParams, cs: seq<Candle>, i: int): Option<real>
    requires p.WellFormed() && 0 <= i < |cs|
  {
    if i - p.displacement >= 0 then Mean(Tenkan(p, cs, i - p.displacement), Kijun(p, cs, i - p.displacement)) else None
  }

  /** Leading span B: the senkou-window midpoint `displacement` rows earlier. */
  function SpanB(p: IchimokuParams, cs: seq<Candle>, i: int): Option<real>
    requires p.WellFormed() && 0 <= i < |cs|
  {
    if i - p.displacement >= 0 then Midpoint(cs, p.senkouSpanBPeriod, i - p.displacement) else None
  }

  /** Lagging span: the close `displacement` rows LATER (`shift(-displacement)`). */
  function Chikou(p: IchimokuParams, cs: seq<Candle>, i: int): Option<real>
    requires p.WellFormed() && 0 <= i < |cs|
  {
    if i + p.displacement < |cs| then Some(cs[i + p.displacement].close) else None
  }

  /** The five columns `calculate_ichimoku` adds. */
  function IchimokuColumns(p: IchimokuParams, cs: seq<Candle>): map<string, seq<Cell>>
    requires p.WellFormed()
  {
    map[
      "tenkan_sen" := seq(|cs|, i requires 0 <= i < |cs| => CellOf(Tenkan(p, cs, i))),
      "kijun_sen" := seq(|cs|, i requires 0 <= i < |cs| => CellOf(Kijun(p, cs, i))),
      "senkou_span_a" := seq(|cs|, i requires 0 <= i < |cs| => CellOf(SpanA(p, cs, i))),
      "senkou_span_b" := seq(|cs|, i requires 0 <= i < |cs| => CellOf(SpanB(p, cs, i))),
      "chikou_span" := seq(|cs|, i requires 0 <= i < |cs| => CellOf(Chikou(p, cs, i)))]
  }

  // What each added column holds at row i.

  lemma TenkanColumnAt(p: IchimokuParams, cs: seq<Candle>, i: int)
    requires p.WellFormed() && 0 <= i < |cs|
    ensures Read(IchimokuColumns(p, cs), "tenkan_sen", i) == Tenkan(p, cs, i)
  {
  }

  lemma KijunColumnAt(p: IchimokuParams, cs: seq<Candle>, i: int)
    requires p.WellFormed() && 0 <= i < |cs|
    ensures Read(IchimokuColumns(p, cs), "kijun_sen", i) == Kijun(p, cs, i)
  {
  }

  lemma SpanAColumnAt(p: IchimokuParams, cs: seq<Candle>, i: int)
    requires p.WellFormed() && 0 <= i < |cs|
    ensures Read(IchimokuColumns(p, cs), "senkou_span_a", i) == SpanA(p, cs, i)
  {
  }

  lemma SpanBColumnAt(p: IchimokuParams, cs: seq<Candle>, i: int)
    requires p.WellFormed() && 0 <= i < |cs|
    ensures Read(IchimokuColumns(p, cs), "senkou_span_b", i) == SpanB(p, cs, i)
  {
  }

  lemma ChikouColumnAt(p: IchimokuParams, cs: seq<Candle>, i: int)
    requires p.WellFormed() && 0 <= i < |cs|
    ensures Read(IchimokuColumns(p, cs), "chikou_span", i) == Chikou(p, cs, i)
  {
  }

  /** Columns added over a frame hide the frame's own columns of those names. */
  lemma ReadThroughUnion(p: IchimokuParams, cs: seq<Candle>, base: map<string, seq<Cell>>, name: string, i: int)
    requires p.WellFormed() && name in IchimokuColumns(p, cs)
    ensures Read(base + IchimokuColumns(p, cs), name, i) == Read(IchimokuColumns(p, cs), name, i)
  {
  }

  /** Adds the Ichimoku columns to the frame it is given. */
  method CalculateIchimoku(p: IchimokuParams, df: Frame)
    requires p.WellFormed() && !df.columnless
    modifies df
    ensures df.candles == old(df.candles)
    ensures df.columns == old(df.columns) + IchimokuColumns(p, df.candles)
  {
    var cs := df.candles;
    var cols := IchimokuColumns(p, cs);
    df.columns := df.columns["tenkan_sen" := cols["tenkan_sen"]];
    df.columns := df.columns["kijun_sen" := cols["kijun_sen"]];
    df.columns := df.columns["senkou_span_a" := cols["senkou_span_a"]];
    df.columns := df.columns["senkou_span_b" := cols["senkou_span_b"]];
    df.columns := df.columns["chikou_span" := cols["chikou_span"]];
  }

  // Python comparisons, where NaN (and None) compare false.
  predicate Gt(a: Option<real>, b: Option<real>) { a.Some? && b.Some? && a.value > b.value }
  predicate Lt(a: Option<real>, b: Option<real>) { a.Some? && b.Some? && a.value < b.value }
  predicate Ge(a: Option<real>, b: Option<real>) { a.Some? && b.Some? && a.value >= b.value }
  predicate Le(a: Option<real>, b: Option<real>) { a.Some? && b.Some? && a.value <= b.value }

  /** Python's `max(a, b)`: b only when b > a. */
  function PyMax(a: Option<real>, b: Option<real>): Option<real> { if Gt(b, a) then b else a }

  /** Python's `min(a, b)`: b only when b < a. */
  function PyMin(a: Option<real>, b: Option<real>): Option<real> { if Lt(b, a) then b else a }

  /** The values read at the end of the frame. `chikou` is the lagging span
      at row n-1-d and `lagged` the close at row n-1-2d, each only when the
      frame is long enough. */
  datatype Reading = Reading(
    price: real,
    tenkan: Option<real>, kijun: Option<real>,
    spanA: Option<real>, spanB: Option<real>,
    prevTenkan: Option<real>, prevKijun: Option<real>,
    chikou: Option<real>, lagged: Option<real>)

  /** The reading taken from a frame's columns, as `generate_signals` reads it. */
  function ReadingAt(cols: map<string, seq<Cell>>, cs: seq<Candle>, d: int): Reading
    requires |cs| >= 2 && d >= 0
  {
    var n := |cs|;
    Reading(
      cs[n - 1].close,
      Read(cols, "tenkan_sen", n - 1), Read(cols, "kijun_sen", n - 1),
      Read(cols, "senkou_span_a", n - 1), Read(cols, "senkou_span_b", n - 1),
      Read(cols, "tenkan_sen", n - 2), Read(cols, "kijun_sen", n - 2),
      if n > d + 1 then Read(cols, "chikou_span", n - d - 1) else None,
      if n > 2 * d + 1 then Some(cs[n - 2 * d - 1].close) else None)
  }

  /** The reading of a candle series once the Ichimoku columns are added. */
  function ReadingOf(p: IchimokuParams, cs: seq<Candle>): Reading
    requires p.WellFormed() && |cs| >= 2
  {
    ReadingAt(IchimokuColumns(p, cs), cs, p.displacement)
  }

  /** The frame's own columns do not change the reading. */
  lemma ReadingOverFrame(p: IchimokuParams, cs: seq<Candle>, base: map<string, seq<Cell>>)
    requires p.WellFormed() && |cs| >= 2
    ensures ReadingAt(base + IchimokuColumns(p, cs), cs, p.displacement) == ReadingOf(p, cs)
  {
    var n := |cs|;
    var ic := IchimokuColumns(p, cs);
    ReadThroughUnion(p, cs, base, "tenkan_sen", n - 1);
    ReadThroughUnion(p, cs, base, "kijun_sen", n - 1);
    ReadThroughUnion(p, cs, base, "senkou_span_a", n - 1);
    ReadThroughUnion(p, cs, base, "senkou_span_b", n - 1);
    ReadThroughUnion(p, cs, base, "tenkan_sen", n - 2);
    ReadThroughUnion(p, cs, base, "kijun_sen", n - 2);
    ReadThroughUnion(p, cs, base, "chikou_span", n - p.displacement - 1);
  }

  /** The lines at the last two rows and the cloud at the last row. */
  lemma ReadingLines(p: IchimokuParams, cs: seq<Candle>)
    requires p.WellFormed() && |cs| >= 2
    ensures var rd := ReadingOf(p, cs);
      var n := |cs|;
      && rd.price == cs[n - 1].close
      && rd.tenkan == Tenkan(p, cs, n - 1) && rd.kijun == Kijun(p, cs, n - 1)
      && rd.prevTenkan == Tenkan(p, cs, n - 2) && rd.prevKijun == Kijun(p, cs, n - 2)
      && rd.spanA == SpanA(p, cs, n - 1) && rd.spanB == SpanB(p, cs, n - 1)
  {
    var n := |cs|;
    TenkanColumnAt(p, cs, n - 1);
    KijunColumnAt(p, cs, n - 1);
    TenkanColumnAt(p, cs, n - 2);
    KijunColumnAt(p, cs, n - 2);
    SpanAColumnAt(p, cs, n - 1);
    SpanBColumnAt(p, cs, n - 1);
  }

  /** Tenkan crosses above Kijun, the close is above the cloud, the cloud is
      bullish and the lagging span is above the close 2d candles back. */
  predicate BuyRule(r: Reading) {
    && Gt(r.tenkan, r.kijun) && Le(r.prevTenkan, r.prevKijun)
    && Gt(Some(r.price), PyMax(r.spanA, r.spanB))
    && Gt(r.spanA, r.spanB)
    && r.lagged.Some? && Gt(r.chikou, r.lagged)
  }

  /** The mirror image of the buy rule. */
  predicate SellRule(r: Reading) {
    && Lt(r.tenkan, r.kijun) && Ge(r.prevTenkan, r.prevKijun)
    && Lt(Some(r.price), PyMin(r.spanA, r.spanB))
    && !Gt(r.spanA, r.spanB)
    && r.lagged.Some? && Lt(r.chikou, r.lagged)
  }

  /** A buy and a sell can never be signalled together. */
  lemma RulesExclusive(r: Reading)
    ensures !(BuyRule(r) && SellRule(r))
  {
  }

  /** The value compared as the lagging span is the current close, and the
      close it is compared with is the one 2d candles back. */
  lemma ChikouIsCurrentClose(p: IchimokuParams, cs: seq<Candle>)
    requires p.WellFormed() && |cs| >= 2
    ensures var rd := ReadingOf(p, cs);
      var n := |cs|;
      var d := p.displacement;
      && rd.chikou == (if n > d + 1 then Some(cs[n - 1].close) else None)
      && rd.lagged == (if n > 2 * d + 1 then Some(cs[n - 2 * d - 1].close) else None)
  {
    var n := |cs|;
    if n > p.displacement + 1 {
      ChikouColumnAt(p, cs, n - p.displacement - 1);
    }
  }

  /** So a buy needs the close to have risen over the last 2d candles, and a
      sell needs it to have fallen. */
  lemma LaggingSpanCompare(p: IchimokuParams, cs: seq<Candle>)
    requires p.WellFormed() && |cs| >= 2
    ensures BuyRule(ReadingOf(p, cs)) ==>
      |cs| > 2 * p.displacement + 1 && cs[|cs| - 1].close > cs[|cs| - 1 - 2 * p.displacement].close
    ensures SellRule(ReadingOf(p, cs)) ==>
      |cs| > 2 * p.displacement + 1 && cs[|cs| - 1].close < cs[|cs| - 1 - 2 * p.displacement].close
  {
    ChikouIsCurrentClose(p, cs);
  }

  /** The strategy's own account balance is a fixed 10000. */
  const AccountBalance: real := 10000.0

  /** `calculate_position_size`: the risk amount of the fixed balance over the
      price, capped at the maximum position size and rounded to six decimals;
      a zero price raises. */
  function CalculatePositionSize(cfg: Config, price: real, side: string): (r: Result<real, Fault>)
    ensures r.Failure? <==> price == 0.0
    ensures r.Failure? ==> r.error == ZeroDivision
    ensures r.Success? ==> BaseStrategy.IsMicro(r.value)
    ensures r.Success? ==>
      var bound := if 10000.0 * cfg.riskPerTrade / price < cfg.maxPositionSize
                   then 10000.0 * cfg.riskPerTrade / price else cfg.maxPositionSize;
      bound - 0.0000005 <= r.value <= bound + 0.0000005
  {
    BaseStrategy.PositionSize(AccountBalance, cfg.riskPerTrade, cfg.maxPositionSize, price, side)
  }

  /** A buy: stop 1% below Kijun, target twice the price-Kijun distance above. */
  function BuySignal(cfg: Config, r: Reading, quantity: real, now: int): Signal
    requires r.kijun.Some?
  {
    Signal(Name, cfg.symbol, Buy, Some(r.price), quantity,
           Some(r.kijun.value * 0.99), Some(r.price + (r.price - r.kijun.value) * 2.0), now, None)
  }

  /** A sell: stop 1% above Kijun, target twice the Kijun-price distance below. */
  function SellSignal(cfg: Config, r: Reading, quantity: real, now: int): Signal
    requires r.kijun.Some?
  {
    Signal(Name, cfg.symbol, Sell, Some(r.price), quantity,
           Some(r.kijun.value * 1.01), Some(r.price - (r.kijun.value - r.price) * 2.0), now, None)
  }

  /** The signals generated from a candle series at time `now`. */
  function SignalsOf(cfg: Config, cs: seq<Candle>, now: int): Result<seq<Signal>, Fault>
    requires cfg.ichimoku.WellFormed()
  {
    var p := cfg.ichimoku;
    if |cs| < p.senkouSpanBPeriod + p.displacement then Success([])
    else if |cs| < 2 then Failure(IndexOutOfRange)
    else SignalsFromReading(cfg, ReadingOf(p, cs), now)
  }

  /** At most one signal from a reading: a buy when the buy rule holds, else
      a sell when the sell rule holds, each sized at the reading's price. */
  function SignalsFromReading(cfg: Config, rd: Reading, now: int): Result<seq<Signal>, Fault> {
      if BuyRule(rd) then
        match CalculatePositionSize(cfg, rd.price, Buy)
        case Failure(e) => Failure(e)
        case Success(q) => Success([BuySignal(cfg, rd, q, now)])
      else if SellRule(rd) then
        match CalculatePositionSize(cfg, rd.price, Sell)
        case Failure(e) => Failure(e)
        case Success(q) => Success([SellSignal(cfg, rd, q, now)])
      else Success([])
  }

  /** What `generate_signals` promises: nothing on a short history, at most
      one signal, a buy exactly when the buy rule holds and a sell exactly
      when the sell rule holds instead, with the stops anchored on Kijun, and
      a failure only from a missing row or a zero price. */
  lemma SignalsOfSpec(cfg: Config, cs: seq<Candle>, now: int)
    requires cfg.ichimoku.WellFormed()
    ensures var r := SignalsOf(cfg, cs, now);
      |cs| < cfg.ichimoku.senkouSpanBPeriod + cfg.ichimoku.displacement ==> r == Success([])
    ensures var r := SignalsOf(cfg, cs, now);
      r.Success? ==> |r.value| <= 1
    ensures var r := SignalsOf(cfg, cs, now);
      r.Success? && |r.value| == 1 ==>
      |cs| >= 2 && var rd := ReadingOf(cfg.ichimoku, cs);
      && rd.kijun.Some?
      && r.value[0].price == Some(cs[|cs| - 1].close)
      && r.value[0].symbol == cfg.symbol && r.value[0].strategy == Name && r.value[0].timestamp == now
      && Success(r.value[0].quantity) == CalculatePositionSize(cfg, rd.price, r.value[0].side)
      && (r.value[0].side == Buy <==> BuyRule(rd))
      && (r.value[0].side == Buy ==>
            r.value[0].stopLoss == Some(rd.kijun.value * 0.99) &&
            r.value[0].takeProfit == Some(rd.price + 2.0 * (rd.price - rd.kijun.value)))
      && (r.value[0].side != Buy ==>
            r.value[0].side == Sell && SellRule(rd) &&
            r.value[0].stopLoss == Some(rd.kijun.value * 1.01) &&
            r.value[0].takeProfit == Some(rd.price - 2.0 * (rd.kijun.value - rd.price)))
    ensures var r := SignalsOf(cfg, cs, now);
      |cs| >= cfg.ichimoku.senkouSpanBPeriod + cfg.ichimoku.displacement && |cs| >= 2 ==>
      var rd := ReadingOf(cfg.ichimoku, cs);
      (r.Success? && |r.value| == 1 <==> (BuyRule(rd) || SellRule(rd)) && rd.price != 0.0)
    ensures var r := SignalsOf(cfg, cs, now);
      r.Failure? ==> r.error == IndexOutOfRange || r.error == ZeroDivision
  {
  }

  /** `generate_signals` on a frame. `calculate_ichimoku` runs before any
      guard and reads the `high` column first, so a frame without columns
      raises a KeyError; Ichimoku parameters outside `WellFormed` are taken
      as raising a ValueError. */
  function FrameSignals(cfg: Config, t: Table, now: int): Result<seq<Signal>, Fault> {
    if t.columnless then Failure(KeyMissing("high"))
    else if !cfg.ichimoku.WellFormed() then Failure(Raised("ValueError"))
    else SignalsOf(cfg, t.candles, now)
  }

  /** On a frame the strategy fails exactly when the frame has no columns,
      the parameters are malformed, or the candle series itself fails; every
      other outcome is that of the candle series. */
  lemma FrameSignalsSpec(cfg: Config, t: Table, now: int)
    ensures var r := FrameSignals(cfg, t, now);
      && (t.columnless ==> r == Failure(KeyMissing("high")))
      && (!t.columnless && !cfg.ichimoku.WellFormed() ==> r == Failure(Raised("ValueError")))
      && (!t.columnless && cfg.ichimoku.WellFormed() ==> r == SignalsOf(cfg, t.candles, now))
      && (r.Failure? && !t.columnless && cfg.ichimoku.WellFormed() ==>
            r.error == IndexOutOfRange || r.error == ZeroDivision)
  {
    if !t.columnless && cfg.ichimoku.WellFormed() {
      SignalsOfSpec(cfg, t.candles, now);
    }
  }

  /** `generate_signals`: works on a copy of the frame, so the frame it is
      given is left as it was (the method may modify no existing object). */
  method GenerateSignals(cfg: Config, data: Frame, now: int) returns (r: Result<seq<Signal>, Fault>)
    ensures r == FrameSignals(cfg, data.Snapshot(), now)
  {
    if data.columnless {
      return Failure(KeyMissing("high"));
    }
    if !cfg.ichimoku.WellFormed() {
      return Failure(Raised("ValueError"));
    }
    var p := cfg.ichimoku;
    var df := data.Copy();
    ghost var cs := data.candles;
    ghost var m := data.columns + IchimokuColumns(p, cs);
    CalculateIchimoku(p, df);
    assert df.candles == cs && df.columns == m;
    var n := |df.candles|;
    var d := p.displacement;
    if n < p.senkouSpanBPeriod + d {
      assert SignalsOf(cfg, cs, now) == Success([]);
      return Success([]);
    }
    if n < 2 {
      assert SignalsOf(cfg, cs, now) == Failure(IndexOutOfRange);
      return Failure(IndexOutOfRange);
    }
    var cols := df.columns;
    var currentPrice := df.candles[n - 1].close;
    var tenkan := Read(cols, "tenkan_sen", n - 1);
    var kijun := Read(cols, "kijun_sen", n - 1);
    var spanA := Read(cols, "senkou_span_a", n - 1);
    var spanB := Read(cols, "senkou_span_b", n - 1);
    var chikou := if n > d + 1 then Read(cols, "chikou_span", n - d - 1) else None;
    var prevTenkan := Read(cols, "tenkan_sen", n - 2);
    var prevKijun := Read(cols, "kijun_sen", n - 2);
    var lagged := if n > 2 * d + 1 then Some(df.candles[n - 2 * d - 1].close) else None;

    ReadingOverFrame(p, cs, data.columns);
    var rd := Reading(currentPrice, tenkan, kijun, spanA, spanB, prevTenkan, prevKijun, chikou, lagged);
    assert rd == ReadingOf(p, cs);
    r := SignalsAt(cfg, rd, now);
  }

  /** The rule checks of `generate_signals` on the values read at the end of
      the frame, and the signal they emit. */
  method SignalsAt(cfg: Config, rd: Reading, now: int) returns (r: Result<seq<Signal>, Fault>)
    ensures r == SignalsFromReading(cfg, rd, now)
  {
    var signals: seq<Signal> := [];
    var currentPrice := rd.price;
    var cloudTop := PyMax(rd.spanA, rd.spanB);
    var cloudBottom := PyMin(rd.spanA, rd.spanB);
    var bullishCloud := Gt(rd.spanA, rd.spanB);

    var tkCrossBullish := Gt(rd.tenkan, rd.kijun) && Le(rd.prevTenkan, rd.prevKijun);
    var priceAboveCloud := Gt(Some(currentPrice), cloudTop);
    var chikouBullish := rd.lagged.Some? && Gt(rd.chikou, rd.lagged);
    var buySignal := tkCrossBullish && priceAboveCloud && bullishCloud && chikouBullish;

    var tkCrossBearish := Lt(rd.tenkan, rd.kijun) && Ge(rd.prevTenkan, rd.prevKijun);
    var priceBelowCloud := Lt(Some(currentPrice), cloudBottom);
    var chikouBearish := rd.lagged.Some? && Lt(rd.chikou, rd.lagged);
    var sellSignal := tkCrossBearish && priceBelowCloud && !bullishCloud && chikouBearish;

    assert buySignal == BuyRule(rd) && sellSignal == SellRule(rd);
    RulesExclusive(rd);

    if buySignal {
      var quantity := CalculatePositionSize(cfg, currentPrice, Buy);
      if quantity.Failure? {
        return Failure(quantity.error);
      }
      var kijun := rd.kijun.value;
      signals := signals + [Signal(Name, cfg.symbol, Buy, Some(currentPrice), quantity.value,
                                   Some(kijun * 0.99), Some(currentPrice + (currentPrice - kijun) * 2.0), now, None)];
      assert signals == [BuySignal(cfg, rd, quantity.value, now)];
    }
    if sellSignal {
      var quantity := CalculatePositionSize(cfg, currentPrice, Sell);
      if quantity.Failure? {
        return Failure(quantity.error);
      }
      var kijun := rd.kijun.value;
      signals := signals + [Signal(Name, cfg.symbol, Sell, Some(currentPrice), quantity.value,
                                   Some(kijun * 1.01), Some(currentPrice - (kijun - currentPrice) * 2.0), now, None)];
      assert signals == [SellSignal(cfg, rd, quantity.value, now)];
    }
    return Success(signals);
  }

  /** With too little history nothing is signalled: 30 candles against the
      default 52 + 26. */
  lemma ShortHistoryExample(cs: seq<Candle>, now: int)
    requires |cs| == 30
    ensures SignalsOf(Default(), cs, now) == Success([])
  {
  }

  /** With the 1% buffer beyond Kijun, a buy placed above a positive Kijun
      plans a reward:risk strictly between 0 and 2. */
  lemma BuyRewardRisk(cfg: Config, r: Reading, quantity: real, now: int)
    requires r.kijun.Some? && 0.0 < r.kijun.value < r.price
    ensures var s := BuySignal(cfg, r, quantity, now);
      var ratio := Utils.RiskRewardRatio(s.price.value, s.stopLoss.value, s.takeProfit.value, s.side);
      0.0 < ratio < 2.0
  {
    var s := BuySignal(cfg, r, quantity, now);
    var k := r.kijun.value;
    var risk := r.price - k * 0.99;
    var reward := 2.0 * (r.price - k);
    assert Utils.Abs(s.price.value - s.stopLoss.value) == risk;
    assert Utils.Abs(s.takeProfit.value - s.price.value) == reward;
    var ratio := Utils.RiskRewardRatio(s.price.value, s.stopLoss.value, s.takeProfit.value, s.side);
    assert ratio * risk == reward;
    assert 0.0 < reward < 2.0 * risk;
    ProductBounds(ratio, risk, reward);
  }

  /** A positive product below twice its positive factor. */
  lemma ProductBounds(x: real, y: real, z: real)
    requires y > 0.0 && x * y == z && 0.0 < z < 2.0 * y
    ensures 0.0 < x < 2.0
  {
  }
}
