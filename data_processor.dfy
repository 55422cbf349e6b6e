/** The market-data layer: a per-key cache of indicator frames with a
    freshness rule and a fall back to the last good frame, the per-day VWAP,
    lagged pivot levels and gap flags. */
module DataProcessing {
  import opened Wrappers
  import opened Settings
  import opened Signals
  import opened Frames

  // ---------------------------------------------------------------------------
  // VWAP
  // ---------------------------------------------------------------------------

  /** The typical price (high + low + close) / 3. */
  function Typical(c: Candle): real {
    (c.high + c.low + c.close) / 3.0
  }

  /** The volume of the rows before `hi` that fall on `day`. */
  function DayVolume(cs: seq<Candle>, day: int, hi: int): real
    requires 0 <= hi <= |cs|
  {
    if hi == 0 then 0.0
    else DayVolume(cs, day, hi - 1) + (if cs[hi - 1].day == day then cs[hi - 1].volume else 0.0)
  }

  /** The volume-weighted typical price summed over the rows before `hi` that
      fall on `day`. */
  function DayTurnover(cs: seq<Candle>, day: int, hi: int): real
    requires 0 <= hi <= |cs|
  {
    if hi == 0 then 0.0
    else DayTurnover(cs, day, hi - 1) + (if cs[hi - 1].day == day then cs[hi - 1].volume * Typical(cs[hi - 1]) else 0.0)
  }

  /** VWAP at row i: the day's cumulative turnover over its cumulative volume
      up to and including row i. A zero volume gives NaN (0/0; with
      non-negative volumes a zero sum means a zero numerator too). */
  function VwapAt(cs: seq<Candle>, i: int): Cell
    requires 0 <= i < |cs|
  {
    var v := DayVolume(cs, cs[i].day, i + 1);
    if v == 0.0 then NaN else Value(DayTurnover(cs, cs[i].day, i + 1) / v)
  }

  function VwapColumn(cs: seq<Candle>): seq<Cell> {
    seq(|cs|, i requires 0 <= i < |cs| => VwapAt(cs, i))
  }

  /** The distinct day keys of a series, in order of first appearance (the
      groups of `groupby('date')`). */
  function Days(cs: seq<Candle>): (ds: seq<int>)
    ensures forall i :: 0 <= i < |cs| ==> cs[i].day in ds
  {
    if |cs| == 0 then []
    else
      var ds := Days(cs[..|cs| - 1]);
      assert forall i :: 0 <= i < |cs| - 1 ==> cs[..|cs| - 1][i] == cs[i];
      if cs[|cs| - 1].day in ds then ds else ds + [cs[|cs| - 1].day]
  }

  /** Rows of other days add nothing to a day's sums. */
  lemma {:induction false} DaySumsWithoutDay(cs: seq<Candle>, day: int, hi: int)
    requires 0 <= hi <= |cs|
    requires forall j :: 0 <= j < hi ==> cs[j].day != day
    ensures DayVolume(cs, day, hi) == 0.0 && DayTurnover(cs, day, hi) == 0.0
  {
    if hi > 0 {
      DaySumsWithoutDay(cs, day, hi - 1);
    }
  }

  /** The sums start afresh on a new date: on the first row of its day, VWAP
      is that candle's typical price. */
  lemma VwapResetsOnNewDay(cs: seq<Candle>, i: int)
    requires 0 <= i < |cs|
    requires forall j :: 0 <= j < i ==> cs[j].day != cs[i].day
    requires cs[i].volume != 0.0
    ensures VwapAt(cs, i) == Value(Typical(cs[i]))
  {
    DaySumsWithoutDay(cs, cs[i].day, i);
  }

  /** With non-negative volumes, a day's turnover lies between its volume
      times the lowest and times the highest typical price of its rows. */
  lemma {:induction false} TurnoverBounds(cs: seq<Candle>, day: int, hi: int, lo: real, up: real)
    requires 0 <= hi <= |cs|
    requires forall j :: 0 <= j < hi && cs[j].day == day ==> cs[j].volume >= 0.0 && lo <= Typical(cs[j]) <= up
    ensures DayVolume(cs, day, hi) >= 0.0
    ensures lo * DayVolume(cs, day, hi) <= DayTurnover(cs, day, hi) <= up * DayVolume(cs, day, hi)
  {
    if hi > 0 {
      TurnoverBounds(cs, day, hi - 1, lo, up);
      var c := cs[hi - 1];
      if c.day == day {
        MulMonotone(c.volume, lo, Typical(c));
        MulMonotone(c.volume, Typical(c), up);
      }
    }
  }

  /** v * a <= v * b for v >= 0 and a <= b. */
  lemma MulMonotone(v: real, a: real, b: real)
    requires v >= 0.0 && a <= b
    ensures v * a <= v * b
  {
    assert v * b - v * a == v * (b - a);
  }

  /** With non-negative volumes, VWAP lies within the range of the typical
      prices of the day's rows so far. */
  lemma VwapWithinDayRange(cs: seq<Candle>, i: int, lo: real, up: real)
    requires 0 <= i < |cs|
    requires forall j :: 0 <= j <= i && cs[j].day == cs[i].day ==> cs[j].volume >= 0.0 && lo <= Typical(cs[j]) <= up
    ensures VwapAt(cs, i).Value? ==> lo <= VwapAt(cs, i).x <= up
  {
    var d := cs[i].day;
    TurnoverBounds(cs, d, i + 1, lo, up);
    var v := DayVolume(cs, d, i + 1);
    var t := DayTurnover(cs, d, i + 1);
    if v != 0.0 {
      DivBounds(t, v, lo, up);
    }
  }

  /** From lo * v <= t <= up * v with v > 0, lo <= t / v <= up. */
  lemma DivBounds(t: real, v: real, lo: real, up: real)
    requires v > 0.0 && lo * v <= t <= up * v
    ensures lo <= t / v <= up
  {
    assert (t / v) * v == t;
  }

  /** `calculate_vwap`: a new frame holding the input's rows and columns plus
      `vwap`, filled one day group at a time with running sums. */
  method CalculateVwap(df: Frame) returns (r: Frame)
    requires !df.columnless
    ensures fresh(r) && !r.columnless
    ensures r.candles == df.candles
    ensures r.columns == df.columns["vwap" := VwapColumn(df.candles)]
  {
    var cs := df.candles;
    var n := |cs|;
    var vwap: seq<Cell> := seq(n, i => Value(0.0));
    var days := Days(cs);
    var k := 0;
    while k < |days|
      invariant 0 <= k <= |days|
      invariant |vwap| == n
      invariant forall j :: 0 <= j < n ==> vwap[j] == if cs[j].day in days[..k] then VwapAt(cs, j) else Value(0.0)
    {
      var day := days[k];
      vwap := FillDay(cs, day, vwap);
      assert days[..k + 1] == days[..k] + [day];
      k := k + 1;
    }
    assert days[..k] == days;
    assert vwap == VwapColumn(cs);
    r := new Frame.FromCandles(cs);
    r.columns := df.columns["vwap" := vwap];
  }

  /** One pass of `calculate_vwap` over a day group: the running sums of that
      day's rows, written at each of its rows; the other rows keep their value. */
  method FillDay(cs: seq<Candle>, day: int, prior: seq<Cell>) returns (vwap: seq<Cell>)
    requires |prior| == |cs|
    ensures |vwap| == |cs|
    ensures forall j :: 0 <= j < |cs| ==> vwap[j] == if cs[j].day == day then VwapAt(cs, j) else prior[j]
  {
    var n := |cs|;
    vwap := prior;
    var cumVol := 0.0;
    var cumVolPrice := 0.0;
    var i := 0;
    while i < n
      invariant 0 <= i <= n
      invariant |vwap| == n
      invariant cumVol == DayVolume(cs, day, i) && cumVolPrice == DayTurnover(cs, day, i)
      invariant forall j :: 0 <= j < n ==>
        vwap[j] == if cs[j].day == day && j < i then VwapAt(cs, j) else prior[j]
    {
      if cs[i].day == day {
        cumVol := cumVol + cs[i].volume;
        cumVolPrice := cumVolPrice + cs[i].volume * Typical(cs[i]);
        vwap := vwap[i := if cumVol == 0.0 then NaN else Value(cumVolPrice / cumVol)];
      }
      i := i + 1;
    }
  }

  // ---------------------------------------------------------------------------
  // Pivot points
  // ---------------------------------------------------------------------------

  /** The traditional floor-pivot levels of one (high, low, close). */
  datatype PivotLevels = PivotLevels(pivot: real, r1: real, s1: real, r2: real, s2: real, r3: real, s3: real)

  function Levels(h: real, l: real, c: real): PivotLevels {
    var p := (h + l + c) / 3.0;
    PivotLevels(p, 2.0 * p - l, 2.0 * p - h, p + (h - l), p - (h - l), h + 2.0 * (p - l), l - 2.0 * (h - p))
  }

  /** The second resistance and support are symmetric about the pivot, and
      the first and third pairs span once and three times the lagged candle's range. */
  lemma LevelsSymmetric(h: real, l: real, c: real)
    ensures var v := Levels(h, l, c);
      && v.r2 + v.s2 == 2.0 * v.pivot
      && v.r1 - v.s1 == h - l
      && v.r3 - v.s3 == 3.0 * (h - l)
  {
  }

  /** For a candle with its close inside its range the levels are ordered
      s3 <= s2 <= s1 <= pivot <= r1 <= r2 <= r3. */
  lemma LevelsOrdered(h: real, l: real, c: real)
    requires l <= c <= h
    ensures var v := Levels(h, l, c);
      v.s3 <= v.s2 <= v.s1 <= v.pivot <= v.r1 <= v.r2 <= v.r3
  {
  }

  /** The lookback, 1 unless configured. */
  function Lookback(cfg: Config): int {
    cfg.pivotLookback.GetOr(1)
  }

  /** The levels at row i, from the candle `lookback` rows earlier; undefined
      where that row does not exist (`shift(lookback)`). */
  function PivotAt(cs: seq<Candle>, lookback: int, i: int): Option<PivotLevels> {
    if 0 <= i - lookback < |cs| then
      var c := cs[i - lookback];
      Some(Levels(c.high, c.low, c.close))
    else None
  }

  /** A level column: row i holds the chosen level of PivotAt, or NaN. */
  function LevelColumn(cs: seq<Candle>, lookback: int, level: PivotLevels -> real): seq<Cell> {
    seq(|cs|, i requires 0 <= i < |cs| =>
      var v := PivotAt(cs, lookback, i);
      if v.Some? then Value(level(v.value)) else NaN)
  }

  /** The seven columns `calculate_pivot_points` adds. */
  function PivotColumns(cs: seq<Candle>, lookback: int): map<string, seq<Cell>> {
    map[
      "pivot" := LevelColumn(cs, lookback, (v: PivotLevels) => v.pivot),
      "r1" := LevelColumn(cs, lookback, (v: PivotLevels) => v.r1),
      "s1" := LevelColumn(cs, lookback, (v: PivotLevels) => v.s1),
      "r2" := LevelColumn(cs, lookback, (v: PivotLevels) => v.r2),
      "s2" := LevelColumn(cs, lookback, (v: PivotLevels) => v.s2),
      "r3" := LevelColumn(cs, lookback, (v: PivotLevels) => v.r3),
      "s3" := LevelColumn(cs, lookback, (v: PivotLevels) => v.s3)]
  }

  /** With a non-negative lookback the levels are undefined exactly on the
      first `lookback` rows, and elsewhere come from row i - lookback. */
  lemma PivotLag(cs: seq<Candle>, lookback: int, i: int)
    requires lookback >= 0 && 0 <= i < |cs|
    ensures PivotAt(cs, lookback, i).None? <==> i < lookback
    ensures i >= lookback ==>
      PivotAt(cs, lookback, i).value.pivot ==
        (cs[i - lookback].high + cs[i - lookback].low + cs[i - lookback].close) / 3.0
  {
  }

  /** Row i of the pivot and r2/s2 columns, as a frame holding them reads. */
  lemma PivotColumnsAt(cs: seq<Candle>, lookback: int, base: map<string, seq<Cell>>, i: int)
    requires 0 <= i < |cs|
    ensures var m := base + PivotColumns(cs, lookback);
      var v := PivotAt(cs, lookback, i);
      && Read(m, "pivot", i) == (if v.Some? then Some(v.value.pivot) else None)
      && Read(m, "r2", i) == (if v.Some? then Some(v.value.r2) else None)
      && Read(m, "s2", i) == (if v.Some? then Some(v.value.s2) else None)
  {
  }

  /** `calculate_pivot_points`: a copy of the frame with the seven level
      columns added. */
  method CalculatePivotPoints(cfg: Config, df: Frame) returns (r: Frame)
    requires !df.columnless
    ensures fresh(r) && !r.columnless
    ensures r.candles == df.candles
    ensures r.columns == df.columns + PivotColumns(df.candles, Lookback(cfg))
  {
    r := df.Copy();
    var lookback := Lookback(cfg);
    // pivot, r1, s1, r2, s2, r3 and s3, each written over any column of that name
    r.columns := r.columns + PivotColumns(r.candles, lookback);
  }

  // ---------------------------------------------------------------------------
  // Gaps
  // ---------------------------------------------------------------------------

  /** The open more than 0.5% above the previous close; false on row 0, where
      the previous close is NaN. */
  predicate GapUp(cs: seq<Candle>, i: int)
    requires 0 <= i < |cs|
  {
    i >= 1 && cs[i].open > cs[i - 1].close * 1.005
  }

  /** The open more than 0.5% below the previous close; false on row 0. */
  predicate GapDown(cs: seq<Candle>, i: int)
    requires 0 <= i < |cs|
  {
    i >= 1 && cs[i].open < cs[i - 1].close * 0.995
  }

  /** The gap as a percentage of the previous close; undefined on row 0 and
      where the previous close is 0. */
  function GapSize(cs: seq<Candle>, i: int): Option<real>
    requires 0 <= i < |cs|
  {
    if i == 0 || cs[i - 1].close == 0.0 then None
    else Some((cs[i].open - cs[i - 1].close) / cs[i - 1].close * 100.0)
  }

  /** For a positive previous close, a gap up is a gap of more than 0.5% and
      a gap down one of less than -0.5%. */
  lemma GapFlagsMatchSize(cs: seq<Candle>, i: int)
    requires 1 <= i < |cs| && cs[i - 1].close > 0.0
    ensures GapUp(cs, i) <==> GapSize(cs, i).value > 0.5
    ensures GapDown(cs, i) <==> GapSize(cs, i).value < -0.5
  {
    var p := cs[i - 1].close;
    var g := (cs[i].open - p) / p * 100.0;
    assert g * p == (cs[i].open - p) * 100.0;
    ScaleCompare(g, p, 0.5);
    ScaleCompare(g, p, -0.5);
  }

  /** Multiplying by a positive factor keeps the order. */
  lemma ScaleCompare(g: real, p: real, c: real)
    requires p > 0.0
    ensures g > c <==> g * p > c * p
    ensures g < c <==> g * p < c * p
  {
    assert g * p - c * p == (g - c) * p;
    if g > c {
      assert (g - c) * p > 0.0;
    } else if g < c {
      assert (c - g) * p > 0.0;
    }
  }

  /** With a non-negative previous close a candle cannot gap both ways, and
      the first row never gaps. */
  lemma GapFlagsExclusive(cs: seq<Candle>, i: int)
    requires 0 <= i < |cs|
    requires i >= 1 ==> cs[i - 1].close >= 0.0
    ensures !(GapUp(cs, i) && GapDown(cs, i))
    ensures i == 0 ==> !GapUp(cs, i) && !GapDown(cs, i) && GapSize(cs, i).None?
  {
  }

  /** The three gap columns. */
  function GapColumns(cs: seq<Candle>): map<string, seq<Cell>> {
    map[
      "gap_up" := seq(|cs|, i requires 0 <= i < |cs| => Flag(GapUp(cs, i))),
      "gap_down" := seq(|cs|, i requires 0 <= i < |cs| => Flag(GapDown(cs, i))),
      "gap_size" := seq(|cs|, i requires 0 <= i < |cs| => CellOf(GapSize(cs, i)))]
  }

  /** `detect_gaps`: adds the gap columns to the frame it is given. */
  method DetectGaps(df: Frame) returns (r: Frame)
    requires !df.columnless
    modifies df
    ensures r == df
    ensures df.candles == old(df.candles)
    ensures df.columns == old(df.columns) + GapColumns(df.candles)
  {
    var cols := GapColumns(df.candles);
    df.columns := df.columns["gap_up" := cols["gap_up"]];
    df.columns := df.columns["gap_down" := cols["gap_down"]];
    df.columns := df.columns["gap_size" := cols["gap_size"]];
    r := df;
  }

  // ---------------------------------------------------------------------------
  // Indicators and the cache
  // ---------------------------------------------------------------------------

  /** The frame `calculate_indicators` produces from a table: an empty table
      as it is, otherwise the rows with VWAP and the pivot levels added. */
  function Indicators(cfg: Config, t: Table): Table {
    if |t.candles| == 0 then t
    else Table(t.candles, t.columns["vwap" := VwapColumn(t.candles)] + PivotColumns(t.candles, Lookback(cfg)), t.columnless)
  }

  /** `calculate_indicators`: the empty frame is handed back as it is. */
  method CalculateIndicators(cfg: Config, df: Frame) returns (r: Frame)
    requires df.columnless ==> df.IsEmpty()
    ensures df.IsEmpty() ==> r == df
    ensures !df.IsEmpty() ==> fresh(r)
    ensures r.Snapshot() == Indicators(cfg, df.Snapshot())
  {
    if df.IsEmpty() {
      return df;
    }
    var withVwap := CalculateVwap(df);
    r := CalculatePivotPoints(cfg, withVwap);
  }

  /** The cache key `f"{symbol}_{timeframe}"`. */
  function CacheKey(symbol: string, timeframe: string): string {
    symbol + "_" + timeframe
  }

  /** Two different (symbol, timeframe) pairs can share a cache key. */
  lemma CacheKeysCollide()
    ensures CacheKey("A_B", "C") == CacheKey("A", "B_C")
  {
  }

  /** Less than half a candle's duration has passed since the last refresh. */
  predicate IsFresh(duration: int, last: int, now: int) {
    ((now - last) as real) < (duration as real) / 2.0
  }

  class DataProcessor {
    const config: Config
    var dataCache: map<string, Frame>
    var lastUpdate: map<string, int>

    /** Both caches are written together, so they hold the same keys. */
    ghost predicate Valid()
      reads this
    {
      dataCache.Keys == lastUpdate.Keys
    }

    constructor(config: Config)
      ensures this.config == config
      ensures dataCache == map[] && lastUpdate == map[]
      ensures Valid()
    {
      this.config := config;
      dataCache := map[];
      lastUpdate := map[];
    }

    /** `get_latest_data`. `now` is the clock reading in seconds and `klines`
        what the exchange returned, None when the call raised. A key
        refreshed less than half a candle ago is served from the cache;
        otherwise a fetched series is processed and cached, and a failed
        fetch falls back to the cached frame or an empty one. */
    method GetLatestData(symbol: Option<string>, timeframe: Option<string>, now: int, klines: Option<seq<Candle>>)
      returns (r: Result<Frame, Fault>)
      requires Valid()
      modifies this
      ensures Valid()
      ensures var tf := timeframe.GetOr(config.defaultTimeframe);
        var key := CacheKey(symbol.GetOr(config.symbol), tf);
        if key in old(lastUpdate) && tf !in config.timeframes then
          r == Failure(KeyMissing(tf)) && dataCache == old(dataCache) && lastUpdate == old(lastUpdate)
        else if key in old(lastUpdate) && IsFresh(config.timeframes[tf], old(lastUpdate)[key], now) then
          r == Success(old(dataCache)[key]) && dataCache == old(dataCache) && lastUpdate == old(lastUpdate)
        else if klines.Some? then
          && r.Success? && fresh(r.value)
          && r.value.Snapshot() == Indicators(config, Table(klines.value, map[], false))
          && dataCache == old(dataCache)[key := r.value]
          && lastUpdate == old(lastUpdate)[key := now]
        else
          && dataCache == old(dataCache) && lastUpdate == old(lastUpdate)
          && r.Success?
          && (key in dataCache ==> r.value == dataCache[key])
          && (key !in dataCache ==> fresh(r.value) && r.value.Snapshot() == Table([], map[], true))
    {
      var sym := symbol.GetOr(config.symbol);
      var tf := timeframe.GetOr(config.defaultTimeframe);
      var key := CacheKey(sym, tf);
      if key in lastUpdate {
        if tf !in config.timeframes {
          return Failure(KeyMissing(tf));
        }
        if IsFresh(config.timeframes[tf], lastUpdate[key], now) {
          return Success(dataCache[key]);
        }
      }
      if klines.Some? {
        var df := new Frame.FromCandles(klines.value);
        df := CalculateIndicators(config, df);
        dataCache := dataCache[key := df];
        lastUpdate := lastUpdate[key := now];
        return Success(df);
      }
      if key in dataCache {
        return Success(dataCache[key]);
      }
      var empty := new Frame.Columnless();
      return Success(empty);
    }
  }
}
