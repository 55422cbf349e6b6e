/** A candle frame: the OHLCV rows plus named derived columns, one cell per
    row. Indicator code adds columns to a frame object in place, so a frame is
    an object whose column map is reassigned. */
module Frames {
  import opened Wrappers

  /** One candle. `day` is the calendar-date key of its open time. */
  datatype Candle = Candle(
    openTime: int,
    day: int,
    open: real,
    high: real,
    low: real,
    close: real,
    volume: real,
    closeTime: int)

  /** A derived cell: a number, a boolean flag, or pandas' NaN. */
  datatype Cell = Value(x: real) | Flag(b: bool) | NaN

  /** A cell read as a number; NaN is undefined and a flag reads as 0 or 1. */
  function Number(c: Cell): Option<real> {
    match c
    case Value(x) => Some(x)
    case Flag(b) => Some(if b then 1.0 else 0.0)
    case NaN => None
  }

  /** A numeric cell from an optional value. */
  function CellOf(v: Option<real>): (c: Cell)
    ensures Number(c) == v
  {
    match v
    case Some(x) => Value(x)
    case None => NaN
  }

  /** Row i of a named numeric column; undefined where the column or the row
      is absent. */
  function Read(cols: map<string, seq<Cell>>, name: string, i: int): Option<real> {
    if name in cols && 0 <= i < |cols[name]| then Number(cols[name][i]) else None
  }

  /** A snapshot of a frame's contents. `columnless` marks `pd.DataFrame()`,
      which has no rows and not even the candle columns. */
  datatype Table = Table(candles: seq<Candle>, columns: map<string, seq<Cell>>, columnless: bool)

  class Frame {
    var candles: seq<Candle>
    var columns: map<string, seq<Cell>>
    const columnless: bool

    /** A frame of raw candles, without derived columns; `FromCandles([])`
        has the candle columns but no rows. */
    constructor FromCandles(cs: seq<Candle>)
      ensures candles == cs && columns == map[] && !columnless
    {
      candles := cs;
      columns := map[];
      columnless := false;
    }

    /** `pd.DataFrame()`: no rows and no columns at all. */
    constructor Columnless()
      ensures candles == [] && columns == map[] && columnless
    {
      candles := [];
      columns := map[];
      columnless := true;
    }

    /** `df.empty` */
    predicate IsEmpty()
      reads this
    {
      |candles| == 0
    }

    function Snapshot(): Table
      reads this
    {
      Table(candles, columns, columnless)
    }

    /** `df.copy()`: a new frame with the same contents. */
    method Copy() returns (c: Frame)
      ensures fresh(c)
      ensures c.candles == candles && c.columns == columns && c.columnless == columnless
    {
      if columnless {
        c := new Frame.Columnless();
      } else {
        c := new Frame.FromCandles(candles);
      }
      c.candles := candles;
      c.columns := columns;
    }
  }
}
