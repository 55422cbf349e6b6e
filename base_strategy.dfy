/** What every strategy shares: the default (empty) signal generation, the
    risk-based position size, and the account balance it is sized from. */
module BaseStrategy {
  import opened Wrappers
  import opened Signals
  import opened Frames
  import Text

  /** The signals of a strategy that does not override generation: none. */
  function GenerateSignals(data: Table): (r: seq<Signal>)
    ensures |r| == 0
  {
    []
  }

  const MicroUnits: real := 1000000.0

  /** A whole number of millionths. */
  ghost predicate IsMicro(x: real) {
    exists k: int {:trigger k as real} :: x == k as real / MicroUnits
  }

  /** `round(x, 6)`: the nearest multiple of 1e-6, ties to the even multiple. */
  function Round6(x: real): (r: real)
    ensures -0.0000005 <= r - x <= 0.0000005
    ensures IsMicro(r)
  {
    var m := x * MicroUnits;
    var k := m.Floor;
    var f := m - k as real;
    var n := if f < 0.5 then k else if f > 0.5 then k + 1 else if k % 2 == 0 then k else k + 1;
    assert n as real / MicroUnits - x == (n as real - m) / MicroUnits;
    n as real / MicroUnits
  }

  /** A whole number of millionths rounds to itself. */
  lemma RoundMicro(k: int)
    ensures Round6(k as real / MicroUnits) == k as real / MicroUnits
  {
    var m := (k as real / MicroUnits) * MicroUnits;
    assert m == k as real;
    assert m.Floor == k;
  }

  /** Rounding never moves a value past a whole number of millionths above it. */
  lemma RoundBelowMicro(x: real, k: int)
    requires x <= k as real / MicroUnits
    ensures Round6(x) <= k as real / MicroUnits
  {
    var m := x * MicroUnits;
    assert m <= k as real;
    var fl := m.Floor;
    assert fl <= k;
    if fl == k {
      assert m == k as real;
    }
  }

  /** `min(balance * risk_per_trade / price, max_position_size)` rounded to six
      decimals; dividing by a zero price raises. The side is not consulted. */
  function PositionSize(balance: real, riskPerTrade: real, maxPositionSize: real, price: real, side: string): (r: Result<real, Fault>)
    ensures r.Failure? <==> price == 0.0
    ensures r.Failure? ==> r.error == ZeroDivision
    ensures r.Success? ==> IsMicro(r.value)
    ensures r.Success? ==> r.value <= maxPositionSize + 0.0000005
    ensures r.Success? ==> r.value <= balance * riskPerTrade / price + 0.0000005
    ensures r.Success? ==> r.value >= (if balance * riskPerTrade / price < maxPositionSize then balance * riskPerTrade / price else maxPositionSize) - 0.0000005
  {
    if price == 0.0 then Failure(ZeroDivision)
    else
      var size := balance * riskPerTrade / price;
      var capped := if maxPositionSize < size then maxPositionSize else size;
      Success(Round6(capped))
  }

  /** The side is never consulted: a buy and a sell at the same price get
      the same size. */
  lemma PositionSizeIgnoresSide(balance: real, riskPerTrade: real, maxPositionSize: real, price: real, side1: string, side2: string)
    ensures PositionSize(balance, riskPerTrade, maxPositionSize, price, side1) ==
            PositionSize(balance, riskPerTrade, maxPositionSize, price, side2)
  {
  }

  /** When the configured maximum is a whole number of millionths, rounding
      cannot push the size above it. */
  lemma PositionSizeWithinMax(balance: real, riskPerTrade: real, k: int, price: real, side: string)
    requires price != 0.0
    ensures PositionSize(balance, riskPerTrade, k as real / MicroUnits, price, side).value <= k as real / MicroUnits
  {
    var size := balance * riskPerTrade / price;
    var maxSize := k as real / MicroUnits;
    var capped := if maxSize < size then maxSize else size;
    RoundBelowMicro(capped, k);
  }

  /** The worked example: 10000 at 1% risk, price 50000, maximum 0.01 gives 0.002. */
  lemma PositionSizeExample()
    ensures PositionSize(10000.0, 0.01, 0.01, 50000.0, Buy) == Success(0.002)
  {
    assert 10000.0 * 0.01 / 50000.0 == 2000 as real / MicroUnits;
    RoundMicro(2000);
  }

  /** Rounding can move the size ABOVE the risk bound: at 10000, 1%, price
      62500000 the bound is 0.0000016 and the size 0.000002. */
  lemma PositionSizeCanExceedRiskBound()
    ensures PositionSize(10000.0, 0.01, 0.01, 62500000.0, Buy).value > 10000.0 * 0.01 / 62500000.0
  {
    var m := (10000.0 * 0.01 / 62500000.0) * MicroUnits;
    assert m == 1.6;
    assert m.Floor == 1;
  }

  /** The exchange as a strategy sees it: none attached, or attached with the
      outcome of its balance request (None when the request raised). */
  datatype Connection = Offline | Online(balances: Option<map<string, Balance>>)

  /** The free balance of the symbol's quote currency (its last four letters),
      10000 when there is no connection or no such balance. */
  function GetAccountBalance(symbol: string, connection: Connection): (r: Result<real, Fault>)
    ensures connection.Offline? ==> r == Success(10000.0)
    ensures connection.Online? && connection.balances.None? ==> r.Failure?
    ensures connection.Online? && connection.balances.Some? ==>
      r == Success(if Text.TakeLast(symbol, 4) in connection.balances.value
                   then connection.balances.value[Text.TakeLast(symbol, 4)].free else 10000.0)
  {
    match connection
    case Offline => Success(10000.0)
    case Online(None) => Failure(Raised("account request failed"))
    case Online(Some(balances)) =>
      var quote := Text.TakeLast(symbol, 4);
      if quote in balances then Success(balances[quote].free) else Success(10000.0)
  }
}
