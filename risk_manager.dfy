/** The risk gate between a strategy's signal and the exchange: account
    state refreshed from an exchange snapshot, a fixed sequence of trade
    checks that also fills in the signal's size and protective prices, and a
    trailing-stop ratchet over the open trades. */
module RiskManagement {
  import opened Wrappers
  import opened Settings
  import opened Signals
  import Text

  /** One entry of the exchange's open-order list. */
  datatype Order = Order(orderId: int, symbol: string, side: string)

  /** What the exchange answered when the account state was refreshed; None
      where the call raised. The open orders are only asked for once the
      balances have arrived. */
  datatype AccountSnapshot = AccountSnapshot(
    balances: Option<map<string, Balance>>,
    openOrders: Option<seq<Order>>)

  /** Reading an attribute that was never assigned, e.g. the balances when
      every refresh so far has failed. */
  const AttributeMissing: Fault := Raised("AttributeError")

  /** The smallest quantity the exchange accepts. */
  const MinPositionSize: real := 0.00001

  /** The account value used when the balances hold no quote currency. */
  const FallbackAccountValue: real := 10000.0

  // ---------------------------------------------------------------------------
  // Account state
  // ---------------------------------------------------------------------------

  /** `{order['orderId']: order for order in open_orders}`. */
  function OrdersById(orders: seq<Order>): map<int, Order> {
    if |orders| == 0 then map[]
    else OrdersById(orders[..|orders| - 1])[orders[|orders| - 1].orderId := orders[|orders| - 1]]
  }

  /** The keys are exactly the ids of the listed orders. */
  lemma {:induction false} OrdersByIdKeys(orders: seq<Order>)
    ensures forall id :: id in OrdersById(orders) <==> exists i :: 0 <= i < |orders| && orders[i].orderId == id
  {
    if |orders| > 0 {
      var init := orders[..|orders| - 1];
      OrdersByIdKeys(init);
      forall id | id in OrdersById(orders)
        ensures exists i :: 0 <= i < |orders| && orders[i].orderId == id
      {
        if id != orders[|orders| - 1].orderId {
          assert OrdersById(orders) == OrdersById(init)[orders[|orders| - 1].orderId := orders[|orders| - 1]];
          assert id in OrdersById(init);
          var i :| 0 <= i < |init| && init[i].orderId == id;
          assert orders[i].orderId == id;
        }
      }
      forall id | exists i :: 0 <= i < |orders| && orders[i].orderId == id
        ensures id in OrdersById(orders)
      {
        var i :| 0 <= i < |orders| && orders[i].orderId == id;
        if i < |orders| - 1 {
          assert init[i].orderId == id;
        }
      }
    }
  }

  /** Each key maps to the LAST order listed with that id. */
  lemma {:induction false} OrdersByIdLastWins(orders: seq<Order>)
    ensures forall i :: 0 <= i < |orders| ==>
      (forall j :: i < j < |orders| ==> orders[j].orderId != orders[i].orderId) ==>
      orders[i].orderId in OrdersById(orders) && OrdersById(orders)[orders[i].orderId] == orders[i]
  {
    if |orders| > 0 {
      var init := orders[..|orders| - 1];
      OrdersByIdLastWins(init);
      forall i | 0 <= i < |orders| && (forall j :: i < j < |orders| ==> orders[j].orderId != orders[i].orderId)
        ensures orders[i].orderId in OrdersById(orders) && OrdersById(orders)[orders[i].orderId] == orders[i]
      {
        if i < |orders| - 1 {
          assert init[i] == orders[i];
          assert forall j :: i < j < |init| ==> init[j] == orders[j];
        }
      }
    }
  }

  /** The base currency: the symbol without its last four characters. */
  function BaseCurrency(symbol: string): string {
    Text.DropLast(symbol, 4)
  }

  /** The quote currency: the last four characters of the symbol. */
  function QuoteCurrency(symbol: string): string {
    Text.TakeLast(symbol, 4)
  }

  /** The exposure of the listed symbols: the total held of each one's base
      currency at the placeholder price 1.0. Unset balances make the first
      lookup raise, which leaves the exposure at 0. */
  function Exposure(symbols: seq<string>, balances: Option<map<string, Balance>>): real {
    if balances.None? || |symbols| == 0 then 0.0
    else
      var init := Exposure(symbols[..|symbols| - 1], balances);
      var base := BaseCurrency(symbols[|symbols| - 1]);
      if base in balances.value then init + balances.value[base].total * 1.0 else init
  }

  /** For the one configured symbol, the exposure is the base currency's
      total, or 0 when none is held; it is never negative when totals are not. */
  lemma ExposureOfSymbol(symbol: string, balances: map<string, Balance>)
    ensures Exposure([symbol], Some(balances)) ==
      if BaseCurrency(symbol) in balances then balances[BaseCurrency(symbol)].total else 0.0
  {
    assert [symbol][..0] == [];
  }

  /** With non-negative totals the exposure is non-negative. */
  lemma {:induction false} ExposureNonNegative(symbols: seq<string>, balances: Option<map<string, Balance>>)
    requires balances.Some? ==> forall a :: a in balances.value ==> balances.value[a].total >= 0.0
    ensures Exposure(symbols, balances) >= 0.0
  {
    if balances.Some? && |symbols| > 0 {
      ExposureNonNegative(symbols[..|symbols| - 1], balances);
    }
  }

  /** `get_account_value`: the quote currency's total, else 10000. */
  function AccountValue(cfg: Config, balances: map<string, Balance>): real {
    var quote := QuoteCurrency(cfg.symbol);
    if quote in balances then balances[quote].total else FallbackAccountValue
  }

  /** `calculate_max_position_size`: min(account value x risk / price, the
      configured maximum). Raises when the balances were never set or the
      price is 0. */
  function MaxPositionSize(cfg: Config, balances: Option<map<string, Balance>>, price: real): (r: Result<real, Fault>)
    ensures r.Failure? <==> balances.None? || price == 0.0
    ensures r.Success? ==>
      var fromRisk := AccountValue(cfg, balances.value) * cfg.riskPerTrade / price;
      && r.value <= fromRisk && r.value <= cfg.maxPositionSize
      && (r.value == fromRisk || r.value == cfg.maxPositionSize)
  {
    if balances.None? then Failure(AttributeMissing)
    else if price == 0.0 then Failure(ZeroDivision)
    else
      var fromRisk := AccountValue(cfg, balances.value) * cfg.riskPerTrade / price;
      var fromConfig := cfg.maxPositionSize;
      if fromConfig < fromRisk then Success(fromConfig) else Success(fromRisk)
  }

  // ---------------------------------------------------------------------------
  // Trade validation
  // ---------------------------------------------------------------------------

  /** The outcome of `validate_trade` (True, False, or an exception) and the
      signal as it stands afterwards, since the checks write into it. */
  datatype Validation = Validation(verdict: Result<bool, Fault>, signal: Signal)

  /** A buy against a held sell, or a sell against a held buy. */
  predicate Opposite(side: string, held: string) {
    (side == Buy && held == Sell) || (side == Sell && held == Buy)
  }

  /** The stop-loss placed for a signal without one: on the losing side of
      the price, below it for a buy and above it for any other side. */
  function StopLevel(cfg: Config, side: string, price: real): real {
    if side == Buy then price * (1.0 - cfg.stopLossPct) else price * (1.0 + cfg.stopLossPct)
  }

  /** The take-profit placed for a signal without one: on the winning side of
      the price. */
  function TargetLevel(cfg: Config, side: string, price: real): real {
    if side == Buy then price * (1.0 + cfg.takeProfitPct) else price * (1.0 - cfg.takeProfitPct)
  }

  /** With a positive price and percentages below 100%, a buy's stop lies
      below the price and its target above; for any other side the other way
      round. */
  lemma LevelsStraddlePrice(cfg: Config, side: string, price: real)
    requires price > 0.0
    requires 0.0 < cfg.stopLossPct < 1.0 && 0.0 < cfg.takeProfitPct < 1.0
    ensures side == Buy ==> 0.0 < StopLevel(cfg, side, price) < price < TargetLevel(cfg, side, price)
    ensures side != Buy ==> 0.0 < TargetLevel(cfg, side, price) < price < StopLevel(cfg, side, price)
  {
    var sl, tp := cfg.stopLossPct, cfg.takeProfitPct;
    var stop, target := StopLevel(cfg, side, price), TargetLevel(cfg, side, price);
    if side == Buy {
      FractionOfPrice(price, sl, stop, price * (1.0 + sl));
      FractionOfPrice(price, tp, price * (1.0 - tp), target);
    } else {
      FractionOfPrice(price, sl, price * (1.0 - sl), stop);
      FractionOfPrice(price, tp, target, price * (1.0 + tp));
    }
  }

  /** A fraction strictly between 0 and 1 of a positive price moves it by a
      positive amount that is smaller than the price itself. */
  lemma FractionOfPrice(price: real, pct: real, lower: real, higher: real)
    requires price > 0.0 && 0.0 < pct < 1.0
    requires lower == price * (1.0 - pct) && higher == price * (1.0 + pct)
    ensures 0.0 < lower < price < higher
  {
    var q := 1.0 - pct;
    PositiveProduct(price, pct);
    PositiveProduct(price, q);
    assert price * q == price - price * pct;
    assert price * (1.0 + pct) == price + price * pct;
  }

  lemma PositiveProduct(x: real, y: real)
    requires x > 0.0 && y > 0.0
    ensures x * y > 0.0
  {
  }

  /** A missing stop-loss (only when stops are in use) and a missing
      take-profit. */
  function Backfill(cfg: Config, s: Signal, price: real): Signal {
    var withStop :=
      if cfg.useStopLoss && s.stopLoss.None? then s.(stopLoss := Some(StopLevel(cfg, s.side, price))) else s;
    if withStop.takeProfit.None? then withStop.(takeProfit := Some(TargetLevel(cfg, s.side, price))) else withStop
  }

  /** The checks after the position checks: size clamp, minimum size,
      backfill, exposure ceiling. A missing price reads as 0. */
  function SizeAndExposure(cfg: Config, balances: Option<map<string, Balance>>, exposure: Option<real>, s: Signal): Validation {
    var price := s.price.GetOr(0.0);
    var maxSize := MaxPositionSize(cfg, balances, price);
    if maxSize.Failure? then Validation(Failure(maxSize.error), s)
    else
      var clamped := if s.quantity > maxSize.value then s.(quantity := maxSize.value) else s;
      if clamped.quantity < MinPositionSize then Validation(Success(false), clamped)
      else
        var filled := Backfill(cfg, clamped, price);
        if exposure.None? then Validation(Failure(AttributeMissing), filled)
        else
          var ok := !(exposure.value + clamped.quantity * price > AccountValue(cfg, balances.value) * 0.9);
          Validation(Success(ok), filled)
  }

  /** `validate_trade` on the account state it has just refreshed. */
  function Decide(cfg: Config, positions: map<string, Signal>, balances: Option<map<string, Balance>>,
                  exposure: Option<real>, s: Signal): Validation
  {
    if |positions| >= cfg.maxOpenTrades then Validation(Success(false), s)
    else if s.symbol in positions && Opposite(s.side, positions[s.symbol].side) then Validation(Success(false), s)
    else SizeAndExposure(cfg, balances, exposure, s)
  }

  /** The open-trade limit is checked first: at the limit every signal is
      rejected untouched, whatever else holds. */
  lemma RejectsAtTradeLimit(cfg: Config, positions: map<string, Signal>, balances: Option<map<string, Balance>>,
                            exposure: Option<real>, s: Signal)
    requires |positions| >= cfg.maxOpenTrades
    ensures Decide(cfg, positions, balances, exposure, s) == Validation(Success(false), s)
  {
  }

  /** Below the limit, a position held on the other side rejects the signal
      untouched; a position on the same side (or any other side) does not
      block it, and the decision is then that of a symbol with no position. */
  lemma OppositePositionRule(cfg: Config, positions: map<string, Signal>, balances: Option<map<string, Balance>>,
                             exposure: Option<real>, s: Signal)
    requires |positions| < cfg.maxOpenTrades && s.symbol in positions
    ensures Opposite(s.side, positions[s.symbol].side) ==>
      Decide(cfg, positions, balances, exposure, s) == Validation(Success(false), s)
    ensures !Opposite(s.side, positions[s.symbol].side) ==>
      Decide(cfg, positions, balances, exposure, s) == Decide(cfg, positions - {s.symbol}, balances, exposure, s)
  {
    assert |positions - {s.symbol}| < |positions|;
  }

  /** Past the position checks the quantity never exceeds the maximum size,
      and it is rewritten only when it exceeded it. */
  lemma ClampedToMax(cfg: Config, balances: Option<map<string, Balance>>, exposure: Option<real>, s: Signal)
    requires MaxPositionSize(cfg, balances, s.price.GetOr(0.0)).Success?
    ensures var v := SizeAndExposure(cfg, balances, exposure, s);
      var m := MaxPositionSize(cfg, balances, s.price.GetOr(0.0)).value;
      && v.signal.quantity <= m
      && v.signal.quantity == (if s.quantity > m then m else s.quantity)
  {
  }

  /** The fields other than quantity, stop-loss and take-profit are never
      written, an existing stop-loss or take-profit is kept, and a missing one
      is filled in exactly when the checks reach the backfill. */
  lemma WritesOnlySizeAndProtection(cfg: Config, positions: map<string, Signal>, balances: Option<map<string, Balance>>,
                                    exposure: Option<real>, s: Signal)
    ensures var v := Decide(cfg, positions, balances, exposure, s).signal;
      && v == s.(quantity := v.quantity, stopLoss := v.stopLoss, takeProfit := v.takeProfit)
      && (s.stopLoss.Some? ==> v.stopLoss == s.stopLoss)
      && (s.takeProfit.Some? ==> v.takeProfit == s.takeProfit)
  {
  }

  /** The backfill happens whenever the checks get past the minimum size,
      whatever the exposure check then decides: a signal rejected for
      exposure still carries the backfilled stop-loss and take-profit. A
      signal stopped earlier keeps its own. */
  lemma BackfilledWhenReached(cfg: Config, positions: map<string, Signal>, balances: Option<map<string, Balance>>,
                              exposure: Option<real>, s: Signal)
    ensures var price := s.price.GetOr(0.0);
      var m := MaxPositionSize(cfg, balances, price);
      var v := Decide(cfg, positions, balances, exposure, s).signal;
      var reached := && |positions| < cfg.maxOpenTrades
                     && !(s.symbol in positions && Opposite(s.side, positions[s.symbol].side))
                     && m.Success?
                     && MinPositionSize <= (if s.quantity > m.value then m.value else s.quantity);
      && (reached ==> v == Backfill(cfg, if s.quantity > m.value then s.(quantity := m.value) else s, price))
      && (!reached ==> v.stopLoss == s.stopLoss && v.takeProfit == s.takeProfit)
  {
  }

  /** A signal accepted with no stop-loss or take-profit of its own carries
      the backfilled ones: below and above the price for a buy, the other way
      round for any other side; the stop only when stops are in use. */
  lemma AcceptedIsProtected(cfg: Config, positions: map<string, Signal>, balances: Option<map<string, Balance>>,
                            exposure: Option<real>, s: Signal)
    requires Decide(cfg, positions, balances, exposure, s).verdict == Success(true)
    ensures var v := Decide(cfg, positions, balances, exposure, s).signal;
      var p := s.price.GetOr(0.0);
      && (s.stopLoss.None? && cfg.useStopLoss ==> v.stopLoss == Some(StopLevel(cfg, s.side, p)))
      && (s.stopLoss.None? && !cfg.useStopLoss ==> v.stopLoss.None?)
      && (s.takeProfit.None? ==> v.takeProfit == Some(TargetLevel(cfg, s.side, p)))
  {
    var price := s.price.GetOr(0.0);
    assert Decide(cfg, positions, balances, exposure, s) == SizeAndExposure(cfg, balances, exposure, s);
    var m := MaxPositionSize(cfg, balances, price).value;
    var clamped := if s.quantity > m then s.(quantity := m) else s;
    assert Decide(cfg, positions, balances, exposure, s).signal == Backfill(cfg, clamped, price);
  }

  /** A signal is accepted exactly when the book has room, no opposite
      position is held, the sizing succeeds, the clamped quantity is at least
      the minimum, and the trade keeps the exposure within 90% of the account
      value; an accepted signal therefore respects every bound. */
  lemma AcceptIff(cfg: Config, positions: map<string, Signal>, balances: Option<map<string, Balance>>,
                  exposure: Option<real>, s: Signal)
    ensures var v := Decide(cfg, positions, balances, exposure, s);
      var price := s.price.GetOr(0.0);
      var m := MaxPositionSize(cfg, balances, price);
      v.verdict == Success(true) <==>
        && |positions| < cfg.maxOpenTrades
        && !(s.symbol in positions && Opposite(s.side, positions[s.symbol].side))
        && m.Success? && exposure.Some?
        && v.signal.quantity == (if s.quantity > m.value then m.value else s.quantity)
        && MinPositionSize <= v.signal.quantity <= m.value
        && exposure.value + v.signal.quantity * price <= 0.9 * AccountValue(cfg, balances.value)
  {
  }

  /** Exceptions escape only from the sizing (balances never set, zero or
      missing price) and from an exposure that was never computed. */
  lemma DecideFaults(cfg: Config, positions: map<string, Signal>, balances: Option<map<string, Balance>>,
                     exposure: Option<real>, s: Signal)
    ensures var v := Decide(cfg, positions, balances, exposure, s);
      v.verdict.Failure? ==>
        (v.verdict.error == ZeroDivision && s.price.GetOr(0.0) == 0.0 && balances.Some?)
        || (v.verdict.error == AttributeMissing && (balances.None? || exposure.None?))
  {
  }

  /** With 9500 already exposed on a 10000 account, a further trade worth 600
      (0.01 at 60000) is cut down to the risk limit and still rejected. */
  lemma ExposureCeilingExample()
    ensures var s := Signal("ichimoku", "BTCUSDT", Buy, Some(60000.0), 0.01, None, None, 0, None);
      var v := Decide(Default(), map[], Some(map["USDT" := Balance(10000.0, 0.0, 10000.0)]), Some(9500.0), s);
      v.verdict == Success(false) && v.signal.quantity == 100.0 / 60000.0
  {
    var s := Signal("ichimoku", "BTCUSDT", Buy, Some(60000.0), 0.01, None, None, 0, None);
    var b := map["USDT" := Balance(10000.0, 0.0, 10000.0)];
    assert QuoteCurrency("BTCUSDT") == "USDT";
    assert AccountValue(Default(), b) == 10000.0;
  }

  // ---------------------------------------------------------------------------
  // Trailing stops
  // ---------------------------------------------------------------------------

  /** One trade's stop after a tick at `currentPrice`: a buy's stop is raised
      to `currentPrice * (1 - pct)` when that is higher, any other side's is
      lowered to `currentPrice * (1 + pct)` when that is lower. A trade
      without a price or a stop-loss raises a KeyError, which is swallowed,
      and keeps its stop. */
  function Ratchet(pct: real, t: Signal, currentPrice: real): Signal {
    if t.price.None? || t.stopLoss.None? then t
    else if t.side == Buy then
      var newStop := currentPrice * (1.0 - pct);
      if newStop > t.stopLoss.value then t.(stopLoss := Some(newStop)) else t
    else
      var newStop := currentPrice * (1.0 + pct);
      if newStop < t.stopLoss.value then t.(stopLoss := Some(newStop)) else t
  }

  /** The stop only ever moves in the trade's favour and nothing else about
      the trade changes. */
  lemma RatchetMonotone(pct: real, t: Signal, currentPrice: real)
    ensures var u := Ratchet(pct, t, currentPrice);
      && u == t.(stopLoss := u.stopLoss)
      && (t.stopLoss.None? ==> u.stopLoss.None?)
      && (t.stopLoss.Some? ==> u.stopLoss.Some?)
      && (t.stopLoss.Some? && t.side == Buy ==> u.stopLoss.value >= t.stopLoss.value)
      && (t.stopLoss.Some? && t.side != Buy ==> u.stopLoss.value <= t.stopLoss.value)
  {
  }

  /** A second tick at the same price changes nothing. */
  lemma RatchetIdempotent(pct: real, t: Signal, currentPrice: real)
    ensures Ratchet(pct, Ratchet(pct, t, currentPrice), currentPrice) == Ratchet(pct, t, currentPrice)
  {
  }

  /** After two ticks a buy's stop is the highest of its old stop and the two
      candidates, whatever the order of the ticks. */
  lemma RatchetTwoTicks(pct: real, t: Signal, p1: real, p2: real)
    requires t.side == Buy && t.price.Some? && t.stopLoss.Some?
    ensures var u := Ratchet(pct, Ratchet(pct, t, p1), p2);
      var c1 := p1 * (1.0 - pct);
      var c2 := p2 * (1.0 - pct);
      && u.stopLoss.value >= t.stopLoss.value && u.stopLoss.value >= c1 && u.stopLoss.value >= c2
      && (u.stopLoss.value == t.stopLoss.value || u.stopLoss.value == c1 || u.stopLoss.value == c2)
      && u == Ratchet(pct, Ratchet(pct, t, p2), p1)
  {
  }

  /** A long position with its stop at 49000: a tick at 50500 raises it to
      49995, and a later tick at 50000 leaves it there. */
  lemma TrailingStopExample(t: Signal)
    requires t.side == Buy && t.price.Some? && t.stopLoss == Some(49000.0)
    ensures Ratchet(0.01, t, 50500.0).stopLoss == Some(49995.0)
    ensures Ratchet(0.01, Ratchet(0.01, t, 50500.0), 50000.0).stopLoss == Some(49995.0)
  {
  }

  /** The open trades, keyed by trade id; `adjust_stops` rewrites them in
      place. `ids` is the dictionary's key order, the order its items are
      visited in. */
  class TradeBook {
    var ids: seq<int>
    var trades: map<int, Signal>

    /** Every key listed once, in insertion order. */
    ghost predicate Valid()
      reads this
    {
      && (forall i, j :: 0 <= i < j < |ids| ==> ids[i] != ids[j])
      && (forall id :: id in trades <==> id in ids)
    }

    /** An empty book. */
    constructor()
      ensures Valid() && ids == [] && trades == map[]
    {
      ids := [];
      trades := map[];
    }

    /** `open_trades[id] = trade`: a new id goes to the end of the key order,
        an existing one keeps its place. */
    method Put(id: int, trade: Signal)
      requires Valid()
      modifies this
      ensures Valid()
      ensures trades == old(trades)[id := trade]
      ensures ids == if id in old(trades) then old(ids) else old(ids) + [id]
    {
      if id !in trades {
        ids := ids + [id];
      }
      trades := trades[id := trade];
    }
  }

  // ---------------------------------------------------------------------------
  // The risk manager
  // ---------------------------------------------------------------------------

  class RiskManager {
    const config: Config
    /** Read by the checks; nothing in the core ever adds to it. */
    var openPositions: map<string, Signal>
    /** The last balances fetched; None until a fetch has succeeded. */
    var balances: Option<map<string, Balance>>
    /** The last open orders fetched, by id; None until a fetch has succeeded. */
    var openOrders: Option<map<int, Order>>
    /** The exposure computed after the last full refresh. */
    var totalExposure: Option<real>

    /** Orders and exposure are refreshed together, and only after balances. */
    ghost predicate Valid()
      reads this
    {
      && (openOrders.Some? <==> totalExposure.Some?)
      && (openOrders.Some? ==> balances.Some?)
    }

    /** Starts with no open positions and one refresh of the account state. */
    constructor(config: Config, snapshot: AccountSnapshot)
      ensures this.config == config && openPositions == map[]
      ensures balances == snapshot.balances
      ensures openOrders == (if snapshot.balances.Some? && snapshot.openOrders.Some? then Some(OrdersById(snapshot.openOrders.value)) else None)
      ensures totalExposure == (if openOrders.Some? then Some(Exposure([config.symbol], balances)) else None)
      ensures Valid()
    {
      this.config := config;
      openPositions := map[];
      balances := None;
      openOrders := None;
      totalExposure := None;
      new;
      UpdateAccountState(snapshot);
    }

    /** `update_account_state`: a failed balance fetch changes nothing; a
        failed order fetch keeps the new balances but leaves the orders and
        the exposure as they were. */
    method UpdateAccountState(snapshot: AccountSnapshot)
      requires Valid()
      modifies this
      ensures Valid()
      ensures openPositions == old(openPositions)
      ensures snapshot.balances.None? ==>
        balances == old(balances) && openOrders == old(openOrders) && totalExposure == old(totalExposure)
      ensures snapshot.balances.Some? ==> balances == snapshot.balances
      ensures snapshot.balances.Some? && snapshot.openOrders.None? ==>
        openOrders == old(openOrders) && totalExposure == old(totalExposure)
      ensures snapshot.balances.Some? && snapshot.openOrders.Some? ==>
        openOrders == Some(OrdersById(snapshot.openOrders.value)) &&
        totalExposure == Some(Exposure([config.symbol], balances))
    {
      if snapshot.balances.None? {
        return;
      }
      balances := snapshot.balances;
      if snapshot.openOrders.None? {
        return;
      }
      openOrders := Some(OrdersById(snapshot.openOrders.value));
      CalculateExposure();
    }

    /** `calculate_exposure`: the total held of each traded symbol's base
        currency, summed at the placeholder price. */
    method CalculateExposure()
      modifies this
      ensures totalExposure == Some(Exposure([config.symbol], balances))
      ensures openPositions == old(openPositions) && balances == old(balances) && openOrders == old(openOrders)
    {
      var symbols := [config.symbol];
      var total := 0.0;
      var k := 0;
      while k < |symbols|
        invariant 0 <= k <= |symbols|
        invariant total == Exposure(symbols[..k], balances)
      {
        if balances.None? {
          // the membership test raises; the handler keeps the running total
          break;
        }
        var base := BaseCurrency(symbols[k]);
        if base in balances.value {
          var price := 1.0;
          total := total + balances.value[base].total * price;
        }
        assert symbols[..k + 1][..k] == symbols[..k];
        k := k + 1;
      }
      assert balances.Some? ==> symbols[..k] == symbols;
      totalExposure := Some(total);
    }

    /** `validate_trade`: refreshes the account state from `snapshot`, then
        decides on the signal. Returns the verdict and the signal as the
        checks left it. */
    method ValidateTrade(signal: Signal, snapshot: AccountSnapshot) returns (verdict: Result<bool, Fault>, updated: Signal)
      requires Valid()
      modifies this
      ensures Valid()
      ensures openPositions == old(openPositions)
      ensures snapshot.balances.None? ==>
        balances == old(balances) && openOrders == old(openOrders) && totalExposure == old(totalExposure)
      ensures snapshot.balances.Some? ==> balances == snapshot.balances
      ensures snapshot.balances.Some? && snapshot.openOrders.None? ==>
        openOrders == old(openOrders) && totalExposure == old(totalExposure)
      ensures snapshot.balances.Some? && snapshot.openOrders.Some? ==>
        openOrders == Some(OrdersById(snapshot.openOrders.value)) &&
        totalExposure == Some(Exposure([config.symbol], balances))
      ensures Validation(verdict, updated) == Decide(config, openPositions, balances, totalExposure, signal)
    {
      UpdateAccountState(snapshot);
      var symbol := signal.symbol;
      var side := signal.side;
      updated := signal;

      if |openPositions| >= config.maxOpenTrades {
        return Success(false), updated;
      }
      if symbol in openPositions {
        var current := openPositions[symbol];
        if (side == Buy && current.side == Sell) || (side == Sell && current.side == Buy) {
          return Success(false), updated;
        }
      }

      verdict, updated := CheckSizeAndExposure(signal);
    }

    /** The steps of `validate_trade` after the position checks, on the
        refreshed state: clamp the quantity, reject a dust order, backfill the
        protection, apply the exposure ceiling. */
    method CheckSizeAndExposure(signal: Signal) returns (verdict: Result<bool, Fault>, updated: Signal)
      ensures Validation(verdict, updated) == SizeAndExposure(config, balances, totalExposure, signal)
    {
      var quantity := signal.quantity;
      var price := signal.price.GetOr(0.0);
      updated := signal;
      var maxPositionSize := MaxPositionSize(config, balances, price);
      if maxPositionSize.Failure? {
        return Failure(maxPositionSize.error), updated;
      }
      if quantity > maxPositionSize.value {
        quantity := maxPositionSize.value;
        updated := updated.(quantity := quantity);
      }
      if quantity < MinPositionSize {
        return Success(false), updated;
      }
      updated := AddProtection(updated, price);
      var tradeValue := quantity * price;
      if totalExposure.None? {
        return Failure(AttributeMissing), updated;
      }
      if totalExposure.value + tradeValue > AccountValue(config, balances.value) * 0.9 {
        return Success(false), updated;
      }
      return Success(true), updated;
    }

    /** The stop-loss and take-profit steps of `validate_trade`, which write a
        missing one into the signal. */
    method AddProtection(s: Signal, price: real) returns (r: Signal)
      ensures r == Backfill(config, s, price)
    {
      r := s;
      if config.useStopLoss && r.stopLoss.None? {
        r := r.(stopLoss := Some(StopLevel(config, r.side, price)));
      }
      if r.takeProfit.None? {
        r := r.(takeProfit := Some(TargetLevel(config, r.side, price)));
      }
    }

    /** `adjust_stops`: with trailing stops off nothing changes; otherwise
        every open trade is ratcheted at `currentPrice`, in place. */
    method AdjustStops(book: TradeBook, currentPrice: real)
      requires book.Valid()
      modifies book
      ensures book.Valid() && book.ids == old(book.ids)
      ensures !config.useTrailingStop ==> book.trades == old(book.trades)
      ensures config.useTrailingStop ==>
        && book.trades.Keys == old(book.trades).Keys
        && forall id :: id in book.trades ==>
             book.trades[id] == Ratchet(config.trailingStopPct, old(book.trades)[id], currentPrice)
    {
      if !config.useTrailingStop {
        return;
      }
      ghost var orig := book.trades;
      var k := 0;
      while k < |book.ids|
        invariant 0 <= k <= |book.ids|
        invariant book.ids == old(book.ids) && book.trades.Keys == orig.Keys
        invariant forall id :: id in book.trades ==>
          book.trades[id] == if id in book.ids[..k] then Ratchet(config.trailingStopPct, orig[id], currentPrice) else orig[id]
      {
        var tradeId := book.ids[k];
        assert tradeId !in book.ids[..k];
        AdjustStop(book, tradeId, currentPrice);
        assert book.ids[..k + 1] == book.ids[..k] + [tradeId];
        k := k + 1;
      }
      assert book.ids[..k] == book.ids;
    }

    /** One iteration of `adjust_stops`. A trade without a price or a
        stop-loss raises a KeyError, which is logged, and keeps its stop. */
    method AdjustStop(book: TradeBook, id: int, currentPrice: real)
      requires id in book.trades
      modifies book
      ensures book.ids == old(book.ids)
      ensures book.trades == old(book.trades)[id := Ratchet(config.trailingStopPct, old(book.trades)[id], currentPrice)]
    {
      var trade := book.trades[id];
      if trade.price.None? || trade.stopLoss.None? {
        return;
      }
      if trade.side == Buy {
        var newStop := currentPrice * (1.0 - config.trailingStopPct);
        if newStop > trade.stopLoss.value {
          book.trades := book.trades[id := trade.(stopLoss := Some(newStop))];
        }
      } else {
        var newStop := currentPrice * (1.0 + config.trailingStopPct);
        if newStop < trade.stopLoss.value {
          book.trades := book.trades[id := trade.(stopLoss := Some(newStop))];
        }
      }
    }
  }
}
