// The rule-based trading strategies: each reads stored technical indicators or
// stored closes for (ticker, date) and answers buy, sell or hold, buying only while
// flat and selling only while long.
module Strategies {
  import opened Wrappers
  import opened BacktestEngine

  /** One `technical_indicators` row: its nullable float columns by name. */
  type IndicatorRow = map<string, Option<real>>

  /** The indicator columns of the shipped schema. There is no column named `rsi`. */
  const IndicatorColumns: set<string> := {
    "sma_20", "sma_50", "sma_200", "rsi_14", "macd", "macd_signal", "macd_hist",
    "bb_upper", "bb_middle", "bb_lower", "atr_14", "volume_sma_20", "daily_return",
    "volatility_20d", "sharpe_ratio_20d", "max_drawdown_20d"
  }

  /** The stored market data a strategy queries: a ticker is a known stock when it has a
      (possibly empty) price series, and indicator rows are keyed by (ticker, date). */
  datatype MarketDb = MarketDb(prices: PriceDb, indicators: map<(string, int), IndicatorRow>)

  /** Every stored indicator row has exactly the shipped columns. */
  predicate ShippedSchema(db: MarketDb)
  {
    forall k :: k in db.indicators ==> db.indicators[k].Keys == IndicatorColumns
  }

  /** The indicator row of a known stock on a date, if one is stored. */
  function RowAt(db: MarketDb, ticker: string, date: int): (r: Option<IndicatorRow>)
    ensures r.Some? <==> ticker in db.prices && (ticker, date) in db.indicators
    ensures r.Some? ==> r.value == db.indicators[(ticker, date)]
  {
    if ticker in db.prices && (ticker, date) in db.indicators then Some(db.indicators[(ticker, date)])
    else None
  }

  /** `getattr(row, name, None)`: a missing attribute reads as None. */
  function Attr(row: IndicatorRow, name: string): (v: Option<real>)
    ensures name !in row ==> v == None
    ensures name in row ==> v == row[name]
  {
    if name in row then row[name] else None
  }

  /** The value an indicator lookup stands for, independent of any cache. */
  function LookupIndicator(db: MarketDb, ticker: string, date: int, name: string): (v: Option<real>)
    ensures v.Some? ==> ticker in db.prices && (ticker, date) in db.indicators
                        && name in db.indicators[(ticker, date)]
                        && db.indicators[(ticker, date)][name] == v
  {
    match RowAt(db, ticker, date)
    case None => None
    case Some(row) => Attr(row, name)
  }

  /** Under the shipped schema an indicator that is not a column is never found. */
  lemma {:induction false} UnknownColumnIsNone(db: MarketDb, ticker: string, date: int, name: string)
    requires ShippedSchema(db) && name !in IndicatorColumns
    ensures LookupIndicator(db, ticker, date, name) == None
  {
    if (ticker, date) in db.indicators && ticker in db.prices {
      assert db.indicators[(ticker, date)].Keys == IndicatorColumns;
      assert name !in db.indicators[(ticker, date)];
    }
  }

  /** The indicator reader with its memo of earlier answers. */
  class TradingStrategy {
    const db: MarketDb
    var cache: map<(string, int, string), Option<real>>

    /** Every remembered answer is the answer the database gives. */
    predicate Valid()
      reads this
    {
      forall k :: k in cache ==> cache[k] == LookupIndicator(db, k.0, k.1, k.2)
    }

    constructor(db: MarketDb)
      ensures this.db == db && cache == map[] && Valid()
    {
      this.db := db;
      cache := map[];
    }

    /** A remembered answer is returned as is; otherwise the row is read, and the
        attribute is remembered only when the row exists. */
    method GetTechnicalIndicator(ticker: string, date: int, indicator: string) returns (v: Option<real>)
      requires Valid()
      modifies this
      ensures Valid()
      ensures v == LookupIndicator(db, ticker, date, indicator)
      ensures (ticker, date, indicator) in old(cache) ==> v == old(cache)[(ticker, date, indicator)] && cache == old(cache)
      ensures (ticker, date, indicator) !in old(cache) && RowAt(db, ticker, date).Some?
              ==> cache == old(cache)[(ticker, date, indicator) := v]
      ensures RowAt(db, ticker, date).None? ==> cache == old(cache)
    {
      var key := (ticker, date, indicator);
      if key in cache {
        return cache[key];
      }
      var row := RowAt(db, ticker, date);
      if row.None? {
        return None;
      }
      v := Attr(row.value, indicator);
      cache := cache[key := v];
    }
  }

  /** What each strategy function does to read its indicators: a new `TradingStrategy`
      asked for the names one after another. The answers are the database's. */
  method FetchIndicators(db: MarketDb, ticker: string, date: int, names: seq<string>)
    returns (vs: seq<Option<real>>)
    ensures |vs| == |names|
    ensures forall i :: 0 <= i < |names| ==> vs[i] == LookupIndicator(db, ticker, date, names[i])
  {
    var reader := new TradingStrategy(db);
    vs := [];
    var i := 0;
    while i < |names|
      invariant 0 <= i <= |names| && |vs| == i
      invariant reader.db == db && reader.Valid()
      invariant forall j :: 0 <= j < i ==> vs[j] == LookupIndicator(db, ticker, date, names[j])
    {
      var v := reader.GetTechnicalIndicator(ticker, date, names[i]);
      vs := vs + [v];
      i := i + 1;
    }
  }

  /** `not db or not ticker`: no database, no ticker or the empty ticker. */
  predicate Missing(db: Option<MarketDb>, ticker: Option<string>)
  {
    db.None? || ticker.None? || ticker.value == ""
  }

  /** Keyword arguments the strategies accept, with their defaults. */
  datatype Params = Params(oversold: real, overbought: real, lookback: int, threshold: real)

  const DefaultParams: Params := Params(30.0, 70.0, 20, 0.05)

  /** Golden cross buys, dead cross sells. */
  function SmaCrossover(db: Option<MarketDb>, ticker: Option<string>, date: int, price: real, cash: real, shares: real): (r: Action)
    ensures Missing(db, ticker) ==> r == Hold
    ensures !Missing(db, ticker) ==>
      var fast := LookupIndicator(db.value, ticker.value, date, "sma_20");
      var slow := LookupIndicator(db.value, ticker.value, date, "sma_50");
      (r == Buy <==> fast.Some? && slow.Some? && fast.value > slow.value && shares == 0.0)
      && (r == Sell <==> fast.Some? && slow.Some? && fast.value < slow.value && shares > 0.0)
  {
    if Missing(db, ticker) then Hold
    else
      var fast := LookupIndicator(db.value, ticker.value, date, "sma_20");
      var slow := LookupIndicator(db.value, ticker.value, date, "sma_50");
      if fast.None? || slow.None? then Hold
      else if fast.value > slow.value && shares == 0.0 then Buy
      else if fast.value < slow.value && shares > 0.0 then Sell
      else Hold
  }

  /** Oversold buys, overbought sells; the indicator asked for is named `rsi`. */
  function RsiRule(db: Option<MarketDb>, ticker: Option<string>, date: int, price: real, cash: real, shares: real,
                   oversold: real, overbought: real): (r: Action)
    ensures Missing(db, ticker) ==> r == Hold
    ensures !Missing(db, ticker) ==>
      var rsi := LookupIndicator(db.value, ticker.value, date, "rsi");
      (r == Buy <==> rsi.Some? && rsi.value < oversold && shares == 0.0)
      && (r == Sell <==> rsi.Some? && !(rsi.value < oversold && shares == 0.0)
                         && rsi.value > overbought && shares > 0.0)
  {
    if Missing(db, ticker) then Hold
    else
      var rsi := LookupIndicator(db.value, ticker.value, date, "rsi");
      if rsi.None? then Hold
      else if rsi.value < oversold && shares == 0.0 then Buy
      else if rsi.value > overbought && shares > 0.0 then Sell
      else Hold
  }

  /** The shipped schema stores the RSI as `rsi_14`, so the RSI strategy never trades. */
  lemma {:induction false} RsiNeverTrades(db: MarketDb, ticker: Option<string>, date: int, price: real, cash: real, shares: real,
                                          oversold: real, overbought: real)
    requires ShippedSchema(db)
    ensures RsiRule(Some(db), ticker, date, price, cash, shares, oversold, overbought) == Hold
  {
    if !Missing(Some(db), ticker) {
      UnknownColumnIsNone(db, ticker.value, date, "rsi");
    }
  }

  /** MACD above its signal line buys, below sells. */
  function MacdCross(db: Option<MarketDb>, ticker: Option<string>, date: int, price: real, cash: real, shares: real): (r: Action)
    ensures Missing(db, ticker) ==> r == Hold
    ensures !Missing(db, ticker) ==>
      var macd := LookupIndicator(db.value, ticker.value, date, "macd");
      var signal := LookupIndicator(db.value, ticker.value, date, "macd_signal");
      (r == Buy <==> macd.Some? && signal.Some? && macd.value > signal.value && shares == 0.0)
      && (r == Sell <==> macd.Some? && signal.Some? && macd.value < signal.value && shares > 0.0)
  {
    if Missing(db, ticker) then Hold
    else
      var macd := LookupIndicator(db.value, ticker.value, date, "macd");
      var signal := LookupIndicator(db.value, ticker.value, date, "macd_signal");
      if macd.None? || signal.None? then Hold
      else if macd.value > signal.value && shares == 0.0 then Buy
      else if macd.value < signal.value && shares > 0.0 then Sell
      else Hold
  }

  /** A close under the lower band buys, over the upper band sells. */
  function BollingerBands(db: Option<MarketDb>, ticker: Option<string>, date: int, price: real, cash: real, shares: real): (r: Action)
    ensures Missing(db, ticker) ==> r == Hold
    ensures !Missing(db, ticker) ==>
      var upper := LookupIndicator(db.value, ticker.value, date, "bb_upper");
      var lower := LookupIndicator(db.value, ticker.value, date, "bb_lower");
      (r == Buy <==> upper.Some? && lower.Some? && price < lower.value && shares == 0.0)
      && (r == Sell <==> upper.Some? && lower.Some? && !(price < lower.value && shares == 0.0)
                         && price > upper.value && shares > 0.0)
  {
    if Missing(db, ticker) then Hold
    else
      var upper := LookupIndicator(db.value, ticker.value, date, "bb_upper");
      var lower := LookupIndicator(db.value, ticker.value, date, "bb_lower");
      if upper.None? || lower.None? then Hold
      else if price < lower.value && shares == 0.0 then Buy
      else if price > upper.value && shares > 0.0 then Sell
      else Hold
  }

  /** With ordered bands (lower <= upper) a single close never sits on both sides. */
  lemma {:induction false} OrderedBandsDecideByPosition(db: MarketDb, ticker: string, date: int, price: real, cash: real, shares: real)
    requires ticker != ""
    requires var upper := LookupIndicator(db, ticker, date, "bb_upper");
             var lower := LookupIndicator(db, ticker, date, "bb_lower");
             upper.Some? && lower.Some? && lower.value <= upper.value
    ensures var upper := LookupIndicator(db, ticker, date, "bb_upper").value;
            var lower := LookupIndicator(db, ticker, date, "bb_lower").value;
            var r := BollingerBands(Some(db), Some(ticker), date, price, cash, shares);
            (lower <= price <= upper ==> r == Hold)
            && (price < lower ==> r == (if shares == 0.0 then Buy else Hold))
            && (price > upper ==> r == (if shares > 0.0 then Sell else Hold))
  {
  }

  /** Python's `seq[i]` position for a possibly negative index, if it is in range. */
  function PyIndex(len: nat, i: int): (k: Option<nat>)
    ensures k.Some? <==> -(len as int) <= i < len
    ensures k.Some? ==> k.value < len && k.value as int == (if i < 0 then len + i else i)
  {
    if i < -(len as int) || i >= len then None
    else if i < 0 then Some(len + i)
    else Some(i)
  }

  /** The stored points of a ticker from `lookback + 10` days before `date` through `date`. */
  function MomentumWindow(db: MarketDb, ticker: string, date: int, lookback: int): (w: seq<PricePoint>)
    requires ticker in db.prices
    ensures forall p :: p in w <==> p in db.prices[ticker] && date - (lookback + 10) <= p.date <= date
  {
    InRange(db.prices[ticker], date - (lookback + 10), date)
  }

  /** The return since the close `lookback` points back buys above `threshold` and sells
      below `-threshold`. Indexing outside the window is an IndexError, a zero past close
      a ZeroDivisionError; both propagate to the caller. */
  function Momentum(db: Option<MarketDb>, ticker: Option<string>, date: int, price: real, cash: real, shares: real,
                    lookback: int, threshold: real): (r: Result<Action>)
    ensures Missing(db, ticker) ==> r == Ok(Hold)
    ensures r == Ok(Buy) ==> shares == 0.0
    ensures r == Ok(Sell) ==> shares > 0.0
    ensures r.Err? ==> db.Some? && ticker.Some? && ticker.value in db.value.prices
                       && (lookback <= 0 || exists p :: p in db.value.prices[ticker.value] && p.close == 0.0)
  {
    if Missing(db, ticker) then Ok(Hold)
    else if ticker.value !in db.value.prices then Ok(Hold)
    else
      var window := MomentumWindow(db.value, ticker.value, date, lookback);
      if |window| < lookback then Ok(Hold)
      else match PyIndex(|window|, -lookback)
        case None => Err("IndexError")
        case Some(k) =>
          var past := window[k].close;
          assert window[k] in window;
          if past == 0.0 then Err("ZeroDivisionError")
          else
            var momentum := price / past - 1.0;
            if momentum > threshold && shares == 0.0 then Ok(Buy)
            else if momentum < -threshold && shares > 0.0 then Ok(Sell)
            else Ok(Hold)
  }

  /** With a positive lookback and positive stored closes, momentum trades exactly on the
      change since the close `lookback` points before the end of the window. */
  lemma {:induction false} MomentumDecision(db: MarketDb, ticker: string, date: int, price: real, cash: real, shares: real,
                                            lookback: int, threshold: real)
    requires ticker != "" && ticker in db.prices && PositiveCloses(db.prices) && lookback > 0
    ensures var window := MomentumWindow(db, ticker, date, lookback);
            var r := Momentum(Some(db), Some(ticker), date, price, cash, shares, lookback, threshold);
            r.Ok?
            && (|window| < lookback ==> r == Ok(Hold))
            && (|window| >= lookback ==>
                  var change := price / window[|window| - lookback].close - 1.0;
                  (r == Ok(Buy) <==> change > threshold && shares == 0.0)
                  && (r == Ok(Sell) <==> !(change > threshold && shares == 0.0) && change < -threshold && shares > 0.0))
  {
    var window := MomentumWindow(db, ticker, date, lookback);
    if |window| >= lookback {
      var k := |window| - lookback;
      assert window[k] in window;
      assert window[k].close > 0.0 by {
        var j :| 0 <= j < |db.prices[ticker]| && db.prices[ticker][j] == window[k];
      }
    }
  }

  /** The registered strategies, by the names the registry gives them. */
  datatype StrategyKind = SmaCrossoverKind | RsiKind | MacdKind | BollingerBandsKind | MomentumKind

  function Registry(name: string): (k: Option<StrategyKind>)
    ensures k.Some? <==> name in {"sma_crossover", "rsi", "macd", "bollinger_bands", "momentum"}
    ensures k == Some(MomentumKind) <==> name == "momentum"
  {
    match name
    case "sma_crossover" => Some(SmaCrossoverKind)
    case "rsi" => Some(RsiKind)
    case "macd" => Some(MacdKind)
    case "bollinger_bands" => Some(BollingerBandsKind)
    case "momentum" => Some(MomentumKind)
    case _ => None
  }

  /** A registered strategy with `ticker`, `db` and its keyword arguments bound, as the
      engine calls it. Only momentum can raise. */
  function Bind(kind: StrategyKind, db: Option<MarketDb>, ticker: Option<string>, params: Params): Strategy
  {
    match kind
    case SmaCrossoverKind => (d, p, c, s) => Ok(SmaCrossover(db, ticker, d, p, c, s))
    case RsiKind => (d, p, c, s) => Ok(RsiRule(db, ticker, d, p, c, s, params.oversold, params.overbought))
    case MacdKind => (d, p, c, s) => Ok(MacdCross(db, ticker, d, p, c, s))
    case BollingerBandsKind => (d, p, c, s) => Ok(BollingerBands(db, ticker, d, p, c, s))
    case MomentumKind => (d, p, c, s) => Momentum(db, ticker, d, p, c, s, params.lookback, params.threshold)
  }

  /** Every registered strategy buys only while flat and sells only while long. */
  lemma {:induction false} RegisteredStrategiesGated(kind: StrategyKind, db: Option<MarketDb>, ticker: Option<string>, params: Params)
    ensures PositionGated(Bind(kind, db, ticker, params))
  {
    var f := Bind(kind, db, ticker, params);
    forall d, p, c, s
      ensures (f(d, p, c, s) == Ok(Buy) ==> s == 0.0) && (f(d, p, c, s) == Ok(Sell) ==> s > 0.0)
    {
      match kind
      case SmaCrossoverKind => assert f(d, p, c, s) == Ok(SmaCrossover(db, ticker, d, p, c, s));
      case RsiKind => assert f(d, p, c, s) == Ok(RsiRule(db, ticker, d, p, c, s, params.oversold, params.overbought));
      case MacdKind => assert f(d, p, c, s) == Ok(MacdCross(db, ticker, d, p, c, s));
      case BollingerBandsKind => assert f(d, p, c, s) == Ok(BollingerBands(db, ticker, d, p, c, s));
      case MomentumKind => assert f(d, p, c, s) == Momentum(db, ticker, d, p, c, s, params.lookback, params.threshold);
    }
  }

  /** A backtest of any registered strategy records buy, sell, buy, ... and ends long
      exactly when it recorded an odd number of trades. */
  lemma {:induction false} RegisteredLedgerAlternates(cfg: Config, kind: StrategyKind, db: MarketDb, ticker: string,
                                                      params: Params, prices: seq<PricePoint>)
    requires SaneConfig(cfg) && forall i :: 0 <= i < |prices| ==> prices[i].close > 0.0
    requires Simulate(cfg, Bind(kind, Some(db), Some(ticker), params), prices).Ok?
    ensures var st := Simulate(cfg, Bind(kind, Some(db), Some(ticker), params), prices).value;
            (forall k :: 0 <= k < |st.trades| ==> st.trades[k].action == (if k % 2 == 0 then Buy else Sell))
            && (st.shares > 0.0 <==> |st.trades| % 2 == 1)
  {
    RegisteredStrategiesGated(kind, Some(db), Some(ticker), params);
    GatedLedgerAlternates(cfg, Bind(kind, Some(db), Some(ticker), params), prices);
  }
}
