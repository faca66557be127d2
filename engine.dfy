// The backtest engine: a single pass over a ticker's closing prices that keeps a
// flat-or-long position in cash and shares, and the performance metrics of the run.
module BacktestEngine {
  import opened Wrappers
  import opened SeriesMath

  /** What a strategy asks for on one day; any answer other than buy or sell holds. */
  datatype Action = Buy | Sell | Hold

  /** One closing price; dates are day numbers. */
  datatype PricePoint = PricePoint(date: int, close: real)

  /** One ledger entry. `price` is the unadjusted close, `value` the cash that moved. */
  datatype Trade = Trade(date: int, action: Action, price: real, shares: real, value: real)

  datatype Config = Config(initialCapital: real, commission: real, slippage: real)

  const DefaultConfig: Config := Config(10000000.0, 0.0015, 0.0005)
  /** Share of the available cash a buy spends before commission. */
  const BuyFraction: real := 0.99
  const TradingDays: nat := 252
  const DaysPerYear: real := 365.25
  const DefaultRiskFreeRate: real := 0.035

  /** Stored closes per ticker, each series ordered by date. */
  type PriceDb = map<string, seq<PricePoint>>

  predicate PositiveCloses(db: PriceDb)
  {
    forall t :: t in db ==> forall i :: 0 <= i < |db[t]| ==> db[t][i].close > 0.0
  }

  /** A configuration under which every portfolio value stays positive. */
  predicate SaneConfig(cfg: Config)
  {
    cfg.initialCapital > 0.0 && 0.0 <= cfg.commission < 1.0 && 0.0 <= cfg.slippage < 1.0
  }

  /** A strategy sees (date, price, cash, shares); `Err` is an exception it raised. */
  type Strategy = (int, real, real, real) -> Result<Action>

  /** The points of `s` dated within [start, end], in their stored order. */
  function InRange(s: seq<PricePoint>, start: int, end: int): (r: seq<PricePoint>)
    ensures |r| <= |s|
    ensures forall p :: p in r <==> p in s && start <= p.date <= end
  {
    if |s| == 0 then []
    else (if start <= s[0].date <= end then [s[0]] else []) + InRange(s[1..], start, end)
  }

  /** `get_price_data`: ValueError when the ticker is unknown or has no price in range. */
  function GetPriceData(db: PriceDb, ticker: string, start: int, end: int): (r: Result<seq<PricePoint>>)
    ensures r.Ok? <==> ticker in db && exists p :: p in db[ticker] && start <= p.date <= end
    ensures r.Ok? ==> |r.value| > 0 && forall p :: p in r.value ==> p in db[ticker] && start <= p.date <= end
  {
    if ticker !in db then Err("ValueError")
    else
      var s := InRange(db[ticker], start, end);
      if |s| == 0 then Err("ValueError")
      else
        assert s[0] in s;
        Ok(s)
  }

  function Closes(s: seq<PricePoint>): (c: seq<real>)
    ensures |c| == |s| && forall i :: 0 <= i < |s| ==> c[i] == s[i].close
  {
    seq(|s|, i requires 0 <= i < |s| => s[i].close)
  }

  lemma {:induction false} ClosesOfDbArePositive(db: PriceDb, ticker: string, start: int, end: int)
    requires PositiveCloses(db)
    requires GetPriceData(db, ticker, start, end).Ok?
    ensures AllPositive(Closes(GetPriceData(db, ticker, start, end).value))
  {
    var s := GetPriceData(db, ticker, start, end).value;
    forall i | 0 <= i < |s| ensures s[i].close > 0.0 {
      assert s[i] in s;
      var j :| 0 <= j < |db[ticker]| && db[ticker][j] == s[i];
    }
  }

  // ---------------------------------------------------------------- one trading day

  /** Cash, shares and the ledger while the loop runs; `values` holds one entry per day. */
  datatype SimState = SimState(cash: real, shares: real, values: seq<real>, trades: seq<Trade>)

  /** Fill price of a buy: the close marked up by slippage. */
  function BuyPrice(cfg: Config, price: real): (e: real)
    requires price > 0.0 && cfg.slippage > -1.0
    ensures e > 0.0
    ensures cfg.slippage >= 0.0 ==> e >= price
  {
    ProductPos(price, 1.0 + cfg.slippage);
    ProductNonNeg(price, if cfg.slippage >= 0.0 then cfg.slippage else 0.0);
    price * (1.0 + cfg.slippage)
  }

  /** Shares a buy takes: 99% of what the cash pays for at the fill price. */
  function BuyShares(cfg: Config, cash: real, price: real): (b: real)
    requires price > 0.0 && cfg.slippage > -1.0 && cash > 0.0
    ensures b > 0.0
    ensures b * BuyPrice(cfg, price) == BuyFraction * cash
  {
    var e := BuyPrice(cfg, price);
    var b := cash / e * BuyFraction;
    assert cash / e * e == cash;
    b
  }

  /** What a buy takes out of cash: the shares at the fill price, plus commission. */
  function BuyCost(cfg: Config, cash: real, price: real): (c: real)
    requires price > 0.0 && cfg.slippage > -1.0 && cash > 0.0
    ensures c == BuyFraction * cash * (1.0 + cfg.commission)
    ensures cfg.slippage >= 0.0 && cfg.commission >= 0.0 ==> c >= BuyShares(cfg, cash, price) * price
  {
    var b := BuyShares(cfg, cash, price);
    var e := BuyPrice(cfg, price);
    BuyCostCoversShares(b, e, price, cfg.slippage, cfg.commission);
    b * e * (1.0 + cfg.commission)
  }

  /** Paying for b shares at a fill price at or above the close, plus commission, costs at
      least their value at the close. */
  lemma {:induction false} BuyCostCoversShares(b: real, e: real, price: real, slippage: real, commission: real)
    requires b > 0.0 && e > 0.0 && (slippage >= 0.0 ==> e >= price)
    ensures slippage >= 0.0 && commission >= 0.0 ==> b * e * (1.0 + commission) >= b * price
  {
    if slippage >= 0.0 && commission >= 0.0 {
      ProductMono(b, price, e);
      assert b * e * (1.0 + commission) == b * e + (b * e) * commission;
      ProductNonNeg(b, e);
      ProductNonNeg(b * e, commission);
    }
  }

  /** Fill price of a sale: the close marked down by slippage. */
  function SalePrice(cfg: Config, price: real): (e: real)
    requires price > 0.0
    ensures cfg.slippage < 1.0 ==> e > 0.0
    ensures cfg.slippage <= 1.0 ==> e >= 0.0
    ensures cfg.slippage >= 0.0 ==> e <= price
  {
    SalePriceBounds(cfg.slippage, price);
    price * (1.0 - cfg.slippage)
  }

  lemma {:induction false} SalePriceBounds(slippage: real, price: real)
    requires price > 0.0
    ensures slippage < 1.0 ==> price * (1.0 - slippage) > 0.0
    ensures slippage <= 1.0 ==> price * (1.0 - slippage) >= 0.0
    ensures slippage >= 0.0 ==> price * (1.0 - slippage) <= price
  {
    if slippage < 1.0 { ProductPos(price, 1.0 - slippage); }
    if slippage <= 1.0 { ProductNonNeg(price, 1.0 - slippage); }
    if slippage >= 0.0 { ProductNonNeg(price, slippage); }
  }

  /** What a sale of every share brings into cash, after commission. */
  function SaleProceeds(cfg: Config, shares: real, price: real): (v: real)
    requires price > 0.0
    ensures shares > 0.0 && cfg.slippage < 1.0 && cfg.commission < 1.0 ==> v > 0.0
    ensures shares >= 0.0 && 0.0 <= cfg.slippage <= 1.0 && 0.0 <= cfg.commission <= 1.0 ==> v <= shares * price
  {
    var e := SalePrice(cfg, price);
    SaleProceedsBounds(shares, e, price, cfg.slippage, cfg.commission);
    shares * e * (1.0 - cfg.commission)
  }

  /** Selling at a fill price at or below the close, less commission, brings in at most
      the shares' value at the close. */
  lemma {:induction false} SaleProceedsBounds(shares: real, e: real, price: real, slippage: real, commission: real)
    requires slippage < 1.0 ==> e > 0.0
    requires slippage <= 1.0 ==> e >= 0.0
    requires slippage >= 0.0 ==> e <= price
    ensures shares > 0.0 && slippage < 1.0 && commission < 1.0 ==> shares * e * (1.0 - commission) > 0.0
    ensures shares >= 0.0 && 0.0 <= slippage <= 1.0 && 0.0 <= commission <= 1.0
            ==> shares * e * (1.0 - commission) <= shares * price
  {
    if shares > 0.0 && slippage < 1.0 && commission < 1.0 {
      ProductPos(shares, e);
      ProductPos(shares * e, 1.0 - commission);
    }
    if shares >= 0.0 && 0.0 <= slippage <= 1.0 && 0.0 <= commission <= 1.0 {
      ProductMono(shares, e, price);
      ProductNonNeg(shares, e);
      ProductMono(shares * e, 1.0 - commission, 1.0);
    }
  }

  /** The day's action applied to (cash, shares): the new position and the trade, if any. */
  function ApplyAction(cfg: Config, cash: real, shares: real, action: Action, date: int, price: real)
    : (r: (real, real, Option<Trade>))
    requires price > 0.0 && cfg.slippage > -1.0
    ensures r.2.None? ==> r.0 == cash && r.1 == shares
    ensures r.2.Some? ==> r.2.value.date == date && r.2.value.price == price
    ensures r.2.Some? && r.2.value.action == Buy ==>
      action == Buy && cash > 0.0 && r.0 == cash - r.2.value.value && r.1 == shares + r.2.value.shares
      && r.2.value.value <= cash && r.2.value.shares > 0.0
    ensures r.2.Some? && r.2.value.action == Sell ==>
      action == Sell && shares > 0.0 && r.0 == cash + r.2.value.value && r.1 == 0.0 && r.2.value.shares == shares
    ensures r.2.Some? ==> r.2.value.action != Hold
    ensures action == Sell && shares > 0.0 ==> r.2.Some?
    ensures action == Hold || (action == Buy && cash <= 0.0) || (action == Sell && shares <= 0.0) ==> r.2.None?
    ensures r.2.Some? && r.2.value.action == Buy ==>
      r.2.value.shares == BuyShares(cfg, cash, price) && r.2.value.value == BuyCost(cfg, cash, price)
    ensures r.2.Some? && r.2.value.action == Sell ==>
      r.2.value.value == shares * (price * (1.0 - cfg.slippage)) * (1.0 - cfg.commission)
    ensures action == Buy && cash > 0.0 ==> (r.2.Some? <==> BuyCost(cfg, cash, price) <= cash)
  {
    if action == Buy && cash > 0.0 then
      var buyShares := BuyShares(cfg, cash, price);
      var cost := BuyCost(cfg, cash, price);
      if cost <= cash then (cash - cost, shares + buyShares, Some(Trade(date, Buy, price, buyShares, cost)))
      else (cash, shares, None)
    else if action == Sell && shares > 0.0 then
      var revenue := SaleProceeds(cfg, shares, price);
      (cash + revenue, 0.0, Some(Trade(date, Sell, price, shares, revenue)))
    else (cash, shares, None)
  }

  /** A buy spends exactly 99% of the cash grossed up by commission, whatever the price,
      so whether it fits in the cash depends on the commission alone. */
  lemma {:induction false} BuySizing(cfg: Config, cash: real, shares: real, date: int, price: real)
    requires price > 0.0 && cfg.slippage > -1.0 && cash > 0.0
    ensures ApplyAction(cfg, cash, shares, Buy, date, price).2.Some?
            <==> BuyFraction * (1.0 + cfg.commission) <= 1.0
  {
    var cost := BuyCost(cfg, cash, price);
    assert ApplyAction(cfg, cash, shares, Buy, date, price).2.Some? <==> cost <= cash;
    assert cost == cash * (BuyFraction * (1.0 + cfg.commission));
    ScaleLe(cash, BuyFraction * (1.0 + cfg.commission));
  }

  lemma {:induction false} ScaleLe(x: real, k: real)
    requires x > 0.0
    ensures x * k <= x <==> k <= 1.0
  {
    if k > 1.0 { assert x * k - x == x * (k - 1.0); ProductPos(x, k - 1.0); }
    if k <= 1.0 { assert x - x * k == x * (1.0 - k); ProductNonNeg(x, 1.0 - k); }
  }

  /** Slippage and commission never create value: marked at the day's close, a trade
      leaves the portfolio worth no more than before it. */
  lemma {:induction false} TradingCostsNeverAddValue(cfg: Config, cash: real, shares: real, action: Action, date: int, price: real)
    requires price > 0.0 && 0.0 <= cfg.slippage <= 1.0 && 0.0 <= cfg.commission <= 1.0
    requires shares >= 0.0
    ensures var r := ApplyAction(cfg, cash, shares, action, date, price);
            r.0 + r.1 * price <= cash + shares * price
  {
    var r := ApplyAction(cfg, cash, shares, action, date, price);
    if r.2.Some? && r.2.value.action == Buy {
      var b := r.2.value.shares;
      assert b == BuyShares(cfg, cash, price);
      assert (shares + b) * price == shares * price + b * price;
    } else if r.2.Some? {
      assert r.2.value.value == SaleProceeds(cfg, shares, price);
    }
  }

  lemma {:induction false} ProductNonNeg(x: real, y: real)
    requires x >= 0.0 && y >= 0.0
    ensures x * y >= 0.0
  {}

  lemma {:induction false} ProductPos(x: real, y: real)
    requires x > 0.0 && y > 0.0
    ensures x * y > 0.0
  {}

  lemma {:induction false} ProductMono(k: real, a: real, b: real)
    requires k >= 0.0 && a <= b
    ensures k * a <= k * b
  {
    assert k * b - k * a == k * (b - a);
    ProductNonNeg(k, b - a);
  }

  lemma {:induction false} PositiveQuotient(x: real, y: real)
    requires x > 0.0 && y > 0.0
    ensures x / y > 0.0 && x / y * BuyFraction > 0.0
  {}

  // ------------------------------------------------------------------- the whole run

  function InitialState(cfg: Config): SimState
  {
    SimState(cfg.initialCapital, 0.0, [], [])
  }

  /** One day of the loop: ask the strategy, apply its action, record the day's value. */
  function Step(cfg: Config, strategy: Strategy, prev: Result<SimState>, day: PricePoint): (r: Result<SimState>)
    requires cfg.slippage > -1.0 && day.close > 0.0
    ensures prev.Err? ==> r == prev
    ensures r.Ok? ==> prev.Ok? && |r.value.values| == |prev.value.values| + 1
                      && r.value.values[..|prev.value.values|] == prev.value.values
                      && r.value.values[|prev.value.values|] == Worth(r.value.cash, r.value.shares, day.close)
                      && |prev.value.trades| <= |r.value.trades| <= |prev.value.trades| + 1
                      && r.value.trades[..|prev.value.trades|] == prev.value.trades
  {
    match prev
    case Err(e) => Err(e)
    case Ok(st) =>
      match strategy(day.date, day.close, st.cash, st.shares)
      case Err(e) => Err(e)
      case Ok(action) =>
        Ok(Record(st, ApplyAction(cfg, st.cash, st.shares, action, day.date, day.close), day.close))
  }

  /** `cash + shares * price`: the portfolio marked at a price. */
  function Worth(cash: real, shares: real, price: real): real
  {
    cash + shares * price
  }

  /** The new position `a` taken over, the day's value appended and the trade, if any, logged. */
  function Record(st: SimState, a: (real, real, Option<Trade>), close: real): (r: SimState)
    ensures r.cash == a.0 && r.shares == a.1
    ensures r.values == st.values + [Worth(a.0, a.1, close)]
    ensures r.trades == st.trades + (if a.2.Some? then [a.2.value] else [])
  {
    SimState(a.0, a.1, st.values + [Worth(a.0, a.1, close)], st.trades + (if a.2.Some? then [a.2.value] else []))
  }

  /** The state after the strategy has acted on every day of `prices`, in order; the first
      exception the strategy raises ends the run. */
  function Simulate(cfg: Config, strategy: Strategy, prices: seq<PricePoint>): (r: Result<SimState>)
    requires cfg.slippage > -1.0 && forall i :: 0 <= i < |prices| ==> prices[i].close > 0.0
    ensures r.Ok? ==> |r.value.values| == |prices|
  {
    if |prices| == 0 then Ok(InitialState(cfg))
    else Step(cfg, strategy, Simulate(cfg, strategy, prices[..|prices| - 1]), prices[|prices| - 1])
  }

  lemma {:induction false} SimulateUnfold(cfg: Config, strategy: Strategy, prices: seq<PricePoint>, i: nat)
    requires cfg.slippage > -1.0 && forall j :: 0 <= j < |prices| ==> prices[j].close > 0.0
    requires i < |prices|
    ensures Simulate(cfg, strategy, prices[..i + 1])
            == Step(cfg, strategy, Simulate(cfg, strategy, prices[..i]), prices[i])
  {
    assert prices[..i + 1][..i] == prices[..i];
  }

  /** A day on which the strategy answers moves the run on by `Record`. */
  lemma {:induction false} SimulateAdvances(cfg: Config, strategy: Strategy, prices: seq<PricePoint>, i: nat,
                                            st: SimState, action: Action)
    requires cfg.slippage > -1.0 && forall j :: 0 <= j < |prices| ==> prices[j].close > 0.0
    requires i < |prices| && Simulate(cfg, strategy, prices[..i]) == Ok(st)
    requires strategy(prices[i].date, prices[i].close, st.cash, st.shares) == Ok(action)
    ensures Simulate(cfg, strategy, prices[..i + 1])
            == Ok(Record(st, ApplyAction(cfg, st.cash, st.shares, action, prices[i].date, prices[i].close), prices[i].close))
  {
    SimulateUnfold(cfg, strategy, prices, i);
  }

  /** A day on which the strategy raises ends the run with its exception. */
  lemma {:induction false} SimulateStops(cfg: Config, strategy: Strategy, prices: seq<PricePoint>, i: nat, st: SimState)
    requires cfg.slippage > -1.0 && forall j :: 0 <= j < |prices| ==> prices[j].close > 0.0
    requires i < |prices| && Simulate(cfg, strategy, prices[..i]) == Ok(st)
    requires strategy(prices[i].date, prices[i].close, st.cash, st.shares).Err?
    ensures Simulate(cfg, strategy, prices) == Err(strategy(prices[i].date, prices[i].close, st.cash, st.shares).error)
  {
    SimulateUnfold(cfg, strategy, prices, i);
    SimulateErrorPersists(cfg, strategy, prices, i + 1);
    assert prices[..|prices|] == prices;
  }

  /** The end of one loop iteration: take over the new position, log the trade if there
      was one and append the day's value. */
  method Advance(values: seq<real>, trades: seq<Trade>, day: (real, real, Option<Trade>), price: real)
    returns (cash': real, shares': real, values': seq<real>, trades': seq<Trade>)
    ensures cash' == day.0 && shares' == day.1
    ensures values' == values + [Worth(day.0, day.1, price)]
    ensures trades' == trades + (if day.2.Some? then [day.2.value] else [])
  {
    cash', shares' := day.0, day.1;
    trades' := trades;
    if day.2.Some? {
      trades' := trades + [day.2.value];
    }
    values' := values + [Worth(day.0, day.1, price)];
  }

  /** `run_strategy`'s loop. Exceptions raised by the strategy are not caught. */
  method RunLoop(cfg: Config, strategy: Strategy, prices: seq<PricePoint>) returns (r: Result<SimState>)
    requires cfg.slippage > -1.0 && forall i :: 0 <= i < |prices| ==> prices[i].close > 0.0
    ensures r == Simulate(cfg, strategy, prices)
  {
    var cash := cfg.initialCapital;
    var shares := 0.0;
    var values: seq<real> := [];
    var trades: seq<Trade> := [];
    var i := 0;
    while i < |prices|
      invariant 0 <= i <= |prices|
      invariant Simulate(cfg, strategy, prices[..i]) == Ok(SimState(cash, shares, values, trades))
    {
      var date, price := prices[i].date, prices[i].close;
      var signal := strategy(date, price, cash, shares);
      if signal.Err? {
        SimulateStops(cfg, strategy, prices, i, SimState(cash, shares, values, trades));
        return Err(signal.error);
      }
      SimulateAdvances(cfg, strategy, prices, i, SimState(cash, shares, values, trades), signal.value);
      var day := ApplyAction(cfg, cash, shares, signal.value, date, price);
      ghost var before := SimState(cash, shares, values, trades);
      cash, shares, values, trades := Advance(values, trades, day, price);
      assert SimState(cash, shares, values, trades) == Record(before, day, price);
      i := i + 1;
    }
    assert prices[..i] == prices;
    r := Ok(SimState(cash, shares, values, trades));
  }

  /** Once the strategy has raised, the rest of the series changes nothing. */
  lemma {:induction false} SimulateErrorPersists(cfg: Config, strategy: Strategy, prices: seq<PricePoint>, k: nat)
    requires cfg.slippage > -1.0 && forall i :: 0 <= i < |prices| ==> prices[i].close > 0.0
    requires k <= |prices| && Simulate(cfg, strategy, prices[..k]).Err?
    ensures Simulate(cfg, strategy, prices) == Simulate(cfg, strategy, prices[..k])
    decreases |prices| - k
  {
    if k < |prices| {
      SimulateUnfold(cfg, strategy, prices, k);
      SimulateErrorPersists(cfg, strategy, prices, k + 1);
    } else {
      assert prices[..k] == prices;
    }
  }

  /** Running on a prefix of the series gives a prefix of the run: the ledger is
      append-only and each day's value, once recorded, never changes. */
  lemma {:induction false} SimulatePrefix(cfg: Config, strategy: Strategy, prices: seq<PricePoint>, k: nat)
    requires cfg.slippage > -1.0 && forall i :: 0 <= i < |prices| ==> prices[i].close > 0.0
    requires k <= |prices| && Simulate(cfg, strategy, prices).Ok?
    ensures var whole := Simulate(cfg, strategy, prices).value;
            var part := Simulate(cfg, strategy, prices[..k]);
            part.Ok? && part.value.values == whole.values[..k]
            && |part.value.trades| <= |whole.trades| && part.value.trades == whole.trades[..|part.value.trades|]
    decreases |prices| - k
  {
    if k == |prices| {
      assert prices[..k] == prices;
    } else {
      var p := prices[..|prices| - 1];
      assert p[..k] == prices[..k];
      SimulatePrefix(cfg, strategy, p, k);
    }
  }

  /** The value recorded for day i is cash + shares * price after that day's action. */
  lemma {:induction false} SimulateValueOfDay(cfg: Config, strategy: Strategy, prices: seq<PricePoint>, i: nat)
    requires cfg.slippage > -1.0 && forall j :: 0 <= j < |prices| ==> prices[j].close > 0.0
    requires i < |prices| && Simulate(cfg, strategy, prices).Ok?
    ensures var day := Simulate(cfg, strategy, prices[..i + 1]);
            day.Ok? && Simulate(cfg, strategy, prices).value.values[i] == Worth(day.value.cash, day.value.shares, prices[i].close)
  {
    SimulatePrefix(cfg, strategy, prices, i + 1);
    SimulateUnfold(cfg, strategy, prices, i);
    var part := Simulate(cfg, strategy, prices[..i + 1]).value;
    var prev := Simulate(cfg, strategy, prices[..i]);
    assert |prev.value.values| == i;
    assert part.values[i] == Worth(part.cash, part.shares, prices[i].close);
    assert Simulate(cfg, strategy, prices).value.values[..i + 1] == part.values;
  }

  /** Cash and shares never go negative, and the portfolio is never worth nothing. */
  predicate Solvent(st: SimState)
  {
    st.cash >= 0.0 && st.shares >= 0.0 && (st.cash > 0.0 || st.shares > 0.0)
  }

  lemma {:induction false} SimulateStaysSolvent(cfg: Config, strategy: Strategy, prices: seq<PricePoint>)
    requires SaneConfig(cfg) && forall i :: 0 <= i < |prices| ==> prices[i].close > 0.0
    requires Simulate(cfg, strategy, prices).Ok?
    ensures Solvent(Simulate(cfg, strategy, prices).value)
    ensures AllPositive(Simulate(cfg, strategy, prices).value.values)
  {
    if |prices| > 0 {
      var p := prices[..|prices| - 1];
      SimulateStaysSolvent(cfg, strategy, p);
      SolventStep(cfg, strategy, Simulate(cfg, strategy, p).value, prices[|prices| - 1]);
    }
  }

  /** One day keeps the portfolio solvent and every recorded value positive. */
  lemma SolventStep(cfg: Config, strategy: Strategy, st: SimState, day: PricePoint)
    requires SaneConfig(cfg) && day.close > 0.0
    requires Solvent(st) && AllPositive(st.values) && Step(cfg, strategy, Ok(st), day).Ok?
    ensures Solvent(Step(cfg, strategy, Ok(st), day).value)
    ensures AllPositive(Step(cfg, strategy, Ok(st), day).value.values)
  {
    var action := strategy(day.date, day.close, st.cash, st.shares).value;
    var a := ApplyAction(cfg, st.cash, st.shares, action, day.date, day.close);
    var r := Record(st, a, day.close);
    assert Step(cfg, strategy, Ok(st), day) == Ok(r);
    StepStaysSolvent(cfg, st.cash, st.shares, action, day.date, day.close);
    assert r.values == st.values + [Worth(a.0, a.1, day.close)];
  }

  lemma {:induction false} StepStaysSolvent(cfg: Config, cash: real, shares: real, action: Action, date: int, price: real)
    requires SaneConfig(cfg) && price > 0.0
    requires cash >= 0.0 && shares >= 0.0 && (cash > 0.0 || shares > 0.0)
    ensures var r := ApplyAction(cfg, cash, shares, action, date, price);
            r.0 >= 0.0 && r.1 >= 0.0 && (r.0 > 0.0 || r.1 > 0.0) && r.0 + r.1 * price > 0.0
  {
    var r := ApplyAction(cfg, cash, shares, action, date, price);
    if action == Sell && shares > 0.0 {
      assert r.0 == cash + SaleProceeds(cfg, shares, price);
    }
    if r.1 > 0.0 { ProductPos(r.1, price); }
  }

  /** A strategy that buys only while flat and sells only while long. */
  ghost predicate PositionGated(strategy: Strategy)
  {
    forall d, p, c, s :: (strategy(d, p, c, s) == Ok(Buy) ==> s == 0.0)
                      && (strategy(d, p, c, s) == Ok(Sell) ==> s > 0.0)
  }

  /** The ledger reads buy, sell, buy, ... and the position is long exactly after an odd
      number of trades. */
  predicate Alternates(st: SimState)
  {
    (forall k :: 0 <= k < |st.trades| ==> st.trades[k].action == (if k % 2 == 0 then Buy else Sell))
    && (st.shares > 0.0 <==> |st.trades| % 2 == 1)
  }

  /** Under a position-gated strategy the ledger alternates buy, sell, buy, ... and the
      position is long exactly after an odd number of trades. */
  lemma {:induction false} GatedLedgerAlternates(cfg: Config, strategy: Strategy, prices: seq<PricePoint>)
    requires SaneConfig(cfg) && forall i :: 0 <= i < |prices| ==> prices[i].close > 0.0
    requires PositionGated(strategy) && Simulate(cfg, strategy, prices).Ok?
    ensures Alternates(Simulate(cfg, strategy, prices).value)
  {
    if |prices| > 0 {
      var p := prices[..|prices| - 1];
      GatedLedgerAlternates(cfg, strategy, p);
      SimulateStaysSolvent(cfg, strategy, p);
      GatedStep(cfg, strategy, Simulate(cfg, strategy, p).value, prices[|prices| - 1]);
    }
  }

  /** One day of a position-gated strategy keeps the ledger alternating. */
  lemma GatedStep(cfg: Config, strategy: Strategy, st: SimState, day: PricePoint)
    requires SaneConfig(cfg) && day.close > 0.0 && PositionGated(strategy)
    requires Alternates(st) && st.shares >= 0.0 && Step(cfg, strategy, Ok(st), day).Ok?
    ensures Alternates(Step(cfg, strategy, Ok(st), day).value)
  {
    var action := strategy(day.date, day.close, st.cash, st.shares).value;
    var a := ApplyAction(cfg, st.cash, st.shares, action, day.date, day.close);
    var r := Record(st, a, day.close);
    assert Step(cfg, strategy, Ok(st), day) == Ok(r);
    if a.2.Some? {
      assert r.trades == st.trades + [a.2.value];
      assert forall k :: 0 <= k < |st.trades| ==> r.trades[k] == st.trades[k];
    }
  }

  // ------------------------------------------------------------------------ metrics

  /** Floating-point routines the metrics use, left uninterpreted: the sample standard
      deviation (None where pandas gives NaN), the square root and the power. */
  datatype Numerics = Numerics(std: seq<real> -> Option<real>, sqrt: real -> real, pow: (real, real) -> real)

  datatype Metrics = Metrics(
    initialCapital: real, finalValue: real, totalReturn: real, annualReturn: real,
    volatility: Option<real>, sharpeRatio: real, maxDrawdown: real, winRate: real,
    numTrades: nat, benchmarkReturn: Option<real>, alpha: Option<real>)

  /** Entries of `s` above zero. */
  function CountPositive(s: seq<real>): (n: nat)
    ensures n <= |s|
  {
    if |s| == 0 then 0 else (if s[0] > 0.0 then 1 else 0) + CountPositive(s[1..])
  }

  /** Ledger entries that are buys or sells. */
  function CountTrades(trades: seq<Trade>): (n: nat)
    ensures n <= |trades|
    ensures (forall k :: 0 <= k < |trades| ==> trades[k].action != Hold) ==> n == |trades|
  {
    if |trades| == 0 then 0
    else (if trades[0].action in {Buy, Sell} then 1 else 0) + CountTrades(trades[1..])
  }

  /** `(1 + returns).prod() - 1` */
  function Compound(rs: seq<real>): real
  {
    if |rs| == 0 then 0.0 else (1.0 + rs[0]) * (1.0 + Compound(rs[1..])) - 1.0
  }

  /** Compounding the daily changes of a positive series gives its overall change. */
  lemma {:induction false} CompoundPctChange(v: seq<real>)
    requires |v| > 0 && AllPositive(v)
    ensures Compound(PctChange(v)) == v[|v| - 1] / v[0] - 1.0
  {
    if |v| == 1 {
      assert PctChange(v) == [];
      SelfQuotient(v[0]);
    } else {
      assert AllPositive(v[1..]);
      CompoundPctChange(v[1..]);
      CompoundOfPctChange(v);
      ChainStep(v[0], v[1], v[|v| - 1], Compound(PctChange(v[1..])), Compound(PctChange(v)));
    }
  }

  lemma {:induction false} CompoundOfPctChange(v: seq<real>)
    requires |v| > 1 && AllPositive(v)
    ensures Compound(PctChange(v)) == (1.0 + (v[1] - v[0]) / v[0]) * (1.0 + Compound(PctChange(v[1..]))) - 1.0
  {
    PctChangeCons(v);
    CompoundCons((v[1] - v[0]) / v[0], PctChange(v[1..]));
  }

  lemma PctChangeCons(v: seq<real>)
    requires |v| > 1 && AllPositive(v)
    ensures AllPositive(v[1..]) && PctChange(v) == [(v[1] - v[0]) / v[0]] + PctChange(v[1..])
  {
  }

  lemma {:induction false} SelfQuotient(x: real)
    requires x != 0.0
    ensures x / x == 1.0
  {
    var q := x / x;
    assert q * x == x;
    Cancel(q, 1.0, x);
  }

  lemma {:induction false} CompoundCons(r0: real, rest: seq<real>)
    ensures Compound([r0] + rest) == (1.0 + r0) * (1.0 + Compound(rest)) - 1.0
  {
    assert ([r0] + rest)[0] == r0 && ([r0] + rest)[1..] == rest;
  }

  lemma {:induction false} ChainStep(a: real, b: real, c: real, g: real, whole: real)
    requires a > 0.0 && b > 0.0 && g == c / b - 1.0
    requires whole == (1.0 + (b - a) / a) * (1.0 + g) - 1.0
    ensures whole == c / a - 1.0
  {
    OnePlusChange(a, b);
    QuotientChain(a, b, c);
  }

  lemma {:induction false} QuotientChain(a: real, b: real, c: real)
    requires a > 0.0 && b > 0.0
    ensures (b / a) * (c / b) == c / a
  {}

  /** `final / initial - 1`: the factor by which the first value grew, minus one. */
  function TotalReturn(first: real, last: real): (r: real)
    requires first > 0.0
    ensures (1.0 + r) * first == last
    ensures r > 0.0 <==> last > first
    ensures r == 0.0 <==> last == first
  {
    var r := last / first - 1.0;
    assert (1.0 + r) * first == last;
    ScaleLe(first, 1.0 + r);
    r
  }

  /** CAGR over `days` calendar days: zero when the span is not positive. */
  function AnnualReturn(growth: real, days: int, num: Numerics): (r: real)
    ensures days <= 0 ==> r == 0.0
    ensures days > 0 ==> r == num.pow(growth, DaysPerYear / days as real) - 1.0
  {
    var years := days as real / DaysPerYear;
    if years > 0.0 then
      assert 1.0 / years == DaysPerYear / days as real;
      num.pow(growth, 1.0 / years) - 1.0
    else 0.0
  }

  /** `excess / volatility if volatility > 0 else 0`; a NaN volatility compares false. */
  function SharpeRatio(annualReturn: real, riskFreeRate: real, volatility: Option<real>): (r: real)
    ensures r != 0.0 ==> volatility.Some? && volatility.value > 0.0
    ensures volatility.Some? && volatility.value > 0.0 ==>
              r * volatility.value == annualReturn - riskFreeRate
    ensures r > 0.0 <==> volatility.Some? && volatility.value > 0.0 && annualReturn > riskFreeRate
  {
    if volatility.Some? && volatility.value > 0.0 then
      var x := (annualReturn - riskFreeRate) / volatility.value;
      assert x * volatility.value == annualReturn - riskFreeRate;
      PositiveQuotientIff(annualReturn - riskFreeRate, volatility.value);
      x
    else 0.0
  }

  lemma {:induction false} PositiveQuotientIff(x: real, y: real)
    requires y > 0.0
    ensures x / y > 0.0 <==> x > 0.0
  {
    if x / y > 0.0 { assert x == (x / y) * y; ProductPos(x / y, y); }
  }

  /** Share of the daily returns above zero; zero when there are none. */
  function WinRate(daily: seq<real>): (w: real)
    ensures 0.0 <= w <= 1.0
    ensures w * (|daily| as real) == CountPositive(daily) as real
    ensures |daily| > 0 ==> (w == 1.0 <==> CountPositive(daily) == |daily|)
  {
    if |daily| > 0 then
      var n := |daily| as real;
      var w := CountPositive(daily) as real / n;
      assert w * n == CountPositive(daily) as real;
      assert w <= 1.0 by { if w > 1.0 { ProductMono(n, 1.0, w); } }
      assert w == 1.0 <==> CountPositive(daily) == |daily| by {
        if w == 1.0 { assert CountPositive(daily) as real == n; }
      }
      w
    else 0.0
  }

  /** The daily returns' standard deviation scaled to a year of trading days; none when the
      deviation is undefined. */
  function Volatility(daily: seq<real>, num: Numerics): (v: Option<real>)
    ensures v.Some? <==> num.std(daily).Some?
    ensures v.Some? ==> v.value == num.std(daily).value * num.sqrt(TradingDays as real)
  {
    match num.std(daily)
    case None => None
    case Some(sd) => Some(sd * num.sqrt(TradingDays as real))
  }

  /** `calculate_metrics` over the day values, their dates and the ledger. */
  function CalculateMetrics(values: seq<real>, dates: seq<int>, trades: seq<Trade>,
                            benchmarkReturns: Option<seq<real>>, riskFreeRate: real, num: Numerics): (m: Metrics)
    requires |values| > 0 && |dates| == |values| && AllPositive(values)
    ensures m.initialCapital == values[0] && m.finalValue == values[|values| - 1]
    ensures m.totalReturn == TotalReturn(m.initialCapital, m.finalValue)
    ensures m.totalReturn > 0.0 <==> m.finalValue > m.initialCapital
    ensures dates[|dates| - 1] - dates[0] <= 0 ==> m.annualReturn == 0.0
    ensures m.sharpeRatio != 0.0 ==> m.volatility.Some? && m.volatility.value > 0.0
    ensures -1.0 < m.maxDrawdown <= 0.0
    ensures m.maxDrawdown == 0.0 <==> NonDecreasing(values)
    ensures m.winRate == WinRate(PctChange(values)) && 0.0 <= m.winRate <= 1.0
    ensures m.annualReturn == AnnualReturn(m.finalValue / m.initialCapital, dates[|dates| - 1] - dates[0], num)
    ensures m.volatility == Volatility(PctChange(values), num)
    ensures m.sharpeRatio == SharpeRatio(m.annualReturn, riskFreeRate, m.volatility)
    ensures m.maxDrawdown == MaxDrawdown(values)
    ensures m.numTrades == CountTrades(trades) <= |trades|
    ensures m.benchmarkReturn.Some? <==> benchmarkReturns.Some?
    ensures benchmarkReturns.Some? ==> m.benchmarkReturn == Some(Compound(benchmarkReturns.value))
    ensures m.alpha.Some? <==> benchmarkReturns.Some?
    ensures m.alpha.Some? ==> m.alpha.value == m.totalReturn - m.benchmarkReturn.value
  {
    var first := values[0];
    var last := values[|values| - 1];
    var totalReturn := TotalReturn(first, last);
    var annualReturn := AnnualReturn(last / first, dates[|dates| - 1] - dates[0], num);
    var daily := PctChange(values);
    var volatility := Volatility(daily, num);
    MaxDrawdownZeroIff(values);
    var benchmarkTotal := match benchmarkReturns
                          case None => None
                          case Some(b) => Some(Compound(b));
    Metrics(first, last, totalReturn, annualReturn, volatility,
            SharpeRatio(annualReturn, riskFreeRate, volatility), MaxDrawdown(values), WinRate(daily),
            CountTrades(trades), benchmarkTotal,
            if benchmarkTotal.Some? then Some(totalReturn - benchmarkTotal.value) else None)
  }

  /** On a strictly rising series every day is a win. */
  lemma {:induction false} RisingSeriesWinsEveryDay(values: seq<real>)
    requires |values| > 1 && AllPositive(values)
    requires forall i :: 0 <= i < |values| - 1 ==> values[i] < values[i + 1]
    ensures WinRate(PctChange(values)) == 1.0
  {
    var daily := PctChange(values);
    forall i | 0 <= i < |daily| ensures daily[i] > 0.0 {
      PctChangeAt(values, i);
    }
    AllRisesCount(daily);
  }

  lemma {:induction false} AllRisesCount(s: seq<real>)
    requires forall i :: 0 <= i < |s| ==> s[i] > 0.0
    ensures CountPositive(s) == |s|
  {
    if |s| > 0 {
      assert forall i :: 0 <= i < |s[1..]| ==> s[1..][i] == s[i + 1];
      AllRisesCount(s[1..]);
    }
  }

  // ----------------------------------------------------------------- the result object

  /** The declared fields of `BacktestResult`; it has no `alpha` field. */
  datatype BacktestResult = BacktestResult(
    strategyName: string, startDate: int, endDate: int,
    initialCapital: real, finalValue: real, totalReturn: real, annualReturn: real,
    volatility: Option<real>, sharpeRatio: real, maxDrawdown: real, winRate: real, numTrades: nat,
    portfolioValues: seq<real>, trades: seq<Trade>, benchmarkReturn: Option<real>)

  /** `BacktestResult(..., **metrics)`: an `alpha` entry is an unexpected keyword (TypeError). */
  function MakeResult(name: string, start: int, end: int, m: Metrics, values: seq<real>, trades: seq<Trade>)
    : (r: Result<BacktestResult>)
    ensures r.Err? <==> m.alpha.Some?
    ensures r.Ok? ==> r.value.benchmarkReturn == m.benchmarkReturn && r.value.totalReturn == m.totalReturn
                      && r.value.portfolioValues == values && r.value.trades == trades
                      && r.value.numTrades == m.numTrades && r.value.strategyName == name
  {
    if m.alpha.Some? then Err("TypeError")
    else Ok(BacktestResult(name, start, end, m.initialCapital, m.finalValue, m.totalReturn, m.annualReturn,
                           m.volatility, m.sharpeRatio, m.maxDrawdown, m.winRate, m.numTrades,
                           values, trades, m.benchmarkReturn))
  }

  /** `run_buy_hold`: everything goes into shares on the first day, with no costs. */
  function RunBuyHold(cfg: Config, db: PriceDb, ticker: string, start: int, end: int, num: Numerics)
    : (r: Result<BacktestResult>)
    requires PositiveCloses(db) && cfg.initialCapital > 0.0
    ensures r.Ok? <==> GetPriceData(db, ticker, start, end).Ok?
    ensures r.Ok? ==> r.value.numTrades == 1 && |r.value.trades| == 1 && r.value.trades[0].action == Buy
                      && r.value.trades[0].value == cfg.initialCapital
                      && r.value.initialCapital == cfg.initialCapital
                      && r.value.benchmarkReturn.None?
  {
    match GetPriceData(db, ticker, start, end)
    case Err(e) => Err(e)
    case Ok(prices) =>
      ClosesOfDbArePositive(db, ticker, start, end);
      var closes := Closes(prices);
      var shares := cfg.initialCapital / closes[0];
      var values := HoldValues(closes, cfg.initialCapital);
      var trades := [Trade(prices[0].date, Buy, closes[0], shares, cfg.initialCapital)];
      var m := CalculateMetrics(values, Dates(prices), trades, None, DefaultRiskFreeRate, num);
      MakeResult("Buy & Hold (" + ticker + ")", start, end, m, values, trades)
  }

  /** `prices * shares` for the `initial / first close` shares bought on the first day. */
  function HoldValues(closes: seq<real>, capital: real): (v: seq<real>)
    requires |closes| > 0 && AllPositive(closes) && capital > 0.0
    ensures |v| == |closes| && AllPositive(v) && v[0] == capital
    ensures TotalReturn(v[0], v[|v| - 1]) == closes[|closes| - 1] / closes[0] - 1.0
  {
    var shares := capital / closes[0];
    PositiveQuotient(capital, closes[0]);
    var v := seq(|closes|, i requires 0 <= i < |closes| => closes[i] * shares);
    assert AllPositive(v) by {
      forall i | 0 <= i < |v| ensures v[i] > 0.0 { ProductPos(closes[i], shares); }
    }
    HoldingRatio(closes[0], closes[|closes| - 1], capital, v[0], v[|v| - 1]);
    assert TotalReturn(v[0], v[|v| - 1]) == v[|v| - 1] / v[0] - 1.0;
    v
  }

  /** Buy-and-hold returns exactly what the stock returns. */
  lemma {:induction false} BuyHoldTracksPrice(cfg: Config, db: PriceDb, ticker: string, start: int, end: int, num: Numerics)
    requires PositiveCloses(db) && cfg.initialCapital > 0.0
    requires RunBuyHold(cfg, db, ticker, start, end, num).Ok?
    ensures var prices := GetPriceData(db, ticker, start, end).value;
            RunBuyHold(cfg, db, ticker, start, end, num).value.totalReturn
              == prices[|prices| - 1].close / prices[0].close - 1.0
  {
    var prices := GetPriceData(db, ticker, start, end).value;
    ClosesOfDbArePositive(db, ticker, start, end);
    var v := HoldValues(Closes(prices), cfg.initialCapital);
    assert RunBuyHold(cfg, db, ticker, start, end, num).value.totalReturn == TotalReturn(v[0], v[|v| - 1]);
  }

  /** Holding `cap / p0` shares from a close of p0 to a close of pn grows the money by pn / p0:
      `first` and `last` are the holding's value on the two days. */
  lemma {:induction false} HoldingRatio(p0: real, pn: real, cap: real, first: real, last: real)
    requires p0 > 0.0 && cap > 0.0
    requires first == p0 * (cap / p0) && last == pn * (cap / p0)
    ensures first == cap
    ensures last / first == pn / p0
  {
    var k := cap / p0;
    assert k * p0 == cap;
    var q := last / first;
    assert q * first == last;
    assert (pn / p0) * p0 == pn;
    assert (pn / p0) * first == pn * k;
    Cancel(q, pn / p0, first);
  }

  // -------------------------------------------------------------------- run_strategy

  /** The benchmark's daily returns: absent without a benchmark name, and a failed
      fetch is swallowed into "absent" as well. */
  function BenchmarkReturns(db: PriceDb, benchmark: Option<string>, start: int, end: int): (r: Option<seq<real>>)
    requires PositiveCloses(db)
    ensures r.Some? <==> benchmark.Some? && benchmark.value != "" && GetPriceData(db, benchmark.value, start, end).Ok?
  {
    if benchmark.None? || benchmark.value == "" then None
    else match GetPriceData(db, benchmark.value, start, end)
      case Err(_) => None
      case Ok(prices) =>
        ClosesOfDbArePositive(db, benchmark.value, start, end);
        Some(PctChange(Closes(prices)))
  }

  function Dates(prices: seq<PricePoint>): (d: seq<int>)
    ensures |d| == |prices| && forall i :: 0 <= i < |prices| ==> d[i] == prices[i].date
  {
    seq(|prices|, i requires 0 <= i < |prices| => prices[i].date)
  }

  /** What `run_strategy` returns: a missing ticker or a strategy exception propagates,
      and so does the TypeError of building the result when a benchmark was fetched. */
  function StrategyOutcome(cfg: Config, db: PriceDb, ticker: string, start: int, end: int,
                           strategy: Strategy, benchmark: Option<string>, name: Option<string>, num: Numerics)
    : Result<BacktestResult>
    requires SaneConfig(cfg) && PositiveCloses(db)
  {
    match GetPriceData(db, ticker, start, end)
    case Err(e) => Err(e)
    case Ok(prices) =>
      ClosesOfDbArePositive(db, ticker, start, end);
      match Simulate(cfg, strategy, prices)
      case Err(e) => Err(e)
      case Ok(st) =>
        SimulateStaysSolvent(cfg, strategy, prices);
        var m := CalculateMetrics(st.values, Dates(prices), st.trades,
                                  BenchmarkReturns(db, benchmark, start, end), DefaultRiskFreeRate, num);
        MakeResult(name.UnwrapOr("Custom Strategy"), start, end, m, st.values, st.trades)
  }

  /** `run_strategy`: the day loop, then metrics and the result object. */
  method RunStrategy(cfg: Config, db: PriceDb, ticker: string, start: int, end: int,
                     strategy: Strategy, benchmark: Option<string>, name: Option<string>, num: Numerics)
    returns (r: Result<BacktestResult>)
    requires SaneConfig(cfg) && PositiveCloses(db)
    ensures r == StrategyOutcome(cfg, db, ticker, start, end, strategy, benchmark, name, num)
    ensures r.Ok? ==> |r.value.portfolioValues| == |GetPriceData(db, ticker, start, end).value|
  {
    var fetched := GetPriceData(db, ticker, start, end);
    if fetched.Err? {
      return Err(fetched.error);
    }
    var prices := fetched.value;
    ClosesOfDbArePositive(db, ticker, start, end);
    var run := RunLoop(cfg, strategy, prices);
    if run.Err? {
      return Err(run.error);
    }
    var st := run.value;
    SimulateStaysSolvent(cfg, strategy, prices);
    var benchmarkReturns := BenchmarkReturns(db, benchmark, start, end);
    var metrics := CalculateMetrics(st.values, Dates(prices), st.trades, benchmarkReturns, DefaultRiskFreeRate, num);
    r := MakeResult(name.UnwrapOr("Custom Strategy"), start, end, metrics, st.values, st.trades);
  }

  /** With a benchmark that can be fetched, `run_strategy` never returns a result: either
      something earlier failed or building the result raises TypeError. */
  lemma {:induction false} BenchmarkRunsAlwaysFail(cfg: Config, db: PriceDb, ticker: string, start: int, end: int,
                                strategy: Strategy, bench: string, name: Option<string>, num: Numerics)
    requires SaneConfig(cfg) && PositiveCloses(db)
    requires bench != "" && GetPriceData(db, bench, start, end).Ok?
    ensures StrategyOutcome(cfg, db, ticker, start, end, strategy, Some(bench), name, num).Err?
    ensures GetPriceData(db, ticker, start, end).Ok? && Simulate(cfg, strategy, GetPriceData(db, ticker, start, end).value).Ok?
            ==> StrategyOutcome(cfg, db, ticker, start, end, strategy, Some(bench), name, num) == Err("TypeError")
  {
  }

  /** Without a benchmark the run succeeds exactly when the prices exist and the strategy
      never raises; the result then holds one value per day. */
  lemma {:induction false} RunWithoutBenchmark(cfg: Config, db: PriceDb, ticker: string, start: int, end: int,
                            strategy: Strategy, name: Option<string>, num: Numerics)
    requires SaneConfig(cfg) && PositiveCloses(db)
    ensures var r := StrategyOutcome(cfg, db, ticker, start, end, strategy, None, name, num);
            r.Ok? <==> (GetPriceData(db, ticker, start, end).Ok?
                        && Simulate(cfg, strategy, GetPriceData(db, ticker, start, end).value).Ok?)
  {
  }
}
