# marketsense-ai core, modelled in Dafny

marketsense-ai collects Korean (and some US) market data into a database and works on it. It gathers
prices and technical indicators, DART financial statements, disclosures, blog posts and Naver valuation
pages. It backtests trading strategies, optimises portfolios and derives financial, valuation and
peer metrics. It also watches prices and answers Telegram commands. This project models the
computational core of that system and proves properties of the model:

- the backtest engine: its day loop, trading costs, metrics and result object (`engine.dfy`). The
  drawdown and percentage-change series it shares with other modules live in `series.dfy`;
- the five registered trading strategies, the indicator cache and the AI composite score
  (`strategies.dfy`, `ai_strategy.dfy`);
- the portfolio optimiser around its numerical solver (`optimizer.dfy`);
- the financial, valuation and peer-comparison utilities (`financial_metrics.dfy`, `valuation.dfy`,
  `peer_analysis.dfy`);
- the collectors' decision logic: DART quarters and statements, the DART client, disclosures,
  blogs, the Naver valuation page and market dynamics (`dart_financial.dfy`, `dart_client.dfy`,
  `disclosure.dfy`, `blog.dfy`, `naver_per.dfy`, `dynamics.dfy`);
- sector classification (`sectors.dfy`), the Telegram command parser (`telegram.dfy`), the two price
  monitors (`monitor.dfy`, `realtime_monitor.dfy`) and `chunk_list` (`helpers.dfy`).

`text.dfy` models the Python string operations the core relies on: `strip`, `split`, `replace`,
`lower`, `int()` and `float()` on decimal text. `wrappers.dfy` holds `Option` and `Result`.

Numbers are Dafny `real`s. Database tables are maps and sequences passed in as values. A database row
that the source updates in place is a `class`. The following are parameters of the model: numerical
library calls (`std`, `sqrt`, `pow`, the SLSQP solver, the random generator), the clock, and the
outcome of network requests. A Python exception is the `Err` case of a `Result`.

Three behaviours of the code are modelled as written:
- a strategy that raises inside `run_strategy` ends the backtest with that exception; the loop has no
  `try`;
- `BacktestResult(**metrics)` receives an `alpha` key whenever a benchmark was fetched, and that
  constructor raises `TypeError` because it has no such field;
- the RSI strategy asks for an indicator named `rsi`, which the stored indicator rows (column `rsi_14`)
  do not have, so it never trades.

A lemma states each one, in the order above: `SimulateStops`, `BenchmarkRunsAlwaysFail` and
`RsiNeverTrades`.

## Model

| member | source | states |
|---|---|---|
| BacktestEngine.InRange | src/backtest/engine.py:74-78 | exactly the stored points dated within [start, end] are kept |
| BacktestEngine.GetPriceData | src/backtest/engine.py:58-86 | succeeds iff the ticker is known and has a price in range; then the series is non-empty and holds only in-range points of that ticker |
| BacktestEngine.BuyPrice | src/backtest/engine.py:251 | the buy fill price is positive and, with non-negative slippage, at least the close |
| BacktestEngine.BuyShares | src/backtest/engine.py:252-253 | the shares bought are positive and cost exactly 99% of the cash at the fill price |
| BacktestEngine.BuyCost | src/backtest/engine.py:254 | the cost is 99% of the cash grossed up by commission, and with non-negative costs at least the shares' value at the close |
| BacktestEngine.BuyCostCoversShares | src/backtest/engine.py:251-254 | paying a fill price at or above the close plus commission costs at least the value at the close |
| BacktestEngine.SalePrice | src/backtest/engine.py:269 | the sale fill price is positive for slippage below 1 and at most the close for non-negative slippage |
| BacktestEngine.SaleProceeds | src/backtest/engine.py:269-270 | selling a positive holding brings in a positive amount, and never more than its value at the close |
| BacktestEngine.SaleProceedsBounds | src/backtest/engine.py:269-270 | the bounds of the proceeds in terms of the fill price |
| BacktestEngine.ApplyAction | src/backtest/engine.py:249-279 | no trade leaves cash and shares unchanged; a buy with positive cash trades iff its cost fits in the cash, moving BuyShares shares (0.99·cash at the fill price) for BuyCost (0.99·cash·(1 + commission)); a sell needs shares, sells them all and brings in shares·price·(1 − slippage)·(1 − commission); hold, a buy without cash and a sell without shares never trade |
| BacktestEngine.BuySizing | src/backtest/engine.py:249-258 | a buy happens iff 0.99 times (1 + commission) is at most 1, whatever the price |
| BacktestEngine.TradingCostsNeverAddValue | src/backtest/engine.py:249-282 | marked at the close, a day's trade never increases cash + shares * price |
| BacktestEngine.Step | src/backtest/engine.py:238-283 | one day appends exactly one value, cash + shares * close after the action, and at most one trade; earlier values and trades are kept; an earlier exception is passed on |
| BacktestEngine.Record | src/backtest/engine.py:257-283 | the new position is taken over, the day's value appended and the trade, if any, logged |
| BacktestEngine.Simulate | src/backtest/engine.py:238-283 | a run that completes holds one value per price |
| BacktestEngine.SimulateUnfold | src/backtest/engine.py:238-283 | the run over the first i + 1 days is one more step of the run over the first i |
| BacktestEngine.SimulateAdvances | src/backtest/engine.py:238-283 | a day on which the strategy answers moves the run on by applying that action |
| BacktestEngine.SimulateStops | src/backtest/engine.py:240-246 | a day on which the strategy raises ends the whole run with that exception |
| BacktestEngine.Advance | src/backtest/engine.py:257-283 | the loop tail takes over the new position, appends the trade if any and the day's value |
| BacktestEngine.RunLoop | src/backtest/engine.py:238-285 | the imperative day loop computes exactly `Simulate` |
| BacktestEngine.SimulateErrorPersists | src/backtest/engine.py:240-246 | once the strategy has raised, later days change nothing |
| BacktestEngine.SimulatePrefix | src/backtest/engine.py:238-283 | running on a prefix gives a prefix of the values and of the ledger (append-only) |
| BacktestEngine.SimulateValueOfDay | src/backtest/engine.py:282-283 | the value recorded for day i is cash + shares * close after day i's action |
| BacktestEngine.SimulateStaysSolvent | src/backtest/engine.py:249-283 | with costs in [0, 1] and a 0.99 buy fraction, cash and shares stay non-negative and every recorded value positive |
| BacktestEngine.SolventStep | src/backtest/engine.py:249-283 | one day keeps the position solvent and every recorded value positive |
| BacktestEngine.StepStaysSolvent | src/backtest/engine.py:249-279 | applying any action to a solvent position leaves it solvent with positive value |
| BacktestEngine.GatedLedgerAlternates | src/backtest/engine.py:249-279 | under a strategy that buys only while flat and sells only while long, the ledger alternates buy, sell, ... and the position is long iff the trade count is odd |
| BacktestEngine.GatedStep | src/backtest/engine.py:249-279 | one day of a position-gated strategy keeps the ledger alternating |
| BacktestEngine.CountPositive | src/backtest/engine.py:132 | the number of winning days is at most the number of days |
| BacktestEngine.CountTrades | src/backtest/engine.py:135 | only buy and sell entries are counted; a ledger without hold entries counts in full |
| BacktestEngine.CompoundPctChange | src/backtest/engine.py:150-151 | compounding the daily changes of a positive series gives last / first - 1 |
| BacktestEngine.TotalReturn | src/backtest/engine.py:107-109 | (1 + total return) * initial = final; positive iff the value grew, zero iff it stayed |
| BacktestEngine.AnnualReturn | src/backtest/engine.py:112-114 | zero for a non-positive span, else growth to the power 365.25 / days, minus one |
| BacktestEngine.SharpeRatio | src/backtest/engine.py:123-124 | non-zero only with a positive volatility, then times volatility equals the excess return; positive iff the return beats the risk-free rate |
| BacktestEngine.WinRate | src/backtest/engine.py:132 | in [0, 1]; times the day count equals the winning days; 1 iff every day won |
| BacktestEngine.CalculateMetrics | src/backtest/engine.py:88-155 | first and last values; total return and its sign; the annual return as the growth rate over the day span (0 for a zero span); the volatility as defined below; the Sharpe ratio of that return and volatility; the maximum drawdown of the values, in (-1, 0] and zero iff never falling; win rate; the trade count as the number of buy and sell records; the benchmark return, present iff benchmark returns are given, as their compounded product minus 1, and alpha = total - benchmark |
| BacktestEngine.Volatility | src/backtest/engine.py:120 | the volatility exists iff the standard deviation of the daily returns does, and is that deviation times the square root of 252 |
| BacktestEngine.RisingSeriesWinsEveryDay | src/backtest/engine.py:117-132 | on a strictly rising series the win rate is 1 |
| BacktestEngine.MakeResult | src/backtest/engine.py:196-203 | building the result fails with TypeError iff the metrics carry alpha; otherwise it keeps the values, ledger, returns and name |
| BacktestEngine.RunBuyHold | src/backtest/engine.py:157-203 | succeeds iff the price data exists; one buy trade of the whole capital, first value equal to the capital, no benchmark |
| BacktestEngine.HoldValues | src/backtest/engine.py:176-180 | the held values are positive, start at the capital and grow like the price |
| BacktestEngine.BuyHoldTracksPrice | src/backtest/engine.py:173-194 | buy-and-hold's total return is the stock's last close / first close - 1 |
| BacktestEngine.HoldingRatio | src/backtest/engine.py:176-180 | holding capital / p0 shares is worth the capital on day one and grows by pn / p0 |
| BacktestEngine.BenchmarkReturns | src/backtest/engine.py:288-294 | benchmark returns exist iff a non-empty benchmark was named and its prices could be fetched; a failed fetch is swallowed |
| BacktestEngine.RunStrategy | src/backtest/engine.py:205-310 | the method computes exactly the outcome of price fetch, day loop, benchmark, metrics and result object, and a result holds one value per price |
| BacktestEngine.BenchmarkRunsAlwaysFail | src/backtest/engine.py:288-310 | with a fetchable benchmark, run_strategy never returns a result |
| BacktestEngine.RunWithoutBenchmark | src/backtest/engine.py:227-310 | without a benchmark the run succeeds iff the prices exist and the strategy never raises, with one value per day |
| SeriesMath.PeakIndex | src/backtest/engine.py:127 | the index of a largest value among the first t + 1 |
| SeriesMath.CumMax | src/backtest/engine.py:127 | entry t is the largest of the first t + 1 values |
| SeriesMath.Drawdowns | src/backtest/engine.py:128 | every drawdown of a positive series lies in (-1, 0] |
| SeriesMath.SeqMin | src/backtest/engine.py:129 | the minimum is at most every entry and is one of them |
| SeriesMath.MaxDrawdownZeroIff | src/backtest/engine.py:127-129 | the maximum drawdown is zero iff the series never falls |
| SeriesMath.MaxDrawdown | src/backtest/engine.py:127-129 | the maximum drawdown of a positive series lies in (-1, 0] |
| SeriesMath.DrawdownAt | src/backtest/engine.py:127-128 | a day's drawdown is zero iff the day is at its running peak |
| SeriesMath.PctChange | src/backtest/engine.py:117 | one change per consecutive pair |
| SeriesMath.PctChangeAt | src/backtest/engine.py:117 | change i is (v[i+1] - v[i]) / v[i], 1 + change i = v[i+1] / v[i], positive iff the series rose |
| SeriesMath.OnePlusChange | src/backtest/engine.py:117 | 1 + (b - a) / a = b / a and the change is positive iff b > a |
| Strategies.RowAt | src/backtest/strategies.py:33-44 | a row is found iff the ticker is a known stock with an indicator row on that date, and it is that row |
| Strategies.Attr | src/backtest/strategies.py:46 | a missing attribute reads as None, a present one as its value |
| Strategies.LookupIndicator | src/backtest/strategies.py:33-46 | a value found is the stored column of a known stock's row on that date |
| Strategies.UnknownColumnIsNone | src/backtest/strategies.py:46 | under the stored schema a name that is not a column is never found |
| Strategies.TradingStrategy.constructor | src/backtest/strategies.py:17-19 | a new strategy reads the given database and starts with an empty, consistent cache |
| Strategies.TradingStrategy.GetTechnicalIndicator | src/backtest/strategies.py:21-48 | the answer is the database's; a cached key is answered from the cache unchanged; a miss on an existing row stores the answer; a missing stock or row caches nothing |
| Strategies.FetchIndicators | src/backtest/strategies.py:68-71 | a fresh strategy object asked for several names answers each with the database's value |
| Strategies.SmaCrossover | src/backtest/strategies.py:51-84 | hold without db or ticker; buy iff both averages exist, sma_20 > sma_50 and flat; sell iff both exist, sma_20 < sma_50 and long |
| Strategies.RsiRule | src/backtest/strategies.py:87-120 | hold without db or ticker; buy iff rsi < oversold and flat; sell iff not buying, rsi > overbought and long |
| Strategies.RsiNeverTrades | src/backtest/strategies.py:107 | under the stored schema (column rsi_14) the RSI strategy always holds |
| Strategies.MacdCross | src/backtest/strategies.py:123-155 | buy iff macd > signal while flat, sell iff macd < signal while long, hold otherwise or without db or ticker |
| Strategies.BollingerBands | src/backtest/strategies.py:158-190 | buy iff both bands exist and the close is under the lower band while flat; sell iff not buying and the close is over the upper band while long |
| Strategies.OrderedBandsDecideByPosition | src/backtest/strategies.py:176-190 | with ordered bands the close inside them holds, under them buys if flat, over them sells if long |
| Strategies.PyIndex | src/backtest/strategies.py:228 | a Python index, negative ones from the end, is defined iff in range |
| Strategies.MomentumWindow | src/backtest/strategies.py:218-223 | the window holds exactly the ticker's points from lookback + 10 days back through the date |
| Strategies.Momentum | src/backtest/strategies.py:193-239 | hold without db or ticker; buys only while flat, sells only while long; an exception only for a non-positive lookback or a zero close |
| Strategies.MomentumDecision | src/backtest/strategies.py:225-237 | with a positive lookback and positive closes: hold for a short window, else buy iff the change since the close lookback points back exceeds the threshold while flat, sell iff it is below minus the threshold while long |
| Strategies.Registry | src/backtest/strategies.py:243-249 | exactly the five registered names resolve |
| Strategies.RegisteredStrategiesGated | src/backtest/strategies.py:77-82 | every registered strategy buys only while flat and sells only while long |
| Strategies.RegisteredLedgerAlternates | src/backtest/strategies.py:77-237 | a backtest of any registered strategy records buy, sell, buy, ... and ends long iff it traded an odd number of times |
| AiStrategy.GetTechnicalIndicators | src/backtest/ai_strategy.py:19-48 | a dictionary iff the stock has a row on the date; it has the nine keys, `rsi` reading `rsi_14` and every other key its own column |
| AiStrategy.IndicatorsOf | src/backtest/ai_strategy.py:38-48 | the dictionary built from one row: nine keys, `rsi` from `rsi_14`, the rest by name |
| AiStrategy.SmaVote | src/backtest/ai_strategy.py:70-77 | a vote in [-1, 1]; bullish iff the close is above the fast average, bearish iff below it |
| AiStrategy.RsiVote | src/backtest/ai_strategy.py:85-92 | a vote in [-1, 1]; bullish iff the RSI is under 40, bearish iff over 60 |
| AiStrategy.MacdVote | src/backtest/ai_strategy.py:100-107 | a vote in [-1, 1]; bullish iff MACD is above its signal, bearish iff below it |
| AiStrategy.BandVote | src/backtest/ai_strategy.py:116-125 | comparing with a null middle band raises exactly when the close is not under the lower band |
| AiStrategy.SmaTerm | src/backtest/ai_strategy.py:66-79 | a vote in [-1, 1] whose weight is positive iff both averages are truthy |
| AiStrategy.RsiTerm | src/backtest/ai_strategy.py:82-94 | a vote in [-1, 1] whose weight is positive iff the RSI is truthy |
| AiStrategy.MacdTerm | src/backtest/ai_strategy.py:97-110 | a vote in [-1, 1] whose weight is positive iff macd and its signal are truthy |
| AiStrategy.BandTerm | src/backtest/ai_strategy.py:113-127 | a vote in [-1, 1] whose weight is positive iff both bands are truthy, or the TypeError of a null middle band |
| AiStrategy.TermWeights | src/backtest/ai_strategy.py:66-127 | the weights are 0.3 for the averages, 0.25 for RSI, 0.25 for MACD and 0.2 for the bands when the family takes part, 0 otherwise |
| AiStrategy.Votes | src/backtest/ai_strategy.py:62-127 | four valid votes, or the TypeError of the band block |
| AiStrategy.WeightedSumBounded | src/backtest/ai_strategy.py:62-127 | the weighted sum of valid votes lies within plus or minus their total weight |
| AiStrategy.WeightedMean | src/backtest/ai_strategy.py:129-131 | the normalised score lies in [-1, 1] |
| AiStrategy.Clamp | src/backtest/ai_strategy.py:133 | the result lies in [-1, 1] and a value already in range is unchanged |
| AiStrategy.AiScore | src/backtest/ai_strategy.py:51-133 | the score lies in [-1, 1] and equals the weighted mean of the votes (the clamp changes nothing); it fails iff the band block raises |
| AiStrategy.AddSmaVote | src/backtest/ai_strategy.py:65-79 | block 1 adds the trend vote and its weight |
| AiStrategy.AddRsiVote | src/backtest/ai_strategy.py:81-94 | block 2 adds the RSI vote and its weight |
| AiStrategy.AddMacdVote | src/backtest/ai_strategy.py:96-110 | block 3 adds the MACD vote and its weight |
| AiStrategy.AddBandVote | src/backtest/ai_strategy.py:112-127 | block 4 adds the band vote and its weight, or raises TypeError |
| AiStrategy.CalculateAiScore | src/backtest/ai_strategy.py:51-133 | the imperative scorer computes exactly `AiScore` |
| AiStrategy.NoIndicatorsNeutral | src/backtest/ai_strategy.py:129-133 | with no truthy indicator the score is 0 |
| AiStrategy.UnanimousBuyScoresOne | src/backtest/ai_strategy.py:129-133 | when all four families take part and vote fully bullish the score is exactly 1 |
| AiStrategy.AiSignal | src/backtest/ai_strategy.py:136-187 | holds when db or ticker is missing, when there is no indicator row and when scoring raises; otherwise buys iff the score reaches the buy threshold while flat, and sells iff it does not buy and the score is at or below the sell threshold while long |
| AiStrategy.UnreachableThresholds | src/backtest/ai_strategy.py:178-183 | thresholds outside [-1, 1] are never reached |
| AiStrategy.NullMiddleBandHolds | src/backtest/ai_strategy.py:113-187 | a row with a null middle band and the close at or above the lower band makes the scorer raise, which reads as hold |
| AiStrategy.AiLedgerAlternates | src/backtest/ai_strategy.py:178-183 | a backtest of the AI strategy records alternating buys and sells |
| PortfolioOptimizer.DailyReturns | src/portfolio/optimizer.py:51-64 | a kept ticker's column has one return per consecutive pair of its in-range prices, at least one |
| PortfolioOptimizer.KeptColumnsExact | src/portfolio/optimizer.py:43-67 | the columns are exactly the requested tickers that have a stock and at least two prices, without repetition |
| PortfolioOptimizer.GetReturns | src/portfolio/optimizer.py:32-67 | the loop yields exactly the kept columns, each holding its ticker's daily returns |
| PortfolioOptimizer.AddColumn | src/portfolio/optimizer.py:46-65 | one ticker: a kept one gets its returns (a repeat overwrites, the column order keeps its first place), any other changes nothing |
| PortfolioOptimizer.AnnualReturnBetweenAssets | src/portfolio/optimizer.py:86 | a long-only, fully invested portfolio's annual return lies between 252 times the worst and the best mean |
| PortfolioOptimizer.DotBetween | src/portfolio/optimizer.py:86 | a non-negatively weighted sum lies between lo and hi times the weight total |
| PortfolioOptimizer.DotAtLeast | src/portfolio/optimizer.py:86 | the lower half of that bound |
| PortfolioOptimizer.DotAtMost | src/portfolio/optimizer.py:86 | the upper half of that bound |
| PortfolioOptimizer.Unit | src/portfolio/optimizer.py:170-171 | the weight vector holding one asset alone |
| PortfolioOptimizer.SingleAssetVariance | src/portfolio/optimizer.py:170-171 | holding one asset alone, the variance objective is 252 times that asset's variance |
| PortfolioOptimizer.PortfolioStats | src/portfolio/optimizer.py:69-94 | the return is 252 times the weighted mean; the Sharpe ratio exists iff the volatility is non-zero and then times volatility is the excess return |
| PortfolioOptimizer.MinWeight | src/portfolio/optimizer.py:127 | min_weight from the constraints, 0.0 when absent |
| PortfolioOptimizer.MaxWeight | src/portfolio/optimizer.py:128 | max_weight from the constraints, 1.0 when absent |
| PortfolioOptimizer.WeightBounds | src/portfolio/optimizer.py:129 | one (min, max) pair per asset |
| PortfolioOptimizer.BudgetConstraint | src/portfolio/optimizer.py:122-124 | the equality constraint is zero iff the weights sum to 1 |
| PortfolioOptimizer.InitialGuess | src/portfolio/optimizer.py:132 | equal weights forming a fully invested allocation; no assets is a ZeroDivisionError |
| PortfolioOptimizer.Solve | src/portfolio/optimizer.py:96-202 | the solver, given the objective with its mean returns, covariance and risk-free rate, the equal-weight start and the bounds, returns weights and a success flag that come back with their statistics whatever the outcome; no assets fails |
| PortfolioOptimizer.Divided | src/portfolio/optimizer.py:224 | every weight divided by the total |
| PortfolioOptimizer.SumDivided | src/portfolio/optimizer.py:224 | dividing by the total divides the sum |
| PortfolioOptimizer.NormalisedDrawIsAllocation | src/portfolio/optimizer.py:223-224 | a normalised random draw is non-negative and sums to 1 |
| PortfolioOptimizer.Normalise | src/portfolio/optimizer.py:224 | the in-place division leaves each entry divided by the old total |
| PortfolioOptimizer.EfficientFrontier | src/portfolio/optimizer.py:204-236 | one row per requested portfolio (none for a non-positive count), each the statistics of its normalised draw |
| PortfolioOptimizer.FrontierReturnsBetweenAssets | src/portfolio/optimizer.py:221-228 | every frontier portfolio's return lies between the worst and the best asset's |
| PortfolioOptimizer.ZipMap | src/portfolio/optimizer.py:282 | `dict(zip(...))` keys are the paired keys, and a key not repeated later maps to its own value |
| PortfolioOptimizer.ZipPairsValues | src/portfolio/optimizer.py:282 | a key not repeated later maps to its own value |
| PortfolioOptimizer.Optimize | src/portfolio/optimizer.py:238-291 | ValueError iff fewer than two kept columns or an unknown method; otherwise the portfolio computed from the kept columns of the window that starts lookback + 100 days back, and their daily returns |
| PortfolioOptimizer.OptimizeColumns | src/portfolio/optimizer.py:267-291 | ValueError iff the method is unknown; otherwise the tickers are the columns, the weights map each column, and only the columns, to the solver's weight at its position, and the expected return, volatility and Sharpe ratio are the solver result's statistics |
| PortfolioOptimizer.ObjectiveOf | src/portfolio/optimizer.py:272-277 | "max_sharpe" selects the negative Sharpe ratio, "min_variance" the variance, and any other name none |
| PortfolioOptimizer.ReturnsColumns | src/portfolio/optimizer.py:43-67 | one column per kept ticker, holding its daily returns, none of them empty |
| PortfolioOptimizer.ColumnMeans | src/portfolio/optimizer.py:267 | each column's mean |
| PortfolioOptimizer.ZipMapDistinct | src/portfolio/optimizer.py:282 | pairing distinct keys with as many values maps exactly those keys, each to the value at its position |
| FinancialMetrics.Field | src/utils/financial_metrics.py:297-298 | a metric is read only from a statement that has raw data |
| FinancialMetrics.FlowChangeSign | src/utils/financial_metrics.py:300-302 | the percentage change (over the absolute previous value) is positive, negative or zero exactly when the current value is above, below or equal to the previous one |
| FinancialMetrics.DiffKeysAreNotFlows | src/utils/financial_metrics.py:290-313 | no `<ratio>_diff` key can collide with a flow metric name, so the two loops never overwrite each other |
| FinancialMetrics.RatioDiffsMeaning | src/utils/financial_metrics.py:305-313 | a `_diff` key is present iff both periods report the ratio (zero included), and holds current minus previous; every key comes from a listed ratio |
| FinancialMetrics.ChangeMap | src/utils/financial_metrics.py:283-315 | the changes hold no key but the flow figures' names and the ratios' `_diff` keys |
| FinancialMetrics.ChangeMapMeaning | src/utils/financial_metrics.py:283-315 | without raw data on both sides the result is empty; each flow metric is present iff both values are truthy and then holds the percentage change; each ratio gets a `_diff` iff both are present, holding the difference |
| FinancialMetrics.ZeroFlowSkippedZeroRatioKept | src/utils/financial_metrics.py:300-313 | a zero flow value is dropped by the truthiness test while a zero ratio still yields a difference |
| FinancialMetrics.CalculateChange | src/utils/financial_metrics.py:283-315 | the loops build exactly the change map characterised above |
| FinancialMetrics.CompareFlows | src/utils/financial_metrics.py:296-302 | the flow loop yields the percentage changes of exactly the kept flow metrics |
| FinancialMetrics.CompareRatios | src/utils/financial_metrics.py:307-313 | the ratio loop yields the differences of exactly the kept ratios |
| FinancialMetrics.TrendValues | src/utils/financial_metrics.py:325-328 | the collected values are never more than the statements |
| FinancialMetrics.CollectValues | src/utils/financial_metrics.py:325-328 | the collection loop gathers, in order, the present values of the metric |
| FinancialMetrics.LabelUnambiguous | src/utils/financial_metrics.py:330-339 | on at most four values the rising and falling counts cannot both reach two, so the label is "falling" iff two falls and "rising" iff two rises, whichever branch comes first |
| FinancialMetrics.SteadyGrowthRises | src/utils/financial_metrics.py:331-335 | newest-first values that strictly decrease toward the past (growth every quarter) are labelled rising |
| FinancialMetrics.TrendMap | src/utils/financial_metrics.py:318-341 | a metric gets a label iff it is one of the six trend metrics with at least three values, and the label is the one computed from its values |
| FinancialMetrics.TrendsOver | src/utils/financial_metrics.py:324-339 | the same membership and value law for any list of metric names |
| FinancialMetrics.TrendsOverSnoc | src/utils/financial_metrics.py:324-339 | processing one more metric adds its label iff it has three values and changes nothing else |
| FinancialMetrics.AnalyzeTrend | src/utils/financial_metrics.py:318-341 | the nested loops build exactly the trend map |
| FinancialMetrics.GrowthRates | src/utils/financial_metrics.py:253-280 | no result for fewer than two statements; otherwise quarter-on-quarter compares statements 0 and 1, year-on-year compares 0 and 4 when five exist (else empty), and the trend covers the first four statements when four exist (else empty) |
| FinancialMetrics.GrowthTrendUnambiguous | src/utils/financial_metrics.py:276-278 | every trend reported by the growth rates was computed from three or four values and so is unambiguous |
| FinancialMetrics.AdditionalMetrics | src/utils/financial_metrics.py:344-390 | empty without raw data; each of the eight keys is present iff its inputs are truthy (and positive where the code asks) and then holds its formula; with positive inventories and current liabilities the quick ratio is below the current ratio; no other keys appear |
| FinancialMetrics.BalanceRatios | src/utils/financial_metrics.py:353-372 | current, quick, equity and interest-coverage ratios appear exactly under their guards and hold their formulas; with positive inventories and current liabilities the quick ratio is below the current ratio |
| FinancialMetrics.CashFlowRatios | src/utils/financial_metrics.py:374-388 | free cash flow (and its value in hundred-millions), cash-flow-to-income and cash-flow margin appear exactly under their guards and hold their formulas |
| FinancialMetrics.Quarter | src/utils/financial_metrics.py:26 | the quarter is between 1 and 4 and is the one whose three months contain the month |
| FinancialMetrics.PeriodLabels | src/utils/financial_metrics.py:6-27 | no labels for fewer than four statements; otherwise four (year, quarter) labels, oldest first |
| Valuation.LatestEquityIsFirstTruthy | src/utils/valuation.py:60-62 | the equity used is that of the newest statement whose equity is truthy |
| Valuation.LatestEquityNone | src/utils/valuation.py:51-62 | when no statement has a truthy equity, none is used |
| Valuation.MarketCap | src/utils/valuation.py:64-71 | a market capitalisation is available iff the given or the stored one is truthy, and it is never zero |
| Valuation.PerShare | src/utils/valuation.py:73-89 | a result exists iff the price and the share count are positive; EPS times shares is the TTM net income; PER exists iff EPS is positive and then PER times EPS is the price; likewise PBR with BPS; no truthy equity gives BPS 0 and no PBR |
| Valuation.TtmMetrics | src/utils/valuation.py:10-104 | fewer than four statements give no result; with four, the only error is the type error from a stored null in revenue, net income or operating income; no market capitalisation gives no result; otherwise the per-share figures of the four-quarter revenue, net income and operating income sums, the newest truthy equity, the price and the market capitalisation |
| Valuation.CalculateTtmMetrics | src/utils/valuation.py:53-104 | the accumulation loop computes exactly the TTM metrics above |
| Valuation.NullStaysNull | src/utils/valuation.py:53-58 | once a stored null breaks a running sum, the whole sum is broken |
| Valuation.FairValue | src/utils/valuation.py:107-128 | the three prices are EPS times the low, middle and high PER |
| Valuation.FairValueOrdered | src/utils/valuation.py:121-128 | with non-negative EPS and an ordered PER range, conservative <= fair <= optimistic and fair is their midpoint |
| Valuation.ScaledMono | src/utils/valuation.py:125-127 | a larger multiple never gives a smaller price for non-negative EPS |
| Valuation.Upside | src/utils/valuation.py:159-161 | an upside exists iff the price is positive and is positive (negative) exactly when the target is above (below) the price |
| Valuation.ValuationSummary | src/utils/valuation.py:131-164 | fails exactly when the TTM computation fails; a summary exists iff TTM metrics exist with positive EPS, and holds them, the current price, the PER 10-15 and 15-20 ranges and the upside from the price to the conservative and optimistic fair prices |
| Valuation.UpsidesOrdered | src/utils/valuation.py:154-162 | in every summary the conservative upside <= fair upside <= optimistic upside |
| Valuation.UpsideMono | src/utils/valuation.py:159-161 | a higher target never gives a smaller upside |
| PeerAnalysis.FindStock | src/utils/peer_analysis.py:26 | a stock is found iff one with the ticker is listed, and the one found has that ticker |
| PeerAnalysis.SameSector | src/utils/peer_analysis.py:32-35 | exactly the other listed stocks of the same sector with a market capitalisation are candidates |
| PeerAnalysis.GetPeerStocks | src/utils/peer_analysis.py:14-40 | an unknown ticker, a missing sector or the "other" sector gives no peers; otherwise the first `limit` listed stocks of the target's sector other than the target, in listing order |
| PeerAnalysis.Sample | src/utils/peer_analysis.py:94-115 | a sampled P/E, P/B, debt ratio or ROE lies strictly inside its outlier band and comes from a peer that has a statement |
| PeerAnalysis.SamplesInBand | src/utils/peer_analysis.py:76-115 | every collected sample of a kind lies strictly inside that kind's band |
| PeerAnalysis.NoStatementsNoSamples | src/utils/peer_analysis.py:84-85 | peers without statements contribute no samples |
| PeerAnalysis.AverageOrNone | src/utils/peer_analysis.py:118-128 | an average is reported iff there was at least one sample |
| PeerAnalysis.PeerMetricsOf | src/utils/peer_analysis.py:43-130 | no metrics without peers; otherwise the count is the number of peers, the capitalisation average is over truthy capitalisations (0 if none) and each ratio average is over that ratio's banded samples |
| PeerAnalysis.AveragesInBands | src/utils/peer_analysis.py:117-128 | each reported average lies strictly inside its band |
| PeerAnalysis.CalculatePeerMetrics | src/utils/peer_analysis.py:43-130 | the loop over peers computes exactly the peer metrics above |
| PeerAnalysis.RealisticPeerHasNoPb | src/utils/peer_analysis.py:99-105 | with book value per share computed as equity over market capitalisation, a typical large company (close 70,000, equity 300 trillion, capitalisation 400 trillion) yields a P/B far outside the (0, 10) band and is dropped |
| PeerAnalysis.Classify | src/utils/peer_analysis.py:193-198 | against a positive average, "near" means exactly within 80%-120% of it, "below" implies under it and "above" over it |
| PeerAnalysis.ClassifyMonotone | src/utils/peer_analysis.py:193-198 | against a positive average a higher figure never ranks lower |
| PeerAnalysis.PeVerdict | src/utils/peer_analysis.py:189-201 | a P/E verdict exists iff the target's EPS is positive and the sector has an average P/E; it compares close over EPS with that average |
| PeerAnalysis.DebtVerdict | src/utils/peer_analysis.py:204-217 | a debt verdict exists iff liabilities and positive equity are known and the sector has an average debt ratio; it compares liabilities over equity (in percent) with that average |
| PeerAnalysis.CompareWithPeers | src/utils/peer_analysis.py:133-224 | no report iff the ticker is unknown; otherwise the sector is the stock's truthy sector or "unclassified", with the top-10 peers and their metrics; no comparison without peers, a statement or a price, and with all three the comparison is the PER and debt-ratio verdicts against the peer averages |
| PeerAnalysis.PeVerdictAgainstBandedAverage | src/utils/peer_analysis.py:187-201 | a P/E verdict is always against a sector average strictly between 0 and 100 |
| DartFinancial.WalkIndex | src/collectors/dart_financial_collector.py:144-147 | every report code has a position in the backward walk annual, third quarter, half year, first quarter |
| DartFinancial.GetRecentQuarters | src/collectors/dart_financial_collector.py:117-158 | exactly `count` pairs are produced (none for a negative count), the k-th being the k-th step of the backward walk from the quarter the current month selects |
| DartFinancial.WalkSteps | src/collectors/dart_financial_collector.py:152-156 | the year drops by one exactly when the walk wraps from the first quarter back to the annual report, and stays otherwise |
| DartFinancial.YearsNeverIncrease | src/collectors/dart_financial_collector.py:149-156 | later entries never have a later year |
| DartFinancial.FourConsecutiveCoverAllCodes | src/collectors/dart_financial_collector.py:144-156 | any four consecutive entries hold each of the four report codes once |
| DartFinancial.WalkRotation | src/collectors/dart_financial_collector.py:144 | every rotation of the four-code walk holds all four codes |
| DartFinancial.PeriodTypeOf | src/collectors/dart_financial_collector.py:209 | the period type is annual iff the code is the annual report |
| DartFinancial.PeriodEndQuarter | src/collectors/dart_financial_collector.py:179-186 | the period end of a code falls in the quarter the code reports (first quarter March, half year June, third quarter September, annual December) |
| DartFinancial.PeriodEndsStepBack | src/collectors/dart_financial_collector.py:176-186 | successive entries of the walk have period ends exactly three months apart, going back in time |
| DartFinancial.FirstIndex | src/collectors/dart_financial_collector.py:79-81 | the row used is the first one whose account name matches |
| DartFinancial.UnmappedFigureAbsent | src/collectors/dart_financial_collector.py:66-87 | a field no account maps to is never filled |
| DartFinancial.FigureAt | src/collectors/dart_financial_collector.py:78-87 | a mapped field is present iff the first matching row's amount parses after removing commas, and then holds that value |
| DartFinancial.LastFigure | src/collectors/dart_financial_collector.py:78-87 | the last account processed follows the same law |
| DartFinancial.AccountsHaveDistinctFields | src/collectors/dart_financial_collector.py:66-76 | the nine account mappings fill nine different fields |
| DartFinancial.Ratio | src/collectors/dart_financial_collector.py:90-108 | a ratio exists iff both inputs are present and the denominator is positive, and is their quotient in percent |
| DartFinancial.WithRatios | src/collectors/dart_financial_collector.py:89-108 | ROE, debt ratio, current ratio and both margins are added exactly when their guards hold; every read figure is kept unchanged |
| DartFinancial.GetFinancialStatement | src/collectors/dart_financial_collector.py:39-115 | no statement for a failed or empty table; otherwise the read figures plus the derived ratios |
| DartFinancial.ReadFigures | src/collectors/dart_financial_collector.py:78-87 | the mapping loop fills exactly the figures characterised above |
| DartFinancial.PositiveEquityGivesRoe | src/collectors/dart_financial_collector.py:90-92 | whenever equity reads positive and net income reads, ROE is net income over equity in percent |
| DartFinancial.EquityAndIncomeAccounts | src/collectors/dart_financial_collector.py:69-72 | the equity and net-income accounts map to the fields ROE is computed from |
| DartClient.SentParams | src/collectors/dart_client.py:27 | the request carries every caller parameter unchanged plus the API key under `crtfc_key` |
| DartClient.Get | src/collectors/dart_client.py:25-44 | a reply is passed on iff it arrived and its status is "000"; a failed call or any other status gives an empty reply |
| DartClient.StatementRows | src/collectors/dart_client.py:88-110 | a rejected reply gives no rows; an accepted reply with a list gives that list |
| DartClient.CorpCode | src/collectors/dart_client.py:46-53 | a corporation code is returned iff the reply is accepted and carries one, and it is that code |
| DartClient.GetCorpCodeList | src/collectors/dart_client.py:55-86 | the loop over the listing builds exactly the stock-code map below |
| DartClient.CorpMapKeys | src/collectors/dart_client.py:75-79 | every key is the non-empty stripped stock code of some listed company |
| DartClient.CorpMapLastWins | src/collectors/dart_client.py:75-79 | a listed company's stripped stock code maps to its corporation code unless a later company has the same stock code |
| DartClient.SheetOf | src/collectors/dart_client.py:129-133 | only the IS, BS and CF divisions are mapped to a statement |
| DartClient.Contribution | src/collectors/dart_client.py:135-146 | an item contributes only with a known division, a non-empty account name and an amount that parses after removing commas, and contributes exactly those |
| DartClient.Grouped | src/collectors/dart_client.py:122-126 | the result always has the three statements |
| DartClient.ParseFinancialStatements | src/collectors/dart_client.py:112-148 | the loop builds exactly the grouped statements, all three present |
| DartClient.GroupedOnlyContributions | src/collectors/dart_client.py:140-144 | every recorded account comes from a contributing item of that statement |
| DartClient.GroupedLastWins | src/collectors/dart_client.py:140-144 | a contributing item's amount is recorded unless a later item contributes the same statement and account |
| Disclosure.IsMajor | src/collectors/disclosure_collector.py:173-181 | a filing is major iff its name contains one of the major-filing keywords |
| Disclosure.Classify | src/collectors/disclosure_collector.py:183-206 | a filing falls through to "other" exactly when its name contains none of the class keywords |
| Disclosure.MajorIff | src/collectors/disclosure_collector.py:173-181 | a filing is major exactly when its name mentions "실적" or it has a class other than "other" |
| Disclosure.TreasurySplit | src/collectors/disclosure_collector.py:193-198 | a treasury-stock filing not caught by an earlier branch is a purchase iff it mentions acquisition or buying, and the plain treasury class mentions neither disposal nor cancellation |
| Disclosure.StockByTicker | src/collectors/disclosure_collector.py:234 | a stock is found iff one with the ticker exists, and it has that ticker |
| Disclosure.FindStock | src/collectors/disclosure_collector.py:225-236 | a stock is found iff the corporation code is mapped and a stock with the mapped ticker exists; it has that ticker |
| Disclosure.Collect | src/collectors/disclosure_collector.py:54-125 | at most 100 pages are read, each non-empty, stopping at the first empty page or at the cap; the filings saved are those the per-filing visit keeps over the pages read, and the total is their number |
| Disclosure.VisitAllExtends | src/collectors/disclosure_collector.py:79-117 | visiting filings only appends to what was saved and only grows the set of receipt numbers seen |
| Disclosure.VisitAllStoresNewMajor | src/collectors/disclosure_collector.py:79-117 | every newly saved filing is major, carries its classification, belongs to a known stock and has a receipt number not seen before; no two new ones share a receipt number |
| Blog.TagLength | src/collectors/blog_collector.py:207 | a tag match is at least three characters, opens with `<` and closes at its first `>` |
| Blog.StripTags | src/collectors/blog_collector.py:207 | removing tags never lengthens the text |
| Blog.NoCloseNothingStripped | src/collectors/blog_collector.py:207 | text without `>` is left as it is |
| Blog.NoOpenNothingStripped | src/collectors/blog_collector.py:207 | text without `<` is left as it is |
| Blog.NoTagsUnchanged | src/collectors/blog_collector.py:207 | text that holds no tag is left as it is |
| Blog.StripTagsLeavesNoTags | src/collectors/blog_collector.py:207 | after the substitution no tag remains |
| Blog.StripTagsIdempotent | src/collectors/blog_collector.py:207 | removing tags twice is the same as once |
| Blog.CleanHtml | src/collectors/blog_collector.py:204-213 | the cleaned text neither starts nor ends with white space |
| Blog.DoubleUnescape | src/collectors/blog_collector.py:204-213 | because `&amp;` is decoded before `&lt;`, the escaped text `&amp;lt;` comes out as `<` rather than `&lt;` |
| Blog.PlainTextOnlyStripped | src/collectors/blog_collector.py:204-213 | text with no `<` and no `&` is only trimmed of surrounding white space |
| Blog.LowerKeepsCaselessKeyword | src/collectors/blog_collector.py:217-220 | lower-casing the text does not change whether it contains a keyword with no upper-case letters |
| Blog.IsAd | src/collectors/blog_collector.py:215-223 | a post is an advertisement iff title, a space and description contain one of the fifteen advertisement keywords, whatever the case of the text |
| Blog.KeywordHits | src/collectors/blog_collector.py:243-245 | no more keywords are counted than there are keywords |
| Blog.Quality | src/collectors/blog_collector.py:225-248 | the score lies between 0.5 and 1.0 |
| Blog.CalculateQuality | src/collectors/blog_collector.py:225-248 | the scoring loop computes the quality score, which lies between 0.5 and 1.0 |
| Blog.QualityFromHits | src/collectors/blog_collector.py:229-248 | a description over 1000 characters with six professional keywords scores exactly 1.0; one of at most 500 characters without any scores exactly 0.5 |
| Blog.QualityMonotone | src/collectors/blog_collector.py:229-248 | a description at least as long with at least as many professional-keyword hits never scores lower |
| Blog.Admit | src/collectors/blog_collector.py:131-191 | an item is stored exactly when the per-item visit stores it, and then only it and its link are added |
| Blog.FilterItems | src/collectors/blog_collector.py:130-191 | the item loop stores exactly the posts the visit keeps, and counts them |
| Blog.CollectStockBlogs | src/collectors/blog_collector.py:99-202 | a failed search stores nothing; otherwise the posts kept with the cutoff lookback days before today, and their number |
| Blog.VisitStep | src/collectors/blog_collector.py:145-191 | one item either changes nothing or appends one post with a new link that passes the date, advertisement and length filters |
| Blog.StoredPostsPassFilters | src/collectors/blog_collector.py:130-191 | visiting items only appends; every new post passes the filters, has a link not stored before, and no two new posts share a link |
| NaverPer.FirstTwoParts | src/collectors/naver_per_collector.py:70 | the first two parts of splitting at the separator: the text before its first occurrence and the text from there up to its second occurrence or the end, neither holding the separator |
| NaverPer.WithoutMarks | src/collectors/naver_per_collector.py:70 | removing the 억 marks and commas keeps a 조 mark |
| NaverPer.JoSurvives | src/collectors/naver_per_collector.py:69-70 | the 조 mark survives the clean-up, so the split always has a first part |
| NaverPer.JoTextRead | src/collectors/naver_per_collector.py:64-73 | text of the form "T조 B억" reads as (T x 10000 + B) x 10^8 won |
| NaverPer.JoOnlyTextRead | src/collectors/naver_per_collector.py:69-73 | text of the form "T조" with an empty 억 part reads as T x 10000 x 10^8 won |
| NaverPer.EokTextRead | src/collectors/naver_per_collector.py:74-76 | text of the form "B억" reads as B x 10^8 won |
| NaverPer.MarketCap | src/collectors/naver_per_collector.py:64-76 | text with neither 조 nor 억 gives no market capitalisation |
| NaverPer.RatioEnd | src/collectors/naver_per_collector.py:98 | the end of the `(\d+\.?\d*)배` match at a position: found iff there is a match there, and then it is that match's 배 |
| NaverPer.RatioSearch | src/collectors/naver_per_collector.py:98-101 | searching from a position: the start and end of the leftmost match starting there or later, and none exactly when no match starts there or later |
| NaverPer.LeftmostRatioUnique | src/collectors/naver_per_collector.py:98-101 | the leftmost match is unique: any two leftmost matches have the same start and end |
| NaverPer.FirstRatio | src/collectors/naver_per_collector.py:98-101 | none iff nothing matches; otherwise the float value of the leftmost match's number, never negative |
| NaverPer.MatchedRatioParses | src/collectors/naver_per_collector.py:98-101 | the number of a match always reads as a non-negative float |
| NaverPer.WholeRatioMatched | src/collectors/naver_per_collector.py:98-101 | a row reading "N배" yields the ratio N |
| NaverPer.DigitCommaRun | src/collectors/naver_per_collector.py:106 | the run is the longest prefix of digits and commas |
| NaverPer.AmountEnd | src/collectors/naver_per_collector.py:106 | the end of the `([\d,]+)원` match at a position: found iff there is a match there, and then it is that match's 원 |
| NaverPer.AmountSearch | src/collectors/naver_per_collector.py:106-109 | searching from a position: the start and end of the leftmost match starting there or later, and none exactly when no match starts there or later |
| NaverPer.LeftmostAmountUnique | src/collectors/naver_per_collector.py:106-109 | the leftmost match is unique: any two leftmost matches have the same start and end |
| NaverPer.FirstAmount | src/collectors/naver_per_collector.py:106-109 | none when nothing matches; otherwise the integer read from the leftmost match without its commas, never negative |
| NaverPer.CommaFreeAmount | src/collectors/naver_per_collector.py:109 | digits and commas with the commas removed parse, when they do, to a non-negative integer |
| NaverPer.ReadRowsLoop | src/collectors/naver_per_collector.py:92-129 | the row loop reads exactly the indicators the row-by-row specification gives |
| NaverPer.ReadTablesLoop | src/collectors/naver_per_collector.py:84-129 | the table loop reads exactly the indicators of the tables that mention both PER and PBR |
| NaverPer.ReadRowsNonNegative | src/collectors/naver_per_collector.py:92-129 | reading rows never makes an indicator negative |
| NaverPer.ReadTablesNonNegative | src/collectors/naver_per_collector.py:84-129 | every PER, PBR, EPS and BPS read from a page is non-negative |
| NaverPer.UnrelatedRowsIgnored | src/collectors/naver_per_collector.py:96-114 | rows without 배 change nothing |
| NaverPer.GetValuationMetrics | src/collectors/naver_per_collector.py:28-141 | a failed fetch gives nothing; otherwise a result exists iff PER, PBR or EPS was read, and holds the indicators read and the parsed market capitalisation |
| Dynamics.IsKoreanStock | src/collectors/dynamics_collector.py:39-42 | a ticker is Korean iff it is exactly six ASCII digits, so an index such as `^GSPC` never is |
| Dynamics.SourceOf | src/collectors/dynamics_collector.py:79-85 | prices come from FinanceDataReader iff the ticker is Korean, otherwise from Yahoo Finance |
| Dynamics.AllTickers | src/collectors/dynamics_collector.py:50-54 | the tickers given (or, when none are given, the active ones) followed by the benchmark last |
| Dynamics.Targets | src/collectors/dynamics_collector.py:56-61 | at most one target per listed ticker, each listed, with a stock id iff the ticker has a stock row |
| Dynamics.TargetsLoop | src/collectors/dynamics_collector.py:56-61 | the loop over the tickers builds exactly the target list specified by Targets |
| Dynamics.TargetsIff | src/collectors/dynamics_collector.py:56-61 | a ticker is collected with a stock id iff the stock is known, and without one only when it is the benchmark; unknown non-benchmark tickers are skipped |
| Dynamics.BenchmarkCollectedLast | src/collectors/dynamics_collector.py:54-62 | the benchmark is always collected, and last |
| Dynamics.FetchStart | src/collectors/dynamics_collector.py:75-77 | the fetch starts 250 days before the saving cutoff, to warm up the indicators |
| Dynamics.SaveLoop | src/collectors/dynamics_collector.py:102-151 | the row loop stores and counts exactly what the row-by-row specification gives |
| Dynamics.SaveRowStep | src/collectors/dynamics_collector.py:103-151 | one row keeps every stored price and indicator, adds a price only for a truthy stock id at a date on or after the cutoff not yet stored, and counts each record it adds |
| Dynamics.SaveRowsMeaning | src/collectors/dynamics_collector.py:98-151 | saving keeps every existing record, every new price is an in-window row of this stock at its date, and the count is the number of records added |
| Dynamics.CollectPriceAndIndicators | src/collectors/dynamics_collector.py:71-158 | an empty or failed fetch stores nothing and counts 0; otherwise the rows from the cutoff on are saved as above |
| Dynamics.RequestFor | src/collectors/dynamics_collector.py:75-85 | the request goes to the source the ticker selects, ends now and starts lookback + 250 days back |
| Dynamics.Collect | src/collectors/dynamics_collector.py:44-69 | the collection visits exactly the targets above, in order, and the total is the sum of their counts |
| Dynamics.CollectLoop | src/collectors/dynamics_collector.py:56-64 | the loop over the targets stores exactly what CollectAll specifies and returns the sum of the per-target counts |
| Dynamics.CalcMdd | src/collectors/dynamics_collector.py:219-226 | fewer than two points give 0; otherwise the drawdown lies in (-1, 0] and is 0 exactly when the series never falls |
| Sectors.FirstSector | src/update_sectors.py:48-51 | a sector found is one of the table's sectors |
| Sectors.ClassifySector | src/update_sectors.py:39-53 | sector and industry are the same, and are "other" or one of the twelve keyword sectors |
| Sectors.FirstSectorIsFirstMatch | src/update_sectors.py:48-51 | the sector returned is the first one, in table order, having a keyword contained in the name |
| Sectors.FirstSectorNoneIff | src/update_sectors.py:48-53 | no sector is found iff no keyword of any sector is contained in the name |
| Sectors.SecondSectorWins | src/update_sectors.py:48-51 | a name missing the first sector's keywords but matching the second's gets the second |
| Sectors.EarlierSectorWins | src/update_sectors.py:25-35 | LG에너지솔루션, listed among the automotive keywords but also containing an energy keyword, is classified automotive because that sector comes first |
| Sectors.TableEnds | src/update_sectors.py:23-36 | the table has twelve sectors, semiconductors first, automotive second, energy last |
| Sectors.Stock.constructor | src/update_sectors.py:65 | a new stock has its name and no sector or industry |
| Sectors.SetSector | src/update_sectors.py:69-72 | the stock's sector and industry become its classification; its name is untouched |
| Sectors.UpdateStockSectors | src/update_sectors.py:56-81 | every stock gets the classification of its name as sector and industry, names are untouched, and every stock is counted |
| Helpers.ChunkList | src/utils/helpers.py:52-54 | a size of 0 fails; a negative size gives no chunks; a positive size gives non-empty chunks of at most that size whose concatenation is the list |
| Helpers.ChunksConcat | src/utils/helpers.py:54 | joining the chunks gives the list back |
| Helpers.ChunkSizes | src/utils/helpers.py:54 | every chunk is non-empty and at most n long, and all but the last are exactly n long |
| Helpers.ChunkCount | src/utils/helpers.py:54 | there are ceil(len / n) chunks, none for the empty list |
| Telegram.FirstPrefix | src/telegram_bot.py:54-57 | the command found is the first in table order that the message starts with; none is found only when the message starts with no command |
| Telegram.ParseCommand | src/telegram_bot.py:42-59 | without a command the whole stripped message is returned; with one, it is a command the stripped message starts with and the arguments are the stripped rest |
| Telegram.CommandWordsPrefixFree | src/telegram_bot.py:32-40 | no command word is a prefix of another, so at most one command matches a message and table order never matters |
| Telegram.ParseCommandRoundTrip | src/telegram_bot.py:42-59 | a command word, a space and trimmed arguments parse back to that command and those arguments |
| Telegram.WordThenArgs | src/telegram_bot.py:51-56 | a trimmed word, a space and trimmed arguments strip to text starting with the word, whose stripped rest is the arguments |
| Telegram.FindTicker | src/telegram_bot.py:72 | the stock found by ticker is the first with exactly that ticker |
| Telegram.NameMatches | src/telegram_bot.py:76-78 | exactly the stocks whose name contains the query match by name |
| Telegram.GetStockInfo | src/telegram_bot.py:61-87 | an exact ticker match always wins; otherwise a stock whose name contains the query; nothing iff no ticker equals and no name contains the query |
| Telegram.Years | src/telegram_bot.py:272-277 | without a second argument the period is one year |
| Telegram.YearsOfPeriod | src/telegram_bot.py:276-277 | a second argument of digits, with or without 년, gives that many years |
| Telegram.Handle | src/telegram_bot.py:120-387 | every command except help and status answers empty arguments with its usage message; the only handler failure is a backtest whose arguments have no word |
| Telegram.PortfolioTopNIff | src/telegram_bot.py:301-323 | the portfolio command optimises the top N exactly when its argument is all digits, otherwise it takes the listed names |
| Telegram.StrippedHasWord | src/telegram_bot.py:56 | non-empty stripped arguments always split into at least one word |
| Telegram.ProcessMessage | src/telegram_bot.py:389-411 | there is no reply iff no command matches and the message does not start with a slash; a failing handler turns into an error reply |
| Telegram.ProcessMessageNeverRaisesItself | src/telegram_bot.py:398-402 | for messages the parser accepts, the modelled handlers never fail, so the error reply comes only from the handlers' external calls |
| Monitor.AlertWithoutDivision | src/monitor.py:141-151 | the move reaches the threshold iff the absolute price difference times 100 reaches the threshold times the absolute previous price |
| Monitor.PriceChange | src/monitor.py:141 | the percentage move times the previous price is 100 times the price difference |
| Monitor.TruthyVolumes | src/monitor.py:109 | none kept iff no volume is truthy, and each kept one is a non-zero recorded volume |
| Monitor.TruthyVolumesCount | src/monitor.py:109 | one volume is kept per truthy record |
| Monitor.TruthyVolumeKept | src/monitor.py:109 | a truthy record's volume is kept at the position after those of the truthy records before it, so all are kept, in order |
| Monitor.AverageVolume | src/monitor.py:106-114 | there is no average iff no record has a truthy volume |
| Monitor.AverageVolumePositive | src/monitor.py:109-114 | with non-negative volumes, an average that exists is positive |
| Monitor.GetAverageVolume | src/monitor.py:87-114 | the filtering loop computes exactly the average above |
| Monitor.VolumeRatio | src/monitor.py:144-148 | without a positive average the ratio is 100; otherwise ratio times average is the current volume times 100 |
| Monitor.PriceMonitor.constructor | src/monitor.py:30-43 | a new monitor has the given thresholds and no recorded prices |
| Monitor.PriceMonitor.CheckPriceChange | src/monitor.py:116-170 | no quote changes nothing and returns false; a first quote is only recorded; a previous price of 0 raises before recording; otherwise the quote is recorded and an alert with the percentage move and volume ratio is sent iff the move reaches the threshold |
| RealtimeMonitoring.GetRealtimePrice | src/realtime_monitor.py:48-93 | a quote exists iff the reply is 200 with a body whose result has a first area with a first data item; it holds that item's fields, 0 for missing ones |
| RealtimeMonitoring.CheckPriceChange | src/realtime_monitor.py:95-141 | an alert is raised iff there is a previous observation with a positive price and the move reaches the threshold; it carries the percentage move and a volume ratio of 100 without a positive previous volume |
| RealtimeMonitoring.UnchangedPriceNoAlert | src/realtime_monitor.py:116-141 | with a positive threshold an unchanged price never alerts |
| RealtimeMonitoring.SweepStep | src/realtime_monitor.py:166-194 | one poll records its quote for its ticker when the fetch succeeded and leaves every other entry as it was |
| RealtimeMonitoring.SweepKeepsUnpolled | src/realtime_monitor.py:169-172 | a ticker never fetched successfully keeps its previous entry, or stays absent |
| RealtimeMonitoring.SweepRecordsLastQuote | src/realtime_monitor.py:189-194 | after a sweep a ticker holds the quote of its last successful fetch |
| RealtimeMonitoring.AlertsAtMostQuotes | src/realtime_monitor.py:166-178 | a sweep raises at most one alert per poll |
| RealtimeMonitoring.RealtimeMonitor.constructor | src/realtime_monitor.py:28-46 | a new monitor has the threshold, no recorded prices and zero counts |
| RealtimeMonitoring.RealtimeMonitor.Sweep | src/realtime_monitor.py:161-198 | one pass over the watchlist updates the recorded prices and sends the alerts the sweep specification gives, adds one to the check count and the number of alerts to the alert count |
| Text.LStripMeaning | src/telegram_bot.py:51 | left stripping removes exactly the leading white space: the result is a suffix, starts with a non-space and everything removed is space |
| Text.RStripMeaning | src/telegram_bot.py:51 | right stripping removes exactly the trailing white space |
| Text.StripMeaning | src/telegram_bot.py:51 | the stripped text is empty or starts and ends with a non-space, and is a slice of the original |
| Text.StripNoOuterSpace | src/telegram_bot.py:56 | text that neither starts nor ends with white space is left as it is |
| Text.StripIdempotent | src/telegram_bot.py:51-56 | stripping twice is the same as once |
| Text.Split | src/telegram_bot.py:272 | every word of a whitespace split is non-empty and free of white space |
| Text.Replace | src/collectors/naver_per_collector.py:70 | replacing a pattern that does not occur changes nothing |
| Text.ReplaceCharConcat | src/collectors/naver_per_collector.py:70 | removing or replacing a single character distributes over concatenation |
| Text.RemovedCharGone | src/collectors/dart_financial_collector.py:84 | after removing a character none of it is left |
| Text.RemovedKeepsOthers | src/collectors/dart_financial_collector.py:84 | removing a character introduces no new characters |
| Text.Lower | src/collectors/blog_collector.py:217 | lower-casing keeps the length and maps each character on its own |
| Text.ParseInt | src/telegram_bot.py:276-277 | a string of ASCII digits parses to its decimal value |
| Text.ParseFloat | src/collectors/dart_financial_collector.py:84 | a string of ASCII digits parses to its decimal value |
| Text.DecimalValue | src/collectors/naver_per_collector.py:98-101 | an unsigned decimal reads as a non-negative number |
| Text.DigitRun | src/collectors/naver_per_collector.py:98 | the run is the longest prefix of ASCII digits |
| Text.AnyContainedIff | src/update_sectors.py:48-51 | a keyword list matches iff one of its keywords is contained in the text |
| Text.FindChar | src/collectors/naver_per_collector.py:70 | the index found is the first occurrence of the character; none is found only when it does not occur |

## Left out

- Database access, HTTP requests, HTML parsing, the Telegram transport, logging and `time.sleep` are
  not modelled. Query results, fetched pages and API replies are inputs; the records a collector
  would add are returned as values.
- SQL ordering, `LIMIT` and `LIKE` are not modelled. The callers pass rows already in the order the
  query would return them, and `LIKE '%q%'` is modelled as substring containment.
- `round()` in the change maps and the result metrics is not modelled. Values are exact `real`s, so
  the model has no floating-point rounding, overflow, `inf` or `nan`.
- The numerical library calls (`std`, `sqrt`, `pow`, the SLSQP optimiser, the random weights) are
  function parameters. Only what the code does around them is modelled.
- BacktestEngine.RunStrategy: requires positive closes, a positive initial capital, and commission
  and slippage in [0, 1). Outside these, numpy would produce `inf` or `nan`, which the model does not
  represent.
- BacktestEngine.RunBuyHold: requires positive closes and a positive initial capital, as
  `RunStrategy` does. With a zero first close the source divides by zero to get the share count, and
  with a zero capital the metrics divide by zero; both produce `inf` or `nan`, which the model does
  not represent.
- pandas index alignment between a strategy's data and the benchmark is not modelled: both series are
  taken as aligned by date.
- PortfolioOptimizer: DailyReturns, GetReturns, AddColumn and Optimize require positive closes. A
  zero close gives `inf` returns in the source, which the model does not represent.
- PortfolioOptimizer.EfficientFrontier: requires every random draw to be in [0, 1) with a positive
  sum. A draw that is all zero, where numpy divides by zero, is excluded.
- DartClient.GetCorpCodeList: a listing entry without a `corp_code` element raises in the source
  (`None.text`), which aborts the whole download; the model takes every entry to have one.
- Text: `lower()` and `isdigit()` are modelled for ASCII only, and `int()`/`float()` for plain decimal
  text (no exponents, underscores, `inf`/`nan` or non-ASCII digits). The keywords the core searches
  for are Hangul or lower-case, so ASCII lower-casing decides every match the same way.
- Dates are day numbers (and months are numbers 1-12). Calendar arithmetic, time zones and
  `strftime`/`strptime` formats are not modelled.
- Disclosure.Collect: the receipt date is not parsed, and a filing whose `report_nm` is null (where
  `in` would raise) is not modelled. Vectorising the saved records is left out.
- Blog.CollectStockBlogs: a malformed `postdate` (which the per-item `try` skips) is not modelled. The
  cutoff is computed once, from the clock given as a parameter.
- PeerAnalysis: the P/B ratio is modelled as written, with book value per share taken as equity over
  market capitalisation. `RealisticPeerHasNoPb` shows the effect on a typical input.
- NaverPer.GetValuationMetrics: the company name, current price and `market_cap_text` entries are
  not modelled, only the valuation indicators and the parsed market capitalisation.
- Dynamics: `_calculate_indicators` (rolling means, RSI, MACD, Bollinger bands, ATR, volatility,
  Sharpe) is left out; its columns are part of the row given to the saving loop.
- Dynamics.CalcMdd: requires a positive series, because with a zero running peak the source divides
  by zero.
- Monitor: the `run` loop and `get_watchlist` are not modelled (an endless loop with sleeps over a
  database query). A check that raises is the `Err` case of `CheckPriceChange`.
- RealtimeMonitoring: `monitor_stocks` is modelled as one sweep over the watchlist (`Sweep`). The
  endless repetition, the statistics logging and the keyboard interrupt are left out. The clock
  string is a parameter.
- Telegram: the handlers' external work (agents, price lookup, backtest, optimiser, `ps`) and their
  reply texts are not modelled. `Handle` returns what each handler decides, not its message text.
- FinancialMetrics: `format_quarterly_metrics_horizontal` builds display text; only its quarter
  labels are modelled (`PeriodLabels`).
- The vectorising helpers, `collect_all`, the `main` functions and the scripts are outside the core.
