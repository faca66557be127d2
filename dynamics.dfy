// The price and indicator collector: which tickers are visited, which data source each
// uses, the fetch and save windows, the insert-if-absent save of each row, and the
// maximum-drawdown helper.
module Dynamics {
  import opened Wrappers
  import opened Text
  import opened SeriesMath

  // -------------------------------------------------------------- tickers

  /** `_is_korean_stock`: a Korean ticker is exactly a six-digit code, so an index symbol
      such as "^KS11" is not one. */
  predicate IsKoreanStock(ticker: string): (korean: bool)
    ensures korean <==> |ticker| == 6 && forall k :: 0 <= k < 6 ==> '0' <= ticker[k] <= '9'
    ensures |ticker| > 0 && ticker[0] == '^' ==> !korean
  {
    IsDigits(ticker) && |ticker| == 6
  }

  datatype Source = FinanceDataReader | YahooFinance

  /** Korean tickers are read from FinanceDataReader, everything else from Yahoo Finance. */
  function SourceOf(ticker: string): (s: Source)
    ensures s == FinanceDataReader <==> IsKoreanStock(ticker)
  {
    if IsKoreanStock(ticker) then FinanceDataReader else YahooFinance
  }

  /** The tickers `collect` walks: the given list (or, when it is empty, the active stocks)
      followed by the benchmark. */
  function AllTickers(tickers: seq<string>, active: seq<string>, benchmark: string): (all: seq<string>)
    ensures |all| > 0 && all[|all| - 1] == benchmark
    ensures tickers != [] ==> all[..|all| - 1] == tickers
    ensures tickers == [] ==> all[..|all| - 1] == active
  {
    (if tickers == [] then active else tickers) + [benchmark]
  }

  /** The tickers actually collected, each with the id of its stock row (if any): a ticker
      without a stock row is skipped unless it is the benchmark. */
  function Targets(all: seq<string>, benchmark: string, stocks: map<string, nat>): (r: seq<(string, Option<nat>)>)
    ensures |r| <= |all|
    ensures forall k :: 0 <= k < |r| ==> r[k].0 in all && (r[k].1.Some? <==> r[k].0 in stocks)
  {
    if |all| == 0 then []
    else
      var before := Targets(all[..|all| - 1], benchmark, stocks);
      var t := all[|all| - 1];
      assert forall x :: x in all[..|all| - 1] ==> x in all;
      if t in stocks then before + [(t, Some(stocks[t]))]
      else if t == benchmark then before + [(t, None)]
      else before
  }

  /** A ticker is collected iff it is listed and has a stock row or is the benchmark; its
      id is that row's. */
  lemma {:induction false} TargetsIff(all: seq<string>, benchmark: string, stocks: map<string, nat>, t: string, id: Option<nat>)
    ensures (t, id) in Targets(all, benchmark, stocks)
            <==> t in all && (if t in stocks then id == Some(stocks[t]) else t == benchmark && id.None?)
  {
    if |all| > 0 {
      var prefix := all[..|all| - 1];
      TargetsIff(prefix, benchmark, stocks, t, id);
      assert all == prefix + [all[|all| - 1]];
    }
  }

  /** The benchmark is always collected, and it comes last. */
  lemma BenchmarkCollectedLast(tickers: seq<string>, active: seq<string>, benchmark: string, stocks: map<string, nat>)
    ensures var ts := Targets(AllTickers(tickers, active, benchmark), benchmark, stocks);
            |ts| > 0 && ts[|ts| - 1].0 == benchmark
  {
  }

  // ------------------------------------------------------------- windows

  /** Seconds in a day: times are seconds on the same clock as `now`. */
  const Day: int := 86400

  /** The fetch window starts `lookback + 250` days back, so that the long moving averages
      are defined on the first saved row. */
  function FetchStart(now: int, lookbackDays: int): (start: int)
    ensures start == Cutoff(now, lookbackDays) - 250 * Day
  {
    now - (lookbackDays + 250) * Day
  }

  /** Rows at or after this instant are saved. */
  function Cutoff(now: int, lookbackDays: int): int
  {
    now - lookbackDays * Day
  }

  /** The calendar day of an instant (`idx.date()`). */
  function DateOf(time: int): int
  {
    time / Day
  }

  // ---------------------------------------------------------------- saving

  /** One row of the fetched frame with its computed indicators. */
  datatype Row = Row(time: int, close: Option<real>, volume: Option<real>, indicators: seq<Option<real>>)

  /** The stored price and indicator rows, keyed by (stock id, date). */
  datatype Stored = Stored(prices: map<(nat, int), Row>, indicators: map<(nat, int), Row>)

  /** One row of the save loop: with a (truthy) stock id and a recent enough row, a price row
      and an indicator row are each inserted unless one already exists for that date; the
      count grows by the number inserted. */
  function SaveRow(stockId: Option<nat>, cutoff: int, st: Stored, count: nat, row: Row): (Stored, nat)
  {
    if row.time < cutoff || stockId.None? || stockId.value == 0 then (st, count)
    else
      var key := (stockId.value, DateOf(row.time));
      var (prices, c1) := if key in st.prices then (st.prices, count) else (st.prices[key := row], count + 1);
      var (indicators, c2) := if key in st.indicators then (st.indicators, c1) else (st.indicators[key := row], c1 + 1);
      (Stored(prices, indicators), c2)
  }

  function SaveRows(stockId: Option<nat>, cutoff: int, st: Stored, rows: seq<Row>): (Stored, nat)
  {
    if |rows| == 0 then (st, 0)
    else
      var (before, count) := SaveRows(stockId, cutoff, st, rows[..|rows| - 1]);
      SaveRow(stockId, cutoff, before, count, rows[|rows| - 1])
  }

  /** The save loop of `_collect_price_and_indicators`. */
  method SaveLoop(stockId: Option<nat>, cutoff: int, st: Stored, rows: seq<Row>) returns (r: Stored, count: nat)
    ensures (r, count) == SaveRows(stockId, cutoff, st, rows)
  {
    r, count := st, 0;
    for i := 0 to |rows|
      invariant (r, count) == SaveRows(stockId, cutoff, st, rows[..i])
    {
      assert rows[..i + 1][..i] == rows[..i];
      var row := rows[i];
      if row.time >= cutoff && stockId.Some? && stockId.value != 0 {
        var key := (stockId.value, DateOf(row.time));
        if key !in r.prices {
          r := r.(prices := r.prices[key := row]);
          count := count + 1;
        }
        if key !in r.indicators {
          r := r.(indicators := r.indicators[key := row]);
          count := count + 1;
        }
      }
    }
    assert rows[..|rows|] == rows;
  }

  /** Saving never changes or removes a stored row, every new row is a recent row of this
      stock, and the count is the number of rows inserted. */
  lemma {:induction false} SaveRowsMeaning(stockId: Option<nat>, cutoff: int, st: Stored, rows: seq<Row>)
    ensures var (r, count) := SaveRows(stockId, cutoff, st, rows);
            (forall k :: k in st.prices ==> k in r.prices && r.prices[k] == st.prices[k])
            && (forall k :: k in st.indicators ==> k in r.indicators && r.indicators[k] == st.indicators[k])
            && (forall k :: k in r.prices && k !in st.prices ==>
                  exists i :: 0 <= i < |rows| && rows[i].time >= cutoff && stockId.Some?
                              && k == (stockId.value, DateOf(rows[i].time)) && r.prices[k] == rows[i])
            && count == |r.prices| - |st.prices| + |r.indicators| - |st.indicators|
  {
    if |rows| > 0 {
      var prefix := rows[..|rows| - 1];
      SaveRowsMeaning(stockId, cutoff, st, prefix);
      var (b, c) := SaveRows(stockId, cutoff, st, prefix);
      var row := rows[|rows| - 1];
      SaveRowStep(stockId, cutoff, b, c, row);
      var (r, count) := SaveRow(stockId, cutoff, b, c, row);
      forall k | k in r.prices && k !in st.prices
        ensures exists i :: 0 <= i < |rows| && rows[i].time >= cutoff && stockId.Some?
                            && k == (stockId.value, DateOf(rows[i].time)) && r.prices[k] == rows[i]
      {
        if k in b.prices {
          var i :| 0 <= i < |prefix| && prefix[i].time >= cutoff && stockId.Some?
                   && k == (stockId.value, DateOf(prefix[i].time)) && b.prices[k] == prefix[i];
          assert rows[i] == prefix[i];
        } else {
          assert rows[|rows| - 1] == row;
        }
      }
    }
  }

  /** Saving one row keeps what was stored, adds at most that row under its own key, and
      counts each insertion. */
  lemma SaveRowStep(stockId: Option<nat>, cutoff: int, b: Stored, c: nat, row: Row)
    ensures var (r, count) := SaveRow(stockId, cutoff, b, c, row);
            (forall k :: k in b.prices ==> k in r.prices && r.prices[k] == b.prices[k])
            && (forall k :: k in b.indicators ==> k in r.indicators && r.indicators[k] == b.indicators[k])
            && (forall k :: k in r.prices && k !in b.prices ==>
                  row.time >= cutoff && stockId.Some? && k == (stockId.value, DateOf(row.time)) && r.prices[k] == row)
            && count - c == |r.prices| - |b.prices| + |r.indicators| - |b.indicators|
  {
  }

  /** `_collect_price_and_indicators` for one ticker once the frame has been fetched (None
      when the fetch raised): an empty or failed fetch saves nothing. */
  method CollectPriceAndIndicators(stockId: Option<nat>, now: int, lookbackDays: int, st: Stored,
                                   frame: Option<seq<Row>>) returns (r: Stored, count: nat)
    ensures frame.None? || frame.value == [] ==> r == st && count == 0
    ensures frame.Some? ==> (r, count) == SaveRows(stockId, Cutoff(now, lookbackDays), st, frame.value)
  {
    if frame.None? || frame.value == [] {
      return st, 0;
    }
    r, count := SaveLoop(stockId, Cutoff(now, lookbackDays), st, frame.value);
  }

  /** The request for one ticker: its source and the window [start, now]. */
  datatype Request = Request(source: Source, ticker: string, start: int, end: int)

  function RequestFor(ticker: string, now: int, lookbackDays: int): (q: Request)
    ensures q.source == SourceOf(ticker) && q.end == now
    ensures q.start == Cutoff(now, lookbackDays) - 250 * Day
  {
    Request(SourceOf(ticker), ticker, FetchStart(now, lookbackDays), now)
  }

  /** The whole run over the targets, each ticker's frame given by `fetch`. */
  function CollectAll(targets: seq<(string, Option<nat>)>, now: int, lookbackDays: int,
                      fetch: Request -> Option<seq<Row>>, st: Stored): (Stored, nat)
  {
    if |targets| == 0 then (st, 0)
    else
      var (before, total) := CollectAll(targets[..|targets| - 1], now, lookbackDays, fetch, st);
      var (t, id) := targets[|targets| - 1];
      var frame := fetch(RequestFor(t, now, lookbackDays));
      var (after, count) := if frame.None? then (before, 0)
                            else SaveRows(id, Cutoff(now, lookbackDays), before, frame.value);
      (after, total + count)
  }

  /** `collect`: the ticker list, then one fetch and save per collected ticker, adding up the
      counts. */
  method Collect(tickers: seq<string>, active: seq<string>, benchmark: string, stocks: map<string, nat>,
                 now: int, lookbackDays: int, fetch: Request -> Option<seq<Row>>, st: Stored)
    returns (r: Stored, total: nat)
    ensures (r, total) == CollectAll(Targets(AllTickers(tickers, active, benchmark), benchmark, stocks),
                                     now, lookbackDays, fetch, st)
  {
    var all := if tickers == [] then active else tickers;
    all := all + [benchmark];
    assert all == AllTickers(tickers, active, benchmark);
    var targets := TargetsLoop(all, benchmark, stocks);
    r, total := CollectLoop(targets, now, lookbackDays, fetch, st);
  }

  /** The loop of `collect` that fetches and saves each target in turn, adding up the counts. */
  method CollectLoop(targets: seq<(string, Option<nat>)>, now: int, lookbackDays: int,
                     fetch: Request -> Option<seq<Row>>, st: Stored)
    returns (r: Stored, total: nat)
    ensures (r, total) == CollectAll(targets, now, lookbackDays, fetch, st)
  {
    r, total := st, 0;
    for j := 0 to |targets|
      invariant (r, total) == CollectAll(targets[..j], now, lookbackDays, fetch, st)
    {
      assert targets[..j + 1][..j] == targets[..j];
      var (t, id) := targets[j];
      var count;
      r, count := CollectPriceAndIndicators(id, now, lookbackDays, r, fetch(RequestFor(t, now, lookbackDays)));
      total := total + count;
    }
    assert targets[..|targets|] == targets;
  }

  /** The loop of `collect` that looks up each listed ticker's stock row. */
  method TargetsLoop(all: seq<string>, benchmark: string, stocks: map<string, nat>)
    returns (targets: seq<(string, Option<nat>)>)
    ensures targets == Targets(all, benchmark, stocks)
  {
    targets := [];
    for i := 0 to |all|
      invariant targets == Targets(all[..i], benchmark, stocks)
    {
      assert all[..i + 1][..i] == all[..i];
      var t := all[i];
      if t in stocks {
        targets := targets + [(t, Some(stocks[t]))];
      } else if t == benchmark {
        targets := targets + [(t, None)];
      }
    }
    assert all[..|all|] == all;
  }

  // ------------------------------------------------------------ drawdown

  /** `_calc_mdd` of a positive close series: 0 for fewer than two points, otherwise the
      deepest fall below the running peak, in (-1, 0]; it is 0 exactly when the series never
      falls. */
  function CalcMdd(series: seq<real>): (m: real)
    requires AllPositive(series)
    ensures |series| < 2 ==> m == 0.0
    ensures -1.0 < m <= 0.0
    ensures m == 0.0 <==> NonDecreasing(series)
  {
    if |series| < 2 then 0.0
    else
      MaxDrawdownZeroIff(series);
      MaxDrawdown(series)
  }
}
