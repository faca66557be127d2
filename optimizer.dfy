// Markowitz portfolio scaffolding: per-ticker daily returns, the annualised return
// and variance objectives, the weight bounds and starting point handed to the solver,
// the random-portfolio frontier, and the validation around a whole optimisation.
// The constrained solver itself is a parameter.
module PortfolioOptimizer {
  import opened Wrappers
  import opened SeriesMath
  import opened BacktestEngine

  // ------------------------------------------------------------------ returns data

  /** A ticker keeps a returns column when it is a known stock with at least two closes in range. */
  predicate Kept(db: PriceDb, ticker: string, start: int, end: int)
  {
    ticker in db && |InRange(db[ticker], start, end)| >= 2
  }

  lemma {:induction false} RangeClosesPositive(db: PriceDb, ticker: string, start: int, end: int)
    requires PositiveCloses(db) && ticker in db
    ensures AllPositive(Closes(InRange(db[ticker], start, end)))
  {
    var s := InRange(db[ticker], start, end);
    forall i | 0 <= i < |s| ensures s[i].close > 0.0 {
      assert s[i] in s;
      var j :| 0 <= j < |db[ticker]| && db[ticker][j] == s[i];
    }
  }

  /** The percentage change of the ticker's closes in range, first (undefined) entry dropped. */
  function DailyReturns(db: PriceDb, ticker: string, start: int, end: int): (r: seq<real>)
    requires PositiveCloses(db) && ticker in db
    ensures Kept(db, ticker, start, end) ==> |r| == |InRange(db[ticker], start, end)| - 1 >= 1
  {
    RangeClosesPositive(db, ticker, start, end);
    PctChange(Closes(InRange(db[ticker], start, end)))
  }

  /** The returns columns in dictionary order: each kept ticker once, where it first appears. */
  function KeptColumns(db: PriceDb, tickers: seq<string>, start: int, end: int): (cols: seq<string>)
    ensures forall i :: 0 <= i < |cols| ==> cols[i] in db && Kept(db, cols[i], start, end)
  {
    if |tickers| == 0 then []
    else
      var cols := KeptColumns(db, tickers[..|tickers| - 1], start, end);
      var t := tickers[|tickers| - 1];
      if Kept(db, t, start, end) && t !in cols then cols + [t] else cols
  }

  /** The columns are exactly the kept tickers, without repetition. */
  lemma {:induction false} KeptColumnsExact(db: PriceDb, tickers: seq<string>, start: int, end: int)
    ensures var cols := KeptColumns(db, tickers, start, end);
            (forall t :: t in cols <==> t in tickers && Kept(db, t, start, end))
            && (forall i, j :: 0 <= i < j < |cols| ==> cols[i] != cols[j])
            && (forall i :: 0 <= i < |cols| ==> Kept(db, cols[i], start, end))
  {
    if |tickers| > 0 {
      var front := tickers[..|tickers| - 1];
      KeptColumnsExact(db, front, start, end);
      assert tickers == front + [tickers[|tickers| - 1]];
    }
  }

  /** `get_returns`: the daily-returns column of every kept ticker, in first-seen order. */
  method GetReturns(db: PriceDb, tickers: seq<string>, start: int, end: int)
    returns (cols: seq<string>, data: map<string, seq<real>>)
    requires PositiveCloses(db)
    ensures cols == KeptColumns(db, tickers, start, end)
    ensures forall t :: t in data <==> t in cols
    ensures forall t :: t in data <==> t in tickers && Kept(db, t, start, end)
    ensures forall t :: t in data ==> t in db && data[t] == DailyReturns(db, t, start, end) && |data[t]| >= 1
  {
    cols, data := [], map[];
    var i := 0;
    while i < |tickers|
      invariant 0 <= i <= |tickers|
      invariant cols == KeptColumns(db, tickers[..i], start, end)
      invariant forall t :: t in data <==> t in tickers[..i] && Kept(db, t, start, end)
      invariant forall t :: t in data ==> t in db && data[t] == DailyReturns(db, t, start, end) && |data[t]| >= 1
    {
      var t := tickers[i];
      assert tickers[..i + 1] == tickers[..i] + [t];
      KeptColumnsExact(db, tickers[..i], start, end);
      cols, data := AddColumn(db, t, start, end, cols, data);
      i := i + 1;
    }
    assert tickers[..i] == tickers;
    KeptColumnsExact(db, tickers, start, end);
  }

  /** One ticker of `get_returns`: a kept ticker gets its returns column, and its name is
      appended unless already there; any other ticker changes nothing. */
  method AddColumn(db: PriceDb, t: string, start: int, end: int, cols: seq<string>, data: map<string, seq<real>>)
    returns (cols': seq<string>, data': map<string, seq<real>>)
    requires PositiveCloses(db)
    ensures cols' == if Kept(db, t, start, end) && t !in cols then cols + [t] else cols
    ensures data' == if Kept(db, t, start, end) then data[t := DailyReturns(db, t, start, end)] else data
  {
    cols', data' := cols, data;
    if t in db {
      var prices := InRange(db[t], start, end);
      if |prices| >= 2 {
        if t !in cols {
          cols' := cols + [t];
        }
        data' := data[t := DailyReturns(db, t, start, end)];
      }
    }
  }

  // ------------------------------------------------------------------- statistics

  /** `np.sum(a * b)` over the common length. */
  function Dot(a: seq<real>, b: seq<real>): real
  {
    if |a| == 0 || |b| == 0 then 0.0 else a[0] * b[0] + Dot(a[1..], b[1..])
  }

  /** `w' C w`. */
  function QuadForm(cov: seq<seq<real>>, w: seq<real>): real
  {
    QuadRows(cov, w, w)
  }

  function QuadRows(rows: seq<seq<real>>, left: seq<real>, w: seq<real>): real
  {
    if |rows| == 0 || |left| == 0 then 0.0 else left[0] * Dot(rows[0], w) + QuadRows(rows[1..], left[1..], w)
  }

  /** The annualised expected return: 252 times the weighted mean daily return. */
  function AnnualReturn(means: seq<real>, w: seq<real>): real
  {
    Dot(means, w) * TradingDays as real
  }

  /** The minimum-variance objective: the annualised portfolio variance. */
  function VarianceObjective(cov: seq<seq<real>>, w: seq<real>): real
  {
    QuadForm(cov, w) * TradingDays as real
  }

  predicate IsAllocation(w: seq<real>)
  {
    (forall i :: 0 <= i < |w| ==> w[i] >= 0.0) && Sum(w) == 1.0
  }

  /** A fully invested long-only portfolio earns between the worst and the best asset. */
  lemma {:induction false} AnnualReturnBetweenAssets(means: seq<real>, w: seq<real>, lo: real, hi: real)
    requires |means| == |w| && IsAllocation(w)
    requires forall i :: 0 <= i < |means| ==> lo <= means[i] <= hi
    ensures lo * TradingDays as real <= AnnualReturn(means, w) <= hi * TradingDays as real
  {
    DotBetween(means, w, lo, hi);
  }

  lemma DotBetween(means: seq<real>, w: seq<real>, lo: real, hi: real)
    requires |means| == |w| && forall i :: 0 <= i < |w| ==> w[i] >= 0.0
    requires forall i :: 0 <= i < |means| ==> lo <= means[i] <= hi
    ensures lo * Sum(w) <= Dot(means, w) <= hi * Sum(w)
  {
    DotAtLeast(means, w, lo);
    DotAtMost(means, w, hi);
  }

  /** With non-negative weights and every value at least `lo`, the weighted sum is at least
      `lo` times the total weight. */
  lemma {:induction false} DotAtLeast(means: seq<real>, w: seq<real>, lo: real)
    requires |means| == |w| && forall i :: 0 <= i < |w| ==> w[i] >= 0.0
    requires forall i :: 0 <= i < |means| ==> lo <= means[i]
    ensures lo * Sum(w) <= Dot(means, w)
  {
    if |w| > 0 {
      DotAtLeast(means[1..], w[1..], lo);
      AtLeastStep(means[0], w[0], Sum(w[1..]), Sum(w), Dot(means[1..], w[1..]), Dot(means, w), lo);
    }
  }

  /** The upper-bound twin of `DotAtLeast`. */
  lemma {:induction false} DotAtMost(means: seq<real>, w: seq<real>, hi: real)
    requires |means| == |w| && forall i :: 0 <= i < |w| ==> w[i] >= 0.0
    requires forall i :: 0 <= i < |means| ==> means[i] <= hi
    ensures Dot(means, w) <= hi * Sum(w)
  {
    if |w| > 0 {
      DotAtMost(means[1..], w[1..], hi);
      AtMostStep(means[0], w[0], Sum(w[1..]), Sum(w), Dot(means[1..], w[1..]), Dot(means, w), hi);
    }
  }

  lemma AtLeastStep(m0: real, w0: real, rest: real, total: real, d: real, dot: real, lo: real)
    requires w0 >= 0.0 && lo <= m0 && lo * rest <= d
    requires total == w0 + rest && dot == m0 * w0 + d
    ensures lo * total <= dot
  {
    ProductMono(w0, lo, m0);
    assert lo * total == w0 * lo + lo * rest;
  }

  lemma AtMostStep(m0: real, w0: real, rest: real, total: real, d: real, dot: real, hi: real)
    requires w0 >= 0.0 && m0 <= hi && d <= hi * rest
    requires total == w0 + rest && dot == m0 * w0 + d
    ensures dot <= hi * total
  {
    ProductMono(w0, m0, hi);
    assert hi * total == w0 * hi + hi * rest;
  }

  /** The unit vector on asset `k`. */
  function Unit(n: nat, k: nat): (e: seq<real>)
    requires k < n
    ensures |e| == n && e[k] == 1.0 && forall i :: 0 <= i < n && i != k ==> e[i] == 0.0
  {
    seq(n, i => if i == k then 1.0 else 0.0)
  }

  lemma {:induction false} DotUnit(x: seq<real>, n: nat, k: nat)
    requires k < n <= |x|
    ensures Dot(x, Unit(n, k)) == x[k]
  {
    DotPick(x, Unit(n, k), k);
  }

  lemma {:induction false} DotPick(x: seq<real>, e: seq<real>, k: nat)
    requires k < |e| <= |x| && e[k] == 1.0 && forall i :: 0 <= i < |e| && i != k ==> e[i] == 0.0
    ensures Dot(x, e) == x[k]
  {
    if k == 0 {
      DotZeros(x[1..], e[1..]);
    } else {
      DotPick(x[1..], e[1..], k - 1);
    }
  }

  lemma {:induction false} DotZeros(x: seq<real>, e: seq<real>)
    requires forall i :: 0 <= i < |e| ==> e[i] == 0.0
    ensures Dot(x, e) == 0.0
  {
    if |x| > 0 && |e| > 0 {
      DotZeros(x[1..], e[1..]);
    }
  }

  /** Holding one asset alone, the variance objective is that asset's annualised variance. */
  lemma {:induction false} SingleAssetVariance(cov: seq<seq<real>>, n: nat, k: nat)
    requires k < n && |cov| == n && forall i :: 0 <= i < n ==> |cov[i]| == n
    ensures VarianceObjective(cov, Unit(n, k)) == cov[k][k] * TradingDays as real
  {
    var e := Unit(n, k);
    DotUnit(cov[k], n, k);
    QuadRowsPick(cov, e, e, k);
  }

  lemma {:induction false} QuadRowsPick(rows: seq<seq<real>>, left: seq<real>, w: seq<real>, k: nat)
    requires k < |left| <= |rows| && left[k] == 1.0 && forall i :: 0 <= i < |left| && i != k ==> left[i] == 0.0
    ensures QuadRows(rows, left, w) == Dot(rows[k], w)
  {
    if k == 0 {
      QuadRowsZeros(rows[1..], left[1..], w);
    } else {
      QuadRowsPick(rows[1..], left[1..], w, k - 1);
    }
  }

  lemma {:induction false} QuadRowsZeros(rows: seq<seq<real>>, left: seq<real>, w: seq<real>)
    requires forall i :: 0 <= i < |left| ==> left[i] == 0.0
    ensures QuadRows(rows, left, w) == 0.0
  {
    if |rows| > 0 && |left| > 0 {
      QuadRowsZeros(rows[1..], left[1..], w);
    }
  }

  /** Return, volatility and Sharpe ratio of a weight vector. A zero volatility makes numpy's
      quotient infinite or NaN, here None. */
  datatype Stats = Stats(ret: real, volatility: real, sharpe: Option<real>)

  function PortfolioStats(w: seq<real>, means: seq<real>, cov: seq<seq<real>>, riskFreeRate: real,
                          sqrt: real -> real): (s: Stats)
    ensures s.ret == AnnualReturn(means, w)
    ensures s.sharpe.Some? <==> s.volatility != 0.0
    ensures s.sharpe.Some? ==> s.sharpe.value * s.volatility == s.ret - riskFreeRate
  {
    var ret := AnnualReturn(means, w);
    var vol := sqrt(QuadForm(cov, w)) * sqrt(TradingDays as real);
    if vol == 0.0 then Stats(ret, vol, None) else Stats(ret, vol, Some((ret - riskFreeRate) / vol))
  }

  // -------------------------------------------------------------- solver set-up

  /** Optional `min_weight`/`max_weight` constraints; an absent or empty dict gives the defaults. */
  function MinWeight(constraints: Option<map<string, real>>): (m: real)
    ensures constraints.None? || "min_weight" !in constraints.value ==> m == 0.0
    ensures constraints.Some? && "min_weight" in constraints.value ==> m == constraints.value["min_weight"]
  {
    if constraints.Some? && |constraints.value| > 0 && "min_weight" in constraints.value
    then constraints.value["min_weight"] else 0.0
  }

  function MaxWeight(constraints: Option<map<string, real>>): (m: real)
    ensures constraints.None? || "max_weight" !in constraints.value ==> m == 1.0
    ensures constraints.Some? && "max_weight" in constraints.value ==> m == constraints.value["max_weight"]
  {
    if constraints.Some? && |constraints.value| > 0 && "max_weight" in constraints.value
    then constraints.value["max_weight"] else 1.0
  }

  /** The same (min, max) box for every asset. */
  function WeightBounds(constraints: Option<map<string, real>>, n: nat): (b: seq<(real, real)>)
    ensures |b| == n
    ensures forall i :: 0 <= i < n ==> b[i] == (MinWeight(constraints), MaxWeight(constraints))
  {
    seq(n, _ => (MinWeight(constraints), MaxWeight(constraints)))
  }

  /** The equality constraint: zero exactly for fully invested weights. */
  function BudgetConstraint(w: seq<real>): (c: real)
    ensures c == 0.0 <==> Sum(w) == 1.0
  {
    Sum(w) - 1.0
  }

  /** The equal-weight starting point; no assets is a ZeroDivisionError. */
  function InitialGuess(n: nat): (r: Result<seq<real>>)
    ensures r.Err? <==> n == 0
    ensures r.Ok? ==> |r.value| == n && IsAllocation(r.value) && BudgetConstraint(r.value) == 0.0
    ensures r.Ok? ==> forall i, j :: 0 <= i < j < n ==> r.value[i] == r.value[j]
  {
    if n == 0 then Err("ZeroDivisionError")
    else
      var g := seq(n, _ => 1.0 / n as real);
      SumOfCopies(g, 1.0 / n as real);
      assert (n as real) * (1.0 / n as real) == 1.0;
      Ok(g)
  }

  lemma {:induction false} SumOfCopies(s: seq<real>, x: real)
    requires forall i :: 0 <= i < |s| ==> s[i] == x
    ensures Sum(s) == |s| as real * x
  {
    if |s| > 0 {
      SumOfCopies(s[1..], x);
    }
  }

  /** What the solver is asked to do. */
  datatype Objective = MaximiseSharpe | MinimiseVariance

  /** The constrained solver: from an objective over the given mean returns, covariance and
      risk-free rate, a starting point and bounds to weights and whether it converged. Like
      SLSQP's `result.x`, the weights have the starting point's length. */
  type Solver = f: (Objective, seq<real>, seq<seq<real>>, real, seq<real>, seq<(real, real)>) -> (seq<real>, bool)
    | forall o, m, c, rf, x0, b :: |f(o, m, c, rf, x0, b).0| == |x0|
    witness (o: Objective, m: seq<real>, c: seq<seq<real>>, rf: real, x0: seq<real>, b: seq<(real, real)>) => (x0, true)

  datatype Optimum = Optimum(weights: seq<real>, stats: Stats, success: bool)

  /** `max_sharpe_ratio` and `min_variance`: the solver's weights and their statistics.
      Non-convergence is reported in `success`, never raised. */
  function Solve(objective: Objective, means: seq<real>, cov: seq<seq<real>>, constraints: Option<map<string, real>>,
                 riskFreeRate: real, sqrt: real -> real, solver: Solver): (r: Result<Optimum>)
    ensures r.Err? <==> |means| == 0
    ensures r.Ok? ==> |r.value.weights| == |means|
    ensures r.Ok? ==> var out := solver(objective, means, cov, riskFreeRate, InitialGuess(|means|).value,
                                        WeightBounds(constraints, |means|));
                      r.value.weights == out.0 && r.value.success == out.1
                      && r.value.stats == PortfolioStats(out.0, means, cov, riskFreeRate, sqrt)
  {
    match InitialGuess(|means|)
    case Err(e) => Err(e)
    case Ok(init) =>
      var out := solver(objective, means, cov, riskFreeRate, init, WeightBounds(constraints, |means|));
      Ok(Optimum(out.0, PortfolioStats(out.0, means, cov, riskFreeRate, sqrt), out.1))
  }

  // ---------------------------------------------------------- efficient frontier

  function Divided(s: seq<real>, d: real): (r: seq<real>)
    requires d != 0.0
    ensures |r| == |s| && forall i :: 0 <= i < |s| ==> r[i] == s[i] / d
  {
    seq(|s|, i requires 0 <= i < |s| => s[i] / d)
  }

  lemma {:induction false} SumDivided(s: seq<real>, d: real)
    requires d != 0.0
    ensures Sum(Divided(s, d)) == Sum(s) / d
  {
    if |s| > 0 {
      SumDivided(s[1..], d);
      assert Divided(s, d)[1..] == Divided(s[1..], d);
    }
  }

  predicate IsDraw(draw: seq<real>)
  {
    (forall i :: 0 <= i < |draw| ==> 0.0 <= draw[i] < 1.0) && Sum(draw) > 0.0
  }

  /** A draw divided by its sum. */
  function Normalised(draw: seq<real>): seq<real>
    requires IsDraw(draw)
  {
    Divided(draw, Sum(draw))
  }

  /** A normalised random draw is a long-only, fully invested allocation. */
  lemma {:induction false} NormalisedDrawIsAllocation(draw: seq<real>)
    requires IsDraw(draw)
    ensures IsAllocation(Normalised(draw))
  {
    SumDivided(draw, Sum(draw));
    var w := Divided(draw, Sum(draw));
    forall i | 0 <= i < |w| ensures w[i] >= 0.0 {
      assert w[i] == draw[i] / Sum(draw);
    }
  }

  /** `weights /= np.sum(weights)`, in place. */
  method Normalise(w: array<real>)
    requires Sum(w[..]) != 0.0
    modifies w
    ensures w[..] == Divided(old(w[..]), Sum(old(w[..])))
  {
    var total := Sum(w[..]);
    ghost var before := w[..];
    var i := 0;
    while i < w.Length
      invariant 0 <= i <= w.Length
      invariant forall j :: 0 <= j < i ==> w[j] == before[j] / total
      invariant forall j :: i <= j < w.Length ==> w[j] == before[j]
    {
      w[i] := w[i] / total;
      i := i + 1;
    }
  }

  /** `efficient_frontier`: one row of statistics per random portfolio; `draws[k]` is the
      generator's vector for the k-th portfolio. A non-positive count gives no rows. */
  method EfficientFrontier(means: seq<real>, cov: seq<seq<real>>, riskFreeRate: real, sqrt: real -> real,
                           draws: seq<seq<real>>, numPortfolios: int) returns (rows: seq<Stats>)
    requires numPortfolios <= |draws|
    requires forall k :: 0 <= k < |draws| ==> |draws[k]| == |means| && IsDraw(draws[k])
    ensures |rows| == if numPortfolios < 0 then 0 else numPortfolios
    ensures forall k :: 0 <= k < |rows| ==>
              rows[k] == PortfolioStats(Normalised(draws[k]), means, cov, riskFreeRate, sqrt)
  {
    rows := [];
    var k := 0;
    while k < numPortfolios
      invariant 0 <= k <= |draws| && |rows| == k
      invariant if numPortfolios >= 0 then k <= numPortfolios else k == 0
      invariant forall j :: 0 <= j < k ==>
                  rows[j] == PortfolioStats(Normalised(draws[j]), means, cov, riskFreeRate, sqrt)
    {
      var weights := new real[|draws[k]|](j requires 0 <= j < |draws[k]| => draws[k][j]);
      assert weights[..] == draws[k];
      Normalise(weights);
      var stats := PortfolioStats(weights[..], means, cov, riskFreeRate, sqrt);
      rows := rows + [stats];
      k := k + 1;
    }
  }

  /** Every frontier portfolio is a long-only, fully invested allocation, so its return lies
      between the worst and the best asset's. */
  lemma {:induction false} FrontierReturnsBetweenAssets(means: seq<real>, draw: seq<real>, lo: real, hi: real)
    requires |draw| == |means| && IsDraw(draw)
    requires forall i :: 0 <= i < |means| ==> lo <= means[i] <= hi
    ensures lo * TradingDays as real <= AnnualReturn(means, Normalised(draw)) <= hi * TradingDays as real
  {
    NormalisedDrawIsAllocation(draw);
    AnnualReturnBetweenAssets(means, Normalised(draw), lo, hi);
  }

  // ---------------------------------------------------------------- optimize

  function Min(a: nat, b: nat): nat
  {
    if a < b then a else b
  }

  /** `dict(zip(keys, values))`: pairs up to the shorter length; a later key overwrites. */
  function ZipMap(keys: seq<string>, values: seq<real>): (m: map<string, real>)
    ensures var ks := keys[..Min(|keys|, |values|)];
            (forall k :: k in m <==> k in ks)
            && (forall i :: 0 <= i < |ks| && ks[i] !in ks[i + 1..] ==> ks[i] in m && m[ks[i]] == values[i])
  {
    var n := Min(|keys|, |values|);
    ZipPairsValues(keys[..n], values[..n]);
    ZipPairs(keys[..n], values[..n])
  }

  function ZipPairs(keys: seq<string>, values: seq<real>): (m: map<string, real>)
    requires |keys| == |values|
    ensures forall k :: k in m <==> k in keys
  {
    if |keys| == 0 then map[]
    else
      var rest := ZipPairs(keys[1..], values[1..]);
      assert forall k :: k in keys <==> k == keys[0] || k in keys[1..];
      if keys[0] in rest then rest else rest[keys[0] := values[0]]
  }

  /** A key that does not occur again later maps to its own value. */
  lemma {:induction false} ZipPairsValues(keys: seq<string>, values: seq<real>)
    requires |keys| == |values|
    ensures forall i :: 0 <= i < |keys| && keys[i] !in keys[i + 1..] ==>
              keys[i] in ZipPairs(keys, values) && ZipPairs(keys, values)[keys[i]] == values[i]
  {
    if |keys| > 0 {
      ZipPairsValues(keys[1..], values[1..]);
      forall i | 1 <= i < |keys| && keys[i] !in keys[i + 1..]
        ensures ZipPairs(keys, values)[keys[i]] == values[i]
      {
        assert keys[1..][i - 1] == keys[i] && keys[1..][i - 1 + 1..] == keys[i + 1..];
        assert keys[i] != keys[0] || keys[0] in ZipPairs(keys[1..], values[1..]);
      }
    }
  }

  datatype Portfolio = Portfolio(
    methodName: string, tickers: seq<string>, weights: map<string, real>,
    expectedReturn: real, volatility: real, sharpe: Option<real>,
    riskFreeRate: real, lookbackDays: int)

  /** `optimize`: the returns of the last `lookbackDays + 100` days, then the chosen solver.
      Fewer than two usable tickers, or an unknown method, is a ValueError. */
  function Optimize(db: PriceDb, tickers: seq<string>, lookbackDays: int, methodName: string,
                    constraints: Option<map<string, real>>, now: int, riskFreeRate: real,
                    sqrt: real -> real, covariance: seq<seq<real>> -> seq<seq<real>>, solver: Solver): (r: Result<Portfolio>)
    requires PositiveCloses(db)
    ensures var cols := KeptColumns(db, tickers, now - (lookbackDays + 100), now);
            r.Err? <==> |cols| < 2 || methodName !in {"max_sharpe", "min_variance"}
    ensures r.Ok? ==>
              var start := now - (lookbackDays + 100);
              var cols := KeptColumns(db, tickers, start, now);
              (KeptColumnsExact(db, tickers, start, now);
               r == OptimizeColumns(methodName, cols, ReturnsColumns(db, cols, start, now), constraints, riskFreeRate,
                                   lookbackDays, sqrt, covariance, solver))
  {
    var start := now - (lookbackDays + 100);
    var cols := KeptColumns(db, tickers, start, now);
    if |cols| < 2 then Err("ValueError")
    else
      KeptColumnsExact(db, tickers, start, now);
      OptimizeColumns(methodName, cols, ReturnsColumns(db, cols, start, now), constraints, riskFreeRate, lookbackDays,
                      sqrt, covariance, solver)
  }

  /** The part of `optimize` after `get_returns`: the statistics of the columns, the chosen
      solver and the portfolio built from its result. */
  function OptimizeColumns(methodName: string, cols: seq<string>, columns: seq<seq<real>>,
                           constraints: Option<map<string, real>>, riskFreeRate: real, lookbackDays: int,
                           sqrt: real -> real, covariance: seq<seq<real>> -> seq<seq<real>>, solver: Solver)
    : (r: Result<Portfolio>)
    requires |cols| == |columns| > 0 && forall i :: 0 <= i < |columns| ==> |columns[i]| > 0
    requires forall i, j :: 0 <= i < j < |cols| ==> cols[i] != cols[j]
    ensures r.Err? <==> ObjectiveOf(methodName).None?
    ensures r.Ok? ==> r.value.tickers == cols && r.value.methodName == methodName && r.value.lookbackDays == lookbackDays
                      && r.value.riskFreeRate == riskFreeRate
                      && r.value.weights.Keys == set t | t in cols
    ensures r.Ok? ==>
              var opt := Solve(ObjectiveOf(methodName).value, ColumnMeans(columns), covariance(columns), constraints,
                               riskFreeRate, sqrt, solver);
              opt.Ok? && |opt.value.weights| == |cols|
              && (forall i :: 0 <= i < |cols| ==> r.value.weights[cols[i]] == opt.value.weights[i])
              && r.value.expectedReturn == opt.value.stats.ret && r.value.volatility == opt.value.stats.volatility
              && r.value.sharpe == opt.value.stats.sharpe
  {
    var objective := ObjectiveOf(methodName);
    if objective.None? then Err("ValueError")
    else
      var opt := Solve(objective.value, ColumnMeans(columns), covariance(columns), constraints, riskFreeRate, sqrt, solver).value;
      ZipMapDistinct(cols, opt.weights);
      Ok(Portfolio(methodName, cols, ZipMap(cols, opt.weights), opt.stats.ret, opt.stats.volatility,
                   opt.stats.sharpe, riskFreeRate, lookbackDays))
  }

  /** With distinct keys and one value per key, every key maps to its own value. */
  lemma ZipMapDistinct(keys: seq<string>, values: seq<real>)
    requires |keys| == |values| && forall i, j :: 0 <= i < j < |keys| ==> keys[i] != keys[j]
    ensures ZipMap(keys, values).Keys == set t | t in keys
    ensures forall i :: 0 <= i < |keys| ==> ZipMap(keys, values)[keys[i]] == values[i]
  {
    assert keys[..Min(|keys|, |values|)] == keys;
    assert forall i :: 0 <= i < |keys| ==> keys[i] !in keys[i + 1..];
  }

  /** The returns columns of the kept tickers, each with at least one return. */
  function ReturnsColumns(db: PriceDb, cols: seq<string>, start: int, end: int): (columns: seq<seq<real>>)
    requires PositiveCloses(db)
    requires forall i :: 0 <= i < |cols| ==> cols[i] in db && Kept(db, cols[i], start, end)
    ensures |columns| == |cols|
    ensures forall i :: 0 <= i < |cols| ==> columns[i] == DailyReturns(db, cols[i], start, end) && |columns[i]| >= 1
  {
    seq(|cols|, i requires 0 <= i < |cols| => DailyReturns(db, cols[i], start, end))
  }

  /** `returns_df.mean()`: one mean per column. */
  function ColumnMeans(columns: seq<seq<real>>): (means: seq<real>)
    requires forall i :: 0 <= i < |columns| ==> |columns[i]| > 0
    ensures |means| == |columns| && forall i :: 0 <= i < |columns| ==> means[i] == Mean(columns[i])
  {
    seq(|columns|, i requires 0 <= i < |columns| => Mean(columns[i]))
  }

  /** The objective a method name selects; none for an unknown name. */
  function ObjectiveOf(methodName: string): (o: Option<Objective>)
    ensures o == Some(MaximiseSharpe) <==> methodName == "max_sharpe"
    ensures o == Some(MinimiseVariance) <==> methodName == "min_variance"
    ensures o.None? <==> methodName !in {"max_sharpe", "min_variance"}
  {
    if methodName == "max_sharpe" then Some(MaximiseSharpe)
    else if methodName == "min_variance" then Some(MinimiseVariance) else None
  }
}
