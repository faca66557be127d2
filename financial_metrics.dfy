// Quarter-over-quarter and year-over-year changes, four-quarter trend labels and the
// derived ratios of one statement. Statements come newest first; each carries the
// figures of its filing as an optional dictionary of optional numbers.
module FinancialMetrics {
  import opened Wrappers

  type Month = m: int | 1 <= m <= 12 witness 1

  /** A filing's figures by name; a stored null is None. */
  type RawData = map<string, Option<real>>

  datatype Statement = Statement(year: int, month: Month, rawData: Option<RawData>)

  /** `stmt.raw_data` is truthy: present and not empty. */
  predicate HasData(s: Statement)
  {
    s.rawData.Some? && |s.rawData.value| > 0
  }

  /** `raw_data.get(key)`. */
  function Field(s: Statement, key: string): (v: Option<real>)
    ensures v.Some? ==> HasData(s)
  {
    if HasData(s) && key in s.rawData.value then s.rawData.value[key] else None
  }

  function Abs(x: real): real
  {
    if x < 0.0 then -x else x
  }

  // ------------------------------------------------------------------ changes

  /** Flow figures compared as a percentage change. */
  const FlowMetrics: seq<string> := [
    "revenue", "operating_income", "net_income", "total_assets", "total_equity",
    "operating_cash_flow", "investing_cash_flow", "financing_cash_flow"
  ]

  /** Ratio figures compared as a difference, stored under `<name>_diff`. */
  const RatioMetrics: seq<string> := ["roe", "roa", "operating_margin", "net_margin", "debt_ratio"]

  function DiffKey(metric: string): string
  {
    metric + "_diff"
  }

  /** The percentage change relative to the size of the earlier figure. */
  function FlowChange(curr: real, prev: real): real
    requires prev != 0.0
  {
    (curr - prev) / Abs(prev) * 100.0
  }

  /** The change always has the sign of `curr - prev`. */
  lemma {:induction false} FlowChangeSign(curr: real, prev: real)
    requires prev != 0.0
    ensures FlowChange(curr, prev) > 0.0 <==> curr > prev
    ensures FlowChange(curr, prev) < 0.0 <==> curr < prev
    ensures FlowChange(curr, prev) == 0.0 <==> curr == prev
  {
    var q := (curr - prev) / Abs(prev);
    assert q * Abs(prev) == curr - prev;
    if curr > prev {
      assert q > 0.0;
    } else if curr < prev {
      assert q < 0.0;
    } else {
      assert q == 0.0;
    }
  }

  predicate FlowKept(cur: Statement, prev: Statement, m: string)
  {
    Truthy(Field(cur, m)) && Truthy(Field(prev, m))
  }

  predicate RatioKept(cur: Statement, prev: Statement, m: string)
  {
    Field(cur, m).Some? && Field(prev, m).Some?
  }

  function FlowChanges(cur: Statement, prev: Statement, metrics: seq<string>): map<string, real>
  {
    map m | m in metrics && FlowKept(cur, prev, m) :: FlowChange(Field(cur, m).value, Field(prev, m).value)
  }

  function RatioDiffs(cur: Statement, prev: Statement, metrics: seq<string>): map<string, real>
  {
    map k | k in DiffKeys(cur, prev, metrics) :: DiffOf(cur, prev, metrics, k)
  }

  /** The `_diff` keys of the ratios both statements carry. */
  function DiffKeys(cur: Statement, prev: Statement, metrics: seq<string>): set<string>
  {
    set m | m in metrics && RatioKept(cur, prev, m) :: DiffKey(m)
  }

  /** The difference stored under a `_diff` key. */
  function DiffOf(cur: Statement, prev: Statement, metrics: seq<string>, k: string): real
  {
    if |k| >= 5 && k[..|k| - 5] in metrics && RatioKept(cur, prev, k[..|k| - 5])
    then Field(cur, k[..|k| - 5]).value - Field(prev, k[..|k| - 5]).value
    else 0.0
  }

  lemma {:induction false} DiffKeyPrefix(m: string)
    ensures DiffKey(m)[..|DiffKey(m)| - 5] == m && |DiffKey(m)| >= 5
  {
  }

  /** `_calculate_change`: nothing unless both statements have figures, else the flow
      changes and the ratio differences together; no other key is ever produced. */
  function ChangeMap(cur: Statement, prev: Statement): (r: map<string, real>)
    ensures forall k :: k in r ==> k in FlowMetrics || exists m :: m in RatioMetrics && k == DiffKey(m)
  {
    if !(HasData(cur) && HasData(prev)) then map[]
    else
      RatioDiffsMeaning(cur, prev, RatioMetrics);
      FlowChanges(cur, prev, FlowMetrics) + RatioDiffs(cur, prev, RatioMetrics)
  }

  /** Every `_diff` key is longer or shorter than every flow figure's name. */
  lemma {:induction false} DiffKeysAreNotFlows()
    ensures forall r, f :: r in RatioMetrics && f in FlowMetrics ==> |DiffKey(r)| != |f|
  {
  }

  lemma {:induction false} RatioDiffsMeaning(cur: Statement, prev: Statement, metrics: seq<string>)
    ensures forall m :: m in metrics ==>
              (DiffKey(m) in RatioDiffs(cur, prev, metrics) <==> RatioKept(cur, prev, m))
    ensures forall m :: m in metrics && RatioKept(cur, prev, m) ==>
              RatioDiffs(cur, prev, metrics)[DiffKey(m)] == Field(cur, m).value - Field(prev, m).value
    ensures forall k :: k in RatioDiffs(cur, prev, metrics) ==> exists m :: m in metrics && k == DiffKey(m)
  {
    var ratios := RatioDiffs(cur, prev, metrics);
    forall m | m in metrics
      ensures DiffKey(m) in ratios <==> RatioKept(cur, prev, m)
    {
      DiffKeyPrefix(m);
      if DiffKey(m) in ratios {
        var m' :| m' in metrics && RatioKept(cur, prev, m') && DiffKey(m') == DiffKey(m);
        DiffKeyPrefix(m');
      }
    }
    forall m | m in metrics && RatioKept(cur, prev, m)
      ensures ratios[DiffKey(m)] == Field(cur, m).value - Field(prev, m).value
    {
      DiffKeyPrefix(m);
    }
  }

  /** `_calculate_change` keeps a flow figure's percentage change exactly when it is truthy
      in both statements, and a ratio's difference exactly when both values are present,
      zero included; nothing at all unless both statements carry figures. */
  lemma {:induction false} ChangeMapMeaning(cur: Statement, prev: Statement)
    ensures !(HasData(cur) && HasData(prev)) ==> ChangeMap(cur, prev) == map[]
    ensures forall m :: m in FlowMetrics ==>
              (m in ChangeMap(cur, prev) <==> FlowKept(cur, prev, m))
    ensures forall m :: m in FlowMetrics && FlowKept(cur, prev, m) ==>
              ChangeMap(cur, prev)[m] == FlowChange(Field(cur, m).value, Field(prev, m).value)
    ensures forall m :: m in RatioMetrics ==>
              (DiffKey(m) in ChangeMap(cur, prev) <==> RatioKept(cur, prev, m))
    ensures forall m :: m in RatioMetrics && RatioKept(cur, prev, m) ==>
              ChangeMap(cur, prev)[DiffKey(m)] == Field(cur, m).value - Field(prev, m).value
  {
    if HasData(cur) && HasData(prev) {
      var flows := FlowChanges(cur, prev, FlowMetrics);
      var ratios := RatioDiffs(cur, prev, RatioMetrics);
      RatioDiffsMeaning(cur, prev, RatioMetrics);
      DiffKeysAreNotFlows();
      forall m | m in FlowMetrics ensures m !in ratios {
        forall r | r in RatioMetrics ensures DiffKey(r) != m {
          assert |DiffKey(r)| != |m|;
        }
      }
      forall m | m in RatioMetrics ensures DiffKey(m) !in flows {
        assert |DiffKey(m)| != |FlowMetrics[0]|;
        forall f | f in FlowMetrics ensures DiffKey(m) != f {
          assert |DiffKey(m)| != |f|;
        }
      }
    }
  }

  /** Zero flow figures are skipped while zero ratios are compared. */
  lemma {:induction false} ZeroFlowSkippedZeroRatioKept(cur: Statement, prev: Statement)
    requires HasData(cur) && HasData(prev)
    requires Field(cur, "revenue") == Some(0.0) && Field(cur, "roe") == Some(0.0)
    requires Field(prev, "revenue").Some? && Field(prev, "roe").Some?
    ensures "revenue" !in ChangeMap(cur, prev)
    ensures ChangeMap(cur, prev)[DiffKey("roe")] == -Field(prev, "roe").value
  {
    assert "revenue" in FlowMetrics && "roe" in RatioMetrics;
    ChangeMapMeaning(cur, prev);
  }

  /** The loop of `_calculate_change` over the flow list and then the ratio list. */
  method CalculateChange(cur: Statement, prev: Statement) returns (changes: map<string, real>)
    ensures changes == ChangeMap(cur, prev)
  {
    changes := map[];
    if !(HasData(cur) && HasData(prev)) {
      return;
    }
    var flows := CompareFlows(cur, prev);
    var ratios := CompareRatios(cur, prev);
    changes := flows + ratios;
  }

  /** The percentage changes of the flow figures. */
  method CompareFlows(cur: Statement, prev: Statement) returns (changes: map<string, real>)
    ensures changes == FlowChanges(cur, prev, FlowMetrics)
  {
    changes := map[];
    var i := 0;
    while i < |FlowMetrics|
      invariant 0 <= i <= |FlowMetrics|
      invariant changes == FlowChanges(cur, prev, FlowMetrics[..i])
    {
      var m := FlowMetrics[i];
      var c, p := Field(cur, m), Field(prev, m);
      if Truthy(c) && Truthy(p) && p.value != 0.0 {
        changes := changes[m := FlowChange(c.value, p.value)];
      }
      assert FlowMetrics[..i + 1] == FlowMetrics[..i] + [m];
      i := i + 1;
    }
    assert FlowMetrics[..i] == FlowMetrics;
  }

  /** The differences of the ratio figures. */
  method CompareRatios(cur: Statement, prev: Statement) returns (changes: map<string, real>)
    ensures changes == RatioDiffs(cur, prev, RatioMetrics)
  {
    changes := map[];
    var j := 0;
    assert RatioDiffs(cur, prev, RatioMetrics[..0]) == map[];
    while j < |RatioMetrics|
      invariant 0 <= j <= |RatioMetrics|
      invariant changes == RatioDiffs(cur, prev, RatioMetrics[..j])
    {
      var m := RatioMetrics[j];
      var c, p := Field(cur, m), Field(prev, m);
      assert RatioMetrics[..j + 1] == RatioMetrics[..j] + [m];
      if c.Some? && p.Some? {
        changes := changes[DiffKey(m) := c.value - p.value];
        RatioDiffsGrow(cur, prev, RatioMetrics[..j], m);
      } else {
        RatioDiffsSkip(cur, prev, RatioMetrics[..j], m);
      }
      j := j + 1;
    }
    assert RatioMetrics[..j] == RatioMetrics;
  }

  lemma {:induction false} RatioDiffsGrow(cur: Statement, prev: Statement, done: seq<string>, m: string)
    requires RatioKept(cur, prev, m)
    ensures RatioDiffs(cur, prev, done + [m]) == RatioDiffs(cur, prev, done)[DiffKey(m) := Field(cur, m).value - Field(prev, m).value]
  {
    DiffKeyPrefix(m);
    var after := done + [m];
    assert DiffKeys(cur, prev, after) == DiffKeys(cur, prev, done) + {DiffKey(m)} by {
      forall k | k in DiffKeys(cur, prev, after) ensures k in DiffKeys(cur, prev, done) + {DiffKey(m)} {
        var m' :| m' in after && RatioKept(cur, prev, m') && DiffKey(m') == k;
        if m' != m { assert m' in done; }
      }
      forall k | k in DiffKeys(cur, prev, done) ensures k in DiffKeys(cur, prev, after) {
        var m' :| m' in done && RatioKept(cur, prev, m') && DiffKey(m') == k;
        assert m' in after;
      }
    }
    forall k | k in DiffKeys(cur, prev, done)
      ensures DiffOf(cur, prev, after, k) == DiffOf(cur, prev, done, k)
    {
      var m' :| m' in done && RatioKept(cur, prev, m') && DiffKey(m') == k;
      DiffKeyPrefix(m');
    }
  }

  lemma {:induction false} RatioDiffsSkip(cur: Statement, prev: Statement, done: seq<string>, m: string)
    requires !RatioKept(cur, prev, m)
    ensures RatioDiffs(cur, prev, done + [m]) == RatioDiffs(cur, prev, done)
  {
    var after := done + [m];
    assert DiffKeys(cur, prev, after) == DiffKeys(cur, prev, done) by {
      forall k | k in DiffKeys(cur, prev, after) ensures k in DiffKeys(cur, prev, done) {
        var m' :| m' in after && RatioKept(cur, prev, m') && DiffKey(m') == k;
        assert m' in done;
      }
      forall k | k in DiffKeys(cur, prev, done) ensures k in DiffKeys(cur, prev, after) {
        var m' :| m' in done && RatioKept(cur, prev, m') && DiffKey(m') == k;
        assert m' in after;
      }
    }
    forall k | k in DiffKeys(cur, prev, done)
      ensures DiffOf(cur, prev, after, k) == DiffOf(cur, prev, done, k)
    {
      var m' :| m' in done && RatioKept(cur, prev, m') && DiffKey(m') == k;
      DiffKeyPrefix(m');
    }
  }

  // ------------------------------------------------------------------- trends

  /** Figures with a trend label. */
  const TrendMetrics: seq<string> := ["revenue", "operating_income", "net_income", "roe", "operating_margin", "operating_cash_flow"]

  datatype Trend = Rising | Falling | Sideways

  /** The non-null values of a figure, newest first, skipping statements without figures. */
  function TrendValues(statements: seq<Statement>, metric: string): (v: seq<real>)
    ensures |v| <= |statements|
  {
    if |statements| == 0 then []
    else
      var rest := TrendValues(statements[1..], metric);
      var f := Field(statements[0], metric);
      if f.Some? then [f.value] + rest else rest
  }

  /** Adjacent pairs where the newer value is above the older one. */
  function CountRises(v: seq<real>): nat
  {
    if |v| < 2 then 0 else (if v[0] > v[1] then 1 else 0) + CountRises(v[1..])
  }

  /** Adjacent pairs where the newer value is below the older one. */
  function CountFalls(v: seq<real>): nat
  {
    if |v| < 2 then 0 else (if v[0] < v[1] then 1 else 0) + CountFalls(v[1..])
  }

  /** At least two rises is a rising trend, else at least two falls a falling one. */
  function Label(v: seq<real>): Trend
  {
    if CountRises(v) >= 2 then Rising else if CountFalls(v) >= 2 then Falling else Sideways
  }

  lemma {:induction false} RisesAndFallsFitPairs(v: seq<real>)
    ensures |v| >= 1 ==> CountRises(v) + CountFalls(v) <= |v| - 1
  {
    if |v| >= 2 {
      RisesAndFallsFitPairs(v[1..]);
    }
  }

  /** With at most four values there are at most three pairs, so the label is symmetric:
      falling exactly when there are two falls, rising exactly when there are two rises. */
  lemma {:induction false} LabelUnambiguous(v: seq<real>)
    requires 1 <= |v| <= 4
    ensures !(CountRises(v) >= 2 && CountFalls(v) >= 2)
    ensures Label(v) == Falling <==> CountFalls(v) >= 2
    ensures Label(v) == Rising <==> CountRises(v) >= 2
  {
    RisesAndFallsFitPairs(v);
  }

  /** Strictly increasing figures over three or more quarters read as rising. */
  lemma {:induction false} SteadyGrowthRises(v: seq<real>)
    requires |v| >= 3 && forall i :: 0 <= i < |v| - 1 ==> v[i] > v[i + 1]
    ensures Label(v) == Rising
  {
    assert v[1..][0] == v[1] && v[1..][1] == v[2];
    assert CountRises(v[1..]) == 1 + CountRises(v[1..][1..]);
  }

  /** The labels of `_analyze_trend`: a figure with at least three values gets its label. */
  function TrendMap(statements: seq<Statement>): (r: map<string, Trend>)
    ensures forall m :: m in r <==> m in TrendMetrics && |TrendValues(statements, m)| >= 3
    ensures forall m :: m in r ==> r[m] == Label(TrendValues(statements, m))
  {
    TrendsOver(statements, TrendMetrics)
  }

  /** The trend of every listed figure with at least three values. */
  function TrendsOver(statements: seq<Statement>, names: seq<string>): (r: map<string, Trend>)
    ensures forall m :: m in r <==> m in names && |TrendValues(statements, m)| >= 3
    ensures forall m :: m in r ==> r[m] == Label(TrendValues(statements, m))
  {
    map m | m in names && |TrendValues(statements, m)| >= 3 :: Label(TrendValues(statements, m))
  }

  /** Listing one more figure adds its trend when it has enough values, and nothing otherwise. */
  lemma {:induction false} TrendsOverSnoc(statements: seq<Statement>, names: seq<string>, m: string)
    ensures TrendsOver(statements, names + [m]) ==
              if |TrendValues(statements, m)| >= 3
              then TrendsOver(statements, names)[m := Label(TrendValues(statements, m))]
              else TrendsOver(statements, names)
  {
    assert forall k :: k in names + [m] <==> k in names || k == m;
  }

  /** The inner loop of `_analyze_trend`: the non-null values of one figure. */
  method CollectValues(statements: seq<Statement>, metric: string) returns (values: seq<real>)
    ensures values == TrendValues(statements, metric)
  {
    values := [];
    var i := |statements|;
    while i > 0
      invariant 0 <= i <= |statements|
      invariant values == TrendValues(statements[i..], metric)
    {
      i := i - 1;
      var f := Field(statements[i], metric);
      assert statements[i..][1..] == statements[i + 1..];
      if f.Some? {
        values := [f.value] + values;
      }
    }
  }

  /** `_analyze_trend`. */
  method AnalyzeTrend(statements: seq<Statement>) returns (trends: map<string, Trend>)
    ensures trends == TrendMap(statements)
  {
    trends := map[];
    var i := 0;
    while i < |TrendMetrics|
      invariant 0 <= i <= |TrendMetrics|
      invariant trends == TrendsOver(statements, TrendMetrics[..i])
    {
      var m := TrendMetrics[i];
      var values := CollectValues(statements, m);
      TrendsOverSnoc(statements, TrendMetrics[..i], m);
      if |values| >= 3 {
        trends := trends[m := Label(values)];
      }
      assert TrendMetrics[..i + 1] == TrendMetrics[..i] + [m];
      i := i + 1;
    }
    assert TrendMetrics[..i] == TrendMetrics;
  }

  // ------------------------------------------------------------- growth rates

  datatype Growth = Growth(qoq: map<string, real>, yoy: map<string, real>, trend: map<string, Trend>)

  /** `calculate_growth_rates`: nothing for fewer than two statements; the latest against the
      previous quarter, against the same quarter a year earlier when five are present, and the
      trend of the latest four when four are present. */
  function GrowthRates(statements: seq<Statement>): (r: Option<Growth>)
    ensures r.None? <==> |statements| < 2
    ensures r.Some? ==> r.value.qoq == ChangeMap(statements[0], statements[1])
    ensures r.Some? && |statements| >= 5 ==> r.value.yoy == ChangeMap(statements[0], statements[4])
    ensures r.Some? && |statements| < 5 ==> r.value.yoy == map[]
    ensures r.Some? && |statements| < 4 ==> r.value.trend == map[]
    ensures r.Some? && |statements| >= 4 ==> r.value.trend == TrendMap(statements[..4])
  {
    if |statements| < 2 then None
    else
      Some(Growth(
        ChangeMap(statements[0], statements[1]),
        if |statements| >= 5 then ChangeMap(statements[0], statements[4]) else map[],
        if |statements| >= 4 then TrendMap(statements[..4]) else map[]))
  }

  /** A trend label in the growth report never depends on a tie between rises and falls. */
  lemma {:induction false} GrowthTrendUnambiguous(statements: seq<Statement>, m: string)
    requires |statements| >= 4
    requires m in GrowthRates(statements).value.trend
    ensures var v := TrendValues(statements[..4], m);
            3 <= |v| <= 4 && !(CountRises(v) >= 2 && CountFalls(v) >= 2)
  {
    LabelUnambiguous(TrendValues(statements[..4], m));
  }

  // ------------------------------------------------------- additional metrics

  /** `calculate_additional_metrics`: each ratio only when its inputs are truthy and, for the
      divisions by interest, net income and revenue, positive; nothing without figures. */
  method AdditionalMetrics(s: Statement) returns (metrics: map<string, real>)
    ensures !HasData(s) ==> metrics == map[]
    ensures "current_ratio" in metrics <==> Truthy(Field(s, "current_assets")) && Truthy(Field(s, "current_liabilities"))
    ensures "current_ratio" in metrics ==>
              metrics["current_ratio"] == Field(s, "current_assets").value / Field(s, "current_liabilities").value * 100.0
    ensures "quick_ratio" in metrics <==>
              Truthy(Field(s, "current_assets")) && Truthy(Field(s, "inventories")) && Truthy(Field(s, "current_liabilities"))
    ensures "quick_ratio" in metrics ==>
              metrics["quick_ratio"] == (Field(s, "current_assets").value - Field(s, "inventories").value)
                                        / Field(s, "current_liabilities").value * 100.0
    ensures "equity_ratio" in metrics <==> Truthy(Field(s, "total_equity")) && Truthy(Field(s, "total_assets"))
    ensures "interest_coverage" in metrics <==>
              Truthy(Field(s, "operating_income")) && Truthy(Field(s, "interest_expense")) && Field(s, "interest_expense").value > 0.0
    ensures "equity_ratio" in metrics ==>
              metrics["equity_ratio"] == Field(s, "total_equity").value / Field(s, "total_assets").value * 100.0
    ensures "interest_coverage" in metrics ==>
              metrics["interest_coverage"] == Field(s, "operating_income").value / Field(s, "interest_expense").value
    ensures "quick_ratio" in metrics && Field(s, "inventories").value > 0.0 && Field(s, "current_liabilities").value > 0.0 ==>
              metrics["quick_ratio"] < metrics["current_ratio"]
    ensures "free_cash_flow" in metrics <==> Truthy(Field(s, "operating_cash_flow")) && Truthy(Field(s, "investing_cash_flow"))
    ensures "free_cash_flow" in metrics ==>
              metrics["free_cash_flow"] == Field(s, "operating_cash_flow").value + Field(s, "investing_cash_flow").value
              && "free_cash_flow_billions" in metrics && metrics["free_cash_flow_billions"] == metrics["free_cash_flow"] / 100000000.0
    ensures "cf_to_ni_ratio" in metrics <==>
              Truthy(Field(s, "operating_cash_flow")) && Truthy(Field(s, "net_income")) && Field(s, "net_income").value > 0.0
    ensures "cf_margin" in metrics <==>
              Truthy(Field(s, "operating_cash_flow")) && Truthy(Field(s, "revenue")) && Field(s, "revenue").value > 0.0
    ensures "cf_to_ni_ratio" in metrics ==>
              metrics["cf_to_ni_ratio"] == Field(s, "operating_cash_flow").value / Field(s, "net_income").value * 100.0
    ensures "cf_margin" in metrics ==>
              metrics["cf_margin"] == Field(s, "operating_cash_flow").value / Field(s, "revenue").value * 100.0
    ensures metrics.Keys <= BalanceKeys + CashFlowKeys
  {
    metrics := map[];
    if !HasData(s) {
      return;
    }
    var balance := BalanceRatios(s);
    var cash := CashFlowRatios(s);
    metrics := balance + cash;
  }

  const BalanceKeys: set<string> := {"current_ratio", "quick_ratio", "equity_ratio", "interest_coverage"}
  const CashFlowKeys: set<string> := {"free_cash_flow", "free_cash_flow_billions", "cf_to_ni_ratio", "cf_margin"}

  /** The balance-sheet half of `calculate_additional_metrics`. */
  method BalanceRatios(s: Statement) returns (metrics: map<string, real>)
    ensures "current_ratio" in metrics <==> Truthy(Field(s, "current_assets")) && Truthy(Field(s, "current_liabilities"))
    ensures "current_ratio" in metrics ==>
              metrics["current_ratio"] == Field(s, "current_assets").value / Field(s, "current_liabilities").value * 100.0
    ensures "quick_ratio" in metrics <==>
              Truthy(Field(s, "current_assets")) && Truthy(Field(s, "inventories")) && Truthy(Field(s, "current_liabilities"))
    ensures "quick_ratio" in metrics ==>
              metrics["quick_ratio"] == (Field(s, "current_assets").value - Field(s, "inventories").value)
                                        / Field(s, "current_liabilities").value * 100.0
    ensures "equity_ratio" in metrics <==> Truthy(Field(s, "total_equity")) && Truthy(Field(s, "total_assets"))
    ensures "interest_coverage" in metrics <==>
              Truthy(Field(s, "operating_income")) && Truthy(Field(s, "interest_expense")) && Field(s, "interest_expense").value > 0.0
    ensures "equity_ratio" in metrics ==>
              metrics["equity_ratio"] == Field(s, "total_equity").value / Field(s, "total_assets").value * 100.0
    ensures "interest_coverage" in metrics ==>
              metrics["interest_coverage"] == Field(s, "operating_income").value / Field(s, "interest_expense").value
    ensures "quick_ratio" in metrics && Field(s, "inventories").value > 0.0 && Field(s, "current_liabilities").value > 0.0 ==>
              metrics["quick_ratio"] < metrics["current_ratio"]
    ensures metrics.Keys <= BalanceKeys
  {
    metrics := map[];
    var ca, cl, inv := Field(s, "current_assets"), Field(s, "current_liabilities"), Field(s, "inventories");
    if Truthy(ca) && Truthy(cl) {
      metrics := metrics["current_ratio" := ca.value / cl.value * 100.0];
    }
    if Truthy(ca) && Truthy(inv) && Truthy(cl) {
      metrics := metrics["quick_ratio" := (ca.value - inv.value) / cl.value * 100.0];
      if inv.value > 0.0 && cl.value > 0.0 {
        QuickBelowCurrent(ca.value, inv.value, cl.value);
      }
    }
    var equity, assets := Field(s, "total_equity"), Field(s, "total_assets");
    if Truthy(equity) && Truthy(assets) {
      metrics := metrics["equity_ratio" := equity.value / assets.value * 100.0];
    }
    var op, interest := Field(s, "operating_income"), Field(s, "interest_expense");
    if Truthy(op) && Truthy(interest) && interest.value > 0.0 {
      metrics := metrics["interest_coverage" := op.value / interest.value];
    }
  }

  /** The cash-flow half of `calculate_additional_metrics`. */
  method CashFlowRatios(s: Statement) returns (metrics: map<string, real>)
    ensures "free_cash_flow" in metrics <==> Truthy(Field(s, "operating_cash_flow")) && Truthy(Field(s, "investing_cash_flow"))
    ensures "free_cash_flow" in metrics ==>
              metrics["free_cash_flow"] == Field(s, "operating_cash_flow").value + Field(s, "investing_cash_flow").value
              && "free_cash_flow_billions" in metrics && metrics["free_cash_flow_billions"] == metrics["free_cash_flow"] / 100000000.0
    ensures "cf_to_ni_ratio" in metrics <==>
              Truthy(Field(s, "operating_cash_flow")) && Truthy(Field(s, "net_income")) && Field(s, "net_income").value > 0.0
    ensures "cf_margin" in metrics <==>
              Truthy(Field(s, "operating_cash_flow")) && Truthy(Field(s, "revenue")) && Field(s, "revenue").value > 0.0
    ensures "cf_to_ni_ratio" in metrics ==>
              metrics["cf_to_ni_ratio"] == Field(s, "operating_cash_flow").value / Field(s, "net_income").value * 100.0
    ensures "cf_margin" in metrics ==>
              metrics["cf_margin"] == Field(s, "operating_cash_flow").value / Field(s, "revenue").value * 100.0
    ensures metrics.Keys <= CashFlowKeys
  {
    metrics := map[];
    var ocf, icf := Field(s, "operating_cash_flow"), Field(s, "investing_cash_flow");
    if Truthy(ocf) && Truthy(icf) {
      var fcf := ocf.value + icf.value;
      metrics := metrics["free_cash_flow" := fcf]["free_cash_flow_billions" := fcf / 100000000.0];
    }
    var ni := Field(s, "net_income");
    if Truthy(ocf) && Truthy(ni) && ni.value > 0.0 {
      metrics := metrics["cf_to_ni_ratio" := ocf.value / ni.value * 100.0];
    }
    var revenue := Field(s, "revenue");
    if Truthy(ocf) && Truthy(revenue) && revenue.value > 0.0 {
      metrics := metrics["cf_margin" := ocf.value / revenue.value * 100.0];
    }
  }

  /** Positive inventories make the quick ratio smaller than the current ratio when current
      liabilities are positive. */
  lemma {:induction false} QuickBelowCurrent(assets: real, inventories: real, liabilities: real)
    requires inventories > 0.0 && liabilities > 0.0
    ensures (assets - inventories) / liabilities * 100.0 < assets / liabilities * 100.0
  {
    assert (assets - inventories) / liabilities == assets / liabilities - inventories / liabilities;
    assert inventories / liabilities > 0.0;
  }

  // ----------------------------------------------------------- quarter labels

  /** The calendar quarter of a month. */
  function Quarter(month: Month): (q: int)
    ensures 1 <= q <= 4
    ensures 3 * (q - 1) < month <= 3 * q
  {
    (month - 1) / 3 + 1
  }

  /** The period labels of the four-quarter report, oldest first; no report (None) with
      fewer than four statements. */
  method PeriodLabels(statements: seq<Statement>) returns (labels: Option<seq<(int, int)>>)
    ensures labels.None? <==> |statements| < 4
    ensures labels.Some? ==> |labels.value| == 4
    ensures labels.Some? ==>
              forall i :: 0 <= i < 4 ==> labels.value[i] == (statements[3 - i].year, Quarter(statements[3 - i].month))
  {
    if |statements| < 4 {
      return None;
    }
    var periods: seq<(int, int)> := [];
    var i := 3;
    while i >= 0
      invariant -1 <= i <= 3 && |periods| == 3 - i
      invariant forall j :: 0 <= j < |periods| ==> periods[j] == (statements[3 - j].year, Quarter(statements[3 - j].month))
    {
      periods := periods + [(statements[i].year, Quarter(statements[i].month))];
      i := i - 1;
    }
    return Some(periods);
  }
}
