// Trailing-twelve-month valuation: the sums of the latest four quarterly statements,
// per-share figures, and fair-value bands at fixed price-earnings multiples.
module Valuation {
  import opened Wrappers
  import opened FinancialMetrics

  /** `data.get(key, 0)`: zero when the key is absent, the stored value (possibly null)
      otherwise. */
  function GetOrZero(s: Statement, key: string): Option<real>
    requires HasData(s)
  {
    if key in s.rawData.value then s.rawData.value[key] else Some(0.0)
  }

  /** The running sum of one figure over the statements with figures; None once a stored
      null would be added (Python raises TypeError there). */
  function SumOf(statements: seq<Statement>, key: string): Option<real>
  {
    if |statements| == 0 then Some(0.0)
    else
      var rest := SumOf(statements[..|statements| - 1], key);
      var last := statements[|statements| - 1];
      if !HasData(last) then rest
      else if rest.None? || GetOrZero(last, key).None? then None
      else Some(rest.value + GetOrZero(last, key).value)
  }

  /** The total equity of the most recent statement whose equity is truthy. */
  function LatestEquity(statements: seq<Statement>): Option<real>
  {
    if |statements| == 0 then None
    else
      var rest := LatestEquity(statements[..|statements| - 1]);
      var last := statements[|statements| - 1];
      if rest.Some? then rest
      else if Truthy(Field(last, "total_equity")) then Field(last, "total_equity")
      else None
  }

  /** The first statement, newest first, whose equity is truthy supplies the equity. */
  lemma {:induction false} LatestEquityIsFirstTruthy(statements: seq<Statement>, i: nat)
    requires i < |statements| && Truthy(Field(statements[i], "total_equity"))
    requires forall j :: 0 <= j < i ==> !Truthy(Field(statements[j], "total_equity"))
    ensures LatestEquity(statements) == Field(statements[i], "total_equity")
  {
    if i == |statements| - 1 {
      LatestEquityNone(statements[..i]);
    } else {
      var prefix := statements[..|statements| - 1];
      assert forall j :: 0 <= j < i ==> prefix[j] == statements[j];
      LatestEquityIsFirstTruthy(prefix, i);
    }
  }

  lemma {:induction false} LatestEquityNone(statements: seq<Statement>)
    requires forall j :: 0 <= j < |statements| ==> !Truthy(Field(statements[j], "total_equity"))
    ensures LatestEquity(statements) == None
  {
    if |statements| > 0 {
      var prefix := statements[..|statements| - 1];
      assert forall j :: 0 <= j < |prefix| ==> prefix[j] == statements[j];
      LatestEquityNone(prefix);
    }
  }

  datatype Ttm = Ttm(
    revenue: real,
    netIncome: real,
    operatingIncome: real,
    sharesOutstanding: real,
    eps: real,
    per: Option<real>,
    bps: real,
    pbr: Option<real>,
    totalEquity: Option<real>,
    quartersUsed: nat)

  /** The market capitalisation used: the one passed in when truthy, else the stored one
      when truthy, else none. */
  function MarketCap(given: Option<real>, stored: Option<real>): (c: Option<real>)
    ensures c.Some? <==> Truthy(given) || Truthy(stored)
    ensures c.Some? ==> c.value != 0.0
  {
    if Truthy(given) then given else if Truthy(stored) then stored else None
  }

  /** Per-share figures and multiples from the sums, the equity, the price and the market
      capitalisation; None when the share count is not positive. */
  function PerShare(revenue: real, netIncome: real, operatingIncome: real, equity: Option<real>,
                    price: real, cap: real): (r: Option<Ttm>)
    ensures r.Some? <==> price > 0.0 && cap / price > 0.0
    ensures r.Some? ==> r.value.sharesOutstanding > 0.0
                        && r.value.eps * r.value.sharesOutstanding == netIncome
    ensures r.Some? ==> (r.value.per.Some? <==> r.value.eps > 0.0)
    ensures r.Some? && r.value.per.Some? ==> r.value.per.value * r.value.eps == price
    ensures r.Some? ==> (r.value.pbr.Some? <==> r.value.bps > 0.0)
    ensures r.Some? && r.value.pbr.Some? ==> r.value.pbr.value * r.value.bps == price
    ensures r.Some? && !Truthy(equity) ==> r.value.bps == 0.0 && r.value.pbr.None?
  {
    var shares := if price > 0.0 then cap / price else 0.0;
    if shares <= 0.0 then None
    else
      var eps := netIncome / shares;
      var bps := if Truthy(equity) then equity.value / shares else 0.0;
      Some(Ttm(revenue, netIncome, operatingIncome, shares, eps,
               if eps > 0.0 then Some(price / eps) else None,
               bps,
               if bps > 0.0 then Some(price / bps) else None,
               equity, 4))
  }

  /** `calculate_ttm_metrics` over the statements newest first (only the latest four are
      read): no result with fewer than four statements or without a market capitalisation,
      and a TypeError when a summed figure is stored as null. */
  function TtmMetrics(statements: seq<Statement>, price: real, givenCap: Option<real>,
                      storedCap: Option<real>): (r: Result<Option<Ttm>>)
    ensures |statements| < 4 ==> r == Ok(None)
    ensures r.Err? ==> r.error == "TypeError"
    ensures r.Ok? && r.value.Some? ==>
              |statements| >= 4 && MarketCap(givenCap, storedCap).Some?
              && SumOf(statements[..4], "revenue") == Some(r.value.value.revenue)
              && SumOf(statements[..4], "net_income") == Some(r.value.value.netIncome)
              && SumOf(statements[..4], "operating_income") == Some(r.value.value.operatingIncome)
              && r.value.value.totalEquity == LatestEquity(statements[..4])
              && r.value.value.sharesOutstanding > 0.0
              && r.value.value.quartersUsed == 4
    ensures |statements| >= 4 ==>
              (r.Err? <==> SumOf(statements[..4], "revenue").None? || SumOf(statements[..4], "net_income").None?
                           || SumOf(statements[..4], "operating_income").None?)
    ensures r.Ok? && |statements| >= 4 && MarketCap(givenCap, storedCap).None? ==> r == Ok(None)
    ensures r.Ok? && |statements| >= 4 && MarketCap(givenCap, storedCap).Some? ==>
              r == Ok(PerShare(SumOf(statements[..4], "revenue").value, SumOf(statements[..4], "net_income").value,
                               SumOf(statements[..4], "operating_income").value, LatestEquity(statements[..4]),
                               price, MarketCap(givenCap, storedCap).value))
  {
    if |statements| < 4 then Ok(None)
    else
      var recent := statements[..4];
      var revenue, netIncome, operating :=
        SumOf(recent, "revenue"), SumOf(recent, "net_income"), SumOf(recent, "operating_income");
      if revenue.None? || netIncome.None? || operating.None? then Err("TypeError")
      else
        var cap := MarketCap(givenCap, storedCap);
        if cap.None? then Ok(None)
        else Ok(PerShare(revenue.value, netIncome.value, operating.value, LatestEquity(recent), price, cap.value))
  }

  /** The loop of `calculate_ttm_metrics`, then the per-share figures. */
  method CalculateTtmMetrics(statements: seq<Statement>, price: real, givenCap: Option<real>,
                             storedCap: Option<real>) returns (r: Result<Option<Ttm>>)
    ensures r == TtmMetrics(statements, price, givenCap, storedCap)
  {
    if |statements| < 4 {
      return Ok(None);
    }
    var recent := statements[..4];
    var revenue, netIncome, operating := 0.0, 0.0, 0.0;
    var equity: Option<real> := None;
    var i := 0;
    while i < |recent|
      invariant 0 <= i <= |recent|
      invariant SumOf(recent[..i], "revenue") == Some(revenue)
      invariant SumOf(recent[..i], "net_income") == Some(netIncome)
      invariant SumOf(recent[..i], "operating_income") == Some(operating)
      invariant LatestEquity(recent[..i]) == equity
    {
      var s := recent[i];
      assert recent[..i + 1][..i] == recent[..i];
      if HasData(s) {
        var rv, ni, oi := GetOrZero(s, "revenue"), GetOrZero(s, "net_income"), GetOrZero(s, "operating_income");
        if rv.None? || ni.None? || oi.None? {
          NullStaysNull(recent, i + 1);
          return Err("TypeError");
        }
        revenue, netIncome, operating := revenue + rv.value, netIncome + ni.value, operating + oi.value;
        if equity.None? && Truthy(Field(s, "total_equity")) {
          equity := Field(s, "total_equity");
        }
      }
      i := i + 1;
    }
    assert recent[..i] == recent;
    var cap := MarketCap(givenCap, storedCap);
    if cap.None? {
      return Ok(None);
    }
    return Ok(PerShare(revenue, netIncome, operating, equity, price, cap.value));
  }

  /** Once a running sum has hit a null it stays null for every longer prefix. */
  lemma {:induction false} NullStaysNull(statements: seq<Statement>, k: nat)
    requires 0 < k <= |statements|
    requires SumOf(statements[..k], "revenue").None? || SumOf(statements[..k], "net_income").None?
             || SumOf(statements[..k], "operating_income").None?
    ensures SumOf(statements, "revenue").None? || SumOf(statements, "net_income").None?
            || SumOf(statements, "operating_income").None?
    decreases |statements| - k
  {
    if k == |statements| {
      assert statements[..k] == statements;
    } else {
      var longer := statements[..k + 1];
      assert longer[..k] == statements[..k];
      NullStaysNull(statements, k + 1);
    }
  }

  // ------------------------------------------------------------- fair value

  datatype FairRange = FairRange(conservative: real, fair: real, optimistic: real)

  /** `calculate_fair_value`: the earnings per share at the low, middle and high multiple. */
  function FairValue(eps: real, perLow: real, perHigh: real): (r: FairRange)
    ensures r.conservative == Scaled(eps, perLow) && r.optimistic == Scaled(eps, perHigh)
    ensures r.fair == Scaled(eps, (perLow + perHigh) / 2.0)
  {
    FairRange(Scaled(eps, perLow), Scaled(eps, (perLow + perHigh) / 2.0), Scaled(eps, perHigh))
  }

  function Scaled(eps: real, multiple: real): real
  {
    eps * multiple
  }

  /** With non-negative earnings and an ordered range, the bands are ordered and the middle
      one is the average of the outer ones. */
  lemma {:induction false} FairValueOrdered(eps: real, perLow: real, perHigh: real)
    requires eps >= 0.0 && perLow <= perHigh
    ensures FairValue(eps, perLow, perHigh).conservative <= FairValue(eps, perLow, perHigh).fair
            <= FairValue(eps, perLow, perHigh).optimistic
    ensures FairValue(eps, perLow, perHigh).fair
            == (FairValue(eps, perLow, perHigh).conservative + FairValue(eps, perLow, perHigh).optimistic) / 2.0
  {
    var mid := (perLow + perHigh) / 2.0;
    assert perLow <= mid <= perHigh;
    ScaledMono(eps, perLow, mid);
    ScaledMono(eps, mid, perHigh);
    assert eps * mid == (eps * perLow + eps * perHigh) / 2.0;
  }

  lemma {:induction false} ScaledMono(eps: real, a: real, b: real)
    requires eps >= 0.0 && a <= b
    ensures Scaled(eps, a) <= Scaled(eps, b)
  {
    assert eps * b - eps * a == eps * (b - a);
    assert eps * (b - a) >= 0.0;
  }

  // ---------------------------------------------------------------- summary

  datatype Summary = Summary(
    ttm: Ttm,
    fairValueRange: FairRange,
    growthValueRange: FairRange,
    currentPrice: real,
    upsideConservative: Option<real>,
    upsideFair: Option<real>,
    upsideOptimistic: Option<real>)

  /** The percentage gap from the price up to a target; none unless the price is positive. */
  function Upside(target: real, price: real): (u: Option<real>)
    ensures u.Some? <==> price > 0.0
    ensures u.Some? ==> (u.value > 0.0 <==> target > price) && (u.value < 0.0 <==> target < price)
  {
    if price > 0.0 then
      var u := (target - price) / price * 100.0;
      assert (target - price) / price > 0.0 <==> target - price > 0.0;
      assert (target - price) / price < 0.0 <==> target - price < 0.0;
      Some(u)
    else None
  }

  /** `get_valuation_summary`: the trailing figures with fair values at 10 to 15 and growth
      values at 15 to 20 times earnings, and the upsides; none unless earnings are positive. */
  function ValuationSummary(statements: seq<Statement>, price: real, givenCap: Option<real>,
                            storedCap: Option<real>): (r: Result<Option<Summary>>)
    ensures r.Err? <==> TtmMetrics(statements, price, givenCap, storedCap).Err?
    ensures r.Ok? ==> (r.value.Some? <==> TtmMetrics(statements, price, givenCap, storedCap).value.Some?
                                          && TtmMetrics(statements, price, givenCap, storedCap).value.value.eps > 0.0)
    ensures r.Ok? && r.value.Some? ==>
              var s := r.value.value;
              s.ttm == TtmMetrics(statements, price, givenCap, storedCap).value.value
              && s.fairValueRange == FairValue(s.ttm.eps, 10.0, 15.0)
              && s.growthValueRange == FairValue(s.ttm.eps, 15.0, 20.0)
              && s.currentPrice == price
              && s.upsideConservative == Upside(s.fairValueRange.conservative, price)
              && s.upsideFair == Upside(s.fairValueRange.fair, price)
              && s.upsideOptimistic == Upside(s.fairValueRange.optimistic, price)
  {
    var ttm := TtmMetrics(statements, price, givenCap, storedCap);
    if ttm.Err? then Err(ttm.error)
    else if ttm.value.None? || ttm.value.value.eps <= 0.0 then Ok(None)
    else
      var t := ttm.value.value;
      var fair := FairValue(t.eps, 10.0, 15.0);
      Ok(Some(Summary(t, fair, FairValue(t.eps, 15.0, 20.0), price,
                      Upside(fair.conservative, price), Upside(fair.fair, price), Upside(fair.optimistic, price))))
  }

  /** The three upsides of a summary are ordered like the fair values they measure. */
  lemma {:induction false} UpsidesOrdered(statements: seq<Statement>, price: real, givenCap: Option<real>,
                                          storedCap: Option<real>)
    requires price > 0.0
    requires ValuationSummary(statements, price, givenCap, storedCap).Ok?
    requires ValuationSummary(statements, price, givenCap, storedCap).value.Some?
    ensures var s := ValuationSummary(statements, price, givenCap, storedCap).value.value;
            s.upsideConservative.value <= s.upsideFair.value <= s.upsideOptimistic.value
  {
    var s := ValuationSummary(statements, price, givenCap, storedCap).value.value;
    FairValueOrdered(s.ttm.eps, 10.0, 15.0);
    var f := s.fairValueRange;
    UpsideMono(f.conservative, f.fair, price);
    UpsideMono(f.fair, f.optimistic, price);
  }

  lemma {:induction false} UpsideMono(a: real, b: real, price: real)
    requires price > 0.0 && a <= b
    ensures Upside(a, price).value <= Upside(b, price).value
  {
    assert (b - price) / price - (a - price) / price == (b - a) / price;
    assert (b - a) / price >= 0.0;
  }
}
