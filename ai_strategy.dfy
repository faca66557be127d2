// The composite-indicator strategy: four indicator families vote between -1 and +1,
// the votes are averaged by weight into a score in [-1, 1], and the score is compared
// with a buy and a sell threshold.
module AiStrategy {
  import opened Wrappers
  import opened BacktestEngine
  import opened Strategies

  /** The indicator dictionary handed to the scorer: names to possibly-null values. */
  type Indicators = map<string, Option<real>>

  /** The keys `get_technical_indicators` fills; `rsi` carries the `rsi_14` column. */
  const IndicatorKeys: set<string> := {
    "sma_20", "sma_50", "sma_200", "rsi", "macd", "macd_signal", "bb_upper", "bb_middle", "bb_lower"
  }

  /** The indicators of a known stock on a date, or None without a stored row. */
  function GetTechnicalIndicators(db: MarketDb, ticker: string, date: int): (r: Option<Indicators>)
    ensures r.Some? <==> RowAt(db, ticker, date).Some?
    ensures r.Some? ==> r.value.Keys == IndicatorKeys
    ensures r.Some? ==> r.value["rsi"] == LookupIndicator(db, ticker, date, "rsi_14")
    ensures r.Some? ==> forall k :: k in r.value && k != "rsi" ==> r.value[k] == LookupIndicator(db, ticker, date, k)
  {
    match RowAt(db, ticker, date)
    case None => None
    case Some(row) => Some(IndicatorsOf(row))
  }

  /** The indicator dictionary read off one stored row: each key reads the row's column of
      the same name, except `rsi`, which reads `rsi_14`. */
  function IndicatorsOf(row: IndicatorRow): (ind: Indicators)
    ensures ind.Keys == IndicatorKeys
    ensures ind["rsi"] == Attr(row, "rsi_14")
    ensures forall k :: k in ind && k != "rsi" ==> ind[k] == Attr(row, k)
  {
    map k | k in IndicatorKeys :: Attr(row, if k == "rsi" then "rsi_14" else k)
  }

  /** `dict.get(key)`: an absent key reads as None. */
  function Get(ind: Indicators, key: string): Option<real>
  {
    if key in ind then ind[key] else None
  }

  /** One indicator family's say: its weight (0 when it sits out) and its vote. */
  datatype Vote = Vote(weight: real, value: real)

  const SmaWeight: real := 0.3
  const RsiWeight: real := 0.25
  const MacdWeight: real := 0.25
  const BandWeight: real := 0.2

  /** Trend: the close above a rising short average is a full buy vote. */
  function SmaVote(price: real, fast: real, slow: real): (r: real)
    ensures -1.0 <= r <= 1.0
    ensures r > 0.0 <==> price > fast
    ensures r < 0.0 <==> price < fast
  {
    if price > fast && fast > slow then 1.0
    else if price > fast then 0.5
    else if price < fast && fast < slow then -1.0
    else if price < fast then -0.5
    else 0.0
  }

  /** Oscillator: oversold buys, overbought sells, with half votes in the 30-40 and 60-70 bands. */
  function RsiVote(rsi: real): (r: real)
    ensures -1.0 <= r <= 1.0
    ensures r > 0.0 <==> rsi < 40.0
    ensures r < 0.0 <==> rsi > 60.0
  {
    if rsi < 30.0 then 1.0
    else if rsi < 40.0 then 0.5
    else if rsi > 70.0 then -1.0
    else if rsi > 60.0 then -0.5
    else 0.0
  }

  /** MACD over its signal is bullish, fully so above zero. */
  function MacdVote(macd: real, signal: real): (r: real)
    ensures -1.0 <= r <= 1.0
    ensures r > 0.0 <==> macd > signal
    ensures r < 0.0 <==> macd < signal
  {
    if macd > signal && macd > 0.0 then 1.0
    else if macd > signal then 0.5
    else if macd < signal && macd < 0.0 then -1.0
    else if macd < signal then -0.5
    else 0.0
  }

  /** Bands: under the lower band buys, over the upper sells, 0.3 either side of the
      middle. Comparing the close with a null middle raises a TypeError. */
  function BandVote(price: real, upper: real, lower: real, middle: Option<real>): (r: Result<real>)
    ensures r.Err? <==> price >= lower && middle.None?
  {
    if price < lower then Ok(1.0)
    else if middle.None? then Err("TypeError")
    else if price < middle.value then Ok(0.3)
    else if price > upper then Ok(-1.0)
    else if price > middle.value then Ok(-0.3)
    else Ok(0.0)
  }

  /** The middle band used: the stored one when the key is present (even if null),
      otherwise the midpoint of the outer bands. */
  function Middle(ind: Indicators, upper: real, lower: real): Option<real>
  {
    if "bb_middle" in ind then ind["bb_middle"] else Some((upper + lower) / 2.0)
  }

  /** The trend family: it takes part when both averages are truthy. */
  function SmaTerm(price: real, ind: Indicators): (v: Vote)
    ensures ValidVote(v)
    ensures v.weight > 0.0 <==> Truthy(Get(ind, "sma_20")) && Truthy(Get(ind, "sma_50"))
  {
    if Truthy(Get(ind, "sma_20")) && Truthy(Get(ind, "sma_50"))
    then Vote(SmaWeight, SmaVote(price, Get(ind, "sma_20").value, Get(ind, "sma_50").value))
    else Vote(0.0, 0.0)
  }

  function RsiTerm(ind: Indicators): (v: Vote)
    ensures ValidVote(v)
    ensures v.weight > 0.0 <==> Truthy(Get(ind, "rsi"))
  {
    if Truthy(Get(ind, "rsi")) then Vote(RsiWeight, RsiVote(Get(ind, "rsi").value)) else Vote(0.0, 0.0)
  }

  function MacdTerm(ind: Indicators): (v: Vote)
    ensures ValidVote(v)
    ensures v.weight > 0.0 <==> Truthy(Get(ind, "macd")) && Truthy(Get(ind, "macd_signal"))
  {
    if Truthy(Get(ind, "macd")) && Truthy(Get(ind, "macd_signal"))
    then Vote(MacdWeight, MacdVote(Get(ind, "macd").value, Get(ind, "macd_signal").value))
    else Vote(0.0, 0.0)
  }

  /** The band family, or the TypeError its null middle band raises. */
  function BandTerm(price: real, ind: Indicators): (r: Result<Vote>)
    ensures r.Err? ==> r.error == "TypeError"
    ensures r.Ok? ==> ValidVote(r.value)
    ensures r.Ok? ==> (r.value.weight > 0.0 <==> Truthy(Get(ind, "bb_upper")) && Truthy(Get(ind, "bb_lower")))
  {
    if Truthy(Get(ind, "bb_upper")) && Truthy(Get(ind, "bb_lower")) then
      var upper := Get(ind, "bb_upper").value;
      var lower := Get(ind, "bb_lower").value;
      match BandVote(price, upper, lower, Middle(ind, upper, lower))
      case Err(e) => Err(e)
      case Ok(v) => Ok(Vote(BandWeight, v))
    else Ok(Vote(0.0, 0.0))
  }

  /** The family weights: 0.3 for the trend, 0.25 for RSI and MACD, 0.2 for the bands, each
      counted only when its family takes part. */
  lemma TermWeights(price: real, ind: Indicators)
    ensures SmaTerm(price, ind).weight == if Truthy(Get(ind, "sma_20")) && Truthy(Get(ind, "sma_50")) then 0.3 else 0.0
    ensures RsiTerm(ind).weight == if Truthy(Get(ind, "rsi")) then 0.25 else 0.0
    ensures MacdTerm(ind).weight == if Truthy(Get(ind, "macd")) && Truthy(Get(ind, "macd_signal")) then 0.25 else 0.0
    ensures BandTerm(price, ind).Ok? ==>
              BandTerm(price, ind).value.weight == if Truthy(Get(ind, "bb_upper")) && Truthy(Get(ind, "bb_lower")) then 0.2 else 0.0
  {
  }

  /** The four weighted votes in order; a family whose inputs are not all truthy sits out. */
  function Votes(price: real, ind: Indicators): (r: Result<seq<Vote>>)
    ensures r.Err? <==> BandTerm(price, ind).Err?
    ensures r.Err? ==> r.error == "TypeError"
    ensures r.Ok? ==> |r.value| == 4 && forall i :: 0 <= i < 4 ==> ValidVote(r.value[i])
  {
    match BandTerm(price, ind)
    case Err(e) => Err(e)
    case Ok(band) => Ok([SmaTerm(price, ind), RsiTerm(ind), MacdTerm(ind), band])
  }

  predicate ValidVote(v: Vote)
  {
    v.weight >= 0.0 && -1.0 <= v.value <= 1.0
  }

  function TotalWeight(vs: seq<Vote>): real
  {
    if |vs| == 0 then 0.0 else vs[0].weight + TotalWeight(vs[1..])
  }

  function Contribution(v: Vote): real
  {
    v.weight * v.value
  }

  function WeightedSum(vs: seq<Vote>): real
  {
    if |vs| == 0 then 0.0 else Contribution(vs[0]) + WeightedSum(vs[1..])
  }

  /** Votes in [-1, 1] with non-negative weights have a weighted sum within the total weight. */
  lemma {:induction false} WeightedSumBounded(vs: seq<Vote>)
    requires forall i :: 0 <= i < |vs| ==> ValidVote(vs[i])
    ensures TotalWeight(vs) >= 0.0
    ensures -TotalWeight(vs) <= WeightedSum(vs) <= TotalWeight(vs)
  {
    if |vs| > 0 {
      var rest := vs[1..];
      assert forall i :: 0 <= i < |rest| ==> ValidVote(rest[i]) by {
        forall i | 0 <= i < |rest| ensures ValidVote(rest[i]) {
          assert rest[i] == vs[i + 1];
        }
      }
      WeightedSumBounded(rest);
      VoteBounded(vs[0]);
      assert TotalWeight(vs) == vs[0].weight + TotalWeight(rest);
      assert WeightedSum(vs) == Contribution(vs[0]) + WeightedSum(rest);
    }
  }

  lemma {:induction false} VoteBounded(v: Vote)
    requires ValidVote(v)
    ensures -v.weight <= Contribution(v) <= v.weight
  {
    if v.value >= 0.0 {
      assert v.weight * v.value <= v.weight * 1.0;
    } else {
      assert v.weight * v.value >= v.weight * -1.0;
    }
  }

  /** The weighted mean of the votes that take part; 0 when none does. */
  function WeightedMean(vs: seq<Vote>): (m: real)
    requires forall i :: 0 <= i < |vs| ==> ValidVote(vs[i])
    ensures -1.0 <= m <= 1.0
  {
    WeightedSumBounded(vs);
    var w := TotalWeight(vs);
    if w > 0.0 then
      MeanBounded(WeightedSum(vs), w);
      WeightedSum(vs) / w
    else 0.0
  }

  lemma {:induction false} MeanBounded(s: real, w: real)
    requires w > 0.0 && -w <= s <= w
    ensures -1.0 <= s / w <= 1.0
  {
    assert s / w <= w / w;
    assert -w / w <= s / w;
    assert w / w == 1.0;
  }

  /** `max(-1, min(1, x))`. */
  function Clamp(x: real): (r: real)
    ensures -1.0 <= r <= 1.0
    ensures -1.0 <= x <= 1.0 ==> r == x
  {
    if x > 1.0 then 1.0 else if x < -1.0 then -1.0 else x
  }

  /** The composite score: the clamped weighted mean of the votes, or the TypeError a
      null middle band raises. The clamp never changes the mean. */
  function AiScore(price: real, ind: Indicators): (r: Result<real>)
    ensures r.Ok? ==> -1.0 <= r.value <= 1.0
    ensures r.Err? <==> Votes(price, ind).Err?
    ensures r.Ok? ==> r.value == WeightedMean(Votes(price, ind).value)
  {
    var votes := Votes(price, ind);
    if votes.Err? then Err(votes.error) else Ok(Clamp(WeightedMean(votes.value)))
  }

  lemma {:induction false} SumsOfFour(a: Vote, b: Vote, c: Vote, d: Vote)
    ensures TotalWeight([a, b, c, d]) == a.weight + b.weight + c.weight + d.weight
    ensures WeightedSum([a, b, c, d]) == Contribution(a) + Contribution(b) + Contribution(c) + Contribution(d)
  {
    assert [a, b, c, d][1..] == [b, c, d];
    assert [b, c, d][1..] == [c, d];
    assert [c, d][1..] == [d];
    assert [d][1..] == [];
    assert TotalWeight([d]) == d.weight;
    assert TotalWeight([c, d]) == c.weight + d.weight;
    assert TotalWeight([b, c, d]) == b.weight + c.weight + d.weight;
    assert WeightedSum([d]) == Contribution(d);
    assert WeightedSum([c, d]) == Contribution(c) + Contribution(d);
    assert WeightedSum([b, c, d]) == Contribution(b) + Contribution(c) + Contribution(d);
  }

  /** Score block 1: the trend vote, weight 0.3. */
  method AddSmaVote(price: real, ind: Indicators, score: real, weightSum: real) returns (score': real, weightSum': real)
    ensures score' == score + Contribution(SmaTerm(price, ind))
    ensures weightSum' == weightSum + SmaTerm(price, ind).weight
  {
    score', weightSum' := score, weightSum;
    if Truthy(Get(ind, "sma_20")) && Truthy(Get(ind, "sma_50")) {
      var fast := Get(ind, "sma_20").value;
      var slow := Get(ind, "sma_50").value;
      if price > fast && fast > slow {
        score' := score' + 1.0 * 0.3;
      } else if price > fast {
        score' := score' + 0.5 * 0.3;
      } else if price < fast && fast < slow {
        score' := score' - 1.0 * 0.3;
      } else if price < fast {
        score' := score' - 0.5 * 0.3;
      }
      weightSum' := weightSum' + 0.3;
    }
  }

  /** Score block 2: the RSI vote, weight 0.25. */
  method AddRsiVote(ind: Indicators, score: real, weightSum: real) returns (score': real, weightSum': real)
    ensures score' == score + Contribution(RsiTerm(ind))
    ensures weightSum' == weightSum + RsiTerm(ind).weight
  {
    score', weightSum' := score, weightSum;
    if Truthy(Get(ind, "rsi")) {
      var rsi := Get(ind, "rsi").value;
      if rsi < 30.0 {
        score' := score' + 1.0 * 0.25;
      } else if rsi < 40.0 {
        score' := score' + 0.5 * 0.25;
      } else if rsi > 70.0 {
        score' := score' - 1.0 * 0.25;
      } else if rsi > 60.0 {
        score' := score' - 0.5 * 0.25;
      }
      weightSum' := weightSum' + 0.25;
    }
  }

  /** Score block 3: the MACD vote, weight 0.25. */
  method AddMacdVote(ind: Indicators, score: real, weightSum: real) returns (score': real, weightSum': real)
    ensures score' == score + Contribution(MacdTerm(ind))
    ensures weightSum' == weightSum + MacdTerm(ind).weight
  {
    score', weightSum' := score, weightSum;
    if Truthy(Get(ind, "macd")) && Truthy(Get(ind, "macd_signal")) {
      var macd := Get(ind, "macd").value;
      var signal := Get(ind, "macd_signal").value;
      if macd > signal && macd > 0.0 {
        score' := score' + 1.0 * 0.25;
      } else if macd > signal {
        score' := score' + 0.5 * 0.25;
      } else if macd < signal && macd < 0.0 {
        score' := score' - 1.0 * 0.25;
      } else if macd < signal {
        score' := score' - 0.5 * 0.25;
      }
      weightSum' := weightSum' + 0.25;
    }
  }

  /** Score block 4: the band vote, weight 0.2, or the TypeError of a null middle band. */
  method AddBandVote(price: real, ind: Indicators, score: real, weightSum: real) returns (r: Result<(real, real)>)
    ensures r.Err? <==> BandTerm(price, ind).Err?
    ensures r.Err? ==> r.error == "TypeError"
    ensures r.Ok? ==> r.value.0 == score + Contribution(BandTerm(price, ind).value)
                      && r.value.1 == weightSum + BandTerm(price, ind).value.weight
  {
    var score', weightSum' := score, weightSum;
    if Truthy(Get(ind, "bb_upper")) && Truthy(Get(ind, "bb_lower")) {
      var upper := Get(ind, "bb_upper").value;
      var lower := Get(ind, "bb_lower").value;
      var middle := Middle(ind, upper, lower);
      if price < lower {
        score' := score' + 1.0 * 0.2;
      } else if middle.None? {
        return Err("TypeError");
      } else if price < middle.value {
        score' := score' + 0.3 * 0.2;
      } else if price > upper {
        score' := score' - 1.0 * 0.2;
      } else if price > middle.value {
        score' := score' - 0.3 * 0.2;
      }
      weightSum' := weightSum' + 0.2;
    }
    return Ok((score', weightSum'));
  }

  /** `calculate_ai_score`: the running score and weight sum, normalised and clamped. */
  method CalculateAiScore(price: real, ind: Indicators) returns (r: Result<real>)
    ensures r == AiScore(price, ind)
  {
    var score := 0.0;
    var weightSum := 0.0;
    score, weightSum := AddSmaVote(price, ind, score, weightSum);
    score, weightSum := AddRsiVote(ind, score, weightSum);
    score, weightSum := AddMacdVote(ind, score, weightSum);
    var band := AddBandVote(price, ind, score, weightSum);
    if band.Err? {
      return Err(band.error);
    }
    score, weightSum := band.value.0, band.value.1;
    var vs := [SmaTerm(price, ind), RsiTerm(ind), MacdTerm(ind), BandTerm(price, ind).value];
    assert Votes(price, ind) == Ok(vs);
    SumsOfFour(vs[0], vs[1], vs[2], vs[3]);
    assert score == WeightedSum(vs) && weightSum == TotalWeight(vs);
    if weightSum > 0.0 {
      score := score / weightSum;
    }
    var capped := if 1.0 < score then 1.0 else score;
    r := Ok(if -1.0 > capped then -1.0 else capped);
  }

  /** With no truthy indicator the score is neutral. */
  lemma {:induction false} NoIndicatorsNeutral(price: real, ind: Indicators)
    requires forall k :: k in ind ==> !Truthy(ind[k])
    ensures AiScore(price, ind) == Ok(0.0)
  {
    var vs := Votes(price, ind).value;
    SumsOfFour(vs[0], vs[1], vs[2], vs[3]);
    assert vs == [vs[0], vs[1], vs[2], vs[3]];
  }

  /** When every family takes part and votes fully bullish, the score is exactly 1. */
  lemma {:induction false} UnanimousBuyScoresOne(price: real, ind: Indicators)
    requires Votes(price, ind).Ok?
    requires forall i :: 0 <= i < 4 ==> Votes(price, ind).value[i] .weight > 0.0 && Votes(price, ind).value[i].value == 1.0
    ensures AiScore(price, ind) == Ok(1.0)
  {
    var vs := Votes(price, ind).value;
    SumsOfFour(vs[0], vs[1], vs[2], vs[3]);
    assert vs == [vs[0], vs[1], vs[2], vs[3]];
    assert WeightedSum(vs) == TotalWeight(vs);
  }

  /** `ai_signal_strategy`: any exception while scoring is caught and reads as hold. */
  function AiSignal(db: Option<MarketDb>, ticker: Option<string>, date: int, price: real, cash: real, shares: real,
                    buyThreshold: real, sellThreshold: real): (r: Action)
    ensures r == Buy ==> shares == 0.0 && !Missing(db, ticker)
    ensures r == Sell ==> shares > 0.0 && !Missing(db, ticker)
    ensures r != Hold ==> var ind := GetTechnicalIndicators(db.value, ticker.value, date);
                          ind.Some? && AiScore(price, ind.value).Ok?
                          && (r == Buy ==> AiScore(price, ind.value).value >= buyThreshold)
                          && (r == Sell ==> AiScore(price, ind.value).value <= sellThreshold)
    ensures Missing(db, ticker) ==> r == Hold
    ensures !Missing(db, ticker) ==>
              var ind := GetTechnicalIndicators(db.value, ticker.value, date);
              (ind.None? || AiScore(price, ind.value).Err? ==> r == Hold)
              && (ind.Some? && AiScore(price, ind.value).Ok? ==>
                    var score := AiScore(price, ind.value).value;
                    (r == Buy <==> score >= buyThreshold && shares == 0.0)
                    && (r == Sell <==> !(score >= buyThreshold && shares == 0.0) && score <= sellThreshold && shares > 0.0))
  {
    if Missing(db, ticker) then Hold
    else match GetTechnicalIndicators(db.value, ticker.value, date)
      case None => Hold
      case Some(ind) =>
        match AiScore(price, ind)
        case Err(_) => Hold
        case Ok(score) =>
          if score >= buyThreshold && shares == 0.0 then Buy
          else if score <= sellThreshold && shares > 0.0 then Sell
          else Hold
  }

  const DefaultBuyThreshold: real := 0.4
  const DefaultSellThreshold: real := -0.4

  /** A buy threshold above 1 or a sell threshold below -1 can never be reached. */
  lemma {:induction false} UnreachableThresholds(db: Option<MarketDb>, ticker: Option<string>, date: int, price: real,
                                                 cash: real, shares: real, buyThreshold: real, sellThreshold: real)
    requires buyThreshold > 1.0 && sellThreshold < -1.0
    ensures AiSignal(db, ticker, date, price, cash, shares, buyThreshold, sellThreshold) == Hold
  {
  }

  /** The stored row always carries a `bb_middle` key, so a null middle band with truthy outer
      bands and a close at or above the lower band makes the scorer raise, and the strategy holds. */
  lemma {:induction false} NullMiddleBandHolds(db: MarketDb, ticker: string, date: int, price: real, cash: real, shares: real,
                                              buyThreshold: real, sellThreshold: real)
    requires ticker != "" && RowAt(db, ticker, date).Some?
    requires var row := RowAt(db, ticker, date).value;
             Truthy(Attr(row, "bb_upper")) && Truthy(Attr(row, "bb_lower"))
             && Attr(row, "bb_middle") == None && price >= Attr(row, "bb_lower").value
    ensures AiSignal(Some(db), Some(ticker), date, price, cash, shares, buyThreshold, sellThreshold) == Hold
  {
    var ind := GetTechnicalIndicators(db, ticker, date).value;
    assert Get(ind, "bb_upper") == Attr(RowAt(db, ticker, date).value, "bb_upper");
    assert Get(ind, "bb_lower") == Attr(RowAt(db, ticker, date).value, "bb_lower");
    assert "bb_middle" in ind && ind["bb_middle"] == None;
  }

  /** The AI strategy bound to a database and ticker, in the engine's strategy shape. */
  function BindAi(db: Option<MarketDb>, ticker: Option<string>, buyThreshold: real, sellThreshold: real): Strategy
  {
    (d, p, c, s) => Ok(AiSignal(db, ticker, d, p, c, s, buyThreshold, sellThreshold))
  }

  /** The AI strategy buys only while flat and sells only while long, so its ledger alternates. */
  lemma {:induction false} AiLedgerAlternates(cfg: Config, db: MarketDb, ticker: string, buyThreshold: real, sellThreshold: real,
                                              prices: seq<PricePoint>)
    requires SaneConfig(cfg) && forall i :: 0 <= i < |prices| ==> prices[i].close > 0.0
    requires Simulate(cfg, BindAi(Some(db), Some(ticker), buyThreshold, sellThreshold), prices).Ok?
    ensures Alternates(Simulate(cfg, BindAi(Some(db), Some(ticker), buyThreshold, sellThreshold), prices).value)
  {
    var f := BindAi(Some(db), Some(ticker), buyThreshold, sellThreshold);
    forall d, p, c, s
      ensures (f(d, p, c, s) == Ok(Buy) ==> s == 0.0) && (f(d, p, c, s) == Ok(Sell) ==> s > 0.0)
    {
      assert f(d, p, c, s) == Ok(AiSignal(Some(db), Some(ticker), d, p, c, s, buyThreshold, sellThreshold));
    }
    GatedLedgerAlternates(cfg, f, prices);
  }
}
