// The near-real-time monitor: reading a quote out of the polling API's answer, the alert
// test against the previous observation, and one sweep over the watch list that records
// every fetched quote and counts the alerts.
module RealtimeMonitoring {
  import opened Wrappers
  import Monitor

  // --------------------------------------------------------------- quotes

  /** The fields of `result.areas[i].datas[j]` that are read: `nv` (price), `cv` (change),
      `cr` (change rate) and `aq` (volume); a missing field reads as 0. */
  datatype Item = Item(nv: Option<real>, cv: Option<real>, cr: Option<real>, aq: Option<int>)
  datatype Area = Area(datas: Option<seq<Item>>)
  datatype PollResult = PollResult(areas: Option<seq<Area>>)
  /** The decoded JSON body: None for a falsy body, else its optional `result` member. */
  datatype Response = Response(status: int, body: Option<Option<PollResult>>)

  datatype Quote = Quote(price: real, change: real, changeRate: real, volume: int, time: string)

  /** `get_realtime_price`: None when the request raised (`response` is None), the status is
      not 200, or any of `result`, `areas[0]`, `datas[0]` is missing; otherwise that item's
      fields, stamped with the clock reading `now`. */
  function GetRealtimePrice(response: Option<Response>, now: string): (q: Option<Quote>)
    ensures q.Some? <==>
              response.Some? && response.value.status == 200 && response.value.body.Some?
              && response.value.body.value.Some?
              && var res := response.value.body.value.value;
                 res.areas.Some? && |res.areas.value| > 0
                 && res.areas.value[0].datas.Some? && |res.areas.value[0].datas.value| > 0
    ensures q.Some? ==>
              var item := response.value.body.value.value.areas.value[0].datas.value[0];
              q.value == Quote(item.nv.UnwrapOr(0.0), item.cv.UnwrapOr(0.0), item.cr.UnwrapOr(0.0),
                               item.aq.UnwrapOr(0), now)
  {
    if response.None? || response.value.status != 200 then None
    else match response.value.body
      case None => None
      case Some(data) =>
        if data.None? then None
        else
          var result := data.value;
          if result.areas.None? || result.areas.value == [] then None
          else
            var area := result.areas.value[0];
            if area.datas.None? || area.datas.value == [] then None
            else
              var item := area.datas.value[0];
              Some(Quote(item.nv.UnwrapOr(0.0), item.cv.UnwrapOr(0.0), item.cr.UnwrapOr(0.0),
                         item.aq.UnwrapOr(0), now))
  }

  // ---------------------------------------------------------------- check

  /** The previous observation of a ticker: (price, volume, time). */
  datatype Observation = Observation(price: real, volume: int, time: string)

  datatype Alert = Alert(ticker: string, name: string, changePct: real, volumeRatio: real)

  /** `check_price_change`: no alert without a previous observation or with a previous price
      that is not positive; otherwise an alert, carrying the move and the volume ratio (100
      when the previous volume is not positive), iff the move reaches the threshold. */
  function CheckPriceChange(threshold: real, ticker: string, name: string, current: Quote,
                            last: Option<Observation>): (alert: Option<Alert>)
    ensures alert.Some? <==> last.Some? && last.value.price > 0.0
                             && Monitor.Abs(Monitor.PriceChange(last.value.price, current.price)) >= threshold
    ensures alert.Some? ==>
              alert.value.changePct == Monitor.PriceChange(last.value.price, current.price)
              && (last.value.volume <= 0 ==> alert.value.volumeRatio == 100.0)
              && (last.value.volume > 0 ==>
                    alert.value.volumeRatio * (last.value.volume as real) == (current.volume as real) * 100.0)
  {
    if last.None? || last.value.price <= 0.0 then None
    else
      var change := ((current.price - last.value.price) / last.value.price) * 100.0;
      var ratio := if last.value.volume > 0
                   then ((current.volume as real) / (last.value.volume as real)) * 100.0 else 100.0;
      if Monitor.Abs(change) >= threshold then Some(Alert(ticker, name, change, ratio)) else None
  }

  /** A price that does not move never alerts under a positive threshold. */
  lemma UnchangedPriceNoAlert(threshold: real, ticker: string, name: string, current: Quote, last: Observation)
    requires threshold > 0.0 && last.price == current.price
    ensures CheckPriceChange(threshold, ticker, name, current, Some(last)).None?
  {
  }

  // ---------------------------------------------------------------- sweep

  /** One watch-list entry of a sweep with the quote fetched for it (None on failure). */
  datatype Poll = Poll(ticker: string, name: string, current: Option<Quote>)

  /** The state after the first polls of a sweep: the last observations and the alerts. */
  function SweepState(threshold: real, prices: map<string, Observation>, polls: seq<Poll>)
    : (map<string, Observation>, seq<Alert>)
  {
    if |polls| == 0 then (prices, [])
    else
      var (before, alerts) := SweepState(threshold, prices, polls[..|polls| - 1]);
      var p := polls[|polls| - 1];
      if p.current.None? then (before, alerts)
      else
        var last := if p.ticker in before then Some(before[p.ticker]) else None;
        var alert := CheckPriceChange(threshold, p.ticker, p.name, p.current.value, last);
        var q := p.current.value;
        (before[p.ticker := Observed(q)],
         if alert.Some? then alerts + [alert.value] else alerts)
  }

  /** The observation a fetched quote is recorded as. */
  function Observed(q: Quote): Observation
  {
    Observation(q.price, q.volume, q.time)
  }

  /** One more poll changes only its own ticker's observation, and only when it fetched one. */
  lemma SweepStep(threshold: real, prices: map<string, Observation>, polls: seq<Poll>, t: string)
    requires |polls| > 0
    ensures var before := SweepState(threshold, prices, polls[..|polls| - 1]).0;
            var after := SweepState(threshold, prices, polls).0;
            var p := polls[|polls| - 1];
            if p.ticker == t && p.current.Some? then t in after && after[t] == Observed(p.current.value)
            else (t in after <==> t in before) && (t in before ==> after[t] == before[t])
  {
  }

  /** A ticker with no successful poll in a sweep keeps what it had. */
  lemma {:induction false} SweepKeepsUnpolled(threshold: real, prices: map<string, Observation>, polls: seq<Poll>, t: string)
    requires forall i :: 0 <= i < |polls| ==> polls[i].ticker != t || polls[i].current.None?
    ensures var after := SweepState(threshold, prices, polls).0;
            (t in after <==> t in prices) && (t in prices ==> after[t] == prices[t])
  {
    if |polls| > 0 {
      var prefix := polls[..|polls| - 1];
      assert forall i :: 0 <= i < |prefix| ==> prefix[i] == polls[i];
      SweepKeepsUnpolled(threshold, prices, prefix, t);
      SweepStep(threshold, prices, polls, t);
    }
  }

  /** After a sweep a ticker holds the quote of its last successful poll. */
  lemma {:induction false} SweepRecordsLastQuote(threshold: real, prices: map<string, Observation>, polls: seq<Poll>, t: string, i: nat)
    requires i < |polls| && polls[i].ticker == t && polls[i].current.Some?
    requires forall j :: i < j < |polls| ==> polls[j].ticker != t || polls[j].current.None?
    ensures var after := SweepState(threshold, prices, polls).0;
            t in after && after[t] == Observed(polls[i].current.value)
    decreases |polls|
  {
    SweepStep(threshold, prices, polls, t);
    if i < |polls| - 1 {
      var prefix := polls[..|polls| - 1];
      assert prefix[i] == polls[i];
      assert forall j :: i < j < |prefix| ==> prefix[j] == polls[j];
      SweepRecordsLastQuote(threshold, prices, prefix, t, i);
    }
  }

  /** Alerts come only from polls that fetched a quote. */
  lemma {:induction false} AlertsAtMostQuotes(threshold: real, prices: map<string, Observation>, polls: seq<Poll>)
    ensures |SweepState(threshold, prices, polls).1| <= |polls|
  {
    if |polls| > 0 {
      AlertsAtMostQuotes(threshold, prices, polls[..|polls| - 1]);
    }
  }

  class RealtimeMonitor {
    const priceThreshold: real
    var lastPrices: map<string, Observation>
    var checkCount: nat
    var alertCount: nat

    constructor (priceThreshold: real)
      ensures this.priceThreshold == priceThreshold && lastPrices == map[]
      ensures checkCount == 0 && alertCount == 0
    {
      this.priceThreshold := priceThreshold;
      lastPrices := map[];
      checkCount := 0;
      alertCount := 0;
    }

    /** One pass of the `monitor_stocks` loop: every fetched quote is checked against the
        ticker's previous observation and then recorded; a failed fetch is skipped; the alert
        count grows by the number of alerts sent. */
    method Sweep(polls: seq<Poll>) returns (sent: seq<Alert>)
      modifies this
      ensures (lastPrices, sent) == SweepState(priceThreshold, old(lastPrices), polls)
      ensures checkCount == old(checkCount) + 1
      ensures alertCount == old(alertCount) + |sent|
    {
      checkCount := checkCount + 1;
      sent := [];
      for i := 0 to |polls|
        invariant (lastPrices, sent) == SweepState(priceThreshold, old(lastPrices), polls[..i])
        invariant checkCount == old(checkCount) + 1
        invariant alertCount == old(alertCount) + |sent|
      {
        assert polls[..i + 1][..i] == polls[..i];
        var p := polls[i];
        if p.current.None? {
          continue;
        }
        var current := p.current.value;
        var last := if p.ticker in lastPrices then Some(lastPrices[p.ticker]) else None;
        var alert := CheckPriceChange(priceThreshold, p.ticker, p.name, current, last);
        if alert.Some? {
          alertCount := alertCount + 1;
          sent := sent + [alert.value];
        }
        lastPrices := lastPrices[p.ticker := Observed(current)];
      }
      assert polls[..|polls|] == polls;
    }
  }
}
