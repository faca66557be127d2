// The polling price monitor: the per-ticker last observation, the threshold alert on the
// percentage move since that observation, and the average traded volume behind the
// volume ratio of an alert.
module Monitor {
  import opened Wrappers
  import opened SeriesMath

  function Abs(x: real): real { if x < 0.0 then -x else x }

  /** The move from `last` to `curr` in percent of `last`. */
  function PriceChange(last: real, curr: real): (r: real)
    requires last != 0.0
    ensures r * last == (curr - last) * 100.0
  {
    ((curr - last) / last) * 100.0
  }

  /** The alert test |move| >= threshold, stated without the division: |curr - last|·100 is
      at least threshold·|last|. */
  lemma AlertWithoutDivision(last: real, curr: real, threshold: real)
    requires last != 0.0
    ensures Abs(PriceChange(last, curr)) >= threshold <==> Abs(curr - last) * 100.0 >= threshold * Abs(last)
  {
    var q := (curr - last) / last;
    assert q * last == curr - last;
    assert Abs(q * last) == Abs(q) * Abs(last);
    assert Abs(q * 100.0) == Abs(q) * 100.0;
    if Abs(q) * 100.0 >= threshold {
      assert Abs(q) * 100.0 * Abs(last) >= threshold * Abs(last);
    } else {
      assert Abs(q) * 100.0 * Abs(last) < threshold * Abs(last);
    }
  }

  // ------------------------------------------------------------- volumes

  /** How many records hold a present, non-zero volume. */
  function TruthyCount(records: seq<Option<real>>): nat
  {
    if |records| == 0 then 0
    else TruthyCount(records[..|records| - 1]) + (if Truthy(records[|records| - 1]) then 1 else 0)
  }

  /** The recorded volumes that are present and non-zero, in order. */
  function TruthyVolumes(records: seq<Option<real>>): (v: seq<real>)
    ensures |v| <= |records|
    ensures v == [] <==> forall i :: 0 <= i < |records| ==> !Truthy(records[i])
    ensures forall k :: 0 <= k < |v| ==> exists i :: 0 <= i < |records| && records[i] == Some(v[k]) && v[k] != 0.0
  {
    if |records| == 0 then []
    else
      var before := TruthyVolumes(records[..|records| - 1]);
      var last := records[|records| - 1];
      assert forall i :: 0 <= i < |records| - 1 ==> records[i] == records[..|records| - 1][i];
      if Truthy(last) then before + [last.value] else before
  }

  /** One volume is kept per truthy record. */
  lemma {:induction false} TruthyVolumesCount(records: seq<Option<real>>)
    ensures |TruthyVolumes(records)| == TruthyCount(records)
  {
    if |records| > 0 {
      TruthyVolumesCount(records[..|records| - 1]);
    }
  }

  /** Every truthy volume is kept, once and in order: the truthy record at `i` lands right
      after the volumes of the truthy records before it. */
  lemma {:induction false} TruthyVolumeKept(records: seq<Option<real>>, i: nat)
    requires i < |records| && Truthy(records[i])
    ensures TruthyCount(records[..i]) < |TruthyVolumes(records)|
    ensures TruthyVolumes(records)[TruthyCount(records[..i])] == records[i].value
  {
    var n := |records| - 1;
    var prefix := records[..n];
    var v, before := TruthyVolumes(records), TruthyVolumes(prefix);
    assert v == if Truthy(records[n]) then before + [records[n].value] else before;
    if i < n {
      TruthyVolumeKept(prefix, i);
      assert records[..i] == prefix[..i];
    } else {
      TruthyVolumesCount(prefix);
      assert records[..i] == prefix;
    }
  }

  /** `get_average_volume` on the volumes of the recent price rows: none without rows or
      without a truthy volume, otherwise their mean. */
  function AverageVolume(records: seq<Option<real>>): (avg: Option<real>)
    ensures avg.None? <==> forall i :: 0 <= i < |records| ==> !Truthy(records[i])
  {
    var v := TruthyVolumes(records);
    if |records| == 0 || v == [] then None else Some(Mean(v))
  }

  /** Volumes are never negative, so an average that exists is positive. */
  lemma AverageVolumePositive(records: seq<Option<real>>)
    requires forall i :: 0 <= i < |records| && records[i].Some? ==> records[i].value >= 0.0
    ensures AverageVolume(records).Some? ==> AverageVolume(records).value > 0.0
  {
    var v := TruthyVolumes(records);
    if v != [] {
      forall k | 0 <= k < |v| ensures v[k] > 0.0 {
        var i :| 0 <= i < |records| && records[i] == Some(v[k]) && v[k] != 0.0;
      }
      SumPositive(v);
    }
  }

  lemma {:induction false} SumPositive(s: seq<real>)
    requires |s| > 0 && forall k :: 0 <= k < |s| ==> s[k] > 0.0
    ensures Sum(s) > 0.0
  {
    if |s| > 1 {
      SumPositive(s[1..]);
    }
  }

  /** The loop of `get_average_volume`. */
  method GetAverageVolume(records: seq<Option<real>>) returns (avg: Option<real>)
    ensures avg == AverageVolume(records)
  {
    if |records| == 0 {
      return None;
    }
    var volumes: seq<real> := [];
    for i := 0 to |records|
      invariant volumes == TruthyVolumes(records[..i])
    {
      assert records[..i + 1][..i] == records[..i];
      if Truthy(records[i]) {
        volumes := volumes + [records[i].value];
      }
    }
    assert records[..|records|] == records;
    if volumes == [] {
      return None;
    }
    avg := Some(Sum(volumes) / |volumes| as real);
  }

  /** The volume ratio of an alert: current over average in percent, or 100 without a
      positive average. */
  function VolumeRatio(currVolume: real, avg: Option<real>): (ratio: real)
    ensures avg.None? || avg.value <= 0.0 ==> ratio == 100.0
    ensures avg.Some? && avg.value > 0.0 ==> ratio * avg.value == currVolume * 100.0
  {
    if avg.Some? && avg.value > 0.0 then (currVolume / avg.value) * 100.0 else 100.0
  }

  // ------------------------------------------------------------- monitor

  /** The notification an alert sends. */
  datatype Alert = Alert(ticker: string, name: string, changePct: real, volumeRatio: real)

  class PriceMonitor {
    const priceThreshold: real
    const volumeThreshold: real
    /** ticker -> (price, volume) at its last successful check. */
    var lastPrices: map<string, (real, real)>

    constructor (priceThreshold: real, volumeThreshold: real)
      ensures this.priceThreshold == priceThreshold && this.volumeThreshold == volumeThreshold
      ensures lastPrices == map[]
    {
      this.priceThreshold := priceThreshold;
      this.volumeThreshold := volumeThreshold;
      lastPrices := map[];
    }

    /** `check_price_change`, given the fetched (price, volume) (None when the fetch failed)
        and the recent volume records. Without a quote nothing changes; the first quote of a
        ticker is only recorded; afterwards the quote is recorded and an alert is sent iff
        the move reaches the threshold. A previous price of 0 raises (`Err`) before anything
        is recorded. */
    method CheckPriceChange(ticker: string, name: string, current: Option<(real, real)>,
                            records: seq<Option<real>>) returns (r: Result<bool>, sent: Option<Alert>)
      modifies this
      ensures current.None? ==> r == Ok(false) && sent.None? && lastPrices == old(lastPrices)
      ensures current.Some? && ticker !in old(lastPrices) ==>
                r == Ok(false) && sent.None? && lastPrices == old(lastPrices)[ticker := current.value]
      ensures current.Some? && ticker in old(lastPrices) && old(lastPrices)[ticker].0 == 0.0 ==>
                r.Err? && sent.None? && lastPrices == old(lastPrices)
      ensures current.Some? && ticker in old(lastPrices) && old(lastPrices)[ticker].0 != 0.0 ==>
                var change := PriceChange(old(lastPrices)[ticker].0, current.value.0);
                lastPrices == old(lastPrices)[ticker := current.value]
                && r == Ok(Abs(change) >= priceThreshold)
                && (sent.Some? <==> r == Ok(true))
                && (sent.Some? ==> sent.value == Alert(ticker, name, change,
                                                        VolumeRatio(current.value.1, AverageVolume(records))))
    {
      sent := None;
      if current.None? {
        return Ok(false), None;
      }
      var (currPrice, currVolume) := current.value;
      if ticker !in lastPrices {
        lastPrices := lastPrices[ticker := (currPrice, currVolume)];
        return Ok(false), None;
      }
      var (lastPrice, lastVolume) := lastPrices[ticker];
      if lastPrice == 0.0 {
        return Err("division by zero"), None;
      }
      var priceChange := ((currPrice - lastPrice) / lastPrice) * 100.0;
      var avgVolume := GetAverageVolume(records);
      var volumeRatio := if avgVolume.Some? && avgVolume.value > 0.0 then (currVolume / avgVolume.value) * 100.0 else 100.0;
      if Abs(priceChange) >= priceThreshold {
        sent := Some(Alert(ticker, name, priceChange, volumeRatio));
        lastPrices := lastPrices[ticker := (currPrice, currVolume)];
        return Ok(true), sent;
      }
      lastPrices := lastPrices[ticker := (currPrice, currVolume)];
      r := Ok(false);
    }
  }
}
