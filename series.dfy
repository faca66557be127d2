// Running maximum, drawdown and percentage change of a value series, as pandas'
// `cummax`, `(s - cummax) / cummax`, `min` and `pct_change().dropna()` compute them.
module SeriesMath {

  predicate AllPositive(v: seq<real>)
  {
    forall t :: 0 <= t < |v| ==> v[t] > 0.0
  }

  predicate NonDecreasing(v: seq<real>)
  {
    forall s, t :: 0 <= s <= t < |v| ==> v[s] <= v[t]
  }

  function Max(a: real, b: real): real { if a >= b then a else b }

  /** Position of the running peak: the largest of v[0..t] sits at this index. */
  function PeakIndex(v: seq<real>, t: nat): (k: nat)
    requires t < |v|
    ensures k <= t
    ensures forall s :: 0 <= s <= t ==> v[s] <= v[k]
  {
    if t == 0 then 0
    else
      var k := PeakIndex(v, t - 1);
      if v[t] >= v[k] then t else k
  }

  /** `series.cummax()`: entry t is the largest of v[0..t]. */
  function CumMax(v: seq<real>): (c: seq<real>)
    ensures |c| == |v|
    ensures forall t :: 0 <= t < |v| ==> c[t] == v[PeakIndex(v, t)]
  {
    seq(|v|, t requires 0 <= t < |v| => v[PeakIndex(v, t)])
  }

  /** `(series - cummax) / cummax` for a positive series. */
  function Drawdowns(v: seq<real>): (d: seq<real>)
    requires AllPositive(v)
    ensures |d| == |v|
    ensures forall t :: 0 <= t < |v| ==> -1.0 < d[t] <= 0.0
  {
    var c := CumMax(v);
    var d := seq(|v|, t requires 0 <= t < |v| => (v[t] - c[t]) / c[t]);
    assert forall t :: 0 <= t < |v| ==> -1.0 < d[t] <= 0.0 by {
      forall t | 0 <= t < |v| ensures -1.0 < d[t] <= 0.0 {
        RelativeFall(v[t], c[t]);
      }
    }
    d
  }

  lemma {:induction false} RelativeFall(x: real, peak: real)
    requires 0.0 < x <= peak
    ensures -1.0 < (x - peak) / peak <= 0.0
  {
    var q := (x - peak) / peak;
    assert q * peak == x - peak;
  }

  /** `min()` of a non-empty sequence. */
  function SeqMin(s: seq<real>): (m: real)
    requires |s| > 0
    ensures forall k :: 0 <= k < |s| ==> m <= s[k]
    ensures exists k :: 0 <= k < |s| && m == s[k]
  {
    if |s| == 1 then s[0]
    else
      var m := SeqMin(s[1..]);
      assert forall k :: 1 <= k < |s| ==> s[k] == s[1..][k - 1];
      if s[0] <= m then s[0] else m
  }

  /** `drawdown.min()`: the deepest fall below the running peak. */
  function MaxDrawdown(v: seq<real>): (m: real)
    requires |v| > 0 && AllPositive(v)
    ensures -1.0 < m <= 0.0
  {
    var d := Drawdowns(v);
    assert SeqMin(d) <= d[0];
    SeqMin(d)
  }

  /** The drawdown is zero exactly when the series never falls. */
  lemma {:induction false} MaxDrawdownZeroIff(v: seq<real>)
    requires |v| > 0 && AllPositive(v)
    ensures MaxDrawdown(v) == 0.0 <==> NonDecreasing(v)
  {
    var d := Drawdowns(v);
    if NonDecreasing(v) {
      forall t | 0 <= t < |v| ensures d[t] == 0.0 {
        DrawdownAt(v, t);
      }
      assert d[0] == 0.0;
    }
    if MaxDrawdown(v) == 0.0 {
      forall s, t | 0 <= s <= t < |v| ensures v[s] <= v[t] {
        DrawdownAt(v, t);
      }
    }
  }

  /** Day t is at its running peak exactly when its drawdown is zero. */
  lemma {:induction false} DrawdownAt(v: seq<real>, t: nat)
    requires AllPositive(v) && t < |v|
    ensures Drawdowns(v)[t] == 0.0 <==> forall s :: 0 <= s <= t ==> v[s] <= v[t]
  {
    var k := PeakIndex(v, t);
    assert Drawdowns(v)[t] == (v[t] - v[k]) / v[k];
    ZeroFall(v[t], v[k]);
  }

  lemma {:induction false} ZeroFall(x: real, peak: real)
    requires 0.0 < x <= peak
    ensures (x - peak) / peak == 0.0 <==> x == peak
  {
    var q := (x - peak) / peak;
    assert q * peak == x - peak;
  }

  /** `series.pct_change().dropna()` for a positive series: one return per consecutive pair. */
  function PctChange(v: seq<real>): (r: seq<real>)
    requires AllPositive(v)
    ensures |r| == if |v| == 0 then 0 else |v| - 1
  {
    if |v| < 2 then [] else [(v[1] - v[0]) / v[0]] + PctChange(v[1..])
  }

  /** Return `i` is the growth factor from value `i` to value `i + 1`, minus one; it is positive iff the series rose. */
  lemma {:induction false} PctChangeAt(v: seq<real>, i: nat)
    requires AllPositive(v) && i + 1 < |v|
    ensures PctChange(v)[i] == (v[i + 1] - v[i]) / v[i]
    ensures 1.0 + PctChange(v)[i] == v[i + 1] / v[i]
    ensures PctChange(v)[i] > 0.0 <==> v[i + 1] > v[i]
  {
    if i == 0 {
      OnePlusChange(v[0], v[1]);
    } else {
      assert AllPositive(v[1..]);
      PctChangeAt(v[1..], i - 1);
      assert v[1..][i - 1] == v[i] && v[1..][i] == v[i + 1];
    }
  }

  /** 1 + (b - a)/a is the growth factor b/a, and the change is positive iff b > a. */
  lemma {:induction false} OnePlusChange(a: real, b: real)
    requires a > 0.0
    ensures 1.0 + (b - a) / a == b / a
    ensures (b - a) / a > 0.0 <==> b > a
  {
    var q := (b - a) / a;
    assert q * a == b - a;
    var p := b / a;
    assert p * a == b;
    assert (q + 1.0) * a == q * a + a;
    Cancel(q + 1.0, p, a);
  }

  lemma {:induction false} Cancel(x: real, y: real, k: real)
    requires k != 0.0 && x * k == y * k
    ensures x == y
  {
    assert (x - y) * k == 0.0;
  }

  function Sum(s: seq<real>): real
  {
    if |s| == 0 then 0.0 else s[0] + Sum(s[1..])
  }

  /** The arithmetic mean of a non-empty sample. */
  function Mean(s: seq<real>): real
    requires |s| > 0
  {
    Sum(s) / |s| as real
  }

  lemma {:induction false} SumAppend(s: seq<real>, x: real)
    ensures Sum(s + [x]) == Sum(s) + x
  {
    if |s| > 0 {
      assert (s + [x])[1..] == s[1..] + [x];
      SumAppend(s[1..], x);
    }
  }

  /** A mean of values strictly inside an open band lies strictly inside it. */
  lemma {:induction false} MeanInsideBand(s: seq<real>, lo: real, hi: real)
    requires |s| > 0 && forall i :: 0 <= i < |s| ==> lo < s[i] < hi
    ensures lo < Mean(s) < hi
  {
    SumInsideBand(s, lo, hi);
    var n := |s| as real;
    assert Sum(s) / n > (lo * n) / n;
    assert Sum(s) / n < (hi * n) / n;
  }

  lemma {:induction false} SumInsideBand(s: seq<real>, lo: real, hi: real)
    requires |s| > 0 && forall i :: 0 <= i < |s| ==> lo < s[i] < hi
    ensures lo * (|s| as real) < Sum(s) < hi * (|s| as real)
  {
    if |s| > 1 {
      SumInsideBand(s[1..], lo, hi);
    }
  }
}
