// Comparison of a stock with the other stocks of its sector: the peer list, peer averages
// taken inside outlier bands, and the cheap/fair/expensive verdicts against those averages.
module PeerAnalysis {
  import opened Wrappers
  import opened SeriesMath

  datatype Stock = Stock(ticker: string, name: string, sector: Option<string>, marketCap: Option<real>)

  /** The columns of a stock's latest financial statement that the comparison reads. */
  datatype Figures = Figures(eps: Option<real>, totalEquity: Option<real>, totalLiabilities: Option<real>,
                             netIncome: Option<real>)

  /** The stored data: stocks in descending market-capitalisation order, and for each ticker
      its latest statement and latest close when it has one. */
  datatype PeerDb = PeerDb(stocks: seq<Stock>, statements: map<string, Figures>, closes: map<string, real>)

  const OtherSector: string := "기타"
  const Unclassified: string := "미분류"

  predicate TruthyText(s: Option<string>)
  {
    s.Some? && |s.value| > 0
  }

  /** The first stock with the ticker. */
  function FindStock(stocks: seq<Stock>, ticker: string): (r: Option<Stock>)
    ensures r.Some? <==> exists i :: 0 <= i < |stocks| && stocks[i].ticker == ticker
    ensures r.Some? ==> r.value in stocks && r.value.ticker == ticker
  {
    if |stocks| == 0 then None
    else if stocks[0].ticker == ticker then Some(stocks[0])
    else
      var r := FindStock(stocks[1..], ticker);
      assert forall i :: 1 <= i < |stocks| ==> stocks[i] == stocks[1..][i - 1];
      r
  }

  predicate IsPeer(s: Stock, sector: Option<string>, ticker: string)
  {
    s.sector == sector && s.ticker != ticker && s.marketCap.Some?
  }

  /** The stocks of the sector other than the ticker that have a market capitalisation,
      in stored order. */
  function SameSector(stocks: seq<Stock>, sector: Option<string>, ticker: string): (r: seq<Stock>)
    ensures forall s :: s in r <==> s in stocks && IsPeer(s, sector, ticker)
  {
    if |stocks| == 0 then []
    else
      var rest := SameSector(stocks[1..], sector, ticker);
      assert forall s :: s in stocks <==> s == stocks[0] || s in stocks[1..];
      if IsPeer(stocks[0], sector, ticker) then [stocks[0]] + rest else rest
  }

  predicate HasNoPeers(target: Option<Stock>)
  {
    target.None? || !TruthyText(target.value.sector) || target.value.sector.value == OtherSector
  }

  /** `get_peer_stocks`: nothing for an unknown, unclassified or "other" stock; otherwise the
      first `limit` stocks of the same sector, excluding itself, that carry a market cap. */
  function GetPeerStocks(db: PeerDb, ticker: string, limit: nat): (r: seq<Stock>)
    ensures HasNoPeers(FindStock(db.stocks, ticker)) ==> r == []
    ensures |r| <= limit
    ensures forall s :: s in r ==> s in db.stocks && IsPeer(s, FindStock(db.stocks, ticker).value.sector, ticker)
    ensures !HasNoPeers(FindStock(db.stocks, ticker)) ==>
              var all := SameSector(db.stocks, FindStock(db.stocks, ticker).value.sector, ticker);
              |r| == (if |all| <= limit then |all| else limit) && r == all[..|r|]
  {
    var target := FindStock(db.stocks, ticker);
    if HasNoPeers(target) then []
    else
      var all := SameSector(db.stocks, target.value.sector, ticker);
      var r := if |all| <= limit then all else all[..limit];
      assert forall s :: s in r ==> s in all;
      r
  }

  // ------------------------------------------------------------ peer metrics

  datatype Kind = Pe | Pb | Debt | Roe

  /** The open band outside which a sample is dropped as an outlier. */
  function Low(kind: Kind): real
  {
    match kind
    case Pe => 0.0
    case Pb => 0.0
    case Debt => 0.0
    case Roe => -50.0
  }

  function High(kind: Kind): real
  {
    match kind
    case Pe => 100.0
    case Pb => 10.0
    case Debt => 500.0
    case Roe => 100.0
  }

  function Within(x: real, kind: Kind): Option<real>
  {
    if Low(kind) < x < High(kind) then Some(x) else None
  }

  /** The price-to-book figure as the code computes it: the equity divided by the market cap
      taken as the book value per share. */
  function PbAsWritten(close: real, equity: real, cap: real): Option<real>
    requires cap != 0.0
  {
    var bps := equity / cap;
    if bps > 0.0 then Some(close / bps) else None
  }

  /** One peer's sample of a ratio, if its statement (and, for the price multiples, its
      close) yields one inside the band. */
  function Sample(db: PeerDb, p: Stock, kind: Kind): (r: Option<real>)
    ensures r.Some? ==> Low(kind) < r.value < High(kind)
    ensures r.Some? ==> p.ticker in db.statements
  {
    if p.ticker !in db.statements then None
    else
      var st := db.statements[p.ticker];
      var hasClose := p.ticker in db.closes;
      match kind
      case Pe =>
        if hasClose && Truthy(st.eps) && st.eps.value > 0.0 then Within(db.closes[p.ticker] / st.eps.value, Pe)
        else None
      case Pb =>
        if hasClose && Truthy(st.totalEquity) && Truthy(p.marketCap) then
          var pb := PbAsWritten(db.closes[p.ticker], st.totalEquity.value, p.marketCap.value);
          if pb.Some? then Within(pb.value, Pb) else None
        else None
      case Debt =>
        if Truthy(st.totalLiabilities) && Truthy(st.totalEquity) && st.totalEquity.value > 0.0 then
          Within(st.totalLiabilities.value / st.totalEquity.value * 100.0, Debt)
        else None
      case Roe =>
        if Truthy(st.netIncome) && Truthy(st.totalEquity) && st.totalEquity.value > 0.0 then
          Within(st.netIncome.value / st.totalEquity.value * 100.0, Roe)
        else None
  }

  /** The samples of a ratio over the peers, in peer order. */
  function Samples(db: PeerDb, peers: seq<Stock>, kind: Kind): (r: seq<real>)
    ensures |r| <= |peers|
  {
    if |peers| == 0 then []
    else
      var rest := Samples(db, peers[..|peers| - 1], kind);
      var s := Sample(db, peers[|peers| - 1], kind);
      if s.Some? then rest + [s.value] else rest
  }

  /** Every sample lies inside its band. */
  lemma {:induction false} SamplesInBand(db: PeerDb, peers: seq<Stock>, kind: Kind)
    ensures forall i :: 0 <= i < |Samples(db, peers, kind)| ==> Low(kind) < Samples(db, peers, kind)[i] < High(kind)
  {
    if |peers| > 0 {
      SamplesInBand(db, peers[..|peers| - 1], kind);
    }
  }

  /** Peers without a stored statement contribute no sample. */
  lemma {:induction false} NoStatementsNoSamples(db: PeerDb, peers: seq<Stock>, kind: Kind)
    requires forall i :: 0 <= i < |peers| ==> peers[i].ticker !in db.statements
    ensures Samples(db, peers, kind) == []
  {
    if |peers| > 0 {
      NoStatementsNoSamples(db, peers[..|peers| - 1], kind);
    }
  }

  /** The truthy market caps of the peers. */
  function Caps(peers: seq<Stock>): seq<real>
  {
    if |peers| == 0 then []
    else if Truthy(peers[|peers| - 1].marketCap) then Caps(peers[..|peers| - 1]) + [peers[|peers| - 1].marketCap.value]
    else Caps(peers[..|peers| - 1])
  }

  function AverageOrNone(s: seq<real>): (r: Option<real>)
    ensures r.None? <==> |s| == 0
  {
    if |s| == 0 then None else Some(Mean(s))
  }

  datatype PeerMetrics = PeerMetrics(count: nat, avgMarketCap: real, avgPe: Option<real>, avgPb: Option<real>,
                                     avgDebtRatio: Option<real>, avgRoe: Option<real>)

  /** `calculate_peer_metrics`: nothing for no peers; otherwise the peer count, the mean of
      the truthy market caps (0 when there is none) and the mean of each ratio's samples. */
  function PeerMetricsOf(db: PeerDb, peers: seq<Stock>): (r: Option<PeerMetrics>)
    ensures r.None? <==> |peers| == 0
    ensures r.Some? ==> r.value.count == |peers|
    ensures r.Some? ==> (r.value.avgMarketCap == if |Caps(peers)| == 0 then 0.0 else Mean(Caps(peers)))
    ensures r.Some? ==> r.value.avgPe == AverageOrNone(Samples(db, peers, Pe))
                        && r.value.avgPb == AverageOrNone(Samples(db, peers, Pb))
                        && r.value.avgDebtRatio == AverageOrNone(Samples(db, peers, Debt))
                        && r.value.avgRoe == AverageOrNone(Samples(db, peers, Roe))
  {
    if |peers| == 0 then None
    else
      Some(PeerMetrics(|peers|, if |Caps(peers)| == 0 then 0.0 else Mean(Caps(peers)),
                       AverageOrNone(Samples(db, peers, Pe)), AverageOrNone(Samples(db, peers, Pb)),
                       AverageOrNone(Samples(db, peers, Debt)), AverageOrNone(Samples(db, peers, Roe))))
  }

  /** Each average, when present, lies inside its outlier band. */
  lemma {:induction false} AveragesInBands(db: PeerDb, peers: seq<Stock>, kind: Kind)
    requires AverageOrNone(Samples(db, peers, kind)).Some?
    ensures Low(kind) < AverageOrNone(Samples(db, peers, kind)).value < High(kind)
  {
    SamplesInBand(db, peers, kind);
    MeanInsideBand(Samples(db, peers, kind), Low(kind), High(kind));
  }

  /** The loop of `calculate_peer_metrics` that gathers the four samples. */
  method CalculatePeerMetrics(db: PeerDb, peers: seq<Stock>) returns (r: Option<PeerMetrics>)
    ensures r == PeerMetricsOf(db, peers)
  {
    if |peers| == 0 {
      return None;
    }
    var caps := Caps(peers);
    var pe, pb, debt, roe := [], [], [], [];
    var i := 0;
    while i < |peers|
      invariant 0 <= i <= |peers|
      invariant pe == Samples(db, peers[..i], Pe) && pb == Samples(db, peers[..i], Pb)
      invariant debt == Samples(db, peers[..i], Debt) && roe == Samples(db, peers[..i], Roe)
    {
      var p := peers[i];
      assert peers[..i + 1][..i] == peers[..i];
      var s := Sample(db, p, Pe);
      if s.Some? { pe := pe + [s.value]; }
      s := Sample(db, p, Pb);
      if s.Some? { pb := pb + [s.value]; }
      s := Sample(db, p, Debt);
      if s.Some? { debt := debt + [s.value]; }
      s := Sample(db, p, Roe);
      if s.Some? { roe := roe + [s.value]; }
      i := i + 1;
    }
    assert peers[..i] == peers;
    var avgCap := if |caps| == 0 then 0.0 else Mean(caps);
    r := Some(PeerMetrics(|peers|, avgCap, AverageOrNone(pe), AverageOrNone(pb), AverageOrNone(debt), AverageOrNone(roe)));
  }

  /** With the price-to-book figure as written, a stock priced at 70,000 with 300 trillion of
      equity and a 400 trillion market cap gets a figure above 10 and is dropped, although its
      price is 1.33 times its book value. */
  lemma RealisticPeerHasNoPb()
    ensures PbAsWritten(70000.0, 300000000000000.0, 400000000000000.0).Some?
    ensures Within(PbAsWritten(70000.0, 300000000000000.0, 400000000000000.0).value, Pb).None?
  {
  }

  // -------------------------------------------------------------- comparison

  /** Below 0.8 times the sector average, above 1.2 times it, or in between. */
  datatype Relative = Below | Near | Above

  function Classify(x: real, avg: real): (r: Relative)
    ensures avg > 0.0 ==> (r == Near <==> avg * 0.8 <= x <= avg * 1.2)
    ensures avg > 0.0 && r == Below ==> x < avg
    ensures avg > 0.0 && r == Above ==> x > avg
  {
    if x < avg * 0.8 then Below else if x > avg * 1.2 then Above else Near
  }

  function Rank(r: Relative): nat
  {
    match r
    case Below => 0
    case Near => 1
    case Above => 2
  }

  /** Against a positive average the verdict is monotone in the figure and "near" means
      exactly within 0.8 to 1.2 times the average. */
  lemma {:induction false} ClassifyMonotone(x: real, y: real, avg: real)
    requires avg > 0.0 && x <= y
    ensures Rank(Classify(x, avg)) <= Rank(Classify(y, avg))
  {
  }

  datatype Verdict = Verdict(relative: Relative, target: real, sectorAverage: real)

  datatype Comparison = Comparison(pe: Option<Verdict>, debt: Option<Verdict>)

  datatype PeerReport = PeerReport(sector: string, peers: seq<Stock>, peerMetrics: Option<PeerMetrics>,
                                   comparison: Comparison)

  /** The price-earnings verdict: needs positive earnings and a truthy sector average. */
  function PeVerdict(st: Figures, close: real, m: PeerMetrics): (v: Option<Verdict>)
    ensures v.Some? <==> Truthy(st.eps) && st.eps.value > 0.0 && Truthy(m.avgPe)
    ensures v.Some? ==> v.value.target == close / st.eps.value && v.value.sectorAverage == m.avgPe.value
                        && v.value.relative == Classify(v.value.target, v.value.sectorAverage)
  {
    if Truthy(st.eps) && st.eps.value > 0.0 && Truthy(m.avgPe) then
      var t := close / st.eps.value;
      Some(Verdict(Classify(t, m.avgPe.value), t, m.avgPe.value))
    else None
  }

  /** The debt-ratio verdict: needs liabilities, positive equity and a truthy sector average.
      Below the band reads as good, above it as a caution. */
  function DebtVerdict(st: Figures, m: PeerMetrics): (v: Option<Verdict>)
    ensures v.Some? <==> Truthy(st.totalLiabilities) && Truthy(st.totalEquity) && st.totalEquity.value > 0.0
                         && Truthy(m.avgDebtRatio)
    ensures v.Some? ==> v.value.target == st.totalLiabilities.value / st.totalEquity.value * 100.0
                        && v.value.relative == Classify(v.value.target, m.avgDebtRatio.value)
  {
    if Truthy(st.totalLiabilities) && Truthy(st.totalEquity) && st.totalEquity.value > 0.0 && Truthy(m.avgDebtRatio) then
      var t := st.totalLiabilities.value / st.totalEquity.value * 100.0;
      Some(Verdict(Classify(t, m.avgDebtRatio.value), t, m.avgDebtRatio.value))
    else None
  }

  /** `compare_with_peers`: nothing for an unknown ticker; otherwise the sector (or
      "unclassified"), the ten largest peers, their metrics and the verdicts, which stay empty
      without peers, a statement of the stock or a close of the stock. */
  function CompareWithPeers(db: PeerDb, ticker: string): (r: Option<PeerReport>)
    ensures r.None? <==> FindStock(db.stocks, ticker).None?
    ensures r.Some? ==> r.value.peers == GetPeerStocks(db, ticker, 10)
                        && r.value.peerMetrics == PeerMetricsOf(db, r.value.peers)
    ensures r.Some? ==> r.value.sector == if TruthyText(FindStock(db.stocks, ticker).value.sector)
                                          then FindStock(db.stocks, ticker).value.sector.value else Unclassified
    ensures r.Some? && (|r.value.peers| == 0 || ticker !in db.statements || ticker !in db.closes) ==>
              r.value.comparison == Comparison(None, None)
    ensures r.Some? && |r.value.peers| > 0 && ticker in db.statements && ticker in db.closes ==>
              r.value.peerMetrics.Some?
              && r.value.comparison
                 == Comparison(PeVerdict(db.statements[ticker], db.closes[ticker], r.value.peerMetrics.value),
                               DebtVerdict(db.statements[ticker], r.value.peerMetrics.value))
    ensures r.Some? && r.value.comparison.pe.Some? ==>
              r.value.peerMetrics.Some? && r.value.peerMetrics.value.avgPe == Some(r.value.comparison.pe.value.sectorAverage)
    ensures r.Some? && r.value.comparison.debt.Some? ==>
              r.value.peerMetrics.Some?
              && r.value.peerMetrics.value.avgDebtRatio == Some(r.value.comparison.debt.value.sectorAverage)
  {
    var target := FindStock(db.stocks, ticker);
    if target.None? then None
    else
      var sector := if TruthyText(target.value.sector) then target.value.sector.value else Unclassified;
      var peers := GetPeerStocks(db, ticker, 10);
      if |peers| == 0 then Some(PeerReport(sector, [], None, Comparison(None, None)))
      else
        var metrics := PeerMetricsOf(db, peers);
        var comparison :=
          if ticker in db.statements && ticker in db.closes then
            Comparison(PeVerdict(db.statements[ticker], db.closes[ticker], metrics.value),
                       DebtVerdict(db.statements[ticker], metrics.value))
          else Comparison(None, None);
        Some(PeerReport(sector, peers, metrics, comparison))
  }

  /** A peer price-earnings verdict compares with an average strictly between 0 and 100. */
  lemma {:induction false} PeVerdictAgainstBandedAverage(db: PeerDb, ticker: string)
    requires CompareWithPeers(db, ticker).Some?
    requires CompareWithPeers(db, ticker).value.comparison.pe.Some?
    ensures 0.0 < CompareWithPeers(db, ticker).value.comparison.pe.value.sectorAverage < 100.0
  {
    var r := CompareWithPeers(db, ticker).value;
    AveragesInBands(db, r.peers, Pe);
  }
}
