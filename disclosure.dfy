// The disclosure collector: which filings are major, how they are classified, and the
// paging loop that stores new major filings of known stocks.
module Disclosure {
  import opened Wrappers
  import opened Text

  /** Report-name keywords of a major filing; the first one, "실적" (results), is part of
      the two results keywords after it. */
  const MajorKeywords: seq<string> :=
    ["실적", "잠정실적", "영업실적", "유상증자", "무상증자", "자사주", "주식분할", "주식병합", "배당"]

  /** The keywords that give a filing a class of its own: all but the bare "실적". */
  const ClassKeywords: seq<string> := MajorKeywords[1..]

  /** `_is_major_disclosure`. */
  predicate IsMajor(reportName: string): (major: bool)
    ensures major <==> exists i :: 0 <= i < |MajorKeywords| && Contains(reportName, MajorKeywords[i])
  {
    AnyContainedIff(reportName, MajorKeywords);
    AnyContained(reportName, MajorKeywords)
  }

  datatype Kind =
    | Earnings       // 실적발표
    | RightsIssue    // 유상증자
    | BonusIssue     // 무상증자
    | TreasuryBuy    // 자사주취득
    | TreasurySale   // 자사주처분
    | Treasury       // 자사주
    | StockSplit     // 주식분할
    | ReverseSplit   // 주식병합
    | Dividend       // 배당
    | Other          // 기타

  function KindLabel(k: Kind): string
  {
    match k
    case Earnings => "실적발표"
    case RightsIssue => "유상증자"
    case BonusIssue => "무상증자"
    case TreasuryBuy => "자사주취득"
    case TreasurySale => "자사주처분"
    case Treasury => "자사주"
    case StockSplit => "주식분할"
    case ReverseSplit => "주식병합"
    case Dividend => "배당"
    case Other => "기타"
  }

  /** `_classify_disclosure`: the first matching rule in a fixed priority order; a filing is
      classified 기타 exactly when none of the class keywords occurs in it. */
  function Classify(reportName: string): (k: Kind)
    ensures k == Other <==> forall i :: 0 <= i < |ClassKeywords| ==> !Contains(reportName, ClassKeywords[i])
  {
    var ks := ClassKeywords;
    assert ks[0] == "잠정실적" && ks[1] == "영업실적" && ks[2] == "유상증자" && ks[3] == "무상증자";
    assert ks[4] == "자사주" && ks[5] == "주식분할" && ks[6] == "주식병합" && ks[7] == "배당";
    if Contains(reportName, "잠정실적") || Contains(reportName, "영업실적") then Earnings
    else if Contains(reportName, "유상증자") then RightsIssue
    else if Contains(reportName, "무상증자") then BonusIssue
    else if Contains(reportName, "자사주") then
      if Contains(reportName, "취득") || Contains(reportName, "매입") then TreasuryBuy
      else if Contains(reportName, "처분") || Contains(reportName, "소각") then TreasurySale
      else Treasury
    else if Contains(reportName, "주식분할") then StockSplit
    else if Contains(reportName, "주식병합") then ReverseSplit
    else if Contains(reportName, "배당") then Dividend
    else Other
  }

  /** A filing is major exactly when it mentions "실적" or has a class other than 기타; so
      every class but 기타 is major, and 기타 is major only through a bare "실적". */
  lemma MajorIff(reportName: string)
    ensures IsMajor(reportName) <==> Contains(reportName, "실적") || Classify(reportName) != Other
  {
    if exists i :: 0 <= i < |ClassKeywords| && Contains(reportName, ClassKeywords[i]) {
      var i :| 0 <= i < |ClassKeywords| && Contains(reportName, ClassKeywords[i]);
      assert MajorKeywords[i + 1] == ClassKeywords[i];
    }
    if exists i :: 0 <= i < |MajorKeywords| && Contains(reportName, MajorKeywords[i]) {
      var i :| 0 <= i < |MajorKeywords| && Contains(reportName, MajorKeywords[i]);
      if i > 0 {
        assert ClassKeywords[i - 1] == MajorKeywords[i];
      }
    }
  }

  /** The treasury-stock filings: 취득/매입 before 처분/소각, otherwise plain 자사주. */
  lemma TreasurySplit(reportName: string)
    requires Contains(reportName, "자사주")
    requires !Contains(reportName, "잠정실적") && !Contains(reportName, "영업실적")
    requires !Contains(reportName, "유상증자") && !Contains(reportName, "무상증자")
    ensures Classify(reportName) in {TreasuryBuy, TreasurySale, Treasury}
    ensures Classify(reportName) == TreasuryBuy <==> Contains(reportName, "취득") || Contains(reportName, "매입")
    ensures Classify(reportName) == Treasury ==>
              !Contains(reportName, "처분") && !Contains(reportName, "소각")
  {
  }

  // ------------------------------------------------------------ stock lookup

  /** A listed stock: its database id and ticker. */
  datatype Stock = Stock(id: int, ticker: string)

  /** The first stock with the ticker, as the lookup query returns it. */
  function StockByTicker(stocks: seq<Stock>, ticker: string): (r: Option<Stock>)
    ensures r.Some? <==> exists i :: 0 <= i < |stocks| && stocks[i].ticker == ticker
    ensures r.Some? ==> r.value in stocks && r.value.ticker == ticker
  {
    if |stocks| == 0 then None
    else if stocks[0].ticker == ticker then Some(stocks[0])
    else
      var r := StockByTicker(stocks[1..], ticker);
      assert forall i :: 1 <= i < |stocks| ==> stocks[i] == stocks[1..][i - 1];
      r
  }

  /** `_find_stock_by_corp_code`: the company code's ticker from the mapping, then its stock;
      a missing code or an unmapped one gives nothing. */
  function FindStock(mapping: map<string, string>, stocks: seq<Stock>, corpCode: Option<string>): (r: Option<Stock>)
    ensures r.Some? <==> corpCode.Some? && corpCode.value in mapping
                         && exists i :: 0 <= i < |stocks| && stocks[i].ticker == mapping[corpCode.value]
    ensures r.Some? ==> r.value in stocks && r.value.ticker == mapping[corpCode.value]
  {
    if corpCode.Some? && corpCode.value in mapping then StockByTicker(stocks, mapping[corpCode.value])
    else None
  }

  // ---------------------------------------------------------------- collecting

  /** One element of a `list.json` page. */
  datatype Filing = Filing(corpCode: Option<string>, rceptNo: string, reportName: string)

  /** A stored disclosure row. */
  datatype Saved = Saved(stockId: int, rceptNo: string, corpCode: Option<string>, reportName: string, kind: Kind)

  /** Rows stored so far and receipt numbers already present. */
  datatype Progress = Progress(saved: seq<Saved>, seen: set<string>)

  /** What one filing does: a major filing of a mapped stock with an unseen receipt number
      is stored; every other filing is skipped. */
  function Visit(mapping: map<string, string>, stocks: seq<Stock>, st: Progress, f: Filing): Progress
  {
    var stock := FindStock(mapping, stocks, f.corpCode);
    if IsMajor(f.reportName) && stock.Some? && f.rceptNo !in st.seen then
      Progress(st.saved + [Saved(stock.value.id, f.rceptNo, f.corpCode, f.reportName, Classify(f.reportName))],
               st.seen + {f.rceptNo})
    else st
  }

  /** The effect of the filings of one page, in order. */
  function VisitAll(mapping: map<string, string>, stocks: seq<Stock>, st: Progress, fs: seq<Filing>): Progress
  {
    if |fs| == 0 then st
    else Visit(mapping, stocks, VisitAll(mapping, stocks, st, fs[..|fs| - 1]), fs[|fs| - 1])
  }

  /** The effect of whole pages, in order. */
  function VisitPages(mapping: map<string, string>, stocks: seq<Stock>, st: Progress, pages: seq<seq<Filing>>): Progress
  {
    if |pages| == 0 then st
    else VisitAll(mapping, stocks, VisitPages(mapping, stocks, st, pages[..|pages| - 1]), pages[|pages| - 1])
  }

  /** The answer for page number `p` (from 1): pages past the end are empty. */
  function PageAt(pages: seq<seq<Filing>>, p: nat): seq<Filing>
  {
    if 1 <= p <= |pages| then pages[p - 1] else []
  }

  const MaxPages := 100

  /** The paging loop of `collect`: pages from 1 until an empty page or past page 100.
      `existing` holds the receipt numbers already stored. */
  method Collect(mapping: map<string, string>, stocks: seq<Stock>, existing: set<string>, pages: seq<seq<Filing>>)
    returns (saved: seq<Saved>, total: nat, pagesRead: nat)
    ensures pagesRead <= MaxPages && pagesRead <= |pages|
    ensures forall p :: 1 <= p <= pagesRead ==> PageAt(pages, p) != []
    ensures pagesRead == MaxPages || PageAt(pages, pagesRead + 1) == []
    ensures saved == VisitPages(mapping, stocks, Progress([], existing), pages[..pagesRead]).saved
    ensures total == |saved|
  {
    var st := Progress([], existing);
    var page: nat := 1;
    total := 0;
    while true
      invariant 1 <= page <= MaxPages && page - 1 <= |pages|
      invariant forall p :: 1 <= p < page ==> PageAt(pages, p) != []
      invariant st == VisitPages(mapping, stocks, Progress([], existing), pages[..page - 1])
      invariant total == |st.saved|
      decreases MaxPages + 1 - page
    {
      var filings := PageAt(pages, page);
      if filings == [] {
        break;
      }
      assert page <= |pages|;
      assert pages[..page][..page - 1] == pages[..page - 1];
      ghost var before := st;
      var j := 0;
      while j < |filings|
        invariant 0 <= j <= |filings|
        invariant st == VisitAll(mapping, stocks, before, filings[..j])
        invariant total == |st.saved|
      {
        var f := filings[j];
        assert filings[..j + 1][..j] == filings[..j];
        if IsMajor(f.reportName) {
          var stock := FindStock(mapping, stocks, f.corpCode);
          if stock.Some? && f.rceptNo !in st.seen {
            st := Progress(st.saved + [Saved(stock.value.id, f.rceptNo, f.corpCode, f.reportName, Classify(f.reportName))],
                           st.seen + {f.rceptNo});
            total := total + 1;
          }
        }
        j := j + 1;
      }
      assert filings[..j] == filings;
      page := page + 1;
      if page > MaxPages {
        break;
      }
    }
    saved := st.saved;
    pagesRead := page - 1;
  }

  /** Rows are only appended: earlier rows are kept, and the seen set only grows. */
  lemma {:induction false} VisitAllExtends(mapping: map<string, string>, stocks: seq<Stock>, st: Progress, fs: seq<Filing>)
    ensures var r := VisitAll(mapping, stocks, st, fs);
            |st.saved| <= |r.saved| && r.saved[..|st.saved|] == st.saved && st.seen <= r.seen
  {
    if |fs| > 0 {
      VisitAllExtends(mapping, stocks, st, fs[..|fs| - 1]);
    }
  }

  /** Every row a page adds is a major filing of a mapped stock, classified by its name,
      with a receipt number not seen before and different from every other added row. */
  lemma {:induction false} VisitAllStoresNewMajor(mapping: map<string, string>, stocks: seq<Stock>, st: Progress, fs: seq<Filing>)
    requires forall k :: 0 <= k < |st.saved| ==> st.saved[k].rceptNo in st.seen
    ensures var r := VisitAll(mapping, stocks, st, fs);
            (forall k :: 0 <= k < |r.saved| ==> r.saved[k].rceptNo in r.seen)
            && (forall k :: |st.saved| <= k < |r.saved| ==>
                  IsMajor(r.saved[k].reportName) && r.saved[k].kind == Classify(r.saved[k].reportName)
                  && r.saved[k].rceptNo !in st.seen
                  && exists s :: s in stocks && s.id == r.saved[k].stockId)
            && (forall k, l :: |st.saved| <= k < l < |r.saved| ==> r.saved[k].rceptNo != r.saved[l].rceptNo)
  {
    if |fs| > 0 {
      var mid := VisitAll(mapping, stocks, st, fs[..|fs| - 1]);
      VisitAllStoresNewMajor(mapping, stocks, st, fs[..|fs| - 1]);
      VisitAllExtends(mapping, stocks, st, fs[..|fs| - 1]);
      var r := Visit(mapping, stocks, mid, fs[|fs| - 1]);
      assert r == VisitAll(mapping, stocks, st, fs);
      if r != mid {
        var f := fs[|fs| - 1];
        var stock := FindStock(mapping, stocks, f.corpCode);
        assert r.saved == mid.saved + [r.saved[|mid.saved|]];
        assert r.saved[|mid.saved|].stockId == stock.value.id && stock.value in stocks;
        forall k | |st.saved| <= k < |mid.saved|
          ensures r.saved[k].rceptNo != f.rceptNo
        {
          assert r.saved[k] == mid.saved[k];
        }
      }
    }
  }
}
