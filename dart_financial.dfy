// Quarterly statements from the DART disclosure service: which (year, report) pairs to
// fetch, where each report's period ends, and the figures and ratios read from a report.
module DartFinancial {
  import opened Wrappers
  import opened Text
  import FinancialMetrics

  /** DART report codes: first quarter 11013, half year 11012, third quarter 11014 and
      annual 11011. */
  datatype ReportCode = FirstQuarter | HalfYear | ThirdQuarter | Annual

  function Code(c: ReportCode): string
  {
    match c
    case FirstQuarter => "11013"
    case HalfYear => "11012"
    case ThirdQuarter => "11014"
    case Annual => "11011"
  }

  /** The walk order, from the latest report of a year back to the earliest. */
  const Walk: seq<ReportCode> := [Annual, ThirdQuarter, HalfYear, FirstQuarter]

  function WalkIndex(c: ReportCode): (i: nat)
    ensures i < 4 && Walk[i] == c
  {
    match c
    case Annual => 0
    case ThirdQuarter => 1
    case HalfYear => 2
    case FirstQuarter => 3
  }

  /** The latest report that should be out in a month: the previous year's annual report
      until March, then the first quarter, the half year, the third quarter, and in
      December the current year's annual report. */
  function StartQuarter(year: int, month: FinancialMetrics.Month): (int, ReportCode)
  {
    if month <= 3 then (year - 1, Annual)
    else if month <= 5 then (year, FirstQuarter)
    else if month <= 8 then (year, HalfYear)
    else if month <= 11 then (year, ThirdQuarter)
    else (year, Annual)
  }

  /** The k-th pair of the walk: k steps back from the start, wrapping to the previous
      year after each first quarter. */
  function QuarterAt(start: (int, ReportCode), k: nat): (int, ReportCode)
  {
    var n := WalkIndex(start.1) + k;
    (start.0 - n / 4, Walk[n % 4])
  }

  /** `get_recent_quarters`: `count` pairs (none for a negative count) walking back from the
      latest report of the current month. */
  method GetRecentQuarters(year: int, month: FinancialMetrics.Month, count: int) returns (quarters: seq<(int, ReportCode)>)
    ensures |quarters| == if count < 0 then 0 else count
    ensures forall k :: 0 <= k < |quarters| ==> quarters[k] == QuarterAt(StartQuarter(year, month), k)
  {
    var start := StartQuarter(year, month);
    var y := start.0;
    var idx := WalkIndex(start.1);
    quarters := [];
    var i := 0;
    while i < count
      invariant 0 <= i && (count >= 0 ==> i <= count) && (count < 0 ==> i == 0)
      invariant |quarters| == i
      invariant 0 <= idx < 4
      invariant idx == (WalkIndex(start.1) + i) % 4 && y == start.0 - (WalkIndex(start.1) + i) / 4
      invariant forall k :: 0 <= k < i ==> quarters[k] == QuarterAt(start, k)
    {
      quarters := quarters + [(y, Walk[idx])];
      idx := idx + 1;
      if idx >= |Walk| {
        idx := 0;
        y := y - 1;
      }
      i := i + 1;
    }
  }

  /** The walk never moves forward in years, and it loses a year exactly when it steps from
      a first quarter to the previous annual report. */
  lemma {:induction false} WalkSteps(start: (int, ReportCode), k: nat)
    ensures QuarterAt(start, k).1 == FirstQuarter ==>
              QuarterAt(start, k + 1).0 == QuarterAt(start, k).0 - 1 && QuarterAt(start, k + 1).1 == Annual
    ensures QuarterAt(start, k).1 != FirstQuarter ==> QuarterAt(start, k + 1).0 == QuarterAt(start, k).0
  {
    var n := WalkIndex(start.1) + k;
    if n % 4 == 3 {
      assert (n + 1) / 4 == n / 4 + 1 && (n + 1) % 4 == 0;
    } else {
      assert (n + 1) / 4 == n / 4 && (n + 1) % 4 == n % 4 + 1;
    }
  }

  lemma {:induction false} YearsNeverIncrease(start: (int, ReportCode), i: nat, j: nat)
    requires i <= j
    ensures QuarterAt(start, j).0 <= QuarterAt(start, i).0
  {
    var a, b := WalkIndex(start.1) + i, WalkIndex(start.1) + j;
    assert a / 4 <= b / 4;
  }

  /** Any four consecutive pairs carry the four report codes once each. */
  lemma {:induction false} FourConsecutiveCoverAllCodes(start: (int, ReportCode), k: nat)
    ensures {QuarterAt(start, k).1, QuarterAt(start, k + 1).1, QuarterAt(start, k + 2).1, QuarterAt(start, k + 3).1}
            == {Annual, ThirdQuarter, HalfYear, FirstQuarter}
  {
    var n := WalkIndex(start.1) + k;
    var r := n % 4;
    assert (n + 1) % 4 == (r + 1) % 4 && (n + 2) % 4 == (r + 2) % 4 && (n + 3) % 4 == (r + 3) % 4;
    WalkRotation(r);
  }

  /** Reading the walk cyclically from any position meets every code once. */
  lemma {:induction false} WalkRotation(r: nat)
    requires r < 4
    ensures {Walk[r], Walk[(r + 1) % 4], Walk[(r + 2) % 4], Walk[(r + 3) % 4]}
            == {Annual, ThirdQuarter, HalfYear, FirstQuarter}
  {
    if r == 0 {
      assert (r + 1) % 4 == 1 && (r + 2) % 4 == 2 && (r + 3) % 4 == 3;
    } else if r == 1 {
      assert (r + 1) % 4 == 2 && (r + 2) % 4 == 3 && (r + 3) % 4 == 0;
    } else if r == 2 {
      assert (r + 1) % 4 == 3 && (r + 2) % 4 == 0 && (r + 3) % 4 == 1;
    } else {
      assert (r + 1) % 4 == 0 && (r + 2) % 4 == 1 && (r + 3) % 4 == 2;
    }
  }

  // ------------------------------------------------------------- period ends

  datatype Date = Date(year: int, month: FinancialMetrics.Month, day: int)

  /** The last day of the period a report covers. */
  function PeriodEnd(year: int, c: ReportCode): Date
  {
    match c
    case FirstQuarter => Date(year, 3, 31)
    case HalfYear => Date(year, 6, 30)
    case ThirdQuarter => Date(year, 9, 30)
    case Annual => Date(year, 12, 31)
  }

  datatype PeriodType = Quarterly | AnnualPeriod

  function PeriodTypeOf(c: ReportCode): (t: PeriodType)
    ensures t == AnnualPeriod <==> c == Annual
  {
    if c != Annual then Quarterly else AnnualPeriod
  }

  function MonthIndex(d: Date): int
  {
    d.year * 12 + d.month
  }

  /** A report's period ends in the calendar quarter it is named after. */
  lemma {:induction false} PeriodEndQuarter(year: int, c: ReportCode)
    ensures FinancialMetrics.Quarter(PeriodEnd(year, c).month) == 4 - WalkIndex(c)
  {
  }

  /** Each step of the walk moves the period end back by exactly three months, so the
      period ends of the fetched reports are distinct. */
  lemma {:induction false} PeriodEndsStepBack(start: (int, ReportCode), k: nat)
    ensures MonthIndex(PeriodEnd(QuarterAt(start, k).0, QuarterAt(start, k).1))
            == MonthIndex(PeriodEnd(start.0, start.1)) - 3 * k
  {
    if k > 0 {
      PeriodEndsStepBack(start, k - 1);
      WalkSteps(start, k - 1);
    } else {
      assert QuarterAt(start, 0) == start;
    }
  }

  // ---------------------------------------------------------- statement rows

  /** One row of a `finstate` table: the account name and the current-term amount text. */
  datatype Row = Row(account: string, amount: string)

  /** The Korean account names read and the figure each is stored under. */
  const Accounts: seq<(string, string)> := [
    ("매출액", "revenue"),
    ("영업이익", "operating_income"),
    ("당기순이익(손실)", "net_income"),
    ("자산총계", "total_assets"),
    ("부채총계", "total_liabilities"),
    ("자본총계", "total_equity"),
    ("유동자산", "current_assets"),
    ("유동부채", "current_liabilities"),
    ("영업활동현금흐름", "operating_cash_flow")
  ]

  /** The index of the first row with the account, or the row count when none has it. */
  function FirstIndex(rows: seq<Row>, account: string): (i: nat)
    ensures i <= |rows|
    ensures forall j :: 0 <= j < i ==> rows[j].account != account
    ensures i < |rows| ==> rows[i].account == account
  {
    if |rows| == 0 then 0
    else if rows[0].account == account then 0
    else 1 + FirstIndex(rows[1..], account)
  }

  /** The amount text of the first row with the account. */
  function FirstAmount(rows: seq<Row>, account: string): Option<string>
  {
    var i := FirstIndex(rows, account);
    if i < |rows| then Some(rows[i].amount) else None
  }

  /** The value read for an account: the first row's amount when it parses. */
  function ReadAccount(rows: seq<Row>, account: string): Option<real>
  {
    var text := FirstAmount(rows, account);
    if text.Some? then ParseAmount(text.value) else None
  }

  /** The figures read from the accounts of the list, in list order. */
  function Figures(rows: seq<Row>, accounts: seq<(string, string)>): map<string, real>
  {
    if |accounts| == 0 then map[]
    else
      var d := Figures(rows, accounts[..|accounts| - 1]);
      var v := ReadAccount(rows, accounts[|accounts| - 1].0);
      if v.Some? then d[accounts[|accounts| - 1].1 := v.value] else d
  }

  predicate DistinctFields(accounts: seq<(string, string)>)
  {
    forall i, j :: 0 <= i < j < |accounts| ==> accounts[i].1 != accounts[j].1
  }

  /** A name that no account maps to never appears among the figures. */
  lemma {:induction false} UnmappedFigureAbsent(rows: seq<Row>, accounts: seq<(string, string)>, f: string)
    requires forall i :: 0 <= i < |accounts| ==> accounts[i].1 != f
    ensures f !in Figures(rows, accounts)
  {
    if |accounts| > 0 {
      var prefix := accounts[..|accounts| - 1];
      assert forall i :: 0 <= i < |prefix| ==> prefix[i] == accounts[i];
      UnmappedFigureAbsent(rows, prefix, f);
    }
  }

  /** With distinct figure names, a figure is present exactly when its account's first row
      parses, and then it holds that row's value. */
  lemma {:induction false} FigureAt(rows: seq<Row>, accounts: seq<(string, string)>, i: nat)
    requires DistinctFields(accounts) && i < |accounts|
    ensures accounts[i].1 in Figures(rows, accounts) <==> ReadAccount(rows, accounts[i].0).Some?
    ensures accounts[i].1 in Figures(rows, accounts) ==>
              Figures(rows, accounts)[accounts[i].1] == ReadAccount(rows, accounts[i].0).value
    decreases |accounts|
  {
    var prefix := accounts[..|accounts| - 1];
    var last := |accounts| - 1;
    if i == last {
      LastFigure(rows, accounts);
    } else {
      assert DistinctFields(prefix);
      assert prefix[i] == accounts[i];
      FigureAt(rows, prefix, i);
      assert accounts[last].1 != accounts[i].1;
    }
  }

  lemma {:induction false} LastFigure(rows: seq<Row>, accounts: seq<(string, string)>)
    requires DistinctFields(accounts) && |accounts| > 0
    ensures var a := accounts[|accounts| - 1];
            (a.1 in Figures(rows, accounts) <==> ReadAccount(rows, a.0).Some?)
            && (a.1 in Figures(rows, accounts) ==> Figures(rows, accounts)[a.1] == ReadAccount(rows, a.0).value)
  {
    var prefix := accounts[..|accounts| - 1];
    assert forall j :: 0 <= j < |prefix| ==> prefix[j] == accounts[j];
    UnmappedFigureAbsent(rows, prefix, accounts[|accounts| - 1].1);
  }

  lemma {:induction false} AccountsHaveDistinctFields()
    ensures DistinctFields(Accounts)
  {
  }

  /** `num / den * 100` when both figures are present and the denominator is positive. */
  function Ratio(d: map<string, real>, num: string, den: string): (r: Option<real>)
    ensures r.Some? <==> num in d && den in d && d[den] > 0.0
    ensures r.Some? ==> r.value == d[num] / d[den] * 100.0
  {
    if num in d && den in d && d[den] > 0.0 then Some(d[num] / d[den] * 100.0) else None
  }

  const RatioKeys: set<string> := {"roe", "debt_ratio", "current_ratio", "operating_margin", "net_margin"}

  /** Each derived ratio and the figures it divides: return on equity and the debt ratio
      over equity, the current ratio over current liabilities, the margins over revenue. */
  function RatioOf(d: map<string, real>, key: string): Option<real>
  {
    if key == "roe" then Ratio(d, "net_income", "total_equity")
    else if key == "debt_ratio" then Ratio(d, "total_liabilities", "total_equity")
    else if key == "current_ratio" then Ratio(d, "current_assets", "current_liabilities")
    else if key == "operating_margin" then Ratio(d, "operating_income", "revenue")
    else if key == "net_margin" then Ratio(d, "net_income", "revenue")
    else None
  }

  /** The figures with the derived ratios written over them; a ratio is written only when
      its figures are present and its denominator is positive. */
  function WithRatios(d: map<string, real>): (r: map<string, real>)
    ensures forall k :: k in r <==> k in d || (k in RatioKeys && RatioOf(d, k).Some?)
    ensures forall k :: k in RatioKeys && RatioOf(d, k).Some? ==> r[k] == RatioOf(d, k).value
    ensures forall k :: k in d && !(k in RatioKeys && RatioOf(d, k).Some?) ==> r[k] == d[k]
  {
    d + map k | k in RatioKeys && RatioOf(d, k).Some? :: RatioOf(d, k).value
  }

  datatype DartStatement = DartStatement(year: int, report: ReportCode, figures: map<string, real>)

  /** `get_financial_statement`: None when the call fails or the table is empty; otherwise the
      first parsable amount of each mapped account, then the derived ratios. */
  method GetFinancialStatement(year: int, report: ReportCode, table: Option<seq<Row>>) returns (r: Option<DartStatement>)
    ensures r.None? <==> table.None? || |table.value| == 0
    ensures r.Some? ==> r.value == DartStatement(year, report, WithRatios(Figures(table.value, Accounts)))
  {
    if table.None? || |table.value| == 0 {
      return None;
    }
    var data := ReadFigures(table.value, Accounts);
    return Some(DartStatement(year, report, WithRatios(data)));
  }

  /** The mapping loop of `get_financial_statement`. */
  method ReadFigures(rows: seq<Row>, accounts: seq<(string, string)>) returns (data: map<string, real>)
    ensures data == Figures(rows, accounts)
  {
    data := map[];
    var i := 0;
    while i < |accounts|
      invariant 0 <= i <= |accounts|
      invariant data == Figures(rows, accounts[..i])
    {
      var (account, field) := accounts[i];
      assert accounts[..i + 1][..i] == accounts[..i];
      var text := FirstAmount(rows, account);
      if text.Some? {
        var value := ParseAmount(text.value);
        if value.Some? {
          data := data[field := value.value];
        }
      }
      i := i + 1;
    }
    assert accounts[..i] == accounts;
  }

  /** A statement whose equity parses as positive and whose net income parses carries its
      return on equity. */
  lemma {:induction false} PositiveEquityGivesRoe(rows: seq<Row>)
    requires ReadAccount(rows, "자본총계").Some? && ReadAccount(rows, "자본총계").value > 0.0
    requires ReadAccount(rows, "당기순이익(손실)").Some?
    ensures "roe" in WithRatios(Figures(rows, Accounts))
    ensures WithRatios(Figures(rows, Accounts))["roe"]
            == ReadAccount(rows, "당기순이익(손실)").value / ReadAccount(rows, "자본총계").value * 100.0
  {
    AccountsHaveDistinctFields();
    EquityAndIncomeAccounts();
    FigureAt(rows, Accounts, 5);
    FigureAt(rows, Accounts, 2);
    var d := Figures(rows, Accounts);
    assert RatioOf(d, "roe") == Ratio(d, "net_income", "total_equity");
  }

  lemma EquityAndIncomeAccounts()
    ensures Accounts[5] == ("자본총계", "total_equity") && Accounts[2] == ("당기순이익(손실)", "net_income")
  {
  }
}
