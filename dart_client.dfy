// The DART open-API client: request parameters and status handling, the stock-code to
// company-code table, and the grouping of statement rows into the three statements.
module DartClient {
  import opened Wrappers
  import opened Text

  // ----------------------------------------------------------------- requests

  /** The parameters actually sent: the caller's with the API key added under `crtfc_key`. */
  function SentParams(params: map<string, string>, apiKey: string): (p: map<string, string>)
    ensures p.Keys == params.Keys + {"crtfc_key"} && p["crtfc_key"] == apiKey
    ensures forall k :: k in params && k != "crtfc_key" ==> p[k] == params[k]
  {
    params["crtfc_key" := apiKey]
  }

  /** The decoded answer of a call: its `status`, `corp_code` and `list` fields, if present. */
  datatype Reply<T> = Reply(status: Option<string>, corpCode: Option<string>, list: Option<seq<T>>)

  /** `_get`: the reply when it arrived and its status is "000", else nothing (the empty
      dict). A failed request is None. */
  function Get<T>(reply: Option<Reply<T>>): (r: Option<Reply<T>>)
    ensures r.Some? <==> reply.Some? && reply.value.status == Some("000")
    ensures r.Some? ==> r == reply
  {
    if reply.Some? && reply.value.status == Some("000") then reply else None
  }

  /** `get_financial_statements`: the rows of a good reply, else none. */
  function StatementRows<T>(reply: Option<Reply<T>>): (rows: seq<T>)
    ensures Get(reply).None? ==> rows == []
    ensures Get(reply).Some? && reply.value.list.Some? ==> rows == reply.value.list.value
  {
    var data := Get(reply);
    if data.Some? && data.value.list.Some? then data.value.list.value else []
  }

  /** `get_corp_code`: the `corp_code` field of a good reply. */
  function CorpCode<T>(reply: Option<Reply<T>>): (code: Option<string>)
    ensures code.Some? <==> Get(reply).Some? && reply.value.corpCode.Some?
    ensures code.Some? ==> code == reply.value.corpCode
  {
    var data := Get(reply);
    if data.Some? then data.value.corpCode else None
  }

  // ---------------------------------------------------------- company codes

  /** One `list` element of the company-code file: its code text and its stock-code text. */
  datatype Company = Company(corpCode: Option<string>, stockCode: Option<string>)

  predicate Listed(c: Company)
  {
    c.stockCode.Some? && |Strip(c.stockCode.value)| > 0
  }

  /** The table after the first `n` companies: the stripped stock code of every listed
      company mapped to its company code, a later company overwriting an earlier one. */
  function CorpMap(companies: seq<Company>): map<string, Option<string>>
  {
    if |companies| == 0 then map[]
    else
      var m := CorpMap(companies[..|companies| - 1]);
      var c := companies[|companies| - 1];
      if Listed(c) then m[Strip(c.stockCode.value) := c.corpCode] else m
  }

  /** The loop of `get_corp_code_list`. */
  method GetCorpCodeList(companies: seq<Company>) returns (corpMap: map<string, Option<string>>)
    ensures corpMap == CorpMap(companies)
  {
    corpMap := map[];
    var i := 0;
    while i < |companies|
      invariant 0 <= i <= |companies|
      invariant corpMap == CorpMap(companies[..i])
    {
      var c := companies[i];
      assert companies[..i + 1][..i] == companies[..i];
      if c.stockCode.Some? && |Strip(c.stockCode.value)| > 0 {
        corpMap := corpMap[Strip(c.stockCode.value) := c.corpCode];
      }
      i := i + 1;
    }
    assert companies[..i] == companies;
  }

  /** Every key is a stripped, non-blank stock code of some listed company. */
  lemma {:induction false} CorpMapKeys(companies: seq<Company>)
    ensures forall k :: k in CorpMap(companies) ==>
              |k| > 0 && exists i :: 0 <= i < |companies| && Listed(companies[i]) && Strip(companies[i].stockCode.value) == k
  {
    if |companies| > 0 {
      var prefix := companies[..|companies| - 1];
      CorpMapKeys(prefix);
      forall k | k in CorpMap(companies)
        ensures |k| > 0 && exists i :: 0 <= i < |companies| && Listed(companies[i]) && Strip(companies[i].stockCode.value) == k
      {
        var last := |companies| - 1;
        if !(Listed(companies[last]) && Strip(companies[last].stockCode.value) == k) {
          var i :| 0 <= i < |prefix| && Listed(prefix[i]) && Strip(prefix[i].stockCode.value) == k;
          assert companies[i] == prefix[i];
        }
      }
    }
  }

  /** The last listed company with a stock code decides its entry. */
  lemma {:induction false} CorpMapLastWins(companies: seq<Company>, i: nat)
    requires i < |companies| && Listed(companies[i])
    requires forall j :: i < j < |companies| && Listed(companies[j]) ==>
               Strip(companies[j].stockCode.value) != Strip(companies[i].stockCode.value)
    ensures Strip(companies[i].stockCode.value) in CorpMap(companies)
    ensures CorpMap(companies)[Strip(companies[i].stockCode.value)] == companies[i].corpCode
  {
    var prefix := companies[..|companies| - 1];
    if i < |companies| - 1 {
      assert prefix[i] == companies[i];
      forall j | i < j < |prefix| && Listed(prefix[j])
        ensures Strip(prefix[j].stockCode.value) != Strip(prefix[i].stockCode.value)
      {
        assert prefix[j] == companies[j];
      }
      CorpMapLastWins(prefix, i);
    }
  }

  // ----------------------------------------------------- statement grouping

  /** One row of `fnlttSinglAcntAll`: statement division, account name and current amount. */
  datatype Item = Item(sjDiv: Option<string>, accountName: Option<string>, amount: Option<string>)

  datatype Sheet = IncomeStatement | BalanceSheet | CashFlow

  /** IS, BS and CF name the three statements; every other division is ignored. */
  function SheetOf(sjDiv: Option<string>): (s: Option<Sheet>)
    ensures s.Some? <==> sjDiv == Some("IS") || sjDiv == Some("BS") || sjDiv == Some("CF")
  {
    if sjDiv == Some("IS") then Some(IncomeStatement)
    else if sjDiv == Some("BS") then Some(BalanceSheet)
    else if sjDiv == Some("CF") then Some(CashFlow)
    else None
  }

  /** The amount a row contributes: a known division, a non-empty account name and a
      non-empty amount that parses once commas are removed. */
  function Contribution(item: Item): (r: Option<(Sheet, string, real)>)
    ensures r.Some? ==> Some(r.value.0) == SheetOf(item.sjDiv) && item.accountName == Some(r.value.1)
                        && |r.value.1| > 0
                        && item.amount.Some? && ParseAmount(item.amount.value) == Some(r.value.2)
  {
    var sheet := SheetOf(item.sjDiv);
    if sheet.Some? && item.accountName.Some? && |item.accountName.value| > 0
       && item.amount.Some? && |item.amount.value| > 0 && ParseAmount(item.amount.value).Some?
    then Some((sheet.value, item.accountName.value, ParseAmount(item.amount.value).value))
    else None
  }

  const AllSheets: set<Sheet> := {IncomeStatement, BalanceSheet, CashFlow}

  function EmptyStatements(): map<Sheet, map<string, real>>
  {
    map[IncomeStatement := map[], BalanceSheet := map[], CashFlow := map[]]
  }

  /** The grouping after the given rows, later rows overwriting earlier ones. */
  function Grouped(items: seq<Item>): (r: map<Sheet, map<string, real>>)
    ensures r.Keys == AllSheets
  {
    if |items| == 0 then EmptyStatements()
    else
      var g := Grouped(items[..|items| - 1]);
      var c := Contribution(items[|items| - 1]);
      if c.Some? then g[c.value.0 := g[c.value.0][c.value.1 := c.value.2]] else g
  }

  /** `parse_financial_statements`. */
  method ParseFinancialStatements(items: seq<Item>) returns (result: map<Sheet, map<string, real>>)
    ensures result == Grouped(items)
    ensures result.Keys == AllSheets
  {
    result := EmptyStatements();
    var i := 0;
    while i < |items|
      invariant 0 <= i <= |items|
      invariant result == Grouped(items[..i])
    {
      var item := items[i];
      assert items[..i + 1][..i] == items[..i];
      var sheet := SheetOf(item.sjDiv);
      if sheet.Some? && item.accountName.Some? && |item.accountName.value| > 0 && item.amount.Some?
         && |item.amount.value| > 0 {
        var amount := ParseAmount(item.amount.value);
        if amount.Some? {
          result := result[sheet.value := result[sheet.value][item.accountName.value := amount.value]];
        }
      }
      i := i + 1;
    }
    assert items[..i] == items;
  }

  /** An account appears in a statement only if some row contributed it. */
  lemma {:induction false} GroupedOnlyContributions(items: seq<Item>, sheet: Sheet, account: string)
    requires account in Grouped(items)[sheet]
    ensures exists i :: 0 <= i < |items| && Contribution(items[i]).Some?
                        && Contribution(items[i]).value.0 == sheet && Contribution(items[i]).value.1 == account
  {
    var prefix := items[..|items| - 1];
    var c := Contribution(items[|items| - 1]);
    if !(c.Some? && c.value.0 == sheet && c.value.1 == account) {
      GroupedOnlyContributions(prefix, sheet, account);
      var i :| 0 <= i < |prefix| && Contribution(prefix[i]).Some?
               && Contribution(prefix[i]).value.0 == sheet && Contribution(prefix[i]).value.1 == account;
      assert items[i] == prefix[i];
    }
  }

  /** The last row contributing an account to a statement decides its amount. */
  lemma {:induction false} GroupedLastWins(items: seq<Item>, i: nat)
    requires i < |items| && Contribution(items[i]).Some?
    requires forall j :: i < j < |items| && Contribution(items[j]).Some? ==>
               (Contribution(items[j]).value.0, Contribution(items[j]).value.1)
               != (Contribution(items[i]).value.0, Contribution(items[i]).value.1)
    ensures var c := Contribution(items[i]).value;
            c.1 in Grouped(items)[c.0] && Grouped(items)[c.0][c.1] == c.2
  {
    var prefix := items[..|items| - 1];
    if i < |items| - 1 {
      assert prefix[i] == items[i];
      forall j | i < j < |prefix| && Contribution(prefix[j]).Some?
        ensures (Contribution(prefix[j]).value.0, Contribution(prefix[j]).value.1)
                != (Contribution(prefix[i]).value.0, Contribution(prefix[i]).value.1)
      {
        assert prefix[j] == items[j];
      }
      GroupedLastWins(prefix, i);
    }
  }
}
