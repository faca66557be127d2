// The chat bot's command layer: recognising a command at the start of a message, the
// argument checks and argument parsing of each command, the stock lookup, and the
// dispatch of a message to a reply.
module Telegram {
  import opened Wrappers
  import opened Text

  datatype Command = Help | Analyze | Price | Backtest | Portfolio | Search | Status

  /** The command words, in the order the bot registers (and searches) them. */
  const Commands: seq<(string, Command)> := [
    ("/도움말", Help), ("/분석", Analyze), ("/시세", Price), ("/백테스팅", Backtest),
    ("/포트폴리오", Portfolio), ("/종목검색", Search), ("/상태", Status)
  ]

  // ------------------------------------------------------------ parsing

  /** Index of the first entry of `table` whose word starts `m`. */
  function FirstPrefix(table: seq<(string, Command)>, m: string): (r: Option<nat>)
    ensures r.Some? ==> r.value < |table| && StartsWith(m, table[r.value].0)
                        && forall j :: 0 <= j < r.value ==> !StartsWith(m, table[j].0)
    ensures r.None? ==> forall j :: 0 <= j < |table| ==> !StartsWith(m, table[j].0)
  {
    if |table| == 0 then None
    else if StartsWith(m, table[0].0) then Some(0)
    else match FirstPrefix(table[1..], m)
      case None =>
        assert forall j :: 1 <= j < |table| ==> table[j] == table[1..][j - 1];
        None
      case Some(i) =>
        assert forall j :: 1 <= j < |table| ==> table[j] == table[1..][j - 1];
        Some(i + 1)
  }

  /** `parse_command`: the stripped message, and the first command word it starts with
      together with the rest stripped; without one, no command and the stripped message. */
  function ParseCommand(message: string): (r: (Option<Command>, string))
    ensures r.0.None? ==> r.1 == Strip(message)
                          && forall j :: 0 <= j < |Commands| ==> !StartsWith(Strip(message), Commands[j].0)
    ensures r.0.Some? ==> exists i :: 0 <= i < |Commands| && StartsWith(Strip(message), Commands[i].0)
                                      && r == (Some(Commands[i].1), Strip(Strip(message)[|Commands[i].0|..]))
  {
    var m := Strip(message);
    match FirstPrefix(Commands, m)
    case Some(i) => (Some(Commands[i].1), Strip(m[|Commands[i].0|..]))
    case None => (None, m)
  }

  /** Two words that both start `m` agree on their second character. */
  lemma SamePrefixChar(m: string, a: string, b: string)
    requires |a| >= 2 && |b| >= 2 && StartsWith(m, a) && StartsWith(m, b)
    ensures a[1] == b[1]
  {
    assert a[1] == m[..|a|][1] == m[1] == m[..|b|][1] == b[1];
  }

  /** The command words differ in their second character, so a message starts with at most
      one of them and the search order does not matter. */
  lemma CommandWordsPrefixFree(m: string, i: nat, j: nat)
    requires i < |Commands| && j < |Commands|
    requires StartsWith(m, Commands[i].0) && StartsWith(m, Commands[j].0)
    ensures i == j
  {
    SamePrefixChar(m, Commands[i].0, Commands[j].0);
  }

  /** A message "<command word> <args>" is read back as that command with those args. */
  lemma ParseCommandRoundTrip(i: nat, args: string)
    requires i < |Commands|
    requires args == [] || (!IsSpace(args[0]) && !IsSpace(args[|args| - 1]))
    ensures ParseCommand(Commands[i].0 + " " + args) == (Some(Commands[i].1), args)
  {
    var w := Commands[i].0;
    WordThenArgs(w, args);
    var s := Strip(w + " " + args);
    var k := FirstPrefix(Commands, s).value;
    CommandWordsPrefixFree(s, i, k);
  }

  /** Stripping "<word> <args>" keeps the word in front, and what follows it strips to the args. */
  lemma WordThenArgs(w: string, args: string)
    requires |w| > 0 && !IsSpace(w[0]) && !IsSpace(w[|w| - 1])
    requires args == [] || (!IsSpace(args[0]) && !IsSpace(args[|args| - 1]))
    ensures StartsWith(Strip(w + " " + args), w)
    ensures Strip(Strip(w + " " + args)[|w|..]) == args
  {
    var m := w + " " + args;
    if args == [] {
      assert Strip(m) == w by {
        assert m == w + " ";
        assert LStrip(m) == m;
        assert m[..|m| - 1] == w;
        StripNoOuterSpace(w);
        assert RStrip(m) == RStrip(w);
      }
    } else {
      StripNoOuterSpace(m);
    }
    var s := Strip(m);
    assert s[..|w|] == w;
    assert s[|w|..] == " " + args || (args == [] && s[|w|..] == []);
    StripLeadingSpace(args);
    if args != [] {
      StripNoOuterSpace(args);
    }
  }

  // ------------------------------------------------------------- stocks

  /** A stock row as the lookup sees it. */
  datatype StockInfo = StockInfo(ticker: string, name: string, marketCap: Option<real>)

  /** Index of the first stock whose ticker is exactly `query`. */
  function FindTicker(stocks: seq<StockInfo>, query: string): (r: Option<nat>)
    ensures r.Some? ==> r.value < |stocks| && stocks[r.value].ticker == query
                        && forall j :: 0 <= j < r.value ==> stocks[j].ticker != query
    ensures r.None? ==> forall j :: 0 <= j < |stocks| ==> stocks[j].ticker != query
  {
    if |stocks| == 0 then None
    else if stocks[0].ticker == query then Some(0)
    else match FindTicker(stocks[1..], query)
      case None =>
        assert forall j :: 1 <= j < |stocks| ==> stocks[j] == stocks[1..][j - 1];
        None
      case Some(i) =>
        assert forall j :: 1 <= j < |stocks| ==> stocks[j] == stocks[1..][j - 1];
        Some(i + 1)
  }

  /** The stocks whose name contains `query`, in table order. */
  function NameMatches(stocks: seq<StockInfo>, query: string): (r: seq<StockInfo>)
    ensures forall s :: s in r <==> s in stocks && Contains(s.name, query)
  {
    if |stocks| == 0 then []
    else
      var rest := NameMatches(stocks[1..], query);
      assert forall s :: s in stocks <==> s == stocks[0] || s in stocks[1..];
      if Contains(stocks[0].name, query) then [stocks[0]] + rest else rest
  }

  /** `get_stock_info`: the stock with exactly this ticker, else the first whose name contains
      the query, else nothing. */
  function GetStockInfo(stocks: seq<StockInfo>, query: string): (r: Option<StockInfo>)
    ensures (exists j :: 0 <= j < |stocks| && stocks[j].ticker == query) ==> r.Some? && r.value.ticker == query
    ensures r.Some? ==> r.value in stocks && (r.value.ticker == query || Contains(r.value.name, query))
    ensures r.None? <==> forall j :: 0 <= j < |stocks| ==> stocks[j].ticker != query && !Contains(stocks[j].name, query)
  {
    match FindTicker(stocks, query)
    case Some(i) => Some(stocks[i])
    case None =>
      var byName := NameMatches(stocks, query);
      if byName == [] then
        assert forall j :: 0 <= j < |stocks| ==> stocks[j] !in byName;
        None
      else
        assert byName[0] in byName;
        Some(byName[0])
  }

  // ------------------------------------------------------------ commands

  /** What a command decides before its remaining work (the analysis agents, the live quote,
      the status queries), which is outside this model. */
  datatype Outcome =
    | HelpText
    | StatusReport
    | Usage(command: Command)
    | NotFound(query: string)
    | Analysis(stock: StockInfo)
    | Quote(stock: StockInfo)
    | BacktestStarted(stock: StockInfo, years: nat)
    | PortfolioTopN(n: nat)
    | PortfolioTickers(count: nat)
    | NoResults(query: string)
    | SearchResults(stocks: seq<StockInfo>)

  /** The backtest period: the second word with '년' removed, when that is a number; 1 otherwise. */
  function Years(parts: seq<string>): (y: nat)
    ensures |parts| <= 1 ==> y == 1
  {
    if |parts| > 1 && IsDigits(Replace(parts[1], "년", "")) then DigitsValue(Replace(parts[1], "년", "")) else 1
  }

  /** "<N>년" and "<N>" both give N years. */
  lemma YearsOfPeriod(query: string, d: string)
    requires IsDigits(d)
    ensures Years([query, d + "년"]) == DigitsValue(d)
    ensures Years([query, d]) == DigitsValue(d)
  {
    assert forall k :: 0 <= k < |d| ==> d[k] != '년';
    ReplaceAbsent(d, "년", "");
    ReplaceCharConcat(d, "년", '년', "");
    assert Replace("년", "년", "") == [] by {
      assert StartsWith("년", "년");
      assert "년"[1..] == [];
    }
    assert d + [] == d;
  }

  /** The maximum number of search results. */
  const SearchLimit: nat := 10

  /** One command handler on its (already stripped) argument text. An `Err` is the exception
      the handler raises: a blank, non-empty argument leaves `/백테스팅` without a first word. */
  function Handle(cmd: Command, args: string, stocks: seq<StockInfo>): (r: Result<Outcome>)
    ensures cmd != Help && cmd != Status && args == [] ==> r == Ok(Usage(cmd))
    ensures r.Err? ==> cmd == Backtest && Split(args) == []
  {
    match cmd
    case Help => Ok(HelpText)
    case Status => Ok(StatusReport)
    case Analyze =>
      if args == [] then Ok(Usage(Analyze))
      else (match GetStockInfo(stocks, args) case None => Ok(NotFound(args)) case Some(s) => Ok(Analysis(s)))
    case Price =>
      if args == [] then Ok(Usage(Price))
      else (match GetStockInfo(stocks, args) case None => Ok(NotFound(args)) case Some(s) => Ok(Quote(s)))
    case Backtest =>
      if args == [] then Ok(Usage(Backtest))
      else
        var parts := Split(args);
        if parts == [] then Err("list index out of range")
        else (match GetStockInfo(stocks, parts[0])
              case None => Ok(NotFound(parts[0]))
              case Some(s) => Ok(BacktestStarted(s, Years(parts))))
    case Portfolio =>
      if args == [] then Ok(Usage(Portfolio))
      else if IsDigits(args) then Ok(PortfolioTopN(DigitsValue(args)))
      else Ok(PortfolioTickers(|Split(args)|))
    case Search =>
      if args == [] then Ok(Usage(Search))
      else
        var found := NameMatches(stocks, args);
        if found == [] then Ok(NoResults(args))
        else Ok(SearchResults(if |found| <= SearchLimit then found else found[..SearchLimit]))
  }

  /** A portfolio request is the top-N form exactly when its argument is all digits. */
  lemma PortfolioTopNIff(args: string, stocks: seq<StockInfo>)
    ensures Handle(Portfolio, args, stocks).value.PortfolioTopN? <==> IsDigits(args)
  {
  }

  /** Text that is stripped and not empty has a first word. */
  lemma StrippedHasWord(args: string)
    requires args != [] && Strip(args) == args
    ensures Split(args) != []
  {
    StripMeaning(args);
    assert LStrip(args) == args;
  }

  /** A reply: what the handler decided, the handler's exception as an error message, or the
      unknown-command message (which carries the help text). */
  datatype Reply = Handled(outcome: Outcome) | Failed(error: string) | UnknownCommand(message: string)

  /** `process_message`; `raised` is the exception (if any) the handler's database or network
      work raised. Text that is not a command and does not start with '/' gets no reply. */
  function ProcessMessage(message: string, stocks: seq<StockInfo>, raised: Option<string>): (r: Option<Reply>)
    ensures r.None? <==> ParseCommand(message).0.None? && !StartsWith(message, "/")
    ensures ParseCommand(message).0.Some? && raised.Some? ==> r == Some(Failed(raised.value))
  {
    var (cmd, args) := ParseCommand(message);
    if cmd.Some? then
      if raised.Some? then Some(Failed(raised.value))
      else match Handle(cmd.value, args, stocks)
        case Ok(o) => Some(Handled(o))
        case Err(e) => Some(Failed(e))
    else if StartsWith(message, "/") then Some(UnknownCommand(message))
    else None
  }

  /** Through `process_message` the arguments are stripped, so no handler raises by itself. */
  lemma ProcessMessageNeverRaisesItself(message: string, stocks: seq<StockInfo>)
    requires ParseCommand(message).0.Some?
    ensures ProcessMessage(message, stocks, None).value.Handled?
  {
    var (cmd, args) := ParseCommand(message);
    var i :| 0 <= i < |Commands| && StartsWith(Strip(message), Commands[i].0)
             && (cmd, args) == (Some(Commands[i].1), Strip(Strip(message)[|Commands[i].0|..]));
    if args != [] {
      StripIdempotent(Strip(message)[|Commands[i].0|..]);
      StrippedHasWord(args);
    }
  }
}
