/** The Yahoo Finance access layer (data_collection/yahoo_finance_api.py): the
    ticker rule, the guards in front of each call, the row filter of the price
    history and the None filter of the company information. The API client is a
    parameter: `None` when no client was given, otherwise a function from the
    query to what the call returned (`None` when the response carries no result
    or the call raised). */
module YahooFinance {
  import opened Common
  import Helpers

  /** `_parse_ticker`: the same ".SA" rule as `parse_brazilian_ticker`, for strings. */
  function ParseTicker(ticker: string): (r: string)
    ensures Upper(r) == r && EndsWith(r, Helpers.SaSuffix)
    ensures PyStr(r) == Helpers.ParseBrazilianTicker(PyStr(ticker))
  {
    if !EndsWith(Upper(ticker), Helpers.SaSuffix) then Upper(ticker) + Helpers.SaSuffix else Upper(ticker)
  }

  lemma ParseTickerIdempotent(ticker: string)
    ensures ParseTicker(ParseTicker(ticker)) == ParseTicker(ticker)
  {
    Helpers.NormalizeTickerIdempotent(ticker);
  }

  /** One row of the chart: a timestamp and the OHLC, volume and adjusted close
      columns, each possibly missing (NaN). */
  datatype Quote = Quote(
    timestamp: int,
    open: Option<real>, high: Option<real>, low: Option<real>, close: Option<real>,
    volume: Option<real>, adjClose: Option<real>)

  predicate HasPrice(q: Quote) {
    q.open.Some? || q.high.Some? || q.low.Some? || q.close.Some?
  }

  /** `dropna(subset=["Open", "High", "Low", "Close"], how="all")`: every row
      with some price is kept as many times as it occurs, every other row is
      dropped. */
  function DropEmptyQuotes(quotes: seq<Quote>): (r: seq<Quote>)
    ensures forall q :: q in r ==> HasPrice(q)
    ensures forall q :: q in r <==> q in quotes && HasPrice(q)
    ensures forall q :: multiset(r)[q] == if HasPrice(q) then multiset(quotes)[q] else 0
    ensures |r| <= |quotes|
  {
    if quotes == [] then []
    else
      assert quotes == [quotes[0]] + quotes[1..];
      if HasPrice(quotes[0]) then [quotes[0]] + DropEmptyQuotes(quotes[1..])
      else DropEmptyQuotes(quotes[1..])
  }

  /** The rows keep their order: filtering a table is filtering its first part
      and then its second. */
  lemma {:induction false} DropEmptyQuotesAppend(a: seq<Quote>, b: seq<Quote>)
    ensures DropEmptyQuotes(a + b) == DropEmptyQuotes(a) + DropEmptyQuotes(b)
  {
    if a == [] {
      assert a + b == b;
    } else {
      var ab := a + b;
      assert ab[0] == a[0] && ab[1..] == a[1..] + b;
      DropEmptyQuotesAppend(a[1..], b);
      if HasPrice(a[0]) {
        calc {
          DropEmptyQuotes(ab);
          [a[0]] + DropEmptyQuotes(a[1..] + b);
          [a[0]] + (DropEmptyQuotes(a[1..]) + DropEmptyQuotes(b));
          ([a[0]] + DropEmptyQuotes(a[1..])) + DropEmptyQuotes(b);
        }
      }
    }
  }

  /** What the chart call is asked for: the parsed symbol, the first and last
      day ("YYYY-MM-DD") and the interval. The conversion of the days to epoch
      seconds happens on the client's side of this boundary. */
  datatype ChartQuery = ChartQuery(symbol: string, startDate: string, endDate: string, interval: string)

  /** The chart call: `None` when the response has no result, the call raised, or
      the dates did not parse. */
  type ChartCall = ChartQuery -> Option<seq<Quote>>

  /** `get_stock_data`: no client or no result gives an empty table; otherwise the
      rows of the chart for the parsed ticker that carry some price. */
  function GetStockData(client: Option<ChartCall>, ticker: string, startDate: string, endDate: string, interval: string): (rows: seq<Quote>)
    ensures client.None? ==> rows == []
    ensures var q := ChartQuery(ParseTicker(ticker), startDate, endDate, interval);
      client.Some? && client.value(q).None? ==> rows == []
    ensures var q := ChartQuery(ParseTicker(ticker), startDate, endDate, interval);
      client.Some? && client.value(q).Some? ==>
        && rows == DropEmptyQuotes(client.value(q).value)
        && (forall x :: x in rows <==> x in client.value(q).value && HasPrice(x))
        && (forall x :: multiset(rows)[x] == if HasPrice(x) then multiset(client.value(q).value)[x] else 0)
  {
    var query := ChartQuery(ParseTicker(ticker), startDate, endDate, interval);
    if client.None? then []
    else match client.value(query)
      case None => []
      case Some(quotes) => if quotes == [] then [] else DropEmptyQuotes(quotes)
  }

  /** `get_benchmark_data` goes through `get_stock_data`, so a benchmark symbol
      gets the suffix too: "^BVSP" is asked for as "^BVSP.SA". */
  function GetBenchmarkData(client: Option<ChartCall>, ticker: string, startDate: string, endDate: string, interval: string): seq<Quote> {
    GetStockData(client, ticker, startDate, endDate, interval)
  }

  lemma BenchmarkSymbolGetsSuffix(client: Option<ChartCall>, startDate: string, endDate: string, interval: string)
    ensures ParseTicker("^BVSP") == "^BVSP.SA"
    ensures GetBenchmarkData(client, "^BVSP", startDate, endDate, interval) == GetStockData(client, "^BVSP.SA", startDate, endDate, interval)
  {
    assert Upper("^BVSP") == "^BVSP";
    assert !EndsWith("^BVSP", Helpers.SaSuffix);
  }

  /** The fields `get_stock_info` extracts from the insights result; a field the
      result lacks is `PyNone`. */
  datatype Insights = Insights(
    symbol: PyValue, longName: PyValue, shortName: PyValue, sector: PyValue,
    currency: PyValue, exchangeName: PyValue, marketCap: PyValue)

  const InfoKeys: set<string> := {"symbol", "longName", "shortName", "sector", "currency", "exchangeName", "marketCap"}

  /** The `info` dict before filtering. */
  function InfoDict(res: Insights): (d: map<string, PyValue>)
    ensures d.Keys == InfoKeys
  {
    map["symbol" := res.symbol, "longName" := res.longName, "shortName" := res.shortName,
        "sector" := res.sector, "currency" := res.currency, "exchangeName" := res.exchangeName,
        "marketCap" := res.marketCap]
  }

  type InsightsCall = string -> Option<Insights>

  /** `get_stock_info`: no client or no result gives {}; otherwise the extracted
      fields without the ones that are None. */
  function GetStockInfo(client: Option<InsightsCall>, ticker: string): (info: map<string, PyValue>)
    ensures forall k :: k in info ==> info[k] != PyNone
    ensures info.Keys <= InfoKeys
    ensures client.None? ==> info == map[]
    ensures client.Some? && client.value(ParseTicker(ticker)).None? ==> info == map[]
    ensures client.Some? && client.value(ParseTicker(ticker)).Some? ==>
      var full := InfoDict(client.value(ParseTicker(ticker)).value);
      forall k :: k in InfoKeys ==> (k in info <==> full[k] != PyNone) && (k in info ==> info[k] == full[k])
  {
    if client.None? then map[]
    else match client.value(ParseTicker(ticker))
      case None => map[]
      case Some(res) =>
        var full := InfoDict(res);
        map k | k in full && full[k] != PyNone :: full[k]
  }
}
