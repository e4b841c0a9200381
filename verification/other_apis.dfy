/** The World Bank DataBank calls of data_collection/other_apis.py: the query
    of `list_world_bank_indicators`, and the filtering of the year-to-value
    pairs that `get_world_bank_indicator_data` turns into a table sorted by
    year. The DataBank client is a parameter (a function from the query to
    what `call_api` returns or raises); so are Python's `int()` on a year and
    `float()` on a string. */
module OtherApis {
  import opened Common
  import Sorting

  // Listing indicators

  /** A value of a query dict. */
  datatype QueryValue = QInt(i: int) | QStr(s: string)

  type Query = map<string, QueryValue>

  /** `call_api("DataBank/indicator_list", query=...)`: the response dict, or
      the exception it raised. */
  type ListClient = Query -> Outcome<map<string, PyValue>>

  /** The query of `list_world_bank_indicators`: the page and its size
      always, the search term only when it is a non-empty string. */
  function ListQuery(search: Option<string>, page: int, pageSize: int): (q: Query)
    ensures "page" in q && q["page"] == QInt(page)
    ensures "pageSize" in q && q["pageSize"] == QInt(pageSize)
    ensures "q" in q <==> search.Some? && search.value != ""
    ensures "q" in q ==> q["q"] == QStr(search.value)
    ensures q.Keys <= {"page", "pageSize", "q"}
  {
    var q := map["page" := QInt(page), "pageSize" := QInt(pageSize)];
    if search.Some? && search.value != "" then q["q" := QStr(search.value)] else q
  }

  /** `list_world_bank_indicators`: an empty dict without a client or when the
      call raises, the client's response otherwise. */
  function ListWorldBankIndicators(client: Option<ListClient>, search: Option<string>, page: int, pageSize: int): (r: map<string, PyValue>)
    ensures client.None? ==> r == map[]
    ensures client.Some? ==> match client.value(ListQuery(search, page, pageSize))
      case Returned(response) => r == response
      case Raised(_) => r == map[]
  {
    match client
    case None => map[]
    case Some(call) =>
      match call(ListQuery(search, page, pageSize))
      case Returned(response) => response
      case Raised(_) => map[]
  }

  // Indicator data

  /** One `(year_str, value)` pair of the response's "data" dict. */
  datatype Entry = Entry(yearText: string, value: PyValue)

  /** `call_api("DataBank/indicator_data", query=...)`: the items of the
      "data" dict in their order, `None` when the response or its "data" is
      empty, or the exception the call raised. */
  type DataClient = Query -> Outcome<Option<seq<Entry>>>

  /** Python's `int(year_str)` and `float(text)`; `None` stands for the
      ValueError they raise on text they cannot read. */
  datatype Parsers = Parsers(parseInt: string -> Option<int>, parseFloat: string -> Option<real>)

  /** The arguments of `get_world_bank_indicator_data`. */
  datatype Request = Request(indicator: string, country: string, startYear: Option<int>, endYear: Option<int>)

  /** A row of the result: Year, Value, Indicator and Country. */
  datatype Record = Record(year: int, value: real, indicator: string, country: string)

  function IndicatorQuery(request: Request): (q: Query)
    ensures q.Keys == {"indicator", "country"}
    ensures q["indicator"] == QStr(request.indicator) && q["country"] == QStr(request.country)
  {
    map["indicator" := QStr(request.indicator), "country" := QStr(request.country)]
  }

  /** `value is None or str(value).lower() == "null"`. */
  predicate IsNull(v: PyValue) {
    v.PyNone? || (v.PyStr? && Lower(v.s) == "null")
  }

  /** A bound limits the years only when it is truthy (given and not 0). */
  predicate InYears(year: int, request: Request) {
    && (request.startYear.None? || request.startYear.value == 0 || year >= request.startYear.value)
    && (request.endYear.None? || request.endYear.value == 0 || year <= request.endYear.value)
  }

  /** `float(value)`: numbers convert, a string is parsed (ValueError when it
      cannot be), anything else raises TypeError. */
  function FloatOf(v: PyValue, parsers: Parsers): (r: Outcome<real>)
    ensures IsNumeric(v) ==> r == Returned(AsReal(v))
    ensures v.PyStr? ==> (r.Raised? <==> parsers.parseFloat(v.s).None?) && (r.Raised? ==> r.exception == "ValueError")
    ensures (v.PyNone? || v.PyOther?) ==> r == Raised("TypeError")
  {
    if IsNumeric(v) then Returned(AsReal(v))
    else if v.PyStr? then
      (if parsers.parseFloat(v.s).Some? then Returned(parsers.parseFloat(v.s).value) else Raised("ValueError"))
    else Raised("TypeError")
  }

  /** What one pair does in the loop: skipped, kept as a record, or (a
      TypeError, which the inner `except ValueError` does not catch) aborting
      the whole call. */
  datatype Verdict = Skip | Keep(record: Record) | Abort

  function Judge(e: Entry, request: Request, parsers: Parsers): (v: Verdict)
    ensures v.Keep? <==>
      && parsers.parseInt(e.yearText).Some? && !IsNull(e.value)
      && InYears(parsers.parseInt(e.yearText).value, request)
      && FloatOf(e.value, parsers).Returned?
    ensures v.Keep? ==> v.record == Record(parsers.parseInt(e.yearText).value, FloatOf(e.value, parsers).value, request.indicator, request.country)
    ensures v.Abort? <==>
      && parsers.parseInt(e.yearText).Some? && !IsNull(e.value)
      && InYears(parsers.parseInt(e.yearText).value, request)
      && FloatOf(e.value, parsers).Raised? && FloatOf(e.value, parsers).exception != "ValueError"
  {
    match parsers.parseInt(e.yearText)
    case None => Skip
    case Some(year) =>
      if IsNull(e.value) || !InYears(year, request) then Skip
      else
        match FloatOf(e.value, parsers)
        case Returned(x) => Keep(Record(year, x, request.indicator, request.country))
        case Raised(exception) => if exception == "ValueError" then Skip else Abort
  }

  /** The records `valid_data` collects from the pairs, in their order; `None`
      when a pair aborts the call. */
  function Kept(entries: seq<Entry>, request: Request, parsers: Parsers): (r: Option<seq<Record>>)
    ensures r.None? <==> exists k :: 0 <= k < |entries| && Judge(entries[k], request, parsers).Abort?
    ensures r.Some? ==> forall x :: x in r.value <==> exists k :: 0 <= k < |entries| && Judge(entries[k], request, parsers) == Keep(x)
  {
    if entries == [] then Some([])
    else
      var n := |entries| - 1;
      var init := entries[..n];
      assert forall k :: 0 <= k < n ==> init[k] == entries[k];
      match Kept(init, request, parsers)
      case None =>
        var k :| 0 <= k < n && Judge(init[k], request, parsers).Abort?;
        assert Judge(entries[k], request, parsers).Abort?;
        None
      case Some(rows) =>
        match Judge(entries[n], request, parsers)
        case Abort => None
        case Skip =>
          Some(rows)
        case Keep(x) =>
          Some(rows + [x])
  }

  function ByYear(x: Record): Sorting.Key {
    Sorting.Key(x.year as real, 0.0, 0.0)
  }

  /** The whole of `get_world_bank_indicator_data`: an empty table without a
      client, when the call raises, when it returns no data, when a pair
      aborts or when no pair is kept; otherwise the kept records sorted by
      year. */
  function IndicatorTable(client: Option<DataClient>, request: Request, parsers: Parsers): (t: seq<Record>)
    ensures client.None? ==> t == []
    ensures client.Some? && client.value(IndicatorQuery(request)).Raised? ==> t == []
    ensures client.Some? && client.value(IndicatorQuery(request)) == Returned(None) ==> t == []
    ensures client.Some? && client.value(IndicatorQuery(request)).Returned? && client.value(IndicatorQuery(request)).value.Some? ==>
      var entries := client.value(IndicatorQuery(request)).value.value;
      Kept(entries, request, parsers).None? || Kept(entries, request, parsers).value == [] ==> t == []
    ensures forall i, j :: 0 <= i < j < |t| ==> t[i].year <= t[j].year
    ensures forall x :: x in t ==> x.indicator == request.indicator && x.country == request.country && InYears(x.year, request)
  {
    match client
    case None => []
    case Some(call) =>
      match call(IndicatorQuery(request))
      case Raised(_) => []
      case Returned(None) => []
      case Returned(Some(entries)) =>
        match Kept(entries, request, parsers)
        case None => []
        case Some(rows) =>
          var t := Sorting.SortBy(rows, ByYear);
          forall i, j | 0 <= i < j < |t| ensures t[i].year <= t[j].year {
            assert Sorting.KeyLe(ByYear(t[i]), ByYear(t[j]));
          }
          Sorting.SortByElements(rows, ByYear);
          t
  }

  /** The table holds exactly the records of the kept pairs, each as often as
      they were collected, and nothing when some pair aborts. */
  lemma IndicatorTableRecords(client: DataClient, request: Request, parsers: Parsers, entries: seq<Entry>)
    requires client(IndicatorQuery(request)) == Returned(Some(entries))
    ensures var t := IndicatorTable(Some(client), request, parsers);
      && ((exists k :: 0 <= k < |entries| && Judge(entries[k], request, parsers).Abort?) ==> t == [])
      && (Kept(entries, request, parsers).Some? ==> multiset(t) == multiset(Kept(entries, request, parsers).value))
      && (Kept(entries, request, parsers).Some? ==>
            forall x :: x in t <==> exists k :: 0 <= k < |entries| && Judge(entries[k], request, parsers) == Keep(x))
  {
    var kept := Kept(entries, request, parsers);
    if kept.Some? {
      var t := IndicatorTable(Some(client), request, parsers);
      assert t == Sorting.SortBy(kept.value, ByYear);
      Sorting.SortByElements(kept.value, ByYear);
    }
  }

  /** `get_world_bank_indicator_data`: the loop over the pairs, appending the
      kept ones to `valid_data`, then the sort by year. */
  method GetWorldBankIndicatorData(client: Option<DataClient>, request: Request, parsers: Parsers) returns (table: seq<Record>)
    ensures table == IndicatorTable(client, request, parsers)
  {
    if client.None? {
      return [];
    }
    var response := client.value(IndicatorQuery(request));
    if response.Raised? || response.value.None? {
      return [];
    }
    var entries := response.value.value;
    var validData: seq<Record> := [];
    var i := 0;
    while i < |entries|
      invariant 0 <= i <= |entries|
      invariant Kept(entries[..i], request, parsers) == Some(validData)
    {
      assert entries[..i + 1][..i] == entries[..i];
      var verdict := Judge(entries[i], request, parsers);
      if verdict.Abort? {
        assert entries[..i + 1][i] == entries[i];
        KeptAbortsOnPrefix(entries, i + 1, request, parsers);
        return [];
      }
      if verdict.Keep? {
        validData := validData + [verdict.record];
      }
      i := i + 1;
    }
    assert entries[..i] == entries;
    if validData == [] {
      return [];
    }
    table := Sorting.SortBy(validData, ByYear);
  }

  /** A pair that aborts in a prefix aborts the whole call. */
  lemma KeptAbortsOnPrefix(entries: seq<Entry>, n: nat, request: Request, parsers: Parsers)
    requires n <= |entries| && Kept(entries[..n], request, parsers).None?
    ensures Kept(entries, request, parsers).None?
  {
    var k :| 0 <= k < n && Judge(entries[..n][k], request, parsers).Abort?;
    assert entries[..n][k] == entries[k];
  }
}
