/** The analysis and the suggestions of analysis/portfolio_analyzer.py: the
    exposure of the portfolio's sectors to the current macro scenario, the
    valuation score of a candidate, and the ranked, equally split contribution
    suggestions; and the `PortfolioSuggestor` object that holds the prepared
    portfolio, the price series and the list of potential new investments.
    The data fetcher (`get_stock_info`) and the valuation class are
    caller-supplied functions; the macro analyzer is the
    `MacroEconomicAnalysis` of the macro model. */
module PortfolioAnalyzer {
  import opened Common
  import Helpers
  import Sorting
  import MacroAnalysis
  import Valuation
  import PortfolioSectors
  import opened PortfolioData

  // Exposure to the macro scenario

  /** The comment `analyze_sector_exposure` writes for a sector. */
  datatype Comment =
    | Underexposed     // favoured sector under 10%: increase the exposure
    | Adequate         // favoured sector at 10% or more: keep it
    | Overexposed      // unfavoured sector over 5%: consider reducing it
    | Neutral          // sensitivity 0
    | SensitivityOnly  // any other numeric sensitivity: just reported
    | NotMapped        // the scenario does not list the sector

  /** The ordered rule of the comment. Its last numeric case is reached exactly
      by an unfavoured sector of at most 5%. */
  function CommentFor(sensitivity: Option<int>, weight: real): (c: Comment)
    ensures c == Underexposed <==> sensitivity.Some? && sensitivity.value > 0 && weight < 0.10
    ensures c == Adequate <==> sensitivity.Some? && sensitivity.value > 0 && weight >= 0.10
    ensures c == Overexposed <==> sensitivity.Some? && sensitivity.value < 0 && weight > 0.05
    ensures c == Neutral <==> sensitivity == Some(0)
    ensures c == SensitivityOnly <==> sensitivity.Some? && sensitivity.value < 0 && weight <= 0.05
    ensures c == NotMapped <==> sensitivity.None?
  {
    match sensitivity
    case None => NotMapped
    case Some(s) =>
      if s > 0 && weight < 0.10 then Underexposed
      else if s > 0 && weight >= 0.10 then Adequate
      else if s < 0 && weight > 0.05 then Overexposed
      else if s == 0 then Neutral
      else SensitivityOnly
  }

  /** A row of the exposure table: Setor, PesoCarteira, SensibilidadeCenario
      (None for "N/A") and Comentario. */
  datatype ExposureRow = ExposureRow(sector: string, weight: real, sensitivity: Option<int>, comment: Comment)

  /** The row the loop builds for one sector. */
  function ExposureFor(summary: seq<SectorRow>, sensitivities: map<string, int>, s: string): ExposureRow {
    var weight := SectorWeight(summary, s);
    var sensitivity := if s in sensitivities then Some(sensitivities[s]) else None;
    ExposureRow(s, weight, sensitivity, CommentFor(sensitivity, weight))
  }

  function SummarySectors(summary: seq<SectorRow>): set<string> {
    set r | r in summary :: r.sector
  }

  function RowSectors(rows: seq<ExposureRow>): set<string> {
    set r | r in rows :: r.sector
  }

  /** What the loop of `analyze_sector_exposure` builds, in whatever order the
      iteration over the set of sectors takes: one row per sector of the summary
      or of the scenario, and no other. */
  predicate ExposureTable(rows: seq<ExposureRow>, summary: seq<SectorRow>, sensitivities: map<string, int>) {
    RowSectors(rows) == SummarySectors(summary) + sensitivities.Keys && ExposureRowsOf(rows, summary, sensitivities)
  }

  /** Rows of distinct sectors, each the row of its sector. */
  predicate ExposureRowsOf(rows: seq<ExposureRow>, summary: seq<SectorRow>, sensitivities: map<string, int>) {
    && (forall i, j :: 0 <= i < j < |rows| ==> rows[i].sector != rows[j].sector)
    && (forall r :: r in rows ==> r == ExposureFor(summary, sensitivities, r.sector))
  }

  /** One step of the loop: the row of a new sector. */
  lemma ExposureRowsSnoc(rows: seq<ExposureRow>, summary: seq<SectorRow>, sensitivities: map<string, int>, s: string)
    requires ExposureRowsOf(rows, summary, sensitivities)
    requires s !in RowSectors(rows)
    ensures ExposureRowsOf(rows + [ExposureFor(summary, sensitivities, s)], summary, sensitivities)
    ensures RowSectors(rows + [ExposureFor(summary, sensitivities, s)]) == RowSectors(rows) + {s}
  {
    var x := ExposureFor(summary, sensitivities, s);
    assert forall i :: 0 <= i < |rows| ==> rows[i].sector in RowSectors(rows);
    assert forall r :: r in rows + [x] <==> r in rows || r == x;
    RowSectorsSnoc(rows, x);
  }

  /** The loop of `ExposureRows` keeps its invariant when it takes one more
      sector out of the remaining ones. */
  lemma ExposureStep(rows: seq<ExposureRow>, summary: seq<SectorRow>, sensitivities: map<string, int>,
                     all: set<string>, remaining: set<string>, s: string)
    requires remaining <= all && s in remaining
    requires RowSectors(rows) == all - remaining
    requires ExposureRowsOf(rows, summary, sensitivities)
    ensures var next := rows + [ExposureFor(summary, sensitivities, s)];
      && RowSectors(next) == all - (remaining - {s})
      && ExposureRowsOf(next, summary, sensitivities)
  {
    ExposureRowsSnoc(rows, summary, sensitivities, s);
  }

  lemma RowSectorsSnoc(rows: seq<ExposureRow>, x: ExposureRow)
    ensures RowSectors(rows + [x]) == RowSectors(rows) + {x.sector}
  {
    assert forall r :: r in rows + [x] <==> r in rows || r == x;
  }

  lemma RowSectorsPermutation(a: seq<ExposureRow>, b: seq<ExposureRow>)
    requires multiset(a) == multiset(b)
    ensures RowSectors(a) == RowSectors(b)
  {
    assert forall r :: r in a <==> r in multiset(a);
    assert forall r :: r in b <==> r in multiset(b);
  }

  /** Reordering the table keeps it the table. */
  lemma ExposureTablePermutation(a: seq<ExposureRow>, b: seq<ExposureRow>, summary: seq<SectorRow>, sensitivities: map<string, int>)
    requires ExposureTable(a, summary, sensitivities)
    requires multiset(a) == multiset(b)
    ensures ExposureTable(b, summary, sensitivities)
  {
    RowSectorsPermutation(a, b);
    assert NoDuplicates(a);
    PermutationNoDuplicates(a, b);
    forall i, j | 0 <= i < j < |b| ensures b[i].sector != b[j].sector {
      assert b[i] in multiset(a) && b[j] in multiset(a);
      assert b[i] == ExposureFor(summary, sensitivities, b[i].sector);
      assert b[j] == ExposureFor(summary, sensitivities, b[j].sector);
    }
    forall r | r in b ensures r == ExposureFor(summary, sensitivities, r.sector) {
      assert r in multiset(b);
    }
  }

  /** In the table of a prepared portfolio, the weight of a sector is its share
      of the portfolio's value (0 for a sector only the scenario lists), and
      the sensitivity is the scenario's, "N/A" for a sector it does not list. */
  lemma ExposureWeights(ps: seq<Position>, rows: seq<ExposureRow>, sensitivities: map<string, int>)
    requires ExposureTable(rows, PortfolioSummary(ps), sensitivities)
    ensures forall r :: r in rows ==>
      && r.weight == (if r.sector in SectorColumn(ps) then WeightFor(SectorValue(ps, r.sector), SumOf(ps, ValueOf)) else 0.0)
      && (r.sensitivity.Some? <==> r.sector in sensitivities)
      && (r.sensitivity.Some? ==> r.sensitivity.value == sensitivities[r.sector])
  {
    forall r | r in rows
      ensures r.weight == (if r.sector in SectorColumn(ps) then WeightFor(SectorValue(ps, r.sector), SumOf(ps, ValueOf)) else 0.0)
    {
      SummarySectorWeight(ps, r.sector);
    }
  }

  /** The sort `analyze_sector_exposure` evidently intends: by sensitivity,
      highest first, with the "N/A" rows after every numeric one. */
  function BySensitivity(r: ExposureRow): Sorting.Key {
    if r.sensitivity.Some? then Sorting.Key(0.0, -(r.sensitivity.value as real), 0.0)
    else Sorting.Key(1.0, 0.0, 0.0)
  }

  function ExposureSort(rows: seq<ExposureRow>): (r: seq<ExposureRow>)
    ensures multiset(r) == multiset(rows)
    ensures forall i, j :: 0 <= i < j < |r| && r[j].sensitivity.Some? ==>
      r[i].sensitivity.Some? && r[i].sensitivity.value >= r[j].sensitivity.value
  {
    var r := Sorting.SortBy(rows, BySensitivity);
    assert forall i, j :: 0 <= i < j < |r| ==> Sorting.KeyLe(BySensitivity(r[i]), BySensitivity(r[j]));
    r
  }

  /** The sort as written: `sort_values` on a column that holds both ints and
      the string "N/A" compares a str with an int, and Python raises TypeError;
      a column of one kind sorts (descending, ties in any order). */
  predicate MixesKinds(rows: seq<ExposureRow>) {
    && (exists i :: 0 <= i < |rows| && rows[i].sensitivity.None?)
    && (exists j :: 0 <= j < |rows| && rows[j].sensitivity.Some?)
  }

  function ByNumericSensitivity(r: ExposureRow): Sorting.Key {
    Sorting.Key(if r.sensitivity.Some? then -(r.sensitivity.value as real) else 0.0, 0.0, 0.0)
  }

  function ExposureSortAsWritten(rows: seq<ExposureRow>): (r: Outcome<seq<ExposureRow>>)
    ensures r.Raised? <==> MixesKinds(rows)
    ensures r.Returned? ==> multiset(r.value) == multiset(rows)
  {
    if MixesKinds(rows) then Raised("TypeError")
    else Returned(Sorting.SortBy(rows, ByNumericSensitivity))
  }

  /** As written, the analysis raises whenever the portfolio holds a sector the
      scenario does not list (and the scenario lists some sector): that sector
      gets "N/A" next to the scenario's numbers. */
  lemma ExposureRaisesAsWritten(ps: seq<Position>, sensitivities: map<string, int>, rows: seq<ExposureRow>, i: nat)
    requires ExposureTable(rows, PortfolioSummary(ps), sensitivities)
    requires i < |ps| && ps[i].sector !in sensitivities
    requires sensitivities != map[]
    ensures ExposureSortAsWritten(rows).Raised?
  {
    var summary := PortfolioSummary(ps);
    assert ps[i].sector in SectorColumn(ps);
    SummaryCoversSectors(ps, ps[i].sector);
    var x :| x in summary && x.sector == ps[i].sector;
    assert ps[i].sector in RowSectors(rows);
    var a :| a in rows && a.sector == ps[i].sector;
    var k :| k in sensitivities;
    assert k in RowSectors(rows);
    var b :| b in rows && b.sector == k;
    var ia :| 0 <= ia < |rows| && rows[ia] == a;
    var ib :| 0 <= ib < |rows| && rows[ib] == b;
    assert rows[ia].sensitivity.None? && rows[ib].sensitivity.Some?;
  }

  /** A one-stock portfolio in "Petróleo e Gás", analysed by a fresh macro
      analyzer: with no data the analyzer settles on "Inflação Controlada
      (Meta)", whose only sector is the general one, so the sort as written
      raises. */
  const PetrobrasOnly: seq<Position> := [Position("PETR4.SA", 100.0, 25.0, 30.0, 3000.0, 1.0, "Petróleo e Gás")]

  lemma ExposureCounterexample(rows: seq<ExposureRow>)
    requires ExposureTable(rows, PortfolioSummary(PetrobrasOnly),
      MacroAnalysis.DetailsFor(MacroAnalysis.NextScenarioName(MacroAnalysis.NotDefined, None, None, None, None)))
    ensures ExposureSortAsWritten(rows).Raised?
  {
    MacroAnalysis.DefaultScenario();
    var sensitivities := MacroAnalysis.DetailsFor(MacroAnalysis.ControlledInflation);
    assert PetrobrasOnly[0].sector !in sensitivities.Keys;
    ExposureRaisesAsWritten(PetrobrasOnly, sensitivities, rows, 0);
  }

  // Candidates and their valuation score

  /** A row of the favoured sectors: SensibilidadeCenario > 0 and
      PesoCarteira < 0.25. */
  datatype FavoredSector = FavoredSector(sector: string, sensitivity: int, weight: real)

  predicate IsFavored(r: ExposureRow) {
    r.sensitivity.Some? && r.sensitivity.value > 0 && r.weight < 0.25
  }

  function FavoredRows(rows: seq<ExposureRow>): (r: seq<FavoredSector>)
    ensures forall f :: f in r <==> exists x :: x in rows && IsFavored(x) && f == FavoredSector(x.sector, x.sensitivity.value, x.weight)
  {
    if rows == [] then []
    else
      var rest := FavoredRows(rows[1..]);
      assert forall x :: x in rows <==> x == rows[0] || x in rows[1..];
      if IsFavored(rows[0]) then [FavoredSector(rows[0].sector, rows[0].sensitivity.value, rows[0].weight)] + rest
      else rest
  }

  /** The filter as written: `SensibilidadeCenario > 0` compares every cell
      with 0, and a "N/A" cell is a str, so Python raises TypeError; without
      "N/A" it is the filter above. */
  function FavoredRowsAsWritten(rows: seq<ExposureRow>): (r: Outcome<seq<FavoredSector>>)
    ensures r.Raised? <==> exists i :: 0 <= i < |rows| && rows[i].sensitivity.None?
    ensures r.Returned? ==> r.value == FavoredRows(rows)
  {
    if exists i :: 0 <= i < |rows| && rows[i].sensitivity.None? then Raised("TypeError")
    else Returned(FavoredRows(rows))
  }

  /** Once the sort is corrected, the filter as written still raises whenever
      the portfolio holds a sector the scenario does not list. */
  lemma FavoredRaisesAsWritten(ps: seq<Position>, sensitivities: map<string, int>, rows: seq<ExposureRow>, i: nat)
    requires ExposureTable(rows, PortfolioSummary(ps), sensitivities)
    requires i < |ps| && ps[i].sector !in sensitivities
    ensures FavoredRowsAsWritten(ExposureSort(rows)).Raised?
  {
    var sorted := ExposureSort(rows);
    ExposureTablePermutation(rows, sorted, PortfolioSummary(ps), sensitivities);
    assert ps[i].sector in SectorColumn(ps);
    SummaryCoversSectors(ps, ps[i].sector);
    assert ps[i].sector in RowSectors(sorted);
    var a :| a in sorted && a.sector == ps[i].sector;
    var ia :| 0 <= ia < |sorted| && sorted[ia] == a;
    assert sorted[ia].sensitivity.None?;
  }

  /** The one-stock portfolio again: with the sort corrected, the filter as
      written raises on its "N/A" row. */
  lemma FavoredCounterexample(rows: seq<ExposureRow>)
    requires ExposureTable(rows, PortfolioSummary(PetrobrasOnly),
      MacroAnalysis.DetailsFor(MacroAnalysis.NextScenarioName(MacroAnalysis.NotDefined, None, None, None, None)))
    ensures FavoredRowsAsWritten(ExposureSort(rows)).Raised?
  {
    MacroAnalysis.DefaultScenario();
    var sensitivities := MacroAnalysis.DetailsFor(MacroAnalysis.ControlledInflation);
    assert PetrobrasOnly[0].sector !in sensitivities.Keys;
    FavoredRaisesAsWritten(PetrobrasOnly, sensitivities, rows, 0);
  }

  function ByFavor(f: FavoredSector): Sorting.Key {
    Sorting.Key(-(f.sensitivity as real), 0.0, 0.0)
  }

  /** The favoured sectors, most sensitive first. */
  function FavoredSectors(rows: seq<ExposureRow>): (r: seq<FavoredSector>)
    ensures forall f :: f in r <==> exists x :: x in rows && IsFavored(x) && f == FavoredSector(x.sector, x.sensitivity.value, x.weight)
    ensures forall f :: f in r ==> f.sensitivity > 0 && f.weight < 0.25
    ensures forall i, j :: 0 <= i < j < |r| ==> r[i].sensitivity >= r[j].sensitivity
  {
    var favored := FavoredRows(rows);
    var r := Sorting.SortBy(favored, ByFavor);
    Sorting.SortByElements(favored, ByFavor);
    assert forall i, j :: 0 <= i < j < |r| ==> Sorting.KeyLe(ByFavor(r[i]), ByFavor(r[j]));
    r
  }

  /** The screener stand-in: symbols considered besides the portfolio's. */
  const MockCandidates: seq<string> := ["WEGE3.SA", "RENT3.SA", "PRIO3.SA"]

  function TickerColumn(ps: seq<Position>): (r: seq<string>)
    ensures |r| == |ps| && forall i :: 0 <= i < |ps| ==> r[i] == ps[i].ticker
  {
    seq(|ps|, i requires 0 <= i < |ps| => ps[i].ticker)
  }

  /** The symbols the mock loop appends to the candidates, in order: those not
      yet among them. */
  function Missing(candidates: seq<string>, symbols: seq<string>): (r: seq<string>)
    ensures forall x :: x in r ==> x in symbols && x !in candidates
    ensures forall x :: x in symbols ==> x in candidates || x in r
    ensures NoDuplicates(candidates) ==> NoDuplicates(candidates + r)
  {
    if symbols == [] then []
    else
      var init := Missing(candidates, symbols[..|symbols| - 1]);
      var last := symbols[|symbols| - 1];
      assert forall x :: x in symbols ==> x in symbols[..|symbols| - 1] || x == last;
      if last in candidates + init then init
      else
        assert candidates + (init + [last]) == (candidates + init) + [last];
        init + [last]
  }

  /** The candidate tickers: the portfolio's, once each in order of first
      appearance, then the mock symbols not among them. */
  function Candidates(ps: seq<Position>): (r: seq<string>)
    ensures NoDuplicates(r)
    ensures forall x :: x in r <==> x in TickerColumn(ps) || x in MockCandidates
  {
    var own := Distinct(TickerColumn(ps));
    own + Missing(own, MockCandidates)
  }

  /** The infos fetched for the appended symbols. */
  function FetchAll(fetch: PortfolioSectors.InfoCall, symbols: seq<string>): (r: seq<PortfolioSectors.StockInfo>)
    ensures |r| == |symbols| && forall i :: 0 <= i < |symbols| ==> r[i] == fetch(symbols[i])
  {
    seq(|symbols|, i requires 0 <= i < |symbols| => fetch(symbols[i]))
  }

  /** `info.get("regularMarketPrice")` when it is a truthy number. */
  function MarketPrice(info: PortfolioSectors.StockInfo): (r: Option<real>)
    ensures r.Some? ==> r.value != 0.0
    ensures r.Some? <==> "regularMarketPrice" in info && IsNumeric(info["regularMarketPrice"]) && Truthy(info["regularMarketPrice"])
  {
    if "regularMarketPrice" in info && IsNumeric(info["regularMarketPrice"]) && AsReal(info["regularMarketPrice"]) != 0.0
    then Some(AsReal(info["regularMarketPrice"])) else None
  }

  predicate HasSymbol(info: PortfolioSectors.StockInfo, ticker: string) {
    "symbol" in info && info["symbol"] == PyStr(ticker)
  }

  /** Entry i is the first to carry the symbol. */
  predicate FirstMatchAt(potentials: seq<PortfolioSectors.StockInfo>, ticker: string, i: int) {
    && 0 <= i < |potentials| && HasSymbol(potentials[i], ticker)
    && forall j :: 0 <= j < i ==> !HasSymbol(potentials[j], ticker)
  }

  /** `next(item for item in potentials if item.get("symbol") == ticker)`. */
  function FirstWithSymbol(potentials: seq<PortfolioSectors.StockInfo>, ticker: string): (r: Option<PortfolioSectors.StockInfo>)
    ensures r.Some? ==> r.value in potentials && HasSymbol(r.value, ticker)
    ensures r.Some? ==> exists i :: FirstMatchAt(potentials, ticker, i) && potentials[i] == r.value
    ensures r.None? ==> forall x :: x in potentials ==> !HasSymbol(x, ticker)
  {
    if potentials == [] then None
    else if HasSymbol(potentials[0], ticker) then Some(potentials[0])
    else
      var r := FirstWithSymbol(potentials[1..], ticker);
      assert r.Some? ==> exists i :: FirstMatchAt(potentials, ticker, i) && potentials[i] == r.value by {
        if r.Some? {
          var i :| FirstMatchAt(potentials[1..], ticker, i) && potentials[1..][i] == r.value;
          assert potentials[i + 1] == r.value;
          forall j | 0 <= j < i + 1 ensures !HasSymbol(potentials[j], ticker) {
            if j > 0 { assert potentials[j] == potentials[1..][j - 1]; }
          }
          assert FirstMatchAt(potentials, ticker, i + 1);
        }
      }
      r
  }

  /** The info a candidate is valued on: the fetched one when it has a price,
      else the first potential new investment with that symbol, when it has
      one; nothing otherwise (the candidate is skipped). */
  function CandidateInfo(fetch: PortfolioSectors.InfoCall, potentials: seq<PortfolioSectors.StockInfo>, ticker: string): (r: Option<PortfolioSectors.StockInfo>)
    ensures r.Some? ==> MarketPrice(r.value).Some?
    ensures MarketPrice(fetch(ticker)).Some? ==> r == Some(fetch(ticker))
    ensures MarketPrice(fetch(ticker)).None? && r.Some? ==> r == FirstWithSymbol(potentials, ticker)
    ensures MarketPrice(fetch(ticker)).None? && r.None? ==>
      FirstWithSymbol(potentials, ticker).None? || MarketPrice(FirstWithSymbol(potentials, ticker).value).None?
  {
    var info := fetch(ticker);
    if MarketPrice(info).Some? then Some(info)
    else
      var candidate := FirstWithSymbol(potentials, ticker);
      if candidate.Some? && MarketPrice(candidate.value).Some? then candidate else None
  }

  /** The valuation class: `ValuationModels(stock_info_data=info).get_all_valuations()`. */
  type ValuationCall = PortfolioSectors.StockInfo -> Valuation.Summary

  /** A model value that earns points: present, non-zero, and above the price. */
  predicate Below(price: real, value: Option<real>) {
    value.Some? && value.value != 0.0 && price < value.value
  }

  /** A multiple as the score reads it: a float (formatted, hence a non-empty
      string) or a non-zero int. */
  function MultipleValue(multiples: Option<map<string, PyValue>>, key: string): (r: Option<real>)
    ensures r.Some? ==> multiples.Some? && key in multiples.value && IsNumeric(multiples.value[key])
  {
    if multiples.Some? && key in multiples.value then
      var v := multiples.value[key];
      if v.PyFloat? then Some(v.f)
      else if IsNumeric(v) && Truthy(v) then Some(AsReal(v))
      else None
    else None
  }

  predicate MultipleBelow(multiples: Option<map<string, PyValue>>, key: string, bound: real) {
    MultipleValue(multiples, key).Some? && MultipleValue(multiples, key).value < bound
  }

  /** The valuation score: 2 for a price under the Graham number, 1 for a price
      under the Bazin price, 1 for a P/L under 15, 1 for a P/VP under 2. */
  function ValuationScore(price: real, v: Valuation.Summary): (score: nat)
    ensures score <= 5
    ensures Below(price, v.graham) ==> score >= 2
  {
    (if Below(price, v.graham) then 2 else 0)
    + (if Below(price, v.bazin) then 1 else 0)
    + (if MultipleBelow(v.multiples, "P/L", 15.0) then 1 else 0)
    + (if MultipleBelow(v.multiples, "P/VP", 2.0) then 1 else 0)
  }

  /** A candidate passes the threshold (score > 1) exactly when its price is
      under the Graham number, or when two of the three other tests hold. */
  lemma ScoreThreshold(price: real, v: Valuation.Summary)
    ensures ValuationScore(price, v) > 1 <==>
      || Below(price, v.graham)
      || (Below(price, v.bazin) && MultipleBelow(v.multiples, "P/L", 15.0))
      || (Below(price, v.bazin) && MultipleBelow(v.multiples, "P/VP", 2.0))
      || (MultipleBelow(v.multiples, "P/L", 15.0) && MultipleBelow(v.multiples, "P/VP", 2.0))
  {
  }

  /** An entry of `opportunities`. */
  datatype Opportunity = Opportunity(ticker: string, sector: string, price: real, score: nat, sensitivity: int, sectorWeight: real)

  /** The body of the inner loop for one favoured sector and one candidate. */
  function TickerOpportunity(fetch: PortfolioSectors.InfoCall, valuation: ValuationCall, potentials: seq<PortfolioSectors.StockInfo>,
                             f: FavoredSector, ticker: string): (r: Option<Opportunity>)
    ensures r.Some? <==>
      && PortfolioSectors.SectorForTicker(Some(fetch), ticker) == f.sector
      && CandidateInfo(fetch, potentials, ticker).Some?
      && ValuationScore(MarketPrice(CandidateInfo(fetch, potentials, ticker).value).value,
                        valuation(CandidateInfo(fetch, potentials, ticker).value)) > 1
    ensures r.Some? ==>
      && r.value.ticker == ticker && r.value.sector == f.sector
      && r.value.sensitivity == f.sensitivity && r.value.sectorWeight == f.weight
      && r.value.score > 1 && r.value.price != 0.0
  {
    if PortfolioSectors.SectorForTicker(Some(fetch), ticker) != f.sector then None
    else match CandidateInfo(fetch, potentials, ticker)
      case None => None
      case Some(info) =>
        var price := MarketPrice(info).value;
        var score := ValuationScore(price, valuation(info));
        if score > 1 then Some(Opportunity(ticker, f.sector, price, score, f.sensitivity, f.weight)) else None
  }

  /** What the inner loop appends for one favoured sector. */
  function SectorOpportunities(fetch: PortfolioSectors.InfoCall, valuation: ValuationCall, potentials: seq<PortfolioSectors.StockInfo>,
                               f: FavoredSector, tickers: seq<string>): (r: seq<Opportunity>)
    ensures forall o :: o in r ==>
      && o.ticker in tickers && o.sector == f.sector && o.sensitivity == f.sensitivity && o.sectorWeight == f.weight
      && o.score > 1 && PortfolioSectors.SectorForTicker(Some(fetch), o.ticker) == f.sector
    ensures forall t :: t in tickers && TickerOpportunity(fetch, valuation, potentials, f, t).Some? ==>
      TickerOpportunity(fetch, valuation, potentials, f, t).value in r
  {
    if tickers == [] then []
    else
      var init := SectorOpportunities(fetch, valuation, potentials, f, tickers[..|tickers| - 1]);
      var o := TickerOpportunity(fetch, valuation, potentials, f, tickers[|tickers| - 1]);
      assert forall t :: t in tickers[..|tickers| - 1] ==> t in tickers;
      assert forall t :: t in tickers ==> t in tickers[..|tickers| - 1] || t == tickers[|tickers| - 1];
      if o.Some? then init + [o.value] else init
  }

  /** What the outer loop has appended after the given favoured sectors. */
  function AllOpportunities(fetch: PortfolioSectors.InfoCall, valuation: ValuationCall, potentials: seq<PortfolioSectors.StockInfo>,
                            favored: seq<FavoredSector>, tickers: seq<string>): (r: seq<Opportunity>)
    ensures forall o :: o in r ==>
      && o.ticker in tickers && FavoredSector(o.sector, o.sensitivity, o.sectorWeight) in favored
      && o.score > 1 && PortfolioSectors.SectorForTicker(Some(fetch), o.ticker) == o.sector
    ensures forall f, t :: f in favored && t in tickers && TickerOpportunity(fetch, valuation, potentials, f, t).Some? ==>
      TickerOpportunity(fetch, valuation, potentials, f, t).value in r
  {
    if favored == [] then []
    else
      var init := AllOpportunities(fetch, valuation, potentials, favored[..|favored| - 1], tickers);
      var last := favored[|favored| - 1];
      assert forall f :: f in favored[..|favored| - 1] ==> f in favored;
      assert forall f :: f in favored ==> f in favored[..|favored| - 1] || f == last;
      init + SectorOpportunities(fetch, valuation, potentials, last, tickers)
  }

  // Ranking and splitting

  /** Sensitivity descending, then score descending, then sector weight
      ascending. */
  function ByPriority(o: Opportunity): Sorting.Key {
    Sorting.Key(-(o.sensitivity as real), -(o.score as real), o.sectorWeight)
  }

  /** `head(n)`: the first n rows; a negative n drops the last |n| rows. */
  function Head<T>(s: seq<T>, n: int): (r: seq<T>)
    ensures |r| == (if n >= 0 then (if n < |s| then n else |s|) else (if |s| + n > 0 then |s| + n else 0))
    ensures r == s[..|r|]
  {
    if n >= 0 then (if n < |s| then s[..n] else s)
    else if |s| + n > 0 then s[..|s| + n]
    else []
  }

  /** A suggested contribution: the opportunity and the amount it gets. */
  datatype Suggestion = Suggestion(opportunity: Opportunity, amount: real)

  function AmountOf(s: Suggestion): real { s.amount }

  /** What `suggest_contributions` returns: the single "N/A" row with its
      message, or the suggestions. */
  datatype Suggestions = Placeholder(message: string) | Suggested(rows: seq<Suggestion>)

  const NotConfigured := "Módulos de dados ou valuation não configurados."

  const NoOpportunity := "Nenhuma oportunidade clara encontrada com os critérios atuais."

  /** Every suggestion gets the same share of the contribution. */
  function EqualSplit(top: seq<Opportunity>, contribution: real): (r: seq<Suggestion>)
    requires top != []
    ensures |r| == |top|
    ensures forall i :: 0 <= i < |r| ==> r[i].opportunity == top[i]
    ensures SumOf(r, AmountOf) == contribution
  {
    var n := |top| as real;
    var share := contribution / n;
    var r := seq(|top|, i requires 0 <= i < |top| => Suggestion(top[i], share));
    SumOfConstant(r, AmountOf, share);
    assert n * share == contribution;
    r
  }

  /** The end of `suggest_contributions`: rank, keep the first n, split. */
  function SuggestionsFor(opportunities: seq<Opportunity>, n: int, contribution: real): Suggestions {
    if opportunities == [] then Placeholder(NoOpportunity)
    else
      var top := Head(Sorting.SortBy(opportunities, ByPriority), n);
      if top == [] then Placeholder(NoOpportunity) else Suggested(EqualSplit(top, contribution))
  }

  /** How many rows come out: min(n, #opportunities) for n >= 0, all but the
      last |n| for a negative n; none means the "no opportunity" row. */
  lemma SuggestionsCount(opportunities: seq<Opportunity>, n: int, contribution: real)
    ensures var k := if n >= 0 then (if n < |opportunities| then n else |opportunities|)
                     else (if |opportunities| + n > 0 then |opportunities| + n else 0);
      var r := SuggestionsFor(opportunities, n, contribution);
      && (r.Placeholder? <==> k == 0)
      && (r.Placeholder? ==> r.message == NoOpportunity)
      && (r.Suggested? ==> |r.rows| == k)
  {
    if opportunities != [] {
      Sorting.SortByElements(opportunities, ByPriority);
    }
  }

  /** The opportunities the suggestion rows carry, in order. */
  function Chosen(rows: seq<Suggestion>): seq<Opportunity> {
    seq(|rows|, i requires 0 <= i < |rows| => rows[i].opportunity)
  }

  /** The suggestions are the first opportunities of the ranking, in priority
      order, and their amounts are equal and add up to the contribution. */
  lemma SuggestionsRankedAndSplit(opportunities: seq<Opportunity>, n: int, contribution: real)
    ensures var r := SuggestionsFor(opportunities, n, contribution);
      r.Suggested? ==>
        && |r.rows| <= |opportunities|
        && Chosen(r.rows) == Sorting.SortBy(opportunities, ByPriority)[..|r.rows|]
        && (forall s :: s in r.rows ==> s.opportunity in opportunities && s.amount == contribution / (|r.rows| as real))
        && (forall i, j :: 0 <= i < j < |r.rows| ==> Sorting.KeyLe(ByPriority(r.rows[i].opportunity), ByPriority(r.rows[j].opportunity)))
        && SumOf(r.rows, AmountOf) == contribution
  {
    if opportunities != [] {
      var sorted := Sorting.SortBy(opportunities, ByPriority);
      Sorting.SortByElements(opportunities, ByPriority);
      var top := Head(sorted, n);
      if top != [] {
        var rows := EqualSplit(top, contribution);
        forall s | s in rows ensures s.opportunity in opportunities && s.amount == contribution / (|rows| as real) {
          var i :| 0 <= i < |rows| && rows[i] == s;
          assert top[i] == sorted[i];
        }
        forall i, j | 0 <= i < j < |rows| ensures Sorting.KeyLe(ByPriority(rows[i].opportunity), ByPriority(rows[j].opportunity)) {
          assert rows[i].opportunity == sorted[i] && rows[j].opportunity == sorted[j];
        }
        assert Chosen(rows) == sorted[..|rows|];
      }
    }
  }

  /** The first m of the ranking: as often as collected at most, nothing
      after them ranks before the last of them, and among full ties the
      earliest collected. */
  lemma TopOfRanking(opportunities: seq<Opportunity>, m: nat)
    requires 0 < m <= |opportunities|
    ensures |Sorting.SortBy(opportunities, ByPriority)| == |opportunities|
    ensures var kept := Sorting.SortBy(opportunities, ByPriority)[..m];
      && multiset(kept) <= multiset(opportunities)
      && (forall o :: o in multiset(opportunities) - multiset(kept) ==> Sorting.KeyLe(ByPriority(kept[m - 1]), ByPriority(o)))
      && (forall k :: Sorting.WithKey(kept, ByPriority, k) <= Sorting.WithKey(opportunities, ByPriority, k))
  {
    var sorted := Sorting.SortBy(opportunities, ByPriority);
    Sorting.SortByElements(opportunities, ByPriority);
    DroppedRankLater(sorted, m);
    TopKeepsTieOrder(opportunities, m);
  }

  /** Past the first m of a ranking, nothing ranks before the m-th. */
  lemma DroppedRankLater(sorted: seq<Opportunity>, m: nat)
    requires 0 < m <= |sorted| && Sorting.SortedBy(sorted, ByPriority)
    ensures multiset(sorted[..m]) <= multiset(sorted)
    ensures forall o :: o in multiset(sorted) - multiset(sorted[..m]) ==> Sorting.KeyLe(ByPriority(sorted[m - 1]), ByPriority(o))
  {
    var rest := sorted[m..];
    assert sorted == sorted[..m] + rest;
    assert multiset(sorted) == multiset(sorted[..m]) + multiset(rest);
    forall o | o in multiset(sorted) - multiset(sorted[..m]) ensures Sorting.KeyLe(ByPriority(sorted[m - 1]), ByPriority(o)) {
      assert o in multiset(rest);
      var j :| 0 <= j < |rest| && rest[j] == o;
      assert sorted[m + j] == o;
    }
  }

  /** Among full ties, the first m of the ranking are the earliest collected. */
  lemma TopKeepsTieOrder(opportunities: seq<Opportunity>, m: nat)
    requires m <= |opportunities|
    ensures |Sorting.SortBy(opportunities, ByPriority)| == |opportunities|
    ensures forall k :: Sorting.WithKey(Sorting.SortBy(opportunities, ByPriority)[..m], ByPriority, k)
                          <= Sorting.WithKey(opportunities, ByPriority, k)
  {
    var sorted := Sorting.SortBy(opportunities, ByPriority);
    Sorting.SortByElements(opportunities, ByPriority);
    assert sorted == sorted[..m] + sorted[m..];
    forall k ensures Sorting.WithKey(sorted[..m], ByPriority, k) <= Sorting.WithKey(opportunities, ByPriority, k) {
      Sorting.WithKeyAppend(sorted[..m], sorted[m..], ByPriority, k);
      Sorting.SortByStable(opportunities, ByPriority, k);
    }
  }

  /** What `head(max_suggestions)` keeps: opportunities as often as they were
      collected at most; nothing left out ranks before the last one kept; and,
      among opportunities that tie on all three keys, the earliest collected
      (the multi-column sort keeps their order). */
  lemma SuggestionsKeepFirstRanked(opportunities: seq<Opportunity>, n: int, contribution: real)
    ensures var r := SuggestionsFor(opportunities, n, contribution);
      r.Suggested? ==>
        && multiset(Chosen(r.rows)) <= multiset(opportunities)
        && (forall o :: o in multiset(opportunities) - multiset(Chosen(r.rows)) ==>
              Sorting.KeyLe(ByPriority(r.rows[|r.rows| - 1].opportunity), ByPriority(o)))
        && (forall k :: Sorting.WithKey(Chosen(r.rows), ByPriority, k) <= Sorting.WithKey(opportunities, ByPriority, k))
  {
    var r := SuggestionsFor(opportunities, n, contribution);
    if r.Suggested? {
      SuggestionsRankedAndSplit(opportunities, n, contribution);
      var m := |r.rows|;
      TopOfRanking(opportunities, m);
      var kept := Chosen(r.rows);
      assert r.rows[m - 1].opportunity == kept[m - 1];
    }
  }

  /** The priority order spelled out: a higher sensitivity first; at equal
      sensitivity a higher score first; at equal score a lighter sector first. */
  lemma ByPriorityMeans(a: Opportunity, b: Opportunity)
    ensures Sorting.KeyLe(ByPriority(a), ByPriority(b)) <==>
      || a.sensitivity > b.sensitivity
      || (a.sensitivity == b.sensitivity && a.score > b.score)
      || (a.sensitivity == b.sensitivity && a.score == b.score && a.sectorWeight <= b.sectorWeight)
  {
  }

  // The loops of the analyzer, on values

  /** The price loop of `_prepare_portfolio_data`: for each row, the fetched
      regularMarketPrice when it is a number, else the average price; a later
      row of the same ticker overwrites an earlier one. */
  method FetchPrices(fetch: PortfolioSectors.InfoCall, rows: seq<Position>) returns (prices: map<string, real>)
    ensures prices == FetchedPrices(fetch, rows)
  {
    prices := map[];
    var i := 0;
    while i < |rows|
      invariant 0 <= i <= |rows|
      invariant prices == FetchedPrices(fetch, rows[..i])
    {
      var info := fetch(rows[i].ticker);
      var fetched := NumberAt(info, "regularMarketPrice");
      var price := if fetched.Some? then fetched.value else rows[i].averagePrice;
      assert rows[..i + 1][..i] == rows[..i];
      prices := prices[rows[i].ticker := price];
      i := i + 1;
    }
    assert rows[..i] == rows;
  }

  /** The loop of `analyze_sector_exposure` over the union of the summary's
      and the scenario's sectors, taken in whatever order the set yields. */
  method ExposureRows(summary: seq<SectorRow>, sensitivities: map<string, int>) returns (rows: seq<ExposureRow>)
    ensures ExposureTable(rows, summary, sensitivities)
  {
    var all := SummarySectors(summary) + sensitivities.Keys;
    rows := [];
    var remaining := all;
    while remaining != {}
      invariant remaining <= all
      invariant RowSectors(rows) == all - remaining
      invariant ExposureRowsOf(rows, summary, sensitivities)
      decreases |remaining|
    {
      var sector :| sector in remaining;
      var weight := SectorWeight(summary, sector);
      var sensitivity := if sector in sensitivities then Some(sensitivities[sector]) else None;
      var row := ExposureRow(sector, weight, sensitivity, CommentFor(sensitivity, weight));
      assert row == ExposureFor(summary, sensitivities, sector);
      ExposureStep(rows, summary, sensitivities, all, remaining, sector);
      rows := rows + [row];
      remaining := remaining - {sector};
    }
  }

  /** The mock screener loop of `suggest_contributions`: each mock symbol not
      yet a candidate is appended, and its fetched info kept. */
  method AddMockCandidates(fetch: PortfolioSectors.InfoCall, own: seq<string>) returns (added: seq<string>, infos: seq<PortfolioSectors.StockInfo>)
    ensures added == Missing(own, MockCandidates)
    ensures infos == FetchAll(fetch, added)
  {
    added := [];
    infos := [];
    var k := 0;
    while k < |MockCandidates|
      invariant 0 <= k <= |MockCandidates|
      invariant added == Missing(own, MockCandidates[..k])
      invariant infos == FetchAll(fetch, added)
    {
      var symbol := MockCandidates[k];
      assert MockCandidates[..k + 1][..k] == MockCandidates[..k];
      if symbol !in own + added {
        added := added + [symbol];
        infos := infos + [fetch(symbol)];
      }
      k := k + 1;
    }
    assert MockCandidates[..k] == MockCandidates;
  }

  /** The nested loops of `suggest_contributions`: for each favoured sector in
      turn, each candidate in turn. */
  method CollectOpportunities(fetch: PortfolioSectors.InfoCall, valuation: ValuationCall, potentials: seq<PortfolioSectors.StockInfo>,
                              favored: seq<FavoredSector>, candidates: seq<string>) returns (opportunities: seq<Opportunity>)
    ensures opportunities == AllOpportunities(fetch, valuation, potentials, favored, candidates)
  {
    opportunities := [];
    var i := 0;
    while i < |favored|
      invariant 0 <= i <= |favored|
      invariant opportunities == AllOpportunities(fetch, valuation, potentials, favored[..i], candidates)
    {
      var found := CollectSectorOpportunities(fetch, valuation, potentials, favored[i], candidates);
      AllOpportunitiesSnoc(fetch, valuation, potentials, favored, candidates, i);
      opportunities := opportunities + found;
      i := i + 1;
    }
    assert favored[..i] == favored;
  }

  /** The inner loop, over the candidates for one favoured sector. */
  method CollectSectorOpportunities(fetch: PortfolioSectors.InfoCall, valuation: ValuationCall, potentials: seq<PortfolioSectors.StockInfo>,
                                    f: FavoredSector, candidates: seq<string>) returns (found: seq<Opportunity>)
    ensures found == SectorOpportunities(fetch, valuation, potentials, f, candidates)
  {
    found := [];
    var j := 0;
    while j < |candidates|
      invariant 0 <= j <= |candidates|
      invariant found == SectorOpportunities(fetch, valuation, potentials, f, candidates[..j])
    {
      var o := TickerOpportunity(fetch, valuation, potentials, f, candidates[j]);
      SectorOpportunitiesSnoc(fetch, valuation, potentials, f, candidates, j);
      if o.Some? {
        found := found + [o.value];
      }
      j := j + 1;
    }
    assert candidates[..j] == candidates;
  }

  lemma AllOpportunitiesSnoc(fetch: PortfolioSectors.InfoCall, valuation: ValuationCall, potentials: seq<PortfolioSectors.StockInfo>,
                             favored: seq<FavoredSector>, candidates: seq<string>, i: nat)
    requires i < |favored|
    ensures AllOpportunities(fetch, valuation, potentials, favored[..i + 1], candidates)
      == AllOpportunities(fetch, valuation, potentials, favored[..i], candidates)
         + SectorOpportunities(fetch, valuation, potentials, favored[i], candidates)
  {
    assert favored[..i + 1][..i] == favored[..i];
  }

  lemma SectorOpportunitiesSnoc(fetch: PortfolioSectors.InfoCall, valuation: ValuationCall, potentials: seq<PortfolioSectors.StockInfo>,
                                f: FavoredSector, candidates: seq<string>, j: nat)
    requires j < |candidates|
    ensures var o := TickerOpportunity(fetch, valuation, potentials, f, candidates[j]);
      SectorOpportunities(fetch, valuation, potentials, f, candidates[..j + 1])
        == SectorOpportunities(fetch, valuation, potentials, f, candidates[..j]) + (if o.Some? then [o.value] else [])
  {
    assert candidates[..j + 1][..j] == candidates[..j];
  }

  // The analyzer object

  class PortfolioSuggestor {
    var portfolio: seq<Position>
    var currentStockPrices: Option<map<string, real>>
    var potentialNewInvestments: seq<PortfolioSectors.StockInfo>
    const macroAnalyzer: MacroAnalysis.MacroEconomicAnalysis
    const valuationModel: Option<ValuationCall>
    const fetcher: Option<PortfolioSectors.InfoCall>

    /** The macro analyzer is consistent and the portfolio is a prepared one. */
    predicate Valid()
      reads this, macroAnalyzer
    {
      macroAnalyzer.Valid() && WellPrepared(portfolio)
    }

    /** `__init__`: store the collaborators, start with no potential new
        investments, and prepare the portfolio (the corrected preparation:
        as written it raises for any non-empty portfolio, see
        `PreparedAsWritten`). */
    constructor (holdings: seq<Holding>, macro: MacroAnalysis.MacroEconomicAnalysis, valuation: Option<ValuationCall>,
                 dataFetcher: Option<PortfolioSectors.InfoCall>, prices: Option<map<string, real>>)
      requires macro.Valid()
      ensures Valid()
      ensures macroAnalyzer == macro && valuationModel == valuation && fetcher == dataFetcher
      ensures portfolio == PreparedPortfolio(holdings, prices, dataFetcher)
      ensures currentStockPrices == (if holdings == [] then prices else PricesUsed(NormalizedRows(holdings), prices, dataFetcher))
      ensures potentialNewInvestments == []
    {
      macroAnalyzer := macro;
      valuationModel := valuation;
      fetcher := dataFetcher;
      currentStockPrices := prices;
      potentialNewInvestments := [];
      portfolio := [];
      new;
      PreparePortfolioData(holdings);
    }

    /** `_prepare_portfolio_data`: normalise the tickers, fetch the missing
        prices, then write PrecoAtual, ValorAtual, Peso and (when the uploaded
        one has gaps) Setor. */
    method PreparePortfolioData(holdings: seq<Holding>)
      modifies this
      ensures WellPrepared(portfolio)
      ensures portfolio == PreparedPortfolio(holdings, old(currentStockPrices), fetcher)
      ensures currentStockPrices ==
        (if holdings == [] then old(currentStockPrices) else PricesUsed(NormalizedRows(holdings), old(currentStockPrices), fetcher))
      ensures potentialNewInvestments == old(potentialNewInvestments)
    {
      var given := currentStockPrices;
      PreparedIsWellPrepared(holdings, given, fetcher);
      if holdings == [] {
        portfolio := [];
        return;
      }
      var rows := NormalizedRows(holdings);
      if given.None? && fetcher.Some? {
        var prices := FetchPrices(fetcher.value, rows);
        currentStockPrices := Some(prices);
      } else if given.None? {
        currentStockPrices := Some(AveragePrices(rows));
      }
      var table := WithWeights(WithPrices(rows, currentStockPrices));
      if !HasAllSectors(holdings) {
        table := WithLookedUpSectors(table, fetcher);
      }
      portfolio := table;
    }

    /** `analyze_sector_exposure`: with an empty summary nothing happens;
        otherwise the macro analyzer identifies the scenario (without data),
        one row is built per sector of the summary or of the scenario, and the
        rows are sorted by sensitivity (the corrected sort). */
    method AnalyzeSectorExposure() returns (rows: seq<ExposureRow>)
      requires Valid()
      modifies macroAnalyzer
      ensures Valid()
      ensures PortfolioSummary(portfolio) == [] ==> rows == [] && unchanged(macroAnalyzer)
      ensures PortfolioSummary(portfolio) != [] ==>
        && macroAnalyzer.currentScenarioName == MacroAnalysis.NextScenarioName(old(macroAnalyzer.currentScenarioName), None, None, None, None)
        && ExposureTable(rows, PortfolioSummary(portfolio), macroAnalyzer.currentScenarioDetails)
      ensures forall i, j :: 0 <= i < j < |rows| && rows[j].sensitivity.Some? ==>
        rows[i].sensitivity.Some? && rows[i].sensitivity.value >= rows[j].sensitivity.value
    {
      var summary := PortfolioSummary(portfolio);
      if summary == [] {
        return [];
      }
      var _, sensitivities := macroAnalyzer.IdentifyCurrentScenario(None, None, None, None);
      var unsorted := ExposureRows(summary, sensitivities);
      rows := ExposureSort(unsorted);
      ExposureTablePermutation(unsorted, rows, summary, sensitivities);
    }

    /** `suggest_contributions`: without a fetcher or a valuation class the
        "not configured" row; otherwise the exposure analysis, the candidate
        list (the mock symbols not yet in the portfolio are appended and their
        infos kept), the opportunities of every favoured sector, and the ranked,
        truncated, equally split suggestions. */
    method SuggestContributions(contribution: real, maxSuggestions: int) returns (r: Suggestions)
      requires Valid()
      modifies this, macroAnalyzer
      ensures Valid()
      ensures portfolio == old(portfolio) && currentStockPrices == old(currentStockPrices)
      ensures fetcher.None? || valuationModel.None? ==>
        r == Placeholder(NotConfigured) && unchanged(this) && unchanged(macroAnalyzer)
      ensures fetcher.Some? && valuationModel.Some? ==>
        && potentialNewInvestments == old(potentialNewInvestments) + FetchAll(fetcher.value, Missing(Distinct(TickerColumn(portfolio)), MockCandidates))
        && (PortfolioSummary(portfolio) == [] ==> unchanged(macroAnalyzer))
        && (PortfolioSummary(portfolio) != [] ==>
              macroAnalyzer.currentScenarioName == MacroAnalysis.NextScenarioName(old(macroAnalyzer.currentScenarioName), None, None, None, None))
        && exists exposure ::
          && (PortfolioSummary(portfolio) == [] ==> exposure == [])
          && (PortfolioSummary(portfolio) != [] ==> ExposureTable(exposure, PortfolioSummary(portfolio), macroAnalyzer.currentScenarioDetails))
          && r == SuggestionsFor(
                    AllOpportunities(fetcher.value, valuationModel.value, potentialNewInvestments, FavoredSectors(exposure), Candidates(portfolio)),
                    maxSuggestions, contribution)
    {
      if fetcher.None? || valuationModel.None? {
        return Placeholder(NotConfigured);
      }
      var fetch := fetcher.value;
      var exposure := AnalyzeSectorExposure();

      var own := Distinct(TickerColumn(portfolio));
      var added, infos := AddMockCandidates(fetch, own);
      potentialNewInvestments := potentialNewInvestments + infos;
      var candidates := own + added;
      var opportunities := CollectOpportunities(fetch, valuationModel.value, potentialNewInvestments, FavoredSectors(exposure), candidates);
      r := SuggestionsFor(opportunities, maxSuggestions, contribution);
    }
  }
}
