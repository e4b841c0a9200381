/** The portfolio table of analysis/portfolio_analyzer.py as
    `_prepare_portfolio_data` fills it in (normalised tickers, current prices,
    values, weights, sectors) and the sector allocation `get_portfolio_summary`
    derives from it. Each column the source writes is a function from the
    table before to the table after; the class of the analyzer model applies
    them in the source's order. */
module PortfolioData {
  import opened Common
  import Helpers
  import Sorting
  import PortfolioSectors

  // Preparing the portfolio

  /** A row of the uploaded portfolio: Ticker, Quantidade, PrecoMedio and the
      optional Setor (None where the column is missing or the cell is null). */
  datatype Holding = Holding(ticker: string, quantity: real, averagePrice: real, sector: Option<string>)

  /** A row of the portfolio table: Ticker, Quantidade, PrecoMedio, PrecoAtual,
      ValorAtual, Peso and Setor. */
  datatype Position = Position(
    ticker: string, quantity: real, averagePrice: real,
    currentPrice: real, value: real, weight: real, sector: string)

  function ValueOf(p: Position): real { p.value }

  function WeightOf(p: Position): real { p.weight }

  /** The table as uploaded, with the Ticker column normalised; the columns
      still to be computed are 0, and a missing Setor cell is "". */
  function NormalizedRows(hs: seq<Holding>): (ps: seq<Position>)
    ensures |ps| == |hs|
  {
    seq(|hs|, i requires 0 <= i < |hs| =>
      Position(Helpers.NormalizeTicker(hs[i].ticker), hs[i].quantity, hs[i].averagePrice, 0.0, 0.0, 0.0,
               if hs[i].sector.Some? then hs[i].sector.value else ""))
  }

  lemma NormalizedRowAt(hs: seq<Holding>, i: nat)
    requires i < |hs|
    ensures var p := NormalizedRows(hs)[i];
      && p.ticker == Helpers.NormalizeTicker(hs[i].ticker)
      && p.quantity == hs[i].quantity && p.averagePrice == hs[i].averagePrice
      && (hs[i].sector.Some? ==> p.sector == hs[i].sector.value)
  {
  }

  /** What the fetch loop stores for a row: the info's regularMarketPrice when it
      is a number, else the row's PrecoMedio. */
  function FetchedPrice(fetch: PortfolioSectors.InfoCall, p: Position): real {
    var fetched := NumberAt(fetch(p.ticker), "regularMarketPrice");
    if fetched.Some? then fetched.value else p.averagePrice
  }

  function FetchedPriceOf(fetch: PortfolioSectors.InfoCall): Position -> real {
    p => FetchedPrice(fetch, p)
  }

  function AveragePriceOf(p: Position): real { p.averagePrice }

  /** A price series indexed by ticker, built row by row: one entry per
      ticker, a later row overwriting an earlier one with the same ticker. */
  function LatestPrices(ps: seq<Position>, price: Position -> real): map<string, real> {
    if ps == [] then map[]
    else LatestPrices(ps[..|ps| - 1], price)[ps[|ps| - 1].ticker := price(ps[|ps| - 1])]
  }

  /** The series the fetch loop builds. */
  function FetchedPrices(fetch: PortfolioSectors.InfoCall, ps: seq<Position>): map<string, real> {
    LatestPrices(ps, FetchedPriceOf(fetch))
  }

  /** The series `PrecoMedio.copy()` gives once Ticker is the index. */
  function AveragePrices(ps: seq<Position>): map<string, real> {
    LatestPrices(ps, AveragePriceOf)
  }

  /** Every ticker of the table gets an entry. */
  lemma {:induction false} LatestPricesCover(ps: seq<Position>, price: Position -> real, i: nat)
    requires i < |ps|
    ensures ps[i].ticker in LatestPrices(ps, price)
  {
    if i < |ps| - 1 {
      LatestPricesCover(ps[..|ps| - 1], price, i);
    }
  }

  /** ... and nothing else does. */
  lemma {:induction false} LatestPricesOnlyTickers(ps: seq<Position>, price: Position -> real, t: string)
    requires t in LatestPrices(ps, price)
    ensures exists i :: 0 <= i < |ps| && ps[i].ticker == t
  {
    var init := ps[..|ps| - 1];
    if t != ps[|ps| - 1].ticker {
      LatestPricesOnlyTickers(init, price, t);
      var i :| 0 <= i < |init| && init[i].ticker == t;
      assert ps[i] == init[i];
    }
  }

  /** The entry of a ticker that no later row repeats is that row's price. */
  lemma {:induction false} LatestPricesLast(ps: seq<Position>, price: Position -> real, i: nat)
    requires i < |ps|
    requires forall j :: i < j < |ps| ==> ps[j].ticker != ps[i].ticker
    ensures ps[i].ticker in LatestPrices(ps, price)
    ensures LatestPrices(ps, price)[ps[i].ticker] == price(ps[i])
  {
    LatestPricesCover(ps, price, i);
    if i < |ps| - 1 {
      var init := ps[..|ps| - 1];
      assert init[i] == ps[i];
      assert forall j :: i < j < |init| ==> init[j] == ps[j];
      LatestPricesLast(init, price, i);
    }
  }

  /** Row j is the last row holding row i's ticker. */
  predicate LastOfTicker(ps: seq<Position>, i: nat, j: nat)
    requires i < |ps|
  {
    && i <= j < |ps| && ps[j].ticker == ps[i].ticker
    && forall k :: j < k < |ps| ==> ps[k].ticker != ps[i].ticker
  }

  /** The entry of any row's ticker is the price of the last row with that
      ticker. */
  lemma {:induction false} LatestPricesAt(ps: seq<Position>, price: Position -> real, i: nat)
    requires i < |ps|
    ensures ps[i].ticker in LatestPrices(ps, price)
    ensures exists j: nat :: LastOfTicker(ps, i, j) && LatestPrices(ps, price)[ps[i].ticker] == price(ps[j])
  {
    var n := |ps| - 1;
    LatestPricesCover(ps, price, i);
    if i == n || ps[n].ticker == ps[i].ticker {
      assert LastOfTicker(ps, i, n);
    } else {
      var init := ps[..n];
      assert init[i] == ps[i];
      LatestPricesAt(init, price, i);
      var j: nat :| LastOfTicker(init, i, j) && LatestPrices(init, price)[init[i].ticker] == price(init[j]);
      assert init[j] == ps[j];
      assert forall k :: j < k < n ==> init[k] == ps[k];
      assert LastOfTicker(ps, i, j);
    }
  }

  /** PrecoAtual: the price series' entry for the ticker, PrecoMedio when there
      is no series or it has no entry (the `fillna`). */
  function PriceFor(prices: Option<map<string, real>>, p: Position): real {
    if prices.Some? && p.ticker in prices.value then prices.value[p.ticker] else p.averagePrice
  }

  /** The PrecoAtual and ValorAtual columns. */
  function WithPrices(ps: seq<Position>, prices: Option<map<string, real>>): (r: seq<Position>)
    ensures |r| == |ps|
  {
    seq(|ps|, i requires 0 <= i < |ps| =>
      ps[i].(currentPrice := PriceFor(prices, ps[i]), value := MarketValue(ps[i].quantity, PriceFor(prices, ps[i]))))
  }

  lemma PricedRowAt(ps: seq<Position>, prices: Option<map<string, real>>, i: nat)
    requires i < |ps|
    ensures WithPrices(ps, prices)[i] ==
      ps[i].(currentPrice := PriceFor(prices, ps[i]), value := MarketValue(ps[i].quantity, PriceFor(prices, ps[i])))
  {
  }

  /** ValorAtual = Quantidade x PrecoAtual. */
  function MarketValue(quantity: real, price: real): real { quantity * price }

  /** Peso: the share of the total, or 0 when the total is not positive. */
  function WeightFor(value: real, total: real): real {
    if total > 0.0 then value / total else 0.0
  }

  /** The Peso column. */
  function WithWeights(ps: seq<Position>): (r: seq<Position>)
    ensures |r| == |ps|
  {
    var total := SumOf(ps, ValueOf);
    seq(|ps|, i requires 0 <= i < |ps| => ps[i].(weight := WeightFor(ps[i].value, total)))
  }

  lemma WeightedRowAt(ps: seq<Position>, i: nat)
    requires i < |ps|
    ensures WithWeights(ps)[i] == ps[i].(weight := WeightFor(ps[i].value, SumOf(ps, ValueOf)))
  {
  }

  /** With a positive total value the weights sum to 1; otherwise every weight
      is 0. The values themselves are not touched. */
  lemma WeightsSumToOne(ps: seq<Position>)
    ensures SumOf(WithWeights(ps), ValueOf) == SumOf(ps, ValueOf)
    ensures SumOf(ps, ValueOf) > 0.0 ==> SumOf(WithWeights(ps), WeightOf) == 1.0
    ensures SumOf(ps, ValueOf) <= 0.0 ==> forall p :: p in WithWeights(ps) ==> p.weight == 0.0
  {
    var total := SumOf(ps, ValueOf);
    var r := WithWeights(ps);
    SumOfPointwise(r, ValueOf, ps, ValueOf);
    if total > 0.0 {
      SumOfScaled(r, ValueOf, WeightOf, total);
    }
  }

  /** Whether the uploaded Setor column can be kept: it exists and has no null. */
  predicate HasAllSectors(hs: seq<Holding>) {
    forall i :: 0 <= i < |hs| ==> hs[i].sector.Some?
  }

  /** The Setor column `_get_sector_for_ticker` fills in. */
  function WithLookedUpSectors(ps: seq<Position>, fetcher: Option<PortfolioSectors.InfoCall>): (r: seq<Position>)
    ensures |r| == |ps|
  {
    seq(|ps|, i requires 0 <= i < |ps| => ps[i].(sector := PortfolioSectors.SectorForTicker(fetcher, ps[i].ticker)))
  }

  lemma SectorRowAt(ps: seq<Position>, fetcher: Option<PortfolioSectors.InfoCall>, i: nat)
    requires i < |ps|
    ensures WithLookedUpSectors(ps, fetcher)[i] == ps[i].(sector := PortfolioSectors.SectorForTicker(fetcher, ps[i].ticker))
  {
  }

  /** The price series `_prepare_portfolio_data` ends up using: the one given,
      else the one the fetch loop builds, else the PrecoMedio column. */
  function PricesUsed(ps: seq<Position>, prices: Option<map<string, real>>, fetcher: Option<PortfolioSectors.InfoCall>): Option<map<string, real>> {
    if prices.Some? then prices
    else if fetcher.Some? then Some(FetchedPrices(fetcher.value, ps))
    else Some(AveragePrices(ps))
  }

  /** The table after the price and weight columns. */
  function Weighted(hs: seq<Holding>, prices: Option<map<string, real>>, fetcher: Option<PortfolioSectors.InfoCall>): (r: seq<Position>)
    ensures |r| == |hs|
  {
    var rows := NormalizedRows(hs);
    WithWeights(WithPrices(rows, PricesUsed(rows, prices, fetcher)))
  }

  /** `_prepare_portfolio_data` as a whole, with the PrecoAtual line as
      evidently intended (each row the series lacks takes its own PrecoMedio;
      `PreparedAsWritten` is the line as written): an empty table stays
      empty. */
  function PreparedPortfolio(hs: seq<Holding>, prices: Option<map<string, real>>, fetcher: Option<PortfolioSectors.InfoCall>): (r: seq<Position>)
    ensures |r| == |hs|
  {
    if hs == [] then []
    else if HasAllSectors(hs) then Weighted(hs, prices, fetcher)
    else WithLookedUpSectors(Weighted(hs, prices, fetcher), fetcher)
  }

  // The PrecoAtual line as written

  /** What `fillna` is handed: a scalar, or a whole column. */
  datatype FillValue = Scalar(x: real) | Column(xs: seq<real>)

  /** pandas' `Index.fillna`: the holes are filled from a scalar; any other
      fill value is refused with a TypeError before the holes are looked at. */
  function IndexFillNa(mapped: seq<Option<real>>, fill: FillValue): (r: Outcome<seq<real>>)
    ensures r.Raised? <==> fill.Column?
    ensures r.Raised? ==> r.exception == "TypeError"
    ensures r.Returned? ==> |r.value| == |mapped|
  {
    if fill.Column? then Raised("TypeError")
    else Returned(seq(|mapped|, i requires 0 <= i < |mapped| => if mapped[i].Some? then mapped[i].value else fill.x))
  }

  /** `index.map(prices)`: each row's entry in the series, a hole where the
      series has none. */
  function MappedPrices(ps: seq<Position>, prices: Option<map<string, real>>): (r: seq<Option<real>>)
    ensures |r| == |ps|
  {
    seq(|ps|, i requires 0 <= i < |ps| =>
      if prices.Some? && ps[i].ticker in prices.value then Some(prices.value[ps[i].ticker]) else None)
  }

  function AveragePriceColumn(ps: seq<Position>): (r: seq<real>)
    ensures |r| == |ps|
  {
    seq(|ps|, i requires 0 <= i < |ps| => ps[i].averagePrice)
  }

  /** `_prepare_portfolio_data` as written: an empty table returns before the
      PrecoAtual line; any other table reaches it, and that line hands the
      PrecoMedio column to `Index.fillna`, which raises. */
  function PreparedAsWritten(hs: seq<Holding>, prices: Option<map<string, real>>, fetcher: Option<PortfolioSectors.InfoCall>): (r: Outcome<seq<Position>>)
    ensures r.Raised? <==> hs != []
    ensures r.Raised? ==> r.exception == "TypeError"
    ensures hs == [] ==> r == Returned(PreparedPortfolio(hs, prices, fetcher))
  {
    if hs == [] then Returned([])
    else
      var rows := NormalizedRows(hs);
      var filled := IndexFillNa(MappedPrices(rows, PricesUsed(rows, prices, fetcher)), Column(AveragePriceColumn(rows)));
      Raised(filled.exception)
  }

  /** One holding is enough: "PETR4", 100 shares at 25.0 make the constructor
      raise. */
  lemma PreparedAsWrittenRaisesOnOneHolding(prices: Option<map<string, real>>, fetcher: Option<PortfolioSectors.InfoCall>)
    ensures PreparedAsWritten([Holding("PETR4", 100.0, 25.0, None)], prices, fetcher) == Raised("TypeError")
  {
  }

  /** Row i of the prepared table, column by column. */
  lemma PreparedRowAt(hs: seq<Holding>, prices: Option<map<string, real>>, fetcher: Option<PortfolioSectors.InfoCall>, i: nat)
    requires i < |hs|
    ensures |PreparedPortfolio(hs, prices, fetcher)| == |hs|
    ensures var rows := NormalizedRows(hs);
      var price := PriceFor(PricesUsed(rows, prices, fetcher), rows[i]);
      var p := PreparedPortfolio(hs, prices, fetcher)[i];
      && p.ticker == Helpers.NormalizeTicker(hs[i].ticker)
      && p.quantity == hs[i].quantity && p.averagePrice == hs[i].averagePrice
      && p.currentPrice == price && p.value == MarketValue(hs[i].quantity, price)
      && p.weight == WeightFor(p.value, SumOf(WithPrices(rows, PricesUsed(rows, prices, fetcher)), ValueOf))
      && p.sector == (if HasAllSectors(hs) then hs[i].sector.value else PortfolioSectors.SectorForTicker(fetcher, p.ticker))
  {
    var rows := NormalizedRows(hs);
    var used := PricesUsed(rows, prices, fetcher);
    var priced := WithPrices(rows, used);
    var weighted := WithWeights(priced);
    NormalizedRowAt(hs, i);
    PricedRowAt(rows, used, i);
    WeightedRowAt(priced, i);
    if !HasAllSectors(hs) {
      SectorRowAt(weighted, fetcher, i);
    }
  }

  /** After preparation every ticker is upper-case and ends with exactly one
      ".SA": normalising it again changes nothing. */
  lemma PreparedTickersNormalized(hs: seq<Holding>, prices: Option<map<string, real>>, fetcher: Option<PortfolioSectors.InfoCall>, i: nat)
    requires i < |hs|
    ensures var p := PreparedPortfolio(hs, prices, fetcher)[i];
      && p.ticker == Helpers.NormalizeTicker(hs[i].ticker)
      && Upper(p.ticker) == p.ticker && EndsWith(p.ticker, Helpers.SaSuffix)
      && Helpers.NormalizeTicker(p.ticker) == p.ticker
  {
    PreparedRowAt(hs, prices, fetcher, i);
    Helpers.NormalizeTickerIdempotent(hs[i].ticker);
  }

  /** ValorAtual = Quantidade x PrecoAtual, where PrecoAtual is the given price
      of the ticker when there is one, and PrecoMedio when the given prices
      have no entry for it. */
  lemma PreparedPrices(hs: seq<Holding>, prices: Option<map<string, real>>, fetcher: Option<PortfolioSectors.InfoCall>, i: nat)
    requires i < |hs|
    ensures var p := PreparedPortfolio(hs, prices, fetcher)[i];
      && p.value == MarketValue(p.quantity, p.currentPrice)
      && (prices.Some? && p.ticker in prices.value ==> p.currentPrice == prices.value[p.ticker])
      && (prices.Some? && p.ticker !in prices.value ==> p.currentPrice == hs[i].averagePrice)
  {
    PreparedRowAt(hs, prices, fetcher, i);
    NormalizedRowAt(hs, i);
    var rows := NormalizedRows(hs);
    var p := PreparedPortfolio(hs, prices, fetcher)[i];
    var price := PriceFor(PricesUsed(rows, prices, fetcher), rows[i]);
    assert rows[i].ticker == p.ticker && rows[i].averagePrice == hs[i].averagePrice;
  }

  /** With neither prices nor a fetcher the price series is the PrecoMedio
      column indexed by ticker: PrecoAtual is the PrecoMedio of the last row
      holding the same ticker (the row itself when no later row repeats it). */
  lemma PreparedAveragePrices(hs: seq<Holding>, i: nat)
    requires i < |hs|
    ensures var p := PreparedPortfolio(hs, None, None)[i];
      exists j :: i <= j < |hs| && Helpers.NormalizeTicker(hs[j].ticker) == p.ticker
        && (forall k :: j < k < |hs| ==> Helpers.NormalizeTicker(hs[k].ticker) != p.ticker)
        && p.currentPrice == hs[j].averagePrice
  {
    PreparedRowAt(hs, None, None, i);
    var rows := NormalizedRows(hs);
    forall k | 0 <= k < |rows| ensures rows[k].ticker == Helpers.NormalizeTicker(hs[k].ticker) && rows[k].averagePrice == hs[k].averagePrice {
      NormalizedRowAt(hs, k);
    }
    LatestPricesAt(rows, AveragePriceOf, i);
  }

  /** Without given prices but with a fetcher, PrecoAtual is the
      regularMarketPrice the fetcher reports for the ticker, or PrecoMedio when
      it reports no number (for a ticker that no later row repeats). */
  lemma PreparedFetchedPrices(hs: seq<Holding>, fetcher: PortfolioSectors.InfoCall, i: nat)
    requires i < |hs|
    requires forall j :: i < j < |hs| ==> Helpers.NormalizeTicker(hs[j].ticker) != Helpers.NormalizeTicker(hs[i].ticker)
    ensures var p := PreparedPortfolio(hs, None, Some(fetcher))[i];
      var fetched := NumberAt(fetcher(p.ticker), "regularMarketPrice");
      p.currentPrice == (if fetched.Some? then fetched.value else hs[i].averagePrice)
  {
    PreparedRowAt(hs, None, Some(fetcher), i);
    var rows := NormalizedRows(hs);
    NormalizedRowAt(hs, i);
    forall j | i < j < |rows| ensures rows[j].ticker != rows[i].ticker {
      NormalizedRowAt(hs, j);
    }
    LatestPricesLast(rows, FetchedPriceOf(fetcher), i);
  }

  /** With a positive total value the weights sum to 1; otherwise they are all
      0. */
  lemma PreparedWeights(hs: seq<Holding>, prices: Option<map<string, real>>, fetcher: Option<PortfolioSectors.InfoCall>)
    ensures var ps := PreparedPortfolio(hs, prices, fetcher);
      && (SumOf(ps, ValueOf) > 0.0 ==> SumOf(ps, WeightOf) == 1.0)
      && (SumOf(ps, ValueOf) <= 0.0 ==> forall p :: p in ps ==> p.weight == 0.0)
  {
    if hs != [] {
      var rows := NormalizedRows(hs);
      var priced := WithPrices(rows, PricesUsed(rows, prices, fetcher));
      var weighted := WithWeights(priced);
      var ps := PreparedPortfolio(hs, prices, fetcher);
      WeightsSumToOne(priced);
      if !HasAllSectors(hs) {
        forall i | 0 <= i < |ps| ensures ps[i].value == weighted[i].value && ps[i].weight == weighted[i].weight {
          SectorRowAt(weighted, fetcher, i);
        }
        SumOfPointwise(ps, ValueOf, weighted, ValueOf);
        SumOfPointwise(ps, WeightOf, weighted, WeightOf);
      }
    }
  }

  /** What the prepared table always satisfies: normalised tickers, and
      weights that are shares of the total (all 0 when it is not positive). */
  predicate WellPrepared(ps: seq<Position>) {
    && (forall p :: p in ps ==> Helpers.NormalizeTicker(p.ticker) == p.ticker)
    && (SumOf(ps, ValueOf) > 0.0 ==> SumOf(ps, WeightOf) == 1.0)
    && (SumOf(ps, ValueOf) <= 0.0 ==> forall p :: p in ps ==> p.weight == 0.0)
  }

  lemma PreparedIsWellPrepared(hs: seq<Holding>, prices: Option<map<string, real>>, fetcher: Option<PortfolioSectors.InfoCall>)
    ensures WellPrepared(PreparedPortfolio(hs, prices, fetcher))
  {
    var ps := PreparedPortfolio(hs, prices, fetcher);
    PreparedWeights(hs, prices, fetcher);
    forall p | p in ps ensures Helpers.NormalizeTicker(p.ticker) == p.ticker {
      var i :| 0 <= i < |ps| && ps[i] == p;
      PreparedTickersNormalized(hs, prices, fetcher, i);
    }
  }

  /** The Setor column: the uploaded one when it has no gap, otherwise the one
      `_get_sector_for_ticker` finds for every row. */
  lemma PreparedSectors(hs: seq<Holding>, prices: Option<map<string, real>>, fetcher: Option<PortfolioSectors.InfoCall>, i: nat)
    requires i < |hs|
    ensures var p := PreparedPortfolio(hs, prices, fetcher)[i];
      && (HasAllSectors(hs) ==> p.sector == hs[i].sector.value)
      && (!HasAllSectors(hs) ==> p.sector == PortfolioSectors.SectorForTicker(fetcher, Helpers.NormalizeTicker(hs[i].ticker)))
  {
    PreparedRowAt(hs, prices, fetcher, i);
  }

  // The sector allocation

  /** A row of `get_portfolio_summary`: Setor, ValorTotal and PesoNoPortfolio. */
  datatype SectorRow = SectorRow(sector: string, totalValue: real, weight: real)

  function RowValue(r: SectorRow): real { r.totalValue }

  function RowWeight(r: SectorRow): real { r.weight }

  function SectorColumn(ps: seq<Position>): (r: seq<string>)
    ensures |r| == |ps|
    ensures forall i :: 0 <= i < |ps| ==> r[i] == ps[i].sector
  {
    seq(|ps|, i requires 0 <= i < |ps| => ps[i].sector)
  }

  /** The ValorAtual of the rows of one sector, summed. */
  function SectorValue(ps: seq<Position>, s: string): real {
    if ps == [] then 0.0
    else (if ps[0].sector == s then ps[0].value else 0.0) + SectorValue(ps[1..], s)
  }

  /** `groupby("Setor")["ValorAtual"].sum()` over the given sectors: one row per
      sector with the summed value (the share comes later). */
  function Groups(ps: seq<Position>, sectors: seq<string>): (r: seq<SectorRow>)
    ensures |r| == |sectors|
    ensures forall k :: 0 <= k < |r| ==> r[k] == SectorRow(sectors[k], SectorValue(ps, sectors[k]), 0.0)
  {
    if sectors == [] then []
    else [SectorRow(sectors[0], SectorValue(ps, sectors[0]), 0.0)] + Groups(ps, sectors[1..])
  }

  /** What one row contributes to the groups of the given sectors. */
  function Share(p: Position, sectors: seq<string>): real {
    if sectors == [] then 0.0
    else (if sectors[0] == p.sector then p.value else 0.0) + Share(p, sectors[1..])
  }

  /** A row counts once in the groups when its sector is listed once. */
  lemma {:induction false} ShareOnce(p: Position, sectors: seq<string>)
    requires NoDuplicates(sectors)
    ensures Share(p, sectors) == if p.sector in sectors then p.value else 0.0
  {
    if sectors != [] {
      assert sectors[0] !in sectors[1..];
      assert p.sector in sectors <==> p.sector == sectors[0] || p.sector in sectors[1..];
      ShareOnce(p, sectors[1..]);
    }
  }

  /** The groups of a table are the first row's share plus the groups of the
      rest. */
  lemma {:induction false} GroupsSplit(ps: seq<Position>, sectors: seq<string>)
    requires ps != []
    ensures SumOf(Groups(ps, sectors), RowValue) == Share(ps[0], sectors) + SumOf(Groups(ps[1..], sectors), RowValue)
  {
    if sectors != [] {
      GroupsSplit(ps, sectors[1..]);
    }
  }

  lemma {:induction false} GroupsOfNothing(sectors: seq<string>)
    ensures SumOf(Groups([], sectors), RowValue) == 0.0
  {
    if sectors != [] {
      GroupsOfNothing(sectors[1..]);
    }
  }

  /** Grouping by a list that names every sector of the table once loses and
      duplicates nothing: the group values add up to the table's total. */
  lemma {:induction false} GroupsTotal(ps: seq<Position>, sectors: seq<string>)
    requires NoDuplicates(sectors)
    requires forall i :: 0 <= i < |ps| ==> ps[i].sector in sectors
    ensures SumOf(Groups(ps, sectors), RowValue) == SumOf(ps, ValueOf)
  {
    if ps == [] {
      GroupsOfNothing(sectors);
    } else {
      GroupsSplit(ps, sectors);
      ShareOnce(ps[0], sectors);
      assert forall i :: 0 <= i < |ps[1..]| ==> ps[1..][i] == ps[i + 1];
      GroupsTotal(ps[1..], sectors);
    }
  }

  /** The table's sectors, once each (groupby's own order does not survive the
      sort that follows). */
  function Allocation(ps: seq<Position>): seq<SectorRow> {
    Groups(ps, Distinct(SectorColumn(ps)))
  }

  /** The PesoNoPortfolio column. */
  function WithShares(rows: seq<SectorRow>): (r: seq<SectorRow>)
    ensures |r| == |rows|
    ensures forall k :: 0 <= k < |r| ==> r[k] == rows[k].(weight := WeightFor(rows[k].totalValue, SumOf(rows, RowValue)))
  {
    var total := SumOf(rows, RowValue);
    seq(|rows|, k requires 0 <= k < |rows| => rows[k].(weight := WeightFor(rows[k].totalValue, total)))
  }

  function ByWeightDescending(r: SectorRow): Sorting.Key {
    Sorting.Key(-r.weight, 0.0, 0.0)
  }

  /** `get_portfolio_summary`: the allocation by sector, largest share first;
      an empty table gives an empty summary. */
  function PortfolioSummary(ps: seq<Position>): (r: seq<SectorRow>)
    ensures ps == [] <==> r == []
  {
    if ps == [] then []
    else
      var rows := WithShares(Allocation(ps));
      var r := Sorting.SortBy(rows, ByWeightDescending);
      Sorting.SortByElements(rows, ByWeightDescending);
      assert ps[0].sector in SectorColumn(ps);
      r
  }

  /** Every row of the summary is a sector of the table, with the sector's
      summed value and its share of the table's total. */
  lemma SummaryRowValues(ps: seq<Position>)
    ensures forall r :: r in PortfolioSummary(ps) ==>
      && r.sector in SectorColumn(ps)
      && r.totalValue == SectorValue(ps, r.sector)
      && r.weight == WeightFor(r.totalValue, SumOf(ps, ValueOf))
  {
    if ps != [] {
      var rows := WithShares(Allocation(ps));
      assert PortfolioSummary(ps) == Sorting.SortBy(rows, ByWeightDescending);
      Sorting.SortByElements(rows, ByWeightDescending);
      SharedRowValues(ps);
    }
  }

  /** The same, row by row, before the sort. */
  lemma SharedRowValues(ps: seq<Position>)
    ensures var rows := WithShares(Allocation(ps));
      forall k :: 0 <= k < |rows| ==>
        && rows[k].sector in SectorColumn(ps)
        && rows[k].totalValue == SectorValue(ps, rows[k].sector)
        && rows[k].weight == WeightFor(rows[k].totalValue, SumOf(ps, ValueOf))
  {
    var sectors := Distinct(SectorColumn(ps));
    var groups := Allocation(ps);
    GroupsTotal(ps, sectors);
    assert SumOf(groups, RowValue) == SumOf(ps, ValueOf);
    var rows := WithShares(groups);
    forall k | 0 <= k < |rows|
      ensures rows[k].sector in SectorColumn(ps)
    {
      assert rows[k].sector == sectors[k];
    }
  }

  /** Every sector of the table has a row in the summary. */
  lemma SummaryCoversSectors(ps: seq<Position>, s: string)
    requires s in SectorColumn(ps)
    ensures exists r :: r in PortfolioSummary(ps) && r.sector == s
  {
    var sectors := Distinct(SectorColumn(ps));
    var rows := WithShares(Allocation(ps));
    Sorting.SortByElements(rows, ByWeightDescending);
    var k :| 0 <= k < |sectors| && sectors[k] == s;
    assert rows[k] in PortfolioSummary(ps);
  }

  /** No sector has two rows in the summary. */
  lemma SummarySectorsDistinct(ps: seq<Position>)
    ensures var r := PortfolioSummary(ps);
      forall i, j :: 0 <= i < j < |r| ==> r[i].sector != r[j].sector
  {
    if ps != [] {
      var sectors := Distinct(SectorColumn(ps));
      var rows := WithShares(Allocation(ps));
      var r := PortfolioSummary(ps);
      assert r == Sorting.SortBy(rows, ByWeightDescending);
      assert multiset(r) == multiset(rows);
      RowsOfDistinctSectors(rows, r);
    }
  }

  /** A reordering of rows whose sectors are pairwise different has pairwise
      different sectors. */
  lemma RowsOfDistinctSectors(rows: seq<SectorRow>, r: seq<SectorRow>)
    requires forall a, b :: 0 <= a < b < |rows| ==> rows[a].sector != rows[b].sector
    requires multiset(r) == multiset(rows)
    ensures forall i, j :: 0 <= i < j < |r| ==> r[i].sector != r[j].sector
  {
    assert NoDuplicates(rows);
    PermutationNoDuplicates(rows, r);
    forall i, j | 0 <= i < j < |r| ensures r[i].sector != r[j].sector {
      assert r[i] in multiset(rows) && r[j] in multiset(rows);
      var a :| 0 <= a < |rows| && rows[a] == r[i];
      var b :| 0 <= b < |rows| && rows[b] == r[j];
      assert r[i].sector == r[j].sector ==> a == b;
    }
  }

  /** With a positive total the shares of the groups sum to 1; otherwise every
      share is 0. */
  lemma SharesSumToOne(rows: seq<SectorRow>)
    ensures SumOf(WithShares(rows), RowValue) == SumOf(rows, RowValue)
    ensures SumOf(rows, RowValue) > 0.0 ==> SumOf(WithShares(rows), RowWeight) == 1.0
    ensures SumOf(rows, RowValue) <= 0.0 ==> forall r :: r in WithShares(rows) ==> r.weight == 0.0
  {
    var total := SumOf(rows, RowValue);
    var r := WithShares(rows);
    SumOfPointwise(r, RowValue, rows, RowValue);
    if total > 0.0 {
      SumOfScaled(r, RowValue, RowWeight, total);
    }
  }

  /** The summary's values add up to the table's total; with a positive total
      the shares sum to 1, otherwise every share is 0. */
  lemma SummaryShares(ps: seq<Position>)
    ensures SumOf(PortfolioSummary(ps), RowValue) == SumOf(ps, ValueOf)
    ensures SumOf(ps, ValueOf) > 0.0 ==> SumOf(PortfolioSummary(ps), RowWeight) == 1.0
    ensures SumOf(ps, ValueOf) <= 0.0 ==> forall r :: r in PortfolioSummary(ps) ==> r.weight == 0.0
  {
    if ps != [] {
      var groups := Allocation(ps);
      var rows := WithShares(groups);
      var r := PortfolioSummary(ps);
      assert r == Sorting.SortBy(rows, ByWeightDescending);
      assert multiset(r) == multiset(rows);
      GroupsTotal(ps, Distinct(SectorColumn(ps)));
      SharesSumToOne(groups);
      SumOfPermutation(r, rows, RowValue);
      SumOfPermutation(r, rows, RowWeight);
      forall x | x in r ensures x in rows {
        assert x in multiset(r);
      }
    }
  }

  /** The rows come in decreasing order of share. */
  lemma SummarySorted(ps: seq<Position>)
    ensures var r := PortfolioSummary(ps);
      forall i, j :: 0 <= i < j < |r| ==> r[i].weight >= r[j].weight
  {
    if ps != [] {
      var rows := WithShares(Allocation(ps));
      var r := PortfolioSummary(ps);
      forall i, j | 0 <= i < j < |r| ensures r[i].weight >= r[j].weight {
        assert Sorting.KeyLe(ByWeightDescending(r[i]), ByWeightDescending(r[j]));
      }
    }
  }

  /** The share of one sector in a list of summary rows, as
      `summary[summary["Setor"] == sector]["PesoNoPortfolio"].sum()` reads it. */
  function SectorWeight(rows: seq<SectorRow>, s: string): real {
    if rows == [] then 0.0
    else (if rows[0].sector == s then rows[0].weight else 0.0) + SectorWeight(rows[1..], s)
  }

  lemma {:induction false} SectorWeightOfRow(rows: seq<SectorRow>, k: nat)
    requires k < |rows|
    requires forall i, j :: 0 <= i < j < |rows| ==> rows[i].sector != rows[j].sector
    ensures SectorWeight(rows, rows[k].sector) == rows[k].weight
  {
    if k == 0 {
      SectorWeightAbsent(rows[1..], rows[0].sector);
    } else {
      assert rows[0].sector != rows[k].sector;
      SectorWeightOfRow(rows[1..], k - 1);
    }
  }

  lemma {:induction false} SectorWeightAbsent(rows: seq<SectorRow>, s: string)
    requires forall r :: r in rows ==> r.sector != s
    ensures SectorWeight(rows, s) == 0.0
  {
    if rows != [] {
      SectorWeightAbsent(rows[1..], s);
    }
  }

  /** The weight the exposure analysis reads for a sector is that sector's share
      of the portfolio, and 0 for a sector the portfolio does not hold. */
  lemma SummarySectorWeight(ps: seq<Position>, s: string)
    ensures SectorWeight(PortfolioSummary(ps), s) ==
      if s in SectorColumn(ps) then WeightFor(SectorValue(ps, s), SumOf(ps, ValueOf)) else 0.0
  {
    var r := PortfolioSummary(ps);
    SummaryRowValues(ps);
    SummarySectorsDistinct(ps);
    if s in SectorColumn(ps) {
      SummaryCoversSectors(ps, s);
      var x :| x in r && x.sector == s;
      var k :| 0 <= k < |r| && r[k] == x;
      SectorWeightOfRow(r, k);
    } else {
      SectorWeightAbsent(r, s);
    }
  }
}
