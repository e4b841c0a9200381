# QUANFUND invest_app — a verified model of the analysis core

QUANFUND's invest_app is a Streamlit application for Brazilian (B3) equity
investors. Its core, modelled here, is:

- the macroeconomic scenario table and scenario identification (`MacroEconomicAnalysis`);
- the portfolio suggestor (`PortfolioSuggestor`):
  - it prepares the uploaded portfolio: tickers, current prices, values, weights and sectors;
  - it summarises the portfolio by sector;
  - it weighs that exposure against the scenario;
  - it suggests how to split a new contribution among undervalued stocks of favoured sectors;
- the valuation models (`ValuationModels`): Graham, book value per share, Bazin, Gordon growth DDM, the multiples and the simplified DCF, with their safety margins;
- the Monte Carlo portfolio simulation (`MonteCarloOptimizer`);
- the equal-weight portfolio (`MaxDiversificationOptimizer`);
- the backtester's series construction and summary (`Backtester`);
- the World Bank DataBank calls;
- the Yahoo Finance access layer and the ticker helpers.

Each Python module is one Dafny module, in a file of the same name:

- `macro_analysis.dfy`
- `portfolio_analyzer.dfy`, split into:
  - `portfolio_sectors.dfy`, the sector lookup;
  - `portfolio_data.dfy`, the portfolio table and its sector summary;
- `valuation.dfy`
- `monte_carlo.dfy`
- `max_diversification.dfy`
- `backtesting.dfy`
- `other_apis.dfy`
- `yahoo_finance_api.dfy`
- `helpers.dfy`

Three modules hold shared vocabulary:

- `common.dfy`: Python dict values, `Option`, exceptions as `Outcome`, ASCII case mapping and sums;
- `sorting.dfy`: the sorts pandas is asked for;
- `vectors.dfy`: the numpy sums and dot products.

Objects that the source updates in place are Dafny classes. Their methods carry `modifies` clauses and are proved against specification functions:

- `MacroEconomicAnalysis`
- `PortfolioSuggestor`
- `MonteCarloOptimizer`
- `Backtester`

The loops of the source are methods with loop invariants. Examples:

- the price fetch;
- the exposure loop;
- the opportunity search;
- the Monte Carlo results array, an `array2`;
- the DCF projection;
- the World Bank filtering.

Everything that only computes a value is a function.

Everything outside the program is a parameter:

- the API clients;
- `get_stock_info`;
- the random draws;
- the estimates of expected returns and of the shrunk covariance;
- `sqrt`;
- Python's `int()`/`float()` on strings.

Dates are day numbers.

## Model

| member | source | states |
|---|---|---|
| Helpers.NormalizeTicker | home/ubuntu/invest_app/analysis/portfolio_analyzer.py:94-96 | The normalised ticker is upper-case and ends with ".SA". It starts with the upper-cased input. It is longer than the input exactly when the upper-cased input lacked the suffix. |
| Helpers.NormalizeTickerIdempotent | home/ubuntu/invest_app/analysis/portfolio_analyzer.py:94-96 | Normalising twice equals normalising once, so a suffix is never doubled. |
| Helpers.NormalizeTickerKeepsSuffix | home/ubuntu/invest_app/analysis/portfolio_analyzer.py:94-96 | A ticker already ending in ".sa" in any case is only upper-cased. |
| Helpers.ParseBrazilianTicker | home/ubuntu/invest_app/utils/helpers.py:29-31 | A string comes back upper-case with the ".SA" suffix, extending the upper-cased input. A non-string comes back unchanged. |
| Helpers.ParseBrazilianTickerIdempotent | home/ubuntu/invest_app/utils/helpers.py:29-31 | Parsing a parsed ticker changes nothing. |
| Helpers.CalculatePercentageChange | home/ubuntu/invest_app/utils/helpers.py:35-37 | From a zero base the result is +inf, -inf or 0 by the sign of the new value. Otherwise the result r satisfies old·(1 + r/100) = new. |
| Helpers.PercentageChangeOfEqualValues | home/ubuntu/invest_app/utils/helpers.py:35-37 | An unchanged value has a change of 0, including from 0. |
| YahooFinance.ParseTicker | home/ubuntu/invest_app/data_collection/yahoo_finance_api.py:45-49 | `_parse_ticker` gives an upper-case ".SA" symbol. It agrees with `parse_brazilian_ticker` on every string. |
| YahooFinance.ParseTickerIdempotent | home/ubuntu/invest_app/data_collection/yahoo_finance_api.py:45-49 | Parsing a parsed symbol changes nothing. |
| YahooFinance.DropEmptyQuotes | home/ubuntu/invest_app/data_collection/yahoo_finance_api.py:118 | Exactly the rows with at least one of Open/High/Low/Close survive, each as many times as it occurs in the input. |
| YahooFinance.DropEmptyQuotesAppend | home/ubuntu/invest_app/data_collection/yahoo_finance_api.py:118 | The surviving rows keep their order: filtering a concatenation is concatenating the filtered parts. |
| YahooFinance.GetStockData | home/ubuntu/invest_app/data_collection/yahoo_finance_api.py:65-127 | No client, or no result for the parsed symbol, gives an empty table. Otherwise the table is the row filter of the chart: the rows that carry a price, in their order and with their repeats. |
| YahooFinance.BenchmarkSymbolGetsSuffix | home/ubuntu/invest_app/data_collection/yahoo_finance_api.py:187-190 | The benchmark goes through `get_stock_data`, so "^BVSP" is asked for as "^BVSP.SA". |
| YahooFinance.InfoDict | home/ubuntu/invest_app/data_collection/yahoo_finance_api.py:153-162 | The extracted info has exactly the seven listed fields. |
| YahooFinance.GetStockInfo | home/ubuntu/invest_app/data_collection/yahoo_finance_api.py:139-170 | No client or no result gives {}. Otherwise the dict holds exactly the extracted fields that are not None, with their values. |
| PortfolioSectors.TranslateSector | home/ubuntu/invest_app/analysis/portfolio_analyzer.py:63-72 | The ten successive rewrites act as one lookup in the translation table. |
| PortfolioSectors.TranslateSectorIdempotent | home/ubuntu/invest_app/analysis/portfolio_analyzer.py:63-72 | Translating twice equals translating once. A translated name is never an English key. |
| PortfolioSectors.TranslatedNamesAreNotKeys | home/ubuntu/invest_app/analysis/portfolio_analyzer.py:63-72 | No Portuguese name is one of the English names rewritten. |
| PortfolioSectors.MockSectorsAreTranslated | home/ubuntu/invest_app/analysis/portfolio_analyzer.py:76-81 | Every sector of the mock table is one of the translated names. |
| PortfolioSectors.SectorLookupKey | home/ubuntu/invest_app/analysis/portfolio_analyzer.py:59 | Upper-cased, the lookup symbol is the normalised ticker. An already normalised ticker is looked up as it is. |
| PortfolioSectors.SectorForTicker | home/ubuntu/invest_app/analysis/portfolio_analyzer.py:55-83 | The sector is never empty. With a fetcher it is the translated sector of the symbol's info, or "Outros" when the info has no non-empty sector. |
| PortfolioSectors.SectorForTickerTranslated | home/ubuntu/invest_app/analysis/portfolio_analyzer.py:55-83 | Whatever the fetcher returns, the sector is never an untranslated English name. Without a fetcher it is the mock table's entry, or "Outros". |
| PortfolioData.LatestPricesCover | home/ubuntu/invest_app/analysis/portfolio_analyzer.py:106-112 | A price series built row by row (the fetch loop, or PrecoMedio indexed by ticker) has an entry for every ticker of the table. |
| PortfolioData.LatestPricesOnlyTickers | home/ubuntu/invest_app/analysis/portfolio_analyzer.py:106-112 | The series has entries only for tickers of the table. |
| PortfolioData.LatestPricesLast | home/ubuntu/invest_app/analysis/portfolio_analyzer.py:108-112 | The entry of a ticker that no later row repeats is that row's price: the fetched regularMarketPrice or PrecoMedio in the loop, PrecoMedio in the copied column. |
| PortfolioData.LatestPricesAt | home/ubuntu/invest_app/analysis/portfolio_analyzer.py:108-112 | The entry of any row's ticker is the price of the last row holding that ticker. |
| PortfolioData.WeightsSumToOne | home/ubuntu/invest_app/analysis/portfolio_analyzer.py:117-121 | With a positive total the weights sum to 1. Otherwise every weight is 0. Values are untouched. |
| PortfolioData.PreparedRowAt | home/ubuntu/invest_app/analysis/portfolio_analyzer.py:85-126 | The corrected preparation (see Findings): every column of row i, namely normalised ticker, price, value, weight, and the uploaded sector or the looked-up one. |
| PortfolioData.PreparedTickersNormalized | home/ubuntu/invest_app/analysis/portfolio_analyzer.py:93-96 | Prepared tickers are upper-case ".SA" symbols that normalise to themselves. |
| PortfolioData.PreparedPrices | home/ubuntu/invest_app/analysis/portfolio_analyzer.py:106-115 | In the corrected preparation, ValorAtual = Quantidade × PrecoAtual. PrecoAtual is the given price, or PrecoMedio when the given series lacks the ticker. |
| PortfolioData.PreparedAveragePrices | home/ubuntu/invest_app/analysis/portfolio_analyzer.py:111-114 | In the corrected preparation with neither prices nor a fetcher, PrecoAtual is the PrecoMedio of the last row holding the same ticker (the row's own when no later row repeats it). |
| PortfolioData.PreparedFetchedPrices | home/ubuntu/invest_app/analysis/portfolio_analyzer.py:106-114 | In the corrected preparation with only a fetcher, PrecoAtual is the fetched regularMarketPrice, else PrecoMedio. |
| PortfolioData.PreparedWeights | home/ubuntu/invest_app/analysis/portfolio_analyzer.py:117-121 | In the prepared table the weights sum to 1 when the total is positive, and are all 0 otherwise. |
| PortfolioData.PreparedIsWellPrepared | home/ubuntu/invest_app/analysis/portfolio_analyzer.py:85-126 | The corrected preparation always gives normalised tickers and weights that are shares of the total. |
| PortfolioData.IndexFillNa | home/ubuntu/invest_app/analysis/portfolio_analyzer.py:114 | pandas' `Index.fillna` raises TypeError exactly when it is handed a column instead of a scalar. |
| PortfolioData.PreparedAsWritten | home/ubuntu/invest_app/analysis/portfolio_analyzer.py:85-114 | As written: an empty table is returned as the corrected one; every other table raises TypeError at the PrecoAtual line. |
| PortfolioData.PreparedAsWrittenRaisesOnOneHolding | home/ubuntu/invest_app/analysis/portfolio_analyzer.py:114 | A single holding ("PETR4", 100 shares at 25.0) makes the preparation as written raise TypeError. |
| PortfolioData.PreparedSectors | home/ubuntu/invest_app/analysis/portfolio_analyzer.py:123-124 | Setor is the uploaded column when it has no gap. Otherwise every row's sector is looked up. |
| PortfolioData.GroupsTotal | home/ubuntu/invest_app/analysis/portfolio_analyzer.py:133-135 | Grouping by a duplicate-free list of all the sectors loses nothing: the groups add up to the portfolio's total. |
| PortfolioData.PortfolioSummary | home/ubuntu/invest_app/analysis/portfolio_analyzer.py:128-140 | The summary is empty exactly when the portfolio is. |
| PortfolioData.SummaryRowValues | home/ubuntu/invest_app/analysis/portfolio_analyzer.py:133-139 | Every summary row is a sector of the portfolio, with that sector's summed value and its share of the portfolio's total. |
| PortfolioData.SummaryCoversSectors | home/ubuntu/invest_app/analysis/portfolio_analyzer.py:133 | Every sector of the portfolio has a summary row. |
| PortfolioData.SummarySectorsDistinct | home/ubuntu/invest_app/analysis/portfolio_analyzer.py:133 | No sector has two summary rows. |
| PortfolioData.SharesSumToOne | home/ubuntu/invest_app/analysis/portfolio_analyzer.py:135-139 | With a positive total the shares sum to 1. Otherwise they are all 0. |
| PortfolioData.SummaryShares | home/ubuntu/invest_app/analysis/portfolio_analyzer.py:133-140 | The summary's values add up to the portfolio's total. Its shares sum to 1 when the total is positive, and are all 0 otherwise. |
| PortfolioData.SummarySorted | home/ubuntu/invest_app/analysis/portfolio_analyzer.py:140 | Summary rows come in non-increasing order of share. |
| PortfolioData.SectorWeightOfRow | home/ubuntu/invest_app/analysis/portfolio_analyzer.py:153 | For a table with distinct sectors, the filtered sum for a listed sector is that row's share. |
| PortfolioData.SummarySectorWeight | home/ubuntu/invest_app/analysis/portfolio_analyzer.py:153 | The weight the exposure analysis reads is the sector's share of the portfolio, and 0 for a sector the portfolio does not hold. |
| PortfolioAnalyzer.CommentFor | home/ubuntu/invest_app/analysis/portfolio_analyzer.py:156-162 | The six comments partition the cases, each with both directions: (sensitivity > 0, weight < 10%), (> 0, ≥ 10%), (< 0, > 5%), (= 0), (< 0, ≤ 5%) and not mapped. |
| PortfolioAnalyzer.ExposureRowsSnoc | home/ubuntu/invest_app/analysis/portfolio_analyzer.py:152-163 | Appending a new sector's row keeps the rows one per sector and each row correct. |
| PortfolioAnalyzer.ExposureStep | home/ubuntu/invest_app/analysis/portfolio_analyzer.py:152-163 | One iteration over the remaining sectors keeps the loop invariant: the covered sectors are all but the remaining ones. |
| PortfolioAnalyzer.RowSectorsPermutation | home/ubuntu/invest_app/analysis/portfolio_analyzer.py:164 | A reordering of the rows covers the same sectors. |
| PortfolioAnalyzer.ExposureTablePermutation | home/ubuntu/invest_app/analysis/portfolio_analyzer.py:150-164 | Sorting the exposure rows keeps them an exposure table: one row for each sector of the summary or of the scenario, and no other. |
| PortfolioAnalyzer.ExposureWeights | home/ubuntu/invest_app/analysis/portfolio_analyzer.py:150-154 | Each exposure row carries the sector's share of the portfolio, 0 when not held. Its sensitivity is present exactly when the scenario maps the sector, with the scenario's value. |
| PortfolioAnalyzer.ExposureSort | home/ubuntu/invest_app/analysis/portfolio_analyzer.py:164 | Corrected sort: a permutation, with mapped sensitivities in descending order and "N/A" rows last. |
| PortfolioAnalyzer.ExposureSortAsWritten | home/ubuntu/invest_app/analysis/portfolio_analyzer.py:164 | As written, the sort raises exactly when the column mixes "N/A" with numbers. Otherwise it returns a permutation. |
| PortfolioAnalyzer.ExposureRaisesAsWritten | home/ubuntu/invest_app/analysis/portfolio_analyzer.py:148-164 | When some portfolio sector is not in a non-empty scenario, the as-written sort raises. |
| PortfolioAnalyzer.ExposureCounterexample | home/ubuntu/invest_app/analysis/portfolio_analyzer.py:148-164 | A portfolio holding only PETR4 with a fresh macro analyzer (default scenario "Inflação Controlada (Meta)") makes the as-written analysis raise. |
| PortfolioAnalyzer.FavoredRows | home/ubuntu/invest_app/analysis/portfolio_analyzer.py:182-183 | The corrected filter (see Findings): exactly the rows with a numeric positive sensitivity and a weight under 25% are kept. |
| PortfolioAnalyzer.FavoredRowsAsWritten | home/ubuntu/invest_app/analysis/portfolio_analyzer.py:182-183 | As written: raises TypeError exactly when some row's sensitivity is "N/A"; otherwise it agrees with the corrected filter. |
| PortfolioAnalyzer.FavoredRaisesAsWritten | home/ubuntu/invest_app/analysis/portfolio_analyzer.py:164-183 | After the corrected sort, the filter as written raises whenever the portfolio holds a sector the scenario does not list. |
| PortfolioAnalyzer.FavoredCounterexample | home/ubuntu/invest_app/analysis/portfolio_analyzer.py:164-183 | The PETR4.SA-only portfolio with a fresh macro analyzer makes the filter as written raise. |
| PortfolioAnalyzer.FavoredSectors | home/ubuntu/invest_app/analysis/portfolio_analyzer.py:182-184 | With the corrected filter: exactly the favoured rows, each with positive sensitivity and weight under 25%, in descending sensitivity. |
| PortfolioAnalyzer.Missing | home/ubuntu/invest_app/analysis/portfolio_analyzer.py:196-198 | The mock symbols appended are exactly those not yet candidates. Appending them keeps the candidates duplicate-free. |
| PortfolioAnalyzer.Candidates | home/ubuntu/invest_app/analysis/portfolio_analyzer.py:195-198 | The candidates are duplicate-free: exactly the portfolio's tickers and the three mock symbols. |
| PortfolioAnalyzer.AddMockCandidates | home/ubuntu/invest_app/analysis/portfolio_analyzer.py:195-200 | The loop appends exactly the missing mock symbols and stores their fetched infos. |
| PortfolioAnalyzer.MarketPrice | home/ubuntu/invest_app/analysis/portfolio_analyzer.py:209 | A usable price is present exactly when regularMarketPrice is a truthy number. It is then non-zero. |
| PortfolioAnalyzer.FirstWithSymbol | home/ubuntu/invest_app/analysis/portfolio_analyzer.py:211 | `next(...)` returns the first stored info carrying the ticker's symbol, and None only when none does. |
| PortfolioAnalyzer.CandidateInfo | home/ubuntu/invest_app/analysis/portfolio_analyzer.py:208-215 | The info used has a usable price. The fetched info wins when it has one. Otherwise the first stored info with the ticker's symbol is used when it has a usable price, and the candidate is skipped when it has none; a later stored info is never consulted. |
| PortfolioAnalyzer.MultipleValue | home/ubuntu/invest_app/analysis/portfolio_analyzer.py:233-234 | A multiple is read only when the valuation's multiples hold it as a number. |
| PortfolioAnalyzer.ValuationScore | home/ubuntu/invest_app/analysis/portfolio_analyzer.py:222-234 | The score is at most 5, and at least 2 when the price is below the Graham number. |
| PortfolioAnalyzer.ScoreThreshold | home/ubuntu/invest_app/analysis/portfolio_analyzer.py:231-236 | Score > 1 exactly when the price is below Graham, or two of {below Bazin, P/L < 15, P/VP < 2} hold. |
| PortfolioAnalyzer.TickerOpportunity | home/ubuntu/invest_app/analysis/portfolio_analyzer.py:205-245 | A ticker is an opportunity exactly when it is in the sector, has usable info and scores above 1. The row then carries that ticker, sector, sensitivity and weight. |
| PortfolioAnalyzer.SectorOpportunities | home/ubuntu/invest_app/analysis/portfolio_analyzer.py:205-245 | Every opportunity of a sector is a candidate of that sector, scoring above 1; and every candidate that qualifies has its opportunity collected. |
| PortfolioAnalyzer.AllOpportunities | home/ubuntu/invest_app/analysis/portfolio_analyzer.py:202-245 | Every opportunity is a candidate in one of the favoured sectors, with that sector's row and a score above 1; and every candidate qualifying in a favoured sector has its opportunity collected. |
| PortfolioAnalyzer.AllOpportunitiesSnoc | home/ubuntu/invest_app/analysis/portfolio_analyzer.py:202-245 | The outer loop appends each favoured sector's opportunities in turn. |
| PortfolioAnalyzer.SectorOpportunitiesSnoc | home/ubuntu/invest_app/analysis/portfolio_analyzer.py:205-245 | The inner loop appends each candidate's opportunity, if any, in turn. |
| PortfolioAnalyzer.Head | home/ubuntu/invest_app/analysis/portfolio_analyzer.py:256 | `head(n)` is the prefix of length min(n, len), or all but the last \|n\| rows for a negative n. |
| PortfolioAnalyzer.EqualSplit | home/ubuntu/invest_app/analysis/portfolio_analyzer.py:260-262 | One suggestion per top opportunity, in order. The amounts add up to the contribution. |
| PortfolioAnalyzer.SuggestionsCount | home/ubuntu/invest_app/analysis/portfolio_analyzer.py:247-265 | The number of suggestions is the head's length. When it is 0, the single "no opportunity" row is returned. |
| PortfolioAnalyzer.SuggestionsRankedAndSplit | home/ubuntu/invest_app/analysis/portfolio_analyzer.py:251-262 | The suggestions are the first k opportunities of the ranking (`head`), in the three-column order. Each gets contribution/k, and together they sum to the contribution. |
| PortfolioAnalyzer.TopOfRanking | home/ubuntu/invest_app/analysis/portfolio_analyzer.py:252-255 | The first m of the ranking are a sub-multiset of the opportunities. Nothing left out ranks before the last one kept. Among full ties, the kept ones are the earliest collected. |
| PortfolioAnalyzer.SuggestionsKeepFirstRanked | home/ubuntu/invest_app/analysis/portfolio_analyzer.py:251-262 | The suggested opportunities appear at most as often as they were collected, nothing dropped ranks before the last suggested one, and among full ties the earliest collected are suggested. |
| PortfolioAnalyzer.ByPriorityMeans | home/ubuntu/invest_app/analysis/portfolio_analyzer.py:253-254 | The sort key orders by sensitivity descending, then score descending, then sector weight ascending. |
| PortfolioAnalyzer.FetchPrices | home/ubuntu/invest_app/analysis/portfolio_analyzer.py:106-110 | The fetch loop builds the specified price series. |
| PortfolioAnalyzer.ExposureRows | home/ubuntu/invest_app/analysis/portfolio_analyzer.py:150-163 | The loop over the union of sectors builds an exposure table: one correct row per sector of the summary or the scenario. |
| PortfolioAnalyzer.CollectOpportunities | home/ubuntu/invest_app/analysis/portfolio_analyzer.py:202-245 | The nested loops build exactly the specified opportunities. |
| PortfolioAnalyzer.CollectSectorOpportunities | home/ubuntu/invest_app/analysis/portfolio_analyzer.py:205-245 | The inner loop builds exactly one sector's opportunities. |
| PortfolioAnalyzer.PortfolioSuggestor.constructor | home/ubuntu/invest_app/analysis/portfolio_analyzer.py:46-53 | The collaborators are stored and the portfolio is prepared (corrected preparation, see Findings). The prices are the given series, the fetched one, or PrecoMedio by ticker. No new investments are stored yet. |
| PortfolioAnalyzer.PortfolioSuggestor.PreparePortfolioData | home/ubuntu/invest_app/analysis/portfolio_analyzer.py:85-126 | The portfolio becomes the corrected prepared table (see Findings), which is well prepared. The price series is kept, or set from the fetch loop, or to PrecoMedio by ticker. |
| PortfolioAnalyzer.PortfolioSuggestor.AnalyzeSectorExposure | home/ubuntu/invest_app/analysis/portfolio_analyzer.py:142-164 | An empty summary gives no rows and leaves the scenario alone. Otherwise the scenario is re-identified without data, and the rows are its exposure table sorted by sensitivity (corrected sort). |
| PortfolioAnalyzer.PortfolioSuggestor.SuggestContributions | home/ubuntu/invest_app/analysis/portfolio_analyzer.py:166-267 | Without a fetcher or a valuation model: the "not configured" row, with no change. Otherwise the missing mock infos are appended. The result is the ranked, equally split head of the opportunities in the favoured sectors of the exposure table. |
| MacroAnalysis.SensitivityTableKeys | home/ubuntu/invest_app/analysis/macro_analysis.py:19-88 | The table's scenarios are exactly the eight named ones. "Não Definido" and "" are not among them. |
| MacroAnalysis.SensitivityTableInRange | home/ubuntu/invest_app/analysis/macro_analysis.py:19-88 | Every sensitivity lies between -2 and 2. |
| MacroAnalysis.NextScenarioName | home/ubuntu/invest_app/analysis/macro_analysis.py:129-158 | A known manual scenario wins. With Selic and IPCA, each of the five outcomes holds exactly under its threshold condition. Without them the previous scenario is kept, "Não Definido" becoming "Inflação Controlada (Meta)". |
| MacroAnalysis.UnmappedMessage | home/ubuntu/invest_app/analysis/macro_analysis.py:185 | The "not mapped" error differs from the "not defined" one. |
| MacroAnalysis.MacroEconomicAnalysis.constructor | home/ubuntu/invest_app/analysis/macro_analysis.py:112-113 | A new analyzer has scenario "Não Definido" and no details. |
| MacroAnalysis.MacroEconomicAnalysis.IdentifyCurrentScenario | home/ubuntu/invest_app/analysis/macro_analysis.py:115-162 | The new scenario is NextScenarioName of the old one, always a mapped scenario. Its details are its table row. Both are returned. |
| MacroAnalysis.MacroEconomicAnalysis.GetFavoredSectors | home/ubuntu/invest_app/analysis/macro_analysis.py:176-187 | For an undefined target, the "not defined" error. For an unknown one, the "not mapped" error. Otherwise the target's sensitivities. Each holds in both directions. |
| MacroAnalysis.NoDataKeepsScenario | home/ubuntu/invest_app/analysis/macro_analysis.py:154-158 | Without data a mapped scenario is kept. |
| MacroAnalysis.NextScenarioIsMapped | home/ubuntu/invest_app/analysis/macro_analysis.py:129-160 | From an undefined or a mapped scenario, identification always lands on a mapped scenario. |
| MacroAnalysis.DefaultScenario | home/ubuntu/invest_app/analysis/macro_analysis.py:154-160 | A fresh analyzer without data chooses "Inflação Controlada (Meta)", whose only sector is the "Geral" entry. |
| MacroAnalysis.HighRatesDominates | home/ubuntu/invest_app/analysis/macro_analysis.py:140-145 | Without a manual choice, Selic above 10% gives the high-rates scenario whatever the inflation. |
| Valuation.FirstNumber | home/ubuntu/invest_app/analysis/valuation.py:45-49 | The first key holding a number gives the result. None only when no key holds one. |
| Valuation.PyMul | home/ubuntu/invest_app/analysis/valuation.py:171 | Python's `*` on dict values: numbers multiply. A string and a float, or two strings, raise TypeError. Any other non-numeric mix gives a non-number. |
| Valuation.Repeat | home/ubuntu/invest_app/analysis/valuation.py:171 | `str * int` has length n·\|s\|, or is empty for n ≤ 0. |
| Valuation.Pow | home/ubuntu/invest_app/analysis/valuation.py:178 | `(1 + wacc)**year` is non-zero for a non-zero base. A negative power is the reciprocal of the positive one. |
| Valuation.DiscountedSumAtDiscountRate | home/ubuntu/invest_app/analysis/valuation.py:176-178 | When the growth rate equals the discount rate, the n discounted flows sum to n·f0. |
| Valuation.ProjectionStep | home/ubuntu/invest_app/analysis/valuation.py:176-178 | One iteration of the projection loop grows the flow once and extends the discounted sum by the next term. |
| Valuation.ProjectionDone | home/ubuntu/invest_app/analysis/valuation.py:180-187 | After the loop, projected flows plus the discounted terminal value give the equity value. |
| Valuation.SafetyMargin | home/ubuntu/invest_app/analysis/valuation.py:216 | price·(1 + m/100) = value. The margin is positive exactly when the value exceeds the price. |
| Valuation.AddSafetyMargins | home/ubuntu/invest_app/analysis/valuation.py:212-216 | One margin per model, present exactly when price and model value are truthy and the price positive, and equal to the safety margin. |
| Valuation.GordonGrowth | home/ubuntu/invest_app/analysis/valuation.py:107-116 | Defined exactly when D0 > 0, k > g and 1 + g > 0. It then satisfies V·(k - g) = D0·(1 + g) with V > 0. |
| Valuation.BazinPrice | home/ubuntu/invest_app/analysis/valuation.py:79-84 | Defined exactly for a positive dividend and yield. The price times the yield is the dividend. |
| Valuation.ValuationModels.New | home/ubuntu/invest_app/analysis/valuation.py:40 | The stored info holds exactly the int/float/str/bool entries of the data, with their values. |
| Valuation.ValuationModels.GetCurrentPrice | home/ubuntu/invest_app/analysis/valuation.py:43-49 | The first number among regularMarketPrice, currentPrice and previousClose, or None when none is a number. |
| Valuation.ValuationModels.Graham | home/ubuntu/invest_app/analysis/valuation.py:51-61 | Defined exactly when EPS and BVPS are positive numbers. The value is then sqrt(22.5·EPS·BVPS). |
| Valuation.GrahamCriterion | home/ubuntu/invest_app/analysis/valuation.py:52-58 | With a true square root, the Graham number is positive and (G/EPS)·(G/BVPS) = 22.5, Graham's P/L × P/VP bound. |
| Valuation.ValuationModels.Bazin | home/ubuntu/invest_app/analysis/valuation.py:68-84 | Defined exactly for a positive dividend and required yield. Price × yield = dividend, with a positive price. |
| Valuation.ValuationModels.Ddm | home/ubuntu/invest_app/analysis/valuation.py:86-116 | None when k ≤ g. Defined exactly when D0 > 0, k > g and 1 + g > 0, with V·(k - g) = D0·(1 + g) and V > 0. |
| Valuation.ValuationModels.RatioMultiples | home/ubuntu/invest_app/analysis/valuation.py:120-128 | P/L is present exactly when price and a non-zero EPS exist, with P/L·EPS = price. Likewise P/VP with BVPS. |
| Valuation.PassThroughNames | home/ubuntu/invest_app/analysis/valuation.py:130-135 | The four display names are distinct and are neither "P/L" nor "P/VP". |
| Valuation.AddPassThrough | home/ubuntu/invest_app/analysis/valuation.py:130-138 | Each numeric Yahoo ratio is copied under its display name. Every other key is untouched. |
| Valuation.ValuationModels.GetMultiples | home/ubuntu/invest_app/analysis/valuation.py:118-139 | The multiples are exactly P/L and P/VP as computed, plus each pass-through ratio present as a number, under its display name. |
| Valuation.ValuationModels.LastFcfe | home/ubuntu/invest_app/analysis/valuation.py:171-172 | Without a truthy EPS the proxy is 1e9. Otherwise it is EPS × shares (default 1e9), raising exactly when Python's `*` raises, and 1e9 when the product is not a number. |
| Valuation.ValuationModels.DcfShares | home/ubuntu/invest_app/analysis/valuation.py:188-190 | The share count is used exactly when it is a positive number. |
| Valuation.DiscountedCashFlow | home/ubuntu/invest_app/analysis/valuation.py:180-193 | None when WACC ≤ g_long or there are no shares. A zero base raises on a positive horizon. Otherwise the value per share × shares equals the equity value. |
| Valuation.ValuationModels.DcfValue | home/ubuntu/invest_app/analysis/valuation.py:141-193 | The DCF raises when the FCFE proxy raises. Otherwise it is the discounted cash flow of that proxy. |
| Valuation.ValuationModels.ProjectCashFlows | home/ubuntu/invest_app/analysis/valuation.py:174-178 | The loop leaves the flow grown `years` times. The projected list sums to the discounted sum of the grown flows. |
| Valuation.ValuationModels.DcfValuation | home/ubuntu/invest_app/analysis/valuation.py:141-193 | The placeholder DCF method computes exactly DcfValue. |
| Valuation.ValuationModels.GetAllValuations | home/ubuntu/invest_app/analysis/valuation.py:195-232 | It raises exactly when the DCF raises. Otherwise each field is its model's value, the multiples appear exactly when non-empty, and the four margins are present exactly when they apply, with their values. |
| MonteCarlo.Normalize | home/ubuntu/invest_app/optimization/monte_carlo.py:81-82 | A normalised draw is an allocation (non-negative, summing to 1). A weight is positive exactly where the draw is. |
| MonteCarlo.SampleFor | home/ubuntu/invest_app/optimization/monte_carlo.py:81-87 | A sample's weights are the normalised draw. Its return is mu·w and its volatility the (positive) volatility of w. Sharpe·volatility = return - rf. |
| MonteCarlo.SimulationArray | home/ubuntu/invest_app/optimization/monte_carlo.py:77-94 | The results array has 3 + n rows and one column per draw. Each column is return, volatility, Sharpe, then the weights. |
| MonteCarlo.WriteWeights | home/ubuntu/invest_app/optimization/monte_carlo.py:93-94 | The inner loop writes the weights into rows 3.. of one column and leaves every other cell alone. |
| MonteCarlo.ArgBest | home/ubuntu/invest_app/optimization/monte_carlo.py:117-119 | `idxmax`: the first row whose key is the largest. |
| MonteCarlo.WeightsByTicker | home/ubuntu/invest_app/optimization/monte_carlo.py:124 | The weights dict has exactly the tickers as keys. With distinct tickers each maps to its column's weight. |
| MonteCarlo.MonteCarloOptimizer.constructor | home/ubuntu/invest_app/optimization/monte_carlo.py:38-55 | The tickers and settings are stored. Expected returns are empty with fewer than two price rows. There are no results yet. |
| MonteCarlo.MonteCarloOptimizer.RunSimulation | home/ubuntu/invest_app/optimization/monte_carlo.py:69-98 | Without estimates or tickers: None, results unchanged. A negative count raises ValueError (np.zeros). Otherwise the stored and returned results are the simulation of the draws, one per portfolio. |
| MonteCarlo.MonteCarloOptimizer.GetOptimalPortfolio | home/ubuntu/invest_app/optimization/monte_carlo.py:112-131 | Without results or with an unknown metric: (None, None). Otherwise the weights and performance of the max-Sharpe or min-volatility sample, which beats every other sample. |
| MonteCarlo.StoredWeightsAreAllocations | home/ubuntu/invest_app/optimization/monte_carlo.py:81-82 | Every stored sample's weights lie in [0, 1] and sum to 1. |
| MaxDiversification.WeightVector | home/ubuntu/invest_app/optimization/max_diversification.py:64-66 | Aligned with the tickers, the weights are the constant vector 1/N. |
| MaxDiversification.EqualWeightsSumToOne | home/ubuntu/invest_app/optimization/max_diversification.py:55-56 | The weight vector sums to 1 and is an allocation. |
| MaxDiversification.SingleAsset | home/ubuntu/invest_app/optimization/max_diversification.py:136-139 | A single asset gets weight 1. |
| MaxDiversification.OptimizeEqualWeight | home/ubuntu/invest_app/optimization/max_diversification.py:39-84 | No tickers gives (None, None). Otherwise the equal weights are returned, and performance exactly when the estimates exist. The return is then the mean of mu, the volatility positive, and Sharpe·volatility = return. |
| OtherApis.ListQuery | home/ubuntu/invest_app/data_collection/other_apis.py:91-93 | The query always has the page and page size. It has "q" exactly for a non-empty search term. |
| OtherApis.FloatOf | home/ubuntu/invest_app/data_collection/other_apis.py:143 | `float(value)`: numbers convert. A string converts or raises ValueError. None and other objects raise TypeError. |
| OtherApis.Judge | home/ubuntu/invest_app/data_collection/other_apis.py:135-148 | A pair is kept exactly when its year parses, its value is not null, the year is inside the truthy bounds and the value converts. It aborts exactly when the conversion raises something other than ValueError. |
| OtherApis.Kept | home/ubuntu/invest_app/data_collection/other_apis.py:134-148 | The collection aborts exactly when some pair aborts. Otherwise it holds exactly the kept records. |
| OtherApis.IndicatorTable | home/ubuntu/invest_app/data_collection/other_apis.py:120-165 | Empty without a client, when the call raises, when it returns no data, when a pair aborts and when no pair is kept. Rows are sorted by year and all belong to the requested indicator, country and years. |
| OtherApis.IndicatorTableRecords | home/ubuntu/invest_app/data_collection/other_apis.py:134-158 | An aborting pair empties the table. Otherwise the table is a permutation of the kept records. |
| OtherApis.GetWorldBankIndicatorData | home/ubuntu/invest_app/data_collection/other_apis.py:103-165 | The loop over the pairs, then the sort, builds exactly the specified table. |
| OtherApis.KeptAbortsOnPrefix | home/ubuntu/invest_app/data_collection/other_apis.py:163-165 | A pair that aborts inside a prefix aborts the whole call. |
| Sorting.SortBy | home/ubuntu/invest_app/data_collection/other_apis.py:155 | The pandas sort: a permutation of its input, ordered by the key. |
| Sorting.SortByStable | home/ubuntu/invest_app/analysis/portfolio_analyzer.py:253-254 | The sort is stable: the elements of each key come out in their input order, as pandas' multi-column sort keeps them. |
| Backtesting.SortIndex | home/ubuntu/invest_app/analysis/backtesting.py:56 | `sort_index()`: a chronological permutation with the same dates. |
| Backtesting.CompoundingUndoesPctChange | home/ubuntu/invest_app/analysis/backtesting.py:56-63 | Compounding the percentage changes of non-zero values from the first value gives the values back. |
| Backtesting.PctChangeUndoesCompounding | home/ubuntu/invest_app/analysis/backtesting.py:57-63 | The percentage changes of a compounded curve are the returns (from the second on). |
| Backtesting.CurveFromReturnsEnd | home/ubuntu/invest_app/analysis/backtesting.py:63-69 | The last value of the curve is the capital grown by all the returns. |
| Backtesting.StoredReturnsSkipFirst | home/ubuntu/invest_app/analysis/backtesting.py:70 | Zeroing the first return removes it from the growth. |
| Backtesting.Window | home/ubuntu/invest_app/analysis/backtesting.py:73-77 | The date filter keeps exactly the points inside the window, in order. |
| Backtesting.Where | home/ubuntu/invest_app/analysis/backtesting.py:89-92 | `.loc[common_index]` keeps exactly the points on the common dates. |
| Backtesting.WhereChronological | home/ubuntu/invest_app/analysis/backtesting.py:89-92 | Selecting dates keeps a series chronological. |
| Backtesting.SeriesFromValues | home/ubuntu/invest_app/analysis/backtesting.py:53-57 | From values: both series are chronological, and the returns' dates are the values' dates. |
| Backtesting.SeriesFromReturns | home/ubuntu/invest_app/analysis/backtesting.py:58-70 | From returns: both series are chronological, and every return date has a value. |
| Backtesting.BuiltSeries | home/ubuntu/invest_app/analysis/backtesting.py:53-70 | Either branch yields chronological series, with every return date present among the value dates. |
| Backtesting.ChronologicalCurve | home/ubuntu/invest_app/analysis/backtesting.py:63-70 | Prepending the day before keeps the curve chronological. |
| Backtesting.Aligned | home/ubuntu/invest_app/analysis/backtesting.py:72-92 | After filtering, every point is inside the window and the series stay chronological. With a benchmark, all three series share exactly the same dates. |
| Backtesting.WindowKeepsDates | home/ubuntu/invest_app/analysis/backtesting.py:73-77 | Filtering both series by the same window keeps the return dates among the value dates. |
| Backtesting.ReturnOn | home/ubuntu/invest_app/analysis/backtesting.py:121 | The total return is final/capital - 1. A zero capital gives ±inf or NaN by the sign of the final value. |
| Backtesting.ValueAt | home/ubuntu/invest_app/analysis/backtesting.py:150 | The benchmark value on a date is present exactly when the date is in the series, and is its point there. |
| Backtesting.Backtester.constructor | home/ubuntu/invest_app/analysis/backtesting.py:24-92 | The stored series are the built, windowed and aligned ones. The dates and capital are stored. |
| Backtesting.Create | home/ubuntu/invest_app/analysis/backtesting.py:46-70 | Neither values nor returns raises ValueError. Empty returns raise IndexError (`index[0]`). Otherwise a valid backtester with the constructed series. |
| Backtesting.Backtester.SummaryFigures | home/ubuntu/invest_app/analysis/backtesting.py:110-142 | The figures before formatting. None exactly when there are no returns. Otherwise the period runs from the earliest to the latest return date, the initial capital is the stored one, the final capital is the last value and the total return is ReturnOn it. The benchmark's total return is present exactly with a non-empty benchmark, equal to its growth - 1. The quantstats figures are the given ones. |
| Backtesting.Backtester.GetPerformanceSummary | home/ubuntu/invest_app/analysis/backtesting.py:110-144 | Empty returns give an empty summary. The call raises IndexError exactly when there are returns and either the capital and the final value are both 0 (a NaN total return) or some quantstats figure is NaN. Otherwise it returns the figures, none of them NaN. |
| Backtesting.ZeroCapitalSummaryRaises | home/ubuntu/invest_app/analysis/backtesting.py:58-144 | A backtester built from returns on a zero capital, with some return in its window, has a NaN total return, and its summary raises IndexError whatever the quantstats figures are. |
| Backtesting.ZeroCapitalExample | home/ubuntu/invest_app/analysis/backtesting.py:24-144 | One return on day 5 with a zero capital: the summary raises IndexError. |
| Backtesting.Backtester.GetReturnsDf | home/ubuntu/invest_app/analysis/backtesting.py:146-151 | One row per portfolio return, with its date and value. The benchmark column exists exactly with a benchmark, holding its point on that date. |

## Left out

- I/O is not modelled. The HTTP requests, the Datasource API client, `print`, and the file writes of `save_data_to_csv` lie outside the model. The clients and `get_stock_info` are function parameters.
- `get_fmp_profile` is not modelled. It is an HTTP call with no logic beyond picking the first element of the response.
- Randomness is not modelled: `np.random.random` draws are an input sequence. Draws summing to 0 are excluded, since numpy would divide by zero there and produce NaN weights.
- The estimators are inputs. `mean_historical_return` and the Ledoit–Wolf covariance are the `mu` sequence and a volatility function of the weights, assumed positive because the shrunk covariance is positive definite. `np.sqrt` in the Graham number is a parameter.
- `int()` and `float()` on strings are parameters.
- Floating point is not modelled: all arithmetic is on exact reals. Rounding and the "%.2f" formatting of `get_all_valuations` and `get_performance_summary` are not modelled; the model returns the numbers.
- Strings the user only reads are not modelled: the justification texts and the exposure comments' text. The comment's case is modelled.
- The quantstats metrics of `get_performance_summary` are not computed (CAGR, volatility, Sharpe, Sortino, drawdown, Calmar, skew, kurtosis, beta, alpha, information ratio, tracking error). Their values are a parameter of the summary, in the order the source computes them. Only the period, capital, final capital and total returns are computed.
- Backtesting.Backtester.GetPerformanceSummary: the formatting of line 144 is modelled only where it raises, on a NaN figure. The summary holds numbers, not the "12.34%" or "1.23" strings. When two figures are equal, the label of the first decides the format; that is not modelled either. Whether a quantstats figure is NaN depends on the given values: the volatility of a single return, for example, is NaN in quantstats and makes the source raise, but the model raises only if the caller passes a NaN.
- `get_values_df` and `get_drawdown_series` are not modelled: they are plotting helpers over the same series.
- Sector lookup: a non-string sector from the info dict is treated as "Outros". The source would return the object itself when it is truthy.
- Duplicate tickers in the portfolio are not modelled as pandas would treat them. With a repeated ticker as the index, pandas' `.loc` returns a Series and mapping through a series with a repeated index raises; the model gives each ticker the price of its last row.
- Backtesting.BuiltSeries: requires distinct dates in each input series and non-zero portfolio values (no infinite `pct_change`), because pandas' treatment of repeated index labels and of division by zero lies outside the model.
- Sorting.SortBy is stable (Sorting.SortByStable), like the multi-column `sort_values` of portfolio_analyzer.py:253, which pandas runs as a stable lexsort. The single-column sorts (portfolio_analyzer.py:140 and 164, other_apis.py:155) run numpy's quicksort, which is not stable. For those, the model's tie order is one of the orders pandas may produce, and their contracts promise only order and permutation.
- A non-dict "data" value in the World Bank response is not modelled: the client parameter returns the pairs directly.
- The malformed string literal at data_collection/other_apis.py:145-147 is read as the evidently intended warning: skip the pair and continue. A `float()` TypeError escapes the inner `except ValueError` and is caught by the outer handler, so it empties the whole table.
- PortfolioAnalyzer.ValuationScore: the valuation is a parameter returning numbers. The round trip through the formatted strings of `get_all_valuations` (`float(str(v))`) is taken to give the number back.
- PortfolioAnalyzer.PortfolioSuggestor.SuggestContributions: models the corrected program. As written, no suggestor with a non-empty portfolio exists, because the constructor raises (see Findings). With the preparation corrected, the call would still raise at the exposure sort and at the favoured-sector filter whenever a held sector is not in the scenario (see Findings).
- PortfolioAnalyzer.PortfolioSuggestor.SuggestContributions: the valuation parameter always returns a summary. In the source, `get_all_valuations` raises when the DCF does (a string trailingEps with a float share count), and that exception would propagate out of `suggest_contributions`.
- PortfolioAnalyzer.PortfolioSuggestor.constructor: models the corrected `_prepare_portfolio_data`. As written, the constructor raises TypeError for every non-empty portfolio (see Findings).
- PortfolioAnalyzer.PortfolioSuggestor.PreparePortfolioData: models the corrected PrecoAtual line, where a missing price falls back to the row's PrecoMedio. As written, the line raises TypeError for every non-empty table (see Findings).
- PortfolioData.PreparedRowAt: states the corrected preparation; the as-written one raises for every non-empty table (PortfolioData.PreparedAsWritten).
- PortfolioData.PreparedPrices: states the corrected PrecoAtual fallback; as written, the line raises TypeError (PortfolioData.PreparedAsWritten).
- PortfolioData.PreparedAveragePrices: states the corrected preparation; as written, the table is never prepared (PortfolioData.PreparedAsWritten).
- PortfolioData.PreparedFetchedPrices: states the corrected preparation; as written, the PrecoAtual line raises TypeError after the fetch loop (PortfolioData.PreparedAsWritten).
- PortfolioData.PreparedIsWellPrepared: holds of the corrected preparation; as written, a non-empty table is never prepared (PortfolioData.PreparedAsWritten).
- PortfolioData.FetchedPrice: a regularMarketPrice that is not a number falls back to PrecoMedio. The source stores the value itself, and the multiplication by Quantidade that follows then either repeats a string (an integer quantity) or raises TypeError (a float one).
- PortfolioAnalyzer.FavoredRows: models the corrected filter, where a "N/A" sensitivity is not favoured. As written, `> 0` raises TypeError on a "N/A" cell (PortfolioAnalyzer.FavoredRowsAsWritten, see Findings).
- PortfolioAnalyzer.FavoredSectors: built on the corrected filter of PortfolioAnalyzer.FavoredRows.
- PortfolioAnalyzer.MarketPrice: only a numeric price counts. The source tests only that regularMarketPrice is truthy. A truthy non-number, such as the string "30.5", passes both tests, and the comparison with a Graham or Bazin value then raises TypeError. The model skips such a candidate instead.
- PortfolioAnalyzer.CandidateInfo: inherits the numeric test of PortfolioAnalyzer.MarketPrice, so an info whose price is a truthy non-number is not used.
- Helpers.NormalizeTicker: the case mapping is ASCII only. Python's `str.upper` maps every cased letter ("é" to "É") and may change the length ("ß" to "SS"), so for a non-ASCII ticker the result and the length statement differ from Python's. The same holds for YahooFinance.ParseTicker and PortfolioSectors.SectorLookupKey.
- Backtesting.Create: the date strings of `start_date`/`end_date` are day numbers, so `pd.to_datetime` parsing errors are not modelled.
- The Streamlit UI (`app.py`), the macro data loaders and the Markowitz/HRP optimisers are not modelled: they are not part of this model.

## Findings

| source | as written | input that shows it | evidently intended | confidence | as-written member | corrected member |
|---|---|---|---|---|---|---|
| home/ubuntu/invest_app/analysis/portfolio_analyzer.py:114 | `index.map(prices).fillna(self.user_portfolio_df["PrecoMedio"])`: pandas' `Index.fillna` accepts only a scalar and raises TypeError when handed a column, before it looks for holes | any non-empty portfolio, e.g. one holding "PETR4", 100 shares at 25.0: the constructor raises | each row the price series lacks takes its own PrecoMedio, as PortfolioData.PreparedPrices proves of the corrected preparation | high, not executed | PortfolioData.PreparedAsWritten | PortfolioData.PreparedPortfolio |
| home/ubuntu/invest_app/analysis/portfolio_analyzer.py:164 | `sort_values(by="SensibilidadeCenario")` over a column holding both the string "N/A" (sectors the scenario does not map) and integers | with the preparation corrected (row for line 114), a portfolio holding only PETR4.SA (sector "Petróleo e Gás") with a fresh macro analyzer: the default scenario maps only "Geral (...)", so the column mixes "N/A" and 1, and comparing str with int raises TypeError | rows with a sensitivity sorted in descending order, "N/A" rows last | high, not executed | PortfolioAnalyzer.ExposureCounterexample | PortfolioAnalyzer.ExposureSort |
| home/ubuntu/invest_app/analysis/portfolio_analyzer.py:182 | `sector_analysis["SensibilidadeCenario"] > 0` over a column holding "N/A" for the sectors the scenario does not map | with the preparation and the sort of line 164 corrected, the same PETR4.SA-only portfolio with a fresh macro analyzer: its "Petróleo e Gás" row holds "N/A", and comparing str with int raises TypeError | a "N/A" sector is not favoured | high, not executed | PortfolioAnalyzer.FavoredCounterexample | PortfolioAnalyzer.FavoredRows |
| home/ubuntu/invest_app/analysis/backtesting.py:144 | the formatter finds each float's label with `metrics[metrics == x].index[0]`; NaN equals nothing, so the selection is empty and `index[0]` raises IndexError | a backtester built from one return on day 5 with `initial_capital = 0.0`: the final value is 0, so "Retorno Total" is 0/0 - 1 = NaN | every figure is labelled and formatted, a NaN one as "nan" | medium, not executed | Backtesting.ZeroCapitalExample | Backtesting.Backtester.SummaryFigures |
