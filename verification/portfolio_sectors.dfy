/** The sector of a ticker as `PortfolioSuggestor._get_sector_for_ticker` finds it
    (analysis/portfolio_analyzer.py): the Yahoo Finance sector translated to the
    application's Portuguese names, or a fixed table when no data fetcher is
    configured. The fetcher (`get_stock_info`) is a caller-supplied function. */
module PortfolioSectors {
  import opened Common
  import Helpers

  type StockInfo = map<string, PyValue>

  /** `stock_data_fetcher.get_stock_info`. */
  type InfoCall = string -> StockInfo

  const Outros := "Outros"

  // Sectors

  /** The Yahoo Finance sector names `_get_sector_for_ticker` translates. */
  const SectorTranslation: map<string, string> := map[
    "Financial Services" := "Financeiro",
    "Technology" := "Tecnologia",
    "Consumer Cyclical" := "Consumo Cíclico",
    "Consumer Defensive" := "Consumo Não Cíclico",
    "Basic Materials" := "Materiais Básicos",
    "Industrials" := "Bens Industriais",
    "Energy" := "Petróleo e Gás",
    "Utilities" := "Utilidades Públicas",
    "Real Estate" := "Imobiliário",
    "Healthcare" := "Saúde"]

  /** The ten rewrites, applied one after the other as the source does. Since no
      Portuguese name is an English one, the chain acts as one table lookup. */
  function TranslateSector(s: string): (r: string)
    ensures r == (if s in SectorTranslation then SectorTranslation[s] else s)
  {
    var s1 := if s == "Financial Services" then "Financeiro" else s;
    var s2 := if s1 == "Technology" then "Tecnologia" else s1;
    var s3 := if s2 == "Consumer Cyclical" then "Consumo Cíclico" else s2;
    var s4 := if s3 == "Consumer Defensive" then "Consumo Não Cíclico" else s3;
    var s5 := if s4 == "Basic Materials" then "Materiais Básicos" else s4;
    var s6 := if s5 == "Industrials" then "Bens Industriais" else s5;
    var s7 := if s6 == "Energy" then "Petróleo e Gás" else s6;
    var s8 := if s7 == "Utilities" then "Utilidades Públicas" else s7;
    var s9 := if s8 == "Real Estate" then "Imobiliário" else s8;
    if s9 == "Healthcare" then "Saúde" else s9
  }

  /** Translating twice changes nothing more: a translated name is never one of
      the English names. */
  lemma TranslateSectorIdempotent(s: string)
    ensures TranslateSector(TranslateSector(s)) == TranslateSector(s)
    ensures TranslateSector(s) !in SectorTranslation
  {
    if s in SectorTranslation {
      TranslatedNamesAreNotKeys();
      assert TranslateSector(s) in SectorTranslation.Values;
    }
  }

  lemma TranslatedNamesAreNotKeys()
    ensures forall n :: n in SectorTranslation.Values ==> n !in SectorTranslation
  {
  }

  /** The sectors assumed when no fetcher is configured. */
  const MockSectors: map<string, string> := map[
    "PETR4.SA" := "Petróleo e Gás", "VALE3.SA" := "Materiais Básicos", "ITUB4.SA" := "Financeiro",
    "BBDC4.SA" := "Financeiro", "ABEV3.SA" := "Consumo Não Cíclico", "MGLU3.SA" := "Consumo Cíclico",
    "WEGE3.SA" := "Bens Industriais", "LREN3.SA" := "Consumo Cíclico", "RENT3.SA" := "Consumo Cíclico",
    "RADL3.SA" := "Saúde", "PRIO3.SA" := "Petróleo e Gás", "EQTL3.SA" := "Utilidades Públicas"]

  /** The mock names are the same Portuguese names the translation produces. */
  lemma MockSectorsAreTranslated()
    ensures MockSectors.Values <= SectorTranslation.Values
  {
    assert SectorTranslation["Financial Services"] == "Financeiro";
    assert SectorTranslation["Consumer Cyclical"] == "Consumo Cíclico";
    assert SectorTranslation["Consumer Defensive"] == "Consumo Não Cíclico";
    assert SectorTranslation["Basic Materials"] == "Materiais Básicos";
    assert SectorTranslation["Industrials"] == "Bens Industriais";
    assert SectorTranslation["Energy"] == "Petróleo e Gás";
    assert SectorTranslation["Utilities"] == "Utilidades Públicas";
    assert SectorTranslation["Healthcare"] == "Saúde";
  }

  /** The symbol `_get_sector_for_ticker` looks up: the ticker itself when its
      upper-case form ends with ".SA" (its case is kept), otherwise the
      upper-cased ticker with ".SA". */
  function SectorLookupKey(ticker: string): (key: string)
    ensures Upper(key) == Helpers.NormalizeTicker(ticker)
    ensures Upper(ticker) == ticker && EndsWith(ticker, Helpers.SaSuffix) ==> key == ticker
  {
    if EndsWith(Upper(ticker), Helpers.SaSuffix) then
      ticker
    else
      UpperAppend(Upper(ticker), Helpers.SaSuffix);
      UpperIdempotent(ticker);
      Upper(ticker) + Helpers.SaSuffix
  }

  /** `_get_sector_for_ticker`: with a fetcher, the translated sector of the
      symbol's info ("Outros" when it has none or an empty one); without one, the
      mock table, "Outros" for a symbol it does not list. */
  function SectorForTicker(fetcher: Option<InfoCall>, ticker: string): (s: string)
    ensures s != ""
    ensures fetcher.Some? ==>
      var info := fetcher.value(SectorLookupKey(ticker));
      if "sector" in info && info["sector"].PyStr? && info["sector"].s != "" then s == TranslateSector(info["sector"].s)
      else s == Outros
  {
    var key := SectorLookupKey(ticker);
    if fetcher.Some? then
      var info := fetcher.value(key);
      var sector := if "sector" in info then info["sector"] else PyStr(Outros);
      var translated := if sector.PyStr? then PyStr(TranslateSector(sector.s)) else sector;
      if translated.PyStr? && translated.s != "" then translated.s else Outros
    else
      MockSectorsNonEmpty();
      if key in MockSectors then MockSectors[key] else Outros
  }

  lemma MockSectorsNonEmpty()
    ensures "" !in MockSectors.Values
  {
  }

  /** Whatever the fetcher says, the sector is a Portuguese name: never one of
      the English names the translation rewrites. Without a fetcher it is a
      name of the mock table or "Outros". */
  lemma SectorForTickerTranslated(fetcher: Option<InfoCall>, ticker: string)
    ensures SectorForTicker(fetcher, ticker) !in SectorTranslation
    ensures fetcher.None? ==>
      var key := SectorLookupKey(ticker);
      SectorForTicker(fetcher, ticker) == (if key in MockSectors then MockSectors[key] else Outros)
  {
    var key := SectorLookupKey(ticker);
    var s := SectorForTicker(fetcher, ticker);
    assert Outros !in SectorTranslation;
    if fetcher.Some? {
      var info := fetcher.value(key);
      if "sector" in info && info["sector"].PyStr? && info["sector"].s != "" {
        TranslateSectorIdempotent(info["sector"].s);
      } else {
        assert s == Outros;
      }
    } else if key in MockSectors {
      MockSectorsAreTranslated();
      TranslatedNamesAreNotKeys();
      assert s == MockSectors[key];
      assert MockSectors[key] in SectorTranslation.Values;
    } else {
      assert s == Outros;
    }
  }
}
