/** Macro-economic scenarios and the sensitivity of each sector to them
    (analysis/macro_analysis.py): the scenario table, the rule that picks the
    current scenario, and the lookup of the sectors a scenario favours. */
module MacroAnalysis {
  import opened Common

  const NotDefined := "Não Definido"

  const StrongGrowth := "Crescimento Econômico Forte (PIB Alto)"
  const Recession := "Recessão Econômica (PIB Baixo/Negativo)"
  const HighRates := "Juros Altos (Política Monetária Apertada)"
  const LowRates := "Juros Baixos (Política Monetária Expansionista)"
  const HighInflation := "Inflação Alta e Persistente"
  const ControlledInflation := "Inflação Controlada (Meta)"
  const WeakReal := "Desvalorização Cambial (Real Fraco)"
  const StrongReal := "Valorização Cambial (Real Forte)"

  // One row of the sensitivity table per scenario.

  const StrongGrowthRow: map<string, int> := map[
      "Consumo Cíclico (Varejo, Automóveis, Construção Civil)" := 2,
      "Bens Industriais (Máquinas, Equipamentos)" := 2,
      "Tecnologia (Software, Hardware)" := 1,
      "Financeiro (Bancos, Seguradoras)" := 1,
      "Materiais Básicos (Mineração, Siderurgia, Papel e Celulose)" := 1,
      "Consumo Não Cíclico (Alimentos, Bebidas, Saúde)" := 0,
      "Utilidades Públicas (Energia, Saneamento)" := 0,
      "Petróleo e Gás" := 0,
      "Comunicações" := 0]

  const RecessionRow: map<string, int> := map[
      "Consumo Cíclico (Varejo, Automóveis, Construção Civil)" := -2,
      "Bens Industriais (Máquinas, Equipamentos)" := -2,
      "Tecnologia (Software, Hardware)" := -1,
      "Financeiro (Bancos, Seguradoras)" := -1,
      "Materiais Básicos (Mineração, Siderurgia, Papel e Celulose)" := -1,
      "Consumo Não Cíclico (Alimentos, Bebidas, Saúde)" := 1,
      "Utilidades Públicas (Energia, Saneamento)" := 1,
      "Petróleo e Gás" := 0,
      "Comunicações" := 0]

  const HighRatesRow: map<string, int> := map[
      "Consumo Cíclico (Varejo, Automóveis, Construção Civil)" := -2,
      "Bens Industriais (Máquinas, Equipamentos)" := -1,
      "Tecnologia (Valuation sensível a juros)" := -2,
      "Imobiliário (Financiamento caro)" := -2,
      "Financeiro (Bancos podem se beneficiar do spread, mas inadimplência sobe)" := 0,
      "Utilidades Públicas (Endividadas, mas repassam custos)" := -1,
      "Consumo Não Cíclico (Alimentos, Bebidas, Saúde)" := 0,
      "Materiais Básicos (Commodities podem ser afetadas por demanda global)" := -1]

  const LowRatesRow: map<string, int> := map[
      "Consumo Cíclico (Varejo, Automóveis, Construção Civil)" := 2,
      "Bens Industriais (Máquinas, Equipamentos)" := 1,
      "Tecnologia (Valuation beneficiado)" := 2,
      "Imobiliário (Financiamento barato)" := 2,
      "Financeiro (Compressão de spread, mas maior volume de crédito)" := 0,
      "Utilidades Públicas (Menor custo de dívida)" := 1,
      "Consumo Não Cíclico (Alimentos, Bebidas, Saúde)" := 0]

  const HighInflationRow: map<string, int> := map[
      "Consumo Não Cíclico (Repasse de preços, demanda inelástica)" := 1,
      "Materiais Básicos (Commodities como hedge)" := 1,
      "Financeiro (Títulos indexados à inflação, spread)" := 1,
      "Imobiliário (Ativos reais como hedge)" := 1,
      "Consumo Cíclico (Poder de compra corroído)" := -2,
      "Utilidades Públicas (Dificuldade de repasse integral e imediato)" := -1,
      "Tecnologia (Custos podem subir, poder de precificação varia)" := -1]

  const ControlledInflationRow: map<string, int> := map[
      "Geral (Estabilidade beneficia a maioria dos setores)" := 1]

  const WeakRealRow: map<string, int> := map[
      "Exportadoras (Materiais Básicos, Agronegócio, Papel e Celulose, Embraer)" := 2,
      "Turismo Receptivo" := 1,
      "Setores com Custos Dolarizados e Receita em Real" := -2,
      "Importadoras" := -2]

  const StrongRealRow: map<string, int> := map[
      "Importadoras" := 2,
      "Setores com Custos em Real e Receita Dolarizada (alguns serviços)" := -1,
      "Exportadoras" := -2,
      "Turismo Emissivo (empresas de viagem)" := 1]

  /** Sensitivity of each sector to each scenario, from -2 (very negative) to 2
      (very positive). */
  const SectorSensitivity: map<string, map<string, int>> := map[
    StrongGrowth := StrongGrowthRow,
    Recession := RecessionRow,
    HighRates := HighRatesRow,
    LowRates := LowRatesRow,
    HighInflation := HighInflationRow,
    ControlledInflation := ControlledInflationRow,
    WeakReal := WeakRealRow,
    StrongReal := StrongRealRow
  ]

  const Scenarios: set<string> :=
    {StrongGrowth, Recession, HighRates, LowRates, HighInflation, ControlledInflation, WeakReal, StrongReal}

  /** The table has the eight scenarios, and neither "Não Definido" nor the empty
      name is one of them. */
  lemma SensitivityTableKeys()
    ensures SectorSensitivity.Keys == Scenarios
    ensures NotDefined !in SectorSensitivity && "" !in SectorSensitivity
  {
    TableKeysAreScenarios();
    ScenarioNamesAreDefined();
  }

  lemma TableKeysAreScenarios()
    ensures SectorSensitivity.Keys == Scenarios
  {
    ScenariosAreKeys();
    forall k | k in SectorSensitivity
      ensures k in Scenarios
    {
      KeyIsScenario(k);
    }
  }

  lemma ScenariosAreKeys()
    ensures StrongGrowth in SectorSensitivity && Recession in SectorSensitivity
    ensures HighRates in SectorSensitivity && LowRates in SectorSensitivity
    ensures HighInflation in SectorSensitivity && ControlledInflation in SectorSensitivity
    ensures WeakReal in SectorSensitivity && StrongReal in SectorSensitivity
  {
  }

  lemma KeyIsScenario(k: string)
    requires k in SectorSensitivity
    ensures k in Scenarios
  {
  }

  lemma ScenarioNamesAreDefined()
    ensures NotDefined !in Scenarios && "" !in Scenarios
  {
    assert NotDefined !in Scenarios;
    assert "" !in Scenarios;
  }

  /** A row whose sensitivities all lie between -2 and 2. */
  predicate InRange(row: map<string, int>) {
    row.Values <= {-2, -1, 0, 1, 2}
  }

  /** Every sensitivity of the table lies between -2 and 2. */
  lemma SensitivityTableInRange()
    ensures forall s :: s in SectorSensitivity ==> InRange(SectorSensitivity[s])
  {
    EconomyRowsInRange();
    RateRowsInRange();
    InflationRowsInRange();
    CurrencyRowsInRange();
    TableKeysAreScenarios();
  }

  lemma EconomyRowsInRange()
    ensures InRange(StrongGrowthRow) && InRange(RecessionRow)
  {
  }

  lemma RateRowsInRange()
    ensures InRange(HighRatesRow) && InRange(LowRatesRow)
  {
  }

  lemma InflationRowsInRange()
    ensures InRange(HighInflationRow) && InRange(ControlledInflationRow)
  {
  }

  lemma CurrencyRowsInRange()
    ensures InRange(WeakRealRow) && InRange(StrongRealRow)
  {
  }

  /** `SECTOR_SENSITIVITY.get(name, {})`. */
  function DetailsFor(name: string): (d: map<string, int>)
    ensures name in SectorSensitivity ==> d == SectorSensitivity[name]
    ensures name !in SectorSensitivity ==> d == map[]
  {
    if name in SectorSensitivity then SectorSensitivity[name] else map[]
  }

  /** The scenario `identify_current_scenario` settles on, given the previous one:
      a manual name that the table knows wins; with both the Selic and the IPCA
      known, high rates come first, then high inflation, then GDP growth; with
      either missing, the previous scenario stays, except that "Não Definido"
      becomes the controlled-inflation default. */
  function NextScenarioName(prev: string, manual: Option<string>, selic: Option<real>, ipca: Option<real>, gdp: Option<real>): (name: string)
    ensures manual.Some? && manual.value in SectorSensitivity ==> name == manual.value
    ensures !(manual.Some? && manual.value in SectorSensitivity) ==>
      if selic.Some? && ipca.Some? then
        && (name == HighRates <==> selic.value > 0.10)
        && (name == HighInflation <==> selic.value <= 0.10 && ipca.value > 0.06)
        && (name == Recession <==> selic.value <= 0.10 && ipca.value <= 0.06 && gdp.Some? && gdp.value < 0.01)
        && (name == StrongGrowth <==> selic.value <= 0.10 && ipca.value <= 0.06 && gdp.Some? && gdp.value > 0.025)
        && (name == ControlledInflation <==>
              selic.value <= 0.10 && ipca.value <= 0.06 && (gdp.None? || 0.01 <= gdp.value <= 0.025))
      else
        name == (if prev == NotDefined then ControlledInflation else prev)
  {
    if manual.Some? && manual.value != "" && manual.value in SectorSensitivity then manual.value
    else if selic.Some? && ipca.Some? then
      if selic.value > 0.10 then
        if ipca.value > 0.06 then HighRates else HighRates
      else if ipca.value > 0.06 then HighInflation
      else if gdp.Some? && gdp.value < 0.01 then Recession
      else if gdp.Some? && gdp.value > 0.025 then StrongGrowth
      else ControlledInflation
    else if prev == NotDefined then ControlledInflation
    else prev
  }

  /** What `get_favored_sectors` returns: the scenario's sensitivities, or the
      single-entry {"Erro": message} dict. */
  datatype FavoredSectors = Sensitivities(sectors: map<string, int>) | Erro(message: string)

  const UndefinedMessage := "Cenário macroeconômico não definido."

  function UnmappedMessage(name: string): (m: string)
    ensures m != UndefinedMessage
  {
    var m := "Cenário '" + name + "' não mapeado.";
    assert m[8] == '\'' && UndefinedMessage[8] == 'm';
    m
  }

  class MacroEconomicAnalysis {
    var currentScenarioName: string
    var currentScenarioDetails: map<string, int>

    /** The scenario is either still undefined or one of the table's, and the
        details are that scenario's row of the table. */
    predicate Valid()
      reads this
    {
      && (currentScenarioName == NotDefined || currentScenarioName in SectorSensitivity)
      && currentScenarioDetails == DetailsFor(currentScenarioName)
    }

    constructor ()
      ensures Valid()
      ensures currentScenarioName == NotDefined && currentScenarioDetails == map[]
    {
      currentScenarioName := NotDefined;
      currentScenarioDetails := map[];
      SensitivityTableKeys();
    }

    /** `identify_current_scenario`: moves to the next scenario, stores its row of
        the table and returns both. */
    method IdentifyCurrentScenario(manual: Option<string>, selic: Option<real>, ipca: Option<real>, gdp: Option<real>)
      returns (name: string, details: map<string, int>)
      requires Valid()
      modifies this
      ensures Valid()
      ensures currentScenarioName == NextScenarioName(old(currentScenarioName), manual, selic, ipca, gdp)
      ensures currentScenarioDetails == DetailsFor(currentScenarioName)
      ensures name == currentScenarioName && details == currentScenarioDetails
      ensures name in SectorSensitivity
    {
      SensitivityTableKeys();
      if manual.Some? && manual.value != "" && manual.value in SectorSensitivity {
        currentScenarioName := manual.value;
        currentScenarioDetails := SectorSensitivity[manual.value];
        return currentScenarioName, currentScenarioDetails;
      }
      if selic.Some? && ipca.Some? {
        if selic.value > 0.10 {
          if ipca.value > 0.06 {
            currentScenarioName := HighRates;
          } else {
            currentScenarioName := HighRates;
          }
        } else if ipca.value > 0.06 {
          currentScenarioName := HighInflation;
        } else if gdp.Some? && gdp.value < 0.01 {
          currentScenarioName := Recession;
        } else if gdp.Some? && gdp.value > 0.025 {
          currentScenarioName := StrongGrowth;
        } else {
          currentScenarioName := ControlledInflation;
        }
      } else {
        if currentScenarioName == NotDefined {
          currentScenarioName := ControlledInflation;
        }
      }
      currentScenarioDetails := DetailsFor(currentScenarioName);
      return currentScenarioName, currentScenarioDetails;
    }

    /** `get_favored_sectors`: the row of the given scenario (of the current one
        when none is given); an error when that scenario is undefined or not in
        the table. */
    function GetFavoredSectors(scenarioName: Option<string>): (r: FavoredSectors)
      reads this
      ensures var target := if scenarioName.Some? && scenarioName.value != "" then scenarioName.value else currentScenarioName;
        && (r == Erro(UndefinedMessage) <==> target == "" || target == NotDefined)
        && (r == Erro(UnmappedMessage(target)) <==> target != "" && target != NotDefined && target !in SectorSensitivity)
        && (r.Sensitivities? <==> target in SectorSensitivity)
        && (r.Sensitivities? ==> r.sectors == SectorSensitivity[target])
    {
      var target := if scenarioName.Some? && scenarioName.value != "" then scenarioName.value else currentScenarioName;
      SensitivityTableKeys();
      if target == "" || target == NotDefined then Erro(UndefinedMessage)
      else if target !in SectorSensitivity then Erro(UnmappedMessage(target))
      else Sensitivities(SectorSensitivity[target])
    }
  }

  /** Once a scenario has been identified, asking again without any data keeps it:
      the default only replaces "Não Definido". */
  lemma NoDataKeepsScenario(prev: string)
    requires prev in SectorSensitivity
    ensures NextScenarioName(prev, None, None, None, None) == prev
  {
    SensitivityTableKeys();
  }

  /** Starting from a consistent state, the next scenario is always one of the
      table's, whatever the inputs. */
  lemma NextScenarioIsMapped(prev: string, manual: Option<string>, selic: Option<real>, ipca: Option<real>, gdp: Option<real>)
    requires prev == NotDefined || prev in SectorSensitivity
    ensures NextScenarioName(prev, manual, selic, ipca, gdp) in SectorSensitivity
  {
    SensitivityTableKeys();
  }

  /** With no data at all a fresh analyzer settles on the controlled-inflation
      scenario, whose only entry is the general one. */
  lemma DefaultScenario()
    ensures NextScenarioName(NotDefined, None, None, None, None) == ControlledInflation
    ensures DetailsFor(ControlledInflation).Keys == {"Geral (Estabilidade beneficia a maioria dos setores)"}
  {
    ScenariosAreKeys();
    assert DetailsFor(ControlledInflation) == ControlledInflationRow;
  }

  /** With the Selic above 10% the rates scenario wins whatever the inflation:
      the two inner branches of the source agree. */
  lemma HighRatesDominates(prev: string, selic: real, ipca: real, gdp: Option<real>)
    requires selic > 0.10
    ensures NextScenarioName(prev, None, Some(selic), Some(ipca), gdp) == HighRates
  {
  }
}
