/** The Monte Carlo optimiser of optimization/monte_carlo.py: random weight
    vectors normalised to sum 1, each stored with its expected return,
    volatility and Sharpe ratio, and the choice of the best stored portfolio.
    The expected returns mu, the volatility `sqrt(w' S w)` of the shrunk
    covariance S, and the random draws are inputs. */
module MonteCarlo {
  import opened Common
  import opened Vectors

  /** A row of the results table: Retorno, Volatilidade, SharpeRatio and the
      weight under each ticker column. */
  datatype Sample = Sample(ret: real, volatility: real, sharpe: real, weights: seq<real>)

  /** The performance series of the chosen portfolio. */
  datatype Performance = Performance(expectedReturn: real, volatility: real, sharpe: real)

  /** `np.sqrt(np.dot(w.T, np.dot(S, w)))`. */
  type VolatilityOf = seq<real> -> real

  /** Weights that are fractions of the whole. */
  predicate IsAllocation(w: seq<real>) {
    NonNegative(w) && Sum(w) == 1.0
  }

  /** The shrunk covariance is positive definite, so an allocation has a
      positive volatility. */
  ghost predicate PositiveVolatility(volatility: VolatilityOf) {
    forall w :: IsAllocation(w) ==> volatility(w) > 0.0
  }

  /** One draw of `np.random.random(n)`: n numbers in [0, 1), not all 0. */
  predicate IsDraw(d: seq<real>, n: nat) {
    && |d| == n
    && (forall j :: 0 <= j < n ==> 0.0 <= d[j] < 1.0)
    && Sum(d) > 0.0
  }

  /** `weights /= np.sum(weights)`: the draw as fractions of its sum; a weight
      is positive exactly where the draw is. */
  function Normalize(d: seq<real>): (w: seq<real>)
    requires NonNegative(d) && Sum(d) > 0.0
    ensures |w| == |d|
    ensures IsAllocation(w)
    ensures forall j :: 0 <= j < |d| ==> (w[j] > 0.0 <==> d[j] > 0.0)
  {
    var total := Sum(d);
    var w := Scale(d, total);
    SumScale(d, total);
    DivSelf(total);
    assert forall j :: 0 <= j < |d| ==> (w[j] > 0.0 <==> d[j] > 0.0) && w[j] >= 0.0;
    w
  }

  lemma DivSelf(x: real)
    requires x != 0.0
    ensures x / x == 1.0
  {
  }

  /** The row a draw produces: its normalised weights, the return Σ mu·w, the
      volatility, and the Sharpe ratio, the excess return per unit of
      volatility. */
  function SampleFor(mu: seq<real>, volatility: VolatilityOf, riskFreeRate: real, d: seq<real>): (s: Sample)
    requires PositiveVolatility(volatility)
    requires IsDraw(d, |mu|)
    ensures s.weights == Normalize(d) && IsAllocation(s.weights) && |s.weights| == |mu|
    ensures s.ret == Dot(mu, s.weights)
    ensures s.volatility == volatility(s.weights) && s.volatility > 0.0
    ensures s.sharpe * s.volatility == s.ret - riskFreeRate
  {
    var w := Normalize(d);
    var ret := Dot(mu, w);
    var v := volatility(w);
    Sample(ret, v, (ret - riskFreeRate) / v, w)
  }

  /** The whole table: one row per draw, in order. */
  function Simulation(mu: seq<real>, volatility: VolatilityOf, riskFreeRate: real, draws: seq<seq<real>>): (t: seq<Sample>)
    requires PositiveVolatility(volatility)
    requires forall d :: d in draws ==> IsDraw(d, |mu|)
    ensures |t| == |draws|
    ensures forall i :: 0 <= i < |draws| ==> t[i] == SampleFor(mu, volatility, riskFreeRate, draws[i])
  {
    seq(|draws|, i requires 0 <= i < |draws| => SampleFor(mu, volatility, riskFreeRate, draws[i]))
  }

  /** The column of `results_array` for one row. */
  function Column(s: Sample): seq<real> {
    [s.ret, s.volatility, s.sharpe] + s.weights
  }

  /** `idxmax` of a column (`idxmin` through a negated key): the first row
      whose key is the largest. */
  function ArgBest(rows: seq<Sample>, key: Sample -> real): (i: nat)
    requires rows != []
    ensures i < |rows|
    ensures forall j :: 0 <= j < |rows| ==> key(rows[j]) <= key(rows[i])
    ensures forall j :: 0 <= j < i ==> key(rows[j]) < key(rows[i])
  {
    if |rows| == 1 then 0
    else
      var k := ArgBest(rows[..|rows| - 1], key);
      if key(rows[|rows| - 1]) > key(rows[k]) then |rows| - 1 else k
  }

  function SharpeOf(s: Sample): real { s.sharpe }

  function NegatedVolatility(s: Sample): real { -s.volatility }

  /** `row[tickers].to_dict()`: each ticker with the weight in its column (a
      repeated ticker keeps its last column). */
  function WeightsByTicker(tickers: seq<string>, w: seq<real>): (m: map<string, real>)
    requires |w| == |tickers|
    ensures m.Keys == set t | t in tickers
    ensures NoDuplicates(tickers) ==> forall j :: 0 <= j < |tickers| ==> m[tickers[j]] == w[j]
  {
    if tickers == [] then map[]
    else
      var n := |tickers| - 1;
      var init := WeightsByTicker(tickers[..n], w[..n]);
      assert forall t :: t in tickers <==> t in tickers[..n] || t == tickers[n];
      init[tickers[n] := w[n]]
  }

  function PerformanceOf(s: Sample): Performance {
    Performance(s.ret, s.volatility, s.sharpe)
  }

  /** `results_array`, filled column by column: for each draw its return,
      volatility and Sharpe ratio, then its weights. */
  method SimulationArray(mu: seq<real>, volatility: VolatilityOf, riskFreeRate: real, draws: seq<seq<real>>) returns (table: array2<real>)
    requires PositiveVolatility(volatility)
    requires forall d :: d in draws ==> IsDraw(d, |mu|)
    ensures fresh(table)
    ensures table.Length0 == 3 + |mu| && table.Length1 == |draws|
    ensures forall c, k :: 0 <= c < |draws| && 0 <= k < 3 + |mu| ==>
      table[k, c] == Column(SampleFor(mu, volatility, riskFreeRate, draws[c]))[k]
  {
    var n := |mu|;
    table := new real[3 + n, |draws|]((_, _) => 0.0);
    for i := 0 to |draws|
      invariant forall c, k :: 0 <= c < i && 0 <= k < 3 + n ==>
        table[k, c] == Column(SampleFor(mu, volatility, riskFreeRate, draws[c]))[k]
    {
      assert draws[i] in draws;
      var weights := Normalize(draws[i]);
      var ret := Dot(mu, weights);
      var v := volatility(weights);
      var sharpe := (ret - riskFreeRate) / v;
      ghost var column := Column(SampleFor(mu, volatility, riskFreeRate, draws[i]));
      assert column == [ret, v, sharpe] + weights;
      table[0, i] := ret;
      table[1, i] := v;
      table[2, i] := sharpe;
      WriteWeights(table, i, weights);
      assert forall k :: 0 <= k < 3 + n ==> table[k, i] == column[k];
    }
  }

  /** The inner loop of the simulation: the weights of draw `c` go to rows 3
      onwards of column `c`; every other cell keeps its value. */
  method WriteWeights(table: array2<real>, c: nat, weights: seq<real>)
    requires c < table.Length1 && table.Length0 == 3 + |weights|
    modifies table
    ensures forall j :: 0 <= j < |weights| ==> table[3 + j, c] == weights[j]
    ensures forall k, c' :: 0 <= k < table.Length0 && 0 <= c' < table.Length1 && (c' != c || k < 3) ==>
      table[k, c'] == old(table[k, c'])
  {
    for j := 0 to |weights|
      invariant forall j' :: 0 <= j' < j ==> table[3 + j', c] == weights[j']
      invariant forall k, c' :: 0 <= k < table.Length0 && 0 <= c' < table.Length1 && (c' != c || k < 3) ==>
        table[k, c'] == old(table[k, c'])
    {
      table[3 + j, c] := weights[j];
    }
  }

  class MonteCarloOptimizer {
    const tickers: seq<string>
    const numPortfolios: int
    /** Empty when the prices have fewer than two rows. */
    const mu: seq<real>
    const volatility: VolatilityOf
    /** `results_df`: None until a simulation succeeds. */
    var results: Option<seq<Sample>>

    /** Every stored row holds an allocation over the tickers. */
    ghost predicate Valid()
      reads this
    {
      && (mu == [] || |mu| == |tickers|)
      && PositiveVolatility(volatility)
      && (results.Some? ==> forall s :: s in results.value ==> |s.weights| == |tickers| && IsAllocation(s.weights))
    }

    /** `__init__` with `_calculate_mu_S`: fewer than two price rows leave mu
        (and S) empty. */
    constructor (tickers: seq<string>, priceRows: nat, numPortfolios: int, mu: seq<real>, volatility: VolatilityOf)
      requires |mu| == |tickers|
      requires PositiveVolatility(volatility)
      ensures Valid()
      ensures this.tickers == tickers && this.numPortfolios == numPortfolios && this.volatility == volatility
      ensures this.mu == (if priceRows < 2 then [] else mu)
      ensures results.None?
    {
      this.tickers := tickers;
      this.numPortfolios := numPortfolios;
      this.mu := if priceRows < 2 then [] else mu;
      this.volatility := volatility;
      results := None;
    }

    /** `run_simulation`: None without estimates or tickers; `np.zeros` raises
        ValueError for a negative count; otherwise one column per draw is
        filled in `results_array`, and the table of its columns is stored and
        returned. */
    method RunSimulation(draws: seq<seq<real>>, riskFreeRate: real) returns (r: Outcome<Option<seq<Sample>>>)
      requires Valid()
      requires numPortfolios >= 0 ==> |draws| == numPortfolios
      requires forall d :: d in draws ==> IsDraw(d, |tickers|)
      modifies this
      ensures Valid()
      ensures mu == [] || tickers == [] ==> r == Returned(None) && results == old(results)
      ensures mu != [] && tickers != [] && numPortfolios < 0 ==> r == Raised("ValueError") && results == old(results)
      ensures mu != [] && tickers != [] && numPortfolios >= 0 ==>
        && r == Returned(Some(Simulation(mu, volatility, riskFreeRate, draws)))
        && results == Some(Simulation(mu, volatility, riskFreeRate, draws))
        && |results.value| == numPortfolios
    {
      if mu == [] || tickers == [] {
        return Returned(None);
      }
      if numPortfolios < 0 {
        return Raised("ValueError");
      }
      var n := |tickers|;
      var table := SimulationArray(mu, volatility, riskFreeRate, draws);
      var rows := seq(numPortfolios, c requires 0 <= c < numPortfolios reads table =>
        Sample(table[0, c], table[1, c], table[2, c], seq(n, j requires 0 <= j < n reads table => table[3 + j, c])));
      forall c | 0 <= c < numPortfolios
        ensures rows[c] == SampleFor(mu, volatility, riskFreeRate, draws[c])
      {
        var s := SampleFor(mu, volatility, riskFreeRate, draws[c]);
        assert forall j :: 0 <= j < n ==> rows[c].weights[j] == Column(s)[3 + j];
      }
      assert rows == Simulation(mu, volatility, riskFreeRate, draws);
      results := Some(rows);
      r := Returned(Some(rows));
    }

    /** `get_optimal_portfolio`: (None, None) before a successful run, on an
        empty table, or for a metric other than "SharpeRatio" and
        "Volatilidade"; otherwise the weights by ticker and the performance of
        the first row with the highest Sharpe ratio, or with the lowest
        volatility. */
    method GetOptimalPortfolio(metric: string) returns (weights: Option<map<string, real>>, performance: Option<Performance>)
      requires Valid()
      ensures results.None? || results.value == [] || (metric != "SharpeRatio" && metric != "Volatilidade") ==>
        weights.None? && performance.None?
      ensures results.Some? && results.value != [] && metric == "SharpeRatio" ==>
        var i := ArgBest(results.value, SharpeOf);
        && weights == Some(WeightsByTicker(tickers, results.value[i].weights))
        && performance == Some(PerformanceOf(results.value[i]))
        && forall s :: s in results.value ==> s.sharpe <= performance.value.sharpe
      ensures results.Some? && results.value != [] && metric == "Volatilidade" ==>
        var i := ArgBest(results.value, NegatedVolatility);
        && weights == Some(WeightsByTicker(tickers, results.value[i].weights))
        && performance == Some(PerformanceOf(results.value[i]))
        && forall s :: s in results.value ==> performance.value.volatility <= s.volatility
    {
      if results.None? || results.value == [] {
        return None, None;
      }
      var rows := results.value;
      var i: nat;
      if metric == "SharpeRatio" {
        i := ArgBest(rows, SharpeOf);
        assert forall j :: 0 <= j < |rows| ==> SharpeOf(rows[j]) <= SharpeOf(rows[i]);
      } else if metric == "Volatilidade" {
        i := ArgBest(rows, NegatedVolatility);
        assert forall j :: 0 <= j < |rows| ==> NegatedVolatility(rows[j]) <= NegatedVolatility(rows[i]);
      } else {
        return None, None;
      }
      assert rows[i] in rows;
      weights := Some(WeightsByTicker(tickers, rows[i].weights));
      performance := Some(PerformanceOf(rows[i]));
    }
  }

  /** A stored row's weights are an allocation: non-negative and summing to 1. */
  lemma StoredWeightsAreAllocations(m: MonteCarloOptimizer, s: Sample)
    requires m.Valid() && m.results.Some? && s in m.results.value
    ensures Sum(s.weights) == 1.0
    ensures forall j :: 0 <= j < |s.weights| ==> 0.0 <= s.weights[j] <= 1.0
  {
    forall j | 0 <= j < |s.weights| ensures s.weights[j] <= 1.0 {
      SumAtLeastElement(s.weights, j);
    }
  }

  lemma {:induction false} SumAtLeastElement(w: seq<real>, j: nat)
    requires NonNegative(w) && j < |w|
    ensures w[j] <= Sum(w)
  {
    assert NonNegative(w[1..]);
    if j == 0 {
      SumNonNegative(w[1..]);
    } else {
      SumAtLeastElement(w[1..], j - 1);
    }
  }
}
