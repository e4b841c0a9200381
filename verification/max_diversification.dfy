/** The equal-weight portfolio of optimization/max_diversification.py: each
    ticker gets 1/N, and the expected performance is computed from the
    estimates of the prices when they can be had. The estimates (mu and the
    volatility of the shrunk covariance) are an input, `None` when estimating
    them raised. */
module MaxDiversification {
  import opened Common
  import opened Vectors
  import MonteCarlo

  /** `mean_historical_return` and `ledoit_wolf` of the prices, aligned with
      the tickers. */
  datatype Estimates = Estimates(mu: seq<real>, volatility: MonteCarlo.VolatilityOf)

  /** `{ticker: 1 / num_assets for ticker in tickers}`. */
  function EqualWeights(tickers: seq<string>): (m: map<string, real>)
    requires tickers != []
    ensures m.Keys == set t | t in tickers
    ensures forall t :: t in m ==> m[t] == 1.0 / (|tickers| as real)
  {
    map t | t in tickers :: 1.0 / (|tickers| as real)
  }

  /** The weights in ticker order, as `pd.Series(weights, index=tickers)`. */
  function WeightVector(tickers: seq<string>): (w: seq<real>)
    requires tickers != []
    ensures w == Constant(|tickers|, 1.0 / (|tickers| as real))
  {
    var m := EqualWeights(tickers);
    seq(|tickers|, i requires 0 <= i < |tickers| => m[tickers[i]])
  }

  /** With distinct tickers the weights add up to 1. */
  lemma EqualWeightsSumToOne(tickers: seq<string>)
    requires tickers != []
    ensures Sum(WeightVector(tickers)) == 1.0
    ensures MonteCarlo.IsAllocation(WeightVector(tickers))
  {
    var n := |tickers| as real;
    SumConstant(|tickers|, 1.0 / n);
    assert n * (1.0 / n) == 1.0;
  }

  /** A single asset gets all of it. */
  lemma SingleAsset(t: string)
    ensures EqualWeights([t]) == map[t := 1.0]
  {
    assert forall x :: x in [t] <==> x == t;
  }

  /** `optimize_equal_weight`: (None, None) without tickers; otherwise the
      equal weights, with the performance when the estimates exist: the return
      Σ mu·w (the mean of mu), the volatility of w, and the Sharpe ratio with a
      risk-free rate of 0. */
  function OptimizeEqualWeight(tickers: seq<string>, estimates: Option<Estimates>): (r: (Option<map<string, real>>, Option<MonteCarlo.Performance>))
    requires estimates.Some? ==> |estimates.value.mu| == |tickers| && MonteCarlo.PositiveVolatility(estimates.value.volatility)
    ensures tickers == [] ==> r.0.None? && r.1.None?
    ensures tickers != [] ==> r.0 == Some(EqualWeights(tickers))
    ensures r.1.Some? <==> tickers != [] && estimates.Some?
    ensures r.1.Some? ==>
      && r.1.value.expectedReturn == Sum(estimates.value.mu) / (|tickers| as real)
      && r.1.value.volatility == estimates.value.volatility(WeightVector(tickers))
      && r.1.value.volatility > 0.0
      && r.1.value.sharpe * r.1.value.volatility == r.1.value.expectedReturn
  {
    if tickers == [] then (None, None)
    else if |tickers| == 0 then assert false; (Some(map[]), None)
    else
      var weights := EqualWeights(tickers);
      match estimates
      case None => (Some(weights), None)
      case Some(e) =>
        var w := WeightVector(tickers);
        var n := |tickers| as real;
        var ret := Dot(e.mu, w);
        EqualWeightsSumToOne(tickers);
        DotConstant(e.mu, 1.0 / n);
        assert ret == Sum(e.mu) / n;
        var v := e.volatility(w);
        (Some(weights), Some(MonteCarlo.Performance(ret, v, ret / v)))
  }
}
