/** Generic helpers of the application (utils/helpers.py): the rule that turns a
    B3 ticker into its Yahoo Finance symbol, and the percentage change. */
module Helpers {
  import opened Common

  const SaSuffix := ".SA"

  /** The ".SA" rule on strings: upper-case, then append ".SA" unless the
      upper-cased ticker already ends with it. */
  function NormalizeTicker(ticker: string): (r: string)
    ensures Upper(r) == r
    ensures EndsWith(r, SaSuffix)
    ensures |r| == |ticker| || |r| == |ticker| + |SaSuffix|
    ensures r[..|ticker|] == Upper(ticker)
    ensures |r| == |ticker| <==> EndsWith(Upper(ticker), SaSuffix)
  {
    var up := Upper(ticker);
    if !EndsWith(up, SaSuffix) then
      UpperAppend(up, SaSuffix);
      UpperIdempotent(ticker);
      assert (up + SaSuffix)[|up|..] == SaSuffix;
      up + SaSuffix
    else
      UpperIdempotent(ticker);
      up
  }

  /** Normalising a normalised ticker changes nothing: no double suffix. */
  lemma NormalizeTickerIdempotent(ticker: string)
    ensures NormalizeTicker(NormalizeTicker(ticker)) == NormalizeTicker(ticker)
  {
    var r := NormalizeTicker(ticker);
    assert Upper(r) == r && EndsWith(Upper(r), SaSuffix);
  }

  /** A ticker whose upper-case form already carries the suffix, in any case,
      is only upper-cased. */
  lemma NormalizeTickerKeepsSuffix(ticker: string)
    requires EndsWith(ticker, ".sa") || EndsWith(ticker, ".SA") || EndsWith(ticker, ".Sa") || EndsWith(ticker, ".sA")
    ensures NormalizeTicker(ticker) == Upper(ticker)
  {
    var up := Upper(ticker);
    var n := |ticker|;
    assert up[n - 3..] == [UpperChar(ticker[n - 3]), UpperChar(ticker[n - 2]), UpperChar(ticker[n - 1])];
  }

  /** parse_brazilian_ticker: strings follow the ".SA" rule, anything else is
      returned unchanged. */
  function ParseBrazilianTicker(ticker: PyValue): (r: PyValue)
    ensures ticker.PyStr? ==> r.PyStr? && Upper(r.s) == r.s && EndsWith(r.s, SaSuffix)
    ensures ticker.PyStr? ==> |r.s| >= |ticker.s| && r.s[..|ticker.s|] == Upper(ticker.s)
    ensures ticker.PyStr? ==> (|r.s| == |ticker.s| <==> EndsWith(Upper(ticker.s), SaSuffix))
    ensures !ticker.PyStr? ==> r == ticker
  {
    if ticker.PyStr? then PyStr(NormalizeTicker(ticker.s)) else ticker
  }

  lemma ParseBrazilianTickerIdempotent(ticker: PyValue)
    ensures ParseBrazilianTicker(ParseBrazilianTicker(ticker)) == ParseBrazilianTicker(ticker)
  {
    if ticker.PyStr? {
      NormalizeTickerIdempotent(ticker.s);
    }
  }

  /** calculate_percentage_change: a zero base gives an infinity of the sign of the
      new value (or 0); otherwise the change in percent, which applied back to the
      old value gives the new one. */
  function CalculatePercentageChange(oldValue: real, newValue: real): (r: ExtReal)
    ensures oldValue == 0.0 ==> (r == PosInf <==> newValue > 0.0)
    ensures oldValue == 0.0 ==> (r == NegInf <==> newValue < 0.0)
    ensures oldValue == 0.0 ==> (r == Finite(0.0) <==> newValue == 0.0)
    ensures oldValue != 0.0 ==> r.Finite? && oldValue + oldValue * r.r / 100.0 == newValue
  {
    if oldValue == 0.0 then
      (if newValue > 0.0 then PosInf else if newValue < 0.0 then NegInf else Finite(0.0))
    else
      var ratio := (newValue - oldValue) / oldValue;
      assert oldValue * ratio == newValue - oldValue;
      Finite(ratio * 100.0)
  }

  /** No change is a change of 0%, whatever the base. */
  lemma PercentageChangeOfEqualValues(v: real)
    ensures CalculatePercentageChange(v, v) == Finite(0.0)
  {
  }
}
