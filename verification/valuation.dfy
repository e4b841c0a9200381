/** The valuation rules of analysis/valuation.py: a `ValuationModels` holds the
    numeric and text fields of a stock's info dict, and each rule (Graham, VPA,
    Bazin, Gordon DDM, multiples, the DCF placeholder, the safety margins)
    either gives a number or, when its data are missing or out of range, None.
    Square roots are taken by a caller-supplied function; floating-point
    rounding is not modelled (arithmetic is over the reals). */
module Valuation {
  import opened Common

  type StockInfo = map<string, PyValue>

  /** `isinstance(v, (int, float, str, bool))`. */
  predicate Storable(v: PyValue) {
    v.PyBool? || v.PyInt? || v.PyFloat? || v.PyStr?
  }

  /** `stock_info.get(k) is None`. */
  predicate Missing(info: StockInfo, k: string) {
    k !in info || info[k].PyNone?
  }

  const PriceKeys: seq<string> := ["regularMarketPrice", "currentPrice", "previousClose"]

  /** The first key of `keys` holding a number, as a float. */
  function FirstNumber(info: StockInfo, keys: seq<string>): (r: Option<real>)
    ensures r.Some? <==> exists i :: 0 <= i < |keys| && NumberAt(info, keys[i]).Some?
    ensures r.Some? ==> exists i :: 0 <= i < |keys| && r == NumberAt(info, keys[i]) &&
                                   forall j :: 0 <= j < i ==> NumberAt(info, keys[j]).None?
  {
    if keys == [] then None
    else if NumberAt(info, keys[0]).Some? then NumberAt(info, keys[0])
    else
      var r := FirstNumber(info, keys[1..]);
      assert forall i :: 1 <= i < |keys| ==> keys[i] == keys[1..][i - 1];
      if r.Some? then
        var i :| 0 <= i < |keys[1..]| && r == NumberAt(info, keys[1..][i]) &&
          forall j :: 0 <= j < i ==> NumberAt(info, keys[1..][j]).None?;
        assert r == NumberAt(info, keys[i + 1]);
        r
      else r
  }

  /** The Python integer/float product of two stored values, as far as the DCF
      placeholder can meet it: numbers multiply, a string times an integer
      repeats the string, a string times a float or a string is a TypeError. */
  function PyMul(a: PyValue, b: PyValue): (r: Outcome<PyValue>)
    requires Storable(a) && Storable(b)
    ensures IsNumeric(a) && IsNumeric(b) ==> r == Returned(PyFloat(AsReal(a) * AsReal(b)))
    ensures r.Returned? && !(IsNumeric(a) && IsNumeric(b)) ==> !IsNumeric(r.value)
    ensures r.Raised? <==> (a.PyStr? && (b.PyStr? || b.PyFloat?)) || (b.PyStr? && a.PyFloat?)
  {
    if IsNumeric(a) && IsNumeric(b) then Returned(PyFloat(AsReal(a) * AsReal(b)))
    else if a.PyStr? && (b.PyInt? || b.PyBool?) then Returned(PyStr(Repeat(a.s, AsReal(b).Floor)))
    else if b.PyStr? && (a.PyInt? || a.PyBool?) then Returned(PyStr(Repeat(b.s, AsReal(a).Floor)))
    else Raised("TypeError")
  }

  function Repeat(s: string, n: int): (r: string)
    ensures |r| == if n <= 0 then 0 else n * |s|
    decreases n
  {
    if n <= 0 then "" else s + Repeat(s, n - 1)
  }

  /** `b ** n` for a float base and an integer exponent; 0.0 to a negative power
      raises, so callers rule it out. */
  function PowNat(b: real, n: nat): (r: real)
    ensures b != 0.0 ==> r != 0.0
    ensures b > 0.0 ==> r > 0.0
  {
    if n == 0 then 1.0 else b * PowNat(b, n - 1)
  }

  function Pow(b: real, n: int): (r: real)
    requires b != 0.0 || n >= 0
    ensures b != 0.0 ==> r != 0.0
    ensures n >= 0 ==> r == PowNat(b, n)
    ensures n < 0 ==> r * PowNat(b, -n) == 1.0
  {
    if n >= 0 then PowNat(b, n) else 1.0 / PowNat(b, -n)
  }

  /** The cash flow of year `k` of the projection: the starting flow grown `k`
      times at `growth`. */
  function GrownFlow(f0: real, growth: real, k: nat): real {
    f0 * PowNat(1.0 + growth, k)
  }

  /** Sum of the first `n` projected cash flows, each grown at `growth` and
      discounted at `wacc`. */
  function DiscountedSum(f0: real, growth: real, wacc: real, n: nat): real
    requires 1.0 + wacc != 0.0
  {
    if n == 0 then 0.0
    else DiscountedSum(f0, growth, wacc, n - 1) + GrownFlow(f0, growth, n) / PowNat(1.0 + wacc, n)
  }

  /** When the cash flows grow exactly at the discount rate, each discounted flow
      is the starting flow again. */
  lemma {:induction false} DiscountedSumAtDiscountRate(f0: real, rate: real, n: nat)
    requires 1.0 + rate != 0.0
    ensures DiscountedSum(f0, rate, rate, n) == n as real * f0
  {
    if n > 0 {
      DiscountedSumAtDiscountRate(f0, rate, n - 1);
      DivCancel(f0, PowNat(1.0 + rate, n));
    }
  }

  lemma DivCancel(a: real, p: real)
    requires p != 0.0
    ensures a * p / p == a
  {
  }

  /** One more factor of the base. */
  lemma PowNatStep(f0: real, b: real, n: nat)
    ensures f0 * PowNat(b, n) * b == f0 * PowNat(b, n + 1)
  {
    assert PowNat(b, n + 1) == b * PowNat(b, n);
  }

  /** One turn of the DCF projection loop keeps the running flow and the sum of
      the discounted flows in step with their closed forms. */
  lemma ProjectionStep(f0: real, growth: real, wacc: real, k: nat, projected: seq<real>, current: real)
    requires 1.0 + wacc != 0.0
    requires current == GrownFlow(f0, growth, k)
    requires k == 0 ==> projected == []
    requires k > 0 ==> SumOf(projected, Identity) == DiscountedSum(f0, growth, wacc, k)
    ensures current * (1.0 + growth) == GrownFlow(f0, growth, k + 1)
    ensures SumOf(projected + [current * (1.0 + growth) / PowNat(1.0 + wacc, k + 1)], Identity) == DiscountedSum(f0, growth, wacc, k + 1)
  {
    var c := current * (1.0 + growth);
    PowNatStep(f0, 1.0 + growth, k);
    assert c == GrownFlow(f0, growth, k + 1);
    var d := PowNat(1.0 + wacc, k + 1);
    var x := c / d;
    SumOfSnoc(projected, x, Identity);
    assert SumOf(projected, Identity) == DiscountedSum(f0, growth, wacc, k);
    assert DiscountedSum(f0, growth, wacc, k + 1) == DiscountedSum(f0, growth, wacc, k) + x;
  }

  /** After the projection loop, the sum of the discounted flows plus the
      discounted terminal value is the closed-form equity value. */
  lemma ProjectionDone(f0: real, wacc: real, years: int, growth: real, longGrowth: real, projected: seq<real>, current: real)
    requires wacc > longGrowth && (1.0 + wacc != 0.0 || years == 0)
    requires current == GrownFlow(f0, growth, if years >= 0 then years else 0)
    requires years <= 0 ==> projected == []
    requires years > 0 ==> 1.0 + wacc != 0.0 && SumOf(projected, Identity) == DiscountedSum(f0, growth, wacc, years)
    ensures SumOf(projected, Identity) + PresentTerminalValue(current, wacc, years, longGrowth)
      == EquityValue(f0, wacc, years, growth, longGrowth)
  {
    if 1.0 + wacc == 0.0 {
      assert SumOf(projected, Identity) == 0.0;
    }
  }

  /** The models that get a safety margin, in the order `get_all_valuations`
      visits them: Graham Number, Bazin (Yield 6%), DDM (k=12%, g=3%) and DCF
      (Simplificado). Their margins are stored under "Margem Seg. Graham Number
      (%)", "Margem Seg. Bazin (%)", "Margem Seg. DDM (%)" and "Margem Seg. DCF
      (%)". */
  const ModelCount := 4

  /** The safety margin of a model value against the price, in percent: the
      markup that takes the price to the value. */
  function SafetyMargin(value: real, price: real): (m: real)
    requires price > 0.0
    ensures price * (1.0 + m / 100.0) == value
    ensures m > 0.0 <==> value > price
  {
    var m := ((value / price) - 1.0) * 100.0;
    assert price * (value / price) == value;
    m
  }

  /** The margin loop's guard: a truthy, positive price and a truthy model value. */
  predicate MarginApplies(price: Option<real>, value: Option<real>) {
    price.Some? && price.value != 0.0 && value.Some? && value.value != 0.0 && price.value > 0.0
  }

  /** The margin loop of `get_all_valuations`: one margin per model, present
      exactly when the guard lets it through. */
  method AddSafetyMargins(models: seq<Option<real>>, price: Option<real>) returns (margins: seq<Option<real>>)
    ensures |margins| == |models|
    ensures forall i :: 0 <= i < |models| ==>
      && (margins[i].Some? <==> MarginApplies(price, models[i]))
      && (margins[i].Some? ==> margins[i].value == SafetyMargin(models[i].value, price.value))
  {
    margins := [];
    for i := 0 to |models|
      invariant |margins| == i
      invariant forall j :: 0 <= j < i ==>
        && (margins[j].Some? <==> MarginApplies(price, models[j]))
        && (margins[j].Some? ==> margins[j].value == SafetyMargin(models[j].value, price.value))
    {
      var modelValue := models[i];
      if MarginApplies(price, modelValue) {
        margins := margins + [Some(SafetyMargin(modelValue.value, price.value))];
      } else {
        margins := margins + [None];
      }
    }
  }

  /** What `get_all_valuations` returns, before its string formatting. A field
      that is None stands for a key the result does not have: None values are
      dropped, and so is an empty multiples dict. */
  datatype Summary = Summary(
    ticker: PyValue,
    currentPrice: Option<real>,
    graham: Option<real>,
    vpa: Option<real>,
    bazin: Option<real>,
    ddm: Option<real>,
    dcf: Option<real>,
    multiples: Option<map<string, PyValue>>,
    margins: seq<Option<real>>)

  /** Gordon growth on a known D0: D0 (1 + g) / (k - g), when D0 is non-negative,
      k > g and the value is positive. */
  function GordonGrowth(d0: Option<real>, k: real, g: real): (r: Option<real>)
    ensures k <= g ==> r.None?
    ensures r.Some? <==> d0.Some? && d0.value > 0.0 && k > g && 1.0 + g > 0.0
    ensures r.Some? ==> r.value > 0.0 && r.value * (k - g) == d0.value * (1.0 + g)
  {
    if d0.None? || d0.value < 0.0 then None
    else if k <= g then None
    else
      var d1 := d0.value * (1.0 + g);
      var value := d1 / (k - g);
      assert value * (k - g) == d1;
      assert value > 0.0 <==> d1 > 0.0;
      assert d1 > 0.0 <==> d0.value > 0.0 && 1.0 + g > 0.0 by {
        if d0.value > 0.0 && 1.0 + g <= 0.0 { assert d0.value * (1.0 + g) <= 0.0; }
      }
      if value > 0.0 then Some(value) else None
  }

  /** Bazin on a known dividend: the price at which it pays the required yield. */
  function BazinPrice(dividend: Option<real>, requiredYield: real): (r: Option<real>)
    ensures r.Some? <==> dividend.Some? && dividend.value > 0.0 && requiredYield > 0.0
    ensures r.Some? ==> r.value * requiredYield == dividend.value && r.value > 0.0
  {
    if dividend.Some? && dividend.value > 0.0 && requiredYield > 0.0 then Some(dividend.value / requiredYield) else None
  }

  datatype ValuationModels = ValuationModels(stockInfo: StockInfo) {

    /** The constructor's filter: only int, float, str and bool values are kept. */
    static function New(data: StockInfo): (vm: ValuationModels)
      ensures vm.Valid()
      ensures forall k :: k in vm.stockInfo <==> k in data && Storable(data[k])
      ensures forall k :: k in vm.stockInfo ==> vm.stockInfo[k] == data[k]
    {
      ValuationModels(map k | k in data && Storable(data[k]) :: data[k])
    }

    predicate Valid() {
      forall k :: k in stockInfo ==> Storable(stockInfo[k])
    }

    /** `get_current_price`: the first number among regularMarketPrice,
        currentPrice and previousClose. */
    function GetCurrentPrice(): (r: Option<real>)
      ensures r.Some? <==> exists i :: 0 <= i < |PriceKeys| && NumberAt(stockInfo, PriceKeys[i]).Some?
      ensures r.Some? ==> exists i :: 0 <= i < |PriceKeys| && r == NumberAt(stockInfo, PriceKeys[i]) &&
                                     forall j :: 0 <= j < i ==> NumberAt(stockInfo, PriceKeys[j]).None?
    {
      FirstNumber(stockInfo, PriceKeys)
    }

    /** `graham_valuation`: sqrt(22.5 * EPS * BVPS), only for a positive EPS and
        a positive BVPS, both numbers. */
    function Graham(sqrt: real -> real): (r: Option<real>)
      ensures var eps, bvps := NumberAt(stockInfo, "trailingEps"), NumberAt(stockInfo, "bookValue");
        && (r.Some? <==> eps.Some? && bvps.Some? && eps.value > 0.0 && bvps.value > 0.0)
        && (r.Some? ==> r.value == sqrt(22.5 * eps.value * bvps.value))
    {
      var eps, bvps := NumberAt(stockInfo, "trailingEps"), NumberAt(stockInfo, "bookValue");
      if eps.Some? && bvps.Some? && eps.value > 0.0 && bvps.value > 0.0 then
        Some(sqrt(22.5 * eps.value * bvps.value))
      else None
    }

    /** `vpa_analysis`: the book value per share, when it is a number. */
    function Vpa(): (r: Option<real>)
      ensures r.Some? <==> "bookValue" in stockInfo && IsNumeric(stockInfo["bookValue"])
      ensures r.Some? ==> r.value == AsReal(stockInfo["bookValue"])
    {
      NumberAt(stockInfo, "bookValue")
    }

    /** The dividend Bazin divides: trailingAnnualDividendRate when present,
        otherwise dividendYield times the price when both are numbers. */
    function BazinDividend(): (d: Option<real>)
      ensures !Missing(stockInfo, "trailingAnnualDividendRate") ==> d == NumberAt(stockInfo, "trailingAnnualDividendRate")
      ensures Missing(stockInfo, "trailingAnnualDividendRate") ==>
        && (d.Some? <==> NumberAt(stockInfo, "dividendYield").Some? && GetCurrentPrice().Some?)
        && (d.Some? ==> d.value == NumberAt(stockInfo, "dividendYield").value * GetCurrentPrice().value)
    {
      if Missing(stockInfo, "trailingAnnualDividendRate") then
        var y, p := NumberAt(stockInfo, "dividendYield"), GetCurrentPrice();
        if y.Some? && p.Some? then Some(y.value * p.value) else None
      else NumberAt(stockInfo, "trailingAnnualDividendRate")
    }

    /** `bazin_valuation_simplified`: the price at which the dividend pays the
        required yield, for a positive dividend and a positive yield. */
    function Bazin(requiredYield: real): (r: Option<real>)
      ensures r.Some? <==> BazinDividend().Some? && BazinDividend().value > 0.0 && requiredYield > 0.0
      ensures r.Some? ==> r.value * requiredYield == BazinDividend().value && r.value > 0.0
    {
      BazinPrice(BazinDividend(), requiredYield)
    }

    /** D0 of the Gordon model: trailingAnnualDividendRate when it is a
        non-negative number, otherwise dividendYield times the price. */
    function DdmDividend(): (d: Option<real>)
      ensures var d0 := NumberAt(stockInfo, "trailingAnnualDividendRate");
        d0.Some? && d0.value >= 0.0 ==> d == d0
      ensures var d0 := NumberAt(stockInfo, "trailingAnnualDividendRate");
        !(d0.Some? && d0.value >= 0.0) ==>
          && (d.Some? <==> NumberAt(stockInfo, "dividendYield").Some? && GetCurrentPrice().Some?)
          && (d.Some? ==> d.value == NumberAt(stockInfo, "dividendYield").value * GetCurrentPrice().value)
    {
      var d0 := NumberAt(stockInfo, "trailingAnnualDividendRate");
      if d0.Some? && d0.value >= 0.0 then d0
      else
        var y, p := NumberAt(stockInfo, "dividendYield"), GetCurrentPrice();
        if y.Some? && p.Some? then Some(y.value * p.value) else None
    }

    /** `ddm_gordon_growth`: D0 (1 + g) / (k - g), only when k > g, D0 is known and
        non-negative, and the value comes out positive. */
    function Ddm(k: real, g: real): (r: Option<real>)
      ensures k <= g ==> r.None?
      ensures r.Some? <==> DdmDividend().Some? && DdmDividend().value > 0.0 && k > g && 1.0 + g > 0.0
      ensures r.Some? ==> r.value > 0.0 && r.value * (k - g) == DdmDividend().value * (1.0 + g)
    {
      GordonGrowth(DdmDividend(), k, g)
    }

    /** `get_multiples`: P/L and P/VP when the price is known and the divisor is a
        non-zero number; the four pass-through ratios when they are numbers. */
    function GetMultiples(): (m: map<string, PyValue>)
      ensures forall k :: k !in DisplayNames ==> (k in m <==> k in RatioMultiples())
      ensures forall k :: k in RatioMultiples() && k !in DisplayNames ==> m[k] == RatioMultiples()[k]
      ensures forall i :: 0 <= i < |PassThrough| ==>
        && (PassThrough[i].1 in m <==> PassThrough[i].0 in stockInfo && IsNumeric(stockInfo[PassThrough[i].0]))
        && (PassThrough[i].1 in m ==> m[PassThrough[i].1] == stockInfo[PassThrough[i].0])
      ensures forall k :: k in m ==> k == "P/L" || k == "P/VP" || k in DisplayNames
    {
      var ratios := RatioMultiples();
      PassThroughNames();
      var m := AddPassThrough(ratios, stockInfo, PassThrough);
      m
    }

    /** The two ratios to the price that `get_multiples` computes itself. */
    function RatioMultiples(): (m: map<string, PyValue>)
      ensures var price, eps, bvps := GetCurrentPrice(), NumberAt(stockInfo, "trailingEps"), Vpa();
        && ("P/L" in m <==> price.Some? && eps.Some? && eps.value != 0.0)
        && ("P/L" in m ==> m["P/L"].PyFloat? && m["P/L"].f * eps.value == price.value)
        && ("P/VP" in m <==> price.Some? && bvps.Some? && bvps.value != 0.0)
        && ("P/VP" in m ==> m["P/VP"].PyFloat? && m["P/VP"].f * bvps.value == price.value)
      ensures forall k :: k in m ==> k == "P/L" || k == "P/VP"
    {
      var price, eps, bvps := GetCurrentPrice(), NumberAt(stockInfo, "trailingEps"), Vpa();
      var m0: map<string, PyValue> := map[];
      var m1 := if price.Some? && eps.Some? && eps.value != 0.0 then m0["P/L" := PyFloat(price.value / eps.value)] else m0;
      if price.Some? && bvps.Some? && bvps.value != 0.0 then m1["P/VP" := PyFloat(price.value / bvps.value)] else m1
    }

    /** The starting cash flow of the DCF placeholder: EPS times the share count
        (1e9 when absent) when the EPS is truthy, else 1e9; a product that is not a
        number becomes 1e9 too, and a product Python refuses raises. */
    function LastFcfe(): (r: Outcome<real>)
      requires Valid()
      ensures !("trailingEps" in stockInfo && Truthy(stockInfo["trailingEps"])) ==> r == Returned(OneBillion)
      ensures "trailingEps" in stockInfo && Truthy(stockInfo["trailingEps"]) ==>
        var shares := if "sharesOutstanding" in stockInfo then stockInfo["sharesOutstanding"] else PyFloat(OneBillion);
        var product := PyMul(stockInfo["trailingEps"], shares);
        && (r.Raised? <==> product.Raised?)
        && (product.Returned? && IsNumeric(product.value) ==> r == Returned(AsReal(product.value)))
        && (product.Returned? && !IsNumeric(product.value) ==> r == Returned(OneBillion))
    {
      if "trailingEps" in stockInfo && Truthy(stockInfo["trailingEps"]) then
        var shares := if "sharesOutstanding" in stockInfo then stockInfo["sharesOutstanding"] else PyFloat(OneBillion);
        match PyMul(stockInfo["trailingEps"], shares)
        case Raised(e) => Raised(e)
        case Returned(v) => if IsNumeric(v) then Returned(AsReal(v)) else Returned(OneBillion)
      else Returned(OneBillion)
    }

    /** The share count the DCF divides by: a truthy, positive number. */
    function DcfShares(): (s: Option<real>)
      ensures s.Some? <==> ("sharesOutstanding" in stockInfo && IsNumeric(stockInfo["sharesOutstanding"]) &&
                            AsReal(stockInfo["sharesOutstanding"]) > 0.0)
      ensures s.Some? ==> s.value > 0.0
    {
      var n := NumberAt(stockInfo, "sharesOutstanding");
      if n.Some? && n.value != 0.0 && n.value > 0.0 then n else None
    }

    /** What `dcf_valuation_placeholder` computes, in closed form: the DCF of
        the starting cash flow, unless computing that cash flow raised. */
    function DcfValue(wacc: real, years: int, shortGrowth: real, longGrowth: real): (r: Outcome<Option<real>>)
      requires Valid()
      ensures LastFcfe().Raised? ==> r == Raised(LastFcfe().exception)
      ensures LastFcfe().Returned? ==> r == DiscountedCashFlow(LastFcfe().value, wacc, years, shortGrowth, longGrowth, DcfShares())
    {
      match LastFcfe()
      case Raised(e) => Raised(e)
      case Returned(f0) => DiscountedCashFlow(f0, wacc, years, shortGrowth, longGrowth, DcfShares())
    }

    /** The projection loop of `dcf_valuation_placeholder`: the flow grown year
        by year, and each year's flow discounted to the present. */
    static method ProjectCashFlows(f0: real, wacc: real, years: int, shortGrowth: real) returns (projected: seq<real>, current: real)
      requires years >= 1 ==> 1.0 + wacc != 0.0
      ensures current == GrownFlow(f0, shortGrowth, if years >= 0 then years else 0)
      ensures years <= 0 ==> projected == []
      ensures years > 0 ==> SumOf(projected, Identity) == DiscountedSum(f0, shortGrowth, wacc, years)
    {
      projected := [];
      current := f0;
      var year := 1;
      while year <= years
        invariant 1 <= year <= (if years >= 0 then years else 0) + 1
        invariant year > 1 ==> 1.0 + wacc != 0.0
        invariant current == GrownFlow(f0, shortGrowth, year - 1)
        invariant year > 1 ==> SumOf(projected, Identity) == DiscountedSum(f0, shortGrowth, wacc, year - 1)
        invariant year == 1 ==> projected == []
      {
        ProjectionStep(f0, shortGrowth, wacc, year - 1, projected, current);
        current := current * (1.0 + shortGrowth);
        projected := projected + [current / PowNat(1.0 + wacc, year)];
        year := year + 1;
      }
    }

    /** `dcf_valuation_placeholder`: the projection loop, then the terminal value
        and the division by the share count. */
    method DcfValuation(wacc: real, years: int, shortGrowth: real, longGrowth: real) returns (r: Outcome<Option<real>>)
      requires Valid()
      ensures r == DcfValue(wacc, years, shortGrowth, longGrowth)
    {
      var start := LastFcfe();
      if start.Raised? {
        return Raised(start.exception);
      }
      var f0 := start.value;
      if years >= 1 && 1.0 + wacc == 0.0 {
        // the first turn of the loop divides by 0.0 ** 1
        return Raised("ZeroDivisionError");
      }
      var projected, current := ProjectCashFlows(f0, wacc, years, shortGrowth);
      var terminalDen := wacc - longGrowth;
      if terminalDen <= 0.0 {
        return Returned(None);
      }
      if 1.0 + wacc == 0.0 && years < 0 {
        // 0.0 ** years with years < 0
        return Raised("ZeroDivisionError");
      }
      var terminal := GordonValue(current, longGrowth, terminalDen);
      var pvTerminal := Discounted(terminal, wacc, years);
      var total := SumOf(projected, Identity) + pvTerminal;
      assert total == EquityValue(f0, wacc, years, shortGrowth, longGrowth) by {
        ProjectionDone(f0, wacc, years, shortGrowth, longGrowth, projected, current);
      }
      var shares := DcfShares();
      if shares.Some? {
        r := Returned(Some(total / shares.value));
        assert r == DiscountedCashFlow(f0, wacc, years, shortGrowth, longGrowth, shares);
        return;
      }
      return Returned(None);
    }

    /** `get_all_valuations` up to its string formatting: every model, the
        multiples, and a safety margin per model where the price allows. The DCF
        runs over five years; its exception, if any, escapes. */
    method GetAllValuations(sqrt: real -> real, ddmK: real, ddmG: real, dcfWacc: real, dcfShortGrowth: real, dcfLongGrowth: real)
      returns (r: Outcome<Summary>)
      requires Valid()
      ensures r.Raised? <==> DcfValue(dcfWacc, 5, dcfShortGrowth, dcfLongGrowth).Raised?
      ensures r.Returned? ==>
        var v := r.value;
        && v.ticker == (if "symbol" in stockInfo then stockInfo["symbol"] else PyStr("N/A"))
        && v.currentPrice == GetCurrentPrice()
        && v.graham == Graham(sqrt) && v.vpa == Vpa() && v.bazin == Bazin(0.06) && v.ddm == Ddm(ddmK, ddmG)
        && v.dcf == DcfValue(dcfWacc, 5, dcfShortGrowth, dcfLongGrowth).value
        && (v.multiples.Some? <==> GetMultiples() != map[])
        && (v.multiples.Some? ==> v.multiples.value == GetMultiples())
        && |v.margins| == ModelCount
        && (forall i :: 0 <= i < ModelCount ==>
              var model := [v.graham, v.bazin, v.ddm, v.dcf][i];
              && (v.margins[i].Some? <==> MarginApplies(v.currentPrice, model))
              && (v.margins[i].Some? ==> v.margins[i].value == SafetyMargin(model.value, v.currentPrice.value)))
    {
      var price := GetCurrentPrice();
      var dcf := DcfValuation(dcfWacc, 5, dcfShortGrowth, dcfLongGrowth);
      if dcf.Raised? {
        return Raised(dcf.exception);
      }
      var graham, bazin, ddm := Graham(sqrt), Bazin(0.06), Ddm(ddmK, ddmG);
      var margins := AddSafetyMargins([graham, bazin, ddm, dcf.value], price);
      var multiples := GetMultiples();
      var ticker := if "symbol" in stockInfo then stockInfo["symbol"] else PyStr("N/A");
      return Returned(Summary(ticker, price, graham, Vpa(), bazin, ddm, dcf.value,
        if multiples == map[] then None else Some(multiples), margins));
    }
  }

  /** With a true square root, the Graham number is positive and is the price
      at which P/L times P/VP is exactly 22.5, Graham's bound. */
  lemma GrahamCriterion(vm: ValuationModels, sqrt: real -> real)
    requires forall x: real :: x >= 0.0 ==> sqrt(x) >= 0.0 && sqrt(x) * sqrt(x) == x
    requires vm.Graham(sqrt).Some?
    ensures var g := vm.Graham(sqrt).value;
      var eps, bvps := NumberAt(vm.stockInfo, "trailingEps").value, NumberAt(vm.stockInfo, "bookValue").value;
      g > 0.0 && (g / eps) * (g / bvps) == 22.5
  {
    var g := vm.Graham(sqrt).value;
    var eps, bvps := NumberAt(vm.stockInfo, "trailingEps").value, NumberAt(vm.stockInfo, "bookValue").value;
    var x := 22.5 * eps * bvps;
    assert x > 0.0 by {
      assert eps * bvps > 0.0;
    }
    assert g == sqrt(x) && g >= 0.0 && g * g == x;
    assert g != 0.0;
    GrahamRatio(g, eps, bvps);
  }

  lemma GrahamRatio(g: real, eps: real, bvps: real)
    requires eps > 0.0 && bvps > 0.0
    requires g * g == 22.5 * eps * bvps
    ensures (g / eps) * (g / bvps) == 22.5
  {
    var p := eps * bvps;
    assert g * g == 22.5 * p;
    assert (g / eps) * (g / bvps) == (g * g) / p;
    assert (22.5 * p) / p == 22.5;
  }

  /** The equity value of the DCF: the projected flows, grown at the short-term
      rate and discounted at `wacc`, plus the Gordon terminal value at the
      long-term rate, discounted over the projection years. */
  function EquityValue(f0: real, wacc: real, years: int, shortGrowth: real, longGrowth: real): real
    requires wacc > longGrowth
    requires 1.0 + wacc != 0.0 || years == 0
  {
    var n: nat := if years >= 0 then years else 0;
    (if 1.0 + wacc != 0.0 then DiscountedSum(f0, shortGrowth, wacc, n) else 0.0)
      + PresentTerminalValue(GrownFlow(f0, shortGrowth, n), wacc, years, longGrowth)
  }

  /** The Gordon terminal value of the last projected flow, discounted over the
      projection years. */
  function PresentTerminalValue(last: real, wacc: real, years: int, longGrowth: real): real
    requires wacc > longGrowth
    requires 1.0 + wacc != 0.0 || years == 0
  {
    Discounted(GordonValue(last, longGrowth, wacc - longGrowth), wacc, years)
  }

  /** The Gordon growth value of the flow after `last`: that flow over the
      spread between the discount rate and the long-term growth. */
  function GordonValue(last: real, longGrowth: real, spread: real): real
    requires spread != 0.0
  {
    last * (1.0 + longGrowth) / spread
  }

  /** A value discounted over `years` at `wacc`. */
  function Discounted(x: real, wacc: real, years: int): real
    requires 1.0 + wacc != 0.0 || years == 0
  {
    x / Pow(1.0 + wacc, years)
  }

  /** The DCF of a starting cash flow `f0`, per share. None when wacc does not
      exceed the long-term rate or there is no share count; a ZeroDivisionError
      when 1 + wacc is 0 and a power of it is divided by. */
  function DiscountedCashFlow(f0: real, wacc: real, years: int, shortGrowth: real, longGrowth: real, shares: Option<real>): (r: Outcome<Option<real>>)
    requires shares.Some? ==> shares.value > 0.0
    ensures 1.0 + wacc != 0.0 && wacc <= longGrowth ==> r == Returned(None)
    ensures 1.0 + wacc != 0.0 && shares.None? ==> r == Returned(None)
    ensures 1.0 + wacc == 0.0 && years >= 1 ==> r.Raised?
    ensures 1.0 + wacc == 0.0 && years < 0 ==> (r.Raised? <==> wacc > longGrowth)
    ensures r.Returned? && r.value.Some? ==>
      && shares.Some? && wacc > longGrowth && (1.0 + wacc != 0.0 || years == 0)
      && r.value.value * shares.value == EquityValue(f0, wacc, years, shortGrowth, longGrowth)
  {
    if years >= 1 && 1.0 + wacc == 0.0 then Raised("ZeroDivisionError")
    else if wacc - longGrowth <= 0.0 then Returned(None)
    else if 1.0 + wacc == 0.0 && years < 0 then Raised("ZeroDivisionError")
    else if shares.Some? then
      var total := EquityValue(f0, wacc, years, shortGrowth, longGrowth);
      DivMul(total, shares.value);
      Returned(Some(total / shares.value))
    else Returned(None)
  }

  lemma DivMul(t: real, s: real)
    requires s != 0.0
    ensures t / s * s == t
  {
  }

  const OneBillion: real := 1000000000.0

  function Identity(x: real): real { x }

  /** The Yahoo Finance ratios `get_multiples` copies under a display name. */
  const PassThrough: seq<(string, string)> := [
    ("forwardPE", "P/L Projetivo"),
    ("priceToSalesTrailing12Months", "P/S"),
    ("enterpriseToEbitda", "EV/EBITDA"),
    ("pegRatio", "PEG Ratio")
  ]

  const DisplayNames: set<string> := {"P/L Projetivo", "P/S", "EV/EBITDA", "PEG Ratio"}

  /** The display names are distinct and none of them is "P/L" or "P/VP". */
  lemma PassThroughNames()
    ensures forall i, j :: 0 <= i < j < |PassThrough| ==> PassThrough[i].1 != PassThrough[j].1
    ensures forall i :: 0 <= i < |PassThrough| ==> PassThrough[i].1 in DisplayNames
    ensures "P/L" !in DisplayNames && "P/VP" !in DisplayNames
  {
  }

  /** The pass-through loop of `get_multiples`. */
  function AddPassThrough(m: map<string, PyValue>, info: StockInfo, pairs: seq<(string, string)>): (r: map<string, PyValue>)
    requires forall i, j :: 0 <= i < j < |pairs| ==> pairs[i].1 != pairs[j].1
    requires forall i :: 0 <= i < |pairs| ==> pairs[i].1 in DisplayNames
    ensures forall i :: 0 <= i < |pairs| ==>
      && (pairs[i].1 in r <==> pairs[i].1 in m || (pairs[i].0 in info && IsNumeric(info[pairs[i].0])))
      && (pairs[i].0 in info && IsNumeric(info[pairs[i].0]) ==> r[pairs[i].1] == info[pairs[i].0])
    ensures forall k :: (forall i :: 0 <= i < |pairs| ==> pairs[i].1 != k) ==> (k in r <==> k in m)
    ensures forall k :: k in m && (forall i :: 0 <= i < |pairs| ==> pairs[i].1 != k) ==> r[k] == m[k]
    ensures forall k :: k in r ==> k in m || k in DisplayNames
    decreases |pairs|
  {
    if pairs == [] then m
    else
      var (yahooKey, display) := pairs[0];
      var m' := if yahooKey in info && IsNumeric(info[yahooKey]) then m[display := info[yahooKey]] else m;
      var r := AddPassThrough(m', info, pairs[1..]);
      assert forall i :: 1 <= i < |pairs| ==> pairs[i] == pairs[1..][i - 1];
      r
  }
}
