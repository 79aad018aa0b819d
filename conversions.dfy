/** The three conversion strategies and the router that picks one by the
    active category (`convertCurrency`, `convertTemperature`, `convertUnits`,
    `handleCalculation`). A result is either the "--" marker or a value with
    the number of decimals `toFixed` renders it with. */
module Conversions {
  import opened Wrappers
  import opened Text
  import Json
  import Rates

  /** The calculator pages, by the name their navigation target carries. */
  datatype Category = Currency | Length | Mass | Speed | Volume | Area | Data | Temp

  /** The page's name: the navigation target without its `page-` prefix, and
      the key of its input-history entry. */
  function CategoryName(c: Category): (name: string)
    ensures name != []
    ensures forall i :: 0 <= i < |name| ==> IsLowerAscii(name[i])
  {
    match c
    case Currency => "currency"
    case Length => "length"
    case Mass => "mass"
    case Speed => "speed"
    case Volume => "volume"
    case Area => "area"
    case Data => "data"
    case Temp => "temp"
  }

  /** Different pages have different names, so they never share a unit file
      or an input-history entry. */
  lemma CategoryNameInjective(c: Category, d: Category)
    requires CategoryName(c) == CategoryName(d)
    ensures c == d
  {
  }

  /** What the result box shows: "--", or a value rendered with `decimals` places. */
  datatype Display = Unavailable | Shown(value: real, decimals: nat)

  const CurrencyDecimals: nat := 3
  const TemperatureDecimals: nat := 2
  const UnitDecimals: nat := 6

  /** JavaScript truthiness of a looked-up numeric member: present and not 0. */
  predicate Truthy(v: Option<real>) { v.Some? && v.value != 0.0 }

  /** `rates[code]`. */
  function RateOf(rates: Rates.RateTable, code: string): (r: Option<real>)
    ensures r.Some? <==> code in rates
    ensures r.Some? ==> r.value == rates[code]
  {
    if code in rates then Some(rates[code]) else None
  }

  // ---------------------------------------------------------------------------
  // Currency
  // ---------------------------------------------------------------------------

  /** Through the common base: divide out the source rate, apply the target rate. */
  function CurrencyRatio(amount: real, rateFrom: real, rateTo: real): (r: real)
    requires rateFrom != 0.0
    ensures rateTo == rateFrom ==> r == amount
    ensures amount == 0.0 || rateTo == 0.0 ==> r == 0.0
  {
    (amount / rateFrom) * rateTo
  }

  /** The converted amount is worth as much as the original: both sides
      equal the same amount of the base currency. */
  lemma CurrencyRatioBalances(amount: real, rateFrom: real, rateTo: real)
    requires rateFrom != 0.0
    ensures CurrencyRatio(amount, rateFrom, rateTo) * rateFrom == amount * rateTo
  {
    var q := amount / rateFrom;
    assert q * rateFrom == amount;
    assert (q * rateTo) * rateFrom == (q * rateFrom) * rateTo;
  }

  function ConvertCurrency(rates: Option<Rates.RateTable>, input: string, from: string, to: string): (r: Display)
    ensures r.Shown? ==> && r.decimals == CurrencyDecimals && ParseFloat(input).Some?
                         && rates.Some? && from in rates.value && to in rates.value
                         && rates.value[from] != 0.0 && rates.value[to] != 0.0
                         && r.value == CurrencyRatio(ParseFloat(input).value, rates.value[from], rates.value[to])
  {
    if rates.None? then Unavailable
    else
      var amount := ParseFloat(input);
      var rateFrom := RateOf(rates.value, from);
      var rateTo := RateOf(rates.value, to);
      if amount.None? || !Truthy(rateFrom) || !Truthy(rateTo) then Unavailable
      else
        Shown(CurrencyRatio(amount.value, rateFrom.value, rateTo.value), CurrencyDecimals)
  }

  /** "--" exactly when there is no table, the amount is not a number, or a
      selected code has no rate or a zero rate; otherwise 3 decimals. */
  lemma CurrencyGuard(rates: Option<Rates.RateTable>, input: string, from: string, to: string)
    ensures ConvertCurrency(rates, input, from, to) == Unavailable <==>
            rates.None? || ParseFloat(input).None?
            || !Truthy(RateOf(rates.value, from)) || !Truthy(RateOf(rates.value, to))
    ensures ConvertCurrency(rates, input, from, to).Shown? ==>
            ConvertCurrency(rates, input, from, to).decimals == CurrencyDecimals
  {
  }

  /** Converting a code to itself gives the amount back. */
  lemma CurrencyIdentity(rates: Rates.RateTable, input: string, code: string)
    requires ParseFloat(input).Some? && Truthy(RateOf(rates, code))
    ensures ConvertCurrency(Some(rates), input, code, code) == Shown(ParseFloat(input).value, CurrencyDecimals)
  {
    var r := rates[code];
    var x := ParseFloat(input).value;
    assert (x / r) * r == x;
  }

  /** A valid change of basis: A to B followed by B to C is A to C. */
  lemma CurrencyChain(amount: real, ra: real, rb: real, rc: real)
    requires ra != 0.0 && rb != 0.0
    ensures CurrencyRatio(CurrencyRatio(amount, ra, rb), rb, rc) == CurrencyRatio(amount, ra, rc)
  {
    var q := amount / ra;
    assert (q * rb) / rb == q;
  }

  /** Rates against another base (every rate scaled by the same non-zero
      factor) give the same conversions. */
  lemma CurrencyBaseIndependent(amount: real, ra: real, rb: real, k: real)
    requires ra != 0.0 && k != 0.0
    ensures CurrencyRatio(amount, k * ra, k * rb) == CurrencyRatio(amount, ra, rb)
  {
    var q := amount / ra;
    var p := amount / (k * ra);
    assert q * ra == amount;
    assert p * (k * ra) == amount;
    assert (p * k) * ra == amount;
    assert p * k == q;
    assert p * (k * rb) == (p * k) * rb;
  }

  lemma CurrencyExample()
    ensures ConvertCurrency(Some(map["USD" := 1.0, "EUR" := 0.9]), "10", "USD", "EUR") == Shown(9.0, 3)
  {
    var rates := map["USD" := 1.0, "EUR" := 0.9];
    assert NatString(10) + [] == "10";
    ParseFloatNatPrefix(10, []);
    assert RateOf(rates, "USD") == Some(1.0);
    assert RateOf(rates, "EUR") == Some(0.9);
    assert CurrencyRatio(10.0, 1.0, 0.9) == 9.0;
  }

  // ---------------------------------------------------------------------------
  // Temperature
  // ---------------------------------------------------------------------------

  const Celsius: string := "Celsius"
  const Fahrenheit: string := "Fahrenheit"
  const Kelvin: string := "Kelvin"

  predicate IsScale(s: string) { s == Celsius || s == Fahrenheit || s == Kelvin }

  /** The six directed formulas; every other pair leaves the amount as it is. */
  function TemperatureFormula(x: real, from: string, to: string): (r: real)
    ensures from == to ==> r == x
    ensures !IsScale(from) || !IsScale(to) ==> r == x
  {
    if from == Celsius && to == Fahrenheit then (x * 9.0 / 5.0) + 32.0
    else if from == Celsius && to == Kelvin then x + 273.15
    else if from == Fahrenheit && to == Celsius then (x - 32.0) * 5.0 / 9.0
    else if from == Fahrenheit && to == Kelvin then (x - 32.0) * 5.0 / 9.0 + 273.15
    else if from == Kelvin && to == Celsius then x - 273.15
    else if from == Kelvin && to == Fahrenheit then (x - 273.15) * 9.0 / 5.0 + 32.0
    else x
  }

  function ConvertTemperature(input: string, from: string, to: string): (r: Display)
    ensures r.Shown? <==> ParseFloat(input).Some?
    ensures r.Shown? ==> r.decimals == TemperatureDecimals
    ensures r.Shown? && IsScale(from) && IsScale(to) ==>
              r.value == FromKelvin(ToKelvin(ParseFloat(input).value, from), to)
  {
    match ParseFloat(input)
    case None => Unavailable
    case Some(x) =>
      assert IsScale(from) && IsScale(to) ==> TemperatureFormula(x, from, to) == FromKelvin(ToKelvin(x, from), to) by {
        if IsScale(from) && IsScale(to) { TemperatureIsChangeOfScale(x, from, to); }
      }
      Shown(TemperatureFormula(x, from, to), TemperatureDecimals)
  }

  /** A reading on a scale, as an absolute temperature. */
  function ToKelvin(x: real, scale: string): real
    requires IsScale(scale)
  {
    if scale == Celsius then x + 273.15
    else if scale == Fahrenheit then (x - 32.0) * 5.0 / 9.0 + 273.15
    else x
  }

  /** An absolute temperature, as a reading on a scale. */
  function FromKelvin(k: real, scale: string): real
    requires IsScale(scale)
  {
    if scale == Celsius then k - 273.15
    else if scale == Fahrenheit then (k - 273.15) * 9.0 / 5.0 + 32.0
    else k
  }

  /** Each of the six formulas (and the identity on equal scales) is the
      change of scale through the absolute temperature. */
  lemma TemperatureIsChangeOfScale(x: real, from: string, to: string)
    requires IsScale(from) && IsScale(to)
    ensures TemperatureFormula(x, from, to) == FromKelvin(ToKelvin(x, from), to)
  {
  }

  lemma ScaleRoundTrip(x: real, scale: string)
    requires IsScale(scale)
    ensures ToKelvin(FromKelvin(x, scale), scale) == x
  {
  }

  /** Converting twice is converting once, from the first scale to the last. */
  lemma TemperatureComposition(x: real, a: string, b: string, c: string)
    requires IsScale(a) && IsScale(b) && IsScale(c)
    ensures TemperatureFormula(TemperatureFormula(x, a, b), b, c) == TemperatureFormula(x, a, c)
  {
    TemperatureIsChangeOfScale(x, a, b);
    TemperatureIsChangeOfScale(TemperatureFormula(x, a, b), b, c);
    TemperatureIsChangeOfScale(x, a, c);
    ScaleRoundTrip(ToKelvin(x, a), b);
  }

  /** Converting there and back gives the reading back (e.g. Celsius to
      Fahrenheit to Celsius). */
  lemma TemperatureRoundTrip(x: real, a: string, b: string)
    requires IsScale(a) && IsScale(b)
    ensures TemperatureFormula(TemperatureFormula(x, a, b), b, a) == x
  {
    TemperatureComposition(x, a, b, a);
  }

  /** Same-unit pairs and names that are not scales leave the amount unchanged. */
  lemma TemperatureFallback(x: real, from: string, to: string)
    requires from == to || !IsScale(from) || !IsScale(to)
    ensures TemperatureFormula(x, from, to) == x
  {
  }

  lemma TemperatureExample()
    ensures ConvertTemperature("100", Celsius, Fahrenheit) == Shown(212.0, 2)
  {
    assert NatString(10) == "10";
    assert NatString(100) + [] == "100";
    ParseFloatNatPrefix(100, []);
    assert TemperatureFormula(100.0, Celsius, Fahrenheit) == 212.0;
  }

  // ---------------------------------------------------------------------------
  // Linear factors
  // ---------------------------------------------------------------------------

  /** To the category's base unit and on to the target unit. */
  function FactorScale(amount: real, factorFrom: real, factorTo: real): (r: real)
    requires factorTo != 0.0
    ensures factorFrom == factorTo ==> r == amount
    ensures amount == 0.0 || factorFrom == 0.0 ==> r == 0.0
  {
    (amount * factorFrom) / factorTo
  }

  /** Both sides of a unit conversion are the same amount of the base unit. */
  lemma FactorScaleBalances(amount: real, factorFrom: real, factorTo: real)
    requires factorTo != 0.0
    ensures FactorScale(amount, factorFrom, factorTo) * factorTo == amount * factorFrom
  {
  }

  function ConvertUnits(units: Option<Json.Object>, input: string, from: string, to: string): (r: Display)
    ensures r.Shown? ==> && r.decimals == UnitDecimals && ParseFloat(input).Some?
                         && units.Some? && from in Json.Keys(units.value) && to in Json.Keys(units.value)
                         && Json.Get(units.value, from).value != 0.0 && Json.Get(units.value, to).value != 0.0
                         && r.value == FactorScale(ParseFloat(input).value, Json.Get(units.value, from).value,
                                                   Json.Get(units.value, to).value)
  {
    if units.None? then Unavailable
    else
      var amount := ParseFloat(input);
      var factorFrom := Json.Get(units.value, from);
      var factorTo := Json.Get(units.value, to);
      if amount.None? || !Truthy(factorFrom) || !Truthy(factorTo) then Unavailable
      else Shown(FactorScale(amount.value, factorFrom.value, factorTo.value), UnitDecimals)
  }

  /** "--" exactly when there is no table, the amount is not a number, or a
      selected unit has no factor or a zero factor; otherwise 6 decimals. */
  lemma UnitsGuard(units: Option<Json.Object>, input: string, from: string, to: string)
    ensures ConvertUnits(units, input, from, to) == Unavailable <==>
            units.None? || ParseFloat(input).None?
            || !Truthy(Json.Get(units.value, from)) || !Truthy(Json.Get(units.value, to))
    ensures ConvertUnits(units, input, from, to).Shown? ==>
            ConvertUnits(units, input, from, to).decimals == UnitDecimals
  {
  }

  /** Converting U to V and back to U gives the amount back. */
  lemma UnitsRoundTrip(amount: real, fu: real, fv: real)
    requires fu != 0.0 && fv != 0.0
    ensures FactorScale(FactorScale(amount, fu, fv), fv, fu) == amount
  {
    var y := (amount * fu) / fv;
    assert y * fv == amount * fu;
  }

  /** U to V followed by V to W is U to W. */
  lemma UnitsChain(amount: real, fu: real, fv: real, fw: real)
    requires fv != 0.0 && fw != 0.0
    ensures FactorScale(FactorScale(amount, fu, fv), fv, fw) == FactorScale(amount, fu, fw)
  {
    var y := (amount * fu) / fv;
    assert y * fv == amount * fu;
  }

  lemma UnitsExample()
    ensures ConvertUnits(Some([("m", 1.0), ("km", 1000.0)]), "5", "km", "m") == Shown(5000.0, 6)
  {
    ParseFloatNatPrefix(5, []);
    assert NatString(5) == "5";
  }

  // ---------------------------------------------------------------------------
  // The router
  // ---------------------------------------------------------------------------

  function Decimals(category: Category): nat
  {
    match category
    case Currency => CurrencyDecimals
    case Temp => TemperatureDecimals
    case _ => UnitDecimals
  }

  /** `handleCalculation`: currency by rates, temperature by formula, every
      other page by unit factors. */
  function Calculate(category: Category, rates: Option<Rates.RateTable>, units: Option<Json.Object>,
                     input: string, from: string, to: string): (r: Display)
    ensures r.Shown? ==> ParseFloat(input).Some? && r.decimals == Decimals(category)
  {
    match category
    case Currency => ConvertCurrency(rates, input, from, to)
    case Temp => ConvertTemperature(input, from, to)
    case _ => ConvertUnits(units, input, from, to)
  }

  /** Text that is not a number shows "--" on every page, whatever is loaded. */
  lemma UnparsableIsUnavailable(category: Category, rates: Option<Rates.RateTable>, units: Option<Json.Object>,
                                input: string, from: string, to: string)
    requires ParseFloat(input).None?
    ensures Calculate(category, rates, units, input, from, to) == Unavailable
  {
  }

  /** A shown result carries its page's decimal count, and a page that needs a
      table shows "--" without one. */
  lemma RouterResults(category: Category, rates: Option<Rates.RateTable>, units: Option<Json.Object>,
                      input: string, from: string, to: string)
    ensures Calculate(category, rates, units, input, from, to).Shown? ==>
            Calculate(category, rates, units, input, from, to).decimals == Decimals(category)
    ensures category == Currency && rates.None? ==> Calculate(category, rates, units, input, from, to) == Unavailable
    ensures category != Currency && category != Temp && units.None? ==> Calculate(category, rates, units, input, from, to) == Unavailable
    ensures category == Temp ==> (Calculate(category, rates, units, input, from, to) == Unavailable <==> ParseFloat(input).None?)
  {
  }

  /** The router reads only the table of the active page: the currency page
      never looks at unit factors, the unit pages never at rates, and the
      temperature page at neither. */
  lemma RouterReadsOwnTable(category: Category, r1: Option<Rates.RateTable>, r2: Option<Rates.RateTable>,
                            u1: Option<Json.Object>, u2: Option<Json.Object>,
                            input: string, from: string, to: string)
    requires category == Currency ==> r1 == r2
    requires category != Currency && category != Temp ==> u1 == u2
    ensures Calculate(category, r1, u1, input, from, to) == Calculate(category, r2, u2, input, from, to)
  {
  }
}
