# Nothing-Calculator conversion core, in Dafny

This project models the conversion core of the Nothing-Calculator web widget
(`script.js`): a page per category (currency, length, mass, speed, volume,
area, data, temperature), an amount field, a from-selector and a
to-selector, and a result box that shows a converted value or `--`.

- **Rate acquisition** (`getLiveRates`, module `Rates`). The primary source's
  `usd` member is upper-cased key by key, and `USD` is then forced to 1.
  Only when the primary fails, answers not-ok or has no `usd` member is the
  secondary source asked. Its `rates` get its own `base` forced to 1. When
  both fail there is no table.
- **Selectors** (`fillCurrencyLists`, `fillUnitSelects`, module `Selectors`).
  Currency lists hold the sorted rate codes that the name file gives a
  non-empty name. The old selection is kept if it is still offered;
  otherwise the from-selector falls back to `USD` and the to-selector to
  `EUR`, then `INR`. Unit lists follow the table's key order and start on
  the first two units.
- **Conversions and router** (`convertCurrency`, `convertTemperature`,
  `convertUnits`, `handleCalculation`, module `Conversions`). Each conversion
  gives either `Unavailable` (the `--` marker) or a value together with the
  number of decimals `toFixed` would render: 3 for currency, 2 for
  temperature, 6 for units. The guards test JavaScript truthiness, so a
  missing rate and a zero rate both give `--`.
- **Session** (module `Session`, class `Calculator`). The class holds the
  module-level variables, the values of the amount field and both
  selectors, and the result box. Its methods are the load functions, the
  navigation handler, the input handlers and the swap handler. `Valid()`
  keeps the central invariant: a rate table and a unit table are never
  loaded at the same time.

Requests are not performed. A `Network` value says how each request of one
load turns out:
- the currency name file: it fails, or it gives a map from code to name;
- the primary rate source and the secondary rate source: each fails, or gives
  its parsed document;
- the unit files: a map from path to parsed table. A path that is absent
  there fails to load.

Amounts, rates and factors are `real`. `parseFloat` is modelled as a
prefix parser that returns `None` where JavaScript gives `NaN`.

Four behaviours of the code are easy to miss, and the model keeps them:
- The currency name file is fetched again on every currency load
  (`script.js:152`), not once per session.
- The temperature page also loads `./data/temp.json` and fills its selectors
  from that file (`script.js:351`). The conversion itself uses no table.
- A rate or factor of 0 is treated like a missing one (`script.js:236`,
  `script.js:330`).
- `loadCurrency` first calls `fillCurrencyLists(null, …)`
  (`script.js:155`). That empties both lists, so the later "restore the old
  selection" branch never sees the earlier currency. After a currency load
  the from-selector shows `USD` if it is offered, and the to-selector `EUR`
  or `INR`, whatever was selected before. `Session.Calculator.LoadCurrency`
  states this as `RestoreFrom("", …)` and `RestoreTo("", …)`.

One error path of the code is modelled too. The first `fillCurrencyLists`
call pastes the selectors' current values, which may be unit names from the
page just left, into `option[value="…"]` selectors (`script.js:211`,
`script.js:217`). A value containing a double quote or a line break makes
`querySelector` throw a SyntaxError. The `catch` at `script.js:156-159`
then ends the currency load: both lists stay empty and no rate table is
loaded. `Selectors.BreaksSelector` names those values.

Two facts about the browser are modelled as well. A rebuilt selector shows
its first option, or `""` when it has none. Assigning a selector a value
that is not among its options makes it show `""`.

## Model

| member | source | states |
|---|---|---|
| Text.UpperChar | script.js:120 | an ASCII lower-case letter becomes the matching capital; every other character is unchanged |
| Text.Upper | script.js:120 | upper-casing keeps the length and maps each character by `UpperChar`, so no ASCII lower-case letter is left and every other character is kept |
| Text.UpperIdempotent | script.js:120 | upper-casing an upper-cased code changes nothing |
| Text.Less | script.js:188 | the default sort order is strict (a string never sorts before itself), and a proper prefix sorts before the longer string |
| Text.ParseFloat | script.js:232 | `parseFloat` gives a number only for text that contains a digit; `""`, white space alone, a sign or a point alone are NaN |
| Text.ParseFloatNatPrefix | script.js:232 | `parseFloat` reads back the decimal rendering of any natural number, also when the text that follows cannot continue a number (it does not start with a digit, `.`, `e` or `E`) |
| Text.ParseFloatRejects | script.js:236 | text starting with a character that cannot begin a number parses to NaN (`None`) |
| Json.Keys | script.js:282 | `Object.keys` lists one name per member, in member order |
| Json.Get | script.js:330 | looking up a member gives its value exactly when the object has that member |
| Rates.UpperKeys | script.js:118-121 | the member-by-member upper-cased table has no key with a lower-case letter, and the last member's upper-cased name holds that member's value |
| Rates.UpperKeysDomain | script.js:118-121 | the upper-cased table has exactly the upper-cased names of the source members as keys |
| Rates.UpperKeysLastWins | script.js:119-121 | when two members share an upper-cased name, the one later in key order wins |
| Rates.PrimaryRates | script.js:117-124 | the primary table holds `USD` at exactly 1.0, and none of its keys has a lower-case letter |
| Rates.PrimaryNormalisation | script.js:117-124 | primary table keys are {upper(k) for each member k} together with `USD`; `USD` maps to exactly 1.0; no key has a lower-case letter; every other key has its last member's value |
| Rates.SecondaryRates | script.js:133-135 | the secondary table holds its base (or `undefined`) at exactly 1.0 |
| Rates.SecondaryNormalisation | script.js:133-135 | secondary table keys are the `rates` keys together with the base (or `undefined` when there is no base); the base maps to 1.0; every other rate is unchanged |
| Rates.LiveRates | script.js:108-141 | only the primary is asked exactly when it is usable, and there is no table exactly when neither source is usable |
| Rates.FallbackChain | script.js:111-140 | the primary is asked first, and the secondary only when the primary is unusable (at most one fallback hop); the result is no table exactly when both are unusable; each source's result is its normalised table |
| Rates.AcquiredBaseIsOne | script.js:122 | whichever source answered, its base currency has rate exactly 1.0 |
| Rates.UpperCaseRates | script.js:117-124 | the key-by-key loop builds exactly the normalised primary table |
| Rates.GetLiveRates | script.js:108-141 | returns the table and the sources asked that `LiveRates` specifies for the two request outcomes |
| Selectors.Named | script.js:194 | a code passes the whitelist only when the name file has it, with a non-empty (truthy) name |
| Selectors.BreaksSelector | script.js:211-222 | the old values for which building `option[value="…"]` throws: a double quote or a line break; never the empty value |
| Selectors.Insert | script.js:188 | inserting a code into a strictly sorted list gives a strictly sorted list with exactly one more element (none if the code was already there) |
| Selectors.SortedUnique | script.js:186-188 | two strictly sorted lists with the same elements are equal, so a selector's list is determined by the set of codes it offers |
| Selectors.SortCodes | script.js:188 | `Object.keys(rates).sort()` gives the table's codes in strictly ascending order, each exactly once |
| Selectors.CurrencyOptions | script.js:186-208 | the from-list equals the to-list; it is strictly ascending; it holds exactly the rate codes with a non-empty name; it is empty when there are no rates |
| Selectors.UnitOptions | script.js:279-294 | both lists are the table's unit names, in key order |
| Selectors.FirstOption | script.js:182-183 | a rebuilt selector shows its first option, or "" when it has none |
| Selectors.Assign | script.js:388-389 | assigning a selector's value shows that value when it is offered, and "" when it is not |
| Selectors.RestoreFrom | script.js:211-215 | from always shows one of its options (or "" when it has none): the old value if it is still offered, else `USD` if offered, else the first option |
| Selectors.RestoreTo | script.js:217-223 | to always shows one of its options (or "" when it has none): the old value if it is still offered, else `EUR`, else `INR`, else the first option |
| Selectors.UnitSelection | script.js:296-299 | with at least two units, from is the first unit and to the second; otherwise both show the first option |
| Selectors.UnitSelectionDistinct | script.js:282-299 | with at least two units, from and to start on different units |
| Conversions.CategoryName | script.js:47-56 | each page's name (the navigation target without `page-`) is a non-empty run of lower-case letters |
| Conversions.CategoryNameInjective | script.js:74 | different pages have different names |
| Conversions.RateOf | script.js:236 | looking up a rate gives its value exactly when the code is in the table |
| Conversions.CurrencyRatio | script.js:240-241 | the ratio through the common base: equal rates give the amount back, and a zero amount or zero target rate gives 0 |
| Conversions.ConvertCurrency | script.js:226-244 | a shown result needs a parsed amount and a non-zero rate for both codes, has 3 decimals, and is the amount carried through the common base by those two rates |
| Conversions.CurrencyRatioBalances | script.js:240-241 | the converted amount is worth as much as the original: result times the source rate equals amount times the target rate |
| Conversions.CurrencyGuard | script.js:226-243 | currency shows `--` exactly when there is no table, the amount is NaN, or a selected code has no rate or a zero rate; otherwise it shows 3 decimals |
| Conversions.CurrencyIdentity | script.js:241 | converting a code to itself gives the amount |
| Conversions.CurrencyChain | script.js:241 | converting A to B and then B to C equals converting A to C |
| Conversions.CurrencyBaseIndependent | script.js:241 | scaling every rate by the same non-zero factor (a different base) gives the same result |
| Conversions.CurrencyExample | script.js:241-243 | `{USD: 1, EUR: 0.9}`, "10", USD to EUR gives 9 with 3 decimals |
| Conversions.TemperatureFormula | script.js:261-268 | the six directed formulas; a same-scale pair or a name that is not a scale leaves the reading unchanged |
| Conversions.ConvertTemperature | script.js:249-271 | a result is shown exactly when the amount parses, with 2 decimals; between two of the three scales it is the change of scale through the absolute temperature |
| Conversions.TemperatureIsChangeOfScale | script.js:262-268 | each of the six formulas, and the identity on equal scales, is the change of scale through the absolute temperature |
| Conversions.TemperatureComposition | script.js:262-268 | converting a to b and then b to c equals converting a to c, for all three scales |
| Conversions.TemperatureRoundTrip | script.js:262-264 | converting there and back gives the original reading (e.g. Celsius to Fahrenheit to Celsius) |
| Conversions.TemperatureFallback | script.js:268 | a same-unit pair, or a name that is not a scale, returns the amount unchanged |
| Conversions.TemperatureExample | script.js:262 | "100", Celsius to Fahrenheit gives 212 with 2 decimals |
| Conversions.FactorScale | script.js:335-336 | through the base unit: equal factors give the amount back, and a zero amount or zero source factor gives 0 |
| Conversions.ConvertUnits | script.js:320-338 | a shown result needs a parsed amount and both units in the table with non-zero factors, has 6 decimals, and is the amount taken to the base unit and on to the target unit |
| Conversions.FactorScaleBalances | script.js:335-336 | both sides of a unit conversion are the same amount of the base unit |
| Conversions.UnitsGuard | script.js:320-337 | units show `--` exactly when there is no table, the amount is NaN, or a selected unit has no factor or a zero factor; otherwise they show 6 decimals |
| Conversions.UnitsRoundTrip | script.js:335-336 | converting U to V and back to U gives the amount |
| Conversions.UnitsChain | script.js:335-336 | converting U to V and then V to W equals converting U to W |
| Conversions.UnitsExample | script.js:335-337 | `{m: 1, km: 1000}`, "5", km to m gives 5000 with 6 decimals |
| Conversions.Calculate | script.js:357-365 | a shown result needs a parsed amount and has the active page's decimal count |
| Conversions.UnparsableIsUnavailable | script.js:357-365 | an amount that does not parse shows `--` on every page, whatever tables are loaded |
| Conversions.RouterResults | script.js:357-365 | a shown result has its page's decimal count; currency without rates shows `--`; a unit page without a table shows `--`; temperature shows `--` exactly when the amount is NaN |
| Conversions.RouterReadsOwnTable | script.js:357-365 | the currency page reads only the rates, the unit pages read only the unit table, and temperature reads neither |
| Session.UnitFile | script.js:303 | a page's unit file is `./data/` followed by the page name and `.json` |
| Session.UnitFileInjective | script.js:303 | different pages read different unit files |
| Session.AllCategoriesComplete | script.js:47-56 | the history covers every page |
| Session.Restored | script.js:86 | a restored amount is never empty: an empty saved entry gives "1" |
| Session.Calculator.constructor | script.js:42-56 | starts on the currency page with "1" in every history entry and in the field and with empty selectors, then loads the currency page (`script.js:444-450`): no unit table; if the name file loads, the acquired rates and the sorted whitelisted codes with `USD` and `EUR`/`INR` defaults; otherwise no rates and empty selectors; the result recomputed |
| Session.Calculator.HandleCalculation | script.js:357-365 | the result box becomes the router's result for the current state |
| Session.Calculator.FillCurrencyLists | script.js:177-224 | the lists become the sorted, whitelisted codes; the selection is restored or defaulted; an old value that breaks the `option[value="…"]` selector throws, and the selector it belongs to (and the to-selector after it) keeps its first option; the invariant holds |
| Session.Calculator.FillUnitSelects | script.js:276-300 | the lists become the unit names in order; the selection is set by `UnitSelection` |
| Session.Calculator.LoadCurrency | script.js:147-174 | a name-file failure changes nothing; a SyntaxError in the first fill leaves the tables as they were and both selectors empty; otherwise the rate table is what `getLiveRates` yields and a success clears the unit table; the lists are the whitelisted codes; the selection is defaulted as if nothing had been selected |
| Session.Calculator.LoadUnitJSON | script.js:302-318 | a loaded file becomes the unit table, clears the rate table and refills the lists; a failure leaves no unit table and shows `--` |
| Session.Calculator.LoadCalculator | script.js:344-355 | both tables are cleared first (`AfterLoad`). The currency page then ends with no unit table; with the name file loaded and valid old values it has the acquired rates, the sorted whitelisted codes and the defaulted selection; otherwise no rates, with the selectors emptied (SyntaxError) or kept (name file failed). Any other page ends with no rate table and, when its file loads, that table, its keys and its first two units; otherwise no table and the selectors kept. The result is recomputed |
| Session.Calculator.Navigate | script.js:61-91 | saves the field under the page being left, switches page, restores the new page's entry ("" as "1") and loads it, leaving the tables and selectors `AfterLoad` gives for the new page; afterwards only the page's kind of table can be loaded |
| Session.Calculator.OnInput | script.js:370-374 | the field and the active page's history entry become the text; other entries are unchanged; the result is recomputed |
| Session.Calculator.ChooseFrom | script.js:377-379 | picking an offered from-unit recomputes the result |
| Session.Calculator.ChooseTo | script.js:381-383 | picking an offered to-unit recomputes the result |
| Session.Calculator.Swap | script.js:385-397 | swap exchanges the from and to values exactly and recomputes the result |
| Session.SwapTwice | script.js:386-389 | swapping twice restores both selectors |
| Session.LeaveAndReturn | script.js:65-87 | leaving a page and coming back restores a non-empty amount typed there |

## Left out

- Theme toggle and its stored preference (`script.js:5-26`): presentation and persistence only.
- Footer and keyboard visibility (`script.js:410-437`): depends on viewport size, focus and timers.
- Swap animation class and its timer (`script.js:391-394`): presentation only.
- Requests: `fetch` and `response.json()` are not performed. Each outcome is a field of `Network`.
- Transport, status and parse errors are collapsed into one failure per request.
- Non-object JSON documents, and members whose values are not numbers (or, in the name file, not strings), are not modelled.
- Status-note texts and every `innerHTML` text are left out, and so are the option labels (`code - name`). Options are modelled by their values only.
- Console logging: it has no effect on the state.
- Overlapping asynchronous loads: each load is one atomic step, so a stale response arriving after a newer page switch is not modelled.
- Missing DOM elements: the `if (!fromInput …)` and `if (!resultBox)` early returns are not modelled. Every element is taken to exist.
- The page's initial option elements: the HTML is not part of this model, so both selectors start empty.
- Text.ParseFloat: `Infinity` and exponents beyond the double range are not modelled. A leading `Infinity` parses as NaN here, whereas JavaScript reads it as an infinite amount.
- Conversions.ConvertCurrency, Conversions.ConvertUnits, Conversions.ConvertTemperature: they compute with exact reals. Double rounding and `toFixed` rendering are replaced by the value and a decimal count. NaN rates or factors cannot occur in the model.
- Conversions.RateOf, Json.Get, Selectors.Named: lookups do not follow the prototype chain (`constructor`, `__proto__`). In JavaScript a rate code such as `constructor` would pass the whitelist without an entry in the name file.
- Text.Upper: only ASCII letters are upper-cased; `toUpperCase` on other scripts is not modelled.
- Selectors.BreaksSelector: the CSS grammar of attribute selectors is approximated. A value with a double quote or a line break is taken to throw. A crafted value such as `x"],[value="y` would in fact form a valid selector list, and a backslash would act as a CSS escape; neither is modelled.
- Selectors.RestoreFrom, Selectors.RestoreTo: an old value is compared with the options literally, without CSS escapes. In `loadCurrency` this makes no difference: the first fill runs on empty lists and the second with `""` as both old values.
- Rates.SecondaryRates: the secondary `base` is absent or a string. A JSON `"base": null` (which would write the key `null`) or a non-string base is not modelled.
- Text.Less: characters are ordered by code point. JavaScript's default sort orders by UTF-16 code unit; the two orders differ only outside the Basic Multilingual Plane.
