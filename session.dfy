/** The calculator's session state and its event handlers: the module-level
    variables (`currentRates`, `currentUnitData`, `currentCalc`,
    `inputHistory`), the values of the amount field and the two selectors,
    and the result box; loading a page's table, the router call, the
    navigation, input and swap handlers. */
module Session {
  import opened Wrappers
  import Json
  import Rates
  import opened Selectors
  import opened Conversions

  /** How every request made during one load turns out: the currency name
      file, the two rate sources, and the unit files of the data directory
      that load and parse (a path missing here fails to load). */
  datatype Network = Network(
    currencyNames: Fetched<map<string, string>>,
    primary: Fetched<Rates.PrimaryDoc>,
    secondary: Fetched<Rates.SecondaryDoc>,
    dataFiles: map<string, Json.Object>)

  /** The unit file of a page: `./data/<name>.json`. */
  function UnitFile(category: Category): (path: string)
    ensures |path| == |CategoryName(category)| + 12
    ensures path[..7] == "./data/" && path[|path| - 5..] == ".json"
    ensures path[7..|path| - 5] == CategoryName(category)
  {
    "./data/" + CategoryName(category) + ".json"
  }

  /** Different pages read different unit files. */
  lemma UnitFileInjective(c: Category, d: Category)
    requires UnitFile(c) == UnitFile(d)
    ensures c == d
  {
    assert CategoryName(c) == UnitFile(c)[7..|UnitFile(c)| - 5];
    CategoryNameInjective(c, d);
  }

  const AllCategories: set<Category> := {Currency, Length, Mass, Speed, Volume, Area, Data, Temp}

  lemma AllCategoriesComplete(c: Category)
    ensures c in AllCategories
  {
  }

  const DefaultInput: string := "1"

  /** `inputHistory[page] || "1"`: an empty saved entry comes back as "1". */
  function Restored(saved: string): (v: string)
    ensures v != ""
    ensures saved != "" ==> v == saved
    ensures saved == "" ==> v == DefaultInput
  {
    if saved == "" then DefaultInput else saved
  }

  /** The name file loaded and the two selector values in force before
      `loadCurrency` can be pasted into `option[value="…"]` selectors, so the
      first `fillCurrencyLists` call does not throw. */
  predicate CurrencyListsFill(net: Network, oldFrom: string, oldTo: string) {
    net.currencyNames.Loaded? && !BreaksSelector(oldFrom) && !BreaksSelector(oldTo)
  }

  class Calculator {
    var currentRates: Option<Rates.RateTable>
    var currentUnitData: Option<Json.Object>
    var currentCalc: Category
    var inputHistory: map<Category, string>
    /** The amount field's text. */
    var input: string
    var fromOptions: seq<string>
    var toOptions: seq<string>
    /** The values the two selectors show. */
    var fromValue: string
    var toValue: string
    /** What the result box shows. */
    var result: Display

    /** Every page has a history entry; both selectors offer the same list and
        show one of its options; never a rate table and a unit table at once. */
    ghost predicate Valid()
      reads this
    {
      && (forall c: Category :: c in inputHistory)
      && toOptions == fromOptions
      && Shows(fromOptions, fromValue) && Shows(toOptions, toValue)
      && !(currentRates.Some? && currentUnitData.Some?)
    }

    /** A loaded table is the kind the active page reads. */
    ghost predicate TablesMatchPage()
      reads this
    {
      && (currentRates.Some? ==> currentCalc == Currency)
      && (currentUnitData.Some? ==> currentCalc != Currency)
    }

    /** The result box is what the router computes from the current state. */
    ghost predicate ResultCurrent()
      reads this
    {
      result == Calculate(currentCalc, currentRates, currentUnitData, input, fromValue, toValue)
    }

    /** The tables and selectors `loadCalculator(category)` leaves, given the
        selectors' options and values before it: for the currency page, the
        whitelisted sorted codes when the name file loads and the old values
        are valid in a selector (no rates and empty lists when they are not,
        everything kept when the name file fails); for the other pages, the
        unit file's keys and first two units, or everything kept when the file
        is missing. */
    ghost predicate AfterLoad(category: Category, net: Network, oldOptions: seq<string>, oldFrom: string, oldTo: string)
      reads this
    {
      if category == Currency then
        var acquired := Rates.LiveRates(net.primary, net.secondary).rates;
        && currentUnitData == None
        && (net.currencyNames.Failed? ==>
              currentRates == None && fromOptions == oldOptions && fromValue == oldFrom && toValue == oldTo)
        && (net.currencyNames.Loaded? && !CurrencyListsFill(net, oldFrom, oldTo) ==>
              currentRates == None && fromOptions == [] && fromValue == "" && toValue == "")
        && (CurrencyListsFill(net, oldFrom, oldTo) ==>
              && currentRates == acquired
              && StrictlySorted(fromOptions)
              && (forall c :: c in fromOptions <==> acquired.Some? && c in acquired.value && Named(net.currencyNames.doc, c))
              && fromValue == RestoreFrom("", fromOptions)
              && toValue == RestoreTo("", toOptions))
      else
        && currentRates == None
        && (UnitFile(category) in net.dataFiles ==>
              var data := net.dataFiles[UnitFile(category)];
              && currentUnitData == Some(data)
              && fromOptions == Json.Keys(data)
              && (fromValue, toValue) == UnitSelection(Json.Keys(data)))
        && (UnitFile(category) !in net.dataFiles ==>
              currentUnitData == None && fromOptions == oldOptions && fromValue == oldFrom && toValue == oldTo)
    }

    /** The page-load handler: no tables, the currency page, "1" in every
        history entry and in the amount field, then `loadCalculator("currency")`.
        The page's initial option elements are not modelled: both selectors
        start empty. */
    constructor (net: Network)
      ensures Valid() && TablesMatchPage() && ResultCurrent()
      ensures currentCalc == Currency && input == DefaultInput
      ensures forall c :: c in inputHistory && inputHistory[c] == DefaultInput
      ensures currentUnitData == None
      ensures currentRates == (if net.currencyNames.Loaded? then Rates.LiveRates(net.primary, net.secondary).rates else None)
      ensures AfterLoad(Currency, net, [], "", "")
    {
      currentRates := None;
      currentUnitData := None;
      currentCalc := Currency;
      inputHistory := map c | c in AllCategories :: DefaultInput;
      input := DefaultInput;
      fromOptions, toOptions := [], [];
      fromValue, toValue := "", "";
      result := Unavailable;
      new;
      forall c: Category ensures c in AllCategories { AllCategoriesComplete(c); }
      assert CurrencyListsFill(net, "", "") == net.currencyNames.Loaded?;
      LoadCalculator(Currency, net);
    }

    /** `handleCalculation`: recompute the result box. */
    method HandleCalculation()
      modifies this`result
      ensures ResultCurrent()
    {
      result := Calculate(currentCalc, currentRates, currentUnitData, input, fromValue, toValue);
    }

    /** `fillCurrencyLists(rates, names)`: both lists become the sorted codes of
        `rates` that `names` whitelists; the selection is kept if still
        offered, else defaulted. `thrown` is the SyntaxError of a selector
        built from an old value; a rebuilt selector not yet restored shows
        its first option. */
    method FillCurrencyLists(rates: Option<Rates.RateTable>, names: map<string, string>) returns (thrown: bool)
      requires Valid()
      modifies this`fromOptions, this`toOptions, this`fromValue, this`toValue
      ensures Valid()
      ensures thrown == (BreaksSelector(old(fromValue)) || BreaksSelector(old(toValue)))
      ensures StrictlySorted(fromOptions)
      ensures forall c :: c in fromOptions <==> rates.Some? && c in rates.value && Named(names, c)
      ensures fromValue == if BreaksSelector(old(fromValue)) then FirstOption(fromOptions)
                           else RestoreFrom(old(fromValue), fromOptions)
      ensures toValue == if thrown then FirstOption(toOptions) else RestoreTo(old(toValue), toOptions)
    {
      var oldFrom, oldTo := fromValue, toValue;
      fromOptions, toOptions := CurrencyOptions(rates, names);
      fromValue, toValue := FirstOption(fromOptions), FirstOption(toOptions);
      if BreaksSelector(oldFrom) {
        return true;
      }
      fromValue := RestoreFrom(oldFrom, fromOptions);
      if BreaksSelector(oldTo) {
        return true;
      }
      toValue := RestoreTo(oldTo, toOptions);
      return false;
    }

    /** `fillUnitSelects(data)`: both lists become the unit names in table
        order; with two or more units the selectors start on the first two. */
    method FillUnitSelects(data: Json.Object)
      requires Valid()
      modifies this`fromOptions, this`toOptions, this`fromValue, this`toValue
      ensures Valid()
      ensures fromOptions == Json.Keys(data)
      ensures (fromValue, toValue) == UnitSelection(Json.Keys(data))
    {
      fromOptions, toOptions := UnitOptions(data);
      var selection := UnitSelection(fromOptions);
      fromValue, toValue := selection.0, selection.1;
    }

    /** `loadCurrency`: the name file and a first, empty fill of the lists (on
        a failure of either nothing else happens), then the rates; a rate
        table replaces the unit table, a failure leaves no rate table. */
    method LoadCurrency(net: Network)
      requires Valid()
      modifies this`currentRates, this`currentUnitData, this`fromOptions, this`toOptions, this`fromValue, this`toValue
      ensures Valid()
      ensures net.currencyNames.Failed? ==>
                currentRates == old(currentRates) && currentUnitData == old(currentUnitData)
                && fromOptions == old(fromOptions) && fromValue == old(fromValue) && toValue == old(toValue)
      ensures net.currencyNames.Loaded? && !CurrencyListsFill(net, old(fromValue), old(toValue)) ==>
                currentRates == old(currentRates) && currentUnitData == old(currentUnitData)
                && fromOptions == [] && fromValue == "" && toValue == ""
      ensures CurrencyListsFill(net, old(fromValue), old(toValue)) ==>
                var acquired := Rates.LiveRates(net.primary, net.secondary).rates;
                && currentRates == acquired
                && currentUnitData == (if acquired.Some? then None else old(currentUnitData))
                && StrictlySorted(fromOptions)
                && (forall c :: c in fromOptions <==> acquired.Some? && c in acquired.value && Named(net.currencyNames.doc, c))
                && fromValue == RestoreFrom("", fromOptions)
                && toValue == RestoreTo("", toOptions)
    {
      if net.currencyNames.Failed? {
        return;
      }
      var names := net.currencyNames.doc;
      var thrown := FillCurrencyLists(None, names);
      if thrown {
        return;
      }
      assert fromOptions == [] && fromValue == "" && toValue == "";
      var rates, _ := Rates.GetLiveRates(net.primary, net.secondary);
      if rates.Some? {
        currentRates := rates;
        currentUnitData := None;
        thrown := FillCurrencyLists(rates, names);
      } else {
        currentRates := None;
      }
    }

    /** `loadUnitJSON(type)`: the page's unit file replaces the rate table and
        refills the selectors; a failure shows "--" and leaves no unit table. */
    method LoadUnitJSON(category: Category, net: Network)
      requires Valid()
      modifies this`currentRates, this`currentUnitData, this`fromOptions, this`toOptions, this`fromValue, this`toValue, this`result
      ensures Valid()
      ensures UnitFile(category) in net.dataFiles ==>
                var data := net.dataFiles[UnitFile(category)];
                && currentUnitData == Some(data) && currentRates == None
                && fromOptions == Json.Keys(data)
                && (fromValue, toValue) == UnitSelection(Json.Keys(data))
                && result == old(result)
      ensures UnitFile(category) !in net.dataFiles ==>
                && currentUnitData == None && currentRates == old(currentRates)
                && fromOptions == old(fromOptions) && fromValue == old(fromValue) && toValue == old(toValue)
                && result == Unavailable
    {
      var file := UnitFile(category);
      if file in net.dataFiles {
        var data := net.dataFiles[file];
        currentUnitData := Some(data);
        currentRates := None;
        FillUnitSelects(data);
      } else {
        result := Unavailable;
        currentUnitData := None;
      }
    }

    /** `loadCalculator(type)`: clear both tables, load the page's table, then
        recompute. Afterwards only the page's kind of table can be present. */
    method LoadCalculator(category: Category, net: Network)
      requires Valid()
      modifies this`currentRates, this`currentUnitData, this`fromOptions, this`toOptions, this`fromValue, this`toValue, this`result
      ensures Valid() && ResultCurrent()
      ensures AfterLoad(category, net, old(fromOptions), old(fromValue), old(toValue))
      ensures category == currentCalc ==> TablesMatchPage()
    {
      currentRates := None;
      currentUnitData := None;
      if category == Currency {
        LoadCurrency(net);
      } else {
        LoadUnitJSON(category, net);
      }
      HandleCalculation();
    }

    /** A click on a page's navigation link: save the amount under the page
        being left, switch, restore the new page's amount ("" as "1"), load. */
    method Navigate(target: Category, net: Network)
      requires Valid()
      modifies this
      ensures Valid() && TablesMatchPage() && ResultCurrent()
      ensures inputHistory == old(inputHistory)[old(currentCalc) := old(input)]
      ensures currentCalc == target
      ensures input == Restored(inputHistory[target])
      ensures AfterLoad(target, net, old(fromOptions), old(fromValue), old(toValue))
    {
      inputHistory := inputHistory[currentCalc := input];
      currentCalc := target;
      input := Restored(inputHistory[currentCalc]);
      LoadCalculator(currentCalc, net);
    }

    /** Typing in the amount field: only the active page's entry changes. */
    method OnInput(text: string)
      requires Valid()
      modifies this`inputHistory, this`input, this`result
      ensures Valid() && ResultCurrent()
      ensures input == text
      ensures inputHistory == old(inputHistory)[currentCalc := text]
      ensures forall c :: c != currentCalc ==> inputHistory[c] == old(inputHistory)[c]
    {
      inputHistory := inputHistory[currentCalc := text];
      input := text;
      HandleCalculation();
    }

    /** Picking an offered unit in the from-selector. */
    method ChooseFrom(v: string)
      requires Valid() && v in fromOptions
      modifies this`fromValue, this`result
      ensures Valid() && ResultCurrent() && fromValue == v
    {
      fromValue := v;
      HandleCalculation();
    }

    /** Picking an offered unit in the to-selector. */
    method ChooseTo(v: string)
      requires Valid() && v in toOptions
      modifies this`toValue, this`result
      ensures Valid() && ResultCurrent() && toValue == v
    {
      toValue := v;
      HandleCalculation();
    }

    /** The swap button: each selector is assigned the other's value, through
        a temporary; since both offer the same list this is an exchange. */
    method Swap()
      requires Valid()
      modifies this`fromValue, this`toValue, this`result
      ensures Valid() && ResultCurrent()
      ensures fromValue == old(toValue) && toValue == old(fromValue)
    {
      var temp := fromValue;
      fromValue := Assign(fromOptions, toValue);
      toValue := Assign(toOptions, temp);
      HandleCalculation();
    }
  }

  /** Swapping twice restores both selectors. */
  method SwapTwice(c: Calculator)
    requires c.Valid()
    modifies c
    ensures c.Valid() && c.fromValue == old(c.fromValue) && c.toValue == old(c.toValue)
  {
    c.Swap();
    c.Swap();
  }

  /** Leaving a page and coming back restores the amount typed there. */
  method LeaveAndReturn(c: Calculator, other: Category, away: Network, back: Network)
    requires c.Valid() && other != c.currentCalc && c.input != ""
    modifies c
    ensures c.Valid() && c.currentCalc == old(c.currentCalc) && c.input == old(c.input)
  {
    var home := c.currentCalc;
    c.Navigate(other, away);
    c.Navigate(home, back);
  }
}
