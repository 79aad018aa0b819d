/** The option lists of the two unit selectors (`fillCurrencyLists`,
    `fillUnitSelects`) and the value a selector shows afterwards. */
module Selectors {
  import opened Wrappers
  import opened Text
  import Json

  /** Strictly ascending in the default sort order; hence no code twice. */
  predicate StrictlySorted(s: seq<string>) {
    forall i, j :: 0 <= i < j < |s| ==> Less(s[i], s[j])
  }

  /** Inserts `x` at its place in a strictly sorted list (ignored if present). */
  function Insert(s: seq<string>, x: string): (r: seq<string>)
    requires StrictlySorted(s)
    ensures StrictlySorted(r)
    ensures forall y :: y in r <==> y in s || y == x
    ensures |r| == if x in s then |s| else |s| + 1
  {
    if s == [] then [x]
    else if x == s[0] then s
    else if Less(x, s[0]) then
      assert forall j :: 0 < j < |s| ==> Less(x, s[j]) by {
        forall j | 0 < j < |s| ensures Less(x, s[j]) { LessTransitive(x, s[0], s[j]); }
      }
      assert x !in s;
      [x] + s
    else
      LessTotal(x, s[0]);
      assert x in s <==> x in s[1..] by {
        if x in s { var k :| 0 <= k < |s| && s[k] == x; assert s[1..][k - 1] == x; }
      }
      var t := Insert(s[1..], x);
      assert forall y :: y in t ==> Less(s[0], y);
      [s[0]] + t
  }

  lemma SameElementsEmpty(a: seq<string>, b: seq<string>)
    requires forall c :: c in a <==> c in b
    ensures a == [] <==> b == []
  {
    if a != [] { assert a[0] in b; }
    if b != [] { assert b[0] in a; }
  }

  /** Two strictly sorted lists with the same elements are the same list: a
      selector's options are determined by the set of codes it offers. */
  lemma {:induction false} SortedUnique(a: seq<string>, b: seq<string>)
    requires StrictlySorted(a) && StrictlySorted(b)
    requires forall c :: c in a <==> c in b
    ensures a == b
    decreases |a|
  {
    SameElementsEmpty(a, b);
    if a != [] {
      assert a[0] in b && b[0] in a;
      var k :| 0 <= k < |b| && b[k] == a[0];
      var l :| 0 <= l < |a| && a[l] == b[0];
      if k > 0 && l > 0 {
        LessAsymmetric(b[0], a[0]);
        assert false;
      }
      assert a[0] == b[0];
      forall c | c in a[1..] ensures c in b[1..] {
        var k :| 1 <= k < |a| && a[k] == c;
        LessIrreflexive(a[0]);
        assert c in a && c != a[0] && c in b;
        var l :| 0 <= l < |b| && b[l] == c;
        assert l != 0;
        assert b[1..][l - 1] == c;
      }
      forall c | c in b[1..] ensures c in a[1..] {
        var k :| 1 <= k < |b| && b[k] == c;
        LessIrreflexive(b[0]);
        assert c in b && c != b[0] && c in a;
        var l :| 0 <= l < |a| && a[l] == c;
        assert l != 0;
        assert a[1..][l - 1] == c;
      }
      SortedUnique(a[1..], b[1..]);
    }
  }

  /** `Object.keys(rates).sort()`: the codes of a rate table, ascending. */
  method SortCodes(codes: set<string>) returns (sorted: seq<string>)
    ensures StrictlySorted(sorted)
    ensures forall c :: c in sorted <==> c in codes
  {
    sorted := [];
    var rest := codes;
    while rest != {}
      invariant rest <= codes
      invariant StrictlySorted(sorted)
      invariant forall c :: c in sorted <==> c in codes && c !in rest
      decreases rest
    {
      var x :| x in rest;
      sorted := Insert(sorted, x);
      rest := rest - {x};
    }
  }

  /** `names[code]` is truthy: the code has a non-empty display name. */
  predicate Named(names: map<string, string>, code: string)
    ensures Named(names, code) ==> code in names
  {
    code in names && names[code] != ""
  }

  /** The codes both currency selectors offer: the sorted rate codes, kept only
      when the name file lists them with a name; none without rates. */
  method CurrencyOptions(rates: Option<map<string, real>>, names: map<string, string>)
    returns (fromOpts: seq<string>, toOpts: seq<string>)
    ensures toOpts == fromOpts
    ensures StrictlySorted(fromOpts)
    ensures forall c :: c in fromOpts <==> rates.Some? && c in rates.value && Named(names, c)
  {
    var codes: seq<string> := [];
    if rates.Some? {
      codes := SortCodes(rates.value.Keys);
    }
    fromOpts, toOpts := [], [];
    for i := 0 to |codes|
      invariant toOpts == fromOpts
      invariant StrictlySorted(fromOpts)
      invariant forall c :: c in fromOpts <==> c in codes[..i] && Named(names, c)
    {
      if Named(names, codes[i]) {
        forall k | 0 <= k < |fromOpts| ensures Less(fromOpts[k], codes[i]) {
          assert fromOpts[k] in fromOpts;
          assert fromOpts[k] in codes[..i];
          var j :| 0 <= j < i && codes[..i][j] == fromOpts[k];
          assert codes[j] == fromOpts[k];
        }
        fromOpts := fromOpts + [codes[i]];
        toOpts := toOpts + [codes[i]];
      }
      assert codes[..i + 1] == codes[..i] + [codes[i]];
    }
    assert codes[..|codes|] == codes;
  }

  /** The options of both unit selectors: the table's unit names, in order. */
  method UnitOptions(data: Json.Object) returns (fromOpts: seq<string>, toOpts: seq<string>)
    ensures fromOpts == Json.Keys(data) && toOpts == Json.Keys(data)
  {
    var units := Json.Keys(data);
    fromOpts, toOpts := [], [];
    for i := 0 to |units|
      invariant fromOpts == units[..i] && toOpts == units[..i]
    {
      fromOpts := fromOpts + [units[i]];
      toOpts := toOpts + [units[i]];
    }
  }

  /** What a selector shows: one of its options, or "" when it has none. */
  predicate Shows(opts: seq<string>, v: string) {
    v in opts || (opts == [] && v == "")
  }

  /** A rebuilt selector selects its first option (or shows "" when empty). */
  function FirstOption(opts: seq<string>): (v: string)
    ensures Shows(opts, v)
    ensures opts != [] ==> v == opts[0]
    ensures opts == [] ==> v == ""
  {
    if opts == [] then "" else opts[0]
  }

  /** `querySelector(`option[value="${v}"]`)` throws a SyntaxError: a double
      quote ends the attribute string early, and a line break inside a CSS
      string is a bad string. */
  predicate BreaksSelector(v: string)
    ensures BreaksSelector(v) ==> v != ""
  {
    '"' in v || '\n' in v || '\r' in v || '\U{000C}' in v
  }

  /** Assigning `v` to a selector's value: it shows `v` if offered, else "". */
  function Assign(opts: seq<string>, v: string): (r: string)
    ensures v in opts ==> r == v
    ensures v !in opts ==> r == ""
  {
    if v in opts then v else ""
  }

  /** The from-selector after the currency lists are rebuilt: the old value if
      still offered, else `USD` if offered, else the first option. */
  function RestoreFrom(oldFrom: string, opts: seq<string>): (v: string)
    ensures Shows(opts, v)
    ensures oldFrom in opts ==> v == oldFrom
    ensures oldFrom !in opts && "USD" in opts ==> v == "USD"
    ensures oldFrom !in opts && "USD" !in opts ==> v == FirstOption(opts)
  {
    if oldFrom in opts then oldFrom
    else if "USD" in opts then "USD"
    else FirstOption(opts)
  }

  /** The to-selector after the currency lists are rebuilt: the old value if
      still offered, else `EUR`, else `INR`, else the first option. */
  function RestoreTo(oldTo: string, opts: seq<string>): (v: string)
    ensures Shows(opts, v)
    ensures oldTo in opts ==> v == oldTo
    ensures oldTo !in opts && "EUR" in opts ==> v == "EUR"
    ensures oldTo !in opts && "EUR" !in opts && "INR" in opts ==> v == "INR"
    ensures oldTo !in opts && "EUR" !in opts && "INR" !in opts ==> v == FirstOption(opts)
  {
    if oldTo in opts then oldTo
    else if "EUR" in opts then "EUR"
    else if "INR" in opts then "INR"
    else FirstOption(opts)
  }

  /** The (from, to) values after the unit lists are rebuilt: the first and
      second unit when there are at least two, otherwise the first option. */
  function UnitSelection(units: seq<string>): (sel: (string, string))
    ensures Shows(units, sel.0) && Shows(units, sel.1)
    ensures |units| > 1 ==> sel == (units[0], units[1])
    ensures |units| <= 1 ==> sel.0 == sel.1 == FirstOption(units)
  {
    if |units| > 1 then (units[0], units[1]) else (FirstOption(units), FirstOption(units))
  }

  /** With at least two units, the rebuilt selectors start on different units. */
  lemma UnitSelectionDistinct(data: Json.Object)
    requires |data| > 1
    ensures UnitSelection(Json.Keys(data)).0 != UnitSelection(Json.Keys(data)).1
  {
    assert Json.Keys(data)[0] == data[0].0 && Json.Keys(data)[1] == data[1].0;
  }
}
