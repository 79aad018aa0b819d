/** Rate acquisition (`getLiveRates`): the primary source's `usd` member,
    upper-cased and completed with the base currency, or else the secondary
    source's `rates` completed with its own base. */
module Rates {
  import opened Wrappers
  import opened Text

  /** Currency code to rate against a base currency. */
  type RateTable = map<string, real>

  /** The parsed primary document. `usd` is None when the member is absent
      (or falsy); its members are kept in key order. */
  datatype PrimaryDoc = PrimaryDoc(usd: Option<seq<(string, real)>>)

  /** The parsed secondary document: its `base` and `rates` members. */
  datatype SecondaryDoc = SecondaryDoc(base: Option<string>, rates: Option<RateTable>)

  datatype RateSource = Primary | Secondary

  /** What one acquisition produced, and which sources it asked, in order. */
  datatype Acquisition = Acquisition(rates: Option<RateTable>, queried: seq<RateSource>)

  const PrimaryBase: string := "USD"

  /** The property name `undefined` becomes when used as an object key. */
  const UndefinedKey: string := "undefined"

  /** The rates assigned one member at a time under the upper-cased name, so a
      later member overwrites an earlier one with the same upper-cased name. */
  function UpperKeys(src: seq<(string, real)>): (r: RateTable)
    ensures forall k :: k in r ==> NoLowerAscii(k)
    ensures src != [] ==> Upper(src[|src| - 1].0) in r && r[Upper(src[|src| - 1].0)] == src[|src| - 1].1
  {
    if src == [] then map[]
    else UpperKeys(src[..|src| - 1])[Upper(src[|src| - 1].0) := src[|src| - 1].1]
  }

  function UpperNames(src: seq<(string, real)>): set<string>
  {
    set i | 0 <= i < |src| :: Upper(src[i].0)
  }

  lemma {:induction false} UpperKeysDomain(src: seq<(string, real)>)
    ensures UpperKeys(src).Keys == UpperNames(src)
  {
    if src != [] {
      var init := src[..|src| - 1];
      UpperKeysDomain(init);
      assert forall i :: 0 <= i < |init| ==> init[i] == src[i];
      assert UpperNames(src) == UpperNames(init) + {Upper(src[|src| - 1].0)};
    }
  }

  /** The value kept for an upper-cased name is that of its last source member. */
  lemma {:induction false} UpperKeysLastWins(src: seq<(string, real)>, i: nat)
    requires i < |src|
    requires forall j :: i < j < |src| ==> Upper(src[j].0) != Upper(src[i].0)
    ensures Upper(src[i].0) in UpperKeys(src) && UpperKeys(src)[Upper(src[i].0)] == src[i].1
  {
    if i < |src| - 1 {
      var init := src[..|src| - 1];
      assert init[i] == src[i];
      UpperKeysLastWins(init, i);
    }
  }

  /** The table the primary source yields: upper-cased codes, `USD` forced to 1. */
  function PrimaryRates(usd: seq<(string, real)>): (r: RateTable)
    ensures PrimaryBase in r && r[PrimaryBase] == 1.0
    ensures forall k :: k in r ==> NoLowerAscii(k)
  {
    UpperKeys(usd)[PrimaryBase := 1.0]
  }

  lemma PrimaryNormalisation(usd: seq<(string, real)>)
    ensures PrimaryRates(usd).Keys == UpperNames(usd) + {PrimaryBase}
    ensures PrimaryRates(usd)[PrimaryBase] == 1.0
    ensures forall k :: k in PrimaryRates(usd) ==> NoLowerAscii(k)
    ensures forall i :: 0 <= i < |usd| && Upper(usd[i].0) != PrimaryBase
                        && (forall j :: i < j < |usd| ==> Upper(usd[j].0) != Upper(usd[i].0))
                        ==> PrimaryRates(usd)[Upper(usd[i].0)] == usd[i].1
  {
    UpperKeysDomain(usd);
    forall i | 0 <= i < |usd| && (forall j :: i < j < |usd| ==> Upper(usd[j].0) != Upper(usd[i].0))
      ensures UpperKeys(usd)[Upper(usd[i].0)] == usd[i].1
    {
      UpperKeysLastWins(usd, i);
    }
  }

  /** The member name the secondary base becomes (`data.rates[data.base]`). */
  function SecondaryBaseKey(d: SecondaryDoc): string
  {
    d.base.GetOr(UndefinedKey)
  }

  /** The table the secondary source yields: its rates with its base forced to 1. */
  function SecondaryRates(d: SecondaryDoc): (r: RateTable)
    requires d.rates.Some?
    ensures SecondaryBaseKey(d) in r && r[SecondaryBaseKey(d)] == 1.0
  {
    d.rates.value[SecondaryBaseKey(d) := 1.0]
  }

  lemma SecondaryNormalisation(d: SecondaryDoc)
    requires d.rates.Some?
    ensures SecondaryRates(d).Keys == d.rates.value.Keys + {SecondaryBaseKey(d)}
    ensures SecondaryRates(d)[SecondaryBaseKey(d)] == 1.0
    ensures forall k :: k in d.rates.value && k != SecondaryBaseKey(d) ==> SecondaryRates(d)[k] == d.rates.value[k]
  {
  }

  /** The primary request succeeded and its document has a `usd` member. */
  predicate PrimaryUsable(p: Fetched<PrimaryDoc>) { p.Loaded? && p.doc.usd.Some? }

  /** The secondary request succeeded and its document has a `rates` member. */
  predicate SecondaryUsable(s: Fetched<SecondaryDoc>) { s.Loaded? && s.doc.rates.Some? }

  /** What `getLiveRates` produces when the two requests turn out as `p` and `s`. */
  function LiveRates(p: Fetched<PrimaryDoc>, s: Fetched<SecondaryDoc>): (a: Acquisition)
    ensures a.queried == [Primary] <==> PrimaryUsable(p)
    ensures a.rates.None? <==> !PrimaryUsable(p) && !SecondaryUsable(s)
  {
    if PrimaryUsable(p) then Acquisition(Some(PrimaryRates(p.doc.usd.value)), [Primary])
    else if SecondaryUsable(s) then Acquisition(Some(SecondaryRates(s.doc)), [Primary, Secondary])
    else Acquisition(None, [Primary, Secondary])
  }

  /** One attempt per source, in fixed order, at most one fallback hop; a
      rate table exactly when some source was usable. */
  lemma FallbackChain(p: Fetched<PrimaryDoc>, s: Fetched<SecondaryDoc>)
    ensures |LiveRates(p, s).queried| <= 2 && LiveRates(p, s).queried[0] == Primary
    ensures Secondary in LiveRates(p, s).queried <==> !PrimaryUsable(p)
    ensures LiveRates(p, s).rates.None? <==> !PrimaryUsable(p) && !SecondaryUsable(s)
    ensures PrimaryUsable(p) ==> LiveRates(p, s).rates == Some(PrimaryRates(p.doc.usd.value))
    ensures !PrimaryUsable(p) && SecondaryUsable(s) ==> LiveRates(p, s).rates == Some(SecondaryRates(s.doc))
  {
  }

  /** The base currency of whichever source answered has rate exactly 1. */
  lemma AcquiredBaseIsOne(p: Fetched<PrimaryDoc>, s: Fetched<SecondaryDoc>)
    requires LiveRates(p, s).rates.Some?
    ensures var base := if PrimaryUsable(p) then PrimaryBase else SecondaryBaseKey(s.doc);
            base in LiveRates(p, s).rates.value && LiveRates(p, s).rates.value[base] == 1.0
  {
  }

  /** Builds `upperRates` member by member, as the `forEach` does, and sets `USD`. */
  method UpperCaseRates(rates: seq<(string, real)>) returns (upperRates: RateTable)
    ensures upperRates == PrimaryRates(rates)
  {
    upperRates := map[];
    var i := 0;
    while i < |rates|
      invariant 0 <= i <= |rates|
      invariant upperRates == UpperKeys(rates[..i])
    {
      assert rates[..i + 1][..i] == rates[..i];
      upperRates := upperRates[Upper(rates[i].0) := rates[i].1];
      i := i + 1;
    }
    assert rates[..|rates|] == rates;
    upperRates := upperRates[PrimaryBase := 1.0];
  }

  /** `getLiveRates`: the primary source first, the secondary only when the
      primary is unusable; None once both are. The statement form of the
      async function (one request after the other, each awaited), proved
      equal to its specification `LiveRates`. */
  method GetLiveRates(p: Fetched<PrimaryDoc>, s: Fetched<SecondaryDoc>)
    returns (rates: Option<RateTable>, queried: seq<RateSource>)
    ensures Acquisition(rates, queried) == LiveRates(p, s)
  {
    queried := [Primary];
    if p.Loaded? && p.doc.usd.Some? {
      var upperRates := UpperCaseRates(p.doc.usd.value);
      return Some(upperRates), queried;
    }
    queried := queried + [Secondary];
    if s.Loaded? && s.doc.rates.Some? {
      var r := s.doc.rates.value;
      r := r[SecondaryBaseKey(s.doc) := 1.0];
      return Some(r), queried;
    }
    rates := None;
  }
}
