/** Parsed JSON objects as the core sees them: member names with numeric
    values, in the order `Object.keys` lists them. */
module Json {
  import opened Wrappers

  predicate DistinctKeys(e: seq<(string, real)>) {
    forall i, j :: 0 <= i < j < |e| ==> e[i].0 != e[j].0
  }

  /** A JSON object with numeric members; member names are distinct. */
  type Object = e: seq<(string, real)> | DistinctKeys(e) witness []

  /** `Object.keys(o)`. */
  function Keys(o: seq<(string, real)>): (ks: seq<string>)
    ensures |ks| == |o|
    ensures forall i :: 0 <= i < |o| ==> ks[i] == o[i].0
  {
    seq(|o|, i requires 0 <= i < |o| => o[i].0)
  }

  /** `o[k]`: the value of member `k`, None (undefined) when there is none. */
  function Get(o: Object, k: string): (r: Option<real>)
    ensures r.Some? <==> k in Keys(o)
    ensures forall i :: 0 <= i < |o| && o[i].0 == k ==> r == Some(o[i].1)
  {
    if o == [] then None
    else if o[0].0 == k then Some(o[0].1)
    else
      assert Keys(o) == [o[0].0] + Keys(o[1..]);
      Get(o[1..], k)
  }
}
