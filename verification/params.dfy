/** Request parameters after `normalizeObj`, and the required-parameter scan shared by the
    GetTile and GetMap handlers (lib/tile.js, lib/map.js). */
module Params {
  import opened Wrappers
  import opened Js
  import opened JsObject
  import opened Errors

  /** A query-string object: every value a string. */
  type Params = Obj<string>

  /** `params[k]`, or `''` when absent; used only where the key is known to be present. */
  function Value(p: Params, k: string): (r: string)
    ensures Get(p, k) == Some(r) || (Get(p, k).None? && r == "")
  {
    match Get(p, k)
    case Some(v) => v
    case None => ""
  }

  predicate Present(p: Params, k: string)
  {
    Truthy(Get(p, k))
  }

  predicate AllPresent(p: Params, ks: seq<string>)
  {
    forall j :: 0 <= j < |ks| ==> Present(p, ks[j])
  }

  /** The position of the first required key whose value is missing or empty. */
  function FirstMissing(p: Params, required: seq<string>): (r: Option<nat>)
    ensures r.Some? ==> r.value < |required| && !Present(p, required[r.value]) && AllPresent(p, required[..r.value])
    ensures r.None? <==> AllPresent(p, required)
  {
    if |required| == 0 then None
    else if !Present(p, required[0]) then Some(0)
    else match FirstMissing(p, required[1..])
      case None => None
      case Some(i) =>
        assert required[1..][..i] == required[1..i + 1];
        Some(i + 1)
  }

  /** `missing required parameter: ${param}`, located at the parameter. */
  function MissingException(k: string): (ex: Exception)
    ensures ex.code == "MissingParameterValue" && ex.locator == Some(k)
  {
    Exception("missing required parameter: " + k, "MissingParameterValue", Some(k))
  }

  /** The first missing key is the one reported, whatever comes after it. */
  lemma {:induction false} FirstMissingAt(p: Params, required: seq<string>, i: nat)
    requires i < |required| && !Present(p, required[i]) && AllPresent(p, required[..i])
    ensures FirstMissing(p, required) == Some(i)
    decreases i
  {
    if i > 0 {
      assert required[..i][0] == required[0];
      assert required[1..][..i - 1] == required[..i][1..];
      FirstMissingAt(p, required[1..], i - 1);
    }
  }
}
