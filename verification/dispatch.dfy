/** The `wms(options, params)` entry point: it normalises the parameters and forwards them, by
    the case-insensitive `request` parameter, to one of the three handlers. */
module Dispatch {
  import opened Wrappers
  import opened Js
  import opened JsObject
  import opened Model
  import opened Errors
  import opened Params
  import Capabilities
  import WmsMap
  import Tile

  datatype Route = CapabilitiesRoute | MapRoute | TileRoute

  /** `normalizeObj(params).request.toLowerCase()` chooses the handler; a missing `request`
      fails on `toLowerCase`, and any other value is an unknown request. */
  function RouteOf(raw: Params): (r: Result<Route, Failure>)
    ensures LastValue(raw, "request").None? <==> r == Err(UndefinedToLowerCase)
    ensures r == Ok(CapabilitiesRoute) <==>
      LastValue(raw, "request").Some? && ToLower(LastValue(raw, "request").value) == "getcapabilities"
    ensures r == Ok(MapRoute) <==>
      LastValue(raw, "request").Some? && ToLower(LastValue(raw, "request").value) == "getmap"
    ensures r == Ok(TileRoute) <==>
      LastValue(raw, "request").Some? && ToLower(LastValue(raw, "request").value) == "gettile"
    ensures r.Err? && LastValue(raw, "request").Some? ==> r.error == Failure(PlainError, "unknown/invalid request")
  {
    NormalizeGet(raw, "request");
    match Get(Normalize(raw), "request")
    case None => Err(UndefinedToLowerCase)
    case Some(q) =>
      var q' := ToLower(q);
      if q' == "getcapabilities" then Ok(CapabilitiesRoute)
      else if q' == "getmap" then Ok(MapRoute)
      else if q' == "gettile" then Ok(TileRoute)
      else Err(Failure(PlainError, "unknown/invalid request"))
  }

  /** `wms(options, params)`. The handler receives the normalised parameters, which it
      normalises again; since normalising is idempotent this is the same as handing it the
      parameters as given. An unroutable request throws synchronously, before any handler runs;
      that throw is written as a `Rejected` outcome. */
  function Wms(sup: Supplied, raw: Params, be: Backend, st: Store): (r: Outcome)
    ensures RouteOf(raw).Err? ==> r == Rejected(RouteOf(raw).error, st)
    ensures RouteOf(raw) == Ok(CapabilitiesRoute) ==> r == Capabilities.GetCapabilities(sup, raw, be, st)
    ensures RouteOf(raw) == Ok(MapRoute) ==> r == WmsMap.GetMap(sup, raw, be, st)
    ensures RouteOf(raw) == Ok(TileRoute) ==> r == Tile.GetTile(sup, raw, be, st)
  {
    var params := Normalize(raw);
    NormalizeIdempotent(raw);
    match RouteOf(raw)
    case Err(f) => Rejected(f, st)
    case Ok(CapabilitiesRoute) => Capabilities.GetCapabilities(sup, params, be, st)
    case Ok(MapRoute) => WmsMap.GetMap(sup, params, be, st)
    case Ok(TileRoute) => Tile.GetTile(sup, params, be, st)
  }

  /** Whatever the route, the entry point keeps the exception memo sound and answers with one of
      the handlers' status codes; a rejection leaves both memos as they were. */
  lemma WmsKeepsMemo(sup: Supplied, raw: Params, be: Backend, st: Store)
    ensures var r := Wms(sup, raw, be, st);
      && (r.Rejected? ==> r.store == st)
      && Extends(st, r.store)
      && (MemoSound(be, st.errors) ==> MemoSound(be, r.store.errors))
      && (r.Replied? ==> r.resp.code in {200, 400, 401, 404, 500})
  {
    match RouteOf(raw)
    case Err(_) =>
    case Ok(CapabilitiesRoute) =>
      var r := Capabilities.GetCapabilities(sup, raw, be, st);
      assert Wms(sup, raw, be, st) == r;
    case Ok(MapRoute) =>
      var r := WmsMap.GetMap(sup, raw, be, st);
      assert WmsMap.Keeps(be, st, r);
      assert Wms(sup, raw, be, st) == r;
    case Ok(TileRoute) =>
      var r := Tile.GetTile(sup, raw, be, st);
      assert Tile.Keeps(be, st, r);
      assert Wms(sup, raw, be, st) == r;
  }

  /** The request name is matched without regard to the case of its key or its value. */
  lemma RouteCaseInsensitive(raw1: Params, raw2: Params)
    requires LastValue(raw1, "request").Some? && LastValue(raw2, "request").Some?
    requires ToLower(LastValue(raw1, "request").value) == ToLower(LastValue(raw2, "request").value)
    ensures RouteOf(raw1) == RouteOf(raw2)
  {
  }
}
