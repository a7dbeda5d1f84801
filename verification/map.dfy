/** The WMS GetMap handler (lib/map.js), the GetMap operation of section 7.3 of OGC WMS 1.3.0:
    the parameter phase (required parameters with the `crs` alias, the SRS allow-list, scale,
    background), the layer, the zoom clamp, and the envelope of the stitched, resized image. */
module WmsMap {
  import opened Wrappers
  import opened Js
  import opened JsObject
  import opened Text
  import opened Numbers
  import opened Model
  import opened Errors
  import opened Params
  import opened Blank
  import opened MapLayers
  import opened Lookup

  const Required: seq<string> := ["layers", "bbox", "width", "height", "format", "srs"]

  const AllowedSrs: seq<string> := ["epsg:900913", "epsg:3857", "epsg:4326"]

  /** `crs` stands in for a missing or empty `srs`. */
  function Alias(p: Params): (r: Params)
    ensures Present(p, "crs") && !Present(p, "srs") ==> Get(r, "srs") == Get(p, "crs")
    ensures !(Present(p, "crs") && !Present(p, "srs")) ==> r == p
    ensures forall k :: k != "srs" ==> Get(r, k) == Get(p, k)
  {
    PutGet(p, "srs", Value(p, "crs"));
    if Present(p, "crs") && !Present(p, "srs") then Put(p, "srs", Value(p, "crs")) else p
  }

  /** `invalid srs: ${srs}`, without locator. */
  function InvalidSrs(srs: string): (ex: Exception)
    ensures ex.code == "InvalidSRS" && ex.locator.None?
  {
    Exception("invalid srs: " + srs, "InvalidSRS", None)
  }

  /** `Math.round(a / b)`: the integer nearest to the quotient, halves rounded up, that is
      `floor((2a + b) / 2b)`; the division is carried out on a positive divisor, where
      Dafny's `/` is the floor. */
  function RoundQuotient(a: int, b: int): (k: int)
    requires b != 0
    ensures b > 0 ==> (2 * k - 1) * b <= 2 * a < (2 * k + 1) * b
    ensures b < 0 ==> (2 * k - 1) * b >= 2 * a > (2 * k + 1) * b
  {
    var n := if b > 0 then 2 * a + b else -(2 * a + b);
    var m := if b > 0 then 2 * b else -2 * b;
    var q := n / m;
    assert q * m <= n < q * m + m;
    assert (2 * q - 1) * b == 2 * q * b - b && (2 * q + 1) * b == 2 * q * b + b;
    q
  }

  /** The resolution text `scale` is computed from: `params.dpi || params.map_resolution`. */
  function ResolutionText(p: Params): string
  {
    if Present(p, "dpi") then Value(p, "dpi") else Value(p, "map_resolution")
  }

  /** The `scale` option: 1 without `dpi` or `map_resolution`; otherwise, of the first of
      the two that is set, `Math.round(72 / parseInt(v, 10)) || 1` — so a NaN or a zero
      rounding gives 1, a zero resolution gives `Infinity`, and a negative zero (`"-0"`)
      gives `-Infinity`, which is truthy and kept. */
  function Scale(p: Params): (r: Num)
    ensures !Present(p, "dpi") && !Present(p, "map_resolution") ==> r == Finite(1)
    ensures r != NaN && r != Finite(0)
    ensures r == NegInf <==>
      (Present(p, "dpi") || Present(p, "map_resolution")) && ParsesToNegativeZero(ResolutionText(p))
    ensures r == PosInf <==>
      (Present(p, "dpi") || Present(p, "map_resolution"))
      && ParseInt(ResolutionText(p)) == Some(0) && !ParsesToNegativeZero(ResolutionText(p))
  {
    if !Present(p, "dpi") && !Present(p, "map_resolution") then Finite(1)
    else
      var v := ResolutionText(p);
      match ParseInt(v)
      case None => Finite(1)
      case Some(d) =>
        if d == 0 then (if ParsesToNegativeZero(v) then NegInf else PosInf)
        else
          var k := RoundQuotient(72, d);
          Finite(if k == 0 then 1 else k)
  }

  /** For a positive resolution the scale is at least 1, and it is the integer nearest to
      `72 / d` (halves up) whenever that is at least one half. */
  lemma ScaleOfPositive(p: Params, d: int)
    requires Present(p, "dpi") || Present(p, "map_resolution")
    requires ParseInt(ResolutionText(p)) == Some(d)
    requires d > 0
    ensures Scale(p).Finite? && Scale(p).n >= 1
    ensures d <= 144 ==> (2 * Scale(p).n - 1) * d <= 144 < (2 * Scale(p).n + 1) * d
    ensures d > 144 ==> Scale(p) == Finite(1)
  {
    RoundedResolution(d);
    assert Scale(p) == Finite(var k := RoundQuotient(72, d); if k == 0 then 1 else k);
  }

  /** `Math.round(72 / d)` for a positive `d` is at least 1 up to `d = 144` and 0 beyond. */
  lemma RoundedResolution(d: int)
    requires d > 0
    ensures var k := RoundQuotient(72, d);
      && k >= 0
      && (d <= 144 ==> k >= 1 && (2 * k - 1) * d <= 144 < (2 * k + 1) * d)
      && (d > 144 ==> k == 0)
  {
    var k := RoundQuotient(72, d);
    MulSign(2 * k + 1, d);
    MulSign(2 * k - 1, d);
  }

  lemma MulSign(a: int, b: int)
    requires b > 0
    ensures a <= 0 ==> a * b <= 0
    ensures a >= 1 ==> a * b >= b
  {
  }

  /** A resolution of `"-0"` is parsed as negative zero, and `72 / -0` rounds to `-Infinity`. */
  lemma NegativeZeroResolution(p: Params)
    requires Present(p, "dpi") && Value(p, "dpi") == "-0"
    ensures Scale(p) == NegInf
  {
    var s := "-0";
    assert TrimStart(s) == s by {
      assert !IsJsSpace(s[0]);
    }
    assert s[1..] == "0";
    assert DigitPrefix("0") == "0" by {
      assert "0"[1..] == "";
    }
    assert DigitsValue("0") == 0 by {
      assert "0"[..0] == "";
    }
    assert ParsesToNegativeZero(s);
  }

  /** The background of blank tiles: `bgcolor` (default `'0xffffff'`) lower-cased, or
      transparent exactly when `transparent` lower-cases to `'true'` and the format maps to
      png. A missing `transparent` makes `.toLowerCase()` throw. */
  function Background(p: Params, format: Option<string>): (r: Result<Background, Failure>)
    ensures r.Err? <==> Get(p, "transparent").None?
    ensures r.Err? ==> r.error == UndefinedToLowerCase
    ensures r == Ok(Transparent) <==> Get(p, "transparent").Some? && ToLower(Get(p, "transparent").value) == "true" && format == Some("png")
    ensures r.Ok? && !r.value.Transparent? ==>
      r.value == Color(ToLower(if Present(p, "bgcolor") then Value(p, "bgcolor") else "0xffffff"))
      && IsLowerCase(r.value.text)
  {
    var bg := ToLower(if Present(p, "bgcolor") then Value(p, "bgcolor") else "0xffffff");
    ToLowerProperties(if Present(p, "bgcolor") then Value(p, "bgcolor") else "0xffffff");
    match Get(p, "transparent")
    case None => Err(UndefinedToLowerCase)
    case Some(t) => if ToLower(t) == "true" && format == Some("png") then Ok(Transparent) else Ok(Color(bg))
  }

  /** `getZoom`'s clamp of the estimated zoom `adjusted` into `[minzoom, maxzoom]`, missing
      bounds defaulting to 0 and 20, with `Math.max`/`Math.min` semantics: NaN propagates. */
  function GetZoom(adjusted: Num, minzoom: Option<int>, maxzoom: Option<int>): (r: Num)
    ensures var lo := if minzoom.Some? then minzoom.value else 0;
      var hi := if maxzoom.Some? then maxzoom.value else 20;
      && (adjusted == NaN <==> r == NaN)
      && (adjusted != NaN ==> r.Finite? && r.n >= lo && (lo <= hi ==> r.n <= hi))
      && (adjusted.Finite? && lo <= adjusted.n <= hi ==> r == adjusted)
      && (adjusted == PosInf && lo <= hi ==> r == Finite(hi))
      && (adjusted == NegInf ==> r == Finite(lo))
  {
    var lo := if minzoom.Some? then minzoom.value else 0;
    var hi := if maxzoom.Some? then maxzoom.value else 20;
    var m := match adjusted
      case NaN => NaN
      case PosInf => Finite(hi)
      case NegInf => NegInf
      case Finite(a) => Finite(if a < hi then a else hi);
    match m
    case NaN => NaN
    case NegInf => Finite(lo)
    case PosInf => Finite(lo)
    case Finite(a) => Finite(if a > lo then a else lo)
  }

  /** abaculus fetching every tile address in order through `getTile`, the blank memo threaded
      from one tile to the next; the first failure stops the stitch. */
  function FetchGrid(ml: MapLayer, bg: Background, format: Option<string>, addrs: seq<(int, int, int)>,
                     be: Backend, blanks: map<string, Bytes>): (r: (Result<seq<TileReply>, Thrown>, map<string, Bytes>))
    requires Drawable(ml)
    ensures forall k :: k in blanks ==> k in r.1 && r.1[k] == blanks[k]
    ensures r.0.Ok? ==> |r.0.value| == |addrs|
    ensures |addrs| > 0 ==>
      var first := MapTile(ml, bg, format, addrs[0].0, addrs[0].1, addrs[0].2, be, blanks);
      first.0.Err? ==> r == (Err(first.0.error), first.1)
    decreases |addrs|
  {
    if |addrs| == 0 then (Ok([]), blanks)
    else
      var (first, b1) := MapTile(ml, bg, format, addrs[0].0, addrs[0].1, addrs[0].2, be, blanks);
      match first
      case Err(e) => (Err(e), b1)
      case Ok(t) =>
        var (rest, b2) := FetchGrid(ml, bg, format, addrs[1..], be, b1);
        match rest
        case Err(e) => (Err(e), b2)
        case Ok(ts) => (Ok([t] + ts), b2)
  }

  /** Stitching, resizing and the envelope; any failure there is an unknown error. */
  function Finish(tiles: Result<seq<TileReply>, Thrown>, zoom: Num, scale: Num, format: Option<string>,
                  width: Option<int>, height: Option<int>, be: Backend, st: Store): (r: Outcome)
    ensures r.Replied? && (r.resp.code == 200 || r.resp.code == 500)
    ensures Extends(st, r.store) && r.store.blanks == st.blanks
    ensures MemoSound(be, st.errors) ==> MemoSound(be, r.store.errors)
    ensures r.resp.code == 200 ==>
      && format.Some?
      && Get(r.resp.headers, "content-type") == Some(HStr(be.lookup(format.value)))
      && Get(r.resp.headers, "content-length") == Some(HNum(|r.resp.data|))
      && Get(r.resp.headers, "etag") == Some(HStr(be.etag(r.resp.data)))
  {
    match tiles
    case Err(e) => UnknownOutcome(e, be, st)
    case Ok(ts) =>
      match be.stitch(ts, zoom, scale, format)
      case Err(e) => UnknownOutcome(e, be, st)
      case Ok(image) =>
        match be.resize(image, format, width, height)
        case Err(e) => UnknownOutcome(e, be, st)
        case Ok(out) =>
          if format.None? then UnknownOutcome(ErrorValue(be, "Cannot read properties of undefined (reading 'replace')"), be, st)
          else Replied(Response(out, DataHeaders(be.lookup(format.value), out, be), 200), st)
  }

  /** Everything after the layer is known: the zoom, the tile grid and its tiles, then
      stitching and resizing. */
  function Draw(ml: MapLayer, p: Params, srs: string, scale: Num, format: Option<string>, bg: Background,
                be: Backend, st: Store): (r: Outcome)
    requires Drawable(ml)
    ensures r.Replied? && (r.resp.code == 200 || r.resp.code == 500)
    ensures Extends(st, r.store)
    ensures MemoSound(be, st.errors) ==> MemoSound(be, r.store.errors)
    ensures r.resp.code == 200 ==>
      && format.Some?
      && Get(r.resp.headers, "content-type") == Some(HStr(be.lookup(format.value)))
      && Get(r.resp.headers, "content-length") == Some(HNum(|r.resp.data|))
      && Get(r.resp.headers, "etag") == Some(HStr(be.etag(r.resp.data)))
  {
    var width := ParseInt(Value(p, "width"));
    var height := ParseInt(Value(p, "height"));
    var range := RangeOf(ml);
    var zoom := GetZoom(be.zoomEstimate(Value(p, "bbox"), srs, width, height, range.hi), Some(range.lo), Some(range.hi));
    var (tiles, blanks') := FetchGrid(ml, bg, format, be.grid(Value(p, "bbox"), srs, zoom, scale), be, st.blanks);
    var st' := st.(blanks := blanks');
    var r := Finish(tiles, zoom, scale, format, width, height, be, st');
    ExtendsTransitive(st, st', r.store);
    r
  }

  /** The handler after `normalizeObj`, for an awaited, truthy layer configuration: the
      required parameters (after the `crs` alias) and the SRS. */
  function MapFor(cat: Catalog, params: Params, be: Backend, st: Store): (r: Outcome)
  {
    var p := Alias(params);
    match FirstMissing(p, Required)
    case Some(i) => ErrorOutcome(MissingException(Required[i]), be, st)
    case None =>
      var srs := ToLower(Value(p, "srs"));
      if srs !in AllowedSrs then ErrorOutcome(InvalidSrs(srs), be, st)
      else Prepare(cat, p, srs, be, st)
  }

  /** Scale, format and background, then the layer. */
  function Prepare(cat: Catalog, p: Params, srs: string, be: Backend, st: Store): (r: Outcome)
  {
    var format := be.extension(Value(p, "format"));
    match Background(p, format)
    case Err(f) => Rejected(f, st)
    case Ok(bg) =>
      match MakeLayer(cat, Value(p, "layers"))
      case Err(f) => Rejected(f, st)
      case Ok(None) => ErrorOutcome(NoSuchLayerParam(p), be, st)
      case Ok(Some(ml)) =>
        if ml.Single? && Hidden(ml.layer) then Replied(NotAuthorized, st)
        else if !Drawable(ml) then Rejected(Failure(TypeError, "must include getTile function"), st)
        else Draw(ml, p, srs, Scale(p), format, bg, be, st)
  }

  /** `No such layer: ${params.layer}` — the message reads the singular `layer` parameter,
      which a GetMap request does not normally carry. */
  function NoSuchLayerParam(p: Params): (ex: Exception)
    ensures ex.code == "InvalidParameterValue" && ex.locator == Some("LAYER")
  {
    Exception("No such layer: " + Show(Get(p, "layer")), "InvalidParameterValue", Some("LAYER"))
  }

  /** The 401 envelope for a single layer with `viewable === false`. */
  const NotAuthorized: Response := Response(Utf8("not authorized"), [], 401)

  /** `getMap(layer, params)`. */
  function GetMap(sup: Supplied, raw: Params, be: Backend, st: Store): (r: Outcome)
    ensures Keeps(be, st, r)
  {
    match sup
    case Failed(e) => UnknownOutcome(e, be, st)
    case Resolved(None) => Rejected(Failure(TypeError, "must include layer"), st)
    case Resolved(Some(cat)) => MapKeeps(cat, Normalize(raw), be, st); MapFor(cat, Normalize(raw), be, st)
  }

  lemma LiteralsSlashFree(p: Params, i: nat, srs: string)
    requires i < |Required|
    ensures SlashFree(MissingException(Required[i])) && SlashFree(InvalidSrs(srs)) && SlashFree(NoSuchLayerParam(p))
  {
    assert '/' !in "MissingParameterValue" && '/' !in "InvalidSRS" && '/' !in "InvalidParameterValue";
    assert '/' !in "LAYER";
    assert forall j :: 0 <= j < |Required| ==> '/' !in Required[j];
  }

  /** What every outcome of the handler keeps. */
  ghost predicate Keeps(be: Backend, st: Store, r: Outcome)
  {
    && Extends(st, r.store)
    && (r.Replied? ==> r.resp.code in {200, 400, 401, 500})
    && (r.Rejected? ==> r.store == st)
    && (MemoSound(be, st.errors) ==> MemoSound(be, r.store.errors))
  }

  lemma ErrorKeeps(ex: Exception, be: Backend, st: Store)
    requires SlashFree(ex)
    ensures Keeps(be, st, ErrorOutcome(ex, be, st))
  {
  }

  lemma PrepareKeeps(cat: Catalog, p: Params, srs: string, be: Backend, st: Store)
    ensures Keeps(be, st, Prepare(cat, p, srs, be, st))
  {
    var format := be.extension(Value(p, "format"));
    match Background(p, format)
    case Err(f) =>
    case Ok(bg) =>
      match MakeLayer(cat, Value(p, "layers"))
      case Err(f) =>
      case Ok(None) =>
        LiteralsSlashFree(p, 0, srs);
        ErrorKeeps(NoSuchLayerParam(p), be, st);
      case Ok(Some(ml)) =>
        if !(ml.Single? && Hidden(ml.layer)) && Drawable(ml) {
          var r := Draw(ml, p, srs, Scale(p), format, bg, be, st);
          assert Keeps(be, st, r);
        }
  }

  lemma MapKeeps(cat: Catalog, params: Params, be: Backend, st: Store)
    ensures Keeps(be, st, MapFor(cat, params, be, st))
  {
    var p := Alias(params);
    match FirstMissing(p, Required)
    case Some(i) =>
      LiteralsSlashFree(p, i, "");
      ErrorKeeps(MissingException(Required[i]), be, st);
    case None =>
      var srs := ToLower(Value(p, "srs"));
      LiteralsSlashFree(p, 0, srs);
      if srs !in AllowedSrs {
        ErrorKeeps(InvalidSrs(srs), be, st);
      } else {
        PrepareKeeps(cat, p, srs, be, st);
      }
  }

  /** The first missing or empty parameter, after the `crs` alias, is reported with
      `MissingParameterValue` at that parameter. */
  lemma MapMissingParameter(cat: Catalog, raw: Params, i: nat, be: Backend, st: Store)
    requires i < |Required|
    requires var p := Alias(Normalize(raw)); !Present(p, Required[i]) && AllPresent(p, Required[..i])
    ensures GetMap(Resolved(Some(cat)), raw, be, st) == ErrorOutcome(MissingException(Required[i]), be, st)
  {
    var params := Normalize(raw);
    FirstMissingAt(Alias(params), Required, i);
    assert GetMap(Resolved(Some(cat)), raw, be, st) == MapFor(cat, params, be, st);
  }

  /** A `crs` alone satisfies the `srs` requirement. */
  lemma CrsSuffices(params: Params)
    requires Present(params, "crs") && !Present(params, "srs")
    ensures Present(Alias(params), "srs") && Value(Alias(params), "srs") == Value(params, "crs")
  {
  }

  /** With every parameter present, an SRS outside the allow-list (after lower-casing) is
      reported as `InvalidSRS` without locator, and a missing `transparent` throws. */
  lemma MapSrsAndTransparency(cat: Catalog, raw: Params, be: Backend, st: Store)
    requires AllPresent(Alias(Normalize(raw)), Required)
    ensures var p := Alias(Normalize(raw));
      var srs := ToLower(Value(p, "srs"));
      var r := GetMap(Resolved(Some(cat)), raw, be, st);
      && (srs !in AllowedSrs ==> r == ErrorOutcome(InvalidSrs(srs), be, st))
      && (srs in AllowedSrs && Get(p, "transparent").None? ==> r == Rejected(UndefinedToLowerCase, st))
  {
    var p := Alias(Normalize(raw));
    assert FirstMissing(p, Required).None?;
  }

  /** A comma-separated list naming a layer that is not viewable makes the layer `false`:
      the request gets the 400 `LAYER` report, not the 401 a single hidden layer gets. */
  lemma HiddenMemberIsUnknown(cat: Catalog, names: seq<string>, i: nat)
    requires i < |names|
    requires Find(cat, names[i]).Found? && Hidden(Find(cat, names[i]).layer)
    requires forall j :: 0 <= j < |names| ==> !Find(cat, names[j]).Raises?
    ensures MakeComposite(cat, names) == Ok(None)
  {
  }

  /** The layer outcomes once the parameters are accepted. */
  lemma MapLayerChecks(cat: Catalog, p: Params, srs: string, be: Backend, st: Store)
    requires Background(p, be.extension(Value(p, "format"))).Ok?
    ensures var r := Prepare(cat, p, srs, be, st);
      match MakeLayer(cat, Value(p, "layers"))
      case Err(f) => r == Rejected(f, st)
      case Ok(None) => r == ErrorOutcome(NoSuchLayerParam(p), be, st)
      case Ok(Some(ml)) =>
        && (ml.Single? && Hidden(ml.layer) ==> r == Replied(NotAuthorized, st))
        && (ml.Single? && !Hidden(ml.layer) && ml.layer.tiles.None? ==> r.Rejected? && r.failure.kind == TypeError)
  {
  }
}
