/** The WMTS GetTile handler (lib/tile.js), the GetTile operation of section 7.2 of OGC WMTS
    1.0.0: required parameters, layer lookup, zoom/row/column parsing and range check, the fetch,
    and pass-through or transcoding of the tile. */
module Tile {
  import opened Wrappers
  import opened Js
  import opened JsObject
  import opened Text
  import opened Numbers
  import opened Model
  import opened Errors
  import opened Lookup
  import opened TileCheck
  import opened Params

  /** The parameters checked, in order. */
  const Required: seq<string> := ["layer", "tilematrix", "tilerow", "tilecol", "format"]

  /** The 401 envelope for a layer with `viewable === false`. */
  const NotAuthorized: Response := Response(Utf8("not authorized"), [], 401)

  /** The text the zoom is parsed from: the piece after the first `':'` when there is one
      (`'EPSG:3857:5'` reads `'3857'`), otherwise the whole `tilematrix`. */
  function ZoomText(tm: string): (r: string)
    ensures !Contains(tm, ":") ==> r == tm
  {
    if Contains(tm, ":") then SplitPresent(tm, ":"); Split(tm, ":")[1] else tm
  }

  /** With a colon-free prefix, the zoom text is what follows the first colon up to the next. */
  lemma ZoomTextOf(a: string, b: string)
    requires ':' !in a
    ensures ZoomText(a + ":" + b) == Split(b, ":")[0]
    ensures ':' !in b ==> ZoomText(a + ":" + b) == b
  {
    assert ":"[0] == ':';
    SplitAfter(a, ":", b);
    if ':' !in b {
      SplitAbsent(b, ":");
    }
  }

  /** A parsed tile address. */
  datatype Address = Address(z: int, x: int, y: int)

  /** The report `checkXYZ` makes for a value that parsed to NaN. */
  function NaNException(name: string, orig: string): (ex: Exception)
    ensures ex.code == "InvalidParameterValue" && ex.locator == Some(name)
  {
    Exception("Invalid paramter value for " + name + ": " + orig, "InvalidParameterValue", Some(name))
  }

  /** `parseInt` of the three coordinates followed by `checkXYZ` for zoom, row and column in
      that order: only the first NaN is reported. */
  function ParseAddress(tm: string, row: string, col: string): (r: Result<Address, Exception>)
    ensures r.Ok? <==> ParseInt(ZoomText(tm)).Some? && ParseInt(row).Some? && ParseInt(col).Some?
    ensures r.Ok? ==> r.value == Address(ParseInt(ZoomText(tm)).value, ParseInt(col).value, ParseInt(row).value)
    ensures ParseInt(ZoomText(tm)).None? ==> r == Err(NaNException("TILEMATRIX", tm))
    ensures ParseInt(ZoomText(tm)).Some? && ParseInt(row).None? ==> r == Err(NaNException("TILEROW", row))
    ensures ParseInt(ZoomText(tm)).Some? && ParseInt(row).Some? && ParseInt(col).None? ==>
      r == Err(NaNException("TILECOL", col))
  {
    match (ParseInt(ZoomText(tm)), ParseInt(row), ParseInt(col))
    case (None, _, _) => Err(NaNException("TILEMATRIX", tm))
    case (Some(_), None, _) => Err(NaNException("TILEROW", row))
    case (Some(_), Some(_), None) => Err(NaNException("TILECOL", col))
    case (Some(z), Some(y), Some(x)) => Ok(Address(z, x, y))
  }

  /** `${tileError} is out of range`, located at the axis `checkTile` named. */
  function OutOfRange(axis: Axis): (ex: Exception)
    ensures ex.code == "TileOutOfRange" && ex.locator == Some(AxisName(axis))
  {
    Exception(AxisName(axis) + " is out of range", "TileOutOfRange", Some(AxisName(axis)))
  }

  const Unavailable: Exception := Exception("tile is not available", "TileOutOfRange", None)

  /** The bytes of a tile: a string is UTF-8 encoded, a buffer is kept. */
  function Payload(d: TileData): (r: Bytes)
    ensures d.Binary? ==> r == d.b
    ensures d.Text? ==> r == Utf8(d.s)
  {
    match d
    case Text(s) => Utf8(s)
    case Binary(b) => b
  }

  /** `mime.extension(headers['content-type'])` for a string content type. */
  function ReturnedFormat(be: Backend, h: Headers): Option<string>
  {
    var ct: Option<HeaderValue> := Get(h, "content-type");
    if ct.Some? && ct.value.HStr? then be.extension(ct.value.s) else None
  }

  /** The pass-through headers: content-length and etag are filled in only when falsy. */
  function Filled(h: Headers, data: Bytes, be: Backend): (r: Headers)
    ensures Get(r, "content-length") ==
      if HeaderTruthy(Get(h, "content-length")) then Get(h, "content-length") else Some(HNum(|data|))
    ensures Get(r, "etag") ==
      if HeaderTruthy(Get(h, "etag")) then Get(h, "etag") else Some(HStr(be.etag(data)))
    ensures forall k :: k != "content-length" && k != "etag" ==> Get(r, k) == Get(h, k)
  {
    var h1 := if HeaderTruthy(Get(h, "content-length")) then h else Put(h, "content-length", HNum(|data|));
    PutGet(h, "content-length", HNum(|data|));
    var h2 := if HeaderTruthy(Get(h1, "etag")) then h1 else Put(h1, "etag", HStr(be.etag(data)));
    PutGet(h1, "etag", HStr(be.etag(data)));
    h2
  }

  /** The transcoded headers: content type of the desired format, length of the new bytes, and
      the digest of the ORIGINAL bytes. */
  function Recoded(h: Headers, out: Bytes, original: Bytes, desired: string, be: Backend): (r: Headers)
    ensures Get(r, "content-type") == Some(HStr(be.lookup(desired)))
    ensures Get(r, "content-length") == Some(HNum(|out|))
    ensures Get(r, "etag") == Some(HStr(be.etag(original)))
    ensures forall k :: k != "content-type" && k != "content-length" && k != "etag" ==> Get(r, k) == Get(h, k)
  {
    var h1 := Put(h, "content-type", HStr(be.lookup(desired)));
    PutGet(h, "content-type", HStr(be.lookup(desired)));
    var h2 := Put(h1, "content-length", HNum(|out|));
    PutGet(h1, "content-length", HNum(|out|));
    var h3 := Put(h2, "etag", HStr(be.etag(original)));
    PutGet(h2, "etag", HStr(be.etag(original)));
    h3
  }

  /** Response shaping for a fetched tile: the bytes pass through unchanged when the tile's
      own content type maps to the desired format, and are transcoded otherwise; a transcoding
      failure is an unknown error. */
  function Shape(reply: TileReply, desired: string, be: Backend, st: Store): (r: Outcome)
    ensures r.Replied? && r.store.blanks == st.blanks
    ensures ReturnedFormat(be, Normalize(reply.headers)) == Some(desired) ==>
      r == Replied(Response(Payload(reply.data), Filled(Normalize(reply.headers), Payload(reply.data), be), 200), st)
    ensures ReturnedFormat(be, Normalize(reply.headers)) != Some(desired) ==>
      match be.transcode(Payload(reply.data), desired)
      case Ok(out) =>
        r == Replied(Response(out, Recoded(Normalize(reply.headers), out, Payload(reply.data), desired, be), 200), st)
      case Err(e) => r == UnknownOutcome(e, be, st)
  {
    var data := Payload(reply.data);
    var headers := Normalize(reply.headers);
    if ReturnedFormat(be, headers) == Some(desired) then
      Replied(Response(data, Filled(headers, data, be), 200), st)
    else
      match be.transcode(data, desired)
      case Err(e) => UnknownOutcome(e, be, st)
      case Ok(out) => Replied(Response(out, Recoded(headers, out, data, desired, be), 200), st)
  }

  /** The fetch through the layer's `getTile`: a failure becomes the 404 `TileOutOfRange`
      report without locator; a layer without `getTile` makes `promisify` throw. */
  function Fetch(layer: Layer, desired: string, a: Address, be: Backend, st: Store): (r: Outcome)
    ensures layer.tiles.None? ==> r.Rejected? && r.failure.kind == TypeError && r.store == st
    ensures layer.tiles.Some? && be.fetch(layer.tiles.value, a.z, a.x, a.y).Err? ==>
      r.Replied? && r.resp.code == 404
      && r.resp.data == ErrorOutcome(Unavailable, be, st).resp.data
      && r.store == ErrorOutcome(Unavailable, be, st).store
    ensures layer.tiles.Some? && be.fetch(layer.tiles.value, a.z, a.x, a.y).Ok? ==>
      r == Shape(be.fetch(layer.tiles.value, a.z, a.x, a.y).value, desired, be, st)
  {
    match layer.tiles
    case None => Rejected(Failure(TypeError, "expecting a function but got [object Undefined]"), st)
    case Some(t) =>
      match be.fetch(t, a.z, a.x, a.y)
      case Err(_) =>
        var o := ErrorOutcome(Unavailable, be, st);
        Replied(o.resp.(code := 404), o.store)
      case Ok(reply) => Shape(reply, desired, be, st)
  }

  /** `No such layer: ${name}`, located at `LAYER`. */
  function NoSuchLayer(name: string): (ex: Exception)
    ensures ex.code == "InvalidParameterValue" && ex.locator == Some("LAYER")
  {
    Exception("No such layer: " + name, "InvalidParameterValue", Some("LAYER"))
  }

  /** The report for a format `mime.extension` does not know (the typo is the server's). */
  function BadFormat(fmt: string): (ex: Exception)
    ensures ex.code == "InvalidParameterValue" && ex.locator == Some("FORMAT")
  {
    Exception("Invalid paramter value for FORMAT: " + fmt, "InvalidParameterValue", Some("FORMAT"))
  }

  /** The handler after `normalizeObj`, for an awaited, truthy layer configuration. */
  function TileFor(cat: Catalog, params: Params, be: Backend, st: Store): (r: Outcome)
  {
    match FirstMissing(params, Required)
    case Some(i) => ErrorOutcome(MissingException(Required[i]), be, st)
    case None =>
      match Find(cat, Value(params, "layer"))
      case Raises(f) => Rejected(f, st)
      case NotFound => ErrorOutcome(NoSuchLayer(Value(params, "layer")), be, st)
      case Found(layer) => Serve(layer, params, be, st)
  }

  /** The handler once the layer is found. */
  function Serve(layer: Layer, params: Params, be: Backend, st: Store): (r: Outcome)
  {
    if Hidden(layer) then Replied(NotAuthorized, st)
    else
      var desired := be.extension(Value(params, "format"));
      if !Truthy(desired) then ErrorOutcome(BadFormat(Value(params, "format")), be, st)
      else
        match ParseAddress(Value(params, "tilematrix"), Value(params, "tilerow"), Value(params, "tilecol"))
        case Err(ex) => ErrorOutcome(ex, be, st)
        case Ok(a) =>
          match CheckTile(layer.range, layer.bbox, be.xyz, a.x, a.y, a.z)
          case Some(axis) => ErrorOutcome(OutOfRange(axis), be, st)
          case None => Fetch(layer, desired.value, a, be, st)
  }

  /** What every outcome of the handler keeps: the blank memo untouched, an envelope code
      among those the handler produces, no memo write before a rejection, and a sound
      exception memo. */
  ghost predicate Keeps(be: Backend, st: Store, r: Outcome)
  {
    && r.store.blanks == st.blanks
    && Extends(st, r.store)
    && (r.Replied? ==> r.resp.code in {200, 400, 401, 404, 500})
    && (r.Rejected? ==> r.store == st)
    && (MemoSound(be, st.errors) ==> MemoSound(be, r.store.errors))
  }

  /** `getTile(layer, params)`: a rejected layer promise is an unknown error, a falsy one throws. */
  function GetTile(sup: Supplied, raw: Params, be: Backend, st: Store): (r: Outcome)
    ensures Keeps(be, st, r)
  {
    match sup
    case Failed(e) => UnknownOutcome(e, be, st)
    case Resolved(None) => Rejected(Failure(TypeError, "must include layer function"), st)
    case Resolved(Some(cat)) => TileKeeps(cat, Normalize(raw), be, st); TileFor(cat, Normalize(raw), be, st)
  }

  lemma ErrorKeeps(ex: Exception, be: Backend, st: Store)
    requires SlashFree(ex)
    ensures Keeps(be, st, ErrorOutcome(ex, be, st))
  {
  }

  lemma ShapeKeeps(reply: TileReply, desired: string, be: Backend, st: Store)
    ensures Keeps(be, st, Shape(reply, desired, be, st))
  {
    var data := Payload(reply.data);
    var headers := Normalize(reply.headers);
    if ReturnedFormat(be, headers) != Some(desired) && be.transcode(data, desired).Err? {
      var e := be.transcode(data, desired).error;
      assert Shape(reply, desired, be, st) == UnknownOutcome(e, be, st);
    }
  }

  lemma UnavailableSlashFree()
    ensures SlashFree(Unavailable)
  {
    assert forall i :: 0 <= i < |Unavailable.code| ==> Unavailable.code[i] != '/';
  }

  lemma FetchKeeps(layer: Layer, desired: string, a: Address, be: Backend, st: Store)
    ensures Keeps(be, st, Fetch(layer, desired, a, be, st))
  {
    if layer.tiles.Some? {
      var f := be.fetch(layer.tiles.value, a.z, a.x, a.y);
      if f.Ok? {
        ShapeKeeps(f.value, desired, be, st);
      } else {
        UnavailableSlashFree();
        ErrorKeeps(Unavailable, be, st);
        var o := ErrorOutcome(Unavailable, be, st);
        assert Fetch(layer, desired, a, be, st) == Replied(o.resp.(code := 404), o.store);
      }
    }
  }

  lemma ParseKeeps(tm: string, row: string, col: string)
    requires ParseAddress(tm, row, col).Err?
    ensures SlashFree(ParseAddress(tm, row, col).error)
  {
  }

  lemma CodesSlashFree()
    ensures '/' !in "InvalidParameterValue" && '/' !in "MissingParameterValue" && '/' !in "TileOutOfRange"
  {
  }

  lemma LocatorsSlashFree()
    ensures '/' !in "LAYER" && '/' !in "FORMAT"
    ensures forall a: Axis :: '/' !in AxisName(a)
    ensures forall j :: 0 <= j < |Required| ==> '/' !in Required[j]
  {
  }

  lemma LiteralsSlashFree(name: string, fmt: string, axis: Axis, i: nat)
    requires i < |Required|
    ensures SlashFree(NoSuchLayer(name)) && SlashFree(BadFormat(fmt)) && SlashFree(OutOfRange(axis))
    ensures SlashFree(MissingException(Required[i]))
  {
    CodesSlashFree();
    LocatorsSlashFree();
  }

  lemma ServeKeeps(layer: Layer, params: Params, be: Backend, st: Store)
    ensures Keeps(be, st, Serve(layer, params, be, st))
  {
    if !Hidden(layer) {
      var desired := be.extension(Value(params, "format"));
      LiteralsSlashFree("", Value(params, "format"), TileMatrix, 0);
      if !Truthy(desired) {
        ErrorKeeps(BadFormat(Value(params, "format")), be, st);
      } else {
        match ParseAddress(Value(params, "tilematrix"), Value(params, "tilerow"), Value(params, "tilecol"))
        case Err(ex) =>
          ParseKeeps(Value(params, "tilematrix"), Value(params, "tilerow"), Value(params, "tilecol"));
          ErrorKeeps(ex, be, st);
        case Ok(a) =>
          match CheckTile(layer.range, layer.bbox, be.xyz, a.x, a.y, a.z)
          case Some(axis) =>
            LiteralsSlashFree("", "", axis, 0);
            ErrorKeeps(OutOfRange(axis), be, st);
          case None => FetchKeeps(layer, desired.value, a, be, st);
      }
    }
  }

  /** The invariants of `GetTile` for the validated part. */
  lemma TileKeeps(cat: Catalog, params: Params, be: Backend, st: Store)
    ensures Keeps(be, st, TileFor(cat, params, be, st))
  {
    match FirstMissing(params, Required)
    case Some(i) =>
      LiteralsSlashFree("", "", TileMatrix, i);
      ErrorKeeps(MissingException(Required[i]), be, st);
    case None =>
      match Find(cat, Value(params, "layer"))
      case Raises(f) =>
      case NotFound =>
        LiteralsSlashFree(Value(params, "layer"), "", TileMatrix, 0);
        ErrorKeeps(NoSuchLayer(Value(params, "layer")), be, st);
      case Found(layer) => ServeKeeps(layer, params, be, st);
  }

  /** Parameter names are matched after lower-casing: the raw parameters and their
      normalised copy give the same outcome. */
  lemma GetTileCaseInsensitive(sup: Supplied, raw: Params, be: Backend, st: Store)
    ensures GetTile(sup, raw, be, st) == GetTile(sup, Normalize(raw), be, st)
  {
    NormalizeIdempotent(raw);
  }

  /** The first missing or empty parameter, in the order of `Required`, is reported with
      `MissingParameterValue` at that parameter. */
  lemma TileMissingParameter(cat: Catalog, raw: Params, i: nat, be: Backend, st: Store)
    requires i < |Required|
    requires !Present(Normalize(raw), Required[i]) && AllPresent(Normalize(raw), Required[..i])
    ensures GetTile(Resolved(Some(cat)), raw, be, st) == ErrorOutcome(MissingException(Required[i]), be, st)
  {
    FirstMissingAt(Normalize(raw), Required, i);
  }

  /** With every parameter present: an unknown layer is a 400 at `LAYER`, a hidden one the
      401 envelope, an unmapped format a 400 at `FORMAT`. */
  lemma TileLayerChecks(cat: Catalog, raw: Params, be: Backend, st: Store)
    requires AllPresent(Normalize(raw), Required)
    ensures var p := Normalize(raw);
      var found := Find(cat, Value(p, "layer"));
      var r := GetTile(Resolved(Some(cat)), raw, be, st);
      && (found == NotFound ==> r == ErrorOutcome(NoSuchLayer(Value(p, "layer")), be, st))
      && (found.Raises? ==> r == Rejected(found.failure, st))
      && (found.Found? && Hidden(found.layer) ==> r == Replied(NotAuthorized, st))
      && (found.Found? && !Hidden(found.layer) && !Truthy(be.extension(Value(p, "format"))) ==>
            r == ErrorOutcome(BadFormat(Value(p, "format")), be, st))
  {
  }

  /** For a found, viewable layer and a known format: the first unparsable coordinate is
      reported, then the first axis out of range, and only a valid address is fetched. */
  lemma TileAddressChecks(layer: Layer, p: Params, be: Backend, st: Store)
    requires !Hidden(layer) && Truthy(be.extension(Value(p, "format")))
    ensures var r := Serve(layer, p, be, st);
      match ParseAddress(Value(p, "tilematrix"), Value(p, "tilerow"), Value(p, "tilecol"))
      case Err(ex) => r == ErrorOutcome(ex, be, st)
      case Ok(a) =>
        && (!ValidAddress(layer.range, layer.bbox, be.xyz, a.x, a.y, a.z) ==>
              r == ErrorOutcome(OutOfRange(CheckTile(layer.range, layer.bbox, be.xyz, a.x, a.y, a.z).value), be, st))
        && (ValidAddress(layer.range, layer.bbox, be.xyz, a.x, a.y, a.z) ==>
              r == Fetch(layer, be.extension(Value(p, "format")).value, a, be, st))
  {
  }
}
