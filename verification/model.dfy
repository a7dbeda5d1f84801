/** The records the server passes around: layers and their catalog, tile replies, response
    envelopes, the two process-wide memo maps, and the foreign collaborators the core calls. */
module Model {
  import opened Wrappers
  import opened Js
  import opened JsObject

  /** A geographic box `[minLon, minLat, maxLon, maxLat]`. */
  datatype BBox = BBox(minX: real, minY: real, maxX: real, maxY: real)

  /** The inclusive tile-index rectangle `merc.xyz` returns. */
  datatype TileBox = TileBox(minX: int, minY: int, maxX: int, maxY: int)

  /** A layer's `range`, `[minZoom, maxZoom]`. */
  datatype Range = Range(lo: int, hi: int)

  /** A configured layer. `tiles` names the layer's `getTile` capability (`None` when the layer
      has no `getTile` function); `viewable` is `Some(false)` only for a literal `false`. */
  datatype Layer = Layer(
    name: Option<string>,
    identifier: Option<string>,
    title: string,
    viewable: Option<bool>,
    range: Range,
    bbox: BBox,
    image: Option<seq<string>>,
    tiles: Option<nat>)

  predicate Hidden(l: Layer)
  {
    l.viewable == Some(false)
  }

  /** The options object handed to every entry point: either an array of layers, or a record
      that may itself be a layer and may hold the service metadata and a `layers` array.
      A `None` array entry is a falsy element. */
  datatype Catalog =
    | LayerList(entries: seq<Option<Layer>>)
    | Config(asLayer: Layer, abstractText: string, layers: Option<seq<Option<Layer>>>,
             host: Option<string>, wmshost: Option<string>, layerLimit: Option<int>)

  /** What `yield layer` produces: the awaited options (`None` when falsy) or the rejection. */
  datatype Supplied = Resolved(catalog: Option<Catalog>) | Failed(reason: Thrown)

  /** A header value: a string or a number. */
  datatype HeaderValue = HStr(s: string) | HNum(n: int)

  predicate HeaderTruthy(h: Option<HeaderValue>)
  {
    match h
    case None => false
    case Some(HStr(s)) => s != ""
    case Some(HNum(n)) => n != 0
  }

  type Headers = Obj<HeaderValue>

  /** The uniform `{data, headers, code}` envelope. */
  datatype Response = Response(data: Bytes, headers: Headers, code: int)

  /** The first value a layer's `getTile` calls back with: a string or a buffer. */
  datatype TileData = Text(s: string) | Binary(b: Bytes)

  datatype TileReply = TileReply(data: TileData, headers: Headers)

  /** A JavaScript number as far as zoom and scale arithmetic needs one. */
  datatype Num = Finite(n: int) | PosInf | NegInf | NaN

  /** A cached exception document: `{resp, etag, len}`. */
  datatype ErrorEntry = ErrorEntry(resp: Bytes, etag: string, len: nat)

  /** The two process-wide memo maps: exception documents by `[text, code, locator].join('/')`
      and blank tiles by colour and format. */
  datatype Store = Store(errors: map<string, ErrorEntry>, blanks: map<string, Bytes>)

  /** Every entry of `s` is still present, unchanged, in `s'`. */
  ghost predicate Extends(s: Store, s': Store)
  {
    && (forall k :: k in s.errors ==> k in s'.errors && s'.errors[k] == s.errors[k])
    && (forall k :: k in s.blanks ==> k in s'.blanks && s'.blanks[k] == s.blanks[k])
  }

  lemma ExtendsTransitive(s1: Store, s2: Store, s3: Store)
    requires Extends(s1, s2) && Extends(s2, s3)
    ensures Extends(s1, s3)
  {
  }

  /** The `content-type`, `content-length` and `etag` headers of a successful reply. */
  function DataHeaders(contentType: string, data: Bytes, be: Backend): (h: Headers)
    ensures Get(h, "content-type") == Some(HStr(contentType))
    ensures Get(h, "content-length") == Some(HNum(|data|))
    ensures Get(h, "etag") == Some(HStr(be.etag(data)))
  {
    var h := [("content-type", HStr(contentType)), ("content-length", HNum(|data|)), ("etag", HStr(be.etag(data)))];
    assert h[1..][1..] == [("etag", HStr(be.etag(data)))];
    assert Get(h, "etag") == Get(h[1..], "etag");
    assert Get(h[1..], "etag") == Get(h[1..][1..], "etag");
    h
  }

  /** The fields of a `url.parse` result the server reads; `None` is `null`. */
  datatype UrlRecord = UrlRecord(
    protocol: Option<string>,
    host: Option<string>,
    hostname: Option<string>,
    port: Option<string>,
    pathname: Option<string>)

  /** One `{zoom, bbox}` entry of a layer's `tilelimits`. */
  datatype TileLimit = TileLimit(zoom: string, box: TileBox)

  /** One layer as the capabilities templates see it. */
  datatype LayerInfo = LayerInfo(
    title: string,
    name: string,
    png: bool,
    jpeg: bool,
    mercMin: (real, real),
    mercMax: (real, real),
    bbox: BBox,
    tileset: string,
    tilelimits: seq<TileLimit>)

  /** `makeTileSet(name)`: the set name and the zoom levels `K` whose `levelK` flag is set. */
  datatype TileSet = TileSet(name: string, levels: set<int>)

  /** The object handed to the capabilities templates. */
  datatype CapDoc = CapDoc(
    title: string,
    abstractText: string,
    host: string,
    layers: seq<LayerInfo>,
    tilematrix: seq<TileSet>,
    layerLimit: Option<int>,
    wmshost: string)

  /** The collaborators the core calls but does not define; each is an arbitrary function.
      - `production`: whether `NODE_ENV` is `'production'`;
      - `extension`, `lookup`: `mime.extension` and `mime.lookup`;
      - `etag`: `getEtag` (a SHA-224 digest, base64);
      - `stack`: the `stack` text of a `new Error(message)` raised by the server;
      - `xyz`, `forward`: `merc.xyz` and `merc.forward`;
      - `fetch`: the `getTile(z, x, y)` capability numbered by `Layer.tiles`;
      - `transcode`: mapnik `Image.fromBytes` followed by `encode`;
      - `render`: gm drawing a 256x256 tile of one colour in a format;
      - `blend`: mapnik `blend` into a 256x256 PNG;
      - `zoomEstimate`: the floating-point part of `getZoom` (bbox text, srs, width, height, maxzoom);
      - `grid`, `stitch`: abaculus's list of tile addresses and its stitching of the fetched tiles;
      - `resize`: gm resizing to the requested width and height;
      - `parseUrl`: `url.parse`;
      - `wmsTemplate`, `wmtsTemplate`: the compiled capabilities templates. */
  datatype Backend = Backend(
    production: bool,
    extension: string -> Option<string>,
    lookup: string -> string,
    etag: Bytes -> string,
    stack: string -> string,
    xyz: (BBox, int) -> TileBox,
    forward: (real, real) -> (real, real),
    fetch: (nat, int, int, int) -> Result<TileReply, Thrown>,
    transcode: (Bytes, string) -> Result<Bytes, Thrown>,
    render: (string, string) -> Result<Bytes, Thrown>,
    blend: seq<TileData> -> Result<Bytes, Thrown>,
    zoomEstimate: (string, string, Option<int>, Option<int>, int) -> Num,
    grid: (string, string, Num, Num) -> seq<(int, int, int)>,
    stitch: (seq<TileReply>, Num, Num, Option<string>) -> Result<Bytes, Thrown>,
    resize: (Bytes, Option<string>, Option<int>, Option<int>) -> Result<Bytes, Thrown>,
    parseUrl: string -> UrlRecord,
    wmsTemplate: CapDoc -> string,
    wmtsTemplate: CapDoc -> string)

  /** A `new Error(message)` raised by the server, as a caught value. */
  function ErrorValue(be: Backend, message: string): Thrown
  {
    ObjectThrown(be.stack(message), message)
  }

  /** How an entry point ends: the envelope it resolves with, or the exception that escapes it
      (a rejected promise for a handler, a synchronous throw for the dispatcher), together with
      the memo maps as they stand afterwards. */
  datatype Outcome = Replied(resp: Response, store: Store) | Rejected(failure: Failure, store: Store)
}
