# A verified model of the request logic of the `wms` tile and map server

The `wms` package answers three OGC requests over a catalog of tiled layers: GetCapabilities
(the WMS or WMTS service description), GetTile (one tile of a layer, as in section 7.2 of
OGC WMTS 1.0.0) and GetMap (a picture of a box, stitched from tiles, as in section 7.3 of
OGC WMS 1.3.0). Every answer is a `{data, headers, code}` envelope. Bad requests are answered
with an OWS Common 1.1.0 ExceptionReport (section 8 of OGC 06-121r3), memoised by
`[text, code, locator].join('/')`.

This project models the request-validation and response-shaping core of the server as pure
Dafny functions and proves what each step promises. It covers:

- the tile-address check;
- the GetTile pipeline: required parameters, layer lookup, zoom/row/column parsing with NaN
  detection, the range check, the fetch, and pass-through or transcoding;
- the GetMap parameter phase: required parameters, the `crs` alias, the SRS allow-list, the
  scale from `dpi`, background and transparency, single and composite layers, the zoom
  clamp, blank tiles with their memo, and the per-tile fallback and compositing;
- the exception envelopes of `makeError` and `makeUnknownError`;
- layer lookup, image sniffing, key lower-casing, host normalisation and request dispatch;
- the capabilities document: layer filtering, tile-set naming and parsing, per-zoom tile limits.

Each entry point is a function from the awaited options (`Supplied`), the raw parameters,
a `Backend` and the two process-wide memo maps (`Store`) to an `Outcome`. An outcome is either
the envelope the promise resolves with or the exception that escapes, together with the
memo maps afterwards. The exception is a rejected promise for the three handlers, and a
synchronous throw for the `wms` dispatcher. The `Backend` holds everything the core calls but does not define, as
arbitrary functions:

- `mime.extension` and `mime.lookup`;
- `getEtag`;
- `merc.xyz` and `merc.forward`;
- a layer's `getTile`;
- mapnik transcoding and blending;
- gm rendering and resizing;
- abaculus's tile grid and stitching;
- the floating-point zoom estimate;
- `url.parse`;
- the two compiled handlebars templates;
- the `stack` text of a fresh `Error`;
- whether `NODE_ENV` is `production`.

Behaviour of the code that is kept as written:

- `checkTile` reports the column axis as `TILECOLUMN`, while the NaN check calls it `TILECOL`.
- After transcoding, the `etag` is the digest of the source bytes, not of the transcoded ones.
- Members of a composite layer fetch through `makeGetTile(layer)` with no background and no
  format. Their blank fallback therefore always fails, and a member whose tile cannot be
  fetched is dropped.
- `blend` is called even when a single member survives.
- GetMap dereferences `params.transparent` without checking it. A request without
  `transparent` is rejected with the `TypeError` of `undefined.toLowerCase()`.
- GetMap's unknown-layer report reads `params.layer`, not `params.layers`. It normally says
  `No such layer: undefined`.
- A comma-separated layer list that names a hidden layer gets the 400 `LAYER` report, not 401.
- A catalog given as a bare array has no `host`, so GetCapabilities always rejects it with
  `no url provided`.
- The tile-limit zoom label puts a `0` before any zoom below ten, negative zooms included.

`makeHost` is modelled both as written and as evidently intended (see Findings). The
capabilities handler uses the intended reading.

## Model

| member | source | states |
|---|---|---|
| TileCheck.CheckTile | lib/checkTile.js:5-17 | The result is false exactly when the address is valid. It is `TILEMATRIX` exactly when the zoom is out of range, `TILEROW` exactly when the zoom is in range and the row is outside the tile box, and `TILECOLUMN` exactly when only the column is outside. So one answer is given, with precedence zoom, row, column. |
| TileCheck.ZoomDecides | lib/checkTile.js:6-8 | A zoom outside the range gives `TILEMATRIX` whatever the row and column. |
| TileCheck.RowDecides | lib/checkTile.js:9-12 | With the zoom in range, a row outside the box gives `TILEROW` whatever the column. |
| TileCheck.OneAxisOut | lib/checkTile.js:13-15 | Moving only the column (or only the row) of a valid address out of the box reports exactly that axis. |
| Params.FirstMissing | lib/tile.js:32-40 | Returns the position of the first required key whose value is missing or empty, with all earlier keys present; returns nothing exactly when all are present. |
| Params.FirstMissingAt | lib/tile.js:35-40 | The first missing key is the one reported, whatever follows it. |
| Params.MissingException | lib/tile.js:38 | The report for a missing parameter has code `MissingParameterValue` and the parameter as locator. |
| Tile.TileMissingParameter | lib/tile.js:15-40 | In the order layer, tilematrix, tilerow, tilecol, format, the first missing or empty parameter gets the 400 `MissingParameterValue` document located at that parameter. |
| Tile.TileLayerChecks | lib/tile.js:41-55 | An unknown layer gets `InvalidParameterValue`/`LAYER`. A lookup that throws rejects. A hidden layer gets 401 `not authorized` with empty headers. An unmapped format gets `InvalidParameterValue`/`FORMAT`. |
| Tile.ZoomText | lib/tile.js:57-61 | Without a colon, the zoom is read from the whole tilematrix. |
| Tile.ZoomTextOf | lib/tile.js:57-58 | With a colon, the zoom is read from the piece after the first colon, up to the next one. |
| Tile.NaNException | lib/tile.js:136-140 | A value that is not a number is reported as `InvalidParameterValue`, located at the axis name. |
| Tile.ParseAddress | lib/tile.js:56-69 | The address is accepted exactly when all three coordinates parse. Otherwise the first that fails is reported, in the order TILEMATRIX, TILEROW, TILECOL. |
| Tile.OutOfRange | lib/tile.js:70-73 | A failed range check is reported as `TileOutOfRange`, located at the axis `checkTile` names. |
| Tile.TileAddressChecks | lib/tile.js:56-82 | For a viewable layer and a known format: an unparsable coordinate is reported first, then the axis out of range. Only a valid address is fetched. |
| Tile.Fetch | lib/tile.js:74-82 | A layer without `getTile` rejects with a `TypeError`. A failed fetch answers 404 with the `TileOutOfRange` document without locator. A fetched tile is shaped. |
| Tile.Payload | lib/tile.js:84-87 | String data becomes its UTF-8 bytes; a buffer is kept. |
| Tile.Filled | lib/tile.js:88-96 | On pass-through, content-length and etag are set only when falsy; every other header is kept. |
| Tile.Recoded | lib/tile.js:103-106 | After transcoding, content-type is `lookup(desired)`, content-length the transcoded length, and etag the digest of the original bytes; other headers are kept. |
| Tile.Shape | lib/tile.js:83-114 | A tile in the desired format is passed through with its bytes unchanged. Any other tile is transcoded, and a transcoding failure is an unknown error. |
| Tile.GetTile | lib/tile.js:22-115 | Every outcome keeps every exception-memo entry and leaves the blank memo untouched. It answers 200, 400, 401, 404 or 500. A rejection leaves the memos as they were. A sound exception memo stays sound. |
| Tile.TileKeeps | lib/tile.js:41-115 | The same invariant for the handler once the layer configuration is known. |
| Tile.GetTileCaseInsensitive | lib/tile.js:31 | The handler gives the same outcome for the raw parameters and for their lower-cased form. |
| Errors.UnescapeEscape | lib/makeError.js:41-48 | The template's escaping of a substituted value can be undone, so the document loses no information. |
| Errors.EscapeIsInert | lib/makeError.js:44-45 | An escaped value holds no `"` and no `<`, so it cannot close an attribute or an element. |
| Errors.ParseRender | lib/makeError.js:41-48 | Reading a rendered document back gives its code, its text, and its locator exactly when the locator is truthy. |
| Errors.SplitKeyOf | lib/makeError.js:10 | A memo key whose code and locator hold no slash splits back into text, code and locator. |
| Errors.KeyInjective | lib/makeError.js:10-29 | Two such exceptions with the same key render the same document, so a memo hit returns the right bytes. |
| Errors.KeyCollision | lib/makeError.js:10 | With a slash in the code, two different documents share a key. |
| Errors.EntryFor | lib/makeError.js:22-27 | A cached entry records the byte length and digest of its own bytes. |
| Errors.ErrorHeadersGet | lib/makeError.js:30-37 | The headers are `application/xml`, the cached length and the cached etag. |
| Errors.MakeError | lib/makeError.js:8-39 | The code is 400 and the content type `application/xml`. A miss stores the rendered document under its key; a hit leaves the memo unchanged. With a well-formed memo, content-length is the data length and etag the digest of the data. |
| Errors.MakeErrorTransparent | lib/makeError.js:8-39 | With a sound memo, the data are the rendered document whether or not the key was cached, and the memo stays sound. |
| Errors.MakeErrorRepeat | lib/makeError.js:12-28 | Two calls with the same key return identical bytes and etag. The second call does not write. |
| Errors.SoundIsWellFormed | lib/makeError.js:22-28 | In a sound memo every entry records its own length and digest. |
| Errors.UnknownMessage | lib/makeUnknownError.js:5-12 | In production the message is the thrown string, or `unknown error`. Otherwise it is the string, or the stack, else the message, else the default. A string keeps its text in both modes. |
| Errors.MakeUnknownError | lib/makeUnknownError.js:4-15 | The envelope has the data and headers of the `NoApplicableCode` document without locator, and code 500. |
| Errors.UnknownErrorLeavesMemo | lib/makeUnknownError.js:13-15 | Setting the code to 500 changes only the returned envelope. The cached document is the same one a later 400 request gets. |
| Errors.ErrorOutcome | lib/makeError.js:12-38 | A handler answering with `makeError` answers 400, keeps every memo entry, and keeps a sound memo sound. |
| Errors.UnknownOutcome | lib/makeUnknownError.js:13-15 | A handler answering with `makeUnknownError` answers 500, keeps every memo entry, and keeps a sound memo sound. |
| Lookup.NormalizeLayer | lib/find.js:20-25 | The name is replaced by the identifier only when the name is falsy and the identifier truthy; nothing else changes. |
| Lookup.Scan | lib/find.js:14-18 | The loop stops at the first entry that matches or is `null`, having passed over only non-matching layers. |
| Lookup.Find | lib/find.js:5-19 | An array is searched. A record with a truthy `abstract` and a `layers` array is searched through `layers`. Any other record is returned, normalised, when it matches itself. Otherwise it is a `TypeError`, since a record is not iterable. |
| Lookup.FindFirst | lib/find.js:14-18 | Over an array, the result is the normalised first layer whose name or identifier equals the target. |
| Lookup.FindNone | lib/find.js:14-19 | With no match and no `null` entry, the result is undefined. |
| Lookup.FoundMatches | lib/find.js:9-17 | A found layer answers to the (non-empty) target by name or identifier. |
| Lookup.NormalizeMatches | lib/find.js:20-25 | Normalising keeps a layer matching the target. |
| Sniff.ImageType | lib/image-type.js:3-10 | `89 50 4E 47` gives `image/png`. Failing that, `FF D8` gives `image/jpeg`. Anything else throws, including inputs shorter than two bytes. |
| Sniff.FirstFourBytes | lib/image-type.js:4-7 | The result depends only on the first four bytes. |
| JsObject.PutGet | normalizeObj.js:6 | After an assignment the key reads the new value and every other key reads as before. |
| JsObject.NormalizeGet | normalizeObj.js:4-9 | A normalised key reads the value of the last input key that lower-cases to it. Values are copied unchanged, and on a collision the later key wins. |
| JsObject.NormalizeKeys | normalizeObj.js:5-8 | The output keys are distinct, lower case, and exactly the lower-cased input keys. |
| JsObject.NormalizeNormal | normalizeObj.js:4-9 | An object with distinct lower-case keys is its own normal form. |
| JsObject.NormalizeIdempotent | normalizeObj.js:4-9 | Normalising twice equals normalising once. |
| Js.ToLowerProperties | lib/index.js:11 | Lower-casing yields lower case, leaves lower case alone, and is idempotent. |
| Numbers.ParseIntOfIntToString | lib/capabilities.js:142-143 | `parseInt` reads back the decimal numeral of any integer, whatever non-digit text follows it. |
| Numbers.ParseIntOfPadded | lib/capabilities.js:132 | `parseInt` ignores the leading zero written before a natural number. |
| Text.Split | lib/map.js:212 | `split` gives at least one piece, and the whole string when the separator is absent. |
| Text.SplitAfter | lib/capabilities.js:141 | A separator whose first character does not occur in `a` splits `a + sep + b` into `a` followed by the pieces of `b`. |
| Text.IndexOf | lib/tile.js:57 | `indexOf` finds the first occurrence, or reports that there is none. |
| WmsMap.Alias | lib/map.js:52-54 | `crs` is copied to `srs` only when `crs` is truthy and `srs` is not; every other key is unchanged. |
| WmsMap.CrsSuffices | lib/map.js:52-61 | With only `crs` given, `srs` is present and holds its value. |
| WmsMap.MapMissingParameter | lib/map.js:17-60 | After the alias, the first missing among layers, bbox, width, height, format, srs gets `MissingParameterValue` located at it. |
| WmsMap.MapSrsAndTransparency | lib/map.js:61-80 | A lower-cased srs outside the three allowed ones gets `InvalidSRS` without locator. With a valid srs, a missing `transparent` rejects with the `TypeError` of `toLowerCase`. |
| WmsMap.InvalidSrs | lib/map.js:64 | The SRS report has code `InvalidSRS` and no locator. |
| WmsMap.RoundQuotient | lib/map.js:68 | `Math.round(a / b)` is the integer nearest to the quotient, halves rounding up. This is stated for either sign of `b`, as bounds on `2a` multiplied through by `b`. |
| WmsMap.Scale | lib/map.js:66-74 | Without `dpi` and `map_resolution` the scale is 1. It is never NaN or 0. It is negative infinity exactly when the resolution parses to negative zero (`-0`), and positive infinity exactly when it parses to an unsigned zero. |
| WmsMap.ScaleOfPositive | lib/map.js:67-71 | For a parsed resolution `d > 0` (`dpi` first), the scale is at least 1. Up to `d = 144` it is the integer `k` with `(2k-1)d <= 144 < (2k+1)d`, the nearest to 72/d with halves up. Beyond that it is 1. |
| WmsMap.NegativeZeroResolution | lib/map.js:67-74 | A `dpi` of `-0` gives a scale of negative infinity: `72 / -0` rounds to `-Infinity`, which is truthy and not NaN, so neither fallback replaces it. |
| WmsMap.RoundedResolution | lib/map.js:68 | For `d > 0`, `Math.round(72 / d)` is never negative. It is 0 exactly when `d > 144`; otherwise it is at least 1 and meets the nearest-integer bounds. |
| WmsMap.Background | lib/map.js:75-80 | A missing `transparent` rejects. The background is transparent exactly when `transparent` lower-cases to `true` and the format is png. Otherwise it is the lower-cased `bgcolor`, defaulting to `0xffffff`. |
| WmsMap.GetZoom | lib/map.js:129-143 | Missing bounds default to 0 and 20. NaN stays NaN. Any other estimate gives a zoom of at least minzoom, and of at most maxzoom when minzoom is at most maxzoom. An estimate within the bounds is kept. |
| WmsMap.HiddenMemberIsUnknown | lib/map.js:216-220 | A list naming a hidden layer yields false, hence the 400 `LAYER` report. |
| WmsMap.MapLayerChecks | lib/map.js:81-94 | A throwing lookup rejects. An unknown layer gets `InvalidParameterValue`/`LAYER`. A single hidden layer gets 401. A single visible layer without `getTile` rejects with a `TypeError`. |
| WmsMap.NoSuchLayerParam | lib/map.js:83 | The unknown-layer report has code `InvalidParameterValue` and locator `LAYER`. |
| WmsMap.FetchGrid | lib/map.js:105-113 | The blank memo only grows. A success holds one tile per grid address. A failure on the first address is the result. |
| WmsMap.Finish | lib/map.js:112-127 | Stitching answers 200 or 500 and leaves the blank memo untouched. A 200 has a format and carries `lookup(format)`, the data length and the digest of the data. |
| WmsMap.Draw | lib/map.js:95-127 | Drawing answers 200 or 500, keeps every memo entry, and a 200 carries content-type, content-length and etag of the image. |
| WmsMap.GetMap | lib/map.js:39-128 | Every outcome keeps every memo entry and answers 200, 400, 401 or 500. A rejection leaves the memos as they were. A sound exception memo stays sound. |
| WmsMap.MapKeeps | lib/map.js:48-128 | The same invariant for the handler once the layer configuration is known. |
| Blank.BlankIsPng | lib/map.js:155 | The fixed transparent tile is a 352-byte PNG. |
| Blank.NormalizeColor | lib/map.js:171-179 | The normalised colour always has six characters. |
| Blank.NormalizeSix | lib/map.js:171-173 | One leading `0x` is stripped; a six-character colour is kept. |
| Blank.NormalizeThree | lib/map.js:174-176 | A three-character colour has each digit doubled. |
| Blank.NormalizeOther | lib/map.js:171-179 | Any other length becomes `ffffff`, with or without the `0x` prefix. |
| Blank.BlankReply | lib/map.js:157-163 | A blank tile is sent with `lookup(format)` and its byte length. |
| Blank.SendBlank | lib/map.js:164-193 | No format is an error. A transparent background gives the fixed PNG. A cached colour and format give the cached tile. Otherwise the tile is rendered and stored. An existing memo entry is never overwritten. |
| Blank.SendBlankRepeat | lib/map.js:180-192 | A second request for the same colour and format gets the tile of the first and leaves the memo unchanged. |
| MapLayers.UnionRange | lib/map.js:221-222 | The composite range is the smallest minimum and the largest maximum of the members, each attained by a member. |
| MapLayers.UnionBox | lib/map.js:223-224 | The composite box is the component-wise union of the member boxes, each side attained by a member. |
| MapLayers.FindAll | lib/map.js:212-215 | Each name is looked up in list order. The first lookup that throws rejects. |
| MapLayers.MakeComposite | lib/map.js:212-231 | A member that is unknown or hidden gives false. A throwing lookup rejects. Otherwise the composite holds the members in list order with the union range and box. |
| MapLayers.MakeLayer | lib/map.js:208-231 | A name without a comma is looked up as is. A list is split on commas and made into a composite. |
| MapLayers.MemberTile | lib/map.js:236-253 | A member yields a tile exactly when its address is valid and its fetch succeeds. The blank fallback without format always fails. |
| MapLayers.SurvivorsAre | lib/map.js:256-259 | A tile survives exactly when some member yields it. |
| Wrappers.SomesAppend | lib/map.js:257-259 | Dropping the failed members keeps the rest in layer order. |
| MapLayers.NoSurvivors | lib/map.js:260-262 | When no member yields a tile there are no survivors. |
| MapLayers.MapTile | lib/map.js:194-281 | An invalid address gives the blank. A single layer passes its fetched tile through, or gives the blank on failure. A composite blends any non-empty set of survivors into a PNG with its etag, and gives the blank when none survives or the blend fails. The memo only grows. |
| Host.PathPart | lib/makeHost.js:20-26 | A missing or root path adds nothing. Any other path is added with one trailing slash removed. |
| Host.Rebuild | lib/makeHost.js:6-28 | A falsy argument is a `TypeError` and a missing protocol an `Error`. Otherwise the address starts with the protocol and `//`. |
| Host.MakeHostAsWritten | lib/makeHost.js:6-28 | As written: the same errors. With a default port the address reads `undefined` in place of the host. Otherwise it is protocol, `//`, `host` and the path. |
| Host.MakeHost | lib/makeHost.js:6-28 | As intended: the same errors. With a default port (missing, empty or `80`) the address is protocol, `//`, host name and path; otherwise it is protocol, `//`, `host` and path. |
| Host.MakeHostOfUrl | lib/makeHost.js:14-27 | On a consistent parse the address is protocol, host name, the port unless it is the default, and the path without its trailing slash. |
| Host.AsWrittenIgnoresHost | lib/makeHost.js:15-16 | As written, two addresses that differ only in their host give the same result. |
| Host.MakeHostKeepsHost | lib/makeHost.js:15-19 | As intended, two addresses that differ only in their host name give different results. |
| Host.TrailingSlashIgnored | lib/makeHost.js:20-26 | A single trailing slash on the path makes no difference. |
| Host.HostNameTypo | lib/makeHost.js:16 | `http://example.com/wms` comes out as `http://undefined/wms` as written, and unchanged as intended. |
| Capabilities.ServiceOf | lib/capabilities.js:43-50 | `wms` and `wmts` are matched in any case. Anything else, a missing service included, is a `TypeError` naming the value. |
| Capabilities.CapabilitiesService | lib/capabilities.js:41-50 | Whatever the case of its key and value, `service` picks the WMS or WMTS template. Any other value rejects before the catalog is read. |
| Capabilities.Kept | lib/capabilities.js:87-93 | A layer is listed exactly when it is a truthy entry that is not hidden. |
| Capabilities.KeptAppend | lib/capabilities.js:123-125 | Filtering keeps the listed layers in input order. |
| Capabilities.Describe | lib/capabilities.js:94-122 | The title and box are copied. The name is `name`, else `identifier`, else empty. The png/jpeg flags are false only when `image` is an array lacking the format. The merc corners are `forward` of the two box corners. The tile set is the range joined with `to`, and it parses back to the layer's levels. The tile limits are those of the layer's box and range. |
| Capabilities.MakeLayers | lib/capabilities.js:82-126 | A missing or empty array throws `layers are not optional`. Otherwise there is one description per listed layer, in order. |
| Capabilities.ZoomLabel | lib/capabilities.js:132 | The label of a non-negative zoom has at least two characters and parses back to the zoom. |
| Capabilities.TileLimits | lib/capabilities.js:127-138 | There is one entry per zoom from min to max inclusive, ascending, with its label and tile box; there are none when min exceeds max. |
| Capabilities.Levels | lib/capabilities.js:144-148 | The loop flags exactly the zooms from min to max. |
| Capabilities.MakeTileSet | lib/capabilities.js:139-150 | The set keeps its name, and a name without `to` flags no level. |
| Capabilities.TileSetRoundTrip | lib/capabilities.js:119-150 | The tile set named `AtoB` after a range flags exactly the levels from A to B. |
| Capabilities.LimitsCoverTileSet | lib/capabilities.js:121-150 | For a non-negative range, the parsed tile-limit labels are exactly the levels of the layer's tile set. |
| Capabilities.Distinct | lib/capabilities.js:67-69 | The tile-set names are distinct and exactly those added. |
| Capabilities.DistinctInFirstSeenOrder | lib/capabilities.js:67-69 | The names come in the order they were first added. |
| Capabilities.TileMatrixCoversLayers | lib/capabilities.js:119-120 | The document's tile-set names are distinct, and each is the tile set of a listed layer and vice versa. |
| Capabilities.Document | lib/capabilities.js:51-69 | The template input is built in the source's order: a host error first, then a layers error, then a wmshost error. On success the host is the rebuilt host and `wmshost` the rebuilt `wmshost` when truthy, else the host. `layerLimit` is copied only when it is a number, and the tile matrix is built from the distinct tile sets. |
| Capabilities.LayerListHasNoHost | lib/capabilities.js:55 | A bare array of layers has no host and is refused with `no url provided`. |
| Capabilities.XmlReply | lib/capabilities.js:70-80 | The envelope is code 200 and `text/xml`, with content-length the data length and etag the digest of the data. |
| Capabilities.GetCapabilities | lib/capabilities.js:32-81 | A rejected catalog answers 500, and exactly then. A falsy catalog rejects with `options are required`. Every 200 is the XML envelope of its data and leaves the memos unchanged. A sound exception memo stays sound. |
| Capabilities.CapabilitiesDocumentErrors | lib/capabilities.js:52-66 | With a valid service, a failing document rejects with the document's error. |
| Dispatch.RouteOf | lib/index.js:9-20 | After lowering the keys, `request` is read. A missing one fails on `toLowerCase`. `getcapabilities`, `getmap` and `gettile` in any case choose the three handlers, and any other value is `unknown/invalid request`. |
| Dispatch.Wms | lib/index.js:9-21 | Each route gives exactly the chosen handler's outcome. The handler receives the normalised parameters, which is the same as receiving the raw ones because normalising is idempotent. An unroutable request throws synchronously before any handler runs; that throw is modelled as `Rejected`. |
| Dispatch.WmsKeepsMemo | lib/index.js:11-17 | Whatever the route, every memo entry is kept and a sound exception memo stays sound. A rejection leaves the memos as they were, and the code is one the handlers use. |
| Dispatch.RouteCaseInsensitive | lib/index.js:11 | Two requests whose `request` values lower-case alike take the same route. |
| Model.DataHeaders | lib/map.js:115-119 | The headers carry the content type, the data length and the digest of the data. |

## Left out

- The root copies of `map.js`, `tile.js`, `capabilities.js` and `makeUnknownError.js`: nothing in `lib/index.js` reaches them, and they do not run as written.
- `lib/featureInfo.js`: no dispatch route reaches it.
- `lib/memCache.js` and `promise.js`, the cache argument of the handlers, the Node callbacks, and `console.log`: plumbing with no effect on the envelopes.
- The floating-point and logarithm part of `getZoom` and all of `merc`: the zoom estimate, `merc.xyz`, `merc.forward` and the bbox inverse projection are `Backend` functions. Only the clamp is modelled, over a number that may be NaN or infinite.
- Raster work, digests, mime tables, templates and `url.parse` are arbitrary `Backend` functions that may fail. The template files' loading is not part of this model.
- Concurrency. abaculus fetches the tiles concurrently and `Promise.all` waits for all members. The model fetches in order, threads the blank memo from one tile to the next, and stops at the first failed tile. For the same reason the second `blanks.has(key)` test after rendering is always false here.
- MapLayers.MemberTile: a member of a composite layer without `getTile` makes `layer.getTile(...)` throw a `TypeError` inside its promise executor. That rejects the member's promise, and so `Promise.all(mapping)` rejects too. The `.then` that follows has no rejection handler, so the tile callback is never called: the rejection goes unhandled and the request never completes. The model drops the member instead.
- A tile whose callback gives no headers object, which makes `normalizeObj` throw and answers 500: every `TileReply` carries headers.
- A numeric `content-type` returned with a tile is treated as having no extension, so the tile is transcoded.
- `find` writes the identifier into the layer's `name` in place, and that change persists in the shared configuration. The model returns a normalised copy. The lookup results do not change, since a layer is matched on name or identifier.
- Layers are records with integer ranges and real boxes. Malformed layers, whose `range` or `bbox` are missing or not arrays, are not modelled. `null` and `undefined` layer entries are modelled as falsy entries.
- A layer's `getTile` is assumed to call back `(err, tile, headers)`, which the promisified call delivers as `[tile, headers]`.
- `mime.lookup` of an undefined format throws: GetMap without a known format answers 500.
- `parseInt` is exact, and its negative zero is told apart by `Numbers.ParsesToNegativeZero`; JavaScript numbers lose precision above 2^53.
- Capabilities.Document: `host` and `wmshost` are rebuilt with the corrected Host.MakeHost. With a missing or `80` port the document carries the host name, where the program as written writes `undefined` (see Findings).
- Capabilities.GetCapabilities: its 200 data are rendered from the corrected Capabilities.Document, so they differ from the program's output for default-port hosts in the same way.
- Js.ToLower: lower-casing is ASCII-only. Non-ASCII letters in parameter keys, `request`, `service`, `transparent`, `bgcolor` (and so the blank-memo key) and `srs` (and so the `invalid srs:` text) are kept as given. JavaScript's `toLowerCase` would map them by full Unicode case mapping, for some characters into two code units.
- Dispatch.Wms: `wms` is a plain function. A missing `request` (the `toLowerCase` of undefined) and an unknown one (`unknown/invalid request`) throw synchronously to the caller: no promise is returned and the callback is never called. The model writes both as a `Rejected` outcome, the same shape as a handler's rejected promise.
- Blank.NormalizeColor, Tile.Payload and every other string: strings are sequences of Unicode scalar values, not UTF-16 code units. `length`, indexes and lone surrogates differ for text outside the Basic Multilingual Plane. For example, a `bgcolor` of one astral character and one letter has length 3 in JavaScript, so it is doubled into a different colour and blank-memo key; the model sees length 2 and answers `ffffff`. A lone surrogate, which `new Buffer(str, 'utf8')` encodes as U+FFFD, cannot be written in the model at all.
- WmsMap.GetZoom: the value clamped is an abstract estimate, so nothing is stated about how the zoom relates to the box and the image size.

## Findings

| source | as written | input that shows it | evidently intended | confidence | as-written member | corrected member |
|---|---|---|---|---|---|---|
| lib/makeHost.js:16 | With a missing or `80` port, appends `parsedUrl.hostName`, a field `url.parse` never sets | `http://example.com/wms` gives `http://undefined/wms` | append `parsedUrl.hostname`, giving `http://example.com/wms` | high (not executed) | Host.MakeHostAsWritten | Host.MakeHost |
