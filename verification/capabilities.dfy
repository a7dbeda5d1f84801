/** The GetCapabilities handler: the service metadata, the visible layers with their formats,
    Mercator corners, tile sets and per-zoom tile limits, rendered through the WMS or WMTS
    template into an XML envelope. */
module Capabilities {
  import opened Wrappers
  import opened Js
  import opened JsObject
  import opened Text
  import opened Numbers
  import opened Model
  import opened Errors
  import opened Params
  import opened Host

  /** `layer.range.join('to')`. */
  function TileSetName(r: Range): string
  {
    IntToString(r.lo) + "to" + IntToString(r.hi)
  }

  /** The `zoom` label of a tile-limit entry: a `0` is written before any zoom below ten. */
  function ZoomLabel(i: int): (r: string)
    ensures i >= 0 ==> |r| >= 2 && ParseInt(r) == Some(i)
  {
    if i < 10 then
      PaddedZoom(i);
      "0" + IntToString(i)
    else
      ParseIntOfIntToString(i, "");
      assert IntToString(i) + "" == IntToString(i);
      IntToString(i)
  }

  lemma PaddedZoom(i: int)
    ensures 0 <= i ==> ParseInt("0" + IntToString(i)) == Some(i)
  {
    if 0 <= i {
      ParseIntOfPadded(i);
    }
  }

  /** `getTileLimits(bbox, lo, hi)`: one entry per zoom from `lo` to `hi`, ascending. */
  function TileLimits(box: BBox, lo: int, hi: int, be: Backend): (r: seq<TileLimit>)
    ensures |r| == if lo <= hi then hi - lo + 1 else 0
    ensures forall i :: 0 <= i < |r| ==> r[i] == TileLimit(ZoomLabel(lo + i), be.xyz(box, lo + i))
    decreases hi - lo
  {
    if lo > hi then [] else [TileLimit(ZoomLabel(lo), be.xyz(box, lo))] + TileLimits(box, lo + 1, hi, be)
  }

  /** The zoom levels `lo..hi`. */
  function Levels(lo: int, hi: int): (r: set<int>)
    ensures forall k :: k in r <==> lo <= k <= hi
    decreases hi - lo
  {
    if lo > hi then {} else {lo} + Levels(lo + 1, hi)
  }

  /** `makeTileSet(name)`: the name, and a `levelK` flag for every `K` from the number before
      the first `to` up to the number after it; nothing when either does not parse. */
  function MakeTileSet(name: string): (r: TileSet)
    ensures r.name == name
    ensures !Contains(name, "to") ==> r.levels == {}
  {
    var parts := Split(name, "to");
    var lo := ParseInt(parts[0]);
    var hi := if |parts| > 1 then ParseInt(parts[1]) else None;
    TileSet(name, if lo.Some? && hi.Some? then Levels(lo.value, hi.value) else {})
  }

  lemma NoLetterT(n: int)
    ensures forall i :: 0 <= i < |IntToString(n)| ==> IntToString(n)[i] != 't'
  {
    var s := IntToString(n);
    forall i | 0 <= i < |s| ensures s[i] != 't' {
      if n < 0 && i > 0 {
        assert s[i] == s[1..][i - 1];
      }
    }
  }

  /** The tile set named after a range flags exactly the range's zoom levels. */
  lemma TileSetRoundTrip(r: Range)
    ensures MakeTileSet(TileSetName(r)) == TileSet(TileSetName(r), Levels(r.lo, r.hi))
  {
    var a := IntToString(r.lo);
    var b := IntToString(r.hi);
    NoLetterT(r.lo);
    NoLetterT(r.hi);
    SplitAfter(a, "to", b);
    SplitAbsent(b, "to");
    ParseIntOfIntToString(r.lo, "");
    ParseIntOfIntToString(r.hi, "");
    assert a + "" == a && b + "" == b;
  }

  /** Every tile-limit entry of a non-negative range names, once parsed, a level of the range's
      tile set, and every level has its entry. */
  lemma LimitsCoverTileSet(box: BBox, r: Range, be: Backend)
    requires r.lo >= 0
    ensures var limits := TileLimits(box, r.lo, r.hi, be);
      forall k :: k in MakeTileSet(TileSetName(r)).levels <==>
        exists i :: 0 <= i < |limits| && ParseInt(limits[i].zoom) == Some(k)
  {
    TileSetRoundTrip(r);
    var limits := TileLimits(box, r.lo, r.hi, be);
    forall k | k in Levels(r.lo, r.hi) ensures exists i :: 0 <= i < |limits| && ParseInt(limits[i].zoom) == Some(k) {
      LimitOfLevel(box, r.lo, r.hi, be, k);
    }
    forall k, i | 0 <= i < |limits| && ParseInt(limits[i].zoom) == Some(k) ensures k in Levels(r.lo, r.hi) {
      LevelOfLimit(box, r.lo, r.hi, be, i, k);
    }
  }

  lemma LimitOfLevel(box: BBox, lo: int, hi: int, be: Backend, k: int)
    requires 0 <= lo <= k <= hi
    ensures var limits := TileLimits(box, lo, hi, be);
      k - lo < |limits| && ParseInt(limits[k - lo].zoom) == Some(k)
  {
    var limits := TileLimits(box, lo, hi, be);
    assert limits[k - lo].zoom == ZoomLabel(k);
  }

  lemma LevelOfLimit(box: BBox, lo: int, hi: int, be: Backend, i: int, k: int)
    requires 0 <= lo
    requires var limits := TileLimits(box, lo, hi, be);
      0 <= i < |limits| && ParseInt(limits[i].zoom) == Some(k)
    ensures lo <= k <= hi
  {
    var limits := TileLimits(box, lo, hi, be);
    var z := ZoomLabel(lo + i);
    assert limits[i].zoom == z;
    assert ParseInt(z) == Some(lo + i);
  }

  /** The entries a document lists: falsy and hidden layers are dropped. */
  function Kept(entries: seq<Option<Layer>>): (r: seq<Layer>)
    ensures |r| <= |entries|
    ensures forall l :: l in r <==> Some(l) in entries && !Hidden(l)
  {
    if |entries| == 0 then []
    else
      var last := entries[|entries| - 1];
      assert entries == entries[..|entries| - 1] + [last];
      Kept(entries[..|entries| - 1]) + (if last.Some? && !Hidden(last.value) then [last.value] else [])
  }

  /** Dropping entries keeps the survivors in their original order. */
  lemma {:induction false} KeptAppend(xs: seq<Option<Layer>>, ys: seq<Option<Layer>>)
    ensures Kept(xs + ys) == Kept(xs) + Kept(ys)
    decreases |ys|
  {
    if |ys| == 0 {
      assert xs + ys == xs;
    } else {
      var ys' := ys[..|ys| - 1];
      assert (xs + ys)[..|xs + ys| - 1] == xs + ys';
      KeptAppend(xs, ys');
    }
  }

  /** Whether the template advertises a format: yes unless `image` is an array without it. */
  predicate Offers(image: Option<seq<string>>, format: string)
  {
    image.None? || format in image.value
  }

  /** `layer.name || layer.identifier || ''`. */
  function LayerName(l: Layer): string
  {
    if Truthy(l.name) then l.name.value else if Truthy(l.identifier) then l.identifier.value else ""
  }

  /** One layer as the templates see it. */
  function Describe(l: Layer, be: Backend): (r: LayerInfo)
    ensures r.title == l.title && r.bbox == l.bbox
    ensures r.png <==> l.image.None? || "png" in l.image.value
    ensures r.jpeg <==> l.image.None? || "jpeg" in l.image.value
    ensures MakeTileSet(r.tileset).levels == Levels(l.range.lo, l.range.hi)
    ensures |r.tilelimits| == if l.range.lo <= l.range.hi then l.range.hi - l.range.lo + 1 else 0
    ensures r.name == (if Truthy(l.name) then l.name.value else if Truthy(l.identifier) then l.identifier.value else "")
    ensures r.mercMin == be.forward(l.bbox.minX, l.bbox.minY) && r.mercMax == be.forward(l.bbox.maxX, l.bbox.maxY)
    ensures r.tileset == TileSetName(l.range)
    ensures r.tilelimits == TileLimits(l.bbox, l.range.lo, l.range.hi, be)
  {
    TileSetRoundTrip(l.range);
    LayerInfo(
      l.title, LayerName(l), Offers(l.image, "png"), Offers(l.image, "jpeg"),
      be.forward(l.bbox.minX, l.bbox.minY), be.forward(l.bbox.maxX, l.bbox.maxY), l.bbox,
      TileSetName(l.range), TileLimits(l.bbox, l.range.lo, l.range.hi, be))
  }

  function DescribeAll(ls: seq<Layer>, be: Backend): (r: seq<LayerInfo>)
    ensures |r| == |ls| && forall i :: 0 <= i < |ls| ==> r[i] == Describe(ls[i], be)
  {
    seq(|ls|, i requires 0 <= i < |ls| => Describe(ls[i], be))
  }

  /** `makeLayers(layers)`: a missing or empty array is an error; otherwise the visible layers,
      in order. */
  function MakeLayers(entries: Option<seq<Option<Layer>>>, be: Backend): (r: Result<seq<LayerInfo>, Failure>)
    ensures r.Err? <==> entries.None? || |entries.value| == 0
    ensures r.Err? ==> r.error == Failure(PlainError, "layers are not optional")
    ensures r.Ok? ==> |r.value| == |Kept(entries.value)|
    ensures r.Ok? ==> forall i :: 0 <= i < |r.value| ==>
      Some(Kept(entries.value)[i]) in entries.value && r.value[i] == Describe(Kept(entries.value)[i], be)
  {
    if entries.None? || |entries.value| == 0 then Err(Failure(PlainError, "layers are not optional"))
    else Ok(DescribeAll(Kept(entries.value), be))
  }

  predicate NoDup(xs: seq<string>)
  {
    forall i, j :: 0 <= i < j < |xs| ==> xs[i] != xs[j]
  }

  /** The position of the first occurrence of `x`. */
  function FirstIndex(xs: seq<string>, x: string): (r: nat)
    requires x in xs
    ensures r < |xs| && xs[r] == x && x !in xs[..r]
  {
    if xs[0] == x then 0
    else
      var k := FirstIndex(xs[1..], x);
      assert xs[..k + 1] == [xs[0]] + xs[1..][..k];
      k + 1
  }

  lemma FirstIndexIs(xs: seq<string>, x: string, k: nat)
    requires k < |xs| && xs[k] == x && x !in xs[..k]
    ensures FirstIndex(xs, x) == k
  {
  }

  /** The iteration order of a JavaScript `Set` the names were added to one by one. */
  function Distinct(xs: seq<string>): (r: seq<string>)
    ensures NoDup(r)
    ensures forall x :: x in r <==> x in xs
  {
    if |xs| == 0 then []
    else
      var d := Distinct(xs[..|xs| - 1]);
      var x := xs[|xs| - 1];
      assert xs == xs[..|xs| - 1] + [x];
      if x in d then d else d + [x]
  }

  /** Each name comes before every name first added after it. */
  lemma {:induction false} DistinctInFirstSeenOrder(xs: seq<string>)
    ensures forall i, j :: 0 <= i < j < |Distinct(xs)| ==>
      FirstIndex(xs, Distinct(xs)[i]) < FirstIndex(xs, Distinct(xs)[j])
    decreases |xs|
  {
    if |xs| > 0 {
      var pre := xs[..|xs| - 1];
      var x := xs[|xs| - 1];
      var d := Distinct(pre);
      DistinctInFirstSeenOrder(pre);
      forall v | v in pre ensures FirstIndex(xs, v) == FirstIndex(pre, v) {
        var k := FirstIndex(pre, v);
        assert xs[..k] == pre[..k];
        FirstIndexIs(xs, v, k);
      }
      if x !in d {
        assert x !in pre;
        FirstIndexIs(xs, x, |xs| - 1);
        var r := d + [x];
        assert forall v :: v in pre ==> v in xs;
        forall i, j | 0 <= i < j < |r| && r[i] in xs && r[j] in xs
          ensures FirstIndex(xs, r[i]) < FirstIndex(xs, r[j])
        {
          assert r[i] == d[i] && r[i] in pre;
          if j < |d| {
            assert r[j] == d[j] && r[j] in pre;
          } else {
            assert FirstIndex(pre, r[i]) < |pre|;
          }
        }
      }
    }
  }

  function TileSetNames(layers: seq<LayerInfo>): (r: seq<string>)
    ensures |r| == |layers| && forall i :: 0 <= i < |layers| ==> r[i] == layers[i].tileset
  {
    if |layers| == 0 then [] else TileSetNames(layers[..|layers| - 1]) + [layers[|layers| - 1].tileset]
  }

  function MakeTileSets(names: seq<string>): (r: seq<TileSet>)
    ensures |r| == |names| && forall i :: 0 <= i < |names| ==> r[i] == MakeTileSet(names[i])
  {
    seq(|names|, i requires 0 <= i < |names| => MakeTileSet(names[i]))
  }

  /** The catalog's service metadata; a bare array of layers has none of it. */
  function TitleOf(cat: Catalog): string
  {
    match cat
    case LayerList(_) => ""
    case Config(l, _, _, _, _, _) => l.title
  }

  function AbstractOf(cat: Catalog): string
  {
    match cat
    case LayerList(_) => ""
    case Config(_, a, _, _, _, _) => a
  }

  function HostOf(cat: Catalog): Option<string>
  {
    match cat
    case LayerList(_) => None
    case Config(_, _, _, h, _, _) => h
  }

  function WmsHostOf(cat: Catalog): Option<string>
  {
    match cat
    case LayerList(_) => None
    case Config(_, _, _, _, w, _) => w
  }

  function EntriesOf(cat: Catalog): Option<seq<Option<Layer>>>
  {
    match cat
    case LayerList(_) => None
    case Config(_, _, ls, _, _, _) => ls
  }

  function LayerLimitOf(cat: Catalog): Option<int>
  {
    match cat
    case LayerList(_) => None
    case Config(_, _, _, _, _, n) => n
  }

  /** The template's input, built in the source's order: the host first, then the layers, then
      the WMS host, which defaults to the host. */
  function Document(cat: Catalog, be: Backend): (r: Result<CapDoc, Failure>)
    ensures MakeHost(HostOf(cat), be).Err? ==> r == Err(MakeHost(HostOf(cat), be).error)
    ensures MakeHost(HostOf(cat), be).Ok? && MakeLayers(EntriesOf(cat), be).Err? ==>
      r == Err(Failure(PlainError, "layers are not optional"))
    ensures r.Ok? ==> MakeHost(HostOf(cat), be) == Ok(r.value.host)
    ensures r.Ok? ==> MakeLayers(EntriesOf(cat), be) == Ok(r.value.layers)
    ensures r.Ok? ==> if Truthy(WmsHostOf(cat)) then MakeHost(WmsHostOf(cat), be) == Ok(r.value.wmshost)
                      else r.value.wmshost == r.value.host
    ensures r.Ok? ==> r.value.title == TitleOf(cat) && r.value.abstractText == AbstractOf(cat)
                      && r.value.layerLimit == LayerLimitOf(cat)
    ensures r.Ok? ==> r.value.tilematrix == MakeTileSets(Distinct(TileSetNames(r.value.layers)))
  {
    match MakeHost(HostOf(cat), be)
    case Err(f) => Err(f)
    case Ok(host) =>
      match MakeLayers(EntriesOf(cat), be)
      case Err(f) => Err(f)
      case Ok(layers) =>
        var wmshost := if Truthy(WmsHostOf(cat)) then MakeHost(WmsHostOf(cat), be) else Ok(host);
        match wmshost
        case Err(f) => Err(f)
        case Ok(w) =>
          Ok(CapDoc(TitleOf(cat), AbstractOf(cat), host, layers,
                    MakeTileSets(Distinct(TileSetNames(layers))), LayerLimitOf(cat), w))
  }

  /** A position at which a member of a sequence sits. */
  lemma IndexIn(x: string, s: seq<string>) returns (j: nat)
    requires x in s
    ensures j < |s| && s[j] == x
  {
    j :| 0 <= j < |s| && s[j] == x;
  }

  /** Each name `Distinct` keeps comes from its input, and each input name is kept. */
  lemma {:induction false} DistinctCovers(names: seq<string>)
    ensures var d := Distinct(names);
      && (forall i :: 0 <= i < |d| ==> (exists j :: 0 <= j < |names| && names[j] == d[i]))
      && (forall j :: 0 <= j < |names| ==> (exists i :: 0 <= i < |d| && d[i] == names[j]))
  {
    var d := Distinct(names);
    forall i | 0 <= i < |d| ensures exists j :: 0 <= j < |names| && names[j] == d[i] {
      var j := IndexIn(d[i], names);
    }
    forall j | 0 <= j < |names| ensures exists i :: 0 <= i < |d| && d[i] == names[j] {
      var i := IndexIn(names[j], d);
    }
  }

  /** The document's tile-set names: each once, and exactly those of the listed layers. */
  lemma {:induction false} TileMatrixCoversLayers(layers: seq<LayerInfo>)
    ensures var d := Distinct(TileSetNames(layers));
      && NoDup(d)
      && (forall i :: 0 <= i < |d| ==> (exists j :: 0 <= j < |layers| && layers[j].tileset == d[i]))
      && (forall j :: 0 <= j < |layers| ==> (exists i :: 0 <= i < |d| && d[i] == layers[j].tileset))
  {
    DistinctCovers(TileSetNames(layers));
  }

  datatype Service = Wms | Wmts

  /** `params.service && params.service.toLowerCase()`: only `wms` and `wmts`, in any case. */
  function ServiceOf(p: Params): (r: Result<Service, Failure>)
    ensures r == Ok(Wms) <==> Get(p, "service").Some? && ToLower(Get(p, "service").value) == "wms"
    ensures r == Ok(Wmts) <==> Get(p, "service").Some? && ToLower(Get(p, "service").value) == "wmts"
    ensures r.Err? ==> r.error == Failure(TypeError, "unknown service: " + Show(Get(p, "service")))
  {
    match Get(p, "service")
    case None => Err(Failure(TypeError, "unknown service: undefined"))
    case Some(s) =>
      if ToLower(s) == "wms" then Ok(Wms)
      else if ToLower(s) == "wmts" then Ok(Wmts)
      else Err(Failure(TypeError, "unknown service: " + s))
  }

  function Template(svc: Service, be: Backend): CapDoc -> string
  {
    match svc
    case Wms => be.wmsTemplate
    case Wmts => be.wmtsTemplate
  }

  /** The XML envelope of a rendered document. */
  function XmlReply(data: Bytes, be: Backend): (r: Response)
    ensures r.data == data && r.code == 200
    ensures Get(r.headers, "content-type") == Some(HStr("text/xml"))
    ensures Get(r.headers, "content-length") == Some(HNum(|data|))
    ensures Get(r.headers, "etag") == Some(HStr(be.etag(data)))
  {
    Response(data, DataHeaders("text/xml", data, be), 200)
  }

  /** `getCapabilities(layers, params)`: a rejected catalog is an unknown error, a falsy one
      throws; then the service is chosen and the document rendered. Only the unknown error
      touches the memo maps. */
  function GetCapabilities(sup: Supplied, raw: Params, be: Backend, st: Store): (r: Outcome)
    ensures r.store.blanks == st.blanks && Extends(st, r.store)
    ensures MemoSound(be, st.errors) ==> MemoSound(be, r.store.errors)
    ensures r.Rejected? ==> r.store == st
    ensures r.Replied? ==> r.resp.code in {200, 500}
    ensures r.Replied? && r.resp.code == 200 ==> r.store == st && r == Replied(XmlReply(r.resp.data, be), st)
    ensures sup.Failed? <==> r.Replied? && r.resp.code == 500
    ensures sup == Resolved(None) ==> r == Rejected(Failure(TypeError, "options are required"), st)
  {
    match sup
    case Failed(e) => UnknownOutcome(e, be, st)
    case Resolved(None) => Rejected(Failure(TypeError, "options are required"), st)
    case Resolved(Some(cat)) =>
      match ServiceOf(Normalize(raw))
      case Err(f) => Rejected(f, st)
      case Ok(svc) =>
        match Document(cat, be)
        case Err(f) => Rejected(f, st)
        case Ok(doc) => Replied(XmlReply(Utf8(Template(svc, be)(doc)), be), st)
  }

  /** The `service` parameter, under any spelling of its key and in any case, picks the WMS or
      WMTS template; anything else is rejected before the catalog is read. */
  lemma CapabilitiesService(cat: Catalog, raw: Params, be: Backend, st: Store)
    ensures var r := GetCapabilities(Resolved(Some(cat)), raw, be, st);
      match LastValue(raw, "service")
      case Some(s) =>
        (ToLower(s) == "wms" && Document(cat, be).Ok? ==>
           r == Replied(XmlReply(Utf8(be.wmsTemplate(Document(cat, be).value)), be), st))
        && (ToLower(s) == "wmts" && Document(cat, be).Ok? ==>
           r == Replied(XmlReply(Utf8(be.wmtsTemplate(Document(cat, be).value)), be), st))
        && (ToLower(s) != "wms" && ToLower(s) != "wmts" ==>
           r == Rejected(Failure(TypeError, "unknown service: " + s), st))
      case None => r == Rejected(Failure(TypeError, "unknown service: undefined"), st)
  {
    NormalizeGet(raw, "service");
  }

  /** With a valid service, a failing document rejects with the document's error. */
  lemma CapabilitiesDocumentErrors(cat: Catalog, raw: Params, be: Backend, st: Store)
    requires ServiceOf(Normalize(raw)).Ok? && Document(cat, be).Err?
    ensures GetCapabilities(Resolved(Some(cat)), raw, be, st) == Rejected(Document(cat, be).error, st)
  {
  }

  /** A bare array of layers has no `host`, so its capabilities are always refused. */
  lemma LayerListHasNoHost(entries: seq<Option<Layer>>, be: Backend)
    ensures Document(LayerList(entries), be) == Err(Failure(TypeError, "no url provided"))
  {
  }
}
