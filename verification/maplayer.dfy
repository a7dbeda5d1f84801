/** The layer a GetMap request draws (lib/map.js `makeLayer`), and the tile source abaculus
    pulls from it (`makeGetTile`, `makeGetTiles`): a single layer, or a composite of several
    whose zoom range and bbox are the union of its members'. */
module MapLayers {
  import opened Wrappers
  import opened Js
  import opened Text
  import opened Model
  import opened Lookup
  import opened TileCheck
  import opened Blank

  /** The layer `makeLayer` returns. A composite's `viewable` is undefined. */
  datatype MapLayer = Single(layer: Layer) | Composite(members: seq<Layer>, range: Range, bbox: BBox)

  function RangeOf(ml: MapLayer): Range
  {
    if ml.Single? then ml.layer.range else ml.range
  }

  function BBoxOf(ml: MapLayer): BBox
  {
    if ml.Single? then ml.layer.bbox else ml.bbox
  }

  /** The `reduce` with `Math.min` from `Infinity`: over a non-empty list, its least element. */
  function MinInt(xs: seq<int>): (r: int)
    requires |xs| > 0
    ensures forall i :: 0 <= i < |xs| ==> r <= xs[i]
    ensures r in xs
  {
    if |xs| == 1 then xs[0]
    else
      var m := MinInt(xs[..|xs| - 1]);
      assert m in xs[..|xs| - 1];
      if m <= xs[|xs| - 1] then m else xs[|xs| - 1]
  }

  /** The `reduce` with `Math.max` from `-Infinity`. */
  function MaxInt(xs: seq<int>): (r: int)
    requires |xs| > 0
    ensures forall i :: 0 <= i < |xs| ==> xs[i] <= r
    ensures r in xs
  {
    if |xs| == 1 then xs[0]
    else
      var m := MaxInt(xs[..|xs| - 1]);
      assert m in xs[..|xs| - 1];
      if m >= xs[|xs| - 1] then m else xs[|xs| - 1]
  }

  function MinReal(xs: seq<real>): (r: real)
    requires |xs| > 0
    ensures forall i :: 0 <= i < |xs| ==> r <= xs[i]
    ensures r in xs
  {
    if |xs| == 1 then xs[0]
    else
      var m := MinReal(xs[..|xs| - 1]);
      assert m in xs[..|xs| - 1];
      if m <= xs[|xs| - 1] then m else xs[|xs| - 1]
  }

  function MaxReal(xs: seq<real>): (r: real)
    requires |xs| > 0
    ensures forall i :: 0 <= i < |xs| ==> xs[i] <= r
    ensures r in xs
  {
    if |xs| == 1 then xs[0]
    else
      var m := MaxReal(xs[..|xs| - 1]);
      assert m in xs[..|xs| - 1];
      if m >= xs[|xs| - 1] then m else xs[|xs| - 1]
  }

  /** The accumulated `range`: the least minimum zoom and the greatest maximum zoom. */
  function UnionRange(ls: seq<Layer>): (r: Range)
    requires |ls| > 0
    ensures forall i :: 0 <= i < |ls| ==> r.lo <= ls[i].range.lo && ls[i].range.hi <= r.hi
    ensures (exists i :: 0 <= i < |ls| && r.lo == ls[i].range.lo) && (exists i :: 0 <= i < |ls| && r.hi == ls[i].range.hi)
  {
    var los := seq(|ls|, i requires 0 <= i < |ls| => ls[i].range.lo);
    var his := seq(|ls|, i requires 0 <= i < |ls| => ls[i].range.hi);
    assert forall i :: 0 <= i < |ls| ==> los[i] == ls[i].range.lo && his[i] == ls[i].range.hi;
    Range(MinInt(los), MaxInt(his))
  }

  /** The accumulated `bbox`: the component-wise union of the members' boxes. */
  function UnionBox(ls: seq<Layer>): (r: BBox)
    requires |ls| > 0
    ensures forall i :: 0 <= i < |ls| ==>
      r.minX <= ls[i].bbox.minX && r.minY <= ls[i].bbox.minY && ls[i].bbox.maxX <= r.maxX && ls[i].bbox.maxY <= r.maxY
    ensures (exists i :: 0 <= i < |ls| && r.minX == ls[i].bbox.minX) && (exists i :: 0 <= i < |ls| && r.maxY == ls[i].bbox.maxY)
    ensures (exists i :: 0 <= i < |ls| && r.minY == ls[i].bbox.minY) && (exists i :: 0 <= i < |ls| && r.maxX == ls[i].bbox.maxX)
  {
    var x0 := seq(|ls|, i requires 0 <= i < |ls| => ls[i].bbox.minX);
    var y0 := seq(|ls|, i requires 0 <= i < |ls| => ls[i].bbox.minY);
    var x1 := seq(|ls|, i requires 0 <= i < |ls| => ls[i].bbox.maxX);
    var y1 := seq(|ls|, i requires 0 <= i < |ls| => ls[i].bbox.maxY);
    assert forall i :: 0 <= i < |ls| ==>
      x0[i] == ls[i].bbox.minX && y0[i] == ls[i].bbox.minY && x1[i] == ls[i].bbox.maxX && y1[i] == ls[i].bbox.maxY;
    BBox(MinReal(x0), MinReal(y0), MaxReal(x1), MaxReal(y1))
  }

  /** `layers.map(item => find(layerArray, item))`: a throw from any lookup propagates, the
      first in order; otherwise `None` marks a name that was not found. */
  function FindAll(cat: Catalog, names: seq<string>): (r: Result<seq<Option<Layer>>, Failure>)
    ensures r.Ok? ==> |r.value| == |names|
    ensures r.Ok? ==> forall i :: 0 <= i < |names| ==>
      match Find(cat, names[i])
      case Found(l) => r.value[i] == Some(l)
      case NotFound => r.value[i] == None
      case Raises(_) => false
    ensures r.Err? ==>
      exists i :: 0 <= i < |names| && Find(cat, names[i]) == Raises(r.error) && forall j :: 0 <= j < i ==> !Find(cat, names[j]).Raises?
  {
    if |names| == 0 then Ok([])
    else
      var first := Find(cat, names[0]);
      if first.Raises? then Err(first.failure)
      else
        var head := AsOption(first);
        match FindAll(cat, names[1..])
        case Err(f) =>
          assert forall i :: 1 <= i < |names| ==> names[1..][i - 1] == names[i];
          Err(f)
        case Ok(rest) => Ok([head] + rest)
  }

  /** A lookup that did not throw: the layer, or `None` for `undefined`. */
  function AsOption(f: Found): (r: Option<Layer>)
    ensures f.Found? ==> r == Some(f.layer)
    ensures f.NotFound? ==> r.None?
  {
    if f.Found? then Some(f.layer) else None
  }

  /** Every entry was found and is viewable. */
  predicate Usable(found: seq<Option<Layer>>)
  {
    forall i :: 0 <= i < |found| ==> found[i].Some? && !Hidden(found[i].value)
  }

  function Values(found: seq<Option<Layer>>): (r: seq<Layer>)
    requires Usable(found)
    ensures |r| == |found| && forall i :: 0 <= i < |found| ==> found[i] == Some(r[i])
  {
    seq(|found|, i requires 0 <= i < |found| => found[i].value)
  }

  /** The comma-separated case of `makeLayer`: `false` (`Ok(None)`) as soon as one member is
      missing or not viewable, otherwise the composite of the members in list order. */
  function MakeComposite(cat: Catalog, names: seq<string>): (r: Result<Option<MapLayer>, Failure>)
    requires |names| > 0
    ensures r.Ok? && r.value.Some? ==>
      var ml := r.value.value;
      && ml.Composite? && |ml.members| == |names|
      && (forall i :: 0 <= i < |names| ==> Find(cat, names[i]) == Found(ml.members[i]) && !Hidden(ml.members[i]))
      && ml.range == UnionRange(ml.members) && ml.bbox == UnionBox(ml.members)
    ensures r.Ok? && r.value.None? ==>
      exists i :: 0 <= i < |names| && (Find(cat, names[i]).NotFound? || (Find(cat, names[i]).Found? && Hidden(Find(cat, names[i]).layer)))
    ensures r.Err? <==> exists i :: 0 <= i < |names| && Find(cat, names[i]).Raises?
  {
    match FindAll(cat, names)
    case Err(f) => Err(f)
    case Ok(found) =>
      if !Usable(found) then Ok(None)
      else
        var ls := Values(found);
        Ok(Some(Composite(ls, UnionRange(ls), UnionBox(ls))))
  }

  /** `makeLayer(layerArray, layerParam, ...)`: a name without a comma is looked up as is. */
  function MakeLayer(cat: Catalog, param: string): (r: Result<Option<MapLayer>, Failure>)
    ensures !Contains(param, ",") ==>
      match Find(cat, param)
      case Found(l) => r == Ok(Some(Single(l)))
      case NotFound => r == Ok(None)
      case Raises(f) => r == Err(f)
    ensures Contains(param, ",") ==> |Split(param, ",")| >= 2 && r == MakeComposite(cat, Split(param, ","))
  {
    if !Contains(param, ",") then
      match Find(cat, param)
      case Raises(f) => Err(f)
      case NotFound => Ok(None)
      case Found(l) => Ok(Some(Single(l)))
    else
      SplitPresent(param, ",");
      MakeComposite(cat, Split(param, ","))
  }

  /** A member's tile as `makeGetTile(layer)` with no background and no format fetches it: an
      address outside the member, or a failed fetch, falls back to `sendBlank(undefined,
      undefined)`, which always fails, so the member yields nothing. A member without
      `getTile` yields nothing either. */
  function MemberTile(l: Layer, z: int, x: int, y: int, be: Backend, blanks: map<string, Bytes>): (r: Option<TileReply>)
    ensures r.Some? <==> ValidAddress(l.range, l.bbox, be.xyz, x, y, z) && l.tiles.Some? && be.fetch(l.tiles.value, z, x, y).Ok?
    ensures r.Some? ==> r.value == be.fetch(l.tiles.value, z, x, y).value
  {
    var fallback := SendBlank(NoColor, None, be, blanks).0;
    if CheckTile(l.range, l.bbox, be.xyz, x, y, z).Some? then Settled(fallback)
    else
      match l.tiles
      case None => None
      case Some(t) =>
        match be.fetch(t, z, x, y)
        case Err(_) => Settled(fallback)
        case Ok(reply) => Some(reply)
  }

  /** The member callback: an error resolves to nothing, a tile to the tile. */
  function Settled(res: Result<TileReply, Thrown>): (r: Option<TileReply>)
    ensures r.Some? <==> res.Ok?
  {
    if res.Ok? then Some(res.value) else None
  }

  /** `Promise.all` over the members, in member order. */
  function MemberTiles(members: seq<Layer>, z: int, x: int, y: int, be: Backend, blanks: map<string, Bytes>): (r: seq<Option<TileReply>>)
    ensures |r| == |members| && forall i :: 0 <= i < |members| ==> r[i] == MemberTile(members[i], z, x, y, be, blanks)
  {
    seq(|members|, i requires 0 <= i < |members| => MemberTile(members[i], z, x, y, be, blanks))
  }

  /** The members that produced a tile, in member order. */
  function Survivors(members: seq<Layer>, z: int, x: int, y: int, be: Backend, blanks: map<string, Bytes>): seq<TileReply>
  {
    Somes(MemberTiles(members, z, x, y, be, blanks))
  }

  /** A tile survives exactly when some member produced it. */
  lemma SurvivorsAre(members: seq<Layer>, z: int, x: int, y: int, be: Backend, blanks: map<string, Bytes>, t: TileReply)
    ensures t in Survivors(members, z, x, y, be, blanks) <==>
      exists i :: 0 <= i < |members| && MemberTile(members[i], z, x, y, be, blanks) == Some(t)
  {
    SomesMembership(MemberTiles(members, z, x, y, be, blanks), t);
  }

  /** No member tile means no survivor. */
  lemma NoSurvivors(members: seq<Layer>, z: int, x: int, y: int, be: Backend, blanks: map<string, Bytes>)
    requires forall i :: 0 <= i < |members| ==> MemberTile(members[i], z, x, y, be, blanks).None?
    ensures Survivors(members, z, x, y, be, blanks) == []
  {
    SomesAllNone(MemberTiles(members, z, x, y, be, blanks));
  }

  function Datas(ts: seq<TileReply>): (r: seq<TileData>)
    ensures |r| == |ts| && forall i :: 0 <= i < |ts| ==> r[i] == ts[i].data
  {
    seq(|ts|, i requires 0 <= i < |ts| => ts[i].data)
  }

  /** The reply of a successful blend. */
  function Blended(img: Bytes, be: Backend): TileReply
  {
    TileReply(Binary(img), [("etag", HStr(be.etag(img))), ("Content-Type", HStr("image/png"))])
  }

  /** A layer whose tiles can be fetched: a composite always, a single layer when it has a
      `getTile` (the handler throws before drawing otherwise). */
  predicate Drawable(ml: MapLayer)
  {
    ml.Single? ==> ml.layer.tiles.Some?
  }

  /** The `getTile(z, x, y)` abaculus calls: an address outside the (union) layer gives the
      blank; a single layer's tile is passed on or, on failure, replaced by the blank; a
      composite blends its surviving member tiles — even a single one — and gives the blank
      when none survives or the blend fails. */
  function MapTile(ml: MapLayer, bg: Background, format: Option<string>, z: int, x: int, y: int,
                   be: Backend, blanks: map<string, Bytes>): (r: (Result<TileReply, Thrown>, map<string, Bytes>))
    requires Drawable(ml)
    ensures forall k :: k in blanks ==> k in r.1 && r.1[k] == blanks[k]
    ensures !ValidAddress(RangeOf(ml), BBoxOf(ml), be.xyz, x, y, z) ==> r == SendBlank(bg, format, be, blanks)
    ensures ValidAddress(RangeOf(ml), BBoxOf(ml), be.xyz, x, y, z) && ml.Single? ==>
      match be.fetch(ml.layer.tiles.value, z, x, y)
      case Ok(reply) => r == (Ok(reply), blanks)
      case Err(_) => r == SendBlank(bg, format, be, blanks)
    ensures ValidAddress(RangeOf(ml), BBoxOf(ml), be.xyz, x, y, z) && ml.Composite? ==>
      var s := Survivors(ml.members, z, x, y, be, blanks);
      && (|s| == 0 ==> r == SendBlank(bg, format, be, blanks))
      && (|s| > 0 ==>
            match be.blend(Datas(s))
            case Ok(img) => r == (Ok(Blended(img, be)), blanks)
            case Err(_) => r == SendBlank(bg, format, be, blanks))
  {
    if CheckTile(RangeOf(ml), BBoxOf(ml), be.xyz, x, y, z).Some? then SendBlank(bg, format, be, blanks)
    else
      match ml
      case Single(l) =>
        (match be.fetch(l.tiles.value, z, x, y)
         case Err(_) => SendBlank(bg, format, be, blanks)
         case Ok(reply) => (Ok(reply), blanks))
      case Composite(members, _, _) =>
        var s := Survivors(members, z, x, y, be, blanks);
        if |s| == 0 then SendBlank(bg, format, be, blanks)
        else
          match be.blend(Datas(s))
          case Err(_) => SendBlank(bg, format, be, blanks)
          case Ok(img) => (Ok(Blended(img, be)), blanks)
  }
}
