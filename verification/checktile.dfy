/** `checkTile(layer, x, y, z)` (lib/checkTile.js): the first axis of a WMTS tile address that
    falls outside a layer's zoom range or its tile-index box at that zoom. */
module TileCheck {
  import opened Wrappers
  import opened Model

  /** The axes in the order they are checked. */
  datatype Axis = TileMatrix | TileRow | TileColumn

  /** The locator reported for an axis. */
  function AxisName(a: Axis): string
  {
    match a
    case TileMatrix => "TILEMATRIX"
    case TileRow => "TILEROW"
    case TileColumn => "TILECOLUMN"
  }

  predicate ZoomIn(range: Range, z: int)
  {
    range.lo <= z <= range.hi
  }

  predicate RowIn(box: TileBox, y: int)
  {
    box.minY <= y <= box.maxY
  }

  predicate ColumnIn(box: TileBox, x: int)
  {
    box.minX <= x <= box.maxX
  }

  /** A tile address the layer can serve: zoom in range, row and column inside the tile box
      `merc.xyz` computes for the layer's bbox at that zoom. */
  predicate ValidAddress(range: Range, bbox: BBox, xyz: (BBox, int) -> TileBox, x: int, y: int, z: int)
  {
    ZoomIn(range, z) && RowIn(xyz(bbox, z), y) && ColumnIn(xyz(bbox, z), x)
  }

  /** `checkTile`: `None` stands for `false`. */
  function CheckTile(range: Range, bbox: BBox, xyz: (BBox, int) -> TileBox, x: int, y: int, z: int): (r: Option<Axis>)
    ensures r.None? <==> ValidAddress(range, bbox, xyz, x, y, z)
    ensures r == Some(TileMatrix) <==> !ZoomIn(range, z)
    ensures r == Some(TileRow) <==> ZoomIn(range, z) && !RowIn(xyz(bbox, z), y)
    ensures r == Some(TileColumn) <==> ZoomIn(range, z) && RowIn(xyz(bbox, z), y) && !ColumnIn(xyz(bbox, z), x)
  {
    if z < range.lo || z > range.hi then Some(TileMatrix)
    else
      var box := xyz(bbox, z);
      if y < box.minY || y > box.maxY then Some(TileRow)
      else if x < box.minX || x > box.maxX then Some(TileColumn)
      else None
  }

  /** A zoom outside the range is reported whatever the row and column are. */
  lemma ZoomDecides(range: Range, bbox: BBox, xyz: (BBox, int) -> TileBox, x: int, y: int, x': int, y': int, z: int)
    requires !ZoomIn(range, z)
    ensures CheckTile(range, bbox, xyz, x, y, z) == CheckTile(range, bbox, xyz, x', y', z) == Some(TileMatrix)
  {
  }

  /** With the zoom in range, a row outside the box is reported whatever the column is. */
  lemma RowDecides(range: Range, bbox: BBox, xyz: (BBox, int) -> TileBox, x: int, x': int, y: int, z: int)
    requires ZoomIn(range, z) && !RowIn(xyz(bbox, z), y)
    ensures CheckTile(range, bbox, xyz, x, y, z) == CheckTile(range, bbox, xyz, x', y, z) == Some(TileRow)
  {
  }

  /** Pushing exactly one coordinate of a valid address out of its bound names exactly that axis. */
  lemma OneAxisOut(range: Range, bbox: BBox, xyz: (BBox, int) -> TileBox, x: int, y: int, z: int, x': int, y': int)
    requires ValidAddress(range, bbox, xyz, x, y, z)
    ensures !ColumnIn(xyz(bbox, z), x') ==> CheckTile(range, bbox, xyz, x', y, z) == Some(TileColumn)
    ensures !RowIn(xyz(bbox, z), y') ==> CheckTile(range, bbox, xyz, x, y', z) == Some(TileRow)
  {
  }
}
