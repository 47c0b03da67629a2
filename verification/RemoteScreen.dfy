/** The remote desktop's picture on its way to the screen: the session's frame with the rectangles
    that changed, the item's tiles of 256 x 256 pixels, and a scene graph node per tile. */
module RemoteScreen {
  import opened Common

  function Min(a: int, b: int): int { if a < b then a else b }
  function Max(a: int, b: int): int { if a < b then b else a }

  // ---- Pixels in a buffer of bytes ----------------------------------------------------------

  /** The four bytes of a pixel. */
  datatype Color = Color(r: int, g: int, b: int, x: int)

  const BLACK := Color(0, 0, 0, 255)

  /** A buffer of rows of `stride` bytes has the pixels of a picture of `w` x `h`. */
  predicate Holds(bytes: seq<int>, stride: int, w: int, h: int) {
    w >= 0 && h >= 0 && stride >= 4 * w && |bytes| >= stride * h
  }

  lemma RowsApart(stride: int, a: int, b: int)
    requires stride >= 0 && a < b
    ensures a * stride + stride <= b * stride
    decreases b - a
  {
    if a + 1 < b {
      RowsApart(stride, a, b - 1);
    }
    assert (b - 1) * stride + stride == b * stride;
  }

  lemma PixelInside(bytes: seq<int>, stride: int, w: int, h: int, x: int, y: int)
    requires Holds(bytes, stride, w, h) && 0 <= x < w && 0 <= y < h
    ensures 0 <= y * stride + 4 * x && y * stride + 4 * x + 4 <= |bytes|
  {
    RowsApart(stride, y, h);
    assert y * stride >= 0;
  }

  function ColorAt(bytes: seq<int>, o: int): Color
    requires 0 <= o && o + 4 <= |bytes|
  {
    Color(bytes[o], bytes[o + 1], bytes[o + 2], bytes[o + 3])
  }

  function PixelAt(bytes: seq<int>, stride: int, w: int, h: int, x: int, y: int): Color
    requires Holds(bytes, stride, w, h) && 0 <= x < w && 0 <= y < h
  {
    PixelInside(bytes, stride, w, h, x, y);
    ColorAt(bytes, y * stride + 4 * x)
  }

  // ---- Tiles --------------------------------------------------------------------------------

  const TILE := 256

  type Image = seq<seq<Color>>

  /** A part of the desktop, at (x, y). An image is a value: copies don't share changes. */
  datatype Tile = Tile(x: int, y: int, image: Image, dirty: bool) {
    predicate Covers(px: int, py: int) {
      x <= px < x + Width() && y <= py < y + Height()
    }

    function Height(): int { |image| }
    function Width(): int { if image == [] then 0 else |image[0]| }
  }

  /** The tile that (x, y) of a desktop of `w` x `h` belongs to, is `t`. */
  predicate Belongs(t: Tile, x: int, y: int) {
    t.x == x - x % TILE && t.y == y - y % TILE
  }

  ghost predicate TileOk(t: Tile, w: int, h: int) {
    && 0 <= t.x < w && 0 <= t.y < h && t.x % TILE == 0 && t.y % TILE == 0
    && |t.image| == Min(TILE, h - t.y)
    && forall row :: 0 <= row < |t.image| ==> |t.image[row]| == Min(TILE, w - t.x)
  }

  lemma CoversWhatBelongs(t: Tile, w: int, h: int, x: int, y: int)
    requires TileOk(t, w, h) && 0 <= x < w && 0 <= y < h
    ensures t.Covers(x, y) <==> Belongs(t, x, y)
  {
  }

  ghost predicate HasTile(tiles: seq<Tile>, x: int, y: int) {
    exists i :: 0 <= i < |tiles| && tiles[i].x == x && tiles[i].y == y
  }

  /** The tiles cover the desktop, each pixel once. */
  ghost predicate Tiled(tiles: seq<Tile>, w: int, h: int) {
    && (forall i :: 0 <= i < |tiles| ==> TileOk(tiles[i], w, h))
    && (forall i, j :: 0 <= i < j < |tiles| ==> tiles[i].x != tiles[j].x || tiles[i].y != tiles[j].y)
    && forall x, y :: 0 <= x < w && 0 <= y < h && x % TILE == 0 && y % TILE == 0 ==> HasTile(tiles, x, y)
  }

  /** Every pixel of the desktop belongs to exactly one tile. */
  lemma OneTileEach(tiles: seq<Tile>, w: int, h: int, x: int, y: int)
    requires Tiled(tiles, w, h) && 0 <= x < w && 0 <= y < h
    ensures exists i :: 0 <= i < |tiles| && tiles[i].Covers(x, y)
    ensures forall i, j :: 0 <= i < |tiles| && 0 <= j < |tiles| && tiles[i].Covers(x, y) && tiles[j].Covers(x, y) ==> i == j
  {
    assert HasTile(tiles, x - x % TILE, y - y % TILE);
    forall i | 0 <= i < |tiles|
      ensures tiles[i].Covers(x, y) <==> Belongs(tiles[i], x, y)
    {
      CoversWhatBelongs(tiles[i], w, h, x, y);
    }
  }

  function InTile(t: Tile, x: int, y: int): Color
    requires t.Covers(x, y) && forall row :: 0 <= row < |t.image| ==> |t.image[row]| == t.Width()
  {
    t.image[y - t.y][x - t.x]
  }

  /** The tiles show the picture `flat`, a function of the place given as rows. */
  ghost predicate Shows(tiles: seq<Tile>, w: int, h: int, flat: Image) {
    && Tiled(tiles, w, h) && Rectangular(flat, w, h)
    && forall i, x, y :: 0 <= i < |tiles| && 0 <= x < w && 0 <= y < h && tiles[i].Covers(x, y) ==>
         InTile(tiles[i], x, y) == flat[y][x]
  }

  ghost predicate Rectangular(p: Image, w: int, h: int) {
    w >= 0 && h >= 0 && |p| == h && forall y :: 0 <= y < h ==> |p[y]| == w
  }

  // ---- Making tiles -------------------------------------------------------------------------

  function BlackImage(w: int, h: int): (p: Image)
    requires w >= 0 && h >= 0
    ensures Rectangular(p, w, h) && forall x, y :: 0 <= x < w && 0 <= y < h ==> p[y][x] == BLACK
  {
    seq(h, _ => seq(w, _ => BLACK))
  }

  function BlackTile(x: int, y: int, w: int, h: int): Tile
    requires x < w && y < h
  {
    Tile(x, y, BlackImage(Min(TILE, w - x), Min(TILE, h - y)), false)
  }

  /** The grid of tiles up to (column, row), in reading order, all black. */
  ghost predicate TiledUpTo(tiles: seq<Tile>, w: int, h: int, column: int, row: int) {
    && (forall i :: 0 <= i < |tiles| ==>
          && 0 <= tiles[i].x < w && 0 <= tiles[i].y < h && tiles[i].x % TILE == 0 && tiles[i].y % TILE == 0
          && tiles[i] == BlackTile(tiles[i].x, tiles[i].y, w, h)
          && Earlier(tiles[i].x, tiles[i].y, column * TILE, row * TILE))
    && (forall i, j :: 0 <= i < j < |tiles| ==> Earlier(tiles[i].x, tiles[i].y, tiles[j].x, tiles[j].y))
    && forall x, y :: 0 <= x < w && 0 <= y < h && x % TILE == 0 && y % TILE == 0 ==>
         (Earlier(x, y, column * TILE, row * TILE) ==> HasTile(tiles, x, y))
  }

  predicate Earlier(x: int, y: int, a: int, b: int) {
    y < b || (y == b && x < a)
  }

  lemma TileAdded(tiles: seq<Tile>, w: int, h: int, column: int, row: int)
    requires 0 <= column && 0 <= row && column * TILE < w && row * TILE < h
    requires TiledUpTo(tiles, w, h, column, row)
    ensures TiledUpTo(tiles + [BlackTile(column * TILE, row * TILE, w, h)], w, h, column + 1, row)
  {
    var more := tiles + [BlackTile(column * TILE, row * TILE, w, h)];
    forall x, y | 0 <= x < w && 0 <= y < h && x % TILE == 0 && y % TILE == 0 &&
                  Earlier(x, y, (column + 1) * TILE, row * TILE)
      ensures HasTile(more, x, y)
    {
      if Earlier(x, y, column * TILE, row * TILE) {
        var i :| 0 <= i < |tiles| && tiles[i].x == x && tiles[i].y == y;
        assert more[i] == tiles[i];
      } else {
        assert more[|tiles|].x == x && more[|tiles|].y == y;
      }
    }
  }

  lemma RowOfTilesDone(tiles: seq<Tile>, w: int, h: int, columns: int, row: int)
    requires 0 <= w <= columns * TILE && TiledUpTo(tiles, w, h, columns, row)
    ensures TiledUpTo(tiles, w, h, 0, row + 1)
  {
  }

  lemma AllTilesDone(tiles: seq<Tile>, w: int, h: int, rows: int)
    requires 0 <= w && 0 <= h <= rows * TILE && TiledUpTo(tiles, w, h, 0, rows)
    ensures Shows(tiles, w, h, BlackImage(w, h))
  {
    forall i | 0 <= i < |tiles|
      ensures TileOk(tiles[i], w, h)
      ensures forall x, y :: 0 <= x < w && 0 <= y < h && tiles[i].Covers(x, y) ==> InTile(tiles[i], x, y) == BLACK
    {
      assert tiles[i] == BlackTile(tiles[i].x, tiles[i].y, w, h);
    }
    forall x, y | 0 <= x < w && 0 <= y < h && x % TILE == 0 && y % TILE == 0
      ensures HasTile(tiles, x, y)
    {
      assert Earlier(x, y, 0, rows * TILE);
    }
  }

  // ---- Writing ------------------------------------------------------------------------------

  /** What a write of `r` covers of the desktop, after clipping. */
  predicate Written(x: int, y: int, w: int, h: int, px: int, py: int) {
    x <= px < x + w && y <= py < y + h
  }

  /** The picture with the written pixels taken from the frame. */
  ghost function FlatWrite(flat: Image, w: int, h: int, x: int, y: int, rw: int, rh: int,
                           frame: seq<int>, stride: int): (p: Image)
    requires Rectangular(flat, w, h)
    ensures Rectangular(p, w, h)
    ensures forall px, py :: 0 <= px < w && 0 <= py < h ==>
              p[py][px] == if Holds(frame, stride, w, h) && Written(x, y, rw, rh, px, py)
                           then PixelAt(frame, stride, w, h, px, py) else flat[py][px]
  {
    seq(h, py requires 0 <= py < h =>
      seq(w, px requires 0 <= px < w =>
        if Holds(frame, stride, w, h) && Written(x, y, rw, rh, px, py)
        then PixelAt(frame, stride, w, h, px, py) else flat[py][px]))
  }

  /** The part of a tile from `left` to `right` in the rows from `top` to `bottom` is the frame's. */
  ghost predicate TileWritten(before: Tile, after: Tile, left: int, top: int, right: int, bottom: int,
                              frame: seq<int>, stride: int, w: int, h: int)
    requires Holds(frame, stride, w, h) && TileOk(before, w, h)
  {
    && TileOk(after, w, h) && after.x == before.x && after.y == before.y
    && forall x, y :: 0 <= x < w && 0 <= y < h && before.Covers(x, y) ==>
         InTile(after, x, y) == if left <= x < right && top <= y < bottom
                                then PixelAt(frame, stride, w, h, x, y) else InTile(before, x, y)
  }

  /** A row of a tile with the bytes of the frame copied over the pixels from `left` to `right`. */
  function CopySpan(line: seq<Color>, at: int, left: int, right: int, y: int,
                    frame: seq<int>, stride: int, w: int, h: int): (r: seq<Color>)
    requires Holds(frame, stride, w, h) && 0 <= y < h && 0 <= left <= right <= w
    requires at <= left && right <= at + |line|
    ensures |r| == |line|
  {
    line[..left - at]
    + seq(right - left, i requires 0 <= i < right - left => PixelAt(frame, stride, w, h, left + i, y))
    + line[right - at..]
  }

  lemma RowWritten(tile: Tile, before: Tile, after: Tile, left: int, top: int, right: int, row: int,
                   frame: seq<int>, stride: int, w: int, h: int)
    requires Holds(frame, stride, w, h) && TileOk(tile, w, h)
    requires tile.x <= left < right <= tile.x + tile.Width()
    requires tile.y <= top <= row < tile.y + tile.Height()
    requires TileWritten(tile, before, left, top, right, row, frame, stride, w, h)
    requires after == before.(image := before.image[row - tile.y :=
               CopySpan(before.image[row - tile.y], tile.x, left, right, row, frame, stride, w, h)])
    ensures TileWritten(tile, after, left, top, right, row + 1, frame, stride, w, h)
  {
  }

  method WriteTile(tile: Tile, left: int, top: int, right: int, bottom: int,
                   frame: seq<int>, stride: int, w: int, h: int) returns (t: Tile)
    requires Holds(frame, stride, w, h) && TileOk(tile, w, h)
    requires tile.x <= left < right <= tile.x + tile.Width()
    requires tile.y <= top < bottom <= tile.y + tile.Height()
    ensures TileWritten(tile, t, left, top, right, bottom, frame, stride, w, h) && t.dirty
  {
    t := tile;
    for row := top to bottom
      invariant TileWritten(tile, t, left, top, right, row, frame, stride, w, h)
    {
      var line := CopySpan(t.image[row - tile.y], tile.x, left, right, row, frame, stride, w, h);
      ghost var before := t;
      t := t.(image := t.image[row - tile.y := line]);
      RowWritten(tile, before, t, left, top, right, row, frame, stride, w, h);
    }
    t := t.(dirty := true);
  }

  /** The write touches the tile: a pixel of it is written. */
  ghost predicate Touched(t: Tile, x: int, y: int, w: int, h: int) {
    exists px, py :: t.Covers(px, py) && Written(x, y, w, h, px, py)
  }

  /** Writes a rectangle into a tile, if it touches it. */
  method WriteThrough(tile: Tile, x: int, y: int, rw: int, rh: int,
                      frame: seq<int>, stride: int, w: int, h: int) returns (t: Tile)
    requires Holds(frame, stride, w, h) && TileOk(tile, w, h)
    ensures TileWritten(tile, t, x, y, x + rw, y + rh, frame, stride, w, h)
    ensures t.dirty == (tile.dirty || Touched(tile, x, y, rw, rh))
    ensures !Touched(tile, x, y, rw, rh) ==> t == tile
  {
    // The clipped rectangle, then its part in the tile.
    var right, bottom := Min(x + rw, w), Min(y + rh, h);
    var left, top := Max(Max(0, x), tile.x), Max(Max(0, y), tile.y);
    var tileRight, tileBottom := Min(right, tile.x + tile.Width()), Min(bottom, tile.y + tile.Height());
    if tileRight <= left || tileBottom <= top {
      return tile;
    }
    assert tile.Covers(left, top) && Written(x, y, rw, rh, left, top);
    t := WriteTile(tile, left, top, tileRight, tileBottom, frame, stride, w, h);
  }

  /** After a write into every tile, the tiles show the written picture. */
  lemma WrittenShows(before: seq<Tile>, after: seq<Tile>, w: int, h: int, flat: Image,
                     x: int, y: int, rw: int, rh: int, frame: seq<int>, stride: int)
    requires Holds(frame, stride, w, h) && Shows(before, w, h, flat) && |after| == |before|
    requires forall i :: 0 <= i < |before| ==>
               TileWritten(before[i], after[i], x, y, x + rw, y + rh, frame, stride, w, h)
    ensures Shows(after, w, h, FlatWrite(flat, w, h, x, y, rw, rh, frame, stride))
  {
    forall px, py | 0 <= px < w && 0 <= py < h && px % TILE == 0 && py % TILE == 0
      ensures HasTile(after, px, py)
    {
      assert HasTile(before, px, py);
      var i :| 0 <= i < |before| && before[i].x == px && before[i].y == py;
      assert after[i].x == px && after[i].y == py;
    }
    forall i, px, py | 0 <= i < |after| && 0 <= px < w && 0 <= py < h && after[i].Covers(px, py)
      ensures InTile(after[i], px, py) == FlatWrite(flat, w, h, x, y, rw, rh, frame, stride)[py][px]
    {
      PixelWritten(before[i], after[i], w, h, flat[py][px], x, y, rw, rh, frame, stride, px, py);
    }
  }

  lemma PixelWritten(before: Tile, after: Tile, w: int, h: int, color: Color,
                     x: int, y: int, rw: int, rh: int, frame: seq<int>, stride: int, px: int, py: int)
    requires Holds(frame, stride, w, h) && TileOk(before, w, h)
    requires TileWritten(before, after, x, y, x + rw, y + rh, frame, stride, w, h)
    requires 0 <= px < w && 0 <= py < h && after.Covers(px, py)
    requires before.Covers(px, py) ==> InTile(before, px, py) == color
    ensures InTile(after, px, py) == if Written(x, y, rw, rh, px, py) then PixelAt(frame, stride, w, h, px, py)
                                     else color
  {
    CoversWhatBelongs(before, w, h, px, py);
    CoversWhatBelongs(after, w, h, px, py);
  }

  /** A node's texture, if it could be made, and the tile it shows agree. */
  predicate Fresh(texture: Option<Image>, tile: Tile) {
    texture == None || tile.dirty || texture == Some(tile.image)
  }

  /** How many nodes the root has after a paint. A fresh root has none, and doesn't ask for them. */
  function NodesAfterPaint(nodes: nat, tiles: nat, rebuild: bool, newRoot: bool): nat {
    if rebuild then tiles else if newRoot then 0 else nodes
  }

  class Item {
    var width: int
    var height: int
    var tiles: seq<Tile>
    var rebuildNodes: bool
    /** The textures of the root's nodes, one per tile. */
    var nodes: seq<Option<Image>>
    /** The generation of the frame that was drawn (-1: none). */
    var drawnGeneration: int
    /** One flat picture, resized and written the same way. */
    ghost var flat: Image
    /** How many textures could not be made. */
    ghost var misses: nat

    ghost predicate Valid()
      reads this
    {
      && Shows(tiles, width, height, flat)
      && (!rebuildNodes ==>
            && (|nodes| == 0 || |nodes| == |tiles|)
            && forall i :: 0 <= i < |nodes| ==> Fresh(nodes[i], tiles[i]))
    }

    /** The root has a node for each tile, or is about to. */
    ghost predicate Attached()
      reads this
    {
      rebuildNodes || |nodes| == |tiles|
    }

    constructor ()
      ensures Valid() && Attached() && width == height == 0 && drawnGeneration == -1
    {
      width, height, tiles, rebuildNodes, nodes, drawnGeneration, flat := 0, 0, [], false, [], -1, [];
      misses := 0;
    }

    method ResizeFramebuffer(w: int, h: int)
      requires Valid()
      modifies this`width, this`height, this`tiles, this`rebuildNodes, this`flat
      ensures Valid() && Attached() && rebuildNodes
      ensures width == Max(0, w) && height == Max(0, h) && flat == BlackImage(width, height)
    {
      width, height := Max(0, w), Max(0, h);
      flat := BlackImage(width, height);
      rebuildNodes := true;
      tiles := MakeTiles(width, height);
    }

    /** Copies a rectangle of the frame, clipped to the desktop, into the tiles. */
    method WritePixels(x: int, y: int, w: int, h: int, frame: seq<int>, stride: int)
      requires Valid()
      modifies this`tiles, this`flat
      ensures Valid() && |tiles| == |old(tiles)|
      ensures flat == FlatWrite(old(flat), width, height, x, y, w, h, frame, stride)
      ensures forall i :: 0 <= i < |tiles| ==>
                tiles[i].dirty == (old(tiles)[i].dirty ||
                  (Holds(frame, stride, width, height) && Touched(old(tiles)[i], x, y, w, h)))
    {
      ghost var before := flat;
      flat := FlatWrite(flat, width, height, x, y, w, h, frame, stride);
      var right, bottom := Min(x + w, width), Min(y + h, height);
      if right <= Max(0, x) || bottom <= Max(0, y) || stride < width * 4 || |frame| < stride * height {
        NothingWritten(tiles, width, height, before, x, y, w, h, frame, stride);
        return;
      }
      ghost var shown := tiles;
      tiles := WriteTiles(tiles, x, y, w, h, frame, stride, width, height);
      WrittenShows(shown, tiles, width, height, before, x, y, w, h, frame, stride);
    }

    /** The color of a pixel of the desktop, none outside of it. */
    method PixelColor(x: int, y: int) returns (color: Option<Color>)
      requires Valid()
      ensures color == if 0 <= x < width && 0 <= y < height then Some(flat[y][x]) else None
    {
      for i := 0 to |tiles|
        invariant forall j :: 0 <= j < i ==> !tiles[j].Covers(x, y)
      {
        if tiles[i].Covers(x, y) {
          return Some(InTile(tiles[i], x, y));
        }
      }
      if 0 <= x < width && 0 <= y < height {
        OneTileEach(tiles, width, height, x, y);
      }
      color := None;
    }

    /** Makes a texture; none when it can't be made. */
    method CreateTexture(image: Image) returns (t: Option<Image>)
      modifies this`misses
      ensures if t == None then misses == old(misses) + 1 else misses == old(misses) && t == Some(image)
    {
      var made: bool := *;
      if !made {
        misses := misses + 1;
        return None;
      }
      t := Some(image);
    }

    /** A paint: only tiles that changed are uploaded again. */
    method UpdatePaintNode(newRoot: bool)
      requires Valid()
      modifies this`tiles, this`rebuildNodes, this`nodes, this`misses
      ensures Valid() && !rebuildNodes && old(misses) <= misses
      ensures misses == old(misses) ==> forall i :: 0 <= i < |nodes| ==> nodes[i] == Some(tiles[i].image)
      ensures |tiles| == |old(tiles)| && |nodes| == NodesAfterPaint(|old(nodes)|, |tiles|, old(rebuildNodes), newRoot)
      ensures forall i :: 0 <= i < |tiles| && i < |nodes| ==> tiles[i] == old(tiles)[i].(dirty := false)
      ensures forall i :: 0 <= i < |nodes| ==> nodes[i] == None || nodes[i] == Some(tiles[i].image)
      ensures |nodes| == |tiles| <==> old(rebuildNodes) || tiles == [] || (!newRoot && old(Attached()))
    {
      if newRoot {
        nodes := [];
      }
      if rebuildNodes {
        RebuildNodes();
      }
      ghost var t0 := tiles;
      UploadChanged();
      CleanShows(t0, tiles, width, height, flat);
    }

    /** A new texture for each node whose tile changed, or that has none. */
    method UploadChanged()
      requires |nodes| == 0 || |nodes| == |tiles|
      requires forall i :: 0 <= i < |nodes| ==> Fresh(nodes[i], tiles[i])
      modifies this`tiles, this`nodes, this`misses
      ensures |tiles| == |old(tiles)| && |nodes| == |old(nodes)| && old(misses) <= misses
      ensures forall i :: 0 <= i < |tiles| ==> tiles[i] == if |nodes| == 0 then old(tiles)[i] else old(tiles)[i].(dirty := false)
      ensures forall i :: 0 <= i < |nodes| ==> nodes[i] == None || nodes[i] == Some(tiles[i].image)
      ensures misses == old(misses) ==> forall i :: 0 <= i < |nodes| ==> nodes[i] == Some(tiles[i].image)
    {
      var i := 0;
      ghost var t0, n0 := tiles, nodes;
      while i < |tiles| && i < |nodes|
        invariant 0 <= i <= |nodes| && |tiles| == |t0| && |nodes| == |n0| && old(misses) <= misses
        invariant forall j :: 0 <= j < |tiles| ==> tiles[j] == if j < i then t0[j].(dirty := false) else t0[j]
        invariant forall j :: 0 <= j < i ==> nodes[j] == None || nodes[j] == Some(tiles[j].image)
        invariant misses == old(misses) ==> forall j :: 0 <= j < i ==> nodes[j] == Some(tiles[j].image)
        invariant forall j :: i <= j < |nodes| ==> nodes[j] == n0[j]
      {
        if tiles[i].dirty || nodes[i] == None {
          var t := CreateTexture(tiles[i].image);
          nodes := nodes[i := t];
          tiles := tiles[i := tiles[i].(dirty := false)];
        }
        i := i + 1;
      }
    }

    method RebuildNodes()
      requires Shows(tiles, width, height, flat)
      modifies this`tiles, this`rebuildNodes, this`nodes, this`misses
      ensures old(misses) <= misses
      ensures !rebuildNodes && |nodes| == |tiles| == |old(tiles)| && Shows(tiles, width, height, flat)
      ensures forall i :: 0 <= i < |tiles| ==> tiles[i] == old(tiles)[i].(dirty := false)
      ensures forall i :: 0 <= i < |nodes| ==> nodes[i] == None || nodes[i] == Some(tiles[i].image)
    {
      nodes := [];
      ghost var t0 := tiles;
      for i := 0 to |tiles|
        invariant |nodes| == i && |tiles| == |t0| && old(misses) <= misses
        invariant forall j :: 0 <= j < i ==> tiles[j] == t0[j].(dirty := false)
        invariant forall j :: 0 <= j < i ==> nodes[j] == None || nodes[j] == Some(tiles[j].image)
        invariant forall j :: i <= j < |tiles| ==> tiles[j] == t0[j]
      {
        var t := CreateTexture(tiles[i].image);
        nodes := nodes + [t];
        tiles := tiles[i := tiles[i].(dirty := false)];
      }
      rebuildNodes := false;
      CleanShows(t0, tiles, width, height, flat);
    }
  }

  lemma CleanShows(before: seq<Tile>, after: seq<Tile>, w: int, h: int, flat: Image)
    requires Shows(before, w, h, flat) && |after| == |before|
    requires forall i :: 0 <= i < |after| ==> after[i] == before[i].(dirty := after[i].dirty)
    ensures Shows(after, w, h, flat)
  {
    forall x, y | 0 <= x < w && 0 <= y < h && x % TILE == 0 && y % TILE == 0
      ensures HasTile(after, x, y)
    {
      assert HasTile(before, x, y);
      var i :| 0 <= i < |before| && before[i].x == x && before[i].y == y;
      assert after[i].x == x && after[i].y == y;
    }
  }

  /** A write that is clipped away, or from a frame that is too small, changes nothing. */
  lemma NothingWritten(tiles: seq<Tile>, w: int, h: int, flat: Image, x: int, y: int, rw: int, rh: int,
                       frame: seq<int>, stride: int)
    requires Shows(tiles, w, h, flat)
    requires Min(x + rw, w) <= Max(0, x) || Min(y + rh, h) <= Max(0, y) || !Holds(frame, stride, w, h)
    ensures FlatWrite(flat, w, h, x, y, rw, rh, frame, stride) == flat
    ensures Holds(frame, stride, w, h) ==>
              forall i :: 0 <= i < |tiles| ==> !Touched(tiles[i], x, y, rw, rh)
  {
    var p := FlatWrite(flat, w, h, x, y, rw, rh, frame, stride);
    forall py | 0 <= py < h
      ensures p[py] == flat[py]
    {
    }
  }

  method MakeTiles(w: int, h: int) returns (tiles: seq<Tile>)
    requires w >= 0 && h >= 0
    ensures Shows(tiles, w, h, BlackImage(w, h))
  {
    tiles := [];
    var columns, rows := (w + TILE - 1) / TILE, (h + TILE - 1) / TILE;
    for row := 0 to rows
      invariant TiledUpTo(tiles, w, h, 0, row)
    {
      for column := 0 to columns
        invariant TiledUpTo(tiles, w, h, column, row)
      {
        TileAdded(tiles, w, h, column, row);
        tiles := tiles + [BlackTile(column * TILE, row * TILE, w, h)];
      }
      RowOfTilesDone(tiles, w, h, columns, row);
    }
    AllTilesDone(tiles, w, h, rows);
  }

  method WriteTiles(tiles: seq<Tile>, x: int, y: int, rw: int, rh: int, frame: seq<int>, stride: int,
                    w: int, h: int) returns (r: seq<Tile>)
    requires Holds(frame, stride, w, h) && forall i :: 0 <= i < |tiles| ==> TileOk(tiles[i], w, h)
    ensures |r| == |tiles|
    ensures forall i :: 0 <= i < |tiles| ==>
              && TileWritten(tiles[i], r[i], x, y, x + rw, y + rh, frame, stride, w, h)
              && r[i].dirty == (tiles[i].dirty || Touched(tiles[i], x, y, rw, rh))
              && (!Touched(tiles[i], x, y, rw, rh) ==> r[i] == tiles[i])
  {
    r := [];
    for i := 0 to |tiles|
      invariant |r| == i
      invariant forall j :: 0 <= j < i ==>
                  && TileWritten(tiles[j], r[j], x, y, x + rw, y + rh, frame, stride, w, h)
                  && r[j].dirty == (tiles[j].dirty || Touched(tiles[j], x, y, rw, rh))
                  && (!Touched(tiles[j], x, y, rw, rh) ==> r[j] == tiles[j])
    {
      var t := WriteThrough(tiles[i], x, y, rw, rh, frame, stride, w, h);
      r := r + [t];
    }
  }

  // ---- The session's frame ------------------------------------------------------------------

  const MAX_DIRTY := 64
  const U16_MAX := 65535

  /** A rectangle of 16-bit numbers. */
  datatype Rect = Rect(x: nat, y: nat, width: nat, height: nat) {
    predicate Valid() { x <= U16_MAX && y <= U16_MAX && width <= U16_MAX && height <= U16_MAX }
    predicate Covers(px: int, py: int) { Written(x, y, width, height, px, py) }

    predicate Overlaps(other: Rect) {
      && x <= other.x + other.width && other.x <= x + width
      && y <= other.y + other.height && other.y <= y + height
    }

    /** The smallest rectangle around both, its sides cut to 16 bits. */
    function Union(other: Rect): (r: Rect)
      requires Valid() && other.Valid()
      ensures r.Valid()
      ensures forall px, py :: 0 <= px < U16_MAX && 0 <= py < U16_MAX && (Covers(px, py) || other.Covers(px, py)) ==>
                r.Covers(px, py)
    {
      var left, top := Min(x, other.x), Min(y, other.y);
      var right, bottom := Max(x + width, other.x + other.width), Max(y + height, other.y + other.height);
      Rect(left, top, Min(right - left, U16_MAX), Min(bottom - top, U16_MAX))
    }
  }

  /** The remote screen and the rectangles changed since the app took them. */
  datatype Frame = Frame(width: nat, height: nat, pixels: seq<int>, dirty: seq<Rect>, generation: nat) {
    predicate Valid() {
      && width <= U16_MAX && height <= U16_MAX && |pixels| == width * height * 4
      && forall i :: 0 <= i < |dirty| ==> dirty[i].Valid()
    }

    ghost predicate Changed(x: int, y: int) {
      Covered(dirty, x, y)
    }
  }

  lemma FrameHolds(f: Frame)
    requires f.Valid()
    ensures Holds(f.pixels, 4 * f.width, f.width, f.height)
  {
    assert f.width * f.height * 4 == (4 * f.width) * f.height;
  }

  function FramePixel(f: Frame, x: int, y: int): Color
    requires f.Valid() && 0 <= x < f.width && 0 <= y < f.height
  {
    FrameHolds(f);
    PixelAt(f.pixels, 4 * f.width, f.width, f.height, x, y)
  }

  /** What the session may do to the frame between two looks of the app: a new size is a new
      generation, and every pixel that changed is marked. */
  ghost predicate Evolves(a: Frame, b: Frame)
    requires a.Valid() && b.Valid()
  {
    || b.generation > a.generation
    || (&& b.generation == a.generation && b.width == a.width && b.height == a.height
        && forall x, y :: 0 <= x < a.width && 0 <= y < a.height ==>
             && (a.Changed(x, y) ==> b.Changed(x, y))
             && (!b.Changed(x, y) ==> FramePixel(b, x, y) == FramePixel(a, x, y)))
  }

  /** Marking `rect` covers what was covered, and `rect`. */
  ghost predicate Marks(before: seq<Rect>, after: seq<Rect>, rect: Rect) {
    && (forall i :: 0 <= i < |after| ==> after[i].Valid())
    && forall x, y :: 0 <= x < U16_MAX && 0 <= y < U16_MAX ==>
         (Covered(before, x, y) || rect.Covers(x, y) ==> Covered(after, x, y))
  }

  ghost predicate Covered(rects: seq<Rect>, x: int, y: int) {
    exists i :: 0 <= i < |rects| && rects[i].Covers(x, y)
  }

  /** Merges with the first overlapping rectangle, else keeps it apart, up to a limit. */
  method Mark(dirty: seq<Rect>, rect: Rect) returns (marked: seq<Rect>)
    requires rect.Valid() && forall i :: 0 <= i < |dirty| ==> dirty[i].Valid()
    ensures Marks(dirty, marked, rect)
    ensures |marked| <= Max(|dirty|, MAX_DIRTY)
  {
    if rect.width == 0 || rect.height == 0 {
      return dirty;
    }
    var found := 0;
    while found < |dirty| && !dirty[found].Overlaps(rect)
      invariant 0 <= found <= |dirty|
    {
      found := found + 1;
    }
    if found < |dirty| {
      marked := dirty[found := dirty[found].Union(rect)];
      MarkedInPlace(dirty, marked, found, rect);
    } else if |dirty| < MAX_DIRTY {
      marked := dirty + [rect];
      MarkedApart(dirty, rect);
    } else {
      marked := MergeAll(dirty, rect);
    }
  }

  method MergeAll(dirty: seq<Rect>, rect: Rect) returns (marked: seq<Rect>)
    requires rect.Valid() && forall i :: 0 <= i < |dirty| ==> dirty[i].Valid()
    ensures |marked| == 1 && Marks(dirty, marked, rect)
  {
    var all := rect;
    for i := 0 to |dirty|
      invariant all.Valid()
      invariant forall x, y :: 0 <= x < U16_MAX && 0 <= y < U16_MAX && rect.Covers(x, y) ==> all.Covers(x, y)
      invariant forall x, y, j :: 0 <= x < U16_MAX && 0 <= y < U16_MAX && 0 <= j < i && dirty[j].Covers(x, y) ==>
                  all.Covers(x, y)
    {
      all := all.Union(dirty[i]);
    }
    marked := [all];
    forall x, y | 0 <= x < U16_MAX && 0 <= y < U16_MAX && (Covered(dirty, x, y) || rect.Covers(x, y))
      ensures Covered(marked, x, y)
    {
      assert marked[0].Covers(x, y);
    }
  }

  lemma MarkedInPlace(dirty: seq<Rect>, marked: seq<Rect>, found: nat, rect: Rect)
    requires rect.Valid() && found < |dirty| && forall i :: 0 <= i < |dirty| ==> dirty[i].Valid()
    requires marked == dirty[found := dirty[found].Union(rect)]
    ensures Marks(dirty, marked, rect)
  {
    forall x, y | 0 <= x < U16_MAX && 0 <= y < U16_MAX && (Covered(dirty, x, y) || rect.Covers(x, y))
      ensures Covered(marked, x, y)
    {
      if rect.Covers(x, y) {
        assert marked[found].Covers(x, y);
      } else {
        var i :| 0 <= i < |dirty| && dirty[i].Covers(x, y);
        assert marked[i].Covers(x, y);
      }
    }
  }

  lemma MarkedApart(dirty: seq<Rect>, rect: Rect)
    requires rect.Valid() && forall i :: 0 <= i < |dirty| ==> dirty[i].Valid()
    ensures Marks(dirty, dirty + [rect], rect)
  {
    var marked := dirty + [rect];
    forall x, y | 0 <= x < U16_MAX && 0 <= y < U16_MAX && (Covered(dirty, x, y) || rect.Covers(x, y))
      ensures Covered(marked, x, y)
    {
      if rect.Covers(x, y) {
        assert marked[|dirty|].Covers(x, y);
      } else {
        var i :| 0 <= i < |dirty| && dirty[i].Covers(x, y);
        assert marked[i].Covers(x, y);
      }
    }
  }

  /** Bytes `from` were copied over `to` at offset `at`. */
  function Splice(to: seq<int>, at: int, from: seq<int>): (r: seq<int>)
    requires 0 <= at && at + |from| <= |to|
    ensures |r| == |to|
  {
    to[..at] + from + to[at + |from|..]
  }

  lemma SpliceLeaves(to: seq<int>, at: int, from: seq<int>, o: int)
    requires 0 <= at && at + |from| <= |to| && 0 <= o && o + 4 <= |to|
    requires o + 4 <= at || at + |from| <= o
    ensures ColorAt(Splice(to, at, from), o) == ColorAt(to, o)
  {
  }

  /** Copying a span of a row changes its pixels, and no others. */
  lemma SpanCopied(to: seq<int>, w: int, h: int, x: int, right: int, row: int, from: seq<int>, px: int, py: int)
    requires Holds(to, 4 * w, w, h) && 0 <= x <= right <= w && 0 <= row < h
    requires |from| == (right - x) * 4 && 0 <= px < w && 0 <= py < h
    requires 0 <= row * (4 * w) + x * 4 && row * (4 * w) + x * 4 + |from| <= |to|
    ensures var r := Splice(to, row * (4 * w) + x * 4, from);
            PixelAt(r, 4 * w, w, h, px, py) ==
            if py == row && x <= px < right
            then ColorAt(from, (px - x) * 4)
            else PixelAt(to, 4 * w, w, h, px, py)
  {
    var s := 4 * w;
    var at, o := row * s + x * 4, py * s + 4 * px;
    PixelInside(to, s, w, h, px, py);
    if !(py == row && x <= px < right) {
      if py < row {
        RowsApart(s, py, row);
      } else if row < py {
        RowsApart(s, row, py);
      }
      SpliceLeaves(to, at, from, o);
    }
  }

  /** The first `n` rows of `rect`, cut at `right`, are copied from `rgba`; nothing else changed. */
  ghost predicate RowsCopied(before: seq<int>, after: seq<int>, w: int, h: int, rect: Rect, right: int,
                             rgba: seq<int>, n: int)
    requires Holds(before, 4 * w, w, h) && |after| == |before|
    requires Holds(rgba, 4 * rect.width, rect.width, rect.height)
  {
    forall x, y :: 0 <= x < w && 0 <= y < h ==>
         PixelAt(after, 4 * w, w, h, x, y) ==
         if rect.x <= x < Min(right, rect.x + rect.width) && rect.y <= y < rect.y + Min(n, rect.height)
         then PixelAt(rgba, 4 * rect.width, rect.width, rect.height, x - rect.x, y - rect.y)
         else PixelAt(before, 4 * w, w, h, x, y)
  }

  /** The bytes of the n-th row of `rect` in the frame, and in `rgba`. */
  function RowAt(w: int, rect: Rect, n: int): int { (rect.y + n) * (4 * w) + rect.x * 4 }
  function RowFrom(rect: Rect, n: int): int { n * (4 * rect.width) }

  lemma RowFits(pixels: seq<int>, w: int, h: int, rect: Rect, right: int, rgba: seq<int>, n: int)
    requires Holds(pixels, 4 * w, w, h)
    requires Holds(rgba, 4 * rect.width, rect.width, rect.height)
    requires rect.x < right <= w && right <= rect.x + rect.width && 0 <= n < rect.height && rect.y + n < h
    ensures 0 <= RowFrom(rect, n) && RowFrom(rect, n) + (right - rect.x) * 4 <= |rgba|
    ensures 0 <= RowAt(w, rect, n) && RowAt(w, rect, n) + (right - rect.x) * 4 <= |pixels|
  {
    RowsApart(4 * rect.width, n, rect.height);
    RowsApart(4 * w, rect.y + n, h);
    assert n * (4 * rect.width) >= 0 && (rect.y + n) * (4 * w) >= 0;
  }

  function RowBytes(rect: Rect, right: int, rgba: seq<int>, n: int): seq<int>
    requires rect.x <= right && 0 <= RowFrom(rect, n) && RowFrom(rect, n) + (right - rect.x) * 4 <= |rgba|
  {
    rgba[RowFrom(rect, n)..RowFrom(rect, n) + (right - rect.x) * 4]
  }

  lemma RowBytesArePixels(rect: Rect, right: int, rgba: seq<int>, n: int, i: int)
    requires Holds(rgba, 4 * rect.width, rect.width, rect.height) && 0 <= n < rect.height
    requires rect.x < right <= rect.x + rect.width && 0 <= i < right - rect.x
    requires 0 <= RowFrom(rect, n) && RowFrom(rect, n) + (right - rect.x) * 4 <= |rgba|
    ensures ColorAt(RowBytes(rect, right, rgba, n), i * 4) ==
            PixelAt(rgba, 4 * rect.width, rect.width, rect.height, i, n)
  {
  }

  lemma RowCopied(before: seq<int>, middle: seq<int>, w: int, h: int, rect: Rect, right: int,
                  rgba: seq<int>, n: int)
    requires Holds(before, 4 * w, w, h) && |middle| == |before|
    requires Holds(rgba, 4 * rect.width, rect.width, rect.height)
    requires rect.x < right <= w && right <= rect.x + rect.width && 0 <= n < rect.height && rect.y + n < h
    requires 0 <= RowFrom(rect, n) && RowFrom(rect, n) + (right - rect.x) * 4 <= |rgba|
    requires 0 <= RowAt(w, rect, n) && RowAt(w, rect, n) + (right - rect.x) * 4 <= |middle|
    requires RowsCopied(before, middle, w, h, rect, right, rgba, n)
    ensures RowsCopied(before, Splice(middle, RowAt(w, rect, n), RowBytes(rect, right, rgba, n)), w, h, rect,
                       right, rgba, n + 1)
  {
    var after := Splice(middle, RowAt(w, rect, n), RowBytes(rect, right, rgba, n));
    forall x, y | 0 <= x < w && 0 <= y < h
      ensures PixelAt(after, 4 * w, w, h, x, y) ==
              if y == rect.y + n && rect.x <= x < right
              then PixelAt(rgba, 4 * rect.width, rect.width, rect.height, x - rect.x, n)
              else PixelAt(middle, 4 * w, w, h, x, y)
    {
      SpanCopied(middle, w, h, rect.x, right, rect.y + n, RowBytes(rect, right, rgba, n), x, y);
      if y == rect.y + n && rect.x <= x < right {
        RowBytesArePixels(rect, right, rgba, n, x - rect.x);
      }
    }
  }

  class RemoteFrame {
    var now: Frame

    constructor ()
      ensures now == Frame(0, 0, [], [], 0) && now.Valid()
    {
      now := Frame(0, 0, [], [], 0);
    }

    /** Starts over: every byte is 0, and whoever shows the frame has to take all of it. */
    method Resize(width: nat, height: nat)
      requires now.Valid() && width <= U16_MAX && height <= U16_MAX
      modifies this
      ensures now.Valid() && Evolves(old(now), now)
      ensures now.width == width && now.height == height && now.generation == old(now).generation + 1
      ensures forall x, y :: 0 <= x < width && 0 <= y < height ==> now.Changed(x, y)
      ensures |now.pixels| == width * height * 4 && forall i :: 0 <= i < |now.pixels| ==> now.pixels[i] == 0
    {
      now := Frame(width, height, seq(width * height * 4, _ => 0), [Rect(0, 0, width, height)],
                   now.generation + 1);
      assert now.dirty[0] == Rect(0, 0, width, height);
    }

    /** The part of the rectangle that the frame has takes the given pixels; too few of them, and
        nothing happens. */
    method CopyRect(rect: Rect, rgba: seq<int>)
      requires now.Valid() && rect.Valid()
      modifies this
      ensures now.Valid() && Evolves(old(now), now)
      ensures now.width == old(now).width && now.height == old(now).height
      ensures now.generation == old(now).generation
      ensures Copied(old(now), now, rect, rgba)
    {
      var right := Min(rect.x + rect.width, now.width);
      assert rect.width * 4 * rect.height == (4 * rect.width) * rect.height;
      if right <= rect.x || |rgba| < rect.width * 4 * rect.height {
        return;
      }
      FrameHolds(now);
      var pixels := CopyRows(now.pixels, now.width, now.height, rect, right, rgba);
      var dirty := Mark(now.dirty, rect);
      RectCopied(now, now.(pixels := pixels, dirty := dirty), rect, rgba);
      now := now.(pixels := pixels, dirty := dirty);
    }
  }

  /** The pixels of `rect`, as far as they are in the frame, are those of `rgba` (if it has them). */
  ghost predicate Copied(a: Frame, b: Frame, rect: Rect, rgba: seq<int>)
    requires a.Valid() && b.Valid() && b.width == a.width && b.height == a.height
  {
    forall x, y :: 0 <= x < a.width && 0 <= y < a.height ==>
      FramePixel(b, x, y) ==
      if rect.Covers(x, y) && Holds(rgba, 4 * rect.width, rect.width, rect.height)
      then PixelAt(rgba, 4 * rect.width, rect.width, rect.height, x - rect.x, y - rect.y)
      else FramePixel(a, x, y)
  }

  method CopyRows(before: seq<int>, w: nat, h: nat, rect: Rect, right: int, rgba: seq<int>)
    returns (pixels: seq<int>)
    requires Holds(before, 4 * w, w, h) && Holds(rgba, 4 * rect.width, rect.width, rect.height)
    requires rect.x < right <= w && right <= rect.x + rect.width
    ensures |pixels| == |before| && RowsCopied(before, pixels, w, h, rect, right, rgba, Max(0, h - rect.y))
  {
    pixels := before;
    var bottom := Min(rect.y + rect.height, h);
    for row := rect.y to Max(rect.y, bottom)
      invariant |pixels| == |before| && RowsCopied(before, pixels, w, h, rect, right, rgba, row - rect.y)
    {
      pixels := CopyOneRow(before, pixels, w, h, rect, right, rgba, row - rect.y);
    }
    AllRowsCopied(before, pixels, w, h, rect, right, rgba, Max(rect.y, bottom) - rect.y);
  }

  lemma AllRowsCopied(before: seq<int>, pixels: seq<int>, w: nat, h: nat, rect: Rect, right: int,
                      rgba: seq<int>, n: int)
    requires |pixels| == |before| && Holds(before, 4 * w, w, h) && Holds(rgba, 4 * rect.width, rect.width, rect.height)
    requires RowsCopied(before, pixels, w, h, rect, right, rgba, n)
    requires n == Max(rect.y, Min(rect.y + rect.height, h)) - rect.y
    ensures RowsCopied(before, pixels, w, h, rect, right, rgba, Max(0, h - rect.y))
  {
  }

  method CopyOneRow(before: seq<int>, middle: seq<int>, w: nat, h: nat, rect: Rect, right: int,
                    rgba: seq<int>, n: int) returns (pixels: seq<int>)
    requires |middle| == |before| && Holds(before, 4 * w, w, h) && Holds(rgba, 4 * rect.width, rect.width, rect.height)
    requires rect.x < right <= w && right <= rect.x + rect.width && 0 <= n < rect.height && rect.y + n < h
    requires RowsCopied(before, middle, w, h, rect, right, rgba, n)
    ensures |pixels| == |before| && RowsCopied(before, pixels, w, h, rect, right, rgba, n + 1)
  {
    RowFits(middle, w, h, rect, right, rgba, n);
    RowCopied(before, middle, w, h, rect, right, rgba, n);
    pixels := Splice(middle, RowAt(w, rect, n), RowBytes(rect, right, rgba, n));
  }

  lemma RectCopied(a: Frame, b: Frame, rect: Rect, rgba: seq<int>)
    requires a.Valid() && b == a.(pixels := b.pixels, dirty := b.dirty) && |b.pixels| == |a.pixels|
    requires rect.Valid() && Marks(a.dirty, b.dirty, rect)
    requires Holds(rgba, 4 * rect.width, rect.width, rect.height) && Holds(a.pixels, 4 * a.width, a.width, a.height)
    requires RowsCopied(a.pixels, b.pixels, a.width, a.height, rect, Min(rect.x + rect.width, a.width), rgba,
                        Max(0, a.height - rect.y))
    ensures b.Valid() && Evolves(a, b) && Copied(a, b, rect, rgba)
  {
    FrameHolds(a);
    FrameHolds(b);
    assert Copied(a, b, rect, rgba);
  }

  // ---- From the frame to the screen ---------------------------------------------------------

  /** Whatever of the frame the item doesn't show yet is marked. */
  ghost predicate InStep(flat: Image, w: int, h: int, drawn: int, f: Frame)
    requires f.Valid() && Rectangular(flat, w, h)
  {
    && drawn <= f.generation
    && (drawn == f.generation ==>
          && w == f.width && h == f.height
          && forall x, y :: 0 <= x < w && 0 <= y < h && !f.Changed(x, y) ==> flat[y][x] == FramePixel(f, x, y))
  }

  lemma StaysInStep(flat: Image, w: int, h: int, drawn: int, a: Frame, b: Frame)
    requires a.Valid() && b.Valid() && Rectangular(flat, w, h)
    requires InStep(flat, w, h, drawn, a) && Evolves(a, b)
    ensures InStep(flat, w, h, drawn, b)
  {
  }

  /** The picture is the frame's. */
  ghost predicate SamePicture(flat: Image, w: int, h: int, f: Frame)
    requires f.Valid() && Rectangular(flat, w, h)
  {
    && w == f.width && h == f.height
    && forall x, y :: 0 <= x < w && 0 <= y < h ==> flat[y][x] == FramePixel(f, x, y)
  }

  /** Takes what changed of the frame into the tiles: afterwards they show all of it. */
  method FillFramebuffer(item: Item, frame: RemoteFrame)
    requires item.Valid() && frame.now.Valid()
    requires InStep(item.flat, item.width, item.height, item.drawnGeneration, frame.now)
    modifies item`width, item`height, item`tiles, item`rebuildNodes, item`flat, item`drawnGeneration, frame
    ensures item.Valid() && (old(item.Attached()) ==> item.Attached()) && frame.now.Valid()
    ensures frame.now == old(frame.now).(dirty := frame.now.dirty)
    ensures InStep(item.flat, item.width, item.height, item.drawnGeneration, frame.now)
    ensures frame.now.width > 0 && frame.now.height > 0 ==>
              SamePicture(item.flat, item.width, item.height, frame.now) && frame.now.dirty == [] &&
              item.drawnGeneration == frame.now.generation
    ensures item.misses == old(item.misses)
    ensures frame.now.width > 0 && frame.now.height > 0 ==>
              item.rebuildNodes == (old(item.rebuildNodes) || old(item.drawnGeneration) != frame.now.generation)
    ensures old(item.drawnGeneration) == frame.now.generation ==> |item.tiles| == |old(item.tiles)|
  {
    var f := frame.now;
    if f.width == 0 || f.height == 0 {
      return;
    }
    FrameHolds(f);
    var rects := f.dirty;
    frame.now := f.(dirty := []);
    if f.generation != item.drawnGeneration {
      item.drawnGeneration := f.generation;
      item.ResizeFramebuffer(f.width, f.height);
      item.WritePixels(0, 0, f.width, f.height, f.pixels, f.width * 4);
    } else {
      for i := 0 to |rects|
        modifies item`tiles, item`flat
        invariant item.Valid() && |item.tiles| == |old(item.tiles)|
        invariant forall x, y :: 0 <= x < f.width && 0 <= y < f.height ==>
                    item.flat[y][x] == FramePixel(f, x, y) || Covered(rects[i..], x, y)
      {
        ghost var before := item.flat;
        item.WritePixels(rects[i].x, rects[i].y, rects[i].width, rects[i].height, f.pixels, f.width * 4);
        RectWritten(before, item.flat, f, rects[i..]);
        assert rects[i..][1..] == rects[i + 1..];
      }
    }
  }

  lemma RectWritten(before: Image, after: Image, f: Frame, rects: seq<Rect>)
    requires f.Valid() && rects != [] && Rectangular(before, f.width, f.height)
    requires after == FlatWrite(before, f.width, f.height, rects[0].x, rects[0].y, rects[0].width,
                                rects[0].height, f.pixels, f.width * 4)
    requires forall x, y :: 0 <= x < f.width && 0 <= y < f.height ==>
               before[y][x] == FramePixel(f, x, y) || Covered(rects, x, y)
    ensures forall x, y :: 0 <= x < f.width && 0 <= y < f.height ==>
              after[y][x] == FramePixel(f, x, y) || Covered(rects[1..], x, y)
  {
    FrameHolds(f);
    forall x, y | 0 <= x < f.width && 0 <= y < f.height
      ensures after[y][x] == FramePixel(f, x, y) || Covered(rects[1..], x, y)
    {
      if !rects[0].Covers(x, y) && Covered(rects, x, y) {
        var i :| 0 <= i < |rects| && rects[i].Covers(x, y);
        assert rects[1..][i - 1] == rects[i];
      }
    }
  }

  /** There is a node for each tile, and those with a texture show their part of the frame. */
  ghost predicate ShownWhereMade(tiles: seq<Tile>, nodes: seq<Option<Image>>, f: Frame)
    requires f.Valid()
  {
    && |nodes| == |tiles|
    && forall i, x, y :: 0 <= i < |tiles| && 0 <= x < f.width && 0 <= y < f.height && tiles[i].Covers(x, y) ==>
         nodes[i] == None || ShownAt(nodes[i].value, x - tiles[i].x, y - tiles[i].y, FramePixel(f, x, y))
  }

  /** Every pixel of the frame is shown. */
  ghost predicate OnScreen(tiles: seq<Tile>, nodes: seq<Option<Image>>, f: Frame)
    requires f.Valid()
  {
    ShownWhereMade(tiles, nodes, f) && forall i :: 0 <= i < |nodes| ==> nodes[i].Some?
  }

  predicate ShownAt(image: Image, x: int, y: int, color: Color) {
    0 <= y < |image| && 0 <= x < |image[y]| && image[y][x] == color
  }

  predicate HasSize(f: Frame) { f.width > 0 && f.height > 0 }

  /** A paint takes what changed and uploads it. If every texture can be made, the screen then shows the
      session's frame, unless the root is new and nothing asked for its nodes: then it shows none of it. */
  method Paint(item: Item, frame: RemoteFrame, newRoot: bool)
    requires item.Valid() && frame.now.Valid()
    requires InStep(item.flat, item.width, item.height, item.drawnGeneration, frame.now)
    modifies item, frame
    ensures item.Valid() && frame.now.Valid() && frame.now == old(frame.now).(dirty := frame.now.dirty)
    ensures InStep(item.flat, item.width, item.height, item.drawnGeneration, frame.now)
    ensures old(item.Attached()) && !newRoot ==> item.Attached()
    ensures !item.rebuildNodes && old(item.misses) <= item.misses
    ensures HasSize(frame.now) ==> item.drawnGeneration == frame.now.generation && frame.now.dirty == []
    ensures HasSize(frame.now) ==>
              (ShownWhereMade(item.tiles, item.nodes, frame.now) <==>
               old(item.rebuildNodes) || old(item.drawnGeneration) != frame.now.generation ||
               (!newRoot && old(item.Attached())))
    ensures item.misses == old(item.misses) && HasSize(frame.now) ==>
              (OnScreen(item.tiles, item.nodes, frame.now) <==> ShownWhereMade(item.tiles, item.nodes, frame.now))
    ensures HasSize(frame.now) && !ShownWhereMade(item.tiles, item.nodes, frame.now) ==>
              item.nodes == [] && item.tiles != []
  {
    FillFramebuffer(item, frame);
    item.UpdatePaintNode(newRoot);
    if frame.now.width > 0 && frame.now.height > 0 {
      assert HasTile(item.tiles, 0, 0);
      if |item.nodes| == |item.tiles| {
        NodesShowTheFrame(item.tiles, item.nodes, item.width, item.height, item.flat, frame.now);
      }
    }
  }

  /** For example: a screen of one pixel, painted on a root, and then on another one. */
  method AnotherRootShowsNothing() returns (item: Item, frame: RemoteFrame)
    ensures frame.now.Valid() && frame.now.width == frame.now.height == 1
    ensures item.nodes == [] && item.tiles != [] && !OnScreen(item.tiles, item.nodes, frame.now)
  {
    item := new Item();
    frame := new RemoteFrame();
    frame.Resize(1, 1);
    Paint(item, frame, true);
    Paint(item, frame, true);
  }

  lemma NodesShowTheFrame(tiles: seq<Tile>, nodes: seq<Option<Image>>, w: int, h: int, flat: Image, f: Frame)
    requires f.Valid() && Shows(tiles, w, h, flat) && SamePicture(flat, w, h, f) && |nodes| == |tiles|
    requires forall i :: 0 <= i < |nodes| ==> nodes[i] == None || nodes[i] == Some(tiles[i].image)
    ensures ShownWhereMade(tiles, nodes, f)
  {
    forall i, x, y | 0 <= i < |tiles| && 0 <= x < f.width && 0 <= y < f.height && tiles[i].Covers(x, y)
      ensures nodes[i] == None || ShownAt(nodes[i].value, x - tiles[i].x, y - tiles[i].y, FramePixel(f, x, y))
    {
      assert InTile(tiles[i], x, y) == flat[y][x];
    }
  }
}
