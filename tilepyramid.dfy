/**
 * The Python tile maker of scripts/tilemaker.py: the padded tile grid of a
 * map, and `make_tiles`, which pastes an image into a padded image and then,
 * level by level from the full zoom down to 0, cuts every level into 256-pixel
 * tiles, writes the non-empty ones and pastes a half-size copy of each into
 * the next (overview) level. Pixels are not modelled: whether the tile at
 * (z, x, y) is non-empty is an input predicate, and what the method does is
 * recorded as a trace of events (the image placement, the progress line of
 * each level, each tile written with its crop box, each overview paste).
 */
module TilePyramid {
  import opened Wrappers
  import opened Text
  import opened Tiling

  /** A PIL crop box `(left, upper, right, lower)`. */
  datatype Box = Box(left: int, upper: int, right: int, lower: int)

  /** The crop box of tile (x, y) in a level image of the given height: the
      column starts at 256x and the row's lower edge is 256y above the image
      bottom, so y = 0 is the bottom row. */
  function CropBox(x: nat, y: nat, height: nat): Box
  {
    Box(TileSize * x, height - TileSize * (y + 1), TileSize * x + TileSize, height - TileSize * y)
  }

  /** The tile file path of `os.path.join(tile_path, layer, str(z), str(x),
      '<y>.png')`, as a plain join on '/'. It agrees with `os.path.join` for a
      non-empty tile path without a trailing '/' and a relative layer name. */
  function TileName(tilePath: string, layer: string, z: nat, x: nat, y: nat): string
  {
    Join([tilePath, layer, NatToString(z), NatToString(x), NatToString(y) + ".png"], '/')
  }

  /** What one `make_tiles` call works on: the output directory, the image's
      layer name, and which tiles are non-empty (`tile.getbbox()`). */
  datatype Job = Job(tilePath: string, layer: string, occupied: (nat, nat, nat) -> bool)

  datatype Event =
    | Placed(offset: (int, int))
    | Level(z: nat, grid: (nat, nat), imageSize: (nat, nat))
    | Saved(z: nat, x: nat, y: nat, path: string, box: Box)
    | Pasted(z: nat, at: (int, int))

  /** The events of tile (x, y) at level z: for a non-empty tile, its file
      and then its half-size copy pasted at half its crop box's corner
      (Python's `//`, which for the divisor 2 is Dafny's `/`). */
  function TileEvents(job: Job, z: nat, x: nat, y: nat, height: nat): seq<Event>
  {
    if job.occupied(z, x, y) then
      var box := CropBox(x, y, height);
      [Saved(z, x, y, TileName(job.tilePath, job.layer, z, x, y), box), Pasted(z, (box.left / 2, box.upper / 2))]
    else []
  }

  /** Column x, rows 0 up to `rows`. */
  function ColumnEvents(job: Job, z: nat, x: nat, rows: nat, height: nat): seq<Event>
  {
    if rows == 0 then [] else ColumnEvents(job, z, x, rows - 1, height) + TileEvents(job, z, x, rows - 1, height)
  }

  /** Columns 0 up to `cols` of a level. */
  function LevelTiles(job: Job, z: nat, cols: nat, rows: nat, height: nat): seq<Event>
  {
    if cols == 0 then [] else LevelTiles(job, z, cols - 1, rows, height) + ColumnEvents(job, z, cols - 1, rows, height)
  }

  /** The remaining `levels` levels, from level `levels - 1` down to 0, when the
      top one has the given grid and image size: each next grid is the ceiling
      of half of the previous one, each next image half the size (rounded
      down). */
  function Pyramid(job: Job, levels: nat, grid: (nat, nat), size: (nat, nat)): seq<Event>
  {
    if levels == 0 then []
    else
      [Level(levels - 1, grid, size)]
      + LevelTiles(job, levels - 1, grid.0, grid.1, size.1)
      + Pyramid(job, levels - 1, (CeilDiv(grid.0, 2), CeilDiv(grid.1, 2)), (size.0 / 2, size.1 / 2))
  }

  // ---------------------------------------------------------------------------
  // Properties of the tiling scheme

  /** Two different tiles of a level have crop boxes that do not overlap. */
  lemma CropBoxesDisjoint(x1: nat, y1: nat, x2: nat, y2: nat, height: nat)
    requires (x1, y1) != (x2, y2)
    ensures var b1 := CropBox(x1, y1, height); var b2 := CropBox(x2, y2, height);
      b1.right <= b2.left || b2.right <= b1.left || b1.lower <= b2.upper || b2.lower <= b1.upper
  {
    if x1 < x2 {
      MulMonotone(TileSize, x1 + 1, x2);
    } else if x2 < x1 {
      MulMonotone(TileSize, x2 + 1, x1);
    } else if y1 < y2 {
      MulMonotone(TileSize, y1 + 1, y2);
    } else {
      MulMonotone(TileSize, y2 + 1, y1);
    }
  }

  /** The crop boxes of a cols x rows grid cover the bottom-left
      `256 cols x 256 rows` region of the level image: every pixel there lies in
      the box of the tile returned. */
  lemma CropBoxesCover(px: int, py: int, cols: nat, rows: nat, height: nat) returns (x: nat, y: nat)
    requires 0 <= px < TileSize * cols
    requires height - TileSize * rows <= py < height
    ensures x < cols && y < rows
    ensures var b := CropBox(x, y, height); b.left <= px < b.right && b.upper <= py < b.lower
  {
    x := px / TileSize;
    y := (height - py - 1) / TileSize;
    if x >= cols {
      MulMonotone(TileSize, cols, x);
    }
    if y >= rows {
      MulMonotone(TileSize, rows, y);
    }
  }

  /** A tile's path splits back into the directory, the layer, z, x and the
      file name of y. */
  lemma TileNameDecodes(tilePath: string, layer: string, z: nat, x: nat, y: nat)
    requires '/' !in tilePath && '/' !in layer
    ensures Split(TileName(tilePath, layer, z, x, y), '/')
      == [tilePath, layer, NatToString(z), NatToString(x), NatToString(y) + ".png"]
  {
    var parts := [tilePath, layer, NatToString(z), NatToString(x), NatToString(y) + ".png"];
    forall i | 0 <= i < |parts| ensures '/' !in parts[i] {
      if i == 4 {
        assert forall k :: 0 <= k < |NatToString(y)| ==> IsDigit(NatToString(y)[k]);
        assert parts[4] == NatToString(y) + ".png";
      } else if i >= 2 {
        assert forall k :: 0 <= k < |parts[i]| ==> IsDigit(parts[i][k]);
      }
    }
    SplitJoin(parts, '/');
  }

  /** Different tiles of one layer are written to different files. */
  lemma TileNameInjective(tilePath: string, layer: string, z1: nat, x1: nat, y1: nat, z2: nat, x2: nat, y2: nat)
    requires '/' !in tilePath && '/' !in layer
    requires TileName(tilePath, layer, z1, x1, y1) == TileName(tilePath, layer, z2, x2, y2)
    ensures z1 == z2 && x1 == x2 && y1 == y2
  {
    TileNameDecodes(tilePath, layer, z1, x1, y1);
    TileNameDecodes(tilePath, layer, z2, x2, y2);
    var s1 := NatToString(y1) + ".png";
    var s2 := NatToString(y2) + ".png";
    assert s1 == s2;
    assert NatToString(y1) == s1[..|s1| - 4] == s2[..|s2| - 4] == NatToString(y2);
    NatToStringInjective(z1, z2);
    NatToStringInjective(x1, x2);
    NatToStringInjective(y1, y2);
  }

  /** A `Saved` event of level z that records a non-empty tile with its own
      path and crop box. */
  predicate WrittenTile(job: Job, z: nat, height: nat, e: Event)
    requires e.Saved?
  {
    && e.z == z && job.occupied(z, e.x, e.y)
    && e.path == TileName(job.tilePath, job.layer, z, e.x, e.y) && e.box == CropBox(e.x, e.y, height)
  }

  lemma TileSaved(job: Job, z: nat, x: nat, y: nat, height: nat, e: Event)
    requires e.Saved?
    ensures e in TileEvents(job, z, x, y, height) <==> e.x == x && e.y == y && WrittenTile(job, z, height, e)
  {
  }

  /** The events of a column are exactly the written tiles of that column
      whose row is below `rows`, each with its path and crop box. */
  lemma {:induction false} ColumnSaved(job: Job, z: nat, x: nat, rows: nat, height: nat, e: Event)
    requires e.Saved?
    ensures e in ColumnEvents(job, z, x, rows, height) <==>
      e.x == x && e.y < rows && WrittenTile(job, z, height, e)
    decreases rows
  {
    if rows > 0 {
      ColumnSaved(job, z, x, rows - 1, height, e);
      TileSaved(job, z, x, rows - 1, height, e);
      var prev := ColumnEvents(job, z, x, rows - 1, height);
      var tile := TileEvents(job, z, x, rows - 1, height);
      assert ColumnEvents(job, z, x, rows, height) == prev + tile;
      assert e in prev + tile <==> e in prev || e in tile;
    }
  }

  /** The tiles a level writes are exactly its non-empty tiles within the
      grid, each with its path and crop box. */
  lemma {:induction false} LevelSaved(job: Job, z: nat, cols: nat, rows: nat, height: nat, e: Event)
    requires e.Saved?
    ensures e in LevelTiles(job, z, cols, rows, height) <==>
      e.x < cols && e.y < rows && WrittenTile(job, z, height, e)
    decreases cols
  {
    if cols > 0 {
      LevelSaved(job, z, cols - 1, rows, height, e);
      ColumnSaved(job, z, cols - 1, rows, height, e);
      var prev := LevelTiles(job, z, cols - 1, rows, height);
      var column := ColumnEvents(job, z, cols - 1, rows, height);
      assert LevelTiles(job, z, cols, rows, height) == prev + column;
      assert e in prev + column <==> e in prev || e in column;
    }
  }

  /** The level z at which each progress line is printed, in order. */
  function LevelMarks(es: seq<Event>): seq<nat>
  {
    if |es| == 0 then []
    else (if es[0].Level? then [es[0].z] else []) + LevelMarks(es[1..])
  }

  lemma {:induction false} LevelMarksAppend(a: seq<Event>, b: seq<Event>)
    ensures LevelMarks(a + b) == LevelMarks(a) + LevelMarks(b)
    decreases |a|
  {
    if |a| == 0 {
      assert a + b == b;
    } else {
      assert (a + b)[1..] == a[1..] + b;
      LevelMarksAppend(a[1..], b);
    }
  }

  lemma NoMarksInTile(job: Job, z: nat, x: nat, y: nat, height: nat)
    ensures LevelMarks(TileEvents(job, z, x, y, height)) == []
  {
    var t := TileEvents(job, z, x, y, height);
    if |t| > 0 {
      assert t[1..] == [t[1]] && [t[1]][1..] == [];
      assert LevelMarks([t[1]]) == [];
    }
  }

  lemma {:induction false} NoMarksInLevel(job: Job, z: nat, cols: nat, rows: nat, height: nat)
    ensures LevelMarks(LevelTiles(job, z, cols, rows, height)) == []
    decreases cols
  {
    if cols > 0 {
      NoMarksInLevel(job, z, cols - 1, rows, height);
      NoMarksInColumn(job, z, cols - 1, rows, height);
      LevelMarksAppend(LevelTiles(job, z, cols - 1, rows, height), ColumnEvents(job, z, cols - 1, rows, height));
    }
  }

  lemma {:induction false} NoMarksInColumn(job: Job, z: nat, x: nat, rows: nat, height: nat)
    ensures LevelMarks(ColumnEvents(job, z, x, rows, height)) == []
    decreases rows
  {
    if rows > 0 {
      NoMarksInColumn(job, z, x, rows - 1, height);
      NoMarksInTile(job, z, x, rows - 1, height);
      LevelMarksAppend(ColumnEvents(job, z, x, rows - 1, height), TileEvents(job, z, x, rows - 1, height));
    }
  }

  /** `levels - 1, levels - 2, ..., 0`. */
  function Countdown(levels: nat): (r: seq<nat>)
    ensures |r| == levels
    ensures forall k :: 0 <= k < levels ==> r[k] == levels - 1 - k
  {
    if levels == 0 then [] else [levels - 1] + Countdown(levels - 1)
  }

  /** The levels are processed from the top one down to 0, each exactly once. */
  lemma {:induction false} PyramidLevelOrder(job: Job, levels: nat, grid: (nat, nat), size: (nat, nat))
    ensures LevelMarks(Pyramid(job, levels, grid, size)) == Countdown(levels)
    decreases levels
  {
    if levels > 0 {
      var head := [Level(levels - 1, grid, size)];
      var tiles := LevelTiles(job, levels - 1, grid.0, grid.1, size.1);
      var rest := Pyramid(job, levels - 1, (CeilDiv(grid.0, 2), CeilDiv(grid.1, 2)), (size.0 / 2, size.1 / 2));
      PyramidLevelOrder(job, levels - 1, (CeilDiv(grid.0, 2), CeilDiv(grid.1, 2)), (size.0 / 2, size.1 / 2));
      NoMarksInLevel(job, levels - 1, grid.0, grid.1, size.1);
      LevelMarksAppend(head + tiles, rest);
      LevelMarksAppend(head, tiles);
      assert LevelMarks(head) == [levels - 1] by {
        assert head[1..] == [];
      }
    }
  }

  lemma FloorDivUnique(a: nat, b: nat, r: nat)
    requires b > 0 && b * r <= a < b * r + b
    ensures r == a / b
  {
    var q := a / b;
    if r < q {
      MulMonotone(b, r + 1, q);
    } else if q < r {
      MulMonotone(b, q + 1, r);
    }
  }

  /** The grid and the image size `k` halvings below the given ones. */
  function GridAt(grid: (nat, nat), k: nat): (nat, nat)
  {
    var d := Pow2(k);
    (CeilDiv(grid.0, d), CeilDiv(grid.1, d))
  }

  /** Python's `//` on naturals. */
  function FloorDiv(a: nat, b: nat): (r: nat)
    requires b > 0
    ensures b * r <= a < b * r + b
  {
    DivBounds(a, b);
    a / b
  }

  function SizeAt(size: (nat, nat), k: nat): (nat, nat)
  {
    (FloorDiv(size.0, Pow2(k)), FloorDiv(size.1, Pow2(k)))
  }

  lemma AtZero(grid: (nat, nat), size: (nat, nat))
    ensures GridAt(grid, 0) == grid && SizeAt(size, 0) == size
  {
    CeilDivUnique(grid.0, 1, grid.0);
    CeilDivUnique(grid.1, 1, grid.1);
  }

  lemma AtStep(grid: (nat, nat), size: (nat, nat), k: nat)
    ensures GridAt((CeilDiv(grid.0, 2), CeilDiv(grid.1, 2)), k) == GridAt(grid, k + 1)
    ensures SizeAt((size.0 / 2, size.1 / 2), k) == SizeAt(size, k + 1)
  {
    CeilDivHalvedPow(grid.0, k);
    CeilDivHalvedPow(grid.1, k);
    FloorDivHalvedPow(size.0, k);
    FloorDivHalvedPow(size.1, k);
  }

  lemma PyramidUnfold(job: Job, levels: nat, grid: (nat, nat), size: (nat, nat))
    requires levels > 0
    ensures Pyramid(job, levels, grid, size)
      == [Level(levels - 1, grid, size)] + LevelTiles(job, levels - 1, grid.0, grid.1, size.1)
         + Pyramid(job, levels - 1, (CeilDiv(grid.0, 2), CeilDiv(grid.1, 2)), (size.0 / 2, size.1 / 2))
  {
  }

  /** One pass of the level loop consumes the top level of the pyramid. */
  lemma LevelStep(job: Job, z: nat, grid: (nat, nat), size: (nat, nat), before: seq<Event>, after: seq<Event>)
    requires after == before + [Level(z, grid, size)] + LevelTiles(job, z, grid.0, grid.1, size.1)
    ensures after + Pyramid(job, z, (CeilDiv(grid.0, 2), CeilDiv(grid.1, 2)), (size.0 / 2, size.1 / 2))
      == before + Pyramid(job, z + 1, grid, size)
  {
    PyramidUnfold(job, z + 1, grid, size);
    Regroup(before, [Level(z, grid, size)], LevelTiles(job, z, grid.0, grid.1, size.1),
      Pyramid(job, z, (CeilDiv(grid.0, 2), CeilDiv(grid.1, 2)), (size.0 / 2, size.1 / 2)));
  }

  lemma Regroup<T>(a: seq<T>, b: seq<T>, c: seq<T>, d: seq<T>)
    ensures a + b + c + d == a + (b + c + d)
  {
  }

  /** Level z of a pyramid of `levels` levels over a top grid and image size
      sits `levels - 1 - z` halvings down: its grid is the top grid divided by
      `2^(levels-1-z)` rounding up, its image the top size divided by it
      rounding down. */
  lemma {:induction false} PyramidLevelShape(job: Job, levels: nat, grid: (nat, nat), size: (nat, nat), e: Event)
    requires e.Level?
    ensures e in Pyramid(job, levels, grid, size) <==>
      (e.z < levels && e.grid == GridAt(grid, levels - 1 - e.z) && e.imageSize == SizeAt(size, levels - 1 - e.z))
    decreases levels
  {
    if levels > 0 {
      var next := (CeilDiv(grid.0, 2), CeilDiv(grid.1, 2));
      var half := (size.0 / 2, size.1 / 2);
      PyramidLevels(job, levels, grid, size, e);
      PyramidLevelShape(job, levels - 1, next, half, e);
      AtZero(grid, size);
      if e.z < levels - 1 {
        AtStep(grid, size, levels - 2 - e.z);
      }
    }
  }

  /** The `Level` events of a pyramid: its top level's, then those of the
      rest. */
  lemma PyramidLevels(job: Job, levels: nat, grid: (nat, nat), size: (nat, nat), e: Event)
    requires levels > 0 && e.Level?
    ensures e in Pyramid(job, levels, grid, size) <==>
      e == Level(levels - 1, grid, size)
      || e in Pyramid(job, levels - 1, (CeilDiv(grid.0, 2), CeilDiv(grid.1, 2)), (size.0 / 2, size.1 / 2))
  {
    var tiles := LevelTiles(job, levels - 1, grid.0, grid.1, size.1);
    PyramidUnfold(job, levels, grid, size);
    NoMarksInLevel(job, levels - 1, grid.0, grid.1, size.1);
    NoLevelEventIn(tiles, e);
  }

  /** A list with no progress line has no `Level` event. */
  lemma {:induction false} NoLevelEventIn(es: seq<Event>, e: Event)
    requires e.Level? && LevelMarks(es) == []
    ensures e !in es
    decreases |es|
  {
    if |es| > 0 {
      LevelMarksAppend([es[0]], es[1..]);
      assert [es[0]] + es[1..] == es;
      assert LevelMarks([es[0]]) == [] by {
        assert [es[0]][1..] == [];
      }
      NoLevelEventIn(es[1..], e);
    }
  }

  lemma CeilDivHalvedPow(a: nat, k: nat)
    ensures CeilDiv(CeilDiv(a, 2), Pow2(k)) == CeilDiv(a, Pow2(k + 1))
  {
    CeilDivHalved(a, 2);
    CeilDivUnique(CeilDiv(a, 2), Pow2(k), CeilDiv(CeilDiv(a, 2), Pow2(k)));
    CeilDivSwap(a, 2, Pow2(k));
  }

  lemma FloorDivHalvedPow(a: nat, k: nat)
    ensures (a / 2) / Pow2(k) == a / Pow2(k + 1)
  {
    FloorDivSwap(a, 2, Pow2(k));
  }

  /** Dividing by b then by c, rounding up each time, is dividing by b * c. */
  lemma CeilDivSwap(a: nat, b: nat, c: nat)
    requires b > 0 && c > 0
    ensures CeilDiv(CeilDiv(a, b), c) == CeilDiv(a, b * c)
  {
    var q := CeilDiv(a, b);
    var r := CeilDiv(q, c);
    var cr := c * r;
    var bc := b * c;
    assert q <= cr <= q + c - 1;
    MulMonotone(b, q, cr);
    MulMonotone(b, cr, q + c - 1);
    MulAssoc(b, c, r);
    MulDistrib(b, q, c);
    CeilDivUnique(a, bc, r);
  }

  lemma MulAssoc(b: nat, c: nat, r: nat)
    ensures b * (c * r) == (b * c) * r
  {
  }

  lemma MulDistrib(b: nat, q: nat, c: nat)
    requires c > 0
    ensures b * (q + c - 1) == b * q + b * c - b
  {
  }

  lemma FloorDivSwap(a: nat, b: nat, c: nat)
    requires b > 0 && c > 0
    ensures (a / b) / c == a / (b * c)
  {
    var q := a / b;
    var r := q / c;
    DivBounds(a, b);
    DivBounds(q, c);
    var cr := c * r;
    MulMonotone(b, cr, q);
    MulMonotone(b, q, cr + c - 1);
    MulAssoc(b, c, r);
    MulDistrib(b, cr, c);
    FloorDivUnique(a, b * c, r);
  }

  lemma DivBounds(a: nat, b: nat)
    requires b > 0
    ensures b * (a / b) <= a < b * (a / b) + b
  {
  }

  /** With the full zoom as the top level, level 0 is a single tile. */
  lemma BottomLevelIsOneTile(job: Job, grid: (nat, nat), size: (nat, nat))
    requires grid.0 >= 1 && grid.1 >= 1
    ensures var top := CeilLog2(Max(grid.0, grid.1));
      Level(0, (1, 1), SizeAt(size, top)) in Pyramid(job, top + 1, grid, size)
  {
    var top := CeilLog2(Max(grid.0, grid.1));
    CeilDivUnique(grid.0, Pow2(top), 1);
    CeilDivUnique(grid.1, Pow2(top), 1);
    assert GridAt(grid, top) == (1, 1);
    PyramidLevelShape(job, top + 1, grid, size, Level(0, (1, 1), SizeAt(size, top)));
  }

  // ---------------------------------------------------------------------------
  // The tile maker

  class PyramidMaker {
    const bounds: (nat, nat)
    const tiledSize: (nat, nat)
    const tiledImageSize: (nat, nat)
    /** `ceil(log2(max tile dim))`; None where the constructor raises a math
        domain error (an empty map). */
    const fullZoom: Option<nat>
    const tilePath: string
    var events: seq<Event>

    constructor (bounds: (nat, nat), tilePath: string)
      ensures this.bounds == bounds && this.tilePath == tilePath
      ensures tiledSize == (CeilDiv(bounds.0, TileSize), CeilDiv(bounds.1, TileSize))
      ensures tiledImageSize == (TileSize * tiledSize.0, TileSize * tiledSize.1)
      ensures fullZoom == FullZoom(Max(tiledSize.0, tiledSize.1))
      ensures events == []
    {
      this.bounds := bounds;
      var dims := (CeilDiv(bounds.0, TileSize), CeilDiv(bounds.1, TileSize));
      tiledSize := dims;
      tiledImageSize := (TileSize * dims.0, TileSize * dims.1);
      fullZoom := FullZoom(Max(dims.0, dims.1));
      this.tilePath := tilePath;
      events := [];
    }

    /** The default paste offset drops the image to the bottom of the padded
        image: `[0, tiled height - map height]`. */
    function DefaultOffset(): (r: (int, int))
      reads this
    {
      (0, tiledImageSize.1 - bounds.1)
    }

    /** `make_tiles`: places the image at the given offset (by default at the
        bottom of the padded image), then runs the levels from the full zoom
        down to 0. A maker whose constructor raised has no `make_tiles`. */
    method MakeTiles(layer: string, occupied: (nat, nat, nat) -> bool, offset: Option<(int, int)>)
      requires fullZoom.Some?
      modifies this
      ensures events == old(events) + [Placed(if offset.Some? then offset.value else DefaultOffset())]
        + Pyramid(Job(tilePath, layer, occupied), fullZoom.value + 1, tiledSize, tiledImageSize)
    {
      var at := if offset.Some? then offset.value else (0, tiledImageSize.1 - bounds.1);
      events := events + [Placed(at)];
      TileLevels(Job(tilePath, layer, occupied), fullZoom.value + 1, tiledSize, tiledImageSize);
    }

    /** The level loop of `make_tiles`: z from `levels - 1` down to 0, the grid
        halved (rounding up) and the image halved (rounding down) after each. */
    method TileLevels(job: Job, levels: nat, grid0: (nat, nat), size0: (nat, nat))
      modifies this
      ensures events == old(events) + Pyramid(job, levels, grid0, size0)
    {
      var grid := grid0;
      var size := size0;
      for z := levels downto 0
        invariant events + Pyramid(job, z, grid, size) == old(events) + Pyramid(job, levels, grid0, size0)
      {
        ghost var before := events;
        events := events + [Level(z, grid, size)];
        TileLevel(job, z, grid.0, grid.1, size.1);
        LevelStep(job, z, grid, size, before, events);
        grid := (CeilDiv(grid.0, 2), CeilDiv(grid.1, 2));
        size := (size.0 / 2, size.1 / 2);
      }
    }

    /** One level: the columns left to right, `left` advancing by a tile. */
    method TileLevel(job: Job, z: nat, cols: nat, rows: nat, height: nat)
      modifies this
      ensures events == old(events) + LevelTiles(job, z, cols, rows, height)
    {
      var left: nat := 0;
      for x := 0 to cols
        invariant events == old(events) + LevelTiles(job, z, x, rows, height)
        invariant left == TileSize * x
      {
        TileColumn(job, z, x, rows, height, left);
        left := left + TileSize;
      }
    }

    /** One column: the rows bottom to top, `lower` rising by a tile; a
        non-empty tile is written and its half-size copy pasted. */
    method TileColumn(job: Job, z: nat, x: nat, rows: nat, height: nat, left: nat)
      requires left == TileSize * x
      modifies this
      ensures events == old(events) + ColumnEvents(job, z, x, rows, height)
    {
      var lower: int := height;
      for y := 0 to rows
        invariant events == old(events) + ColumnEvents(job, z, x, y, height)
        invariant lower == height - TileSize * y
      {
        var box := Box(left, lower - TileSize, left + TileSize, lower);
        var name := TileName(job.tilePath, job.layer, z, x, y);
        if job.occupied(z, x, y) {
          events := events + [Saved(z, x, y, name, box), Pasted(z, (left / 2, (lower - TileSize) / 2))];
        }
        lower := lower - TileSize;
      }
    }
  }

  /** The default offset is a drop of less than one tile. */
  lemma DefaultOffsetBounds(m: PyramidMaker)
    requires m.tiledSize.1 == CeilDiv(m.bounds.1, TileSize)
    requires m.tiledImageSize.1 == TileSize * m.tiledSize.1
    ensures 0 <= m.DefaultOffset().1 < TileSize && m.DefaultOffset().0 == 0
  {
  }
}
