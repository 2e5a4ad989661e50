/**
 * The small part of the wrapped mapping library's object model that the
 * repository's own code drives: a layer has a title, a visibility flag and a
 * source; a source is the debug grid, a tiled image whose tile URL function is
 * either absent or builds a path from a fixed prefix and the tile coordinate,
 * or a vector source with an optional URL. Rendering, projections and tile
 * loading are the library's business and are not modelled.
 */
module OpenLayers {
  import opened Wrappers
  import opened Text

  /** A tile URL function: the path segments before the coordinate, and whether
      the third coordinate is written as `-c - 1`. */
  datatype TilePath = TilePath(base: seq<string>, invertZ: bool)

  datatype Source =
    | DebugGrid
    | TileImage(tiles: Option<TilePath>)
    | Vector(url: Option<string>)

  /** A tile coordinate as the library hands it to a tile URL function. */
  datatype TileCoord = TileCoord(c0: int, c1: int, c2: int)

  function ThirdSegment(invertZ: bool, c: int): int
  {
    if invertZ then -c - 1 else c
  }

  /** The URL path a tile URL function builds: the base segments, then the
      three coordinates in their given order, separated by '/'. */
  function TileUrl(p: TilePath, c: TileCoord): string
  {
    Join(p.base + [IntToString(c.c0), IntToString(c.c1), IntToString(ThirdSegment(p.invertZ, c.c2))], '/')
  }

  /** A tile URL determines its base and its coordinate: splitting on '/' gives
      the base segments back and the three numbers parse to the coordinate. */
  lemma TileUrlDecodes(p: TilePath, c: TileCoord)
    requires forall i :: 0 <= i < |p.base| ==> '/' !in p.base[i]
    ensures var segs := Split(TileUrl(p, c), '/');
      && |segs| == |p.base| + 3
      && segs[..|p.base|] == p.base
      && ParseInt(segs[|p.base|]) == c.c0
      && ParseInt(segs[|p.base| + 1]) == c.c1
      && ThirdSegment(p.invertZ, ParseInt(segs[|p.base| + 2])) == c.c2
  {
    var parts := p.base + [IntToString(c.c0), IntToString(c.c1), IntToString(ThirdSegment(p.invertZ, c.c2))];
    forall i | 0 <= i < |parts| ensures '/' !in parts[i] {
      if i >= |p.base| {
        assert parts[i] in [IntToString(c.c0), IntToString(c.c1), IntToString(ThirdSegment(p.invertZ, c.c2))];
      }
    }
    SplitJoin(parts, '/');
    IntRoundTrip(c.c0);
    IntRoundTrip(c.c1);
    IntRoundTrip(ThirdSegment(p.invertZ, c.c2));
  }

  /** A map control the viewers add: the layer switcher, or an overview map
      with its own view centre, initial zoom and zoom-level count. */
  datatype Control =
    | LayerSwitcherControl
    | OverviewMapControl(centre: (real, real), zoom: nat, maxZoom: nat)

  /** A layer object of the mapping library. */
  class OlLayer {
    var title: Option<string>
    var visible: bool
    const source: Source

    constructor (title: Option<string>, visible: bool, source: Source)
      ensures this.title == title && this.visible == visible && this.source == source
    {
      this.title := title;
      this.visible := visible;
      this.source := source;
    }
  }
}
