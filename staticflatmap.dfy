/**
 * The static map viewer of static/scripts/flatmap.js: the same view
 * arithmetic as the main viewer, an optional debug grid, one image tile layer
 * per configured entry, and the layer-switcher and overview-map controls.
 */
module StaticFlatMap {
  import opened Wrappers
  import opened Text
  import opened Tiling
  import opened OpenLayers

  /** A configured image layer: its tile source name and optional title. */
  datatype TileLayerSpec = TileLayerSpec(source: string, title: Option<string>)

  datatype Configuration = Configuration(
    width: nat, height: nat, debug: bool, layerSwitcher: bool, overviewMap: bool,
    imageTileLayers: seq<TileLayerSpec>)

  /** `./tiles/<source>/<c0>/<c1>/<c2>`, coordinates in their given order
      (before `absoluteUrl`). */
  function StaticTilePath(source: string): TilePath
  {
    TilePath([".", "tiles", source], false)
  }

  /** The URL starts with `./tiles/<source>/` and then carries the three
      coordinates unchanged. */
  lemma StaticTileUrlShape(source: string, c: TileCoord)
    requires '/' !in source
    ensures StartsWith(TileUrl(StaticTilePath(source), c), "./tiles/" + source + "/")
    ensures var segs := Split(TileUrl(StaticTilePath(source), c), '/');
      && |segs| == 6 && segs[..3] == [".", "tiles", source]
      && ParseInt(segs[3]) == c.c0 && ParseInt(segs[4]) == c.c1 && ParseInt(segs[5]) == c.c2
  {
    StaticTileUrlPrefix(source, c);
    StaticTileUrlSegments(source, c);
  }

  lemma StaticTileUrlPrefix(source: string, c: TileCoord)
    ensures StartsWith(TileUrl(StaticTilePath(source), c), "./tiles/" + source + "/")
  {
    var rest := [IntToString(c.c0), IntToString(c.c1), IntToString(c.c2)];
    var url := TileUrl(StaticTilePath(source), c);
    assert url == Join([".", "tiles", source] + rest, '/');
    JoinParts(".", "tiles", source, rest);
    var head := "." + "/" + "tiles" + "/" + source + "/";
    StaticPrefix(source);
    PrefixStartsWith(head, Join(rest, '/'));
  }

  lemma StaticPrefix(source: string)
    ensures "." + "/" + "tiles" + "/" + source + "/" == "./tiles/" + source + "/"
  {
    assert "." + "/" + "tiles" + "/" == "./tiles/";
  }

  lemma StaticTileUrlSegments(source: string, c: TileCoord)
    requires '/' !in source
    ensures var segs := Split(TileUrl(StaticTilePath(source), c), '/');
      && |segs| == 6 && segs[..3] == [".", "tiles", source]
      && ParseInt(segs[3]) == c.c0 && ParseInt(segs[4]) == c.c1 && ParseInt(segs[5]) == c.c2
  {
    var p := StaticTilePath(source);
    forall i | 0 <= i < |p.base| ensures '/' !in p.base[i] {
    }
    TileUrlDecodes(p, c);
  }

  lemma JoinParts(a: string, b: string, c: string, rest: seq<string>)
    requires |rest| == 3
    ensures Join([a, b, c] + rest, '/') == a + "/" + b + "/" + c + "/" + Join(rest, '/')
  {
    var j := Join(rest, '/');
    var s3 := [c] + rest;
    var s2 := [b] + s3;
    assert [a, b, c] + rest == [a] + s2;
    JoinCons(c, rest);
    JoinCons(b, s3);
    JoinCons(a, s2);
    var x3 := c + "/" + j;
    StringAssoc(a + "/", b + "/", x3);
    StringAssoc((a + "/") + (b + "/"), c + "/", j);
    StringAssoc(a + "/", b, "/");
    var y := a + "/" + b + "/";
    StringAssoc(y, c, "/");
  }

  lemma JoinCons(x: string, rest: seq<string>)
    requires |rest| >= 1
    ensures Join([x] + rest, '/') == x + "/" + Join(rest, '/')
  {
    assert ([x] + rest)[1..] == rest;
  }

  lemma StringAssoc(a: string, b: string, c: string)
    ensures a + (b + c) == a + b + c
  {
  }

  lemma PrefixStartsWith(p: string, t: string)
    ensures StartsWith(p + t, p)
  {
    assert (p + t)[..|p|] == p;
  }

  /** The layer `addImageTileLayer` builds for a configured entry. */
  ghost predicate BuiltFrom(l: OlLayer, spec: TileLayerSpec)
    reads l
  {
    l.title == spec.title && l.visible && l.source == TileImage(Some(StaticTilePath(spec.source)))
  }

  class StaticMap {
    const target: string
    const maxZoom: nat
    const resolutions: array<real>
    const extent: Extent
    const centre: (real, real)
    const zoom: nat
    var layers: seq<OlLayer>
    var controls: seq<Control>

    /** Builds the view, then adds the debug grid (visible when there is no
        layer switcher), then one tile layer per configured entry in order,
        then the controls. */
    constructor (htmlElementId: string, configuration: Configuration)
      ensures target == htmlElementId
      ensures IsMaxZoom(Max(configuration.width, configuration.height), maxZoom)
      ensures fresh(resolutions) && resolutions.Length == ResolutionCount
      ensures forall i :: 0 <= i < resolutions.Length ==> resolutions[i] == Resolution(maxZoom, i)
      ensures extent == MapExtent(configuration.width, configuration.height)
      ensures centre == Centre(configuration.width, configuration.height) && zoom == 2
      ensures var grid := if configuration.debug then 1 else 0;
        && |layers| == grid + |configuration.imageTileLayers|
        && (configuration.debug ==> (layers[0].title == Some("Grid")
             && layers[0].visible == !configuration.layerSwitcher && layers[0].source == DebugGrid))
        && (forall k :: 0 <= k < |configuration.imageTileLayers| ==>
             BuiltFrom(layers[grid + k], configuration.imageTileLayers[k]))
      ensures controls == (if configuration.layerSwitcher then [LayerSwitcherControl] else [])
        + (if configuration.overviewMap then [OverviewMapControl(Centre(configuration.width, configuration.height), 3, maxZoom)] else [])
    {
      var z := MaxZoom(Max(configuration.width, configuration.height));
      maxZoom := z;
      var table := Resolutions(z);
      resolutions := table;
      extent := MapExtent(configuration.width, configuration.height);
      centre := Centre(configuration.width, configuration.height);
      zoom := 2;
      target := htmlElementId;
      layers := [];
      controls := [];
      new;
      if configuration.debug {
        var grid := new OlLayer(Some("Grid"), !configuration.layerSwitcher, DebugGrid);
        layers := layers + [grid];
      }
      AddImageTileLayers(configuration.imageTileLayers);
      if configuration.layerSwitcher {
        controls := controls + [LayerSwitcherControl];
      }
      if configuration.overviewMap {
        controls := controls + [OverviewMapControl(Centre(configuration.width, configuration.height), 3, maxZoom)];
      }
    }

    /** The constructor's loop: one `addImageTileLayer` per entry, in order. */
    method AddImageTileLayers(specs: seq<TileLayerSpec>)
      modifies this
      ensures |layers| == |old(layers)| + |specs| && layers[..|old(layers)|] == old(layers)
      ensures forall k :: 0 <= k < |specs| ==> BuiltFrom(layers[|old(layers)| + k], specs[k])
      ensures controls == old(controls)
    {
      var n := |layers|;
      for i := 0 to |specs|
        invariant |layers| == n + i && layers[..n] == old(layers)
        invariant forall k :: 0 <= k < i ==> BuiltFrom(layers[n + k], specs[k])
        invariant controls == old(controls)
      {
        ghost var before := layers;
        AddImageTileLayer(specs[i]);
        forall k | 0 <= k < i
          ensures layers[n + k] == before[n + k] && BuiltFrom(layers[n + k], specs[k])
        {
          assert layers[..|before|] == before;
        }
      }
    }

    /** `addImageTileLayer`: appends one new tile layer for the entry. */
    method AddImageTileLayer(spec: TileLayerSpec)
      modifies this
      ensures |layers| == |old(layers)| + 1 && layers[..|old(layers)|] == old(layers)
      ensures fresh(layers[|old(layers)|]) && BuiltFrom(layers[|old(layers)|], spec)
      ensures controls == old(controls)
    {
      var l := new OlLayer(spec.title, true, TileImage(Some(StaticTilePath(spec.source))));
      layers := layers + [l];
    }
  }
}
