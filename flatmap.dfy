/**
 * The map viewer of src/flatmap.js: the view arithmetic of its constructor,
 * the layers it adds (an optional debug grid, one entry per configured layer,
 * then the 'Features' layer), the list of feature layers with its active
 * index, and the controls it adds. Layer objects are those of the mapping
 * library; a configured layer becomes a single layer or a group of two.
 */
module FlatMap {
  import opened Wrappers
  import opened Text
  import opened Tiling
  import opened OpenLayers
  import Layers

  /** A configured layer: optional title, feature source and raster source. */
  datatype LayerSpec = LayerSpec(title: Option<string>, featureSource: Option<string>, rasterSource: Option<string>)

  /** The constructor's options; flags are read as truth values and an absent
      layer list is the empty list. */
  datatype MapOptions = MapOptions(
    id: string, width: nat, height: nat,
    debug: bool, editable: bool, features: Option<string>,
    layerSwitcher: bool, overviewMap: bool, layers: seq<LayerSpec>)

  /** A top-level layer of the map: a library layer, or a group of them. */
  datatype MapLayer = Single(layer: OlLayer) | Group(title: Option<string>, members: seq<OlLayer>)

  function Objects(e: MapLayer): set<OlLayer>
  {
    match e
    case Single(l) => {l}
    case Group(_, ms) => set m | m in ms
  }

  /** The tile path of a raster source: `<id>/tiles/<source>/<c0>/<c1>/<c2>`,
      coordinates in their given order (before `absoluteUrl`). */
  function RasterPath(mapId: string, source: string): TilePath
  {
    TilePath([mapId, "tiles", source], false)
  }

  /** The raster tile URL names the map and the source and carries the three
      coordinates unchanged. */
  lemma RasterUrlShape(mapId: string, source: string, c: TileCoord)
    requires '/' !in mapId && '/' !in source
    ensures var segs := Split(TileUrl(RasterPath(mapId, source), c), '/');
      && |segs| == 6 && segs[..3] == [mapId, "tiles", source] && ParseInt(segs[3]) == c.c0 && ParseInt(segs[4]) == c.c1 && ParseInt(segs[5]) == c.c2
  {
    var p := RasterPath(mapId, source);
    forall i | 0 <= i < |p.base| ensures '/' !in p.base[i] {
    }
    TileUrlDecodes(p, c);
  }

  /** Whether a configured layer gets a tile layer, a feature layer. */
  predicate HasRaster(spec: LayerSpec) { Truthy(spec.rasterSource) }
  predicate HasFeatures(spec: LayerSpec) { Truthy(spec.featureSource) }

  /** The top-level entry `addNewLayer` adds for a configured layer, as an
      independent reference: with both sources a group titled like the layer
      holding the feature layer (retitled 'features') then the tile layer
      (retitled 'image'); with one source that layer, titled like the layer. */
  ghost predicate Shaped(mapId: string, spec: LayerSpec, e: MapLayer)
    reads Objects(e)
  {
    if HasRaster(spec) && HasFeatures(spec) then
      && e.Group? && e.title == spec.title && |e.members| == 2
      && e.members[0].title == Some("features")
      && e.members[0].source == Vector(Layers.FeatureUrl(mapId, spec.featureSource))
      && e.members[1].title == Some("image")
      && e.members[1].source == TileImage(Some(RasterPath(mapId, spec.rasterSource.value)))
    else if HasRaster(spec) then
      && e.Single? && e.layer.title == spec.title
      && e.layer.source == TileImage(Some(RasterPath(mapId, spec.rasterSource.value)))
    else
      && e.Single? && e.layer.title == spec.title
      && e.layer.source == Vector(Layers.FeatureUrl(mapId, spec.featureSource))
  }

  /** The feature layer within an added entry. */
  function FeatureMember(e: MapLayer): OlLayer
    requires e.Group? ==> |e.members| > 0
  {
    match e
    case Single(l) => l
    case Group(_, ms) => ms[0]
  }

  /** The feature layer `addNewLayer` makes for a configured layer with a
      feature source: retitled 'features' when it goes into a group. */
  ghost predicate FeatureShaped(mapId: string, spec: LayerSpec, f: OlLayer)
    reads f
  {
    && f.title == (if HasRaster(spec) then Some("features") else spec.title)
    && f.source == Vector(Layers.FeatureUrl(mapId, spec.featureSource))
  }

  /** The configured layers that yield a top-level entry, and those that
      yield a feature layer, in their given order. */
  function Sourced(specs: seq<LayerSpec>): seq<LayerSpec>
  {
    if |specs| == 0 then []
    else Sourced(specs[..|specs| - 1]) + (if HasRaster(specs[|specs| - 1]) || HasFeatures(specs[|specs| - 1]) then [specs[|specs| - 1]] else [])
  }

  function Featured(specs: seq<LayerSpec>): seq<LayerSpec>
  {
    if |specs| == 0 then []
    else Featured(specs[..|specs| - 1]) + (if HasFeatures(specs[|specs| - 1]) then [specs[|specs| - 1]] else [])
  }

  /** How many top-level entries, and how many feature layers, a list of
      configured layers yields. */
  function EntryCount(specs: seq<LayerSpec>): nat
  {
    |Sourced(specs)|
  }

  function FeatureCount(specs: seq<LayerSpec>): nat
  {
    |Featured(specs)|
  }

  /** Every feature layer comes with its own top-level entry, and no list
      yields more entries than it has layers. */
  lemma {:induction false} FeatureCountBounds(specs: seq<LayerSpec>)
    ensures FeatureCount(specs) <= EntryCount(specs) <= |specs|
    decreases |specs|
  {
    if |specs| > 0 {
      FeatureCountBounds(specs[..|specs| - 1]);
    }
  }

  class FlatMapView {
    const id: string
    /** The element the map renders into. */
    const target: string
    const maxZoom: nat
    const resolutions: array<real>
    const extent: Extent
    const centre: (real, real)
    const zoom: nat
    var layers: seq<MapLayer>
    var featureLayers: seq<OlLayer>
    var activeFeatureLayer: int
    var controls: seq<Control>

    /** Builds the view and adds, in order: the debug grid (visible when there
        is no layer switcher), one entry per configured layer, and the
        'Features' layer, whose source has the URL `<id>/features/` when the
        `features` option is truthy and no URL otherwise. The active feature
        layer is the last one, the 'Features' layer. */
    constructor (htmlElementId: string, options: MapOptions)
      ensures id == options.id
      ensures target == (if options.editable then htmlElementId + "-display" else htmlElementId)
      ensures IsMaxZoom(Max(options.width, options.height), maxZoom)
      ensures fresh(resolutions) && resolutions.Length == ResolutionCount
      ensures forall i :: 0 <= i < resolutions.Length ==> resolutions[i] == Resolution(maxZoom, i)
      ensures extent == MapExtent(options.width, options.height)
      ensures centre == Centre(options.width, options.height) && zoom == 2
      ensures var grid := if options.debug then 1 else 0;
        && |layers| == grid + EntryCount(options.layers) + 1
        && (options.debug ==> (layers[0].Single? && layers[0].layer.title == Some("Grid")
             && layers[0].layer.visible == !options.layerSwitcher && layers[0].layer.source == DebugGrid))
      ensures var grid := if options.debug then 1 else 0;
        forall k :: 0 <= k < EntryCount(options.layers) ==> Shaped(options.id, Sourced(options.layers)[k], layers[grid + k])
      ensures |featureLayers| == FeatureCount(options.layers) + 1
      ensures forall k :: 0 <= k < FeatureCount(options.layers) ==> FeatureShaped(options.id, Featured(options.layers)[k], featureLayers[k])
      ensures layers[|layers| - 1] == Single(featureLayers[|featureLayers| - 1])
      ensures var f := featureLayers[|featureLayers| - 1];
        && f.title == Some("Features")
        && f.source == Vector(Layers.FeatureUrl(options.id, if Truthy(options.features) then Some("") else None))
      ensures activeFeatureLayer == |featureLayers| - 1
      ensures ActiveFeatureLayer() == Some(featureLayers[|featureLayers| - 1])
      ensures controls == (if options.layerSwitcher then [LayerSwitcherControl] else [])
        + (if options.overviewMap then [OverviewMapControl(Centre(options.width, options.height), 3, maxZoom)] else [])
    {
      var z := MaxZoom(Max(options.width, options.height));
      maxZoom := z;
      var table := Resolutions(z);
      resolutions := table;
      extent := MapExtent(options.width, options.height);
      centre := Centre(options.width, options.height);
      zoom := 2;
      target := if options.editable then htmlElementId + "-display" else htmlElementId;
      id := options.id;
      layers := [];
      featureLayers := [];
      activeFeatureLayer := 0;
      controls := [];
      new;
      AddLayers(options);
      AddControls(options);
    }

    /** The constructor's layers: the debug grid, the configured layers, then
        the 'Features' layer, which becomes the active one. */
    method AddLayers(options: MapOptions)
      requires layers == [] && featureLayers == [] && controls == [] && id == options.id
      modifies this
      ensures var grid := if options.debug then 1 else 0;
        && |layers| == grid + EntryCount(options.layers) + 1
        && (options.debug ==> (layers[0].Single? && layers[0].layer.title == Some("Grid")
             && layers[0].layer.visible == !options.layerSwitcher && layers[0].layer.source == DebugGrid))
      ensures var grid := if options.debug then 1 else 0;
        forall k :: 0 <= k < EntryCount(options.layers) ==> Shaped(options.id, Sourced(options.layers)[k], layers[grid + k])
      ensures |featureLayers| == FeatureCount(options.layers) + 1
      ensures forall k :: 0 <= k < FeatureCount(options.layers) ==> FeatureShaped(options.id, Featured(options.layers)[k], featureLayers[k])
      ensures layers[|layers| - 1] == Single(featureLayers[|featureLayers| - 1])
      ensures var f := featureLayers[|featureLayers| - 1];
        && f.title == Some("Features")
        && f.source == Vector(Layers.FeatureUrl(options.id, if Truthy(options.features) then Some("") else None))
      ensures activeFeatureLayer == |featureLayers| - 1
      ensures controls == []
    {
      if options.debug {
        var grid := new OlLayer(Some("Grid"), !options.layerSwitcher, DebugGrid);
        layers := layers + [Single(grid)];
      }
      AddConfiguredLayers(options.layers);
      var features := NewFeatureLayer(Some("Features"), if Truthy(options.features) then Some("") else None);
      layers := layers + [Single(features)];
      activeFeatureLayer := |featureLayers| - 1;
    }

    /** The constructor's controls: the layer switcher, then the overview map. */
    method AddControls(options: MapOptions)
      requires controls == []
      modifies this
      ensures controls == (if options.layerSwitcher then [LayerSwitcherControl] else [])
        + (if options.overviewMap then [OverviewMapControl(Centre(options.width, options.height), 3, maxZoom)] else [])
      ensures layers == old(layers) && featureLayers == old(featureLayers) && activeFeatureLayer == old(activeFeatureLayer)
    {
      if options.layerSwitcher {
        controls := controls + [LayerSwitcherControl];
      }
      if options.overviewMap {
        controls := controls + [OverviewMapControl(Centre(options.width, options.height), 3, maxZoom)];
      }
    }

    /** The constructor's loop over the configured layers: each one goes
        through `addNewLayer`, in order, so the k-th new entry is shaped by
        the k-th configured layer that has a source, and the k-th new feature
        layer comes from the k-th one with a feature source. */
    method AddConfiguredLayers(specs: seq<LayerSpec>)
      modifies this
      ensures |layers| == |old(layers)| + EntryCount(specs) && layers[..|old(layers)|] == old(layers)
      ensures forall k :: 0 <= k < EntryCount(specs) ==> Shaped(id, Sourced(specs)[k], layers[|old(layers)| + k])
      ensures |featureLayers| == |old(featureLayers)| + FeatureCount(specs) && featureLayers[..|old(featureLayers)|] == old(featureLayers)
      ensures forall k :: 0 <= k < FeatureCount(specs) ==> FeatureShaped(id, Featured(specs)[k], featureLayers[|old(featureLayers)| + k])
      ensures controls == old(controls) && activeFeatureLayer == old(activeFeatureLayer)
    {
      for i := 0 to |specs|
        invariant |layers| == |old(layers)| + EntryCount(specs[..i]) && layers[..|old(layers)|] == old(layers)
        invariant forall k :: 0 <= k < EntryCount(specs[..i]) ==> Shaped(id, Sourced(specs[..i])[k], layers[|old(layers)| + k])
        invariant |featureLayers| == |old(featureLayers)| + FeatureCount(specs[..i]) && featureLayers[..|old(featureLayers)|] == old(featureLayers)
        invariant forall k :: 0 <= k < FeatureCount(specs[..i]) ==> FeatureShaped(id, Featured(specs[..i])[k], featureLayers[|old(featureLayers)| + k])
        invariant controls == old(controls) && activeFeatureLayer == old(activeFeatureLayer)
      {
        assert specs[..i + 1][..i] == specs[..i];
        var added := AddNewLayer(specs[i]);
      }
      assert specs[..|specs|] == specs;
    }

    /** The `activeFeatureLayer` getter: undefined (None) for a negative index,
        and also for one past the list, where an array read gives undefined. */
    function ActiveFeatureLayer(): (r: Option<OlLayer>)
      reads this
      ensures r.Some? <==> 0 <= activeFeatureLayer < |featureLayers|
      ensures r.Some? ==> r.value in featureLayers
    {
      if 0 <= activeFeatureLayer < |featureLayers| then Some(featureLayers[activeFeatureLayer]) else None
    }

    /** `newFeatureLayer`: a new vector layer with the title, whose source URL
        is undefined exactly when no source is given, appended to the feature
        layers. */
    method NewFeatureLayer(title: Option<string>, source: Option<string>) returns (f: OlLayer)
      modifies this
      ensures fresh(f) && f.title == title && f.visible
      ensures f.source == Vector(Layers.FeatureUrl(id, source))
      ensures featureLayers == old(featureLayers) + [f]
      ensures layers == old(layers) && controls == old(controls) && activeFeatureLayer == old(activeFeatureLayer)
    {
      f := new OlLayer(title, true, Vector(Layers.FeatureUrl(id, source)));
      featureLayers := featureLayers + [f];
    }

    /** `addNewLayer`: adds at most one top-level entry, shaped as `Shaped`
        says, and nothing when the configured layer has neither source; only a
        feature source appends to the feature layers, and the appended layer
        is the entry's feature layer. */
    method AddNewLayer(spec: LayerSpec) returns (added: Option<MapLayer>)
      modifies this
      ensures added.None? <==> !HasRaster(spec) && !HasFeatures(spec)
      ensures layers == old(layers) + (if added.Some? then [added.value] else [])
      ensures added.Some? ==> fresh(Objects(added.value)) && Shaped(id, spec, added.value)
      ensures HasFeatures(spec) ==> featureLayers == old(featureLayers) + [FeatureMember(added.value)]
      ensures HasFeatures(spec) ==> FeatureShaped(id, spec, FeatureMember(added.value))
      ensures !HasFeatures(spec) ==> featureLayers == old(featureLayers)
      ensures controls == old(controls) && activeFeatureLayer == old(activeFeatureLayer)
    {
      var tileLayer: OlLayer? := null;
      if HasRaster(spec) {
        tileLayer := new OlLayer(spec.title, true, TileImage(Some(RasterPath(id, spec.rasterSource.value))));
      }
      var featureLayer: OlLayer? := null;
      if HasFeatures(spec) {
        featureLayer := NewFeatureLayer(spec.title, spec.featureSource);
      }
      if tileLayer != null && featureLayer != null {
        tileLayer.title := Some("image");
        featureLayer.title := Some("features");
        added := Some(Group(spec.title, [featureLayer, tileLayer]));
      } else if tileLayer != null {
        added := Some(Single(tileLayer));
      } else if featureLayer != null {
        added := Some(Single(featureLayer));
      } else {
        added := None;
      }
      if added.Some? {
        layers := layers + [added.value];
      }
    }
  }
}
