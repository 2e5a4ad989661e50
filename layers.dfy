/**
 * The layer stack of src/layers.js. A `LayerManager` keeps its layers and two
 * parallel collections of library layers, the tile layers and the feature
 * layers; entry i of both collections belongs to the same layer. `Lower` and
 * `Raise` move a feature layer one place down or up and move its tile layer
 * with it, so the two collections stay index-aligned.
 */
module Layers {
  import opened Wrappers
  import opened Text
  import opened OpenLayers

  // ---------------------------------------------------------------------------
  // Sequence operations behind the collections' removeAt/insertAt

  predicate Distinct<T(==)>(s: seq<T>) {
    forall i, j :: 0 <= i < j < |s| ==> s[i] != s[j]
  }

  /** Position of the first occurrence of x in s, or |s| when x is absent. */
  function IndexOf<T(==)>(s: seq<T>, x: T): (i: nat)
    ensures i <= |s|
    ensures i < |s| ==> s[i] == x
    ensures forall k :: 0 <= k < i ==> s[k] != x
    decreases |s|
  {
    if |s| == 0 then 0 else if s[0] == x then 0 else 1 + IndexOf(s[1..], x)
  }

  function RemoveAt<T>(s: seq<T>, i: nat): seq<T>
    requires i < |s|
  {
    s[..i] + s[i + 1..]
  }

  function InsertAt<T>(s: seq<T>, i: nat, x: T): seq<T>
    requires i <= |s|
  {
    s[..i] + [x] + s[i..]
  }

  function Swap<T>(s: seq<T>, i: nat, j: nat): (r: seq<T>)
    requires i < |s| && j < |s|
    ensures |r| == |s|
  {
    s[i := s[j]][j := s[i]]
  }

  /** The collection after lowering the entry at i: swapped with its lower
      neighbour when there is one, unchanged otherwise. */
  function Lowered<T>(s: seq<T>, i: nat): (r: seq<T>)
    ensures |r| == |s|
  {
    if 0 < i < |s| then Swap(s, i - 1, i) else s
  }

  /** The collection after raising the entry at i. */
  function Raised<T>(s: seq<T>, i: nat): (r: seq<T>)
    ensures |r| == |s|
  {
    if i + 1 < |s| then Swap(s, i, i + 1) else s
  }

  function Zip<A, B>(a: seq<A>, b: seq<B>): (r: seq<(A, B)>)
    requires |a| == |b|
    ensures |r| == |a|
    ensures forall k :: 0 <= k < |r| ==> r[k] == (a[k], b[k])
  {
    seq(|a|, k requires 0 <= k < |a| => (a[k], b[k]))
  }

  /** Removing the entry at i and inserting it again one place lower is the
      swap of i - 1 and i. */
  lemma RemoveInsertLower<T>(s: seq<T>, i: nat)
    requires 0 < i < |s|
    ensures InsertAt(RemoveAt(s, i), i - 1, s[i]) == Swap(s, i - 1, i)
  {
    var r := InsertAt(RemoveAt(s, i), i - 1, s[i]);
    assert RemoveAt(s, i)[..i - 1] == s[..i - 1];
    assert RemoveAt(s, i)[i - 1..] == s[i - 1..i] + s[i + 1..];
    assert r == s[..i - 1] + [s[i]] + [s[i - 1]] + s[i + 1..];
  }

  /** Removing the entry at i and inserting it again one place higher is the
      swap of i and i + 1. */
  lemma RemoveInsertRaise<T>(s: seq<T>, i: nat)
    requires i + 1 < |s|
    ensures InsertAt(RemoveAt(s, i), i + 1, s[i]) == Swap(s, i, i + 1)
  {
    var r := InsertAt(RemoveAt(s, i), i + 1, s[i]);
    assert RemoveAt(s, i)[..i + 1] == s[..i] + [s[i + 1]];
    assert RemoveAt(s, i)[i + 1..] == s[i + 2..];
    assert r == s[..i] + [s[i + 1]] + [s[i]] + s[i + 2..];
  }

  lemma SwapMultiset<T>(s: seq<T>, i: nat, j: nat)
    requires i < |s| && j < |s|
    ensures multiset(Swap(s, i, j)) == multiset(s)
  {
    var t := s[i := s[j]];
    assert multiset(t) == multiset(s) - multiset{s[i]} + multiset{s[j]};
    assert multiset(t[j := s[i]]) == multiset(t) - multiset{t[j]} + multiset{s[i]};
  }

  lemma SwapDistinct<T>(s: seq<T>, i: nat, j: nat)
    requires i < |s| && j < |s| && Distinct(s)
    ensures Distinct(Swap(s, i, j))
  {
    var r := Swap(s, i, j);
    forall a, b | 0 <= a < b < |r| ensures r[a] != r[b] {
      var a' := if a == i then j else if a == j then i else a;
      var b' := if b == i then j else if b == j then i else b;
      assert r[a] == s[a'] && r[b] == s[b'];
      assert a' != b';
      if a' < b' { assert s[a'] != s[b']; } else { assert s[b'] != s[a']; }
    }
  }

  lemma ZipSwap<A, B>(a: seq<A>, b: seq<B>, i: nat, j: nat)
    requires |a| == |b| && i < |a| && j < |a|
    ensures Zip(Swap(a, i, j), Swap(b, i, j)) == Swap(Zip(a, b), i, j)
  {
  }

  /** Lowering moves exactly two entries: the lowered one goes down one place,
      its lower neighbour goes up one place, everything else keeps its place. */
  lemma {:induction false} LoweredAt<T>(s: seq<T>, i: nat, k: nat)
    requires 0 < i < |s| && k < |s|
    ensures Lowered(s, i)[k] == (if k == i - 1 then s[i] else if k == i then s[i - 1] else s[k])
  {
  }

  /** Raising the entry that was just lowered puts both collections back, and
      the lowered layer is then found one place lower. */
  lemma LowerThenRaise<T>(s: seq<T>, x: T)
    requires Distinct(s)
    requires 0 < IndexOf(s, x) < |s|
    ensures IndexOf(Lowered(s, IndexOf(s, x)), x) == IndexOf(s, x) - 1
    ensures Raised(Lowered(s, IndexOf(s, x)), IndexOf(s, x) - 1) == s
  {
    var i := IndexOf(s, x);
    var l := Lowered(s, i);
    assert l[i - 1] == x;
    forall k | 0 <= k < i - 1 ensures l[k] != x {
      assert l[k] == s[k];
    }
    IndexOfAt(l, x, i - 1);
  }

  lemma IndexOfAt<T>(s: seq<T>, x: T, i: nat)
    requires i < |s| && s[i] == x
    requires forall k :: 0 <= k < i ==> s[k] != x
    ensures IndexOf(s, x) == i
  {
  }

  /** Applying one swap to two collections keeps each one's entries and
      their pairs of entries, as multisets. */
  lemma SwapKeepsPairs<A, B>(a: seq<A>, b: seq<B>, i: nat, j: nat)
    requires |a| == |b| && i < |a| && j < |a|
    ensures multiset(Swap(a, i, j)) == multiset(a)
    ensures multiset(Zip(Swap(a, i, j), Swap(b, i, j))) == multiset(Zip(a, b))
  {
    SwapMultiset(a, i, j);
    ZipSwap(a, b, i, j);
    SwapMultiset(Zip(a, b), i, j);
  }

  /** Lowering or raising only permutes a collection, and applying the same
      swap to two collections keeps their pairs of entries, as a multiset. */
  lemma LoweredKeepsPairs<A, B>(a: seq<A>, b: seq<B>, i: nat)
    requires |a| == |b|
    ensures multiset(Lowered(a, i)) == multiset(a)
    ensures multiset(Zip(Lowered(a, i), Lowered(b, i))) == multiset(Zip(a, b))
  {
    if 0 < i < |a| {
      LoweredIsRaised(a, i);
      LoweredIsRaised(b, i);
      RaisedKeepsPairs(a, b, i - 1);
    }
  }

  /** Lowering the entry at i swaps the same two entries as raising the one
      below it. */
  lemma LoweredIsRaised<T>(s: seq<T>, i: nat)
    requires 0 < i < |s|
    ensures Lowered(s, i) == Raised(s, i - 1)
  {
  }

  lemma RaisedKeepsPairs<A, B>(a: seq<A>, b: seq<B>, i: nat)
    requires |a| == |b|
    ensures multiset(Raised(a, i)) == multiset(a)
    ensures multiset(Zip(Raised(a, i), Raised(b, i))) == multiset(Zip(a, b))
  {
    if i + 1 < |a| {
      SwapKeepsPairs(a, b, i, i + 1);
    }
  }

  // ---------------------------------------------------------------------------
  // URLs

  /** `tileUrl_`: `<mapId>/tiles/<source>/<c0>/<c1>/<-c2 - 1>` (before `absoluteUrl`). */
  function TilePathOf(mapId: string, source: string): TilePath
  {
    TilePath([mapId, "tiles", source], true)
  }

  /** The tile URL names the map, the source and the coordinate, with the third
      coordinate written as `-c2 - 1`, which `-c - 1` maps back. */
  lemma TileUrlShape(mapId: string, source: string, c: TileCoord)
    requires '/' !in mapId && '/' !in source
    ensures var segs := Split(TileUrl(TilePathOf(mapId, source), c), '/');
      && segs == [mapId, "tiles", source, IntToString(c.c0), IntToString(c.c1), IntToString(-c.c2 - 1)]
      && ParseInt(segs[3]) == c.c0 && ParseInt(segs[4]) == c.c1
      && -ParseInt(segs[5]) - 1 == c.c2
  {
    var p := TilePathOf(mapId, source);
    var segs := Split(TileUrl(p, c), '/');
    TileUrlDecodes(p, c);
    var parts := p.base + [IntToString(c.c0), IntToString(c.c1), IntToString(-c.c2 - 1)];
    forall i | 0 <= i < |parts| ensures '/' !in parts[i] {
    }
    SplitJoin(parts, '/');
    assert segs == parts;
  }

  /** `featureUrl_`: null for a null source, else `<mapId>/features/<source>`. */
  function FeatureUrl(mapId: string, source: Option<string>): (r: Option<string>)
  {
    match source
    case None => None
    case Some(s) => Some(Join([mapId, "features", s], '/'))
  }

  /** The feature URL is absent exactly for an absent source, and otherwise
      names the map and the source. */
  lemma FeatureUrlShape(mapId: string, source: Option<string>)
    requires '/' !in mapId && (source.Some? ==> '/' !in source.value)
    ensures FeatureUrl(mapId, source).None? <==> source.None?
    ensures source.Some? ==> Split(FeatureUrl(mapId, source).value, '/') == [mapId, "features", source.value]
  {
    if source.Some? {
      var parts := [mapId, "features", source.value];
      forall i | 0 <= i < |parts| ensures '/' !in parts[i] {
      }
      SplitJoin(parts, '/');
    }
  }

  // ---------------------------------------------------------------------------
  // Layers and the manager

  /** Options of `addLayer`: an optional title and an optional source name. */
  datatype LayerOptions = LayerOptions(title: Option<string>, source: Option<string>)

  class Layer {
    const title: Option<string>
    const features: OlLayer?
    const tiles: OlLayer?
    var visible: bool

    /** A new layer starts visible. */
    constructor (title: Option<string>, features: OlLayer?, tiles: OlLayer?)
      ensures this.title == title && this.features == features && this.tiles == tiles
      ensures visible
    {
      this.title := title;
      this.features := features;
      this.tiles := tiles;
      visible := true;
    }

    /** Sets the flag and forwards it to each sub-layer that is present. */
    method SetVisible(v: bool)
      modifies this, features, tiles
      ensures visible == v
      ensures features != null ==> features.visible == v && features.title == old(features.title)
      ensures tiles != null ==> tiles.visible == v && tiles.title == old(tiles.title)
    {
      if features != null {
        features.visible := v;
      }
      if tiles != null {
        tiles.visible := v;
      }
      visible := v;
    }
  }

  /** The pairs of library layers that the manager's layers were built from. */
  function Members(layers: seq<Layer>): (r: seq<(OlLayer?, OlLayer?)>)
    ensures |r| == |layers|
    ensures forall k :: 0 <= k < |r| ==> r[k] == (layers[k].features, layers[k].tiles)
  {
    seq(|layers|, k requires 0 <= k < |layers| => (layers[k].features, layers[k].tiles))
  }

  class LayerManager {
    const mapId: string
    var layers: seq<Layer>
    var tileCollection: seq<OlLayer>
    var featureCollection: seq<OlLayer>

    /** The collections are as long as the layer list, hold no layer twice, and
        position i of both collections is always one layer's pair. */
    ghost predicate Valid()
      reads this
    {
      && |tileCollection| == |featureCollection| == |layers|
      && Distinct(featureCollection)
      && Distinct(tileCollection)
      && multiset(Zip<OlLayer?, OlLayer?>(featureCollection, tileCollection)) == multiset(Members(layers))
    }

    constructor (mapId: string)
      ensures Valid()
      ensures this.mapId == mapId && layers == [] && tileCollection == [] && featureCollection == []
    {
      this.mapId := mapId;
      layers := [];
      tileCollection := [];
      featureCollection := [];
    }

    /** Appends one new tile layer, one new feature layer and one layer made of
        the two. The tile layer has a URL function only for a truthy source;
        the feature layer's URL is null only for an absent source. */
    method AddLayer(options: LayerOptions, editable: bool)
      requires Valid()
      modifies this
      ensures Valid()
      ensures |layers| == |old(layers)| + 1 && layers[..|old(layers)|] == old(layers)
      ensures fresh(layers[|old(layers)|])
      ensures tileCollection == old(tileCollection) + [layers[|old(layers)|].tiles]
      ensures featureCollection == old(featureCollection) + [layers[|old(layers)|].features]
      ensures var l := layers[|old(layers)|];
        && fresh(l.tiles) && fresh(l.features)
        && l.title == options.title && l.visible
        && l.tiles.title == options.title && l.features.title == options.title
        && l.tiles.source == TileImage(if Truthy(options.source) then Some(TilePathOf(mapId, options.source.value)) else None)
        && l.features.source == Vector(FeatureUrl(mapId, options.source))
    {
      var tilePath := if Truthy(options.source) then Some(TilePathOf(mapId, options.source.value)) else None;
      var tileLayer := new OlLayer(options.title, true, TileImage(tilePath));
      tileCollection := tileCollection + [tileLayer];
      var featureLayer := new OlLayer(options.title, true, Vector(FeatureUrl(mapId, options.source)));
      featureCollection := featureCollection + [featureLayer];
      var layer := new Layer(options.title, featureLayer, tileLayer);
      assert Zip<OlLayer?, OlLayer?>(featureCollection, tileCollection)
        == Zip<OlLayer?, OlLayer?>(old(featureCollection), old(tileCollection)) + [(featureLayer, tileLayer)];
      assert Members(layers + [layer]) == Members(layers) + [(featureLayer, tileLayer)];
      layers := layers + [layer];
    }

    /** Moves `layer` one place down in the feature collection and its tile
        layer with it; the bottom layer and an absent layer stay put. */
    method Lower(layer: OlLayer)
      requires Valid()
      modifies this
      ensures Valid()
      ensures layers == old(layers)
      ensures var i := IndexOf(old(featureCollection), layer);
        && featureCollection == Lowered(old(featureCollection), i)
        && tileCollection == Lowered(old(tileCollection), i)
      ensures IndexOf(old(featureCollection), layer) == 0 || layer !in old(featureCollection) ==>
        featureCollection == old(featureCollection) && tileCollection == old(tileCollection)
    {
      var numLayers := |featureCollection|;
      for i := 0 to numLayers
        invariant featureCollection == old(featureCollection) && tileCollection == old(tileCollection)
        invariant forall k :: 0 <= k < i ==> featureCollection[k] != layer
      {
        if featureCollection[i] == layer {
          IndexOfAt(featureCollection, layer, i);
          if i > 0 {
            MoveDown(i);
          }
          return;
        }
      }
      IndexOfAbsent(featureCollection, layer);
    }

    /** Moves `layer` one place up in the feature collection and its tile layer
        with it; the top layer and an absent layer stay put. */
    method Raise(layer: OlLayer)
      requires Valid()
      modifies this
      ensures Valid()
      ensures layers == old(layers)
      ensures var i := IndexOf(old(featureCollection), layer);
        && featureCollection == Raised(old(featureCollection), i)
        && tileCollection == Raised(old(tileCollection), i)
      ensures IndexOf(old(featureCollection), layer) + 1 >= |old(featureCollection)| ==>
        featureCollection == old(featureCollection) && tileCollection == old(tileCollection)
    {
      var numLayers := |featureCollection|;
      for i := 0 to numLayers
        invariant featureCollection == old(featureCollection) && tileCollection == old(tileCollection)
        invariant forall k :: 0 <= k < i ==> featureCollection[k] != layer
      {
        if featureCollection[i] == layer {
          IndexOfAt(featureCollection, layer, i);
          if i < numLayers - 1 {
            MoveUp(i);
          }
          return;
        }
      }
      IndexOfAbsent(featureCollection, layer);
    }

    /** `Lower` at a found position i > 0: the feature layer is removed and
        inserted one place lower, and its tile layer likewise. */
    method MoveDown(i: nat)
      requires Valid() && 0 < i < |featureCollection|
      modifies this
      ensures Valid()
      ensures layers == old(layers)
      ensures featureCollection == Lowered(old(featureCollection), i)
      ensures tileCollection == Lowered(old(tileCollection), i)
    {
      RemoveInsertLower(featureCollection, i);
      RemoveInsertLower(tileCollection, i);
      LoweredKeepsPairs<OlLayer?, OlLayer?>(featureCollection, tileCollection, i);
      SwapDistinct(featureCollection, i - 1, i);
      SwapDistinct(tileCollection, i - 1, i);
      var featureLayer := featureCollection[i];
      featureCollection := InsertAt(RemoveAt(featureCollection, i), i - 1, featureLayer);
      var tileLayer := tileCollection[i];
      tileCollection := InsertAt(RemoveAt(tileCollection, i), i - 1, tileLayer);
    }

    /** `Raise` at a found position below the top: the feature layer is
        removed and inserted one place higher, and its tile layer likewise. */
    method MoveUp(i: nat)
      requires Valid() && i + 1 < |featureCollection|
      modifies this
      ensures Valid()
      ensures layers == old(layers)
      ensures featureCollection == Raised(old(featureCollection), i)
      ensures tileCollection == Raised(old(tileCollection), i)
    {
      RemoveInsertRaise(featureCollection, i);
      RemoveInsertRaise(tileCollection, i);
      RaisedKeepsPairs<OlLayer?, OlLayer?>(featureCollection, tileCollection, i);
      SwapDistinct(featureCollection, i, i + 1);
      SwapDistinct(tileCollection, i, i + 1);
      var featureLayer := featureCollection[i];
      featureCollection := InsertAt(RemoveAt(featureCollection, i), i + 1, featureLayer);
      var tileLayer := tileCollection[i];
      tileCollection := InsertAt(RemoveAt(tileCollection, i), i + 1, tileLayer);
    }
  }

  lemma IndexOfAbsent<T>(s: seq<T>, x: T)
    requires forall k :: 0 <= k < |s| ==> s[k] != x
    ensures IndexOf(s, x) == |s|
  {
  }

  /** Lowering a layer and then raising it restores both collections. */
  lemma LowerRaiseRoundTrip(fc: seq<OlLayer>, tc: seq<OlLayer>, x: OlLayer)
    requires |fc| == |tc| && Distinct(fc)
    requires 0 < IndexOf(fc, x) < |fc|
    ensures var i := IndexOf(fc, x);
      var j := IndexOf(Lowered(fc, i), x);
      Raised(Lowered(fc, i), j) == fc && Raised(Lowered(tc, i), j) == tc
  {
    var i := IndexOf(fc, x);
    LowerThenRaise(fc, x);
    var l := Lowered(tc, i);
    assert Raised(l, i - 1) == tc;
  }
}
