/**
 * The JavaScript tile maker of scripts/tilemaker.js: the tile counts, padded
 * size and full zoom its constructor computes from a map size, and the loop
 * that hands every layer of a map specification to `tile`, which only logs
 * the layer's id. The log is the console output, kept as a trace.
 */
module TileMaker {
  import opened Wrappers
  import opened Tiling

  /** A layer of the map specification, as `tile` reads it. */
  datatype LayerEntry = LayerEntry(id: string)

  /** The ids of the layers, in order. */
  function Ids(layers: seq<LayerEntry>): (r: seq<string>)
    ensures |r| == |layers|
    ensures forall k :: 0 <= k < |r| ==> r[k] == layers[k].id
  {
    seq(|layers|, k requires 0 <= k < |layers| => layers[k].id)
  }

  /** The padded size covers the size with less than one tile to spare, in
      whole tiles, and its tile count is zero only for an empty axis. */
  lemma TiledSizeBounds(size: nat)
    ensures var tiles := CeilDiv(size, TileSize);
      && size <= TileSize * tiles < size + TileSize
      && (TileSize * tiles) % TileSize == 0
      && (tiles == 0 <==> size == 0)
  {
  }

  /** With at least one tile, 2^fullZoom tiles per side cover the larger
      axis, and one halving fewer would not. */
  lemma FullZoomCovers(w: nat, h: nat)
    requires w > 0 || h > 0
    ensures var z := FullZoom(Max(CeilDiv(w, TileSize), CeilDiv(h, TileSize)));
      && z.Some?
      && TileSize * Pow2(z.value) >= w && TileSize * Pow2(z.value) >= h
      && (z.value == 0 || TileSize * Pow2(z.value - 1) < Max(w, h))
  {
    var cw := CeilDiv(w, TileSize);
    var ch := CeilDiv(h, TileSize);
    var z := CeilLog2(Max(cw, ch));
    MulMonotone(TileSize, cw, Pow2(z));
    MulMonotone(TileSize, ch, Pow2(z));
    if z > 0 {
      if Max(cw, ch) == cw {
        MulMonotone(TileSize, Pow2(z - 1) + 1, cw);
      } else {
        MulMonotone(TileSize, Pow2(z - 1) + 1, ch);
      }
    }
  }

  class Maker {
    const id: string
    const size: (nat, nat)
    const tileDims: (nat, nat)
    const tiledSize: (nat, nat)
    /** `Math.ceil(Math.log2(maxTileDim))`; None stands for minus infinity. */
    const fullZoom: Option<nat>
    const outputDirectory: string
    var log: seq<string>

    constructor (id: string, size: (nat, nat), outputDirectory: string)
      ensures this.id == id && this.size == size && this.outputDirectory == outputDirectory
      ensures tileDims == (CeilDiv(size.0, TileSize), CeilDiv(size.1, TileSize))
      ensures tiledSize == (TileSize * tileDims.0, TileSize * tileDims.1)
      ensures fullZoom == FullZoom(Max(tileDims.0, tileDims.1))
      ensures log == []
    {
      this.id := id;
      this.size := size;
      var dims := (CeilDiv(size.0, TileSize), CeilDiv(size.1, TileSize));
      tileDims := dims;
      tiledSize := (TileSize * dims.0, TileSize * dims.1);
      fullZoom := FullZoom(Max(dims.0, dims.1));
      this.outputDirectory := outputDirectory;
      log := [];
    }

    /** `tile`: logs the layer's id and does nothing else. */
    method Tile(layer: LayerEntry)
      modifies this
      ensures log == old(log) + [layer.id]
    {
      log := log + [layer.id];
    }

    /** The loop of `main`: `tile` once per layer, in specification order. */
    method TileAll(layers: seq<LayerEntry>)
      modifies this
      ensures log == old(log) + Ids(layers)
    {
      for i := 0 to |layers|
        invariant log == old(log) + Ids(layers[..i])
      {
        assert Ids(layers[..i + 1]) == Ids(layers[..i]) + [layers[i].id];
        Tile(layers[i]);
      }
      assert layers[..|layers|] == layers;
    }
  }
}
