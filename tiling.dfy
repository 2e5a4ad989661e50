/**
 * The tile-grid arithmetic shared by the map viewers (src/flatmap.js and
 * static/scripts/flatmap.js) and the tile makers (scripts/tilemaker.js and
 * scripts/tilemaker.py): square tiles of 256 pixels, powers of two, ceiling
 * division and the ceiling of a base-2 logarithm, all on exact integers or
 * exact reals. Map sizes are whole pixel counts.
 */
module Tiling {
  import opened Wrappers

  /** The side of a tile, in pixels. */
  const TileSize: nat := 256

  function Pow2(n: nat): (r: nat)
    ensures r >= 1
  {
    if n == 0 then 1 else 2 * Pow2(n - 1)
  }

  /** Powers of two grow with their exponent. */
  lemma {:induction false} Pow2Monotone(i: nat, j: nat)
    requires i <= j
    ensures Pow2(i) <= Pow2(j)
    decreases j - i
  {
    if i < j {
      Pow2Monotone(i, j - 1);
    }
  }

  /** `Math.ceil(a / b)` on whole numbers: the least count of b-sized pieces
      that covers a. */
  function CeilDiv(a: nat, b: nat): (r: nat)
    requires b > 0
    ensures a <= b * r < a + b
    ensures r == 0 <==> a == 0
  {
    (a + b - 1) / b
  }

  lemma MulMonotone(b: nat, i: nat, j: nat)
    requires i <= j
    ensures b * i <= b * j
  {
    assert b * j == b * i + b * (j - i);
  }

  /** A count of b-sized pieces within one piece of a covers exactly: it is
      the ceiling division. */
  lemma CeilDivUnique(a: nat, b: nat, r: nat)
    requires b > 0 && a <= b * r < a + b
    ensures r == CeilDiv(a, b)
  {
    var q := CeilDiv(a, b);
    if r < q {
      MulMonotone(b, r + 1, q);
    } else if q < r {
      MulMonotone(b, q + 1, r);
    }
  }

  /** Rounding up twice is rounding up once: halving (rounding up) the count
      of b-sized pieces gives the count of 2b-sized pieces. */
  lemma CeilDivHalved(a: nat, b: nat)
    requires b > 0
    ensures CeilDiv(CeilDiv(a, b), 2) == CeilDiv(a, 2 * b)
  {
    var q := CeilDiv(a, b);
    var r := CeilDiv(q, 2);
    assert q <= 2 * r <= q + 1;
    MulMonotone(b, q, 2 * r);
    MulMonotone(b, 2 * r, q + 1);
    assert (2 * b) * r == b * (2 * r);
    CeilDivUnique(a, 2 * b, r);
  }

  /** The ceiling of the base-2 logarithm of a positive count, computed by
      halving (rounding up). */
  function CeilLog2(n: nat): (k: nat)
    requires n >= 1
    ensures Pow2(k) >= n
    ensures k == 0 || Pow2(k - 1) < n
    decreases n
  {
    if n == 1 then 0 else 1 + CeilLog2((n + 1) / 2)
  }

  /** `CeilLog2(n)` is the least exponent whose power of two reaches n. */
  lemma {:induction false} CeilLog2Least(n: nat, j: nat)
    requires n >= 1 && Pow2(j) >= n
    ensures CeilLog2(n) <= j
  {
    var k := CeilLog2(n);
    if j < k {
      Pow2Monotone(j, k - 1);
    }
  }

  /** `ceil(log2(n))` where a zero count has no finite logarithm (minus
      infinity in the JavaScript tile maker, a math domain error in the Python
      one): None then. */
  function FullZoom(n: nat): (r: Option<nat>)
    ensures r.None? <==> n == 0
    ensures r.Some? ==> Pow2(r.value) >= n && (r.value == 0 || Pow2(r.value - 1) < n)
  {
    if n == 0 then None else Some(CeilLog2(n))
  }

  function Max(a: nat, b: nat): (r: nat)
    ensures r >= a && r >= b && (r == a || r == b)
  {
    if a >= b then a else b
  }

  /** z is the least exponent with `maxDimension < 256 * 2^z`. */
  predicate IsMaxZoom(maxDimension: nat, z: nat)
  {
    maxDimension < TileSize * Pow2(z) && (z == 0 || TileSize * Pow2(z - 1) <= maxDimension)
  }

  /** The zoom-level count of the map viewers: `maxDimension / 256` is halved
      until it drops below 1, counting the halvings. The count is the least z
      with `maxDimension < 256 * 2^z`; it is 0 exactly below one tile. */
  method MaxZoom(maxDimension: nat) returns (zoom: nat)
    ensures IsMaxZoom(maxDimension, zoom)
  {
    zoom := 0;
    var dimension: real := maxDimension as real / TileSize as real;
    ScaledStart(maxDimension as real, TileSize as real);
    ghost var scale: nat := TileSize;
    while dimension >= 1.0
      invariant scale == TileSize * Pow2(zoom)
      invariant dimension * scale as real == maxDimension as real
      invariant zoom == 0 || scale <= 2 * maxDimension
      decreases maxDimension - scale
    {
      HalvingStep(dimension, scale, maxDimension);
      dimension := dimension / 2.0;
      ScaleStep(zoom);
      scale := 2 * scale;
      zoom := zoom + 1;
    }
    ScaledBounds(dimension, scale as real, maxDimension as real);
    if zoom > 0 {
      ScaleStep(zoom - 1);
    }
  }

  /** One pass of the halving loop: the scale was at most the dimension, and
      halving the quotient while doubling the scale keeps their product. */
  lemma HalvingStep(d: real, scale: nat, m: nat)
    requires scale > 0 && d * scale as real == m as real && d >= 1.0
    ensures scale <= m
    ensures (d / 2.0) * (2 * scale) as real == m as real
  {
    ScaledBounds(d, scale as real, m as real);
    ScaledHalving(d, scale as real, m as real);
  }

  lemma ScaleStep(z: nat)
    ensures TileSize * Pow2(z + 1) == 2 * (TileSize * Pow2(z))
  {
  }

  /** The halving loop keeps `dimension * scale == maxDimension`; these three
      steps of real arithmetic carry it. */
  lemma ScaledStart(m: real, s: real)
    requires s > 0.0
    ensures (m / s) * s == m
  {
  }

  lemma ScaledHalving(d: real, s: real, m: real)
    requires s > 0.0 && d * s == m
    ensures (d / 2.0) * (2.0 * s) == m
  {
  }

  lemma ScaledBounds(d: real, s: real, m: real)
    requires s > 0.0 && d * s == m
    ensures d >= 1.0 ==> s <= m
    ensures d < 1.0 ==> m < s
  {
    if d >= 1.0 {
      assert d * s >= 1.0 * s;
    } else {
      assert d * s < 1.0 * s;
    }
  }

  /** A zoom count is 0 exactly for a map smaller than one tile. */
  lemma MaxZoomZeroIff(maxDimension: nat, zoom: nat)
    requires IsMaxZoom(maxDimension, zoom)
    ensures zoom == 0 <==> maxDimension < TileSize
  {
  }

  /** The zoom count is determined by the dimension: two counts meeting the
      characterisation of `MaxZoom` are equal. */
  lemma MaxZoomUnique(maxDimension: nat, z1: nat, z2: nat)
    requires IsMaxZoom(maxDimension, z1) && IsMaxZoom(maxDimension, z2)
    ensures z1 == z2
  {
    if z1 < z2 {
      Pow2Monotone(z1, z2 - 1);
    } else if z2 < z1 {
      Pow2Monotone(z2, z1 - 1);
    }
  }

  /** The resolution at index i of the table: `2^maxZoom / 2^i`. */
  function Resolution(maxZoom: nat, i: nat): real
  {
    Pow2(maxZoom) as real / Pow2(i) as real
  }

  /** Each resolution is twice the next one. */
  lemma ResolutionHalves(maxZoom: nat, i: nat)
    ensures Resolution(maxZoom, i) == 2.0 * Resolution(maxZoom, i + 1)
  {
    var p := Pow2(maxZoom) as real;
    var q := Pow2(i) as real;
    assert Pow2(i + 1) as real == 2.0 * q;
    assert p / q == 2.0 * (p / (2.0 * q));
  }

  /** At index maxZoom the resolution is 1, and before it a whole power of two. */
  lemma {:induction false} ResolutionAtOrBelowMaxZoom(maxZoom: nat, i: nat)
    requires i <= maxZoom
    ensures Resolution(maxZoom, i) == Pow2(maxZoom - i) as real
    decreases i
  {
    if i > 0 {
      ResolutionAtOrBelowMaxZoom(maxZoom, i - 1);
      ResolutionHalves(maxZoom, i - 1);
      assert Pow2(maxZoom - (i - 1)) == 2 * Pow2(maxZoom - i);
    }
  }

  /** The length of the resolution table. */
  const ResolutionCount: nat := 22

  /** Fills the table of resolutions `2^maxZoom / 2^i` for i from 0 to 21. */
  method Resolutions(maxZoom: nat) returns (a: array<real>)
    ensures fresh(a) && a.Length == ResolutionCount
    ensures forall i :: 0 <= i < a.Length ==> a[i] == Resolution(maxZoom, i)
  {
    a := new real[ResolutionCount];
    var startResolution := Pow2(maxZoom) as real;
    for i := 0 to a.Length
      invariant forall k :: 0 <= k < i ==> a[k] == Resolution(maxZoom, k)
    {
      a[i] := startResolution / Pow2(i) as real;
    }
  }

  /** A map's extent `[0, 0, width, height]`. */
  datatype Extent = Extent(minX: int, minY: int, maxX: int, maxY: int)

  function MapExtent(width: nat, height: nat): (e: Extent)
    ensures e.minX == 0 && e.minY == 0
    ensures e.maxX - e.minX == width && e.maxY - e.minY == height
  {
    Extent(0, 0, width, height)
  }

  /** The view centre `[width / 2, height / 2]`: the midpoint of the extent. */
  function Centre(width: nat, height: nat): (c: (real, real))
    ensures var e := MapExtent(width, height);
      c.0 == (e.minX + e.maxX) as real / 2.0 && c.1 == (e.minY + e.maxY) as real / 2.0
  {
    (width as real / 2.0, height as real / 2.0)
  }
}
