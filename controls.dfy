/**
 * The two converters of controls.js: `replacer`, the `JSON.stringify`
 * replacer that turns a feature of the vector-tile index (a type code and a
 * raw geometry array) into a GeoJSON Feature (section 3.1 of RFC 7946), and
 * `pointFeature`, which builds a Point Feature. JavaScript values are a small
 * JSON-like datatype; numbers are reals (NaN is not modelled).
 */
module Controls {
  import opened Wrappers

  datatype Json =
    | Undefined
    | Null
    | Bool(b: bool)
    | Num(n: real)
    | Str(s: string)
    | Arr(items: seq<Json>)
    | Obj(fields: map<string, Json>)

  /** JavaScript truthiness: arrays and objects are truthy even when empty. */
  predicate JsTruthy(v: Json)
  {
    match v
    case Undefined => false
    case Null => false
    case Bool(b) => b
    case Num(n) => n != 0.0
    case Str(s) => s != ""
    case Arr(_) => true
    case Obj(_) => true
  }

  /** Reading a property: an object's own field, undefined otherwise. */
  function Get(v: Json, key: string): Json
  {
    if v.Obj? && key in v.fields then v.fields[key] else Undefined
  }

  /** The `length` property: the element count of an array or a string, an
      object's own `length` field, undefined for anything else. */
  function Length(v: Json): Json
  {
    match v
    case Arr(items) => Num(|items| as real)
    case Str(s) => Num(|s| as real)
    case Obj(_) => Get(v, "length")
    case _ => Undefined
  }

  /** `x == 1` for the values whose loose comparison with a number is a
      plain numeric one: a number, or a boolean read as 0 or 1. */
  predicate LooselyOne(x: Json)
  {
    x == Num(1.0) || x == Bool(true)
  }

  /** `x > 1` for the same values; a boolean is at most 1. */
  predicate AboveOne(x: Json)
  {
    x.Num? && x.n > 1.0
  }

  /** `v[0]`: the first element of an array, the first character of a
      string, an object's own `"0"` field, undefined otherwise. */
  function First(v: Json): Json
  {
    match v
    case Arr(items) => if |items| > 0 then items[0] else Undefined
    case Str(s) => if |s| > 0 then Str([s[0]]) else Undefined
    case Obj(_) => Get(v, "0")
    case _ => Undefined
  }

  /** The error reading a property of null or undefined raises. */
  datatype TypeError = CannotReadProperty(key: string)

  /** `replacer(key, value)`; the key is not used. */
  function Replacer(key: string, value: Json): (r: Result<Json, TypeError>)
    ensures r.Err? <==> value == Null || value == Undefined
  {
    if value == Null || value == Undefined then Err(CannotReadProperty("geometry"))
    else if JsTruthy(Get(value, "geometry")) then
      var rawType := Get(value, "type");
      var geometry := Get(value, "geometry");
      var converted :=
        if rawType == Num(1.0) then
          (if LooselyOne(Length(geometry)) then (Str("Point"), First(geometry)) else (Str("MultiPoint"), geometry))
        else if rawType == Num(2.0) then
          (if LooselyOne(Length(geometry)) then (Str("LineString"), First(geometry)) else (Str("MultiLineString"), geometry))
        else if rawType == Num(3.0) then
          (if AboveOne(Length(geometry)) then (Str("MultiPolygon"), Arr([geometry])) else (Str("Polygon"), geometry))
        else (Undefined, geometry);
      Ok(Obj(map[
        "type" := Str("Feature"),
        "geometry" := Obj(map["type" := converted.0, "coordinates" := converted.1]),
        "properties" := Get(value, "tags")]))
    else Ok(value)
  }

  /** A value without a truthy `geometry` comes back unchanged. */
  lemma NoGeometryUnchanged(key: string, value: Json)
    requires value != Null && value != Undefined && !JsTruthy(Get(value, "geometry"))
    ensures Replacer(key, value) == Ok(value)
  {
  }

  /** A converted value is a Feature whose properties are the tags. */
  lemma ConvertedIsFeature(key: string, value: Json)
    requires value != Null && value != Undefined && JsTruthy(Get(value, "geometry"))
    ensures var r := Replacer(key, value).value;
      && Get(r, "type") == Str("Feature")
      && Get(r, "properties") == Get(value, "tags")
      && Get(r, "geometry").Obj?
      && Get(r, "geometry").fields.Keys == {"type", "coordinates"}
  {
  }

  /** The GeoJSON geometry names of section 3.1 of RFC 7946 that the replacer
      can produce, with the vector-tile type code each comes from. */
  function CodeOf(geoType: string): Option<real>
  {
    if geoType == "Point" || geoType == "MultiPoint" then Some(1.0)
    else if geoType == "LineString" || geoType == "MultiLineString" then Some(2.0)
    else if geoType == "Polygon" || geoType == "MultiPolygon" then Some(3.0)
    else None
  }

  /** Inverse of the conversion: the type code and raw geometry array a
      GeoJSON geometry object came from. */
  function Unconvert(geometry: Json): Option<(Json, Json)>
  {
    var t := Get(geometry, "type");
    var c := Get(geometry, "coordinates");
    if !t.Str? || CodeOf(t.s).None? then None
    else if t.s == "Point" || t.s == "LineString" then Some((Num(CodeOf(t.s).value), Arr([c])))
    else if t.s == "MultiPolygon" then (if c.Arr? && |c.items| == 1 then Some((Num(3.0), c.items[0])) else None)
    else Some((Num(CodeOf(t.s).value), c))
  }

  /** For the three vector-tile type codes and an array geometry, the type
      code and the raw geometry can be read back from the result: no
      coordinate is lost or reordered. */
  lemma ReplacerRoundTrip(key: string, value: Json)
    requires value.Obj? && Get(value, "geometry").Arr?
    requires Get(value, "type") in {Num(1.0), Num(2.0), Num(3.0)}
    ensures var r := Replacer(key, value).value;
      Unconvert(Get(r, "geometry")) == Some((Get(value, "type"), Get(value, "geometry")))
  {
    var g := Get(value, "geometry");
    if |g.items| == 1 {
      assert Arr([g.items[0]]) == g;
    }
  }

  /** The multi-part geometry types are produced exactly when the raw array
      does not have a single element (points, lines) or has several rings
      (polygons). */
  lemma MultiPartIff(key: string, value: Json)
    requires value.Obj? && Get(value, "geometry").Arr?
    requires Get(value, "type") in {Num(1.0), Num(2.0), Num(3.0)}
    ensures var t := Get(Get(Replacer(key, value).value, "geometry"), "type");
      var n := |Get(value, "geometry").items|;
      && t.Str?
      && CodeOf(t.s) == Some(Get(value, "type").n)
      && ((t.s == "MultiPoint" || t.s == "MultiLineString" || t.s == "MultiPolygon")
          <==> (if Get(value, "type") == Num(3.0) then n > 1 else n != 1))
  {
  }

  /** An object standing in for an array is read through its own `length`
      and `"0"` fields: with a length of 1 it becomes a single point or line
      made of its `"0"` field, with a length above 1 a multi-polygon. */
  lemma ObjectGeometryByLength(key: string, value: Json)
    requires value.Obj? && Get(value, "geometry").Obj?
    requires Get(value, "type") in {Num(1.0), Num(2.0), Num(3.0)}
    ensures var g := Get(value, "geometry");
      var out := Get(Replacer(key, value).value, "geometry");
      && (Get(value, "type") != Num(3.0) && Get(g, "length") == Num(1.0) ==>
            Get(out, "coordinates") == Get(g, "0")
            && Get(out, "type") in {Str("Point"), Str("LineString")})
      && (Get(value, "type") == Num(3.0) ==>
            (Get(out, "type") == Str("MultiPolygon") <==> Get(g, "length").Num? && Get(g, "length").n > 1.0))
  {
  }

  /** `pointFeature(coordinates, name)`. */
  function PointFeature(coordinates: Json, name: Json): (r: Json)
    ensures Get(r, "type") == Str("Feature")
    ensures Get(Get(r, "properties"), "name") == name
  {
    Obj(map[
      "type" := Str("Feature"),
      "geometry" := Obj(map["type" := Str("Point"), "coordinates" := coordinates]),
      "properties" := Obj(map["name" := name])])
  }

  /** A point feature is what the replacer makes of a one-point vector-tile
      feature (type code 1) tagged with the name. */
  lemma PointFeatureIsReplacedPoint(coordinates: Json, name: Json)
    ensures Replacer("", Obj(map["type" := Num(1.0), "geometry" := Arr([coordinates]),
      "tags" := Obj(map["name" := name])])) == Ok(PointFeature(coordinates, name))
  {
    var v := Obj(map["type" := Num(1.0), "geometry" := Arr([coordinates]), "tags" := Obj(map["name" := name])]);
    assert Get(v, "type") == Num(1.0);
    assert Get(v, "geometry") == Arr([coordinates]);
    assert Get(v, "tags") == Obj(map["name" := name]);
  }
}
