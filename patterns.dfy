/** The polygon pattern loader: a YAML document gives a polygon of two to seven vertices,
    an optional normalization (scale factor) and an optional rotation angle in degrees;
    the loader checks the document, scales and rotates every vertex, and keeps the result
    together with the document's `qRotate` flag.

    Numbers are exact reals. The sine and cosine of the rotation angle come from the
    trigonometry the loader is given (`math.sin`/`math.cos` of `math.radians(theta)`), as a
    function from degrees to the pair (sine, cosine). */
module Patterns {
  import opened Wrappers

  /** A value of a loaded YAML document. */
  datatype Yaml =
    | YNull
    | YBool(b: bool)
    | YInt(i: int)
    | YFloat(f: real)
    | YStr(s: string)
    | YList(items: seq<Yaml>)
    | YMap(entries: map<string, Yaml>)

  /** The sine and cosine of an angle given in degrees. */
  type Trig = real -> (real, real)

  /** A vertex of the transformed polygon, `(x, y)`. */
  datatype Point = Point(x: real, y: real)

  /** Why the pattern was rejected: one kind per exception the loader raises. */
  datatype PatternError =
    | NoPolygon             // no `polygon` key
    | PolygonNotList        // `polygon` is not a list
    | TooFewPoints          // fewer than two vertices
    | TooManyPoints         // more than seven vertices
    | ZeroNormalization     // normalization equal to zero
    | RotationNotNumber     // math.radians refuses the rotation angle
    | NormalizationNotNumber  // the scale factor cannot multiply a coordinate
    | VertexNotList         // a vertex is not a list
    | VertexNotPair         // a vertex does not have exactly two entries
    | XNotNumber            // a vertex's x is not a number
    | YNotNumber            // a vertex's y is not a number

  /** `isinstance(v, (int, float))`, with the value as a real; a bool is an int in Python. */
  function NumberValue(v: Yaml): (r: Option<real>)
    ensures r.Some? <==> (v.YBool? || v.YInt? || v.YFloat?)
  {
    match v
    case YBool(b) => Some(if b then 1.0 else 0.0)
    case YInt(i) => Some(i as real)
    case YFloat(f) => Some(f)
    case _ => None
  }

  /** `info[key] if key in info else None`, with None then replaced by `default`. */
  function OrDefault(info: map<string, Yaml>, key: string, default: Yaml): (v: Yaml)
    ensures key !in info || info[key] == YNull ==> v == default
    ensures key in info && info[key] != YNull ==> v == info[key]
  {
    if key in info && info[key] != YNull then info[key] else default
  }

  /** What the checks before the vertex loop let through: the polygon's entries, the scale
      factor and the rotation angle in degrees. */
  datatype Setup = Setup(polygon: seq<Yaml>, norm: real, theta: real)

  /** The checks on the document before any vertex is looked at, in the loader's order,
      with normalization 1 and rotation 0 where the keys are absent or null. */
  function SetupOf(info: map<string, Yaml>): (r: Result<Setup, PatternError>)
    ensures r.Ok? <==> "polygon" in info && info["polygon"].YList?
                       && 2 <= |info["polygon"].items| <= 7
                       && NumberValue(OrDefault(info, "normalization", YInt(1))).Some?
                       && NumberValue(OrDefault(info, "normalization", YInt(1))) != Some(0.0)
                       && NumberValue(OrDefault(info, "rotation_angle", YInt(0))).Some?
    ensures r.Ok? ==> "polygon" in info && info["polygon"] == YList(r.value.polygon)
    ensures r.Ok? ==> 2 <= |r.value.polygon| <= 7 && r.value.norm != 0.0
    ensures r.Ok? ==> NumberValue(OrDefault(info, "normalization", YInt(1))) == Some(r.value.norm)
    ensures r.Ok? ==> NumberValue(OrDefault(info, "rotation_angle", YInt(0))) == Some(r.value.theta)
  {
    if "polygon" !in info then Err(NoPolygon)
    else if !info["polygon"].YList? then Err(PolygonNotList)
    else
      var polygon := info["polygon"].items;
      if |polygon| < 2 then Err(TooFewPoints)
      else if |polygon| > 7 then Err(TooManyPoints)
      else
        var norm := OrDefault(info, "normalization", YInt(1));
        var theta := OrDefault(info, "rotation_angle", YInt(0));
        if NumberValue(norm) == Some(0.0) then Err(ZeroNormalization)
        else if NumberValue(theta).None? then Err(RotationNotNumber)
        else if NumberValue(norm).None? then Err(NormalizationNotNumber)
        else Ok(Setup(polygon, NumberValue(norm).value, NumberValue(theta).value))
  }

  /** The checks on one vertex: a two-element list of numbers, and its coordinates. */
  function PointOf(v: Yaml): (r: Result<Point, PatternError>)
    ensures r.Ok? <==> v.YList? && |v.items| == 2 && NumberValue(v.items[0]).Some?
                       && NumberValue(v.items[1]).Some?
    ensures r.Ok? ==> r.value == Point(NumberValue(v.items[0]).value, NumberValue(v.items[1]).value)
  {
    if !v.YList? then Err(VertexNotList)
    else if |v.items| != 2 then Err(VertexNotPair)
    else
      match (NumberValue(v.items[0]), NumberValue(v.items[1]))
      case (None, _) => Err(XNotNumber)
      case (_, None) => Err(YNotNumber)
      case (Some(x), Some(y)) => Ok(Point(x, y))
  }

  /** One vertex scaled by `norm` (when it is not 1) and then rotated by the angle whose
      sine and cosine are `sc` (when the angle is not 0). */
  function Place(p: Point, norm: real, theta: real, sc: (real, real)): Point
  {
    var (x, y) := if norm != 1.0 then (p.x * norm, p.y * norm) else (p.x, p.y);
    if theta != 0.0 then Point(x * sc.1 - y * sc.0, x * sc.0 + y * sc.1)
    else Point(x, y)
  }

  /** Without rotation a vertex is only scaled, and with scale 1 it is left as it is. */
  lemma PlaceUnrotated(p: Point, norm: real, sc: (real, real))
    ensures Place(p, norm, 0.0, sc) == Point(p.x * norm, p.y * norm)
    ensures Place(p, 1.0, 0.0, sc) == p
  {
  }

  /** Rotation keeps a vertex's distance from the origin when the sine and cosine are those
      of one angle, and scaling multiplies it by the scale factor. */
  lemma PlaceKeepsRadius(p: Point, norm: real, theta: real, sc: (real, real))
    requires sc.0 * sc.0 + sc.1 * sc.1 == 1.0
    ensures var q := Place(p, norm, theta, sc);
            q.x * q.x + q.y * q.y == norm * norm * (p.x * p.x + p.y * p.y)
  {
    var (x, y) := (p.x * norm, p.y * norm);
    var (s, c) := sc;
    calc {
      (x * c - y * s) * (x * c - y * s) + (x * s + y * c) * (x * s + y * c);
      x * x * (c * c + s * s) + y * y * (s * s + c * c);
      x * x + y * y;
    }
  }

  /** The vertex loop over `polygon`: every vertex checked and placed, in order, the first
      vertex that fails its checks ending the loop with that vertex's error. */
  function PlaceAll(polygon: seq<Yaml>, norm: real, theta: real, sc: (real, real))
    : Result<seq<Point>, PatternError>
    decreases |polygon|
  {
    if polygon == [] then Ok([])
    else
      var n := |polygon| - 1;
      match PlaceAll(polygon[..n], norm, theta, sc)
      case Err(e) => Err(e)
      case Ok(done) =>
        match PointOf(polygon[n])
        case Err(e) => Err(e)
        case Ok(p) => Ok(done + [Place(p, norm, theta, sc)])
  }

  /** Once a prefix of the polygon has failed, the whole loop fails with the same error. */
  lemma {:induction false} PlaceAllStopsAtError(polygon: seq<Yaml>, norm: real, theta: real,
                                                sc: (real, real), i: nat)
    requires i <= |polygon| && PlaceAll(polygon[..i], norm, theta, sc).Err?
    ensures PlaceAll(polygon, norm, theta, sc) == PlaceAll(polygon[..i], norm, theta, sc)
    decreases |polygon| - i
  {
    if i < |polygon| {
      var n := |polygon| - 1;
      assert polygon[..n][..i] == polygon[..i];
      PlaceAllStopsAtError(polygon[..n], norm, theta, sc, i);
    } else {
      assert polygon[..i] == polygon;
    }
  }

  /** The loop succeeds exactly when every vertex passes its checks, and then yields one
      placed vertex per input vertex, in the same order. */
  lemma {:induction false} PlaceAllOk(polygon: seq<Yaml>, norm: real, theta: real,
                                      sc: (real, real))
    ensures PlaceAll(polygon, norm, theta, sc).Ok? <==>
            forall k :: 0 <= k < |polygon| ==> PointOf(polygon[k]).Ok?
    ensures PlaceAll(polygon, norm, theta, sc).Ok? ==>
            var out := PlaceAll(polygon, norm, theta, sc).value;
            |out| == |polygon| &&
            forall k :: 0 <= k < |polygon| ==>
              out[k] == Place(PointOf(polygon[k]).value, norm, theta, sc)
    decreases |polygon|
  {
    if polygon != [] {
      var n := |polygon| - 1;
      PlaceAllOk(polygon[..n], norm, theta, sc);
      assert forall k :: 0 <= k < n ==> polygon[..n][k] == polygon[k];
    }
  }

  /** A failing loop reports the error of the first vertex that fails its checks. */
  lemma {:induction false} PlaceAllFirstError(polygon: seq<Yaml>, norm: real, theta: real,
                                              sc: (real, real))
    ensures PlaceAll(polygon, norm, theta, sc).Err? ==>
            exists k :: 0 <= k < |polygon| &&
              (forall j :: 0 <= j < k ==> PointOf(polygon[j]).Ok?) &&
              PointOf(polygon[k]) == Err(PlaceAll(polygon, norm, theta, sc).error)
    decreases |polygon|
  {
    if polygon != [] {
      var n := |polygon| - 1;
      var r := PlaceAll(polygon, norm, theta, sc);
      PlaceAllFirstError(polygon[..n], norm, theta, sc);
      assert forall k :: 0 <= k < n ==> polygon[..n][k] == polygon[k];
      if PlaceAll(polygon[..n], norm, theta, sc).Ok? && r.Err? {
        PlaceAllOk(polygon[..n], norm, theta, sc);
        assert PointOf(polygon[n]) == Err(r.error);
      }
    }
  }

  /** The vertex loop as the loader runs it: a list that grows by one placed vertex per
      input vertex, abandoned at the first vertex that fails its checks. */
  method PlaceVertices(polygon: seq<Yaml>, norm: real, theta: real, sc: (real, real))
    returns (r: Result<seq<Point>, PatternError>)
    ensures r == PlaceAll(polygon, norm, theta, sc)
  {
    var vertices: seq<Point> := [];
    for i := 0 to |polygon|
      invariant PlaceAll(polygon[..i], norm, theta, sc) == Ok(vertices)
    {
      assert polygon[..i + 1][..i] == polygon[..i];
      match PointOf(polygon[i])
      case Err(e) =>
        PlaceAllStopsAtError(polygon, norm, theta, sc, i + 1);
        return Err(e);
      case Ok(p) =>
        vertices := vertices + [Place(p, norm, theta, sc)];
    }
    assert polygon[..|polygon|] == polygon;
    r := Ok(vertices);
  }

  /** What the whole transform gives for a loaded document: the checks, then the loop. */
  function MakePattern(info: map<string, Yaml>, trig: Trig): Result<seq<Point>, PatternError>
  {
    match SetupOf(info)
    case Err(e) => Err(e)
    case Ok(su) => PlaceAll(su.polygon, su.norm, su.theta, trig(su.theta))
  }

  /** `qRotate` as the loader reads it: the document's value, False when the key is absent. */
  function QRotateOf(info: map<string, Yaml>): (q: Yaml)
    ensures "qRotate" !in info ==> q == YBool(false)
    ensures "qRotate" in info ==> q == info["qRotate"]
  {
    if "qRotate" in info then info["qRotate"] else YBool(false)
  }

  /** A loaded pattern's vertices have as many entries as the document's polygon, two to
      seven, each the corresponding input vertex placed. */
  lemma MakePatternShape(info: map<string, Yaml>, trig: Trig)
    requires MakePattern(info, trig).Ok?
    ensures var su := SetupOf(info).value;
            var out := MakePattern(info, trig).value;
            && info["polygon"] == YList(su.polygon)
            && |out| == |su.polygon| && 2 <= |out| <= 7
            && forall k :: 0 <= k < |out| ==>
                 PointOf(su.polygon[k]).Ok? &&
                 out[k] == Place(PointOf(su.polygon[k]).value, su.norm, su.theta, trig(su.theta))
  {
    var su := SetupOf(info).value;
    PlaceAllOk(su.polygon, su.norm, su.theta, trig(su.theta));
  }

  /** The transform succeeds exactly when the document passes the checks before the loop
      and every vertex is a two-element list of numbers. */
  lemma MakePatternOk(info: map<string, Yaml>, trig: Trig)
    ensures MakePattern(info, trig).Ok? <==>
            SetupOf(info).Ok? &&
            forall k :: 0 <= k < |SetupOf(info).value.polygon| ==>
              PointOf(SetupOf(info).value.polygon[k]).Ok?
  {
    if SetupOf(info).Ok? {
      var su := SetupOf(info).value;
      PlaceAllOk(su.polygon, su.norm, su.theta, trig(su.theta));
    }
  }

  /** A document whose polygon is a list of two to seven two-element lists of numbers, whose
      normalization (1 when absent or null) is a nonzero number and whose rotation angle
      (0 when absent or null) is a number is transformed without error. */
  lemma MakePatternAccepts(info: map<string, Yaml>, trig: Trig)
    requires "polygon" in info && info["polygon"].YList?
    requires 2 <= |info["polygon"].items| <= 7
    requires NumberValue(OrDefault(info, "normalization", YInt(1))).Some?
    requires NumberValue(OrDefault(info, "normalization", YInt(1))) != Some(0.0)
    requires NumberValue(OrDefault(info, "rotation_angle", YInt(0))).Some?
    requires forall k :: 0 <= k < |info["polygon"].items| ==> PointOf(info["polygon"].items[k]).Ok?
    ensures MakePattern(info, trig).Ok?
  {
    MakePatternOk(info, trig);
  }

  /** A document with no polygon, a polygon that is not a list, or one with fewer than two or
      more than seven vertices is rejected. */
  lemma MakePatternRejectsPolygon(info: map<string, Yaml>, trig: Trig)
    ensures "polygon" !in info ==> MakePattern(info, trig) == Err(NoPolygon)
    ensures "polygon" in info && !info["polygon"].YList? ==>
              MakePattern(info, trig) == Err(PolygonNotList)
    ensures "polygon" in info && info["polygon"].YList? && |info["polygon"].items| < 2 ==>
              MakePattern(info, trig) == Err(TooFewPoints)
    ensures "polygon" in info && info["polygon"].YList? && |info["polygon"].items| > 7 ==>
              MakePattern(info, trig) == Err(TooManyPoints)
  {
  }

  /** A normalization that is zero (or False) is rejected; one that is absent or null is 1. */
  lemma MakePatternNormalization(info: map<string, Yaml>, trig: Trig)
    ensures "normalization" in info && NumberValue(info["normalization"]) == Some(0.0) ==>
              MakePattern(info, trig).Err?
    ensures SetupOf(info).Ok? && ("normalization" !in info || info["normalization"] == YNull) ==>
              SetupOf(info).value.norm == 1.0
    ensures SetupOf(info).Ok? && ("rotation_angle" !in info || info["rotation_angle"] == YNull) ==>
              SetupOf(info).value.theta == 0.0
  {
  }

  /** Every vertex of `out` is the corresponding entry of `polygon`, read as a point, times
      `norm`. */
  predicate Scaled(polygon: seq<Yaml>, norm: real, out: seq<Point>)
  {
    |out| == |polygon| &&
    forall k :: 0 <= k < |out| ==>
      PointOf(polygon[k]).Ok? &&
      out[k] == Point(PointOf(polygon[k]).value.x * norm, PointOf(polygon[k]).value.y * norm)
  }

  /** With no rotation the loop only scales: every output vertex is the input vertex times
      `norm`. */
  lemma PlaceAllUnrotated(polygon: seq<Yaml>, norm: real, sc: (real, real), out: seq<Point>)
    requires PlaceAll(polygon, norm, 0.0, sc) == Ok(out)
    ensures Scaled(polygon, norm, out)
  {
    PlaceAllOk(polygon, norm, 0.0, sc);
    forall k | 0 <= k < |polygon| {
      PlaceUnrotated(PointOf(polygon[k]).value, norm, sc);
    }
  }

  /** Without a rotation, every output vertex is the input vertex times the normalization. */
  lemma MakePatternUnrotated(info: map<string, Yaml>, trig: Trig)
    requires "rotation_angle" !in info || info["rotation_angle"] == YNull
    requires MakePattern(info, trig).Ok?
    ensures Scaled(SetupOf(info).value.polygon, SetupOf(info).value.norm,
                   MakePattern(info, trig).value)
  {
    var su := SetupOf(info).value;
    SetupUnrotated(info);
    MakePatternIsPlaceAll(info, trig);
    PlaceAllUnrotated(su.polygon, su.norm, trig(su.theta), MakePattern(info, trig).value);
  }

  /** A document that passes the checks before the loop is transformed by the loop. */
  lemma MakePatternIsPlaceAll(info: map<string, Yaml>, trig: Trig)
    requires SetupOf(info).Ok?
    ensures var su := SetupOf(info).value;
            MakePattern(info, trig) == PlaceAll(su.polygon, su.norm, su.theta, trig(su.theta))
  {
  }

  /** Without a rotation angle the setup's angle is 0. */
  lemma SetupUnrotated(info: map<string, Yaml>)
    requires "rotation_angle" !in info || info["rotation_angle"] == YNull
    requires SetupOf(info).Ok?
    ensures SetupOf(info).value.theta == 0.0
  {
    assert OrDefault(info, "rotation_angle", YInt(0)) == YInt(0);
  }

  /** With neither a rotation nor a normalization, the pattern is the polygon as written. */
  lemma MakePatternVerbatim(info: map<string, Yaml>, trig: Trig)
    requires "rotation_angle" !in info || info["rotation_angle"] == YNull
    requires "normalization" !in info || info["normalization"] == YNull
    requires MakePattern(info, trig).Ok?
    ensures var su := SetupOf(info).value;
            var out := MakePattern(info, trig).value;
            |out| == |su.polygon| &&
            forall k :: 0 <= k < |out| ==> PointOf(su.polygon[k]).Ok? && out[k] == PointOf(su.polygon[k]).value
  {
    MakePatternUnrotated(info, trig);
    MakePatternNormalization(info, trig);
  }

  /** A loaded pattern: the `qRotate` flag and, when the document passed every check, the
      transformed vertices. */
  class Pattern {
    var qRotate: Yaml
    var vertices: Option<seq<Point>>

    /** Loads the pattern from `doc`, the document read from the pattern file (None when the
        file cannot be opened or parsed). Every exception is caught and logged, so a
        rejected document leaves `vertices` None. */
    constructor(doc: Option<map<string, Yaml>>, trig: Trig)
      ensures qRotate == (if doc.Some? then QRotateOf(doc.value) else YBool(false))
      ensures vertices == if doc.Some? && MakePattern(doc.value, trig).Ok?
                          then Some(MakePattern(doc.value, trig).value) else None
    {
      qRotate := YBool(false);
      vertices := None;
      new;
      LoadPattern(doc, trig);
    }

    /** Reads `qRotate` (False when absent), then builds the vertices. */
    method LoadPattern(doc: Option<map<string, Yaml>>, trig: Trig)
      modifies this
      ensures qRotate == (if doc.Some? then QRotateOf(doc.value) else old(qRotate))
      ensures vertices == if doc.Some? && MakePattern(doc.value, trig).Ok?
                          then Some(MakePattern(doc.value, trig).value) else old(vertices)
    {
      if doc.Some? {
        var info := doc.value;
        qRotate := QRotateOf(info);
        var _ := MkPattern(info, trig);
      }
    }

    /** Checks the document and, when it passes, stores the scaled and rotated vertices; a
        rejected document leaves `vertices` as it was. */
    method MkPattern(info: map<string, Yaml>, trig: Trig) returns (r: Result<seq<Point>, PatternError>)
      modifies this`vertices
      ensures r == MakePattern(info, trig)
      ensures vertices == if r.Ok? then Some(r.value) else old(vertices)
    {
      var setup := SetupOf(info);
      if setup.Err? {
        return Err(setup.error);
      }
      var su := setup.value;
      var sc := trig(su.theta);
      r := PlaceVertices(su.polygon, su.norm, su.theta, sc);
      if r.Ok? {
        vertices := Some(r.value);
      }
    }
  }
}
