/** `SistemaDeReferencia` of sistemas_de_referencia.py: a rectangular frame of
    coordinates, and the per-axis linear map that carries points from one
    frame to another. */
module Frames {
  import opened Outcomes
  import opened Points

  /** A frame given by its bounds; the destructors are the read-only
      properties `xmin`, `xmax`, `ymin` and `ymax`. */
  datatype Frame = Frame(xmin: real, xmax: real, ymin: real, ymax: real)
  {
    /** `transformar_de`: the points, given in `source`, expressed in this frame. */
    function TransformFrom(source: Frame, points: seq<Point>): (r: Result<seq<Point>>)
      ensures r.Err? <==> points != [] && Degenerate(source)
      ensures r.Err? ==> r.error == ZeroDivisionError
      ensures r.Ok? ==> |r.value| == |points|
      ensures r.Ok? ==> forall i :: 0 <= i < |points| ==> RemapPoint(points[i], source, this) == Ok(r.value[i])
    {
      RemapAll(points, source, this)
    }

    /** `transformar_para`: the points, given in this frame, expressed in `destination`. */
    function TransformTo(destination: Frame, points: seq<Point>): (r: Result<seq<Point>>)
      ensures r.Err? <==> points != [] && Degenerate(this)
      ensures r.Err? ==> r.error == ZeroDivisionError
      ensures r.Ok? ==> |r.value| == |points|
      ensures r.Ok? ==> forall i :: 0 <= i < |points| ==> RemapPoint(points[i], this, destination) == Ok(r.value[i])
    {
      RemapAll(points, this, destination)
    }
  }

  /** A frame with an empty horizontal or vertical range; mapping out of it divides by zero. */
  predicate Degenerate(f: Frame)
  {
    f.xmin == f.xmax || f.ymin == f.ymax
  }

  /** `transformar_coordenada_de`: the linear map that takes
      `[origMin, origMax]` onto `[destMin, destMax]`. */
  function RemapCoordinate(c: real, origMin: real, origMax: real, destMin: real, destMax: real): (r: Result<real>)
    ensures r.Ok? <==> origMax != origMin
    ensures r.Err? ==> r.error == ZeroDivisionError
    ensures r.Ok? ==> (r.value - destMin) * (origMax - origMin) == (c - origMin) * (destMax - destMin)
  {
    if origMax - origMin == 0.0 then Err(ZeroDivisionError)
    else Ok((c - origMin) * (destMax - destMin) / (origMax - origMin) + destMin)
  }

  /** The lower bound goes to the lower bound, the upper bound to the upper bound. */
  lemma RemapEndpoints(origMin: real, origMax: real, destMin: real, destMax: real)
    requires origMax != origMin
    ensures RemapCoordinate(origMin, origMin, origMax, destMin, destMax) == Ok(destMin)
    ensures RemapCoordinate(origMax, origMin, origMax, destMin, destMax) == Ok(destMax)
  {
    ProductOverFactor(origMax - origMin, destMax - destMin);
    var top := (origMax - origMin) * (destMax - destMin) / (origMax - origMin);
    assert top == destMax - destMin;
    assert top + destMin == destMax;
    assert RemapCoordinate(origMax, origMin, origMax, destMin, destMax) == Ok(top + destMin);
  }

  /** `o * d / o == d` for non-zero `o`. */
  lemma ProductOverFactor(o: real, d: real)
    requires o != 0.0
    ensures o * d / o == d
  {
    var q := o * d / o;
    assert q * o == o * d;
    assert (q - d) * o == 0.0;
  }

  /** Mapping back with the ranges swapped restores the coordinate. */
  lemma RemapInverse(c: real, origMin: real, origMax: real, destMin: real, destMax: real)
    requires origMax != origMin && destMax != destMin
    ensures RemapCoordinate(c, origMin, origMax, destMin, destMax).Ok?
    ensures RemapCoordinate(RemapCoordinate(c, origMin, origMax, destMin, destMax).value,
                            destMin, destMax, origMin, origMax) == Ok(c)
  {
    var o, d := origMax - origMin, destMax - destMin;
    var t := (c - origMin) / o;
    var there := RemapCoordinate(c, origMin, origMax, destMin, destMax).value;
    assert (c - origMin) * d / o == t * d;
    assert there - destMin == t * d;
    assert (there - destMin) * o / d == t * o;
    assert t * o == c - origMin;
  }

  /** The body of the lambda in both list methods: the x coordinate is mapped
      between the horizontal ranges, then the y coordinate between the vertical ones. */
  function RemapPoint(p: Point, source: Frame, destination: Frame): (r: Result<Point>)
    ensures r.Ok? <==> !Degenerate(source)
    ensures r.Err? ==> r.error == ZeroDivisionError
    ensures r.Ok? ==> Ok(r.value.x) == RemapCoordinate(p.x, source.xmin, source.xmax, destination.xmin, destination.xmax)
    ensures r.Ok? ==> Ok(r.value.y) == RemapCoordinate(p.y, source.ymin, source.ymax, destination.ymin, destination.ymax)
  {
    match RemapCoordinate(p.x, source.xmin, source.xmax, destination.xmin, destination.xmax)
    case Err(e) => Err(e)
    case Ok(x) =>
      match RemapCoordinate(p.y, source.ymin, source.ymax, destination.ymin, destination.ymax)
      case Err(e) => Err(e)
      case Ok(y) => Ok(Point(x, y))
  }

  /** `list(map(..., pontos))`: the points in order; the first point that
      cannot be mapped stops the whole list, and an empty list never divides. */
  function RemapAll(points: seq<Point>, source: Frame, destination: Frame): (r: Result<seq<Point>>)
    ensures r.Err? <==> points != [] && Degenerate(source)
    ensures r.Err? ==> r.error == ZeroDivisionError
    ensures r.Ok? ==> |r.value| == |points|
    ensures r.Ok? ==> forall i :: 0 <= i < |points| ==> RemapPoint(points[i], source, destination) == Ok(r.value[i])
    decreases |points|
  {
    if points == [] then Ok([])
    else
      match RemapPoint(points[0], source, destination)
      case Err(e) => Err(e)
      case Ok(q) =>
        match RemapAll(points[1..], source, destination)
        case Err(e) => Err(e)
        case Ok(rest) => Ok([q] + rest)
  }

  /** `a.transformar_para(b, pts)` is `b.transformar_de(a, pts)`. */
  lemma ToIsFromSwapped(a: Frame, b: Frame, points: seq<Point>)
    ensures a.TransformTo(b, points) == b.TransformFrom(a, points)
  {
  }

  /** Mapping a point into another frame and back returns it. */
  lemma RemapPointRoundTrip(p: Point, a: Frame, b: Frame)
    requires !Degenerate(a) && !Degenerate(b)
    ensures RemapPoint(p, a, b).Ok? && RemapPoint(RemapPoint(p, a, b).value, b, a) == Ok(p)
  {
    RemapInverse(p.x, a.xmin, a.xmax, b.xmin, b.xmax);
    RemapInverse(p.y, a.ymin, a.ymax, b.ymin, b.ymax);
  }

  /** `b.transformar_para(a, b.transformar_de(a, pts)) == pts` when neither
      frame is degenerate. */
  lemma {:induction false} RoundTrip(a: Frame, b: Frame, points: seq<Point>)
    requires !Degenerate(a) && !Degenerate(b)
    ensures b.TransformFrom(a, points).Ok?
    ensures b.TransformTo(a, b.TransformFrom(a, points).value) == Ok(points)
    decreases |points|
  {
    if points != [] {
      var there := b.TransformFrom(a, points).value;
      RemapPointRoundTrip(points[0], a, b);
      RoundTrip(a, b, points[1..]);
      assert there[0] == RemapPoint(points[0], a, b).value;
      assert there[1..] == b.TransformFrom(a, points[1..]).value;
      assert RemapAll(there[1..], b, a) == Ok(points[1..]);
      assert [points[0]] + points[1..] == points;
    }
  }
}
