/** `Transformador2D` of transformador.py: a builder that registers elementary
    affine operators as 3x3 homogeneous matrices and applies their composite
    to a list of points. */
module Transformers {
  import opened Outcomes
  import opened Matrices
  import Points

  /** A 3x3 grid: an elementary or composite homogeneous operator. */
  predicate Is3x3(m: Grid)
  {
    |m| == 3 && forall i :: 0 <= i < 3 ==> |m[i]| == 3
  }

  /** A 3x1 grid: a point in homogeneous coordinates. */
  predicate IsColumn3(v: Grid)
  {
    |v| == 3 && forall i :: 0 <= i < 3 ==> |v[i]| == 1
  }

  predicate All3x3(ms: seq<Grid>)
  {
    forall k :: 0 <= k < |ms| ==> Is3x3(ms[k])
  }

  // The elementary operators, as the builders leave them, each with what it
  // does to a point pushed through `transformar`.

  /** Translation by (tx, ty). */
  function Translation(tx: real, ty: real): (m: Grid)
    ensures Is3x3(m)
    ensures forall p: Points.Point {:trigger Apply(m, p)} :: Apply(m, p) == Points.Add(p, Points.Point(tx, ty))
  {
    var m := [[1.0, 0.0, tx], [0.0, 1.0, ty], [0.0, 0.0, 1.0]];
    m
  }

  /** Scaling by `sx` horizontally and `sy` vertically. */
  function Scaling(sx: real, sy: real): (m: Grid)
    ensures Is3x3(m)
    ensures forall p: Points.Point {:trigger Apply(m, p)} :: Apply(m, p) == Points.Point(p.x * sx, p.y * sy)
  {
    var m := [[sx, 0.0, 0.0], [0.0, sy, 0.0], [0.0, 0.0, 1.0]];
    m
  }

  /** Rotation about the origin by an angle whose cosine and sine are `c` and `s`. */
  function Rotation(c: real, s: real): (m: Grid)
    ensures Is3x3(m)
    ensures forall p: Points.Point {:trigger Apply(m, p)} :: Apply(m, p) == Points.Point(c * p.x - s * p.y, s * p.x + c * p.y)
  {
    var m := [[c, -s, 0.0], [s, c, 0.0], [0.0, 0.0, 1.0]];
    m
  }

  /** Shear by `shx` about the line y = yref and by `shy` about the line x = xref:
      each coordinate moves in proportion to the other one's distance from its
      reference line. */
  function Shearing(shx: real, yref: real, shy: real, xref: real): (m: Grid)
    ensures Is3x3(m)
    ensures forall p: Points.Point {:trigger Apply(m, p)} ::
      Apply(m, p) == Points.Point(p.x + shx * (p.y - yref), p.y + shy * (p.x - xref))
  {
    var m := [[1.0, shx, -shx * yref], [shy, 1.0, -shy * xref], [0.0, 0.0, 1.0]];
    m
  }

  /** A rotation whose cosine and sine satisfy `c*c + s*s == 1` keeps the
      squared distance from the origin, `p ** 2`. */
  lemma RotationKeepsLength(c: real, s: real, p: Points.Point)
    requires c * c + s * s == 1.0
    ensures Points.Pow(Apply(Rotation(c, s), p), 2) == Points.Pow(p, 2)
  {
    var q := Apply(Rotation(c, s), p);
    assert q == Points.Point(c * p.x - s * p.y, s * p.x + c * p.y);
    Points.SquaredLength(p);
    Points.SquaredLength(q);
    RotatedSquares(c, s, p.x, p.y);
  }

  /** `(c x - s y)^2 + (s x + c y)^2 == (c^2 + s^2)(x^2 + y^2)`. */
  lemma RotatedSquares(c: real, s: real, x: real, y: real)
    requires c * c + s * s == 1.0
    ensures (c * x - s * y) * (c * x - s * y) + (s * x + c * y) * (s * x + c * y) == x * x + y * y
  {
    var cx, sy, sx, cy := c * x, s * y, s * x, c * y;
    assert (cx - sy) * (cx - sy) == cx * cx - 2.0 * cx * sy + sy * sy;
    assert (sx + cy) * (sx + cy) == sx * sx + 2.0 * sx * cy + cy * cy;
    assert cx * sy == sx * cy;
    assert cx * cx + sx * sx == (c * c + s * s) * (x * x);
    assert sy * sy + cy * cy == (c * c + s * s) * (y * y);
  }

  /** `Matriz([[p.x], [p.y], [1]])`: the point in homogeneous coordinates,
      which projecting gives back. */
  function Lift(p: Points.Point): (v: Grid)
    ensures IsColumn3(v) && v[2] == [1.0]
    ensures Project(v) == p
  {
    [[p.x], [p.y], [1.0]]
  }

  /** `Ponto2D(p[0][0], p[1][0])`: the homogeneous row is dropped, not divided
      out, which loses nothing exactly when that row holds 1. */
  function Project(v: Grid): (r: Points.Point)
    requires IsColumn3(v)
    ensures v[2] == [1.0] ==> v == [[r.x], [r.y], [1.0]]
  {
    assert v[0] == [v[0][0]] && v[1] == [v[1][0]];
    Points.Point(v[0][0], v[1][0])
  }

  /** What `transformar` does to one point under a single operator `m`:
      the first two rows of `m` against `(x, y, 1)`, in accumulation order. */
  function Apply(m: Grid, p: Points.Point): (q: Points.Point)
    requires Is3x3(m)
    ensures q == Points.Point(0.0 + m[0][0] * p.x + m[0][1] * p.y + m[0][2] * 1.0,
                              0.0 + m[1][0] * p.x + m[1][1] * p.y + m[1][2] * 1.0)
  {
    ApplyOperator(m, Lift(p));
    Project(Product(m, Lift(p)))
  }

  /** `reversed(ms)`. */
  function Reversed(ms: seq<Grid>): (r: seq<Grid>)
    ensures |r| == |ms| && forall k :: 0 <= k < |ms| ==> r[k] == ms[|ms| - 1 - k]
  {
    if ms == [] then [] else Reversed(ms[1..]) + [ms[0]]
  }

  /** `reduce(lambda a, b: a * b, rs)`: the product folded from the left. */
  function Reduce(rs: seq<Grid>): (c: Grid)
    requires |rs| > 0 && All3x3(rs)
    ensures Is3x3(c)
  {
    if |rs| == 1 then rs[0] else Product(Reduce(rs[..|rs| - 1]), rs[|rs| - 1])
  }

  /** The composite of the registered operators, `M_n * ... * M_1`. */
  function Composite(ms: seq<Grid>): (c: Grid)
    requires |ms| > 0 && All3x3(ms)
    ensures Is3x3(c)
  {
    Reduce(Reversed(ms))
  }

  /** The reference meaning of a pipeline: apply the operators to `v` one at a
      time, the first registered first. */
  function ApplyInOrder(ms: seq<Grid>, v: Grid): (w: Grid)
    requires All3x3(ms) && IsColumn3(v)
    ensures IsColumn3(w)
  {
    if ms == [] then v else ApplyInOrder(ms[1..], Product(ms[0], v))
  }

  /** Multiplying by the composite is applying the operators in registration order. */
  lemma {:induction false} CompositeAppliesInOrder(ms: seq<Grid>, v: Grid)
    requires |ms| > 0 && All3x3(ms) && IsColumn3(v)
    ensures Product(Composite(ms), v) == ApplyInOrder(ms, v)
  {
    if |ms| == 1 {
      assert Reversed(ms) == [ms[0]];
    } else {
      var rest := Reversed(ms[1..]);
      assert Reversed(ms) == rest + [ms[0]];
      assert (rest + [ms[0]])[..|rest|] == rest;
      assert Composite(ms) == Product(Composite(ms[1..]), ms[0]);
      ProductAssociative(Composite(ms[1..]), ms[0], v);
      CompositeAppliesInOrder(ms[1..], Product(ms[0], v));
    }
  }

  lemma CompositeAppliesInOrderAll(ms: seq<Grid>)
    requires |ms| > 0 && All3x3(ms)
    ensures forall v :: IsColumn3(v) ==> Product(Composite(ms), v) == ApplyInOrder(ms, v)
  {
    forall v | IsColumn3(v)
      ensures Product(Composite(ms), v) == ApplyInOrder(ms, v)
    {
      CompositeAppliesInOrder(ms, v);
    }
  }

  /** A three-term `Dot`, written out in accumulation order. */
  lemma Dot3(u: seq<real>, w: seq<real>)
    requires |u| == |w| == 3
    ensures Dot(u, w) == 0.0 + u[0] * w[0] + u[1] * w[1] + u[2] * w[2]
  {
    assert u[..1][..0] == [] && w[..1][..0] == [];
    assert Dot(u[..1], w[..1]) == 0.0 + u[0] * w[0];
    assert u[..2][..1] == u[..1] && w[..2][..1] == w[..1];
    assert Dot(u[..2], w[..2]) == Dot(u[..1], w[..1]) + u[1] * w[1];
    assert u[..2] == u[..|u| - 1] && w[..2] == w[..|w| - 1];
  }

  /** A 3x3 operator applied to a homogeneous column, written out. */
  lemma ApplyOperator(m: Grid, v: Grid)
    requires Is3x3(m) && IsColumn3(v)
    ensures |Product(m, v)| == 3
    ensures forall i :: 0 <= i < 3 ==>
      Product(m, v)[i] == [0.0 + m[i][0] * v[0][0] + m[i][1] * v[1][0] + m[i][2] * v[2][0]]
  {
    var c := Column(v, 0);
    var p := Product(m, v);
    assert |p| == 3;
    forall i | 0 <= i < 3
      ensures p[i] == [0.0 + m[i][0] * v[0][0] + m[i][1] * v[1][0] + m[i][2] * v[2][0]]
    {
      Dot3(m[i], c);
      assert c[0] == v[0][0] && c[1] == v[1][0] && c[2] == v[2][0];
      assert |p[i]| == 1 && p[i][0] == Dot(m[i], c);
      assert p[i] == [p[i][0]];
      assert p[i][0] == 0.0 + m[i][0] * c[0] + m[i][1] * c[1] + m[i][2] * c[2];
      assert p[i][0] == 0.0 + m[i][0] * v[0][0] + m[i][1] * v[1][0] + m[i][2] * v[2][0];
    }
  }

  class Transformer2D {
    /** The registered operators, in registration order. */
    var matrices: seq<Grid>

    ghost predicate Valid()
      reads this
    {
      All3x3(matrices)
    }

    /** `Transformador2D()`: starts with no operators. */
    constructor ()
      ensures Valid() && matrices == []
    {
      matrices := [];
    }

    /** `limpar`: forgets every registered operator. */
    method Clear()
      modifies this
      ensures Valid() && matrices == []
    {
      matrices := [];
    }

    /** `transladar`: registers a translation by (tx, ty). */
    method Translate(tx: real := 0.0, ty: real := 0.0) returns (self: Transformer2D)
      requires Valid()
      modifies this
      ensures Valid() && self == this
      ensures matrices == old(matrices) + [Translation(tx, ty)]
    {
      var m := Identity(3);
      m := WithEntry(m, 0, 2, tx);
      m := WithEntry(m, 1, 2, ty);
      assert m == Translation(tx, ty) by {
        assert m[0] == [1.0, 0.0, tx] && m[1] == [0.0, 1.0, ty] && m[2] == [0.0, 0.0, 1.0];
      }
      matrices := matrices + [m];
      self := this;
    }

    /** `escalar`: registers a scaling by (sx, sy). */
    method Scale(sx: real := 1.0, sy: real := 1.0) returns (self: Transformer2D)
      requires Valid()
      modifies this
      ensures Valid() && self == this
      ensures matrices == old(matrices) + [Scaling(sx, sy)]
    {
      var m := Identity(3);
      m := WithEntry(m, 0, 0, sx);
      m := WithEntry(m, 1, 1, sy);
      assert m == Scaling(sx, sy) by {
        assert m[0] == [sx, 0.0, 0.0] && m[1] == [0.0, sy, 0.0] && m[2] == [0.0, 0.0, 1.0];
      }
      matrices := matrices + [m];
      self := this;
    }

    /** `rotacionar`: registers a rotation by the angle whose cosine and sine
        are `cosTheta` and `sinTheta`. */
    method Rotate(cosTheta: real, sinTheta: real) returns (self: Transformer2D)
      requires Valid()
      modifies this
      ensures Valid() && self == this
      ensures matrices == old(matrices) + [Rotation(cosTheta, sinTheta)]
    {
      var m := Identity(3);
      m := WithEntry(m, 0, 0, cosTheta);
      m := WithEntry(m, 1, 1, cosTheta);
      m := WithEntry(m, 0, 1, -sinTheta);
      m := WithEntry(m, 1, 0, sinTheta);
      assert m == Rotation(cosTheta, sinTheta) by {
        assert m[0] == [cosTheta, -sinTheta, 0.0] && m[1] == [sinTheta, cosTheta, 0.0] && m[2] == [0.0, 0.0, 1.0];
      }
      matrices := matrices + [m];
      self := this;
    }

    /** `cisalhar`: registers a shear by `shx` about the line y = yref and by
        `shy` about the line x = xref. */
    method Shear(shx: real := 0.0, yref: real := 0.0, shy: real := 0.0, xref: real := 0.0)
      returns (self: Transformer2D)
      requires Valid()
      modifies this
      ensures Valid() && self == this
      ensures matrices == old(matrices) + [Shearing(shx, yref, shy, xref)]
    {
      var m := Identity(3);
      m := WithEntry(m, 0, 1, shx);
      m := WithEntry(m, 0, 2, -shx * yref);
      m := WithEntry(m, 1, 0, shy);
      m := WithEntry(m, 1, 2, -shy * xref);
      assert m == Shearing(shx, yref, shy, xref) by {
        assert m[0] == [1.0, shx, -shx * yref] && m[1] == [shy, 1.0, -shy * xref] && m[2] == [0.0, 0.0, 1.0];
      }
      matrices := matrices + [m];
      self := this;
    }

    /** `transformar`: every point, in order, lifted to homogeneous
        coordinates, multiplied by the composite and projected back. Without
        operators `reduce` has nothing to start from and raises. */
    function Transform(points: seq<Points.Point>): (r: Result<seq<Points.Point>>)
      reads this
      requires Valid()
      ensures r.Err? <==> matrices == []
      ensures r.Err? ==> r.error == TypeError
      ensures r.Ok? ==> |r.value| == |points|
      ensures r.Ok? ==> forall i :: 0 <= i < |points| ==>
        r.value[i] == Project(ApplyInOrder(matrices, Lift(points[i])))
    {
      if matrices == [] then Err(TypeError)
      else
        var composite := Composite(matrices);
        CompositeAppliesInOrderAll(matrices);
        Ok(seq(|points|, i requires 0 <= i < |points| => Project(Product(composite, Lift(points[i])))))
    }
  }

  /** Translating by (1, 0) and then scaling by 2 takes (1, 1) to (4, 2): the
      translation, registered first, is applied first. */
  method TranslateThenScale() returns (r: Result<seq<Points.Point>>)
    ensures r == Ok([Points.Point(4.0, 2.0)])
  {
    var t := new Transformer2D();
    var t1 := t.Translate(1.0, 0.0);
    var t2 := t1.Scale(2.0, 2.0);
    r := t2.Transform([Points.Point(1.0, 1.0)]);
    var ms := [Translation(1.0, 0.0), Scaling(2.0, 2.0)];
    var v := Lift(Points.Point(1.0, 1.0));
    var moved := Product(ms[0], v);
    ApplyOperator(ms[0], v);
    assert moved == [[2.0], [1.0], [1.0]] by {
      assert moved[0] == [2.0] && moved[1] == [1.0] && moved[2] == [1.0];
    }
    var scaled := Product(ms[1], moved);
    ApplyOperator(ms[1], moved);
    assert scaled[0] == [4.0] && scaled[1] == [2.0];
    assert ms[1..][1..] == [];
    assert ApplyInOrder(ms, v) == scaled;
    assert t2.matrices == ms;
    assert r.value == [r.value[0]] && r.value[0] == Project(scaled);
  }

  /** A quarter turn (cosine 0, sine 1) takes (1, 0) to (0, 1). */
  method QuarterTurn() returns (r: Result<seq<Points.Point>>)
    ensures r == Ok([Points.Point(0.0, 1.0)])
  {
    var t := new Transformer2D();
    var t1 := t.Rotate(0.0, 1.0);
    r := t1.Transform([Points.Point(1.0, 0.0)]);
    var v := Lift(Points.Point(1.0, 0.0));
    var turned := Product(Rotation(0.0, 1.0), v);
    ApplyOperator(Rotation(0.0, 1.0), v);
    assert turned[0] == [0.0] && turned[1] == [1.0];
    assert ApplyInOrder([Rotation(0.0, 1.0)], v) == turned;
    assert t1.matrices == [Rotation(0.0, 1.0)];
    assert r.value == [r.value[0]] && r.value[0] == Project(turned);
  }

  /** A pipeline emptied by `limpar` cannot transform anything. */
  method ClearedPipeline(points: seq<Points.Point>) returns (r: Result<seq<Points.Point>>)
    ensures r == Err(TypeError)
  {
    var t := new Transformer2D();
    var t1 := t.Translate(1.0, 2.0);
    t1.Clear();
    r := t1.Transform(points);
  }
}
