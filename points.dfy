/** `Ponto2D` of ponto.py: an immutable point of the plane. Every operator
    builds a new point and leaves its operands as they were, which a datatype
    value does by construction. */
module Points {
  import opened Outcomes

  /** A point with coordinates `x` and `y`; the destructors are the read-only
      properties `x` and `y`. */
  datatype Point = Point(x: real, y: real)

  /** `p + q`: subtracting either operand gives back the other. */
  function Add(p: Point, q: Point): (r: Point)
    ensures Subtract(r, q) == p && Subtract(r, p) == q
  {
    Point(p.x + q.x, p.y + q.y)
  }

  /** `p - q`: the point that, moved by `q`, lands on `p`. */
  function Subtract(p: Point, q: Point): (r: Point)
    ensures r.x + q.x == p.x && r.y + q.y == p.y
  {
    Point(p.x - q.x, p.y - q.y)
  }

  /** `p * k`: scaling by 1 keeps the point, by 0 collapses it to the origin,
      and any other factor can be divided out again. */
  function Scale(p: Point, k: real): (r: Point)
    ensures k == 1.0 ==> r == p
    ensures k == 0.0 ==> r == Point(0.0, 0.0)
    ensures k != 0.0 ==> r.x / k == p.x && r.y / k == p.y
  {
    var r := Point(p.x * k, p.y * k);
    CancelFactor(p.x, k);
    CancelFactor(p.y, k);
    assert k != 0.0 ==> r.x / k == p.x && r.y / k == p.y;
    r
  }

  /** A non-zero factor divides out again. */
  lemma CancelFactor(a: real, k: real)
    ensures k != 0.0 ==> a * k / k == a
  {
    if k != 0.0 {
      var q := a * k / k;
      assert q * k == a * k;
      assert (q - a) * k == 0.0;
    }
  }

  /** `-p`, documented as `p * -1`. */
  function Negate(p: Point): (r: Point)
    ensures r == Scale(p, -1.0)
    ensures Add(p, r) == Point(0.0, 0.0)
  {
    Point(-p.x, -p.y)
  }

  /** `p / k`: each coordinate divided by `k`; nothing guards `k == 0`, so the
      division raises. */
  function Divide(p: Point, k: real): (r: Result<Point>)
    ensures r.Ok? <==> k != 0.0
    ensures r.Err? ==> r.error == ZeroDivisionError
    ensures r.Ok? ==> Scale(r.value, k) == p
  {
    if k == 0.0 then Err(ZeroDivisionError) else Ok(Point(p.x / k, p.y / k))
  }

  /** `b ** e` for a natural exponent. */
  function Power(b: real, e: nat): real
  {
    if e == 0 then 1.0 else b * Power(b, e - 1)
  }

  /** `p ** e`: the sum of the coordinates raised to `e` (not a power of the
      point); with an even exponent it is never negative. */
  function Pow(p: Point, e: nat): (r: real)
    ensures e == 0 ==> r == 2.0
    ensures e == 1 ==> r == p.x + p.y
    ensures e % 2 == 0 ==> r >= 0.0
  {
    EvenPowerNonNegative(p.x, e);
    EvenPowerNonNegative(p.y, e);
    assert Power(p.x, 0) == 1.0 && Power(p.y, 0) == 1.0;
    assert Power(p.x, 1) == p.x && Power(p.y, 1) == p.y;
    Power(p.x, e) + Power(p.y, e)
  }

  /** An even power is never negative. */
  lemma {:induction false} EvenPowerNonNegative(b: real, e: nat)
    ensures e % 2 == 0 ==> Power(b, e) >= 0.0
  {
    if e % 2 == 0 && e > 0 {
      EvenPowerNonNegative(b, e - 2);
      assert Power(b, e) == (b * b) * Power(b, e - 2);
      assert b * b >= 0.0;
    }
  }

  /** `p ** 2` is the squared length: never negative, and zero only at the origin. */
  lemma SquaredLength(p: Point)
    ensures Pow(p, 2) == p.x * p.x + p.y * p.y
    ensures Pow(p, 2) >= 0.0
    ensures Pow(p, 2) == 0.0 <==> p == Point(0.0, 0.0)
  {
    assert Power(p.x, 0) == 1.0 && Power(p.y, 0) == 1.0;
    assert Power(p.x, 1) == p.x && Power(p.y, 1) == p.y;
    assert Power(p.x, 2) == p.x * p.x && Power(p.y, 2) == p.y * p.y;
    assert p.x * p.x >= 0.0 && p.y * p.y >= 0.0;
    if p.x != 0.0 {
      assert p.x * p.x > 0.0;
    }
    if p.y != 0.0 {
      assert p.y * p.y > 0.0;
    }
  }

  /** `p == q`: both coordinates agree. */
  function Equals(p: Point, q: Point): (r: bool)
    ensures r <==> p == q
  {
    p.x == q.x && p.y == q.y
  }

  /** `__neq__`: the negation of `==`. */
  function NotEquals(p: Point, q: Point): (r: bool)
    ensures r <==> p != q
    ensures r == !Equals(p, q)
  {
    !Equals(p, q)
  }

  /** `(p + q) - q == p`. */
  lemma AddThenSubtract(p: Point, q: Point)
    ensures Subtract(Add(p, q), q) == p
  {
  }

  /** `(p * k) / k == p` for every non-zero `k`. */
  lemma ScaleThenDivide(p: Point, k: real)
    requires k != 0.0
    ensures Divide(Scale(p, k), k) == Ok(p)
  {
    var s := Scale(p, k);
    assert s.x / k == p.x && s.y / k == p.y;
  }
}
