/** The `Matriz` class of matriz.py: a rectangular grid of numbers with
    elementwise addition and subtraction, scalar multiplication and division,
    the naive matrix product and the identity matrix.

    A `Matriz` is modelled by its element storage, a list of rows (`Grid`).
    Every operation that Python runs on a `Matriz` object requires the grid to
    be `Rectangular`, which is what the constructor checked. */
module Matrices {
  import opened Outcomes

  /** The element storage of a `Matriz`: a list of rows. */
  type Grid = seq<seq<real>>

  /** Every row is as long as the first one. */
  predicate Rectangular(g: Grid)
  {
    forall i :: 0 <= i < |g| ==> |g[i]| == |g[0]|
  }

  /** `n_linhas`: the number of rows, which is the number of non-negative
      indices `m[i]` accepts; it is zero exactly when `n_colunas` raises. */
  function Rows(m: Grid): (r: nat)
    ensures forall i: int :: 0 <= i ==> (Row(m, i).Ok? <==> i < r)
    ensures r == 0 <==> Columns(m).Err?
  {
    |m|
  }

  /** `n_colunas`: the length of row 0; a matrix without rows has no row 0. */
  function Columns(m: Grid): (r: Result<nat>)
    ensures r.Ok? <==> |m| > 0
    ensures r.Err? ==> r.error == IndexError
    ensures r.Ok? ==> r.value == |m[0]|
    ensures r.Ok? && Rectangular(m) ==> forall i :: 0 <= i < |m| ==> |m[i]| == r.value
  {
    if |m| == 0 then Err(IndexError) else Ok(|m[0]|)
  }

  /** `Matriz(elementos)`: checks, row by row, that every row is as long as the
      first one, and keeps the rows as they are. */
  method New(elements: Grid) returns (r: Result<Grid>)
    ensures r.Ok? <==> Rectangular(elements)
    ensures r.Ok? ==> r.value == elements
    ensures r.Err? ==> r.error == AssertionError
  {
    for i := 0 to |elements|
      invariant forall k :: 0 <= k < i ==> |elements[k]| == |elements[0]|
    {
      if |elements[i]| != |elements[0]| {
        return Err(AssertionError);
      }
    }
    return Ok(elements);
  }

  /** `m[i]`: row `i`, with Python's negative indices counting from the end. */
  function Row(m: Grid, i: int): (r: Result<seq<real>>)
    ensures r.Ok? <==> -|m| <= i < |m|
    ensures r.Err? ==> r.error == IndexError
    ensures r.Ok? && 0 <= i ==> r.value == m[i]
    ensures r.Ok? && i < 0 ==> r.value == m[|m| + i]
  {
    if 0 <= i < |m| then Ok(m[i])
    else if -|m| <= i < 0 then Ok(m[|m| + i])
    else Err(IndexError)
  }

  /** `m[i][j] = v`: a write through the row that `m[i]` hands out. It is the
      only way a `Matriz` changes, and it does not re-check the shape. */
  function WithEntry(m: Grid, i: nat, j: nat, v: real): (r: Grid)
    requires i < |m| && j < |m[i]|
    ensures |r| == |m| && forall k :: 0 <= k < |m| ==> |r[k]| == |m[k]|
    ensures Rectangular(m) ==> Rectangular(r)
    ensures r[i][j] == v
    ensures forall k, l :: 0 <= k < |m| && 0 <= l < |m[k]| && (k != i || l != j) ==> r[k][l] == m[k][l]
  {
    m[i := m[i][j := v]]
  }

  /** The shape check shared by `+` and `-`; it reads `n_colunas` only when the
      row counts agree, so two matrices without rows raise IndexError. */
  function ShapeCheck(a: Grid, b: Grid): (r: Result<()>)
    ensures r.Ok? <==> |a| == |b| && |a| > 0 && |a[0]| == |b[0]|
    ensures r.Err? ==> r.error == if |a| == 0 && |b| == 0 then IndexError else AssertionError
  {
    if Rows(a) != Rows(b) then Err(AssertionError)
    else
      match (Columns(a), Columns(b))
      case (Ok(ca), Ok(cb)) => if ca == cb then Ok(()) else Err(AssertionError)
      case (Err(e), _) => Err(e)
      case (_, Err(e)) => Err(e)
  }

  /** `a + b`. */
  function Add(a: Grid, b: Grid): (r: Result<Grid>)
    requires Rectangular(a) && Rectangular(b)
    ensures r.Ok? <==> ShapeCheck(a, b).Ok?
    ensures r.Err? ==> r == Err(ShapeCheck(a, b).error)
    ensures r.Ok? ==> Rectangular(r.value) && |r.value| == |a| && |r.value[0]| == |a[0]|
    ensures r.Ok? ==> forall i, j :: 0 <= i < |a| && 0 <= j < |a[0]| ==> r.value[i][j] == a[i][j] + b[i][j]
  {
    match ShapeCheck(a, b)
    case Err(e) => Err(e)
    case Ok(_) =>
      Ok(seq(|a|, i requires 0 <= i < |a| => seq(|a[i]|, j requires 0 <= j < |a[i]| => a[i][j] + b[i][j])))
  }

  /** `a - b`. */
  function Subtract(a: Grid, b: Grid): (r: Result<Grid>)
    requires Rectangular(a) && Rectangular(b)
    ensures r.Ok? <==> ShapeCheck(a, b).Ok?
    ensures r.Err? ==> r == Err(ShapeCheck(a, b).error)
    ensures r.Ok? ==> Rectangular(r.value) && |r.value| == |a| && |r.value[0]| == |a[0]|
    ensures r.Ok? ==> forall i, j :: 0 <= i < |a| && 0 <= j < |a[0]| ==> r.value[i][j] == a[i][j] - b[i][j]
  {
    match ShapeCheck(a, b)
    case Err(e) => Err(e)
    case Ok(_) =>
      Ok(seq(|a|, i requires 0 <= i < |a| => seq(|a[i]|, j requires 0 <= j < |a[i]| => a[i][j] - b[i][j])))
  }

  /** `(A + B) - B == A` for matrices of the same shape. */
  lemma AddThenSubtract(a: Grid, b: Grid)
    requires Rectangular(a) && Rectangular(b)
    requires |a| == |b| && |a| > 0 && |a[0]| == |b[0]|
    ensures Add(a, b).Ok? && Subtract(Add(a, b).value, b) == Ok(a)
  {
    var s := Add(a, b).value;
    var d := Subtract(s, b).value;
    forall i | 0 <= i < |a|
      ensures d[i] == a[i]
    {
      assert |d[i]| == |a[i]|;
      assert forall j :: 0 <= j < |a[i]| ==> d[i][j] == a[i][j];
    }
    assert d == a;
  }

  /** `multiplicacao_escalar(m, k)`: every entry multiplied by `k`. */
  function ScalarMultiply(m: Grid, k: real): (r: Grid)
    requires Rectangular(m)
    ensures Rectangular(r) && |r| == |m|
    ensures forall i :: 0 <= i < |m| ==> |r[i]| == |m[i]|
    ensures forall i, j :: 0 <= i < |m| && 0 <= j < |m[i]| ==> r[i][j] == m[i][j] * k
  {
    seq(|m|, i requires 0 <= i < |m| => seq(|m[i]|, j requires 0 <= j < |m[i]| => m[i][j] * k))
  }

  /** `m / k`: multiplication by `1 / k`; `1 / 0` raises before anything else. */
  function ScalarDivide(m: Grid, k: real): (r: Result<Grid>)
    requires Rectangular(m)
    ensures r.Ok? <==> k != 0.0
    ensures r.Err? ==> r.error == ZeroDivisionError
    ensures r.Ok? ==> Rectangular(r.value) && ScalarMultiply(r.value, k) == m
  {
    if k == 0.0 then Err(ZeroDivisionError)
    else
      var q := ScalarMultiply(m, 1.0 / k);
      assert ScalarMultiply(q, k) == m by {
        forall i | 0 <= i < |m|
          ensures ScalarMultiply(q, k)[i] == m[i]
        {
          assert forall j :: 0 <= j < |m[i]| ==> ScalarMultiply(q, k)[i][j] == m[i][j];
        }
      }
      Ok(q)
  }

  /** `(M * k) / k == M` for every non-zero `k`. */
  lemma MultiplyThenDivide(m: Grid, k: real)
    requires Rectangular(m) && k != 0.0
    ensures ScalarDivide(ScalarMultiply(m, k), k) == Ok(m)
  {
    var p := ScalarMultiply(m, k);
    var d := ScalarDivide(p, k).value;
    forall i | 0 <= i < |m|
      ensures d[i] == m[i]
    {
      forall j | 0 <= j < |m[i]|
        ensures d[i][j] == m[i][j]
      {
        calc {
          d[i][j];
          (m[i][j] * k) * (1.0 / k);
          m[i][j] * (k * (1.0 / k));
        }
      }
    }
    assert d == m;
  }

  /** The sum `u[0]*v[0] + u[1]*v[1] + ...`, accumulated from the left
      starting at zero, as the innermost loop of the product does. */
  function Dot(u: seq<real>, v: seq<real>): real
    requires |u| == |v|
  {
    if |u| == 0 then 0.0 else Dot(u[..|u| - 1], v[..|v| - 1]) + u[|u| - 1] * v[|v| - 1]
  }

  /** Column `j` of `b`. */
  function Column(b: Grid, j: nat): (c: seq<real>)
    requires forall l :: 0 <= l < |b| ==> j < |b[l]|
    ensures |c| == |b| && forall l :: 0 <= l < |b| ==> c[l] == b[l][j]
  {
    seq(|b|, l requires 0 <= l < |b| => b[l][j])
  }

  /** The shapes the product accepts: `a` has rows, `a`'s rows are as long as
      `b` has rows, and `b` has rows. */
  predicate Conformable(a: Grid, b: Grid)
  {
    Rectangular(a) && Rectangular(b) && |a| > 0 && |b| > 0 && |a[0]| == |b|
  }

  /** The matrix product: entry (i, j) is `Dot` of row i of `a` and column j of `b`. */
  function Product(a: Grid, b: Grid): (c: Grid)
    requires Conformable(a, b)
    ensures Rectangular(c) && |c| == |a| && |c[0]| == |b[0]|
  {
    seq(|a|, i requires 0 <= i < |a| =>
      seq(|b[0]|, j requires 0 <= j < |b[0]| => Dot(a[i], Column(b, j))))
  }

  /** The list of lists the product fills in, read back as rows. */
  function Snapshot(m: array2<real>): (g: Grid)
    reads m
    ensures |g| == m.Length0 && forall i :: 0 <= i < |g| ==> |g[i]| == m.Length1
    ensures forall i, j :: 0 <= i < m.Length0 && 0 <= j < m.Length1 ==> g[i][j] == m[i, j]
  {
    seq(m.Length0, i requires 0 <= i < m.Length0 reads m =>
      seq(m.Length1, j requires 0 <= j < m.Length1 reads m => m[i, j]))
  }

  /** The innermost loop of the product: adds `a[i][k] * b[k][j]` into entry
      (i, j), for k from 0 upward, and touches no other entry. */
  method AccumulateEntry(acc: array2<real>, a: Grid, b: Grid, i: nat, j: nat)
    requires Conformable(a, b)
    requires i < |a| == acc.Length0 && j < |b[0]| == acc.Length1
    requires acc[i, j] == 0.0
    modifies acc
    ensures acc[i, j] == Dot(a[i], Column(b, j))
    ensures forall i', j' :: 0 <= i' < acc.Length0 && 0 <= j' < acc.Length1 && (i' != i || j' != j) ==>
      acc[i', j'] == old(acc[i', j'])
  {
    var q := |b|;
    for k := 0 to q
      invariant acc[i, j] == Dot(a[i][..k], Column(b, j)[..k])
      invariant forall i', j' :: 0 <= i' < acc.Length0 && 0 <= j' < acc.Length1 && (i' != i || j' != j) ==>
        acc[i', j'] == old(acc[i', j'])
    {
      assert a[i][..k + 1][..k] == a[i][..k];
      assert Column(b, j)[..k + 1][..k] == Column(b, j)[..k];
      acc[i, j] := acc[i, j] + a[i][k] * b[k][j];
    }
    assert a[i][..q] == a[i] && Column(b, j)[..q] == Column(b, j);
  }

  /** `multiplicacao_matrizes(a, b)`: allocates a zero-filled result and fills
      entry (i, j) for each row i and each column j in turn. */
  method Multiply(a: Grid, b: Grid) returns (r: Result<Grid>)
    requires Rectangular(a) && Rectangular(b)
    ensures r.Ok? <==> Conformable(a, b)
    ensures r.Err? ==> r.error == if |a| > 0 && |a[0]| != |b| then AssertionError else IndexError
    ensures r.Ok? ==> r.value == Product(a, b)
  {
    var columnsA := Columns(a);
    if columnsA.Err? {
      return Err(columnsA.error);   // `primeira.n_colunas` of a matrix without rows
    }
    if columnsA.value != Rows(b) {
      return Err(AssertionError);
    }
    var columnsB := Columns(b);
    if columnsB.Err? {
      return Err(columnsB.error);   // `segunda.n_colunas` while allocating the result
    }
    var n, p := |a|, |b[0]|;
    var acc := new real[n, p]((_, _) => 0.0);
    for i := 0 to n
      invariant forall i', j' :: 0 <= i' < i && 0 <= j' < p ==> acc[i', j'] == Dot(a[i'], Column(b, j'))
      invariant forall i', j' :: i <= i' < n && 0 <= j' < p ==> acc[i', j'] == 0.0
    {
      for j := 0 to p
        invariant forall i', j' :: 0 <= i' < i && 0 <= j' < p ==> acc[i', j'] == Dot(a[i'], Column(b, j'))
        invariant forall j' :: 0 <= j' < j ==> acc[i, j'] == Dot(a[i], Column(b, j'))
        invariant forall i', j' :: i <= i' < n && 0 <= j' < p && (i < i' || j <= j') ==> acc[i', j'] == 0.0
      {
        AccumulateEntry(acc, a, b, i, j);
      }
    }
    var g := Snapshot(acc);
    forall i | 0 <= i < n
      ensures g[i] == Product(a, b)[i]
    {
      assert forall j :: 0 <= j < p ==> g[i][j] == Product(a, b)[i][j];
    }
    return Ok(g);
  }

  /** `identidade(n)`: n rows of n entries, 1 on the diagonal and 0 elsewhere. */
  function Identity(n: nat): (m: Grid)
    ensures |m| == n && Rectangular(m)
    ensures forall i :: 0 <= i < n ==> |m[i]| == n
  {
    seq(n, i => seq(n, j => if i == j then 1.0 else 0.0))
  }

  /** A sequence with a single 1 at position `i` and 0 everywhere else. */
  ghost predicate IsUnit(e: seq<real>, i: nat)
  {
    i < |e| && forall k :: 0 <= k < |e| ==> e[k] == if k == i then 1.0 else 0.0
  }

  lemma {:induction false} DotSymmetric(u: seq<real>, v: seq<real>)
    requires |u| == |v|
    ensures Dot(u, v) == Dot(v, u)
  {
    if |u| > 0 {
      DotSymmetric(u[..|u| - 1], v[..|v| - 1]);
    }
  }

  lemma {:induction false} DotZeroRight(u: seq<real>, z: seq<real>)
    requires |u| == |z| && forall k :: 0 <= k < |z| ==> z[k] == 0.0
    ensures Dot(u, z) == 0.0
  {
    if |u| > 0 {
      DotZeroRight(u[..|u| - 1], z[..|z| - 1]);
    }
  }

  /** Summing against a unit sequence picks out one entry. */
  lemma {:induction false} DotUnitRight(u: seq<real>, e: seq<real>, i: nat)
    requires |u| == |e| && IsUnit(e, i)
    ensures Dot(u, e) == u[i]
  {
    var n := |u| - 1;
    if i == n {
      DotZeroRight(u[..n], e[..n]);
    } else {
      DotUnitRight(u[..n], e[..n], i);
    }
  }

  /** `identidade(A.n_linhas) * A == A`. */
  lemma IdentityLeft(a: Grid)
    requires Rectangular(a) && |a| > 0
    ensures Conformable(Identity(|a|), a) && Product(Identity(|a|), a) == a
  {
    var c := Product(Identity(|a|), a);
    forall i | 0 <= i < |a|
      ensures c[i] == a[i]
    {
      forall j | 0 <= j < |a[i]|
        ensures c[i][j] == a[i][j]
      {
        assert IsUnit(Identity(|a|)[i], i);
        DotSymmetric(Identity(|a|)[i], Column(a, j));
        DotUnitRight(Column(a, j), Identity(|a|)[i], i);
      }
    }
  }

  /** `A * identidade(A.n_colunas) == A`; the identity of size 0 has no rows,
      so `A` needs columns. */
  lemma IdentityRight(a: Grid)
    requires Rectangular(a) && |a| > 0 && |a[0]| > 0
    ensures Conformable(a, Identity(|a[0]|)) && Product(a, Identity(|a[0]|)) == a
  {
    var n := |a[0]|;
    var c := Product(a, Identity(n));
    forall i | 0 <= i < |a|
      ensures c[i] == a[i]
    {
      forall j | 0 <= j < n
        ensures c[i][j] == a[i][j]
      {
        assert IsUnit(Column(Identity(n), j), j);
        DotUnitRight(a[i], Column(Identity(n), j), j);
      }
    }
  }

  // Associativity of the product, through a row vector times a matrix
  // times a column vector.

  function Plus(s: seq<real>, t: seq<real>): (r: seq<real>)
    requires |s| == |t|
    ensures |r| == |s|
  {
    seq(|s|, k requires 0 <= k < |s| => s[k] + t[k])
  }

  function Times(c: real, s: seq<real>): (r: seq<real>)
    ensures |r| == |s|
  {
    seq(|s|, k requires 0 <= k < |s| => c * s[k])
  }

  lemma {:induction false} DotPlusLeft(s: seq<real>, t: seq<real>, w: seq<real>)
    requires |s| == |t| == |w|
    ensures Dot(Plus(s, t), w) == Dot(s, w) + Dot(t, w)
  {
    if |s| > 0 {
      var n := |s| - 1;
      assert Plus(s, t)[..n] == Plus(s[..n], t[..n]);
      DotPlusLeft(s[..n], t[..n], w[..n]);
    }
  }

  lemma {:induction false} DotTimesLeft(c: real, s: seq<real>, w: seq<real>)
    requires |s| == |w|
    ensures Dot(Times(c, s), w) == c * Dot(s, w)
  {
    if |s| > 0 {
      var n := |s| - 1;
      forall l | 0 <= l < n
        ensures Times(c, s)[..n][l] == Times(c, s[..n])[l]
      {
      }
      assert Times(c, s)[..n] == Times(c, s[..n]);
      DotTimesLeft(c, s[..n], w[..n]);
    }
  }

  lemma {:induction false} DotZeroLeft(z: seq<real>, w: seq<real>)
    requires |z| == |w| && forall k :: 0 <= k < |z| ==> z[k] == 0.0
    ensures Dot(z, w) == 0.0
  {
    if |z| > 0 {
      DotZeroLeft(z[..|z| - 1], w[..|w| - 1]);
    }
  }

  /** Row vector `u` times `b`, where every row of `b` has `p` entries. */
  function RowTimes(u: seq<real>, b: Grid, p: nat): (r: seq<real>)
    requires |u| == |b| && forall l :: 0 <= l < |b| ==> |b[l]| == p
    ensures |r| == p
  {
    seq(p, k requires 0 <= k < p => Dot(u, Column(b, k)))
  }

  /** `b` times column vector `w`. */
  function TimesColumn(b: Grid, w: seq<real>): (r: seq<real>)
    requires forall l :: 0 <= l < |b| ==> |b[l]| == |w|
    ensures |r| == |b|
  {
    seq(|b|, l requires 0 <= l < |b| => Dot(b[l], w))
  }

  /** Splitting off the last entry of `u` and the last row of `b`. */
  lemma RowTimesPeel(u: seq<real>, b: Grid, p: nat)
    requires |u| == |b| > 0 && forall l :: 0 <= l < |b| ==> |b[l]| == p
    ensures RowTimes(u, b, p) == Plus(RowTimes(u[..|u| - 1], b[..|b| - 1], p), Times(u[|u| - 1], b[|b| - 1]))
  {
    var q := |u| - 1;
    forall k | 0 <= k < p
      ensures RowTimes(u, b, p)[k] == Plus(RowTimes(u[..q], b[..q], p), Times(u[q], b[q]))[k]
    {
      assert Column(b, k)[..q] == Column(b[..q], k);
    }
  }

  /** `(u b) w == u (b w)`. */
  lemma {:induction false} RowTimesColumn(u: seq<real>, b: Grid, w: seq<real>)
    requires |u| == |b| && forall l :: 0 <= l < |b| ==> |b[l]| == |w|
    ensures Dot(RowTimes(u, b, |w|), w) == Dot(u, TimesColumn(b, w))
  {
    var p := |w|;
    if |u| == 0 {
      DotZeroLeft(RowTimes(u, b, p), w);
    } else {
      var q := |u| - 1;
      var u', b' := u[..q], b[..q];
      RowTimesColumn(u', b', w);
      RowTimesPeel(u, b, p);
      DotPlusLeft(RowTimes(u', b', p), Times(u[q], b[q]), w);
      DotTimesLeft(u[q], b[q], w);
      TimesColumnPeel(u, b, w);
    }
  }

  /** Splitting off the last entry of `u` and the last row of `b` on the other side. */
  lemma TimesColumnPeel(u: seq<real>, b: Grid, w: seq<real>)
    requires |u| == |b| > 0 && forall l :: 0 <= l < |b| ==> |b[l]| == |w|
    ensures Dot(u, TimesColumn(b, w)) ==
      Dot(u[..|u| - 1], TimesColumn(b[..|b| - 1], w)) + u[|u| - 1] * TimesColumn(b, w)[|b| - 1]
  {
    var t := TimesColumn(b, w);
    TimesColumnPrefix(b, w, |b| - 1);
    DotLast(u, t, TimesColumn(b[..|b| - 1], w), t[|b| - 1]);
  }

  /** The first `q` entries of `b w` are the first `q` rows of `b` times `w`. */
  lemma TimesColumnPrefix(b: Grid, w: seq<real>, q: nat)
    requires q <= |b| && forall l :: 0 <= l < |b| ==> |b[l]| == |w|
    ensures TimesColumn(b, w)[..q] == TimesColumn(b[..q], w)
  {
    var t, t' := TimesColumn(b, w)[..q], TimesColumn(b[..q], w);
    assert |t| == |t'| == q;
    forall l | 0 <= l < q
      ensures t[l] == t'[l]
    {
      assert b[..q][l] == b[l];
    }
  }

  /** One unfolding of `Dot`: the last pair of entries split off. */
  lemma DotLast(u: seq<real>, t: seq<real>, front: seq<real>, last: real)
    requires |u| == |t| > 0 && t[..|t| - 1] == front && t[|t| - 1] == last
    ensures |front| == |u| - 1
    ensures Dot(u, t) == Dot(u[..|u| - 1], front) + u[|u| - 1] * last
  {
  }

  /** `(A * B) * C == A * (B * C)`. */
  lemma ProductAssociative(a: Grid, b: Grid, c: Grid)
    requires Conformable(a, b) && Conformable(b, c)
    ensures Conformable(Product(a, b), c) && Conformable(a, Product(b, c))
    ensures Product(Product(a, b), c) == Product(a, Product(b, c))
  {
    var ab, bc := Product(a, b), Product(b, c);
    var left, right := Product(ab, c), Product(a, bc);
    forall i | 0 <= i < |a|
      ensures left[i] == right[i]
    {
      forall j | 0 <= j < |c[0]|
        ensures left[i][j] == right[i][j]
      {
        var w := Column(c, j);
        assert ab[i] == RowTimes(a[i], b, |w|);
        assert Column(bc, j) == TimesColumn(b, w);
        RowTimesColumn(a[i], b, w);
      }
    }
  }
}
