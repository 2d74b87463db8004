# geometria in Dafny

A model of a small 2D affine-geometry toolkit written in Python:

- `Matriz` (matriz.py): a rectangular grid of numbers with elementwise `+` and
  `-`, scalar `*` and `/`, the naive triple-loop matrix product and the
  identity matrix. Module `Matrices`, file `matrices.dfy`.
- `Transformador2D` (transformador.py): a builder that registers translations,
  scalings, rotations and shears as 3x3 homogeneous matrices and applies their
  composite to a list of points. Module `Transformers`, file `transformers.dfy`.
- `Ponto2D` (ponto.py): an immutable point with componentwise arithmetic and
  equality. Module `Points`, file `points.dfy`.
- `SistemaDeReferencia` (sistemas_de_referencia.py): per-axis linear remapping
  of points between two rectangular frames. Module `Frames`, file `frames.dfy`.

Module `Outcomes` (`outcomes.dfy`) holds the Python exceptions the code can
raise and a `Result` type that carries either a value or one of them.

How the model is built:

- A matrix is its list of rows, `Grid = seq<seq<real>>`. `Rectangular` is the
  property the `Matriz` constructor checks, and every operation on a `Matriz`
  requires it. `n_linhas` is `Rows`, the number of rows. The operations return
  new grids, so their operands never change. Writing through the row that
  `m[i]` hands out is `WithEntry`. The builders use it to edit an identity
  matrix.
- The product is the method `Multiply`. It fills a zero-initialised `array2`
  with three nested loops, as the Python code fills its list of lists. It is
  proved equal to the function `Product`, whose entry (i, j) is the sum
  `a[i][0]*b[0][j] + a[i][1]*b[1][j] + ...`, accumulated from the left starting
  at 0 (`Dot`).
- `Transformer2D` is a class whose field `matrices` is the registered list. Its
  invariant is that every registered matrix is 3x3. Each builder method appends
  one matrix, leaves the earlier ones alone and returns the same object.
  `Transform` is a function of that state. Its contract states what each output
  point is: the input point with the registered operators applied one at a
  time, the first registered first (`ApplyInOrder`). The lemma
  `CompositeAppliesInOrder` proves that multiplying by the composite, which
  `reduce` builds over the reversed list, gives that result. Its proof uses the
  associativity of `Product`.
- Arithmetic is over Dafny's exact `real`.

Where the code and its design description differ, the model follows the code:

- Scalar division by zero is described as producing IEEE infinities or NaN.
  The code computes `1/scalar` (matriz.py:59), and Python raises
  `ZeroDivisionError` for `1/0` and `1/0.0`. `ScalarDivide` returns that error.
- Matrices without rows are described as accepted, with later operations left
  undefined. In the code, `n_colunas` reads row 0 (matriz.py:19). So `+` and
  `-` of two matrices without rows raise `IndexError`. So does the product when
  its left operand has no rows (matriz.py:69). A right operand without rows
  usually fails line 69's shape assertion first, with `AssertionError`. It
  reaches line 72, and raises `IndexError` while the result is allocated, only
  when the left operand's rows are themselves empty. The model returns exactly
  these errors in exactly these cases.
- The error kinds called "ragged input" and "dimension mismatch" are Python
  `AssertionError`s. The "empty pipeline" error is the `TypeError` that
  `reduce` raises on an empty sequence.

## Model

| member | source | states |
|---|---|---|
| `Matrices.New` | matriz.py:8-11 | construction succeeds exactly when every row is as long as the first one (a list with no rows is accepted), and keeps the rows unchanged; otherwise AssertionError |
| `Matrices.Rows` | matriz.py:13-15 | `n_linhas` is the number of non-negative indices `m[i]` accepts, and it is zero exactly when `n_colunas` raises |
| `Matrices.Columns` | matriz.py:17-19 | `n_colunas` is the length of row 0, and of every row of a rectangular grid; a grid without rows raises IndexError |
| `Matrices.Row` | matriz.py:24-25 | `m[i]` is row i, negative i counts from the end, anything outside `-rows <= i < rows` raises IndexError |
| `Matrices.WithEntry` | matriz.py:24-25 | a write through a row changes that one entry, keeps every other entry and the shape |
| `Matrices.ShapeCheck` | matriz.py:28 | the shape check of `+` and `-` passes iff rows and columns agree and there are rows; two row-less grids raise IndexError, any other mismatch AssertionError |
| `Matrices.Add` | matriz.py:27-38 | same-shaped operands give a grid of that shape whose entry (i, j) is `a[i][j] + b[i][j]`; otherwise the shape check's error |
| `Matrices.Subtract` | matriz.py:40-51 | same-shaped operands give a grid of that shape whose entry (i, j) is `a[i][j] - b[i][j]`; otherwise the shape check's error |
| `Matrices.AddThenSubtract` | matriz.py:27-51 | `(A + B) - B == A` for same-shaped A and B |
| `Matrices.ScalarMultiply` | matriz.py:82-86 | the result has the shape of the operand and every entry multiplied by k |
| `Matrices.ScalarDivide` | matriz.py:58-59 | `M / k` fails with ZeroDivisionError iff k == 0; otherwise its result multiplied by k is M again |
| `Matrices.MultiplyThenDivide` | matriz.py:58-59 | `(M * k) / k == M` for every non-zero k |
| `Matrices.Product` | matriz.py:71-78 | the product of conformable grids has the left operand's rows and the right operand's columns |
| `Matrices.AccumulateEntry` | matriz.py:77-78 | the innermost loop leaves entry (i, j) equal to the left-accumulated sum of `a[i][k] * b[k][j]` and changes no other entry |
| `Matrices.Multiply` | matriz.py:68-80 | the triple loop over a zero-filled result computes `Product`; a left operand without rows raises IndexError; otherwise `cols(a) != rows(b)` raises AssertionError; a right operand without rows that passes that check (left rows empty) raises IndexError |
| `Matrices.Identity` | matriz.py:88-90 | `identidade(n)` is an n x n grid |
| `Matrices.IdentityLeft` | matriz.py:88-90 | `identidade(A.n_linhas) * A == A` |
| `Matrices.IdentityRight` | matriz.py:88-90 | `A * identidade(A.n_colunas) == A` when A has columns |
| `Matrices.ProductAssociative` | matriz.py:68-80 | `(A * B) * C == A * (B * C)` whenever both products are defined |
| `Points.Add` | ponto.py:55-56 | subtracting either operand from `p + q` gives back the other |
| `Points.Subtract` | ponto.py:61-62 | `p - q` is the point that, moved by q, lands on p |
| `Points.Scale` | ponto.py:70-71 | `p * 1` is p, `p * 0` is the origin, and a non-zero factor divides out again |
| `Points.Pow` | ponto.py:82-83 | `p ** e` is the sum of the coordinates' powers: 2 for e = 0, `x + y` for e = 1, never negative for even e |
| `Points.Negate` | ponto.py:67-68 | `-p` equals `p * -1` and `p + (-p)` is the origin |
| `Points.Divide` | ponto.py:76-77 | `p / k` raises ZeroDivisionError iff k == 0; otherwise the result times k is p |
| `Points.SquaredLength` | ponto.py:82-83 | `p ** 2` is `x*x + y*y`, never negative, and zero only at the origin |
| `Points.Equals` | ponto.py:91-92 | `==` holds iff both coordinates agree, i.e. iff the points are the same value |
| `Points.NotEquals` | ponto.py:94-95 | `__neq__` is the negation of `==` |
| `Points.AddThenSubtract` | ponto.py:55-62 | `(p + q) - q == p` |
| `Points.ScaleThenDivide` | ponto.py:70-77 | `(p * k) / k == p` for every non-zero k |
| `Frames.RemapCoordinate` | sistemas_de_referencia.py:46-70 | the coordinate map raises ZeroDivisionError iff the source bounds are equal; otherwise it is the linear map with `(r - dmin) * (omax - omin) == (c - omin) * (dmax - dmin)` |
| `Frames.RemapEndpoints` | sistemas_de_referencia.py:68-70 | the source minimum goes to the destination minimum and the source maximum to the destination maximum |
| `Frames.RemapInverse` | sistemas_de_referencia.py:68-70 | mapping back with the ranges swapped restores the coordinate when neither range is empty |
| `Frames.RemapPoint` | sistemas_de_referencia.py:89-104 | a point maps iff the source frame is not degenerate; its new x depends only on x and the two horizontal ranges, its new y only on y and the two vertical ranges |
| `Frames.RemapAll` | sistemas_de_referencia.py:87-107 | the mapped list has the input's length and order, point by point; it fails iff the list is non-empty and the source frame is degenerate |
| `Frames.Frame.TransformFrom` | sistemas_de_referencia.py:72-107 | `transformar_de` maps each point, in order, from the given frame into this one; it fails with ZeroDivisionError iff there are points and the given frame is degenerate |
| `Frames.Frame.TransformTo` | sistemas_de_referencia.py:109-144 | `transformar_para` maps each point, in order, from this frame into the given one; it fails with ZeroDivisionError iff there are points and this frame is degenerate |
| `Frames.ToIsFromSwapped` | sistemas_de_referencia.py:87-144 | `a.transformar_para(b, pts) == b.transformar_de(a, pts)` |
| `Frames.RemapPointRoundTrip` | sistemas_de_referencia.py:89-141 | a single point mapped into another frame and back is unchanged when neither frame is degenerate |
| `Frames.RoundTrip` | sistemas_de_referencia.py:87-144 | `b.transformar_para(a, b.transformar_de(a, pts)) == pts` when neither frame is degenerate |
| `Transformers.Translation` | transformador.py:33-35 | the operator `transladar` registers moves every point p to `p + (tx, ty)` |
| `Transformers.Scaling` | transformador.py:52-54 | the operator `escalar` registers takes (x, y) to (x*sx, y*sy) |
| `Transformers.Rotation` | transformador.py:75-79 | the operator `rotacionar` registers takes (x, y) to (c*x - s*y, s*x + c*y) for cosine c and sine s |
| `Transformers.RotationKeepsLength` | transformador.py:75-79 | when c*c + s*s == 1, as for a true cosine and sine, the rotation keeps `p ** 2`, the squared distance from the origin |
| `Transformers.Shearing` | transformador.py:103-107 | the operator `cisalhar` registers takes (x, y) to (x + shx*(y - yref), y + shy*(x - xref)) |
| `Transformers.Lift` | transformador.py:124 | a point becomes a homogeneous 3x1 column whose last entry is 1, and projecting it gives the point back |
| `Transformers.Project` | transformador.py:128 | dropping the homogeneous row loses nothing on a column whose last entry is 1: the column is the lift of the result |
| `Transformers.Apply` | transformador.py:124-128 | one operator applied to one point through lift, product and projection is the first two rows of the operator against (x, y, 1), in accumulation order |
| `Transformers.Reversed` | transformador.py:125 | `reversed` puts element k at position `n - 1 - k` |
| `Transformers.Reduce` | transformador.py:125 | the left fold of the product over 3x3 operators is a 3x3 operator |
| `Transformers.Composite` | transformador.py:125 | the composite of a non-empty list of 3x3 operators is 3x3 |
| `Transformers.ApplyInOrder` | transformador.py:114-116 | applying operators one at a time to a homogeneous column gives a homogeneous column |
| `Transformers.CompositeAppliesInOrder` | transformador.py:124-129 | multiplying a column by `reduce(*, reversed(ms))` equals applying `ms[0]` first, then `ms[1]`, and so on |
| `Transformers.ApplyOperator` | transformador.py:128 | a 3x3 operator times a homogeneous column, entry by entry, in accumulation order |
| `Transformers.Transformer2D.constructor` | transformador.py:15-20 | a new transformer holds no operators |
| `Transformers.Transformer2D.Clear` | transformador.py:18-20 | `limpar` empties the operator list |
| `Transformers.Transformer2D.Translate` | transformador.py:22-39 | appends exactly `[[1,0,tx],[0,1,ty],[0,0,1]]`, keeps earlier operators, returns the same object |
| `Transformers.Transformer2D.Scale` | transformador.py:41-58 | appends exactly `[[sx,0,0],[0,sy,0],[0,0,1]]`, keeps earlier operators, returns the same object |
| `Transformers.Transformer2D.Rotate` | transformador.py:60-83 | appends exactly `[[c,-s,0],[s,c,0],[0,0,1]]` for the given cosine and sine, keeps earlier operators, returns the same object |
| `Transformers.Transformer2D.Shear` | transformador.py:85-111 | appends exactly `[[1,shx,-shx*yref],[shy,1,-shy*xref],[0,0,1]]`, keeps earlier operators, returns the same object |
| `Transformers.Transformer2D.Transform` | transformador.py:113-129 | fails with TypeError iff no operator is registered; otherwise returns one point per input point, in order, each the input with the operators applied in registration order, the homogeneous row dropped |
| `Transformers.TranslateThenScale` | transformador.py:22-58 | registering `transladar(1, 0)` then `escalar(2, 2)` takes (1, 1) to (4, 2) |
| `Transformers.QuarterTurn` | transformador.py:60-83 | a rotation with cosine 0 and sine 1 takes (1, 0) to (0, 1) |
| `Transformers.ClearedPipeline` | transformador.py:18-20 | after `limpar`, `transformar` raises TypeError whatever the points |

## Left out

- Floating point: all arithmetic is over exact reals. Rounding, overflow, infinities and NaN are not modelled. The product keeps the left-to-right accumulation order as loop structure only.
- Transformers.Transformer2D.Rotate: takes the cosine and sine of the angle as parameters. `math.cos`, `math.sin` and the degree-to-radian conversion selected by `rad` (transformador.py:72-79) are transcendental float functions.
- `__abs__` (ponto.py:88-89) uses `sqrt` and is not modelled. `Points.Pow` covers natural exponents only; Python's `**` with fractional or negative exponents is float numerics.
- The augmented operators `__iadd__`, `__isub__`, `__imul__`, `__itruediv__` and `__ipow__` (ponto.py:58-86) each return the plain operator's result and rebind the name. On values, `p += q` is `p := Add(p, q)`, so they have no members of their own.
- `__str__`, `__repr__` and the `PrettyPrinter` (matriz.py:2-6, 61-65; ponto.py:97-101) only format for display.
- `tolist` (matriz.py:21-22) hands the element list to other code. `[:][:]` copies only the outer list, so the caller still shares the rows. On values the copy is just the grid, and the sharing is the aliasing described below.
- The `isinstance` dispatch of `Matriz.__mul__` (matriz.py:53-56) is modelled as two operations, `ScalarMultiply` and `Multiply`, chosen by the caller.
- Aliasing: the constructor keeps the caller's list without copying (matriz.py:11). Matrices here are values. A grid made ragged by a raw row write is outside the model, because every operation requires `Rectangular`.
- Operands of other Python types, such as a point added to a number, are not modelled.
