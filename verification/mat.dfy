/** The part of the ml-matrix library the program relies on: dense real
    matrices that carry their shape explicitly (so a 0 x n matrix still has n
    columns), with the element-wise, transpose and product operations the
    Gaussian-process code calls. */
module Mat {

  datatype Matrix = Matrix(rows: nat, cols: nat, entries: seq<seq<real>>)
  {
    /** `entries` is `rows` rows of `cols` values each. */
    predicate Valid()
    {
      |entries| == rows && forall i :: 0 <= i < rows ==> |entries[i]| == cols
    }
  }

  predicate SameShape(a: Matrix, b: Matrix)
  {
    a.rows == b.rows && a.cols == b.cols
  }

  predicate IsSymmetric(m: Matrix)
    requires m.Valid()
  {
    m.rows == m.cols && forall i, j :: 0 <= i < m.rows && 0 <= j < m.rows ==> m.entries[i][j] == m.entries[j][i]
  }

  /** `Matrix.zeros(rows, cols)`, and also what `new Matrix(rows, cols)` holds. */
  function Zeros(rows: nat, cols: nat): (m: Matrix)
    ensures m.Valid() && m.rows == rows && m.cols == cols
    ensures forall i, j :: 0 <= i < rows && 0 <= j < cols ==> m.entries[i][j] == 0.0
  {
    Matrix(rows, cols, seq(rows, _ => seq(cols, _ => 0.0)))
  }

  /** `Matrix.eye(n, n, value)`: `value` on the diagonal, zero elsewhere. */
  function Eye(n: nat, value: real): (m: Matrix)
    ensures m.Valid() && m.rows == n && m.cols == n
    ensures forall i :: 0 <= i < n ==> m.entries[i][i] == value
    ensures forall i, j :: 0 <= i < n && 0 <= j < n && i != j ==> m.entries[i][j] == 0.0
  {
    Matrix(n, n, seq(n, i => seq(n, j => if i == j then value else 0.0)))
  }

  function Add(a: Matrix, b: Matrix): (m: Matrix)
    requires a.Valid() && b.Valid() && SameShape(a, b)
    ensures m.Valid() && SameShape(m, a)
    ensures forall i, j :: 0 <= i < a.rows && 0 <= j < a.cols ==> m.entries[i][j] == a.entries[i][j] + b.entries[i][j]
  {
    Matrix(a.rows, a.cols, seq(a.rows, i requires 0 <= i < a.rows =>
      seq(a.cols, j requires 0 <= j < a.cols => a.entries[i][j] + b.entries[i][j])))
  }

  function Subtract(a: Matrix, b: Matrix): (m: Matrix)
    requires a.Valid() && b.Valid() && SameShape(a, b)
    ensures m.Valid() && SameShape(m, a)
    ensures forall i, j :: 0 <= i < a.rows && 0 <= j < a.cols ==> m.entries[i][j] == a.entries[i][j] - b.entries[i][j]
  {
    Matrix(a.rows, a.cols, seq(a.rows, i requires 0 <= i < a.rows =>
      seq(a.cols, j requires 0 <= j < a.cols => a.entries[i][j] - b.entries[i][j])))
  }

  function Transpose(a: Matrix): (m: Matrix)
    requires a.Valid()
    ensures m.Valid() && m.rows == a.cols && m.cols == a.rows
    ensures forall i, j :: 0 <= i < a.cols && 0 <= j < a.rows ==> m.entries[i][j] == a.entries[j][i]
  {
    Matrix(a.cols, a.rows, seq(a.cols, i requires 0 <= i < a.cols =>
      seq(a.rows, j requires 0 <= j < a.rows => a.entries[j][i])))
  }

  function Column(a: Matrix, j: nat): (c: seq<real>)
    requires a.Valid() && j < a.cols
    ensures |c| == a.rows
    ensures forall i :: 0 <= i < a.rows ==> c[i] == a.entries[i][j]
  {
    seq(a.rows, i requires 0 <= i < a.rows => a.entries[i][j])
  }

  /** Inner product, accumulated from the first index upwards. */
  function Dot(u: seq<real>, v: seq<real>): real
    requires |u| == |v|
  {
    if |u| == 0 then 0.0 else Dot(u[..|u| - 1], v[..|v| - 1]) + u[|u| - 1] * v[|v| - 1]
  }

  /** `a.mmul(b)`: entry (i, j) is the inner product of row i of `a` with column j of `b`. */
  function MMul(a: Matrix, b: Matrix): (m: Matrix)
    requires a.Valid() && b.Valid() && a.cols == b.rows
    ensures m.Valid() && m.rows == a.rows && m.cols == b.cols
    ensures forall i, j :: 0 <= i < a.rows && 0 <= j < b.cols ==> m.entries[i][j] == Dot(a.entries[i], Column(b, j))
  {
    Matrix(a.rows, b.cols, seq(a.rows, i requires 0 <= i < a.rows =>
      seq(b.cols, j requires 0 <= j < b.cols => Dot(a.entries[i], Column(b, j)))))
  }

  /** `Matrix.columnVector(v)`: a |v| x 1 matrix. */
  function ColumnVector(v: seq<real>): (m: Matrix)
    ensures m.Valid() && m.rows == |v| && m.cols == 1
    ensures forall i :: 0 <= i < |v| ==> m.entries[i][0] == v[i]
  {
    Matrix(|v|, 1, seq(|v|, i requires 0 <= i < |v| => [v[i]]))
  }

  /** `m.to1DArray()`: the rows laid end to end. */
  function To1DArray(m: Matrix): (r: seq<real>)
    requires m.Valid()
    ensures |r| == m.rows * m.cols
    decreases m.rows
  {
    if m.rows == 0 then []
    else To1DArray(Matrix(m.rows - 1, m.cols, m.entries[..m.rows - 1])) + m.entries[m.rows - 1]
  }

  /** A column vector flattens to its one column. */
  lemma {:induction false} ColumnToArray(m: Matrix)
    requires m.Valid() && m.cols == 1
    ensures |To1DArray(m)| == m.rows
    ensures forall i :: 0 <= i < m.rows ==> To1DArray(m)[i] == m.entries[i][0]
    decreases m.rows
  {
    if m.rows > 0 {
      var prefix := Matrix(m.rows - 1, m.cols, m.entries[..m.rows - 1]);
      ColumnToArray(prefix);
      assert m.entries[m.rows - 1] == [m.entries[m.rows - 1][0]];
    }
  }

  /** Multiplying by a zero vector gives zero. */
  lemma {:induction false} DotWithZeros(u: seq<real>, v: seq<real>)
    requires |u| == |v|
    requires forall k :: 0 <= k < |v| ==> v[k] == 0.0
    ensures Dot(u, v) == 0.0
  {
    if |u| > 0 {
      DotWithZeros(u[..|u| - 1], v[..|v| - 1]);
    }
  }
}
