/**
 * Values, the shapes of the numpy arrays the analysis works on, and the
 * `Data` container (dimension order process x sample x replication).
 */
module Arrays {

  /** A float64 sample, TE estimate or p-value; the analysis does no arithmetic on them. */
  type Value(0, !new)

  /** A 2-axis array as rows of values. */
  type Matrix = seq<seq<Value>>

  /** A 3-axis array, indexed t[i][j][k]. */
  type Tensor = seq<seq<seq<Value>>>

  ghost predicate IsMatrix(m: Matrix, rows: nat, cols: nat) {
    |m| == rows && forall i :: 0 <= i < rows ==> |m[i]| == cols
  }

  ghost predicate IsTensor(t: Tensor, a: nat, b: nat, c: nat) {
    |t| == a && forall i :: 0 <= i < a ==> IsMatrix(t[i], b, c)
  }

  /** The value held by a 2-axis array. */
  function Contents2(a: array2<Value>): (m: Matrix)
    reads a
    ensures IsMatrix(m, a.Length0, a.Length1)
    ensures forall i, j :: 0 <= i < a.Length0 && 0 <= j < a.Length1 ==> m[i][j] == a[i, j]
  {
    seq(a.Length0, i requires 0 <= i < a.Length0 reads a =>
      seq(a.Length1, j requires 0 <= j < a.Length1 reads a => a[i, j]))
  }

  /** The value held by a 3-axis array. */
  function Contents3(a: array3<Value>): (t: Tensor)
    reads a
    ensures IsTensor(t, a.Length0, a.Length1, a.Length2)
    ensures forall i, j, k :: 0 <= i < a.Length0 && 0 <= j < a.Length1 && 0 <= k < a.Length2 ==>
      t[i][j][k] == a[i, j, k]
  {
    seq(a.Length0, i requires 0 <= i < a.Length0 reads a =>
      seq(a.Length1, j requires 0 <= j < a.Length1 reads a =>
        seq(a.Length2, k requires 0 <= k < a.Length2 reads a => a[i, j, k])))
  }

  /** Column `c` of an `rows` x `cols` matrix: numpy's `m[:, c]`. */
  function Column(m: Matrix, rows: nat, cols: nat, c: nat): (v: seq<Value>)
    requires IsMatrix(m, rows, cols) && c < cols
    ensures |v| == rows && forall i :: 0 <= i < rows ==> v[i] == m[i][c]
  {
    seq(rows, i requires 0 <= i < rows => m[i][c])
  }

  /** numpy's `t[:, :, k]` of an `a` x `b` x `c` tensor. */
  function PlaneOf(t: Tensor, a: nat, b: nat, c: nat, k: nat): (m: Matrix)
    requires IsTensor(t, a, b, c) && k < c
    ensures IsMatrix(m, a, b)
    ensures forall i, j :: 0 <= i < a && 0 <= j < b ==> m[i][j] == t[i][j][k]
  {
    seq(a, i requires 0 <= i < a => seq(b, j requires 0 <= j < b => t[i][j][k]))
  }

  /** numpy's `m.T`. */
  function Transposed(m: Matrix, rows: nat, cols: nat): (r: Matrix)
    requires IsMatrix(m, rows, cols)
    ensures IsMatrix(r, cols, rows)
    ensures forall i, j :: 0 <= i < cols && 0 <= j < rows ==> r[i][j] == m[j][i]
  {
    seq(cols, i requires 0 <= i < cols => seq(rows, j requires 0 <= j < rows => m[j][i]))
  }

  /** Two matrices of one shape that agree entry by entry are equal. */
  lemma MatrixExt(m: Matrix, n: Matrix, rows: nat, cols: nat)
    requires IsMatrix(m, rows, cols) && IsMatrix(n, rows, cols)
    requires forall i, j :: 0 <= i < rows && 0 <= j < cols ==> m[i][j] == n[i][j]
    ensures m == n
  {
    forall i | 0 <= i < rows
      ensures m[i] == n[i]
    {
      assert |m[i]| == |n[i]| == cols;
    }
  }

  /** Two tensors of one shape that agree entry by entry are equal. */
  lemma TensorExt(t: Tensor, u: Tensor, a: nat, b: nat, c: nat)
    requires IsTensor(t, a, b, c) && IsTensor(u, a, b, c)
    requires forall i, j, k :: 0 <= i < a && 0 <= j < b && 0 <= k < c ==> t[i][j][k] == u[i][j][k]
    ensures t == u
  {
    forall i | 0 <= i < a
      ensures t[i] == u[i]
    {
      MatrixExt(t[i], u[i], b, c);
    }
  }

  /**
   * The data container: a process x sample x replication array. The analysis
   * only reads it and wraps fresh arrays in new containers.
   */
  class Data {
    const data: array3<Value>

    /** `Data(d, dim_order='psr', normalise=False)`: wraps `d` without copying it. */
    constructor (d: array3<Value>)
      ensures data == d
    {
      data := d;
    }
  }
}
