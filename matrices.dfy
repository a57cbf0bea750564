/**
 * Decision and objective data as row-major matrices, and the column-wise
 * maximum `np.max(Y, axis=0)` the optimiser uses for its reference point.
 */
module Matrices {

  type Row = seq<real>
  type Matrix = seq<Row>

  /** A two-dimensional array: every row as wide as the first. */
  predicate Rectangular(m: Matrix)
  {
    forall k :: 0 <= k < |m| ==> |m[k]| == |m[0]|
  }

  /** r is the column-wise maximum of m: it bounds every entry of its column and is attained in it. */
  ghost predicate IsColumnMax(m: Matrix, r: Row)
  {
    (forall k, j :: 0 <= k < |m| && 0 <= j < |r| ==> |m[k]| == |r| && m[k][j] <= r[j]) &&
    (forall j :: 0 <= j < |r| ==> exists k :: 0 <= k < |m| && |m[k]| == |r| && m[k][j] == r[j])
  }

  function ElementwiseMax(a: Row, b: Row): (r: Row)
    requires |a| == |b|
    ensures |r| == |a|
    ensures forall j :: 0 <= j < |r| ==> a[j] <= r[j] && b[j] <= r[j] && (r[j] == a[j] || r[j] == b[j])
  {
    seq(|a|, j requires 0 <= j < |a| => if a[j] >= b[j] then a[j] else b[j])
  }

  /** `np.max(m, axis=0)`; NumPy refuses an array with no rows, hence the requires. */
  function ColumnMax(m: Matrix): (r: Row)
    requires |m| > 0 && Rectangular(m)
    ensures |r| == |m[0]|
    ensures IsColumnMax(m, r)
    decreases |m|
  {
    if |m| == 1 then m[0]
    else
      var front := m[..|m| - 1];
      assert Rectangular(front) && front[0] == m[0];
      ElementwiseMax(ColumnMax(front), m[|m| - 1])
  }

  /** The column-wise maximum of a matrix is unique. */
  lemma ColumnMaxUnique(m: Matrix, r1: Row, r2: Row)
    requires |r1| == |r2|
    requires IsColumnMax(m, r1) && IsColumnMax(m, r2)
    ensures r1 == r2
  {
    forall j | 0 <= j < |r1|
      ensures r1[j] == r2[j]
    {
      var k1 :| 0 <= k1 < |m| && |m[k1]| == |r1| && m[k1][j] == r1[j];
      var k2 :| 0 <= k2 < |m| && |m[k2]| == |r2| && m[k2][j] == r2[j];
      assert m[k2][j] <= r1[j] && m[k1][j] <= r2[j];
    }
  }
}
