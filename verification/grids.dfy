/** Two-dimensional arrays of the solver as sequences of rows, with the NumPy
    assignments the solver and its driver perform on them (fills, elementwise
    products, zeroed blocks, row fills and column copies).
    A grid is indexed `g[x][y]`: the first axis runs along the domain width,
    the second along its height. */
module Grids {

  datatype Option<+T> = None | Some(value: T)

  type Grid = seq<seq<real>>

  /** `g` has `rows` rows of `cols` entries each: an array of shape `(rows, cols)`. */
  predicate Shaped<T>(g: seq<seq<T>>, rows: int, cols: int)
  {
    |g| == rows && forall i :: 0 <= i < |g| ==> |g[i]| == cols
  }

  /** Two grids of the same rectangular shape. */
  predicate SameShape(a: Grid, b: Grid)
  {
    |a| == |b| && forall i :: 0 <= i < |a| ==> |a[i]| == |b[i]|
  }

  /** Every entry of `g` is zero. */
  predicate AllZero(g: Grid)
  {
    forall i, j :: 0 <= i < |g| && 0 <= j < |g[i]| ==> g[i][j] == 0.0
  }

  /** An array of shape `(rows, cols)` filled with `v` (`np.zeros`, `np.ones`). */
  function Fill<T>(rows: nat, cols: nat, v: T): (g: seq<seq<T>>)
    ensures Shaped(g, rows, cols)
    ensures forall i, j :: 0 <= i < rows && 0 <= j < cols ==> g[i][j] == v
  {
    seq(rows, _ => seq(cols, _ => v))
  }

  /** Elementwise `a * b`, the product of two arrays of one shape. */
  function Mul(a: Grid, b: Grid): (r: Grid)
    requires SameShape(a, b)
    ensures SameShape(r, a)
    ensures forall i, j :: 0 <= i < |a| && 0 <= j < |a[i]| ==> r[i][j] == a[i][j] * b[i][j]
  {
    seq(|a|, i requires 0 <= i < |a| => seq(|a[i]|, j requires 0 <= j < |a[i]| => a[i][j] * b[i][j]))
  }

  /** The assignment `g[r0:r1, c0:c1] = 0.0`. Bounds past the end of an axis are
      clipped, as NumPy clips slice bounds. */
  function ZeroBlock(g: Grid, r0: nat, r1: nat, c0: nat, c1: nat): (r: Grid)
    ensures SameShape(r, g)
    ensures forall i, j :: 0 <= i < |g| && 0 <= j < |g[i]| ==>
      r[i][j] == (if r0 <= i < r1 && c0 <= j < c1 then 0.0 else g[i][j])
  {
    seq(|g|, i requires 0 <= i < |g| =>
      seq(|g[i]|, j requires 0 <= j < |g[i]| => if r0 <= i < r1 && c0 <= j < c1 then 0.0 else g[i][j]))
  }

  /** The row assignment `g[x, :] = v`. */
  function SetRow(g: Grid, x: nat, v: real): (r: Grid)
    requires x < |g|
    ensures SameShape(r, g)
    ensures forall j :: 0 <= j < |g[x]| ==> r[x][j] == v
    ensures forall i, j :: 0 <= i < |g| && i != x && 0 <= j < |g[i]| ==> r[i][j] == g[i][j]
  {
    g[x := seq(|g[x]|, _ => v)]
  }

  /** The column assignment `g[:, dst] = g[:, src]`. */
  function CopyColumn(g: Grid, dst: nat, src: nat): (r: Grid)
    requires forall i :: 0 <= i < |g| ==> dst < |g[i]| && src < |g[i]|
    ensures SameShape(r, g)
    ensures forall i :: 0 <= i < |g| ==> r[i][dst] == g[i][src]
    ensures forall i, j :: 0 <= i < |g| && 0 <= j < |g[i]| && j != dst ==> r[i][j] == g[i][j]
  {
    seq(|g|, i requires 0 <= i < |g| => g[i][dst := g[i][src]])
  }
}
