/** The grid-writing helpers of the driver script: the initial conditions,
    the double-slit obstacle and the boundary condition handed to the solver.
    The source term `amplitude * sin(2 pi f t)` is the function `source`. */
module Driver {
  import opened Grids
  import opened Wave2d

  /** `setInitialConditions`: the oldest level becomes zero and row `x = 0` of
      the middle level takes the source value at the first time step `dt`. */
  function SetInitialConditions(w: Wave, source: real -> real): (r: Wave)
    requires Valid(w)
    requires w.X >= 1
    ensures Valid(r)
    ensures r == w.(level0 := r.level0, level1 := r.level1)
    ensures AllZero(r.level0)
    ensures forall j :: 0 <= j < w.Y ==> r.level1[0][j] == source(w.dt)
    ensures forall i, j :: 1 <= i < w.X && 0 <= j < w.Y ==> r.level1[i][j] == w.level1[i][j]
  {
    w.(level0 := Fill(w.X, w.Y, 0.0), level1 := SetRow(w.level1, 0, source(w.dt)))
  }

  // ------------------------------------------------------------ double slit

  /** Grid indices of the double slit: the column range `[left, right)` of its
      thickness and the far and near edges of the upper and lower slits. */
  datatype SlitBounds = SlitBounds(left: int, right: int,
                                   upperY0: int, upperY1: int,
                                   lowerY0: int, lowerY1: int)
  {
    /** No bound is negative (a negative bound would count from the far end). */
    predicate NonNegative()
    {
      left >= 0 && right >= 0 && upperY0 >= 0 && upperY1 >= 0 && lowerY0 >= 0 && lowerY1 >= 0
    }
  }

  /** The indices `setDoubleSlit` derives from proportions of the domain:
      `int(X * (xPosition -+ thickness/2))` for the thickness range and
      `int(Y * (yPosition -+ separation/2 [-+ aperture]))` for the slit edges.
      Non-negative widths give ordered bounds; a slit that starts inside the
      domain gives bounds with no negative index, which `SetDoubleSlit`
      accepts. */
  function Bounds(X: nat, Y: nat, xPosition: real, yPosition: real,
                  separation: real, thickness: real, aperture: real): (b: SlitBounds)
    ensures thickness >= 0.0 && separation >= 0.0 && aperture >= 0.0 ==>
      b.left <= b.right && b.upperY1 <= b.upperY0 <= b.lowerY0 <= b.lowerY1
    ensures thickness >= 0.0 && separation >= 0.0 && aperture >= 0.0
            && xPosition - thickness / 2.0 >= 0.0 && yPosition - separation / 2.0 - aperture >= 0.0 ==>
      b.NonNegative()
  {
    if thickness >= 0.0 && separation >= 0.0 && aperture >= 0.0 then
      BoundsOrdered(X, Y, xPosition, yPosition, separation, thickness, aperture);
      if xPosition - thickness / 2.0 >= 0.0 && yPosition - separation / 2.0 - aperture >= 0.0 then
        BoundsNonNegative(X, Y, xPosition, yPosition, separation, thickness, aperture);
        SlitBoundsOf(X, Y, xPosition, yPosition, separation, thickness, aperture)
      else
        SlitBoundsOf(X, Y, xPosition, yPosition, separation, thickness, aperture)
    else
      SlitBoundsOf(X, Y, xPosition, yPosition, separation, thickness, aperture)
  }

  /** `int(n * p)`: a proportion `p` of an axis of `n` nodes as an index. */
  function ScaledIndex(n: nat, p: real): int
  {
    Trunc(n as real * p)
  }

  /** The six truncated products, before anything is known about them. */
  function SlitBoundsOf(X: nat, Y: nat, xPosition: real, yPosition: real,
                        separation: real, thickness: real, aperture: real): SlitBounds
  {
    SlitBounds(
      ScaledIndex(X, xPosition - thickness / 2.0),
      ScaledIndex(X, xPosition + thickness / 2.0),
      ScaledIndex(Y, yPosition - separation / 2.0),
      ScaledIndex(Y, yPosition - separation / 2.0 - aperture),
      ScaledIndex(Y, yPosition + separation / 2.0),
      ScaledIndex(Y, yPosition + separation / 2.0 + aperture))
  }

  /** Non-negative thickness, separation and aperture give ordered bounds:
      each slit's far edge lies beyond its near edge and the slits do not cross. */
  lemma BoundsOrdered(X: nat, Y: nat, xPosition: real, yPosition: real,
                      separation: real, thickness: real, aperture: real)
    requires thickness >= 0.0 && separation >= 0.0 && aperture >= 0.0
    ensures var b := SlitBoundsOf(X, Y, xPosition, yPosition, separation, thickness, aperture);
      b.left <= b.right && b.upperY1 <= b.upperY0 <= b.lowerY0 <= b.lowerY1
  {
    ScaledIndexMonotone(X, xPosition - thickness / 2.0, xPosition + thickness / 2.0);
    ScaledIndexMonotone(Y, yPosition - separation / 2.0 - aperture, yPosition - separation / 2.0);
    ScaledIndexMonotone(Y, yPosition - separation / 2.0, yPosition + separation / 2.0);
    ScaledIndexMonotone(Y, yPosition + separation / 2.0, yPosition + separation / 2.0 + aperture);
  }

  /** A larger proportion of the same axis never gives a smaller index. */
  lemma ScaledIndexMonotone(n: nat, p: real, q: real)
    requires p <= q
    ensures ScaledIndex(n, p) <= ScaledIndex(n, q)
  {
    assert n as real * p <= n as real * q;
    TruncMonotone(n as real * p, n as real * q);
  }

  /** When the thickness range and the upper slit start at or after index 0,
      with ordered widths, no bound is negative. */
  lemma BoundsNonNegative(X: nat, Y: nat, xPosition: real, yPosition: real,
                          separation: real, thickness: real, aperture: real)
    requires thickness >= 0.0 && separation >= 0.0 && aperture >= 0.0
    requires xPosition - thickness / 2.0 >= 0.0
    requires yPosition - separation / 2.0 - aperture >= 0.0
    ensures SlitBoundsOf(X, Y, xPosition, yPosition, separation, thickness, aperture).NonNegative()
  {
    NearEdgesNonNegative(X, Y, xPosition, yPosition, separation, thickness, aperture);
    BoundsOrdered(X, Y, xPosition, yPosition, separation, thickness, aperture);
  }

  /** The left edge of the thickness range and the near edge of the upper
      slit, the smallest of the six bounds, are non-negative. */
  lemma NearEdgesNonNegative(X: nat, Y: nat, xPosition: real, yPosition: real,
                             separation: real, thickness: real, aperture: real)
    requires xPosition - thickness / 2.0 >= 0.0
    requires yPosition - separation / 2.0 - aperture >= 0.0
    ensures SlitBoundsOf(X, Y, xPosition, yPosition, separation, thickness, aperture).left >= 0
    ensures SlitBoundsOf(X, Y, xPosition, yPosition, separation, thickness, aperture).upperY1 >= 0
  {
    ScaledIndexNonNegative(X, xPosition - thickness / 2.0);
    ScaledIndexNonNegative(Y, yPosition - separation / 2.0 - aperture);
  }

  /** A non-negative proportion of an axis truncates to a non-negative index. */
  lemma ScaledIndexNonNegative(n: nat, p: real)
    requires p >= 0.0
    ensures ScaledIndex(n, p) >= 0
  {
    assert n as real * p >= 0.0;
  }

  /** The slit array: ones, with `[left:right, :upperY1]`, `[left:right,
      upperY0:lowerY0]` and `[left:right, lowerY1:]` set to zero in that order.
      A cell is closed exactly when its column is in the thickness range and
      its row falls in one of the three bands; every entry is 0 or 1. */
  function SlitMask(X: nat, Y: nat, b: SlitBounds): (m: Grid)
    requires b.NonNegative()
    ensures Shaped(m, X, Y)
    ensures forall i, j :: 0 <= i < X && 0 <= j < Y ==>
      (m[i][j] == 0.0 <==> b.left <= i < b.right && (j < b.upperY1 || b.upperY0 <= j < b.lowerY0 || b.lowerY1 <= j))
    ensures forall i, j :: 0 <= i < X && 0 <= j < Y ==> m[i][j] == 0.0 || m[i][j] == 1.0
  {
    var slit := Fill(X, Y, 1.0);
    var slit := ZeroBlock(slit, b.left, b.right, 0, b.upperY1);
    var slit := ZeroBlock(slit, b.left, b.right, b.upperY0, b.lowerY0);
    ZeroBlock(slit, b.left, b.right, b.lowerY1, Y)
  }

  /** Outside the thickness range every column of the slit array is open. */
  lemma SlitOpenOutsideThickness(X: nat, Y: nat, b: SlitBounds, i: int, j: int)
    requires b.NonNegative()
    requires 0 <= i < X && 0 <= j < Y
    requires i < b.left || b.right <= i
    ensures SlitMask(X, Y, b)[i][j] == 1.0
  {
  }

  /** With ordered bounds, inside the thickness range the open cells are
      exactly the two slits `[upperY1, upperY0)` and `[lowerY0, lowerY1)`. */
  lemma SlitHasTwoOpenBands(X: nat, Y: nat, b: SlitBounds, i: int, j: int)
    requires b.NonNegative()
    requires b.upperY1 <= b.upperY0 <= b.lowerY0 <= b.lowerY1 <= Y
    requires b.left <= i < b.right && 0 <= i < X && 0 <= j < Y
    ensures SlitMask(X, Y, b)[i][j] == 1.0 <==> (b.upperY1 <= j < b.upperY0 || b.lowerY0 <= j < b.lowerY1)
  {
  }

  /** `setDoubleSlit` with the obstacle taken as one field level, for the
      bounds `Bounds` derives: the slit array becomes the obstacle and its
      closed cells turn blank; nothing else changes. */
  function SetDoubleSlit(w: Wave, b: SlitBounds): (r: Wave)
    requires Valid(w)
    requires b.NonNegative()
    ensures Valid(r)
    ensures r == w.(obstacle := r.obstacle, blank := r.blank)
    ensures forall i, j :: 0 <= i < w.X && 0 <= j < w.Y ==>
      (r.obstacle[i][j] == 0.0 <==> b.left <= i < b.right && (j < b.upperY1 || b.upperY0 <= j < b.lowerY0 || b.lowerY1 <= j))
    ensures forall i, j :: 0 <= i < w.X && 0 <= j < w.Y ==> r.obstacle[i][j] == 0.0 || r.obstacle[i][j] == 1.0
    ensures forall i, j :: 0 <= i < w.X && 0 <= j < w.Y ==>
      (r.blank[i][j] <==> w.blank[i][j] || r.obstacle[i][j] == 0.0)
  {
    SetObstacle(w, SlitMask(w.X, w.Y, b))
  }

  // --------------------------------------------------------------- boundary

  /** The simulated time of step `step`: the first two time levels are the
      initial conditions. */
  function StepTime(dt: real, step: int): real
  {
    dt * (step + 2) as real
  }

  /** The pulse is on for good when `duration <= 0`, else while `t <= duration`. */
  predicate PulseOn(dt: real, step: int, duration: real)
  {
    duration <= 0.0 || StepTime(dt, step) <= duration
  }

  /** The value written to the left edge at step `step`. */
  function PulseEdge(source: real -> real, dt: real, step: int, duration: real): (e: real)
    ensures PulseOn(dt, step, duration) ==> e == source(StepTime(dt, step))
    ensures !PulseOn(dt, step, duration) ==> e == 0.0
  {
    if duration <= 0.0 then source(StepTime(dt, step))
    else if StepTime(dt, step) <= duration then source(StepTime(dt, step))
    else 0.0
  }

  /** With a positive time step a finite pulse, once off, stays off. */
  lemma PulseStaysOff(dt: real, step: int, later: int, duration: real)
    requires dt > 0.0 && step <= later
    requires !PulseOn(dt, step, duration)
    ensures !PulseOn(dt, later, duration)
  {
  }

  /** `boundary`: row `x = 0` takes the pulse value `edge`, row `x = X-1`
      becomes zero, then column `y = 0` copies column 1 and column `y = Y-1`
      copies column `Y-2`, each over all rows, in that order. With at least two
      rows the whole first row, corners included, carries the pulse; the last
      row is zero throughout; the interior is untouched; in the other rows the
      first column holds what column 1 held before, even when `Y == 2` makes
      column 1 an edge column itself. */
  function Boundary(g: Grid, X: nat, Y: nat, edge: real): (r: Grid)
    requires Shaped(g, X, Y)
    requires X >= 1 && Y >= 2
    ensures Shaped(r, X, Y)
    ensures X >= 2 ==> r[0] == seq(Y, _ => edge)
    ensures r[X - 1] == seq(Y, _ => 0.0)
    ensures forall i :: 0 <= i < X ==> r[i][0] == r[i][1] && r[i][Y - 1] == r[i][Y - 2]
    ensures forall i :: 1 <= i < X - 1 ==> r[i][0] == g[i][1]
    ensures forall i, j :: 1 <= i < X - 1 && 1 <= j < Y - 1 ==> r[i][j] == g[i][j]
  {
    var g1 := SetRow(g, 0, edge);
    var g2 := SetRow(g1, X - 1, 0.0);
    var g3 := CopyColumn(g2, 0, 1);
    CopyColumn(g3, Y - 1, Y - 2)
  }
}
