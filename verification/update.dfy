/** `wave2d.update` driven by the double-slit `boundary`: the leapfrog stencil
    on the interior of the newest level, the obstacle product, the boundary
    condition, and the rotation of the three time levels. */
module Update {
  import opened Grids
  import opened Wave2d
  import opened Driver

  /** The discrete wave equation at interior node `(i, j)`: the next value from
      the middle level `p` and the oldest level `o`, with `cx = (dt*speed/dx)^2`
      and `cy = (dt*speed/dy)^2`. */
  function FivePoint(p: Grid, o: Grid, i: int, j: int, cx: real, cy: real): real
    requires 1 <= i < |p| - 1 && |o| == |p|
    requires 1 <= j < |p[i]| - 1 && |p[i - 1]| == |p[i + 1]| == |o[i]| == |p[i]|
  {
    cx * (p[i + 1][j] + p[i - 1][j] - 2.0 * p[i][j])
      + cy * (p[i][j + 1] + p[i][j - 1] - 2.0 * p[i][j])
      + 2.0 * p[i][j] - o[i][j]
  }

  /** Node `(i, j)` of an `X` by `Y` grid is off the edges. */
  predicate Interior(i: int, j: int, X: int, Y: int)
  {
    1 <= i < X - 1 && 1 <= j < Y - 1
  }

  /** `field[2, 1:-1, 1:-1] = cx*(...) + cy*(...) + 2*field[1, 1:-1, 1:-1] -
      field[0, 1:-1, 1:-1]`: every interior cell of the newest level `next`
      receives the five-point update computed from the middle level `cur` and
      the oldest level `prev` alone; no edge cell of `next` is written. */
  method Stencil(next: Grid, cur: Grid, prev: Grid, X: nat, Y: nat, cx: real, cy: real) returns (r: Grid)
    requires Shaped(next, X, Y) && Shaped(cur, X, Y) && Shaped(prev, X, Y)
    ensures Shaped(r, X, Y)
    ensures forall i, j :: 0 <= i < X && 0 <= j < Y && Interior(i, j, X, Y) ==>
      r[i][j] == FivePoint(cur, prev, i, j, cx, cy)
    ensures forall i, j :: 0 <= i < X && 0 <= j < Y && !Interior(i, j, X, Y) ==> r[i][j] == next[i][j]
  {
    r := [];
    var i := 0;
    while i < X
      invariant 0 <= i <= X
      invariant Shaped(r, i, Y)
      invariant forall a, b :: 0 <= a < i && 0 <= b < Y ==>
        r[a][b] == (if Interior(a, b, X, Y) then FivePoint(cur, prev, a, b, cx, cy) else next[a][b])
    {
      var row := next[i];
      if 1 <= i < X - 1 {
        var j := 1;
        while j < Y - 1
          invariant 1 <= j && (Y >= 2 ==> j <= Y - 1)
          invariant |row| == Y
          invariant forall b :: 0 <= b < Y ==>
            row[b] == (if 1 <= b < j then FivePoint(cur, prev, i, b, cx, cy) else next[i][b])
        {
          row := row[j := FivePoint(cur, prev, i, j, cx, cy)];
          j := j + 1;
        }
      }
      r := r + [row];
      i := i + 1;
    }
  }

  /** `field[2,:,:] *= obstacle`: closed cells (0) become zero, open cells (1)
      keep their value, and any other coefficient scales it. */
  function ApplyObstacle(g: Grid, obstacle: Grid, X: nat, Y: nat): (r: Grid)
    requires Shaped(g, X, Y) && Shaped(obstacle, X, Y)
    ensures Shaped(r, X, Y)
    ensures forall i, j :: 0 <= i < X && 0 <= j < Y && obstacle[i][j] == 0.0 ==> r[i][j] == 0.0
    ensures forall i, j :: 0 <= i < X && 0 <= j < Y && obstacle[i][j] == 1.0 ==> r[i][j] == g[i][j]
    ensures forall i, j :: 0 <= i < X && 0 <= j < Y ==> r[i][j] == g[i][j] * obstacle[i][j]
  {
    Mul(g, obstacle)
  }

  function Sq(r: real): real { r * r }

  /** `(dt*speed/dx)**2`. */
  function Cx(w: Wave): real
    requires w.dx != 0.0
  {
    Sq(w.dt * w.speed / w.dx)
  }

  /** `(dt*speed/dy)**2`. */
  function Cy(w: Wave): real
    requires w.dy != 0.0
  {
    Sq(w.dt * w.speed / w.dy)
  }

  /** The state can take a step: the boundary needs a first and a last row and
      two columns, and the coefficients divide by `dx` and `dy`. */
  predicate Steppable(w: Wave)
  {
    Valid(w) && w.X >= 1 && w.Y >= 2 && w.dx != 0.0 && w.dy != 0.0
  }

  /** What one step must leave in the newest level `r` of an `X` by `Y` state
      `w`: every interior cell is the five-point update scaled by its obstacle
      value; with at least two rows the first row is the pulse value `edge`
      throughout, corners included, whatever the obstacle holds there; the
      last row is zero; the first and last columns repeat their neighbours.
      With only two columns neither is interior, so in the rows between the
      first and the last both hold the value the newest level already held in
      column 1, scaled by the obstacle: the stencil does not write it. */
  ghost predicate Stepped(r: Grid, w: Wave, cx: real, cy: real, edge: real)
    requires Valid(w) && w.X >= 1 && w.Y >= 2
  {
    && Shaped(r, w.X, w.Y)
    && (forall i, j :: 0 <= i < w.X && 0 <= j < w.Y && Interior(i, j, w.X, w.Y) ==>
          r[i][j] == FivePoint(w.level1, w.level0, i, j, cx, cy) * w.obstacle[i][j])
    && (w.X >= 2 ==> r[0] == seq(w.Y, _ => edge))
    && r[w.X - 1] == seq(w.Y, _ => 0.0)
    && (forall i :: 0 <= i < w.X ==> r[i][0] == r[i][1] && r[i][w.Y - 1] == r[i][w.Y - 2])
    && (w.Y == 2 ==> forall i :: 1 <= i < w.X - 1 ==> r[i][0] == w.level2[i][1] * w.obstacle[i][1])
  }

  /** The newest level of one step: the stencil on the interior, then
      `field[2,:,:] *= obstacle`, then `boundary` with pulse value `edge`. The
      boundary runs after the obstacle product, so its edge values survive on
      closed cells. */
  method NextLevel(w: Wave, cx: real, cy: real, edge: real) returns (r: Grid)
    requires Valid(w) && w.X >= 1 && w.Y >= 2
    ensures Stepped(r, w, cx, cy, edge)
  {
    var stepped := Stencil(w.level2, w.level1, w.level0, w.X, w.Y, cx, cy);
    var masked := ApplyObstacle(stepped, w.obstacle, w.X, w.Y);
    r := Boundary(masked, w.X, w.Y, edge);
    forall i, j | 0 <= i < w.X && 0 <= j < w.Y && Interior(i, j, w.X, w.Y)
      ensures r[i][j] == FivePoint(w.level1, w.level0, i, j, cx, cy) * w.obstacle[i][j]
    {
      assert r[i][j] == masked[i][j] == stepped[i][j] * w.obstacle[i][j];
    }
  }

  /** `update(step, duration, amplitude, frequency, wave)` with `boundary` as
      the hook: the oldest level becomes the old middle level, the new middle
      and newest levels both hold the stepped field with this step's pulse
      value, and nothing else in the state changes. */
  method Update(w: Wave, step: int, duration: real, source: real -> real) returns (r: Wave)
    requires Steppable(w)
    ensures Steppable(r)
    ensures r == w.(level0 := w.level1, level1 := r.level2, level2 := r.level2)
    ensures Stepped(r.level2, w, Cx(w), Cy(w), PulseEdge(source, w.dt, step, duration))
  {
    var next := NextLevel(w, Cx(w), Cy(w), PulseEdge(source, w.dt, step, duration));
    r := w.(level0 := w.level1, level1 := next, level2 := next);
  }

  /** A step from an all-zero middle and oldest level with a zero pulse value
      yields an all-zero level, whatever the obstacle and whatever stale values
      the newest level held before. */
  lemma SteppedFromZeroIsZero(r: Grid, w: Wave, cx: real, cy: real)
    requires Valid(w) && w.X >= 2 && w.Y >= 3
    requires AllZero(w.level0) && AllZero(w.level1)
    requires Stepped(r, w, cx, cy, 0.0)
    ensures AllZero(r)
  {
  }

  /** An at-rest state: at least one interior row and column, all-zero middle
      and oldest levels, and a source that is zero at every time. */
  ghost predicate AtRest(w: Wave, source: real -> real)
  {
    && w.X >= 2 && w.Y >= 3
    && AllZero(w.level0) && AllZero(w.level1)
    && forall t :: source(t) == 0.0
  }

  /** The constructor followed by `setInitialConditions` with a silent source
      leaves the solver at rest. */
  lemma SilentStartIsAtRest(X: nat, Y: nat, dx: real, dy: real, dt: real, speed: real, source: real -> real)
    requires X >= 2 && Y >= 3
    requires forall t :: source(t) == 0.0
    ensures AtRest(SetInitialConditions(New(X, Y, dx, dy, dt, speed), source), source)
  {
  }

  /** `n` successive updates for the step indices `first, first+1, ...`, as the
      animation drives them. Grid shape, obstacle and display mask persist;
      after at least one step the middle and newest levels coincide; and a
      state at rest stays at rest: the zero field is a fixed point of the
      solver under a silent source. */
  method Run(w: Wave, first: int, n: nat, duration: real, source: real -> real) returns (r: Wave)
    requires Steppable(w)
    ensures Steppable(r)
    ensures r.X == w.X && r.Y == w.Y && r.obstacle == w.obstacle && r.blank == w.blank
    ensures n > 0 ==> r.level1 == r.level2
    ensures AtRest(w, source) ==> AtRest(r, source)
    ensures AtRest(w, source) && n > 0 ==> AllZero(r.level2)
  {
    r := w;
    var k := 0;
    while k < n
      invariant 0 <= k <= n
      invariant Steppable(r)
      invariant r.X == w.X && r.Y == w.Y && r.obstacle == w.obstacle && r.blank == w.blank
      invariant k > 0 ==> r.level1 == r.level2
      invariant AtRest(w, source) ==> AtRest(r, source)
      invariant AtRest(w, source) && k > 0 ==> AllZero(r.level2)
    {
      var s := Update(r, first + k, duration, source);
      if AtRest(w, source) {
        assert PulseEdge(source, r.dt, first + k, duration) == 0.0;
        SteppedFromZeroIsZero(s.level2, r, Cx(r), Cy(r));
      }
      r := s;
      k := k + 1;
    }
  }
}
