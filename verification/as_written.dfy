/** The obstacle exactly as `wave2d` allocates it: with the shape `(3, X, Y)`
    of the whole three-level field rather than the `(X, Y)` of one level.
    Only array shapes matter here, so shapes are sequences of axis lengths. */
module AsWritten {
  import opened Grids
  import opened Wave2d
  import opened Driver

  /** `field.shape`: three levels of `X` by `Y`. */
  function FieldShape(X: nat, Y: nat): seq<nat>
  {
    [3, X, Y]
  }

  /** The shape of one level, of the slit array and of `field[2,:,:]`. */
  function LevelShape(X: nat, Y: nat): seq<nat>
  {
    [X, Y]
  }

  /** The guard of `setObstacle` as written: the obstacle's shape must equal
      `field.shape`. */
  predicate AcceptsAsWritten(X: nat, Y: nat, obstacleShape: seq<nat>)
  {
    obstacleShape == FieldShape(X, Y)
  }

  /** `setDoubleSlit` as written: the `(X, Y)` slit array meets the guard
      above, and the obstacle is set only when the guard lets it through. */
  function SetDoubleSlitAsWritten(w: Wave, b: SlitBounds): (r: Wave)
    requires Valid(w)
    requires b.NonNegative()
  {
    if AcceptsAsWritten(w.X, w.Y, LevelShape(w.X, w.Y)) then SetDoubleSlit(w, b) else w
  }

  /** As written the slit never reaches the solver: the obstacle stays all
      open, while the one-level guard stores it and closes the slit's cells. */
  lemma SlitDroppedAsWritten(w: Wave, b: SlitBounds)
    requires Valid(w) && b.NonNegative()
    requires b.left < b.right && b.left < w.X && 0 < b.upperY1 && 0 < w.Y
    ensures SetDoubleSlitAsWritten(w, b) == w
    ensures SetDoubleSlit(w, b).obstacle[b.left][0] == 0.0
  {
  }

  /** NumPy's rule for `target *= operand`: the operand must broadcast to the
      target's own shape, so it has no more axes than the target and each of
      its trailing axes equals the target's or is 1. */
  predicate InPlaceBroadcasts(target: seq<nat>, operand: seq<nat>)
    decreases |operand|
  {
    if |operand| == 0 then true
    else if |target| == 0 then false
    else
      && (operand[|operand| - 1] == target[|target| - 1] || operand[|operand| - 1] == 1)
      && InPlaceBroadcasts(target[..|target| - 1], operand[..|operand| - 1])
  }

  /** An operand with more axes than the target never broadcasts in place. */
  lemma {:induction false} MoreAxesNeverBroadcast(target: seq<nat>, operand: seq<nat>)
    requires |operand| > |target|
    ensures !InPlaceBroadcasts(target, operand)
    decreases |target|
  {
    if |target| > 0 {
      MoreAxesNeverBroadcast(target[..|target| - 1], operand[..|operand| - 1]);
    }
  }

  /** An operand of the target's own shape always broadcasts in place. */
  lemma {:induction false} SameShapeBroadcasts(shape: seq<nat>)
    ensures InPlaceBroadcasts(shape, shape)
    decreases |shape|
  {
    if |shape| > 0 {
      SameShapeBroadcasts(shape[..|shape| - 1]);
    }
  }

  /** `field[2,:,:] *= obstacle` as written: `None` stands for NumPy's
      "non-broadcastable output operand" error. */
  function ObstacleProductAsWritten(level: Grid, obstacle: Grid, X: nat, Y: nat, obstacleShape: seq<nat>): Option<Grid>
    requires Shaped(level, X, Y) && Shaped(obstacle, X, Y)
  {
    if InPlaceBroadcasts(LevelShape(X, Y), obstacleShape) then Some(Mul(level, obstacle)) else None
  }

  /** With the constructor's `(3, X, Y)` obstacle the first `update` already
      fails, whatever the field; with a one-level obstacle the product exists
      and is the elementwise one. */
  lemma ProductFailsAsWritten(level: Grid, obstacle: Grid, X: nat, Y: nat)
    requires Shaped(level, X, Y) && Shaped(obstacle, X, Y)
    ensures ObstacleProductAsWritten(level, obstacle, X, Y, FieldShape(X, Y)) == None
    ensures ObstacleProductAsWritten(level, obstacle, X, Y, LevelShape(X, Y)) == Some(Mul(level, obstacle))
  {
    MoreAxesNeverBroadcast(LevelShape(X, Y), FieldShape(X, Y));
    SameShapeBroadcasts(LevelShape(X, Y));
  }

  /** `wave *= self.mask` in `getWave` as written: the `(3, X, Y)` mask does
      not broadcast into the `(X, Y)` view of the newest level, so the display
      fails before any `update`; a one-level mask does. */
  lemma DisplayFailsAsWritten(X: nat, Y: nat)
    ensures !InPlaceBroadcasts(LevelShape(X, Y), FieldShape(X, Y))
    ensures InPlaceBroadcasts(LevelShape(X, Y), LevelShape(X, Y))
  {
    MoreAxesNeverBroadcast(LevelShape(X, Y), FieldShape(X, Y));
    SameShapeBroadcasts(LevelShape(X, Y));
  }
}
