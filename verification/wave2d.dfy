/** The `wave2d` solver state: three time levels of the field, the obstacle,
    the display mask and the screen probe, with the operations that read and
    write them. Every operation returns a new state instead of mutating one. */
module Wave2d {
  import opened Grids

  /** A display cell: NaN (`Blank`) or a field value. */
  datatype Pixel = Blank | Value(v: real)

  /** What `getScreen` hands back: nothing when no screen is set, a fresh copy
      of the probe line, or the failure of copying an unallocated screen. */
  datatype Probe = Off | Sample(values: seq<real>) | NoBuffer

  /** The solver. `level0`, `level1`, `level2` are the slots `field[0]`,
      `field[1]`, `field[2]` (oldest, middle, newest); `blank` is the display
      mask, true where it holds NaN and false where it holds 1.0. */
  datatype Wave = Wave(
    X: nat, Y: nat,
    dx: real, dy: real, dt: real, speed: real,
    level0: Grid, level1: Grid, level2: Grid,
    obstacle: Grid,
    blank: seq<seq<bool>>,
    screenOn: bool,
    screenXpos: int, screenYpos: int,
    alignment: int,
    screen: Option<seq<real>>)

  /** Every array has the shape of one field level, and a screen switched on
      with a known alignment has its buffer allocated. */
  predicate Valid(w: Wave)
  {
    && Shaped(w.level0, w.X, w.Y)
    && Shaped(w.level1, w.X, w.Y)
    && Shaped(w.level2, w.X, w.Y)
    && Shaped(w.obstacle, w.X, w.Y)
    && Shaped(w.blank, w.X, w.Y)
    && (w.screenOn && (w.alignment == 0 || w.alignment == 1) ==> w.screen.Some?)
  }

  /** The constructor: three zero levels, no obstacle, nothing blank, no screen. */
  function New(X: nat, Y: nat, dx: real, dy: real, dt: real, speed: real): (w: Wave)
    ensures Valid(w)
    ensures w.X == X && w.Y == Y && w.dx == dx && w.dy == dy && w.dt == dt && w.speed == speed
    ensures AllZero(w.level0) && AllZero(w.level1) && AllZero(w.level2)
    ensures forall i, j :: 0 <= i < X && 0 <= j < Y ==> w.obstacle[i][j] == 1.0 && !w.blank[i][j]
    ensures !w.screenOn && w.screen == None
  {
    Wave(X, Y, dx, dy, dt, speed,
         Fill(X, Y, 0.0), Fill(X, Y, 0.0), Fill(X, Y, 0.0),
         Fill(X, Y, 1.0), Fill(X, Y, false),
         false, 0, 0, 0, None)
  }

  // ---------------------------------------------------------------- obstacle

  /** `setObstacle`: an obstacle of the wrong shape is ignored; one of the
      right shape is stored, and every cell where it is zero becomes blank in
      the display mask. Blank cells are never made visible again. */
  function SetObstacle(w: Wave, o: Grid): (r: Wave)
    requires Valid(w)
    ensures Valid(r)
    ensures !Shaped(o, w.X, w.Y) ==> r == w
    ensures Shaped(o, w.X, w.Y) ==> r == w.(obstacle := o, blank := r.blank)
    ensures Shaped(o, w.X, w.Y) ==>
      forall i, j :: 0 <= i < w.X && 0 <= j < w.Y ==> (r.blank[i][j] <==> w.blank[i][j] || o[i][j] == 0.0)
  {
    if Shaped(o, w.X, w.Y) then
      var b := seq(w.X, i requires 0 <= i < w.X =>
                 seq(w.Y, j requires 0 <= j < w.Y => w.blank[i][j] || o[i][j] == 0.0));
      w.(obstacle := o, blank := b)
    else
      w
  }

  /** Setting the same obstacle twice leaves obstacle and display mask as the
      first call left them. */
  lemma SetObstacleIdempotent(w: Wave, o: Grid)
    requires Valid(w)
    ensures SetObstacle(SetObstacle(w, o), o) == SetObstacle(w, o)
  {
    var r1 := SetObstacle(w, o);
    var r2 := SetObstacle(r1, o);
    if Shaped(o, w.X, w.Y) {
      assert r2.blank == r1.blank by {
        forall i | 0 <= i < w.X
          ensures r2.blank[i] == r1.blank[i]
        {
          assert forall j :: 0 <= j < w.Y ==> (r2.blank[i][j] <==> r1.blank[i][j]);
        }
      }
    }
  }

  /** A later obstacle never clears a blank cell, even where it is open. */
  lemma SetObstacleKeepsBlank(w: Wave, o: Grid, i: int, j: int)
    requires Valid(w)
    requires 0 <= i < w.X && 0 <= j < w.Y
    requires w.blank[i][j]
    ensures SetObstacle(w, o).blank[i][j]
  {
  }

  // ------------------------------------------------------------------ screen

  /** Python's `int(r)` on a float: truncation toward zero. */
  function Trunc(r: real): (n: int)
    ensures r >= 0.0 ==> n as real <= r < n as real + 1.0
    ensures r < 0.0 ==> n as real - 1.0 < r <= n as real
  {
    if r >= 0.0 then r.Floor else -((-r).Floor)
  }

  /** `int` is monotone. */
  lemma TruncMonotone(a: real, b: real)
    requires a <= b
    ensures Trunc(a) <= Trunc(b)
  {
  }

  /** `setScreenAt(size, xPosition, yPosition, alignment)`: switches the screen
      on, places its centre at `int((dim - 1) * position)` on both axes and,
      for alignment 0 (vertical, along y) or 1 (horizontal, along x), allocates
      a zero buffer of `int(dim * size)` cells. Any other alignment keeps the
      previous buffer. The field, obstacle and mask are untouched. */
  function SetScreenAt(w: Wave, size: real, xPosition: real, yPosition: real, alignment: int): (r: Wave)
    requires Valid(w)
    requires alignment == 0 ==> Trunc(w.Y as real * size) >= 0
    requires alignment == 1 ==> Trunc(w.X as real * size) >= 0
    ensures Valid(r)
    ensures r.screenOn && r.alignment == alignment
    ensures r.screenXpos == Trunc((w.X as real - 1.0) * xPosition)
    ensures r.screenYpos == Trunc((w.Y as real - 1.0) * yPosition)
    ensures alignment == 0 ==> r.screen == Some(seq(Trunc(w.Y as real * size), _ => 0.0))
    ensures alignment == 1 ==> r.screen == Some(seq(Trunc(w.X as real * size), _ => 0.0))
    ensures alignment != 0 && alignment != 1 ==> r.screen == w.screen
    ensures r == w.(screenOn := true, screenXpos := r.screenXpos, screenYpos := r.screenYpos,
                    alignment := alignment, screen := r.screen)
  {
    var xpos := Trunc((w.X as real - 1.0) * xPosition);
    var ypos := Trunc((w.Y as real - 1.0) * yPosition);
    var buffer :=
      if alignment == 0 then Some(seq(Trunc(w.Y as real * size), _ => 0.0))
      else if alignment == 1 then Some(seq(Trunc(w.X as real * size), _ => 0.0))
      else w.screen;
    w.(screenOn := true, screenXpos := xpos, screenYpos := ypos, alignment := alignment, screen := buffer)
  }

  /** A proportional centre in [0, 1] lands on a node index of the axis. */
  lemma ScreenCentreInRange(dim: nat, position: real)
    requires dim >= 1
    requires 0.0 <= position <= 1.0
    ensures 0 <= Trunc((dim as real - 1.0) * position) <= dim - 1
  {
    var d := dim as real - 1.0;
    assert 0.0 <= d * position <= d by {
      assert d * position <= d * 1.0;
    }
    TruncMonotone(d * position, d);
    assert Trunc(d) == dim - 1;
  }

  /** A proportional size in [0, 1] gives a screen no longer than the axis. */
  lemma ScreenLengthInRange(dim: nat, size: real)
    requires 0.0 <= size <= 1.0
    ensures 0 <= Trunc(dim as real * size) <= dim
  {
    var d := dim as real;
    assert 0.0 <= d * size <= d by {
      assert d * size <= d * 1.0;
    }
    TruncMonotone(d * size, d);
    assert Trunc(d) == dim;
  }

  /** `int(centre - length/2)`: the first probe cell along the screen's axis. */
  function ScreenStart(centre: int, length: nat): int
  {
    Trunc(centre as real - length as real / 2.0)
  }

  /** When the screen does not reach below index 0 the start is the centre
      minus half the length, rounded up. */
  lemma ScreenStartHalfUp(centre: int, length: nat)
    requires 2 * centre >= length
    ensures ScreenStart(centre, length) == centre - (length + 1) / 2
  {
  }

  /** The number of probe cells: the size of the screen buffer. */
  function ScreenLength(w: Wave): nat
  {
    if w.screen.Some? then |w.screen.value| else 0
  }

  /** The probe reads a line: cells `[xpos, start + k]` of a vertical screen
      (alignment 0) or `[start + k, ypos]` of a horizontal one (alignment 1). */
  predicate OnScreen(w: Wave, i: int, j: int)
  {
    && w.screenOn && w.screen.Some?
    && (|| (w.alignment == 0 && i == w.screenXpos &&
            ScreenStart(w.screenYpos, ScreenLength(w)) <= j < ScreenStart(w.screenYpos, ScreenLength(w)) + ScreenLength(w))
        || (w.alignment == 1 && j == w.screenYpos &&
            ScreenStart(w.screenXpos, ScreenLength(w)) <= i < ScreenStart(w.screenXpos, ScreenLength(w)) + ScreenLength(w)))
  }

  /** The probe line lies inside the grid (no negative or clipped index). */
  predicate ScreenInBounds(w: Wave)
  {
    w.screenOn && w.screen.Some? ==>
      var len := ScreenLength(w);
      && (w.alignment == 0 ==>
            0 <= w.screenXpos < w.X &&
            0 <= ScreenStart(w.screenYpos, len) && ScreenStart(w.screenYpos, len) + len <= w.Y)
      && (w.alignment == 1 ==>
            0 <= w.screenYpos < w.Y &&
            0 <= ScreenStart(w.screenXpos, len) && ScreenStart(w.screenXpos, len) + len <= w.X)
  }

  /** `getScreen`: with the screen off, nothing. With a vertical or horizontal
      screen, the newest level along the probe line, which also becomes the
      stored screen; the caller gets a copy of the same length as the buffer.
      With another alignment, a copy of the stored buffer, or a failure when
      none was ever allocated. Only the stored screen changes. */
  function GetScreen(w: Wave): (r: (Wave, Probe))
    requires Valid(w)
    requires ScreenInBounds(w)
    ensures Valid(r.0)
    ensures !w.screenOn ==> r == (w, Off)
    ensures w.screenOn && (w.alignment == 0 || w.alignment == 1) ==>
      && r.1.Sample?
      && |r.1.values| == ScreenLength(w)
      && r.0 == w.(screen := Some(r.1.values))
      && forall k :: 0 <= k < |r.1.values| ==>
           OnScreen(w, ScreenCellX(w, k), ScreenCellY(w, k)) &&
           r.1.values[k] == w.level2[ScreenCellX(w, k)][ScreenCellY(w, k)]
    ensures w.screenOn && w.alignment != 0 && w.alignment != 1 ==>
      r.0 == w && r.1 == (if w.screen.Some? then Sample(w.screen.value) else NoBuffer)
  {
    if !w.screenOn then (w, Off)
    else if w.alignment == 0 then
      var len := ScreenLength(w);
      var start := ScreenStart(w.screenYpos, len);
      var line := w.level2[w.screenXpos][start..start + len];
      (w.(screen := Some(line)), Sample(line))
    else if w.alignment == 1 then
      var len := ScreenLength(w);
      var start := ScreenStart(w.screenXpos, len);
      var line := seq(len, k requires 0 <= k < len => w.level2[start + k][w.screenYpos]);
      (w.(screen := Some(line)), Sample(line))
    else
      (w, if w.screen.Some? then Sample(w.screen.value) else NoBuffer)
  }

  /** The grid row of probe cell `k`. */
  function ScreenCellX(w: Wave, k: int): int
  {
    if w.alignment == 0 then w.screenXpos else ScreenStart(w.screenXpos, ScreenLength(w)) + k
  }

  /** The grid column of probe cell `k`. */
  function ScreenCellY(w: Wave, k: int): int
  {
    if w.alignment == 0 then ScreenStart(w.screenYpos, ScreenLength(w)) + k else w.screenYpos
  }

  // ----------------------------------------------------------------- display

  /** `v * m` for a display mask entry: NaN absorbs, 1.0 keeps the value. */
  function Masked(p: Pixel, blank: bool): Pixel
  {
    if blank then Blank else p
  }

  /** `getWave`: the newest level for display, with the screen line and then
      the obstacle cells (through the display mask) turned to NaN. The result
      is a fresh grid; the state is not changed. */
  function GetWave(w: Wave): (p: seq<seq<Pixel>>)
    requires Valid(w)
    requires w.screenOn && w.screen.Some? && w.alignment == 0 ==>
      0 <= w.screenXpos < w.X && 0 <= ScreenStart(w.screenYpos, ScreenLength(w))
    requires w.screenOn && w.screen.Some? && w.alignment == 1 ==>
      0 <= w.screenYpos < w.Y && 0 <= ScreenStart(w.screenXpos, ScreenLength(w))
    ensures Shaped(p, w.X, w.Y)
    ensures forall i, j :: 0 <= i < w.X && 0 <= j < w.Y ==>
      (p[i][j] == Blank <==> w.blank[i][j] || OnScreen(w, i, j))
    ensures forall i, j :: 0 <= i < w.X && 0 <= j < w.Y && p[i][j] != Blank ==>
      p[i][j] == Value(w.level2[i][j])
  {
    var wave := seq(w.X, i requires 0 <= i < w.X => seq(w.Y, j requires 0 <= j < w.Y => Value(w.level2[i][j])));
    var lined := if w.screenOn && w.screen.Some? then BlankLine(w, wave) else wave;
    seq(w.X, i requires 0 <= i < w.X => seq(w.Y, j requires 0 <= j < w.Y => Masked(lined[i][j], w.blank[i][j])))
  }

  /** `wave[xpos, start:start+L] = nan` or `wave[start:start+L, ypos] = nan`,
      with the slice clipped at the end of the axis. */
  function BlankLine(w: Wave, wave: seq<seq<Pixel>>): (r: seq<seq<Pixel>>)
    requires w.screenOn && w.screen.Some?
    requires Shaped(wave, w.X, w.Y)
    ensures Shaped(r, w.X, w.Y)
    ensures forall i, j :: 0 <= i < w.X && 0 <= j < w.Y ==>
      r[i][j] == (if OnScreen(w, i, j) then Blank else wave[i][j])
  {
    seq(w.X, i requires 0 <= i < w.X => seq(w.Y, j requires 0 <= j < w.Y =>
      if OnScreen(w, i, j) then Blank else wave[i][j]))
  }

  /** Every cell the probe reads is blank on the display. */
  lemma ProbeLineIsBlankOnDisplay(w: Wave, k: int)
    requires Valid(w) && ScreenInBounds(w)
    requires w.screenOn && (w.alignment == 0 || w.alignment == 1)
    requires 0 <= k < ScreenLength(w)
    ensures 0 <= ScreenCellX(w, k) < w.X && 0 <= ScreenCellY(w, k) < w.Y
    ensures GetWave(w)[ScreenCellX(w, k)][ScreenCellY(w, k)] == Blank
  {
  }

  /** After an obstacle of the right shape is set, each of its closed cells is
      blank on the display, whether or not a screen is in place. */
  lemma ObstacleIsBlankOnDisplay(w: Wave, o: Grid, i: int, j: int)
    requires Valid(w) && ScreenInBounds(w)
    requires Shaped(o, w.X, w.Y)
    requires 0 <= i < w.X && 0 <= j < w.Y && o[i][j] == 0.0
    ensures GetWave(SetObstacle(w, o))[i][j] == Blank
  {
  }
}
