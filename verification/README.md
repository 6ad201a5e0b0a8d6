# Double-slit wave solver: a Dafny model

This project models the array logic of a small explicit finite-difference
solver for the 2D scalar wave equation. The solver is the `wave2d` class and
the grid-writing helpers of `main.py` in a double-slit interference
simulation. The model covers:

- the three time levels of the field (oldest, middle, newest), the obstacle
  and the display mask, allocated by the constructor;
- `update`: the five-point leapfrog stencil on interior cells of the newest
  level, the product with the obstacle, the boundary condition, and the
  rotation of the levels;
- `setObstacle`, `setScreenAt`, `getScreen` and `getWave`: obstacle and
  display-mask bookkeeping, screen index arithmetic, probe extraction and the
  display view;
- `setInitialConditions`, `setDoubleSlit` and `boundary` from `main.py`: the
  starting levels, the double-slit obstacle and the pulse source with its
  edge conditions.

Values are Dafny `real`. Grids are `seq<seq<real>>`, indexed `g[x][y]`. Every
operation returns a new state. Python's `int()` on a float is modelled
explicitly as truncation toward zero (`Wave2d.Trunc`). A display cell that
the source sets to NaN is the `Blank` constructor of `Wave2d.Pixel`.

Files:

- `grids.dfy` (module `Grids`): grid shapes and the NumPy assignments used on
  them.
- `wave2d.dfy` (module `Wave2d`): the solver state, the constructor, the
  obstacle, the screen and the display.
- `driver.dfy` (module `Driver`): initial conditions, the double slit, the
  pulse and the boundary.
- `update.dfy` (module `Update`): the stencil, the obstacle product, one step,
  and repeated steps.
- `as_written.dfy` (module `AsWritten`): the obstacle with the three-level
  shape the source actually allocates (see Findings).

Three behaviours of the code worth noting:

- The display mask is never reset to 1.0 when a new obstacle is set. Cells
  already blank stay blank.
- With the screen off, `getScreen` returns nothing; it does not raise an
  error.
- The screen start is `int(centre - L/2)`, truncated toward zero.

## Model

| member | source | states |
|---|---|---|
| Wave2d.New | wave2d.py:6-23 | three all-zero levels of one shape, an all-open obstacle, no blank cell, no screen |
| Wave2d.SetObstacle | wave2d.py:30-33 | an obstacle of another shape changes nothing; one of the level's shape is stored, each of its zero cells turns blank, blank cells stay blank, and nothing else changes |
| Wave2d.SetObstacleIdempotent | wave2d.py:30-33 | setting the same obstacle twice gives the state that setting it once gives |
| Wave2d.SetObstacleKeepsBlank | wave2d.py:33 | a blank display cell stays blank under any later obstacle |
| Wave2d.Trunc | wave2d.py:38-39 | `int()` of a float: the integer next to the value on the side of zero, at distance below 1 |
| Wave2d.TruncMonotone | main.py:105-107 | truncation preserves order |
| Wave2d.SetScreenAt | wave2d.py:36-45 | screen switched on with the given alignment; centres are the truncated proportional positions; length is the truncated fraction of the y axis for alignment 0 and of the x axis for alignment 1; any other alignment keeps the old buffer; field, obstacle and mask unchanged |
| Wave2d.ScreenCentreInRange | wave2d.py:38-39 | a position in [0, 1] gives a centre index in [0, dim-1] |
| Wave2d.ScreenLengthInRange | wave2d.py:42-45 | a size in [0, 1] gives a screen length in [0, dim] |
| Wave2d.ScreenStartHalfUp | wave2d.py:51-54 | when 2*centre >= L the start index is centre - (L+1)/2 |
| Wave2d.GetScreen | wave2d.py:48-57 | screen off: nothing, state unchanged; vertical or horizontal screen: a sequence of the buffer's length whose k-th element is the newest level at probe cell k, that same line becomes the stored buffer, nothing else changes; other alignment: the stored buffer, or a failure when none exists |
| Wave2d.GetWave | wave2d.py:60-72 | a fresh grid of the level's shape: a cell is blank exactly when it is blank in the mask or on the screen line, and every other cell shows the newest level |
| Wave2d.ProbeLineIsBlankOnDisplay | wave2d.py:48-72 | every cell that getScreen reads lies in the grid and is blank in getWave |
| Wave2d.ObstacleIsBlankOnDisplay | wave2d.py:30-72 | after an obstacle is set, each of its closed cells is blank in getWave, with or without a screen in place |
| Driver.SetInitialConditions | main.py:96-98 | the oldest level becomes all zero; row x = 0 of the middle level becomes the source value at time dt; every other cell and the rest of the state are unchanged |
| Driver.Bounds | main.py:105-107 | the six slit indices from the proportions: non-negative thickness, separation and aperture give left <= right and upperY1 <= upperY0 <= lowerY0 <= lowerY1; if in addition the thickness range and the upper slit start at or after 0, no index is negative, so SetDoubleSlit accepts them |
| Driver.BoundsOrdered | main.py:105-107 | non-negative thickness, separation and aperture give left <= right and upperY1 <= upperY0 <= lowerY0 <= lowerY1 |
| Driver.BoundsNonNegative | main.py:105-107 | with those widths, xPosition - thickness/2 >= 0 and yPosition - separation/2 - aperture >= 0, every slit index is non-negative |
| Driver.ScaledIndexNonNegative | main.py:105-107 | int() of a non-negative proportion of an axis is a non-negative index |
| Driver.ScaledIndexMonotone | main.py:105-107 | a larger proportion of the same axis never gives a smaller index |
| Driver.SlitMask | main.py:101-112 | a cell is 0 exactly when its x is in [left, right) and its y is below upperY1, in [upperY0, lowerY0) or at least lowerY1; every entry is 0 or 1 |
| Driver.SlitOpenOutsideThickness | main.py:103-112 | outside [left, right) the slit array is entirely 1 |
| Driver.SlitHasTwoOpenBands | main.py:105-112 | with ordered bounds, inside [left, right) a cell is open exactly in [upperY1, upperY0) or [lowerY0, lowerY1) |
| Driver.SetDoubleSlit | main.py:101-114 | the obstacle becomes the slit array (closed exactly in the three bands, entries 0 or 1); its closed cells turn blank; nothing else changes |
| Driver.PulseEdge | main.py:117-125 | while the pulse is on (duration <= 0, or t = dt*(step+2) <= duration) the edge value is the source at t; otherwise it is 0 |
| Driver.PulseStaysOff | main.py:118-125 | with dt > 0, once a finite pulse is off it is off at every later step |
| Driver.Boundary | main.py:117-129 | with at least two rows, row x = 0 is the edge value everywhere, corners included; row x = X-1 is zero; column 0 equals column 1 and column Y-1 equals column Y-2 in every row; in rows 1 to X-2 column 0 holds the old column 1, even when Y = 2; interior cells are unchanged |
| Update.Stencil | wave2d.py:76-78 | each interior cell of the new level is the five-point update of the middle and oldest levels; every edge cell keeps its previous value |
| Update.ApplyObstacle | wave2d.py:80 | each cell is multiplied by its obstacle value: closed cells become 0, open cells are unchanged |
| Update.NextLevel | wave2d.py:76-81 | interior cells are the five-point update times the obstacle; the edges are the boundary's values, which survive on closed cells because the boundary runs after the obstacle product; with two columns, rows 1 to X-2 keep the previous newest level's column 1 times the obstacle |
| Update.Update | wave2d.py:74-83 | the oldest level becomes the pre-step middle level; the middle and newest levels both hold the stepped field (post-obstacle, post-boundary); nothing else changes |
| Update.SteppedFromZeroIsZero | wave2d.py:76-81 | a step from zero middle and oldest levels with a zero edge value gives an all-zero level, whatever was left in the newest level |
| Update.SilentStartIsAtRest | main.py:96-98 | a fresh solver given initial conditions from a silent source has all-zero middle and oldest levels |
| Update.Run | wave2d.py:74-83 | repeated updates keep the shape, obstacle and mask; after a step the middle and newest levels coincide; a zero field with a silent source stays exactly zero |
| AsWritten.SlitDroppedAsWritten | wave2d.py:31 | the (X, Y) slit array never passes the guard that compares with the (3, X, Y) field shape, so the obstacle is left unchanged; the one-level guard stores it |
| AsWritten.MoreAxesNeverBroadcast | wave2d.py:80 | an operand with more axes than the target is never broadcastable in place |
| AsWritten.SameShapeBroadcasts | wave2d.py:80 | an operand of the target's own shape is always broadcastable in place |
| AsWritten.ProductFailsAsWritten | wave2d.py:15-16 | the constructor's (3, X, Y) obstacle cannot be multiplied into one (X, Y) level, so the product fails; with a one-level obstacle it is the elementwise product |
| AsWritten.DisplayFailsAsWritten | wave2d.py:16 | the (3, X, Y) display mask cannot be multiplied in place into the (X, Y) view of the newest level, so getWave fails; a one-level mask can |

## Left out

- Plotting and animation are not modelled: `main`, `photogram`, `setPredictionOnScreen` and the matplotlib calls are user interface.
- `maximaDistance` is not modelled; it is a closed-form floating-point formula with a square root.
- Grid sizing is not modelled. The node counts come from `sqrt(2)` and `int(width/dx)`, which are float-to-int conversions. `X`, `Y` and all slit and screen indices are taken as given integers.
- Wave2d.SetScreenAt: uses the node counts `X` and `Y` where the source uses the unfloored ratios `width/dx` and `height/dy`. Those ratios can differ from the level shape in floating point.
- Values are `real`, so floating-point rounding, overflow and NaN propagation are not modelled. Numerical stability and the CFL bound cannot be stated over reals, so they are left out.
- The `dtype == "float64"` test in `setObstacle` is not modelled, because every value is real.
- The source sample `amplitude*sin(2*pi*f*t)` is the parameter `source: real -> real`. The sine is a foreign float function.
- The function-valued boundary hook is not modelled. `update` is composed directly with the concrete `boundary`, so calling `update` before a hook is set, which fails on `None`, is not modelled.
- Update.Run: models the animation calling `update` once per frame with consecutive step indices. The frame's other work (screen read, display, printing) is not part of it.
- The running-maximum screen envelope is not modelled. `getAbsoluteScreen` is called by the driver but is not defined in `wave2d.py`.
- NumPy negative indices and slice clipping are not modelled. Preconditions require non-negative slit bounds (`SlitBounds.NonNegative`) and an in-range screen (`ScreenInBounds`, and the centre and start requirements of `GetWave`). The clipping of the screen line at the far end of an axis is modelled.
- Wave2d.SetScreenAt: requires a non-negative truncated screen length. `np.zeros` rejects a negative length, and the model does not represent that error.
- Wave2d.GetScreen: the source stores a view into the newest level as the screen buffer. The model stores a copy of the line as read. The two differ only for an alignment other than 0 or 1 set after a read, and only in that path's return value.
- Wave2d.GetWave: the source writes NaN into the live newest level (`wave` is a view of `field[2]`). The model returns a fresh grid and leaves the state unchanged. The two differ in two places:
  - A `getScreen` called after `getWave` and before the next `update` returns NaN along the whole probe line in the source, because `getWave` blanks exactly that line. In the model it returns the field values.
  - The next `update` reads the whole newest level: the obstacle product at wave2d.py:80 multiplies every cell, and the stencil leaves the edge cells as they were. The boundary then rewrites rows 0 and X-1. Columns 0 and Y-1 are rewritten from columns 1 and Y-2. With Y >= 3 those are interior columns the stencil has just rewritten, so no NaN survives. With Y = 2, the rows 1 to X-2 of both columns take the stale column-1 value, which in the source can be a NaN that `getWave` wrote. The model carries the real value instead. `Update.Stepped` states what those cells hold in the model.
- Wave2d.SetObstacle: the guard compares with the shape of one level, `(X, Y)`, and the obstacle and mask are one level, not the `(3, X, Y)` the source allocates. See Findings; `AsWritten` models the source's shape.

## Findings

| source | as written | input that shows it | evidently intended | confidence | as-written member | corrected member |
|---|---|---|---|---|---|---|
| wave2d.py:31 | `setObstacle` accepts only an array of the whole field's shape `(3, X, Y)`, but `setDoubleSlit` passes a one-level `(X, Y)` array, so the slit is silently ignored | any grid, with a slit that closes at least one cell | compare with the shape of one level, `(X, Y)`, so that the slit becomes the obstacle | high; not executed | AsWritten.SlitDroppedAsWritten | Driver.SetDoubleSlit |
| wave2d.py:15-16 | the obstacle and the display mask are allocated as `(3, X, Y)`. The obstacle is multiplied in place into the `(X, Y)` level `field[2,:,:]` at line 80. The mask is multiplied in place into the `(X, Y)` view `wave` at line 71. NumPy refuses both as non-broadcastable output operands | any freshly constructed solver: the driver's first `getWave` (main.py:75) fails at line 71, before any `update`; the first `update` fails at line 80 | an obstacle and a mask of one level's shape `(X, Y)`, multiplied elementwise | high; not executed | AsWritten.ProductFailsAsWritten, AsWritten.DisplayFailsAsWritten | Update.ApplyObstacle, Wave2d.GetWave |
