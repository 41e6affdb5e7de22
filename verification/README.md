# Brachistochrone race kernel

This project models, over mathematical reals, the only computing part of the
brachistochrone animations: three parametric curves from a start point A to an
end point B (a straight line, a parabola sagging below the chord, and a
cycloid rescaled to fit A and B), and `descent_time`, which cuts a parameter
range into equal segments and adds up `ds / v` per segment. `v` follows
energy conservation, `v = sqrt(2 g |y_avg|)`, where `y_avg` is the mean height
of the segment's two end points. When `y_avg` is exactly 0 the speed is the
floor 0.001. A segment whose speed is not positive adds nothing. The height is
measured from y = 0, not as the drop below A; the model keeps that rule as
written.

Modules:

- `Geometry` (geometry.dfy): the point `[x, y, z]`, an `Option`, Python's
  `abs`, and `SqrtLaws`, the sign laws assumed of the square root.
- `FullDerivation` (full_derivation.dfy): `straight_line`, `parabolic_path`,
  `cycloid_path` and `descent_time` from py/brachistochrone_full_derivation.py.
  Also the race: the three default descent times are stretched by 1.5 into
  animation run times, and the results text divides by 1.5 again.
  `DescentTime` is an imperative loop. It is proved equal to the recursive sum
  `DescentSum` and never negative.
- `Scene` (scene.dfy): the endpoint defaults stored by
  `BrachistochroneProblem.__init__`, and the two closures `parabola_func` and
  `cycloid_func` of `create_curves`. These are proved equal to the first
  file's `parabolic_path` (with depth 4) and `cycloid_path`.

`np.sin`, `np.cos` and `np.sqrt` are parameters (`sin`, `cos`, `sqrt`), so
nothing depends on their numeric values. For `sqrt`, the model assumes only
this: 0 maps to 0, a positive number maps to a positive root, and a negative
argument maps to a value that is not positive. (numpy returns NaN there, and
`NaN > 0` is false.) Where numpy would divide by zero and produce non-finite
coordinates, the cycloid functions return `None`.

The source checks neither for coincident or vertically aligned endpoints nor
for a non-positive step count or gravity; the model follows the code:

- `n_points == 0` divides by zero. This is the one precondition of
  `DescentTime` on the source's own arguments; the other one is the sign law
  for the `sqrt` parameter.
- A negative `n_points` runs no iteration, so the result is 0.
- `g <= 0` is accepted. Every segment off the floor then adds nothing.
- The parabola depth is the literal 2.0 in one file and 4 in the other. Both
  values are kept.

## Model

| member | source | states |
|---|---|---|
| FullDerivation.StraightLine | py/brachistochrone_full_derivation.py:34-37 | gives A at t = 0 and B at t = 1; third coordinate always 0; every point lies on the chord through A and B |
| FullDerivation.ParabolicPath | py/brachistochrone_full_derivation.py:40-43 | hits A at t = 0 and B at t = 1 (the sag vanishes at both ends); same x as the straight line at every t; third coordinate 0 |
| FullDerivation.ParabolaBelowChord | py/brachistochrone_full_derivation.py:34-43 | for t in [0, 1] and depth >= 0 the parabola has the line's x and a y at or below the line's y, equal exactly when depth = 0, t is 0 or 1, or y1 = y0 |
| FullDerivation.FlatParabolaIsLine | py/brachistochrone_full_derivation.py:40-43 | with depth 0 the parabola coincides with the straight line at every t |
| FullDerivation.CycloidPath | py/brachistochrone_full_derivation.py:46-48 | at theta = 0 returns A exactly through the guard, whatever the endpoints and sin/cos |
| FullDerivation.CycloidClosedForm | py/brachistochrone_full_derivation.py:49-56 | when the denominators are non-zero, the point at theta is A plus the fraction (theta - sin theta)/(2.5 - sin 2.5) of the x-run and (1 - cos theta)/(1 - cos 2.5) of the drop; the radius cancels |
| FullDerivation.CycloidFiniteIff | py/brachistochrone_full_derivation.py:46-56 | the formula is finite exactly when 2.5 - sin 2.5 != 0, x1 != x0 and cos 2.5 != 1; the curve is non-finite exactly when also theta != 0 |
| FullDerivation.CycloidReachesB | py/brachistochrone_full_derivation.py:49-55 | under those conditions `cycloid_path(2.5)` is B: x lands on x1 by the choice of r, y lands on y1 by the y_scale ratio |
| FullDerivation.CycloidGuardAgrees | py/brachistochrone_full_derivation.py:47-56 | under the non-degeneracy conditions (2.5 - sin 2.5 != 0, x1 != x0, cos 2.5 != 1) and given sin 0 = 0 and cos 0 = 1, the general formula at theta = 0 gives the same A the guard returns |
| FullDerivation.CycloidGuardNeeded | py/brachistochrone_full_derivation.py:46-56 | when those conditions fail, the general formula at theta = 0 is not finite while `cycloid_path(0)` still returns A, so there the guard does change the value |
| FullDerivation.SpeedCases | py/brachistochrone_full_derivation.py:71-72 | speed is the floor 0.001 when y_avg = 0; otherwise sqrt(2 g abs(y_avg)), which is positive exactly when g > 0 |
| FullDerivation.SegmentTimeCases | py/brachistochrone_full_derivation.py:66-74 | a segment adds ds / 0.001 when y_avg = 0, ds / v with v > 0 when g > 0, nothing when y_avg != 0 and g <= 0; never a negative amount |
| FullDerivation.PartialTimeNonNegative | py/brachistochrone_full_derivation.py:62-74 | the running total over any number of segments is non-negative |
| FullDerivation.SegmentsTile | py/brachistochrone_full_derivation.py:61-65 | for n_points >= 1 the first segment starts at t_start, the last ends at t_end, and each segment moves forward exactly when t_start < t_end |
| FullDerivation.SegmentTimePositive | py/brachistochrone_full_derivation.py:66-74 | with g > 0, a segment whose end points differ in x adds a positive time |
| FullDerivation.PartialTimePositive | py/brachistochrone_full_derivation.py:62-74 | with g > 0, if the curve's x after k segments differs from its x at t_start, the running total is positive |
| FullDerivation.DescentPositive | py/brachistochrone_full_derivation.py:59-75 | with n_points >= 1 and g > 0, a curve whose end lies at a different x from its start has a positive descent time |
| FullDerivation.DescentTime | py/brachistochrone_full_derivation.py:59-75 | the loop returns the in-order sum over segments [t_start + i dt, t_start + (i+1) dt], i in [0, n_points), of the per-segment time (0 for negative n_points); the result is >= 0, and > 0 when n_points >= 1, g > 0 and the curve ends at a different x from where it starts |
| FullDerivation.ShownTime | py/brachistochrone_full_derivation.py:579-581 | the value the results text formats for a run time (before rounding to three decimals), multiplied back by 1.5, is the run time |
| FullDerivation.DefaultCurvesSpan | py/brachistochrone_full_derivation.py:34-56 | with their default endpoints, and requiring the cycloid non-degeneracy `CycloidDefined(-4, 4, sin, cos)`, the line and the parabola run from x = -4 at t = 0 to x = 4 at t = 1, and the cycloid from x = -4 at theta = 0 to x = 4 at theta = 2.5 |
| FullDerivation.RaceRunTimes | py/brachistochrone_full_derivation.py:559-561 | each run time is 1.5 times the default descent time of its curve (100 steps, g = 9.8, [0, 1] or [0, 2.5]); the value the text formats is that physical time; all three are positive |
| Scene.NewProblem | py/brachistochrone_scene.py:25-29 | a missing start point defaults to (-4, 2, 0) and a missing end point to (4, -2, 0); an omitted gravity is 9.8; given points and gravity are stored unchanged |
| Scene.ParabolaFunc | py/brachistochrone_scene.py:96-101 | `parabola_func(0)` is A and `parabola_func(1)` is B (with z = 0) |
| Scene.ParabolaFuncIsParabolicPath | py/brachistochrone_scene.py:96-101 | `parabola_func` equals `parabolic_path` over the stored endpoints with depth 4 instead of 2.0 |
| Scene.ParabolaFuncBelowChord | py/brachistochrone_scene.py:98-100 | for t in [0, 1] and a non-vertical chord, the y of `parabola_func` is at or below the chord's height at the same x, equal only at the ends or for level A and B |
| Scene.CycloidFunc | py/brachistochrone_scene.py:112-114 | `cycloid_func(0)` returns A exactly through the guard |
| Scene.CycloidFuncIsCycloidPath | py/brachistochrone_scene.py:112-128 | `cycloid_func` agrees pointwise with `cycloid_path` for the same endpoints, angle, sin and cos, finite or not |
| Scene.CycloidFuncReachesB | py/brachistochrone_scene.py:116-126 | under the same non-degeneracy conditions `cycloid_func(2.5)` is B |
| Scene.DefaultProblemCurves | py/brachistochrone_scene.py:84-128 | a problem built without endpoints has the default A and B of the other file's curve functions, and its parabola and cycloid are those functions over these endpoints |

## Left out

- Every `Scene` subclass's `construct` body and every manim call (text,
  LaTeX, `ParametricFunction`, `MoveAlongPath`, `play`, `wait`, layout,
  colours). The manim `Line` used for the straight curve in
  py/brachistochrone_scene.py is a library object and is not modelled.
- The hard-coded `time_estimates` and `action_values` of
  py/brachistochrone_scene.py. They are display constants with no
  computation behind them. The same holds for the "FASTEST!" label, which is
  fixed text, not a computed ranking.
- py/equation_evaluation_scenes.py, emmy_manim_scenes.py and
  py/manim_examples.py. They contain only LaTeX templating and animation.
- The numeric race outcome: that the cycloid beats the line and the parabola,
  that the sum converges as steps are added, and that time scales as 1/sqrt(k)
  when gravity is multiplied by k. These depend on the real values of sin,
  cos and sqrt and on floating-point evaluation. The model treats those
  functions abstractly.
- IEEE rounding, and NaN/infinity arithmetic beyond "this coordinate would
  not be finite" (`None`). The sign law for `sqrt` covers the one place where
  a NaN speed matters.
- RaceRunTimes: requires `CycloidDefined(-4, 4, sin, cos)`, that is,
  2.5 - sin 2.5 != 0 and cos 2.5 != 1. This holds for the real sine and
  cosine (sin 2.5 ≈ 0.598, cos 2.5 ≈ -0.801), but it cannot be derived for
  abstract `sin` and `cos`. Without it the default cycloid is not a finite
  curve.
- ShownTime: the results text formats `time / 1.5` with `:.3f`; the model
  stops at the unrounded quotient, so 1.5 times the printed figure is the run
  time only up to that rounding.
- DescentTime: requires `n_points != 0`, because the source divides by zero
  there.
