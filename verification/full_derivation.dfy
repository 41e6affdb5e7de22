/**
  * The curve generators, the descent-time summation and the race timing of
  * py/brachistochrone_full_derivation.py, over mathematical reals.
  *
  * `np.sin`, `np.cos` and `np.sqrt` are not modelled by value: they are
  * parameters (`sin`, `cos`, `sqrt`), and `sqrt` is only assumed to satisfy
  * Geometry.SqrtLaws. The Python default arguments become the constants below.
  */
module FullDerivation {
  import opened Geometry

  /** Default endpoints A = (X0, Y0) and B = (X1, Y1) of every curve function. */
  const X0: real := -4.0
  const Y0: real := 2.0
  const X1: real := 4.0
  const Y1: real := -2.0

  /** Default sag factor of `parabolic_path`. */
  const DefaultDepth: real := 2.0

  /** The fixed rolling-angle range of the cycloid; the curve reaches B at this angle. */
  const ThetaMax: real := 2.5

  /** Defaults of `descent_time`. */
  const DefaultPoints: int := 100
  const DefaultGravity: real := 9.8

  /** Speed used for a segment whose average height is exactly zero. */
  const VelocityFloor: real := 0.001

  /** Factor by which the race stretches physical times into animation run times. */
  const DisplayScale: real := 1.5

  // ---------------------------------------------------------------------------
  // Curve generators
  // ---------------------------------------------------------------------------

  /** `straight_line`: linear interpolation from A to B as t goes from 0 to 1. */
  function StraightLine(t: real, x0: real, y0: real, x1: real, y1: real): (p: Point)
    ensures t == 0.0 ==> p == Point(x0, y0, 0.0)
    ensures t == 1.0 ==> p == Point(x1, y1, 0.0)
    ensures p.z == 0.0
    // every point lies on the chord through A and B
    ensures (p.x - x0) * (y1 - y0) == (p.y - y0) * (x1 - x0)
  {
    var x := x0 + t * (x1 - x0);
    var y := y0 + t * (y1 - y0);
    assert (x - x0) * (y1 - y0) == t * ((x1 - x0) * (y1 - y0));
    assert (y - y0) * (x1 - x0) == t * ((x1 - x0) * (y1 - y0));
    Point(x, y, 0.0)
  }

  /**
    * `parabolic_path`: the chord plus a sag `depth * t * (1 - t) * |y1 - y0|`
    * taken off the height, which vanishes at both ends.
    */
  function ParabolicPath(t: real, x0: real, y0: real, x1: real, y1: real, depth: real): (p: Point)
    ensures t == 0.0 ==> p == Point(x0, y0, 0.0)
    ensures t == 1.0 ==> p == Point(x1, y1, 0.0)
    ensures p.z == 0.0
    ensures p.x == StraightLine(t, x0, y0, x1, y1).x
  {
    var x := x0 + t * (x1 - x0);
    var y := y0 + t * (y1 - y0) - depth * t * (1.0 - t) * Abs(y1 - y0);
    Point(x, y, 0.0)
  }

  /** The sag the parabola takes off the chord's height at parameter t. */
  function Sag(t: real, y0: real, y1: real, depth: real): real
  {
    depth * t * (1.0 - t) * Abs(y1 - y0)
  }

  lemma ParabolaIsChordMinusSag(t: real, x0: real, y0: real, x1: real, y1: real, depth: real)
    ensures ParabolicPath(t, x0, y0, x1, y1, depth).y == StraightLine(t, x0, y0, x1, y1).y - Sag(t, y0, y1, depth)
  {
  }

  /** A product of two reals is zero exactly when a factor is. */
  lemma ProductZero(a: real, b: real)
    ensures a * b == 0.0 <==> a == 0.0 || b == 0.0
  {
  }

  /** On [0, 1] with a non-negative depth the sag is non-negative, and zero only in the listed cases. */
  lemma SagSign(t: real, y0: real, y1: real, depth: real)
    requires 0.0 <= t <= 1.0 && depth >= 0.0
    ensures Sag(t, y0, y1, depth) >= 0.0
    ensures Sag(t, y0, y1, depth) == 0.0 <==> depth == 0.0 || t == 0.0 || t == 1.0 || y1 == y0
  {
    var a, b, c := depth, t, 1.0 - t;
    var d := Abs(y1 - y0);
    assert a * b >= 0.0;
    assert a * b * c >= 0.0;
    assert a * b * c * d >= 0.0;
    ProductZero(a, b);
    ProductZero(a * b, c);
    ProductZero(a * b * c, d);
    assert d == 0.0 <==> y1 == y0;
  }

  /**
    * For t in [0, 1] and a non-negative depth the parabola never rises above
    * the chord, and it touches the chord only at the ends, for a flat chord or
    * for depth 0.
    */
  lemma {:induction false} ParabolaBelowChord(t: real, x0: real, y0: real, x1: real, y1: real, depth: real)
    requires 0.0 <= t <= 1.0 && depth >= 0.0
    ensures ParabolicPath(t, x0, y0, x1, y1, depth).x == StraightLine(t, x0, y0, x1, y1).x
    ensures ParabolicPath(t, x0, y0, x1, y1, depth).y <= StraightLine(t, x0, y0, x1, y1).y
    ensures ParabolicPath(t, x0, y0, x1, y1, depth).y == StraightLine(t, x0, y0, x1, y1).y
        <==> depth == 0.0 || t == 0.0 || t == 1.0 || y1 == y0
  {
    ParabolaIsChordMinusSag(t, x0, y0, x1, y1, depth);
    SagSign(t, y0, y1, depth);
  }

  /** With depth 0 the parabola is the straight line, at every t. */
  lemma FlatParabolaIsLine(t: real, x0: real, y0: real, x1: real, y1: real)
    ensures ParabolicPath(t, x0, y0, x1, y1, 0.0) == StraightLine(t, x0, y0, x1, y1)
  {
  }

  /**
    * When the cycloid formula is finite: the radius denominator
    * `theta_max - sin(theta_max)` is non-zero, and the raw drop to the end
    * `y_end - y0 = -r * (1 - cos(theta_max))` is non-zero, i.e. x1 != x0 and
    * cos(theta_max) != 1.
    */
  ghost predicate CycloidDefined(x0: real, x1: real, sin: real -> real, cos: real -> real)
  {
    ThetaMax - sin(ThetaMax) != 0.0 && x1 != x0 && cos(ThetaMax) != 1.0
  }

  /**
    * The general branch of `cycloid_path`: a raw cycloid of radius r, chosen
    * so that the x-run over [0, ThetaMax] is x1 - x0, whose height is then
    * rescaled so that ThetaMax lands on y1. None where numpy would divide by
    * zero and produce non-finite coordinates.
    */
  function CycloidFormula(theta: real, x0: real, y0: real, x1: real, y1: real,
                          sin: real -> real, cos: real -> real): Option<Point>
  {
    var rDenominator := ThetaMax - sin(ThetaMax);
    if rDenominator == 0.0 then None
    else
      var r := (x1 - x0) / rDenominator;
      var x := x0 + r * (theta - sin(theta));
      var yRaw := y0 - r * (1.0 - cos(theta));
      var yEnd := y0 - r * (1.0 - cos(ThetaMax));
      if yEnd - y0 == 0.0 then None
      else
        var yScale := (y1 - y0) / (yEnd - y0);
        var y := y0 + (yRaw - y0) * yScale;
        Some(Point(x, y, 0.0))
  }

  /** `cycloid_path`: returns A at theta = 0 through the explicit guard. */
  function CycloidPath(theta: real, x0: real, y0: real, x1: real, y1: real,
                       sin: real -> real, cos: real -> real): (r: Option<Point>)
    ensures theta == 0.0 ==> r == Some(Point(x0, y0, 0.0))
  {
    if theta == 0.0 then Some(Point(x0, y0, 0.0))
    else CycloidFormula(theta, x0, y0, x1, y1, sin, cos)
  }

  /** x0 + (run / den) * s == x0 + (s / den) * run: the x-run fraction does not depend on how r is formed. */
  lemma RunFraction(x0: real, run: real, den: real, s: real)
    requires den != 0.0
    ensures x0 + (run / den) * s == x0 + (s / den) * run
  {

  }

  /** Rescaling the raw drop -r * c by drop / (-r * cEnd) gives the fraction c / cEnd of the drop. */
  lemma DropFraction(y0: real, drop: real, r: real, c: real, cEnd: real)
    requires r != 0.0 && cEnd != 0.0
    ensures (y0 - r * c) - y0 == (-r) * c
    ensures (y0 - r * cEnd) - y0 == (-r) * cEnd
    ensures (-r) * cEnd != 0.0
    ensures y0 + ((y0 - r * c) - y0) * (drop / ((y0 - r * cEnd) - y0)) == y0 + (c / cEnd) * drop
  {

  }

  /** Under CycloidDefined the radius (x1 - x0) / (ThetaMax - sin ThetaMax) is non-zero. */
  lemma RadiusNonZero(x0: real, x1: real, den: real)
    requires den != 0.0 && x1 != x0
    ensures (x1 - x0) / den != 0.0
  {

  }

  /**
    * The cycloid is the unit cycloid rescaled onto the chord: the fraction of
    * the x-run done at theta is (theta - sin theta) / (ThetaMax - sin ThetaMax),
    * and the fraction of the drop is (1 - cos theta) / (1 - cos ThetaMax),
    * whatever the radius.
    */
  lemma {:induction false} CycloidClosedForm(theta: real, x0: real, y0: real, x1: real, y1: real,
                                             sin: real -> real, cos: real -> real)
    requires CycloidDefined(x0, x1, sin, cos)
    ensures CycloidFormula(theta, x0, y0, x1, y1, sin, cos)
         == Some(Point(x0 + (theta - sin(theta)) / (ThetaMax - sin(ThetaMax)) * (x1 - x0),
                       y0 + (1.0 - cos(theta)) / (1.0 - cos(ThetaMax)) * (y1 - y0),
                       0.0))
  {
    var den := ThetaMax - sin(ThetaMax);
    var r := (x1 - x0) / den;
    RadiusNonZero(x0, x1, den);
    DropFraction(y0, y1 - y0, r, 1.0 - cos(theta), 1.0 - cos(ThetaMax));
    RunFraction(x0, x1 - x0, den, theta - sin(theta));
    var f := CycloidFormula(theta, x0, y0, x1, y1, sin, cos);
    assert f.Some?;
    assert f.value.z == 0.0;
    assert f.value.x == x0 + (theta - sin(theta)) / (ThetaMax - sin(ThetaMax)) * (x1 - x0);
    assert f.value.y == y0 + (1.0 - cos(theta)) / (1.0 - cos(ThetaMax)) * (y1 - y0);
  }

  /**
    * The general formula is finite exactly in the non-degenerate case, so
    * `cycloid_path` produces non-finite coordinates exactly when theta != 0
    * and the endpoints or sin/cos at ThetaMax are degenerate.
    */
  lemma {:induction false} CycloidFiniteIff(theta: real, x0: real, y0: real, x1: real, y1: real,
                                            sin: real -> real, cos: real -> real)
    ensures CycloidFormula(theta, x0, y0, x1, y1, sin, cos).Some? <==> CycloidDefined(x0, x1, sin, cos)
    ensures CycloidPath(theta, x0, y0, x1, y1, sin, cos).None?
        <==> theta != 0.0 && !CycloidDefined(x0, x1, sin, cos)
  {
    var den := ThetaMax - sin(ThetaMax);
    if den != 0.0 {
      var r := (x1 - x0) / den;
      assert x1 - x0 == r * den;
      var cEnd := 1.0 - cos(ThetaMax);
      assert (y0 - r * cEnd) - y0 == -(r * cEnd);
      assert r * cEnd == 0.0 <==> r == 0.0 || cEnd == 0.0;
    }
  }

  /** The whole of a run: (m / m) * s == s. */
  lemma WholeFraction(m: real, s: real)
    requires m != 0.0
    ensures (m / m) * s == s
  {

  }

  /** With x1 != x0 and non-zero denominators the cycloid reaches B at ThetaMax. */
  lemma {:induction false} CycloidReachesB(x0: real, y0: real, x1: real, y1: real,
                                           sin: real -> real, cos: real -> real)
    requires CycloidDefined(x0, x1, sin, cos)
    ensures CycloidPath(ThetaMax, x0, y0, x1, y1, sin, cos) == Some(Point(x1, y1, 0.0))
  {
    CycloidClosedForm(ThetaMax, x0, y0, x1, y1, sin, cos);
    var den, cEnd := ThetaMax - sin(ThetaMax), 1.0 - cos(ThetaMax);
    var f := CycloidFormula(ThetaMax, x0, y0, x1, y1, sin, cos);
    assert f.value.x == x0 + den / den * (x1 - x0);
    assert f.value.y == y0 + cEnd / cEnd * (y1 - y0);
    WholeFraction(den, x1 - x0);
    WholeFraction(cEnd, y1 - y0);
    assert f.Some?;
    assert f.value.x == x1;
    assert f.value.y == y1;
    assert f.value.z == 0.0;
    assert f == Some(Point(x1, y1, 0.0));
    assert CycloidPath(ThetaMax, x0, y0, x1, y1, sin, cos) == f;
  }

  /**
    * In the non-degenerate case (2.5 - sin 2.5 != 0, x1 != x0 and
    * cos 2.5 != 1), and given sin 0 = 0 and cos 0 = 1, the guard at theta = 0
    * agrees with what the general formula gives there over exact reals: there
    * the guard changes no value. In the degenerate case it does, see
    * CycloidGuardNeeded.
    */
  lemma {:induction false} CycloidGuardAgrees(x0: real, y0: real, x1: real, y1: real,
                                              sin: real -> real, cos: real -> real)
    requires CycloidDefined(x0, x1, sin, cos)
    requires sin(0.0) == 0.0 && cos(0.0) == 1.0
    ensures CycloidFormula(0.0, x0, y0, x1, y1, sin, cos) == CycloidPath(0.0, x0, y0, x1, y1, sin, cos)
  {
    CycloidClosedForm(0.0, x0, y0, x1, y1, sin, cos);
    var den, cEnd := ThetaMax - sin(ThetaMax), 1.0 - cos(ThetaMax);
    var f := CycloidFormula(0.0, x0, y0, x1, y1, sin, cos);
    assert 0.0 - sin(0.0) == 0.0 && 1.0 - cos(0.0) == 0.0;
    assert f == Some(Point(x0 + (0.0 / den) * (x1 - x0), y0 + (0.0 / cEnd) * (y1 - y0), 0.0));
    assert (0.0 / den) * (x1 - x0) == 0.0;
    assert (0.0 / cEnd) * (y1 - y0) == 0.0;
    assert f == Some(Point(x0, y0, 0.0));
  }

  /**
    * In the degenerate case the guard is what keeps theta = 0 finite: the
    * general formula divides by zero there too, while `cycloid_path` returns A.
    */
  lemma {:induction false} CycloidGuardNeeded(x0: real, y0: real, x1: real, y1: real,
                                              sin: real -> real, cos: real -> real)
    requires !CycloidDefined(x0, x1, sin, cos)
    ensures CycloidFormula(0.0, x0, y0, x1, y1, sin, cos) == None
    ensures CycloidPath(0.0, x0, y0, x1, y1, sin, cos) == Some(Point(x0, y0, 0.0))
  {
    CycloidFiniteIff(0.0, x0, y0, x1, y1, sin, cos);
  }

  // ---------------------------------------------------------------------------
  // Descent time
  // ---------------------------------------------------------------------------

  /** Euclidean length `sqrt(dx**2 + dy**2)` of a step (dx, dy). */
  function Hypot(dx: real, dy: real, sqrt: real -> real): real
  {
    sqrt(dx * dx + dy * dy)
  }

  /** Length `ds` of the straight step from p1 to p2. */
  function StepLength(p1: Point, p2: Point, sqrt: real -> real): real
  {
    Hypot(p2.x - p1.x, p2.y - p1.y, sqrt)
  }

  /** Two-point average height `y_avg` of a segment. */
  function AverageHeight(p1: Point, p2: Point): real
  {
    (p1.y + p2.y) / 2.0
  }

  /** Energy-conservation speed `sqrt(2 g |y_avg|)`, or the floor when y_avg is exactly 0. */
  function Speed(g: real, yAvg: real, sqrt: real -> real): real
  {
    if yAvg != 0.0 then sqrt(2.0 * g * Abs(yAvg)) else VelocityFloor
  }

  /** Time `ds / v` spent on the segment [t1, t2]; nothing when v is not positive. */
  function SegmentTime(curve: real -> Point, t1: real, t2: real, g: real, sqrt: real -> real): real
  {
    var p1 := curve(t1);
    var p2 := curve(t2);
    var ds := StepLength(p1, p2, sqrt);
    var v := Speed(g, AverageHeight(p1, p2), sqrt);
    if v > 0.0 then ds / v else 0.0
  }

  /** Start `t_start + i * dt` of segment i. */
  function SegmentStart(tStart: real, dt: real, i: int): real
  {
    tStart + (i as real) * dt
  }

  /** Sum of the first k segment times, accumulated in increasing parameter order. */
  function PartialTime(curve: real -> Point, tStart: real, dt: real, k: nat, g: real, sqrt: real -> real): real
  {
    if k == 0 then 0.0
    else PartialTime(curve, tStart, dt, k - 1, g, sqrt)
         + SegmentTime(curve, SegmentStart(tStart, dt, k - 1), SegmentStart(tStart, dt, k), g, sqrt)
  }

  /** The step `dt` of `descent_time`. */
  function Step(tStart: real, tEnd: real, nPoints: int): real
    requires nPoints != 0
  {
    (tEnd - tStart) / (nPoints as real)
  }

  /**
    * The value `descent_time` returns: the sum over the nPoints segments; a
    * negative count leaves `range(n_points)` empty and the sum 0.
    */
  function DescentSum(curve: real -> Point, tStart: real, tEnd: real, nPoints: int, g: real, sqrt: real -> real): real
    requires nPoints != 0
  {
    if nPoints < 0 then 0.0 else PartialTime(curve, tStart, Step(tStart, tEnd, nPoints), nPoints, g, sqrt)
  }

  /**
    * The speed rule: the floor 0.001 when the average height is exactly 0;
    * otherwise sqrt(2 g |y_avg|), positive when g > 0 and not positive
    * (0, or NaN for a negative argument) when g <= 0.
    */
  lemma SpeedCases(g: real, yAvg: real, sqrt: real -> real)
    requires SqrtLaws(sqrt)
    ensures yAvg == 0.0 ==> Speed(g, yAvg, sqrt) == VelocityFloor
    ensures yAvg != 0.0 ==> Speed(g, yAvg, sqrt) == sqrt(2.0 * g * Abs(yAvg))
    ensures yAvg != 0.0 ==> (Speed(g, yAvg, sqrt) > 0.0 <==> g > 0.0)
  {
    if yAvg != 0.0 {
      var arg := 2.0 * g * Abs(yAvg);
      assert Abs(yAvg) > 0.0;
      assert arg > 0.0 <==> g > 0.0;
      assert SqrtLawAt(sqrt, arg);
    }
  }

  /**
    * What one segment contributes: ds / 0.001 when its average height is
    * exactly 0; ds / v with a positive speed v when g > 0; nothing when
    * y_avg != 0 and g <= 0 (the computed speed is 0 or NaN). In every case
    * the contribution is non-negative.
    */
  lemma SegmentTimeCases(curve: real -> Point, t1: real, t2: real, g: real, sqrt: real -> real)
    requires SqrtLaws(sqrt)
    ensures SegmentTime(curve, t1, t2, g, sqrt) >= 0.0
    ensures AverageHeight(curve(t1), curve(t2)) == 0.0 ==>
      SegmentTime(curve, t1, t2, g, sqrt) == StepLength(curve(t1), curve(t2), sqrt) / VelocityFloor
    ensures AverageHeight(curve(t1), curve(t2)) != 0.0 && g > 0.0 ==>
      Speed(g, AverageHeight(curve(t1), curve(t2)), sqrt) > 0.0 &&
      SegmentTime(curve, t1, t2, g, sqrt)
        == StepLength(curve(t1), curve(t2), sqrt) / Speed(g, AverageHeight(curve(t1), curve(t2)), sqrt)
    ensures AverageHeight(curve(t1), curve(t2)) != 0.0 && g <= 0.0 ==>
      SegmentTime(curve, t1, t2, g, sqrt) == 0.0
  {
    var p1, p2 := curve(t1), curve(t2);
    var ds := StepLength(p1, p2, sqrt);
    var v := Speed(g, AverageHeight(p1, p2), sqrt);
    SpeedCases(g, AverageHeight(p1, p2), sqrt);
    StepLengthNonNegative(p1, p2, sqrt);
    if v > 0.0 {
      assert ds / v >= 0.0;
    }
  }

  lemma StepLengthNonNegative(p1: Point, p2: Point, sqrt: real -> real)
    requires SqrtLaws(sqrt)
    ensures StepLength(p1, p2, sqrt) >= 0.0
  {
    HypotNonNegative(p2.x - p1.x, p2.y - p1.y, sqrt);
  }

  lemma HypotNonNegative(dx: real, dy: real, sqrt: real -> real)
    requires SqrtLaws(sqrt)
    ensures Hypot(dx, dy, sqrt) >= 0.0
  {
    assert dx * dx >= 0.0;
    assert dy * dy >= 0.0;
    assert SqrtLawAt(sqrt, dx * dx + dy * dy);
  }

  lemma HypotPositive(dx: real, dy: real, sqrt: real -> real)
    requires SqrtLaws(sqrt)
    requires dx != 0.0
    ensures Hypot(dx, dy, sqrt) > 0.0
  {
    assert dx * dx > 0.0;
    assert dy * dy >= 0.0;
    assert SqrtLawAt(sqrt, dx * dx + dy * dy);
  }

  /** The running total never goes negative. */
  lemma {:induction false} PartialTimeNonNegative(curve: real -> Point, tStart: real, dt: real, k: nat, g: real, sqrt: real -> real)
    requires SqrtLaws(sqrt)
    ensures PartialTime(curve, tStart, dt, k, g, sqrt) >= 0.0
  {
    if k > 0 {
      PartialTimeNonNegative(curve, tStart, dt, k - 1, g, sqrt);
      SegmentTimeCases(curve, SegmentStart(tStart, dt, k - 1), SegmentStart(tStart, dt, k), g, sqrt);
    }
  }

  /**
    * A segment whose two end points differ in x takes a positive time when
    * g > 0: its length is positive, and so is its speed (the floor or a root
    * of a positive number).
    */
  lemma SegmentTimePositive(curve: real -> Point, t1: real, t2: real, g: real, sqrt: real -> real)
    requires SqrtLaws(sqrt)
    requires g > 0.0
    requires curve(t1).x != curve(t2).x
    ensures SegmentTime(curve, t1, t2, g, sqrt) > 0.0
  {
    var p1, p2 := curve(t1), curve(t2);
    HypotPositive(p2.x - p1.x, p2.y - p1.y, sqrt);
    SpeedCases(g, AverageHeight(p1, p2), sqrt);
  }

  /**
    * If the curve's x after k segments differs from its x at the start, some
    * segment on the way moved in x, so with g > 0 the running total is positive.
    */
  lemma {:induction false} PartialTimePositive(curve: real -> Point, tStart: real, dt: real, k: nat, g: real, sqrt: real -> real)
    requires SqrtLaws(sqrt)
    requires g > 0.0
    requires curve(SegmentStart(tStart, dt, k)).x != curve(SegmentStart(tStart, dt, 0)).x
    ensures PartialTime(curve, tStart, dt, k, g, sqrt) > 0.0
  {
    var a, b := SegmentStart(tStart, dt, k - 1), SegmentStart(tStart, dt, k);
    if curve(a).x != curve(b).x {
      SegmentTimePositive(curve, a, b, g, sqrt);
      PartialTimeNonNegative(curve, tStart, dt, k - 1, g, sqrt);
    } else {
      PartialTimePositive(curve, tStart, dt, k - 1, g, sqrt);
      SegmentTimeCases(curve, a, b, g, sqrt);
    }
  }

  /**
    * With at least one segment and g > 0, a curve whose end lies at a
    * different x from its start takes a positive descent time.
    */
  lemma {:induction false} DescentPositive(curve: real -> Point, tStart: real, tEnd: real, nPoints: int, g: real, sqrt: real -> real)
    requires SqrtLaws(sqrt)
    requires nPoints >= 1 && g > 0.0
    requires curve(tEnd).x != curve(tStart).x
    ensures DescentSum(curve, tStart, tEnd, nPoints, g, sqrt) > 0.0
  {
    var dt := Step(tStart, tEnd, nPoints);
    SegmentsTile(tStart, tEnd, nPoints, 0);
    PartialTimePositive(curve, tStart, dt, nPoints, g, sqrt);
  }

  /**
    * The segments tile [tStart, tEnd]: the first starts at tStart, each ends
    * where the next starts, and the last ends at tEnd.
    */
  lemma SegmentsTile(tStart: real, tEnd: real, nPoints: int, i: int)
    requires nPoints > 0 && 0 <= i < nPoints
    ensures SegmentStart(tStart, Step(tStart, tEnd, nPoints), 0) == tStart
    ensures SegmentStart(tStart, Step(tStart, tEnd, nPoints), nPoints) == tEnd
    ensures SegmentStart(tStart, Step(tStart, tEnd, nPoints), i) < SegmentStart(tStart, Step(tStart, tEnd, nPoints), i + 1)
        <==> tStart < tEnd
  {

  }

  /**
    * One iteration of the loop of `descent_time`: adding ds / v for segment i
    * when v > 0, and nothing otherwise, turns the total of i segments into
    * the total of i + 1.
    */
  lemma LoopStep(curve: real -> Point, tStart: real, dt: real, i: nat, g: real, sqrt: real -> real,
                 total: real, p1: Point, p2: Point, ds: real, v: real)
    requires total == PartialTime(curve, tStart, dt, i, g, sqrt)
    requires p1 == curve(tStart + (i as real) * dt)
    requires p2 == curve(tStart + ((i + 1) as real) * dt)
    requires ds == Hypot(p2.x - p1.x, p2.y - p1.y, sqrt)
    requires v == Speed(g, (p1.y + p2.y) / 2.0, sqrt)
    ensures v > 0.0 ==> total + ds / v == PartialTime(curve, tStart, dt, i + 1, g, sqrt)
    ensures v <= 0.0 ==> total == PartialTime(curve, tStart, dt, i + 1, g, sqrt)
  {
    var t1, t2 := SegmentStart(tStart, dt, i), SegmentStart(tStart, dt, i + 1);
    var seg := SegmentTime(curve, t1, t2, g, sqrt);
    assert PartialTime(curve, tStart, dt, i + 1, g, sqrt) == total + seg;
    assert curve(t1) == p1 && curve(t2) == p2;
    assert StepLength(p1, p2, sqrt) == ds;
    assert Speed(g, AverageHeight(p1, p2), sqrt) == v;
    assert seg == if v > 0.0 then ds / v else 0.0;
  }

  /**
    * `descent_time`: walks the nPoints segments in order and accumulates
    * ds / v, exactly as DescentSum specifies; the total is never negative.
    * `n_points == 0` divides by zero in the source and is excluded.
    */
  method DescentTime(curve: real -> Point, tStart: real, tEnd: real, nPoints: int, g: real, sqrt: real -> real)
    returns (totalTime: real)
    requires nPoints != 0
    requires SqrtLaws(sqrt)
    ensures totalTime == DescentSum(curve, tStart, tEnd, nPoints, g, sqrt)
    ensures totalTime >= 0.0
    ensures nPoints >= 1 && g > 0.0 && curve(tEnd).x != curve(tStart).x ==> totalTime > 0.0
  {
    var dt := (tEnd - tStart) / (nPoints as real);
    totalTime := 0.0;
    var i := 0;
    while i < nPoints
      invariant 0 <= i && (i <= nPoints || i == 0)
      invariant totalTime == PartialTime(curve, tStart, dt, i, g, sqrt)
    {
      var t1 := tStart + (i as real) * dt;
      var t2 := tStart + ((i + 1) as real) * dt;
      var p1 := curve(t1);
      var p2 := curve(t2);
      var dx := p2.x - p1.x;
      var dy := p2.y - p1.y;
      var ds := Hypot(dx, dy, sqrt);
      var yAvg := (p1.y + p2.y) / 2.0;
      var v := Speed(g, yAvg, sqrt);
      LoopStep(curve, tStart, dt, i, g, sqrt, totalTime, p1, p2, ds, v);
      if v > 0.0 {
        totalTime := totalTime + ds / v;
      }
      i := i + 1;
    }
    PartialTimeNonNegative(curve, tStart, dt, i, g, sqrt);
    if nPoints >= 1 && g > 0.0 && curve(tEnd).x != curve(tStart).x {
      DescentPositive(curve, tStart, tEnd, nPoints, g, sqrt);
    }
  }

  // ---------------------------------------------------------------------------
  // The race scene
  // ---------------------------------------------------------------------------

  /** `straight_line` with its default endpoints. */
  function DefaultStraight(t: real): Point
  {
    StraightLine(t, X0, Y0, X1, Y1)
  }

  /** `parabolic_path` with its default endpoints and depth 2.0. */
  function DefaultParabola(t: real): Point
  {
    ParabolicPath(t, X0, Y0, X1, Y1, DefaultDepth)
  }

  /** `cycloid_path` with its default endpoints, as a curve; finite only in the non-degenerate case. */
  function DefaultCycloid(sin: real -> real, cos: real -> real): real -> Point
    requires CycloidDefined(X0, X1, sin, cos)
  {
    theta =>
      CycloidFiniteIff(theta, X0, Y0, X1, Y1, sin, cos);
      CycloidPath(theta, X0, Y0, X1, Y1, sin, cos).value
  }

  /**
    * Each default curve starts at A's x = -4 and ends at B's x = 4 over its
    * parameter range, so each one moves in x and takes a positive time.
    */
  lemma DefaultCurvesSpan(sin: real -> real, cos: real -> real)
    requires CycloidDefined(X0, X1, sin, cos)
    ensures DefaultStraight(0.0).x == X0 && DefaultStraight(1.0).x == X1
    ensures DefaultParabola(0.0).x == X0 && DefaultParabola(1.0).x == X1
    ensures DefaultCycloid(sin, cos)(0.0).x == X0 && DefaultCycloid(sin, cos)(ThetaMax).x == X1
  {
    CycloidReachesB(X0, Y0, X1, Y1, sin, cos);
  }

  /**
    * The value the results text divides out of an animation run time before
    * formatting it to three decimals; the rounding is not modelled.
    */
  function ShownTime(runTime: real): (t: real)
    ensures DisplayScale * t == runTime
  {
    runTime / DisplayScale
  }

  /**
    * The race: each curve's default descent time (100 steps, g = 9.8, over
    * [0, 1] for the line and parabola and [0, ThetaMax] for the cycloid),
    * stretched by DisplayScale into a run time; the text formats the
    * physical time again. Every time is positive: each curve ends at a
    * different x from where it starts.
    */
  method RaceRunTimes(sin: real -> real, cos: real -> real, sqrt: real -> real)
    returns (timeS: real, timeP: real, timeC: real)
    requires SqrtLaws(sqrt)
    requires CycloidDefined(X0, X1, sin, cos)
    ensures timeS == DisplayScale * DescentSum(DefaultStraight, 0.0, 1.0, DefaultPoints, DefaultGravity, sqrt)
    ensures timeP == DisplayScale * DescentSum(DefaultParabola, 0.0, 1.0, DefaultPoints, DefaultGravity, sqrt)
    ensures timeC == DisplayScale * DescentSum(DefaultCycloid(sin, cos), 0.0, ThetaMax, DefaultPoints, DefaultGravity, sqrt)
    ensures ShownTime(timeS) == DescentSum(DefaultStraight, 0.0, 1.0, DefaultPoints, DefaultGravity, sqrt)
    ensures ShownTime(timeP) == DescentSum(DefaultParabola, 0.0, 1.0, DefaultPoints, DefaultGravity, sqrt)
    ensures ShownTime(timeC) == DescentSum(DefaultCycloid(sin, cos), 0.0, ThetaMax, DefaultPoints, DefaultGravity, sqrt)
    ensures timeS > 0.0 && timeP > 0.0 && timeC > 0.0
  {
    DefaultCurvesSpan(sin, cos);
    var s := DescentTime(DefaultStraight, 0.0, 1.0, DefaultPoints, DefaultGravity, sqrt);
    var p := DescentTime(DefaultParabola, 0.0, 1.0, DefaultPoints, DefaultGravity, sqrt);
    var c := DescentTime(DefaultCycloid(sin, cos), 0.0, ThetaMax, DefaultPoints, DefaultGravity, sqrt);
    timeS, timeP, timeC := s * DisplayScale, p * DisplayScale, c * DisplayScale;
  }
}
