/**
  * The computational part of py/brachistochrone_scene.py: the endpoint
  * defaults that `BrachistochroneProblem.__init__` stores, and the two curve
  * closures `parabola_func` and `cycloid_func` that `create_curves` builds
  * over the stored endpoints. Both closures duplicate formulas of
  * py/brachistochrone_full_derivation.py; the lemmas below relate the copies.
  */
module Scene {
  import opened Geometry
  import FullDerivation

  /** Endpoints used when the caller passes none. */
  const DefaultStart: Point := Point(-4.0, 2.0, 0.0)
  const DefaultEnd: Point := Point(4.0, -2.0, 0.0)

  /** Sag factor hard-wired into `parabola_func`. */
  const SceneDepth: real := 4.0

  /** The configuration a `BrachistochroneProblem` stores once: A, B and gravity. */
  datatype Problem = Problem(startPoint: Point, endPoint: Point, g: real)

  /**
    * `BrachistochroneProblem.__init__`: a missing endpoint (None) takes its
    * default; an omitted gravity argument (None here) takes 9.8, the same
    * default `descent_time` uses for g.
    */
  function NewProblem(startPoint: Option<Point>, endPoint: Option<Point>, gravity: Option<real>): (p: Problem)
    ensures startPoint.Some? ==> p.startPoint == startPoint.value
    ensures startPoint.None? ==> p.startPoint == DefaultStart
    ensures endPoint.Some? ==> p.endPoint == endPoint.value
    ensures endPoint.None? ==> p.endPoint == DefaultEnd
    ensures gravity.Some? ==> p.g == gravity.value
    ensures gravity.None? ==> p.g == FullDerivation.DefaultGravity
  {
    Problem(if startPoint.Some? then startPoint.value else DefaultStart,
            if endPoint.Some? then endPoint.value else DefaultEnd,
            if gravity.Some? then gravity.value else FullDerivation.DefaultGravity)
  }

  /** `parabola_func`: the chord from A to B dipped by `SceneDepth * t * (1 - t) * |y1 - y0|`, with the literal 4. */
  function ParabolaFunc(p: Problem, t: real): (q: Point)
    ensures t == 0.0 ==> q == Point(p.startPoint.x, p.startPoint.y, 0.0)
    ensures t == 1.0 ==> q == Point(p.endPoint.x, p.endPoint.y, 0.0)
    ensures q.z == 0.0
  {
    var x0, y0 := p.startPoint.x, p.startPoint.y;
    var x1, y1 := p.endPoint.x, p.endPoint.y;
    var x := x0 + t * (x1 - x0);
    var y := y0 + t * (y1 - y0) - SceneDepth * t * (1.0 - t) * Abs(y1 - y0);
    Point(x, y, 0.0)
  }

  /**
    * `cycloid_func`: A at theta = 0 through the guard; otherwise the raw
    * cycloid with x-run matched to the chord, its height rescaled to end on
    * y1 at theta = 2.5. None where numpy would divide by zero.
    */
  function CycloidFunc(p: Problem, theta: real, sin: real -> real, cos: real -> real): (q: Option<Point>)
    ensures theta == 0.0 ==> q == Some(Point(p.startPoint.x, p.startPoint.y, 0.0))
  {
    var x0, y0 := p.startPoint.x, p.startPoint.y;
    var x1, y1 := p.endPoint.x, p.endPoint.y;
    if theta == 0.0 then Some(Point(x0, y0, 0.0))
    else
      var thetaMax := 2.5;
      var rDenominator := thetaMax - sin(thetaMax);
      if rDenominator == 0.0 then None
      else
        var r := (x1 - x0) / rDenominator;
        var x := x0 + r * (theta - sin(theta));
        var yCycloid := y0 - r * (1.0 - cos(theta));
        var yCycloidEnd := y0 - r * (1.0 - cos(thetaMax));
        if yCycloidEnd - y0 == 0.0 then None
        else
          var yScale := (y1 - y0) / (yCycloidEnd - y0);
          var y := y0 + (yCycloid - y0) * yScale;
          Some(Point(x, y, 0.0))
  }

  /** `parabola_func` is `parabolic_path` over the stored endpoints with depth 4 instead of the default 2. */
  lemma ParabolaFuncIsParabolicPath(p: Problem, t: real)
    ensures ParabolaFunc(p, t)
         == FullDerivation.ParabolicPath(t, p.startPoint.x, p.startPoint.y, p.endPoint.x, p.endPoint.y, SceneDepth)
  {
  }

  /** Height of the chord AB above the abscissa x (needs a non-vertical chord). */
  function ChordHeightAt(p: Problem, x: real): real
    requires p.endPoint.x != p.startPoint.x
  {
    p.startPoint.y + (x - p.startPoint.x) / (p.endPoint.x - p.startPoint.x) * (p.endPoint.y - p.startPoint.y)
  }

  /** (t * w) / w == t. */
  lemma ScaledRun(t: real, w: real)
    requires w != 0.0
    ensures (t * w) / w == t
  {
  }

  /**
    * For t in [0, 1], `parabola_func` lies on or below the chord at the same
    * abscissa, and on it only at the ends or when A and B are level.
    */
  lemma {:induction false} ParabolaFuncBelowChord(p: Problem, t: real)
    requires 0.0 <= t <= 1.0
    requires p.endPoint.x != p.startPoint.x
    ensures ParabolaFunc(p, t).y <= ChordHeightAt(p, ParabolaFunc(p, t).x)
    ensures ParabolaFunc(p, t).y == ChordHeightAt(p, ParabolaFunc(p, t).x)
        <==> t == 0.0 || t == 1.0 || p.endPoint.y == p.startPoint.y
  {
    var x0, y0 := p.startPoint.x, p.startPoint.y;
    var x1, y1 := p.endPoint.x, p.endPoint.y;
    var q := ParabolaFunc(p, t);
    ParabolaFuncIsParabolicPath(p, t);
    FullDerivation.ParabolaBelowChord(t, x0, y0, x1, y1, SceneDepth);
    var line := FullDerivation.StraightLine(t, x0, y0, x1, y1);
    assert q.x - x0 == t * (x1 - x0);
    ScaledRun(t, x1 - x0);
    assert (q.x - x0) / (x1 - x0) == t;
    assert ChordHeightAt(p, q.x) == y0 + t * (y1 - y0);
    assert ChordHeightAt(p, q.x) == line.y;
  }

  /** `cycloid_func` agrees with `cycloid_path` for the same endpoints and angle. */
  lemma CycloidFuncIsCycloidPath(p: Problem, theta: real, sin: real -> real, cos: real -> real)
    ensures CycloidFunc(p, theta, sin, cos)
         == FullDerivation.CycloidPath(theta, p.startPoint.x, p.startPoint.y, p.endPoint.x, p.endPoint.y, sin, cos)
  {
    var x0, y0 := p.startPoint.x, p.startPoint.y;
    var x1, y1 := p.endPoint.x, p.endPoint.y;
    if theta != 0.0 {
      assert FullDerivation.ThetaMax == 2.5;
      var den := 2.5 - sin(2.5);
      assert den == FullDerivation.ThetaMax - sin(FullDerivation.ThetaMax);
      if den != 0.0 {
        var r := (x1 - x0) / den;
        var cEnd := 1.0 - cos(2.5);
        assert cEnd == 1.0 - cos(FullDerivation.ThetaMax);
        var yEnd := y0 - r * cEnd;
        assert yEnd == y0 - r * (1.0 - cos(FullDerivation.ThetaMax));
        if yEnd - y0 != 0.0 {
          var x := x0 + r * (theta - sin(theta));
          var y := y0 + ((y0 - r * (1.0 - cos(theta))) - y0) * ((y1 - y0) / (yEnd - y0));
          var c := CycloidFunc(p, theta, sin, cos);
          assert c.Some?;
          assert c.value.x == x;
          assert c.value.y == y;
          assert CycloidFunc(p, theta, sin, cos) == Some(Point(x, y, 0.0));
          var f := FullDerivation.CycloidFormula(theta, x0, y0, x1, y1, sin, cos);
          assert f.Some?;
          assert f.value.x == x;
          assert f.value.y == y;
          assert f == Some(Point(x, y, 0.0));
        }
      }
    }
  }

  /** In the non-degenerate case `cycloid_func` reaches B at theta = 2.5. */
  lemma {:induction false} CycloidFuncReachesB(p: Problem, sin: real -> real, cos: real -> real)
    requires FullDerivation.CycloidDefined(p.startPoint.x, p.endPoint.x, sin, cos)
    ensures CycloidFunc(p, 2.5, sin, cos) == Some(Point(p.endPoint.x, p.endPoint.y, 0.0))
  {
    CycloidFuncIsCycloidPath(p, 2.5, sin, cos);
    FullDerivation.CycloidReachesB(p.startPoint.x, p.startPoint.y, p.endPoint.x, p.endPoint.y, sin, cos);
  }

  /**
    * A problem built without endpoints uses the same A and B as the default
    * arguments of the curve functions in py/brachistochrone_full_derivation.py,
    * so its curves are those functions' defaults (with the scene's depth 4).
    */
  lemma {:induction false} DefaultProblemCurves(gravity: Option<real>, t: real, sin: real -> real, cos: real -> real)
    ensures NewProblem(None, None, gravity).startPoint == Point(FullDerivation.X0, FullDerivation.Y0, 0.0)
    ensures NewProblem(None, None, gravity).endPoint == Point(FullDerivation.X1, FullDerivation.Y1, 0.0)
    ensures ParabolaFunc(NewProblem(None, None, gravity), t)
         == FullDerivation.ParabolicPath(t, FullDerivation.X0, FullDerivation.Y0, FullDerivation.X1, FullDerivation.Y1, SceneDepth)
    ensures CycloidFunc(NewProblem(None, None, gravity), t, sin, cos)
         == FullDerivation.CycloidPath(t, FullDerivation.X0, FullDerivation.Y0, FullDerivation.X1, FullDerivation.Y1, sin, cos)
  {
    var p := NewProblem(None, None, gravity);
    ParabolaFuncIsParabolicPath(p, t);
    CycloidFuncIsCycloidPath(p, t, sin, cos);
  }
}
