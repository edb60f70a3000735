/**
 * The algebraic helpers of the swerve spline profiler
 * (swerve_point_generator/src/profiler.cpp): clamping, quintic derivative
 * coefficients, spline evaluation with direction flip and time shift, the
 * quadratic root picker, segment selection, the curvature-radius sentinel,
 * the input guards of profile generation, and the arc-length table that
 * parametrizes the spline.
 *
 * Arithmetic is over real numbers. Square root, division by a value that may
 * be 0 and the power x^(3/2) are parameters; other divisions are real
 * division.
 */
module SwervePointGenerator {
  import opened Wrappers

  // ====================================================== quintic splines

  /** The spline a * t^5 + b * t^4 + c * t^3 + d * t^2 + e * t + f. */
  datatype SplineCoefs = SplineCoefs(a: real, b: real, c: real, d: real, e: real, f: real)

  /** The coefficients in ascending degree. */
  function Coefficients(s: SplineCoefs): (p: seq<real>)
    ensures |p| == 6
  {
    [s.f, s.e, s.d, s.c, s.b, s.a]
  }

  /** Horner evaluation of a polynomial given by ascending coefficients. */
  function Poly(p: seq<real>, t: real): real
    decreases |p|
  {
    if |p| == 0 then 0.0 else p[0] + t * Poly(p[1..], t)
  }

  /** The formal derivative of a polynomial, keeping its number of coefficients. */
  function Derive(p: seq<real>): (q: seq<real>)
    ensures |q| == |p|
  {
    seq(|p|, i requires 0 <= i < |p| => if i + 1 < |p| then (i + 1) as real * p[i + 1] else 0.0)
  }

  /** The first-derivative spline as generate_profile builds it. */
  function FirstDerivative(s: SplineCoefs): (r: SplineCoefs)
    ensures Coefficients(r) == Derive(Coefficients(s))
  {
    var r := SplineCoefs(0.0, 5.0 * s.a, 4.0 * s.b, 3.0 * s.c, 2.0 * s.d, 1.0 * s.e);
    var p := Coefficients(s);
    assert Derive(p)[0] == 1.0 * p[1] && Derive(p)[1] == 2.0 * p[2] && Derive(p)[2] == 3.0 * p[3];
    assert Derive(p)[3] == 4.0 * p[4] && Derive(p)[4] == 5.0 * p[5] && Derive(p)[5] == 0.0;
    r
  }

  /** The second-derivative spline, which the source derives from the first
      one by shifting its coefficients in place. */
  function SecondDerivative(s: SplineCoefs): (r: SplineCoefs)
    ensures r == FirstDerivative(FirstDerivative(s))
    ensures Coefficients(r) == Derive(Derive(Coefficients(s)))
  {
    var h := FirstDerivative(s);
    var h := h.(f := 1.0 * h.e);
    var h := h.(e := 2.0 * h.d);
    var h := h.(d := 3.0 * h.c);
    var h := h.(c := 4.0 * h.b);
    h.(b := 0.0, a := 0.0)
  }

  /** Evaluating six coefficients by powers agrees with Horner's rule. */
  lemma PowersAgreeWithHorner(s: SplineCoefs, t: real, t2: real, t3: real, t4: real, t5: real)
    requires t2 == t * t && t3 == t2 * t && t4 == t2 * t2 && t5 == t3 * t2
    ensures Poly(Coefficients(s), t) == s.a * t5 + s.b * t4 + s.c * t3 + s.d * t2 + s.e * t + s.f
  {
    var p := Coefficients(s);
    assert p[1..][1..][1..][1..][1..][1..] == [];
    assert Poly(p[1..][1..][1..][1..][1..], t) == s.a;
    assert Poly(p[1..][1..][1..][1..], t) == s.b + t * s.a;
    assert Poly(p[1..][1..][1..], t) == s.c + t * (s.b + t * s.a);
    assert Poly(p[1..][1..], t) == s.d + t * (s.c + t * (s.b + t * s.a));
    assert Poly(p[1..], t) == s.e + t * (s.d + t * (s.c + t * (s.b + t * s.a)));
  }

  // ============================================================= coerce

  /** coerce: clamp into [min, max], testing the upper bound first; reports
      whether the value changed. */
  method Coerce(val: real, min: real, max: real) returns (clamped: real, changed: bool)
    ensures min <= max ==> min <= clamped <= max
    ensures changed <==> clamped != val
    ensures val > max ==> clamped == max
    ensures val <= max && val < min ==> clamped == min
    ensures min <= val <= max ==> clamped == val
  {
    if val > max {
      clamped, changed := max, true;
    } else if val < min {
      clamped, changed := min, true;
    } else {
      clamped, changed := val, false;
    }
  }

  // ========================================================= poly_solve

  /** poly_solve: the root (-b + sqrt(b^2 - 4ac)) / 2a of a x^2 + b x + c, or 0
      with failure when the discriminant is negative. */
  function PolySolve(a: real, b: real, c: real, sqrt: real -> real): (r: (bool, real))
    requires a != 0.0
    ensures r.0 <==> b * b - 4.0 * a * c >= 0.0
    ensures !r.0 ==> r.1 == 0.0
    ensures r.0 && sqrt(b * b - 4.0 * a * c) * sqrt(b * b - 4.0 * a * c) == b * b - 4.0 * a * c ==>
              a * r.1 * r.1 + b * r.1 + c == 0.0
  {
    var det := b * b - 4.0 * a * c;
    if det < 0.0 then (false, 0.0)
    else
      var x := (-b + sqrt(det)) / (2.0 * a);
      QuadraticRoot(a, b, c, sqrt(det), x);
      (true, x)
  }

  /** (-b + r) / 2a is a root when r is a square root of the discriminant. */
  lemma QuadraticRoot(a: real, b: real, c: real, r: real, x: real)
    requires a != 0.0 && x == (-b + r) / (2.0 * a)
    ensures r * r == b * b - 4.0 * a * c ==> a * x * x + b * x + c == 0.0
  {
    if r * r == b * b - 4.0 * a * c {
      assert 2.0 * a * x == -b + r;
      calc {
        4.0 * a * (a * x * x + b * x + c);
        (2.0 * a * x) * (2.0 * a * x) + 2.0 * b * (2.0 * a * x) + 4.0 * a * c;
        (-b + r) * (-b + r) + 2.0 * b * (-b + r) + 4.0 * a * c;
        r * r - b * b + 4.0 * a * c;
        0.0;
      }
    }
  }

  // ==================================================== segment selection

  /** The segment comp_point_characteristics evaluates: the first k < n - 1
      whose end point lies after t, else the last one. */
  method SelectSegment(tRaw: real, endPoints: seq<real>, n: nat) returns (k: nat)
    requires n >= 1 && |endPoints| >= n - 1
    ensures k < n
    ensures forall j :: 0 <= j < k ==> endPoints[j] <= tRaw
    ensures k < n - 1 ==> tRaw < endPoints[k]
  {
    k := 0;
    while k < n - 1
      invariant k <= n - 1
      invariant forall j :: 0 <= j < k ==> endPoints[j] <= tRaw
    {
      if tRaw < endPoints[k] {
        break;
      }
      k := k + 1;
    }
  }

  // ============================================================= radius

  const RadiusSentinel: real := 10000000000000000.0

  /** Curvature radius (x'^2 + y'^2)^(3/2) / |x' y'' - y' x''|, or the 1e16
      sentinel for a straight path. */
  function Radius(dx: real, dy: real, ddx: real, ddy: real, powThreeHalves: real -> real): (r: real)
    ensures dx * ddy - dy * ddx == 0.0 ==> r == RadiusSentinel
    ensures dx * ddy - dy * ddx != 0.0 ==>
              r >= 0.0 && r * Abs(dx * ddy - dy * ddx) == Abs(powThreeHalves(dx * dx + dy * dy))
  {
    var denomin := dx * ddy - dy * ddx;
    if denomin != 0.0 then
      var r := Abs(powThreeHalves(dx * dx + dy * dy) / denomin);
      QuotientTimesDivisor(powThreeHalves(dx * dx + dy * dy), denomin);
      r
    else RadiusSentinel
  }

  function Abs(x: real): (r: real)
    ensures r >= 0.0 && (r == x || r == -x)
  {
    if x < 0.0 then -x else x
  }

  lemma QuotientTimesDivisor(p: real, q: real)
    requires q != 0.0
    ensures Abs(p / q) * Abs(q) == Abs(p)
  {
    assert (p / q) * q == p;
  }

  // ======================================================== the profiler

  /** The splines and their derivatives as profile generation uses them. */
  datatype ProfileSplines = ProfileSplines(
    x: seq<SplineCoefs>, y: seq<SplineCoefs>, orient: seq<SplineCoefs>,
    xFirst: seq<SplineCoefs>, yFirst: seq<SplineCoefs>, orientFirst: seq<SplineCoefs>,
    xSecond: seq<SplineCoefs>, ySecond: seq<SplineCoefs>, orientSecond: seq<SplineCoefs>)

  function Reversed<T>(s: seq<T>): (r: seq<T>)
    ensures |r| == |s|
    ensures forall i :: 0 <= i < |s| ==> r[i] == s[|s| - 1 - i]
  {
    seq(|s|, i requires 0 <= i < |s| => s[|s| - 1 - i])
  }

  /** Derivatives of the first n splines of each list. */
  function Firsts(s: seq<SplineCoefs>, n: nat): (r: seq<SplineCoefs>)
    requires n <= |s|
    ensures |r| == n
  {
    seq(n, i requires 0 <= i < n => FirstDerivative(s[i]))
  }

  function Seconds(s: seq<SplineCoefs>, n: nat): (r: seq<SplineCoefs>)
    requires n <= |s|
    ensures |r| == n
  {
    seq(n, i requires 0 <= i < n => SecondDerivative(s[i]))
  }

  /** The splines after the derivative loop and the optional reversal. */
  function SplinesFor(xs: seq<SplineCoefs>, ys: seq<SplineCoefs>, os: seq<SplineCoefs>, flip: bool): ProfileSplines
    requires |ys| >= |xs| && |os| >= |xs|
  {
    var n := |xs|;
    var p := ProfileSplines(xs, ys, os, Firsts(xs, n), Firsts(ys, n), Firsts(os, n),
                            Seconds(xs, n), Seconds(ys, n), Seconds(os, n));
    if flip then
      ProfileSplines(Reversed(p.x), Reversed(p.y), Reversed(p.orient),
                     Reversed(p.xFirst), Reversed(p.yFirst), Reversed(p.orientFirst),
                     Reversed(p.xSecond), Reversed(p.ySecond), Reversed(p.orientSecond))
    else p
  }

  /** Start time and sampling period of segment i of the arc-length table. */
  function SegStart(endPoints: seq<real>, i: nat): real
    requires i < |endPoints|
  {
    if i == 0 then 0.0 else endPoints[i - 1]
  }

  function SegPeriod(endPoints: seq<real>, i: nat): real
    requires i < |endPoints|
  {
    (endPoints[i] - SegStart(endPoints, i)) / 100.0
  }

  /** End points start at or after 0 and never decrease. */
  predicate NonNegativePeriods(endPoints: seq<real>, n: nat)
    requires n <= |endPoints|
  {
    forall i :: 0 <= i < n ==> SegStart(endPoints, i) <= endPoints[i]
  }

  ghost predicate SqrtNonNegative(sqrt: real -> real) {
    forall x :: 0.0 <= x ==> 0.0 <= sqrt(x)
  }

  class SwerveProfiler {
    var tShift: real
    var flipDirc: bool
    var tTotal: real

    /** calc_point: the spline at the time flipped about tTotal (when
        flipping) and then shifted by tShift. */
    function CalcPoint(s: SplineCoefs, t: real): (r: real)
      reads this
      ensures r == Poly(Coefficients(s), (if flipDirc then tTotal - t else t) + tShift)
    {
      var t0 := if flipDirc then tTotal - t else t;
      var t1 := t0 + tShift;
      var tSquared := t1 * t1;
      var tCubed := tSquared * t1;
      var tFourth := tSquared * tSquared;
      var tFifth := tCubed * tSquared;
      PowersAgreeWithHorner(s, t1, tSquared, tCubed, tFourth, tFifth);
      s.a * tFifth + s.b * tFourth + s.c * tCubed + s.d * tSquared + s.e * t1 + s.f
    }

    /** One Simpson's-rule step of the arc length over [lo, hi]. */
    function SimpsonStep(xd: SplineCoefs, yd: SplineCoefs, lo: real, hi: real, period: real,
                         sqrt: real -> real): (r: real)
      reads this
      ensures SqrtNonNegative(sqrt) && period >= 0.0 ==> r >= 0.0
    {
      var xa := CalcPoint(xd, lo);
      var xb := CalcPoint(xd, hi);
      var ya := CalcPoint(yd, lo);
      var yb := CalcPoint(yd, hi);
      var xm := CalcPoint(xd, (lo + hi) / 2.0);
      var ym := CalcPoint(yd, (lo + hi) / 2.0);
      var sum := sqrt(xa * xa + ya * ya) + 4.0 * sqrt(xm * xm + ym * ym) + sqrt(xb * xb + yb * yb);
      SquaresNonNegative(xa, ya);
      SquaresNonNegative(xm, ym);
      SquaresNonNegative(xb, yb);
      NonNegativeProduct(period / 6.0, SqrtNonNegative(sqrt), sum);
      period / 6.0 * sum
    }

    /** The start of generate_profile: remember the shift and direction,
        refuse empty inputs, fix the total time, then build the derivative
        splines and reverse every list when flipping. */
    method BeginProfile(xs: seq<SplineCoefs>, ys: seq<SplineCoefs>, os: seq<SplineCoefs>,
                        endPoints: seq<real>, tShift: real, flip: bool)
      returns (r: Option<ProfileSplines>)
      requires endPoints != [] && xs != [] ==> |ys| >= |xs| && |os| >= |xs|
      modifies this
      ensures this.tShift == tShift && flipDirc == flip
      ensures r.None? <==> endPoints == [] || xs == []
      ensures r.None? ==> tTotal == old(tTotal)
      ensures r.Some? ==> tTotal == endPoints[|endPoints| - 1] - endPoints[0]
      ensures r.Some? ==> r.value == SplinesFor(xs, ys, os, flip)
    {
      this.tShift := tShift;
      flipDirc := flip;
      if endPoints == [] {
        return None;
      }
      if xs == [] {
        return None;
      }
      tTotal := endPoints[|endPoints| - 1] - endPoints[0];
      var xFirst, xSecond, yFirst, ySecond, oFirst, oSecond := [], [], [], [], [], [];
      for i := 0 to |xs|
        invariant xFirst == Firsts(xs, i) && yFirst == Firsts(ys, i) && oFirst == Firsts(os, i)
        invariant xSecond == Seconds(xs, i) && ySecond == Seconds(ys, i) && oSecond == Seconds(os, i)
      {
        var h := SplineCoefs(0.0, 5.0 * xs[i].a, 4.0 * xs[i].b, 3.0 * xs[i].c, 2.0 * xs[i].d, 1.0 * xs[i].e);
        xFirst := xFirst + [h];
        h := h.(f := 1.0 * h.e);
        h := h.(e := 2.0 * h.d);
        h := h.(d := 3.0 * h.c);
        h := h.(c := 4.0 * h.b);
        h := h.(b := 0.0, a := 0.0);
        xSecond := xSecond + [h];
        h := SplineCoefs(0.0, 5.0 * ys[i].a, 4.0 * ys[i].b, 3.0 * ys[i].c, 2.0 * ys[i].d, 1.0 * ys[i].e);
        yFirst := yFirst + [h];
        h := h.(f := 1.0 * h.e);
        h := h.(e := 2.0 * h.d);
        h := h.(d := 3.0 * h.c);
        h := h.(c := 4.0 * h.b);
        h := h.(b := 0.0, a := 0.0);
        ySecond := ySecond + [h];
        h := SplineCoefs(0.0, 5.0 * os[i].a, 4.0 * os[i].b, 3.0 * os[i].c, 2.0 * os[i].d, 1.0 * os[i].e);
        oFirst := oFirst + [h];
        h := h.(f := 1.0 * h.e);
        h := h.(e := 2.0 * h.d);
        h := h.(d := 3.0 * h.c);
        h := h.(c := 4.0 * h.b);
        h := h.(b := 0.0, a := 0.0);
        oSecond := oSecond + [h];
      }
      var p := ProfileSplines(xs, ys, os, xFirst, yFirst, oFirst, xSecond, ySecond, oSecond);
      if flip {
        p := ProfileSplines(Reversed(p.x), Reversed(p.y), Reversed(p.orient),
                            Reversed(p.xFirst), Reversed(p.yFirst), Reversed(p.orientFirst),
                            Reversed(p.xSecond), Reversed(p.ySecond), Reversed(p.orientSecond));
      }
      r := Some(p);
    }

    /** parametrize_spline: a table of 100 Simpson steps per segment, with
        times t and cumulative arc lengths s (one extra closing entry), the
        time-per-arc ratio of every segment, and the total arc length. */
    method ParametrizeSpline(xd: seq<SplineCoefs>, yd: seq<SplineCoefs>, endPoints: seq<real>,
                             sqrt: real -> real, divide: (real, real) -> real)
      returns (tVals: seq<real>, sVals: seq<real>, dtds: seq<real>, totalArc: real)
      requires 1 <= |xd| <= |yd| && |xd| <= |endPoints|
      ensures |tVals| == 100 * |xd| + 1 && |sVals| == 100 * |xd| + 1 && |dtds| == |xd|
      ensures forall i, k :: 0 <= i < |xd| && 0 <= k < 100 ==>
                tVals[Idx(i, k)] == StepTime(SegPeriod(endPoints, i), SegStart(endPoints, i), k)
      ensures tVals[100 * |xd|] == StepTime(SegPeriod(endPoints, |xd| - 1), SegStart(endPoints, |xd| - 1), 100)
      ensures sVals[0] == 0.0 && sVals[100 * |xd|] == totalArc
      ensures forall i :: 0 <= i < |xd| ==>
                dtds[i] == RatioOf(endPoints, divide, sVals, i)
      ensures SqrtNonNegative(sqrt) && NonNegativePeriods(endPoints, |xd|) ==>
                forall j :: 0 <= j < 100 * |xd| ==> sVals[j] <= sVals[j + 1]
    {
      var n := |xd|;
      ghost var monotone := SqrtNonNegative(sqrt) && NonNegativePeriods(endPoints, n);
      totalArc := 0.0;
      tVals, sVals, dtds := [], [], [];
      var arcBefore := 0.0;
      var bVal := 0.0;
      for i := 0 to n
        invariant |tVals| == 100 * i && |sVals| == 100 * i
        invariant |dtds| == if i == 0 then 0 else i - 1
        invariant RatiosSoFar(endPoints, divide, sVals, dtds)
        invariant TableSoFar(endPoints, monotone, i, tVals, sVals, totalArc, arcBefore)
        invariant i > 0 ==> bVal == StepTime(SegPeriod(endPoints, i - 1), SegStart(endPoints, i - 1), 100)
      {
        tVals, sVals, dtds, totalArc, arcBefore, bVal :=
          AddSegment(xd, yd, endPoints, sqrt, divide, monotone, i, tVals, sVals, dtds, totalArc, arcBefore);
      }
      tVals, sVals, dtds := CloseTable(endPoints, divide, monotone, n, tVals, sVals, dtds, totalArc, arcBefore, bVal);
    }

    /** The end of parametrize_spline: the last segment's ratio and the
        closing row of the table. */
    method CloseTable(endPoints: seq<real>, divide: (real, real) -> real, ghost monotone: bool, n: nat,
                      tVals0: seq<real>, sVals0: seq<real>, dtds0: seq<real>, totalArc: real, arcBefore: real,
                      bVal: real)
      returns (tVals: seq<real>, sVals: seq<real>, dtds: seq<real>)
      requires 1 <= n <= |endPoints|
      requires |dtds0| == n - 1
      requires RatiosSoFar(endPoints, divide, sVals0, dtds0)
      requires TableSoFar(endPoints, monotone, n, tVals0, sVals0, totalArc, arcBefore)
      ensures tVals == tVals0 + [bVal] && sVals == sVals0 + [totalArc] && |dtds| == n
      ensures sVals[0] == 0.0
      ensures forall i :: 0 <= i < n ==>
                dtds[i] == RatioOf(endPoints, divide, sVals, i)
      ensures monotone ==> forall j :: 0 <= j < 100 * n ==> sVals[j] <= sVals[j + 1]
    {
      tVals, sVals, dtds := tVals0, sVals0, dtds0;
      ghost var sLoop := sVals;
      ghost var dtdsLoop := dtds;
      if n == 1 {
        dtds := dtds + [divide(endPoints[n - 1] - 0.0, totalArc - arcBefore)];
      } else {
        dtds := dtds + [divide(endPoints[n - 1] - endPoints[n - 2], totalArc - arcBefore)];
      }
      tVals := tVals + [bVal];
      sVals := sVals + [totalArc];
      assert dtds == dtdsLoop + [divide(endPoints[n - 1] - SegStart(endPoints, n - 1), totalArc - arcBefore)];
      LastRatio(endPoints, divide, sLoop, dtdsLoop, totalArc, arcBefore, sVals, dtds);
      if monotone {
        MonotoneClosed(sLoop, totalArc, n);
      }
    }

    /** One pass of parametrize_spline's segment loop: record the previous
        segment's ratio, then integrate segment i. */
    method AddSegment(xd: seq<SplineCoefs>, yd: seq<SplineCoefs>, endPoints: seq<real>,
                      sqrt: real -> real, divide: (real, real) -> real, ghost monotone: bool, i: nat,
                      tVals0: seq<real>, sVals0: seq<real>, dtds0: seq<real>, totalArc0: real, arcBefore0: real)
      returns (tVals: seq<real>, sVals: seq<real>, dtds: seq<real>, totalArc: real, arcBefore: real, bVal: real)
      requires i < |xd| && i < |yd| && i < |endPoints|
      requires monotone ==> SqrtNonNegative(sqrt) && SegStart(endPoints, i) <= endPoints[i]
      requires |tVals0| == 100 * i && |sVals0| == 100 * i
      requires |dtds0| == if i == 0 then 0 else i - 1
      requires RatiosSoFar(endPoints, divide, sVals0, dtds0)
      requires TableSoFar(endPoints, monotone, i, tVals0, sVals0, totalArc0, arcBefore0)
      ensures |tVals| == 100 * (i + 1) && |sVals| == 100 * (i + 1) && |dtds| == i
      ensures RatiosSoFar(endPoints, divide, sVals, dtds)
      ensures TableSoFar(endPoints, monotone, i + 1, tVals, sVals, totalArc, arcBefore)
      ensures bVal == StepTime(SegPeriod(endPoints, i), SegStart(endPoints, i), 100)
    {
      tVals, sVals, dtds, totalArc, arcBefore := tVals0, sVals0, dtds0, totalArc0, arcBefore0;
      var periodT := (endPoints[0] - 0.0) / 100.0;
      var start := 0.0;
      if i != 0 {
        periodT := (endPoints[i] - endPoints[i - 1]) / 100.0;
        start := endPoints[i - 1];
      }
      assert periodT == SegPeriod(endPoints, i) && start == SegStart(endPoints, i);
      assert monotone ==> periodT >= 0.0;
      ghost var before := sVals;
      ghost var tBefore := tVals;
      ghost var dtdsBefore := dtds;
      ghost var arcAtStart := totalArc;
      if i > 1 {
        dtds := dtds + [divide(endPoints[i - 1] - endPoints[i - 2], totalArc - arcBefore)];
      } else if i == 1 {
        dtds := dtds + [divide(endPoints[0] - 0.0, totalArc - arcBefore)];
      }
      arcBefore := totalArc;
      tVals, sVals, totalArc, bVal := IntegrateSegment(xd, yd, endPoints, sqrt, i, periodT, start, tVals, sVals, totalArc);
      TableGrows(endPoints, monotone, i, tBefore, before, arcAtStart, tVals, sVals, totalArc);
      assert arcBefore == arcAtStart;
      if i > 0 {
        assert before[Idx(i - 1, 0)] == sVals[Idx(i - 1, 0)];
        ghost var r := dtds[i - 1];
        assert dtds == dtdsBefore + [r];
        assert sVals[Idx(i - 1 + 1, 0)] == arcBefore;
        assert r == RatioOf(endPoints, divide, sVals, i - 1);
        RatioAppended(endPoints, divide, before, dtdsBefore, sVals, r);
      } else {
        RatiosKept(endPoints, divide, before, dtds, sVals);
      }
    }

    /** The inner loop of parametrize_spline over one segment's 100 steps. */
    method IntegrateSegment(xd: seq<SplineCoefs>, yd: seq<SplineCoefs>, endPoints: seq<real>,
                            sqrt: real -> real, i: nat, periodT: real, start: real,
                            tVals: seq<real>, sVals: seq<real>, totalArc: real)
      returns (tVals': seq<real>, sVals': seq<real>, totalArc': real, bVal: real)
      requires i < |xd| && i < |yd| && i < |endPoints|
      requires periodT == SegPeriod(endPoints, i) && start == SegStart(endPoints, i)
      requires |tVals| == 100 * i && |sVals| == 100 * i
      ensures |tVals'| == 100 * (i + 1) && |sVals'| == 100 * (i + 1)
      ensures tVals'[..100 * i] == tVals && sVals'[..100 * i] == sVals
      ensures forall k :: 0 <= k < 100 ==> tVals'[Idx(i, k)] == StepTime(SegPeriod(endPoints, i), SegStart(endPoints, i), k)
      ensures sVals'[Idx(i, 0)] == totalArc
      ensures bVal == StepTime(SegPeriod(endPoints, i), SegStart(endPoints, i), 100)
      ensures SqrtNonNegative(sqrt) && periodT >= 0.0 ==>
                (forall j :: 100 * i <= j < 100 * (i + 1) - 1 ==> sVals'[j] <= sVals'[j + 1]) &&
                sVals'[100 * (i + 1) - 1] <= totalArc'
    {
      tVals', sVals', totalArc' := tVals, sVals, totalArc;
      bVal := 0.0;
      ghost var monotone := SqrtNonNegative(sqrt) && periodT >= 0.0;
      for k := 0 to 100
        invariant |tVals'| == 100 * i + k && |sVals'| == 100 * i + k
        invariant tVals'[..100 * i] == tVals && sVals'[..100 * i] == sVals
        invariant forall k' :: 0 <= k' < k ==> tVals'[Idx(i, k')] == StepTime(periodT, start, k')
        invariant k > 0 ==> sVals'[Idx(i, 0)] == totalArc
        invariant k == 0 ==> totalArc' == totalArc
        invariant k > 0 ==> bVal == StepTime(periodT, start, k)
        invariant monotone ==> forall j :: 100 * i <= j < 100 * i + k - 1 ==> sVals'[j] <= sVals'[j + 1]
        invariant monotone && k > 0 ==> sVals'[100 * i + k - 1] <= totalArc'
      {
        var aVal := StepTime(periodT, start, k);
        bVal := StepTime(periodT, start, k + 1);
        assert Idx(i, k) == |sVals'|;
        tVals' := tVals' + [aVal];
        sVals' := sVals' + [totalArc'];
        totalArc' := totalArc' + SimpsonStep(xd[i], yd[i], aVal, bVal, periodT, sqrt);
      }
    }
  }

  /** What the arc-length table holds after i segments: their times, and,
      when steps cannot be negative, cumulative lengths that never decrease
      and end at most at the running total. */
  ghost predicate TableSoFar(endPoints: seq<real>, monotone: bool, i: nat, t: seq<real>, s: seq<real>,
                             total: real, arcBefore: real)
    requires i <= |endPoints|
  {
    && |t| == 100 * i && |s| == 100 * i
    && (forall i', k :: 0 <= i' < i && 0 <= k < 100 ==>
          t[Idx(i', k)] == StepTime(SegPeriod(endPoints, i'), SegStart(endPoints, i'), k))
    && (i == 0 ==> total == 0.0)
    && (i > 0 ==> s[0] == 0.0 && arcBefore == s[Idx(i - 1, 0)])
    && (monotone ==> (forall j :: 0 <= j < 100 * i - 1 ==> s[j] <= s[j + 1]) && (i > 0 ==> s[100 * i - 1] <= total))
  }

  /** The time-per-arc ratio of segment i: its time span divided by the
      arc length the table records for it. */
  function RatioOf(endPoints: seq<real>, divide: (real, real) -> real, s: seq<real>, i: nat): real
    requires i < |endPoints| && Idx(i + 1, 0) < |s|
  {
    divide(endPoints[i] - SegStart(endPoints, i), s[Idx(i + 1, 0)] - s[Idx(i, 0)])
  }

  /** The time-per-arc ratio of every finished segment, read off the arc-length table. */
  ghost predicate RatiosSoFar(endPoints: seq<real>, divide: (real, real) -> real, s: seq<real>, dtds: seq<real>)
  {
    && |dtds| <= |endPoints|
    && (|dtds| == 0 || 100 * |dtds| < |s|)
    && forall m :: 0 <= m < |dtds| ==>
         dtds[m] == RatioOf(endPoints, divide, s, m)
  }

  /** Extending the arc-length table keeps the recorded ratios. */
  lemma RatiosKept(endPoints: seq<real>, divide: (real, real) -> real, s: seq<real>, dtds: seq<real>, s': seq<real>)
    requires RatiosSoFar(endPoints, divide, s, dtds)
    requires |s| <= |s'| && s'[..|s|] == s
    ensures RatiosSoFar(endPoints, divide, s', dtds)
  {
    forall j | 0 <= j < |s|
      ensures s'[j] == s[j]
    {
      assert s'[..|s|][j] == s'[j];
    }
  }

  /** Once the next segment's rows are in the table, its ratio r can be appended. */
  lemma RatioAppended(endPoints: seq<real>, divide: (real, real) -> real, s: seq<real>, dtds: seq<real>,
                      s': seq<real>, r: real)
    requires RatiosSoFar(endPoints, divide, s, dtds)
    requires |s| <= |s'| && s'[..|s|] == s
    requires |dtds| < |endPoints| && Idx(|dtds| + 1, 0) < |s'|
    requires r == RatioOf(endPoints, divide, s', |dtds|)
    ensures RatiosSoFar(endPoints, divide, s', dtds + [r])
  {
    RatiosKept(endPoints, divide, s, dtds, s');
  }

  /** Closing the table with the total arc length records the last segment's ratio. */
  lemma LastRatio(endPoints: seq<real>, divide: (real, real) -> real, s: seq<real>, dtds: seq<real>,
                  total: real, arcBefore: real, s': seq<real>, dtds': seq<real>)
    requires RatiosSoFar(endPoints, divide, s, dtds)
    requires |dtds| < |endPoints| && |s| == 100 * (|dtds| + 1) && s[Idx(|dtds|, 0)] == arcBefore
    requires s' == s + [total]
    requires dtds' == dtds + [divide(endPoints[|dtds|] - SegStart(endPoints, |dtds|), total - arcBefore)]
    ensures forall i :: 0 <= i < |dtds'| ==>
              dtds'[i] == RatioOf(endPoints, divide, s', i)
  {
    assert s'[..|s|] == s;
    assert s'[Idx(|dtds| + 1, 0)] == total && s'[Idx(|dtds|, 0)] == arcBefore;
    RatioAppended(endPoints, divide, s, dtds, s', divide(endPoints[|dtds|] - SegStart(endPoints, |dtds|), total - arcBefore));
  }

  /** A non-decreasing table stays so when closed with a total at least its last entry. */
  lemma MonotoneClosed(s: seq<real>, total: real, n: nat)
    requires n > 0 && |s| == 100 * n
    requires forall j :: 0 <= j < 100 * n - 1 ==> s[j] <= s[j + 1]
    requires s[100 * n - 1] <= total
    ensures forall j :: 0 <= j < 100 * n ==> (s + [total])[j] <= (s + [total])[j + 1]
  {
  }

  /** Adding one segment's rows keeps the table's properties. */
  lemma TableGrows(endPoints: seq<real>, monotone: bool, i: nat, t: seq<real>, s: seq<real>, total: real,
                   t': seq<real>, s': seq<real>, total': real)
    requires i < |endPoints|
    requires exists arcBefore :: TableSoFar(endPoints, monotone, i, t, s, total, arcBefore)
    requires |t'| == 100 * (i + 1) && |s'| == 100 * (i + 1) && t'[..100 * i] == t && s'[..100 * i] == s
    requires forall k :: 0 <= k < 100 ==> t'[Idx(i, k)] == StepTime(SegPeriod(endPoints, i), SegStart(endPoints, i), k)
    requires s'[Idx(i, 0)] == total
    requires monotone ==> (forall j :: 100 * i <= j < 100 * (i + 1) - 1 ==> s'[j] <= s'[j + 1]) &&
                          s'[100 * (i + 1) - 1] <= total'
    ensures TableSoFar(endPoints, monotone, i + 1, t', s', total', total)
  {
    TimesKept(t, t', endPoints, i);
    if monotone {
      MonotoneJoin(s, s', i);
    }
    if i > 0 {
      assert s'[..100 * i][0] == s'[0];
    }
  }

  /** The times of finished segments survive the next segment's rows. */
  lemma TimesKept(t: seq<real>, t': seq<real>, endPoints: seq<real>, i: nat)
    requires i < |endPoints| && |t| == 100 * i && |t'| == 100 * (i + 1) && t'[..100 * i] == t
    requires forall i', k :: 0 <= i' < i && 0 <= k < 100 ==>
               t[Idx(i', k)] == StepTime(SegPeriod(endPoints, i'), SegStart(endPoints, i'), k)
    requires forall k :: 0 <= k < 100 ==> t'[Idx(i, k)] == StepTime(SegPeriod(endPoints, i), SegStart(endPoints, i), k)
    ensures forall i', k :: 0 <= i' < i + 1 && 0 <= k < 100 ==>
              t'[Idx(i', k)] == StepTime(SegPeriod(endPoints, i'), SegStart(endPoints, i'), k)
  {
    forall i', k | 0 <= i' < i && 0 <= k < 100
      ensures t'[Idx(i', k)] == StepTime(SegPeriod(endPoints, i'), SegStart(endPoints, i'), k)
    {
      assert t'[..100 * i][Idx(i', k)] == t'[Idx(i', k)];
    }
  }

  /** Two non-decreasing runs joined where the first one's last entry is at
      most the second one's first entry. */
  lemma MonotoneJoin(s: seq<real>, s': seq<real>, i: nat)
    requires |s| == 100 * i && |s'| == 100 * (i + 1) && s'[..100 * i] == s
    requires forall j :: 0 <= j < 100 * i - 1 ==> s[j] <= s[j + 1]
    requires i > 0 ==> s[100 * i - 1] <= s'[100 * i]
    requires forall j :: 100 * i <= j < 100 * (i + 1) - 1 ==> s'[j] <= s'[j + 1]
    ensures forall j :: 0 <= j < 100 * (i + 1) - 1 ==> s'[j] <= s'[j + 1]
  {
    forall j | 0 <= j < 100 * (i + 1) - 1
      ensures s'[j] <= s'[j + 1]
    {
      if j < 100 * i - 1 {
        assert s'[..100 * i][j] == s'[j] && s'[..100 * i][j + 1] == s'[j + 1];
      } else if j == 100 * i - 1 {
        assert s'[..100 * i][j] == s'[j];
      }
    }
  }

  /** The time at step k of a segment. */
  function StepTime(period: real, start: real, k: nat): real {
    k as real * period + start
  }

  /** Position of step k of segment i in the arc-length table. */
  function Idx(i: nat, k: nat): nat {
    100 * i + k
  }

  lemma SquaresNonNegative(x: real, y: real)
    ensures 0.0 <= x * x + y * y
  {
    if x < 0.0 {
      assert x * x == (-x) * (-x);
    }
    if y < 0.0 {
      assert y * y == (-y) * (-y);
    }
  }

  lemma NonNegativeProduct(p: real, hyp: bool, q: real)
    ensures hyp && p >= 0.0 && q >= 0.0 ==> p * q >= 0.0
  {
  }
}
