/**
 * The older swerve motion profiler
 * (swerve_motion_profiling/src/profiler.cpp): its quadratic root picker, the
 * velocity step solve_for_next_V, and the two passes of generate_profile.
 *
 * The clamp coerce is the same code as in the spline profiler and is taken
 * from SwervePointGenerator. Square root, sine, cosine, fmod and
 * division by a value that may be 0 are parameters (a Libm value); other
 * divisions are real division. The static local
 * `accel` of solve_for_next_V keeps its value from one call to the next and
 * is a field of the profiler; the other statics are written before every use.
 */
module SwerveMotionProfiling {
  import SwervePointGenerator

  /** The maths library calls the profiler makes, left uninterpreted, and M_PI. */
  datatype Libm = Libm(sqrt: real -> real, cos: real -> real, sin: real -> real,
                       fmod: (real, real) -> real, divide: (real, real) -> real, pi: real)

  /** The fields of a path point that the velocity step reads. */
  datatype PathPoint = PathPoint(pathAngle: real, orientation: real, radius: real,
                                 angularVelocity: real, angularAccel: real)

  /** What one solve_for_next_V call does: return true or false, or run off
      the end of the guarded branch without a return statement. */
  datatype SolveResult = Solved(ok: bool) | FellOffEnd

  /** Why a run of generate_profile has undefined behaviour. */
  datatype Undefinedness = MissingReturn | IndexOutOfRange

  /** The outcome of generate_profile. OutOfFuel stands for a pass that had
      not ended after the number of steps the model was allowed. */
  datatype ProfileResult = Generated(ok: bool) | Undefined(cause: Undefinedness) | OutOfFuel

  // ========================================================= poly_solve

  /** poly_solve: the root (-b + sqrt(b^2 - 4ac)) / 2a of a x^2 + b x + c;
      on a negative discriminant it fails and x keeps its previous value. */
  function PolySolve(a: real, b: real, c: real, x: real, sqrt: real -> real): (r: (bool, real))
    requires a != 0.0
    ensures r.0 <==> b * b - 4.0 * a * c >= 0.0
    ensures !r.0 ==> r.1 == x
    ensures r.0 && sqrt(b * b - 4.0 * a * c) * sqrt(b * b - 4.0 * a * c) == b * b - 4.0 * a * c ==>
              a * r.1 * r.1 + b * r.1 + c == 0.0
  {
    var det := b * b - 4.0 * a * c;
    if det < 0.0 then (false, x)
    else
      var root := (-b + sqrt(det)) / (2.0 * a);
      SwervePointGenerator.QuadraticRoot(a, b, c, sqrt(det), root);
      (true, root)
  }

  // ======================================================= size_t guard

  /** One more than the largest size_t. */
  const SizeTModulus: int := 0x1_0000_0000_0000_0000

  /** path.size() - 1 computed in size_t: an empty path wraps around. */
  function SizeMinusOne(size: nat): (r: nat)
    requires size < SizeTModulus
    ensures r < SizeTModulus
    ensures size > 0 ==> r == size - 1
    ensures size == 0 ==> r == SizeTModulus - 1
  {
    (size - 1) % SizeTModulus
  }

  /** The condition i <= 0 && i >= path.size() - 1 guarding the full
      velocity computation. */
  predicate Guard(i: real, size: nat)
    requires size < SizeTModulus
    ensures Guard(i, size) ==> i == 0.0 && 0 < size
  {
    i <= 0.0 && i >= SizeMinusOne(size) as real
  }

  /** The guard holds only for a one-point path at position 0: an empty path
      wraps path.size() - 1 to the largest size_t, and any longer path puts
      it above 0. */
  lemma GuardOnlyAtStartOfOnePointPath(i: real, size: nat)
    requires size < SizeTModulus
    ensures Guard(i, size) <==> size == 1 && i == 0.0
  {
    if size == 0 {
      assert SizeMinusOne(size) == SizeTModulus - 1;
    } else {
      assert SizeMinusOne(size) == size - 1;
    }
  }

  // ============================================================ profiler

  class SwerveProfiler {
    const maxWheelDist: real
    const maxWheelMidAccel: real
    const maxWheelVel: real
    const maxSteeringAccel: real
    const maxSteeringVel: real
    const dt: real
    const indexDistUnit: real
    /** The static local `accel` of solve_for_next_V. */
    var accel: real

    /** The constructor stores the limits; the static starts at zero. */
    constructor(maxWheelDist: real, maxWheelMidAccel: real, maxWheelVel: real,
                maxSteeringAccel: real, maxSteeringVel: real, dt: real, indexDistUnit: real)
      ensures this.maxWheelDist == maxWheelDist && this.maxWheelMidAccel == maxWheelMidAccel
      ensures this.maxWheelVel == maxWheelVel && this.maxSteeringAccel == maxSteeringAccel
      ensures this.maxSteeringVel == maxSteeringVel && this.dt == dt && this.indexDistUnit == indexDistUnit
      ensures accel == 0.0
    {
      this.maxWheelDist := maxWheelDist;
      this.maxWheelMidAccel := maxWheelMidAccel;
      this.maxWheelVel := maxWheelVel;
      this.maxSteeringAccel := maxSteeringAccel;
      this.maxSteeringVel := maxSteeringVel;
      this.dt := dt;
      this.indexDistUnit := indexDistUnit;
      accel := 0.0;
    }

    /** solve_for_next_V: outside the guard, the velocity grows by the mid
        acceleration and is clamped to the maximum wheel speed, and the call
        returns true. Inside it (a one-point path at 0), the call either
        fails on a negative discriminant or runs off the end of the function. */
    method SolveForNextV(i: real, path: seq<PathPoint>, currentV: real, m: Libm) returns (r: SolveResult, v: real)
      requires |path| < SizeTModulus
      modifies this`accel
      ensures !Guard(i, |path|) ==> r == Solved(true) && accel == old(accel)
      ensures !Guard(i, |path|) && currentV + maxWheelMidAccel > maxWheelVel ==> v == maxWheelVel
      ensures !Guard(i, |path|) && currentV + maxWheelMidAccel <= maxWheelVel && currentV + maxWheelMidAccel < -maxWheelVel ==>
                v == -maxWheelVel
      ensures !Guard(i, |path|) && -maxWheelVel <= currentV + maxWheelMidAccel <= maxWheelVel ==>
                v == currentV + maxWheelMidAccel
      ensures Guard(i, |path|) ==> r != Solved(true)
    {
      var changed: bool;  // coerce's return code, never checked here
      if Guard(i, |path|) {
        GuardOnlyAtStartOfOnePointPath(i, |path|);
        var p := path[0];
        var maxOrientationAccel := p.angularAccel * maxWheelDist;
        var maxOrientationVel := p.angularVelocity * maxWheelDist;
        var theta := SwervePointGenerator.Abs(m.fmod(p.pathAngle - p.orientation, m.pi / 8.0));
        var cosT := m.cos(theta);
        var sinT := m.sin(theta);
        var pathInducedA := m.divide(currentV * currentV, p.radius);
        var root2 := m.sqrt(2.0);
        var w := currentV + maxOrientationVel * root2 / 2.0;
        var effMaxA := maxWheelMidAccel * 2.0 *
          (1.0 - m.divide(maxWheelVel - m.sqrt(w * w + maxOrientationVel * maxOrientationVel / 2.0), maxWheelVel));
        effMaxA, changed := SwervePointGenerator.Coerce(effMaxA, 0.0, maxWheelMidAccel);
        // The return code of this call is not checked: on failure accel keeps
        // the value of an earlier call.
        var solvedAccel := PolySolve(1.0,
          4.0 * cosT * sinT * pathInducedA + root2 * cosT * maxOrientationAccel + root2 * sinT * maxOrientationAccel,
          pathInducedA * pathInducedA + root2 * sinT * pathInducedA * maxOrientationAccel
            + root2 * cosT * pathInducedA * maxOrientationAccel + maxOrientationAccel * maxOrientationAccel
            - maxWheelMidAccel * maxWheelMidAccel,
          accel, m.sqrt);
        accel := solvedAccel.1;
        v := currentV + accel * dt;
        var general := PolySolve(1.0, root2 * maxOrientationVel * cosT + root2 * maxOrientationVel * sinT,
                                 maxOrientationVel * maxOrientationVel - maxWheelVel * maxWheelVel, 0.0, m.sqrt);
        if !general.0 {
          return Solved(false), v;
        }
        v, changed := SwervePointGenerator.Coerce(v, -general.1, general.1);
        var curve := PolySolve(1.0, root2 * maxOrientationAccel * cosT + root2 * maxOrientationAccel * sinT,
                               maxOrientationAccel * maxOrientationAccel - effMaxA * effMaxA, 0.0, m.sqrt);
        if !curve.0 {
          return Solved(false), v;
        }
        var curveMax := m.sqrt(curve.1) * p.radius;
        v, changed := SwervePointGenerator.Coerce(v, -curveMax, curveMax);
        r := FellOffEnd;
      } else {
        v := currentV + maxWheelMidAccel;
        v, changed := SwervePointGenerator.Coerce(v, -maxWheelVel, maxWheelVel);
        r := Solved(true);
      }
    }

    /** generate_profile: a forward pass from the start of the path and a
        backward pass from its end, each stepping the velocity with
        solve_for_next_V and returning false as soon as a step does. The
        backward pass's first search reads positions[positions.size()], so
        the run is defined and succeeds only on an empty path (the search and
        the interpolation that follow it are not modelled further). `calls`
        records the outcome of every velocity step in order, and `at` the
        position each step was taken at. */
    method GenerateProfile(path: seq<PathPoint>, initialV: real, finalV: real, m: Libm, fuel: nat)
      returns (r: ProfileResult, ghost calls: seq<SolveResult>, ghost at: seq<real>)
      requires |path| < SizeTModulus
      modifies this`accel
      ensures |at| == |calls|
      ensures forall j :: 0 <= j < |calls| ==> (calls[j] == Solved(true) <==> !Guard(at[j], |path|))
      ensures r == Generated(true) <==> path == []
      ensures forall j :: 0 <= j < |calls| - 1 ==> calls[j] == Solved(true)
      ensures r == Generated(false) <==> |calls| > 0 && calls[|calls| - 1] == Solved(false)
      ensures r == Undefined(MissingReturn) <==> |calls| > 0 && calls[|calls| - 1] == FellOffEnd
    {
      calls := [];
      at := [];
      var steps := 0;
      var currV := initialV;
      var velocities: seq<real> := [];
      var positions: seq<real> := [];
      var i := 0.0;
      // Forward pass.
      while i < |path| as real
        invariant steps <= fuel
        invariant |velocities| == |positions|
        invariant path == [] ==> i == 0.0 && positions == []
        invariant forall j :: 0 <= j < |calls| ==> calls[j] == Solved(true)
        invariant |at| == |calls|
        invariant forall j :: 0 <= j < |calls| ==> !Guard(at[j], |path|)
        decreases fuel - steps
      {
        if steps == fuel {
          return OutOfFuel, calls, at;
        }
        steps := steps + 1;
        velocities := velocities + [currV];
        positions := positions + [i];
        i := i + m.divide(currV * dt, indexDistUnit);
        var step;
        step, currV := SolveForNextV(i, path, currV, m);
        calls := calls + [step];
        at := at + [i];
        if step == FellOffEnd {
          return Undefined(MissingReturn), calls, at;
        } else if step == Solved(false) {
          return Generated(false), calls, at;
        }
      }
      // Backward pass. Its loop never reaches a second step: starting_point
      // begins at positions.size(), so the first pass of the search reads
      // positions[positions.size()], and with no positions at all the search
      // is skipped and the interpolation reads velocities[-1].
      currV := finalV;
      var startingPoint := |positions|;
      i := |path| as real;
      if i > 0.0 {
        if steps == fuel {
          return OutOfFuel, calls, at;
        }
        i := i - m.divide(currV * dt, indexDistUnit);
        var step;
        step, currV := SolveForNextV(i, path, currV, m);
        calls := calls + [step];
        at := at + [i];
        if step == FellOffEnd {
          return Undefined(MissingReturn), calls, at;
        } else if step == Solved(false) {
          return Generated(false), calls, at;
        }
        if startingPoint > 0 {
          // The search's first read, positions[startingPoint - 0].
          return Undefined(IndexOutOfRange), calls, at;
        }
        // The interpolation's read of velocities[startingPoint - 1].
        return Undefined(IndexOutOfRange), calls, at;
      }
      r := Generated(true);
    }
  }
}
