/**
 * The odometry bookkeeping of the swerve-drive controller
 * (swerve_drive_controller.cpp, init and compOdometry): the wheel positions
 * are kept relative to their centroid, and each wheel's last drive-encoder
 * reading is cached so that every tick measures only the rotation since the
 * previous tick. The rigid-transform fit (an SVD) and the publishing that
 * follow are not part of this model; sin, cos and the kinematics' wheel-angle
 * conversion are uninterpreted functions passed in.
 */
module SwerveOdometry {

  datatype Vec2 = Vec2(x: real, y: real)

  function SumX(ps: seq<Vec2>): real
    decreases |ps|
  {
    if |ps| == 0 then 0.0 else SumX(ps[..|ps| - 1]) + ps[|ps| - 1].x
  }

  function SumY(ps: seq<Vec2>): real
    decreases |ps|
  {
    if |ps| == 0 then 0.0 else SumY(ps[..|ps| - 1]) + ps[|ps| - 1].y
  }

  /** The centroid (Eigen's mean over the wheels). */
  function Centroid(ps: seq<Vec2>): Vec2
    requires |ps| > 0
  {
    Vec2(SumX(ps) / |ps| as real, SumY(ps) / |ps| as real)
  }

  /** Every point moved by -d. */
  function Shift(ps: seq<Vec2>, d: Vec2): (r: seq<Vec2>)
    ensures |r| == |ps|
  {
    seq(|ps|, i requires 0 <= i < |ps| => Vec2(ps[i].x - d.x, ps[i].y - d.y))
  }

  /** Positions relative to their own centroid. */
  function Centered(ps: seq<Vec2>): seq<Vec2>
    requires |ps| > 0
  {
    Shift(ps, Centroid(ps))
  }

  lemma {:induction false} SumShift(ps: seq<Vec2>, d: Vec2)
    ensures SumX(Shift(ps, d)) == SumX(ps) - |ps| as real * d.x
    ensures SumY(Shift(ps, d)) == SumY(ps) - |ps| as real * d.y
    decreases |ps|
  {
    if |ps| > 0 {
      var init := ps[..|ps| - 1];
      SumShift(init, d);
      assert Shift(ps, d)[..|ps| - 1] == Shift(init, d);
    }
  }

  /** Centred positions have their centroid at the origin. */
  lemma CenteredHasZeroCentroid(ps: seq<Vec2>)
    requires |ps| > 0
    ensures SumX(Centered(ps)) == 0.0 && SumY(Centered(ps)) == 0.0
    ensures Centroid(Centered(ps)) == Vec2(0.0, 0.0)
  {
    SumShift(ps, Centroid(ps));
  }

  /** Centring loses nothing: adding the centroid back gives the positions. */
  lemma CenteredRestores(ps: seq<Vec2>, i: int)
    requires |ps| > 0 && 0 <= i < |ps|
    ensures Centered(ps)[i].x + Centroid(ps).x == ps[i].x
    ensures Centered(ps)[i].y + Centroid(ps).y == ps[i].y
  {
  }

  /** Distance a wheel rolled between two encoder readings. */
  function WheelDistance(lastRot: real, newRot: real, radius: real, ratio: real): real {
    -(newRot - lastRot) * radius * ratio
  }

  /** Each wheel moved from its nominal coordinate by its rolled distance
      along its steering angle. */
  function Displaced(coords: seq<Vec2>, lastRot: seq<real>, newRot: seq<real>, steer: seq<real>,
                     radius: real, ratio: real, wheelAngle: (nat, real) -> real,
                     sin: real -> real, cos: real -> real): (r: seq<Vec2>)
    requires |lastRot| == |coords| && |newRot| == |coords| && |steer| == |coords|
    ensures |r| == |coords|
  {
    seq(|coords|, k requires 0 <= k < |coords| =>
      var dist := WheelDistance(lastRot[k], newRot[k], radius, ratio);
      var a := wheelAngle(k, steer[k]);
      Vec2(coords[k].x + -dist * sin(a), coords[k].y + dist * cos(a)))
  }

  /** Total distance measured over successive readings, each tick against
      the reading cached by the previous one. */
  function MeasuredDistance(start: real, readings: seq<real>, radius: real, ratio: real): real
    decreases |readings|
  {
    if |readings| == 0 then 0.0
    else
      var prev := if |readings| == 1 then start else readings[|readings| - 2];
      MeasuredDistance(start, readings[..|readings| - 1], radius, ratio)
        + WheelDistance(prev, readings[|readings| - 1], radius, ratio)
  }

  /** Because the cache always holds the previous reading, the distances of
      the ticks add up to the distance between the first and last reading:
      no rotation is lost or counted twice. */
  lemma {:induction false} CachedRotationTelescopes(start: real, readings: seq<real>, radius: real, ratio: real)
    requires |readings| > 0
    ensures MeasuredDistance(start, readings, radius, ratio)
            == WheelDistance(start, readings[|readings| - 1], radius, ratio)
    decreases |readings|
  {
    if |readings| > 1 {
      var init := readings[..|readings| - 1];
      CachedRotationTelescopes(start, init, radius, ratio);
      assert init[|init| - 1] == readings[|readings| - 2];
    }
  }

  class WheelOdometry {
    const wheelCoords: seq<Vec2>      // wheel_coords_
    const wheelRadius: real
    const encoderToRotations: real
    var wheelPos: seq<Vec2>           // wheel_pos_, centred
    var negWheelCentroid: Vec2        // neg_wheel_centroid_
    var lastWheelRot: seq<real>       // last_wheel_rot_

    predicate Valid()
      reads this
    {
      |wheelCoords| > 0 && |wheelPos| == |wheelCoords| && |lastWheelRot| == |wheelCoords|
    }

    /** The odometry part of init: copy the wheel coordinates, centre them,
        remember the negated centroid, and cache the current encoder readings. */
    constructor (coords: seq<Vec2>, radius: real, ratio: real, currentRot: seq<real>)
      requires |coords| > 0 && |currentRot| == |coords|
      ensures Valid()
      ensures wheelCoords == coords && wheelRadius == radius && encoderToRotations == ratio
      ensures wheelPos == Centered(coords)
      ensures negWheelCentroid == Vec2(-Centroid(coords).x, -Centroid(coords).y)
      ensures lastWheelRot == currentRot
    {
      wheelCoords := coords;
      wheelRadius := radius;
      encoderToRotations := ratio;
      var pos: seq<Vec2> := [];
      for i := 0 to |coords|
        invariant pos == coords[..i]
      {
        pos := pos + [coords[i]];
      }
      assert pos == coords;
      var centroid := Centroid(pos);
      wheelPos := Shift(pos, centroid);
      negWheelCentroid := Vec2(-centroid.x, -centroid.y);
      var rot: seq<real> := [];
      for row := 0 to |coords|
        invariant rot == currentRot[..row]
      {
        rot := rot + [currentRot[row]];
      }
      assert rot == currentRot;
      lastWheelRot := rot;
    }

    /** The per-wheel loop of compOdometry followed by the centring of the new
        positions; the readings become the cache for the next tick. */
    method Advance(newRot: seq<real>, steer: seq<real>, wheelAngle: (nat, real) -> real,
                   sin: real -> real, cos: real -> real) returns (newWheelPos: seq<Vec2>)
      requires Valid() && |newRot| == |wheelCoords| && |steer| == |wheelCoords|
      modifies this`lastWheelRot
      ensures Valid()
      ensures newWheelPos == Centered(Displaced(wheelCoords, old(lastWheelRot), newRot, steer,
                                                wheelRadius, encoderToRotations, wheelAngle, sin, cos))
      ensures lastWheelRot == newRot
    {
      ghost var D := Displaced(wheelCoords, lastWheelRot, newRot, steer, wheelRadius, encoderToRotations, wheelAngle, sin, cos);
      var pos := seq(|wheelCoords|, _ => Vec2(0.0, 0.0));
      for k := 0 to |wheelCoords|
        invariant |pos| == |wheelCoords| && |lastWheelRot| == |wheelCoords|
        invariant forall j :: 0 <= j < k ==> pos[j] == D[j] && lastWheelRot[j] == newRot[j]
        invariant forall j :: k <= j < |wheelCoords| ==> lastWheelRot[j] == old(lastWheelRot[j])
      {
        var dist := -(newRot[k] - lastWheelRot[k]) * wheelRadius * encoderToRotations;
        var a := wheelAngle(k, steer[k]);
        pos := pos[k := Vec2(wheelCoords[k].x + -dist * sin(a), wheelCoords[k].y + dist * cos(a))];
        lastWheelRot := lastWheelRot[k := newRot[k]];
      }
      assert pos == D;
      newWheelPos := Shift(pos, Centroid(pos));
    }
  }
}
