/**
 * The swerve-drive controller (swerve_drive_controller.cpp): it accepts
 * velocity commands and queued motion-profile commands from other threads and,
 * once per control tick, turns them into commands for four speed motors and
 * four steering motors.
 *
 * The whole controller state is described by the value ControllerState and
 * each operation by a step function on it (BrakeActionSpec, UpdateSpec, ...).
 * The class Controller keeps the same state in fields, updates them with the
 * loops of the original, and each of its methods promises the matching step
 * function. The lemmas near the end state what the design promises about the
 * step functions.
 *
 * The per-joint command buffers behind the joint handles are not part of this
 * model; each joint's commanded state is the record JointCommand, whose fields
 * are the setters the controller calls. The swerve kinematics (motorOutputs)
 * is an uninterpreted function given to the controller.
 */
module SwerveDriveController {
  import opened Wrappers

  const WheelCount: nat := 4           // wheels, and length of every per-wheel array
  const NumProfileSlots: nat := 20     // profile slots cleared by wipe_all
  const CmdVelTimeout: real := 0.5     // seconds before a velocity command goes stale
  const StopThreshold: real := 0.000001
  const ParkDelay: real := 0.5         // seconds stopped before wheels park
  const OpenLoopWindow: real := 0.1    // drive stays open loop while both the brake and the profile run are this recent
  const SlotIssueLimit: int := 20
  const Pi: real := 3.14159265358979323846

  function Abs(x: real): real { if x < 0.0 then -x else x }

  /** A 16-bit unsigned variable receiving an int keeps it modulo 2^16. */
  function Uint16(x: int): (r: int)
    ensures 0 <= r < 65536 && (x - r) % 65536 == 0
    ensures 0 <= x < 65536 ==> r == x
  {
    x % 65536
  }

  type WheelReals = s: seq<real> | |s| == WheelCount witness [0.0, 0.0, 0.0, 0.0]

  // ---------------------------------------------------------------- data

  /** The motor-controller modes the controller selects. */
  datatype JointMode = PercentOutput | Position | Velocity | MotionMagic

  /** One point of a motion profile held by a motor controller. */
  datatype ProfilePoint = ProfilePoint(
    mode: JointMode, setpoint: real, fTerm: real, pidSlot: int, duration: real, zeroPos: bool)

  /** What the controller has asked of one joint, setter by setter. */
  datatype JointCommand = JointCommand(
    customProfileRun: bool,
    customProfileSlot: int,
    customProfileNextSlot: seq<int>,
    profileSlots: map<int, seq<ProfilePoint>>,
    pidfSlot: int,
    mode: JointMode,
    command: real,
    closedLoopRamp: real,
    demand1: real)

  /** A velocity command: linear x, linear y, angular z, time received. */
  datatype Commands = Commands(linX: real, linY: real, ang: real, stamp: real)

  /** Per-wheel kinematics output: drive speed and steering angle. */
  datatype WheelOutput = WheelOutput(speed: real, angle: real)

  type WheelOutputs = s: seq<WheelOutput> | |s| == WheelCount
    witness [WheelOutput(0.0, 0.0), WheelOutput(0.0, 0.0), WheelOutput(0.0, 0.0), WheelOutput(0.0, 0.0)]

  /** The arguments of motorOutputs that this model can state: the linear and
      angular velocity, the largest steering change, the park flag, the
      measured steering angles, and the fourth and eighth arguments, whose
      meaning belongs to the kinematics code. The per-wheel hold array is
      passed uninitialised by both callers and is left out. */
  datatype KinematicsRequest = KinematicsRequest(
    linX: real, linY: real, ang: real, maxSteerChange: real,
    flag4: bool, park: bool, curPos: seq<real>, flag8: bool)

  type Kinematics = KinematicsRequest -> WheelOutputs

  /** One buffered profile: per point, per wheel values (full_profile_cmd). */
  datatype ProfileSegment = ProfileSegment(
    drivePos: seq<seq<real>>, driveF: seq<seq<real>>,
    steerPos: seq<seq<real>>, steerF: seq<seq<real>>,
    hold: seq<seq<bool>>, dt: real, slot: int)

  /** A queued profile command: independent flags, applied in a fixed order. */
  datatype ProfileCommand = ProfileCommand(
    buffer: bool, profiles: seq<ProfileSegment>,
    wipeAll: bool, run: bool, brake: bool, runSlot: int,
    changeQueue: bool, newQueue: seq<int>, newlySet: bool)

  /** The motion-profile service request, point-major. */
  datatype RequestPoint = RequestPoint(
    drivePos: seq<real>, driveF: seq<real>, steerPos: seq<real>, steerF: seq<real>, hold: seq<bool>)
  datatype RequestProfile = RequestProfile(points: seq<RequestPoint>, dt: real, slot: int)
  datatype MotionProfileRequest = MotionProfileRequest(
    buffer: bool, profiles: seq<RequestProfile>,
    wipeAll: bool, run: bool, brake: bool, runSlot: int,
    changeQueue: bool, newQueue: seq<int>)

  // ------------------------------------------ what buffering reads safely

  /** Point i can be read for every wheel: hold and steering position always,
      drive position and both feed-forwards only when the wheel is not held. */
  predicate PointReadable(seg: ProfileSegment, i: nat) {
    i < |seg.drivePos| && i < |seg.driveF| && i < |seg.steerPos| && i < |seg.steerF| && i < |seg.hold|
    && |seg.hold[i]| >= WheelCount && |seg.steerPos[i]| >= WheelCount
    && forall k :: 0 <= k < WheelCount && !seg.hold[i][k] ==>
         k < |seg.drivePos[i]| && k < |seg.driveF[i]| && k < |seg.steerF[i]|
  }

  /** Buffering reads point 0 unconditionally, so a profile needs a point. */
  predicate SegmentReadable(seg: ProfileSegment) {
    |seg.drivePos| >= 1 && forall i: nat :: i < |seg.drivePos| ==> PointReadable(seg, i)
  }

  predicate CommandReadable(c: ProfileCommand) {
    c.buffer ==> forall j :: 0 <= j < |c.profiles| ==> SegmentReadable(c.profiles[j])
  }

  predicate RequestPointReadable(pt: RequestPoint) {
    |pt.hold| >= WheelCount && |pt.steerPos| >= WheelCount
    && forall k :: 0 <= k < WheelCount && !pt.hold[k] ==>
         k < |pt.drivePos| && k < |pt.driveF| && k < |pt.steerF|
  }

  /** What the service's callers must send for the later buffering to be
      defined: every profile has a point and every point covers the wheels. */
  predicate RequestReadable(req: MotionProfileRequest) {
    req.buffer ==>
      forall j :: 0 <= j < |req.profiles| ==>
        |req.profiles[j].points| >= 1
        && forall i :: 0 <= i < |req.profiles[j].points| ==> RequestPointReadable(req.profiles[j].points[i])
  }

  /** The service's transposition of one request profile. */
  function SegmentOf(rp: RequestProfile): ProfileSegment {
    var n := |rp.points|;
    ProfileSegment(
      seq(n, k requires 0 <= k < n => rp.points[k].drivePos),
      seq(n, k requires 0 <= k < n => rp.points[k].driveF),
      seq(n, k requires 0 <= k < n => rp.points[k].steerPos),
      seq(n, k requires 0 <= k < n => rp.points[k].steerF),
      seq(n, k requires 0 <= k < n => rp.points[k].hold),
      rp.dt, rp.slot)
  }

  /** The command the service queues for a request; profiles are copied only
      when the buffer flag is set. */
  function CommandOf(req: MotionProfileRequest): (c: ProfileCommand)
    ensures c.buffer == req.buffer && c.wipeAll == req.wipeAll && c.run == req.run && c.brake == req.brake
    ensures c.runSlot == req.runSlot && c.changeQueue == req.changeQueue && c.newQueue == req.newQueue
    ensures |c.profiles| == if req.buffer then |req.profiles| else 0
  {
    ProfileCommand(
      req.buffer,
      if req.buffer then seq(|req.profiles|, j requires 0 <= j < |req.profiles| => SegmentOf(req.profiles[j])) else [],
      req.wipeAll, req.run, req.brake, req.runSlot, req.changeQueue, req.newQueue, true)
  }

  /** The copy keeps every value where it was: point k of profile j of the
      command holds exactly what point k of profile j of the request held, and
      the flags are carried over. */
  lemma CommandOfCopies(req: MotionProfileRequest, j: int, k: int)
    requires req.buffer && 0 <= j < |req.profiles| && 0 <= k < |req.profiles[j].points|
    ensures var seg := CommandOf(req).profiles[j];
      |seg.drivePos| == |req.profiles[j].points|
      && seg.drivePos[k] == req.profiles[j].points[k].drivePos
      && seg.driveF[k] == req.profiles[j].points[k].driveF
      && seg.steerPos[k] == req.profiles[j].points[k].steerPos
      && seg.steerF[k] == req.profiles[j].points[k].steerF
      && seg.hold[k] == req.profiles[j].points[k].hold
      && seg.dt == req.profiles[j].dt && seg.slot == req.profiles[j].slot
  {
  }

  /** A readable request becomes a readable command. */
  lemma ReadableRequestGivesReadableCommand(req: MotionProfileRequest)
    requires RequestReadable(req)
    ensures CommandReadable(CommandOf(req))
  {
    var c := CommandOf(req);
    if req.buffer {
      forall j | 0 <= j < |c.profiles|
        ensures SegmentReadable(c.profiles[j])
      {
        var seg := c.profiles[j];
        forall i: nat | i < |seg.drivePos|
          ensures PointReadable(seg, i)
        {
          assert RequestPointReadable(req.profiles[j].points[i]);
        }
      }
    }
  }

  // ---------------------------------------------------- controller state

  datatype ControllerState = ControllerState(
    running: bool,                        // isRunning()
    mode: bool,                           // true: follow velocity commands; false: run profiles
    command: Commands,                    // latest velocity command
    queue: seq<ProfileCommand>,           // full_profile_buffer_, a FIFO
    speedJoints: seq<JointCommand>,
    steeringJoints: seq<JointCommand>,
    fullDrive: seq<seq<ProfilePoint>>,    // per wheel, last drive list built
    fullSteer: seq<seq<ProfilePoint>>,    // per wheel, last steering list built
    modeLast: Option<real>,               // function-static, set on first tick
    brakeLast: Option<real>,              // function-static, set on first velocity tick
    timeBeforeBrake: real,
    speedsAngles: WheelOutputs,           // last kinematics output
    slotRet: int,                         // 16-bit
    slotRetDiffLastSum: int)

  predicate WellSized(s: ControllerState) {
    |s.speedJoints| == WheelCount && |s.steeringJoints| == WheelCount
    && |s.fullDrive| == WheelCount && |s.fullSteer| == WheelCount
    && 0 <= s.slotRet < 65536
  }

  /** Every queued command can be buffered. */
  predicate QueueReadable(q: seq<ProfileCommand>) {
    forall j :: 0 <= j < |q| ==> CommandReadable(q[j])
  }

  // ------------------------------------------- joint-array step functions

  function SetProfileRun(js: seq<JointCommand>, run: bool): seq<JointCommand> {
    seq(|js|, k requires 0 <= k < |js| => js[k].(customProfileRun := run))
  }

  function SetRunSlot(js: seq<JointCommand>, slot: int): seq<JointCommand> {
    seq(|js|, k requires 0 <= k < |js| => js[k].(customProfileSlot := slot))
  }

  function SetNextSlots(js: seq<JointCommand>, q: seq<int>): seq<JointCommand> {
    seq(|js|, k requires 0 <= k < |js| => js[k].(customProfileNextSlot := q))
  }

  /** Slots 0 .. n-1 overwritten with empty lists, in increasing order. */
  function ClearSlots(m: map<int, seq<ProfilePoint>>, n: nat): (r: map<int, seq<ProfilePoint>>)
    ensures forall x :: x in r <==> x in m || 0 <= x < n
  {
    if n == 0 then m else ClearSlots(m, n - 1)[n - 1 := []]
  }

  /** Every joint with its slots 0 .. n-1 cleared. */
  function WipeSlotsUpTo(js: seq<JointCommand>, n: nat): (r: seq<JointCommand>)
    ensures |r| == |js|
    ensures forall k :: 0 <= k < |js| ==> r[k].(profileSlots := js[k].profileSlots) == js[k]
  {
    seq(|js|, k requires 0 <= k < |js| => js[k].(profileSlots := ClearSlots(js[k].profileSlots, n)))
  }

  /** Every joint with slot x cleared. */
  function ClearSlot(js: seq<JointCommand>, x: int): seq<JointCommand> {
    seq(|js|, k requires 0 <= k < |js| => js[k].(profileSlots := js[k].profileSlots[x := []]))
  }

  function OverwriteSlot(js: seq<JointCommand>, slot: int, lists: seq<seq<ProfilePoint>>): (r: seq<JointCommand>)
    requires |lists| == |js|
    ensures |r| == |js|
    ensures forall k :: 0 <= k < |js| ==>
      r[k].(profileSlots := js[k].profileSlots) == js[k]
      && slot in r[k].profileSlots && r[k].profileSlots[slot] == lists[k]
      && r[k].profileSlots.Keys == js[k].profileSlots.Keys + {slot}
  {
    seq(|js|, k requires 0 <= k < |js| => js[k].(profileSlots := js[k].profileSlots[slot := lists[k]]))
  }

  function PrepareSteering(js: seq<JointCommand>): seq<JointCommand> {
    seq(|js|, k requires 0 <= k < |js| =>
      js[k].(customProfileRun := false, pidfSlot := 0, mode := Position, demand1 := 0.0))
  }

  function PrepareSpeed(js: seq<JointCommand>): seq<JointCommand> {
    seq(|js|, k requires 0 <= k < |js| =>
      js[k].(customProfileRun := false, pidfSlot := 0, closedLoopRamp := 0.0, demand1 := 0.0))
  }

  function SpeedOpenLoopZero(js: seq<JointCommand>): seq<JointCommand> {
    seq(|js|, k requires 0 <= k < |js| => js[k].(command := 0.0, mode := PercentOutput))
  }

  function SpeedCommandZero(js: seq<JointCommand>): seq<JointCommand> {
    seq(|js|, k requires 0 <= k < |js| => js[k].(command := 0.0))
  }

  function SteerToAngles(js: seq<JointCommand>, outs: WheelOutputs): seq<JointCommand>
    requires |js| == WheelCount
  {
    seq(|js|, k requires 0 <= k < |js| => js[k].(command := outs[k].angle))
  }

  function SpeedToVelocity(js: seq<JointCommand>, outs: WheelOutputs): seq<JointCommand>
    requires |js| == WheelCount
  {
    seq(|js|, k requires 0 <= k < |js| => js[k].(mode := Velocity, command := outs[k].speed))
  }

  // ------------------------------------------------- buffered point lists

  /** Drive point i of wheel k: a held wheel runs open loop at zero; only the
      first point zeroes the position; the drive PID slot is always 1. */
  function DrivePoint(seg: ProfileSegment, i: nat, k: nat): ProfilePoint
    requires PointReadable(seg, i) && k < WheelCount
  {
    var hold := seg.hold[i][k];
    ProfilePoint(
      if hold then PercentOutput else Position,
      if hold then 0.0 else seg.drivePos[i][k],
      if hold then 0.0 else seg.driveF[i][k],
      1, seg.dt, i == 0)
  }

  /** Steering point i of wheel k: a held wheel uses motion magic and PID
      slot 0 with no feed-forward; the steering position is always used. */
  function SteerPoint(seg: ProfileSegment, i: nat, k: nat): ProfilePoint
    requires PointReadable(seg, i) && k < WheelCount
  {
    var hold := seg.hold[i][k];
    ProfilePoint(
      if hold then MotionMagic else Position,
      seg.steerPos[i][k],
      if hold then 0.0 else seg.steerF[i][k],
      if hold then 0 else 1, seg.dt, false)
  }

  function DriveList(seg: ProfileSegment, k: nat): seq<ProfilePoint>
    requires SegmentReadable(seg) && k < WheelCount
  {
    seq(|seg.drivePos|, i requires 0 <= i < |seg.drivePos| => DrivePoint(seg, i, k))
  }

  function SteerList(seg: ProfileSegment, k: nat): seq<ProfilePoint>
    requires SegmentReadable(seg) && k < WheelCount
  {
    seq(|seg.drivePos|, i requires 0 <= i < |seg.drivePos| => SteerPoint(seg, i, k))
  }

  function DriveLists(seg: ProfileSegment): seq<seq<ProfilePoint>>
    requires SegmentReadable(seg)
  {
    seq(WheelCount, k requires 0 <= k < WheelCount => DriveList(seg, k))
  }

  function SteerLists(seg: ProfileSegment): seq<seq<ProfilePoint>>
    requires SegmentReadable(seg)
  {
    seq(WheelCount, k requires 0 <= k < WheelCount => SteerList(seg, k))
  }

  /** Each wheel's lists have one entry per profile point; the drive list
      zeroes position at its first point only; drive always uses PID slot 1;
      a held wheel drives open loop at zero and steers by motion magic in PID
      slot 0, while a free wheel follows the profile's positions and
      feed-forwards in position mode. */
  lemma BufferedPointRules(seg: ProfileSegment, k: nat, i: nat)
    requires SegmentReadable(seg) && k < WheelCount && i < |seg.drivePos|
    ensures PointReadable(seg, i)
    ensures |DriveList(seg, k)| == |seg.drivePos| == |SteerList(seg, k)|
    ensures DriveList(seg, k)[i].zeroPos <==> i == 0
    ensures !SteerList(seg, k)[i].zeroPos
    ensures DriveList(seg, k)[i].pidSlot == 1
    ensures DriveList(seg, k)[i].duration == seg.dt == SteerList(seg, k)[i].duration
    ensures SteerList(seg, k)[i].setpoint == seg.steerPos[i][k]
    ensures seg.hold[i][k] ==>
      DriveList(seg, k)[i].mode == PercentOutput && DriveList(seg, k)[i].setpoint == 0.0
      && DriveList(seg, k)[i].fTerm == 0.0 && SteerList(seg, k)[i].fTerm == 0.0
      && SteerList(seg, k)[i].mode == MotionMagic && SteerList(seg, k)[i].pidSlot == 0
    ensures !seg.hold[i][k] ==>
      DriveList(seg, k)[i].mode == Position && DriveList(seg, k)[i].setpoint == seg.drivePos[i][k]
      && DriveList(seg, k)[i].fTerm == seg.driveF[i][k] && SteerList(seg, k)[i].fTerm == seg.steerF[i][k]
      && SteerList(seg, k)[i].mode == Position && SteerList(seg, k)[i].pidSlot == 1
  {
  }

  // ------------------------------------------------------ step functions

  /** The brake sub-action: stop every joint's profile, queue a zero velocity
      command stamped now, and select velocity mode. */
  function BrakeActionSpec(s: ControllerState, now: real): (r: ControllerState)
    ensures WellSized(s) ==> WellSized(r)
  {
    s.(steeringJoints := SetProfileRun(s.steeringJoints, false),
       speedJoints := SetProfileRun(s.speedJoints, false),
       command := Commands(0.0, 0.0, 0.0, now),
       mode := true)
  }

  function EmptyLists(): seq<seq<ProfilePoint>> {
    seq(WheelCount, _ => [])
  }

  /** The wipe_all sub-action. */
  function WipeAllSpec(s: ControllerState): (r: ControllerState)
    ensures WellSized(s) ==> WellSized(r)
  {
    s.(fullDrive := EmptyLists(), fullSteer := EmptyLists(),
       speedJoints := WipeSlotsUpTo(s.speedJoints, NumProfileSlots),
       steeringJoints := WipeSlotsUpTo(s.steeringJoints, NumProfileSlots))
  }

  /** Buffering one profile: build every wheel's lists and overwrite the
      profile's slot with them. */
  function BufferOne(s: ControllerState, seg: ProfileSegment): (r: ControllerState)
    requires WellSized(s) && SegmentReadable(seg)
    ensures WellSized(r)
  {
    s.(fullDrive := DriveLists(seg), fullSteer := SteerLists(seg),
       speedJoints := OverwriteSlot(s.speedJoints, seg.slot, DriveLists(seg)),
       steeringJoints := OverwriteSlot(s.steeringJoints, seg.slot, SteerLists(seg)))
  }

  predicate AllReadable(segs: seq<ProfileSegment>) {
    forall j :: 0 <= j < |segs| ==> SegmentReadable(segs[j])
  }

  /** The buffer sub-action: the profiles in order. It changes only the
      built lists and the joints' profile slots. */
  function BufferAll(s: ControllerState, segs: seq<ProfileSegment>): (r: ControllerState)
    requires WellSized(s) && AllReadable(segs)
    ensures WellSized(r)
    ensures r.(fullDrive := s.fullDrive, fullSteer := s.fullSteer,
               speedJoints := s.speedJoints, steeringJoints := s.steeringJoints) == s
    ensures forall k :: 0 <= k < WheelCount ==>
      r.speedJoints[k] == s.speedJoints[k].(profileSlots := r.speedJoints[k].profileSlots)
      && r.steeringJoints[k] == s.steeringJoints[k].(profileSlots := r.steeringJoints[k].profileSlots)
    decreases |segs|
  {
    if |segs| == 0 then s
    else BufferOne(BufferAll(s, segs[..|segs| - 1]), segs[|segs| - 1])
  }

  /** The run sub-action: profile mode, and every joint runs the given slot. */
  function RunActionSpec(s: ControllerState, slot: int): (r: ControllerState)
    ensures WellSized(s) ==> WellSized(r)
  {
    s.(mode := false,
       steeringJoints := SetRunSlot(s.steeringJoints, slot),
       speedJoints := SetRunSlot(s.speedJoints, slot))
  }

  function ChangeQueueSpec(s: ControllerState, q: seq<int>): (r: ControllerState)
    ensures WellSized(s) ==> WellSized(r)
  {
    s.(steeringJoints := SetNextSlots(s.steeringJoints, q),
       speedJoints := SetNextSlots(s.speedJoints, q))
  }

  /** A dequeued command's sub-actions, always in the order brake, wipe_all,
      buffer, run, change_queue. */
  function ApplyProfileCommandSpec(s: ControllerState, c: ProfileCommand, now: real): (r: ControllerState)
    requires WellSized(s) && CommandReadable(c)
    ensures WellSized(r) && r.queue == s.queue
  {
    var s1 := if c.brake then BrakeActionSpec(s, now) else s;
    var s2 := if c.wipeAll then WipeAllSpec(s1) else s1;
    var s3 := if c.buffer then BufferAll(s2, c.profiles) else s2;
    var s4 := if c.run then RunActionSpec(s3, c.runSlot) else s3;
    if c.changeQueue then ChangeQueueSpec(s4, c.newQueue) else s4
  }

  /** The command actually driven: zero once it is older than the timeout. */
  function EffectiveCommand(c: Commands, time: real): (r: Commands)
    ensures r.stamp == c.stamp
    ensures time - c.stamp <= CmdVelTimeout ==> r == c
    ensures time - c.stamp > CmdVelTimeout ==> IsStop(r)
  {
    if time - c.stamp > CmdVelTimeout then c.(linX := 0.0, linY := 0.0, ang := 0.0) else c
  }

  /** A command is a stop when no component exceeds the threshold; the zero
      command is one. */
  predicate IsStop(c: Commands)
    ensures c.linX == 0.0 && c.linY == 0.0 && c.ang == 0.0 ==> IsStop(c)
    ensures IsStop(c) ==> -StopThreshold <= c.linX <= StopThreshold && -StopThreshold <= c.ang <= StopThreshold
  {
    Abs(c.linX) <= StopThreshold && Abs(c.linY) <= StopThreshold && Abs(c.ang) <= StopThreshold
  }

  function ParkRequest(curPos: WheelReals): KinematicsRequest {
    KinematicsRequest(0.0, 0.0, 0.0, 0.0, false, true, curPos, false)
  }

  function DriveRequest(c: Commands, curPos: WheelReals): KinematicsRequest {
    KinematicsRequest(c.linX, c.linY, c.ang, Pi / 2.0, false, false, curPos, true)
  }

  /** brake(): zero drive command, steering to the parking angles. */
  function BrakeSpec(s: ControllerState, kin: Kinematics, curPos: WheelReals): (r: ControllerState)
    requires WellSized(s)
    ensures WellSized(r)
  {
    s.(speedJoints := SpeedCommandZero(s.speedJoints),
       steeringJoints := SteerToAngles(s.steeringJoints, kin(ParkRequest(curPos))))
  }

  /** Start of a velocity-mode tick: every joint leaves profile mode, and
      brakeLast is set on first use. */
  function PrepareVelocitySpec(s: ControllerState, now: real): (r: ControllerState)
    ensures WellSized(s) ==> WellSized(r)
  {
    s.(steeringJoints := PrepareSteering(s.steeringJoints),
       speedJoints := PrepareSpeed(s.speedJoints),
       brakeLast := Some(if s.brakeLast.Some? then s.brakeLast.value else now))
  }

  /** The stop path: drive open loop at zero; park after ParkDelay of
      stillness, else hold the last steering angles. */
  function StopTickSpec(s: ControllerState, kin: Kinematics, now: real, curPos: WheelReals): (r: ControllerState)
    requires WellSized(s)
    ensures WellSized(r) && r.queue == s.queue && r.mode == s.mode
  {
    var s1 := s.(brakeLast := Some(now), speedJoints := SpeedOpenLoopZero(s.speedJoints));
    if now - s1.timeBeforeBrake > ParkDelay then BrakeSpec(s1, kin, curPos)
    else s1.(steeringJoints := SteerToAngles(s1.steeringJoints, s1.speedsAngles))
  }

  /** The moving path: steer to the kinematics angles; drive at the
      kinematics speeds unless a brake and a profile run are both recent. */
  function MoveTickSpec(s: ControllerState, kin: Kinematics, cmd: Commands, now: real,
                        curPos: WheelReals, modeLast: real): (r: ControllerState)
    requires WellSized(s) && s.brakeLast.Some?
    ensures WellSized(r) && r.queue == s.queue && r.mode == s.mode
  {
    var outs := kin(DriveRequest(cmd, curPos));
    var s1 := s.(timeBeforeBrake := now, speedsAngles := outs,
                 steeringJoints := SteerToAngles(s.steeringJoints, outs));
    if now - OpenLoopWindow > s.brakeLast.value || now - OpenLoopWindow > modeLast then
      s1.(speedJoints := SpeedToVelocity(s1.speedJoints, outs))
    else
      s1.(speedJoints := SpeedOpenLoopZero(s1.speedJoints))
  }

  /** A velocity-mode tick; the flag says whether the stop path returned
      early (skipping the slot check). */
  function VelocityTickSpec(s: ControllerState, kin: Kinematics, time: real, now: real,
                            curPos: WheelReals, modeLast: real): (r: (ControllerState, bool))
    requires WellSized(s)
    ensures WellSized(r.0) && r.0.queue == s.queue && r.0.mode == s.mode
    ensures r.1 <==> IsStop(EffectiveCommand(s.command, time))
  {
    var cmd := EffectiveCommand(s.command, time);
    var s1 := PrepareVelocitySpec(s, now);
    if IsStop(cmd) then (StopTickSpec(s1, kin, now, curPos), true)
    else (MoveTickSpec(s1, kin, cmd, now, curPos, modeLast), false)
  }

  /** A profile-mode tick: remember the time and keep every profile running. */
  function ProfileTickSpec(s: ControllerState, now: real): (r: ControllerState)
    ensures WellSized(s) ==> WellSized(r)
  {
    s.(modeLast := Some(now),
       steeringJoints := SetProfileRun(s.steeringJoints, true),
       speedJoints := SetProfileRun(s.speedJoints, true))
  }

  /** The slot check over the reported slots: the last slot seen (stored in
      16 bits) and a running count of changes between consecutive readings. */
  function SlotScan(slotRet: int, sum: int, reported: seq<int>): (r: (int, int))
    ensures r.1 >= sum
    ensures |reported| == 0 ==> r == (slotRet, sum)
    decreases |reported|
  {
    if |reported| == 0 then (slotRet, sum)
    else
      var prev := SlotScan(slotRet, sum, reported[..|reported| - 1]);
      var x := reported[|reported| - 1];
      (Uint16(x), if prev.0 != x then prev.1 + 1 else prev.1)
  }

  datatype TickOutcome = TickOutcome(state: ControllerState, slotIssue: bool)

  function SlotCheckSpec(s: ControllerState, reported: seq<int>): (r: TickOutcome)
    ensures WellSized(s) ==> WellSized(r.state)
    ensures r.state.(slotRet := s.slotRet, slotRetDiffLastSum := s.slotRetDiffLastSum) == s
  {
    var r := SlotScan(s.slotRet, s.slotRetDiffLastSum, reported);
    TickOutcome(s.(slotRet := r.0, slotRetDiffLastSum := r.1), r.1 > SlotIssueLimit)
  }

  /** Taking the front command off the queue, if any, and applying it. */
  function DequeueSpec(s: ControllerState, now: real): (r: ControllerState)
    requires WellSized(s) && QueueReadable(s.queue)
    ensures WellSized(r) && QueueReadable(r.queue)
    ensures r.queue == if |s.queue| > 0 then s.queue[1..] else s.queue
  {
    if |s.queue| > 0 then ApplyProfileCommandSpec(s.(queue := s.queue[1..]), s.queue[0], now) else s
  }

  /** One control tick (update): pop and apply at most one queued command,
      then drive by velocity or by profile, then check the running slots. */
  function UpdateSpec(s: ControllerState, kin: Kinematics, time: real, now: real,
                      curPos: WheelReals, reported: seq<int>): (r: TickOutcome)
    requires WellSized(s) && QueueReadable(s.queue)
    ensures WellSized(r.state)
  {
    var s1 := DequeueSpec(s, now);
    var modeLast := if s1.modeLast.Some? then s1.modeLast.value else now;
    var s2 := s1.(modeLast := Some(modeLast));
    if s2.mode then
      var v := VelocityTickSpec(s2, kin, time, now, curPos, modeLast);
      if v.1 then TickOutcome(v.0, false) else SlotCheckSpec(v.0, reported)
    else
      SlotCheckSpec(ProfileTickSpec(s2, now), reported)
  }

  /** cmdVelCallback: while running, store the command stamped now and select
      velocity mode; otherwise the command is refused. */
  function CmdVelSpec(s: ControllerState, linX: real, linY: real, ang: real, now: real): (r: ControllerState)
    ensures r.(command := s.command, mode := s.mode) == s
    ensures !s.running ==> r == s
    ensures s.running ==> r.mode && r.command == Commands(linX, linY, ang, now)
    ensures s.running ==> EffectiveCommand(r.command, now) == r.command
  {
    if s.running then s.(command := Commands(linX, linY, ang, now), mode := true) else s
  }

  /** brakeService: while running, a zero command stamped now, velocity mode. */
  function BrakeServiceSpec(s: ControllerState, now: real): (r: ControllerState)
    ensures r.(command := s.command, mode := s.mode) == s
    ensures !s.running ==> r == s
    ensures s.running ==> r.mode && r.command.stamp == now && IsStop(r.command)
  {
    if s.running then s.(command := Commands(0.0, 0.0, 0.0, now), mode := true) else s
  }

  /** motionProfileService: while running, append the converted request. */
  function ProfileServiceSpec(s: ControllerState, req: MotionProfileRequest): (r: ControllerState)
    ensures r.(queue := s.queue) == s
    ensures !s.running ==> r == s
    ensures s.running ==> |r.queue| == |s.queue| + 1 && r.queue[..|s.queue|] == s.queue
                          && r.queue[|s.queue|] == CommandOf(req)
  {
    if s.running then s.(queue := s.queue + [CommandOf(req)]) else s
  }

  // ------------------------------------------------------------- lemmas

  /** wipe_all leaves slots 0 .. n-1 empty and every other slot as it was. */
  lemma {:induction false} ClearSlotsEffect(m: map<int, seq<ProfilePoint>>, n: nat, x: int)
    ensures 0 <= x < n ==> x in ClearSlots(m, n) && ClearSlots(m, n)[x] == []
    ensures !(0 <= x < n) ==> (x in ClearSlots(m, n) <==> x in m)
    ensures !(0 <= x < n) && x in m ==> ClearSlots(m, n)[x] == m[x]
  {
    if n > 0 {
      ClearSlotsEffect(m, n - 1, x);
    }
  }

  /** The last profile of a buffer command that targets slot x, or -1. */
  function LastWriter(segs: seq<ProfileSegment>, x: int): (j: int)
    ensures -1 <= j < |segs|
    ensures j >= 0 ==> segs[j].slot == x
    ensures forall i :: j < i < |segs| ==> segs[i].slot != x
  {
    if |segs| == 0 then -1
    else if segs[|segs| - 1].slot == x then |segs| - 1
    else LastWriter(segs[..|segs| - 1], x)
  }

  /** After buffering, slot x of every joint holds the lists of the last
      profile that targets x; a slot no profile targets is untouched. */
  lemma {:induction false} BufferLastWriterWins(s: ControllerState, segs: seq<ProfileSegment>, k: nat, x: int)
    requires WellSized(s) && AllReadable(segs) && k < WheelCount
    ensures var r := BufferAll(s, segs); var j := LastWriter(segs, x);
      (j >= 0 ==>
         x in r.speedJoints[k].profileSlots && r.speedJoints[k].profileSlots[x] == DriveList(segs[j], k)
         && x in r.steeringJoints[k].profileSlots && r.steeringJoints[k].profileSlots[x] == SteerList(segs[j], k))
      && (j < 0 ==>
         (x in r.speedJoints[k].profileSlots <==> x in s.speedJoints[k].profileSlots)
         && (x in s.speedJoints[k].profileSlots ==> r.speedJoints[k].profileSlots[x] == s.speedJoints[k].profileSlots[x])
         && (x in r.steeringJoints[k].profileSlots <==> x in s.steeringJoints[k].profileSlots)
         && (x in s.steeringJoints[k].profileSlots ==> r.steeringJoints[k].profileSlots[x] == s.steeringJoints[k].profileSlots[x]))
    decreases |segs|
  {
    if |segs| > 0 {
      var init := segs[..|segs| - 1];
      assert AllReadable(init) by {
        forall j | 0 <= j < |init| ensures SegmentReadable(init[j]) { assert init[j] == segs[j]; }
      }
      BufferLastWriterWins(s, init, k, x);
    }
  }

  /** Sub-action order: a command with run ends in profile mode even when it
      also asks to brake; brake alone selects velocity mode; otherwise the
      mode is kept. */
  lemma ProfileCommandMode(s: ControllerState, c: ProfileCommand, now: real)
    requires WellSized(s) && CommandReadable(c)
    ensures ApplyProfileCommandSpec(s, c, now).mode == (if c.run then false else if c.brake then true else s.mode)
    ensures ApplyProfileCommandSpec(s, c, now).queue == s.queue
  {
  }

  /** A brake command stops every joint's profile and leaves a zero velocity
      command stamped now; run does not set the profile-run flag again. */
  lemma BrakeCommandStopsProfiles(s: ControllerState, c: ProfileCommand, now: real, k: nat)
    requires WellSized(s) && CommandReadable(c) && c.brake && k < WheelCount
    ensures !ApplyProfileCommandSpec(s, c, now).speedJoints[k].customProfileRun
    ensures !ApplyProfileCommandSpec(s, c, now).steeringJoints[k].customProfileRun
    ensures ApplyProfileCommandSpec(s, c, now).command == Commands(0.0, 0.0, 0.0, now)
  {
  }

  /** run sets every joint's running slot, and change_queue every joint's
      queue of next slots, to the command's values; without them each is
      kept. */
  lemma RunAndChangeQueueSetSlots(s: ControllerState, c: ProfileCommand, now: real, k: nat)
    requires WellSized(s) && CommandReadable(c) && k < WheelCount
    ensures var r := ApplyProfileCommandSpec(s, c, now);
      r.speedJoints[k].customProfileSlot == (if c.run then c.runSlot else s.speedJoints[k].customProfileSlot)
      && r.steeringJoints[k].customProfileSlot == (if c.run then c.runSlot else s.steeringJoints[k].customProfileSlot)
      && r.speedJoints[k].customProfileNextSlot
         == (if c.changeQueue then c.newQueue else s.speedJoints[k].customProfileNextSlot)
      && r.steeringJoints[k].customProfileNextSlot
         == (if c.changeQueue then c.newQueue else s.steeringJoints[k].customProfileNextSlot)
  {
    var s1 := if c.brake then BrakeActionSpec(s, now) else s;
    var s2 := if c.wipeAll then WipeAllSpec(s1) else s1;
    var s3 := if c.buffer then BufferAll(s2, c.profiles) else s2;
    assert s3.speedJoints[k].customProfileSlot == s.speedJoints[k].customProfileSlot;
    assert s3.steeringJoints[k].customProfileSlot == s.steeringJoints[k].customProfileSlot;
    assert s3.speedJoints[k].customProfileNextSlot == s.speedJoints[k].customProfileNextSlot;
    assert s3.steeringJoints[k].customProfileNextSlot == s.steeringJoints[k].customProfileNextSlot;
  }

  /** wipe_all without buffering leaves slots 0 .. 19 empty on every joint. */
  lemma WipeAllEmptiesSlots(s: ControllerState, c: ProfileCommand, now: real, k: nat, x: int)
    requires WellSized(s) && CommandReadable(c) && c.wipeAll && !c.buffer
    requires k < WheelCount && 0 <= x < NumProfileSlots
    ensures var r := ApplyProfileCommandSpec(s, c, now);
      x in r.speedJoints[k].profileSlots && r.speedJoints[k].profileSlots[x] == []
      && x in r.steeringJoints[k].profileSlots && r.steeringJoints[k].profileSlots[x] == []
  {
    var s1 := if c.brake then BrakeActionSpec(s, now) else s;
    ClearSlotsEffect(s1.speedJoints[k].profileSlots, NumProfileSlots, x);
    ClearSlotsEffect(s1.steeringJoints[k].profileSlots, NumProfileSlots, x);
  }

  /** Each tick takes at most one command, from the front of the queue. */
  lemma UpdatePopsFront(s: ControllerState, kin: Kinematics, time: real, now: real,
                        curPos: WheelReals, reported: seq<int>)
    requires WellSized(s) && QueueReadable(s.queue)
    ensures UpdateSpec(s, kin, time, now, curPos, reported).state.queue
            == if |s.queue| > 0 then s.queue[1..] else []
  {
    var s1 := DequeueSpec(s, now);
  }

  /** A stale or zero velocity command (with no queued command this tick)
      stops the drive wheels open loop, stops every profile, and skips the
      slot check; after more than ParkDelay of stillness the steering goes to
      the parking angles, otherwise it holds the last angles computed. */
  lemma StoppedCommandStopsDrive(s: ControllerState, kin: Kinematics, time: real, now: real,
                                 curPos: WheelReals, reported: seq<int>, k: nat)
    requires WellSized(s) && |s.queue| == 0 && s.mode && k < WheelCount
    requires time - s.command.stamp > CmdVelTimeout || IsStop(s.command)
    ensures var r := UpdateSpec(s, kin, time, now, curPos, reported);
      !r.slotIssue
      && r.state.speedJoints[k].command == 0.0 && r.state.speedJoints[k].mode == PercentOutput
      && !r.state.speedJoints[k].customProfileRun && !r.state.steeringJoints[k].customProfileRun
      && r.state.brakeLast == Some(now)
      && r.state.steeringJoints[k].command ==
           (if now - s.timeBeforeBrake > ParkDelay then kin(ParkRequest(curPos))[k].angle
            else s.speedsAngles[k].angle)
  {
  }

  /** A moving command steers to the kinematics angles; the drive follows the
      kinematics speeds unless both the last brake and the last profile run
      are within OpenLoopWindow, in which case it is held open loop at zero.
      On the first tick the unset statics take the time now, so the drive
      starts open loop. */
  lemma MovingCommandFollowsKinematics(s: ControllerState, kin: Kinematics, time: real, now: real,
                                       curPos: WheelReals, reported: seq<int>, k: nat)
    requires WellSized(s) && |s.queue| == 0 && s.mode && k < WheelCount
    requires !IsStop(EffectiveCommand(s.command, time))
    ensures var r := UpdateSpec(s, kin, time, now, curPos, reported);
      var outs := kin(DriveRequest(EffectiveCommand(s.command, time), curPos));
      var brakeLast := if s.brakeLast.Some? then s.brakeLast.value else now;
      var modeLast := if s.modeLast.Some? then s.modeLast.value else now;
      r.state.steeringJoints[k].command == outs[k].angle
      && r.state.steeringJoints[k].mode == Position
      && r.state.timeBeforeBrake == now
      && r.state.speedsAngles == outs
      && (if now - OpenLoopWindow > brakeLast || now - OpenLoopWindow > modeLast
          then r.state.speedJoints[k].command == outs[k].speed && r.state.speedJoints[k].mode == Velocity
          else r.state.speedJoints[k].command == 0.0 && r.state.speedJoints[k].mode == PercentOutput)
  {
  }

  /** In profile mode every joint runs its profile and the time is noted. */
  lemma ProfileModeRunsProfiles(s: ControllerState, kin: Kinematics, time: real, now: real,
                                curPos: WheelReals, reported: seq<int>, k: nat)
    requires WellSized(s) && |s.queue| == 0 && !s.mode && k < WheelCount
    ensures var r := UpdateSpec(s, kin, time, now, curPos, reported);
      r.state.speedJoints[k].customProfileRun && r.state.steeringJoints[k].customProfileRun
      && r.state.modeLast == Some(now)
  {
  }

  /** The slot-change counter never decreases, grows by at most one per
      reading, ends at the last reading (in 16 bits), and is unchanged when
      every reading equals the slot last seen. */
  lemma {:induction false} SlotCounterMonotone(slotRet: int, sum: int, reported: seq<int>)
    requires 0 <= slotRet < 65536
    ensures var r := SlotScan(slotRet, sum, reported);
      sum <= r.1 <= sum + |reported|
      && 0 <= r.0 < 65536
      && (|reported| > 0 ==> r.0 == Uint16(reported[|reported| - 1]))
      && ((forall i :: 0 <= i < |reported| ==> reported[i] == slotRet) ==> r == (slotRet, sum))
    decreases |reported|
  {
    if |reported| > 0 {
      var init := reported[..|reported| - 1];
      SlotCounterMonotone(slotRet, sum, init);
      if forall i :: 0 <= i < |reported| ==> reported[i] == slotRet {
        assert forall i :: 0 <= i < |init| ==> init[i] == slotRet;
        assert reported[|reported| - 1] == slotRet;
      }
    }
  }

  /** A brake request followed, within the timeout, by a tick with nothing
      queued stops the drive wheels. */
  lemma BrakeServiceStopsDrive(s: ControllerState, kin: Kinematics, t0: real, time: real, now: real,
                               curPos: WheelReals, reported: seq<int>, k: nat)
    requires WellSized(s) && s.running && |s.queue| == 0 && k < WheelCount
    ensures var r := UpdateSpec(BrakeServiceSpec(s, t0), kin, time, now, curPos, reported);
      r.state.speedJoints[k].command == 0.0 && r.state.speedJoints[k].mode == PercentOutput
  {
    var b := BrakeServiceSpec(s, t0);
    assert IsStop(EffectiveCommand(b.command, time));
    StoppedCommandStopsDrive(b, kin, time, now, curPos, reported, k);
  }

  // ------------------------------------------------- queue as a FIFO

  /** What other threads and the control loop do to the profile queue. */
  datatype QueueEvent = Enqueue(cmd: ProfileCommand) | Tick

  /** Queue contents and commands taken so far, after a run of events. */
  function RunQueue(q: seq<ProfileCommand>, events: seq<QueueEvent>): (r: (seq<ProfileCommand>, seq<ProfileCommand>))
    ensures |r.1| <= |events|
    decreases |events|
  {
    if |events| == 0 then (q, [])
    else
      var prev := RunQueue(q, events[..|events| - 1]);
      match events[|events| - 1]
      case Enqueue(c) => (prev.0 + [c], prev.1)
      case Tick => if |prev.0| > 0 then (prev.0[1..], prev.1 + [prev.0[0]]) else prev
  }

  function Enqueued(events: seq<QueueEvent>): (r: seq<ProfileCommand>)
    ensures |r| <= |events|
    decreases |events|
  {
    if |events| == 0 then []
    else Enqueued(events[..|events| - 1])
         + (match events[|events| - 1] case Enqueue(c) => [c] case Tick => [])
  }

  /** FIFO: the commands taken, followed by those still queued, are the
      original queue followed by everything enqueued, in order. */
  lemma {:induction false} QueueIsFifo(q: seq<ProfileCommand>, events: seq<QueueEvent>)
    ensures RunQueue(q, events).1 + RunQueue(q, events).0 == q + Enqueued(events)
    decreases |events|
  {
    if |events| > 0 {
      var init := events[..|events| - 1];
      QueueIsFifo(q, init);
      var prev := RunQueue(q, init);
      match events[|events| - 1]
      case Enqueue(c) =>
        calc {
          RunQueue(q, events).1 + RunQueue(q, events).0;
          prev.1 + (prev.0 + [c]);
          (prev.1 + prev.0) + [c];
          q + Enqueued(events);
        }
      case Tick =>
        if |prev.0| > 0 {
          calc {
            RunQueue(q, events).1 + RunQueue(q, events).0;
            (prev.1 + [prev.0[0]]) + prev.0[1..];
            { assert [prev.0[0]] + prev.0[1..] == prev.0; }
            prev.1 + prev.0;
          }
        }
    }
  }

  /** The service and the tick act on the queue as Enqueue and Tick do. */
  lemma ServiceAndTickAreQueueEvents(s: ControllerState, req: MotionProfileRequest, kin: Kinematics,
                                     time: real, now: real, curPos: WheelReals, reported: seq<int>)
    requires WellSized(s) && QueueReadable(s.queue) && s.running
    ensures ProfileServiceSpec(s, req).queue == RunQueue(s.queue, [Enqueue(CommandOf(req))]).0
    ensures UpdateSpec(s, kin, time, now, curPos, reported).state.queue == RunQueue(s.queue, [Tick]).0
  {
    UpdatePopsFront(s, kin, time, now, curPos, reported);
    assert [Enqueue(CommandOf(req))][..0] == [];
    assert [Tick][..0] == [];
  }

  // ------------------------------------------------- wheel names (init)

  /** A parameter-server value, as far as getWheelNames looks at it. */
  datatype XmlRpcValue = XmlString(str: string) | XmlArray(items: seq<XmlRpcValue>) | XmlOther

  /** What getWheelNames yields for a parameter when the list starts empty. */
  function ParamWheelNames(param: Option<XmlRpcValue>): Option<seq<string>> {
    match param
    case None => None
    case Some(XmlString(s)) => Some([s])
    case Some(XmlArray(items)) =>
      if |items| > 0 && forall i :: 0 <= i < |items| ==> items[i].XmlString?
      then Some(seq(|items|, i requires 0 <= i < |items| && items[i].XmlString? => items[i].str))
      else None
    case Some(XmlOther) => None
  }

  /** getWheelNames: a missing parameter, an empty list, a list with a
      non-string element, or any other type fails and leaves the names alone;
      a list of strings replaces the names with its elements in order; a single
      string is appended to them. */
  method GetWheelNames(param: Option<XmlRpcValue>, names: seq<string>) returns (ok: bool, result: seq<string>)
    ensures !ok ==> result == names
    ensures ok <==> (param.Some? && (param.value.XmlString?
              || (param.value.XmlArray? && |param.value.items| > 0
                  && forall i :: 0 <= i < |param.value.items| ==> param.value.items[i].XmlString?)))
    ensures ok && param.value.XmlString? ==> result == names + [param.value.str]
    ensures ok && param.value.XmlArray? ==>
      |result| == |param.value.items|
      && forall i :: 0 <= i < |result| ==> result[i] == param.value.items[i].str
    ensures names == [] ==> (if ok then Some(result) else None) == ParamWheelNames(param)
  {
    result := names;
    if param.None? {
      return false, result;
    }
    var list := param.value;
    if list.XmlArray? {
      if |list.items| == 0 {
        return false, result;
      }
      var i := 0;
      while i < |list.items|
        invariant 0 <= i <= |list.items|
        invariant forall j :: 0 <= j < i ==> list.items[j].XmlString?
      {
        if !list.items[i].XmlString? {
          return false, result;
        }
        i := i + 1;
      }
      result := seq(|list.items|, _ => "");
      i := 0;
      while i < |list.items|
        invariant 0 <= i <= |list.items| && |result| == |list.items|
        invariant forall j :: 0 <= j < i ==> result[j] == list.items[j].str
      {
        result := result[i := list.items[i].str];
        i := i + 1;
      }
      assert forall j :: 0 <= j < |list.items| ==> list.items[j].XmlString?;
      assert result == seq(|list.items|, j requires 0 <= j < |list.items| && list.items[j].XmlString? => list.items[j].str);
    } else if list.XmlString? {
      result := result + [list.str];
      if names == [] {
        assert result == [list.str];
        assert ParamWheelNames(param) == Some([list.str]);
      }
    } else {
      return false, result;
    }
    ok := true;
  }

  /** The wheel-count part of init: both parameters must yield names (the
      steering one is not read when the speed one fails) and the counts must
      match; the count becomes the number of wheel joints. */
  method WheelJointCount(speedParam: Option<XmlRpcValue>, steeringParam: Option<XmlRpcValue>)
    returns (count: Option<nat>)
    ensures count.Some? <==>
      ParamWheelNames(speedParam).Some? && ParamWheelNames(steeringParam).Some?
      && |ParamWheelNames(speedParam).value| == |ParamWheelNames(steeringParam).value|
    ensures count.Some? ==> count.value == |ParamWheelNames(speedParam).value| && count.value >= 1
  {
    var okSpeed, speedNames := GetWheelNames(speedParam, []);
    if !okSpeed {
      return None;
    }
    var okSteering, steeringNames := GetWheelNames(steeringParam, []);
    if !okSteering {
      return None;
    }
    if |speedNames| != |steeringNames| {
      return None;
    }
    count := Some(|speedNames|);
  }

  // ------------------------------------------------------- the controller

  class Controller {
    const kinematics: Kinematics          // swerveC_->motorOutputs
    var running: bool
    var mode: bool
    var command: Commands
    var queue: seq<ProfileCommand>
    var speedJoints: seq<JointCommand>
    var steeringJoints: seq<JointCommand>
    var fullDrive: seq<seq<ProfilePoint>>
    var fullSteer: seq<seq<ProfilePoint>>
    var holderDrive: seq<ProfilePoint>    // holder_points_[k][0], scratch
    var holderSteer: seq<ProfilePoint>    // holder_points_[k][1], scratch
    var modeLast: Option<real>
    var brakeLast: Option<real>
    var timeBeforeBrake: real
    var speedsAngles: WheelOutputs
    var slotRet: int
    var slotRetDiffLastSum: int

    function State(): ControllerState
      reads this
    {
      ControllerState(running, mode, command, queue, speedJoints, steeringJoints,
        fullDrive, fullSteer, modeLast, brakeLast, timeBeforeBrake, speedsAngles,
        slotRet, slotRetDiffLastSum)
    }

    /** Every per-wheel field has one entry per wheel. */
    predicate Sized()
      reads this
    {
      |speedJoints| == WheelCount && |steeringJoints| == WheelCount
      && |fullDrive| == WheelCount && |fullSteer| == WheelCount
      && |holderDrive| == WheelCount && |holderSteer| == WheelCount
    }

    predicate Valid()
      reads this
    {
      Sized() && 0 <= slotRet < 65536 && QueueReadable(queue)
    }

    /** Construction plus init, for joints already looked up: velocity mode,
        an empty queue, function-static values not yet set. */
    constructor (kinematics: Kinematics, speedJoints: seq<JointCommand>, steeringJoints: seq<JointCommand>)
      requires |speedJoints| == WheelCount && |steeringJoints| == WheelCount
      ensures Valid() && this.kinematics == kinematics
      ensures State() == ControllerState(false, true, Commands(0.0, 0.0, 0.0, 0.0), [],
        speedJoints, steeringJoints, EmptyLists(), EmptyLists(), None, None, 0.0,
        [WheelOutput(0.0, 0.0), WheelOutput(0.0, 0.0), WheelOutput(0.0, 0.0), WheelOutput(0.0, 0.0)], 0, 0)
    {
      this.kinematics := kinematics;
      running := false;
      mode := true;
      command := Commands(0.0, 0.0, 0.0, 0.0);
      queue := [];
      this.speedJoints := speedJoints;
      this.steeringJoints := steeringJoints;
      fullDrive := EmptyLists();
      fullSteer := EmptyLists();
      var p := ProfilePoint(Position, 0.0, 0.0, 0, 0.0, false);
      holderDrive := [p, p, p, p];
      holderSteer := [p, p, p, p];
      modeLast := None;
      brakeLast := None;
      timeBeforeBrake := 0.0;
      speedsAngles := [WheelOutput(0.0, 0.0), WheelOutput(0.0, 0.0), WheelOutput(0.0, 0.0), WheelOutput(0.0, 0.0)];
      slotRet := 0;
      slotRetDiffLastSum := 0;
    }

    method CmdVelCallback(linX: real, linY: real, ang: real, now: real)
      requires Valid()
      modifies this
      ensures Valid()
      ensures State() == CmdVelSpec(old(State()), linX, linY, ang, now)
    {
      if running {
        command := Commands(linX, linY, ang, now);
        mode := true;
      }
    }

    method BrakeService(now: real) returns (accepted: bool)
      requires Valid()
      modifies this
      ensures Valid()
      ensures accepted == old(running)
      ensures State() == BrakeServiceSpec(old(State()), now)
    {
      if running {
        command := Commands(0.0, 0.0, 0.0, now);
        mode := true;
        return true;
      }
      return false;
    }

    method MotionProfileService(req: MotionProfileRequest) returns (accepted: bool)
      requires Valid() && RequestReadable(req)
      modifies this
      ensures Valid()
      ensures accepted == old(running)
      ensures State() == ProfileServiceSpec(old(State()), req)
    {
      if running {
        var c := ConvertRequest(req);
        ReadableRequestGivesReadableCommand(req);
        queue := queue + [c];
        return true;
      }
      return false;
    }

    method SetProfileRunAll(run: bool)
      requires Sized()
      modifies this`speedJoints, this`steeringJoints
      ensures steeringJoints == SetProfileRun(old(steeringJoints), run)
      ensures speedJoints == SetProfileRun(old(speedJoints), run)
    {
      for k := 0 to WheelCount
        invariant |speedJoints| == WheelCount && |steeringJoints| == WheelCount
        invariant forall j :: 0 <= j < k ==>
          steeringJoints[j] == old(steeringJoints[j]).(customProfileRun := run)
          && speedJoints[j] == old(speedJoints[j]).(customProfileRun := run)
        invariant forall j :: k <= j < WheelCount ==>
          steeringJoints[j] == old(steeringJoints[j]) && speedJoints[j] == old(speedJoints[j])
      {
        steeringJoints := steeringJoints[k := steeringJoints[k].(customProfileRun := run)];
        speedJoints := speedJoints[k := speedJoints[k].(customProfileRun := run)];
      }
    }

    method BrakeAction(now: real)
      requires Valid()
      modifies this`mode, this`command, this`speedJoints, this`steeringJoints
      ensures Valid()
      ensures State() == BrakeActionSpec(old(State()), now)
    {
      SetProfileRunAll(false);
      command := Commands(0.0, 0.0, 0.0, now);
      mode := true;
    }

    /** One iteration of the wipe_all loop: slot x emptied on every joint. */
    method ClearSlotAllWheels(x: int)
      requires Sized()
      modifies this`speedJoints, this`steeringJoints, this`fullDrive, this`fullSteer
      ensures Sized()
      ensures speedJoints == ClearSlot(old(speedJoints), x) && steeringJoints == ClearSlot(old(steeringJoints), x)
      ensures fullDrive == EmptyLists() && fullSteer == EmptyLists()
    {
      for k := 0 to WheelCount
        invariant Sized()
        invariant forall j :: 0 <= j < k ==>
          speedJoints[j] == old(speedJoints[j]).(profileSlots := old(speedJoints[j]).profileSlots[x := []])
          && steeringJoints[j] == old(steeringJoints[j]).(profileSlots := old(steeringJoints[j]).profileSlots[x := []])
          && fullDrive[j] == [] && fullSteer[j] == []
        invariant forall j :: k <= j < WheelCount ==>
          speedJoints[j] == old(speedJoints[j]) && steeringJoints[j] == old(steeringJoints[j])
      {
        fullDrive := fullDrive[k := []];
        fullSteer := fullSteer[k := []];
        speedJoints := speedJoints[k := speedJoints[k].(profileSlots := speedJoints[k].profileSlots[x := fullDrive[k]])];
        steeringJoints := steeringJoints[k := steeringJoints[k].(profileSlots := steeringJoints[k].profileSlots[x := fullSteer[k]])];
      }
    }

    method WipeAll()
      requires Valid()
      modifies this`speedJoints, this`steeringJoints, this`fullDrive, this`fullSteer
      ensures Valid()
      ensures State() == WipeAllSpec(old(State()))
    {
      for i := 0 to NumProfileSlots
        invariant Sized()
        invariant speedJoints == WipeSlotsUpTo(old(speedJoints), i)
        invariant steeringJoints == WipeSlotsUpTo(old(steeringJoints), i)
        invariant i > 0 ==> fullDrive == EmptyLists() && fullSteer == EmptyLists()
      {
        ghost var speedBefore := speedJoints;
        ghost var steeringBefore := steeringJoints;
        ClearSlotAllWheels(i);
        assert speedJoints == WipeSlotsUpTo(old(speedJoints), i + 1) by {
          assert forall k :: 0 <= k < WheelCount ==> speedJoints[k] == ClearSlot(speedBefore, i)[k];
        }
        assert steeringJoints == WipeSlotsUpTo(old(steeringJoints), i + 1) by {
          assert forall k :: 0 <= k < WheelCount ==> steeringJoints[k] == ClearSlot(steeringBefore, i)[k];
        }
      }
    }

    /** The point-0 fields the later points of a profile reuse from the holder. */
    predicate HolderCarries(seg: ProfileSegment)
      reads this
    {
      |holderDrive| == WheelCount && |holderSteer| == WheelCount
      && forall k :: 0 <= k < WheelCount ==>
           holderDrive[k].pidSlot == 1 && holderDrive[k].duration == seg.dt && !holderDrive[k].zeroPos
           && holderSteer[k].duration == seg.dt && !holderSteer[k].zeroPos
    }

    /** Point 0 of every wheel: clear the lists and push the holder points. */
    method BufferFirstPoints(seg: ProfileSegment)
      requires Sized() && SegmentReadable(seg)
      modifies this`fullDrive, this`fullSteer, this`holderDrive, this`holderSteer
      ensures Sized() && HolderCarries(seg)
      ensures forall k :: 0 <= k < WheelCount ==>
        fullDrive[k] == DriveList(seg, k)[..1] && fullSteer[k] == SteerList(seg, k)[..1]
    {
      for i := 0 to WheelCount
        invariant Sized()
        invariant forall k :: 0 <= k < i ==>
          fullDrive[k] == [DrivePoint(seg, 0, k)] && fullSteer[k] == [SteerPoint(seg, 0, k)]
          && holderDrive[k].pidSlot == 1 && holderDrive[k].duration == seg.dt && !holderDrive[k].zeroPos
          && holderSteer[k].duration == seg.dt && !holderSteer[k].zeroPos
      {
        assert PointReadable(seg, 0);
        var hold := seg.hold[0][i];
        holderDrive := holderDrive[i := holderDrive[i].(
          mode := if hold then PercentOutput else Position,
          pidSlot := 1,
          setpoint := if hold then 0.0 else seg.drivePos[0][i],
          fTerm := if hold then 0.0 else seg.driveF[0][i],
          duration := seg.dt,
          zeroPos := true)];
        holderSteer := holderSteer[i := holderSteer[i].(
          mode := if hold then MotionMagic else Position,
          pidSlot := if hold then 0 else 1,
          setpoint := seg.steerPos[0][i],
          fTerm := if hold then 0.0 else seg.steerF[0][i],
          duration := seg.dt,
          zeroPos := false)];
        fullDrive := fullDrive[i := [holderDrive[i]]];
        fullSteer := fullSteer[i := [holderSteer[i]]];
        holderDrive := holderDrive[i := holderDrive[i].(zeroPos := false)];
      }
    }

    /** Point i of wheel k, for i >= 1: only mode, setpoint, feed-forward and
        the steering PID slot are rewritten; the rest is carried over from
        point 0, then the holders are appended to the wheel's lists. */
    method AppendWheelPoint(seg: ProfileSegment, i: nat, k: nat)
      requires Sized() && SegmentReadable(seg) && HolderCarries(seg)
      requires 1 <= i < |seg.drivePos| && k < WheelCount
      modifies this`fullDrive, this`fullSteer, this`holderDrive, this`holderSteer
      ensures Sized() && HolderCarries(seg)
      ensures fullDrive == old(fullDrive)[k := old(fullDrive[k]) + [DrivePoint(seg, i, k)]]
      ensures fullSteer == old(fullSteer)[k := old(fullSteer[k]) + [SteerPoint(seg, i, k)]]
    {
      assert PointReadable(seg, i);
      var hold := seg.hold[i][k];
      holderDrive := holderDrive[k := holderDrive[k].(
        mode := if hold then PercentOutput else Position,
        setpoint := if hold then 0.0 else seg.drivePos[i][k],
        fTerm := if hold then 0.0 else seg.driveF[i][k])];
      holderSteer := holderSteer[k := holderSteer[k].(
        mode := if hold then MotionMagic else Position,
        setpoint := seg.steerPos[i][k],
        fTerm := if hold then 0.0 else seg.steerF[i][k],
        pidSlot := if hold then 0 else 1)];
      fullDrive := fullDrive[k := fullDrive[k] + [holderDrive[k]]];
      fullSteer := fullSteer[k := fullSteer[k] + [holderSteer[k]]];
    }

    /** Points 1 onwards, each for every wheel. */
    method BufferLaterPoints(seg: ProfileSegment)
      requires Sized() && SegmentReadable(seg) && HolderCarries(seg)
      requires forall k :: 0 <= k < WheelCount ==>
        fullDrive[k] == DriveList(seg, k)[..1] && fullSteer[k] == SteerList(seg, k)[..1]
      modifies this`fullDrive, this`fullSteer, this`holderDrive, this`holderSteer
      ensures Sized()
      ensures fullDrive == DriveLists(seg) && fullSteer == SteerLists(seg)
    {
      for i := 1 to |seg.drivePos|
        invariant Sized() && HolderCarries(seg)
        invariant forall k :: 0 <= k < WheelCount ==>
          fullDrive[k] == DriveList(seg, k)[..i] && fullSteer[k] == SteerList(seg, k)[..i]
      {
        for k := 0 to WheelCount
          invariant Sized() && HolderCarries(seg)
          invariant forall j :: 0 <= j < k ==>
            fullDrive[j] == DriveList(seg, j)[..i + 1] && fullSteer[j] == SteerList(seg, j)[..i + 1]
          invariant forall j :: k <= j < WheelCount ==>
            fullDrive[j] == DriveList(seg, j)[..i] && fullSteer[j] == SteerList(seg, j)[..i]
        {
          assert DriveList(seg, k)[..i + 1] == DriveList(seg, k)[..i] + [DrivePoint(seg, i, k)];
          assert SteerList(seg, k)[..i + 1] == SteerList(seg, k)[..i] + [SteerPoint(seg, i, k)];
          AppendWheelPoint(seg, i, k);
        }
      }
      assert forall k :: 0 <= k < WheelCount ==> DriveList(seg, k)[..|seg.drivePos|] == DriveList(seg, k);
      assert forall k :: 0 <= k < WheelCount ==> SteerList(seg, k)[..|seg.drivePos|] == SteerList(seg, k);
    }

    /** Hand every wheel's lists to its joints under the profile's slot. */
    method OverwriteProfileSlot(slot: int)
      requires Sized()
      modifies this`speedJoints, this`steeringJoints
      ensures Sized()
      ensures speedJoints == OverwriteSlot(old(speedJoints), slot, fullDrive)
      ensures steeringJoints == OverwriteSlot(old(steeringJoints), slot, fullSteer)
    {
      for k := 0 to WheelCount
        invariant Sized()
        invariant forall j :: 0 <= j < k ==>
          speedJoints[j] == old(speedJoints[j]).(profileSlots := old(speedJoints[j]).profileSlots[slot := fullDrive[j]])
          && steeringJoints[j] == old(steeringJoints[j]).(profileSlots := old(steeringJoints[j]).profileSlots[slot := fullSteer[j]])
        invariant forall j :: k <= j < WheelCount ==>
          speedJoints[j] == old(speedJoints[j]) && steeringJoints[j] == old(steeringJoints[j])
      {
        speedJoints := speedJoints[k := speedJoints[k].(profileSlots := speedJoints[k].profileSlots[slot := fullDrive[k]])];
        steeringJoints := steeringJoints[k := steeringJoints[k].(profileSlots := steeringJoints[k].profileSlots[slot := fullSteer[k]])];
      }
    }

    /** Buffering one profile. */
    method BufferProfile(seg: ProfileSegment)
      requires Valid() && SegmentReadable(seg)
      modifies this`fullDrive, this`fullSteer, this`holderDrive, this`holderSteer, this`speedJoints, this`steeringJoints
      ensures Valid()
      ensures State() == BufferOne(old(State()), seg)
    {
      BufferFirstPoints(seg);
      BufferLaterPoints(seg);
      OverwriteProfileSlot(seg.slot);
    }

    method BufferProfiles(segs: seq<ProfileSegment>)
      requires Valid() && AllReadable(segs)
      modifies this`fullDrive, this`fullSteer, this`holderDrive, this`holderSteer, this`speedJoints, this`steeringJoints
      ensures Valid()
      ensures State() == BufferAll(old(State()), segs)
    {
      for p := 0 to |segs|
        invariant Valid()
        invariant State() == BufferAll(old(State()), segs[..p])
      {
        assert segs[..p + 1][..p] == segs[..p];
        assert segs[..p + 1][p] == segs[p];
        assert SegmentReadable(segs[p]);
        BufferProfile(segs[p]);
      }
      assert segs[..|segs|] == segs;
    }

    method RunAction(slot: int)
      requires Valid()
      modifies this`mode, this`speedJoints, this`steeringJoints
      ensures Valid()
      ensures State() == RunActionSpec(old(State()), slot)
    {
      mode := false;
      for k := 0 to WheelCount
        invariant Sized()
        invariant forall j :: 0 <= j < k ==>
          steeringJoints[j] == old(steeringJoints[j]).(customProfileSlot := slot)
          && speedJoints[j] == old(speedJoints[j]).(customProfileSlot := slot)
        invariant forall j :: k <= j < WheelCount ==>
          steeringJoints[j] == old(steeringJoints[j]) && speedJoints[j] == old(speedJoints[j])
        invariant mode == false
      {
        steeringJoints := steeringJoints[k := steeringJoints[k].(customProfileSlot := slot)];
        speedJoints := speedJoints[k := speedJoints[k].(customProfileSlot := slot)];
      }
    }

    method ChangeQueue(q: seq<int>)
      requires Valid()
      modifies this`speedJoints, this`steeringJoints
      ensures Valid()
      ensures State() == ChangeQueueSpec(old(State()), q)
    {
      for k := 0 to WheelCount
        invariant Sized()
        invariant forall j :: 0 <= j < k ==>
          steeringJoints[j] == old(steeringJoints[j]).(customProfileNextSlot := q)
          && speedJoints[j] == old(speedJoints[j]).(customProfileNextSlot := q)
        invariant forall j :: k <= j < WheelCount ==>
          steeringJoints[j] == old(steeringJoints[j]) && speedJoints[j] == old(speedJoints[j])
      {
        steeringJoints := steeringJoints[k := steeringJoints[k].(customProfileNextSlot := q)];
        speedJoints := speedJoints[k := speedJoints[k].(customProfileNextSlot := q)];
      }
    }

    method ApplyProfileCommand(c: ProfileCommand, now: real)
      requires Valid() && CommandReadable(c)
      modifies this`mode, this`command, this`speedJoints, this`steeringJoints, this`fullDrive, this`fullSteer,
        this`holderDrive, this`holderSteer
      ensures Valid()
      ensures State() == ApplyProfileCommandSpec(old(State()), c, now)
    {
      if c.brake {
        BrakeAction(now);
      }
      if c.wipeAll {
        WipeAll();
      }
      if c.buffer {
        BufferProfiles(c.profiles);
      }
      if c.run {
        RunAction(c.runSlot);
      }
      if c.changeQueue {
        ChangeQueue(c.newQueue);
      }
    }

    /** Every joint leaves profile mode, selects PID slot 0 and zero demand1;
        steering goes to position mode and drive to no closed-loop ramp. */
    method PrepareVelocity()
      requires Sized()
      modifies this`speedJoints, this`steeringJoints
      ensures Sized()
      ensures steeringJoints == PrepareSteering(old(steeringJoints))
      ensures speedJoints == PrepareSpeed(old(speedJoints))
    {
      for i := 0 to WheelCount
        invariant Sized()
        invariant forall j :: 0 <= j < i ==>
          steeringJoints[j] == old(steeringJoints[j]).(customProfileRun := false, pidfSlot := 0, mode := Position, demand1 := 0.0)
          && speedJoints[j] == old(speedJoints[j]).(customProfileRun := false, pidfSlot := 0, closedLoopRamp := 0.0, demand1 := 0.0)
        invariant forall j :: i <= j < WheelCount ==>
          steeringJoints[j] == old(steeringJoints[j]) && speedJoints[j] == old(speedJoints[j])
      {
        steeringJoints := steeringJoints[i := steeringJoints[i].(
          customProfileRun := false, pidfSlot := 0, mode := Position, demand1 := 0.0)];
        speedJoints := speedJoints[i := speedJoints[i].(
          customProfileRun := false, pidfSlot := 0, closedLoopRamp := 0.0, demand1 := 0.0)];
      }
    }

    method SpeedOpenLoop()
      requires Sized()
      modifies this`speedJoints
      ensures Sized()
      ensures speedJoints == SpeedOpenLoopZero(old(speedJoints))
    {
      for i := 0 to WheelCount
        invariant Sized()
        invariant forall j :: 0 <= j < i ==> speedJoints[j] == old(speedJoints[j]).(command := 0.0, mode := PercentOutput)
        invariant forall j :: i <= j < WheelCount ==> speedJoints[j] == old(speedJoints[j])
      {
        speedJoints := speedJoints[i := speedJoints[i].(command := 0.0)];
        speedJoints := speedJoints[i := speedJoints[i].(mode := PercentOutput)];
      }
    }

    method SpeedVelocity(outs: WheelOutputs)
      requires Sized()
      modifies this`speedJoints
      ensures Sized()
      ensures speedJoints == SpeedToVelocity(old(speedJoints), outs)
    {
      for i := 0 to WheelCount
        invariant Sized()
        invariant forall j :: 0 <= j < i ==> speedJoints[j] == old(speedJoints[j]).(mode := Velocity, command := outs[j].speed)
        invariant forall j :: i <= j < WheelCount ==> speedJoints[j] == old(speedJoints[j])
      {
        speedJoints := speedJoints[i := speedJoints[i].(mode := Velocity)];
        speedJoints := speedJoints[i := speedJoints[i].(command := outs[i].speed)];
      }
    }

    method SteerTo(outs: WheelOutputs)
      requires Sized()
      modifies this`steeringJoints
      ensures Sized()
      ensures steeringJoints == SteerToAngles(old(steeringJoints), outs)
    {
      for i := 0 to WheelCount
        invariant Sized()
        invariant forall j :: 0 <= j < i ==> steeringJoints[j] == old(steeringJoints[j]).(command := outs[j].angle)
        invariant forall j :: i <= j < WheelCount ==> steeringJoints[j] == old(steeringJoints[j])
      {
        steeringJoints := steeringJoints[i := steeringJoints[i].(command := outs[i].angle)];
      }
    }

    /** brake(): park the steering and zero the drive command. */
    method Brake(curPos: WheelReals)
      requires Valid()
      modifies this`speedJoints, this`steeringJoints
      ensures Valid()
      ensures State() == BrakeSpec(old(State()), kinematics, curPos)
    {
      var park := kinematics(ParkRequest(curPos));
      for i := 0 to WheelCount
        invariant Sized()
        invariant forall j :: 0 <= j < i ==>
          speedJoints[j] == old(speedJoints[j]).(command := 0.0)
          && steeringJoints[j] == old(steeringJoints[j]).(command := park[j].angle)
        invariant forall j :: i <= j < WheelCount ==>
          speedJoints[j] == old(speedJoints[j]) && steeringJoints[j] == old(steeringJoints[j])
      {
        speedJoints := speedJoints[i := speedJoints[i].(command := 0.0)];
        steeringJoints := steeringJoints[i := steeringJoints[i].(command := park[i].angle)];
      }
    }

    /** starting(): brake; the controller manager then marks it running. */
    method Starting(curPos: WheelReals)
      requires Valid()
      modifies this
      ensures Valid()
      ensures State() == BrakeSpec(old(State()), kinematics, curPos).(running := true)
    {
      Brake(curPos);
      running := true;
    }

    /** stopping(): brake; the controller manager then marks it stopped. */
    method Stopping(curPos: WheelReals)
      requires Valid()
      modifies this
      ensures Valid()
      ensures State() == BrakeSpec(old(State()), kinematics, curPos).(running := false)
    {
      Brake(curPos);
      running := false;
    }

    method PrepareVelocityTick(now: real)
      requires Valid()
      modifies this`speedJoints, this`steeringJoints, this`brakeLast
      ensures Valid()
      ensures State() == PrepareVelocitySpec(old(State()), now)
    {
      PrepareVelocity();
      if brakeLast.None? {
        brakeLast := Some(now);
      }
    }

    method StopTick(now: real, curPos: WheelReals)
      requires Valid()
      modifies this`speedJoints, this`steeringJoints, this`brakeLast
      ensures Valid()
      ensures State() == StopTickSpec(old(State()), kinematics, now, curPos)
    {
      brakeLast := Some(now);
      SpeedOpenLoop();
      if now - timeBeforeBrake > ParkDelay {
        Brake(curPos);
      } else {
        SteerTo(speedsAngles);
      }
    }

    method MoveTick(cmd: Commands, now: real, curPos: WheelReals, modeLastValue: real)
      requires Valid() && brakeLast.Some?
      modifies this`speedJoints, this`steeringJoints, this`timeBeforeBrake, this`speedsAngles
      ensures Valid()
      ensures State() == MoveTickSpec(old(State()), kinematics, cmd, now, curPos, modeLastValue)
    {
      timeBeforeBrake := now;
      speedsAngles := kinematics(DriveRequest(cmd, curPos));
      SteerTo(speedsAngles);
      if now - OpenLoopWindow > brakeLast.value || now - OpenLoopWindow > modeLastValue {
        SpeedVelocity(speedsAngles);
      } else {
        SpeedOpenLoop();
      }
    }

    method VelocityTick(time: real, now: real, curPos: WheelReals, modeLastValue: real) returns (stopped: bool)
      requires Valid()
      modifies this`speedJoints, this`steeringJoints, this`brakeLast, this`timeBeforeBrake, this`speedsAngles
      ensures Valid()
      ensures (State(), stopped) == VelocityTickSpec(old(State()), kinematics, time, now, curPos, modeLastValue)
    {
      var currCmd := command;
      if time - currCmd.stamp > CmdVelTimeout {
        currCmd := currCmd.(linX := 0.0, linY := 0.0, ang := 0.0);
      }
      PrepareVelocityTick(now);
      if Abs(currCmd.linX) <= StopThreshold && Abs(currCmd.linY) <= StopThreshold && Abs(currCmd.ang) <= StopThreshold {
        StopTick(now, curPos);
        return true;
      }
      MoveTick(currCmd, now, curPos, modeLastValue);
      stopped := false;
    }

    method ProfileTick(now: real)
      requires Valid()
      modifies this`modeLast, this`speedJoints, this`steeringJoints
      ensures Valid()
      ensures State() == ProfileTickSpec(old(State()), now)
    {
      modeLast := Some(now);
      SetProfileRunAll(true);
    }

    method SlotCheck(reported: seq<int>) returns (issue: bool)
      requires Valid()
      modifies this`slotRet, this`slotRetDiffLastSum
      ensures Valid()
      ensures TickOutcome(State(), issue) == SlotCheckSpec(old(State()), reported)
    {
      for i := 0 to |reported|
        invariant (slotRet, slotRetDiffLastSum) == SlotScan(old(slotRet), old(slotRetDiffLastSum), reported[..i])
        invariant 0 <= slotRet < 65536
      {
        assert reported[..i + 1][..i] == reported[..i];
        if slotRet != reported[i] {
          slotRetDiffLastSum := slotRetDiffLastSum + 1;
        }
        slotRet := Uint16(reported[i]);
      }
      assert reported[..|reported|] == reported;
      issue := slotRetDiffLastSum > SlotIssueLimit;
    }

    method Dequeue(now: real)
      requires Valid()
      modifies this
      ensures Valid()
      ensures State() == DequeueSpec(old(State()), now)
    {
      if |queue| != 0 {
        var c := queue[0];
        queue := queue[1..];
        ApplyProfileCommand(c, now);
      }
    }

    /** update(): one control tick. The clock is read once, as now; time is
        the tick time handed in by the controller manager. */
    method Update(time: real, now: real, curPos: WheelReals, reported: seq<int>) returns (slotIssue: bool)
      requires Valid()
      modifies this
      ensures Valid()
      ensures TickOutcome(State(), slotIssue) == UpdateSpec(old(State()), kinematics, time, now, curPos, reported)
    {
      Dequeue(now);
      if modeLast.None? {
        modeLast := Some(now);
      }
      if mode {
        var stopped := VelocityTick(time, now, curPos, modeLast.value);
        if stopped {
          return false;
        }
      } else {
        ProfileTick(now);
      }
      slotIssue := SlotCheck(reported);
    }
  }

  /** The service's copy of a request into a queued command. */
  method ConvertRequest(req: MotionProfileRequest) returns (c: ProfileCommand)
    ensures c == CommandOf(req)
  {
    var profiles: seq<ProfileSegment> := [];
    if req.buffer {
      for i := 0 to |req.profiles|
        invariant |profiles| == i
        invariant forall j :: 0 <= j < i ==> profiles[j] == SegmentOf(req.profiles[j])
      {
        var rp := req.profiles[i];
        var drivePos: seq<seq<real>> := [];
        var driveF: seq<seq<real>> := [];
        var steerPos: seq<seq<real>> := [];
        var steerF: seq<seq<real>> := [];
        var hold: seq<seq<bool>> := [];
        for k := 0 to |rp.points|
          invariant |drivePos| == k && |driveF| == k && |steerPos| == k && |steerF| == k && |hold| == k
          invariant forall j :: 0 <= j < k ==>
            drivePos[j] == rp.points[j].drivePos && driveF[j] == rp.points[j].driveF
            && steerPos[j] == rp.points[j].steerPos && steerF[j] == rp.points[j].steerF
            && hold[j] == rp.points[j].hold
        {
          var h: seq<bool> := [];
          for x := 0 to |rp.points[k].hold|
            invariant h == rp.points[k].hold[..x]
          {
            h := h + [rp.points[k].hold[x]];
          }
          assert rp.points[k].hold[..|rp.points[k].hold|] == rp.points[k].hold;
          hold := hold + [h];
          drivePos := drivePos + [rp.points[k].drivePos];
          driveF := driveF + [rp.points[k].driveF];
          steerPos := steerPos + [rp.points[k].steerPos];
          steerF := steerF + [rp.points[k].steerF];
        }
        profiles := profiles + [ProfileSegment(drivePos, driveF, steerPos, steerF, hold, rp.dt, rp.slot)];
      }
    }
    var newQueue: seq<int> := [];
    for x := 0 to |req.newQueue|
      invariant newQueue == req.newQueue[..x]
    {
      newQueue := newQueue + [req.newQueue[x]];
    }
    assert req.newQueue[..|req.newQueue|] == req.newQueue;
    c := ProfileCommand(req.buffer, profiles, req.wipeAll, req.run, req.brake, req.runSlot,
                        req.changeQueue, newQueue, true);
  }
}
