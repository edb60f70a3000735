# zebROS 2018 robot code: a Dafny model of its control core

This project models the decision logic of zebROS, the ROS workspace of a
2018 off-season FRC robot. It covers seven source files. Each file is one
Dafny module:

- `swerve_controller.dfy` (module `SwerveDriveController`) models the swerve-drive controller.
  - It takes velocity commands and motion-profile commands from other threads.
  - Once per control tick it drives four speed motors and four steering motors.
  - It keeps a FIFO queue of profile commands. Each command is made of sub-actions: brake, wipe_all, buffer, run and change_queue.
  - It has a velocity mode and a profile-follow mode, static timers, a slot-mismatch counter, and the wheel-name validation of `init`.
- `swerve_odometry.dfy` (module `SwerveOdometry`) models the odometry bookkeeping of the same controller: centring the wheel positions on their centroid, and caching the last wheel rotation.
- `hw_interface.dfy` (module `FrcRobotHwInterface`) models the hardware interface.
  - The enumeration mappers to the motor-controller vendor's types, and the unit-conversion table.
  - The error classifier for vendor calls.
  - Direction-pad decoding with press and release edges, and the alliance-station mapping.
  - The write-on-change output caches of `write()`, and the enabled-to-disabled edge.
- `talon_interface.dfy` (module `TalonInterface`) models the motor-controller command and state buffers, and the null checks of their handles.
- `point_generator.dfy` (module `SwervePointGenerator`) models the spline profiler:
  - clamping, the quintic derivative coefficients, evaluation with flip and shift, and the quadratic root;
  - segment selection, the curvature-radius sentinel and the input guards;
  - the arc-length table that `parametrize_spline` builds.
- `motion_profiling.dfy` (module `SwerveMotionProfiling`) models the older profiler: its root picker, the guarded velocity step, and the early-failure propagation of `generate_profile`.
- `intake.dfy` (module `IntakeServer`) models the intake action server: the line-break debounce counters, the cached sensor index and the outcome of the intake and spit-out actions.
- `small_vector.dfy` (module `SmallVector`) models `SmallVectorBase::grow_pod`, the growth of a small vector's byte buffer.
- `wrappers.dfy` (module `Wrappers`) holds the `Option` and `Result` types.

Code that updates state in place is modelled as classes:

- The controller, the hardware interface and the motor-controller buffers.
- The profilers, with their member and static variables.
- The intake action and the small vector.

The methods of the controller, the hardware interface and the motor-controller buffers are proved against a step function on a value of the whole state (for example `Controller.Update` against `UpdateSpec`). Lemmas then state what the source's comments and code promise about those step functions. The other classes (the profilers, the intake action and the small vector) state their effect directly in each method's `ensures`. Some things are taken as inputs instead:

- wall-clock readings;
- the maths library (sqrt, sin, cos, fmod, pow) and division by a value that may be 0;
- the swerve kinematics (`motorOutputs`, `getWheelAngle`);
- allocation success.

Floating-point values are modelled as `real`.

Where the code does something other than what its names and comments suggest, the model follows the code:

- **A profile command with both brake and run ends in profile mode.** Its sub-actions are applied in the order brake, wipe_all, buffer, run, change_queue, and run wins (`ProfileCommandMode`).
- **The slot-mismatch counter is never reset.** It only grows (`SlotCounterMonotone`).
- **`init` does not check for exactly four wheels.** It only checks that the speed and steering name lists have the same length (`WheelJointCount`). The `Controller` constructor fixes the count at 4, because any other count indexes the four-element per-wheel arrays out of range (swerve_drive_controller.cpp:772-775 and 823-830).
- **The double solenoid's reverse command opens the forward valve.** Both the forward and the reverse command raise the forward valve, and the reverse valve is always written closed (`DoubleSolenoidReverseNeverOpens`).
- **`convertDemand1Type` has no `return` on its success path.** Only its failure result is defined (`ConvertDemand1Type`).
- **PWM setpoints are truncated toward zero, and some error names are odd.** PWM setpoints are converted to int by truncation toward zero (`TruncateToInt`). Some vendor error codes are logged under the name "case" (`ErrorName`).
- **The older profiler's backward pass reads out of range.**
  - The guard `i <= 0 && i >= path.size() - 1` of `solve_for_next_V` holds only on a one-point path at position 0. An empty path wraps `path.size() - 1` around in size_t.
  - Inside the guard the function can end without a return statement.
  - The first search of the backward pass reads past the end of its position list, or before the start of its velocity list.
  - So `generate_profile` has defined behaviour and succeeds only on an empty path (`SwerveProfiler.GenerateProfile`).
- **The intake counters start uninitialised.** They are atomics the constructor never sets, so their initial values are parameters.
  - The spit-out branch resets its counter before the first message pump.
  - The intake branch resets its counter after that pump.

## Model

| member | source | states |
|---|---|---|
| TalonInterface.SetModeReportedOnce | zebROS_ws/src/talon_interface/include/talon_interface/talon_interface.h:158-184 | After a valid setMode, the next newMode reports the change with the new mode. The call after that reports nothing and leaves the caller's mode untouched. |
| TalonInterface.InvalidModeIgnored | zebROS_ws/src/talon_interface/include/talon_interface/talon_interface.h:158-164 | An out-of-range mode leaves the buffer unchanged, so newMode reports only what was already pending. |
| TalonInterface.ModeChangeClearsSetpoint | zebROS_ws/src/talon_interface/include/talon_interface/talon_interface.h:157-168 | A valid setMode resets the setpoint to 0. A later set() overrides it, and the change stays pending. |
| TalonInterface.FreshBufferReportsNothing | zebROS_ws/src/talon_interface/include/talon_interface/talon_interface.h:177-184 | A freshly constructed buffer reports no mode change and leaves the caller's mode as it was. |
| TalonInterface.SetStep | zebROS_ws/src/talon_interface/include/talon_interface/talon_interface.h:157 | set() stores the setpoint and changes nothing else. |
| TalonInterface.SetModeStep | zebROS_ws/src/talon_interface/include/talon_interface/talon_interface.h:158-168 | An out-of-range mode leaves the buffer as it was. A valid one is stored and flagged, and clears the setpoint. The PID slot is untouched. |
| TalonInterface.NewModeStep | zebROS_ws/src/talon_interface/include/talon_interface/talon_interface.h:177-184 | Reports whether a change was pending and clears the flag. The caller's mode becomes the buffer's mode only when a change was pending. |
| TalonInterface.TalonHWCommand.constructor | zebROS_ws/src/talon_interface/include/talon_interface/talon_interface.h:138-153 | Command 0, mode Uninitialized, no pending change, slot 0, and every PIDF gain 0 in both slots. |
| TalonInterface.TalonHWCommand.Get | zebROS_ws/src/talon_interface/include/talon_interface/talon_interface.h:154 | Returns the stored setpoint. |
| TalonInterface.TalonHWCommand.GetMode | zebROS_ws/src/talon_interface/include/talon_interface/talon_interface.h:155 | Returns the stored mode. |
| TalonInterface.TalonHWCommand.Set | zebROS_ws/src/talon_interface/include/talon_interface/talon_interface.h:157 | Changes only the setpoint. |
| TalonInterface.TalonHWCommand.SetMode | zebROS_ws/src/talon_interface/include/talon_interface/talon_interface.h:158-168 | Ignores an invalid mode. Otherwise stores the mode, raises the change flag and zeroes the setpoint. |
| TalonInterface.TalonHWCommand.NewMode | zebROS_ws/src/talon_interface/include/talon_interface/talon_interface.h:177-184 | Reports and consumes a pending change. Otherwise returns false and leaves the caller's mode untouched. |
| TalonInterface.TalonHWState.constructor | zebROS_ws/src/talon_interface/include/talon_interface/talon_interface.h:26-30 | Position, speed and output voltage start at 0. |
| TalonInterface.TalonHWState.GetPosition | zebROS_ws/src/talon_interface/include/talon_interface/talon_interface.h:32 | Returns the stored position. |
| TalonInterface.TalonHWState.GetSpeed | zebROS_ws/src/talon_interface/include/talon_interface/talon_interface.h:33 | Returns the stored speed. |
| TalonInterface.TalonHWState.GetOutputVoltage | zebROS_ws/src/talon_interface/include/talon_interface/talon_interface.h:34 | Returns the stored output voltage. |
| TalonInterface.TalonHWState.SetPosition | zebROS_ws/src/talon_interface/include/talon_interface/talon_interface.h:36 | Changes the position and nothing else. |
| TalonInterface.TalonHWState.SetSpeed | zebROS_ws/src/talon_interface/include/talon_interface/talon_interface.h:37 | Changes the speed and nothing else. |
| TalonInterface.TalonHWState.SetOutputVoltage | zebROS_ws/src/talon_interface/include/talon_interface/talon_interface.h:38 | Changes the output voltage and nothing else. |
| TalonInterface.NewStateHandle | zebROS_ws/src/talon_interface/include/talon_interface/talon_interface.h:75-81 | Succeeds exactly for a non-null state buffer. Otherwise fails with the source's error message. |
| TalonInterface.NewCommandHandle | zebROS_ws/src/talon_interface/include/talon_interface/talon_interface.h:215-221 | Succeeds exactly for a non-null command buffer. Otherwise fails with the source's error message. |
| SwerveDriveController.CommandOfCopies | zebROS_ws/src/talon_swerve_drive_controller/src/swerve_drive_controller.cpp:1023-1093 | The service's transposition keeps every point value of every wheel in the same profile and point. |
| SwerveDriveController.CommandOf | zebROS_ws/src/talon_swerve_drive_controller/src/swerve_drive_controller.cpp:1023-1093 | The queued command carries every flag, the run slot and the new queue of the request. It holds one profile per requested profile when buffering, and none otherwise. |
| SwerveDriveController.Uint16 | zebROS_ws/src/talon_swerve_drive_controller/src/swerve_drive_controller.cpp:867 | Storing an int in a 16-bit unsigned static keeps it modulo 2^16, and leaves values already in range unchanged. |
| SwerveDriveController.ClearSlots | zebROS_ws/src/talon_swerve_drive_controller/src/swerve_drive_controller.cpp:650-663 | The slot map afterwards has exactly the old keys plus 0..n-1. |
| SwerveDriveController.WipeSlotsUpTo | zebROS_ws/src/talon_swerve_drive_controller/src/swerve_drive_controller.cpp:650-663 | Only the profile slots of each joint change. |
| SwerveDriveController.OverwriteSlot | zebROS_ws/src/talon_swerve_drive_controller/src/swerve_drive_controller.cpp:725-729 | Each joint's slot holds its wheel's list, its slot keys gain only that slot, and nothing else of the joint changes. |
| SwerveDriveController.EffectiveCommand | zebROS_ws/src/talon_swerve_drive_controller/src/swerve_drive_controller.cpp:760-770 | A command older than the timeout is driven as a stop with the same stamp. A fresh one is driven unchanged. |
| SwerveDriveController.IsStop | zebROS_ws/src/talon_swerve_drive_controller/src/swerve_drive_controller.cpp:789 | The zero command is a stop, and a stop has no component beyond 1e-6. |
| SwerveDriveController.SlotScan | zebROS_ws/src/talon_swerve_drive_controller/src/swerve_drive_controller.cpp:867-887 | The counter never decreases, and no reading leaves the state unchanged. |
| SwerveDriveController.CmdVelSpec | zebROS_ws/src/talon_swerve_drive_controller/src/swerve_drive_controller.cpp:929-1021 | While running, stores the twist stamped now (so it is fresh) and selects velocity mode. Otherwise nothing changes. Nothing but the command and mode ever changes. |
| SwerveDriveController.BrakeServiceSpec | zebROS_ws/src/talon_swerve_drive_controller/src/swerve_drive_controller.cpp:1095-1114 | While running, stores a stop stamped now and selects velocity mode. Otherwise nothing changes. Nothing but the command and mode ever changes. |
| SwerveDriveController.ProfileServiceSpec | zebROS_ws/src/talon_swerve_drive_controller/src/swerve_drive_controller.cpp:1023-1093 | While running, appends exactly CommandOf the request at the back of the queue. Otherwise nothing changes. Only the queue ever changes. |
| SwerveDriveController.RunQueue | zebROS_ws/src/talon_swerve_drive_controller/src/swerve_drive_controller.cpp:627-631 | After a run of events, no more commands were taken than there were events. |
| SwerveDriveController.Enqueued | zebROS_ws/src/talon_swerve_drive_controller/src/swerve_drive_controller.cpp:1083 | No more commands are enqueued than there were events. |
| SwerveDriveController.ReadableRequestGivesReadableCommand | zebROS_ws/src/talon_swerve_drive_controller/src/swerve_drive_controller.cpp:1023-1093 | A well-formed request becomes a command that the buffer sub-action can read in full. |
| SwerveDriveController.BufferedPointRules | zebROS_ws/src/talon_swerve_drive_controller/src/swerve_drive_controller.cpp:675-723 | Each wheel gets one drive point and one steer point per profile point. Only the first drive point zeroes the position, and no steer point does. Drive uses PID slot 1, and every point lasts dt. A held wheel drives open loop at 0 and steers by motion magic in slot 0. Otherwise both points use position mode with the profile values. |
| SwerveDriveController.BrakeActionSpec | zebROS_ws/src/talon_swerve_drive_controller/src/swerve_drive_controller.cpp:632-648 | The brake sub-action stops every joint's profile, queues a zero velocity command stamped now, and selects velocity mode; `BrakeCommandStopsProfiles` states this of a whole command, and `ProfileCommandMode` states the mode. |
| SwerveDriveController.WipeAllSpec | zebROS_ws/src/talon_swerve_drive_controller/src/swerve_drive_controller.cpp:650-663 | The wipe_all sub-action empties the built lists and overwrites slots 0 to 19 of every joint with empty lists; `WipeAllEmptiesSlots` states that they are empty after a command. |
| SwerveDriveController.BufferOne | zebROS_ws/src/talon_swerve_drive_controller/src/swerve_drive_controller.cpp:668-729 | Buffering one profile builds every wheel's drive and steering lists and overwrites that profile's slot with them; `BufferLastWriterWins` states which profile's lists a slot holds after several. |
| SwerveDriveController.BufferAll | zebROS_ws/src/talon_swerve_drive_controller/src/swerve_drive_controller.cpp:665-733 | The buffer sub-action changes only the joints' slots and the scratch lists, and every joint's other fields stay. |
| SwerveDriveController.RunActionSpec | zebROS_ws/src/talon_swerve_drive_controller/src/swerve_drive_controller.cpp:735-744 | The run sub-action selects profile mode and sets every joint's running slot; `ProfileCommandMode` states that run wins over brake, and `RunAndChangeQueueSetSlots` states the slot. |
| SwerveDriveController.ChangeQueueSpec | zebROS_ws/src/talon_swerve_drive_controller/src/swerve_drive_controller.cpp:746-753 | The change_queue sub-action sets every joint's queue of next slots to the command's; `RunAndChangeQueueSetSlots` states this, and that the queue is kept without it. |
| SwerveDriveController.ApplyProfileCommandSpec | zebROS_ws/src/talon_swerve_drive_controller/src/swerve_drive_controller.cpp:632-753 | Applying a command's sub-actions leaves the queue alone and keeps the arrays well sized. |
| SwerveDriveController.BrakeSpec | zebROS_ws/src/talon_swerve_drive_controller/src/swerve_drive_controller.cpp:908-925 | brake() zeroes every drive command and steers every wheel to the parking angles; `StoppedCommandStopsDrive` and `BrakeServiceStopsDrive` state this of a tick. |
| SwerveDriveController.PrepareVelocitySpec | zebROS_ws/src/talon_swerve_drive_controller/src/swerve_drive_controller.cpp:775-787 | The start of a velocity tick takes every joint out of profile mode and sets the last brake time on first use; `StoppedCommandStopsDrive` and `MovingCommandFollowsKinematics` state the outcome. |
| SwerveDriveController.StopTickSpec | zebROS_ws/src/talon_swerve_drive_controller/src/swerve_drive_controller.cpp:789-812 | The stop path drives open loop at zero and parks the steering after ParkDelay of stillness, else holds the last angles; it keeps the queue and the mode. `StoppedCommandStopsDrive` states this of a tick. |
| SwerveDriveController.MoveTickSpec | zebROS_ws/src/talon_swerve_drive_controller/src/swerve_drive_controller.cpp:814-852 | The moving path steers to the kinematics angles and drives at the kinematics speeds unless a brake and a profile run are both recent; it keeps the queue and the mode. `MovingCommandFollowsKinematics` states this of a tick. |
| SwerveDriveController.VelocityTickSpec | zebROS_ws/src/talon_swerve_drive_controller/src/swerve_drive_controller.cpp:757-853 | A velocity-mode tick takes the stop path exactly when the effective command is a stop, which skips the slot check, and otherwise the moving path. It keeps the queue and the mode. |
| SwerveDriveController.ProfileTickSpec | zebROS_ws/src/talon_swerve_drive_controller/src/swerve_drive_controller.cpp:854-865 | A profile-mode tick notes the time and keeps every joint's profile running; `ProfileModeRunsProfiles` states this of a tick. |
| SwerveDriveController.SlotCheckSpec | zebROS_ws/src/talon_swerve_drive_controller/src/swerve_drive_controller.cpp:867-887 | The slot check changes only the last slot seen and the mismatch counter, and reports an issue when the counter exceeds 20; `SlotCounterMonotone` states how the counter moves. |
| SwerveDriveController.DequeueSpec | zebROS_ws/src/talon_swerve_drive_controller/src/swerve_drive_controller.cpp:627-631 | The queue loses exactly its front command when it has one, and is unchanged when empty. |
| SwerveDriveController.UpdateSpec | zebROS_ws/src/talon_swerve_drive_controller/src/swerve_drive_controller.cpp:556-888 | A whole tick pops and applies at most one queued command, then drives by velocity or by profile, then checks the slots; `UpdatePopsFront` and `QueueIsFifo` state the queue order. |
| SwerveDriveController.ClearSlotsEffect | zebROS_ws/src/talon_swerve_drive_controller/src/swerve_drive_controller.cpp:650-663 | Clearing slots 0..n-1 leaves each of them empty and every other slot as it was. |
| SwerveDriveController.LastWriter | zebROS_ws/src/talon_swerve_drive_controller/src/swerve_drive_controller.cpp:665-733 | Finds the last profile of a buffer command that targets a given slot. |
| SwerveDriveController.BufferLastWriterWins | zebROS_ws/src/talon_swerve_drive_controller/src/swerve_drive_controller.cpp:665-733 | After buffering, each joint's slot holds the lists of the last profile that targeted it. A slot no profile targeted is unchanged. |
| SwerveDriveController.ProfileCommandMode | zebROS_ws/src/talon_swerve_drive_controller/src/swerve_drive_controller.cpp:632-753 | Sub-action order: with run, the command ends in profile mode even when it also brakes. With brake and no run, it ends in velocity mode. Otherwise the mode is kept. |
| SwerveDriveController.RunAndChangeQueueSetSlots | zebROS_ws/src/talon_swerve_drive_controller/src/swerve_drive_controller.cpp:735-753 | run sets every joint's running slot, and change_queue every joint's queue of next slots, to the command's values; without the flag each is kept. |
| SwerveDriveController.BrakeCommandStopsProfiles | zebROS_ws/src/talon_swerve_drive_controller/src/swerve_drive_controller.cpp:632-744 | A brake command clears every joint's profile-run flag and stores a zero twist stamped now. A run in the same command selects profile mode and a slot but does not set the flag again. |
| SwerveDriveController.WipeAllEmptiesSlots | zebROS_ws/src/talon_swerve_drive_controller/src/swerve_drive_controller.cpp:650-663 | wipe_all without buffer leaves slots 0..19 empty on every joint. |
| SwerveDriveController.UpdatePopsFront | zebROS_ws/src/talon_swerve_drive_controller/src/swerve_drive_controller.cpp:627-631 | Each tick removes at most one command, from the front of the queue. |
| SwerveDriveController.StoppedCommandStopsDrive | zebROS_ws/src/talon_swerve_drive_controller/src/swerve_drive_controller.cpp:766-812 | A stale command (older than 0.5 s), or one with every component at most 1e-6 in magnitude, sets every drive joint to 0 in percent-output mode and skips the slot check. The wheels park only after 0.5 s stopped. |
| SwerveDriveController.MovingCommandFollowsKinematics | zebROS_ws/src/talon_swerve_drive_controller/src/swerve_drive_controller.cpp:814-852 | A moving command steers every wheel to the kinematics angle. The drive runs in velocity mode when either the last brake or the last profile run is older than 0.1 s, and open loop at zero only while both are recent. On the first tick the unset statics take the time now, so the drive starts open loop. |
| SwerveDriveController.ProfileModeRunsProfiles | zebROS_ws/src/talon_swerve_drive_controller/src/swerve_drive_controller.cpp:854-865 | In profile mode every joint keeps running its profile, and the time is noted. |
| SwerveDriveController.SlotCounterMonotone | zebROS_ws/src/talon_swerve_drive_controller/src/swerve_drive_controller.cpp:867-887 | The mismatch counter never decreases, and grows by at most one per reported slot. The last slot seen is kept modulo 2^16. |
| SwerveDriveController.BrakeServiceStopsDrive | zebROS_ws/src/talon_swerve_drive_controller/src/swerve_drive_controller.cpp:1095-1114 | A brake request followed by a tick with an empty queue zeroes every drive joint in percent-output mode. |
| SwerveDriveController.QueueIsFifo | zebROS_ws/src/talon_swerve_drive_controller/src/swerve_drive_controller.cpp:627-631 | Over any interleaving of enqueues and ticks, the commands taken and then those still queued are the initial queue followed by the enqueued commands, in order. |
| SwerveDriveController.ServiceAndTickAreQueueEvents | zebROS_ws/src/talon_swerve_drive_controller/src/swerve_drive_controller.cpp:1023-1093 | While running, the service appends exactly one command and a tick pops the front one, as the FIFO events do. |
| SwerveDriveController.GetWheelNames | zebROS_ws/src/talon_swerve_drive_controller/src/swerve_drive_controller.cpp:1220-1271 | Fails exactly on these, leaving the names alone: a missing parameter, an empty list, a non-string element, or another type. A list of strings replaces the names in order, and a single string is appended. |
| SwerveDriveController.WheelJointCount | zebROS_ws/src/talon_swerve_drive_controller/src/swerve_drive_controller.cpp:210-230 | init fails unless both parameters yield names of equal, non-zero count. That count becomes the wheel-joint count. |
| SwerveDriveController.ConvertRequest | zebROS_ws/src/talon_swerve_drive_controller/src/swerve_drive_controller.cpp:1023-1093 | The service's copy of a request into a queued command. |
| SwerveDriveController.Controller.constructor | zebROS_ws/src/talon_swerve_drive_controller/src/swerve_drive_controller.cpp:180-238 | Starts in velocity mode, not running, with a zero command, an empty queue and unset statics. |
| SwerveDriveController.Controller.CmdVelCallback | zebROS_ws/src/talon_swerve_drive_controller/src/swerve_drive_controller.cpp:929-1021 | While running, stores the twist stamped now and selects velocity mode. Otherwise changes nothing. |
| SwerveDriveController.Controller.BrakeService | zebROS_ws/src/talon_swerve_drive_controller/src/swerve_drive_controller.cpp:1095-1114 | Accepted exactly while running. It then stores a zero twist stamped now and selects velocity mode. |
| SwerveDriveController.Controller.MotionProfileService | zebROS_ws/src/talon_swerve_drive_controller/src/swerve_drive_controller.cpp:1023-1093 | Accepted exactly while running. It then appends the converted command at the back of the queue. Otherwise nothing is queued. |
| SwerveDriveController.Controller.SetProfileRunAll | zebROS_ws/src/talon_swerve_drive_controller/src/swerve_drive_controller.cpp:632-648 | Sets the profile-run flag of every joint. |
| SwerveDriveController.Controller.BrakeAction | zebROS_ws/src/talon_swerve_drive_controller/src/swerve_drive_controller.cpp:632-648 | The brake sub-action, as BrakeActionSpec. |
| SwerveDriveController.Controller.ClearSlotAllWheels | zebROS_ws/src/talon_swerve_drive_controller/src/swerve_drive_controller.cpp:652-662 | One slot emptied on every joint. |
| SwerveDriveController.Controller.WipeAll | zebROS_ws/src/talon_swerve_drive_controller/src/swerve_drive_controller.cpp:650-663 | The wipe_all sub-action, as WipeAllSpec. |
| SwerveDriveController.Controller.BufferFirstPoints | zebROS_ws/src/talon_swerve_drive_controller/src/swerve_drive_controller.cpp:675-699 | Each wheel's lists are cleared and hold exactly its point-0 drive and steer points. |
| SwerveDriveController.Controller.AppendWheelPoint | zebROS_ws/src/talon_swerve_drive_controller/src/swerve_drive_controller.cpp:702-723 | Appends point i of one wheel to that wheel's lists only. |
| SwerveDriveController.Controller.BufferLaterPoints | zebROS_ws/src/talon_swerve_drive_controller/src/swerve_drive_controller.cpp:702-723 | Every wheel's lists end as the full drive and steer point lists of the profile. |
| SwerveDriveController.Controller.OverwriteProfileSlot | zebROS_ws/src/talon_swerve_drive_controller/src/swerve_drive_controller.cpp:725-729 | Each joint's slot is overwritten with its wheel's list. |
| SwerveDriveController.Controller.BufferProfile | zebROS_ws/src/talon_swerve_drive_controller/src/swerve_drive_controller.cpp:668-729 | One profile buffered, as BufferOne. |
| SwerveDriveController.Controller.BufferProfiles | zebROS_ws/src/talon_swerve_drive_controller/src/swerve_drive_controller.cpp:665-733 | The buffer sub-action, as BufferAll. |
| SwerveDriveController.Controller.RunAction | zebROS_ws/src/talon_swerve_drive_controller/src/swerve_drive_controller.cpp:735-744 | The run sub-action, as RunActionSpec. |
| SwerveDriveController.Controller.ChangeQueue | zebROS_ws/src/talon_swerve_drive_controller/src/swerve_drive_controller.cpp:746-753 | The change_queue sub-action, as ChangeQueueSpec. |
| SwerveDriveController.Controller.ApplyProfileCommand | zebROS_ws/src/talon_swerve_drive_controller/src/swerve_drive_controller.cpp:632-753 | The sub-actions in the fixed order, as ApplyProfileCommandSpec. |
| SwerveDriveController.Controller.PrepareVelocity | zebROS_ws/src/talon_swerve_drive_controller/src/swerve_drive_controller.cpp:775-787 | Every joint leaves profile mode, with PID slot 0 and a zero demand1. |
| SwerveDriveController.Controller.SpeedOpenLoop | zebROS_ws/src/talon_swerve_drive_controller/src/swerve_drive_controller.cpp:793-798 | Every drive joint is set to 0 in percent-output mode. |
| SwerveDriveController.Controller.SpeedVelocity | zebROS_ws/src/talon_swerve_drive_controller/src/swerve_drive_controller.cpp:814-852 | Every drive joint gets its wheel's kinematics speed. |
| SwerveDriveController.Controller.SteerTo | zebROS_ws/src/talon_swerve_drive_controller/src/swerve_drive_controller.cpp:814-852 | Every steering joint gets its wheel's kinematics angle. |
| SwerveDriveController.Controller.Brake | zebROS_ws/src/talon_swerve_drive_controller/src/swerve_drive_controller.cpp:908-925 | brake(), as BrakeSpec: a zero drive command and steering to the parking angles. |
| SwerveDriveController.Controller.Starting | zebROS_ws/src/talon_swerve_drive_controller/src/swerve_drive_controller.cpp:890-901 | brake(), then the controller is running. |
| SwerveDriveController.Controller.Stopping | zebROS_ws/src/talon_swerve_drive_controller/src/swerve_drive_controller.cpp:903-906 | brake(), then the controller is stopped. |
| SwerveDriveController.Controller.PrepareVelocityTick | zebROS_ws/src/talon_swerve_drive_controller/src/swerve_drive_controller.cpp:775-787 | As PrepareVelocitySpec. |
| SwerveDriveController.Controller.StopTick | zebROS_ws/src/talon_swerve_drive_controller/src/swerve_drive_controller.cpp:789-812 | As StopTickSpec. |
| SwerveDriveController.Controller.MoveTick | zebROS_ws/src/talon_swerve_drive_controller/src/swerve_drive_controller.cpp:814-852 | As MoveTickSpec. |
| SwerveDriveController.Controller.VelocityTick | zebROS_ws/src/talon_swerve_drive_controller/src/swerve_drive_controller.cpp:757-853 | As VelocityTickSpec, including whether the stop path returned early. |
| SwerveDriveController.Controller.ProfileTick | zebROS_ws/src/talon_swerve_drive_controller/src/swerve_drive_controller.cpp:854-865 | As ProfileTickSpec. |
| SwerveDriveController.Controller.SlotCheck | zebROS_ws/src/talon_swerve_drive_controller/src/swerve_drive_controller.cpp:867-887 | As SlotCheckSpec, including whether the error was logged. |
| SwerveDriveController.Controller.Dequeue | zebROS_ws/src/talon_swerve_drive_controller/src/swerve_drive_controller.cpp:627-753 | As DequeueSpec. |
| SwerveDriveController.Controller.Update | zebROS_ws/src/talon_swerve_drive_controller/src/swerve_drive_controller.cpp:556-888 | One tick, as UpdateSpec. |
| SwerveOdometry.Shift | zebROS_ws/src/talon_swerve_drive_controller/src/swerve_drive_controller.cpp:398-410 | Moves every wheel position by the same offset and keeps their number. |
| SwerveOdometry.SumShift | zebROS_ws/src/talon_swerve_drive_controller/src/swerve_drive_controller.cpp:398-410 | Shifting by d shifts the coordinate sums by n times d. |
| SwerveOdometry.CenteredHasZeroCentroid | zebROS_ws/src/talon_swerve_drive_controller/src/swerve_drive_controller.cpp:398-410 | Positions centred on their centroid have their centroid at the origin. |
| SwerveOdometry.CenteredRestores | zebROS_ws/src/talon_swerve_drive_controller/src/swerve_drive_controller.cpp:398-410 | Adding the centroid back to a centred position gives the original position. |
| SwerveOdometry.Displaced | zebROS_ws/src/talon_swerve_drive_controller/src/swerve_drive_controller.cpp:465-481 | One displaced position per wheel. |
| SwerveOdometry.CachedRotationTelescopes | zebROS_ws/src/talon_swerve_drive_controller/src/swerve_drive_controller.cpp:465-481 | The cache holds the previous reading, so the distances measured tick by tick add up to the distance between the first and the last reading. |
| SwerveOdometry.WheelOdometry.constructor | zebROS_ws/src/talon_swerve_drive_controller/src/swerve_drive_controller.cpp:398-453 | Stores the centred coordinates, the negated centroid and the current rotations. |
| SwerveOdometry.WheelOdometry.Advance | zebROS_ws/src/talon_swerve_drive_controller/src/swerve_drive_controller.cpp:465-488 | The new positions are the displaced positions, centred. The rotation cache becomes the new reading. |
| FrcRobotHwInterface.ConvertControlMode | zebROS_ws/src/ros_control_boilerplate/src/frcrobot_hw_interface.cpp:2985-3021 | True exactly for a listed mode, which maps to the same-named vendor mode. Otherwise false, with the output Disabled. |
| FrcRobotHwInterface.ConvertDemand1Type | zebROS_ws/src/ros_control_boilerplate/src/frcrobot_hw_interface.cpp:3023-3043 | Never returns true. A listed type maps to its vendor type with no return value. An unlisted type returns false. |
| FrcRobotHwInterface.ConvertNeutralMode | zebROS_ws/src/ros_control_boilerplate/src/frcrobot_hw_interface.cpp:3045-3067 | True exactly for a listed mode, which maps to its vendor mode. Otherwise false, with the EEPROM setting. |
| FrcRobotHwInterface.ConvertFeedbackDevice | zebROS_ws/src/ros_control_boilerplate/src/frcrobot_hw_interface.cpp:3069-3107 | True exactly for a listed device, which maps to its vendor device. Otherwise false, with the output unchanged. |
| FrcRobotHwInterface.ConvertLimitSwitchSource | zebROS_ws/src/ros_control_boilerplate/src/frcrobot_hw_interface.cpp:3109-3132 | True exactly for a listed source, which maps to its vendor source. Otherwise false, with the output unchanged. |
| FrcRobotHwInterface.ConvertLimitSwitchNormal | zebROS_ws/src/ros_control_boilerplate/src/frcrobot_hw_interface.cpp:3134-3155 | True exactly for a listed value, which maps to its vendor value. Otherwise false, with the output unchanged. |
| FrcRobotHwInterface.ConvertVelocityMeasurementPeriod | zebROS_ws/src/ros_control_boilerplate/src/frcrobot_hw_interface.cpp:3157-3190 | True exactly for a listed period, which maps to its vendor period. Otherwise false, with the output unchanged. |
| FrcRobotHwInterface.ConvertStatusFrame | zebROS_ws/src/ros_control_boilerplate/src/frcrobot_hw_interface.cpp:3192-3243 | True exactly for a listed frame, which maps to its vendor frame. Otherwise false, with the output unchanged. |
| FrcRobotHwInterface.ConvertControlFrame | zebROS_ws/src/ros_control_boilerplate/src/frcrobot_hw_interface.cpp:3245-3269 | True exactly for a frame with a vendor counterpart, which it maps to. Otherwise false, with the output unchanged. |
| FrcRobotHwInterface.MappersReachEveryVendorValue | zebROS_ws/src/ros_control_boilerplate/src/frcrobot_hw_interface.cpp:2985-3269 | Every vendor value is reached, from the internal value of the same name. |
| FrcRobotHwInterface.ConversionFactor | zebROS_ws/src/ros_control_boilerplate/src/frcrobot_hw_interface.cpp:1783-1841 | 2π per encoder revolution (ticks, or 1024 for analog) in position and motion-magic modes, and the same per 100 ms in velocity mode. 1 for every other device or mode. |
| FrcRobotHwInterface.VelocityFactorIsPerTenthSecond | zebROS_ws/src/ros_control_boilerplate/src/frcrobot_hw_interface.cpp:1783-1841 | The velocity factor is the position factor divided by 0.1. |
| FrcRobotHwInterface.ErrorName | zebROS_ws/src/ros_control_boilerplate/src/frcrobot_hw_interface.cpp:1843-1983 | Every failing code gets a non-empty name. |
| FrcRobotHwInterface.NatToString | zebROS_ws/src/ros_control_boilerplate/src/frcrobot_hw_interface.cpp:1972-1977 | Non-empty decimal digits with no leading zero, denoting n. |
| FrcRobotHwInterface.IntToString | zebROS_ws/src/ros_control_boilerplate/src/frcrobot_hw_interface.cpp:1972-1977 | A minus sign exactly for a negative number, followed by the decimal digits of its magnitude. |
| FrcRobotHwInterface.SafeTalonCall | zebROS_ws/src/ros_control_boilerplate/src/frcrobot_hw_interface.cpp:1843-1983 | True exactly for OK. Any other code, named or not (an unnamed code is never 0, which is OK), is logged as "Error calling <method> : <name>". |
| FrcRobotHwInterface.DecodePov | zebROS_ws/src/ros_control_boilerplate/src/frcrobot_hw_interface.cpp:1435-1470 | Each direction flag is set exactly for its three angles. Any other angle sets none. |
| FrcRobotHwInterface.PovNeverOpposite | zebROS_ws/src/ros_control_boilerplate/src/frcrobot_hw_interface.cpp:1435-1470 | Up and down are never both held, nor left and right. |
| FrcRobotHwInterface.EdgesAreExclusive | zebROS_ws/src/ros_control_boilerplate/src/frcrobot_hw_interface.cpp:1471-1490 | A press and a release are never reported together. An edge is reported exactly when the flag changed. |
| FrcRobotHwInterface.Edges | zebROS_ws/src/ros_control_boilerplate/src/frcrobot_hw_interface.cpp:1471-1490 | The held flag is the reading now. A press needs a rising change, a release a falling one, and any change is reported. |
| FrcRobotHwInterface.PovMessageOf | zebROS_ws/src/ros_control_boilerplate/src/frcrobot_hw_interface.cpp:1471-1490 | Each direction's held flag is its reading now, and an unchanged reading reports no press or release. |
| FrcRobotHwInterface.PressesAndReleasesAlternate | zebROS_ws/src/ros_control_boilerplate/src/frcrobot_hw_interface.cpp:1471-1490 | Over any run of readings, presses minus releases equals the last reading minus the initial one. |
| FrcRobotHwInterface.AllianceColorOf | zebROS_ws/src/ros_control_boilerplate/src/frcrobot_hw_interface.cpp:1513-1529 | Red exactly for Red1-3, blue exactly for Blue1-3, and invalid otherwise. |
| FrcRobotHwInterface.StationLocation | zebROS_ws/src/ros_control_boilerplate/src/frcrobot_hw_interface.cpp:1533-1550 | The location lies in 0..3. |
| FrcRobotHwInterface.AllianceRoundTrip | zebROS_ws/src/ros_control_boilerplate/src/frcrobot_hw_interface.cpp:1513-1550 | The colour is invalid exactly when the location is 0. A known station is recovered from its colour and location. |
| FrcRobotHwInterface.StationOf | zebROS_ws/src/ros_control_boilerplate/src/frcrobot_hw_interface.cpp:1513-1550 | A station exactly for a valid colour and a location 1..3, and that station has this colour and location. |
| FrcRobotHwInterface.WriteOnChange | zebROS_ws/src/ros_control_boilerplate/src/frcrobot_hw_interface.cpp:2821-2938 | The change-only output loop keeps one cached state per output. |
| FrcRobotHwInterface.WriteOnChangeStep | zebROS_ws/src/ros_control_boilerplate/src/frcrobot_hw_interface.cpp:2821-2833 | One more output is handled as the loop body handles it. |
| FrcRobotHwInterface.Targets | zebROS_ws/src/ros_control_boilerplate/src/frcrobot_hw_interface.cpp:2821-2938 | One target state per output. |
| FrcRobotHwInterface.WriteOnChangeReachesTargets | zebROS_ws/src/ros_control_boilerplate/src/frcrobot_hw_interface.cpp:2821-2938 | After the loop every cached state equals its setpoint. |
| FrcRobotHwInterface.WritesOnlyOnChange | zebROS_ws/src/ros_control_boilerplate/src/frcrobot_hw_interface.cpp:2821-2938 | The hardware is written exactly for each local output whose cached state differed from its setpoint. |
| FrcRobotHwInterface.SettledOutputsWriteNothing | zebROS_ws/src/ros_control_boilerplate/src/frcrobot_hw_interface.cpp:2821-2938 | A second pass with the same commands writes nothing. |
| FrcRobotHwInterface.TruncateToInt | zebROS_ws/src/ros_control_boilerplate/src/frcrobot_hw_interface.cpp:2835-2847 | The double-to-int conversion truncates toward zero. |
| FrcRobotHwInterface.DigitalSetpoint | zebROS_ws/src/ros_control_boilerplate/src/frcrobot_hw_interface.cpp:2821-2833 | The output is on exactly when the command is positive, or, when inverted on its own controller, exactly when it is not. |
| FrcRobotHwInterface.PwmSetpoint | zebROS_ws/src/ros_control_boilerplate/src/frcrobot_hw_interface.cpp:2835-2847 | The command, negated when inverted locally, truncated toward zero. |
| FrcRobotHwInterface.DoubleSolenoidSetpoint | zebROS_ws/src/ros_control_boilerplate/src/frcrobot_hw_interface.cpp:2870-2909 | Forward exactly for a command of at least 1, reverse exactly for at most -1, and off otherwise. |
| FrcRobotHwInterface.DoubleSolenoidValves | zebROS_ws/src/ros_control_boilerplate/src/frcrobot_hw_interface.cpp:2870-2909 | As written, the forward valve is raised exactly for a forward or reverse command, and the reverse valve never. |
| FrcRobotHwInterface.LowWord | zebROS_ws/src/ros_control_boilerplate/src/frcrobot_hw_interface.cpp:2911-2923 | The low 32 bits of the double's pattern, which with the high bits recombine to the pattern. |
| FrcRobotHwInterface.DoubleSolenoidReverseNeverOpens | zebROS_ws/src/ros_control_boilerplate/src/frcrobot_hw_interface.cpp:2870-2909 | The reverse valve is never opened. The forward valve opens exactly for a command of at least 1 or at most -1, so reverse behaves as forward. |
| FrcRobotHwInterface.RumbleHalves | zebROS_ws/src/ros_control_boilerplate/src/frcrobot_hw_interface.cpp:2911-2923 | The two 16-bit halves recombine to the original word. |
| FrcRobotHwInterface.DigitalRules | zebROS_ws/src/ros_control_boilerplate/src/frcrobot_hw_interface.cpp:2821-2833 | One rule per digital output. |
| FrcRobotHwInterface.PwmRules | zebROS_ws/src/ros_control_boilerplate/src/frcrobot_hw_interface.cpp:2835-2847 | One rule per PWM output. |
| FrcRobotHwInterface.SolenoidRules | zebROS_ws/src/ros_control_boilerplate/src/frcrobot_hw_interface.cpp:2849-2868 | One rule per solenoid. |
| FrcRobotHwInterface.DoubleSolenoidRules | zebROS_ws/src/ros_control_boilerplate/src/frcrobot_hw_interface.cpp:2870-2909 | One rule per double solenoid. |
| FrcRobotHwInterface.RumbleRules | zebROS_ws/src/ros_control_boilerplate/src/frcrobot_hw_interface.cpp:2911-2923 | One rule per rumble output. |
| FrcRobotHwInterface.CompressorRules | zebROS_ws/src/ros_control_boilerplate/src/frcrobot_hw_interface.cpp:2925-2938 | One rule per compressor. |
| FrcRobotHwInterface.DisableEdgeDisablesTalons | zebROS_ws/src/ros_control_boilerplate/src/frcrobot_hw_interface.cpp:2757-2779 | On the enabled-to-disabled edge, every present controller not running a custom profile gets a mode reset and is disabled. A profile-running one only records its stop time. |
| FrcRobotHwInterface.TalonWriteSpec | zebROS_ws/src/ros_control_boilerplate/src/frcrobot_hw_interface.cpp:2757-2779 | Never changes ownership, presence, the profile-run flag or the command. A remote, absent, or enabled non-profile controller is left alone. A profile-running one gets its stop time. A mode reset is queued only on the enabled-to-disabled edge. |
| FrcRobotHwInterface.StayingDisabledIsQuiet | zebROS_ws/src/ros_control_boilerplate/src/frcrobot_hw_interface.cpp:2757-2779 | Staying disabled changes no controller's mode again. |
| FrcRobotHwInterface.FrcRobotHw.constructor | zebROS_ws/src/ros_control_boilerplate/src/frcrobot_hw_interface.cpp:680-683 | Direction flags cleared, not ready, last-enabled false, and one cached state per output. |
| FrcRobotHwInterface.FrcRobotHw.CheckRobotReady | zebROS_ws/src/ros_control_boilerplate/src/frcrobot_hw_interface.cpp:1273-1287 | Competition starts exactly once every ready signal is non-zero while not yet ready. Readiness then stays set. |
| FrcRobotHwInterface.FrcRobotHw.ReadPov | zebROS_ws/src/ros_control_boilerplate/src/frcrobot_hw_interface.cpp:1435-1490 | When published, the message holds the decoded flags and their edges, and the last flags become the new ones. Otherwise nothing changes. |
| FrcRobotHwInterface.FrcRobotHw.WriteTalons | zebROS_ws/src/ros_control_boilerplate/src/frcrobot_hw_interface.cpp:2757-2809 | Each controller changes as the disable-edge rule says. Last-enabled becomes the current flag. |
| FrcRobotHwInterface.FrcRobotHw.WriteDigitalOutputs | zebROS_ws/src/ros_control_boilerplate/src/frcrobot_hw_interface.cpp:2821-2833 | The loop computes WriteOnChange for the digital rules. |
| FrcRobotHwInterface.FrcRobotHw.WritePwms | zebROS_ws/src/ros_control_boilerplate/src/frcrobot_hw_interface.cpp:2835-2847 | The loop computes WriteOnChange for the PWM rules. |
| FrcRobotHwInterface.FrcRobotHw.WriteSolenoids | zebROS_ws/src/ros_control_boilerplate/src/frcrobot_hw_interface.cpp:2849-2868 | The loop computes WriteOnChange for the solenoid rules. |
| FrcRobotHwInterface.FrcRobotHw.WriteDoubleSolenoids | zebROS_ws/src/ros_control_boilerplate/src/frcrobot_hw_interface.cpp:2870-2909 | The loop computes WriteOnChange for the double-solenoid rules. |
| FrcRobotHwInterface.FrcRobotHw.WriteRumbles | zebROS_ws/src/ros_control_boilerplate/src/frcrobot_hw_interface.cpp:2911-2923 | The loop computes WriteOnChange for the rumble rules. |
| FrcRobotHwInterface.FrcRobotHw.WriteCompressors | zebROS_ws/src/ros_control_boilerplate/src/frcrobot_hw_interface.cpp:2925-2938 | The loop computes WriteOnChange for the compressor rules. |
| FrcRobotHwInterface.FrcRobotHw.WriteOutputs | zebROS_ws/src/ros_control_boilerplate/src/frcrobot_hw_interface.cpp:2821-2938 | After the output loops every cached output state equals its setpoint. The hardware writes are those of the change-only loops, kind by kind (OutputWrites), so only local outputs whose cache differed are written. |
| FrcRobotHwInterface.FrcRobotHw.Write | zebROS_ws/src/ros_control_boilerplate/src/frcrobot_hw_interface.cpp:1986-2938 | Each controller changes as the disable-edge rule says. The hardware writes are OutputWrites of the cached states before the call. Every cached output state ends equal to its setpoint, and last-enabled becomes the current flag. |
| SwervePointGenerator.Coefficients | zebROS_ws/src/swerve_point_generator/src/profiler.cpp:425-434 | A quintic has six coefficients. |
| SwervePointGenerator.FirstDerivative | zebROS_ws/src/swerve_point_generator/src/profiler.cpp:54-112 | The first-derivative spline is the formal derivative of the quintic. |
| SwervePointGenerator.SecondDerivative | zebROS_ws/src/swerve_point_generator/src/profiler.cpp:54-112 | The second-derivative spline, built from the first, is the formal second derivative. |
| SwervePointGenerator.PowersAgreeWithHorner | zebROS_ws/src/swerve_point_generator/src/profiler.cpp:425-434 | The source's sum of powers equals Horner evaluation of the coefficients. |
| SwervePointGenerator.Coerce | zebROS_ws/src/swerve_point_generator/src/profiler.cpp:238-254 | With min <= max the result lies in [min, max]. It reports a change exactly when the value changed, and tests the upper bound first. |
| SwervePointGenerator.PolySolve | zebROS_ws/src/swerve_point_generator/src/profiler.cpp:410-424 | Fails with x = 0 exactly on a negative discriminant. Otherwise x is a root. |
| SwervePointGenerator.QuadraticRoot | zebROS_ws/src/swerve_point_generator/src/profiler.cpp:410-424 | (-b + r) / 2a is a root whenever r squared is the discriminant. |
| SwervePointGenerator.SelectSegment | zebROS_ws/src/swerve_point_generator/src/profiler.cpp:438-448 | Selects the first k < n-1 whose end point lies beyond t, and n-1 if there is none. |
| SwervePointGenerator.Radius | zebROS_ws/src/swerve_point_generator/src/profiler.cpp:473-483 | The 1e16 sentinel when the curvature denominator is 0. Otherwise the speed term over the absolute denominator. |
| SwervePointGenerator.Abs | zebROS_ws/src/swerve_point_generator/src/profiler.cpp:473-483 | fabs: non-negative, and x or -x. |
| SwervePointGenerator.Reversed | zebROS_ws/src/swerve_point_generator/src/profiler.cpp:113-125 | The reversed list holds element n-1-i at i. |
| SwervePointGenerator.Firsts | zebROS_ws/src/swerve_point_generator/src/profiler.cpp:54-112 | One first-derivative spline per segment. |
| SwervePointGenerator.Seconds | zebROS_ws/src/swerve_point_generator/src/profiler.cpp:54-112 | One second-derivative spline per segment. |
| SwervePointGenerator.SwerveProfiler.CalcPoint | zebROS_ws/src/swerve_point_generator/src/profiler.cpp:425-434 | The spline's polynomial at t, flipped about the total time when flipping, then shifted. |
| SwervePointGenerator.SwerveProfiler.SimpsonStep | zebROS_ws/src/swerve_point_generator/src/profiler.cpp:365-380 | A Simpson step is non-negative when sqrt is and the period is non-negative. |
| SwervePointGenerator.SwerveProfiler.BeginProfile | zebROS_ws/src/swerve_point_generator/src/profiler.cpp:21-125 | Fails before any work exactly when the end points or the x splines are empty. Otherwise it sets the total time to the end-point span and returns the derivative splines, reversed when flipping. |
| SwervePointGenerator.SwerveProfiler.ParametrizeSpline | zebROS_ws/src/swerve_point_generator/src/profiler.cpp:316-409 | For n segments: 100n+1 times and arc lengths, and one time-per-arc ratio per segment. The arc table starts at 0, ends at the total, and is non-decreasing when sqrt and the periods are non-negative. |
| SwervePointGenerator.SwerveProfiler.AddSegment | zebROS_ws/src/swerve_point_generator/src/profiler.cpp:342-390 | One pass of the segment loop records the previous segment's ratio and adds 100 rows. |
| SwervePointGenerator.SwerveProfiler.IntegrateSegment | zebROS_ws/src/swerve_point_generator/src/profiler.cpp:364-382 | The inner loop adds 100 rows at the segment's sample times. Arc lengths are non-decreasing under the same conditions. |
| SwervePointGenerator.SwerveProfiler.CloseTable | zebROS_ws/src/swerve_point_generator/src/profiler.cpp:385-392 | Closing the table records the last ratio and the total arc length. |
| SwervePointGenerator.LastRatio | zebROS_ws/src/swerve_point_generator/src/profiler.cpp:385-392 | The closed table holds every segment's ratio. |
| SwerveMotionProfiling.PolySolve | zebROS_ws/src/swerve_motion_profiling/src/profiler.cpp:138-151 | Fails exactly on a negative discriminant, leaving x unchanged. Otherwise x is a root. |
| SwerveMotionProfiling.GuardOnlyAtStartOfOnePointPath | zebROS_ws/src/swerve_motion_profiling/src/profiler.cpp:102 | The guard holds exactly for a one-point path at position 0. |
| SwerveMotionProfiling.SizeMinusOne | zebROS_ws/src/swerve_motion_profiling/src/profiler.cpp:102 | path.size() - 1 in size_t: one less than the size, or the largest size_t for an empty path. |
| SwerveMotionProfiling.Guard | zebROS_ws/src/swerve_motion_profiling/src/profiler.cpp:102 | The guard holds only at position 0 of a non-empty path. |
| SwerveMotionProfiling.SwerveProfiler.constructor | zebROS_ws/src/swerve_motion_profiling/src/profiler.cpp:5-15 | Stores the limits. |
| SwerveMotionProfiling.SwerveProfiler.SolveForNextV | zebROS_ws/src/swerve_motion_profiling/src/profiler.cpp:89-137 | Outside the guard: v grows by the mid acceleration, is clamped to ±max speed, and the call returns true. Inside the guard: never a defined true. |
| SwerveMotionProfiling.SwerveProfiler.GenerateProfile | zebROS_ws/src/swerve_motion_profiling/src/profiler.cpp:18-70 | Succeeds exactly on an empty path. Every step but the last returned true. A false step gives false, and a step without a return value gives undefined behaviour. Each recorded step returned true exactly when the guard did not hold at the position it was taken at. |
| IntakeServer.Inc32 | zebROS_ws/src/behaviors/src/intake_server.cpp:196-209 | An atomic increment adds one and wraps at 2^31 - 1. |
| IntakeServer.LastIndexOf | zebROS_ws/src/behaviors/src/intake_server.cpp:187-195 | The last index holding the key, or none when no name matches. |
| IntakeServer.CachedIndexFindsSensor | zebROS_ws/src/behaviors/src/intake_server.cpp:187-195 | An in-range cache is kept. Otherwise the search lands on the last "intake_line_break", or leaves the cache when the name is absent. |
| IntakeServer.CachedIndex | zebROS_ws/src/behaviors/src/intake_server.cpp:187-195 | An in-range cache is kept, and a changed cache points at the sensor's name. |
| IntakeServer.IntakeAction.constructor | zebROS_ws/src/behaviors/src/intake_server.cpp:21-22 | Stores the parameters. The cache starts at the largest size_t, and the counters hold their unset initial values. |
| IntakeServer.Readings | zebROS_ws/src/behaviors/src/intake_server.cpp:196-209 | One sensor reading per handled message, each read at the index cached once that message is handled. |
| IntakeServer.ReadingsConcat | zebROS_ws/src/behaviors/src/intake_server.cpp:187-195 | The cached index persists across messages, so handling two batches in turn gives the cache and the readings of handling them together. |
| IntakeServer.Run | zebROS_ws/src/behaviors/src/intake_server.cpp:199-208 | The length of the final run of equal readings, at most the number of readings, and every reading in it has the given value. |
| IntakeServer.CountWithinRun | zebROS_ws/src/behaviors/src/intake_server.cpp:199-218 | A counter raised on one reading and zeroed on the other never exceeds the final run of that reading, even with wrap-around. |
| IntakeServer.RunConcat | zebROS_ws/src/behaviors/src/intake_server.cpp:65-77 | A run that continues into later readings is a run of all the readings together. |
| IntakeServer.SpinExtendsRun | zebROS_ws/src/behaviors/src/intake_server.cpp:72-76 | After one more spin, a counter within the run since its reset stays within the run over all readings since that reset. |
| IntakeServer.AllMessagesSnoc | zebROS_ws/src/behaviors/src/intake_server.cpp:72-76 | Each spin of the wait loop appends its messages to those handled since the reset. |
| IntakeServer.IntakeAction.JointStateCallback | zebROS_ws/src/behaviors/src/intake_server.cpp:185-219 | Caches the sensor index, and returns the reading it took at that index. A "cube" reading increments the true count and zeroes the false count, and a missing or clear reading does the reverse. One counter is always 0. The missing-sensor warning fires every 100th time. |
| IntakeServer.IntakeAction.Spin | zebROS_ws/src/behaviors/src/intake_server.cpp:185-219 | Handling a batch of messages leaves the cache where the messages take it. It returns one reading per message, and each counter equals the run-length count of its reading over them. |
| IntakeServer.IntakeAction.Start | zebROS_ws/src/behaviors/src/intake_server.cpp:53-64 | The first request (intake power with the clamp open, or -1 with it closed at lines 117-123) and the first spin. Intake resets the true count after that spin, spit-out the false count before it, so the counter is within the run of its reading since the reset. |
| IntakeServer.IntakeAction.ExtraSecond | zebROS_ws/src/behaviors/src/intake_server.cpp:80-102 | The extra second of spinning after the debounce loop (repeated at lines 140-156 for spit-out, which also re-reads the timeout). A timeout or preemption already set stays set, only spit-out can newly time out, and it never ends both timed out and preempted unless it started so. |
| IntakeServer.IntakeAction.DebouncePass | zebROS_ws/src/behaviors/src/intake_server.cpp:66-76 | One pass of the debounce loop: success is the counter above the debounce count. A preempted pass changes nothing. Otherwise it spins, checks the timeout, and keeps the counter within the run of its reading since the reset. |
| IntakeServer.IntakeAction.Debounce | zebROS_ws/src/behaviors/src/intake_server.cpp:65-77 | The debounce loop (repeated at lines 126-139 for spit-out). `checked` is the readings since the reset up to the last check. On success, the counter value that check saw exceeds the debounce count and is at most the final run of the awaited reading in `checked`. |
| IntakeServer.IntakeAction.ExecuteCB | zebROS_ws/src/behaviors/src/intake_server.cpp:45-181 | The first request starts the intake, or the spit-out. `checked` is the readings from the counter's reset to the last check. On success, the last `lastCount` readings, more than the debounce count, all show the cube present (intake) or gone (spit-out). A finished intake sends `IntakeRequest(1.0, true)` second, before the stop. A finished action succeeded or timed out. The final request stops the motor. |
| SmallVector.NewCapacity | zebROS_ws/src/ros_control_boilerplate/src/dummy_wpilib_common.cpp:1233-1236 | At least the requested minimum. Otherwise exactly twice the capacity plus one element, in size_t. |
| SmallVector.NewCapacityGrows | zebROS_ws/src/ros_control_boilerplate/src/dummy_wpilib_common.cpp:1233-1236 | Without overflow, the capacity grows by at least one element, and it always fits in a size_t. |
| SmallVector.SizeFitsNewCapacity | zebROS_ws/src/ros_control_boilerplate/src/dummy_wpilib_common.cpp:1233-1253 | The bytes in use fit the grown block when doubling does not overflow, or when the minimum is at least the bytes in use. |
| SmallVector.Memcpy | zebROS_ws/src/ros_control_boilerplate/src/dummy_wpilib_common.cpp:1245 | Copies count bytes and leaves the rest of the destination alone. |
| SmallVector.SmallVectorBase.GrowPod | zebROS_ws/src/ros_control_boilerplate/src/dummy_wpilib_common.cpp:1231-1256 | Accepts any minimum size as long as the copied bytes fit the new block: doubling does not overflow size_t, or the minimum is at least the size. A failed allocation throws the branch's message and changes nothing. Otherwise a fresh block of the new capacity keeps the size and its first size bytes. A realloc keeps every byte both blocks share. |

## Left out

- **Hardware and middleware.** Hardware I/O is not modelled: HAL, the motor-controller vendor's library, WPILib, the read threads, device creation, NetworkTables and SmartDashboard. Neither is ROS plumbing: parameters beyond the wheel names, logging and publishing. Where a result matters it is an input (an error code, a reading, allocation success).
- **Concurrency.** Realtime buffers, mutexes, atomics shared between threads, and the unsynchronised profile queue are not modelled. The model is a single thread that interleaves callbacks and ticks.
- **Floating point.** All arithmetic is modelled on reals, without rounding, infinities or NaN. sqrt, pow, sin, cos, fmod and the profilers' divisions by a value that may be 0 are uninterpreted function parameters. Divisions by a value that cannot be 0 are real division. Infinities are not modelled, so `ConversionFactor` excludes a zero tick count, where the source would compute an infinite factor.
- **Odometry numerics.** The SVD, the rigid transform and the published odometry messages are not modelled, nor are the swerve kinematics internals (`motorOutputs`, `getWheelAngle`), whose source is not part of this model.
- **Static locals.** Statics (`mode_last`, `brake_last`, `time_before_brake`, `slot_ret`, `last_robot_enabled`, `accel`, `cube_idx`) are fields of their object, so two instances would not share them.
- SwervePointGenerator.SwerveProfiler.ParametrizeSpline: the Simpson sums and the fitted `tk::spline` are not stated. Only the table's shape, times, ratios, end values and monotonicity are.
- SwervePointGenerator.SwerveProfiler.BeginProfile: the rest of `generate_profile` is not modelled. That covers the point generator's `solve_for_next_V`, its velocity passes and `comp_point_characteristics` beyond segment selection and radius, all of which are float numerics. Its `requires` also demands at least as many y and orientation splines as x splines when the guards pass. The source indexes those lists by the x-spline index without a check (profiler.cpp:76-79 for the y splines and 95-99 for the orientation splines), so shorter lists are undefined behaviour there and are excluded.
- SwerveMotionProfiling.PolySolve: requires a non-zero leading coefficient. Every call in the source passes 1.
- SwerveMotionProfiling.SwerveProfiler.GenerateProfile:
  - Its forward pass is bounded by a fuel count (the result `OutOfFuel`), because its termination depends on floating-point velocities.
  - Nothing after the first out-of-range read of the backward pass is modelled.
- SmallVector.SmallVectorBase.GrowPod: when doubling the capacity overflows size_t and the requested minimum is below the current size, the source copies past the end of the new block. That undefined case is excluded.
- TalonInterface.NewStateHandle: the source reads the state buffer's pointers before its null check (talon_interface.h:76-79), so a null buffer is undefined behaviour there. The model gives the exception the null check would throw.
- SwerveDriveController.Controller.MotionProfileService: requires a well-formed request: every buffered profile has a point 0, and every per-point list is as long as the source's copy and buffering loops read. The source reads a malformed request out of range, which is undefined, so that case is excluded.
- IntakeServer.IntakeAction.ExecuteCB:
  - The start time of the extra wait after success is taken as the time of the last tick.
  - `ros::ok()` is folded into the preemption flag.
  - The service-call failure log is not modelled.
- SwerveDriveController.SlotScan: the mismatch counter `slot_ret_diff_last_sum` is a C++ `int` (swerve_drive_controller.cpp:868) that is never reset, so after 2^31 - 1 mismatches the increment at line 872 overflows, which is undefined behaviour. The model's counter is an unbounded integer, so "never decreases" (`SlotCounterMonotone`, `Controller.SlotCheck`) holds only in the model.
- IntakeServer.IntakeAction.JointStateCallback: the missing-sensor count is an unbounded integer. Its overflow after 2^31 messages is not modelled.
- FrcRobotHwInterface.RumbleRules: the bit pattern of a double is a function parameter.
- FrcRobotHwInterface.FrcRobotHw.WriteTalons: only the custom-profile skip and the disable edge of the motor-controller loop are modelled. The per-setting change checks it makes through the richer command buffer are left out, because that buffer's source is not part of this model.
