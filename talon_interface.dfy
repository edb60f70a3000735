/**
 * The per-motor-controller state and command buffers that the hardware
 * interface and the controllers share (talon_interface.h).
 *
 * TalonHWState holds what the hardware last reported, TalonHWCommand holds
 * what a controller wants written; both are updated in place, so both are
 * classes. The value of a command buffer is described by CommandState, and
 * each method of TalonHWCommand is tied to a step function on that value.
 */
module TalonInterface {
  import opened Wrappers

  // Codes of the TalonMode enumeration; a mode is passed around as its code,
  // since the enumeration can hold out-of-range values.
  const ModeUninitialized: int := -1
  const ModePercentVbus: int := 0
  const ModePosition: int := 1
  const ModeSpeed: int := 2
  const ModeCurrent: int := 3
  const ModeVoltage: int := 4
  const ModeFollower: int := 5
  const ModeMotionProfile: int := 6
  const ModeMotionMagic: int := 7
  const ModeLast: int := 8

  /** The modes setMode accepts: strictly between Uninitialized and Last. */
  predicate ValidMode(mode: int) {
    ModeUninitialized < mode < ModeLast
  }

  /** The changeable part of a TalonHWCommand. */
  datatype CommandState = CommandState(
    command: real,         // setpoint, in the units of the current mode
    mode: int,
    modeChanged: bool,     // a mode change waits to be sent to the hardware
    pidfSlot: int,
    pidfSlotChanged: bool)

  /** What a freshly constructed command buffer holds. */
  const InitialCommandState := CommandState(0.0, ModeUninitialized, false, 0, false)

  /** set(): store a new setpoint. */
  function SetStep(s: CommandState, command: real): (r: CommandState)
    ensures r.command == command
    ensures r.(command := s.command) == s
  {
    s.(command := command)
  }

  /** setMode(): an out-of-range mode is ignored (after a warning); otherwise
      the mode is stored, flagged as changed and the setpoint cleared. */
  function SetModeStep(s: CommandState, mode: int): (r: CommandState)
    ensures !ValidMode(mode) ==> r == s
    ensures ValidMode(mode) ==> r.mode == mode && r.modeChanged && r.command == 0.0
    ensures r.pidfSlot == s.pidfSlot && r.pidfSlotChanged == s.pidfSlotChanged
  {
    if !ValidMode(mode) then s
    else s.(mode := mode, modeChanged := true, command := 0.0)
  }

  /** Outcome of newMode(): whether a change was pending, the value of the
      caller's mode variable afterwards, and the new buffer state. */
  datatype NewModeOutcome = NewModeOutcome(changed: bool, mode: int, state: CommandState)

  /** newMode(): report and consume a pending mode change; the caller's
      variable is written only when a change was pending. */
  function NewModeStep(s: CommandState, callerMode: int): (r: NewModeOutcome)
    ensures r.changed == s.modeChanged && !r.state.modeChanged
    ensures r.state.(modeChanged := s.modeChanged) == s
    ensures r.mode == if s.modeChanged then s.mode else callerMode
  {
    if !s.modeChanged then NewModeOutcome(false, callerMode, s)
    else NewModeOutcome(true, s.mode, s.(modeChanged := false))
  }

  /** A valid setMode is reported exactly once by the following newMode calls,
      with the mode that was set, and the second call leaves the caller's
      variable alone. */
  lemma SetModeReportedOnce(s: CommandState, mode: int, m1: int, m2: int)
    requires ValidMode(mode)
    ensures NewModeStep(SetModeStep(s, mode), m1).changed
    ensures NewModeStep(SetModeStep(s, mode), m1).mode == mode
    ensures NewModeStep(SetModeStep(s, mode), m1).state.mode == mode
    ensures NewModeStep(NewModeStep(SetModeStep(s, mode), m1).state, m2)
            == NewModeOutcome(false, m2, NewModeStep(SetModeStep(s, mode), m1).state)
  {
  }

  /** An invalid mode leaves the buffer exactly as it was, so nothing is
      reported by newMode unless a change was already pending. */
  lemma InvalidModeIgnored(s: CommandState, mode: int, m: int)
    requires !ValidMode(mode)
    ensures SetModeStep(s, mode) == s
    ensures NewModeStep(SetModeStep(s, mode), m).changed == s.modeChanged
  {
  }

  /** A mode change always clears the setpoint; a later set() wins over it. */
  lemma ModeChangeClearsSetpoint(s: CommandState, mode: int, command: real)
    requires ValidMode(mode)
    ensures SetModeStep(s, mode).command == 0.0
    ensures SetStep(SetModeStep(s, mode), command).command == command
    ensures SetStep(SetModeStep(s, mode), command).modeChanged
  {
  }

  /** A fresh buffer reports no mode change. */
  lemma FreshBufferReportsNothing(m: int)
    ensures NewModeStep(InitialCommandState, m) == NewModeOutcome(false, m, InitialCommandState)
  {
  }

  /** Command buffer of one motor controller (TalonHWCommand). */
  class TalonHWCommand {
    var command: real
    var mode: int
    var modeChanged: bool
    var pidfSlot: int
    var pidfSlotChanged: bool
    // Two hardware slots for each gain.
    const p: array<real>
    const i: array<real>
    const iZone: array<real>
    const d: array<real>
    const f: array<real>

    function State(): CommandState
      reads this
    {
      CommandState(command, mode, modeChanged, pidfSlot, pidfSlotChanged)
    }

    predicate GainsZero()
      reads p, i, iZone, d, f
    {
      p[..] == [0.0, 0.0] && i[..] == [0.0, 0.0] && iZone[..] == [0.0, 0.0]
      && d[..] == [0.0, 0.0] && f[..] == [0.0, 0.0]
    }

    constructor ()
      ensures State() == InitialCommandState
      ensures p.Length == 2 && i.Length == 2 && iZone.Length == 2
      ensures d.Length == 2 && f.Length == 2
      ensures GainsZero()
      ensures fresh(p) && fresh(i) && fresh(iZone) && fresh(d) && fresh(f)
    {
      command := 0.0;
      mode := ModeUninitialized;
      modeChanged := false;
      pidfSlot := 0;
      pidfSlotChanged := false;
      p := new real[2];
      i := new real[2];
      iZone := new real[2];
      d := new real[2];
      f := new real[2];
      new;
      for slot := 0 to 2
        invariant State() == InitialCommandState
        invariant forall k :: 0 <= k < slot ==>
          p[k] == 0.0 && i[k] == 0.0 && d[k] == 0.0 && f[k] == 0.0 && iZone[k] == 0.0
      {
        p[slot] := 0.0;
        i[slot] := 0.0;
        d[slot] := 0.0;
        f[slot] := 0.0;
        iZone[slot] := 0.0;
      }
    }

    method Get() returns (c: real)
      ensures c == State().command
    {
      c := command;
    }

    method GetMode() returns (m: int)
      ensures m == State().mode
    {
      m := mode;
    }

    method Set(c: real)
      modifies this
      ensures State() == SetStep(old(State()), c)
    {
      command := c;
    }

    method SetMode(m: int)
      modifies this
      ensures State() == SetModeStep(old(State()), m)
    {
      if m <= ModeUninitialized || m >= ModeLast {
        return;
      }
      mode := m;
      modeChanged := true;
      Set(0.0);
    }

    /** callerMode is the caller's variable on entry; newModeOut its value on exit. */
    method NewMode(callerMode: int) returns (changed: bool, newModeOut: int)
      modifies this
      ensures NewModeOutcome(changed, newModeOut, State()) == NewModeStep(old(State()), callerMode)
    {
      newModeOut := callerMode;
      if !modeChanged {
        return false, newModeOut;
      }
      newModeOut := mode;
      modeChanged := false;
      changed := true;
    }
  }

  /** Last reported state of one motor controller (TalonHWState). */
  class TalonHWState {
    var position: real
    var speed: real
    var outputVoltage: real

    constructor ()
      ensures position == 0.0 && speed == 0.0 && outputVoltage == 0.0
    {
      position := 0.0;
      speed := 0.0;
      outputVoltage := 0.0;
    }

    method GetPosition() returns (r: real)
      ensures r == position
    {
      r := position;
    }

    method GetSpeed() returns (r: real)
      ensures r == speed
    {
      r := speed;
    }

    method GetOutputVoltage() returns (r: real)
      ensures r == outputVoltage
    {
      r := outputVoltage;
    }

    method SetPosition(x: real)
      modifies this
      ensures position == x && speed == old(speed) && outputVoltage == old(outputVoltage)
    {
      position := x;
    }

    method SetSpeed(x: real)
      modifies this
      ensures speed == x && position == old(position) && outputVoltage == old(outputVoltage)
    {
      speed := x;
    }

    method SetOutputVoltage(x: real)
      modifies this
      ensures outputVoltage == x && position == old(position) && speed == old(speed)
    {
      outputVoltage := x;
    }
  }

  /** A named handle on a state buffer (TalonStateHandle). */
  datatype StateHandle = StateHandle(name: string, state: TalonHWState)

  /** A state handle plus the command buffer it writes (TalonCommandHandle). */
  datatype CommandHandle = CommandHandle(stateHandle: StateHandle, cmd: TalonHWCommand)

  /** Building a state handle: a null state buffer raises a hardware-interface
      exception whose message names the joint. */
  function NewStateHandle(name: string, state: TalonHWState?): (r: Result<StateHandle, string>)
    ensures r.Success? <==> state != null
    ensures r.Success? ==> r.value.name == name && r.value.state == state
    ensures r.Failure? ==> r.error == "Cannot create Talon state handle '" + name + "'. state pointer is null."
  {
    if state == null then
      Failure("Cannot create Talon state handle '" + name + "'. state pointer is null.")
    else
      Success(StateHandle(name, state))
  }

  /** Building a command handle: a null command buffer raises an exception. */
  function NewCommandHandle(js: StateHandle, cmd: TalonHWCommand?): (r: Result<CommandHandle, string>)
    ensures r.Success? <==> cmd != null
    ensures r.Success? ==> r.value.stateHandle == js && r.value.cmd == cmd
    ensures r.Failure? ==> r.error == "Cannot create Talon handle '" + js.name + "'. command pointer is null."
  {
    if cmd == null then
      Failure("Cannot create Talon handle '" + js.name + "'. command pointer is null.")
    else
      Success(CommandHandle(js, cmd))
  }
}
