/**
 * The intake action server (behaviors/src/intake_server.cpp): the
 * line-break callback that keeps two run-length counters (cube seen, cube
 * not seen) and caches the sensor's index in the joint-state message, and
 * the action callback that runs the intake or spits the cube out and waits
 * for the debounced sensor.
 *
 * ROS time, preemption requests and the messages handled by each
 * ros::spinOnce() are inputs: a sequence of ticks, one per pass of a wait
 * loop. The intake service is an output: the sequence of requests sent.
 */
module IntakeServer {
  import opened Wrappers

  /** std::atomic<int>: the counters wrap around like 32-bit integers. */
  newtype Int32 = x: int | -0x8000_0000 <= x < 0x8000_0000

  /** Atomic increment of a 32-bit counter. */
  function Inc32(x: Int32): (r: Int32)
    ensures x < 0x7fff_ffff ==> r as int == x as int + 1
    ensures x == 0x7fff_ffff ==> r == -0x8000_0000
  {
    if x == 0x7fff_ffff then -0x8000_0000 else x + 1
  }

  /** A counter value, or 0 for a negative one. */
  function NonNegative(x: Int32): int {
    if x < 0 then 0 else x as int
  }

  /** The largest size_t, the initial value of the cached index. */
  const SizeTMax: nat := 0xffff_ffff_ffff_ffff

  /** The joint name of the line-break sensor. */
  const SensorName: string := "intake_line_break"

  /** The parts of a sensor_msgs/JointState message that are read. */
  datatype JointState = JointState(names: seq<string>, positions: seq<real>)

  /** The index of the last occurrence of key in names. */
  function LastIndexOf(names: seq<string>, key: string): (r: Option<nat>)
    ensures r.Some? ==> r.value < |names| && names[r.value] == key
    ensures r.Some? ==> forall j :: r.value < j < |names| ==> names[j] != key
    ensures r.None? ==> forall j :: 0 <= j < |names| ==> names[j] != key
  {
    if names == [] then None
    else if names[|names| - 1] == key then Some(|names| - 1)
    else LastIndexOf(names[..|names| - 1], key)
  }

  /** The cached index after a message: kept while it is in range of the
      names, otherwise replaced by the last match if there is one. */
  function CachedIndex(cached: nat, names: seq<string>): (r: nat)
    ensures cached < |names| ==> r == cached
    ensures r != cached ==> r < |names| && names[r] == SensorName
  {
    if cached < |names| then cached
    else match LastIndexOf(names, SensorName)
      case Some(i) => i
      case None => cached
  }

  /** The search runs only when the cache is out of range, and then lands on
      the sensor's last occurrence or leaves the cache untouched. */
  lemma CachedIndexFindsSensor(cached: nat, names: seq<string>)
    ensures cached < |names| ==> CachedIndex(cached, names) == cached
    ensures cached >= |names| && SensorName in names ==>
              var r := CachedIndex(cached, names);
              r < |names| && names[r] == SensorName && forall j :: r < j < |names| ==> names[j] != SensorName
    ensures cached >= |names| && SensorName !in names ==> CachedIndex(cached, names) == cached
  {
    if cached >= |names| && SensorName in names {
      var k :| 0 <= k < |names| && names[k] == SensorName;
      assert LastIndexOf(names, SensorName).Some?;
    }
  }

  /** The sensor reads "cube" when the cached index has a position and that
      position is non-zero; a missing sensor reads "no cube". */
  predicate SensorSeen(js: JointState, idx: nat) {
    idx < |js.positions| && js.positions[idx] != 0.0
  }

  /** The cached index after the callback has handled each message in turn. */
  function CacheAfter(cached: nat, msgs: seq<JointState>): nat
    decreases |msgs|
  {
    if |msgs| == 0 then cached
    else CachedIndex(CacheAfter(cached, msgs[..|msgs| - 1]), msgs[|msgs| - 1].names)
  }

  /** What the sensor read in each message, one reading per message, each
      taken at the index cached once that message has been handled. */
  function Readings(cached: nat, msgs: seq<JointState>): (r: seq<bool>)
    ensures |r| == |msgs|
    decreases |msgs|
  {
    if |msgs| == 0 then []
    else Readings(cached, msgs[..|msgs| - 1]) + [SensorSeen(msgs[|msgs| - 1], CacheAfter(cached, msgs))]
  }

  /** Handling more messages continues both the cache and the readings. */
  lemma {:induction false} ReadingsConcat(cached: nat, a: seq<JointState>, b: seq<JointState>)
    ensures CacheAfter(cached, a + b) == CacheAfter(CacheAfter(cached, a), b)
    ensures Readings(cached, a + b) == Readings(cached, a) + Readings(CacheAfter(cached, a), b)
    decreases |b|
  {
    if |b| > 0 {
      var b' := b[..|b| - 1];
      assert (a + b)[..|a + b| - 1] == a + b';
      ReadingsConcat(cached, a, b');
    } else {
      assert a + b == a;
    }
  }

  /** A run-length counter after a series of readings: raised (with 32-bit
      wrap-around) on each reading equal to v, restarted at 0 on any other. */
  function CountAfter(c: Int32, s: seq<bool>, v: bool): Int32
    decreases |s|
  {
    if |s| == 0 then c
    else if s[|s| - 1] == v then Inc32(CountAfter(c, s[..|s| - 1], v))
    else 0
  }

  /** The length of the run of v at the end of s, continuing a run of
      length start when all of s is v. */
  function Run(start: nat, s: seq<bool>, v: bool): (r: nat)
    ensures r <= start + |s|
    ensures forall i :: 0 <= i < |s| && |s| - r <= i ==> s[i] == v
    decreases |s|
  {
    if |s| == 0 then start
    else if s[|s| - 1] == v then
      var init := s[..|s| - 1];
      assert forall i :: 0 <= i < |init| ==> init[i] == s[i];
      Run(start, init, v) + 1
    else 0
  }

  /** A counter never exceeds the run it counts: it only ever counts the
      latest readings in a row, and wrap-around only makes it smaller. */
  lemma {:induction false} CountWithinRun(c: Int32, s: seq<bool>, v: bool)
    ensures CountAfter(c, s, v) as int <= Run(NonNegative(c), s, v)
    decreases |s|
  {
    if |s| > 0 && s[|s| - 1] == v {
      CountWithinRun(c, s[..|s| - 1], v);
    }
  }

  /** A run continued across two stretches of readings is a run of their
      concatenation. */
  lemma {:induction false} RunConcat(a: nat, r: seq<bool>, g: seq<bool>, v: bool)
    requires a <= Run(0, r, v)
    ensures Run(a, g, v) <= Run(0, r + g, v)
    decreases |g|
  {
    if |g| == 0 {
      assert r + g == r;
    } else {
      var g' := g[..|g| - 1];
      assert (r + g)[..|r + g| - 1] == r + g';
      RunConcat(a, r, g', v);
    }
  }

  /** One more spin: a counter bounded by the run since the reset stays
      bounded by the run over the readings so far. */
  lemma SpinExtendsRun(c0: nat, heard: seq<JointState>, msgs: seq<JointState>, count: Int32, v: bool)
    requires count as int <= Run(0, Readings(c0, heard), v)
    ensures CacheAfter(c0, heard + msgs) == CacheAfter(CacheAfter(c0, heard), msgs)
    ensures CountAfter(count, Readings(CacheAfter(c0, heard), msgs), v) as int <= Run(0, Readings(c0, heard + msgs), v)
  {
    var seen := Readings(CacheAfter(c0, heard), msgs);
    ReadingsConcat(c0, heard, msgs);
    CountWithinRun(count, seen, v);
    RunConcat(NonNegative(count), Readings(c0, heard), seen, v);
  }

  /** The request to the intake controller's service. */
  datatype IntakeRequest = IntakeRequest(power: real, intakeIn: bool)

  /** The goal of the action. */
  datatype Goal = Goal(intakeCube: bool, timeout: real)

  /** The messages of a series of wait-loop passes, in order. */
  function AllMessages(ticks: seq<Tick>): seq<JointState>
    decreases |ticks|
  {
    if |ticks| == 0 then [] else AllMessages(ticks[..|ticks| - 1]) + ticks[|ticks| - 1].messages
  }

  /** One more pass adds its messages at the end of what was handled. */
  lemma AllMessagesSnoc(prefix: seq<JointState>, ticks: seq<Tick>, p: nat)
    requires p < |ticks|
    ensures prefix + AllMessages(ticks[..p + 1]) == (prefix + AllMessages(ticks[..p])) + ticks[p].messages
  {
    assert ticks[..p + 1][..p] == ticks[..p];
  }

  /** One pass of a wait loop: whether preemption was requested (or ROS shut
      down), the messages the callback handles during ros::spinOnce(), and
      the time read in that pass. */
  datatype Tick = Tick(preemptRequested: bool, messages: seq<JointState>, now: real)

  /** How the action ended. OutOfTicks: the inputs ran out while still waiting. */
  datatype Outcome = Preempted | Finished(timedOut: bool, success: bool) | OutOfTicks

  class IntakeAction {
    /** The intake_power and linebreak_debounce_iterations parameters. */
    const intakePower: real
    const debounceIterations: real
    var trueCount: Int32
    var falseCount: Int32
    /** The static cube_idx of the callback. */
    var cubeIdx: nat
    /** The static count of "sensor not found" messages. */
    var missingCount: int

    /** The counters are atomics the constructor does not initialise, so
        their first values are parameters. */
    constructor(intakePower: real, debounceIterations: real, trueCount0: Int32, falseCount0: Int32)
      ensures this.intakePower == intakePower && this.debounceIterations == debounceIterations
      ensures trueCount == trueCount0 && falseCount == falseCount0
      ensures cubeIdx == SizeTMax && missingCount == 0
    {
      this.intakePower := intakePower;
      this.debounceIterations := debounceIterations;
      trueCount, falseCount := trueCount0, falseCount0;
      cubeIdx := SizeTMax;
      missingCount := 0;
    }

    /** jointStateCallback: refresh the cached index if it is out of range,
        then count the reading; exactly one counter restarts at zero. warned
        is whether the "not found" warning is logged (every 100th miss). */
    method JointStateCallback(js: JointState) returns (warned: bool, ghost seen: bool)
      modifies this`trueCount, this`falseCount, this`cubeIdx, this`missingCount
      ensures seen == SensorSeen(js, cubeIdx)
      ensures cubeIdx == CachedIndex(old(cubeIdx), js.names)
      ensures SensorSeen(js, cubeIdx) ==> trueCount == Inc32(old(trueCount)) && falseCount == 0
      ensures !SensorSeen(js, cubeIdx) ==> trueCount == 0 && falseCount == Inc32(old(falseCount))
      ensures trueCount == 0 || falseCount == 0
      ensures warned <==> cubeIdx >= |js.positions| && old(missingCount) % 100 == 0
      ensures missingCount == if cubeIdx < |js.positions| then old(missingCount) else old(missingCount) + 1
    {
      if cubeIdx >= |js.names| {
        for i := 0 to |js.names|
          modifies this`cubeIdx
          invariant cubeIdx == match LastIndexOf(js.names[..i], SensorName)
                                 case Some(k) => k
                                 case None => old(cubeIdx)
        {
          assert js.names[..i + 1][..i] == js.names[..i];
          if js.names[i] == SensorName {
            cubeIdx := i;
          }
        }
        assert js.names[..|js.names|] == js.names;
      }
      warned := false;
      seen := SensorSeen(js, cubeIdx);
      if cubeIdx < |js.positions| {
        var cubeState := js.positions[cubeIdx] != 0.0;
        if cubeState {
          trueCount := Inc32(trueCount);
          falseCount := 0;
        } else {
          trueCount := 0;
          falseCount := Inc32(falseCount);
        }
      } else {
        warned := missingCount % 100 == 0;
        missingCount := missingCount + 1;
        trueCount := 0;
        falseCount := Inc32(falseCount);
      }
    }

    /** ros::spinOnce(): the callback runs on each pending message. The
        cache follows the messages, `seen` is what the sensor read in each,
        and each counter is the run-length count over those readings. */
    method Spin(messages: seq<JointState>) returns (ghost seen: seq<bool>)
      modifies this`trueCount, this`falseCount, this`cubeIdx, this`missingCount
      ensures cubeIdx == CacheAfter(old(cubeIdx), messages)
      ensures seen == Readings(old(cubeIdx), messages)
      ensures trueCount == CountAfter(old(trueCount), seen, true)
      ensures falseCount == CountAfter(old(falseCount), seen, false)
      ensures missingCount >= old(missingCount)
    {
      seen := [];
      for k := 0 to |messages|
        invariant cubeIdx == CacheAfter(old(cubeIdx), messages[..k])
        invariant seen == Readings(old(cubeIdx), messages[..k])
        invariant trueCount == CountAfter(old(trueCount), seen, true)
        invariant falseCount == CountAfter(old(falseCount), seen, false)
        invariant missingCount >= old(missingCount)
      {
        assert messages[..k + 1][..k] == messages[..k];
        var warned, reading := JointStateCallback(messages[k]);
        seen := seen + [reading];
        assert seen[..k] == Readings(old(cubeIdx), messages[..k]);
      }
      assert messages[..|messages|] == messages;
    }

    /** The counter that debounces a cube being present (v) or absent. */
    function Counter(v: bool): Int32
      reads this
    {
      if v then trueCount else falseCount
    }

    /** One pass of the debounce loop: check the counter, stop on
        preemption, else spin and check the clock. If the counter was within
        the run of v over the readings since its reset, it still is once
        the new messages are handled. */
    method DebouncePass(goal: Goal, startTime: real, t: Tick, ghost c0: nat, ghost heard: seq<JointState>)
      returns (success: bool, preempted: bool, timedOut: bool, ghost count: Int32)
      modifies this`trueCount, this`falseCount, this`cubeIdx, this`missingCount
      requires cubeIdx == CacheAfter(c0, heard)
      requires Counter(goal.intakeCube) as int <= Run(0, Readings(c0, heard), goal.intakeCube)
      ensures count == old(Counter(goal.intakeCube))
      ensures success <==> count as real > debounceIterations
      ensures preempted == t.preemptRequested
      ensures preempted ==> !timedOut && unchanged(this)
      ensures !preempted ==> timedOut == (t.now - startTime > goal.timeout)
      ensures !preempted ==> cubeIdx == CacheAfter(c0, heard + t.messages)
      ensures !preempted ==>
                Counter(goal.intakeCube) as int <= Run(0, Readings(c0, heard + t.messages), goal.intakeCube)
    {
      var c := Counter(goal.intakeCube);
      count := c;
      success := c as real > debounceIterations;
      preempted, timedOut := false, false;
      if t.preemptRequested {
        preempted := true;
      }
      if !preempted {
        SpinExtendsRun(c0, heard, t.messages, c, goal.intakeCube);
        var _ := Spin(t.messages);
        timedOut := t.now - startTime > goal.timeout;
      }
    }

    /** The debounce loop both branches of executeCB run, each on its own
        counter (trueCount to take a cube in, falseCount to spit it out):
        check the counter, stop on preemption, else spin and check the
        clock. `prefix` is what was handled since the counter's reset and
        `c0` the cached index at the reset; ranOut is whether the inputs
        ran out first. */
    method Debounce(goal: Goal, startTime: real, ticks: seq<Tick>, ghost c0: nat, ghost prefix: seq<JointState>)
      returns (pos: nat, success: bool, timedOut: bool, preempted: bool, ranOut: bool,
               ghost lastCount: int, ghost checked: seq<bool>, ghost n: nat)
      modifies this`trueCount, this`falseCount, this`cubeIdx, this`missingCount
      requires cubeIdx == CacheAfter(c0, prefix)
      requires Counter(goal.intakeCube) as int <= Run(0, Readings(c0, prefix), goal.intakeCube)
      ensures pos <= |ticks| && n <= |ticks|
      ensures checked == Readings(c0, prefix + AllMessages(ticks[..n]))
      ensures success ==> debounceIterations < lastCount as real && lastCount <= Run(0, checked, goal.intakeCube)
      ensures !ranOut ==> (success || timedOut || preempted) && !(timedOut && preempted)
    {
      ghost var v := goal.intakeCube;
      success, timedOut, preempted := false, false, false;
      pos, lastCount, n := 0, 0, 0;
      assert ticks[..0] == [] && prefix + AllMessages([]) == prefix;
      checked := Readings(c0, prefix);
      while !success && !timedOut && !preempted && pos < |ticks|
        invariant pos <= |ticks| && n <= pos
        invariant !preempted ==> cubeIdx == CacheAfter(c0, prefix + AllMessages(ticks[..pos]))
        invariant !preempted ==> Counter(v) as int <= Run(0, Readings(c0, prefix + AllMessages(ticks[..pos])), v)
        invariant checked == Readings(c0, prefix + AllMessages(ticks[..n]))
        invariant success ==> debounceIterations < lastCount as real && lastCount <= Run(0, checked, v)
        invariant !(timedOut && preempted)
        decreases |ticks| - pos
      {
        var t := ticks[pos];
        ghost var count;
        checked, n := Readings(c0, prefix + AllMessages(ticks[..pos])), pos;
        success, preempted, timedOut, count := DebouncePass(goal, startTime, t, c0, prefix + AllMessages(ticks[..pos]));
        lastCount := count as int;
        AllMessagesSnoc(prefix, ticks, pos);
        pos := pos + 1;
      }
      ranOut := !success && !timedOut && !preempted;
    }

    /** The start of executeCB: the first request to the intake controller,
        the first spin and the reset of the counter the goal debounces, in
        the source's order for each branch. `prefix` is what was handled
        since the reset and `c0` the cached index at the reset. */
    method Start(goal: Goal, firstSpin: seq<JointState>)
      returns (requests: seq<IntakeRequest>, ghost c0: nat, ghost prefix: seq<JointState>)
      modifies this`trueCount, this`falseCount, this`cubeIdx, this`missingCount
      ensures requests == [if goal.intakeCube then IntakeRequest(intakePower, false) else IntakeRequest(-1.0, true)]
      ensures goal.intakeCube ==> c0 == CacheAfter(old(cubeIdx), firstSpin) && prefix == []
      ensures !goal.intakeCube ==> c0 == old(cubeIdx) && prefix == firstSpin
      ensures cubeIdx == CacheAfter(c0, prefix)
      ensures Counter(goal.intakeCube) as int <= Run(0, Readings(c0, prefix), goal.intakeCube)
    {
      if goal.intakeCube {
        requests := [IntakeRequest(intakePower, false)];
        var _ := Spin(firstSpin);
        trueCount := 0;
        c0, prefix := cubeIdx, [];
      } else {
        falseCount := 0;
        requests := [IntakeRequest(-1.0, true)];
        c0, prefix := cubeIdx, firstSpin;
        var _ := Spin(firstSpin);
        SpinExtendsRun(c0, [], firstSpin, 0, false);
        assert [] + firstSpin == firstSpin;
      }
    }

    /** The extra second executeCB waits after the debounce loop, spinning
        until a second has passed since that loop ended, the goal timed out
        or the action is preempted. Only the spit-out branch reads the clock
        for the timeout again (watchClock); ranOut is whether the inputs ran
        out first. */
    method ExtraSecond(goal: Goal, startTime: real, ticks: seq<Tick>, pos0: nat, watchClock: bool,
                       timedOut0: bool, preempted0: bool)
      returns (pos: nat, timedOut: bool, preempted: bool, ranOut: bool)
      modifies this`trueCount, this`falseCount, this`cubeIdx, this`missingCount
      requires pos0 <= |ticks|
      ensures pos0 <= pos <= |ticks|
      ensures timedOut0 ==> timedOut
      ensures !watchClock ==> timedOut == timedOut0
      ensures preempted0 ==> preempted
      ensures !(timedOut0 && preempted0) ==> !(timedOut && preempted)
    {
      var extraStart := if pos0 > 0 then ticks[pos0 - 1].now else startTime;
      var waitDone := false;
      pos, timedOut, preempted, ranOut := pos0, timedOut0, preempted0, false;
      while !waitDone && !timedOut && !preempted
        invariant pos0 <= pos <= |ticks|
        invariant timedOut0 ==> timedOut
        invariant !watchClock ==> timedOut == timedOut0
        invariant preempted0 ==> preempted
        invariant !(timedOut0 && preempted0) ==> !(timedOut && preempted)
        decreases |ticks| - pos
      {
        if pos == |ticks| {
          ranOut := true;
          return;
        }
        var t := ticks[pos];
        pos := pos + 1;
        waitDone := t.now - extraStart > 1.0;
        if t.preemptRequested {
          preempted := true;
        }
        if !preempted {
          var _ := Spin(t.messages);
          if watchClock {
            timedOut := t.now - startTime > goal.timeout;
          }
        }
      }
    }

    /** executeCB: run the intake in (or out), reset the matching counter,
        wait until it exceeds the debounce count, the goal times out or the
        action is preempted, then wait a further second and stop the motor.
        `checked` holds the sensor readings handled between the counter's
        reset and the last debounce check, which came after `n` passes of
        the debounce loop; `lastCount` is the counter value that check saw. Success then
        means the last `lastCount` (more than the debounce count) of those
        readings all showed the cube present (intake) or absent (spit out). */
    method ExecuteCB(goal: Goal, startTime: real, firstSpin: seq<JointState>, ticks: seq<Tick>)
      returns (outcome: Outcome, requests: seq<IntakeRequest>,
               ghost lastCount: int, ghost checked: seq<bool>, ghost n: nat)
      modifies this`trueCount, this`falseCount, this`cubeIdx, this`missingCount
      ensures n <= |ticks|
      ensures checked == if goal.intakeCube
                         then Readings(CacheAfter(old(cubeIdx), firstSpin), AllMessages(ticks[..n]))
                         else Readings(old(cubeIdx), firstSpin + AllMessages(ticks[..n]))
      ensures outcome.Finished? && outcome.success ==>
                debounceIterations < lastCount as real && lastCount <= Run(0, checked, goal.intakeCube)
      ensures outcome.Finished? && outcome.success ==>
                lastCount <= |checked| &&
                forall i :: |checked| - lastCount <= i < |checked| ==> checked[i] == goal.intakeCube
      ensures outcome.Finished? ==> outcome.success || outcome.timedOut
      ensures requests != [] && requests[0] == if goal.intakeCube then IntakeRequest(intakePower, false)
                                               else IntakeRequest(-1.0, true)
      ensures goal.intakeCube && outcome.Finished? ==>
                |requests| == 3 && requests[1] == IntakeRequest(1.0, true)
      ensures !goal.intakeCube && outcome != OutOfTicks ==> |requests| == 2
      ensures outcome != OutOfTicks ==> |requests| >= 2 && requests[|requests| - 1].power == 0.0
      ensures outcome != OutOfTicks ==>
                requests[|requests| - 1].intakeIn == (!goal.intakeCube || outcome != Preempted)
    {
      ghost var c0, prefix;
      requests, c0, prefix := Start(goal, firstSpin);
      var pos, success, timedOut, preempted, ranOut;
      pos, success, timedOut, preempted, ranOut, lastCount, checked, n :=
        Debounce(goal, startTime, ticks, c0, prefix);
      assert prefix == [] ==> prefix + AllMessages(ticks[..n]) == AllMessages(ticks[..n]);
      if ranOut {
        return OutOfTicks, requests, lastCount, checked, n;
      }
      if goal.intakeCube {
        if !preempted {
          // Keep the wheels spinning with the intake clamped for one second.
          requests := requests + [IntakeRequest(1.0, true)];
          pos, timedOut, preempted, ranOut := ExtraSecond(goal, startTime, ticks, pos, false, timedOut, preempted);
          if ranOut {
            return OutOfTicks, requests, lastCount, checked, n;
          }
        }
        requests := requests + [IntakeRequest(0.0, !preempted)];
      } else {
        // Wait another second before stopping, so that the cube is out.
        pos, timedOut, preempted, ranOut := ExtraSecond(goal, startTime, ticks, pos, true, timedOut, preempted);
        if ranOut {
          return OutOfTicks, requests, lastCount, checked, n;
        }
        requests := requests + [IntakeRequest(0.0, true)];
      }
      if timedOut {
        outcome := Finished(true, success);
      } else if !preempted {
        outcome := Finished(false, success);
      } else {
        outcome := Preempted;
      }
    }
  }
}
