/** Properties of one channel task's iterations, stated on the pure model in
    `Acquisition` (which `Tasks.Channel.Step` is proved to follow). */
module Properties {
  import opened Bytes
  import opened I2c
  import opened Devices
  import opened Telemetry
  import opened Acquisition

  // ---------------------------------------------------------------------------
  // Locality: a task writes only the header and its own block, and only
  // appends to its bus log.

  lemma ConfinedTransitive(d: Device, a: Snap, b: Snap, c: Snap)
    requires Confined(d, a, b) && Confined(d, b, c)
    ensures Confined(d, a, c)
  {
    assert c.log[..|b.log|][..|a.log|] == c.log[..|a.log|];
  }

  /** A fixed transfer list appends what it issued to the log and leaves the frame. */
  lemma IssueConfined(d: Device, s: Snap, ts: seq<Transaction>)
    ensures Confined(d, s, Issue(s, ts).next)
    ensures Issue(s, ts).next.frame == s.frame
  {
    var x := Run(ts, s.replies);
    assert (s.log + x.trace)[..|s.log|] == s.log;
  }

  lemma InitConfined(d: Device, s: Snap)
    ensures Confined(d, s, InitPass(s))
  {
    var o1 := Issue(s, SetupPca9536Writes());
    IssueConfined(d, s, SetupPca9536Writes());
    if o1.ok {
      var o2 := Issue(o1.next, SetupAd7746Writes(o1.next.convTime));
      IssueConfined(d, o1.next, SetupAd7746Writes(o1.next.convTime));
      ConfinedTransitive(d, s, o1.next, o2.next);
      if o2.ok {
        var o3 := Issue(o2.next, SetupHdc1080Writes());
        IssueConfined(d, o2.next, SetupHdc1080Writes());
        ConfinedTransitive(d, s, o2.next, o3.next);
      }
    }
  }

  lemma HumidityConfined(d: Device, s: Snap)
    ensures Confined(d, s, HumidityPass(d, s))
  {
    if s.temptime > MinTempReadPeriod {
      var s1 := s.(temptime := 0);
      if !s1.hdcInitialized {
        IssueConfined(d, s1, SetupHdc1080Writes());
      } else {
        var s2 := Sent(s1, ReadHdc1080Request);
        assert (s1.log + [ReadHdc1080Request])[..|s1.log|] == s1.log;
        if Acked(s1.replies, 0) {
          var s3 := s2.(frame := WithHumidity(s1.frame, d, Received(s1.replies, 4)));
          assert (s3.log + [TriggerHdc1080Request])[..|s3.log|] == s3.log;
          ConfinedTransitive(d, s1, s3, Sent(s3, TriggerHdc1080Request));
        }
      }
    }
  }

  lemma TriggerConfined(d: Device, s: Snap)
    ensures Confined(d, s, TriggerPass(s))
  {
    var s1 := s.(capreads := Wrap32(s.capreads + 1));
    if s.capreads == CapVsTempTriggerInterval {
      IssueConfined(d, s1, TriggerTemperatureWrites());
    } else {
      IssueConfined(d, s1, TriggerCapacitanceWrites(s1.convTime, s1.cap));
    }
  }

  lemma ConversionConfined(d: Device, s: Snap, filtered: u32)
    ensures Confined(d, s, ConversionPass(d, s, filtered))
  {
    var s1 := ReadPass(d, s, filtered);
    var s0 := s.(inttime := 0, capPrev := s.cap, cap := NextCap(s.cap, s.getAllCaps), intFlag := false);
    assert (s0.log + [ReadAd7746Request])[..|s0.log|] == s0.log;
    assert Confined(d, s, s1);
    var s2 := HumidityPass(d, s1);
    HumidityConfined(d, s1);
    ConfinedTransitive(d, s, s1, s2);
    TriggerConfined(d, s2);
    ConfinedTransitive(d, s, s2, TriggerPass(s2));
  }

  lemma RunningConfined(d: Device, s: Snap, filtered: u32)
    ensures Confined(d, s, RunningPass(d, s, filtered))
  {
    var s1 := SwitchPass(s);
    if s.switchCmd {
      IssueConfined(d, s.(switchCmd := false), SwitchPca9536Writes(s.switchNew));
    }
    if s1.inttime <= MaxSensorTimeout && s1.intFlag {
      ConversionConfined(d, s1, filtered);
      ConfinedTransitive(d, s, s1, ConversionPass(d, s1, filtered));
    }
  }

  lemma PowerOnConfined(d: Device, s: Snap)
    ensures Confined(d, s, PowerOnPass(s))
  {
    var s1 := s.(frame := WithHeader(s.frame), state := Init);
    InitConfined(d, s1);
    ConfinedTransitive(d, s, s1, InitPass(s1));
  }

  lemma StartConfined(d: Device, s: Snap)
    ensures Confined(d, s, StartPass(s))
  {
    IssueConfined(d, s.(cap := C2D1, capPrev := C2D1), TriggerCapacitanceWrites(s.convTime, C2D1));
  }

  lemma DispatchConfined(d: Device, s: Snap, filtered: u32)
    ensures Confined(d, s, Dispatch(d, s, filtered))
  {
    match s.state
    case POR => PowerOnConfined(d, s);
    case Init => InitConfined(d, s);
    case Start => StartConfined(d, s);
    case Running => RunningConfined(d, s, filtered);
    case RunFailed => RunFailedConfined(d, s);
    case InitFailed => Untouched(d, s, InitFailedPass(s));
    case InitFailedWait => Untouched(d, s, WaitPass(s));
    case RunFailedWait => Untouched(d, s, WaitPass(s));
  }

  lemma RunFailedConfined(d: Device, s: Snap)
    ensures Confined(d, s, RunFailedPass(d, s))
  {
    assert s.log[..|s.log|] == s.log;
  }

  /** A pass that neither writes the frame nor uses the bus. */
  lemma Untouched(d: Device, s: Snap, r: Snap)
    requires r.frame == s.frame && r.log == s.log
    ensures Confined(d, s, r)
  {
    assert s.log[..|s.log|] == s.log;
  }

  /** One iteration changes no byte of the frame outside the header and the
      channel's own block, and only appends to the channel's bus log. */
  lemma StepConfined(d: Device, s: Snap, filtered: u32)
    ensures Confined(d, s, Step(d, s, filtered))
  {
    DispatchConfined(d, s, filtered);
  }

  // ---------------------------------------------------------------------------
  // Bus helpers

  /** The first `a + b` transfers succeed exactly when the first `a` do and the
      `b` after them do. */
  lemma AllAckedSplit(replies: seq<Reply>, a: nat, b: nat)
    ensures AllAcked(replies, a + b) <==> AllAcked(replies, a) && AllAcked(Drop(replies, a), b)
  {
    if AllAcked(replies, a) && AllAcked(Drop(replies, a), b) {
      forall i | 0 <= i < a + b ensures replies[i].Ack? {
        if i >= a {
          assert Drop(replies, a)[i - a] == replies[i];
        }
      }
    }
    if AllAcked(replies, a + b) {
      forall i | 0 <= i < b ensures Drop(replies, a)[i].Ack? {
        assert Drop(replies, a)[i] == replies[a + i];
      }
    }
  }

  // ---------------------------------------------------------------------------
  // Init and POR

  /** A failure in the relay driver's set-up ends Init in InitFailed before the
      capacitance converter or the humidity sensor is addressed. */
  lemma InitRelayFailure(s: Snap)
    requires !AllAcked(s.replies, 4)
    ensures var r := InitPass(s);
      && r.state == InitFailed
      && r.log == s.log + Run(SetupPca9536Writes(), s.replies).trace
      && forall t :: t in r.log[|s.log|..] ==> t.address == Pca9536Address
  {
    var r := InitPass(s);
    RunOutcome(SetupPca9536Writes(), s.replies);
    Devices.SetupPca9536Result(s.replies);
    assert r.log[|s.log|..] == Run(SetupPca9536Writes(), s.replies).trace;
  }

  /** With the relay driver set up, a failure in the capacitance converter's
      set-up ends Init in InitFailed before the humidity sensor is addressed. */
  lemma InitConverterFailure(s: Snap)
    requires AllAcked(s.replies, 4) && !AllAcked(Drop(s.replies, 4), 5)
    ensures var r := InitPass(s);
      && r.state == InitFailed
      && r.log == s.log + SetupPca9536Writes() + Run(SetupAd7746Writes(s.convTime), Drop(s.replies, 4)).trace
      && forall t :: t in r.log[|s.log|..] ==> t.address != Hdc1080Address
  {
    RunCompletes(SetupPca9536Writes(), s.replies);
    RunOutcome(SetupAd7746Writes(s.convTime), Drop(s.replies, 4));
    Devices.SetupAd7746Result(s.convTime, Drop(s.replies, 4));
    var r := InitPass(s);
    var tail := Run(SetupAd7746Writes(s.convTime), Drop(s.replies, 4)).trace;
    assert r.log[|s.log|..] == SetupPca9536Writes() + tail;
  }

  /** Once the relay driver and the converter are set up, Init always enters
      Start: the humidity sensor's set-up only decides hdcInitialized. */
  lemma InitHumidityNonFatal(s: Snap)
    requires AllAcked(s.replies, 9)
    ensures var r := InitPass(s);
      && r.state == Start
      && (r.hdcInitialized <==> AllAcked(s.replies, 11))
      && r.log == s.log + SetupPca9536Writes() + SetupAd7746Writes(s.convTime)
                  + Run(SetupHdc1080Writes(), Drop(s.replies, 9)).trace
  {
    AllAckedSplit(s.replies, 4, 5);
    AllAckedSplit(s.replies, 9, 2);
    RunCompletes(SetupPca9536Writes(), s.replies);
    RunCompletes(SetupAd7746Writes(s.convTime), Drop(s.replies, 4));
    RunOutcome(SetupHdc1080Writes(), Drop(s.replies, 9));
    assert Drop(Drop(s.replies, 4), 5) == Drop(s.replies, 9);
  }

  /** POR preloads the header and falls through into Init in the same
      iteration; the header is in place whatever Init's outcome. */
  lemma PowerOnStep(d: Device, s: Snap, filtered: u32)
    requires s.state == POR
    ensures var r := Step(d, s, filtered);
      && r.frame[..HeaderLength] == Header
      && (r.state == Start || r.state == InitFailed)
      && |r.log| >= |s.log| + 1 && r.log[|s.log|] == SetupPca9536Writes()[0]
  {
    var s1 := s.(frame := WithHeader(s.frame), state := Init);
    RunOutcome(SetupPca9536Writes(), s1.replies);
    var o1 := Issue(s1, SetupPca9536Writes());
    if o1.ok {
      var o2 := Issue(o1.next, SetupAd7746Writes(o1.next.convTime));
      assert o2.next.log[..|o1.next.log|] == o1.next.log;
      if o2.ok {
        assert Issue(o2.next, SetupHdc1080Writes()).next.log[..|o2.next.log|] == o2.next.log;
      }
    }
  }

  // ---------------------------------------------------------------------------
  // Start and the conversion pass

  /** Start selects the differential capacitor in both cap and capPrev, issues
      one capacitance trigger whose outcome is ignored, restarts both timers
      (one tick later they read 1), enters Running and raises the flag. */
  lemma StartStep(d: Device, s: Snap, filtered: u32)
    requires s.state == Start
    ensures var r := Step(d, s, filtered);
      && r.state == Running && r.intFlag
      && r.cap == C2D1 && r.capPrev == C2D1
      && r.inttime == MinTaskSleep && r.temptime == MinTaskSleep
      && r.frame == s.frame
      && r.log == s.log + Run(TriggerCapacitanceWrites(s.convTime, C2D1), s.replies).trace
  {
  }

  /** A Running iteration whose timer has passed MaxSensorTimeout enters
      RunFailed without looking at the interrupt flag: the flag, the modes and
      the frame are left as they were. */
  lemma TimeoutBeforeFlag(d: Device, s: Snap, filtered: u32)
    requires s.state == Running && s.inttime > MaxSensorTimeout
    ensures var r := Step(d, s, filtered);
      && r.state == RunFailed && r.inttime == MinTaskSleep
      && r.intFlag == s.intFlag && r.cap == s.cap && r.capPrev == s.capPrev
      && r.capreads == s.capreads && r.frame == s.frame
  {
  }

  /** The trigger part: the temperature conversion is chosen exactly when the
      count was CapVsTempTriggerInterval before its increment, else a
      capacitance conversion in mode `cap`; the first transfer is always
      issued; a failure enters RunFailed and, for the temperature trigger
      only, restarts the count. */
  lemma TriggerChoice(s: Snap)
    ensures var r := TriggerPass(s);
      var due := s.capreads == CapVsTempTriggerInterval;
      var ts := if due then TriggerTemperatureWrites() else TriggerCapacitanceWrites(s.convTime, s.cap);
      && r.log == s.log + Run(ts, s.replies).trace
      && |r.log| > |s.log| && r.log[|s.log|] == ts[0]
      && (r.state == RunFailed <==> s.state == RunFailed || !AllAcked(s.replies, |ts|))
      && r.capreads == (if due && !AllAcked(s.replies, 1) then 0 else Wrap32(s.capreads + 1))
  {
    var due := s.capreads == CapVsTempTriggerInterval;
    var ts := if due then TriggerTemperatureWrites() else TriggerCapacitanceWrites(s.convTime, s.cap);
    RunOutcome(ts, s.replies);
  }

  /** A conversion pass reads the conversion just completed in the mode it was
      triggered in (the old cap), and triggers the next one in the new mode.
      A failed read enters RunFailed, yet the pass goes on: the trigger is
      still issued, and its success does not undo the failure. */
  lemma ConversionModes(d: Device, s: Snap, filtered: u32)
    ensures var r1 := ReadPass(d, s, filtered);
      var r2 := HumidityPass(d, r1);
      var r := ConversionPass(d, s, filtered);
      && r1.log == s.log + [ReadAd7746Request]
      && r1.frame == (if Acked(s.replies, 0)
                      then WithCapReading(s.frame, d, s.cap, Received(s.replies, 6), filtered)
                      else s.frame)
      && |r.log| > |r2.log| && r.log[..|r2.log|] == r2.log
      && r.log[|r2.log|] == (if s.capreads == CapVsTempTriggerInterval then TriggerTemperatureWrites()[0]
                             else Transaction(Ad7746Address, [Ad7746CapSetupReg, NextCap(s.cap, s.getAllCaps)], 0))
      && (!Acked(s.replies, 0) ==> r.state == RunFailed)
  {
    var r1 := ReadPass(d, s, filtered);
    var r2 := HumidityPass(d, r1);
    TriggerChoice(r2);
  }

  /** In all-capacitances mode the selection cycles C2D1, C1D0, C2D0 and back
      to C2D1, so each capacitance is read once in every three conversions;
      any other value continues with C1D0. */
  lemma NextCapCycle(c: byte)
    ensures NextCap(C2D1, true) == C1D0 && NextCap(C1D0, true) == C2D0 && NextCap(C2D0, true) == C2D1
    ensures c == C2D1 || c == C1D0 || c == C2D0 ==>
      var c1 := NextCap(c, true); var c2 := NextCap(c1, true);
      && NextCap(c2, true) == c
      && {c, c1, c2} == {C2D1, C1D0, C2D0}
    ensures c != C2D1 && c != C1D0 && c != C2D0 ==> NextCap(c, true) == C1D0
  {
  }

  /** A Running iteration with no timeout and no conversion pending only
      carries out a pending relay switch: the pass is exactly the switch part. */
  lemma RunningIdle(d: Device, s: Snap, filtered: u32)
    requires s.inttime <= MaxSensorTimeout && !s.intFlag
    ensures RunningPass(d, s, filtered) == SwitchPass(s)
    ensures RunningPass(d, s, filtered).frame == s.frame && RunningPass(d, s, filtered).state == s.state
  {
  }

  // ---------------------------------------------------------------------------
  // Temperature and humidity

  /** Reading an initialised sensor: a full success stores its four bytes; a
      failure of either transfer marks it uninitialised and leaves exactly its
      four bytes zero. The timer restarts either way. */
  lemma HumidityRead(d: Device, s: Snap)
    requires s.temptime > MinTempReadPeriod && s.hdcInitialized
    ensures var r := HumidityPass(d, s);
      && r.temptime == 0
      && (AllAcked(s.replies, 2) ==> r.hdcInitialized && r.frame == WithHumidity(s.frame, d, Received(s.replies, 4)))
      && (!AllAcked(s.replies, 2) ==> !r.hdcInitialized && r.frame == WithoutHumidity(s.frame, d))
  {
    if Acked(s.replies, 0) && !Acked(s.replies, 1) {
      ZeroingHidesReading(s.frame, d, Received(s.replies, 4));
    }
  }

  /** An uninitialised sensor is only set up again, which leaves the frame
      alone and marks it initialised exactly when both transfers succeed. */
  lemma HumidityRetry(d: Device, s: Snap)
    requires s.temptime > MinTempReadPeriod && !s.hdcInitialized
    ensures var r := HumidityPass(d, s);
      && r.temptime == 0 && r.frame == s.frame
      && (r.hdcInitialized <==> AllAcked(s.replies, 2))
      && r.log == s.log + Run(SetupHdc1080Writes(), s.replies).trace
  {
    RunOutcome(SetupHdc1080Writes(), s.replies);
  }

  /** Zeroing the temperature and humidity bytes erases a reading stored just
      before: the block is as if the reading had never been stored. */
  lemma ZeroingHidesReading(f: seq<byte>, d: Device, rx: seq<byte>)
    requires |f| == FrameLength && |rx| == 4
    ensures WithoutHumidity(WithHumidity(f, d, rx), d) == WithoutHumidity(f, d)
  {
    var g, h := WithoutHumidity(WithHumidity(f, d, rx), d), WithoutHumidity(f, d);
    forall i | 0 <= i < FrameLength ensures g[i] == h[i] {
      NoHumidityFields(WithHumidity(f, d, rx), d);
      NoHumidityFields(f, d);
    }
  }

  // ---------------------------------------------------------------------------
  // Failure and recovery

  /** In a wait state every iteration counts down by one and nothing but the
      count and the timers changes; the state becomes Init exactly on the
      iteration on which the count reaches zero. */
  lemma {:induction false} WaitCountdown(d: Device, s: Snap, fs: seq<u32>)
    requires s.state == InitFailedWait || s.state == RunFailedWait
    requires 0 < s.wait && |fs| <= s.wait
    ensures var r := Iterate(d, s, fs);
      && r.wait == s.wait - |fs|
      && r.state == (if |fs| == s.wait then Init else s.state)
      && r.frame == s.frame && r.log == s.log && r.intFlag == s.intFlag && r.capreads == s.capreads
    decreases |fs|
  {
    if fs != [] {
      var s1 := Step(d, s, fs[0]);
      assert s1.wait == s.wait - 1;
      if |fs| > 1 {
        WaitCountdown(d, s1, fs[1..]);
      }
    }
  }

  /** InitFailed and RunFailed arm the wait and enter the matching wait
      state; RunFailed also rewrites the header and clears the block. */
  lemma FailedStep(d: Device, s: Snap, filtered: u32)
    requires s.state == InitFailed || s.state == RunFailed
    ensures var r := Step(d, s, filtered);
      && r.state == (if s.state == InitFailed then InitFailedWait else RunFailedWait)
      && r.wait == MaxFailedInitWait
      && r.frame == (if s.state == InitFailed then s.frame else RunFailedFrame(s.frame, d))
      && r.log == s.log && r.intFlag == s.intFlag && r.capreads == s.capreads
  {
  }

  /** After InitFailed or RunFailed the task waits MaxFailedInitWait
      iterations in the matching wait state and is back in Init on the next,
      with the frame as the failed state left it. */
  lemma FailureRecovers(d: Device, s: Snap)
    requires s.state == InitFailed || s.state == RunFailed
    ensures var w := if s.state == InitFailed then InitFailedWait else RunFailedWait;
      forall fs: seq<u32> :: 1 <= |fs| <= MaxFailedInitWait ==> Iterate(d, s, fs).state == w
    ensures forall fs: seq<u32> :: |fs| == MaxFailedInitWait + 1 ==>
      && Iterate(d, s, fs).state == Init
      && Iterate(d, s, fs).frame == (if s.state == InitFailed then s.frame else RunFailedFrame(s.frame, d))
  {
    var w := if s.state == InitFailed then InitFailedWait else RunFailedWait;
    forall fs: seq<u32> | 1 <= |fs| <= MaxFailedInitWait + 1
      ensures Iterate(d, s, fs).state == (if |fs| == MaxFailedInitWait + 1 then Init else w)
      ensures Iterate(d, s, fs).frame == (if s.state == InitFailed then s.frame else RunFailedFrame(s.frame, d))
    {
      var s1 := Step(d, s, fs[0]);
      FailedStep(d, s, fs[0]);
      assert Iterate(d, s, fs) == Iterate(d, s1, fs[1..]);
      WaitCountdown(d, s1, fs[1..]);
    }
  }

  // ---------------------------------------------------------------------------
  // The capacitance/temperature read count

  /** The read count changes only in a conversion pass: it is kept, advanced by
      one (modulo 2^32), or restarted at 0 after a failed temperature trigger. */
  lemma StepCapreads(d: Device, s: Snap, filtered: u32)
    ensures var c := Step(d, s, filtered).capreads;
      c == s.capreads || c == Wrap32(s.capreads + 1) || (s.capreads == CapVsTempTriggerInterval && c == 0)
  {
    if s.state == Running {
      RunningCapreads(d, s, filtered);
    }
  }

  lemma RunningCapreads(d: Device, s: Snap, filtered: u32)
    ensures var c := RunningPass(d, s, filtered).capreads;
      c == s.capreads || c == Wrap32(s.capreads + 1) || (s.capreads == CapVsTempTriggerInterval && c == 0)
  {
    var s1 := SwitchPass(s);
    if s1.inttime <= MaxSensorTimeout && s1.intFlag {
      var r2 := HumidityPass(d, ReadPass(d, s1, filtered));
      TriggerChoice(r2);
    }
  }

  /** Once the count has passed CapVsTempTriggerInterval it only grows, so no
      further temperature conversion is triggered until it wraps around at
      2^32: along any run of iterations it stays above the interval. */
  lemma {:induction false} NoSecondTemperatureTrigger(d: Device, s: Snap, fs: seq<u32>)
    requires CapVsTempTriggerInterval < s.capreads && s.capreads + |fs| < Two32
    ensures s.capreads <= Iterate(d, s, fs).capreads <= s.capreads + |fs|
    decreases |fs|
  {
    if fs != [] {
      StepCapreads(d, s, fs[0]);
      NoSecondTemperatureTrigger(d, Step(d, s, fs[0]), fs[1..]);
    }
  }
}
