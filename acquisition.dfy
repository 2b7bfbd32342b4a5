/** One iteration of a channel task's acquisition loop, as a pure function on a
    snapshot of everything the iteration reads or writes: the task's own
    fields, the channel's entries of the shared flags and settings, the
    telemetry frame, and the channel's bus (what the devices will answer and
    what has been issued). `Tasks.Channel.Step` is proved to act as `Step`. */
module Acquisition {
  import opened Bytes
  import opened I2c
  import opened Devices
  import opened Telemetry

  /** The task states, in the order of their numeric codes 0..7. */
  datatype TaskState = POR | Init | InitFailed | InitFailedWait | Start | Running | RunFailed | RunFailedWait

  const MaxSensorTimeout: nat := 1000
  const MaxFailedInitWait: nat := 1000
  const MinTaskSleep: nat := 1
  const MinTempReadPeriod: nat := 1000
  /** The conversion pass adds this to both timers (its three 1 ms sleeps). */
  const ConversionPassTime: nat := 3
  /** AD7746_CAP_VS_TEMP_TRIGGER_INTERVAL. */
  const CapVsTempTriggerInterval: nat := 10

  type Frame = f: seq<byte> | |f| == FrameLength witness seq(FrameLength, _ => 0)

  /** What one iteration of channel `device`'s task sees and changes. */
  datatype Snap = Snap(
    // the task's own fields
    state: TaskState, wait: u32, inttime: u32, temptime: u32, capreads: u32,
    cap: byte, capPrev: byte, hdcInitialized: bool,
    // the shared frame and the channel's entries of the shared flags and settings
    frame: Frame, intFlag: bool, switchCmd: bool, switchNew: Relay, getAllCaps: bool, convTime: byte,
    // the channel's bus
    replies: seq<Reply>, log: seq<Transaction>)

  /** The outcome of a bus operation: its success and the snapshot after it. */
  datatype Outcome = Outcome(ok: bool, next: Snap)

  // ---------------------------------------------------------------------------
  // Bus operations at snapshot level

  /** Runs a fixed transfer list (a set-up, trigger or switch) on the bus. */
  function Issue(s: Snap, ts: seq<Transaction>): Outcome
  {
    var x := Run(ts, s.replies);
    Outcome(x.ok, s.(replies := x.rest, log := s.log + x.trace))
  }

  /** The snapshot after one transfer of `t`, whatever its answer. */
  function Sent(s: Snap, t: Transaction): (r: Snap)
    ensures r.log == s.log + [t] && r.replies == Drop(s.replies, 1)
    ensures r.(replies := s.replies, log := s.log) == s
  {
    s.(replies := Drop(s.replies, 1), log := s.log + [t])
  }

  /** readAD7746 for a conversion in mode `cap`: one transfer reading six
      bytes; on success the reading is placed in the channel's block. */
  function ReadAd7746(d: Device, s: Snap, cap: byte, filtered: u32): (o: Outcome)
    ensures o.ok <==> Acked(s.replies, 0)
    ensures o.next.log == s.log + [ReadAd7746Request] && o.next.replies == Drop(s.replies, 1)
    ensures o.next.frame == if o.ok then WithCapReading(s.frame, d, cap, Received(s.replies, 6), filtered)
                            else s.frame
  {
    var s1 := Sent(s, ReadAd7746Request);
    if !Acked(s.replies, 0) then Outcome(false, s1)
    else Outcome(true, s1.(frame := WithCapReading(s.frame, d, cap, Received(s.replies, 6), filtered)))
  }

  /** readHDC1080: one transfer reading four bytes, which on success are
      placed in the channel's block before the next conversion is triggered;
      it succeeds only when both transfers do. */
  function ReadHdc1080(d: Device, s: Snap): (o: Outcome)
    ensures o.ok <==> Acked(s.replies, 0) && Acked(s.replies, 1)
    ensures !Acked(s.replies, 0) ==> o.next == Sent(s, ReadHdc1080Request)
    ensures Acked(s.replies, 0) ==>
      && o.next.frame == WithHumidity(s.frame, d, Received(s.replies, 4))
      && o.next.log == s.log + [ReadHdc1080Request, TriggerHdc1080Request]
  {
    var s1 := Sent(s, ReadHdc1080Request);
    if !Acked(s.replies, 0) then Outcome(false, s1)
    else
      var s2 := s1.(frame := WithHumidity(s.frame, d, Received(s.replies, 4)));
      Outcome(Acked(s2.replies, 0), Sent(s2, TriggerHdc1080Request))
  }

  // ---------------------------------------------------------------------------
  // The passes of the state machine

  /** The next capacitor selection: always the differential one unless all
      capacitances are wanted, else the cycle C2D1, C1D0, C2D0 (anything
      unexpected continues with C1D0). */
  function NextCap(cap: byte, allCaps: bool): (next: byte)
    ensures next == C2D1 || next == C1D0 || next == C2D0
    ensures !allCaps ==> next == C2D1
    ensures allCaps ==> next != cap
  {
    if !allCaps then C2D1
    else if cap == C1D0 then C2D0
    else if cap == C2D0 then C2D1
    else C1D0
  }

  /** One 1 ms count-down of the wait states, saturating at zero. */
  function Countdown(w: u32): (r: u32)
    ensures r == if w == 0 then 0 else w - 1
  {
    if w < MinTaskSleep then 0 else w - MinTaskSleep
  }

  /** Init: set up the relay driver, then the capacitance converter; a failure
      of either ends the pass in InitFailed. The humidity sensor's set-up only
      decides hdcInitialized, and the pass goes on to Start. */
  function InitPass(s: Snap): (r: Snap)
    ensures r == s.(state := r.state, hdcInitialized := r.hdcInitialized, replies := r.replies, log := r.log)
    ensures r.state == Start || r.state == InitFailed
  {
    var o1 := Issue(s, SetupPca9536Writes());
    if !o1.ok then o1.next.(state := InitFailed)
    else
      var o2 := Issue(o1.next, SetupAd7746Writes(o1.next.convTime));
      if !o2.ok then o2.next.(state := InitFailed)
      else
        var o3 := Issue(o2.next, SetupHdc1080Writes());
        o3.next.(hdcInitialized := o3.ok, state := Start)
  }

  /** InitFailedWait and RunFailedWait: count down, and enter Init when the
      count reaches zero. */
  function WaitPass(s: Snap): (r: Snap)
    ensures r.wait == Countdown(s.wait)
    ensures r.state == if r.wait == 0 then Init else s.state
    ensures r.(wait := s.wait, state := s.state) == s
  {
    var w := Countdown(s.wait);
    s.(wait := w, state := if w == 0 then Init else s.state)
  }

  /** Start: select the differential capacitor, trigger one conversion with
      its result ignored, zero both timers, enter Running and raise the
      channel's interrupt flag once to start the sequence. */
  function StartPass(s: Snap): (r: Snap)
    ensures r.state == Running && r.intFlag
    ensures r.cap == C2D1 && r.capPrev == C2D1 && r.inttime == 0 && r.temptime == 0
    ensures r.frame == s.frame
  {
    var s1 := s.(cap := C2D1, capPrev := C2D1);
    var o := Issue(s1, TriggerCapacitanceWrites(s1.convTime, s1.cap));
    o.next.(temptime := 0, inttime := 0, state := Running, intFlag := true)
  }

  /** A pending relay switch request is cleared, then carried out; the result
      of the switch is not checked. */
  function SwitchPass(s: Snap): (r: Snap)
    ensures !r.switchCmd
    ensures r.(replies := s.replies, log := s.log, switchCmd := s.switchCmd) == s
    ensures !s.switchCmd ==> r == s
    ensures s.switchCmd ==> var x := Run(SwitchPca9536Writes(s.switchNew), s.replies);
      r.log == s.log + x.trace && r.replies == x.rest
  {
    if !s.switchCmd then s
    else Issue(s.(switchCmd := false), SwitchPca9536Writes(s.switchNew)).next
  }

  /** The temperature and humidity part of a conversion pass, once more than
      MinTempReadPeriod ms have passed: the timer restarts, then an
      uninitialised sensor is only set up again and an initialised one is read. */
  function HumidityPass(d: Device, s: Snap): (r: Snap)
    ensures r == s.(temptime := r.temptime, hdcInitialized := r.hdcInitialized, frame := r.frame,
                    replies := r.replies, log := r.log)
    ensures s.temptime <= MinTempReadPeriod ==> r == s
    ensures s.temptime > MinTempReadPeriod ==> r.temptime == 0
  {
    if s.temptime <= MinTempReadPeriod then s
    else if !s.hdcInitialized then RetryHumiditySetup(s.(temptime := 0))
    else ReadHumidity(d, s.(temptime := 0))
  }

  /** setupHDC1080 again; its success marks the sensor initialised. */
  function RetryHumiditySetup(s: Snap): (r: Snap)
    ensures r == s.(hdcInitialized := r.hdcInitialized, replies := r.replies, log := r.log)
  {
    var o := Issue(s, SetupHdc1080Writes());
    o.next.(hdcInitialized := s.hdcInitialized || o.ok)
  }

  /** readHDC1080; a failed read marks the sensor uninitialised and zeroes
      its four bytes in the frame. */
  function ReadHumidity(d: Device, s: Snap): (r: Snap)
    ensures r == s.(hdcInitialized := r.hdcInitialized, frame := r.frame, replies := r.replies, log := r.log)
  {
    var o := ReadHdc1080(d, s);
    if o.ok then o.next
    else o.next.(hdcInitialized := false, frame := WithoutHumidity(o.next.frame, d))
  }

  /** The trigger of the next conversion: a temperature conversion when the
      read count was exactly CapVsTempTriggerInterval before its increment,
      else a capacitance conversion in mode `cap`. A failed trigger enters
      RunFailed; a failed temperature trigger also restarts the count. */
  function TriggerPass(s: Snap): (r: Snap)
    ensures r == s.(state := r.state, capreads := r.capreads, replies := r.replies, log := r.log)
    ensures r.state == s.state || r.state == RunFailed
  {
    var due := s.capreads == CapVsTempTriggerInterval;
    var s1 := s.(capreads := Wrap32(s.capreads + 1));
    if due then
      var o := Issue(s1, TriggerTemperatureWrites());
      if o.ok then o.next else o.next.(state := RunFailed, capreads := 0)
    else
      var o := Issue(s1, TriggerCapacitanceWrites(s1.convTime, s1.cap));
      if o.ok then o.next else o.next.(state := RunFailed)
  }

  /** The first part of a conversion pass: the timeout timer restarts, the
      mode just converted becomes capPrev and the next mode is chosen, the
      flag is cleared, and the reading is taken in mode capPrev; a failed
      read enters RunFailed. */
  function ReadPass(d: Device, s: Snap, filtered: u32): (r: Snap)
    ensures r == s.(inttime := 0, capPrev := s.cap, cap := NextCap(s.cap, s.getAllCaps), intFlag := false,
                    state := r.state, frame := r.frame, replies := r.replies, log := r.log)
    ensures r.state == s.state || r.state == RunFailed
  {
    var s1 := s.(inttime := 0, capPrev := s.cap, cap := NextCap(s.cap, s.getAllCaps), intFlag := false);
    var o := ReadAd7746(d, s1, s1.capPrev, filtered);
    if o.ok then o.next else o.next.(state := RunFailed)
  }

  /** The conversion pass of Running, taken when the interrupt flag is up:
      the read part (whose failure does not end the pass), the humidity part,
      the trigger of the next conversion, and three more milliseconds on both
      timers. */
  function ConversionPass(d: Device, s: Snap, filtered: u32): (r: Snap)
    ensures !r.intFlag && r.capPrev == s.cap && r.cap == NextCap(s.cap, s.getAllCaps)
    ensures r.inttime == ConversionPassTime
    ensures r.state == s.state || r.state == RunFailed
    ensures r.wait == s.wait && r.switchCmd == s.switchCmd && r.switchNew == s.switchNew
    ensures r.getAllCaps == s.getAllCaps && r.convTime == s.convTime
  {
    Elapse(TriggerPass(HumidityPass(d, ReadPass(d, s, filtered))), ConversionPassTime)
  }

  /** Running: a pending relay switch first; then more than MaxSensorTimeout
      ms without a conversion enters RunFailed before the flag is looked at;
      otherwise a raised flag runs the conversion pass. */
  function RunningPass(d: Device, s: Snap, filtered: u32): (r: Snap)
    ensures !r.switchCmd
    ensures r.state == s.state || r.state == RunFailed
  {
    var s1 := SwitchPass(s);
    if s1.inttime > MaxSensorTimeout then s1.(inttime := 0, state := RunFailed)
    else if s1.intFlag then ConversionPass(d, s1, filtered)
    else s1
  }

  /** RunFailed: rewrite the header and clear the channel's fields, then wait
      MaxFailedInitWait ms before the next Init. */
  function RunFailedPass(d: Device, s: Snap): (r: Snap)
    ensures r.state == RunFailedWait && r.wait == MaxFailedInitWait
    ensures r.frame[..HeaderLength] == Header
  {
    s.(frame := RunFailedFrame(s.frame, d), wait := MaxFailedInitWait, state := RunFailedWait)
  }

  /** POR: preload the header, then fall through into Init. */
  function PowerOnPass(s: Snap): (r: Snap)
    ensures r.frame[..HeaderLength] == Header
    ensures r.state == Start || r.state == InitFailed
  {
    InitPass(s.(frame := WithHeader(s.frame), state := Init))
  }

  /** InitFailed: arm the wait before the next Init. */
  function InitFailedPass(s: Snap): (r: Snap)
    ensures r.state == InitFailedWait && r.wait == MaxFailedInitWait
  {
    s.(wait := MaxFailedInitWait, state := InitFailedWait)
  }

  /** The edges of the task's state diagram: which state one iteration may
      leave a task in, given the state it started in. */
  predicate Transition(a: TaskState, b: TaskState) {
    match a
    case POR => b == Start || b == InitFailed
    case Init => b == Start || b == InitFailed
    case InitFailed => b == InitFailedWait
    case InitFailedWait => b == InitFailedWait || b == Init
    case Start => b == Running
    case Running => b == Running || b == RunFailed
    case RunFailed => b == RunFailedWait
    case RunFailedWait => b == RunFailedWait || b == Init
  }

  /** The state dispatch of one iteration. */
  function Dispatch(d: Device, s: Snap, filtered: u32): (r: Snap)
    ensures Transition(s.state, r.state)
  {
    match s.state
    case POR => PowerOnPass(s)
    case Init => InitPass(s)
    case InitFailed => InitFailedPass(s)
    case InitFailedWait => WaitPass(s)
    case Start => StartPass(s)
    case Running => RunningPass(d, s, filtered)
    case RunFailed => RunFailedPass(d, s)
    case RunFailedWait => WaitPass(s)
  }

  /** `ms` more milliseconds on both 32-bit timers. */
  function Elapse(s: Snap, ms: nat): (r: Snap)
    ensures r.(inttime := s.inttime, temptime := s.temptime) == s
  {
    s.(inttime := Wrap32(s.inttime + ms), temptime := Wrap32(s.temptime + ms))
  }

  /** Whether `r` follows `s` on channel `d`'s bus and frame: the issued
      transactions are only appended to, and no byte outside the header and
      the channel's own block changes. */
  ghost predicate Confined(d: Device, s: Snap, r: Snap) {
    && |s.log| <= |r.log| && r.log[..|s.log|] == s.log
    && forall i :: HeaderLength <= i < FrameLength && !InBlock(d, i) ==> r.frame[i] == s.frame[i]
  }

  /** One iteration of channel `d`'s task, given the filtered capacitance the
      filter would compute for a differential reading. */
  function Step(d: Device, s: Snap, filtered: u32): (r: Snap)
    ensures Transition(s.state, r.state)
  {
    Elapse(Dispatch(d, s, filtered), MinTaskSleep)
  }

  /** One iteration per element of `fs`, each given that element as its
      filtered value. The power-on-reset state is never entered again. */
  function Iterate(d: Device, s: Snap, fs: seq<u32>): (r: Snap)
    ensures r.state == s.state || r.state != POR
    decreases |fs|
  {
    if fs == [] then s else Iterate(d, Step(d, s, fs[0]), fs[1..])
  }
}
