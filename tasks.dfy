/** The six channel tasks. Each runs the same state machine over its own
    task record, its own bus and its entries of the shared flags; one call of
    `Channel.Step` is one iteration of the task's endless loop, and is proved
    to act on what it sees exactly as `Acquisition.Step` says. */
module Tasks {
  import opened Bytes
  import opened I2c
  import opened Devices
  import opened Telemetry
  import opened Globals
  import opened Acquisition

  class Channel {
    /** The channel index, which also selects the block of the frame and the
        entries of the shared flag arrays. */
    const device: Device
    /** The process-wide state shared with the transport task and the other channels. */
    const hub: Hub
    /** The channel's own I2C bus. */
    const bus: Bus

    var state: TaskState
    var wait: u32
    /** Milliseconds since the last conversion-complete interrupt was handled. */
    var inttime: u32
    /** Milliseconds since the last temperature and humidity read. */
    var temptime: u32
    /** Capacitance conversions triggered so far. */
    var capreads: u32
    /** The capacitor selection of the conversion being triggered next, and of
        the one being read. */
    var cap: byte
    var capPrev: byte
    var hdcInitialized: bool

    ghost predicate Valid() {
      hub.Valid()
    }

    /** What an iteration of this task sees and changes. */
    ghost function View(): Snap
      reads this, hub, hub.frame, hub.intFlag, hub.switchCmd, hub.switchNew, hub.getAllCaps, bus
      requires Valid()
    {
      Snap(state, wait, inttime, temptime, capreads, cap, capPrev, hdcInitialized,
           hub.frame[..], hub.intFlag[device], hub.switchCmd[device], hub.switchNew[device],
           hub.getAllCaps[device], hub.convTime,
           bus.replies, bus.log)
    }

    /** A task as started: in POR with the interrupt timer at zero. The task
        record is a fresh stack variable whose other fields are never set
        before use, so their initial values are parameters here. */
    constructor (device: Device, hub: Hub, bus: Bus, wait: u32, temptime: u32, capreads: u32,
                 cap: byte, capPrev: byte, hdcInitialized: bool)
      requires hub.Valid()
      ensures Valid()
      ensures this.device == device && this.hub == hub && this.bus == bus
      ensures state == POR && inttime == 0
      ensures this.wait == wait && this.temptime == temptime && this.capreads == capreads
      ensures this.cap == cap && this.capPrev == capPrev && this.hdcInitialized == hdcInitialized
    {
      this.device := device;
      this.hub := hub;
      this.bus := bus;
      this.state := POR;
      this.inttime := 0;
      this.wait := wait;
      this.temptime := temptime;
      this.capreads := capreads;
      this.cap := cap;
      this.capPrev := capPrev;
      this.hdcInitialized := hdcInitialized;
    }

    // -------------------------------------------------------------------------
    // Bus operations

    /** A fixed list of transfers (one of the set-up, trigger and switch
        routines): 0 when all succeed, else -1 after the first failure. */
    method Transfers(ts: seq<Transaction>) returns (rc: int)
      requires Valid()
      modifies bus
      ensures var o := Acquisition.Issue(old(View()), ts);
        && rc == (if o.ok then 0 else -1)
        && View() == o.next
    {
      rc := bus.Exchange(ts);
    }

    /** readAD7746 of a conversion in mode `c`. */
    method ReadAd7746(c: byte, filtered: u32) returns (rc: int)
      requires Valid()
      modifies bus, hub.frame
      ensures var o := Acquisition.ReadAd7746(device, old(View()), c, filtered);
        && rc == (if o.ok then 0 else -1)
        && View() == o.next
    {
      var ok, rx := bus.Transfer(ReadAd7746Request);
      if !ok {
        return -1;
      }
      hub.StoreCapReading(device, c, rx, filtered);
      return 0;
    }

    /** readHDC1080. */
    method ReadHdc1080() returns (rc: int)
      requires Valid()
      modifies bus, hub.frame
      ensures var o := Acquisition.ReadHdc1080(device, old(View()));
        && rc == (if o.ok then 0 else -1)
        && View() == o.next
    {
      var ok, rx := bus.Transfer(ReadHdc1080Request);
      if !ok {
        return -1;
      }
      hub.StoreHumidity(device, rx);
      ok, rx := bus.Transfer(TriggerHdc1080Request);
      if !ok {
        return -1;
      }
      return 0;
    }

    // -------------------------------------------------------------------------
    // The passes of the state machine

    method InitPass()
      requires Valid()
      modifies this, bus
      ensures View() == Acquisition.InitPass(old(View()))
    {
      ghost var v0 := View();
      ghost var o1 := Acquisition.Issue(v0, SetupPca9536Writes());
      var rc := Transfers(SetupPca9536Writes());
      if rc == -1 {
        state := InitFailed;
        assert View() == o1.next.(state := InitFailed);
        return;
      }
      ghost var o2 := Acquisition.Issue(o1.next, SetupAd7746Writes(o1.next.convTime));
      rc := Transfers(SetupAd7746Writes(hub.convTime));
      if rc == -1 {
        state := InitFailed;
        assert View() == o2.next.(state := InitFailed);
        return;
      }
      ghost var o3 := Acquisition.Issue(o2.next, SetupHdc1080Writes());
      rc := Transfers(SetupHdc1080Writes());
      hdcInitialized := rc == 0;
      state := Start;
      assert View() == o3.next.(hdcInitialized := o3.ok, state := Start);
    }

    method WaitPass()
      requires Valid()
      modifies this
      ensures View() == Acquisition.WaitPass(old(View()))
    {
      if wait < MinTaskSleep {
        wait := 0;
      } else {
        wait := wait - MinTaskSleep;
      }
      if wait == 0 {
        state := Init;
      }
    }

    method StartPass()
      requires Valid()
      modifies this, bus, hub.intFlag
      ensures View() == Acquisition.StartPass(old(View()))
      ensures forall i :: 0 <= i < MaxSensors && i != device ==> hub.intFlag[i] == old(hub.intFlag[i])
    {
      cap := C2D1;
      capPrev := cap;
      var _ := Transfers(TriggerCapacitanceWrites(hub.convTime, cap));
      EnterRunning();
    }

    /** The end of Start: both timers restart, the state is Running and the
        channel's flag is raised so that the first conversion is read. */
    method EnterRunning()
      requires Valid()
      modifies this, hub.intFlag
      ensures View() == old(View()).(temptime := 0, inttime := 0, state := Running, intFlag := true)
      ensures forall i :: 0 <= i < MaxSensors && i != device ==> hub.intFlag[i] == old(hub.intFlag[i])
    {
      temptime := 0;
      inttime := 0;
      state := Running;
      hub.intFlag[device] := true;
    }

    method SwitchPass()
      requires Valid()
      modifies bus, hub.switchCmd
      ensures View() == Acquisition.SwitchPass(old(View()))
      ensures forall i :: 0 <= i < MaxSensors && i != device ==> hub.switchCmd[i] == old(hub.switchCmd[i])
    {
      ghost var v0 := View();
      if hub.switchCmd[device] {
        hub.switchCmd[device] := false;
        assert View() == v0.(switchCmd := false);
        var _ := Transfers(SwitchPca9536Writes(hub.switchNew[device]));
      }
    }

    method HumidityPass()
      requires Valid()
      modifies this, bus, hub.frame
      ensures View() == Acquisition.HumidityPass(device, old(View()))
    {
      if temptime <= MinTempReadPeriod {
        return;
      }
      temptime := 0;
      if !hdcInitialized {
        RetryHumiditySetup();
      } else {
        ReadHumidity();
      }
    }

    method RetryHumiditySetup()
      requires Valid()
      modifies this, bus
      ensures View() == Acquisition.RetryHumiditySetup(old(View()))
    {
      var rc := Transfers(SetupHdc1080Writes());
      hdcInitialized := hdcInitialized || rc == 0;
    }

    method ReadHumidity()
      requires Valid()
      modifies this, bus, hub.frame
      ensures View() == Acquisition.ReadHumidity(device, old(View()))
    {
      var rc := ReadHdc1080();
      if rc == -1 {
        ForgetHumidity();
      }
    }

    /** The handling of a failed humidity read: the sensor counts as not
        initialised and its four bytes of the frame are zeroed. */
    method ForgetHumidity()
      requires Valid()
      modifies this, hub.frame
      ensures View() == old(View()).(hdcInitialized := false, frame := WithoutHumidity(old(View()).frame, device))
    {
      hdcInitialized := false;
      hub.ClearHumidity(device);
    }

    method TriggerPass()
      requires Valid()
      modifies this, bus
      ensures View() == Acquisition.TriggerPass(old(View()))
    {
      var due := capreads == CapVsTempTriggerInterval;
      capreads := Wrap32(capreads + 1);
      var rc;
      if due {
        rc := Transfers(TriggerTemperatureWrites());
      } else {
        rc := Transfers(TriggerCapacitanceWrites(hub.convTime, cap));
      }
      if rc == -1 {
        state := RunFailed;
        if due {
          capreads := 0;
        }
      }
    }

    method ReadPass(filtered: u32)
      requires Valid()
      modifies this, bus, hub.frame, hub.intFlag
      ensures View() == Acquisition.ReadPass(device, old(View()), filtered)
      ensures forall i :: 0 <= i < MaxSensors && i != device ==> hub.intFlag[i] == old(hub.intFlag[i])
    {
      AdvanceCap();
      var rc := ReadAd7746(capPrev, filtered);
      if rc == -1 {
        state := RunFailed;
      }
    }

    /** The bookkeeping at the start of a conversion pass: the timeout timer
        restarts, the mode just converted becomes capPrev, the next mode is
        chosen and the channel's flag is cleared. */
    method AdvanceCap()
      requires Valid()
      modifies this, hub.intFlag
      ensures View() == old(View()).(inttime := 0, capPrev := old(cap), cap := NextCap(old(cap), old(hub.getAllCaps[device])),
                                     intFlag := false)
      ensures forall i :: 0 <= i < MaxSensors && i != device ==> hub.intFlag[i] == old(hub.intFlag[i])
    {
      inttime := 0;
      capPrev := cap;
      cap := NextCap(cap, hub.getAllCaps[device]);
      hub.intFlag[device] := false;
    }

    method ConversionPass(filtered: u32)
      requires Valid()
      modifies this, bus, hub.frame, hub.intFlag
      ensures View() == Acquisition.ConversionPass(device, old(View()), filtered)
      ensures forall i :: 0 <= i < MaxSensors && i != device ==> hub.intFlag[i] == old(hub.intFlag[i])
    {
      ReadPass(filtered);
      HumidityPass();
      TriggerPass();
      Elapse(ConversionPassTime);
    }

    /** Time passing on both timers. */
    method Elapse(ms: nat)
      requires Valid()
      modifies this
      ensures View() == Acquisition.Elapse(old(View()), ms)
    {
      inttime := Wrap32(inttime + ms);
      temptime := Wrap32(temptime + ms);
    }

    method RunningPass(filtered: u32)
      requires Valid()
      modifies this, bus, hub.frame, hub.intFlag, hub.switchCmd
      ensures View() == Acquisition.RunningPass(device, old(View()), filtered)
      ensures forall i :: 0 <= i < MaxSensors && i != device ==> hub.intFlag[i] == old(hub.intFlag[i])
      ensures forall i :: 0 <= i < MaxSensors && i != device ==> hub.switchCmd[i] == old(hub.switchCmd[i])
    {
      ghost var v0 := View();
      SwitchPass();
      ghost var v1 := View();
      if inttime > MaxSensorTimeout {
        inttime := 0;
        state := RunFailed;
        assert View() == v1.(inttime := 0, state := RunFailed);
        return;
      }
      if hub.intFlag[device] {
        ConversionPass(filtered);
      }
    }

    method RunFailedPass()
      requires Valid()
      modifies this, hub.frame
      ensures View() == Acquisition.RunFailedPass(device, old(View()))
    {
      ghost var v0 := View();
      hub.ClearOnRunFailed(device);
      wait := MaxFailedInitWait;
      state := RunFailedWait;
      assert View() == v0.(frame := RunFailedFrame(v0.frame, device), wait := MaxFailedInitWait, state := RunFailedWait);
    }

    /** POR: the header is preloaded, then the pass falls through into Init. */
    method PowerOnPass()
      requires Valid()
      modifies this, bus, hub.frame
      ensures View() == Acquisition.PowerOnPass(old(View()))
    {
      PreloadHeader();
      InitPass();
    }

    method PreloadHeader()
      requires Valid()
      modifies this, hub.frame
      ensures View() == old(View()).(frame := WithHeader(old(hub.frame[..])), state := Init)
    {
      hub.PreloadHeader();
      state := Init;
    }

    method InitFailedPass()
      requires Valid()
      modifies this
      ensures View() == Acquisition.InitFailedPass(old(View()))
    {
      wait := MaxFailedInitWait;
      state := InitFailedWait;
    }

    /** The state's pass of one iteration. */
    method Dispatch(filtered: u32)
      requires Valid()
      modifies this, bus, hub.frame, hub.intFlag, hub.switchCmd
      ensures View() == Acquisition.Dispatch(device, old(View()), filtered)
      ensures forall i :: 0 <= i < MaxSensors && i != device ==> hub.intFlag[i] == old(hub.intFlag[i])
      ensures forall i :: 0 <= i < MaxSensors && i != device ==> hub.switchCmd[i] == old(hub.switchCmd[i])
    {
      match state {
        case POR => PowerOnPass();
        case Init => InitPass();
        case InitFailed => InitFailedPass();
        case InitFailedWait => WaitPass();
        case Start => StartPass();
        case Running => RunningPass(filtered);
        case RunFailed => RunFailedPass();
        case RunFailedWait => WaitPass();
      }
    }

    /** One iteration of the task loop: the state's pass, then the 1 ms yield.
        Of the shared flags only this channel's entries may change. */
    method Step(filtered: u32)
      requires Valid()
      modifies this, bus, hub.frame, hub.intFlag, hub.switchCmd
      ensures View() == Acquisition.Step(device, old(View()), filtered)
      ensures forall i :: 0 <= i < MaxSensors && i != device ==> hub.intFlag[i] == old(hub.intFlag[i])
      ensures forall i :: 0 <= i < MaxSensors && i != device ==> hub.switchCmd[i] == old(hub.switchCmd[i])
    {
      Dispatch(filtered);
      Elapse(MinTaskSleep);
    }
  }
}
