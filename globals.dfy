/** The firmware's process-wide state: the outbound telemetry frame and the
    inbound command frame, the per-channel interrupt, switch-request and
    relay-target flags, the shared conversion time and the per-channel
    capacitance-mode table. Each critical section of the source (a write to the
    frame under the semaphore) is one method here, taken as atomic. */
module Globals {
  import opened Bytes
  import opened Devices
  import opened Telemetry
  import opened Commands

  class Hub {
    /** spiMessageOut: the telemetry frame. */
    const frame: array<byte>
    /** spiMessageIn: the inbound command frame. */
    const command: array<byte>
    /** switchcmd0..5: a relay switch is requested. */
    const switchCmd: array<bool>
    /** switchNew0..5: the requested relay position. */
    const switchNew: array<Relay>
    /** intflag0..5: set by the conversion-complete interrupt of each channel. */
    const intFlag: array<bool>
    /** adGetAllCaps: read C1 and C2 besides the differential capacitance. */
    const getAllCaps: array<bool>
    /** adAllSensorConversionTime. */
    var convTime: byte
    /** Whether the decoder has written one entry past the end of adGetAllCaps. */
    ghost var overrun: bool

    ghost predicate Valid() {
      && frame.Length == FrameLength && command.Length == FrameLength
      && switchCmd.Length == MaxSensors && switchNew.Length == MaxSensors
      && intFlag.Length == MaxSensors && getAllCaps.Length == MaxSensors
      && frame != command
      && switchCmd != intFlag && switchCmd != getAllCaps && intFlag != getAllCaps
    }

    /** The settings the command decoder changes. */
    ghost function Settings(): (cfg: Config)
      reads this, switchCmd, switchNew, getAllCaps
      requires Valid()
      ensures cfg.Sized()
    {
      Config(switchCmd[..], switchNew[..], convTime, getAllCaps[..], overrun)
    }

    /** The start-up state: both frames and the capacitance-mode table zeroed,
        no switch requested with every target at the new position, no interrupt
        pending, and the default (slow) conversion time. */
    constructor ()
      ensures Valid()
      ensures fresh(frame) && fresh(command) && fresh(switchCmd) && fresh(switchNew)
      ensures fresh(intFlag) && fresh(getAllCaps)
      ensures frame[..] == seq(FrameLength, _ => 0) && command[..] == seq(FrameLength, _ => 0)
      ensures Settings() == Config(seq(MaxSensors, _ => false), seq(MaxSensors, _ => New),
                                   DefaultConversionTime, seq(MaxSensors, _ => false), false)
      ensures intFlag[..] == seq(MaxSensors, _ => false)
    {
      frame := new byte[FrameLength](_ => 0);
      command := new byte[FrameLength](_ => 0);
      switchCmd := new bool[MaxSensors](_ => false);
      switchNew := new Relay[MaxSensors](_ => New);
      intFlag := new bool[MaxSensors](_ => false);
      getAllCaps := new bool[MaxSensors](_ => false);
      convTime := DefaultConversionTime;
      overrun := false;
    }

    /** The conversion-complete interrupt of channel `d`: it only raises the flag. */
    method ConversionDone(d: Device)
      requires Valid()
      modifies intFlag
      ensures intFlag[..] == old(intFlag[..])[d := true]
    {
      intFlag[d] := true;
    }

    // -------------------------------------------------------------------------
    // Transport and command decoding

    /** Decodes the command in the first four bytes of the command frame and
        applies it to the settings; the command frame itself is not changed. */
    method DecodeCommand()
      requires Valid()
      modifies switchCmd, switchNew, getAllCaps, this`convTime, this`overrun
      ensures Settings() == Apply(old(Settings()), Classify(command[0], command[1], command[2], command[3]))
    {
      var c0, c1, c2, c3 := command[0], command[1], command[2], command[3];
      var switchAllToOld := SwitchAllToOldPattern(c0, c1, c2);
      var switchToNew := SwitchToNewPattern(c0, c1, c2);
      var useFastConvTime := FastConvTimePattern(c0, c1, c2, c3);
      var useSlowConvTime := SlowConvTimePattern(c0, c1, c2, c3);
      var getDiffOnly := DiffOnlyPattern(c0, c1);
      var getAll := AllCapsPattern(c0, c1);
      var diffDevice := ClampAsWritten(c2);

      if switchToNew {
        forall i | 0 <= i < MaxSensors {
          switchCmd[i] := true;
        }
        var switchAllToNew := c3 == 0;
        forall i | 0 <= i < MaxSensors {
          switchNew[i] := if switchAllToNew || BitSet(c3, i) then New else Old;
        }
      } else if switchAllToOld {
        forall i | 0 <= i < MaxSensors {
          switchCmd[i] := true;
        }
        forall i | 0 <= i < MaxSensors {
          switchNew[i] := Old;
        }
      } else if useFastConvTime {
        convTime := FastConversionTime;
      } else if useSlowConvTime {
        convTime := DefaultConversionTime;
      } else if getDiffOnly {
        if diffDevice < MaxSensors {
          getAllCaps[diffDevice] := false;
        } else {
          overrun := true;
        }
      } else if getAll {
        if diffDevice < MaxSensors {
          getAllCaps[diffDevice] := true;
        } else {
          overrun := true;
        }
      }
    }

    /** One transport exchange: the frame goes out while `inbound` comes in; a
        nonzero first byte marks a command, which is decoded and then
        invalidated by zeroing that byte. */
    method Serve(inbound: seq<byte>) returns (outbound: seq<byte>)
      requires Valid() && |inbound| == FrameLength
      modifies command, switchCmd, switchNew, getAllCaps, this`convTime, this`overrun
      ensures outbound == frame[..]
      ensures command[0] == 0
      ensures command[1..] == inbound[1..]
      ensures Settings() == if inbound[0] != 0
                            then Apply(old(Settings()), Classify(inbound[0], inbound[1], inbound[2], inbound[3]))
                            else old(Settings())
    {
      outbound := frame[..];
      forall i | 0 <= i < FrameLength {
        command[i] := inbound[i];
      }
      if command[0] != 0 {
        DecodeCommand();
        command[0] := 0;
      }
    }

    // -------------------------------------------------------------------------
    // Writers of the telemetry frame

    /** Stores `bytes` in the frame from offset `off` on. */
    method Write(off: nat, bytes: seq<byte>)
      requires Valid() && off + |bytes| <= FrameLength
      modifies frame
      ensures frame[..] == Put(old(frame[..]), off, bytes)
    {
      forall i | 0 <= i < |bytes| {
        frame[off + i] := bytes[i];
      }
    }

    /** The header preload of the power-on-reset state. */
    method PreloadHeader()
      requires Valid()
      modifies frame
      ensures frame[..] == WithHeader(old(frame[..]))
    {
      Write(0, Header);
    }

    /** The frame update of a successful readAD7746 in mode `cap`. */
    method StoreCapReading(d: Device, cap: byte, rx: seq<byte>, filtered: u32)
      requires Valid() && |rx| == 6
      modifies frame
      ensures frame[..] == WithCapReading(old(frame[..]), d, cap, rx, filtered)
    {
      var b := BlockStart(d);
      if cap == C2D1 {
        Write(b + DiffCap, rx[..3]);
        Write(b + FiltCap, Split24(filtered));
      } else if cap == C1D0 {
        Write(b + C1Cap, rx[..3]);
      } else if cap == C2D0 {
        Write(b + C2Cap, rx[..3]);
      }
      Write(b + ChipTemp, rx[3..]);
    }

    /** The frame update of a successful readHDC1080. */
    method StoreHumidity(d: Device, rx: seq<byte>)
      requires Valid() && |rx| == 4
      modifies frame
      ensures frame[..] == WithHumidity(old(frame[..]), d, rx)
    {
      var b := BlockStart(d);
      Write(b + TempHigh, rx[..2]);
      Write(b + HumidityHigh, rx[2..]);
    }

    /** The zeroing of a channel's temperature and humidity after a failed read. */
    method ClearHumidity(d: Device)
      requires Valid()
      modifies frame
      ensures frame[..] == WithoutHumidity(old(frame[..]), d)
    {
      var b := BlockStart(d);
      Write(b + TempHigh, [0, 0]);
      Write(b + HumidityHigh, [0, 0]);
    }

    /** The RunFailed rewrite of the header and of channel `d`'s fields. */
    method ClearOnRunFailed(d: Device)
      requires Valid()
      modifies frame
      ensures frame[..] == RunFailedFrame(old(frame[..]), d)
    {
      Write(0, Header);
      var b := BlockStart(d);
      Write(b + HumidityHigh, seq(FiltCap, _ => 0));
      Write(b + TempHigh, seq(5, _ => 0));
    }
  }
}
