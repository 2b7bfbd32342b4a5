/** The fixed bus transactions the firmware issues to the three devices of a
    channel: the AD7746 capacitance converter, the HDC1080 temperature and
    humidity sensor and the PCA9536 relay driver. Each set-up, trigger or
    switch is a fixed list run with `I2c.Run`: it returns 0 exactly when every
    transfer is acknowledged and stops at the first one that is not. */
module Devices {
  import opened Bytes
  import opened I2c

  // ---------------------------------------------------------------------------
  // AD7746 capacitance converter

  const Ad7746Address: byte := 0x48
  const Ad7746Read: byte := 0x01
  const Ad7746CapSetupReg: byte := 0x07
  const Ad7746VtSetupReg: byte := 0x08
  const Ad7746VtSetupIntTemp: byte := 0x81
  const Ad7746ExcSetupReg: byte := 0x09
  const Ad7746ExcSetA: byte := 0x4B
  const Ad7746CfgReg: byte := 0x0A
  const Ad7746CapOffsetHigh: byte := 0x0D

  /** Capacitor selections: differential CIN2, single-ended CIN1, single-ended CIN2. */
  const C2D1: byte := 0xE0
  const C1D0: byte := 0x80
  const C2D0: byte := 0xC0

  /** Capacitance conversion times: 38 ms single (fast) and 109.6 ms single (default). */
  const FastConversionTime: byte := 0x1A
  const DefaultConversionTime: byte := 0x3A

  /** Internal temperature conversion time and start: 32 ms single. */
  const DefaultTemperatureConversionTime: byte := 0x42

  /** setupAD7746: select the differential capacitors, enable the internal
      temperature channel, set the excitation, set the conversion time, then
      read the four calibration bytes (offset and gain, only logged). */
  function SetupAd7746Writes(conversionTime: byte): (ts: seq<Transaction>)
    ensures |ts| == 5 && forall t :: t in ts ==> t.address == Ad7746Address
    ensures ts[3].write == [Ad7746CfgReg, conversionTime] && ts[4].readCount == 4
  {
    [ Transaction(Ad7746Address, [Ad7746CapSetupReg, C2D1], 0),
      Transaction(Ad7746Address, [Ad7746VtSetupReg, Ad7746VtSetupIntTemp], 0),
      Transaction(Ad7746Address, [Ad7746ExcSetupReg, Ad7746ExcSetA], 0),
      Transaction(Ad7746Address, [Ad7746CfgReg, conversionTime], 0),
      Transaction(Ad7746Address, [Ad7746CapOffsetHigh], 4) ]
  }

  /** triggerAD7746capacitance: select `cap`, then set the conversion time,
      which starts a single conversion. */
  function TriggerCapacitanceWrites(conversionTime: byte, cap: byte): (ts: seq<Transaction>)
    ensures |ts| == 2 && forall t :: t in ts ==> t.address == Ad7746Address && t.readCount == 0
    ensures ts[0].write == [Ad7746CapSetupReg, cap] && ts[1].write == [Ad7746CfgReg, conversionTime]
  {
    [ Transaction(Ad7746Address, [Ad7746CapSetupReg, cap], 0),
      Transaction(Ad7746Address, [Ad7746CfgReg, conversionTime], 0) ]
  }

  /** triggerAD7746temperature: start one internal temperature conversion. */
  function TriggerTemperatureWrites(): (ts: seq<Transaction>)
    ensures |ts| == 1 && ts[0].address == Ad7746Address && ts[0].readCount == 0
    ensures ts[0].write == [Ad7746CfgReg, DefaultTemperatureConversionTime]
  {
    [ Transaction(Ad7746Address, [Ad7746CfgReg, DefaultTemperatureConversionTime], 0) ]
  }

  /** readAD7746: three capacitance bytes then three chip temperature bytes. */
  const ReadAd7746Request: Transaction := Transaction(Ad7746Address, [Ad7746Read], 6)

  // ---------------------------------------------------------------------------
  // HDC1080 temperature and humidity sensor

  const Hdc1080Address: byte := 0x40
  const Hdc1080CfgReg: byte := 0x02
  const Hdc1080TriggerBoth: byte := 0x00

  /** The configuration register value 0x1000: temperature and humidity in sequence. */
  const Hdc1080ModeTAndH: nat := 0x1000

  /** setupHDC1080: write the 16-bit mode register, then trigger the first
      combined conversion. */
  function SetupHdc1080Writes(): (ts: seq<Transaction>)
    ensures |ts| == 2 && forall t :: t in ts ==> t.address == Hdc1080Address && t.readCount == 0
    ensures ts[0].write == [Hdc1080CfgReg, 0x10, 0x00] && ts[1].write == [Hdc1080TriggerBoth]
  {
    [ Transaction(Hdc1080Address, [Hdc1080CfgReg, (Hdc1080ModeTAndH / 0x100) % 0x100, Hdc1080ModeTAndH % 0x100], 0),
      Transaction(Hdc1080Address, [Hdc1080TriggerBoth], 0) ]
  }

  /** readHDC1080, first transfer: no register byte is written, four bytes
      (temperature high/low, humidity high/low) are read. */
  const ReadHdc1080Request: Transaction := Transaction(Hdc1080Address, [], 4)

  /** readHDC1080, last transfer: trigger the next conversion. */
  const TriggerHdc1080Request: Transaction := Transaction(Hdc1080Address, [Hdc1080TriggerBoth], 0)

  // ---------------------------------------------------------------------------
  // PCA9536 relay driver

  const Pca9536Address: byte := 0x41
  const Pca9536OutPortReg: byte := 0x01
  const Pca9536OutPortReset: byte := 0x00
  const Pca9536OutPortNewAcs: byte := 0x05
  const Pca9536OutPortOldAcs: byte := 0x0A
  const Pca9536ConfigReg: byte := 0x03
  const Pca9536ConfigAllOutput: byte := 0x00

  /** Relay positions: the old or the new ACS connection. */
  datatype Relay = Old | New

  /** setupPCA9536: reset the outputs, make every pin an output, pulse the
      new-ACS pattern, reset again. */
  function SetupPca9536Writes(): (ts: seq<Transaction>)
    ensures |ts| == 4 && forall t :: t in ts ==> t.address == Pca9536Address && t.readCount == 0
    ensures ts[0].write == ts[3].write == [Pca9536OutPortReg, Pca9536OutPortReset]
    ensures ts[1].write == [Pca9536ConfigReg, Pca9536ConfigAllOutput]
  {
    [ Transaction(Pca9536Address, [Pca9536OutPortReg, Pca9536OutPortReset], 0),
      Transaction(Pca9536Address, [Pca9536ConfigReg, Pca9536ConfigAllOutput], 0),
      Transaction(Pca9536Address, [Pca9536OutPortReg, Pca9536OutPortNewAcs], 0),
      Transaction(Pca9536Address, [Pca9536OutPortReg, Pca9536OutPortReset], 0) ]
  }

  /** The output pattern that drives the relay to `pos`. */
  function RelayPattern(pos: Relay): (pattern: byte)
    ensures pattern != Pca9536OutPortReset
    ensures pos == New <==> pattern == Pca9536OutPortNewAcs
  {
    if pos == New then Pca9536OutPortNewAcs else Pca9536OutPortOldAcs
  }

  /** switchPCA9536: pulse the pattern of `pos`, then reset the outputs. */
  function SwitchPca9536Writes(pos: Relay): (ts: seq<Transaction>)
    ensures |ts| == 2 && forall t :: t in ts ==> t.address == Pca9536Address && t.readCount == 0
    ensures ts[0].write == [Pca9536OutPortReg, RelayPattern(pos)]
    ensures ts[1].write == [Pca9536OutPortReg, Pca9536OutPortReset]
  {
    [ Transaction(Pca9536Address, [Pca9536OutPortReg, RelayPattern(pos)], 0),
      Transaction(Pca9536Address, [Pca9536OutPortReg, Pca9536OutPortReset], 0) ]
  }

  // ---------------------------------------------------------------------------
  // Return codes

  /** setupPCA9536 returns 0 exactly when its four transfers are acknowledged;
      when one fails, the ones after it are not issued. */
  lemma SetupPca9536Result(replies: seq<Reply>)
    ensures var x := Run(SetupPca9536Writes(), replies);
      && (x.ok <==> forall i :: 0 <= i < 4 ==> Acked(replies, i))
      && (forall t :: t in x.trace ==> t.address == Pca9536Address)
      && (!Acked(replies, 0) ==> x.trace == [SetupPca9536Writes()[0]])
  {
    RunOutcome(SetupPca9536Writes(), replies);
    var x := Run(SetupPca9536Writes(), replies);
    assert x.trace == SetupPca9536Writes()[..|x.trace|];
    assert x.ok <==> forall i :: 0 <= i < 4 ==> Acked(replies, i) by {
      if forall i :: 0 <= i < 4 ==> Acked(replies, i) { assert Acked(replies, 3); }
    }
  }

  /** setupAD7746 returns 0 exactly when its five transfers are acknowledged,
      and all it issues goes to the AD7746. */
  lemma SetupAd7746Result(conversionTime: byte, replies: seq<Reply>)
    ensures var x := Run(SetupAd7746Writes(conversionTime), replies);
      && (x.ok <==> forall i :: 0 <= i < 5 ==> Acked(replies, i))
      && (forall t :: t in x.trace ==> t.address == Ad7746Address)
      && (x.ok ==> |x.trace| == 5 && x.trace[3].write == [Ad7746CfgReg, conversionTime])
  {
    RunOutcome(SetupAd7746Writes(conversionTime), replies);
    var x := Run(SetupAd7746Writes(conversionTime), replies);
    assert x.trace == SetupAd7746Writes(conversionTime)[..|x.trace|];
    assert x.ok <==> forall i :: 0 <= i < 5 ==> Acked(replies, i) by {
      if forall i :: 0 <= i < 5 ==> Acked(replies, i) { assert Acked(replies, 4); }
    }
  }

  /** setupHDC1080 returns 0 exactly when both of its transfers are acknowledged. */
  lemma SetupHdc1080Result(replies: seq<Reply>)
    ensures var x := Run(SetupHdc1080Writes(), replies);
      && (x.ok <==> Acked(replies, 0) && Acked(replies, 1))
      && (forall t :: t in x.trace ==> t.address == Hdc1080Address)
      && (x.ok ==> |x.trace| == 2 && x.trace[0].write == [Hdc1080CfgReg, 0x10, 0x00])
  {
    RunOutcome(SetupHdc1080Writes(), replies);
    var x := Run(SetupHdc1080Writes(), replies);
    assert x.trace == SetupHdc1080Writes()[..|x.trace|];
  }

  /** triggerAD7746capacitance returns 0 exactly when both transfers are
      acknowledged; the first selects `cap`, the second starts the conversion. */
  lemma TriggerCapacitanceResult(conversionTime: byte, cap: byte, replies: seq<Reply>)
    ensures var x := Run(TriggerCapacitanceWrites(conversionTime, cap), replies);
      && (x.ok <==> Acked(replies, 0) && Acked(replies, 1))
      && 1 <= |x.trace| && x.trace[0] == Transaction(Ad7746Address, [Ad7746CapSetupReg, cap], 0)
      && (x.ok ==> |x.trace| == 2 && x.trace[1].write == [Ad7746CfgReg, conversionTime])
  {
    RunOutcome(TriggerCapacitanceWrites(conversionTime, cap), replies);
    var x := Run(TriggerCapacitanceWrites(conversionTime, cap), replies);
    assert x.trace == TriggerCapacitanceWrites(conversionTime, cap)[..|x.trace|];
  }

  /** triggerAD7746temperature issues one transfer and returns 0 exactly when it is acknowledged. */
  lemma TriggerTemperatureResult(replies: seq<Reply>)
    ensures var x := Run(TriggerTemperatureWrites(), replies);
      && (x.ok <==> Acked(replies, 0))
      && x.trace == TriggerTemperatureWrites()
  {
    RunOutcome(TriggerTemperatureWrites(), replies);
    var x := Run(TriggerTemperatureWrites(), replies);
    assert x.trace == TriggerTemperatureWrites()[..|x.trace|];
  }

  /** switchPCA9536 returns 0 exactly when both transfers are acknowledged: the
      pulse to `pos`'s pattern, then the reset. A failed pulse skips the reset. */
  lemma SwitchPca9536Result(pos: Relay, replies: seq<Reply>)
    ensures var x := Run(SwitchPca9536Writes(pos), replies);
      && (x.ok <==> Acked(replies, 0) && Acked(replies, 1))
      && 1 <= |x.trace| && x.trace[0].write == [Pca9536OutPortReg, RelayPattern(pos)]
      && (!Acked(replies, 0) ==> |x.trace| == 1)
  {
    RunOutcome(SwitchPca9536Writes(pos), replies);
    var x := Run(SwitchPca9536Writes(pos), replies);
    assert x.trace == SwitchPca9536Writes(pos)[..|x.trace|];
  }
}
