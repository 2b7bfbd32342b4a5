/** The 119-byte telemetry frame sent upstream on every transport exchange:
    a 5-byte header (signature A5 5A, firmware version 0.0.2) followed by one
    19-byte block per channel. The functions here give the frame that each
    writer of the firmware leaves behind. */
module Telemetry {
  import opened Bytes
  import opened Devices

  const MaxSensors: nat := 6

  /** A channel index, 0 to 5. */
  type Device = d: int | 0 <= d < 6

  const HeaderLength: nat := 5
  const BlockLength: nat := 19
  const FrameLength: nat := 119

  /** The header: SIGNATURE0, SIGNATURE1, FIRMWARE_REV_0..2. */
  const Header: seq<byte> := [0xA5, 0x5A, 0, 0, 2]

  // Offsets of the fields inside a channel block.
  const HumidityHigh: nat := 0
  const HumidityLow: nat := 1
  const DiffCap: nat := 2
  const C1Cap: nat := 5
  const C2Cap: nat := 8
  const FiltCap: nat := 11
  const TempHigh: nat := 14
  const TempLow: nat := 15
  const ChipTemp: nat := 16

  /** Offset of channel `d`'s block in the frame. */
  function BlockStart(d: Device): (b: nat)
    ensures HeaderLength <= b && b + BlockLength <= FrameLength
  {
    HeaderLength + d * BlockLength
  }

  /** Byte `i` of the frame lies in channel `d`'s block. */
  predicate InBlock(d: Device, i: int) {
    BlockStart(d) <= i < BlockStart(d) + BlockLength
  }

  /** `f` with `bytes` written in place from offset `off` on. */
  function Put(f: seq<byte>, off: nat, bytes: seq<byte>): (g: seq<byte>)
    requires off + |bytes| <= |f|
    ensures |g| == |f|
    ensures forall i :: 0 <= i < |f| ==> g[i] == (if off <= i < off + |bytes| then bytes[i - off] else f[i])
  {
    f[..off] + bytes + f[off + |bytes|..]
  }

  /** The bytes of `g` and `f` agree everywhere outside channel `d`'s block. */
  ghost predicate SameOutsideBlock(f: seq<byte>, g: seq<byte>, d: Device) {
    |f| == |g| && forall i :: 0 <= i < |f| && !InBlock(d, i) ==> g[i] == f[i]
  }

  /** The header preload of the power-on-reset state (and of RunFailed). */
  function WithHeader(f: seq<byte>): (g: seq<byte>)
    requires |f| == FrameLength
    ensures |g| == FrameLength && g[..HeaderLength] == Header
    ensures forall i :: HeaderLength <= i < FrameLength ==> g[i] == f[i]
  {
    Put(f, 0, Header)
  }

  /** readAD7746's placement of a successful read `rx` (3 capacitance bytes,
      3 chip temperature bytes) taken in mode `cap`: the capacitance goes to
      diffCap (with the filtered value `filtered` in filtCap), c1 or c2; the
      chip temperature is always stored. Nothing outside the block changes. */
  function WithCapReading(f: seq<byte>, d: Device, cap: byte, rx: seq<byte>, filtered: u32): (g: seq<byte>)
    requires |f| == FrameLength && |rx| == 6
    ensures SameOutsideBlock(f, g, d)
  {
    var b := BlockStart(d);
    var f1 :=
      if cap == C2D1 then Put(Put(f, b + DiffCap, rx[..3]), b + FiltCap, Split24(filtered))
      else if cap == C1D0 then Put(f, b + C1Cap, rx[..3])
      else if cap == C2D0 then Put(f, b + C2Cap, rx[..3])
      else f;
    Put(f1, b + ChipTemp, rx[3..])
  }

  /** readHDC1080's placement of `rx`: temperature high/low then humidity high/low. */
  function WithHumidity(f: seq<byte>, d: Device, rx: seq<byte>): (g: seq<byte>)
    requires |f| == FrameLength && |rx| == 4
    ensures SameOutsideBlock(f, g, d)
  {
    var b := BlockStart(d);
    Put(Put(f, b + TempHigh, rx[..2]), b + HumidityHigh, rx[2..])
  }

  /** The zeroing after a failed humidity read: the two temperature and the two
      humidity bytes of the block. */
  function WithoutHumidity(f: seq<byte>, d: Device): (g: seq<byte>)
    requires |f| == FrameLength
    ensures SameOutsideBlock(f, g, d)
  {
    var b := BlockStart(d);
    Put(Put(f, b + TempHigh, [0, 0]), b + HumidityHigh, [0, 0])
  }

  /** The RunFailed rewrite: the header, then zeroes in every field of the
      block except the filtered capacitance. */
  function RunFailedFrame(f: seq<byte>, d: Device): (g: seq<byte>)
    requires |f| == FrameLength
    ensures |g| == FrameLength && g[..HeaderLength] == Header
    ensures forall i :: HeaderLength <= i < FrameLength && !InBlock(d, i) ==> g[i] == f[i]
  {
    var b := BlockStart(d);
    Put(Put(WithHeader(f), b + HumidityHigh, seq(FiltCap, _ => 0)), b + TempHigh, seq(5, _ => 0))
  }

  // ---------------------------------------------------------------------------
  // Field-level properties of the writers

  /** A differential read stores the three raw bytes in diffCap, the filtered
      value's three bytes in filtCap and the chip temperature; humidity, c1, c2
      and temperature are left as they were. */
  lemma DifferentialReadFields(f: seq<byte>, d: Device, rx: seq<byte>, filtered: u32)
    requires |f| == FrameLength && |rx| == 6
    ensures var g, b := WithCapReading(f, d, C2D1, rx, filtered), BlockStart(d);
      && g[b + DiffCap .. b + DiffCap + 3] == rx[..3]
      && g[b + FiltCap .. b + FiltCap + 3] == Split24(filtered)
      && g[b + ChipTemp .. b + BlockLength] == rx[3..]
      && g[b .. b + DiffCap] == f[b .. b + DiffCap]
      && g[b + C1Cap .. b + FiltCap] == f[b + C1Cap .. b + FiltCap]
      && g[b + TempHigh .. b + ChipTemp] == f[b + TempHigh .. b + ChipTemp]
  {
  }

  /** A single-ended read in mode C1D0 or C2D0 stores the raw bytes in c1 or c2
      and the chip temperature; diffCap and filtCap are left as they were. */
  lemma SingleEndedReadFields(f: seq<byte>, d: Device, cap: byte, rx: seq<byte>, filtered: u32)
    requires |f| == FrameLength && |rx| == 6 && (cap == C1D0 || cap == C2D0)
    ensures var g, b := WithCapReading(f, d, cap, rx, filtered), BlockStart(d);
      && g[b + (if cap == C1D0 then C1Cap else C2Cap) ..][..3] == rx[..3]
      && g[b + (if cap == C1D0 then C2Cap else C1Cap) ..][..3] == f[b + (if cap == C1D0 then C2Cap else C1Cap) ..][..3]
      && g[b + ChipTemp .. b + BlockLength] == rx[3..]
      && g[b .. b + C1Cap] == f[b .. b + C1Cap]
      && g[b + FiltCap .. b + ChipTemp] == f[b + FiltCap .. b + ChipTemp]
  {
  }

  /** A humidity read stores rx[0..2] as the temperature and rx[2..4] as the
      humidity, and nothing else of the block. */
  lemma HumidityFields(f: seq<byte>, d: Device, rx: seq<byte>)
    requires |f| == FrameLength && |rx| == 4
    ensures var g, b := WithHumidity(f, d, rx), BlockStart(d);
      && g[b + TempHigh] == rx[0] && g[b + TempLow] == rx[1]
      && g[b + HumidityHigh] == rx[2] && g[b + HumidityLow] == rx[3]
      && g[b + DiffCap .. b + TempHigh] == f[b + DiffCap .. b + TempHigh]
      && g[b + ChipTemp .. b + BlockLength] == f[b + ChipTemp .. b + BlockLength]
  {
  }

  /** After a failed humidity read exactly the four temperature and humidity
      bytes of the block are zero; every other byte of the frame is kept. */
  lemma NoHumidityFields(f: seq<byte>, d: Device)
    requires |f| == FrameLength
    ensures var g, b := WithoutHumidity(f, d), BlockStart(d);
      forall i :: 0 <= i < FrameLength ==>
        g[i] == (if i in {b + HumidityHigh, b + HumidityLow, b + TempHigh, b + TempLow} then 0 else f[i])
  {
  }

  /** RunFailed zeroes 16 of the 19 bytes of the block; the three filtCap bytes
      keep their values. */
  lemma RunFailedFields(f: seq<byte>, d: Device)
    requires |f| == FrameLength
    ensures var g, b := RunFailedFrame(f, d), BlockStart(d);
      forall i :: b <= i < b + BlockLength ==>
        g[i] == (if b + FiltCap <= i < b + TempHigh then f[i] else 0)
  {
  }

  /** So a RunFailed block is not all zero when a filtered value was stored
      before: the frame does not return to the all-zero "no data" block. */
  lemma RunFailedKeepsFilteredCapacitance(f: seq<byte>, d: Device)
    requires |f| == FrameLength && f[BlockStart(d) + FiltCap] != 0
    ensures RunFailedFrame(f, d)[BlockStart(d) .. BlockStart(d) + BlockLength] != seq(BlockLength, _ => 0)
  {
    var g, b := RunFailedFrame(f, d), BlockStart(d);
    assert g[b .. b + BlockLength][FiltCap] == f[b + FiltCap];
  }

  /** The filtered capacitance bytes written after a differential read recombine
      to the 24-bit filtered value (when it fits in 24 bits). */
  lemma FilteredCapacitanceRoundTrip(f: seq<byte>, d: Device, rx: seq<byte>, filtered: u32)
    requires |f| == FrameLength && |rx| == 6 && filtered < Two24
    ensures var g, b := WithCapReading(f, d, C2D1, rx, filtered), BlockStart(d);
      Combine24(g[b + FiltCap], g[b + FiltCap + 1], g[b + FiltCap + 2]) == filtered
  {
    DifferentialReadFields(f, d, rx, filtered);
    SplitThenCombine(filtered);
    var g, b := WithCapReading(f, d, C2D1, rx, filtered), BlockStart(d);
    assert g[b + FiltCap .. b + FiltCap + 3][0] == g[b + FiltCap];
    assert g[b + FiltCap .. b + FiltCap + 3][1] == g[b + FiltCap + 1];
    assert g[b + FiltCap .. b + FiltCap + 3][2] == g[b + FiltCap + 2];
  }
}
