/** The upstream controller's commands. Only the first four bytes of the
    inbound frame are looked at; the decoder is a first-match chain over six
    byte patterns and changes one group of settings, or nothing for any other
    pattern. */
module Commands {
  import opened Bytes
  import opened Devices
  import opened Telemetry

  /** The settings a command can change: the per-channel relay-switch request
      flags and target positions, the capacitance conversion time shared by all
      channels, and the per-channel "read all three capacitances" flags.
      `overrun` records that a command has written one entry past the end of
      the six-entry capacitance-mode table, into memory the model does not
      otherwise describe. */
  datatype Config = Config(switchCmd: seq<bool>, switchNew: seq<Relay>, convTime: byte, getAllCaps: seq<bool>,
                           overrun: bool)
  {
    predicate Sized() {
      |switchCmd| == MaxSensors && |switchNew| == MaxSensors && |getAllCaps| == MaxSensors
    }
  }

  /** A channel index as the decoder's clamp leaves it: 0 to 6, where 6 is one
      past the end of the per-channel tables. */
  type Slot = x: int | 0 <= x <= 6

  /** A decoded command. */
  datatype Command =
    | SwitchToNew(mask: byte)   // 1,1,1,mask
    | SwitchAllToOld            // 1,1,0
    | UseFastConvTime           // 1,0,1,1
    | UseSlowConvTime           // 1,0,1,0
    | GetDiffOnly(ch: Slot)     // 1,2,ch
    | GetAllCaps(ch: Slot)      // 1,3,ch
    | Bad

  // The six patterns, as the decoder tests them.
  predicate SwitchAllToOldPattern(c0: byte, c1: byte, c2: byte) { c0 == 1 && c1 == 1 && c2 == 0 }
  predicate SwitchToNewPattern(c0: byte, c1: byte, c2: byte) { c0 == 1 && c1 == 1 && c2 == 1 }
  predicate FastConvTimePattern(c0: byte, c1: byte, c2: byte, c3: byte) { c0 == 1 && c1 == 0 && c2 == 1 && c3 == 1 }
  predicate SlowConvTimePattern(c0: byte, c1: byte, c2: byte, c3: byte) { c0 == 1 && c1 == 0 && c2 == 1 && c3 == 0 }
  predicate DiffOnlyPattern(c0: byte, c1: byte) { c0 == 1 && c1 == 2 }
  predicate AllCapsPattern(c0: byte, c1: byte) { c0 == 1 && c1 == 3 }

  /** The channel-index clamp as written: only an index above MAX_SENSORS (6)
      is replaced by 0, so index 6 passes through. */
  function ClampAsWritten(c: byte): (ch: Slot)
    ensures c <= MaxSensors ==> ch == c
    ensures c > MaxSensors ==> ch == 0
  {
    if c > MaxSensors then 0 else c
  }

  /** The clamp as written yields a valid index for every byte except 6, which
      indexes one past the end of the six-entry capacitance-mode table. */
  lemma ClampAsWrittenEscapes(c: byte)
    ensures ClampAsWritten(c) < MaxSensors <==> c != 6
    ensures ClampAsWritten(6) == MaxSensors
  {
  }

  /** The clamp as intended: every index that is not a channel becomes channel 0. */
  function Clamp(c: byte): (ch: Device)
    ensures c < MaxSensors ==> ch == c
    ensures c >= MaxSensors ==> ch == 0
  {
    if c >= MaxSensors then 0 else c
  }

  /** The mask bit of channel `i` in a switch command's fourth byte. */
  const ChannelBits: seq<byte> := [0x01, 0x02, 0x04, 0x08, 0x10, 0x20]

  /** `x & ChannelBits[i]` is not zero. */
  predicate BitSet(x: byte, i: Device) {
    (x / ChannelBits[i]) % 2 == 1
  }

  /** The position the switch command with fourth byte `mask` asks of channel
      `i`: new when the mask is 0 (all new, the legacy form) or bit `i` is set. */
  function Target(mask: byte, i: Device): Relay {
    if mask == 0 || BitSet(mask, i) then New else Old
  }

  /** The decoder's first-match chain over the first four command bytes, with
      `ch` the clamped channel index of the capacitance-mode commands. */
  function ClassifyWith(c0: byte, c1: byte, c2: byte, c3: byte, ch: Slot): (cmd: Command)
    ensures cmd.SwitchToNew? ==> cmd.mask == c3
    ensures cmd.GetDiffOnly? || cmd.GetAllCaps? ==> cmd.ch == ch
    ensures cmd.Bad? <==> !(SwitchToNewPattern(c0, c1, c2) || SwitchAllToOldPattern(c0, c1, c2)
                            || FastConvTimePattern(c0, c1, c2, c3) || SlowConvTimePattern(c0, c1, c2, c3)
                            || DiffOnlyPattern(c0, c1) || AllCapsPattern(c0, c1))
  {
    if SwitchToNewPattern(c0, c1, c2) then SwitchToNew(c3)
    else if SwitchAllToOldPattern(c0, c1, c2) then SwitchAllToOld
    else if FastConvTimePattern(c0, c1, c2, c3) then UseFastConvTime
    else if SlowConvTimePattern(c0, c1, c2, c3) then UseSlowConvTime
    else if DiffOnlyPattern(c0, c1) then GetDiffOnly(ch)
    else if AllCapsPattern(c0, c1) then GetAllCaps(ch)
    else Bad
  }

  /** The decoder as written: the channel index goes through the `>` clamp. */
  function Classify(c0: byte, c1: byte, c2: byte, c3: byte): (cmd: Command)
    ensures cmd.GetDiffOnly? || cmd.GetAllCaps? ==> cmd.ch == ClampAsWritten(c2)
  {
    ClassifyWith(c0, c1, c2, c3, ClampAsWritten(c2))
  }

  /** The decoder as intended: the channel index goes through `Clamp`. */
  function ClassifyIntended(c0: byte, c1: byte, c2: byte, c3: byte): (cmd: Command)
    ensures cmd.GetDiffOnly? || cmd.GetAllCaps? ==> cmd.ch == Clamp(c2) < MaxSensors
  {
    ClassifyWith(c0, c1, c2, c3, Clamp(c2))
  }

  /** The settings after applying `cmd`. */
  function Apply(cfg: Config, cmd: Command): (r: Config)
    requires cfg.Sized()
    ensures r.Sized()
  {
    match cmd
    case SwitchToNew(mask) =>
      cfg.(switchCmd := seq(MaxSensors, _ => true),
           switchNew := seq(MaxSensors, i requires 0 <= i < MaxSensors => Target(mask, i)))
    case SwitchAllToOld =>
      cfg.(switchCmd := seq(MaxSensors, _ => true), switchNew := seq(MaxSensors, _ => Old))
    case UseFastConvTime => cfg.(convTime := FastConversionTime)
    case UseSlowConvTime => cfg.(convTime := DefaultConversionTime)
    case GetDiffOnly(ch) => if ch < MaxSensors then cfg.(getAllCaps := cfg.getAllCaps[ch := false]) else cfg.(overrun := true)
    case GetAllCaps(ch) => if ch < MaxSensors then cfg.(getAllCaps := cfg.getAllCaps[ch := true]) else cfg.(overrun := true)
    case Bad => cfg
  }

  // ---------------------------------------------------------------------------
  // Properties of the decoder

  /** No two patterns hold at once, so the order of the first-match chain does
      not matter. */
  lemma PatternsExclusive(c0: byte, c1: byte, c2: byte, c3: byte)
    ensures var held := [SwitchToNewPattern(c0, c1, c2), SwitchAllToOldPattern(c0, c1, c2),
                         FastConvTimePattern(c0, c1, c2, c3), SlowConvTimePattern(c0, c1, c2, c3),
                         DiffOnlyPattern(c0, c1), AllCapsPattern(c0, c1)];
      forall i, j :: 0 <= i < j < |held| ==> !(held[i] && held[j])
  {
  }

  /** A command is bad exactly when none of the six patterns holds, and each
      pattern yields its own command. */
  lemma ClassifyMatchesPatterns(c0: byte, c1: byte, c2: byte, c3: byte)
    ensures var cmd := Classify(c0, c1, c2, c3);
      && (cmd.SwitchToNew? <==> SwitchToNewPattern(c0, c1, c2))
      && (cmd.SwitchAllToOld? <==> SwitchAllToOldPattern(c0, c1, c2))
      && (cmd == UseFastConvTime <==> FastConvTimePattern(c0, c1, c2, c3))
      && (cmd == UseSlowConvTime <==> SlowConvTimePattern(c0, c1, c2, c3))
      && (cmd.GetDiffOnly? <==> DiffOnlyPattern(c0, c1))
      && (cmd.GetAllCaps? <==> AllCapsPattern(c0, c1))
      && (cmd.Bad? <==> !(SwitchToNewPattern(c0, c1, c2) || SwitchAllToOldPattern(c0, c1, c2)
                          || FastConvTimePattern(c0, c1, c2, c3) || SlowConvTimePattern(c0, c1, c2, c3)
                          || DiffOnlyPattern(c0, c1) || AllCapsPattern(c0, c1)))
  {
  }

  /** Command (1,1,1,x) raises every switch flag and asks channel `i` for the new
      position exactly when x is 0 or bit `i` of x is set; nothing else changes. */
  lemma SwitchCommandEffect(cfg: Config, x: byte)
    requires cfg.Sized()
    ensures var r := Apply(cfg, Classify(1, 1, 1, x));
      && (forall i :: 0 <= i < MaxSensors ==> r.switchCmd[i])
      && (forall i: Device :: r.switchNew[i] == New <==> x == 0 || BitSet(x, i))
      && r.convTime == cfg.convTime && r.getAllCaps == cfg.getAllCaps
  {
  }

  /** Bits 6 and 7 of a nonzero mask do not select anything. */
  lemma HighMaskBitsIgnored(x: byte, i: Device)
    ensures BitSet(x, i) <==> BitSet(x % 0x40, i)
  {
    var q, r := x / 0x40, x % 0x40;
    var k := ChannelBits[i];
    if k == 1 {
      ShiftOut(r, q * 0x20, 2);
    } else {
      assert x == (q * (0x20 / k)) * 2 * k + r;
      ShiftOut(r, q * (0x20 / k) * 2, k);
      ShiftOut(r / k, q * (0x20 / k), 2);
    }
  }

  /** By the convention of the source both 0x00 and 0xFF switch every channel to new. */
  lemma AllNewMasks(cfg: Config)
    requires cfg.Sized()
    ensures Apply(cfg, Classify(1, 1, 1, 0x00)).switchNew == seq(MaxSensors, _ => New)
    ensures Apply(cfg, Classify(1, 1, 1, 0xFF)).switchNew == seq(MaxSensors, _ => New)
  {
  }

  /** A nonzero mask with only bits 6 and 7 set selects no channel: all old. */
  lemma HighBitsOnlyMaskMeansAllOld(cfg: Config, x: byte)
    requires cfg.Sized() && x in {0x40, 0x80, 0xC0}
    ensures Apply(cfg, Classify(1, 1, 1, x)).switchNew == seq(MaxSensors, _ => Old)
  {
  }

  /** Mask 0b000101 selects channels 0 and 2 for the new position. */
  lemma MaskExample(cfg: Config)
    requires cfg.Sized()
    ensures Apply(cfg, Classify(1, 1, 1, 0x05)).switchNew == [New, Old, New, Old, Old, Old]
  {
  }

  /** Command (1,1,0,_) raises every switch flag and targets the old position. */
  lemma AllOldCommandEffect(cfg: Config, x: byte)
    requires cfg.Sized()
    ensures var r := Apply(cfg, Classify(1, 1, 0, x));
      && r.switchCmd == seq(MaxSensors, _ => true)
      && r.switchNew == seq(MaxSensors, _ => Old)
      && r.convTime == cfg.convTime && r.getAllCaps == cfg.getAllCaps
  {
  }

  /** (1,0,1,1) selects the fast conversion time 0x1A and (1,0,1,0) the default
      0x3A; any other fourth byte is a bad command. */
  lemma ConversionTimeCommands(cfg: Config, x: byte)
    requires cfg.Sized()
    ensures Apply(cfg, Classify(1, 0, 1, 1)) == cfg.(convTime := 0x1A)
    ensures Apply(cfg, Classify(1, 0, 1, 0)) == cfg.(convTime := 0x3A)
    ensures x > 1 ==> Apply(cfg, Classify(1, 0, 1, x)) == cfg
  {
  }

  /** `r` is `cfg` with only the all-capacitances flag of channel `ch` set to `v`. */
  predicate SetsCapsMode(cfg: Config, r: Config, ch: Device, v: bool)
    requires cfg.Sized()
  {
    r == cfg.(getAllCaps := cfg.getAllCaps[ch := v])
  }

  /** (1,2,ch,_) clears and (1,3,ch,_) sets the all-capacitances flag of channel
      `ch` when `ch` is a channel, and of channel 0 when `ch` is above 6; no
      other setting changes. For `ch` = 6 the write goes one past the table:
      no flag changes and the overrun is recorded. */
  lemma CapsModeCommands(cfg: Config, ch: byte, x: byte)
    requires cfg.Sized()
    ensures ch < MaxSensors ==>
      && SetsCapsMode(cfg, Apply(cfg, Classify(1, 2, ch, x)), ch, false)
      && SetsCapsMode(cfg, Apply(cfg, Classify(1, 3, ch, x)), ch, true)
    ensures ch > MaxSensors ==>
      && SetsCapsMode(cfg, Apply(cfg, Classify(1, 2, ch, x)), 0, false)
      && SetsCapsMode(cfg, Apply(cfg, Classify(1, 3, ch, x)), 0, true)
    ensures ch == MaxSensors ==>
      && Apply(cfg, Classify(1, 2, ch, x)) == cfg.(overrun := true)
      && Apply(cfg, Classify(1, 3, ch, x)) == cfg.(overrun := true)
  {
  }

  /** The decoder as written writes past the capacitance-mode table exactly
      for a capacitance-mode command naming channel 6. */
  lemma DecoderOverrun(cfg: Config, c0: byte, c1: byte, c2: byte, c3: byte)
    requires cfg.Sized()
    ensures Apply(cfg, Classify(c0, c1, c2, c3)).overrun
            == (cfg.overrun || ((DiffOnlyPattern(c0, c1) || AllCapsPattern(c0, c1)) && c2 == MaxSensors))
  {
  }

  /** With the intended clamp no command writes past the table, and every
      capacitance-mode command sets the flag of channel `Clamp(ch)`. */
  lemma IntendedDecoderInBounds(cfg: Config, c0: byte, c1: byte, c2: byte, c3: byte)
    requires cfg.Sized()
    ensures Apply(cfg, ClassifyIntended(c0, c1, c2, c3)).overrun == cfg.overrun
    ensures DiffOnlyPattern(c0, c1) ==> SetsCapsMode(cfg, Apply(cfg, ClassifyIntended(c0, c1, c2, c3)), Clamp(c2), false)
    ensures AllCapsPattern(c0, c1) ==> SetsCapsMode(cfg, Apply(cfg, ClassifyIntended(c0, c1, c2, c3)), Clamp(c2), true)
  {
  }

  /** A byte pattern matching none of the commands changes no setting. */
  lemma BadCommandChangesNothing(cfg: Config, c0: byte, c1: byte, c2: byte, c3: byte)
    requires cfg.Sized()
    requires !SwitchAllToOldPattern(c0, c1, c2) && !SwitchToNewPattern(c0, c1, c2)
    requires !FastConvTimePattern(c0, c1, c2, c3) && !SlowConvTimePattern(c0, c1, c2, c3)
    requires !DiffOnlyPattern(c0, c1) && !AllCapsPattern(c0, c1)
    ensures Apply(cfg, Classify(c0, c1, c2, c3)) == cfg
  {
  }
}
