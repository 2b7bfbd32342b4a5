# ACS node box sensor firmware — a verified Dafny model

The firmware `acsnb-sensor-tiva.c` runs on a TM4C123 board in the Keck
Observatory's ACS node box. Six channel tasks each drive one sensor head
over its own I2C bus. Each head carries three devices:

- an AD7746 capacitance-to-digital converter;
- an HDC1080 temperature and humidity sensor;
- a PCA9536 that drives the relay between the old and the new ACS connection.

A transport task answers the upstream controller over SPI. Every exchange
sends out the 119-byte telemetry frame. When the first byte of the inbound
frame is nonzero, the inbound frame also holds a command, which changes the
shared settings:

- relay switch requests and their targets;
- the conversion time;
- the per-channel "read all capacitances" flag.

The model has these modules:

| module | what it holds |
|---|---|
| `Bytes` | `uint8_t` and `uint32_t` with explicit 32-bit wrap-around, and the 24-bit big-endian combine and split of capacitance values. |
| `I2c` | A bus transaction (address, bytes written, bytes read). The `Bus` class answers each transfer from a sequence of device replies and keeps a log of what was issued. `Run` executes a fixed transfer list that stops at its first failed transfer. |
| `Devices` | The fixed transfer lists of `setupAD7746`, `triggerAD7746capacitance`, `triggerAD7746temperature`, `setupHDC1080`, `setupPCA9536` and `switchPCA9536`, with their return codes. |
| `Telemetry` | The layout of the frame: a 5-byte header, then six 19-byte channel blocks. Pure functions give the frame each writer leaves behind. |
| `Commands` | The decoder's six byte patterns, the first-match chain `Classify` and its effect on the settings, `Apply`. |
| `Globals` | The `Hub` class holds the process-wide arrays: the outbound and inbound frames, the interrupt, switch-request and relay-target flags, and the capacitance-mode table, plus the shared conversion time. Its methods are the command decoder, the transport exchange and the frame writers, each run as one critical section. |
| `Acquisition` | One iteration of `taskI2Ccommon` as a pure function `Step` on a snapshot `Snap`. A snapshot holds the task record, the channel's entries of the shared flags, the frame, and the channel's bus. |
| `Tasks` | The `Channel` class: the task record as fields, and one method per state's pass. `Channel.Step` is proved to change what it sees exactly as `Acquisition.Step` says. It leaves the other channels' flags alone. |
| `Properties` | Properties of the state machine over one or many iterations. |

Inputs to the model:

- Bus transfers are an oracle: a sequence of replies, each an acknowledge carrying the bytes read, or a failure.
- The filtered capacitance is the 32-bit value `ci` that the floating-point filter of `readAD7746` computes. The model takes it as an input of the step.

## Model

| member | source | states |
|---|---|---|
| Bytes.Wrap32 | acsnb-sensor-tiva.c:897-898 | A `uint32_t` sum below 2^32 is kept; a sum from 2^32 up to 2^33 wraps to the sum minus 2^32, so the one-step increments of the timers and of capreads wrap from 2^32 - 1 to 0. |
| Bytes.Combine24 | acsnb-sensor-tiva.c:1331 | `(b0 << 16) + (b1 << 8) + b2` of three bytes is below 2^24. |
| Bytes.Split24 | acsnb-sensor-tiva.c:1345-1347 | The shift-and-mask split yields exactly three bytes, most significant first; `SplitThenCombine` and `CombineThenSplit` make it the inverse of `Combine24`. |
| Bytes.SplitThenCombine | acsnb-sensor-tiva.c:1345-1347 | Splitting a value below 2^24 into three bytes and recombining them gives the value back. |
| Bytes.CombineThenSplit | acsnb-sensor-tiva.c:1331 | Combining three bytes and splitting the result gives the three bytes back. |
| Bytes.SplitIgnoresHighBits | acsnb-sensor-tiva.c:1345-1347 | The split keeps only the low 24 bits of a 32-bit value. |
| I2c.Run | acsnb-sensor-tiva.c:1494-1545 | A transfer list puts a prefix of itself on the bus: all of it when every transfer succeeds, at least one transfer when it fails. |
| I2c.RunCompletes | acsnb-sensor-tiva.c:1112-1207 | When every transfer is acknowledged, the whole list is issued and the routine returns success. |
| I2c.RunStops | acsnb-sensor-tiva.c:1494-1545 | When transfer i is the first failure, transfers 0..i are issued, none after, and the routine fails. |
| I2c.RunOutcome | acsnb-sensor-tiva.c:1215-1248 | A routine succeeds iff every transfer is acknowledged. It issues a prefix of its list. On failure the last transfer issued is the failed one and all before it succeeded. One reply is consumed per transfer. |
| I2c.Bus.Transfer | acsnb-sensor-tiva.c:1304-1316 | One `I2C_transfer`: it succeeds iff the device acknowledges, returns the bytes read, is appended to the log and consumes one reply. |
| I2c.Bus.Exchange | acsnb-sensor-tiva.c:1494-1545 | The loop over a routine's transfers returns 0 or -1 exactly as `Run` decides, and logs exactly the transfers `Run` issues. |
| Devices.SetupAd7746Writes | acsnb-sensor-tiva.c:1112-1207 | setupAD7746 issues five transfers, all to the AD7746. The fourth writes the configured conversion time to the configuration register and the fifth reads four bytes. |
| Devices.TriggerCapacitanceWrites | acsnb-sensor-tiva.c:1215-1248 | triggerAD7746capacitance writes the selected capacitance to the cap-setup register, then the conversion time to the configuration register. Both go to the AD7746 and read nothing. |
| Devices.TriggerTemperatureWrites | acsnb-sensor-tiva.c:1255-1291 | triggerAD7746temperature is the single write of the default temperature conversion time to the AD7746 configuration register. |
| Devices.SetupHdc1080Writes | acsnb-sensor-tiva.c:1382-1425 | setupHDC1080 writes [0x02, 0x10, 0x00] and then the measurement trigger, both to the HDC1080. |
| Devices.SetupPca9536Writes | acsnb-sensor-tiva.c:1494-1545 | setupPCA9536 issues four writes to the PCA9536: the output reset, all pins as outputs, and the output reset again as the last write. |
| Devices.SwitchPca9536Writes | acsnb-sensor-tiva.c:1553-1601 | switchPCA9536 writes the position's pulse pattern to the output port, then the reset value. Both go to the PCA9536. |
| Devices.RelayPattern | acsnb-sensor-tiva.c:1565-1588 | The pulse pattern is never the reset value. It is 0x05 exactly for the new ACS position. |
| Devices.SetupPca9536Result | acsnb-sensor-tiva.c:1494-1545 | Returns 0 iff all four PCA9536 writes are acknowledged. Only the PCA9536 is addressed. A failed first write issues nothing more. |
| Devices.SetupAd7746Result | acsnb-sensor-tiva.c:1112-1207 | Returns 0 iff all five AD7746 transfers are acknowledged. Only the AD7746 is addressed. On success the fourth write sets the configured conversion time. |
| Devices.SetupHdc1080Result | acsnb-sensor-tiva.c:1382-1425 | Returns 0 iff both transfers are acknowledged. Only the HDC1080 is addressed. The mode write is [0x02, 0x10, 0x00]. |
| Devices.TriggerCapacitanceResult | acsnb-sensor-tiva.c:1215-1248 | Returns 0 iff both writes are acknowledged. The first write always selects `cap`. On success the second sets the conversion time. |
| Devices.TriggerTemperatureResult | acsnb-sensor-tiva.c:1255-1291 | Issues exactly the single configuration write and returns 0 iff it is acknowledged. |
| Devices.SwitchPca9536Result | acsnb-sensor-tiva.c:1553-1601 | Returns 0 iff the pulse and the reset are acknowledged. The pulse carries the position's pattern. A failed pulse skips the reset. |
| Telemetry.BlockStart | acsnb-sensor-tiva.c:224-276 | Every channel block lies after the 5-byte header and inside the 119-byte frame. |
| Telemetry.WithHeader | acsnb-sensor-tiva.c:624-628 | The preload writes A5 5A 00 00 02 and changes no other byte. |
| Telemetry.WithCapReading | acsnb-sensor-tiva.c:1322-1368 | The placement of a capacitance read changes no byte outside the channel's block. |
| Telemetry.WithHumidity | acsnb-sensor-tiva.c:1459-1468 | The placement of a humidity read changes no byte outside the channel's block. |
| Telemetry.WithoutHumidity | acsnb-sensor-tiva.c:846-849 | The zeroing after a failed humidity read changes no byte outside the channel's block. |
| Telemetry.RunFailedFrame | acsnb-sensor-tiva.c:914-934 | The RunFailed rewrite restores the header and changes no byte of another channel's block. |
| Telemetry.DifferentialReadFields | acsnb-sensor-tiva.c:1325-1347 | A C2D1 read puts the raw bytes in diffCap, the split filtered value in filtCap and rx[3..6] in chiptemp. Humidity, c1, c2 and temperature keep their values. |
| Telemetry.SingleEndedReadFields | acsnb-sensor-tiva.c:1351-1368 | A C1D0 or C2D0 read puts the raw bytes in c1 or c2 respectively, and rx[3..6] in chiptemp. The other single-ended field, humidity, diffCap, filtCap and temperature keep their values. |
| Telemetry.HumidityFields | acsnb-sensor-tiva.c:1459-1468 | rx[0], rx[1] go to tempHigh/Low and rx[2], rx[3] to humidityHigh/Low. The capacitance and chip temperature fields keep their values. |
| Telemetry.NoHumidityFields | acsnb-sensor-tiva.c:846-849 | Exactly the four temperature and humidity bytes of the block become 0. Every other byte of the frame is kept. |
| Telemetry.RunFailedFields | acsnb-sensor-tiva.c:919-934 | RunFailed zeroes 16 of the block's 19 bytes. The three filtCap bytes keep their values. |
| Telemetry.RunFailedKeepsFilteredCapacitance | acsnb-sensor-tiva.c:919-934 | A block whose filtCap was nonzero is not all zero after RunFailed. |
| Telemetry.FilteredCapacitanceRoundTrip | acsnb-sensor-tiva.c:1343-1347 | The filtCap bytes written after a differential read recombine to the filtered value when it is below 2^24. |
| Commands.ClampAsWritten | acsnb-sensor-tiva.c:520-522 | The clamp as written keeps every index up to 6 and yields at most 6. |
| Commands.ClampAsWrittenEscapes | acsnb-sensor-tiva.c:521-522 | The clamp as written yields a valid channel for every byte except 6. For 6 it yields 6, one past the table. |
| Commands.Clamp | acsnb-sensor-tiva.c:520-522 | The intended clamp keeps channels 0..5 and maps every other byte to channel 0. |
| Commands.ClassifyWith | acsnb-sensor-tiva.c:512-587 | The if-chain on the four command bytes, given the channel index: a switch command carries the fourth byte as its mask, a capacitance-mode command carries the index, and the command is bad iff no pattern holds. |
| Commands.Classify | acsnb-sensor-tiva.c:512-587 | The decoder as written: a capacitance-mode command carries the index of `ClampAsWritten`, which can be 6. |
| Commands.ClassifyIntended | acsnb-sensor-tiva.c:512-587 | The decoder with the intended clamp: every capacitance-mode command carries a channel below 6. |
| Commands.Apply | acsnb-sensor-tiva.c:525-585 | Every command keeps the six-entry shape of the switch, target and capacitance-mode tables. A capacitance-mode command for index 6 writes none of the six entries and records the write past the table as `overrun`. |
| Commands.PatternsExclusive | acsnb-sensor-tiva.c:512-517 | No two of the six command patterns hold at once. |
| Commands.ClassifyMatchesPatterns | acsnb-sensor-tiva.c:512-585 | Each pattern yields its own command, in both directions. A command is bad iff no pattern holds. |
| Commands.SwitchCommandEffect | acsnb-sensor-tiva.c:525-544 | (1,1,1,x) raises all six switch flags. Channel i's target is New iff x == 0 or bit i of x is set. The conversion time and the capacitance modes are unchanged. |
| Commands.HighMaskBitsIgnored | acsnb-sensor-tiva.c:539-544 | Bits 6 and 7 of a nonzero mask select no channel. |
| Commands.AllNewMasks | acsnb-sensor-tiva.c:535-536 | Masks 0x00 and 0xFF both set every target to New. |
| Commands.HighBitsOnlyMaskMeansAllOld | acsnb-sensor-tiva.c:539-544 | Masks 0x40, 0x80 and 0xC0 set every target to Old. |
| Commands.MaskExample | acsnb-sensor-tiva.c:539-544 | Mask 0x05 sets channels 0 and 2 to New and the rest to Old. |
| Commands.AllOldCommandEffect | acsnb-sensor-tiva.c:546-561 | (1,1,0,_) raises all six switch flags and sets every target to Old. Nothing else changes. |
| Commands.ConversionTimeCommands | acsnb-sensor-tiva.c:564-571 | (1,0,1,1) sets the conversion time to 0x1A and (1,0,1,0) to 0x3A. Any other fourth byte changes nothing. |
| Commands.CapsModeCommands | acsnb-sensor-tiva.c:520-579 | As written: (1,2,ch) clears and (1,3,ch) sets the capacitance-mode flag of channel ch when ch < 6, and of channel 0 when ch > 6; no other entry and no other setting changes. For ch == 6 no entry changes and the write lands past the table (`overrun`). |
| Commands.DecoderOverrun | acsnb-sensor-tiva.c:520-579 | The decoder as written writes past the capacitance-mode table exactly for a capacitance-mode command whose third byte is 6. |
| Commands.IntendedDecoderInBounds | acsnb-sensor-tiva.c:520-579 | With the intended clamp no command writes past the table, and (1,2,ch) and (1,3,ch) clear or set exactly the flag of channel `Clamp(ch)`. |
| Commands.BadCommandChangesNothing | acsnb-sensor-tiva.c:581-585 | Four bytes that match none of the six command patterns leave every setting unchanged. |
| Globals.Hub.constructor | acsnb-sensor-tiva.c:1660-1663 | Start-up state: both frames and the mode table are zero, no switch is requested, every target is New, no interrupt is pending, and the conversion time is the default. |
| Globals.Hub.ConversionDone | acsnb-sensor-tiva.c:1616-1625 | A channel's conversion-complete interrupt raises only that channel's flag. |
| Globals.Hub.DecodeCommand | acsnb-sensor-tiva.c:507-587 | The settings become `Apply` of the command `Classify` reads from the first four inbound bytes, with the clamp as written; a write to index 6 is recorded in the ghost `overrun` flag. |
| Globals.Hub.Serve | acsnb-sensor-tiva.c:475-487 | One exchange sends the frame. The decoder runs iff the first inbound byte is nonzero. That byte is 0 afterwards and the other inbound bytes are kept. |
| Globals.Hub.PreloadHeader | acsnb-sensor-tiva.c:624-628 | The frame becomes `WithHeader` of the old frame. |
| Globals.Hub.StoreCapReading | acsnb-sensor-tiva.c:1322-1368 | The frame becomes `WithCapReading` of the old frame. |
| Globals.Hub.StoreHumidity | acsnb-sensor-tiva.c:1459-1468 | The frame becomes `WithHumidity` of the old frame. |
| Globals.Hub.ClearHumidity | acsnb-sensor-tiva.c:843-852 | The frame becomes `WithoutHumidity` of the old frame. |
| Globals.Hub.ClearOnRunFailed | acsnb-sensor-tiva.c:911-937 | The frame becomes `RunFailedFrame` of the old frame. |
| Acquisition.ReadAd7746 | acsnb-sensor-tiva.c:1297-1371 | Succeeds iff the one 6-byte read is acknowledged. It is logged. On success the reading is placed for the given mode; on failure the frame is unchanged. |
| Acquisition.ReadHdc1080 | acsnb-sensor-tiva.c:1433-1486 | Succeeds iff both transfers are acknowledged. A failed read issues only the read. A successful read stores its four bytes before the trigger is issued. |
| Acquisition.NextCap | acsnb-sensor-tiva.c:776-795 | The next mode is always one of the three selections. It is C2D1 when all capacitances are not wanted; otherwise it differs from the current mode. The full cycle is `Properties.NextCapCycle`. |
| Acquisition.Countdown | acsnb-sensor-tiva.c:699-703 | The wait counts down by one and saturates at 0. |
| Acquisition.InitPass | acsnb-sensor-tiva.c:635-681 | Init ends in Start or InitFailed. It changes only the state, hdcInitialized and the bus. |
| Acquisition.WaitPass | acsnb-sensor-tiva.c:696-710 | The wait counts down. The state becomes Init exactly when the wait reaches 0. Nothing else changes. |
| Acquisition.StartPass | acsnb-sensor-tiva.c:714-736 | Start sets cap and capPrev to C2D1, zeroes both timers, enters Running and raises the flag. It leaves the frame alone. |
| Acquisition.SwitchPass | acsnb-sensor-tiva.c:743-750 | A pending switch request is cleared and the bus log grows by exactly the switchPCA9536 transfers that `Run` issues for the requested position, consuming their replies. Without a request nothing changes. |
| Acquisition.HumidityPass | acsnb-sensor-tiva.c:821-856 | With temptime at most 1000 the humidity part changes nothing and touches no bus. Above 1000 it restarts temptime at 0. Either way it changes only temptime, hdcInitialized, the frame and the bus. |
| Acquisition.RetryHumiditySetup | acsnb-sensor-tiva.c:827-833 | The best-effort set-up changes only hdcInitialized and the bus. |
| Acquisition.ReadHumidity | acsnb-sensor-tiva.c:837-854 | The read changes only hdcInitialized, the frame and the bus. |
| Acquisition.TriggerPass | acsnb-sensor-tiva.c:865-893 | The trigger changes only the state (to RunFailed or not at all), capreads and the bus. |
| Acquisition.ReadPass | acsnb-sensor-tiva.c:771-807 | inttime becomes 0, capPrev takes the old cap, cap becomes `NextCap` and the flag is cleared. Beyond that only the state (to RunFailed or not at all), the frame and the bus change. |
| Acquisition.ConversionPass | acsnb-sensor-tiva.c:764-899 | The flag ends cleared, capPrev is the old cap, cap is `NextCap` of it, and inttime ends at 3. The state is kept or becomes RunFailed. The wait, switch request, target, mode flag and conversion time are kept. |
| Acquisition.RunningPass | acsnb-sensor-tiva.c:740-901 | A Running pass always leaves the switch request cleared, and stays in Running or enters RunFailed. |
| Acquisition.RunFailedPass | acsnb-sensor-tiva.c:905-942 | RunFailed arms the wait at 1000, enters RunFailedWait and restores the header. |
| Acquisition.PowerOnPass | acsnb-sensor-tiva.c:598-632 | POR preloads the header and ends, through Init, in Start or InitFailed. |
| Acquisition.InitFailedPass | acsnb-sensor-tiva.c:685-692 | InitFailed arms the wait at 1000 and enters InitFailedWait. |
| Acquisition.Elapse | acsnb-sensor-tiva.c:963-966 | Time passing changes only the two timers. |
| Acquisition.Dispatch | acsnb-sensor-tiva.c:595-961 | The pass of the current state moves only along an edge of the task's state diagram (`Transition`): POR and Init to Start or InitFailed, a failure state to its wait state, a wait state to itself or Init, Start to Running, Running to itself or RunFailed. |
| Acquisition.Step | acsnb-sensor-tiva.c:593-967 | One loop iteration, the pass and the tick, moves only along an edge of the state diagram. |
| Acquisition.Iterate | acsnb-sensor-tiva.c:590-969 | Running the loop over a sequence of filtered values never returns to POR once it has left it. |
| Tasks.Channel.constructor | acsnb-sensor-tiva.c:977-997 | A task starts in POR with inttime 0. Its other fields are whatever the uninitialised record holds. |
| Tasks.Channel.Transfers | acsnb-sensor-tiva.c:1494-1545 | Issuing a transfer list returns 0 or -1 and changes the channel's bus exactly as `Acquisition.Issue`, that is as `Run`. |
| Tasks.Channel.ReadAd7746 | acsnb-sensor-tiva.c:1297-1371 | Returns 0 or -1 and changes the bus and the frame exactly as `Acquisition.ReadAd7746`. |
| Tasks.Channel.ReadHdc1080 | acsnb-sensor-tiva.c:1433-1486 | Returns 0 or -1 and changes the bus and the frame exactly as `Acquisition.ReadHdc1080`. |
| Tasks.Channel.InitPass | acsnb-sensor-tiva.c:635-681 | The Init pass acts as `Acquisition.InitPass`. |
| Tasks.Channel.WaitPass | acsnb-sensor-tiva.c:946-960 | The wait states act as `Acquisition.WaitPass`. |
| Tasks.Channel.StartPass | acsnb-sensor-tiva.c:714-736 | Start acts as `Acquisition.StartPass` and touches no other channel's flag. |
| Tasks.Channel.EnterRunning | acsnb-sensor-tiva.c:729-735 | Both timers become 0, the state becomes Running and only this channel's flag is raised. |
| Tasks.Channel.SwitchPass | acsnb-sensor-tiva.c:743-750 | Acts as `Acquisition.SwitchPass` and clears no other channel's request. |
| Tasks.Channel.HumidityPass | acsnb-sensor-tiva.c:821-856 | Acts as `Acquisition.HumidityPass`. |
| Tasks.Channel.RetryHumiditySetup | acsnb-sensor-tiva.c:827-833 | Acts as `Acquisition.RetryHumiditySetup`. |
| Tasks.Channel.ReadHumidity | acsnb-sensor-tiva.c:837-854 | Acts as `Acquisition.ReadHumidity`. |
| Tasks.Channel.ForgetHumidity | acsnb-sensor-tiva.c:839-852 | The sensor becomes uninitialised and its four frame bytes are zeroed. Nothing else changes. |
| Tasks.Channel.TriggerPass | acsnb-sensor-tiva.c:865-893 | Acts as `Acquisition.TriggerPass`. |
| Tasks.Channel.ReadPass | acsnb-sensor-tiva.c:771-807 | Acts as `Acquisition.ReadPass` and touches no other channel's flag. |
| Tasks.Channel.AdvanceCap | acsnb-sensor-tiva.c:771-798 | inttime becomes 0, capPrev takes cap, cap becomes `NextCap` and only this channel's flag is cleared. |
| Tasks.Channel.ConversionPass | acsnb-sensor-tiva.c:764-899 | Acts as `Acquisition.ConversionPass`. |
| Tasks.Channel.Elapse | acsnb-sensor-tiva.c:963-966 | Both timers advance modulo 2^32. |
| Tasks.Channel.RunningPass | acsnb-sensor-tiva.c:740-901 | Acts as `Acquisition.RunningPass`. Other channels' flags and requests are kept. |
| Tasks.Channel.RunFailedPass | acsnb-sensor-tiva.c:905-942 | Acts as `Acquisition.RunFailedPass`. |
| Tasks.Channel.PowerOnPass | acsnb-sensor-tiva.c:598-632 | Acts as `Acquisition.PowerOnPass`. |
| Tasks.Channel.PreloadHeader | acsnb-sensor-tiva.c:622-631 | The header is written and the state becomes Init. Nothing else changes. |
| Tasks.Channel.InitFailedPass | acsnb-sensor-tiva.c:685-692 | Acts as `Acquisition.InitFailedPass`. |
| Tasks.Channel.Dispatch | acsnb-sensor-tiva.c:595-961 | The state's pass acts as `Acquisition.Dispatch`. Other channels' flags and requests are kept. |
| Tasks.Channel.Step | acsnb-sensor-tiva.c:593-967 | One loop iteration acts as `Acquisition.Step`. Other channels' flags and requests are kept. |
| Properties.StepConfined | acsnb-sensor-tiva.c:590-969 | An iteration changes no byte of another channel's block, and only appends to its bus log. |
| Properties.InitRelayFailure | acsnb-sensor-tiva.c:638-650 | A relay set-up failure ends Init in InitFailed. Only the PCA9536 was addressed. |
| Properties.InitConverterFailure | acsnb-sensor-tiva.c:652-660 | A converter set-up failure ends Init in InitFailed. The HDC1080 was not addressed. |
| Properties.InitHumidityNonFatal | acsnb-sensor-tiva.c:662-673 | With the relay and the converter set up, Init enters Start. hdcInitialized holds iff the HDC1080 set-up succeeded. |
| Properties.PowerOnStep | acsnb-sensor-tiva.c:622-673 | POR falls through into Init. The header is in place and the first relay write is issued in the same iteration. |
| Properties.StartStep | acsnb-sensor-tiva.c:714-736 | Start enters Running with the flag up and cap = capPrev = C2D1. Both timers read 1 after the tick. One trigger is issued and its result is ignored. |
| Properties.TimeoutBeforeFlag | acsnb-sensor-tiva.c:753-761 | inttime > 1000 enters RunFailed with inttime reset. The flag, the modes, capreads and the frame are left alone. |
| Properties.TriggerChoice | acsnb-sensor-tiva.c:865-893 | The temperature trigger is chosen iff capreads was 10 before its increment. A failure enters RunFailed. Only a failed temperature trigger restarts the count at 0. |
| Properties.ConversionModes | acsnb-sensor-tiva.c:771-893 | The read is taken in the old cap. The next trigger is the temperature trigger when capreads is 10 and otherwise selects the new cap. A failed read enters RunFailed, and the pass still triggers. |
| Properties.HumidityRead | acsnb-sensor-tiva.c:835-854 | A fully acknowledged read stores the four bytes. Any failure marks the sensor uninitialised and leaves exactly its four bytes zero. |
| Properties.HumidityRetry | acsnb-sensor-tiva.c:827-833 | An uninitialised sensor is only set up again. The frame is untouched, and the sensor becomes initialised iff both writes succeed. |
| Properties.ZeroingHidesReading | acsnb-sensor-tiva.c:1459-1468 | Zeroing after a store of the humidity leaves the frame as zeroing alone would. |
| Properties.WaitCountdown | acsnb-sensor-tiva.c:946-960 | In a wait state each iteration, whatever its filtered value, lowers the wait by one. The state becomes Init exactly on the iteration where it reaches 0. |
| Properties.FailedStep | acsnb-sensor-tiva.c:905-942 | InitFailed and RunFailed arm the wait at 1000 and enter their wait state. Only RunFailed rewrites the frame. |
| Properties.FailureRecovers | acsnb-sensor-tiva.c:685-710 | After a failure, for any sequence of filtered values, the task spends 1000 iterations in the wait state and is in Init on the next one; the frame is the one the failure state left. |
| Properties.NextCapCycle | acsnb-sensor-tiva.c:776-795 | In all-capacitances mode the selection steps C2D1, C1D0, C2D0 and back, so three steps return to the start and visit all three selections. Any other value continues with C1D0. |
| Properties.RunningIdle | acsnb-sensor-tiva.c:740-764 | A Running iteration without a timeout and without a pending conversion only carries out a pending relay switch; the frame and the state are kept. |
| Properties.StepCapreads | acsnb-sensor-tiva.c:865-878 | An iteration keeps capreads, advances it by one modulo 2^32, or restarts it at 0 after a failed temperature trigger. |
| Properties.RunningCapreads | acsnb-sensor-tiva.c:865-878 | Within Running, capreads changes only as in `StepCapreads`. |
| Properties.NoSecondTemperatureTrigger | acsnb-sensor-tiva.c:865-878 | Once capreads is above 10 it stays above it over any sequence of iterations that cannot wrap it, so no second temperature trigger occurs. |

## Left out

- The floating-point filter and conversions at `acsnb-sensor-tiva.c:1331-1342` are not modelled. The 32-bit `ci` they produce is a parameter of each step. The temperature and humidity floats at 1453-1455 are only printed.
- Opening the bus and the transport, and `System_abort` on failure, are not modelled. The handles are taken as opened.
- Concurrency is not modelled: the semaphore, the interrupt service routines firing between statements, the DMA transport reading the frame without the lock, and the unlocked header preload. Each critical section is one atomic method. The interrupt flag and the switch request are read from the shared arrays at the point the task reads them.
- `Task_sleep` delays are not modelled except through the timer counts. These are the 1 ms tick and the `+3` after a conversion pass.
- `GPIO_clearInt`/`enableInt`/`disableInt`, `System_printf` logging and the LEDs are not modelled.
- The `DEBUG_INTERRUPT` build variant (5000 ms timeouts, only channel 0) is not modelled.
- BIOS start-up is not modelled. Only `main`'s zeroing of both frames and the mode table is kept, as `Hub.constructor`.
- The write to `adGetAllCaps[6]` that the decoder as written makes is recorded as the `overrun` flag of the settings. The model does not say what memory that write changes.
- The `default:` label shared with `tsInit` cannot be reached: the task state is a closed datatype.
- setupAD7746's read of the four calibration bytes is modelled only as a transfer. The bytes are only logged.
- The board support files and `extras.c`, which is entirely excluded by the preprocessor, are not part of this model.
- Tasks.Channel.constructor: the fields the source never initialises (`wait`, `temptime`, `capreads`, `cap`, `cap_prev`, `hdc1080initialized`) are parameters, because their values are whatever the stack held.
- The task record is passed by value. Each task works on its own copy, which is what the `Channel` fields model.

Behaviour that the model keeps as written, and exposes in lemmas:

- RunFailed does not zero the filtered capacitance (`RunFailedFields`, `RunFailedKeepsFilteredCapacitance`).
- A failed read does not end the conversion pass (`ConversionModes`).
- `capreads` triggers a temperature conversion once and then not again until it wraps at 2^32 (`NoSecondTemperatureTrigger`).

## Findings

| source | as written | input that shows it | evidently intended | confidence | as-written member | corrected member |
|---|---|---|---|---|---|---|
| acsnb-sensor-tiva.c:521 | the channel clamp compares with `>` against MAX_SENSORS (6), so index 6 is kept | command bytes (1, 3, 6, 0): the write to `adGetAllCaps[6]` is one past the six-entry table | `>=`, so that every index that is not a channel becomes channel 0 | not executed | Commands.DecoderOverrun | Commands.IntendedDecoderInBounds |
