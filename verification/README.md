# LimePSB-RPCM GPSDO: host test script and VCTCXO tamer driver

This project models two small drivers of the LimePSB-RPCM board's GPS
disciplined oscillator (GPSDO), both of which talk to a register file through
a narrow read/write primitive.

* **The host test script** (`test/test_gpsdo.py`). The script includes:
  * `GPSDODriver`, which reads and writes the 16-bit registers of the
    `gpsdocfg` core through 4-byte SPI frames.
  * The commands built on the driver: the monitor loop, the register dump,
    reset, enable with its configuration plan, and disable.
  * `main`, which runs the selected commands in a fixed order and always
    closes the device.
* **The NEO430 firmware's VCTCXO tamer driver**
  (`src/neo430/sw/example/limePSB_RPCM/vctcxo_tamer.c`). The driver:
  * keeps a cached copy of the tamer's 8-bit control register, changes it bit
    by bit and writes every change through over the Wishbone bus;
  * sequences the tune modes;
  * assembles 32-bit counts from byte reads;
  * splits the DAC value into two bytes;
  * fills the interrupt packet for the main loop.

## How the model is built

* **The SPI device** is an oracle `Device`. Given the position of a transfer
  in the trace and the frame the host shifts out, it yields the frame shifted
  back.
  * Nothing is assumed about it, so every property below holds for any device
    behaviour. That includes registers that change between two reads and a
    device that ignores writes.
  * The answers a plain address-to-value register map gives along one run form such an oracle.
* **The trace.** Everything the script does to the outside world is appended
  to one trace (`Driver.Event`): opening the device, SPI transfers, sleeps,
  printed lines and closing the device.
  * Each command is a method of the `Commands` module that takes the
    `GpsdoDriver` as a parameter, as the script's functions take the driver.
    It is proved to append exactly what a function of the trace before it
    describes.
  * The properties are lemmas about those functions. They cover:
    * the requests put on the bus (`Driver.Requests`);
    * how often a pause or the header occurs (`Driver.Occurrences`);
    * whether the device is opened or closed (`Properties.Quiet`).
* **Host arithmetic.** The script's unbounded Python integers are Dafny
  `int`.
  * `<<` and `>>` are multiplication by, and floor division by, a power of
    two.
  * The floating-point arithmetic of `enable_gpsdo` is evaluated on exact
    reals, with `int()`, `round()` and `math.isclose` written out.
* **The firmware bus** is an oracle `Bus`. Given the position of an access
  and its address, it yields the byte a read returns. That also covers a read
  that times out and returns 0.
* **Firmware state.** The `TamerDriver` class holds:
  * the cached control register (`ctrl`, a `bv8`);
  * the trace of accesses.

  The interrupt packet is a `PacketBuffer` object whose fields the routine
  updates.
* **Firmware constants.** The `VT_*` addresses and masks and the tune-mode
  values are defined in vctcxo_tamer.h, which is not part of this model. They
  are the fields of a `Tamer.Config` parameter. The properties that need the
  masks not to overlap (`Tamer.MasksDisjoint`) state this as a precondition.

## Model

| member | source | states |
|---|---|---|
| Bits.GetField | test/test_gpsdo.py:54-56 | get_field yields a value of `size` bits: `0 <= r < 2^size` |
| Bits.GetFieldBit | test/test_gpsdo.py:54-56 | bit `i` of the field is bit `offset + i` of the register for `i < size`, and 0 beyond |
| Bits.SetFieldShape | test/test_gpsdo.py:59-61 | set_field rebuilds the register from the bits above the field, the low `size` bits of `x` and the bits below the field |
| Bits.SetField | test/test_gpsdo.py:59-61 | set_field on unbounded integers; its meaning, each bit in and out of the field, is stated by Bits.SetFieldBit and its round trip with get_field by Bits.GetSetField |
| Bits.SetFieldBit | test/test_gpsdo.py:59-61 | inside the mask, bit `i` of set_field's result is bit `i - offset` of `x`; outside the mask it is bit `i` of `v`, so every other bit is unchanged |
| Bits.GetSetField | test/test_gpsdo.py:54-61 | field round trip: `get_field(set_field(v, o, s, x), o, s) == x & ((1 << s) - 1)` |
| Bits.SetGetField | test/test_gpsdo.py:54-61 | writing back the field a register already holds leaves the register unchanged |
| Bits.Concat | test/test_gpsdo.py:81 | `(hi << k) \| lo` for a `lo` of `k` bits has `lo` as its low `k` bits |
| Bits.ConcatBit | test/test_gpsdo.py:93 | the bits of `(hi << k) \| lo` are `lo`'s below `k` and `hi`'s from `k` on |
| Bits.ConcatFields | test/test_gpsdo.py:117-118 | the accuracy field shifted over the state field gives the low eight bits of STATUS |
| Wire.MasksAreFields | test/test_gpsdo.py:79-86 | `x & 0xFF`, `(x >> 8) & 0xFF` and `x & 0xFFFF` are the bit fields 0-7, 8-15 and 0-15 |
| Wire.ReadRequest | test/test_gpsdo.py:79 | the read frame asks to read the register at `addr & 0xFF` |
| Wire.WriteRequest | test/test_gpsdo.py:86 | the write frame asks to write `value & 0xFFFF` to `addr & 0xFF`, so a wider value is cut silently |
| Wire.ResponseValue | test/test_gpsdo.py:81 | `(rx[2] << 8) \| rx[3]` is below 2^16, with `rx[2]` as its high byte and `rx[3]` as its low byte |
| Wire.WriteThenRespond | test/test_gpsdo.py:81-86 | a 16-bit value sent in the two value bytes of a write frame and read back from them is unchanged |
| Wire.FrameExamples | test/test_gpsdo.py:79-86 | the concrete frames of a write of 0x1234 to 0x11 and of a read of 0x05 |
| Client.Signed32 | test/test_gpsdo.py:93-95 | the joined value lies in [-2^31, 2^31), is congruent to `(high << 16) \| low` modulo 2^32, and is negative exactly when bit 15 of `high` is set |
| Client.Signed32OfHalves | test/test_gpsdo.py:89-96 | splitting a signed 32-bit value into its two 16-bit halves and joining them gives the value back |
| Client.Signed32Examples | test/test_gpsdo.py:93-95 | (0xFFFF, 0xFFFF) gives -1, (0x0000, 0x8000) gives -2^31, (0x0001, 0x0000) gives 1 |
| Client.DecodeStatus | test/test_gpsdo.py:114-126 | decoding is total. The state is bits 0-3 and the accuracy bits 4-7, each labelled or "Unknown (n)" only for codes the table does not name. TPULSE is bit 8 |
| Client.PackedStatusFields | test/test_gpsdo.py:117-119 | a value packed from TPULSE, accuracy and state has those three fields |
| Client.DecodeEncodeStatus | test/test_gpsdo.py:117-121 | the labels decoded from the packed fields of a status are that status again |
| Client.EncodeDecodeStatus | test/test_gpsdo.py:117-121 | the decoded status determines bits 0-8 of STATUS, and nothing else of it |
| Client.IsEnabled | test/test_gpsdo.py:131 | `bool(control & 0x0001)` is true exactly when bit 0 is set |
| Client.StateOf | test/test_gpsdo.py:120 | get_status's state label: it carries the code back, and is "Unknown (n)" exactly when the code is neither 0 nor 1 |
| Client.AccuracyOf | test/test_gpsdo.py:121 | get_status's accuracy label: it carries the code back, and is "Unknown (n)" exactly when the field value is 4 or more |
| Client.WithEnable | test/test_gpsdo.py:136 | the CONTROL value set_enabled writes, set_field of EN over the value read; its bits are stated by Client.WithEnableBits |
| Client.WithEnableBits | test/test_gpsdo.py:133-137 | set_enabled's value has bit 0 equal to `enable` and every other bit as read. It reads back as `enable` and stays within 16 bits |
| Client.WithEnableExample | test/test_gpsdo.py:136 | a CONTROL of 0x02 is written back as 0x03 when enabling |
| Registers.DumpOrderAscending | test/test_gpsdo.py:186-205 | the dump list is the 18 addresses 0x00 to 0x11 in ascending order |
| Registers.Name | test/test_gpsdo.py:177-209 | a dump line shows "UNKNOWN" exactly for an address outside 0x00..0x11 |
| Driver.RxValue | test/test_gpsdo.py:81 | the value read_register returns is a 16-bit value |
| Driver.Reads | test/test_gpsdo.py:77-82 | one transfer per register read |
| Driver.Writes | test/test_gpsdo.py:84-87 | one transfer per register write |
| Driver.ReadRequests | test/test_gpsdo.py:79 | the read requests of a list of registers, each address cut to 8 bits |
| Driver.WriteRequests | test/test_gpsdo.py:86 | the write requests of a list of pairs, each address cut to 8 bits and each value to 16 |
| Driver.RequestsOfReads | test/test_gpsdo.py:77-80 | reading a list of registers asks exactly for those registers, in order |
| Driver.RequestsOfWrites | test/test_gpsdo.py:84-87 | writing a list of pairs asks exactly for those writes, in order |
| Driver.ReadEvent | test/test_gpsdo.py:79-80 | the `xfer2` of read_register: the read frame and the device's answer to it; the frame and the value it yields are stated by Wire.ReadRequest, Wire.ResponseValue and Driver.Reads |
| Driver.WriteEvent | test/test_gpsdo.py:86-87 | the `xfer2` of write_register: the write frame and the device's answer to it; the frame is stated by Wire.WriteRequest and Driver.Writes |
| Driver.SetEnabledEvents | test/test_gpsdo.py:133-137 | the events of set_enabled, a read of CONTROL then a write of it; what is read and written is stated by Driver.SetEnabledWrites |
| Driver.SetEnabledWrites | test/test_gpsdo.py:133-137 | set_enabled reads CONTROL once, then writes CONTROL once. The written value reads back as `enable` and keeps every other bit as read |
| Driver.GpsdoDriver.constructor | test/test_gpsdo.py:71-75 | the driver opens the device, and nothing else has happened |
| Driver.GpsdoDriver.ReadRegister | test/test_gpsdo.py:77-82 | one read transfer of `addr`, and the value is the response's last two bytes |
| Driver.GpsdoDriver.WriteRegister | test/test_gpsdo.py:84-87 | one write transfer of `(addr, value)` |
| Driver.GpsdoDriver.GetSigned32 | test/test_gpsdo.py:89-96 | reads the low register, then the high one, and returns their sign-extended join |
| Driver.GpsdoDriver.Get1sError | test/test_gpsdo.py:98-100 | get_signed_32bit over the 1 s error pair |
| Driver.GpsdoDriver.Get10sError | test/test_gpsdo.py:102-104 | get_signed_32bit over the 10 s error pair |
| Driver.GpsdoDriver.Get100sError | test/test_gpsdo.py:106-108 | get_signed_32bit over the 100 s error pair |
| Driver.GpsdoDriver.GetDacValue | test/test_gpsdo.py:110-112 | one read of the DAC register, whose value is returned |
| Driver.GpsdoDriver.GetStatus | test/test_gpsdo.py:114-126 | one read of STATUS, decoded |
| Driver.GpsdoDriver.GetEnabled | test/test_gpsdo.py:128-131 | one read of CONTROL; the result is its bit 0 |
| Driver.GpsdoDriver.SetEnabled | test/test_gpsdo.py:133-137 | the read-modify-write of CONTROL |
| Driver.GpsdoDriver.Close | test/test_gpsdo.py:139-141 | closes the device |
| Planner.Trunc | test/test_gpsdo.py:223-225 | `int(x)` truncates toward zero |
| Planner.RoundHalfEven | test/test_gpsdo.py:228 | `round(x)` is within 1/2 of `x`, and a tie goes to the even integer |
| Planner.PlanFor | test/test_gpsdo.py:219-230 | the tolerances are `tol_1s`, 10 times it and 100 times it. `tol_1s` is within 1/2 of `MHz * ppm`, and even when `MHz * ppm` lies exactly halfway between two integers. Each target is `int(N * freq)`, truncated toward zero for a negative frequency as for a positive one. CLK_SEL is 1 exactly when the frequency is close to 10 MHz |
| Planner.IsClose | test/test_gpsdo.py:248 | `math.isclose` with its default relative tolerance 1e-9: equal values are close, and only 0 is close to 0 |
| Planner.ControlValue | test/test_gpsdo.py:251-252 | the CONTROL value enable_gpsdo builds with two set_field calls from 0; its value is stated by Planner.ControlValueIs |
| Planner.ControlValueIs | test/test_gpsdo.py:251-252 | CONTROL is built from 0 rather than read back: it is `(clk_sel << 1) \| 1` |
| Planner.IntervalWrites | test/test_gpsdo.py:233-235 | one interval writes its target's low half, then its high half, then its tolerance |
| Planner.PlanWrites | test/test_gpsdo.py:233-253 | enable_gpsdo writes registers 0x01 to 0x09 in ascending order, then CONTROL last |
| Planner.TargetHalvesJoin | test/test_gpsdo.py:233-234 | the two 16-bit halves of a target join back into its low 32 bits, so a target below 2^32 arrives intact |
| Planner.DefaultPlan | test/test_gpsdo.py:219-248 | 30.72 MHz at 0.1 ppm gives targets 30,720,000, 307,200,000 and 3,072,000,000, tolerances 3, 30 and 300, and CLK_SEL 0 |
| Planner.TieRoundsToEven | test/test_gpsdo.py:228 | 25 MHz at 0.1 ppm gives `tol_1s` 2: the tie at 2.5 goes to the even integer |
| Planner.TenMegahertzPlan | test/test_gpsdo.py:248 | a 10 MHz reference selects CLK_SEL = 1 |
| Planner.TargetsOfWholeHertz | test/test_gpsdo.py:223-225 | for a whole number of Hz, the 10 s and 100 s targets are 10 and 100 times the 1 s target |
| Planner.TargetsOfFractionalHertz | test/test_gpsdo.py:223-225 | for a fractional frequency the 10 s target need not be 10 times the 1 s target |
| Commands.SnapshotValues | test/test_gpsdo.py:155-163 | a monitor line shows exactly what the six getters return |
| Commands.TakeSnapshot | test/test_gpsdo.py:155-160 | the six getters read CONTROL, the three error pairs, the DAC value and STATUS, in that order |
| Commands.SnapshotOf | test/test_gpsdo.py:155-163 | the values one monitor line shows, decoded from its nine reads; Commands.SnapshotValues and Commands.TakeSnapshot state them |
| Commands.MonitoringEnds | test/test_gpsdo.py:154 | the loop stops on its own: a bound on the lines, or a zero banner interval that raises after the first line. Commands.RunMonitoring requires it |
| Commands.MonitoringRaises | test/test_gpsdo.py:168 | `dump_count % banner_interval` raises ZeroDivisionError exactly when a line is printed with a zero interval; Commands.RunMonitoring reports failure exactly then |
| Commands.MonitorLoop | test/test_gpsdo.py:154-172 | the events of the while loop from a given count; Properties.MonitorLoopCons and Properties.MonitorLoopFacts state its unrolling and its reads and pauses |
| Commands.MonitorStep | test/test_gpsdo.py:155-172 | the events of one monitor line; their reads, pause and header are stated by Properties.MonitorStepFacts and Properties.MonitorStepHeaders |
| Commands.Monitoring | test/test_gpsdo.py:145-174 | the events of run_monitoring; its reads and pauses are stated by Properties.MonitoringRequests and Properties.MonitoringPauses |
| Commands.DumpPre | test/test_gpsdo.py:182-184 | what precedes a dump: nothing for the first, a sleep and the dump title for the others; Properties.DumpPreFacts states it |
| Commands.DumpLoop | test/test_gpsdo.py:181-210 | the events of the for loop from dump `i + 1`; Properties.DumpLoopFacts states its reads and pauses |
| Commands.Dump | test/test_gpsdo.py:176-210 | the events of dump_registers; its reads and pauses are stated by Properties.DumpFacts |
| Commands.Reset | test/test_gpsdo.py:212-217 | the events of reset_gpsdo; they are stated by Properties.ResetSplit, Properties.ResetRequests and Properties.ResetPauses |
| Commands.Enable | test/test_gpsdo.py:219-256 | the events of enable_gpsdo; its writes are stated by Properties.EnableRequests and Properties.PlanRequests |
| Commands.Disable | test/test_gpsdo.py:258-261 | the events of disable_gpsdo; they are stated by Properties.DisableFacts |
| Commands.RunEnds | test/test_gpsdo.py:300-302 | main stops on its own when the monitor, if selected, does; Commands.RunMain requires it |
| Commands.RunRaises | test/test_gpsdo.py:300-304 | main ends with ZeroDivisionError exactly when the selected monitor raises it; Commands.RunMain reports failure exactly then |
| Commands.DumpStage | test/test_gpsdo.py:283-286 | the dump's events when `--dump` is given, none otherwise; Commands.MainDump appends exactly these events, and Properties.StagesQuiet shows they neither open nor close the device |
| Commands.EnableStage | test/test_gpsdo.py:288-290 | the enable's events when `--enable` is given, none otherwise; Commands.MainEnable appends exactly these events, and Properties.StagesQuiet shows they neither open nor close the device |
| Commands.DisableStage | test/test_gpsdo.py:292-294 | the disable's events when `--disable` is given, none otherwise; Commands.MainDisable appends exactly these events, and Properties.StagesQuiet shows they neither open nor close the device |
| Commands.ResetStage | test/test_gpsdo.py:296-298 | the reset's events when `--reset` is given, none otherwise; Commands.MainReset appends exactly these events, and Properties.StagesQuiet shows they neither open nor close the device |
| Commands.CheckStage | test/test_gpsdo.py:300-302 | the monitor's events when `--check` is given, none otherwise; Commands.MainCheck appends exactly these events, and Properties.StagesQuiet shows they neither open nor close the device |
| Commands.Run | test/test_gpsdo.py:265-304 | the events of main; their framing by open and close is stated by Properties.RunFramed |
| Commands.MonitoringStart | test/test_gpsdo.py:149-154 | the monitor prints its title and the header, then enters the loop |
| Commands.MonitorAdvance | test/test_gpsdo.py:154-172 | after one more iteration, the remaining iterations start from the trace it left |
| Commands.MonitorIteration | test/test_gpsdo.py:155-172 | one loop body: the getters and the line, the header when the new count is a multiple of the interval, then a pause unless this was the last line. It fails exactly when the interval is 0 |
| Commands.RunMonitoring | test/test_gpsdo.py:145-174 | run_monitoring is the monitor's event function, and it ends with ZeroDivisionError exactly when the interval is 0 and a line was printed |
| Commands.DumpPass | test/test_gpsdo.py:207-210 | one dump pass is a read and a printed line per register |
| Commands.DumpAdvance | test/test_gpsdo.py:181-210 | after one more dump, the remaining dumps start from the trace it left |
| Commands.DumpPassOver | test/test_gpsdo.py:207-210 | the inner loop of dump_registers is one pass |
| Commands.DumpRegisters | test/test_gpsdo.py:176-210 | dump_registers is the dump's event function |
| Commands.ResetGpsdo | test/test_gpsdo.py:212-217 | reset_gpsdo is the reset's event function |
| Commands.ConfigureInterval | test/test_gpsdo.py:232-245 | one configuration block writes the interval's three registers |
| Commands.EnableGpsdo | test/test_gpsdo.py:219-256 | enable_gpsdo is the plan's writes followed by the report line |
| Commands.DisableGpsdo | test/test_gpsdo.py:258-261 | disable_gpsdo is the disable's event function |
| Commands.DumpCount | test/test_gpsdo.py:285 | main asks for `num` dumps when it is positive and for exactly one otherwise |
| Commands.RunOfStages | test/test_gpsdo.py:280-304 | opening, then the five stages in order, then closing, is the run of main |
| Commands.MainDump | test/test_gpsdo.py:284-286 | main's dump block, or nothing when it is not selected |
| Commands.MainEnable | test/test_gpsdo.py:289-290 | main's enable block, or nothing when it is not selected |
| Commands.MainDisable | test/test_gpsdo.py:293-294 | main's disable block, or nothing when it is not selected |
| Commands.MainReset | test/test_gpsdo.py:297-298 | main's reset block, or nothing when it is not selected |
| Commands.MainCheck | test/test_gpsdo.py:301-302 | main's check block, which fails exactly when the monitor raises |
| Commands.RunMain | test/test_gpsdo.py:265-304 | main produces the run's trace, and reports failure exactly when the monitor raises |
| Properties.SnapshotRequests | test/test_gpsdo.py:155-160 | one monitor line asks for CONTROL, the three error pairs, the DAC value and STATUS, in that order |
| Properties.MonitorStepFacts | test/test_gpsdo.py:155-172 | one monitor line reads the nine snapshot registers and nothing else. It pauses exactly once when it is not the last line and the interval is not 0. It ends in that pause, and it neither opens nor closes the device |
| Properties.MonitorStepHeaders | test/test_gpsdo.py:168-169 | line k is followed by the header exactly when `k % banner_interval == 0` |
| Properties.StepTailFacts | test/test_gpsdo.py:163-172 | after its reads, a line holds no transfer, one pause exactly when more lines follow, and the header exactly when it is due |
| Properties.MonitorLoopCons | test/test_gpsdo.py:154-172 | a loop that goes on is one more iteration followed by the loop from the next count |
| Properties.MonitorLoopFacts | test/test_gpsdo.py:154-172 | the remaining iterations are that many snapshot reads, with a pause between two lines and none after the last |
| Properties.MonitoringSplit | test/test_gpsdo.py:149-172 | run_monitoring is its two header lines followed by its lines |
| Properties.MonitoringRequests | test/test_gpsdo.py:145-172 | run_monitoring only reads: `num_dumps` snapshots, or one when the interval is 0 |
| Properties.MonitoringPauses | test/test_gpsdo.py:171-172 | run_monitoring pauses `lines - 1` times, never after the last line, and leaves the device open |
| Properties.DumpOrderRequests | test/test_gpsdo.py:186-208 | a dump pass asks for registers 0x00 to 0x11 in ascending order |
| Properties.DumpPassFacts | test/test_gpsdo.py:207-210 | a pass reads its addresses in order and neither pauses nor closes the device |
| Properties.DumpPassesCons | test/test_gpsdo.py:181-210 | a pass with what precedes it, followed by `k - 1` passes, gives `k` passes and their pauses |
| Properties.DumpPreFacts | test/test_gpsdo.py:182-184 | before a dump other than the first there is exactly one pause and no transfer |
| Properties.DumpLoopFacts | test/test_gpsdo.py:181-210 | dumps `i+1` to `n` are full passes, with a pause before each but the first |
| Properties.DumpFacts | test/test_gpsdo.py:176-210 | dump_registers reads the 18 registers once per dump and pauses `n - 1` times. A count that is not positive prints the title alone |
| Properties.ResetSplit | test/test_gpsdo.py:212-217 | reset_gpsdo is a report, clearing EN, a pause, setting EN and a report |
| Properties.ResetRequests | test/test_gpsdo.py:212-217 | reset reads and writes CONTROL twice: the first write has EN clear, the second EN set, with the other bits as read |
| Properties.ResetPauses | test/test_gpsdo.py:215 | reset pauses exactly once and leaves the device open |
| Properties.ControlWritten | test/test_gpsdo.py:251-253 | the CONTROL value enable writes fits in 16 bits and arrives as `(clk_sel << 1) \| 1` |
| Properties.IntervalRequestsOf | test/test_gpsdo.py:233-245 | an interval's writes arrive as the low half, the high half cut to 16 bits, and the tolerance cut to 16 bits |
| Properties.PlanRequests | test/test_gpsdo.py:233-253 | a configuration's writes arrive as the three intervals in order, then CONTROL |
| Properties.EnableRequests | test/test_gpsdo.py:219-256 | enable_gpsdo asks for exactly the configuration's writes and reads nothing |
| Properties.WrittenTargetsJoin | test/test_gpsdo.py:233-234 | the two halves written for a target join back into its low 32 bits |
| Properties.DisableFacts | test/test_gpsdo.py:258-261 | disable_gpsdo writes 0 to CONTROL and nothing else |
| Properties.StagesQuiet | test/test_gpsdo.py:283-302 | no command opens or closes the device |
| Properties.RunFramed | test/test_gpsdo.py:280-304 | main opens the device first and closes it last, once each, whichever commands are selected and also when the monitor raises |
| Tamer.Has | src/neo430/sw/example/limePSB_RPCM/vctcxo_tamer.c:198-200 | the `(error_status & flag) ? true : false` test of the interrupt routine; Tamer.TamerDriver.Isr states the flags it sets |
| Tamer.Inc | src/neo430/sw/example/limePSB_RPCM/vctcxo_tamer.c:153-156 | `offset++` on a `uint8_t`, wrapping from 0xFF to 0x00; Tamer.CountReadsAddresses states the addresses it walks |
| Tamer.Recognised | src/neo430/sw/example/limePSB_RPCM/vctcxo_tamer.c:101-110 | the modes set_tune_mode's first switch accepts; for any other mode Tamer.TuneModeSteps writes nothing |
| Tamer.InterruptMode | src/neo430/sw/example/limePSB_RPCM/vctcxo_tamer.c:126-130 | the modes for which set_tune_mode re-enables the interrupt; Tamer.TuneModeInterrupt states it |
| Tamer.SetBits | src/neo430/sw/example/limePSB_RPCM/vctcxo_tamer.c:74 | the `\|=` of the control cache; which bits it turns on is stated by Tamer.SetClearBits |
| Tamer.ClearBits | src/neo430/sw/example/limePSB_RPCM/vctcxo_tamer.c:76 | the `&= ~` of the control cache; which bits it turns off is stated by Tamer.SetClearBits |
| Tamer.ModeBits | src/neo430/sw/example/limePSB_RPCM/vctcxo_tamer.c:115 | the tuning-mode bits `((uint8_t) mode) << 6` as C computes them: the cast keeps the mode modulo 256, the shift multiplies the promoted `int` by 64, and the store into the 8-bit cache keeps the result modulo 256; their position and cut are stated by Tamer.ModeBitsField |
| Tamer.ModeBitsValue | src/neo430/sw/example/limePSB_RPCM/vctcxo_tamer.c:115 | of the cast, shifted and stored mode only `64 * (mode % 4)` survives |
| Tamer.SetClearBits | src/neo430/sw/example/limePSB_RPCM/vctcxo_tamer.c:72-92 | `\|=` turns the mask's bits on and `&= ~` turns them off, and neither touches any other bit |
| Tamer.SetTurnsOn | src/neo430/sw/example/limePSB_RPCM/vctcxo_tamer.c:74 | `c \| m` has every bit of `m` set |
| Tamer.SetKeepsOthers | src/neo430/sw/example/limePSB_RPCM/vctcxo_tamer.c:74 | `c \| m` keeps every bit outside `m` |
| Tamer.ClearTurnsOff | src/neo430/sw/example/limePSB_RPCM/vctcxo_tamer.c:76 | `c & ~m` has every bit of `m` clear |
| Tamer.ClearKeepsOthers | src/neo430/sw/example/limePSB_RPCM/vctcxo_tamer.c:76 | `c & ~m` keeps every bit outside `m` |
| Tamer.ModeBitsField | src/neo430/sw/example/limePSB_RPCM/vctcxo_tamer.c:115 | `((uint8_t) mode) << 6` lies in bits 6 and 7, and for every mode it equals the bits of `mode % 4`: only the two lowest bits survive |
| Tamer.TuneModeSteps | src/neo430/sw/example/limePSB_RPCM/vctcxo_tamer.c:101-111 | a mode outside the three cases writes nothing, and a recognised mode writes something |
| Tamer.ModeSequence | src/neo430/sw/example/limePSB_RPCM/vctcxo_tamer.c:113-135 | the sequence writes three values, one more on release and one more on re-enable |
| Tamer.ModeSequenceInterrupt | src/neo430/sw/example/limePSB_RPCM/vctcxo_tamer.c:105-135 | given non-overlapping masks, the sequence ends with the interrupt enabled exactly when re-enabling is asked |
| Tamer.ModeSequenceReset | src/neo430/sw/example/limePSB_RPCM/vctcxo_tamer.c:118-124 | given non-overlapping masks, the sequence ends with the counters released exactly when releasing is asked |
| Tamer.ModeSequenceTune | src/neo430/sw/example/limePSB_RPCM/vctcxo_tamer.c:113-116 | given non-overlapping masks, the sequence ends with the tune field equal to the shifted mode's bits |
| Tamer.ModeSequenceMode | src/neo430/sw/example/limePSB_RPCM/vctcxo_tamer.c:115 | given non-overlapping masks, the sequence ends with every bit of the shifted mode set |
| Tamer.TuneModeValues | src/neo430/sw/example/limePSB_RPCM/vctcxo_tamer.c:105-135 | the cache values of the five steps, as the calls compute them, are those of TuneModeSteps |
| Tamer.TuneModeTrace | src/neo430/sw/example/limePSB_RPCM/vctcxo_tamer.c:99-138 | the writes and the cache the calls leave behind are the writes of TuneModeSteps and its last value |
| Tamer.TuneModeLength | src/neo430/sw/example/limePSB_RPCM/vctcxo_tamer.c:105-135 | a recognised mode writes 3, 4 or 5 values: one more when the mode is not 0, one more in an interrupt mode |
| Tamer.TuneModeOrder | src/neo430/sw/example/limePSB_RPCM/vctcxo_tamer.c:105-124 | the first write disables the interrupt and the third puts the counters into reset. For a mode other than 0 the fourth releases them |
| Tamer.ModeDisjoint | src/neo430/sw/example/limePSB_RPCM/vctcxo_tamer.c:115 | the shifted mode shares no bit with the reset and interrupt-enable masks |
| Tamer.TuneModeInterrupt | src/neo430/sw/example/limePSB_RPCM/vctcxo_tamer.c:126-135 | given disjoint masks, a recognised mode ends with the interrupt enabled exactly for 1 PPS and 10 MHz |
| Tamer.TuneModeCounters | src/neo430/sw/example/limePSB_RPCM/vctcxo_tamer.c:118-124 | given disjoint masks, a recognised mode ends with the counters in reset exactly when the mode is 0 |
| Tamer.TuneModeField | src/neo430/sw/example/limePSB_RPCM/vctcxo_tamer.c:113-116 | given disjoint masks, a recognised mode ends with the tune field holding `mode << 6` |
| Tamer.TuneModeBitsSet | src/neo430/sw/example/limePSB_RPCM/vctcxo_tamer.c:115 | given disjoint masks, a recognised mode ends with every bit of `mode << 6` set |
| Tamer.Assemble | src/neo430/sw/example/limePSB_RPCM/vctcxo_tamer.c:153-156 | the 32-bit word read_count builds from four bytes; its layout is stated by Tamer.AssembleLittleEndian |
| Tamer.AssembleLittleEndian | src/neo430/sw/example/limePSB_RPCM/vctcxo_tamer.c:153-156 | the assembled word holds the four bytes little-endian, each recovered from its own eight bits |
| Tamer.Int32 | src/neo430/sw/example/limePSB_RPCM/vctcxo_tamer.c:145-158 | the `int32_t` result lies in [-2^31, 2^31) and is congruent to the 32-bit pattern |
| Tamer.CountAt | src/neo430/sw/example/limePSB_RPCM/vctcxo_tamer.c:140-159 | the count read_count returns from four reads; Tamer.TamerDriver.ReadCount returns it, and Tamer.AssembleLittleEndian states its layout |
| Tamer.CountReads | src/neo430/sw/example/limePSB_RPCM/vctcxo_tamer.c:153-156 | read_count makes four reads |
| Tamer.CountReadsAddresses | src/neo430/sw/example/limePSB_RPCM/vctcxo_tamer.c:144-156 | the four reads are of `a`, `a+1`, `a+2` and `a+3` in that order, wrapping within 8 bits |
| Tamer.LowByte | src/neo430/sw/example/limePSB_RPCM/vctcxo_tamer.c:166 | the low byte trim_dac sends; that it joins with the high byte back into the value is stated by Tamer.DacBytesJoin |
| Tamer.HighByte | src/neo430/sw/example/limePSB_RPCM/vctcxo_tamer.c:167 | the high byte trim_dac sends; that it joins with the low byte back into the value is stated by Tamer.DacBytesJoin |
| Tamer.DacBytesJoin | src/neo430/sw/example/limePSB_RPCM/vctcxo_tamer.c:166-167 | `msb << 8 \| lsb == val` |
| Tamer.IsrAccesses | src/neo430/sw/example/limePSB_RPCM/vctcxo_tamer.c:184-203 | the interrupt routine makes 16 accesses |
| Tamer.IsrTrace | src/neo430/sw/example/limePSB_RPCM/vctcxo_tamer.c:184-203 | the accesses the routine's calls append one after another are IsrAccesses |
| Tamer.IsrCtrl | src/neo430/sw/example/limePSB_RPCM/vctcxo_tamer.c:184-187 | the control cache after the interrupt routine's two calls; its bits are stated by Tamer.IsrCtrlFacts |
| Tamer.IsrCtrlFacts | src/neo430/sw/example/limePSB_RPCM/vctcxo_tamer.c:184-187 | the routine leaves the interrupt disabled and the counters in reset in the cache |
| Tamer.IsrClears | src/neo430/sw/example/limePSB_RPCM/vctcxo_tamer.c:203 | the last access writes the cache to the control register with the clear bits set and no other bit changed |
| Tamer.IsrAccessesFacts | src/neo430/sw/example/limePSB_RPCM/vctcxo_tamer.c:184-203 | the 15th access reads the status byte, and every write goes to the control register |
| Tamer.PacketBuffer.Fill | src/neo430/sw/example/limePSB_RPCM/vctcxo_tamer.c:190-200 | the three counts and three flags take the given values, and `ready` is untouched |
| Tamer.PacketBuffer.MarkReady | src/neo430/sw/example/limePSB_RPCM/vctcxo_tamer.c:206 | `ready` becomes true, and the other fields are untouched |
| Tamer.TamerDriver.constructor | src/neo430/sw/example/limePSB_RPCM/vctcxo_tamer.c:10 | the cache starts at 0x00 |
| Tamer.TamerDriver.Read | src/neo430/sw/example/limePSB_RPCM/vctcxo_tamer.c:19-43 | one read access, returning the bus's byte (0 on timeout), with the cache untouched |
| Tamer.TamerDriver.Write | src/neo430/sw/example/limePSB_RPCM/vctcxo_tamer.c:45-70 | one write access, with the cache untouched |
| Tamer.TamerDriver.ResetCounters | src/neo430/sw/example/limePSB_RPCM/vctcxo_tamer.c:72-81 | sets or clears the reset bits in the cache, then writes the new cache to the control address |
| Tamer.TamerDriver.EnableIsr | src/neo430/sw/example/limePSB_RPCM/vctcxo_tamer.c:83-92 | sets or clears the interrupt-enable bits in the cache, then writes the new cache to the control address |
| Tamer.TamerDriver.ClearIsr | src/neo430/sw/example/limePSB_RPCM/vctcxo_tamer.c:94-97 | writes `cache \| VT_CTRL_IRQ_CLR` and leaves the cache unchanged |
| Tamer.TamerDriver.SetTuneMode | src/neo430/sw/example/limePSB_RPCM/vctcxo_tamer.c:99-138 | appends the control writes of TuneModeSteps, and the cache ends as the last one. For an unrecognised mode there are no writes and the cache is unchanged |
| Tamer.TamerDriver.WriteTuneField | src/neo430/sw/example/limePSB_RPCM/vctcxo_tamer.c:113-116 | clears the tune field, ors in the shifted mode, and writes the cache |
| Tamer.TamerDriver.ReadCount | src/neo430/sw/example/limePSB_RPCM/vctcxo_tamer.c:140-159 | four reads from `addr` upwards, returning their little-endian `int32_t` |
| Tamer.TamerDriver.TrimDacWrite | src/neo430/sw/example/limePSB_RPCM/vctcxo_tamer.c:161-176 | writes `val & 0xFF` to the first DAC address, then `val >> 8` to the second. `cmd` is ignored and the cache untouched |
| Tamer.TamerDriver.Isr | src/neo430/sw/example/limePSB_RPCM/vctcxo_tamer.c:179-209 | the packet's counts are those of the three count reads. Each flag is whether its status bit is set in the byte read. The packet is ready, and the accesses and the cache are those of IsrAccesses and IsrCtrl |
| Tamer.TamerDriver.Init | src/neo430/sw/example/limePSB_RPCM/vctcxo_tamer.c:212-217 | clears the state register, then selects the 1 PPS mode |
| Tamer.TamerDriver.Dis | src/neo430/sw/example/limePSB_RPCM/vctcxo_tamer.c:219-225 | selects the disabled mode, then clears the state register |
| Tamer.InitFacts | src/neo430/sw/example/limePSB_RPCM/vctcxo_tamer.c:212-217 | after init the interrupt is enabled, and the counters run unless the 1 PPS mode value is 0 |
| Tamer.DisFacts | src/neo430/sw/example/limePSB_RPCM/vctcxo_tamer.c:219-225 | after dis the interrupt is disabled, and the counters stay in reset when the disabled mode value is 0 |

## Left out

* **SPI I/O.** Opening the device, the bus speed and mode settings, and failures of spidev are left out. A transfer is one event whose response is the device oracle's (test/test_gpsdo.py:72-75).
* **Floating-point rounding.** `enable_gpsdo` is evaluated on exact reals, so results that binary floating point would round differently are not captured.
* **`time.sleep`.** A sleep is a trace event carrying its delay. The exception Python raises for a negative delay is not modelled.
* **The unbounded monitor.** With `num_dumps == 0` and a non-zero interval, run_monitoring runs until KeyboardInterrupt. `RunMonitoring` and `RunMain` require the loop to stop on its own (`MonitoringEnds`), so the interrupted run and its "Monitoring stopped." line are not modelled.
* **Printing and arguments.** Printed lines are abstract `Line` values, without their formatting or column widths. `argparse` parsing is not modelled; `main` takes the parsed arguments.
* **Register names in the dump.** The names come from `globals()` reflection in the source. Here `Registers.Name` gives a fixed name per address.
* **Wishbone I/O.** The busy-wait and timeout loops of the Wishbone read and write are left out. A read returns the bus oracle's byte, which covers the 0 returned on timeout. A write is one trace entry whether or not the bus completed it.
* **The cached DAC value.** The global `vctcxo_trim_dac_value` (vctcxo_tamer.c:17) is never read or written by the modelled functions, so it is not modelled.
* Tamer.TamerDriver.ReadCount: `(int32_t) b << 24` overflows a signed int in C when `b >= 0x80`. The model takes the two's-complement wrap-around that the target compiler produces.
* Tamer.TamerDriver.Isr: the six result fields of the packet are written in one step (`PacketBuffer.Fill`) rather than one at a time. Nothing reads them in between.
* Tamer.TamerDriver.SetTuneMode: "every other bit of the cache is unchanged" is not stated for the whole sequence. It is proved for each step by SetKeepsOthers and ClearKeepsOthers, and the tune-mode lemmas state the bits each step changes.
* **The tamer constants.** The `VT_*` addresses and masks and the mode values are in vctcxo_tamer.h, which is not part of this model. They are parameters of type `Tamer.Config`. Tune modes are `int`, since the enumeration's values are unknown.
* **Header lines in the monitor.** Properties.MonitoringRequests and MonitoringPauses count transfers and pauses. The total number of header lines over a whole run is stated per line by MonitorStepHeaders, not summed.
