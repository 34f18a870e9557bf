# zksm83 device, relation and step proofs

zksm83 runs a DMG Game Boy cycle by cycle and proves such runs with packed polynomial rows that describe whole blocks of
cycles in closed form. This Dafny 4.11 project models the native machine, the packed device and memory relations, the
two-limb field arithmetic and the instruction step, and proves that the fast forms agree with the slow ones.

`dafny verify dfyconfig.toml` checks the whole project.

## Layout

| files | contents |
|---|---|
| `Timer`, `Devices`, `HaltSkips`, `Mmio` | the device clock as pure state functions, HALT fast-forward, register access |
| `DeviceClass`, `Executors` | the same operations as classes that update their fields in place, each proved against its function |
| `Bus`, `Steps`, `DmaRun` | address gating and MBC3 mapping, one machine step, OAM DMA over whole runs |
| `Modulus`, `Field`, `Gadgets` | the field modulus and its primality, vanishing identities, bit columns, range, comparison and chain gadgets |
| `TimerRow`, `LongTimerRow`, `PpuRow`, `QuietRow`, `SerialRow`, `HaltIdleRow`, `MmioRow`, `StableRow`, `TupleRow`, `SerialIoRow`, `DmaRow`, `MachineRow`, `LongSkipRow` | one module per packed relation, and the long rows that join them: what any satisfying row forces |
| `Encoding`, `TimerEncoder`, `LongTimerEncoder`, `PpuEncoder`, `RowEncoder`, `HaltIdleEncoder`, `MmioEncoder`, `SerialIoEncoder`, `DmaEncoder`, `MachineEncoder`, `LongSkipEncoder`, `SwitchedOff` | the columns as the encoders write them, and exactly when the relations accept them |
| `Chronology` | memory timestamps, the encoder loops and table, and what slot identities and multiset balance force |
| `Limbs`, `Folding` | Solinas arithmetic on two 64-bit limbs, binary folding and the multilinear extension |
| `Decimal`, `Isa`, `Execution`, `StepFacts` | decimal arithmetic, the opcode table, the witness-driven step, declared accesses and lookup mode |
| `BusLaws`, `TimerWrites`, `RegisterLaws` | laws of the definitions above: banks and what DMA, CPU and fetches see; the clock after a timer write; interrupt lines, joypad and registers through the bus |
| `Assembler`, `AluLaws`, `MemoryLaws`, `LoadLaws`, `ControlLaws`, `ModeLaws` | laws of instructions: the opcode table against an encoder, arithmetic, words in memory, loads, stack, calls and jumps, IME, HALT and the program counter |
| `Refinement`, `Commitments` | every accepted witness-driven step and run is one of the plain machine, and keeps the memory root opening to memory |
| `Wrappers` | `Option` |

A row is a record of integers read modulo the field prime `2^128 - 0xffffa7f7`; `Zero(x)` says that a constraint slot
vanishes. Row lemmas named `...Forced` and `...Sound` go from the identities to the native transition: bounded identities
hold over the integers because the modulus is larger, and bit columns are bits because the modulus is prime. Lemmas named
`...Accepted` and `...Complete` go the other way, from the native transition to a satisfying row, and those named
`...AcceptedExactly` say for which native states that row satisfies the relation. The theorems about
whole rows start from, or reach, the identities `x(x-1) = 0`. Lemmas about one part of a row (`PpuRow.StateSound`,
`DmaRow.CursorForced`, `MachineRow.SourceForced`, `MmioRow.RegistersForced`, `HaltIdleRow.CyclesForced`,
`StableRow.StableTableForced`, `TupleRow.TupleExactly` and the gadgets) take bit columns, which those identities give;
`Chronology` takes them as hypotheses throughout.

## What the code does not promise

Six properties one would expect turn out false. Each has its exact condition, for all inputs, and a concrete instance.

- `PpuEncoder.EncoderAcceptedExactly`: the encoder starts the LY=LYC prefix from the LCD enable bit
  (crates/zksm83-jolt/src/block_device_ppu_interrupt.rs:286) while the relation starts it from the active-row column
  (lines 601-608). An honest boundary is accepted exactly when the LCD is on or LYC is odd; whole quiet, HALT-idle and
  device-access rows inherit that condition (`RowEncoder.QuietRowAcceptedExactly`,
  `HaltIdleEncoder.IdleRowAcceptedExactly`, `MmioEncoder.AccessRowAcceptedExactly`). Serial and timer skips need the LCD
  off, so an even LYC refuses all of them, and VBlank skips always have their row
  (`LongSkipEncoder.LongRowAcceptedExactly`). `SwitchedOff.SwitchedOffRefused` reaches
  a refused state from power-on by one FF40 store. The prefix of the state between a register write and the clock
  starts from one (crates/zksm83-jolt/src/block_device_ppu_mmio.rs:333) and is always accepted.
- `SerialIoRow.StableControlExactly`: device-access rows list FF02 among the registers only a write may change
  (crates/zksm83-jolt/src/block_device_mmio.rs:587-608), but the serial relation clears bit 7 of FF02 on completion. The
  encoder's row always meets the serial relation, and meets both exactly when no transfer completes in it
  (`SerialIoEncoder.SerialIoAcceptedExactly`); an access in whose M-cycles a transfer completes has no row at all
  (`SerialIoRow.CompletingAccessHasNoRow`). `SerialIoEncoder.NativeStepCompletes` and `NativeStepHasNoRow` give a
  two-cycle `LDH A, (C)` that the native step accepts.
- `DmaRun.TransferFollowsClock`: an interrupt dispatch samples the DMA flag after its pushes
  (crates/zksm83-core/src/transition.rs:471-472), an instruction before its accesses (line 81). A transfer that the low
  push of a dispatch starts (SP = FF48) therefore owes five bytes at once. Copied plus owed bytes equal
  `min(160, later M-cycles)` exactly when an instruction started the transfer or 160 M-cycles have passed; in general
  they equal `min(160, later M-cycles + Early)`. `DmaRun.DispatchOwesEarly` is such a dispatch.
- `MachineEncoder.MachineRowAcceptedExactly`: a dispatch row requires both pushes to be memory writes
  (crates/zksm83-jolt/src/block_machine.rs:505-507), while the native dispatch also pushes to registers, to the mapper
  and to a closed RAM window. The encoder's row is accepted exactly when both push addresses are plain memory; the
  dispatch of the previous point, which the native step accepts, has no row (`MachineRow.EarlyTransferHasNoRow`).
- `BusLaws.FetchSeesStoreExactly`: instruction fetches bypass the cartridge mapping. A fetch from A000-BFFF reads the
  memory cell numbered by the CPU address (crates/zksm83-core/src/bus.rs:593-609 and 797-808), while loads, stores and DMA
  go through the RAM window (lines 611-688 and 750-766). A stored byte is fetched back, for every byte, exactly when its
  address lies outside A000-BFFF; so code stored to cartridge RAM is not the code executed there.
- `Devices.ChunkExactly`: one call of `advance_m_cycles` equals that many single M-cycles exactly up to 63; from 64 to
  255 the T-cycle product saturates. The chunk loop of the long skips uses 63 and is exact
  (`Devices.QuietLongIsSingleSteps`).

`Isa.TableFits` and `Assembler.PrimaryRoundTrip` add a fact about the opcode table: every row takes its bus accesses and
its internal M-cycles, except STOP, which fetches two bytes in one M-cycle.

## Model

| member | source | states |
|---|---|---|
| Timer.InterruptDistanceExact | crates/zksm83-core/src/dmg/timer.rs:119-143 | the shortcut distance is the first T-cycle count by which the iterated tick has requested the interrupt, both directions |
| Timer.StateAfterRequest | crates/zksm83-core/src/dmg/timer.rs:145-177 | the whole timer up to three T-cycles after the request: TIMA holds TMA, no reload in flight, latch as the period says |
| Timer.TicksCompose | crates/zksm83-core/src/dmg/timer.rs:110-117 | ticks and requests compose over any split |
| Timer.DividerCounts | crates/zksm83-core/src/dmg/timer.rs:145-155 | the divider counts T-cycles modulo 2^16 under the full tick |
| Timer.StoppedTimer | crates/zksm83-core/src/dmg/timer.rs:145-155 | a stopped settled timer only moves its divider and never requests |
| Devices.AdvanceCompose | crates/zksm83-core/src/dmg.rs:404-411 | advancing all devices composes over any split: they share only accumulated interrupt bits |
| Devices.QuietLongIsSingleSteps | crates/zksm83-core/src/dmg.rs:511-517 | the chunked advance equals that many single M-cycles, for every length |
| Devices.ChunkExactly | crates/zksm83-core/src/dmg.rs:404-411 | for every device and every u8 count, one call equals that many single M-cycles exactly when the count is at most 63 |
| Devices.PositionAdvances | crates/zksm83-core/src/dmg.rs:545-565 | the PPU position after n T-cycles is the sum modulo 70224 |
| Devices.VBlankExact | crates/zksm83-core/src/dmg.rs:545-565 | VBlank is requested within n T-cycles exactly when n reaches the distance to line 144 |
| Devices.StatExact | crates/zksm83-core/src/dmg.rs:580-609 | over at most 80 T-cycles the per-tick edge detector fires exactly when the next mode or line boundary is crossed with the line low before and high after |
| Devices.StatBoundTight | crates/zksm83-core/src/dmg.rs:580-609 | 80 is the largest such bound: a valid state whose line rises and falls again within 81 T-cycles |
| HaltSkips.VBlankSkipExact | crates/zksm83-core/src/dmg.rs:428-457 | a VBlank skip of m M-cycles ends at the first enabled interrupt, which is VBlank, at line 144 dot 0 |
| HaltSkips.SerialSkipExact | crates/zksm83-core/src/dmg.rs:462-480 | a serial skip ends at the first enabled interrupt, which is serial completion, with data FF and bit 7 clear |
| HaltSkips.TimerSkipExact | crates/zksm83-core/src/dmg.rs:484-497 | a timer skip ends at the first enabled interrupt, which is the timer |
| HaltSkips.HaltIdleExact | crates/zksm83-core/src/dmg.rs:415-424 | the idle batch is the first M-cycle with an enabled interrupt, or six |
| Steps.SkipIsIdleOnly | crates/zksm83-core/src/transition.rs:376-448 | a long skip reaches the same machine (CPU, clock, devices, mapper, memory) as idle events alone until an enabled interrupt, with the same clock overflow, and stops at the first enabled interrupt |
| Mmio.ApplyKeepsValid | crates/zksm83-core/src/dmg.rs:267-371 | writes, samples, acknowledgements, clocks, skips and copies keep every device range |
| Mmio.WriteThenRead | crates/zksm83-core/src/dmg.rs:298-371 | what every non-audio register shows right after a write, read-only and masked bits included; what a timer write does to the clock after it is in `TimerWrites` |
| Mmio.WriteLeavesOthers | crates/zksm83-core/src/dmg.rs:298-371 | which other registers a write can disturb: every remaining one shows what it showed |
| DeviceClass.DmgDevices.AdvancePpuTCycle | crates/zksm83-core/src/dmg.rs:545-565 | the in-place tick makes the PPU step, its VBlank request and its STAT edge |
| DeviceClass.DmgDevices.AdvanceMCycles | crates/zksm83-core/src/dmg.rs:404-411 | the in-place advance is the pure advance of timer, serial and PPU |
| DeviceClass.DmgDevices.AdvanceQuietLong | crates/zksm83-core/src/dmg.rs:511-517 | the chunk loop leaves the devices of that many single M-cycles |
| DeviceClass.DmgDevices.HaltIdleMCycles | crates/zksm83-core/src/dmg.rs:415-424 | the loop on a copy returns the first pending M-cycle, at most six, and changes nothing |
| DeviceClass.DmgDevices.ScheduleDmaBytes | crates/zksm83-core/src/dmg.rs:267-274 | in-place schedule of owed bytes |
| DeviceClass.DmgDevices.CompleteDmaByte | crates/zksm83-core/src/dmg.rs:277-285 | in-place cursor step |
| DeviceClass.DmgDevices.SampleJoypadButtons | crates/zksm83-core/src/dmg.rs:288-294 | in-place sample returns the visible byte and requests joypad on a falling line |
| DeviceClass.DmgDevices.WriteRegister | crates/zksm83-core/src/dmg.rs:324-371 | in-place register write equals the pure one, whose laws are `Mmio.WriteThenRead`, `TimerWrites` and `RegisterLaws`; refused exactly at unimplemented addresses |
| Bus.ControlKeepsMapper | crates/zksm83-core/src/mbc3.rs:227-243 | a control write keeps the ROM bank in 1..banks-1 and the selection in four bits |
| BusLaws.RomBanksApart | crates/zksm83-core/src/mbc3.rs:181-187 | two addresses of the switchable window map to one ROM offset exactly when bank and address coincide, never to the fixed window, always inside the ROM |
| BusLaws.BankSelected | crates/zksm83-core/src/mbc3.rs:227-243 | after a bank select the window shows the page of the written low bank bits, page one for zero, with the address's low 14 bits; no other control write moves it |
| BusLaws.CellsApart | crates/zksm83-core/src/mbc3.rs:200-220 | two addresses share a memory cell exactly when they are equal and, in the RAM window, under the same selection; banked cells lie above all plain memory |
| BusLaws.WindowOpens | crates/zksm83-core/src/mbc3.rs:200-243 | an enable byte and a selection open RAM exactly for ten in the low digit and selections up to three |
| BusLaws.StoreSeen | crates/zksm83-core/src/bus.rs:648-688 | an accepted memory store changes the byte the CPU sees at its address and at no other |
| BusLaws.SourceIsVisible | crates/zksm83-core/src/bus.rs:731-788 | DMA reads exactly the bytes the CPU sees, up to DF9F |
| BusLaws.SourceSeesStore | crates/zksm83-core/src/bus.rs:750-766 | after an accepted store, banked RAM included, DMA reads the stored byte at that address |
| BusLaws.BanksSurvive | crates/zksm83-core/src/mbc3.rs:200-220 | a byte stored under one RAM selection survives stores under every other and is there when its bank is selected again |
| BusLaws.FetchSeesStoreExactly | crates/zksm83-core/src/bus.rs:593-609 | every stored byte is fetched back from its address exactly outside A000-BFFF |
| BusLaws.VideoGating | crates/zksm83-core/src/bus.rs:956-968 | when video and object memory are closed, by line position and dot |
| BusLaws.DmaGating | crates/zksm83-core/src/bus.rs:946-954 | during a transfer the CPU reaches exactly high RAM |
| TimerWrites.DividerRestarts | crates/zksm83-core/src/dmg/timer.rs:97-108 | n T-cycles after any FF04 write the divider is n modulo 2^16 |
| TimerWrites.DividerWriteFalls | crates/zksm83-core/src/dmg/timer.rs:145-155 | the T-cycle after an FF04 write increments TIMA exactly when the latch was set, in every reload phase |
| TimerWrites.ControlWriteFalls | crates/zksm83-core/src/dmg/timer.rs:145-205 | the T-cycle after an FF07 write increments TIMA exactly when the latch was set and the newly selected bit is not seen |
| TimerWrites.SettledDividerWrite | crates/zksm83-core/src/dmg/timer.rs:145-205 | for a settled timer that is exactly when it runs with the selected divider bit set |
| TimerWrites.CounterWriteCancels | crates/zksm83-core/src/dmg/timer.rs:179-186 | an FF05 write outside the reload cycle cancels the reload: no request in the next five T-cycles |
| TimerWrites.CounterWriteLost | crates/zksm83-core/src/dmg/timer.rs:179-186 | in the reload cycle the FF05 write is lost and the request comes with the next T-cycle |
| TimerWrites.ModuloWriteTaken | crates/zksm83-core/src/dmg/timer.rs:188-193 | an FF06 write in the reload cycle is the byte TIMA takes |
| TimerWrites.ModuloWriteWaits | crates/zksm83-core/src/dmg/timer.rs:188-193 | at any other time TIMA runs on and the new TMA waits |
| RegisterLaws.LinesAreBits | crates/zksm83-core/src/dmg.rs:189-192 | IF and IE keep five bits of a written byte; acknowledging clears the one bit |
| RegisterLaws.LowestServed | crates/zksm83-core/src/dmg.rs:171-186 | the interrupt served is the lowest bit set in both IF and IE; its vector is 40 plus eight times its number, in hexadecimal |
| RegisterLaws.JoypadVisible | crates/zksm83-core/src/dmg.rs:611-620 | P1 shows the selection and a zero for every line that some selected group presses |
| RegisterLaws.JoypadRequests | crates/zksm83-core/src/dmg.rs:288-294 | a sample or a P1 write requests the joypad interrupt exactly when a line of the visible byte falls, and changes nothing else but its own field |
| RegisterLaws.RegisterHeld | crates/zksm83-core/src/bus.rs:843-884 | a register stored through the bus reads back through it as the written device shows it, a sound register as written |
| Bus.PerformSplit | crates/zksm83-core/src/bus.rs:611-688 | a step's accesses compose; the first fault rejects the rest |
| Executors.Executor.WriteData | crates/zksm83-core/src/bus.rs:648-688 | the in-place write gates, maps and updates exactly as the pure one, and changes nothing on a fault |
| Executors.Executor.ReadData | crates/zksm83-core/src/bus.rs:611-646 | the in-place read changes only sampled buttons and their interrupt |
| Executors.Executor.FetchInstruction | crates/zksm83-core/src/bus.rs:593-609 | the fetched byte under gating and ROM mapping, whose banks `BusLaws.RomBanksApart` and `BusLaws.BankSelected` tell apart |
| Executors.Executor.CopyDmaByte | crates/zksm83-core/src/bus.rs:731-788 | one owed byte copied in place, cursor moved, unavailable sources refused; the byte is the one the CPU sees by `BusLaws.SourceIsVisible` |
| Executors.Executor.DispatchInterrupt | crates/zksm83-core/src/transition.rs:337-361 | the in-place dispatch, with the DMA flag read after both pushes |
| Executors.Executor.ApplyStep | crates/zksm83-core/src/transition.rs:43-117 | one in-place step: owed byte, then machine event, then instruction |
| Steps.StepKeepsValid | crates/zksm83-core/src/transition.rs:43-117 | every accepted step keeps the machine valid |
| Steps.ReachableInRange | crates/zksm83-core/src/dmg.rs:127-155 | every state reachable from post-boot has line, dot, IF, IE, countdown, DMA and mapper fields in the encoders' ranges |
| DmaRun.PerformConfined | crates/zksm83-core/src/bus.rs:946-954 | during a transfer accepted CPU accesses touch only high RAM and change nothing else |
| DmaRun.SourceStable | crates/zksm83-core/src/mbc3.rs:181-220 | source bytes depend only on memory outside high RAM and OAM |
| DmaRun.StepTracks | crates/zksm83-core/src/transition.rs:48-51 | every step of a transfer keeps the source, the copied prefix and the count of due bytes |
| DmaRun.TransferIsSnapshot | crates/zksm83-core/src/bus.rs:731-788 | for every starting step and every continuation to the end of the transfer, OAM holds the 160 bytes the CPU saw at the source addresses at the FF46 store |
| DmaRun.TransferFollowsClock | crates/zksm83-core/src/transition.rs:471-489 | copied plus owed bytes follow the clock, and equal min(160, later M-cycles) exactly for instruction starts or after 160 M-cycles |
| DmaRun.DestinationsAscend | crates/zksm83-core/src/dmg.rs:261-285 | copies write consecutive OAM addresses without gap or repeat |
| DmaRun.AnyStart | crates/zksm83-core/src/dmg.rs:353-358 | only an FF46 store starts a transfer, by an instruction or by the low push of a dispatch |
| DmaRun.DispatchOwesEarly | crates/zksm83-core/src/transition.rs:337-361 | a concrete dispatch that leaves five bytes owed before any later M-cycle |
| Modulus.ModulusIsPrime | crates/zksm83-cuda/src/field.rs:3-4 | 2^128 - 0xffffa7f7 is prime, by a chain of Pocklington certificates |
| Field.BooleanColumn | crates/zksm83-jolt/src/block_device_timer_core.rs:853-878 | the identity x(x-1)=0 leaves only bits |
| Gadgets.RangedSound | crates/zksm83-jolt/src/block_device_ppu.rs:348-424 | value and slack bits bound a column by its maximum |
| Gadgets.ComparisonSound | crates/zksm83-jolt/src/block_device_ppu_interrupt.rs:750-771 | event and gap decide elapsed >= distance and record the difference |
| Gadgets.ChainSound | crates/zksm83-jolt/src/block_device_ppu_interrupt.rs:625-646 | a running product of bits is the conjunction so far |
| TimerRow.TickSound | crates/zksm83-jolt/src/block_device_timer_core.rs:474-597 | one constrained stage is one timer T-cycle, or nothing when inactive |
| TimerRow.TimerRowSound | crates/zksm83-jolt/src/block_device_timer_core.rs:441-630 | 24 stages with an active prefix force the iterated timer rule, every field and IF bit 2 |
| TimerRow.TimerRowUnique | crates/zksm83-jolt/src/block_device_timer_core.rs:599-630 | two satisfying rows with the same start end alike |
| TimerEncoder.TickComplete | crates/zksm83-jolt/src/block_device_timer_core.rs:264-334 | the encoder's stage for any timer satisfies the stage identities |
| TimerEncoder.TimerRowComplete | crates/zksm83-jolt/src/block_device_timer_core.rs:221-334 | for every timer and at most six M-cycles the encoder's whole 24-stage row meets all identities, boolean ones included |
| LongTimerRow.UntilTimerForced | crates/zksm83-jolt/src/block_device_timer_core/long.rs:78-116 | a timer-skip row has exactly the M-cycles to the first request and the timer of that many T-cycles |
| LongTimerRow.StoppedForced | crates/zksm83-jolt/src/block_device_timer_core/long.rs:57-76 | other long rows leave a stopped timer alone, divider aside |
| LongTimerRow.DividerForced | crates/zksm83-jolt/src/block_device_timer.rs:225-275 | the divider after a row of any length is the sum modulo 2^16 |
| LongTimerEncoder.UntilTimerRowComplete | crates/zksm83-jolt/src/block_device_timer_core/long.rs:8-55 | for every settled running timer the row of the native timer skip meets the boolean, divider and closed-form identities |
| LongTimerEncoder.StoppedRowAcceptedExactly | crates/zksm83-jolt/src/block_device_timer_core/long.rs:57-76 | the row of any other long skip is accepted exactly for a timer that is off and settled |
| PpuRow.StateSound | crates/zksm83-jolt/src/block_device_ppu_interrupt.rs:560-681 | the mode, coincidence and signal columns are the PPU's own mode and STAT line |
| QuietRow.PositionForced | crates/zksm83-jolt/src/block_device_ppu.rs:348-461 | for rows of any length, position after the row is the clocked one, one wrap bit suffices, zero while the LCD is off |
| QuietRow.VBlankForced | crates/zksm83-jolt/src/block_device_ppu_interrupt.rs:722-748 | for rows of any length, the VBlank event is set exactly when line 144 is entered in the row |
| QuietRow.StatForced | crates/zksm83-jolt/src/block_device_ppu_interrupt.rs:683-720 | the STAT event is set exactly when the per-tick detector fires: short rows, VBlank skips, and any length with the LCD off |
| QuietRow.PpuInterruptsForced | crates/zksm83-jolt/src/block_device_ppu_interrupt.rs:773-792 | IF bits 0, 1 and 4 after a quiet row, short or long: a VBlank skip sets bit 0, and with the LCD off all three are kept |
| QuietRow.LongVBlankForced | crates/zksm83-jolt/src/block_device_ppu.rs:312-327 | a VBlank-skip row of any claimed length has the LCD on, no STAT source, exactly the distance to VBlank, and ends at line 144 dot 0 |
| Encoding.AppendPrefix | crates/zksm83-jolt/src/block_device_ppu_interrupt.rs:278-303 | the prefix loop writes the running conjunction |
| PpuEncoder.EncoderAcceptedExactly | crates/zksm83-jolt/src/block_device_ppu_interrupt.rs:263-305 | the encoder's STAT columns satisfy the relation exactly when the LCD is on or LYC is odd |
| SwitchedOff.SwitchedOffRefused | crates/zksm83-jolt/src/block_device_ppu_interrupt.rs:286-294 | from power-on one FF40 store reaches a state whose honest columns the relation refuses |
| RowEncoder.QuietRowAcceptedExactly | crates/zksm83-jolt/src/block_device_ppu_interrupt.rs:200-359 | for every valid device, every dispatched line or none, and at most six M-cycles the encoder's row, PPU and serial columns together, meets the boolean identities, and all others exactly when the LCD is on or LYC is odd |
| RowEncoder.SkipBoundaryAccepted | crates/zksm83-core/src/dmg.rs:462-497 | boundaries of serial and timer skips are accepted exactly when LYC is odd |
| HaltIdleEncoder.IdleRowAcceptedExactly | crates/zksm83-jolt/src/block_device_ppu_interrupt.rs:502-558 | the row of the native idle batch, with its timer stages and pending prefix, is accepted exactly when the LCD is on or LYC is odd |
| DmaEncoder.CursorAccepted | crates/zksm83-jolt/src/block_device_dma.rs:220-244 | every valid cursor's columns meet the cursor identities |
| DmaEncoder.ScheduleAccepted | crates/zksm83-jolt/src/block_device_dma.rs:246-276 | the encoder's schedule row is accepted for every cursor that owes nothing: at rest for any length, active for at most six M-cycles |
| DmaEncoder.ByteAccepted | crates/zksm83-jolt/src/block_device_dma.rs:278-301 | a byte-copy row is accepted for every cursor that owes a byte |
| SerialRow.SerialForced | crates/zksm83-jolt/src/block_device_serial.rs:438-582 | countdown, completion, data, control and IF bit 3 of a quiet row are those of the clocked port |
| SerialRow.LongSerialForced | crates/zksm83-jolt/src/block_device_serial.rs:365-394 | a serial-skip row has the LCD off and takes exactly the M-cycles left of its transfer, which it completes |
| SerialRow.NoTransferForced | crates/zksm83-jolt/src/block_device_ppu.rs:312-327 | a VBlank- or timer-skip row has no transfer running |
| HaltIdleRow.CyclesForced | crates/zksm83-jolt/src/block_machine.rs:299-316 | the short-cycle columns are a prefix as long as the row |
| HaltIdleRow.HaltIdleRowExact | crates/zksm83-jolt/src/block_device_ppu_interrupt.rs:502-558 | a HALT-idle row has exactly the native idle batch, no shorter and no longer |
| MmioRow.WriteBeforeClockForced | crates/zksm83-jolt/src/block_device_ppu_mmio.rs:433-772 | a device-access row admits only the register write, then its STAT edge, then the clocked edges: position, registers, IF bits 0 and 1 |
| MmioRow.RegistersForced | crates/zksm83-jolt/src/block_device_mmio.rs:591-594 | LCDC, STAT and LYC after the row are the masked written ones or unchanged |
| StableRow.StableTableForced | crates/zksm83-jolt/src/block_device_mmio.rs:581-646 | each of the thirteen whole-byte register identities forces the byte the native write stores |
| MmioEncoder.AccessRowAcceptedExactly | crates/zksm83-jolt/src/block_device_ppu_mmio.rs:203-431 | for every valid device, access and at most six M-cycles the encoder's row selects the access, meets the boolean identities, and all transition identities exactly when at both boundaries the LCD is on or LYC is odd |
| TupleRow.TupleExactly | crates/zksm83-jolt/src/block_device_mmio.rs:464-555 | for eighteen registers the tuple identities hold exactly when a read reports the byte the native register shows and a write the byte it overwrites |
| TupleRow.StatusMeans | crates/zksm83-jolt/src/block_device_ppu_mmio.rs:610-630 | the FF41 column is the native visible status: sources, coincidence and mode |
| SerialIoRow.SerialIoForced | crates/zksm83-jolt/src/block_device_serial_mmio.rs:276-436 | the serial half of a device-access row is the write followed by the clock, with IF bit 3 |
| SerialIoRow.StableControlExactly | crates/zksm83-jolt/src/block_device_mmio.rs:581-610 | a row meeting the serial relation meets the stable FF02 identity exactly when no transfer completes |
| SerialIoRow.CompletingAccessHasNoRow | crates/zksm83-jolt/src/block_device_serial_mmio.rs:359-418 | no access in whose M-cycles a transfer completes has a row meeting both relations |
| SerialIoEncoder.SerialIoAcceptedExactly | crates/zksm83-jolt/src/block_device_serial_mmio.rs:179-274 | for every valid device and access the encoder's row meets the serial relation, and the stable FF02 identity exactly when nothing completes |
| SerialIoEncoder.NativeStepCompletes | crates/zksm83-core/src/transition.rs:43-117 | the native step accepts a two-cycle register read that completes a transfer |
| SerialIoEncoder.NativeStepHasNoRow | crates/zksm83-jolt/src/block_device_mmio.rs:581-610 | no row of that step meets both relations |
| DmaRow.CursorForced | crates/zksm83-jolt/src/block_device_dma.rs:356-383 | slack columns bound index and owed bytes, and an active cursor is below 160 |
| DmaRow.ScheduleForced | crates/zksm83-jolt/src/block_device_dma.rs:402-444 | a timed row owes nothing before and schedules exactly the native bytes |
| DmaRow.ByteForced | crates/zksm83-jolt/src/block_device_dma.rs:446-471 | a byte row is the native cursor step and copies between the cursor's addresses |
| MachineRow.SourceForced | crates/zksm83-jolt/src/block_machine.rs:361-381 | a source column is set exactly for the first waiting line of a dispatch |
| MachineRow.DispatchRowForced | crates/zksm83-jolt/src/block_machine.rs:383-512 | a dispatch row belongs to a state that dispatches that interrupt, pushes the return address to plain memory, uses no other slot and ends with its CPU state |
| MachineRow.KindsExactly | crates/zksm83-jolt/src/block_machine.rs:505-510 | the kind identities of a native dispatch hold exactly when both pushes land in plain memory |
| MachineRow.EarlyTransferHasNoRow | crates/zksm83-jolt/src/block_machine.rs:505-510 | the dispatch that starts a transfer is accepted natively and has no row |
| MachineRow.WakeRowForced | crates/zksm83-jolt/src/block_machine.rs:397-402 | a wake row belongs to a state the native machine wakes, at no cost |
| MachineRow.SleepRowForced | crates/zksm83-jolt/src/block_machine.rs:403-437 | a sleeping row belongs to a halted state with nothing waiting; it idles one to six M-cycles or skips to an interrupt that is enabled |
| MachineRow.ModesExclusive | crates/zksm83-jolt/src/block_machine.rs:318-333 | exactly one machine mode is selected |
| MachineRow.RegistersForced | crates/zksm83-jolt/src/block_machine.rs:439-539 | every machine row keeps the CPU registers and the flow counters |
| MachineRow.CpuForced | crates/zksm83-jolt/src/block_machine.rs:439-539 | a wake, sleeping or DMA row ends with the CPU of the native event, and only a DMA byte uses the bus |
| MachineRow.ShortForced | crates/zksm83-jolt/src/block_machine.rs:299-316 | a dispatch has five short cycles, an idle batch as many as it takes, other machine rows none |
| LongSkipRow.LongSkipRowExact | crates/zksm83-jolt/src/block_device_serial.rs:365-394 | any row in a long mode that meets the PPU, serial, timer, DMA and machine relations is the native long skip of its starting machine for exactly its M-cycles, ends in the devices that many single M-cycles reach and keeps the CPU |
| LongSkipRow.LongRowIsIdleOnly | crates/zksm83-core/src/transition.rs:376-448 | so a satisfying long row is the idle-only HALT run from its machine up to the first enabled interrupt |
| LongSkipEncoder.LongRowAcceptedExactly | crates/zksm83-jolt/src/block_device_timer_core/long.rs:8-55 | for every machine that takes a long skip the encoder's whole row meets all relations exactly when the LCD is on or LYC is odd |
| MachineEncoder.MachineRowAcceptedExactly | crates/zksm83-jolt/src/block_machine.rs:192-262 | for every machine event of the native step, registers and flow counters the encoder's row meets every identity of the relation, those on slot kinds exactly when a dispatch pushes to plain memory |
| Chronology.EncodeBlocks | crates/zksm83-jolt/src/block_memory.rs:112-151 | the encoder accepts exactly non-empty lists within the row count whose rows have at most five events in the image; its predecessors and final stamps are the latest ones and balance |
| Chronology.AppendMemoryEvent | crates/zksm83-jolt/src/block_memory.rs:326-374 | one event takes the table's stamp as predecessor and leaves its own |
| Chronology.StampsFit | crates/zksm83-jolt/src/block_memory.rs:376-386 | stamps strictly increase and stay below 2^17 in the fixed geometry |
| Chronology.StampsBalance | crates/zksm83-jolt/src/memory/block_event.rs:110-150 | for every list of events in the image, whatever bytes it claims: initial zeros and produced stamps are the consumed predecessors and the final timestamps |
| Chronology.EncoderBalances | crates/zksm83-jolt/src/memory/block_event.rs:110-150 | with bytes: a memory history balances up to the last byte and latest stamp of every cell |
| Chronology.BalancesExactly | crates/zksm83-jolt/src/memory/block_event.rs:110-150 | ordered links with latest predecessors balance exactly when every event claims the byte last left at its address |
| Chronology.BalanceForcesMemory | crates/zksm83-jolt/src/memory/block_event.rs:110-150 | order and balance alone force every predecessor to be the latest earlier event and every byte to be the last one left there |
| Chronology.BalanceForcesHistory | crates/zksm83-jolt/src/memory/block_event.rs:110-150 | balance also forces the final tokens |
| Chronology.TableForcesMemory | crates/zksm83-jolt/src/block_memory.rs:388-468 | for every table whose columns are bits and whose rows carry their index, slot identities and token balance force each predecessor to be the latest earlier event and each input byte the last one left there |
| Chronology.EncodedTable | crates/zksm83-jolt/src/block_memory.rs:279-374 | the table filled from the encoder's links meets every slot identity with bit columns and carries exactly those links |
| Chronology.IdentityNeedsBits | crates/zksm83-jolt/src/block_memory.rs:444-463 | without bit columns every predecessor has a delta that satisfies it |
| Chronology.LogIndicesForced | crates/zksm83-jolt/src/block_memory.rs:388-489 | selected log slots of a row carry consecutive ascending indices |
| Limbs.CanonicalTest | crates/zksm83-cuda/src/field.rs:13-22 | the limb test accepts exactly values below the modulus |
| Limbs.AddModExact | crates/zksm83-cuda/src/field.rs:44-51 | canonical sum modulo the prime |
| Limbs.SubModExact | crates/zksm83-cuda/src/field.rs:53-64 | canonical difference modulo the prime |
| Limbs.MultiplyWideExact | crates/zksm83-cuda/src/field.rs:100-106 | four limbs hold the whole product |
| Limbs.TopLimbNeverWraps | crates/zksm83-cuda/src/field.rs:112-126 | the wrapping additions of t2 never wrap |
| Limbs.MulModExact | crates/zksm83-cuda/src/field.rs:66-134 | canonical product modulo the prime with one final conditional reduction |
| Limbs.FoldExact | crates/zksm83-cuda/src/field.rs:73-77 | fold interpolates in the field |
| Folding.RoundsEvaluate | crates/zksm83-jolt/src/field_fold.rs:82-102 | n rounds over 2^n entries give the multilinear extension at the point, for every n |
| Folding.BooleanPointSelects | crates/zksm83-jolt/src/field_fold.rs:82-102 | a boolean point returns the indexed entry |
| Folding.FoldBinaryLayer | crates/zksm83-jolt/src/field_fold.rs:27-57 | the in-place loop leaves the folded layer, and refuses odd or short layers unchanged |
| Folding.EvaluateMultilinear | crates/zksm83-jolt/src/baseline.rs:177-200 | the fold loop returns the extension, and refuses tables of the wrong size |
| Folding.GridCovers | crates/zksm83-cuda/src/runtime.rs:106-110 | every output index has exactly one thread |
| Folding.LaunchFold | crates/zksm83-cuda/src/runtime.rs:29-65 | the launch writes every output slot with its pair's fold |
| Folding.KernelRefinesLayer | crates/zksm83-cuda/src/runtime.rs:29-65 | the limb kernel computes the field fold |
| Decimal.AddExact | crates/zksm83-core/src/alu.rs:119-129 | byte sum, carry, half carry and zero flag |
| Decimal.SubtractExact | crates/zksm83-core/src/alu.rs:131-140 | byte difference, borrow, half borrow and zero flag |
| Decimal.AdjustedSum | crates/zksm83-core/src/alu.rs:88-117 | DAA after an addition of two digit pairs: digits, carry, and the other three flags |
| Decimal.AdjustedDifference | crates/zksm83-core/src/alu.rs:88-117 | DAA after a subtraction of two digit pairs: digits, borrow, and the other three flags |
| Decimal.DecimalSum | crates/zksm83-core/src/alu.rs:88-140 | add-with-carry then adjust over any number of bytes gives valid digits of the decimal sum and its carry |
| Decimal.DecimalDifference | crates/zksm83-core/src/alu.rs:88-140 | subtract-with-carry then adjust gives valid digits of the decimal difference and its borrow |
| Decimal.SubtractUndoesAdd | crates/zksm83-core/src/alu.rs:88-140 | decimal subtraction undoes decimal addition digit for digit, borrowing exactly when it carried |
| Isa.TableFits | crates/zksm83-isa/src/decode.rs:42-341 | every table row fits five events and six M-cycles, one access per M-cycle except STOP; `Assembler` pins the rows |
| Assembler.PrimaryRoundTrip | crates/zksm83-isa/src/decode.rs:42-341 | a byte is refused exactly when it is one of the eleven undefined ones; every other decodes to an operation that an encoder written from its fields turns back into that byte, with the length of its operands and exactly its accesses plus internal cycles as M-cycles |
| Assembler.CbRoundTrip | crates/zksm83-isa/src/decode.rs:52-76 | the same for all 256 CB bytes |
| Assembler.DecodeInjective | crates/zksm83-isa/src/decode.rs:42-341 | different bytes decode to different operations |
| AluLaws.RegisterWritten | crates/zksm83-core/src/execute.rs:496-520 | a register holds the byte put in it, every other what it held |
| AluLaws.PairWritten | crates/zksm83-core/src/execute.rs:522-551 | the same for register pairs |
| AluLaws.SumExecuted | crates/zksm83-core/src/execute.rs:138-173 | ADD, ADC, SUB, SBC and CP leave in A the sum or difference modulo 256 and in the flags its carry, half carry and zero; nothing else moves |
| AluLaws.LogicExecuted | crates/zksm83-core/src/alu.rs:47-63 | AND, XOR and OR act on every bit, with their flags |
| AluLaws.XorUndoes | crates/zksm83-core/src/alu.rs:47-63 | XOR with one byte twice restores A |
| AluLaws.SumsUndo | crates/zksm83-core/src/execute.rs:138-173 | SUB undoes ADD and ADD undoes SUB |
| AluLaws.DecimalExecuted | crates/zksm83-core/src/alu.rs:88-140 | ADC then DAA on digit pairs leaves the digits of their decimal sum and its carry |
| AluLaws.ComplementsExecuted | crates/zksm83-core/src/execute.rs:62-88 | CPL, SCF and CCF on A and flags |
| AluLaws.StepsExecuted | crates/zksm83-core/src/execute.rs:138-205 | INC and DEC of registers and pairs are one step modulo their width; the byte forms keep the carry |
| AluLaws.StepsAreSums | crates/zksm83-core/src/alu.rs:13-27 | INC is ADD 1 and DEC is SUB 1 in value and flags but for the carry |
| AluLaws.StepsUndo | crates/zksm83-core/src/alu.rs:13-27 | DEC undoes INC and INC undoes DEC |
| AluLaws.RotateExecuted | crates/zksm83-core/src/execute.rs:207-231 | every rotation and shift as an equation between old byte, old carry, new byte and new carry, at the register alone; the short forms on A clear Z |
| AluLaws.RotationsUndo | crates/zksm83-core/src/alu.rs:65-86 | right undoes left and left undoes right on byte and carry; RRC undoes RLC; SWAP undoes itself |
| AluLaws.BitsExecuted | crates/zksm83-core/src/execute.rs:233-262 | BIT after SET or RES sees that bit set or clear and every other bit as it was |
| AluLaws.PairSumExact | crates/zksm83-core/src/alu.rs:29-37 | ADD HL is two byte additions with carry, low before high, Z kept |
| AluLaws.PairSumExecuted | crates/zksm83-core/src/execute.rs:175-205 | HL plus 65536 times the carry is the exact sum |
| AluLaws.SpOffsetExact | crates/zksm83-core/src/alu.rs:39-45 | SP plus a signed byte modulo 2^16, with the flags of adding the raw byte to the low byte of SP |
| AluLaws.SpOffsetExecuted | crates/zksm83-core/src/execute.rs:175-205 | ADD SP,e and LD HL,SP+e put that in SP and in HL with the same flags |
| MemoryLaws.ReadValue | crates/zksm83-core/src/bus.rs:611-646 | a load returns the byte its one event reports; from ROM and memory the witnessed byte, and the held one when the witness is truthful, with nothing else changed |
| MemoryLaws.ReadIsSource | crates/zksm83-core/src/bus.rs:750-766 | a CPU load and a DMA read of one address give the same byte |
| MemoryLaws.FetchValue | crates/zksm83-core/src/bus.rs:593-609 | a fetch returns the byte its one event reports, and the byte found at the address when the witness is truthful |
| MemoryLaws.WriteHeld | crates/zksm83-core/src/bus.rs:648-688 | after an accepted memory write its address holds the byte and every other what it held |
| MemoryLaws.PushHeld | crates/zksm83-core/src/execute.rs:440-449 | a push leaves the word below the stack pointer, low byte first, and every other byte as it was |
| MemoryLaws.PopUndoesPush | crates/zksm83-core/src/execute.rs:440-461 | whatever runs in between and leaves the two bytes, a pop returns the pushed word and the stack pointer of before |
| MemoryLaws.StoreSpHeld | crates/zksm83-core/src/execute.rs:434-438 | LD (nn),SP leaves SP at the address as a word |
| MemoryLaws.ImmediateHeld | crates/zksm83-core/src/transition.rs:525-534 | two immediate bytes are the word at the program counter, which moves past them |
| LoadLaws.RegisterLoads | crates/zksm83-core/src/execute.rs:90-136 | register, immediate and LD SP,HL loads move the value and nothing else |
| LoadLaws.AccumulatorStored | crates/zksm83-core/src/execute.rs:417-484 | in every addressing mode a store of A puts it at the mode's address and nowhere else, and HL moves by plus or minus one or stays |
| LoadLaws.AccumulatorLoaded | crates/zksm83-core/src/execute.rs:417-484 | a load of A takes the byte held there, HL likewise |
| LoadLaws.MemoryModified | crates/zksm83-core/src/execute.rs:383-415 | INC, DEC, rotations, BIT, SET and RES at (HL) do to the byte and the flags what they do to a register |
| LoadLaws.MemoryOperand | crates/zksm83-core/src/execute.rs:383-396 | the eight operations on A and LD r,(HL) take the byte at (HL) as they take a register |
| LoadLaws.MemoryStored | crates/zksm83-core/src/execute.rs:398-415 | LD (HL),r and LD (HL),n leave the byte at (HL) and every other as it was |
| ControlLaws.FlagBytes | crates/zksm83-core/src/execute.rs:553-584 | flags and their byte are inverse up to the low four bits |
| ControlLaws.PopRestores | crates/zksm83-core/src/execute.rs:338-351 | POP after PUSH restores pair and stack pointer, AF included |
| ControlLaws.CallPushes | crates/zksm83-core/src/execute.rs:299-336 | CALL and RST leave the address behind themselves on the stack and go to their target |
| ControlLaws.ReturnUndoesCall | crates/zksm83-core/src/execute.rs:299-336 | a return after a call resumes behind the call with its stack pointer; RETI enables interrupts too |
| ControlLaws.DispatchPushes | crates/zksm83-core/src/transition.rs:337-361 | serving an interrupt leaves the interrupted address on the stack, disables interrupts and goes to the vector |
| ControlLaws.HandlerReturns | crates/zksm83-core/src/transition.rs:337-361 | RETI from a handler that kept the stack resumes at the interrupted address with interrupts enabled |
| ControlLaws.ConditionBits | crates/zksm83-isa/src/decode.rs:295-302 | every conditional byte branches exactly when carry (bit 4 set) or zero equals bit 3 |
| ControlLaws.RelativeJumps | crates/zksm83-core/src/execute.rs:264-297 | a relative jump moves by its two's complement byte exactly when its condition holds |
| ControlLaws.Jumps | crates/zksm83-core/src/execute.rs:264-297 | JP and JP (HL) reach their target exactly when taken |
| ModeLaws.ModeAfter | crates/zksm83-core/src/execute.rs:40-60 | every operation but DI, EI, RETI, HALT and STOP keeps IME and run state; only taken jumps, calls and returns move the program counter |
| ModeLaws.FetchAdvances | crates/zksm83-core/src/transition.rs:498-534 | fetching moves the program counter past the instruction, one byte less after the HALT bug |
| ModeLaws.NextInstruction | crates/zksm83-core/src/transition.rs:498-534 | after an instruction that takes no branch the program counter is behind it, after the HALT bug one byte earlier |
| ModeLaws.ImeOverInstruction | crates/zksm83-core/src/transition.rs:536-540 | EI takes effect after exactly one further instruction, unless that is DI |
| ModeLaws.NothingBetween | crates/zksm83-core/src/transition.rs:305-335 | nothing is dispatched between EI and the end of the next instruction; after it a waiting line is |
| ModeLaws.RunOverInstruction | crates/zksm83-core/src/transition.rs:77-117 | HALT stops the CPU, or enters the HALT bug exactly when dispatch is off and a line waits |
| StepFacts.AcceptedInstruction | crates/zksm83-isa/src/metadata.rs:199-258 | every accepted instruction emits exactly the declared opcode, immediate, read and write events and takes the declared M-cycles |
| StepFacts.ExecuteFacts | crates/zksm83-core/src/execute.rs:40-60 | every operation but a copy of (HL) onto itself makes exactly its declared data accesses, alike in both modes; what it computes is in the laws of instructions above |
| StepFacts.AcceptedStep | crates/zksm83-core/src/bus.rs:708-729 | every accepted step uses exactly the witnesses its events carry in order, and fits five events and six M-cycles unless it is a long skip |
| StepFacts.LookupRefinesMerkle | crates/zksm83-core/src/transition.rs:22-117 | whenever the Merkle step accepts, the lookup step accepts with the same events and state save root and transcripts |
| Refinement.StepRefines | crates/zksm83-core/src/transition.rs:43-117 | every accepted witness-driven step, in either mode, is the plain machine's step for a well-timed instruction whose accesses are those of its events |
| Refinement.BindingIsTruthful | crates/zksm83-core/src/bus.rs:731-788 | when the roots open only to the bytes held, the byte an accepted DMA copy was supplied with is the byte held |
| Refinement.RunRefines | crates/zksm83-core/src/transition.rs:22-41 | every accepted run of witnesses is a run of the plain machine |
| Refinement.DecodedInRange | crates/zksm83-core/src/dmg.rs:127-155 | every state a witness run reaches from post-boot keeps the device and mapper ranges |
| Refinement.DecodedTransfer | crates/zksm83-core/src/bus.rs:731-788 | when a decoded instruction starts a transfer, its events hold the FF46 store, and however the witness run goes on OAM ends as the 160 bytes the CPU saw at the source addresses at that moment |
| Commitments.StepCommits | crates/zksm83-core/src/bus.rs:901-924 | when accepted openings and updates agree with what roots open to, every accepted step from a committed state ends in a committed one, and a byte copied by DMA was the byte held |
| Commitments.LoadIsHeld | crates/zksm83-core/src/bus.rs:810-829 | in a committed state an accepted load returns the byte held, with no trust in the witness |
| Commitments.RunCommits | crates/zksm83-core/src/transition.rs:22-41 | every accepted run keeps the commitment |
| Commitments.AuthenticatedRun | crates/zksm83-core/src/transition.rs:22-117 | from a committed state every accepted run is a run of the plain machine, and its last root opens to that machine's last memory |
| Commitments.AuthenticatedTransfer | crates/zksm83-core/src/bus.rs:731-788 | the transfer of `Refinement.DecodedTransfer` with no hypothesis on the supplied bytes |

## Left out

- Akita commitments, openings, receipts, hashing and the random-challenge argument behind the memory multiset: foreign code; Merkle verification is a parameter of the step, transcripts are sequences.
- Chronology.StampsBalance: token multisets stand for the challenge-inverse sums, whose agreement up to a random challenge is not modelled.
- Chronology.EncoderBalances: the same multisets.
- Chronology.BalanceForcesMemory: the same multisets; order of the links is its hypothesis, which `Chronology.TableForcesMemory` derives from the slot identities.
- Chronology.BalanceForcesHistory: the same multisets.
- Chronology.TableForcesMemory: bit-valued row, predecessor and delta columns and the row index are hypotheses, since the identities of that file do not give them; a separate clock proof does.
- Audio registers are simplified: a plain store with no read masks, no power or trigger behaviour of FF26, and FF27-FF2F stored like the rest; the clock does not touch them, and `Mmio.ReadMmio` does not give their value.
- DeviceClass.DmgDevices.WriteRegister: audio registers as above.
- Joypad, audio and FF05 device-access relations: register copies like those of `StableRow.StableTableForced` and `TupleRow.TupleExactly`.
- MmioRow.RegistersForced: the three registers the PPU half reads; `StableRow.StableTableForced` has all thirteen.
- Instruction-lane constraints, routing and cycle ownership: the active-cycle prefix of instruction rows and the one-hot address selectors of a device access are hypotheses.
- Executors.Executor.WriteData: no witness, authentication or event; `Execution` and `StepFacts` have them.
- Executors.Executor.ReadData: reports only the fault, without witness or event; the byte read is in `Execution`.
- Executors.Executor.FetchInstruction: no witness, authentication or event.
- Executors.Executor.CopyDmaByte: no witness, authentication or event.
- Executors.Executor.ApplyStep: the instruction is a supplied access list; `Refinement.StepRefines` gives that list for decoded bytes.
- Refinement.StepRefines: the byte supplied to a DMA copy is assumed to be the one held at its address; `Commitments.RunCommits` derives it for every step of an authenticated run, and in lookup mode the enclosing argument supplies it. Memory is the map that the root commits to.
- Commitments.StepCommits: that accepted openings and updates agree with one opening function is its hypothesis on the Merkle verifier.
- ControlLaws.PopRestores: stack words in plain or banked memory cells; a stack in registers or in ROM has no such law.
- MachineRow.SleepRowForced: does not separate an idle batch from a long skip, because these identities alone do not; `HaltIdleRow.HaltIdleRowExact` and `LongSkipRow.LongSkipRowExact` do.
- MachineRow.DispatchRowForced: takes the sixteen-bit range of bus addresses as given.
- MachineEncoder.MachineRowAcceptedExactly: the bus slots of a DMA byte are those of `DmaEncoder.ByteAccepted`.
- QuietRow.StatForced: with the LCD on and no skip, rows of at most 20 M-cycles; `Devices.StatBoundTight` shows that 21 is too many, and short rows have at most six.
- LongSkipRow.LongSkipRowExact: IE and the joypad are not columns of these relations.
- LongTimerRow.UntilTimerForced: M-cycle columns below 2^64, the width of the native counter; so in every theorem about long rows.
- Folding.EvaluateMultilinear: any number of variables; the source fixes fourteen.
- Folding.LaunchFold: one sequential order of the threads; by `Folding.GridCovers` each slot has one writer, so the order does not matter.
- Execution: the instruction semantics, the executor's witness consumption and the step are functions on values, not updates in place; witness and state proofs compare whole values. Order of accesses is kept.
- Log and transcript append failures and error payloads: faults carry a kind only.
- The synthetic clean-core profile, RTC registers (refused as in the source), column layout arithmetic, serialization and the CUDA driver.
- `state_access` and `flag_effect` masks of the opcode table: finite bookkeeping.
